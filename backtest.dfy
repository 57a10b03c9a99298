/** The backtests of the scanner output: the weekly backtest (buy at the
    signal day's open, sell at the close of the following Friday, with the
    capital shared out week by week) and the daily backtest (buy at the
    next bar's open, sell at the close of the fifth bar after it). */
module Backtest {
  import opened Wrappers
  import opened Calendar
  import opened Text
  import Sorting
  import Indicators
  import Scanners
  import Registry

  // ---------------------------------------------------------------------
  // Dates
  // ---------------------------------------------------------------------

  lemma WeekdayShift(d: Day, n: int)
    ensures Weekday(d + n) == (Weekday(d) + n) % 7
  {
  }

  /** The first day strictly after d that falls on weekday w (Monday = 0). */
  function NextWeekday(d: Day, w: nat): (r: Day)
    requires w < 7
    ensures d < r <= d + 7 && Weekday(r) == w
    ensures forall k :: d < k < r ==> Weekday(k) != w
  {
    NextWeekdayFacts(d, w);
    d + (w - Weekday(d) + 6) % 7 + 1
  }

  lemma NextWeekdayFacts(d: Day, w: nat)
    requires w < 7
    ensures var n := (w - Weekday(d) + 6) % 7 + 1;
      1 <= n <= 7 && Weekday(d + n) == w && forall k :: d < k < d + n ==> Weekday(k) != w
  {
    var wd := Weekday(d);
    var q := w - wd + 6;
    assert q % 7 == if q >= 7 then q - 7 else q;
    var n := q % 7 + 1;
    assert wd + n == if q >= 7 then w else w + 7;
    WeekdayShift(d, n);
    forall k | d < k < d + n ensures Weekday(k) != w {
      WeekdayShift(d, k - d);
      assert wd < wd + (k - d) < wd + n;
    }
  }

  /** next_monday: `7 - weekday()` days ahead. */
  function NextMonday(d: Day): (r: Day)
    ensures d < r <= d + 7 && Weekday(r) == 0
    ensures r == NextWeekday(d, 0)
  {
    WeekdayShift(d, 7 - Weekday(d));
    d + (7 - Weekday(d))
  }

  /** Monday and Friday as Python's weekday() numbers them. */
  const Monday: nat := 0
  const Friday: nat := 4

  /** `to_period('W-MON').start_time`: a W-MON period ends on a Monday, so
      it starts on the Tuesday on or before the date. */
  function WeekStart(d: Day): (s: Day)
    ensures s <= d < s + 7 && Weekday(s) == 1
  {
    var back := (Weekday(d) + 6) % 7;
    WeekdayShift(d, -back);
    d - back
  }

  /** Later dates never fall into earlier buckets. */
  lemma WeekStartMonotone(a: Day, b: Day)
    requires a <= b
    ensures WeekStart(a) <= WeekStart(b)
  {
    var sa, sb := WeekStart(a), WeekStart(b);
    WeekdayShift(sb, sa - sb);
  }

  /** Every bucket holds exactly one Monday, so for Monday-dated signals (a
      weekly bar's date) the buckets are the signal dates themselves. */
  lemma MondayBuckets(a: Day, b: Day)
    requires Weekday(a) == Monday && Weekday(b) == Monday
    ensures WeekStart(a) == WeekStart(b) <==> a == b
  {
    if WeekStart(a) == WeekStart(b) && a != b {
      WeekdayShift(a, b - a);
    }
  }

  // ---------------------------------------------------------------------
  // Price-series searches
  // ---------------------------------------------------------------------

  /** A daily price row: date, open and close. */
  datatype DayBar = DayBar(date: Day, open: real, close: real)

  /** A price series as the primary key orders it: strictly ascending
      dates. */
  predicate Ascending(bars: seq<DayBar>) {
    forall i, j :: 0 <= i < j < |bars| ==> bars[i].date < bars[j].date
  }

  function OnDateFrom(bars: seq<DayBar>, d: Day, i: nat): (r: Option<nat>)
    requires i <= |bars|
    ensures r.Some? ==> i <= r.value < |bars| && bars[r.value].date == d
    ensures r.Some? ==> forall j :: i <= j < r.value ==> bars[j].date != d
    ensures r.None? ==> forall j :: i <= j < |bars| ==> bars[j].date != d
    decreases |bars| - i
  {
    if i == |bars| then None
    else if bars[i].date == d then Some(i)
    else OnDateFrom(bars, d, i + 1)
  }

  /** `WHERE date = d ORDER BY date LIMIT 1`. */
  function OnDate(bars: seq<DayBar>, d: Day): (r: Option<nat>)
    ensures r.Some? ==> r.value < |bars| && bars[r.value].date == d
    ensures r.None? <==> forall j :: 0 <= j < |bars| ==> bars[j].date != d
  {
    OnDateFrom(bars, d, 0)
  }

  function FirstAfterFrom(bars: seq<DayBar>, d: Day, i: nat): (r: Option<nat>)
    requires i <= |bars|
    ensures r.Some? ==> i <= r.value < |bars| && bars[r.value].date > d
    ensures r.Some? ==> forall j :: i <= j < r.value ==> bars[j].date <= d
    ensures r.None? ==> forall j :: i <= j < |bars| ==> bars[j].date <= d
    decreases |bars| - i
  {
    if i == |bars| then None
    else if bars[i].date > d then Some(i)
    else FirstAfterFrom(bars, d, i + 1)
  }

  /** `WHERE date > d ORDER BY date ASC LIMIT 1`, as an index. */
  function FirstAfter(bars: seq<DayBar>, d: Day): (r: Option<nat>)
    ensures r.Some? ==> r.value < |bars| && bars[r.value].date > d
  {
    FirstAfterFrom(bars, d, 0)
  }

  /** On an ascending series the first bar after d splits the series: the
      bars after d are exactly those from it on. */
  lemma FirstAfterSplits(bars: seq<DayBar>, d: Day)
    requires Ascending(bars)
    ensures FirstAfter(bars, d).None? <==> forall j :: 0 <= j < |bars| ==> bars[j].date <= d
    ensures FirstAfter(bars, d).Some? ==>
      forall j :: 0 <= j < |bars| ==> (bars[j].date > d <==> j >= FirstAfter(bars, d).value)
  {
  }

  function LastAtOrBeforeUpTo(bars: seq<DayBar>, d: Day, n: nat): (r: Option<nat>)
    requires n <= |bars|
    ensures r.Some? ==> r.value < n && bars[r.value].date <= d
    ensures r.Some? ==> forall j :: r.value < j < n ==> bars[j].date > d
    ensures r.None? ==> forall j :: 0 <= j < n ==> bars[j].date > d
  {
    if n == 0 then None
    else if bars[n - 1].date <= d then Some(n - 1)
    else LastAtOrBeforeUpTo(bars, d, n - 1)
  }

  /** `WHERE date <= d ORDER BY date DESC LIMIT 1`, as an index. */
  function LastAtOrBefore(bars: seq<DayBar>, d: Day): (r: Option<nat>)
    ensures r.Some? ==> r.value < |bars|
  {
    LastAtOrBeforeUpTo(bars, d, |bars|)
  }

  /** On an ascending series the last bar at or before d splits the
      series the other way. */
  lemma LastAtOrBeforeSplits(bars: seq<DayBar>, d: Day)
    requires Ascending(bars)
    ensures LastAtOrBefore(bars, d).None? <==> forall j :: 0 <= j < |bars| ==> bars[j].date > d
    ensures LastAtOrBefore(bars, d).Some? ==>
      forall j :: 0 <= j < |bars| ==> (bars[j].date <= d <==> j <= LastAtOrBefore(bars, d).value)
  {
  }

  /** `WHERE date > d ORDER BY date ASC LIMIT 1 OFFSET 4`, as an index. */
  function FifthAfter(bars: seq<DayBar>, d: Day): (r: Option<nat>)
    ensures r.Some? ==> r.value < |bars|
  {
    match FirstAfter(bars, d)
    case None => None
    case Some(i) => if i + 4 < |bars| then Some(i + 4) else None
  }

  /** On an ascending series the exit is the fifth bar after d: exactly
      five bars are dated after d up to and including it; without an exit
      there are fewer than five bars after d. */
  lemma FifthAfterIsFifth(bars: seq<DayBar>, d: Day)
    requires Ascending(bars)
    ensures FifthAfter(bars, d).Some? ==>
      var e := FifthAfter(bars, d).value;
      e >= 4 && forall j :: 0 <= j < |bars| ==> (d < bars[j].date <= bars[e].date <==> e - 4 <= j <= e)
    ensures FifthAfter(bars, d).None? ==>
      forall j :: 0 <= j < |bars| && bars[j].date > d ==> j + 4 >= |bars|
  {
    FirstAfterSplits(bars, d);
  }

  // ---------------------------------------------------------------------
  // Signals and week buckets
  // ---------------------------------------------------------------------

  /** A scanner CSV row: the symbol and the signal date. */
  datatype Signal = Signal(symbolId: int, date: Day)

  /** `sort_values('date')` (ties keep their file order). */
  function ByDate(): (Signal, Signal) -> bool {
    (a: Signal, b: Signal) => a.date <= b.date
  }

  lemma ByDateOrder()
    ensures Sorting.Total(ByDate()) && Sorting.Transitive(ByDate())
  {
  }

  function InWeek(w: Day): Signal -> bool {
    (s: Signal) => WeekStart(s.date) == w
  }

  /** The bucket of each signal, in file order. */
  function Buckets(s: seq<Signal>): (b: seq<Day>)
    ensures |b| == |s| && forall i :: 0 <= i < |s| ==> b[i] == WeekStart(s[i].date)
  {
    seq(|s|, i requires 0 <= i < |s| => WeekStart(s[i].date))
  }

  /** Consecutive repeats collapsed. */
  function Dedup(b: seq<Day>): (r: seq<Day>)
    ensures forall x :: x in r <==> x in b
    ensures b != [] ==> r != [] && r[|r| - 1] == b[|b| - 1]
  {
    if |b| <= 1 then b
    else
      var init := Dedup(b[..|b| - 1]);
      if b[|b| - 2] == b[|b| - 1] then
        assert b == b[..|b| - 1] + [b[|b| - 1]];
        init
      else
        assert b == b[..|b| - 1] + [b[|b| - 1]];
        init + [b[|b| - 1]]
  }

  predicate Increasing(r: seq<Day>) {
    forall i, j :: 0 <= i < j < |r| ==> r[i] < r[j]
  }

  predicate NonDecreasing(b: seq<Day>) {
    forall i, j :: 0 <= i < j < |b| ==> b[i] <= b[j]
  }

  lemma {:induction false} DedupIncreasing(b: seq<Day>)
    requires NonDecreasing(b)
    ensures Increasing(Dedup(b))
  {
    if |b| > 1 {
      var init := b[..|b| - 1];
      assert NonDecreasing(init);
      DedupIncreasing(init);
      var r := Dedup(init);
      if b[|b| - 2] != b[|b| - 1] {
        forall x | x in r ensures x < b[|b| - 1] {
          var k :| 0 <= k < |init| && init[k] == x;
        }
      }
    }
  }

  /** The groupby keys of a date-sorted file: its distinct buckets in
      ascending order, the last one being the latest. */
  function WeekKeys(sorted: seq<Signal>): seq<Day> {
    Dedup(Buckets(sorted))
  }

  lemma WeekKeysAscending(sorted: seq<Signal>)
    requires Sorting.Sorted(sorted, ByDate())
    ensures var keys := WeekKeys(sorted);
      Increasing(keys)
      && (forall x :: x in sorted ==> WeekStart(x.date) in keys)
      && (forall k :: k in keys ==> exists x :: x in sorted && WeekStart(x.date) == k)
  {
    var b := Buckets(sorted);
    forall i, j | 0 <= i < j < |b| ensures b[i] <= b[j] {
      WeekStartMonotone(sorted[i].date, sorted[j].date);
    }
    DedupIncreasing(b);
    forall x | x in sorted ensures WeekStart(x.date) in WeekKeys(sorted) {
      var i :| 0 <= i < |sorted| && sorted[i] == x;
      assert b[i] in b;
    }
    forall k | k in WeekKeys(sorted) ensures exists x :: x in sorted && WeekStart(x.date) == k {
      var i :| 0 <= i < |b| && b[i] == k;
      assert sorted[i] in sorted;
    }
  }

  // ---------------------------------------------------------------------
  // One weekly trade
  // ---------------------------------------------------------------------

  /** The symbol table's yahoo_symbol and name for an id. */
  datatype SymbolInfo = SymbolInfo(yahooSymbol: string, name: string)

  /** `symbol_map.get(symbol_id, {})`, the fields defaulting to "". */
  function InfoOf(m: map<int, SymbolInfo>, id: int): SymbolInfo {
    if id in m then m[id] else SymbolInfo("", "")
  }

  /** The daily ('1d') price rows of a symbol. */
  function SeriesOf(prices: map<int, seq<DayBar>>, id: int): seq<DayBar> {
    if id in prices then prices[id] else []
  }

  /** Positive opens and closes, as prices are. */
  predicate PositivePrices(prices: map<int, seq<DayBar>>) {
    forall id, j :: id in prices && 0 <= j < |prices[id]| ==> prices[id][j].open > 0.0 && prices[id][j].close > 0.0
  }

  /** `shares * (exit - entry)` with `shares = alloc / entry`: a long
      position loses less than what it was allocated, and its return on the
      allocation is the price return. */
  function Pnl(alloc: real, entry: real, exit: real): (pnl: real)
    requires alloc > 0.0 && entry > 0.0 && exit > 0.0
    ensures pnl > -alloc
    ensures pnl / alloc * 100.0 == (exit - entry) / entry * 100.0
    ensures pnl >= 0.0 <==> exit >= entry
  {
    var shares := alloc / entry;
    assert shares * entry == alloc;
    assert shares * (exit - entry) == shares * exit - alloc;
    assert shares * exit > 0.0;
    assert shares * (exit - entry) == alloc * ((exit - entry) / entry);
    shares * (exit - entry)
  }

  /** Entry: the bar dated on the signal day. Exit: the last bar up to the
      Friday following the entry. */
  function WeeklyLegs(series: seq<DayBar>, signalDate: Day): (r: Option<(nat, nat)>)
    ensures r.Some? ==> r.value.0 < |series| && r.value.1 < |series|
    ensures r.Some? ==> series[r.value.0].date == signalDate
  {
    match OnDate(series, signalDate)
    case None => None
    case Some(i) =>
      match LastAtOrBefore(series, NextWeekday(series[i].date, Friday))
      case None => None
      case Some(j) => Some((i, j))
  }

  /** The exit query cannot come back empty once the entry bar exists:
      the entry bar itself is dated before the Friday. */
  lemma WeeklyLegsExist(series: seq<DayBar>, signalDate: Day)
    ensures WeeklyLegs(series, signalDate).None? <==> forall j :: 0 <= j < |series| ==> series[j].date != signalDate
  {
    match OnDate(series, signalDate)
    case None =>
    case Some(i) =>
      var friday := NextWeekday(series[i].date, Friday);
      var found := LastAtOrBeforeUpTo(series, friday, |series|);
      assert series[i].date < friday;
  }

  /** On an ascending series the exit is dated from the entry up to the
      following Friday, and no bar between the exit and that Friday. */
  lemma WeeklyLegsWindow(series: seq<DayBar>, signalDate: Day)
    requires Ascending(series)
    ensures WeeklyLegs(series, signalDate).Some? ==>
      var (i, j) := WeeklyLegs(series, signalDate).value;
      var friday := NextWeekday(series[i].date, Friday);
      i <= j && series[j].date <= friday && series[i].date < friday <= series[i].date + 7
      && forall k :: j < k < |series| ==> series[k].date > friday
  {
    match OnDate(series, signalDate)
    case None =>
    case Some(i) =>
      var friday := NextWeekday(series[i].date, Friday);
      LastAtOrBeforeSplits(series, friday);
  }

  datatype WeeklyTrade = WeeklyTrade(scanner: string, symbolId: int, yahooSymbol: string, symbolName: string,
                                     signalDate: Day, entryDate: Day, exitDate: Day,
                                     allocation: real, pnl: real, returnPct: real)

  /** The trade of one signal with the week's allocation, and its unrounded
      P&L (the amount the week's P&L adds up). */
  function WeeklyTradeOf(scanner: string, s: Signal, alloc: real, prices: map<int, seq<DayBar>>,
                         info: map<int, SymbolInfo>): (r: Option<(WeeklyTrade, real)>)
    requires alloc > 0.0 && PositivePrices(prices)
    ensures r.Some? ==> r.value.1 > -alloc
    ensures r.None? <==> WeeklyLegs(SeriesOf(prices, s.symbolId), s.date).None?
    ensures r.Some? ==> SignalOf(r.value.0) == s
    ensures r.Some? ==>
      var t := r.value.0;
      t.scanner == scanner && t.symbolId == s.symbolId && t.signalDate == s.date && t.entryDate == s.date
      && t.allocation == Indicators.Round2(alloc) && t.pnl == Indicators.Round2(r.value.1)
      && t.yahooSymbol == InfoOf(info, s.symbolId).yahooSymbol && t.symbolName == InfoOf(info, s.symbolId).name
    ensures r.Some? ==>
      var series := SeriesOf(prices, s.symbolId);
      var (i, j) := WeeklyLegs(series, s.date).value;
      r.value.0.exitDate == series[j].date
      && r.value.0.returnPct == Indicators.Round2((series[j].close - series[i].open) / series[i].open * 100.0)
  {
    var series := SeriesOf(prices, s.symbolId);
    match WeeklyLegs(series, s.date)
    case None => None
    case Some((i, j)) =>
      var pnl := Pnl(alloc, series[i].open, series[j].close);
      var who := InfoOf(info, s.symbolId);
      Some((WeeklyTrade(scanner, s.symbolId, who.yahooSymbol, who.name, s.date, series[i].date, series[j].date,
                        Indicators.Round2(alloc), Indicators.Round2(pnl), Indicators.Round2(pnl / alloc * 100.0)), pnl))
  }

  // ---------------------------------------------------------------------
  // One week, then the whole file
  // ---------------------------------------------------------------------

  /** The signal a trade was opened on. */
  function SignalOf(t: WeeklyTrade): Signal {
    Signal(t.symbolId, t.signalDate)
  }

  function SignalsOf(ts: seq<WeeklyTrade>): (r: seq<Signal>)
    ensures |r| == |ts| && forall k :: 0 <= k < |ts| ==> r[k] == SignalOf(ts[k])
  {
    seq(|ts|, k requires 0 <= k < |ts| => SignalOf(ts[k]))
  }

  /** A signal with a bar on its day. */
  function Traded(prices: map<int, seq<DayBar>>): Signal -> bool {
    (s: Signal) => WeeklyLegs(SeriesOf(prices, s.symbolId), s.date).Some?
  }

  /** The trades of one week's signals in the week's row order, with the
      week's P&L (the unrounded sum); `trade` opens the trade of one signal
      at the week's allocation, or none. */
  function WeekTrades(group: seq<Signal>, trade: Signal -> Option<(WeeklyTrade, real)>): (seq<WeeklyTrade>, real)
    decreases |group|
  {
    if group == [] then ([], 0.0)
    else
      var (ts, pnl) := WeekTrades(group[..|group| - 1], trade);
      match trade(group[|group| - 1])
      case None => (ts, pnl)
      case Some((t, p)) => (ts + [t], pnl + p)
  }

  /** The week's trades are those of the signals `keep` lets through, in
      row order. */
  lemma {:induction false} WeekTradesSignals(group: seq<Signal>, trade: Signal -> Option<(WeeklyTrade, real)>, keep: Signal -> bool)
    requires forall s :: trade(s).Some? <==> keep(s)
    requires forall s :: trade(s).Some? ==> SignalOf(trade(s).value.0) == s
    ensures SignalsOf(WeekTrades(group, trade).0) == Scanners.Filter(group, keep)
    decreases |group|
  {
    if group != [] {
      var init := group[..|group| - 1];
      var s := group[|group| - 1];
      assert group == init + [s];
      Scanners.FilterSnoc(init, s, keep);
      WeekTradesSignals(init, trade, keep);
      var ts := WeekTrades(init, trade).0;
      if trade(s).Some? {
        SignalsSnoc(ts, trade(s).value.0);
      }
    }
  }

  /** Each trade loses less than the allocation, so the week loses less than
      the allocation times the number of trades. */
  lemma {:induction false} WeekTradesLoss(group: seq<Signal>, trade: Signal -> Option<(WeeklyTrade, real)>, alloc: real)
    requires alloc > 0.0
    requires forall s :: trade(s).Some? ==> trade(s).value.1 > -alloc
    ensures var (ts, pnl) := WeekTrades(group, trade);
      (|ts| == 0 ==> pnl == 0.0) && (|ts| > 0 ==> pnl > -Stakes(|ts|, alloc))
    decreases |group|
  {
    if group != [] {
      var init := group[..|group| - 1];
      WeekTradesLoss(init, trade, alloc);
      var (ts, pnl) := WeekTrades(init, trade);
      var s := group[|group| - 1];
      if trade(s).Some? {
        LossBound(pnl, trade(s).value.1, |ts|, alloc);
      }
    }
  }

  lemma SignalsSnoc(ts: seq<WeeklyTrade>, t: WeeklyTrade)
    ensures SignalsOf(ts + [t]) == SignalsOf(ts) + [SignalOf(t)]
  {
    assert |SignalsOf(ts + [t])| == |SignalsOf(ts) + [SignalOf(t)]|;
  }

  /** k allocations of a, added one at a time. */
  function Stakes(k: nat, a: real): real {
    if k == 0 then 0.0 else Stakes(k - 1, a) + a
  }

  lemma {:induction false} StakesProduct(k: nat, a: real)
    ensures Stakes(k, a) == k as real * a
  {
    if k > 0 {
      StakesProduct(k - 1, a);
      assert k as real * a == (k - 1) as real * a + a;
    }
  }

  /** One more trade losing less than the allocation keeps the week's loss
      under the allocation times the number of trades. */
  lemma LossBound(pnl: real, p: real, k: nat, alloc: real)
    requires alloc > 0.0 && p > -alloc
    requires k == 0 ==> pnl == 0.0
    requires k > 0 ==> pnl > -Stakes(k, alloc)
    ensures pnl + p > -Stakes(k + 1, alloc)
  {
  }

  /** The trade of a signal at a given allocation, as a function. */
  function TradeFn(scanner: string, alloc: real, prices: map<int, seq<DayBar>>, info: map<int, SymbolInfo>): (f: Signal -> Option<(WeeklyTrade, real)>)
    requires alloc > 0.0 && PositivePrices(prices)
    ensures forall s :: f(s) == WeeklyTradeOf(scanner, s, alloc, prices, info)
    ensures forall s :: f(s).Some? <==> Traded(prices)(s)
    ensures forall s :: f(s).Some? ==> SignalOf(f(s).value.0) == s && f(s).value.1 > -alloc
  {
    (s: Signal) => WeeklyTradeOf(scanner, s, alloc, prices, info)
  }

  /** A row of the weekly capital log. */
  datatype WeekLog = WeekLog(week: Day, signals: nat, weeklyPnl: real, capitalEnd: real)

  /** The running state of one file's weekly backtest. */
  datatype Ledger = Ledger(capital: real, trades: seq<WeeklyTrade>, log: seq<WeekLog>)

  const InitialCapital: real := 1000000.0

  /** The capital only moves with a log row, whose capital_end is the
      capital rounded. */
  predicate LogAgrees(l: Ledger) {
    (l.log == [] ==> l.capital == InitialCapital)
    && (l.log != [] ==> l.log[|l.log| - 1].capitalEnd == Indicators.Round2(l.capital))
  }

  /** One week: the capital is shared equally between the week's signals;
      the capital moves, and the log gets a row, only when the week's P&L
      is not zero. */
  function WeekStep(l: Ledger, scanner: string, w: Day, group: seq<Signal>, prices: map<int, seq<DayBar>>,
                    info: map<int, SymbolInfo>): (r: Ledger)
    requires l.capital > 0.0 && PositivePrices(prices)
    ensures r.capital > 0.0
    ensures |l.trades| <= |r.trades| <= |l.trades| + |group|
    ensures r.trades[..|l.trades|] == l.trades
    ensures SignalsOf(r.trades[|l.trades|..]) == Scanners.Filter(group, Traded(prices))
    ensures LogAgrees(l) ==> LogAgrees(r)
  {
    if |group| == 0 then l
    else
      var alloc := l.capital / |group| as real;
      PositiveShare(l.capital, |group|);
      var trade := TradeFn(scanner, alloc, prices, info);
      WeekTradesSignals(group, trade, Traded(prices));
      WeekTradesLoss(group, trade, alloc);
      var (ts, pnl) := WeekTrades(group, trade);
      CapitalStaysPositive(l.capital, |group|, |ts|, pnl);
      ApplyWeekFacts(l, w, |group|, ts, pnl);
      ApplyWeek(l, w, |group|, ts, pnl)
  }

  /** Each of n signals gets a positive share of a positive capital. */
  lemma PositiveShare(capital: real, n: nat)
    requires capital > 0.0 && n > 0
    ensures capital / n as real > 0.0
  {
  }

  /** The ledger after a week with the given trades and P&L. */
  function ApplyWeek(l: Ledger, w: Day, signals: nat, ts: seq<WeeklyTrade>, pnl: real): Ledger {
    if pnl != 0.0 then
      Ledger(l.capital + pnl, l.trades + ts, l.log + [WeekLog(w, signals, Indicators.Round2(pnl), Indicators.Round2(l.capital + pnl))])
    else
      Ledger(l.capital, l.trades + ts, l.log)
  }

  /** The trades are appended; the capital moves, and the log gets a row
      for the week, only when the P&L is not zero. */
  lemma ApplyWeekFacts(l: Ledger, w: Day, signals: nat, ts: seq<WeeklyTrade>, pnl: real)
    ensures var r := ApplyWeek(l, w, signals, ts, pnl);
      r.trades[..|l.trades|] == l.trades && r.trades[|l.trades|..] == ts
      && (r.log == l.log <==> pnl == 0.0)
      && (r.log == l.log ==> r.capital == l.capital)
      && (r.log != l.log ==> |r.log| == |l.log| + 1 && r.log[..|l.log|] == l.log)
      && (LogAgrees(l) ==> LogAgrees(r))
  {
    var r := ApplyWeek(l, w, signals, ts, pnl);
    assert (l.trades + ts)[..|l.trades|] == l.trades;
    assert (l.trades + ts)[|l.trades|..] == ts;
    if pnl != 0.0 {
      assert |r.log| == |l.log| + 1;
      assert r.log[..|l.log|] == l.log;
    }
  }

  /** A week that moves the capital logs the week, its signal count, its
      P&L and the new capital, rounded. */
  lemma WeekLogRow(l: Ledger, scanner: string, w: Day, group: seq<Signal>, prices: map<int, seq<DayBar>>,
                   info: map<int, SymbolInfo>)
    requires l.capital > 0.0 && PositivePrices(prices)
    ensures var r := WeekStep(l, scanner, w, group, prices, info);
      (r.log == l.log ==> r.capital == l.capital)
      && (r.log != l.log ==>
            (|r.log| == |l.log| + 1 && r.log[..|l.log|] == l.log
             && r.log[|l.log|] == WeekLog(w, |group|, Indicators.Round2(r.capital - l.capital), Indicators.Round2(r.capital))))
  {
    if |group| > 0 {
      var alloc := l.capital / |group| as real;
      PositiveShare(l.capital, |group|);
      var (ts, pnl) := WeekTrades(group, TradeFn(scanner, alloc, prices, info));
      ApplyWeekFacts(l, w, |group|, ts, pnl);
    }
  }

  /** k trades that each lose less than capital / n, with k <= n, lose
      less than the capital. */
  lemma CapitalStaysPositive(capital: real, n: nat, k: nat, pnl: real)
    requires capital > 0.0 && 0 < n && k <= n
    requires k == 0 ==> pnl == 0.0
    requires k > 0 ==> pnl > -Stakes(k, capital / n as real)
    ensures capital + pnl > 0.0
  {
    var a := capital / n as real;
    StakesProduct(k, a);
    assert (n as real) * a == capital;
    assert (k as real) * a <= (n as real) * a;
  }

  /** The weeks of the file in ascending order, each one grouping the rows
      of its bucket; the latest week is skipped. */
  function Run(scanner: string, keys: seq<Day>, last: Day, sorted: seq<Signal>, prices: map<int, seq<DayBar>>,
               info: map<int, SymbolInfo>): (r: Ledger)
    requires PositivePrices(prices)
    ensures r.capital > 0.0
    ensures LogAgrees(r)
    decreases |keys|
  {
    if keys == [] then Ledger(InitialCapital, [], [])
    else
      var l := Run(scanner, keys[..|keys| - 1], last, sorted, prices, info);
      var w := keys[|keys| - 1];
      if w == last then l
      else WeekStep(l, scanner, w, Scanners.Filter(sorted, InWeek(w)), prices, info)
  }

  /** Every trade is opened on a row of the file, and none in the latest
      week. */
  lemma {:induction false} RunTrades(scanner: string, keys: seq<Day>, last: Day, sorted: seq<Signal>,
                                     prices: map<int, seq<DayBar>>, info: map<int, SymbolInfo>)
    requires PositivePrices(prices)
    ensures forall t :: t in Run(scanner, keys, last, sorted, prices, info).trades ==>
      SignalOf(t) in sorted && WeekStart(t.signalDate) != last
    decreases |keys|
  {
    if keys != [] {
      var l := Run(scanner, keys[..|keys| - 1], last, sorted, prices, info);
      RunTrades(scanner, keys[..|keys| - 1], last, sorted, prices, info);
      var w := keys[|keys| - 1];
      if w != last {
        var r := WeekStep(l, scanner, w, Scanners.Filter(sorted, InWeek(w)), prices, info);
        RunStep(l, r, w, last, sorted, Traded(prices));
      }
    }
  }

  lemma RunStep(l: Ledger, r: Ledger, w: Day, last: Day, sorted: seq<Signal>, keep: Signal -> bool)
    requires w != last
    requires forall t :: t in l.trades ==> SignalOf(t) in sorted && WeekStart(t.signalDate) != last
    requires |l.trades| <= |r.trades| && r.trades[..|l.trades|] == l.trades
    requires SignalsOf(r.trades[|l.trades|..]) == Scanners.Filter(Scanners.Filter(sorted, InWeek(w)), keep)
    ensures forall t :: t in r.trades ==> SignalOf(t) in sorted && WeekStart(t.signalDate) != last
  {
    forall t | t in r.trades
      ensures SignalOf(t) in sorted && WeekStart(t.signalDate) != last
    {
      var k :| 0 <= k < |r.trades| && r.trades[k] == t;
      if k < |l.trades| {
        assert t == l.trades[k];
      } else {
        var grown := r.trades[|l.trades|..];
        assert grown[k - |l.trades|] == t;
        assert SignalOf(t) in SignalsOf(grown);
      }
    }
  }

  // ---------------------------------------------------------------------
  // Statistics and summaries
  // ---------------------------------------------------------------------

  /** The largest of a non-empty list. */
  function MaxOf(s: seq<real>): (m: real)
    requires s != []
    ensures m in s && forall x :: x in s ==> x <= m
  {
    if |s| == 1 then s[0]
    else
      assert s == [s[0]] + s[1..];
      var rest := MaxOf(s[1..]); if s[0] >= rest then s[0] else rest
  }

  /** The smallest of a non-empty list. */
  function MinOf(s: seq<real>): (m: real)
    requires s != []
    ensures m in s && forall x :: x in s ==> m <= x
  {
    if |s| == 1 then s[0]
    else
      assert s == [s[0]] + s[1..];
      var rest := MinOf(s[1..]); if s[0] <= rest then s[0] else rest
  }

  function Positive(): real -> bool {
    (x: real) => x > 0.0
  }

  /** Trade count, win rate (the share of strictly positive returns, in
      percent) and the best and worst return of a scanner. */
  datatype Stats = Stats(totalTrades: nat, winPct: real, maxProfitPct: real, maxLossPct: real)

  lemma Percent(c: nat, n: nat)
    requires 0 < n && c <= n
    ensures 0.0 <= c as real / n as real * 100.0 <= 100.0
    ensures c == n ==> c as real / n as real * 100.0 == 100.0
  {
    assert c as real / n as real <= 1.0;
  }

  /** Every return positive: every trade a win; none positive: no win. */
  lemma WinsCount(rets: seq<real>)
    ensures (forall x :: x in rets ==> x > 0.0) ==> |Scanners.Filter(rets, Positive())| == |rets|
    ensures (forall x :: x in rets ==> x <= 0.0) ==> |Scanners.Filter(rets, Positive())| == 0
  {
    var wins := Scanners.Filter(rets, Positive());
    if forall x :: x in rets ==> x > 0.0 {
      Scanners.FilterAll(rets, Positive());
    }
    if wins != [] {
      assert wins[0] in wins;
    }
  }

  function StatsOf(rets: seq<real>): (r: Stats)
    ensures r.totalTrades == |rets|
    ensures rets == [] ==> r == Stats(0, 0.0, 0.0, 0.0)
    ensures 0.0 <= r.winPct <= 100.0
    ensures r.maxLossPct <= r.maxProfitPct
  {
    if rets == [] then Stats(0, 0.0, 0.0, 0.0)
    else
      var wins := Scanners.Filter(rets, Positive());
      var n := |rets|;
      Percent(|wins|, n);
      var share := |wins| as real / n as real * 100.0;
      Indicators.Round2Within(share, 0, 100);
      var hi := MaxOf(rets);
      var lo := MinOf(rets);
      Indicators.Round2Monotone(lo, hi);
      Stats(n, Indicators.Round2(share), Indicators.Round2(hi), Indicators.Round2(lo))
  }

  /** The best and worst figures are the rounded largest and smallest
      returns. */
  lemma StatsExtremes(rets: seq<real>)
    requires rets != []
    ensures exists m :: m in rets && (forall x :: x in rets ==> x <= m) && StatsOf(rets).maxProfitPct == Indicators.Round2(m)
    ensures exists m :: m in rets && (forall x :: x in rets ==> m <= x) && StatsOf(rets).maxLossPct == Indicators.Round2(m)
  {
    var hi := MaxOf(rets);
    var lo := MinOf(rets);
    assert StatsOf(rets).maxProfitPct == Indicators.Round2(hi);
    assert StatsOf(rets).maxLossPct == Indicators.Round2(lo);
  }

  /** All returns positive: a win rate of 100; none positive: 0. */
  lemma StatsWinRate(rets: seq<real>)
    ensures rets != [] && (forall x :: x in rets ==> x > 0.0) ==> StatsOf(rets).winPct == 100.0
    ensures (forall x :: x in rets ==> x <= 0.0) ==> StatsOf(rets).winPct == 0.0
  {
    WinsCount(rets);
    if rets != [] {
      var wins := Scanners.Filter(rets, Positive());
      Percent(|wins|, |rets|);
      Indicators.Round2Whole(100);
      Indicators.Round2Whole(0);
      assert StatsOf(rets).winPct == Indicators.Round2(|wins| as real / |rets| as real * 100.0);
    }
  }

  function ReturnsOf(ts: seq<WeeklyTrade>): (r: seq<real>)
    ensures |r| == |ts| && forall k :: 0 <= k < |ts| ==> r[k] == ts[k].returnPct
  {
    seq(|ts|, k requires 0 <= k < |ts| => ts[k].returnPct)
  }

  /** One line of the weekly performance summary. */
  datatype WeeklySummary = WeeklySummary(scanner: string, stats: Stats, finalCapital: real, netPnl: real,
                                         totalReturnPct: real)

  /** The summary of a finished run: capital, net P&L and return rounded
      one after the other, as the source rounds them. */
  function SummaryOf(scanner: string, l: Ledger): (r: WeeklySummary)
    requires l.capital > 0.0
    ensures r.scanner == scanner && r.stats == StatsOf(ReturnsOf(l.trades))
    ensures r.finalCapital >= 0.0 && r.netPnl >= -InitialCapital && r.totalReturnPct >= -100.0
    ensures l.capital == InitialCapital ==> r.finalCapital == InitialCapital && r.netPnl == 0.0 && r.totalReturnPct == 0.0
  {
    var finalCapital := Indicators.Round2(l.capital);
    var netPnl := Indicators.Round2(finalCapital - InitialCapital);
    var ret := Indicators.Round2(netPnl / InitialCapital * 100.0);
    SummaryBounds(l.capital, finalCapital, netPnl, ret);
    WeeklySummary(scanner, StatsOf(ReturnsOf(l.trades)), finalCapital, netPnl, ret)
  }

  lemma SummaryBounds(capital: real, finalCapital: real, netPnl: real, ret: real)
    requires capital > 0.0
    requires finalCapital == Indicators.Round2(capital)
    requires netPnl == Indicators.Round2(finalCapital - InitialCapital)
    requires ret == Indicators.Round2(netPnl / InitialCapital * 100.0)
    ensures finalCapital >= 0.0 && netPnl >= -InitialCapital && ret >= -100.0
    ensures capital == InitialCapital ==> finalCapital == InitialCapital && netPnl == 0.0 && ret == 0.0
  {
    Indicators.Round2Monotone(0.0, capital);
    Indicators.Round2Whole(0);
    Indicators.Round2Whole(-1000000);
    Indicators.Round2Whole(-100);
    Indicators.Round2Whole(1000000);
    Indicators.Round2Monotone(-InitialCapital, finalCapital - InitialCapital);
    Indicators.Round2Monotone(-100.0, netPnl / InitialCapital * 100.0);
  }

  // ---------------------------------------------------------------------
  // Scanner files
  // ---------------------------------------------------------------------

  /** A scanner CSV: its file name, header and rows. */
  datatype CsvFile = CsvFile(name: string, columns: seq<string>, rows: seq<Signal>)

  const SignalColumns: seq<string> := ["symbol_id", "yahoo_symbol", "date"]

  /** `file_name.replace(".csv", "")`. */
  function ScannerName(fileName: string): (r: string)
    ensures |r| <= |fileName|
  {
    RemoveAll(fileName, ".csv")
  }

  function IsCsv(): CsvFile -> bool {
    (f: CsvFile) => EndsWith(f.name, ".csv")
  }

  /** The column check as written: a missing column is logged, and the
      `continue` only moves on to the next column, so the file is never
      skipped. */
  function ColumnCheckAsWritten(columns: seq<string>): (r: (seq<string>, bool))
    ensures forall c :: c in r.0 <==> c in SignalColumns && c !in columns
    ensures !r.1
  {
    (Scanners.MissingColumns(SignalColumns, columns), false)
  }

  /** A file without a yahoo_symbol column still gets past the check, and
      nothing later reads that column from the file. */
  lemma ColumnCheckLetsThrough()
    ensures var r := ColumnCheckAsWritten(["symbol_id", "date"]);
      "yahoo_symbol" in r.0 && !r.1
  {
  }

  /** The check as its log message intends it: a file missing any of the
      three columns is skipped. */
  function SkipsFile(columns: seq<string>): (skip: bool)
    ensures skip <==> exists c :: c in SignalColumns && c !in columns
  {
    var missing := Scanners.MissingColumns(SignalColumns, columns);
    if missing != [] then assert missing[0] in missing; true else false
  }

  /** One file of the weekly backtest: skipped (None) when empty or missing
      a column, otherwise its summary and its trades. */
  function WeeklyOutcome(f: CsvFile, prices: map<int, seq<DayBar>>, info: map<int, SymbolInfo>): (r: Option<(WeeklySummary, seq<WeeklyTrade>)>)
    requires PositivePrices(prices)
    ensures r.None? <==> f.rows == [] || SkipsFile(f.columns)
    ensures r.Some? ==> r.value.0.scanner == ScannerName(f.name) && r.value.0.stats == StatsOf(ReturnsOf(r.value.1))
    ensures r.Some? ==> r.value.0.finalCapital >= 0.0
    ensures r.Some? ==> forall t :: t in r.value.1 ==> SignalOf(t) in f.rows
    ensures r.Some? ==> forall t :: t in r.value.1 ==> exists x :: x in f.rows && WeekStart(t.signalDate) < WeekStart(x.date)
  {
    if f.rows == [] || SkipsFile(f.columns) then None
    else
      var sorted := Sorting.Sort(f.rows, ByDate());
      var keys := WeekKeys(sorted);
      var last := keys[|keys| - 1];
      var l := Run(ScannerName(f.name), keys, last, sorted, prices, info);
      RunTrades(ScannerName(f.name), keys, last, sorted, prices, info);
      LatestWeekSkipped(f.rows, l.trades, sorted, keys);
      Some((SummaryOf(ScannerName(f.name), l), l.trades))
  }

  /** Sorting keeps the rows of the file. */
  lemma SortKeepsRows(rows: seq<Signal>)
    ensures forall x :: x in Sorting.Sort(rows, ByDate()) <==> x in rows
  {
    var sorted := Sorting.Sort(rows, ByDate());
    forall x ensures x in sorted <==> x in rows {
      assert x in sorted <==> x in multiset(sorted);
      assert x in rows <==> x in multiset(rows);
    }
  }

  /** In an increasing list every other element is below the last one. */
  lemma BelowLast(keys: seq<Day>, v: Day)
    requires Increasing(keys) && v in keys && v != keys[|keys| - 1]
    ensures v < keys[|keys| - 1]
  {
    var k :| 0 <= k < |keys| && keys[k] == v;
  }

  /** Every trade comes from a week before the file's latest week. */
  lemma LatestWeekSkipped(rows: seq<Signal>, trades: seq<WeeklyTrade>, sorted: seq<Signal>, keys: seq<Day>)
    requires rows != [] && sorted == Sorting.Sort(rows, ByDate()) && keys == WeekKeys(sorted)
    requires forall t :: t in trades ==> SignalOf(t) in sorted && WeekStart(t.signalDate) != keys[|keys| - 1]
    ensures forall t :: t in trades ==> SignalOf(t) in rows
    ensures forall t :: t in trades ==> exists x :: x in rows && WeekStart(t.signalDate) < WeekStart(x.date)
  {
    ByDateOrder();
    Sorting.SortSorted(rows, ByDate());
    WeekKeysAscending(sorted);
    SortKeepsRows(rows);
    var last := keys[|keys| - 1];
    assert last in keys;
    var y :| y in sorted && WeekStart(y.date) == last;
    forall t | t in trades
      ensures exists x :: x in rows && WeekStart(t.signalDate) < WeekStart(x.date)
    {
      BelowLast(keys, WeekStart(t.signalDate));
    }
  }

  /** The files in listing order, each adding its summary and its trades. */
  function WeeklyFiles(files: seq<CsvFile>, prices: map<int, seq<DayBar>>, info: map<int, SymbolInfo>): (r: (seq<WeeklySummary>, seq<WeeklyTrade>))
    requires PositivePrices(prices)
    ensures |r.0| <= |files|
    decreases |files|
  {
    if files == [] then ([], [])
    else
      var (sums, trades) := WeeklyFiles(files[..|files| - 1], prices, info);
      match WeeklyOutcome(files[|files| - 1], prices, info)
      case None => (sums, trades)
      case Some((sum, ts)) => (sums + [sum], trades + ts)
  }

  function ByScanner(): (WeeklySummary, WeeklySummary) -> bool {
    (a: WeeklySummary, b: WeeklySummary) => StrLe(a.scanner, b.scanner)
  }

  lemma ByScannerOrder()
    ensures Sorting.Total(ByScanner()) && Sorting.Transitive(ByScanner())
  {
    var le := ByScanner();
    forall a: WeeklySummary, b: WeeklySummary ensures le(a, b) || le(b, a) {
      StrLeTotal(a.scanner, b.scanner);
    }
    forall a: WeeklySummary, b: WeeklySummary, c: WeeklySummary | le(a, b) && le(b, c) ensures le(a, c) {
      StrLeTrans(a.scanner, b.scanner, c.scanner);
    }
  }

  /** What the folder path names: nothing (the path is empty or does not
      exist), an existing path that is not a directory, or a directory with
      its entries in `os.listdir` order. */
  datatype FolderPath = Absent | NotADirectory | Directory(entries: seq<CsvFile>)

  /** `os.listdir` on a path that exists but is not a directory raises
      NotADirectoryError, which no except clause of either backtest
      catches. */
  const NotADirectoryMessage: string := "Not a directory"

  /** The weekly backtest of a folder: nothing for an empty or missing
      path or without csv files, an error for a path that is not a
      directory or an unknown asset type, otherwise the summaries ordered
      by scanner and every trade. */
  function BacktestWeekly(folder: FolderPath, assetType: string, prices: map<int, seq<DayBar>>,
                          info: map<int, SymbolInfo>): (r: Result<(seq<WeeklySummary>, seq<WeeklyTrade>)>)
    requires PositivePrices(prices)
    ensures folder.Absent? ==> r == Ok(([], []))
    ensures folder.NotADirectory? ==> r == Err(NotADirectoryMessage)
    ensures folder.Directory? && Scanners.Filter(folder.entries, IsCsv()) == [] ==> r == Ok(([], []))
    ensures r.Err? <==>
      (folder.NotADirectory?
       || (folder.Directory? && Scanners.Filter(folder.entries, IsCsv()) != [] && Registry.Lookup(assetType).None?))
    ensures r.Ok? ==> Sorting.Sorted(r.value.0, ByScanner())
    ensures r.Ok? && folder.Directory? ==>
      var (sums, trades) := WeeklyFiles(Scanners.Filter(folder.entries, IsCsv()), prices, info);
      multiset(r.value.0) == multiset(sums) && r.value.1 == trades
  {
    match folder
    case Absent => Ok(([], []))
    case NotADirectory => Err(NotADirectoryMessage)
    case Directory(entries) =>
      var csv := Scanners.Filter(entries, IsCsv());
      if csv == [] then Ok(([], []))
      else if Registry.Lookup(assetType).None? then Err("Unsupported asset_type: " + assetType)
      else
        var (sums, trades) := WeeklyFiles(csv, prices, info);
        ByScannerOrder();
        Sorting.SortSorted(sums, ByScanner());
        Ok((Sorting.Sort(sums, ByScanner()), trades))
  }

  // ---------------------------------------------------------------------
  // The weekly backtest, loop by loop
  // ---------------------------------------------------------------------

  /** One more row of the week. */
  lemma WeekTradesStep(group: seq<Signal>, j: nat, trade: Signal -> Option<(WeeklyTrade, real)>)
    requires j < |group|
    ensures trade(group[j]).None? ==> WeekTrades(group[..j + 1], trade) == WeekTrades(group[..j], trade)
    ensures trade(group[j]).Some? ==>
      var before := WeekTrades(group[..j], trade);
      WeekTrades(group[..j + 1], trade) == (before.0 + [trade(group[j]).value.0], before.1 + trade(group[j]).value.1)
  {
    assert group[..j + 1][..j] == group[..j];
  }

  /** The rows of one week, each trade adding its P&L to the week's;
      `trade` stands for the entry and exit queries of one row. */
  method WeekRows(group: seq<Signal>, trade: Signal -> Option<(WeeklyTrade, real)>)
    returns (trades: seq<WeeklyTrade>, weeklyPnl: real)
    ensures (trades, weeklyPnl) == WeekTrades(group, trade)
  {
    trades, weeklyPnl := [], 0.0;
    for j := 0 to |group|
      invariant (trades, weeklyPnl) == WeekTrades(group[..j], trade)
    {
      WeekTradesStep(group, j, trade);
      var entry := trade(group[j]);
      if entry.Some? {
        weeklyPnl := weeklyPnl + entry.value.1;
        trades := trades + [entry.value.0];
      }
    }
    assert group[..|group|] == group;
  }

  /** One more week of the file. */
  lemma RunStepAt(scanner: string, keys: seq<Day>, k: nat, last: Day, sorted: seq<Signal>,
                  prices: map<int, seq<DayBar>>, info: map<int, SymbolInfo>)
    requires k < |keys| && PositivePrices(prices)
    ensures var l := Run(scanner, keys[..k], last, sorted, prices, info);
      Run(scanner, keys[..k + 1], last, sorted, prices, info)
      == if keys[k] == last then l else WeekStep(l, scanner, keys[k], Scanners.Filter(sorted, InWeek(keys[k])), prices, info)
  {
    assert keys[..k + 1][..k] == keys[..k];
  }

  /** What one week does to the ledger, given the week's trades. */
  lemma WeekStepUnfold(l: Ledger, scanner: string, w: Day, group: seq<Signal>, prices: map<int, seq<DayBar>>,
                       info: map<int, SymbolInfo>, ts: seq<WeeklyTrade>, pnl: real)
    requires l.capital > 0.0 && PositivePrices(prices) && |group| > 0
    requires l.capital / |group| as real > 0.0
    requires (ts, pnl) == WeekTrades(group, TradeFn(scanner, l.capital / |group| as real, prices, info))
    ensures WeekStep(l, scanner, w, group, prices, info) == ApplyWeek(l, w, |group|, ts, pnl)
  {
  }

  /** The body of the weeks loop: the latest week and an empty week are
      passed over; otherwise the week's rows are traded and the capital and
      the log move when the week's P&L is not zero. */
  method WeekBody(scanner: string, w: Day, last: Day, sorted: seq<Signal>, prices: map<int, seq<DayBar>>,
                  info: map<int, SymbolInfo>, capital0: real, trades0: seq<WeeklyTrade>, log0: seq<WeekLog>)
    returns (capital: real, trades: seq<WeeklyTrade>, log: seq<WeekLog>)
    requires capital0 > 0.0 && PositivePrices(prices)
    ensures var l := Ledger(capital0, trades0, log0);
      Ledger(capital, trades, log)
      == if w == last then l else WeekStep(l, scanner, w, Scanners.Filter(sorted, InWeek(w)), prices, info)
  {
    capital, trades, log := capital0, trades0, log0;
    if w == last {
      return;
    }
    var group := Scanners.Filter(sorted, InWeek(w));
    if |group| == 0 {
      return;
    }
    var alloc := capital / |group| as real;
    PositiveShare(capital, |group|);
    var ts, weeklyPnl := WeekRows(group, TradeFn(scanner, alloc, prices, info));
    WeekStepUnfold(Ledger(capital, trades, log), scanner, w, group, prices, info, ts, weeklyPnl);
    trades := trades + ts;
    if weeklyPnl != 0.0 {
      capital := capital + weeklyPnl;
      log := log + [WeekLog(w, |group|, Indicators.Round2(weeklyPnl), Indicators.Round2(capital))];
    }
  }

  /** The weeks of one file in ascending order. */
  method WeekLoop(scanner: string, keys: seq<Day>, last: Day, sorted: seq<Signal>, prices: map<int, seq<DayBar>>,
                  info: map<int, SymbolInfo>) returns (l: Ledger)
    requires PositivePrices(prices)
    ensures l == Run(scanner, keys, last, sorted, prices, info)
  {
    var capital := InitialCapital;
    var trades: seq<WeeklyTrade> := [];
    var log: seq<WeekLog> := [];
    for k := 0 to |keys|
      invariant Ledger(capital, trades, log) == Run(scanner, keys[..k], last, sorted, prices, info)
    {
      RunStepAt(scanner, keys, k, last, sorted, prices, info);
      capital, trades, log := WeekBody(scanner, keys[k], last, sorted, prices, info, capital, trades, log);
    }
    assert keys[..|keys|] == keys;
    l := Ledger(capital, trades, log);
  }

  method WeeklyFile(f: CsvFile, prices: map<int, seq<DayBar>>, info: map<int, SymbolInfo>)
    returns (o: Option<(WeeklySummary, seq<WeeklyTrade>)>)
    requires PositivePrices(prices)
    ensures o == WeeklyOutcome(f, prices, info)
  {
    if f.rows == [] || SkipsFile(f.columns) {
      return None;
    }
    var sorted := Sorting.Sort(f.rows, ByDate());
    var keys := WeekKeys(sorted);
    var l := WeekLoop(ScannerName(f.name), keys, keys[|keys| - 1], sorted, prices, info);
    o := Some((SummaryOf(ScannerName(f.name), l), l.trades));
  }

  /** One more file of the folder. */
  lemma WeeklyFilesStep(files: seq<CsvFile>, i: nat, prices: map<int, seq<DayBar>>, info: map<int, SymbolInfo>)
    requires i < |files| && PositivePrices(prices)
    ensures var (sums, trades) := WeeklyFiles(files[..i], prices, info);
      WeeklyFiles(files[..i + 1], prices, info)
      == match WeeklyOutcome(files[i], prices, info)
         case None => (sums, trades)
         case Some((sum, ts)) => (sums + [sum], trades + ts)
  {
    assert files[..i + 1][..i] == files[..i];
  }

  /** backtest_weekly_scanners: the folder's csv files one by one, the
      summaries sorted by scanner at the end. */
  method BacktestWeeklyScanners(folder: FolderPath, assetType: string, prices: map<int, seq<DayBar>>,
                                info: map<int, SymbolInfo>) returns (r: Result<(seq<WeeklySummary>, seq<WeeklyTrade>)>)
    requires PositivePrices(prices)
    ensures r == BacktestWeekly(folder, assetType, prices, info)
  {
    if folder.Absent? {
      return Ok(([], []));
    }
    if folder.NotADirectory? {
      return Err(NotADirectoryMessage);
    }
    var csv := Scanners.Filter(folder.entries, IsCsv());
    if csv == [] {
      return Ok(([], []));
    }
    if Registry.Lookup(assetType).None? {
      return Err("Unsupported asset_type: " + assetType);
    }
    var sums: seq<WeeklySummary> := [];
    var all: seq<WeeklyTrade> := [];
    for i := 0 to |csv|
      invariant (sums, all) == WeeklyFiles(csv[..i], prices, info)
    {
      WeeklyFilesStep(csv, i, prices, info);
      var o := WeeklyFile(csv[i], prices, info);
      if o.Some? {
        sums := sums + [o.value.0];
        all := all + o.value.1;
      }
    }
    assert csv[..|csv|] == csv;
    r := Ok((Sorting.Sort(sums, ByScanner()), all));
  }

  // ---------------------------------------------------------------------
  // The daily backtest
  // ---------------------------------------------------------------------

  datatype DailyTrade = DailyTrade(scanner: string, symbolId: int, yahooSymbol: string, symbolName: string,
                                   signalDate: Day, entryDate: Day, exitDate: Day,
                                   entryPrice: real, exitPrice: real, returnPct: real)

  /** Entry: the first bar after the signal day. Exit: the fifth bar after
      the entry day. */
  function DailyLegs(series: seq<DayBar>, signalDate: Day): (r: Option<(nat, nat)>)
    ensures r.Some? ==> r.value.0 < |series| && r.value.1 < |series|
    ensures r.Some? ==> series[r.value.0].date > signalDate
  {
    match FirstAfter(series, signalDate)
    case None => None
    case Some(i) =>
      match FifthAfter(series, series[i].date)
      case None => None
      case Some(j) => Some((i, j))
  }

  /** On an ascending series the entry is the first bar after the signal
      day and the exit is five bars later: bar i + 5, the fifth bar after
      the entry. No trade when the entry has fewer than five bars after it. */
  lemma DailyLegsWindow(series: seq<DayBar>, signalDate: Day)
    requires Ascending(series)
    ensures DailyLegs(series, signalDate).Some? ==>
      var (i, j) := DailyLegs(series, signalDate).value;
      j == i + 5 && (forall k :: 0 <= k < i ==> series[k].date <= signalDate)
    ensures DailyLegs(series, signalDate).None? ==>
      forall i :: 0 <= i < |series| && series[i].date > signalDate ==>
        (exists k :: 0 <= k < i && series[k].date > signalDate) || i + 5 >= |series|
  {
    FirstAfterSplits(series, signalDate);
    match FirstAfter(series, signalDate)
    case None =>
    case Some(i) =>
      FirstAfterSplits(series, series[i].date);
      FifthAfterIsFifth(series, series[i].date);
      if i + 1 < |series| {
        assert series[i + 1].date > series[i].date;
      }
  }

  /** The trade of one signal: entry at the open, exit at the close; the
      return is the price return in percent. */
  function DailyTradeOf(scanner: string, s: Signal, prices: map<int, seq<DayBar>>, info: map<int, SymbolInfo>): (r: Option<DailyTrade>)
    requires PositivePrices(prices)
    ensures r.None? <==> DailyLegs(SeriesOf(prices, s.symbolId), s.date).None?
    ensures r.Some? ==>
      var t := r.value;
      t.scanner == scanner && t.symbolId == s.symbolId && t.signalDate == s.date && t.entryDate > s.date
      && t.yahooSymbol == InfoOf(info, s.symbolId).yahooSymbol && t.symbolName == InfoOf(info, s.symbolId).name
    ensures r.Some? ==>
      var series := SeriesOf(prices, s.symbolId);
      var (i, j) := DailyLegs(series, s.date).value;
      r.value.entryDate == series[i].date && r.value.exitDate == series[j].date
      && r.value.entryPrice == Indicators.Round2(series[i].open) && r.value.exitPrice == Indicators.Round2(series[j].close)
      && r.value.returnPct == Indicators.Round2((series[j].close - series[i].open) / series[i].open * 100.0)
  {
    var series := SeriesOf(prices, s.symbolId);
    match DailyLegs(series, s.date)
    case None => None
    case Some((i, j)) =>
      var entry := series[i];
      var exit := series[j];
      var who := InfoOf(info, s.symbolId);
      Some(DailyTrade(scanner, s.symbolId, who.yahooSymbol, who.name, s.date, entry.date, exit.date,
                      Indicators.Round2(entry.open), Indicators.Round2(exit.close),
                      Indicators.Round2((exit.close - entry.open) / entry.open * 100.0)))
  }

  /** The trades of the rows, in row order. */
  function DailyTrades(rows: seq<Signal>, trade: Signal -> Option<DailyTrade>): seq<DailyTrade>
    decreases |rows|
  {
    if rows == [] then []
    else
      var ts := DailyTrades(rows[..|rows| - 1], trade);
      match trade(rows[|rows| - 1])
      case None => ts
      case Some(t) => ts + [t]
  }

  /** Every trade is the trade of one of the rows. */
  lemma {:induction false} DailyTradesFrom(rows: seq<Signal>, trade: Signal -> Option<DailyTrade>)
    ensures forall t :: t in DailyTrades(rows, trade) ==> exists s :: s in rows && trade(s) == Some(t)
    ensures |DailyTrades(rows, trade)| <= |rows|
    decreases |rows|
  {
    if rows != [] {
      var init := rows[..|rows| - 1];
      DailyTradesFrom(init, trade);
      assert forall s :: s in init ==> s in rows;
      assert rows[|rows| - 1] in rows;
    }
  }

  /** A row whose trade opens adds it. */
  lemma {:induction false} DailyTradesCover(rows: seq<Signal>, trade: Signal -> Option<DailyTrade>)
    ensures forall s :: s in rows && trade(s).Some? ==> trade(s).value in DailyTrades(rows, trade)
    decreases |rows|
  {
    if rows != [] {
      var init := rows[..|rows| - 1];
      DailyTradesCover(init, trade);
      assert rows == init + [rows[|rows| - 1]];
    }
  }

  function DailyTradeFn(scanner: string, prices: map<int, seq<DayBar>>, info: map<int, SymbolInfo>): (f: Signal -> Option<DailyTrade>)
    requires PositivePrices(prices)
    ensures forall s :: f(s) == DailyTradeOf(scanner, s, prices, info)
  {
    (s: Signal) => DailyTradeOf(scanner, s, prices, info)
  }

  function DailyReturns(ts: seq<DailyTrade>): (r: seq<real>)
    ensures |r| == |ts| && forall k :: 0 <= k < |ts| ==> r[k] == ts[k].returnPct
  {
    seq(|ts|, k requires 0 <= k < |ts| => ts[k].returnPct)
  }

  function OfScanner(name: string): DailyTrade -> bool {
    (t: DailyTrade) => t.scanner == name
  }

  datatype DailySummary = DailySummary(scanner: string, stats: Stats)

  /** The state the daily backtest carries from file to file: every trade
      so far, and the summaries. */
  datatype DailyState = DailyState(trades: seq<DailyTrade>, sums: seq<DailySummary>)

  /** One file: its trades join every trade so far, and its statistics are
      taken over every trade so far that carries its scanner name. */
  function DailyStep(st: DailyState, f: CsvFile, prices: map<int, seq<DayBar>>, info: map<int, SymbolInfo>): DailyState
    requires PositivePrices(prices)
  {
    if f.rows == [] || SkipsFile(f.columns) then st
    else
      var name := ScannerName(f.name);
      var all := st.trades + DailyTrades(Sorting.Sort(f.rows, ByDate()), DailyTradeFn(name, prices, info));
      DailyState(all, st.sums + [DailySummary(name, StatsOf(DailyReturns(Scanners.Filter(all, OfScanner(name)))))])
  }

  function DailyFiles(files: seq<CsvFile>, prices: map<int, seq<DayBar>>, info: map<int, SymbolInfo>): DailyState
    requires PositivePrices(prices)
    decreases |files|
  {
    if files == [] then DailyState([], [])
    else DailyStep(DailyFiles(files[..|files| - 1], prices, info), files[|files| - 1], prices, info)
  }

  /** A file's statistics are its own trades' statistics when no earlier
      file had the same scanner name; its trades are the trades of its
      rows. */
  lemma DailyStepStats(st: DailyState, f: CsvFile, prices: map<int, seq<DayBar>>, info: map<int, SymbolInfo>)
    requires PositivePrices(prices)
    requires f.rows != [] && !SkipsFile(f.columns)
    requires forall t :: t in st.trades ==> t.scanner != ScannerName(f.name)
    ensures var name := ScannerName(f.name);
      var own := DailyTrades(Sorting.Sort(f.rows, ByDate()), DailyTradeFn(name, prices, info));
      var r := DailyStep(st, f, prices, info);
      r.trades == st.trades + own
      && r.sums == st.sums + [DailySummary(name, StatsOf(DailyReturns(own)))]
      && forall t :: t in own ==> exists s :: s in f.rows && DailyTradeOf(name, s, prices, info) == Some(t)
  {
    var name := ScannerName(f.name);
    var sorted := Sorting.Sort(f.rows, ByDate());
    var trade := DailyTradeFn(name, prices, info);
    var own := DailyTrades(sorted, trade);
    DailyTradesFrom(sorted, trade);
    SortKeepsRows(f.rows);
    FilterSplit(st.trades, own, OfScanner(name));
  }

  /** The mask over a concatenation, when it rejects all of the first part
      and accepts all of the second. */
  lemma {:induction false} FilterSplit<T(!new)>(a: seq<T>, b: seq<T>, keep: T -> bool)
    requires forall x :: x in a ==> !keep(x)
    requires forall x :: x in b ==> keep(x)
    ensures Scanners.Filter(a + b, keep) == b
    decreases |a|
  {
    if a == [] {
      assert a + b == b;
      Scanners.FilterAll(b, keep);
    } else {
      assert (a + b)[1..] == a[1..] + b;
      FilterSplit(a[1..], b, keep);
    }
  }

  function ByDailyScanner(): (DailySummary, DailySummary) -> bool {
    (a: DailySummary, b: DailySummary) => StrLe(a.scanner, b.scanner)
  }

  lemma ByDailyScannerOrder()
    ensures Sorting.Total(ByDailyScanner()) && Sorting.Transitive(ByDailyScanner())
  {
    var le := ByDailyScanner();
    forall a: DailySummary, b: DailySummary ensures le(a, b) || le(b, a) {
      StrLeTotal(a.scanner, b.scanner);
    }
    forall a: DailySummary, b: DailySummary, c: DailySummary | le(a, b) && le(b, c) ensures le(a, c) {
      StrLeTrans(a.scanner, b.scanner, c.scanner);
    }
  }

  /** The daily backtest of a folder: every trade and the summaries ordered
      by scanner. */
  function BacktestDaily(folder: FolderPath, assetType: string, prices: map<int, seq<DayBar>>,
                         info: map<int, SymbolInfo>): (r: Result<(seq<DailyTrade>, seq<DailySummary>)>)
    requires PositivePrices(prices)
    ensures folder.Absent? ==> r == Ok(([], []))
    ensures folder.NotADirectory? ==> r == Err(NotADirectoryMessage)
    ensures folder.Directory? && Scanners.Filter(folder.entries, IsCsv()) == [] ==> r == Ok(([], []))
    ensures r.Err? <==>
      (folder.NotADirectory?
       || (folder.Directory? && Scanners.Filter(folder.entries, IsCsv()) != [] && Registry.Lookup(assetType).None?))
    ensures r.Ok? ==> Sorting.Sorted(r.value.1, ByDailyScanner())
    ensures r.Ok? && folder.Directory? ==>
      var st := DailyFiles(Scanners.Filter(folder.entries, IsCsv()), prices, info);
      r.value.0 == st.trades && multiset(r.value.1) == multiset(st.sums)
  {
    match folder
    case Absent => Ok(([], []))
    case NotADirectory => Err(NotADirectoryMessage)
    case Directory(entries) =>
      var csv := Scanners.Filter(entries, IsCsv());
      if csv == [] then Ok(([], []))
      else if Registry.Lookup(assetType).None? then Err("Unsupported asset_type: " + assetType)
      else
        var st := DailyFiles(csv, prices, info);
        ByDailyScannerOrder();
        Sorting.SortSorted(st.sums, ByDailyScanner());
        Ok((st.trades, Sorting.Sort(st.sums, ByDailyScanner())))
  }

  // ---------------------------------------------------------------------
  // The daily backtest, loop by loop
  // ---------------------------------------------------------------------

  lemma DailyTradesStep(rows: seq<Signal>, j: nat, trade: Signal -> Option<DailyTrade>)
    requires j < |rows|
    ensures DailyTrades(rows[..j + 1], trade)
      == DailyTrades(rows[..j], trade) + (if trade(rows[j]).Some? then [trade(rows[j]).value] else [])
  {
    assert rows[..j + 1][..j] == rows[..j];
  }

  /** The rows of one file, each opened trade appended to every trade so
      far. */
  method DailyRows(rows: seq<Signal>, trade: Signal -> Option<DailyTrade>, allTrades0: seq<DailyTrade>)
    returns (allTrades: seq<DailyTrade>)
    ensures allTrades == allTrades0 + DailyTrades(rows, trade)
  {
    allTrades := allTrades0;
    for j := 0 to |rows|
      invariant allTrades == allTrades0 + DailyTrades(rows[..j], trade)
    {
      DailyTradesStep(rows, j, trade);
      var entry := trade(rows[j]);
      if entry.Some? {
        allTrades := allTrades + [entry.value];
      }
    }
    assert rows[..|rows|] == rows;
  }

  method DailyFile(st: DailyState, f: CsvFile, prices: map<int, seq<DayBar>>, info: map<int, SymbolInfo>)
    returns (r: DailyState)
    requires PositivePrices(prices)
    ensures r == DailyStep(st, f, prices, info)
  {
    if f.rows == [] || SkipsFile(f.columns) {
      return st;
    }
    var name := ScannerName(f.name);
    var sorted := Sorting.Sort(f.rows, ByDate());
    var all := DailyRows(sorted, DailyTradeFn(name, prices, info), st.trades);
    var mine := Scanners.Filter(all, OfScanner(name));
    r := DailyState(all, st.sums + [DailySummary(name, StatsOf(DailyReturns(mine)))]);
  }

  lemma DailyFilesStep(files: seq<CsvFile>, i: nat, prices: map<int, seq<DayBar>>, info: map<int, SymbolInfo>)
    requires i < |files| && PositivePrices(prices)
    ensures DailyFiles(files[..i + 1], prices, info) == DailyStep(DailyFiles(files[..i], prices, info), files[i], prices, info)
  {
    assert files[..i + 1][..i] == files[..i];
  }

  /** backtest_daily_scanners: the folder's csv files one by one, the
      summaries sorted by scanner at the end. */
  method BacktestDailyScanners(folder: FolderPath, assetType: string, prices: map<int, seq<DayBar>>,
                               info: map<int, SymbolInfo>) returns (r: Result<(seq<DailyTrade>, seq<DailySummary>)>)
    requires PositivePrices(prices)
    ensures r == BacktestDaily(folder, assetType, prices, info)
  {
    if folder.Absent? {
      return Ok(([], []));
    }
    if folder.NotADirectory? {
      return Err(NotADirectoryMessage);
    }
    var csv := Scanners.Filter(folder.entries, IsCsv());
    if csv == [] {
      return Ok(([], []));
    }
    if Registry.Lookup(assetType).None? {
      return Err("Unsupported asset_type: " + assetType);
    }
    var st := DailyState([], []);
    for i := 0 to |csv|
      invariant st == DailyFiles(csv[..i], prices, info)
    {
      DailyFilesStep(csv, i, prices, info);
      st := DailyFile(st, csv[i], prices, info);
    }
    assert csv[..|csv|] == csv;
    r := Ok((st.trades, Sorting.Sort(st.sums, ByDailyScanner())));
  }
}
