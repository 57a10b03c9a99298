/** The scanners' data layer: the as-of alignment of each daily row with
    the latest weekly and monthly indicator rows at or before it, the
    weekly continuation-setup filter, and the candlestick classifier. */
module DataService {
  import opened Wrappers
  import opened Calendar
  import Registry

  // ---------------------------------------------------------------------
  // Daily rows aligned with weekly and monthly indicators
  // ---------------------------------------------------------------------

  /** A row of the daily query (indicator row joined with its price row and
      symbol): the numeric columns open, high, low, close, adj_close,
      volume, pct_price_change, rsi_3, rsi_9, rsi_14, ema_rsi_9_3,
      wma_rsi_9_21, sma_20, sma_50, sma_200 in that order, missing where
      `to_numeric(errors='coerce')` gives NaN. */
  datatype Daily = Daily(symbolId: int, yahooSymbol: string, date: Day, numbers: seq<Option<real>>)

  /** A weekly or monthly indicator row: rsi_3, rsi_9, rsi_14, ema_rsi_9_3
      and wma_rsi_9_21 in that order. */
  datatype Coarse = Coarse(symbolId: int, date: Day, values: seq<Option<real>>)

  /** What a coarse timeframe attaches to a daily row: weekly_date (or
      monthly_date) and one value per indicator column. */
  datatype Attached = Attached(date: Day, values: seq<Option<real>>)

  datatype Aligned = Aligned(daily: Daily, weekly: Attached, monthly: Attached)

  /** The number of indicator columns a coarse row carries. */
  const CoarseColumns: nat := 5

  /** `date BETWEEN start AND end` on the daily query. */
  function DailyInRange(rows: seq<Daily>, start: Day, end: Day): (r: seq<Daily>)
    ensures forall x :: x in r <==> x in rows && start <= x.date <= end
  {
    if rows == [] then []
    else (if start <= rows[0].date <= end then [rows[0]] else []) + DailyInRange(rows[1..], start, end)
  }

  /** `date BETWEEN start AND end` on the weekly and monthly queries. */
  function CoarseInRange(rows: seq<Coarse>, start: Day, end: Day): (r: seq<Coarse>)
    ensures forall x :: x in r <==> x in rows && start <= x.date <= end
  {
    if rows == [] then []
    else (if start <= rows[0].date <= end then [rows[0]] else []) + CoarseInRange(rows[1..], start, end)
  }

  /** The left merge on symbol_id followed by the filter
      `weekly_date <= date`: the coarse rows of the daily row's symbol dated
      at or before it. A symbol without coarse rows merges with NaT, which
      the filter drops too. */
  function Candidates(rows: seq<Coarse>, d: Daily): (r: seq<Coarse>)
    ensures forall x :: x in r <==> x in rows && x.symbolId == d.symbolId && x.date <= d.date
  {
    if rows == [] then []
    else
      (if rows[0].symbolId == d.symbolId && rows[0].date <= d.date then [rows[0]] else [])
      + Candidates(rows[1..], d)
  }

  /** The latest date of a non-empty group: what `.last()` keeps of the
      sort key itself, which is never missing. */
  function MaxDate(c: seq<Coarse>): (m: Day)
    requires |c| > 0
    ensures exists i :: 0 <= i < |c| && c[i].date == m
    ensures forall i :: 0 <= i < |c| ==> c[i].date <= m
  {
    if |c| == 1 then c[0].date
    else
      var m := MaxDate(c[..|c| - 1]);
      assert forall i :: 0 <= i < |c| - 1 ==> c[..|c| - 1][i] == c[i];
      if c[|c| - 1].date >= m then c[|c| - 1].date else m
  }

  predicate Present(x: Coarse, k: nat) {
    k < |x.values| && x.values[k].Some?
  }

  /** The row whose column k `.last()` reads: among the rows where column k
      is present, one with the latest date (the later one on a tie). */
  function Best(c: seq<Coarse>, k: nat): (r: Option<nat>)
    ensures r.None? <==> forall i :: 0 <= i < |c| ==> !Present(c[i], k)
    ensures r.Some? ==>
      && r.value < |c| && Present(c[r.value], k)
      && forall j :: 0 <= j < |c| && Present(c[j], k) ==> c[j].date <= c[r.value].date
  {
    if c == [] then None
    else
      var init := c[..|c| - 1];
      assert forall i :: 0 <= i < |init| ==> init[i] == c[i];
      var b := Best(init, k);
      var last := |c| - 1;
      if Present(c[last], k) && (b.None? || c[b.value].date <= c[last].date) then Some(last) else b
  }

  /** Column k after `groupby(...).last()`: the last non-missing value in
      date order, missing when the group has none. */
  function LastValue(c: seq<Coarse>, k: nat): (v: Option<real>)
    ensures v.None? <==> forall i :: 0 <= i < |c| ==> !Present(c[i], k)
    ensures v.Some? ==>
      exists i :: 0 <= i < |c| && Present(c[i], k) && c[i].values[k] == v
        && forall j :: 0 <= j < |c| && Present(c[j], k) ==> c[j].date <= c[i].date
  {
    match Best(c, k)
    case None => None
    case Some(i) => c[i].values[k]
  }

  function Attach(c: seq<Coarse>): (a: Attached)
    requires |c| > 0
    ensures |a.values| == CoarseColumns
  {
    Attached(MaxDate(c), seq(CoarseColumns, k requires 0 <= k < CoarseColumns => LastValue(c, k)))
  }

  /** One daily row after both merges: dropped unless it has a weekly and a
      monthly row at or before its date. */
  function AlignOne(d: Daily, weekly: seq<Coarse>, monthly: seq<Coarse>): (r: Option<Aligned>)
    ensures r.Some? <==> |Candidates(weekly, d)| > 0 && |Candidates(monthly, d)| > 0
    ensures r.Some? ==> r.value.daily == d
  {
    var wc, mc := Candidates(weekly, d), Candidates(monthly, d);
    if |wc| == 0 || |mc| == 0 then None else Some(Aligned(d, Attach(wc), Attach(mc)))
  }

  function Align(daily: seq<Daily>, weekly: seq<Coarse>, monthly: seq<Coarse>): (r: seq<Aligned>)
    ensures |r| <= |daily|
  {
    if daily == [] then []
    else
      (match AlignOne(daily[0], weekly, monthly) case None => [] case Some(a) => [a])
      + Align(daily[1..], weekly, monthly)
  }

  /** get_base_data over the three query results: an unknown asset class is
      a ValueError before any query; otherwise the daily rows in range,
      each aligned as of its date with the weekly and monthly rows in
      range. The tables stand for the joined daily rows and the '1wk' and
      '1mo' indicator rows of the asset class. */
  function GetBaseData(assetType: string, dailyRows: seq<Daily>, weeklyRows: seq<Coarse>, monthlyRows: seq<Coarse>,
                       start: Day, end: Day): (r: Result<seq<Aligned>>)
    ensures r.Err? <==> Registry.Lookup(assetType).None?
  {
    if Registry.Lookup(assetType).None? then Err("Unsupported asset_type: " + assetType)
    else
      var daily := DailyInRange(dailyRows, start, end);
      if daily == [] then Ok([])
      else Ok(Align(daily, CoarseInRange(weeklyRows, start, end), CoarseInRange(monthlyRows, start, end)))
  }

  /** Every output row comes from a daily input row. */
  lemma {:induction false} AlignFromDaily(daily: seq<Daily>, weekly: seq<Coarse>, monthly: seq<Coarse>)
    ensures forall a :: a in Align(daily, weekly, monthly) ==> a.daily in daily
  {
    if daily != [] {
      AlignFromDaily(daily[1..], weekly, monthly);
      var head := match AlignOne(daily[0], weekly, monthly) case None => [] case Some(a) => [a];
      assert Align(daily, weekly, monthly) == head + Align(daily[1..], weekly, monthly);
    }
  }

  /** A daily row survives exactly when both coarse timeframes have a row
      at or before it. */
  lemma {:induction false} AlignSurvivors(daily: seq<Daily>, weekly: seq<Coarse>, monthly: seq<Coarse>, d: Daily)
    requires d in daily
    ensures (exists a :: a in Align(daily, weekly, monthly) && a.daily == d)
      <==> |Candidates(weekly, d)| > 0 && |Candidates(monthly, d)| > 0
  {
    var r := Align(daily, weekly, monthly);
    var head := match AlignOne(daily[0], weekly, monthly) case None => [] case Some(a) => [a];
    var tail := Align(daily[1..], weekly, monthly);
    assert r == head + tail;
    if d == daily[0] && |Candidates(weekly, d)| > 0 && |Candidates(monthly, d)| > 0 {
      assert r[0] in r && r[0].daily == d;
    } else if d != daily[0] {
      assert d in daily[1..];
      AlignSurvivors(daily[1..], weekly, monthly, d);
      if exists a :: a in tail && a.daily == d {
        var a :| a in tail && a.daily == d;
        assert a in r;
      }
      if exists a :: a in r && a.daily == d {
        var a :| a in r && a.daily == d;
        AlignIsAlignOne(daily, weekly, monthly, a);
      }
    } else {
      if exists a :: a in r && a.daily == d {
        var a :| a in r && a.daily == d;
        AlignIsAlignOne(daily, weekly, monthly, a);
      }
    }
  }

  /** Row order: `a` comes before `b` by (symbol_id, date). */
  predicate KeyBefore(a: Daily, b: Daily) {
    a.symbolId < b.symbolId || (a.symbolId == b.symbolId && a.date < b.date)
  }

  /** Strictly increasing (symbol_id, date): ordered and one row per key. */
  predicate KeyOrdered(rows: seq<Daily>) {
    forall i, j :: 0 <= i < j < |rows| ==> KeyBefore(rows[i], rows[j])
  }

  predicate AlignedKeyOrdered(rows: seq<Aligned>) {
    forall i, j :: 0 <= i < j < |rows| ==> KeyBefore(rows[i].daily, rows[j].daily)
  }

  /** Rows ordered by (symbol_id, date) with one row per key, as the daily
      query's ORDER BY and primary key give them, stay so. */
  lemma HeadComesFirst(daily: seq<Daily>, x: Daily)
    requires KeyOrdered(daily) && |daily| > 0 && x in daily[1..]
    ensures KeyBefore(daily[0], x)
  {
    var k :| 0 <= k < |daily| - 1 && daily[1..][k] == x;
    assert daily[k + 1] == x;
  }

  lemma ConsOrdered(a: Aligned, tail: seq<Aligned>)
    requires AlignedKeyOrdered(tail)
    requires forall b :: b in tail ==> KeyBefore(a.daily, b.daily)
    ensures AlignedKeyOrdered([a] + tail)
  {
    var r := [a] + tail;
    forall i, j | 0 <= i < j < |r| ensures KeyBefore(r[i].daily, r[j].daily) {
      assert r[j] == tail[j - 1] && tail[j - 1] in tail;
      if i > 0 { assert r[i] == tail[i - 1]; }
    }
  }

  lemma HeadBeforeAligned(daily: seq<Daily>, weekly: seq<Coarse>, monthly: seq<Coarse>)
    requires KeyOrdered(daily) && |daily| > 0
    ensures forall b :: b in Align(daily[1..], weekly, monthly) ==> KeyBefore(daily[0], b.daily)
  {
    AlignFromDaily(daily[1..], weekly, monthly);
    forall b | b in Align(daily[1..], weekly, monthly) ensures KeyBefore(daily[0], b.daily) {
      HeadComesFirst(daily, b.daily);
    }
  }

  lemma {:induction false} AlignKeepsOrder(daily: seq<Daily>, weekly: seq<Coarse>, monthly: seq<Coarse>)
    requires KeyOrdered(daily)
    ensures AlignedKeyOrdered(Align(daily, weekly, monthly))
  {
    if daily != [] {
      var rest := daily[1..];
      assert KeyOrdered(rest);
      AlignKeepsOrder(rest, weekly, monthly);
      var tail := Align(rest, weekly, monthly);
      match AlignOne(daily[0], weekly, monthly)
      case None =>
      case Some(a) =>
        HeadBeforeAligned(daily, weekly, monthly);
        ConsOrdered(a, tail);
    }
  }

  /** The attached weekly (or monthly) date is the latest coarse date of
      the symbol at or before the daily date, never a later one, and each
      attached column is the last non-missing value in date order. */
  lemma AttachAsOf(rows: seq<Coarse>, d: Daily)
    requires |Candidates(rows, d)| > 0
    ensures var a := Attach(Candidates(rows, d));
      a.date <= d.date
      && (exists x :: x in rows && x.symbolId == d.symbolId && x.date == a.date)
      && (forall x :: x in rows && x.symbolId == d.symbolId && x.date <= d.date ==> x.date <= a.date)
  {
    var c := Candidates(rows, d);
    var i :| 0 <= i < |c| && c[i].date == MaxDate(c);
    assert c[i] in c;
    forall x | x in rows && x.symbolId == d.symbolId && x.date <= d.date ensures x.date <= MaxDate(c) {
      var j :| 0 <= j < |c| && c[j] == x;
    }
  }

  /** The value `.last()` keeps comes from a row where the column is
      present and no row with that column present is later. */
  lemma LastValueLatest(c: seq<Coarse>, k: nat) returns (x: Coarse)
    requires LastValue(c, k).Some?
    ensures x in c && Present(x, k) && x.values[k] == LastValue(c, k)
    ensures forall y :: y in c && Present(y, k) ==> y.date <= x.date
  {
    var b := Best(c, k);
    x := c[b.value];
    forall y | y in c && Present(y, k) ensures y.date <= x.date {
      var j :| 0 <= j < |c| && c[j] == y;
    }
  }

  /** `.last()` gives a missing value only when the column is missing in
      every row of the group. */
  lemma LastValueMissing(c: seq<Coarse>, k: nat)
    ensures LastValue(c, k).None? <==> forall y :: y in c ==> !Present(y, k)
  {
    if LastValue(c, k).Some? {
      var x := LastValueLatest(c, k);
    } else {
      forall y | y in c ensures !Present(y, k) {
        var j :| 0 <= j < |c| && c[j] == y;
      }
    }
  }

  /** An attached column is missing exactly when every coarse row at or
      before the daily date misses it. */
  lemma AttachMissing(rows: seq<Coarse>, d: Daily, k: nat)
    requires |Candidates(rows, d)| > 0 && k < CoarseColumns
    ensures Attach(Candidates(rows, d)).values[k].None? <==>
      forall x :: x in rows && x.symbolId == d.symbolId && x.date <= d.date ==> !Present(x, k)
  {
    var c := Candidates(rows, d);
    assert Attach(c).values[k] == LastValue(c, k);
    LastValueMissing(c, k);
  }

  /** x is a coarse row of d's symbol at or before d with column k
      present, and no such row is later. */
  predicate LatestWith(rows: seq<Coarse>, d: Daily, k: nat, x: Coarse) {
    x in rows && x.symbolId == d.symbolId && x.date <= d.date && Present(x, k)
    && forall y :: y in rows && y.symbolId == d.symbolId && y.date <= d.date && Present(y, k) ==> y.date <= x.date
  }

  /** A present attached column holds the value of the latest coarse row
      at or before the daily date where that column is present. */
  lemma AttachLatest(rows: seq<Coarse>, d: Daily, k: nat)
    requires |Candidates(rows, d)| > 0 && k < CoarseColumns
    requires Attach(Candidates(rows, d)).values[k].Some?
    ensures exists x :: LatestWith(rows, d, k, x) && x.values[k] == Attach(Candidates(rows, d)).values[k]
  {
    var c := Candidates(rows, d);
    assert Attach(c).values[k] == LastValue(c, k);
    var x := LastValueLatest(c, k);
    forall y | y in rows && y.symbolId == d.symbolId && y.date <= d.date && Present(y, k) ensures y.date <= x.date {
      assert y in c;
    }
    assert LatestWith(rows, d, k, x);
  }

  /** Every row get_base_data returns is a daily row in range whose
      weekly and monthly dates are the latest ones in range at or before it. */
  lemma GetBaseDataRows(assetType: string, dailyRows: seq<Daily>, weeklyRows: seq<Coarse>, monthlyRows: seq<Coarse>,
                        start: Day, end: Day, a: Aligned)
    requires GetBaseData(assetType, dailyRows, weeklyRows, monthlyRows, start, end).Ok?
    requires a in GetBaseData(assetType, dailyRows, weeklyRows, monthlyRows, start, end).value
    ensures a.daily in dailyRows && start <= a.daily.date <= end
    ensures start <= a.weekly.date <= a.daily.date && start <= a.monthly.date <= a.daily.date
    ensures forall x :: x in weeklyRows && x.symbolId == a.daily.symbolId && start <= x.date <= a.daily.date ==> x.date <= a.weekly.date
    ensures forall x :: x in monthlyRows && x.symbolId == a.daily.symbolId && start <= x.date <= a.daily.date ==> x.date <= a.monthly.date
  {
    var daily := DailyInRange(dailyRows, start, end);
    var weekly, monthly := CoarseInRange(weeklyRows, start, end), CoarseInRange(monthlyRows, start, end);
    AlignFromDaily(daily, weekly, monthly);
    assert a in Align(daily, weekly, monthly);
    assert a == AlignOne(a.daily, weekly, monthly).value by {
      AlignIsAlignOne(daily, weekly, monthly, a);
    }
    AttachAsOf(weekly, a.daily);
    AttachAsOf(monthly, a.daily);
    var w :| w in weekly && w.symbolId == a.daily.symbolId && w.date == a.weekly.date;
    var m :| m in monthly && m.symbolId == a.daily.symbolId && m.date == a.monthly.date;
  }

  /** Every output row is the alignment of its own daily row. */
  lemma {:induction false} AlignIsAlignOne(daily: seq<Daily>, weekly: seq<Coarse>, monthly: seq<Coarse>, a: Aligned)
    requires a in Align(daily, weekly, monthly)
    ensures AlignOne(a.daily, weekly, monthly) == Some(a)
  {
    if daily != [] {
      var head := match AlignOne(daily[0], weekly, monthly) case None => [] case Some(b) => [b];
      assert Align(daily, weekly, monthly) == head + Align(daily[1..], weekly, monthly);
      if a !in head {
        AlignIsAlignOne(daily[1..], weekly, monthly, a);
      }
    }
  }

  // ---------------------------------------------------------------------
  // Weekly continuation setup (get_base_data_weekly)
  // ---------------------------------------------------------------------

  /** One '1wk' price row of a symbol. */
  datatype WeeklyBar = WeeklyBar(date: Day, open: real, high: real, low: real, close: real)

  function Sum(s: seq<real>): real {
    if s == [] then 0.0 else Sum(s[..|s| - 1]) + s[|s| - 1]
  }

  /** `AVG(close) OVER (ROWS BETWEEN 19 PRECEDING AND CURRENT ROW)`: the
      mean of up to the last 20 closes. */
  function Sma20At(bars: seq<WeeklyBar>, t: nat): real
    requires t < |bars|
  {
    var lo := if t >= 19 then t - 19 else 0;
    Sum(seq(t + 1 - lo, i requires 0 <= i < t + 1 - lo => bars[lo + i].close)) / (t + 1 - lo) as real
  }

  function MinOf(s: seq<real>): (m: real)
    requires |s| > 0
    ensures forall i :: 0 <= i < |s| ==> m <= s[i]
    ensures exists i :: 0 <= i < |s| && m == s[i]
  {
    if |s| == 1 then s[0]
    else
      var m := MinOf(s[..|s| - 1]);
      assert forall i :: 0 <= i < |s| - 1 ==> s[..|s| - 1][i] == s[i];
      if s[|s| - 1] <= m then s[|s| - 1] else m
  }

  /** `MIN(low) OVER (ROWS BETWEEN 4 PRECEDING AND 1 PRECEDING)`: NULL on a
      symbol's first week. */
  function MinLow4At(bars: seq<WeeklyBar>, t: nat): (m: Option<real>)
    requires t < |bars|
    ensures m.None? <==> t == 0
    ensures m.Some? ==> forall i :: t - 4 <= i < t && 0 <= i ==> m.value <= bars[i].low
    ensures m.Some? ==> exists i :: t - 4 <= i < t && 0 <= i && m.value == bars[i].low
  {
    if t == 0 then None
    else
      var lo := if t >= 4 then t - 4 else 0;
      var lows := seq(t - lo, i requires 0 <= i < t - lo => bars[lo + i].low);
      var m := MinOf(lows);
      assert forall i :: lo <= i < t ==> lows[i - lo] == bars[i].low;
      Some(m)
  }

  /** The WHERE clause at week t of a symbol's series. The lags and the
      4-week minimum are NULL at the start of the series and a comparison
      with NULL is not true, so the first two weeks never qualify. */
  predicate SetupAt(bars: seq<WeeklyBar>, t: nat)
    requires t < |bars|
  {
    t >= 2
    && bars[t].close > Sma20At(bars, t)
    && bars[t].low <= MinLow4At(bars, t).value
    && Sma20At(bars, t - 2) < Sma20At(bars, t)
    && bars[t].close >= bars[t - 1].close
  }

  /** A qualifying week with the columns the query selects from the price
      side, and the week's indicator row. */
  datatype SetupRow = SetupRow(symbolId: int, yahooSymbol: string, name: string, bar: WeeklyBar,
                               sma20: real, sma20TwoWeeksAgo: real, closeOneWeekAgo: real, minLow4w: real,
                               indicators: seq<Option<real>>)

  /** A symbol-table row. */
  datatype SymbolRow = SymbolRow(symbolId: int, yahooSymbol: string, name: string)

  /** The qualifying weeks of one symbol from week t on, joined with the
      indicator row of the same date (weeks without one drop out). */
  function SetupFrom(s: SymbolRow, bars: seq<WeeklyBar>, indicators: map<Day, seq<Option<real>>>, t: nat): (r: seq<SetupRow>)
    requires t <= |bars|
    ensures forall x :: x in r ==> x.symbolId == s.symbolId
    decreases |bars| - t
  {
    if t == |bars| then []
    else
      var tail := SetupFrom(s, bars, indicators, t + 1);
      if SetupAt(bars, t) && bars[t].date in indicators then
        [SetupRow(s.symbolId, s.yahooSymbol, s.name, bars[t], Sma20At(bars, t), Sma20At(bars, t - 2),
                  bars[t - 1].close, MinLow4At(bars, t).value, indicators[bars[t].date])] + tail
      else tail
  }

  /** A symbol's '1wk' price rows between start and end, in date order. */
  function WeeksInRange(bars: seq<WeeklyBar>, start: Day, end: Day): (r: seq<WeeklyBar>)
    ensures forall x :: x in r <==> x in bars && start <= x.date <= end
  {
    if bars == [] then []
    else (if start <= bars[0].date <= end then [bars[0]] else []) + WeeksInRange(bars[1..], start, end)
  }

  /** The default range of get_base_data_weekly: 2000-01-01 to 2099-12-31. */
  function WeeklyRange(start: Option<Day>, end: Option<Day>): (r: (Day, Day))
    ensures start.Some? ==> r.0 == start.value
    ensures start.None? ==> r.0 == DaysFromCivil(Civil(2000, 1, 1))
    ensures end.Some? ==> r.1 == end.value
    ensures end.None? ==> r.1 == DaysFromCivil(Civil(2099, 12, 31))
  {
    (start.GetOr(DaysFromCivil(Civil(2000, 1, 1))), end.GetOr(DaysFromCivil(Civil(2099, 12, 31))))
  }

  function SeriesOf(prices: map<int, seq<WeeklyBar>>, id: int): seq<WeeklyBar> {
    if id in prices then prices[id] else []
  }

  function IndicatorsOf(ind: map<int, map<Day, seq<Option<real>>>>, id: int): map<Day, seq<Option<real>>> {
    if id in ind then ind[id] else map[]
  }

  /** The setup rows of every symbol, symbol by symbol in the order the
      symbol table is given; within a symbol, weeks in date order. */
  function SetupRows(symbols: seq<SymbolRow>, prices: map<int, seq<WeeklyBar>>, ind: map<int, map<Day, seq<Option<real>>>>,
                     start: Day, end: Day): (r: seq<SetupRow>)
  {
    if symbols == [] then []
    else
      var s := symbols[0];
      SetupFrom(s, WeeksInRange(SeriesOf(prices, s.symbolId), start, end), IndicatorsOf(ind, s.symbolId), 0)
      + SetupRows(symbols[1..], prices, ind, start, end)
  }

  /** get_base_data_weekly: an unknown asset class raises inside the try
      and the handler returns the empty frame. */
  function GetBaseDataWeekly(assetType: string, start: Option<Day>, end: Option<Day>, symbols: seq<SymbolRow>,
                             prices: map<int, seq<WeeklyBar>>, ind: map<int, map<Day, seq<Option<real>>>>): (r: seq<SetupRow>)
    ensures Registry.Lookup(assetType).None? ==> r == []
  {
    if Registry.Lookup(assetType).None? then []
    else
      var range := WeeklyRange(start, end);
      SetupRows(symbols, prices, ind, range.0, range.1)
  }

  /** The row the query returns for week i of a qualifying series. */
  predicate RowOfWeek(x: SetupRow, bars: seq<WeeklyBar>, indicators: map<Day, seq<Option<real>>>, i: nat)
    requires i < |bars|
  {
    SetupAt(bars, i) && bars[i].date in indicators && x.bar == bars[i]
    && x.sma20 == Sma20At(bars, i) && x.sma20TwoWeeksAgo == Sma20At(bars, i - 2)
    && x.closeOneWeekAgo == bars[i - 1].close && Some(x.minLow4w) == MinLow4At(bars, i)
    && x.indicators == indicators[bars[i].date]
  }

  /** Every returned row is a qualifying week with an indicator row, and
      its columns satisfy the four conditions of the WHERE clause. */
  lemma {:induction false} SetupFromSound(s: SymbolRow, bars: seq<WeeklyBar>, indicators: map<Day, seq<Option<real>>>, t: nat)
    requires t <= |bars|
    ensures forall x :: x in SetupFrom(s, bars, indicators, t) ==>
      && (exists i :: t <= i < |bars| && RowOfWeek(x, bars, indicators, i))
      && x.bar.close > x.sma20 && x.bar.low <= x.minLow4w
      && x.sma20TwoWeeksAgo < x.sma20 && x.bar.close >= x.closeOneWeekAgo
    decreases |bars| - t
  {
    if t < |bars| {
      SetupFromSound(s, bars, indicators, t + 1);
      var r := SetupFrom(s, bars, indicators, t);
      var tail := SetupFrom(s, bars, indicators, t + 1);
      if SetupAt(bars, t) && bars[t].date in indicators {
        assert r == [r[0]] + tail;
        assert RowOfWeek(r[0], bars, indicators, t);
      }
    }
  }

  /** Every row of the weekly setup query is a qualifying week of a listed
      symbol, from that symbol's price series and inside the range. */
  lemma {:induction false} SetupRowsFrom(symbols: seq<SymbolRow>, prices: map<int, seq<WeeklyBar>>,
                                         ind: map<int, map<Day, seq<Option<real>>>>, start: Day, end: Day, x: SetupRow)
    requires x in SetupRows(symbols, prices, ind, start, end)
    ensures start <= x.bar.date <= end && x.bar in SeriesOf(prices, x.symbolId)
    ensures exists s :: s in symbols && s.symbolId == x.symbolId
    ensures x.bar.close > x.sma20 && x.bar.low <= x.minLow4w
      && x.sma20TwoWeeksAgo < x.sma20 && x.bar.close >= x.closeOneWeekAgo
    decreases |symbols|
  {
    var s := symbols[0];
    var bars := WeeksInRange(SeriesOf(prices, s.symbolId), start, end);
    var head := SetupFrom(s, bars, IndicatorsOf(ind, s.symbolId), 0);
    if x in head {
      SetupFromSound(s, bars, IndicatorsOf(ind, s.symbolId), 0);
      var i :| 0 <= i < |bars| && RowOfWeek(x, bars, IndicatorsOf(ind, s.symbolId), i);
      assert bars[i] in bars;
      assert s in symbols;
    } else {
      SetupRowsFrom(symbols[1..], prices, ind, start, end, x);
      var s' :| s' in symbols[1..] && s'.symbolId == x.symbolId;
      assert s' in symbols;
    }
  }

  /** Every qualifying week with an indicator row is returned. */
  lemma {:induction false} SetupFromComplete(s: SymbolRow, bars: seq<WeeklyBar>, indicators: map<Day, seq<Option<real>>>, t: nat, i: nat)
    requires t <= i < |bars| && SetupAt(bars, i) && bars[i].date in indicators
    ensures exists x :: x in SetupFrom(s, bars, indicators, t) && x.bar == bars[i]
    decreases i - t
  {
    var r := SetupFrom(s, bars, indicators, t);
    if i == t {
      assert r[0] in r && r[0].bar == bars[i];
    } else {
      SetupFromComplete(s, bars, indicators, t + 1, i);
      var x :| x in SetupFrom(s, bars, indicators, t + 1) && x.bar == bars[i];
      assert x in r;
    }
  }

  // ---------------------------------------------------------------------
  // Candlestick classification (get_candle_type)
  // ---------------------------------------------------------------------

  datatype Candle =
    | Doji
    | Hammer | HangingMan
    | InvertedHammer | ShootingStar
    | Marubozu(bullish: bool)
    | Plain(bullish: bool)

  /** The label get_candle_type returns for each kind. */
  function Label(c: Candle): string {
    match c
    case Doji => "Doji"
    case Hammer => "Hammer"
    case HangingMan => "Hanging Man"
    case InvertedHammer => "Inverted Hammer"
    case ShootingStar => "Shooting Star"
    case Marubozu(b) => if b then "Bullish Marubozu" else "Bearish Marubozu"
    case Plain(b) => if b then "Bullish" else "Bearish"
  }

  /** The nine labels. */
  const Labels: seq<string> := ["Doji", "Hammer", "Hanging Man", "Inverted Hammer", "Shooting Star",
                                "Bullish Marubozu", "Bearish Marubozu", "Bullish", "Bearish"]

  /** Candles of the bullish family. */
  predicate BullishFamily(c: Candle) {
    c == Hammer || c == InvertedHammer || c == Marubozu(true) || c == Plain(true)
  }

  function Abs(x: real): real { if x >= 0.0 then x else -x }
  function Max(a: real, b: real): real { if a >= b then a else b }
  function Min(a: real, b: real): real { if a <= b then a else b }

  /** Is the candle a Doji: no range, no body, or a body under a tenth of
      the range. */
  predicate DojiShape(open: real, high: real, low: real, close: real) {
    high == low || close == open || Abs(close - open) < 0.1 * (high - low)
  }

  /** The hammer shape: small body, long lower shadow, short upper shadow. */
  predicate HammerShape(open: real, high: real, low: real, close: real) {
    var body := Abs(close - open);
    body <= (high - low) * 0.3 && Min(open, close) - low >= 2.0 * body && high - Max(open, close) <= 0.3 * body
  }

  /** The inverted-hammer shape: small body, long upper shadow, short lower
      shadow. */
  predicate InvertedShape(open: real, high: real, low: real, close: real) {
    var body := Abs(close - open);
    body <= (high - low) * 0.3 && high - Max(open, close) >= 2.0 * body && Min(open, close) - low <= 0.3 * body
  }

  /** The marubozu shape: both shadows under 5% of the body. */
  predicate MarubozuShape(open: real, high: real, low: real, close: real) {
    var body := Abs(close - open);
    high - Max(open, close) < 0.05 * body && Min(open, close) - low < 0.05 * body
  }

  /** get_candle_type: the tests in the order the source makes them. */
  function CandleType(open: real, high: real, low: real, close: real): (c: Candle)
    ensures c == Doji <==> DojiShape(open, high, low, close)
    ensures c != Doji ==> (BullishFamily(c) <==> close > open)
  {
    var body := Abs(close - open);
    var upper := high - Max(open, close);
    var lower := Min(open, close) - low;
    if high == low then Doji
    else if close == open then Doji
    else
      var bullish := close > open;
      if body < 0.1 * (high - low) then Doji
      else if body <= (high - low) * 0.3 && lower >= 2.0 * body && upper <= 0.3 * body then
        (if bullish then Hammer else HangingMan)
      else if body <= (high - low) * 0.3 && upper >= 2.0 * body && lower <= 0.3 * body then
        (if bullish then InvertedHammer else ShootingStar)
      else if upper < 0.05 * body && lower < 0.05 * body then Marubozu(bullish)
      else Plain(bullish)
  }

  /** The label is always one of the nine, and different kinds have
      different labels. */
  lemma CandleLabels(open: real, high: real, low: real, close: real)
    ensures Label(CandleType(open, high, low, close)) in Labels
  {
  }

  lemma LabelInjective(a: Candle, b: Candle)
    requires Label(a) == Label(b)
    ensures a == b
  {
  }

  /** The four pattern tests exclude one another once the candle is not a
      Doji, so the order in which they are made decides nothing. */
  lemma PatternsExclusive(open: real, high: real, low: real, close: real)
    requires !DojiShape(open, high, low, close)
    ensures !(HammerShape(open, high, low, close) && InvertedShape(open, high, low, close))
    ensures !(HammerShape(open, high, low, close) && MarubozuShape(open, high, low, close))
    ensures !(InvertedShape(open, high, low, close) && MarubozuShape(open, high, low, close))
  {
  }

  /** Each kind is returned exactly for its shape. */
  lemma CandleShapes(open: real, high: real, low: real, close: real)
    requires !DojiShape(open, high, low, close)
    ensures var c := CandleType(open, high, low, close);
      (c == Hammer || c == HangingMan) <==> HammerShape(open, high, low, close)
    ensures var c := CandleType(open, high, low, close);
      (c == InvertedHammer || c == ShootingStar) <==> InvertedShape(open, high, low, close)
    ensures CandleType(open, high, low, close).Marubozu? <==> MarubozuShape(open, high, low, close)
  {
    PatternsExclusive(open, high, low, close);
  }
}
