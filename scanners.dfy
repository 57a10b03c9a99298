/** The three scanners: the Hilega-Milega scanner over aligned daily rows,
    the weekly momentum scanner and the multi-year play scanner over weekly
    setup rows. Each is a boolean mask followed by a sort on (date
    descending, yahoo_symbol ascending). */
module Scanners {
  import opened Wrappers
  import opened Text
  import opened Calendar
  import Sorting
  import opened DataService

  // ---------------------------------------------------------------------
  // Mask and sort
  // ---------------------------------------------------------------------

  /** `df[mask]`: the rows the mask keeps, in their order. */
  function Filter<T(!new)>(s: seq<T>, keep: T -> bool): (r: seq<T>)
    ensures |r| <= |s|
    ensures forall x :: x in r <==> x in s && keep(x)
  {
    if s == [] then [] else (if keep(s[0]) then [s[0]] else []) + Filter(s[1..], keep)
  }

  /** A mask every row passes keeps the frame as it is. */
  lemma {:induction false} FilterAll<T(!new)>(s: seq<T>, keep: T -> bool)
    requires forall x :: x in s ==> keep(x)
    ensures Filter(s, keep) == s
  {
    if s != [] {
      FilterAll(s[1..], keep);
      assert [s[0]] + s[1..] == s;
    }
  }

  /** A mask applied row by row: the rows kept from a longer frame are the
      rows kept from its prefix, then the new row if it passes. */
  lemma {:induction false} FilterSnoc<T(!new)>(s: seq<T>, x: T, keep: T -> bool)
    ensures Filter(s + [x], keep) == Filter(s, keep) + (if keep(x) then [x] else [])
  {
    if s == [] {
      assert [x][1..] == [];
    } else {
      assert (s + [x])[1..] == s[1..] + [x];
      FilterSnoc(s[1..], x, keep);
    }
  }

  /** The sort key (date, yahoo_symbol). */
  datatype SignalKey = SignalKey(date: Day, symbol: string)

  /** `sort_values(['date','yahoo_symbol'], ascending=[False, True])`:
      later dates first, then symbols in code-point order. */
  predicate KeyLe(a: SignalKey, b: SignalKey) {
    a.date > b.date || (a.date == b.date && StrLe(a.symbol, b.symbol))
  }

  function ByKey<T>(key: T -> SignalKey): (T, T) -> bool {
    (x: T, y: T) => KeyLe(key(x), key(y))
  }

  lemma ByKeyOrder<T(!new)>(key: T -> SignalKey)
    ensures Sorting.Total(ByKey(key)) && Sorting.Transitive(ByKey(key))
  {
    var le := ByKey(key);
    forall a: T, b: T ensures le(a, b) || le(b, a) {
      StrLeTotal(key(a).symbol, key(b).symbol);
    }
    forall a: T, b: T, c: T | le(a, b) && le(b, c) ensures le(a, c) {
      if key(a).date == key(b).date == key(c).date {
        StrLeTrans(key(a).symbol, key(b).symbol, key(c).symbol);
      }
    }
  }

  /** Mask then sort. */
  function Scan<T(!new)>(rows: seq<T>, keep: T -> bool, key: T -> SignalKey): (r: seq<T>)
    ensures multiset(r) == multiset(Filter(rows, keep))
    ensures forall x :: x in r <==> x in rows && keep(x)
  {
    var f := Filter(rows, keep);
    var r := Sorting.Sort(f, ByKey(key));
    assert forall x :: x in r <==> x in multiset(r);
    assert forall x :: x in f <==> x in multiset(f);
    r
  }

  /** A scan's output is in (date descending, symbol ascending) order. */
  lemma ScanSorted<T(!new)>(rows: seq<T>, keep: T -> bool, key: T -> SignalKey)
    ensures Sorting.Sorted(Scan(rows, keep, key), ByKey(key))
  {
    ByKeyOrder(key);
    Sorting.SortSorted(Filter(rows, keep), ByKey(key));
  }

  /** Scanning a scan's output changes nothing. */
  lemma ScanIdempotent<T(!new)>(rows: seq<T>, keep: T -> bool, key: T -> SignalKey)
    ensures Scan(Scan(rows, keep, key), keep, key) == Scan(rows, keep, key)
  {
    var once := Scan(rows, keep, key);
    FilterAll(once, keep);
    ScanSorted(rows, keep, key);
    Sorting.SortOfSorted(once, ByKey(key));
  }

  // ---------------------------------------------------------------------
  // Comparisons with pandas' missing-value and division rules
  // ---------------------------------------------------------------------

  /** `x >= c` on a column: false where the value is missing. */
  predicate AtLeast(x: Option<real>, c: real) { x.Some? && x.value >= c }
  predicate Above(x: Option<real>, c: real) { x.Some? && x.value > c }
  predicate Below(x: Option<real>, c: real) { x.Some? && x.value < c }
  predicate AtMost(x: Option<real>, c: real) { x.Some? && x.value <= c }

  /** `a / b >= c` for a positive c: a zero divisor gives +inf (passes),
      -inf or NaN (fails) according to the sign of a; a missing operand
      fails. */
  predicate RatioAtLeast(a: Option<real>, b: Option<real>, c: real)
    requires c > 0.0
  {
    a.Some? && b.Some? &&
    if b.value == 0.0 then a.value > 0.0 else a.value / b.value >= c
  }

  // ---------------------------------------------------------------------
  // Hilega-Milega scanner (apply_hilega_milega_logic)
  // ---------------------------------------------------------------------

  /** A daily numeric column by its position in the daily query. */
  function Num(d: Daily, k: nat): Option<real> {
    if k < |d.numbers| then d.numbers[k] else None
  }

  function CoarseValue(a: Attached, k: nat): Option<real> {
    if k < |a.values| then a.values[k] else None
  }

  const AdjClose: nat := 4
  const PctPriceChange: nat := 6
  const Rsi3: nat := 7
  const Rsi9: nat := 8
  const EmaRsi93: nat := 10
  const WmaRsi921: nat := 11
  const Sma20: nat := 12

  /** The nine conditions of the Hilega-Milega mask. */
  predicate HilegaMilega(a: Aligned) {
    var d := a.daily;
    AtLeast(Num(d, AdjClose), 100.0)
    && Num(d, AdjClose).Some? && Num(d, Sma20).Some? && Num(d, AdjClose).value < Num(d, Sma20).value
    && RatioAtLeast(Num(d, Rsi3), Num(d, Rsi9), 1.15)
    && RatioAtLeast(Num(d, Rsi9), Num(d, EmaRsi93), 1.04)
    && RatioAtLeast(Num(d, EmaRsi93), Num(d, WmaRsi921), 1.0)
    && Below(Num(d, Rsi3), 60.0)
    && Above(CoarseValue(a.weekly, 0), 50.0)
    && Above(CoarseValue(a.monthly, 0), 50.0)
    && AtMost(Num(d, PctPriceChange), 5.0)
  }

  function AlignedKey(a: Aligned): SignalKey {
    SignalKey(a.daily.date, a.daily.yahooSymbol)
  }

  /** apply_hilega_milega_logic: an empty frame comes back unchanged. */
  function ApplyHilegaMilega(rows: seq<Aligned>): (r: seq<Aligned>)
    ensures rows == [] ==> r == rows
    ensures multiset(r) == multiset(Filter(rows, HilegaMilega))
    ensures forall x :: x in r <==> x in rows && HilegaMilega(x)
  {
    if rows == [] then rows else Scan(rows, HilegaMilega, AlignedKey)
  }

  lemma HilegaMilegaSorted(rows: seq<Aligned>)
    ensures Sorting.Sorted(ApplyHilegaMilega(rows), ByKey(AlignedKey))
  {
    ScanSorted(rows, HilegaMilega, AlignedKey);
  }

  lemma HilegaMilegaIdempotent(rows: seq<Aligned>)
    ensures ApplyHilegaMilega(ApplyHilegaMilega(rows)) == ApplyHilegaMilega(rows)
  {
    ScanIdempotent(rows, HilegaMilega, AlignedKey);
  }

  /** The columns the Hilega-Milega run requires of its base frame. */
  const RequiredColumns: seq<string> :=
    ["adj_close", "rsi_3", "rsi_9", "ema_rsi_9_3", "wma_rsi_9_21", "rsi_3_weekly", "rsi_3_monthly",
     "sma_20", "pct_price_change"]

  /** `[c for c in required_cols if c not in df_base.columns]`. */
  function MissingColumns(required: seq<string>, columns: seq<string>): (m: seq<string>)
    ensures forall c :: c in m <==> c in required && c !in columns
  {
    if required == [] then []
    else (if required[0] !in columns then [required[0]] else []) + MissingColumns(required[1..], columns)
  }

  /** The start of a scanner's range: the given "%Y-%m-%d" date (an empty
      text counts as not given, an unparseable one raises), else today
      minus the lookback. */
  function StartDay(today: Day, start: Option<string>, lookbackDays: nat): (r: Option<Day>)
    ensures (start.None? || start.value == []) ==> r == Some(today - lookbackDays)
    ensures start.Some? && start.value != [] ==>
      (r.Some? <==> ParseIso(start.value).Some?)
      && (r.Some? ==> r.value == DaysFromCivil(ParseIso(start.value).value))
  {
    if start.None? || start.value == [] then Some(today - lookbackDays)
    else
      match ParseIso(start.value)
      case None => None
      case Some(c) => Some(DaysFromCivil(c))
  }

  /** The Hilega-Milega lookback: 60 days. */
  const HilegaMilegaLookback: nat := 60

  /** run_scanner_hilega_milega from the base query on. `columns` are the
      base frame's column names. Every failure (an unparseable start date,
      an unknown asset class) is caught and gives the empty frame; so does
      an empty base frame or a missing required column. The range ends
      today. */
  function RunHilegaMilega(today: Day, start: Option<string>, assetType: string, columns: seq<string>,
                           dailyRows: seq<Daily>, weeklyRows: seq<Coarse>, monthlyRows: seq<Coarse>): (r: seq<Aligned>)
    ensures (exists c :: c in RequiredColumns && c !in columns) ==> r == []
    ensures StartDay(today, start, HilegaMilegaLookback).None? ==> r == []
    ensures Registry.Lookup(assetType).None? ==> r == []
  {
    match StartDay(today, start, HilegaMilegaLookback)
    case None => []
    case Some(s) =>
      match GetBaseData(assetType, dailyRows, weeklyRows, monthlyRows, s, today)
      case Err(_) => []
      case Ok(base) =>
        if base == [] then []
        else if MissingColumns(RequiredColumns, columns) != [] then []
        else ApplyHilegaMilega(base)
  }

  /** A Hilega-Milega signal is a base row of the range that meets the
      nine conditions. */
  lemma RunHilegaMilegaRows(today: Day, start: Option<string>, assetType: string, columns: seq<string>,
                            dailyRows: seq<Daily>, weeklyRows: seq<Coarse>, monthlyRows: seq<Coarse>, a: Aligned)
    requires a in RunHilegaMilega(today, start, assetType, columns, dailyRows, weeklyRows, monthlyRows)
    ensures HilegaMilega(a) && a.daily in dailyRows && a.daily.date <= today
    ensures StartDay(today, start, HilegaMilegaLookback).Some?
      && StartDay(today, start, HilegaMilegaLookback).value <= a.daily.date
  {
    var s := StartDay(today, start, HilegaMilegaLookback).value;
    var base := GetBaseData(assetType, dailyRows, weeklyRows, monthlyRows, s, today);
    assert a in ApplyHilegaMilega(base.value);
    GetBaseDataRows(assetType, dailyRows, weeklyRows, monthlyRows, s, today, a);
  }

  // ---------------------------------------------------------------------
  // Weekly and play scanners (apply_scanner_logic)
  // ---------------------------------------------------------------------

  /** A weekly indicator column by position: rsi_3, rsi_9, rsi_14,
      ema_rsi_9_3, wma_rsi_9_21. */
  function Ind(x: SetupRow, k: nat): Option<real> {
    if k < |x.indicators| then x.indicators[k] else None
  }

  /** The five conditions of the weekly mask. */
  predicate WeeklyMomentum(x: SetupRow) {
    x.bar.close >= 100.0
    && RatioAtLeast(Ind(x, 0), Ind(x, 1), 1.15)
    && RatioAtLeast(Ind(x, 1), Ind(x, 3), 1.04)
    && RatioAtLeast(Ind(x, 3), Ind(x, 4), 1.0)
    && Above(Ind(x, 0), 50.0)
  }

  function SetupKey(x: SetupRow): SignalKey {
    SignalKey(x.bar.date, x.yahooSymbol)
  }

  /** apply_scanner_logic of the weekly scanner. A frame that lacks the
      columns raises inside the try and gives the empty frame; the only
      such frame get_base_data_weekly returns is the empty one, so the
      mask and sort are all that is left. */
  function ApplyWeekly(rows: seq<SetupRow>): (r: seq<SetupRow>)
    ensures multiset(r) == multiset(Filter(rows, WeeklyMomentum))
    ensures forall x :: x in r <==> x in rows && WeeklyMomentum(x)
  {
    Scan(rows, WeeklyMomentum, SetupKey)
  }

  lemma WeeklySorted(rows: seq<SetupRow>)
    ensures Sorting.Sorted(ApplyWeekly(rows), ByKey(SetupKey))
  {
    ScanSorted(rows, WeeklyMomentum, SetupKey);
  }

  lemma WeeklyIdempotent(rows: seq<SetupRow>)
    ensures ApplyWeekly(ApplyWeekly(rows)) == ApplyWeekly(rows)
  {
    ScanIdempotent(rows, WeeklyMomentum, SetupKey);
  }

  /** apply_scanner_logic of the play scanner: the empty frame comes back
      unchanged, any other goes through the weekly mask and sort. */
  function ApplyPlay(rows: seq<SetupRow>): (r: seq<SetupRow>)
    ensures rows == [] ==> r == rows
  {
    if rows == [] then rows else Scan(rows, WeeklyMomentum, SetupKey)
  }

  /** The play scanner and the weekly scanner select and order the same. */
  lemma PlayIsWeekly(rows: seq<SetupRow>)
    ensures ApplyPlay(rows) == ApplyWeekly(rows)
  {
    if rows == [] {
      assert Filter(rows, WeeklyMomentum) == [];
      assert Sorting.Sort([], ByKey(SetupKey)) == [];
    }
  }

  /** The weekly scanner's lookback: 365 days. */
  const WeeklyLookback: nat := 365

  /** run_scanner_weekly from the base query on. */
  function RunWeekly(today: Day, start: Option<string>, assetType: string, symbols: seq<SymbolRow>,
                     prices: map<int, seq<WeeklyBar>>, ind: map<int, map<Day, seq<Option<real>>>>): (r: seq<SetupRow>)
    ensures StartDay(today, start, WeeklyLookback).None? ==> r == []
    ensures Registry.Lookup(assetType).None? ==> r == []
  {
    match StartDay(today, start, WeeklyLookback)
    case None => []
    case Some(s) => ApplyWeekly(GetBaseDataWeekly(assetType, Some(s), Some(today), symbols, prices, ind))
  }

  /** A weekly signal is a qualifying week of a listed symbol, from its
      price series, between the start (today minus 365 days or the given
      date) and today, that meets the five weekly conditions. */
  lemma RunWeeklyRows(today: Day, start: Option<string>, assetType: string, symbols: seq<SymbolRow>,
                      prices: map<int, seq<WeeklyBar>>, ind: map<int, map<Day, seq<Option<real>>>>, x: SetupRow)
    requires x in RunWeekly(today, start, assetType, symbols, prices, ind)
    ensures WeeklyMomentum(x) && Registry.Lookup(assetType).Some?
    ensures StartDay(today, start, WeeklyLookback).Some?
      && StartDay(today, start, WeeklyLookback).value <= x.bar.date <= today
    ensures x.bar in DataService.SeriesOf(prices, x.symbolId) && exists s :: s in symbols && s.symbolId == x.symbolId
    ensures x.bar.close > x.sma20 && x.bar.low <= x.minLow4w
      && x.sma20TwoWeeksAgo < x.sma20 && x.bar.close >= x.closeOneWeekAgo
  {
    var s := StartDay(today, start, WeeklyLookback).value;
    var base := GetBaseDataWeekly(assetType, Some(s), Some(today), symbols, prices, ind);
    assert x in ApplyWeekly(base);
    var range := WeeklyRange(Some(s), Some(today));
    SetupRowsFrom(symbols, prices, ind, range.0, range.1, x);
  }

  // ---------------------------------------------------------------------
  // Multi-year play scanner (scanner_play_multi_years)
  // ---------------------------------------------------------------------

  /** `[start_year - i for i in range(lookback_years)]`. */
  function Years(startYear: int, lookback: int): (ys: seq<int>)
    ensures |ys| == if lookback > 0 then lookback else 0
    ensures forall i :: 0 <= i < |ys| ==> ys[i] == startYear - i
  {
    if lookback <= 0 then [] else Years(startYear, lookback - 1) + [startYear - (lookback - 1)]
  }

  /** The years are scanned from the latest back, each once. */
  lemma YearsDescend(startYear: int, lookback: int)
    ensures var ys := Years(startYear, lookback);
      forall i, j :: 0 <= i < j < |ys| ==> ys[i] > ys[j]
  {
  }

  /** A signal tagged with the year whose scan produced it. */
  datatype Tagged = Tagged(row: SetupRow, year: int)

  /** run_scanner for one year: from YYYY-01-01 to YYYY-12-31. */
  function RunYear(year: int, assetType: string, symbols: seq<SymbolRow>,
                   prices: map<int, seq<WeeklyBar>>, ind: map<int, map<Day, seq<Option<real>>>>): (r: seq<SetupRow>)
    ensures forall x :: x in r ==> WeeklyMomentum(x)
  {
    var base := GetBaseDataWeekly(assetType, Some(DaysFromCivil(Civil(year, 1, 1))), Some(DaysFromCivil(Civil(year, 12, 31))),
                                  symbols, prices, ind);
    if base == [] then [] else ApplyPlay(base)
  }

  function TagAll(rows: seq<SetupRow>, year: int): (r: seq<Tagged>)
    ensures |r| == |rows| && forall i :: 0 <= i < |rows| ==> r[i] == Tagged(rows[i], year)
  {
    seq(|rows|, i requires 0 <= i < |rows| => Tagged(rows[i], year))
  }

  /** run_scanner with the tables fixed, as a function of the year. */
  function YearScanner(assetType: string, symbols: seq<SymbolRow>, prices: map<int, seq<WeeklyBar>>,
                       ind: map<int, map<Day, seq<Option<real>>>>): int -> seq<SetupRow>
  {
    year => RunYear(year, assetType, symbols, prices, ind)
  }

  /** `pd.concat` of the non-empty yearly results, each tagged. */
  function AllYears(years: seq<int>, run: int -> seq<SetupRow>): seq<Tagged>
  {
    if years == [] then []
    else
      var y := years[|years| - 1];
      AllYears(years[..|years| - 1], run) + TagAll(run(y), y)
  }

  function YearlyCounts(years: seq<int>, run: int -> seq<SetupRow>): nat
  {
    if years == [] then 0
    else YearlyCounts(years[..|years| - 1], run) + |run(years[|years| - 1])|
  }

  /** The total row count is the sum of the yearly counts, and every row
      comes from the scan of its own year, one of the scanned years. */
  lemma {:induction false} AllYearsRows(years: seq<int>, run: int -> seq<SetupRow>)
    ensures var all := AllYears(years, run);
      |all| == YearlyCounts(years, run)
      && forall t :: t in all ==> t.year in years && t.row in run(t.year)
  {
    if years != [] {
      var init := years[..|years| - 1];
      var y := years[|years| - 1];
      AllYearsRows(init, run);
      var all := AllYears(years, run);
      var prev := AllYears(init, run);
      var tagged := TagAll(run(y), y);
      assert all == prev + tagged;
      forall t | t in all ensures t.year in years && t.row in run(t.year) {
        if t in prev {
          assert t.year in init;
        } else {
          var i :| 0 <= i < |tagged| && tagged[i] == t;
        }
      }
    }
  }

  /** The multi-year result: every row is a weekly signal of the year it
      is tagged with, the year is one of the scanned ones, and the yearly
      counts add up. */
  lemma PlayYearsRows(y: int, lookback: int, assetType: string, symbols: seq<SymbolRow>,
                      prices: map<int, seq<WeeklyBar>>, ind: map<int, map<Day, seq<Option<real>>>>)
    ensures var run := YearScanner(assetType, symbols, prices, ind);
      var all := AllYears(Years(y, lookback), run);
      |all| == YearlyCounts(Years(y, lookback), run)
      && forall t :: t in all ==>
           y - lookback < t.year <= y && WeeklyMomentum(t.row)
           && t.row in RunYear(t.year, assetType, symbols, prices, ind)
  {
    var run := YearScanner(assetType, symbols, prices, ind);
    AllYearsRows(Years(y, lookback), run);
  }

  /** One more scanned year appends that year's tagged rows. */
  lemma NextYear(y: int, i: nat, run: int -> seq<SetupRow>)
    ensures AllYears(Years(y, i + 1), run) == AllYears(Years(y, i), run) + TagAll(run(y - i), y - i)
  {
    var ys := Years(y, i + 1);
    assert ys == Years(y, i) + [y - i];
    assert ys[..|ys| - 1] == Years(y, i);
  }

  /** The year loop of scanner_play_multi_years: scan each year from y
      back, and append each non-empty result tagged with its year. */
  method ScanYears(y: int, lookback: int, run: int -> seq<SetupRow>) returns (all: seq<Tagged>)
    ensures all == AllYears(Years(y, lookback), run)
  {
    all := [];
    var n := if lookback > 0 then lookback else 0;
    assert Years(y, lookback) == Years(y, n);
    var i := 0;
    while i < n
      invariant 0 <= i <= n
      invariant all == AllYears(Years(y, i), run)
    {
      var year := y - i;
      var rows := run(year);
      NextYear(y, i, run);
      if rows != [] {
        all := all + TagAll(rows, year);
      } else {
        assert TagAll(rows, year) == [];
        assert all + [] == all;
      }
      i := i + 1;
    }
  }

  /** scanner_play_multi_years. An unparseable start year raises and the
      handler returns the empty frame. */
  method ScannerPlayMultiYears(startYear: string, lookback: int, assetType: string, symbols: seq<SymbolRow>,
                               prices: map<int, seq<WeeklyBar>>, ind: map<int, map<Day, seq<Option<real>>>>)
    returns (all: seq<Tagged>)
    ensures ParseInteger(startYear).None? ==> all == []
    ensures ParseInteger(startYear).Some? ==>
      all == AllYears(Years(ParseInteger(startYear).value, lookback), YearScanner(assetType, symbols, prices, ind))
  {
    var parsed := ParseInteger(startYear);
    if parsed.None? {
      return [];
    }
    all := ScanYears(parsed.value, lookback, YearScanner(assetType, symbols, prices, ind));
  }
}
