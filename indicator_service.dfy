/** The indicator service: the composition of every indicator into one row
    per bar (calculate_indicators) and the incremental refresh of the
    indicator tables from the price tables (refresh_indicators). */
module IndicatorService {
  import opened Wrappers
  import opened Calendar
  import opened Registry
  import opened Indicators
  import opened Supertrend

  // ---------------------------------------------------------------------
  // calculate_indicators
  // ---------------------------------------------------------------------

  /** One row of the price query: the date and the price columns. */
  datatype PriceBar = PriceBar(date: Day, bar: Bar)

  /** The indicator columns written to the indicator tables. */
  datatype Values = Values(
    sma20: Option<real>, sma50: Option<real>, sma200: Option<real>,
    rsi3: real, rsi9: real, rsi14: real,
    emaRsi93: real, wmaRsi921: Option<real>,
    bbUpper: Option<real>, bbMiddle: Option<real>, bbLower: Option<real>,
    atr14: Option<real>, supertrend: Option<real>, supertrendDir: int,
    macd: real, macdSignal: real, pctPriceChange: Option<real>)

  /** A bar with its indicator columns. */
  datatype Row = Row(date: Day, bar: Bar, values: Values)

  function Bars(p: seq<PriceBar>): (b: seq<Bar>)
    ensures |b| == |p| && forall t :: 0 <= t < |p| ==> b[t] == p[t].bar
  {
    seq(|p|, t requires 0 <= t < |p| => p[t].bar)
  }

  function CloseOf(p: seq<PriceBar>): (c: seq<real>)
    ensures |c| == |p| && forall t :: 0 <= t < |p| ==> c[t] == p[t].bar.close
  {
    seq(|p|, t requires 0 <= t < |p| => p[t].bar.close)
  }

  function AdjCloseOf(p: seq<PriceBar>): (c: seq<real>)
    ensures |c| == |p| && forall t :: 0 <= t < |p| ==> c[t] == p[t].bar.adjClose
  {
    seq(|p|, t requires 0 <= t < |p| => p[t].bar.adjClose)
  }

  /** close.pct_change(fill_method=None).mul(100).round(2): missing on the
      first row; a zero previous close gives an infinite or undefined
      ratio, kept here as missing. */
  function PctChange(close: seq<real>): (r: seq<Option<real>>)
    ensures |r| == |close|
    ensures |close| > 0 ==> r[0].None?
    ensures forall t :: 1 <= t < |close| ==> (r[t].Some? <==> close[t - 1] != 0.0)
  {
    seq(|close|, t requires 0 <= t < |close| =>
      if t == 0 || close[t - 1] == 0.0 then None
      else Some(Round2((close[t] / close[t - 1] - 1.0) * 100.0)))
  }

  /** The change is the percentage move from the previous close, rounded. */
  lemma {:induction false} PctChangeValue(close: seq<real>, t: nat)
    requires 1 <= t < |close| && close[t - 1] != 0.0
    ensures PctChange(close)[t] == Some(Round2((close[t] - close[t - 1]) / close[t - 1] * 100.0))
  {
    RatioMinusOne(close[t], close[t - 1]);
  }

  lemma RatioMinusOne(c: real, p: real)
    requires p != 0.0
    ensures c / p - 1.0 == (c - p) / p
  {
    assert p / p == 1.0;
    assert (c - p) / p == c / p - p / p;
  }

  /** A close at or above a positive previous close gives a change >= 0. */
  lemma {:induction false} PctChangeSign(close: seq<real>, t: nat)
    requires 1 <= t < |close| && close[t - 1] > 0.0 && close[t] >= close[t - 1]
    ensures PctChange(close)[t].Some? && PctChange(close)[t].value >= 0.0
  {
    var c, p := close[t], close[t - 1];
    assert c / p >= 1.0;
    Round2Monotone(0.0, (c / p - 1.0) * 100.0);
    Round2Whole(0);
  }

  /** The indicator columns of a frame, each as long as the frame. */
  datatype Columns = Columns(
    sma20: seq<Option<real>>, sma50: seq<Option<real>>, sma200: seq<Option<real>>,
    rsi3: seq<real>, rsi9: seq<real>, rsi14: seq<real>,
    emaRsi93: seq<real>, wmaRsi921: seq<Option<real>>,
    bbUpper: seq<Option<real>>, bbMiddle: seq<Option<real>>, bbLower: seq<Option<real>>,
    atr14: seq<Option<real>>, supertrend: seq<Option<real>>, supertrendDir: seq<int>,
    macd: seq<real>, macdSignal: seq<real>, pctPriceChange: seq<Option<real>>)

  predicate ColumnsOfLength(c: Columns, n: nat) {
    |c.sma20| == n && |c.sma50| == n && |c.sma200| == n
    && |c.rsi3| == n && |c.rsi9| == n && |c.rsi14| == n
    && |c.emaRsi93| == n && |c.wmaRsi921| == n
    && |c.bbUpper| == n && |c.bbMiddle| == n && |c.bbLower| == n
    && |c.atr14| == n && |c.supertrend| == n && |c.supertrendDir| == n
    && |c.macd| == n && |c.macdSignal| == n && |c.pctPriceChange| == n
  }

  /** sma_20, sma_50 and sma_200 over adj_close. */
  function MovingAverages(adj: seq<real>): (r: (seq<Option<real>>, seq<Option<real>>, seq<Option<real>>))
    ensures |r.0| == |adj| && |r.1| == |adj| && |r.2| == |adj|
  {
    (Sma(adj, 20), Sma(adj, 50), Sma(adj, 200))
  }

  /** rsi_3, rsi_9, rsi_14, ema_rsi_9_3 and wma_rsi_9_21 over close. The
      periods are constants of at least 1, so none of these fails. */
  function Oscillators(close: seq<real>): (r: (seq<real>, seq<real>, seq<real>, seq<real>, seq<Option<real>>))
    ensures |r.0| == |close| && |r.1| == |close| && |r.2| == |close| && |r.3| == |close| && |r.4| == |close|
  {
    var rsi9 := Rsi(close, 9).value;
    (Rsi(close, 3).value, rsi9, Rsi(close, 14).value, Ema(rsi9, 3).value, Safe(Wma(rsi9, 21), |close|))
  }

  /** bb_upper, bb_middle and bb_lower: calculate_bollinger with its
      defaults (20, 2). */
  function Bands20(close: seq<real>, sqrt: real -> real): (r: (seq<Option<real>>, seq<Option<real>>, seq<Option<real>>))
    ensures |r.0| == |close| && |r.1| == |close| && |r.2| == |close|
  {
    Bollinger(close, 20, 2.0, sqrt).value
  }

  /** Every column of calculate_indicators over the whole frame: the SMAs
      read adj_close; RSI, its EMA and WMA, Bollinger, MACD and the change
      read close; ATR (14) and Supertrend (10, 3) read high, low and close. */
  function ColumnsOf(p: seq<PriceBar>, sqrt: real -> real): (c: Columns)
    ensures ColumnsOfLength(c, |p|)
  {
    var close := CloseOf(p);
    var ma := MovingAverages(AdjCloseOf(p));
    var osc := Oscillators(close);
    var bb := Bands20(close, sqrt);
    var atr := Safe(Atr(Bars(p), 14), |p|);
    var st := SupertrendSpec(Bars(p), 10, 3.0);
    var macd := Macd(close);
    Columns(ma.0, ma.1, ma.2, osc.0, osc.1, osc.2, osc.3, osc.4, bb.0, bb.1, bb.2,
            atr, st.0, st.1, macd.0, macd.1, PctChange(close))
  }

  /** The row at index t of the computed frame. */
  function RowAt(p: seq<PriceBar>, c: Columns, t: nat): (r: Row)
    requires t < |p| && ColumnsOfLength(c, |p|)
    ensures r.date == p[t].date && r.bar == p[t].bar
  {
    Row(p[t].date, p[t].bar,
      Values(c.sma20[t], c.sma50[t], c.sma200[t], c.rsi3[t], c.rsi9[t], c.rsi14[t], c.emaRsi93[t], c.wmaRsi921[t],
             c.bbUpper[t], c.bbMiddle[t], c.bbLower[t], c.atr14[t], c.supertrend[t], c.supertrendDir[t],
             c.macd[t], c.macdSignal[t], c.pctPriceChange[t]))
  }

  /** The frame with every indicator column added. */
  function Assemble(p: seq<PriceBar>, c: Columns): (r: seq<Row>)
    requires ColumnsOfLength(c, |p|)
    ensures |r| == |p|
    ensures forall t :: 0 <= t < |p| ==> r[t].date == p[t].date && r[t].bar == p[t].bar
  {
    seq(|p|, t requires 0 <= t < |p| => RowAt(p, c, t))
  }

  function Compute(p: seq<PriceBar>, sqrt: real -> real): (r: seq<Row>)
    ensures |r| == |p|
    ensures forall t :: 0 <= t < |p| ==> r[t].date == p[t].date && r[t].bar == p[t].bar
  {
    Assemble(p, ColumnsOf(p, sqrt))
  }

  /** calculate_indicators(df, latest_only). On an empty frame `iloc[[-1]]`
      raises, and the handler returns the (empty) frame. */
  function CalculateIndicators(p: seq<PriceBar>, latestOnly: bool, sqrt: real -> real): (r: seq<Row>)
    ensures !latestOnly ==> |r| == |p| && forall t :: 0 <= t < |p| ==> r[t].date == p[t].date && r[t].bar == p[t].bar
    ensures latestOnly && |p| > 0 ==> r == [Compute(p, sqrt)[|p| - 1]] && r[0].date == p[|p| - 1].date
    ensures latestOnly && |p| == 0 ==> r == []
  {
    var full := Compute(p, sqrt);
    if latestOnly then (if |p| == 0 then [] else [full[|p| - 1]]) else full
  }

  /** Row t of the computed frame holds the t-th entry of every column. */
  lemma ComputeAt(p: seq<PriceBar>, sqrt: real -> real, t: nat)
    requires t < |p|
    ensures Compute(p, sqrt)[t] == RowAt(p, ColumnsOf(p, sqrt), t)
  {
  }

  /** The moving averages are the SMAs of adj_close. */
  lemma MovingAverageColumns(p: seq<PriceBar>, sqrt: real -> real)
    ensures var c := ColumnsOf(p, sqrt);
      c.sma20 == Sma(AdjCloseOf(p), 20) && c.sma50 == Sma(AdjCloseOf(p), 50) && c.sma200 == Sma(AdjCloseOf(p), 200)
  {
  }

  /** The RSI columns and their averages are computed from close. */
  lemma OscillatorColumns(p: seq<PriceBar>, sqrt: real -> real)
    ensures var c := ColumnsOf(p, sqrt);
      c.rsi3 == Rsi(CloseOf(p), 3).value && c.rsi9 == Rsi(CloseOf(p), 9).value && c.rsi14 == Rsi(CloseOf(p), 14).value
      && c.emaRsi93 == Ema(Rsi(CloseOf(p), 9).value, 3).value
      && c.wmaRsi921 == Safe(Wma(Rsi(CloseOf(p), 9).value, 21), |p|)
  {
  }

  /** The Bollinger columns are calculate_bollinger(close, 20, 2). */
  lemma BandColumns(p: seq<PriceBar>, sqrt: real -> real)
    ensures var c := ColumnsOf(p, sqrt);
      (c.bbUpper, c.bbMiddle, c.bbLower) == Bollinger(CloseOf(p), 20, 2.0, sqrt).value
  {
  }

  /** MACD and the percentage change are computed from close. */
  lemma CloseTrendColumns(p: seq<PriceBar>, sqrt: real -> real)
    ensures var c := ColumnsOf(p, sqrt);
      (c.macd, c.macdSignal) == Macd(CloseOf(p)) && c.pctPriceChange == PctChange(CloseOf(p))
  {
  }

  /** ATR (14) and Supertrend (10, 3) are computed from the bars. */
  lemma RangeColumns(p: seq<PriceBar>, sqrt: real -> real)
    ensures var c := ColumnsOf(p, sqrt);
      c.atr14 == Safe(Atr(Bars(p), 14), |p|) && (c.supertrend, c.supertrendDir) == SupertrendSpec(Bars(p), 10, 3.0)
  {
  }

  /** The SMA columns depend on adj_close alone. */
  lemma {:induction false} SmaColumnsReadAdjClose(p: seq<PriceBar>, q: seq<PriceBar>, sqrt: real -> real, t: nat)
    requires |p| == |q| && t < |p| && AdjCloseOf(p) == AdjCloseOf(q)
    ensures Compute(p, sqrt)[t].values.sma20 == Compute(q, sqrt)[t].values.sma20
    ensures Compute(p, sqrt)[t].values.sma50 == Compute(q, sqrt)[t].values.sma50
    ensures Compute(p, sqrt)[t].values.sma200 == Compute(q, sqrt)[t].values.sma200
  {
    ComputeAt(p, sqrt, t);
    ComputeAt(q, sqrt, t);
    MovingAverageColumns(p, sqrt);
    MovingAverageColumns(q, sqrt);
  }

  /** RSI, its EMA and WMA, the Bollinger bands, MACD and the percentage
      change depend on close alone. */
  lemma {:induction false} CloseColumnsReadClose(p: seq<PriceBar>, q: seq<PriceBar>, sqrt: real -> real, t: nat)
    requires |p| == |q| && t < |p| && CloseOf(p) == CloseOf(q)
    ensures var a, b := Compute(p, sqrt)[t].values, Compute(q, sqrt)[t].values;
      a.rsi3 == b.rsi3 && a.rsi9 == b.rsi9 && a.rsi14 == b.rsi14
      && a.emaRsi93 == b.emaRsi93 && a.wmaRsi921 == b.wmaRsi921
      && a.bbUpper == b.bbUpper && a.bbMiddle == b.bbMiddle && a.bbLower == b.bbLower
      && a.macd == b.macd && a.macdSignal == b.macdSignal && a.pctPriceChange == b.pctPriceChange
  {
    ComputeAt(p, sqrt, t);
    ComputeAt(q, sqrt, t);
    OscillatorColumns(p, sqrt);
    OscillatorColumns(q, sqrt);
    BandColumns(p, sqrt);
    BandColumns(q, sqrt);
    CloseTrendColumns(p, sqrt);
    CloseTrendColumns(q, sqrt);
  }

  /** RsiBounds, stated on its own. */
  lemma RsiWithin(close: seq<real>, p: int, t: nat)
    requires p >= 1 && t < |close|
    ensures 0.0 <= Rsi(close, p).value[t] <= 100.0
  {
    RsiBounds(close, p, t);
  }

  lemma {:induction false} RsiColumnsBounded(p: seq<PriceBar>, sqrt: real -> real, t: nat)
    requires t < |p|
    ensures var c := ColumnsOf(p, sqrt);
      0.0 <= c.rsi3[t] <= 100.0 && 0.0 <= c.rsi9[t] <= 100.0 && 0.0 <= c.rsi14[t] <= 100.0
  {
    OscillatorColumns(p, sqrt);
    RsiWithin(CloseOf(p), 3, t);
    RsiWithin(CloseOf(p), 9, t);
    RsiWithin(CloseOf(p), 14, t);
  }

  /** Every RSI column of every row lies in [0, 100]. */
  lemma {:induction false} RowRsiBounds(p: seq<PriceBar>, sqrt: real -> real, t: nat)
    requires t < |p|
    ensures var v := Compute(p, sqrt)[t].values;
      0.0 <= v.rsi3 <= 100.0 && 0.0 <= v.rsi9 <= 100.0 && 0.0 <= v.rsi14 <= 100.0
  {
    ComputeAt(p, sqrt, t);
    RsiColumnsBounded(p, sqrt, t);
  }

  /** BollingerOrdered for calculate_bollinger's defaults, with the bands'
      presence spelled out. */
  lemma Bands20Ordered(close: seq<real>, sqrt: real -> real, t: nat)
    requires 19 <= t < |close|
    requires forall v :: v >= 0.0 ==> sqrt(v) >= 0.0
    ensures var b := Bollinger(close, 20, 2.0, sqrt);
      b.Ok? && b.value.0[t].Some? && b.value.1[t].Some? && b.value.2[t].Some?
      && b.value.2[t].value <= b.value.1[t].value <= b.value.0[t].value
  {
    BollingerOrdered(close, 20, 2.0, sqrt, t);
  }

  /** calculate_indicators(df, latest_only=False), as the refresh calls it. */
  function RowsOf(sqrt: real -> real): seq<PriceBar> -> seq<Row> {
    p => CalculateIndicators(p, false, sqrt)
  }

  /** A row computation that keeps the frame's rows, dates and order. */
  ghost predicate KeepsDates(compute: seq<PriceBar> -> seq<Row>) {
    forall p: seq<PriceBar> :: |compute(p)| == |p| && forall t :: 0 <= t < |p| ==> compute(p)[t].date == p[t].date
  }

  lemma RowsOfKeepsDates(sqrt: real -> real)
    ensures KeepsDates(RowsOf(sqrt))
  {
    forall p: seq<PriceBar> ensures |RowsOf(sqrt)(p)| == |p| && forall t :: 0 <= t < |p| ==> RowsOf(sqrt)(p)[t].date == p[t].date {
      assert RowsOf(sqrt)(p) == CalculateIndicators(p, false, sqrt);
    }
  }

  // ---------------------------------------------------------------------
  // The stores
  // ---------------------------------------------------------------------

  /** The timeframes of the price and indicator tables. */
  const Frequencies: seq<string> := ["1d", "1wk", "1mo"]

  /** One (asset class, symbol id, timeframe) series. */
  datatype Unit = Unit(asset: Asset, id: int, timeframe: string)

  /** A row of an indicator table, without its key columns. */
  datatype Record = Record(date: Day, values: Values)

  /** The counters of one (asset, timeframe) pass, as logged. */
  datatype Summary = Summary(asset: Asset, timeframe: string, processedAssets: nat, insertedRows: nat)

  type PriceStore = map<Unit, seq<PriceBar>>
  type IndicatorStore = map<Unit, seq<Record>>

  /** `WHERE symbol_id = .. AND timeframe = ..` on a price table. */
  function PriceSeries(prices: PriceStore, u: Unit): seq<PriceBar> {
    if u in prices then prices[u] else []
  }

  /** `WHERE symbol_id = .. AND timeframe = ..` on an indicator table. */
  function Stored(ind: IndicatorStore, u: Unit): seq<Record> {
    if u in ind then ind[u] else []
  }

  /** The symbol ids of an asset's symbol table. */
  function Ids(symbols: map<Asset, seq<int>>, a: Asset): seq<int> {
    if a in symbols then symbols[a] else []
  }

  /** Dates strictly increase: the primary key (symbol_id, timeframe, date)
      read in `ORDER BY date` order. */
  predicate SortedByDate(bars: seq<PriceBar>) {
    forall i, j :: 0 <= i < j < |bars| ==> bars[i].date < bars[j].date
  }

  predicate PricesSorted(prices: PriceStore) {
    forall u :: u in prices ==> SortedByDate(prices[u])
  }

  function BarDates(p: seq<PriceBar>): set<Day> {
    set i | 0 <= i < |p| :: p[i].date
  }

  function RecordDates(r: seq<Record>): set<Day> {
    set i | 0 <= i < |r| :: r[i].date
  }

  // ---------------------------------------------------------------------
  // Watermark, window and new rows
  // ---------------------------------------------------------------------

  /** SELECT MAX(date): the latest stored indicator date, None without rows. */
  function Watermark(rows: seq<Record>): (w: Option<Day>)
    ensures w.None? <==> |rows| == 0
    ensures w.Some? ==> forall i :: 0 <= i < |rows| ==> rows[i].date <= w.value
    ensures w.Some? ==> w.value in RecordDates(rows)
  {
    if |rows| == 0 then None
    else
      var w := Watermark(rows[..|rows| - 1]);
      var last := rows[|rows| - 1].date;
      if w.None? || last > w.value then Some(last) else w
  }

  /** The bars dated at or before d, in order. */
  function AtOrBefore(bars: seq<PriceBar>, d: Day): (r: seq<PriceBar>)
    ensures |r| <= |bars|
    ensures forall x :: x in r <==> x in bars && x.date <= d
  {
    if |bars| == 0 then []
    else (if bars[0].date <= d then [bars[0]] else []) + AtOrBefore(bars[1..], d)
  }

  /** The bars dated on or after a, in order. */
  function FromDate(bars: seq<PriceBar>, a: Day): (r: seq<PriceBar>)
    ensures forall x :: x in r <==> x in bars && x.date >= a
  {
    if |bars| == 0 then []
    else (if bars[0].date >= a then [bars[0]] else []) + FromDate(bars[1..], a)
  }

  /** The scalar subquery `... AND date <= d ORDER BY date DESC OFFSET
      lookback LIMIT 1`: the date of the (lookback+1)-th most recent bar
      at or before d, or NULL when there are not that many. */
  function Anchor(bars: seq<PriceBar>, d: Day, lookback: nat): (a: Option<Day>)
    ensures a.Some? <==> |AtOrBefore(bars, d)| > lookback
    ensures a.Some? ==> a.value in BarDates(bars)
  {
    var before := AtOrBefore(bars, d);
    if |before| > lookback then
      var x := before[|before| - 1 - lookback];
      assert x in before;
      var i :| 0 <= i < |bars| && bars[i] == x;
      Some(x.date)
    else None
  }

  /** The price query of one unit. Without a watermark it is the whole
      series; with one it is `date >= (subquery)`, which a NULL subquery
      makes empty. */
  function FetchWindow(bars: seq<PriceBar>, w: Option<Day>, lookback: nat): (r: seq<PriceBar>)
    ensures forall x :: x in r ==> x in bars
  {
    match w
    case None => bars
    case Some(d) =>
      match Anchor(bars, d, lookback)
      case None => []
      case Some(a) => FromDate(bars, a)
  }

  /** `df[df["date"] > last_dt]`, skipped without a watermark. */
  function AfterWatermark(rows: seq<Row>, w: Option<Day>): (r: seq<Row>)
    ensures forall x :: x in r <==> x in rows && (w.None? || x.date > w.value)
  {
    if |rows| == 0 then []
    else (if w.None? || rows[0].date > w.value then [rows[0]] else []) + AfterWatermark(rows[1..], w)
  }

  function ToRecords(rows: seq<Row>): (r: seq<Record>)
    ensures |r| == |rows| && forall i :: 0 <= i < |rows| ==> r[i] == Record(rows[i].date, rows[i].values)
  {
    seq(|rows|, i requires 0 <= i < |rows| => Record(rows[i].date, rows[i].values))
  }

  /** The window one unit reads, given its stored indicator rows. */
  function UnitWindow(existing: seq<Record>, bars: seq<PriceBar>, lookback: nat): seq<PriceBar> {
    FetchWindow(bars, Watermark(existing), lookback)
  }

  /** The records one unit inserts, given its stored indicator rows, its
      price series and the row computation. */
  function NewRecords(existing: seq<Record>, bars: seq<PriceBar>, lookback: nat, compute: seq<PriceBar> -> seq<Row>): seq<Record>
  {
    var w := Watermark(existing);
    var window := FetchWindow(bars, w, lookback);
    if |window| == 0 then []
    else ToRecords(AfterWatermark(compute(window), w))
  }

  lemma {:induction false} AtOrBeforeNone(bars: seq<PriceBar>, d: Day)
    requires forall i :: 0 <= i < |bars| ==> bars[i].date > d
    ensures AtOrBefore(bars, d) == []
  {
    if |bars| > 0 {
      AtOrBeforeNone(bars[1..], d);
    }
  }

  lemma {:induction false} AtOrBeforePrefix(bars: seq<PriceBar>, d: Day)
    requires SortedByDate(bars)
    ensures AtOrBefore(bars, d) == bars[..|AtOrBefore(bars, d)|]
    ensures forall i :: |AtOrBefore(bars, d)| <= i < |bars| ==> bars[i].date > d
  {
    if |bars| > 0 {
      var rest := bars[1..];
      assert SortedByDate(rest);
      if bars[0].date <= d {
        AtOrBeforePrefix(rest, d);
        var k := |AtOrBefore(rest, d)|;
        assert AtOrBefore(bars, d) == [bars[0]] + rest[..k];
        assert [bars[0]] + rest[..k] == bars[..k + 1];
        forall i | k + 1 <= i < |bars| ensures bars[i].date > d {
          assert bars[i] == rest[i - 1];
        }
      } else {
        forall i | 0 <= i < |rest| ensures rest[i].date > d {
          assert bars[i + 1].date > bars[0].date;
        }
        AtOrBeforeNone(rest, d);
        assert AtOrBefore(bars, d) == [] by {
          assert AtOrBefore(bars, d) == AtOrBefore(rest, d);
        }
        forall i | 0 <= i < |bars| ensures bars[i].date > d {
          if i > 0 { assert bars[i] == rest[i - 1]; }
        }
      }
    }
  }

  lemma {:induction false} FromDateAll(bars: seq<PriceBar>, a: Day)
    requires forall i :: 0 <= i < |bars| ==> bars[i].date >= a
    ensures FromDate(bars, a) == bars
  {
    if |bars| > 0 {
      FromDateAll(bars[1..], a);
      assert [bars[0]] + bars[1..] == bars;
    }
  }

  lemma {:induction false} FromDateSuffix(bars: seq<PriceBar>, j: nat)
    requires SortedByDate(bars) && j < |bars|
    ensures FromDate(bars, bars[j].date) == bars[j..]
  {
    if j == 0 {
      forall i | 0 <= i < |bars| ensures bars[i].date >= bars[0].date {
        if i > 0 { assert bars[0].date < bars[i].date; }
      }
      FromDateAll(bars, bars[0].date);
    } else {
      var rest := bars[1..];
      var a := bars[j].date;
      assert SortedByDate(rest);
      assert FromDate(bars, a) == FromDate(rest, a) by {
        assert bars[0].date < a;
      }
      assert rest[j - 1] == bars[j];
      FromDateSuffix(rest, j - 1);
      assert rest[j - 1..] == bars[j..];
    }
  }

  /** The lookback window: the whole series without a watermark; nothing
      when at most `lookback` bars are dated at or before the watermark
      (there is no fallback to a shorter history); otherwise the suffix
      starting at the (lookback+1)-th most recent bar at or before the
      watermark, so that it holds exactly lookback+1 bars at or before the
      watermark and every bar after it. */
  lemma {:induction false} WindowShape(bars: seq<PriceBar>, w: Option<Day>, lookback: nat)
    requires SortedByDate(bars)
    ensures w.None? ==> FetchWindow(bars, w, lookback) == bars
    ensures w.Some? && |AtOrBefore(bars, w.value)| <= lookback ==> FetchWindow(bars, w, lookback) == []
    ensures w.Some? && |AtOrBefore(bars, w.value)| > lookback ==>
      var k := |AtOrBefore(bars, w.value)|;
      FetchWindow(bars, w, lookback) == bars[k - 1 - lookback..]
      && (forall i :: 0 <= i < k ==> bars[i].date <= w.value)
      && (forall i :: k <= i < |bars| ==> bars[i].date > w.value)
  {
    if w.Some? {
      var d := w.value;
      AtOrBeforePrefix(bars, d);
      var k := |AtOrBefore(bars, d)|;
      if k > lookback {
        var j := k - 1 - lookback;
        assert AtOrBefore(bars, d)[j] == bars[j];
        FromDateSuffix(bars, j);
        forall i | 0 <= i < k ensures bars[i].date <= d {
          assert bars[i] == AtOrBefore(bars, d)[i];
          assert bars[i] in AtOrBefore(bars, d);
        }
      }
    }
  }

  lemma {:induction false} AfterNone(rows: seq<Row>, d: Day)
    requires forall t :: 0 <= t < |rows| ==> rows[t].date <= d
    ensures AfterWatermark(rows, Some(d)) == []
  {
    if |rows| > 0 {
      AfterNone(rows[1..], d);
    }
  }

  /** Every inserted record carries a window date after the watermark. */
  lemma {:induction false} NewRecordsFromWindow(existing: seq<Record>, bars: seq<PriceBar>, lookback: nat, compute: seq<PriceBar> -> seq<Row>)
    requires KeepsDates(compute)
    ensures var w, window, n := Watermark(existing), UnitWindow(existing, bars, lookback), NewRecords(existing, bars, lookback, compute);
      forall i :: 0 <= i < |n| ==> n[i].date in BarDates(window) && (w.None? || n[i].date > w.value)
  {
    var w, window, n := Watermark(existing), UnitWindow(existing, bars, lookback), NewRecords(existing, bars, lookback, compute);
    if |window| > 0 {
      var rows := compute(window);
      var after := AfterWatermark(rows, w);
      assert n == ToRecords(after);
      forall i | 0 <= i < |n| ensures n[i].date in BarDates(window) && (w.None? || n[i].date > w.value) {
        assert after[i] in after;
        var t :| 0 <= t < |rows| && rows[t] == after[i];
        assert n[i].date == window[t].date;
      }
    }
  }

  lemma KeptDate(window: seq<PriceBar>, rows: seq<Row>, w: Option<Day>, x: PriceBar)
    requires |rows| == |window| && forall t :: 0 <= t < |window| ==> rows[t].date == window[t].date
    requires x in window && (w.None? || x.date > w.value)
    ensures x.date in RecordDates(ToRecords(AfterWatermark(rows, w)))
  {
    var t :| 0 <= t < |window| && window[t] == x;
    assert rows[t] in rows;
    var after := AfterWatermark(rows, w);
    assert rows[t] in after;
    var i :| 0 <= i < |after| && after[i] == rows[t];
    var n := ToRecords(after);
    assert n[i].date == x.date;
  }

  /** Every window date after the watermark is inserted. */
  lemma {:induction false} NewRecordsCoverWindow(existing: seq<Record>, bars: seq<PriceBar>, lookback: nat, compute: seq<PriceBar> -> seq<Row>)
    requires KeepsDates(compute)
    ensures var w, window, n := Watermark(existing), UnitWindow(existing, bars, lookback), NewRecords(existing, bars, lookback, compute);
      forall x :: x in window && (w.None? || x.date > w.value) ==> x.date in RecordDates(n)
  {
    var w, window, n := Watermark(existing), UnitWindow(existing, bars, lookback), NewRecords(existing, bars, lookback, compute);
    if |window| > 0 {
      var rows := compute(window);
      assert n == ToRecords(AfterWatermark(rows, w));
      assert |rows| == |window| && forall t :: 0 <= t < |window| ==> rows[t].date == window[t].date;
      forall x | x in window && (w.None? || x.date > w.value) ensures x.date in RecordDates(n) {
        KeptDate(window, rows, w, x);
      }
    }
  }

  /** A window with nothing after the watermark inserts nothing. */
  lemma {:induction false} NewRecordsNoneAfter(existing: seq<Record>, bars: seq<PriceBar>, lookback: nat, compute: seq<PriceBar> -> seq<Row>)
    requires KeepsDates(compute)
    ensures var w, window := Watermark(existing), UnitWindow(existing, bars, lookback);
      w.Some? && (forall x :: x in window ==> x.date <= w.value) ==> NewRecords(existing, bars, lookback, compute) == []
  {
    var w, window := Watermark(existing), UnitWindow(existing, bars, lookback);
    if |window| > 0 && w.Some? && (forall x :: x in window ==> x.date <= w.value) {
      var rows := compute(window);
      forall t | 0 <= t < |rows| ensures rows[t].date <= w.value {
        assert window[t] in window;
      }
      AfterNone(rows, w.value);
    }
  }

  /** The dates a unit inserts are exactly the window's dates after the
      watermark; in particular a window with no bar after the watermark
      inserts nothing. */
  lemma NewRecordDates(existing: seq<Record>, bars: seq<PriceBar>, lookback: nat, compute: seq<PriceBar> -> seq<Row>)
    requires KeepsDates(compute)
    ensures var w, window, n := Watermark(existing), UnitWindow(existing, bars, lookback), NewRecords(existing, bars, lookback, compute);
      (forall i :: 0 <= i < |n| ==> n[i].date in BarDates(window) && (w.None? || n[i].date > w.value))
      && (forall x :: x in window && (w.None? || x.date > w.value) ==> x.date in RecordDates(n))
      && (w.Some? && (forall x :: x in window ==> x.date <= w.value) ==> n == [])
  {
    NewRecordsFromWindow(existing, bars, lookback, compute);
    NewRecordsCoverWindow(existing, bars, lookback, compute);
    NewRecordsNoneAfter(existing, bars, lookback, compute);
  }

  /** Only rows dated after the watermark are inserted; with a watermark
      and at most `lookback` bars at or before it, none are. */
  lemma {:induction false} NewRecordsAfterWatermark(existing: seq<Record>, bars: seq<PriceBar>, lookback: nat, compute: seq<PriceBar> -> seq<Row>)
    requires KeepsDates(compute)
    ensures var w := Watermark(existing);
      forall r :: r in NewRecords(existing, bars, lookback, compute) ==>
        (w.None? || r.date > w.value) && r.date in BarDates(bars)
    ensures Watermark(existing).Some? && |AtOrBefore(bars, Watermark(existing).value)| <= lookback ==>
      NewRecords(existing, bars, lookback, compute) == []
  {
    var w, window, n := Watermark(existing), UnitWindow(existing, bars, lookback), NewRecords(existing, bars, lookback, compute);
    NewRecordDates(existing, bars, lookback, compute);
    forall r | r in n ensures (w.None? || r.date > w.value) && r.date in BarDates(bars) {
      var i :| 0 <= i < |n| && n[i] == r;
      var t :| 0 <= t < |window| && window[t].date == r.date;
      assert window[t] in window;
      var j :| 0 <= j < |bars| && bars[j] == window[t];
    }
  }

  lemma {:induction false} LastIsLatest(bars: seq<PriceBar>)
    requires SortedByDate(bars) && |bars| > 0
    ensures forall x :: x in bars ==> x.date <= bars[|bars| - 1].date
  {
    forall x | x in bars ensures x.date <= bars[|bars| - 1].date {
      var i :| 0 <= i < |bars| && bars[i] == x;
      if i < |bars| - 1 { assert bars[i].date < bars[|bars| - 1].date; }
    }
  }

  /** A non-empty window always ends with the latest bar. */
  lemma {:induction false} WindowHasLast(bars: seq<PriceBar>, w: Option<Day>, lookback: nat)
    requires SortedByDate(bars) && |FetchWindow(bars, w, lookback)| > 0
    ensures |bars| > 0 && bars[|bars| - 1] in FetchWindow(bars, w, lookback)
  {
    var window := FetchWindow(bars, w, lookback);
    assert window[0] in window;
    LastIsLatest(bars);
    if w.Some? {
      var a := Anchor(bars, w.value, lookback).value;
      var i :| 0 <= i < |bars| && bars[i].date == a;
      assert bars[i] in bars;
      assert bars[|bars| - 1] in bars;
    }
  }

  /** A unit that inserts anything inserts a record for its latest bar. */
  lemma {:induction false} NewRecordsReachLast(existing: seq<Record>, bars: seq<PriceBar>, lookback: nat, compute: seq<PriceBar> -> seq<Row>)
    requires SortedByDate(bars) && KeepsDates(compute)
    requires NewRecords(existing, bars, lookback, compute) != []
    ensures |bars| > 0 && bars[|bars| - 1].date in RecordDates(NewRecords(existing, bars, lookback, compute))
  {
    var w, window, n := Watermark(existing), UnitWindow(existing, bars, lookback), NewRecords(existing, bars, lookback, compute);
    NewRecordDates(existing, bars, lookback, compute);
    WindowHasLast(bars, w, lookback);
    LastIsLatest(bars);
    var last := bars[|bars| - 1];
    var i0 :| 0 <= i0 < |window| && window[i0].date == n[0].date;
    assert window[i0] in window;
  }

  /** The watermark after appending is at least every appended date. */
  lemma {:induction false} WatermarkAfterAppend(existing: seq<Record>, n: seq<Record>, d: Day)
    requires d in RecordDates(n)
    ensures Watermark(existing + n).Some? && Watermark(existing + n).value >= d
  {
    var i :| 0 <= i < |n| && n[i].date == d;
    assert (existing + n)[|existing| + i].date == d;
  }

  /** A watermark at or past the latest bar leaves nothing to insert. */
  lemma {:induction false} NothingAfterLatest(existing: seq<Record>, bars: seq<PriceBar>, lookback: nat, compute: seq<PriceBar> -> seq<Row>)
    requires SortedByDate(bars) && KeepsDates(compute) && |bars| > 0
    requires Watermark(existing).Some? && Watermark(existing).value >= bars[|bars| - 1].date
    ensures NewRecords(existing, bars, lookback, compute) == []
  {
    LastIsLatest(bars);
    NewRecordDates(existing, bars, lookback, compute);
  }

  /** A unit brought up to date has nothing more to insert: running it
      again with the same prices inserts no rows. */
  lemma {:induction false} NewRecordsSettle(existing: seq<Record>, bars: seq<PriceBar>, lookback: nat, compute: seq<PriceBar> -> seq<Row>)
    requires SortedByDate(bars) && KeepsDates(compute)
    ensures NewRecords(existing + NewRecords(existing, bars, lookback, compute), bars, lookback, compute) == []
  {
    var n := NewRecords(existing, bars, lookback, compute);
    if n == [] {
      assert existing + n == existing;
    } else {
      NewRecordsReachLast(existing, bars, lookback, compute);
      WatermarkAfterAppend(existing, n, bars[|bars| - 1].date);
      NothingAfterLatest(existing + n, bars, lookback, compute);
    }
  }

  // ---------------------------------------------------------------------
  // The refresh as a fold
  // ---------------------------------------------------------------------

  /** The records one unit inserts, as a function of its stored rows and
      its price series. */
  type Settler = (seq<Record>, seq<PriceBar>) -> seq<Record>

  /** newRecs gives, for every unit state, the records NewRecords gives
      with this lookback and row computation. The link is only made where
      NewRecords itself is mentioned, so a proof about the fold never has
      to look inside a unit. */
  ghost predicate Agrees(newRecs: Settler, lookback: nat, compute: seq<PriceBar> -> seq<Row>) {
    forall existing, bars {:trigger NewRecords(existing, bars, lookback, compute)} ::
      newRecs(existing, bars) == NewRecords(existing, bars, lookback, compute)
  }

  /** The refresh's own settler: NewRecords with the lookback and the row
      computation fixed. */
  function UnitRecords(lookback: nat, compute: seq<PriceBar> -> seq<Row>): (f: Settler)
    ensures Agrees(f, lookback, compute)
  {
    (existing, bars) => NewRecords(existing, bars, lookback, compute)
  }

  /** A settler that, applied again to a sorted series after its records
      were appended, inserts nothing. */
  ghost predicate SettlesAtOnce(newRecs: Settler) {
    forall existing, bars :: SortedByDate(bars) ==> newRecs(existing + newRecs(existing, bars), bars) == []
  }

  /** Every settler that agrees with NewRecords settles at once. */
  lemma AgreesSettles(newRecs: Settler, lookback: nat, compute: seq<PriceBar> -> seq<Row>)
    requires KeepsDates(compute) && Agrees(newRecs, lookback, compute)
    ensures SettlesAtOnce(newRecs)
  {
    forall existing, bars | SortedByDate(bars) ensures newRecs(existing + newRecs(existing, bars), bars) == [] {
      var n := NewRecords(existing, bars, lookback, compute);
      NewRecordsSettle(existing, bars, lookback, compute);
      assert NewRecords(existing + n, bars, lookback, compute) == [];
    }
  }

  /** A unit's rows followed by the records it inserts. */
  function Settle(existing: seq<Record>, bars: seq<PriceBar>, newRecs: Settler): seq<Record> {
    existing + newRecs(existing, bars)
  }

  /** Settling is idempotent: a unit brought up to date stays as it is. */
  lemma {:induction false} SettleTwice(existing: seq<Record>, bars: seq<PriceBar>, newRecs: Settler)
    requires SortedByDate(bars) && SettlesAtOnce(newRecs)
    ensures Settle(Settle(existing, bars, newRecs), bars, newRecs) == Settle(existing, bars, newRecs)
  {
    var s := Settle(existing, bars, newRecs);
    assert newRecs(s, bars) == [];
    assert s + [] == s;
  }

  /** What one unit holds once it has been processed: a failing unit keeps
      its rows, the others get their new records appended. */
  function Advance(ind: IndicatorStore, prices: PriceStore, u: Unit, failing: set<Unit>, newRecs: Settler): seq<Record>
  {
    if u in failing then Stored(ind, u) else Settle(Stored(ind, u), PriceSeries(prices, u), newRecs)
  }

  /** One turn of the inner loop: the new store and the rows inserted. A
      failure leaves the store as it was: nothing of the unit is committed. */
  function Step(ind: IndicatorStore, prices: PriceStore, u: Unit, failing: set<Unit>, newRecs: Settler): (r: (IndicatorStore, nat))
    ensures r.1 == 0 ==> r.0 == ind
  {
    if u in failing then (ind, 0)
    else
      var add := newRecs(Stored(ind, u), PriceSeries(prices, u));
      if |add| == 0 then (ind, 0)
      else (ind[u := Stored(ind, u) + add], |add|)
  }

  /** A step changes its own unit as Advance says, counts the rows it
      appended, and leaves every other unit alone. */
  lemma {:induction false} StepEffect(ind: IndicatorStore, prices: PriceStore, u: Unit, failing: set<Unit>, newRecs: Settler)
    ensures var r := Step(ind, prices, u, failing, newRecs);
      Stored(r.0, u) == Advance(ind, prices, u, failing, newRecs)
      && r.1 == |Stored(r.0, u)| - |Stored(ind, u)|
      && forall v :: v != u ==> Stored(r.0, v) == Stored(ind, v)
  {
    if u !in failing {
      var add := newRecs(Stored(ind, u), PriceSeries(prices, u));
      if |add| == 0 {
        assert Stored(ind, u) + add == Stored(ind, u);
      }
    }
  }

  /** The loop over the symbol ids of one asset and timeframe: the store,
      processed_assets and inserted_rows. */
  function RunIds(ind: IndicatorStore, prices: PriceStore, a: Asset, tf: string, ids: seq<int>,
                  failing: set<Unit>, newRecs: Settler): (r: (IndicatorStore, nat, nat))
    decreases |ids|
  {
    if |ids| == 0 then (ind, 0, 0)
    else
      var prev := RunIds(ind, prices, a, tf, ids[..|ids| - 1], failing, newRecs);
      var step := Step(prev.0, prices, Unit(a, ids[|ids| - 1], tf), failing, newRecs);
      (step.0, prev.1 + (if step.1 > 0 then 1 else 0), prev.2 + step.1)
  }

  /** The loop over the timeframes of one asset, with one summary each. */
  function RunTimeframes(ind: IndicatorStore, prices: PriceStore, a: Asset, ids: seq<int>, tfs: seq<string>,
                         failing: set<Unit>, newRecs: Settler): (r: (IndicatorStore, seq<Summary>))
    ensures |r.1| == |tfs|
    decreases |tfs|
  {
    if |tfs| == 0 then (ind, [])
    else
      var prev := RunTimeframes(ind, prices, a, ids, tfs[..|tfs| - 1], failing, newRecs);
      var tf := tfs[|tfs| - 1];
      var run := RunIds(prev.0, prices, a, tf, ids, failing, newRecs);
      (run.0, prev.1 + [Summary(a, tf, run.1, run.2)])
  }

  /** The asset classes a list of keys reaches, and whether every key was
      known: an unknown key raises KeyError, which ends the whole refresh. */
  function Reached(keys: seq<string>): (r: (seq<Asset>, bool))
    decreases |keys|
  {
    if |keys| == 0 then ([], true)
    else
      var prev := Reached(keys[..|keys| - 1]);
      if !prev.1 then prev
      else match Lookup(keys[|keys| - 1])
        case None => (prev.0, false)
        case Some(a) => (prev.0 + [a], true)
  }

  /** The loop over asset keys: the final store, the summaries, and whether
      every key was known. */
  function RunKeys(ind: IndicatorStore, prices: PriceStore, symbols: map<Asset, seq<int>>, keys: seq<string>,
                   failing: set<Unit>, newRecs: Settler): (r: (IndicatorStore, seq<Summary>, bool))
    ensures r.2 == Reached(keys).1
    decreases |keys|
  {
    if |keys| == 0 then (ind, [], true)
    else
      var prev := RunKeys(ind, prices, symbols, keys[..|keys| - 1], failing, newRecs);
      if !prev.2 then prev
      else match Lookup(keys[|keys| - 1])
        case None => (prev.0, prev.1, false)
        case Some(a) =>
          var run := RunTimeframes(prev.0, prices, a, Ids(symbols, a), Frequencies, failing, newRecs);
          (run.0, prev.1 + run.1, true)
  }

  /** Once a key is unknown, the keys after it are never looked at. */
  lemma {:induction false} RunKeysAborted(ind: IndicatorStore, prices: PriceStore, symbols: map<Asset, seq<int>>, keys: seq<string>,
                                          n: nat, failing: set<Unit>, newRecs: Settler)
    requires n <= |keys| && !RunKeys(ind, prices, symbols, keys[..n], failing, newRecs).2
    ensures RunKeys(ind, prices, symbols, keys, failing, newRecs)
      == RunKeys(ind, prices, symbols, keys[..n], failing, newRecs)
    decreases |keys|
  {
    if |keys| == n {
      assert keys[..n] == keys;
    } else {
      var init := keys[..|keys| - 1];
      assert init[..n] == keys[..n];
      RunKeysAborted(ind, prices, symbols, init, n, failing, newRecs);
    }
  }

  /** `asset_types or ASSET_TABLE_MAP.keys()`. */
  function AssetKeys(assetTypes: Option<seq<string>>): (keys: seq<string>)
    ensures assetTypes.Some? && |assetTypes.value| > 0 ==> keys == assetTypes.value
    ensures (assetTypes.None? || |assetTypes.value| == 0) ==>
      |keys| == |Assets| && forall i :: 0 <= i < |Assets| ==> keys[i] == Key(Assets[i])
  {
    if assetTypes.Some? && |assetTypes.value| > 0 then assetTypes.value
    else seq(|Assets|, i requires 0 <= i < |Assets| => Key(Assets[i]))
  }

  /** One more id: the fold over ids[..k+1] is one step after the fold
      over ids[..k]. */
  lemma RunIdsSnoc(ind: IndicatorStore, prices: PriceStore, a: Asset, tf: string, ids: seq<int>, k: nat,
                   failing: set<Unit>, newRecs: Settler,
                   cur: IndicatorStore, processed: nat, inserted: nat, next: IndicatorStore, n: nat)
    requires k < |ids|
    requires (cur, processed, inserted) == RunIds(ind, prices, a, tf, ids[..k], failing, newRecs)
    requires (next, n) == Step(cur, prices, Unit(a, ids[k], tf), failing, newRecs)
    ensures (next, processed + (if n > 0 then 1 else 0), inserted + n)
      == RunIds(ind, prices, a, tf, ids[..k + 1], failing, newRecs)
  {
    assert ids[..k + 1][..k] == ids[..k];
  }

  // ---------------------------------------------------------------------
  // Properties of the fold
  // ---------------------------------------------------------------------

  /** Processing a unit a second time in the same run changes nothing. */
  lemma {:induction false} AdvanceAgain(ind: IndicatorStore, prev: IndicatorStore, prices: PriceStore, u: Unit, failing: set<Unit>, newRecs: Settler)
    requires PricesSorted(prices) && SettlesAtOnce(newRecs)
    requires Stored(prev, u) == Advance(ind, prices, u, failing, newRecs)
    ensures Advance(prev, prices, u, failing, newRecs) == Advance(ind, prices, u, failing, newRecs)
  {
    if u !in failing {
      SettleTwice(Stored(ind, u), PriceSeries(prices, u), newRecs);
    }
  }

  /** After the loop over ids, each unit of the loop holds what Advance
      gives it, once, however often its id is listed; every other unit is
      untouched. */
  lemma {:induction false} RunIdsAt(ind: IndicatorStore, prices: PriceStore, a: Asset, tf: string, ids: seq<int>,
                                    failing: set<Unit>, newRecs: Settler, u: Unit)
    requires PricesSorted(prices) && SettlesAtOnce(newRecs)
    ensures Stored(RunIds(ind, prices, a, tf, ids, failing, newRecs).0, u)
      == if u.asset == a && u.timeframe == tf && u.id in ids then Advance(ind, prices, u, failing, newRecs)
         else Stored(ind, u)
    decreases |ids|
  {
    if |ids| > 0 {
      var init := ids[..|ids| - 1];
      var last := ids[|ids| - 1];
      RunIdsAt(ind, prices, a, tf, init, failing, newRecs, u);
      var prev := RunIds(ind, prices, a, tf, init, failing, newRecs).0;
      StepEffect(prev, prices, Unit(a, last, tf), failing, newRecs);
      assert ids == init + [last];
      if u == Unit(a, last, tf) && u.id in init {
        AdvanceAgain(ind, prev, prices, u, failing, newRecs);
      }
    }
  }

  /** One more timeframe: combine the state after the earlier timeframes
      with the effect of the loop over ids of the new one. */
  lemma TimeframeStep(ind: IndicatorStore, prev: IndicatorStore, next: IndicatorStore, prices: PriceStore, a: Asset,
                      ids: seq<int>, init: seq<string>, tf: string, failing: set<Unit>, newRecs: Settler, u: Unit)
    requires PricesSorted(prices) && SettlesAtOnce(newRecs)
    requires Stored(prev, u)
      == if u.asset == a && u.timeframe in init && u.id in ids then Advance(ind, prices, u, failing, newRecs)
         else Stored(ind, u)
    requires Stored(next, u)
      == if u.asset == a && u.timeframe == tf && u.id in ids then Advance(prev, prices, u, failing, newRecs)
         else Stored(prev, u)
    ensures Stored(next, u)
      == if u.asset == a && (u.timeframe in init || u.timeframe == tf) && u.id in ids then Advance(ind, prices, u, failing, newRecs)
         else Stored(ind, u)
  {
    if u.asset == a && u.timeframe == tf && u.id in ids && u.timeframe in init {
      AdvanceAgain(ind, prev, prices, u, failing, newRecs);
    }
  }

  lemma {:induction false} RunTimeframesAt(ind: IndicatorStore, prices: PriceStore, a: Asset, ids: seq<int>, tfs: seq<string>,
                                           failing: set<Unit>, newRecs: Settler, u: Unit)
    requires PricesSorted(prices) && SettlesAtOnce(newRecs)
    ensures Stored(RunTimeframes(ind, prices, a, ids, tfs, failing, newRecs).0, u)
      == if u.asset == a && u.timeframe in tfs && u.id in ids then Advance(ind, prices, u, failing, newRecs)
         else Stored(ind, u)
    decreases |tfs|
  {
    if |tfs| > 0 {
      var init := tfs[..|tfs| - 1];
      var tf := tfs[|tfs| - 1];
      RunTimeframesAt(ind, prices, a, ids, init, failing, newRecs, u);
      var prev := RunTimeframes(ind, prices, a, ids, init, failing, newRecs).0;
      var next := RunIds(prev, prices, a, tf, ids, failing, newRecs).0;
      RunIdsAt(prev, prices, a, tf, ids, failing, newRecs, u);
      TimeframeStep(ind, prev, next, prices, a, ids, init, tf, failing, newRecs, u);
      assert tfs == init + [tf];
      assert (u.timeframe in tfs) == (u.timeframe in init || u.timeframe == tf);
    }
  }

  /** One more reached asset class: combine the state after the earlier
      keys with the effect of the loop over the new class's timeframes. */
  lemma KeyStep(ind: IndicatorStore, prev: IndicatorStore, next: IndicatorStore, prices: PriceStore,
                symbols: map<Asset, seq<int>>, reached: seq<Asset>, a: Asset, failing: set<Unit>, newRecs: Settler, u: Unit)
    requires PricesSorted(prices) && SettlesAtOnce(newRecs)
    requires Stored(prev, u)
      == if u.asset in reached && u.timeframe in Frequencies && u.id in Ids(symbols, u.asset)
         then Advance(ind, prices, u, failing, newRecs)
         else Stored(ind, u)
    requires Stored(next, u)
      == if u.asset == a && u.timeframe in Frequencies && u.id in Ids(symbols, a) then Advance(prev, prices, u, failing, newRecs)
         else Stored(prev, u)
    ensures Stored(next, u)
      == if (u.asset in reached || u.asset == a) && u.timeframe in Frequencies && u.id in Ids(symbols, u.asset)
         then Advance(ind, prices, u, failing, newRecs)
         else Stored(ind, u)
  {
    if u.asset == a && u.timeframe in Frequencies && u.id in Ids(symbols, a) && u.asset in reached {
      AdvanceAgain(ind, prev, prices, u, failing, newRecs);
    }
  }

  /** The effect of a whole refresh on one unit. A unit of a reached asset
      class, of one of the three timeframes and of an id in its symbol
      table ends up with its old rows followed by exactly its new records,
      or only its old rows if it failed; every other unit is untouched. */
  lemma {:induction false} RefreshAt(ind: IndicatorStore, prices: PriceStore, symbols: map<Asset, seq<int>>, keys: seq<string>,
                                     failing: set<Unit>, newRecs: Settler, u: Unit)
    requires PricesSorted(prices) && SettlesAtOnce(newRecs)
    ensures Stored(RunKeys(ind, prices, symbols, keys, failing, newRecs).0, u)
      == if u.asset in Reached(keys).0 && u.timeframe in Frequencies && u.id in Ids(symbols, u.asset)
         then (if u in failing then Stored(ind, u)
               else Stored(ind, u) + newRecs(Stored(ind, u), PriceSeries(prices, u)))
         else Stored(ind, u)
    decreases |keys|
  {
    if |keys| > 0 {
      var init := keys[..|keys| - 1];
      RefreshAt(ind, prices, symbols, init, failing, newRecs, u);
      var prev := RunKeys(ind, prices, symbols, init, failing, newRecs);
      if prev.2 {
        match Lookup(keys[|keys| - 1])
        case None =>
        case Some(a) =>
          RunTimeframesAt(prev.0, prices, a, Ids(symbols, a), Frequencies, failing, newRecs, u);
          var next := RunTimeframes(prev.0, prices, a, Ids(symbols, a), Frequencies, failing, newRecs).0;
          KeyStep(ind, prev.0, next, prices, symbols, Reached(init).0, a, failing, newRecs, u);
      }
    }
  }

  /** Refreshing twice with unchanged prices leaves every unit as one
      refresh left it. */
  lemma {:induction false} RefreshIdempotent(ind: IndicatorStore, prices: PriceStore, symbols: map<Asset, seq<int>>, keys: seq<string>,
                                             failing: set<Unit>, newRecs: Settler, u: Unit)
    requires PricesSorted(prices) && SettlesAtOnce(newRecs)
    ensures var once := RunKeys(ind, prices, symbols, keys, failing, newRecs).0;
      Stored(RunKeys(once, prices, symbols, keys, failing, newRecs).0, u) == Stored(once, u)
  {
    var once := RunKeys(ind, prices, symbols, keys, failing, newRecs).0;
    RefreshAt(ind, prices, symbols, keys, failing, newRecs, u);
    RefreshAt(once, prices, symbols, keys, failing, newRecs, u);
    if u.asset in Reached(keys).0 && u.timeframe in Frequencies && u.id in Ids(symbols, u.asset) && u !in failing {
      SettleTwice(Stored(ind, u), PriceSeries(prices, u), newRecs);
    }
  }

  /** The refresh itself, per unit: with newRecs standing for NewRecords
      over calculate_indicators, a reached unit ends with its old rows and
      exactly the rows NewRecords computes for it. */
  lemma {:induction false} RefreshIndicatorsAt(ind: IndicatorStore, prices: PriceStore, symbols: map<Asset, seq<int>>,
                                               keys: seq<string>, lookback: nat, failing: set<Unit>, sqrt: real -> real,
                                               newRecs: Settler, u: Unit)
    requires PricesSorted(prices) && Agrees(newRecs, lookback, RowsOf(sqrt))
    ensures Stored(RunKeys(ind, prices, symbols, keys, failing, newRecs).0, u)
      == if u.asset in Reached(keys).0 && u.timeframe in Frequencies && u.id in Ids(symbols, u.asset) && u !in failing
         then Stored(ind, u) + NewRecords(Stored(ind, u), PriceSeries(prices, u), lookback, RowsOf(sqrt))
         else Stored(ind, u)
  {
    RowsOfKeepsDates(sqrt);
    AgreesSettles(newRecs, lookback, RowsOf(sqrt));
    RefreshAt(ind, prices, symbols, keys, failing, newRecs, u);
    assert newRecs(Stored(ind, u), PriceSeries(prices, u))
      == NewRecords(Stored(ind, u), PriceSeries(prices, u), lookback, RowsOf(sqrt));
  }

  /** processed_assets counts the ids that inserted rows: never more than
      the ids, never more than the rows, and zero exactly when no row was
      inserted, in which case the store is unchanged. */
  lemma {:induction false} RunIdsCounters(ind: IndicatorStore, prices: PriceStore, a: Asset, tf: string, ids: seq<int>,
                                          failing: set<Unit>, newRecs: Settler)
    ensures var r := RunIds(ind, prices, a, tf, ids, failing, newRecs);
      r.1 <= |ids| && r.1 <= r.2 && (r.1 == 0 <==> r.2 == 0) && (r.2 == 0 ==> r.0 == ind)
    decreases |ids|
  {
    if |ids| > 0 {
      RunIdsCounters(ind, prices, a, tf, ids[..|ids| - 1], failing, newRecs);
    }
  }

  // ---------------------------------------------------------------------
  // The controller
  // ---------------------------------------------------------------------

  /** The tables refresh_indicators reads and writes. */
  class Database {
    /** Price rows per unit, in date order. */
    var prices: PriceStore
    /** Indicator rows per unit. */
    var indicators: IndicatorStore
    /** The symbol ids of each asset class's symbol table. */
    var symbolIds: map<Asset, seq<int>>

    ghost predicate Valid()
      reads this
    {
      PricesSorted(prices)
    }

    constructor (prices: PriceStore, indicators: IndicatorStore, symbolIds: map<Asset, seq<int>>)
      requires PricesSorted(prices)
      ensures Valid()
      ensures this.prices == prices && this.indicators == indicators && this.symbolIds == symbolIds
    {
      this.prices := prices;
      this.indicators := indicators;
      this.symbolIds := symbolIds;
    }

    /** The body of the per-id `try`: read the watermark and the window,
        compute the rows (`compute` is calculate_indicators with
        latest_only=False, see RowsOf), keep the new rows, insert them. A
        failing unit is logged and leaves the tables as they were. Returns
        the rows inserted. `newRecs` names the per-unit result for the
        contracts of the loops. */
    method RefreshUnit(u: Unit, lookback: nat, failing: set<Unit>, compute: seq<PriceBar> -> seq<Row>, ghost newRecs: Settler)
      returns (inserted: nat)
      requires Agrees(newRecs, lookback, compute)
      modifies this`indicators
      ensures (indicators, inserted) == Step(old(indicators), prices, u, failing, newRecs)
    {
      assert newRecs(Stored(indicators, u), PriceSeries(prices, u))
        == NewRecords(Stored(indicators, u), PriceSeries(prices, u), lookback, compute);
      if u in failing {
        return 0;
      }
      var last := Watermark(Stored(indicators, u));
      var window := FetchWindow(PriceSeries(prices, u), last, lookback);
      if |window| == 0 {
        return 0;
      }
      var rows := compute(window);
      var newRows := AfterWatermark(rows, last);
      if |newRows| == 0 {
        return 0;
      }
      var records := ToRecords(newRows);
      indicators := indicators[u := Stored(indicators, u) + records];
      inserted := |records|;
    }

    /** The loop over the symbol ids of one asset and timeframe, with its
        two counters. */
    method RefreshTimeframe(a: Asset, tf: string, ids: seq<int>, lookback: nat, failing: set<Unit>,
                            compute: seq<PriceBar> -> seq<Row>, ghost newRecs: Settler)
      returns (processed: nat, inserted: nat)
      requires Agrees(newRecs, lookback, compute)
      modifies this`indicators
      ensures (indicators, processed, inserted) == RunIds(old(indicators), prices, a, tf, ids, failing, newRecs)
    {
      ghost var px, start := prices, indicators;
      processed, inserted := 0, 0;
      var k := 0;
      while k < |ids|
        invariant 0 <= k <= |ids| && prices == px
        invariant (indicators, processed, inserted) == RunIds(start, px, a, tf, ids[..k], failing, newRecs)
      {
        ghost var cur := indicators;
        var n := RefreshUnit(Unit(a, ids[k], tf), lookback, failing, compute, newRecs);
        RunIdsSnoc(start, px, a, tf, ids, k, failing, newRecs, cur, processed, inserted, indicators, n);
        processed := processed + (if n > 0 then 1 else 0);
        inserted := inserted + n;
        k := k + 1;
      }
      assert ids[..|ids|] == ids;
    }

    /** The loop over the timeframes of one asset class. */
    method RefreshAsset(a: Asset, lookback: nat, failing: set<Unit>, compute: seq<PriceBar> -> seq<Row>, ghost newRecs: Settler)
      returns (summaries: seq<Summary>)
      requires Agrees(newRecs, lookback, compute)
      modifies this`indicators
      ensures (indicators, summaries) == RunTimeframes(old(indicators), prices, a, Ids(symbolIds, a), Frequencies, failing, newRecs)
    {
      ghost var px, start := prices, indicators;
      var ids := Ids(symbolIds, a);
      summaries := [];
      var j := 0;
      while j < |Frequencies|
        invariant 0 <= j <= |Frequencies| && prices == px
        invariant (indicators, summaries) == RunTimeframes(start, px, a, ids, Frequencies[..j], failing, newRecs)
      {
        assert Frequencies[..j + 1][..j] == Frequencies[..j];
        var tf := Frequencies[j];
        var processed, inserted := RefreshTimeframe(a, tf, ids, lookback, failing, compute, newRecs);
        summaries := summaries + [Summary(a, tf, processed, inserted)];
        j := j + 1;
      }
      assert Frequencies[..|Frequencies|] == Frequencies;
    }

    /** The loop over the asset keys of refresh_indicators: an unknown key
        stops the run with the error flag, after the keys before it. */
    method RefreshKeys(keys: seq<string>, lookback: nat, failing: set<Unit>, compute: seq<PriceBar> -> seq<Row>,
                       ghost newRecs: Settler)
      returns (summaries: seq<Summary>, completed: bool)
      requires Agrees(newRecs, lookback, compute)
      modifies this`indicators
      ensures (indicators, summaries, completed) == RunKeys(old(indicators), prices, symbolIds, keys, failing, newRecs)
    {
      ghost var px, start := prices, indicators;
      summaries := [];
      completed := true;
      var i := 0;
      while i < |keys|
        invariant 0 <= i <= |keys| && prices == px
        invariant (indicators, summaries, true) == RunKeys(start, px, symbolIds, keys[..i], failing, newRecs)
      {
        assert keys[..i + 1][..i] == keys[..i];
        var asset := Lookup(keys[i]);
        if asset.None? {
          completed := false;
          RunKeysAborted(start, px, symbolIds, keys, i + 1, failing, newRecs);
          return;
        }
        var more := RefreshAsset(asset.value, lookback, failing, compute, newRecs);
        summaries := summaries + more;
        i := i + 1;
      }
      assert keys[..|keys|] == keys;
    }

    /** refresh_indicators(asset_types, lookback_rows). The units in
        `failing` are those whose database work raises. Only the indicator
        tables change. Returns the per-timeframe counters and whether every
        key was known; RefreshIndicatorsAt states the effect per unit. */
    method RefreshIndicators(assetTypes: Option<seq<string>>, lookback: nat, failing: set<Unit>, sqrt: real -> real,
                             ghost newRecs: Settler)
      returns (summaries: seq<Summary>, completed: bool)
      requires Agrees(newRecs, lookback, RowsOf(sqrt))
      modifies this`indicators
      ensures (indicators, summaries, completed)
        == RunKeys(old(indicators), prices, symbolIds, AssetKeys(assetTypes), failing, newRecs)
    {
      summaries, completed := RefreshKeys(AssetKeys(assetTypes), lookback, failing, RowsOf(sqrt), newRecs);
    }
  }
}
