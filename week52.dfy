/** The 52-week high/low statistics: per symbol, the highest high and the
    lowest low of its daily bars of the last year, upserted into the
    asset's stats table. */
module Week52 {
  import opened Wrappers
  import opened Calendar
  import Registry

  /** The columns of a price row the refresh reads; high and low may be
      NULL. */
  datatype PriceBar = PriceBar(symbolId: int, timeframe: string, date: Day, high: Option<real>, low: Option<real>)

  /** A stats row: week52_high, week52_low and as_of_date. */
  datatype StatRow = StatRow(high: real, low: Option<real>, asOf: Day)

  /** One aggregated row: symbol_id, MAX(high), MIN(low). */
  datatype Extremes = Extremes(symbolId: int, high: real, low: Option<real>)

  /** CURRENT_DATE - INTERVAL '1 year'. */
  function Cutoff(today: Civil): Day
    requires ValidCivil(today) && today.year >= 2
  {
    DaysFromCivil(OneYearBefore(today))
  }

  /** The daily bars of one symbol dated on or after the cutoff. */
  function Window(bars: seq<PriceBar>, sid: int, cutoff: Day): (r: seq<PriceBar>)
    ensures forall b :: b in r <==> b in bars && b.symbolId == sid && b.timeframe == "1d" && b.date >= cutoff
  {
    if bars == [] then []
    else
      assert forall b :: b in bars <==> b == bars[0] || b in bars[1..];
      (if bars[0].symbolId == sid && bars[0].timeframe == "1d" && bars[0].date >= cutoff then [bars[0]] else [])
        + Window(bars[1..], sid, cutoff)
  }

  /** SQL's MAX over a column: the largest non-NULL value, NULL when there
      is none. */
  function MaxHigh(bars: seq<PriceBar>): (r: Option<real>)
    ensures r.None? <==> forall b :: b in bars ==> b.high.None?
    ensures r.Some? ==> (exists b :: b in bars && b.high == r) && forall b :: b in bars && b.high.Some? ==> b.high.value <= r.value
  {
    if bars == [] then None
    else
      var rest := MaxHigh(bars[1..]);
      assert forall b :: b in bars <==> b == bars[0] || b in bars[1..];
      match bars[0].high
      case None => rest
      case Some(h) => if rest.Some? && rest.value > h then rest else Some(h)
  }

  /** SQL's MIN over a column. */
  function MinLow(bars: seq<PriceBar>): (r: Option<real>)
    ensures r.None? <==> forall b :: b in bars ==> b.low.None?
    ensures r.Some? ==> (exists b :: b in bars && b.low == r) && forall b :: b in bars && b.low.Some? ==> r.value <= b.low.value
  {
    if bars == [] then None
    else
      var rest := MinLow(bars[1..]);
      assert forall b :: b in bars <==> b == bars[0] || b in bars[1..];
      match bars[0].low
      case None => rest
      case Some(l) => if rest.Some? && rest.value < l then rest else Some(l)
  }

  /** SELECT DISTINCT symbol_id ... WHERE timeframe = '1d', in order of
      first appearance. */
  function DailyIds(bars: seq<PriceBar>): (r: seq<int>)
    ensures forall i, j :: 0 <= i < j < |r| ==> r[i] != r[j]
    ensures forall sid :: sid in r <==> exists b :: b in bars && b.timeframe == "1d" && b.symbolId == sid
    decreases |bars|
  {
    if bars == [] then []
    else
      var init := bars[..|bars| - 1];
      var last := bars[|bars| - 1];
      var ids := DailyIds(init);
      assert forall b :: b in bars <==> b in init || b == last by {
        assert bars == init + [last];
      }
      if last.timeframe == "1d" && last.symbolId !in ids then ids + [last.symbolId] else ids
  }

  /** The aggregation of the listed ids, dropping those whose MAX(high) is
      NULL (no bar in the window, or only NULL highs). */
  function ExtremesOf(ids: seq<int>, bars: seq<PriceBar>, cutoff: Day): seq<Extremes>
    decreases |ids|
  {
    if ids == [] then []
    else
      var rest := ExtremesOf(ids[..|ids| - 1], bars, cutoff);
      var sid := ids[|ids| - 1];
      var w := Window(bars, sid, cutoff);
      match MaxHigh(w)
      case None => rest
      case Some(h) => rest + [Extremes(sid, h, MinLow(w))]
  }

  function Aggregate(bars: seq<PriceBar>, cutoff: Day): seq<Extremes> {
    ExtremesOf(DailyIds(bars), bars, cutoff)
  }

  /** Every aggregated row belongs to a listed symbol and holds the highest
      high and the lowest low of that symbol's window. */
  lemma {:induction false} ExtremesOfFrom(ids: seq<int>, bars: seq<PriceBar>, cutoff: Day)
    ensures forall e :: e in ExtremesOf(ids, bars, cutoff) ==>
      e.symbolId in ids && Some(e.high) == MaxHigh(Window(bars, e.symbolId, cutoff))
      && e.low == MinLow(Window(bars, e.symbolId, cutoff))
    decreases |ids|
  {
    if ids != [] {
      var init := ids[..|ids| - 1];
      ExtremesOfFrom(init, bars, cutoff);
      assert forall sid :: sid in init ==> sid in ids;
    }
  }

  /** The aggregation of a prefix of the ids is kept by the longer list. */
  lemma ExtremesOfGrows(ids: seq<int>, bars: seq<PriceBar>, cutoff: Day)
    requires ids != []
    ensures forall e :: e in ExtremesOf(ids[..|ids| - 1], bars, cutoff) ==> e in ExtremesOf(ids, bars, cutoff)
  {
  }

  /** Every listed symbol whose window has a high is aggregated. */
  lemma {:induction false} ExtremesOfHas(ids: seq<int>, bars: seq<PriceBar>, cutoff: Day, sid: int)
    requires sid in ids && MaxHigh(Window(bars, sid, cutoff)).Some?
    ensures exists e :: e in ExtremesOf(ids, bars, cutoff) && e.symbolId == sid
    decreases |ids|
  {
    var init := ids[..|ids| - 1];
    if sid == ids[|ids| - 1] {
      var w := Window(bars, sid, cutoff);
      var e := Extremes(sid, MaxHigh(w).value, MinLow(w));
      assert ExtremesOf(ids, bars, cutoff) == ExtremesOf(init, bars, cutoff) + [e];
      assert e in ExtremesOf(ids, bars, cutoff);
    } else {
      assert ids == init + [ids[|ids| - 1]];
      assert sid in init;
      ExtremesOfHas(init, bars, cutoff, sid);
      var e :| e in ExtremesOf(init, bars, cutoff) && e.symbolId == sid;
      ExtremesOfGrows(ids, bars, cutoff);
      assert e in ExtremesOf(ids, bars, cutoff);
    }
  }

  /** Every aggregated row belongs to a listed symbol. */
  lemma {:induction false} ExtremesOfIds(ids: seq<int>, bars: seq<PriceBar>, cutoff: Day)
    ensures forall e :: e in ExtremesOf(ids, bars, cutoff) ==> e.symbolId in ids
    decreases |ids|
  {
    if ids != [] {
      ExtremesOfIds(ids[..|ids| - 1], bars, cutoff);
      assert forall sid :: sid in ids[..|ids| - 1] ==> sid in ids;
    }
  }

  predicate DistinctSymbols(r: seq<Extremes>) {
    forall i, j :: 0 <= i < j < |r| ==> r[i].symbolId != r[j].symbolId
  }

  lemma DistinctSnoc(r: seq<Extremes>, e: Extremes)
    requires DistinctSymbols(r)
    requires forall x :: x in r ==> x.symbolId != e.symbolId
    ensures DistinctSymbols(r + [e])
  {
    var s := r + [e];
    forall i, j | 0 <= i < j < |s| ensures s[i].symbolId != s[j].symbolId {
      assert s[i] == r[i];
      if j < |r| {
        assert s[j] == r[j];
      } else {
        assert r[i] in r;
      }
    }
  }

  /** The aggregated rows have distinct symbols when the ids are distinct. */
  lemma {:induction false} ExtremesOfDistinct(ids: seq<int>, bars: seq<PriceBar>, cutoff: Day)
    requires forall i, j :: 0 <= i < j < |ids| ==> ids[i] != ids[j]
    ensures DistinctSymbols(ExtremesOf(ids, bars, cutoff))
    decreases |ids|
  {
    if ids != [] {
      var init := ids[..|ids| - 1];
      var last := ids[|ids| - 1];
      ExtremesOfDistinct(init, bars, cutoff);
      ExtremesOfIds(init, bars, cutoff);
      var rest := ExtremesOf(init, bars, cutoff);
      assert last !in init by {
        forall k | 0 <= k < |init| ensures init[k] != last {
          assert init[k] == ids[k];
        }
      }
      var w := Window(bars, last, cutoff);
      if MaxHigh(w).Some? {
        DistinctSnoc(rest, Extremes(last, MaxHigh(w).value, MinLow(w)));
      }
    }
  }

  /** The high is never below the low when every bar's high is at least
      its low. */
  lemma HighAtLeastLow(bars: seq<PriceBar>, cutoff: Day, e: Extremes)
    requires forall b :: b in bars && b.high.Some? && b.low.Some? ==> b.high.value >= b.low.value
    requires forall b :: b in bars ==> (b.high.Some? <==> b.low.Some?)
    requires e in Aggregate(bars, cutoff)
    ensures e.low.Some? && e.high >= e.low.value
  {
    ExtremesOfFrom(DailyIds(bars), bars, cutoff);
    var w := Window(bars, e.symbolId, cutoff);
    var b :| b in w && b.high == Some(e.high);
    assert b.low.Some?;
    var c :| c in w && c.low == e.low;
    assert e.low.value <= b.low.value;
  }

  /** The stats tables by name: symbol_id to stats row. */
  type Db = map<string, map<int, StatRow>>

  /** INSERT ... ON CONFLICT (symbol_id) DO UPDATE for each aggregated
      row, in order. */
  function UpsertAll(rows: map<int, StatRow>, results: seq<Extremes>, day: Day): map<int, StatRow>
    decreases |results|
  {
    if results == [] then rows
    else
      var e := results[|results| - 1];
      UpsertAll(rows, results[..|results| - 1], day)[e.symbolId := StatRow(e.high, e.low, day)]
  }

  /** After the upserts, a processed symbol's row holds its aggregate and
      the day, and every other symbol's row is as it was. */
  lemma {:induction false} UpsertAllFacts(rows: map<int, StatRow>, results: seq<Extremes>, day: Day)
    requires forall i, j :: 0 <= i < j < |results| ==> results[i].symbolId != results[j].symbolId
    ensures var r := UpsertAll(rows, results, day);
      (forall e :: e in results ==> e.symbolId in r && r[e.symbolId] == StatRow(e.high, e.low, day))
      && (forall sid :: (forall e :: e in results ==> e.symbolId != sid) ==>
            (sid in r <==> sid in rows) && (sid in rows ==> r[sid] == rows[sid]))
    decreases |results|
  {
    if results != [] {
      var init := results[..|results| - 1];
      var e := results[|results| - 1];
      UpsertAllFacts(rows, init, day);
      assert forall x :: x in results <==> x in init || x == e by {
        assert results == init + [e];
      }
      forall x | x in init ensures x.symbolId != e.symbolId {
        var i :| 0 <= i < |init| && init[i] == x;
        assert results[i] == x;
      }
    }
  }

  /** refresh_week52_high_low_stats: an unknown key writes nothing; a
      missing table is a database error, rolled back; no aggregated row is
      no write; otherwise the asset's stats table gets the upserts. */
  function RefreshStats(assetKey: string, prices: map<string, seq<PriceBar>>, db: Db, today: Civil): (r: Db)
    requires ValidCivil(today) && today.year >= 2
    ensures Registry.Lookup(assetKey).None? ==> r == db
    ensures r.Keys == db.Keys
    ensures Registry.Lookup(assetKey).Some? ==>
      forall t :: t in db && t != Registry.AssetTables(Registry.Lookup(assetKey).value).stats ==> r[t] == db[t]
  {
    match Registry.Lookup(assetKey)
    case None => db
    case Some(a) =>
      var tables := Registry.AssetTables(a);
      if tables.price !in prices || tables.stats !in db then db
      else
        var results := Aggregate(prices[tables.price], Cutoff(today));
        if results == [] then db
        else db[tables.stats := UpsertAll(db[tables.stats], results, DaysFromCivil(today))]
  }

  /** What the upserts of an aggregation leave in a stats table: each
      symbol with a daily bar and a high in the window holds its highest
      high, lowest low and the day; every other symbol is as it was. */
  lemma AggregateRows(bars: seq<PriceBar>, cutoff: Day, rows: map<int, StatRow>, day: Day, sid: int)
    ensures var w := Window(bars, sid, cutoff);
      var after := UpsertAll(rows, Aggregate(bars, cutoff), day);
      (MaxHigh(w).Some? ==> sid in after && after[sid] == StatRow(MaxHigh(w).value, MinLow(w), day))
      && (MaxHigh(w).None? ==> (sid in after <==> sid in rows) && (sid in rows ==> after[sid] == rows[sid]))
  {
    var ids := DailyIds(bars);
    var results := Aggregate(bars, cutoff);
    var w := Window(bars, sid, cutoff);
    ExtremesOfFrom(ids, bars, cutoff);
    ExtremesOfDistinct(ids, bars, cutoff);
    assert results == ExtremesOf(ids, bars, cutoff);
    UpsertAllFacts(rows, results, day);
    if MaxHigh(w).Some? {
      var b :| b in w && b.high.Some?;
      assert sid in ids;
      ExtremesOfHas(ids, bars, cutoff, sid);
    }
  }

  /** A known asset's refresh leaves in its stats table what the upserts of
      its aggregation do, whatever the table held. */
  lemma RefreshStatsRows(a: Registry.Asset, prices: map<string, seq<PriceBar>>, db: Db, today: Civil)
    requires ValidCivil(today) && today.year >= 2
    requires Registry.AssetTables(a).price in prices && Registry.AssetTables(a).stats in db
    ensures RefreshStats(Registry.Key(a), prices, db, today)[Registry.AssetTables(a).stats]
      == UpsertAll(db[Registry.AssetTables(a).stats], Aggregate(prices[Registry.AssetTables(a).price], Cutoff(today)), DaysFromCivil(today))
  {
    Registry.LookupKey(a);
  }

  /** refresh_all_week52_stats: every key of the registry, in order. */
  function RefreshAllUpTo(n: nat, prices: map<string, seq<PriceBar>>, db: Db, today: Civil): Db
    requires n <= |Registry.Assets|
    requires ValidCivil(today) && today.year >= 2
  {
    if n == 0 then db
    else RefreshStats(Registry.Key(Registry.Assets[n - 1]), prices, RefreshAllUpTo(n - 1, prices, db, today), today)
  }

  // ---------------------------------------------------------------------
  // The stats tables, updated in place
  // ---------------------------------------------------------------------

  class StatsTable {
    var rows: map<int, StatRow>

    constructor ()
      ensures rows == map[]
    {
      rows := map[];
    }

    /** One upsert. */
    method Upsert(e: Extremes, day: Day)
      modifies this
      ensures rows == old(rows)[e.symbolId := StatRow(e.high, e.low, day)]
    {
      rows := rows[e.symbolId := StatRow(e.high, e.low, day)];
    }

    /** The upserts of an aggregation, in order. */
    method UpsertRows(results: seq<Extremes>, day: Day)
      modifies this
      ensures rows == UpsertAll(old(rows), results, day)
    {
      for i := 0 to |results|
        invariant rows == UpsertAll(old(rows), results[..i], day)
      {
        assert results[..i + 1][..i] == results[..i];
        Upsert(results[i], day);
      }
      assert results[..|results|] == results;
    }
  }

  /** The contents of every stats table. */
  function Contents(stores: map<string, StatsTable>): (d: Db)
    reads stores.Values
    ensures d.Keys == stores.Keys
  {
    map t | t in stores :: stores[t].rows
  }

  /** Distinct table names are distinct tables. */
  ghost predicate Separate(stores: map<string, StatsTable>) {
    forall s, t :: s in stores && t in stores && s != t ==> stores[s] != stores[t]
  }

  /** refresh_week52_high_low_stats, upserting row by row. */
  method RefreshWeek52(assetKey: string, prices: map<string, seq<PriceBar>>, stores: map<string, StatsTable>, today: Civil)
    requires ValidCivil(today) && today.year >= 2
    requires Separate(stores)
    modifies stores.Values
    ensures Contents(stores) == RefreshStats(assetKey, prices, old(Contents(stores)), today)
  {
    var asset := Registry.Lookup(assetKey);
    if asset.None? {
      return;
    }
    var tables := Registry.AssetTables(asset.value);
    if tables.price !in prices || tables.stats !in stores {
      return;
    }
    var results := Aggregate(prices[tables.price], Cutoff(today));
    if results == [] {
      return;
    }
    stores[tables.stats].UpsertRows(results, DaysFromCivil(today));
  }

  /** refresh_all_week52_stats. */
  method RefreshAllWeek52(prices: map<string, seq<PriceBar>>, stores: map<string, StatsTable>, today: Civil)
    requires ValidCivil(today) && today.year >= 2
    requires Separate(stores)
    modifies stores.Values
    ensures Contents(stores) == RefreshAllUpTo(|Registry.Assets|, prices, old(Contents(stores)), today)
  {
    ghost var start := Contents(stores);
    for i := 0 to |Registry.Assets|
      invariant Contents(stores) == RefreshAllUpTo(i, prices, start, today)
    {
      RefreshWeek52(Registry.Key(Registry.Assets[i]), prices, stores, today);
    }
  }

  /** The refresh of every key touches only the registry's stats tables. */
  lemma {:induction false} RefreshAllOnlyStats(n: nat, prices: map<string, seq<PriceBar>>, db: Db, today: Civil, t: string)
    requires n <= |Registry.Assets|
    requires ValidCivil(today) && today.year >= 2
    requires t in db && forall a :: Registry.AssetTables(a).stats != t
    ensures RefreshAllUpTo(n, prices, db, today).Keys == db.Keys
    ensures RefreshAllUpTo(n, prices, db, today)[t] == db[t]
  {
    if n > 0 {
      RefreshAllOnlyStats(n - 1, prices, db, today, t);
      Registry.LookupKey(Registry.Assets[n - 1]);
    }
  }
}
