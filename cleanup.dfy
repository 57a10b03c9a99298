/** delete_invalid_timeframe_rows: weekly rows must be dated on a Monday and
    monthly rows on the first of a month; the others are deleted from the
    chosen price or indicator table. */
module Cleanup {
  import opened Wrappers
  import opened Calendar
  import Scanners

  /** The columns the deletion reads; price and indicator columns ride
      along unchanged. */
  datatype DatedRow = DatedRow(symbolId: int, timeframe: string, date: Day)

  /** The table a data type and asset type name; is_index picks the same
      name either way. */
  function TableName(dataType: string, assetType: string, isIndex: bool): (r: Result<string>)
    ensures r.Err? <==> dataType != "price" && dataType != "indicator"
    ensures dataType == "price" ==> r == Ok(assetType + "_price_data")
    ensures dataType == "indicator" ==> r == Ok(assetType + "_indicators")
  {
    if dataType == "price" then Ok(if isIndex then assetType + "_price_data" else assetType + "_price_data")
    else if dataType == "indicator" then Ok(if isIndex then assetType + "_indicators" else assetType + "_indicators")
    else Err("data_type must be 'price' or 'indicator'")
  }

  /** The two timeframe rules: a date that breaks them is deleted. */
  datatype Rule = NonMonday | NonFirstOfMonth

  function RuleOf(timeframe: string): (r: Option<Rule>)
    ensures r == Some(NonMonday) <==> timeframe == "1wk"
    ensures r == Some(NonFirstOfMonth) <==> timeframe == "1mo"
    ensures r.None? <==> timeframe != "1wk" && timeframe != "1mo"
  {
    if timeframe == "1wk" then Some(NonMonday)
    else if timeframe == "1mo" then Some(NonFirstOfMonth)
    else None
  }

  predicate Breaks(rule: Rule, d: Day) {
    match rule
    case NonMonday => IsoWeekday(d) != 1
    case NonFirstOfMonth => DayOfMonth(d) != 1
  }

  /** The rows the DELETE leaves: those of another timeframe and those that
      keep the rule. */
  predicate Kept(timeframe: string, rule: Rule, row: DatedRow) {
    !(row.timeframe == timeframe && Breaks(rule, row.date))
  }

  function KeptFn(timeframe: string, rule: Rule): DatedRow -> bool {
    row => Kept(timeframe, rule, row)
  }

  function Remaining(rows: seq<DatedRow>, timeframe: string, rule: Rule): seq<DatedRow> {
    Scanners.Filter(rows, KeptFn(timeframe, rule))
  }

  /** What the DELETE leaves: every remaining row of the timeframe keeps
      the rule, rows of other timeframes and rows keeping the rule stay,
      and nothing is added. */
  lemma RemainingFacts(rows: seq<DatedRow>, timeframe: string, rule: Rule)
    ensures var r := Remaining(rows, timeframe, rule);
      |r| <= |rows|
      && (forall row :: row in r ==> row in rows)
      && (forall row :: row in r && row.timeframe == timeframe ==> !Breaks(rule, row.date))
      && (forall row :: row in rows && row.timeframe != timeframe ==> row in r)
      && (forall row :: row in rows && !Breaks(rule, row.date) ==> row in r)
  {
    var keep := KeptFn(timeframe, rule);
    assert forall row :: keep(row) == Kept(timeframe, rule, row);
  }

  /** After a weekly cleanup every weekly row is dated on a Monday. */
  lemma WeeklyMondays(rows: seq<DatedRow>, row: DatedRow)
    requires row in Remaining(rows, "1wk", NonMonday) && row.timeframe == "1wk"
    ensures IsoWeekday(row.date) == 1 && Weekday(row.date) == 0
  {
    RemainingFacts(rows, "1wk", NonMonday);
  }

  /** After a monthly cleanup every monthly row is dated on the first. */
  lemma MonthlyFirsts(rows: seq<DatedRow>, row: DatedRow)
    requires row in Remaining(rows, "1mo", NonFirstOfMonth) && row.timeframe == "1mo"
    ensures DayOfMonth(row.date) == 1
  {
    RemainingFacts(rows, "1mo", NonFirstOfMonth);
  }

  /** A second cleanup with the same timeframe deletes nothing. */
  lemma RemainingIdempotent(rows: seq<DatedRow>, timeframe: string, rule: Rule)
    ensures Remaining(Remaining(rows, timeframe, rule), timeframe, rule) == Remaining(rows, timeframe, rule)
  {
    var r := Remaining(rows, timeframe, rule);
    RemainingFacts(rows, timeframe, rule);
    assert forall row :: row in r ==> KeptFn(timeframe, rule)(row);
    Scanners.FilterAll(r, KeptFn(timeframe, rule));
  }

  /** How a call ends once its arguments are valid: the table and the
      deleted row count, or a database failure (the table is missing) that
      is logged and changes nothing. */
  datatype Outcome = Deleted(table: string, count: nat) | Failed(table: string)

  type Tables = map<string, seq<DatedRow>>

  /** The whole call: a ValueError for a bad data type, then for a bad
      timeframe, then the DELETE on the resolved table. */
  function DeleteInvalid(timeframe: string, dataType: string, assetType: string, isIndex: bool, db: Tables): (r: (Result<Outcome>, Tables))
    ensures r.0.Err? <==> TableName(dataType, assetType, isIndex).Err? || RuleOf(timeframe).None?
    ensures r.1.Keys == db.Keys
    ensures forall t :: t in db && (r.0.Err? || r.0.value.Failed? || t != r.0.value.table) ==> r.1[t] == db[t]
    ensures r.0.Ok? ==> r.0.value.table == TableName(dataType, assetType, isIndex).value
    ensures r.0.Ok? ==> (r.0.value.Failed? <==> r.0.value.table !in db)
    ensures r.0.Ok? && r.0.value.Deleted? ==> var t := r.0.value.table;
      r.1[t] == Remaining(db[t], timeframe, RuleOf(timeframe).value) && r.0.value.count == |db[t]| - |r.1[t]|
  {
    match TableName(dataType, assetType, isIndex)
    case Err(e) => (Err(e), db)
    case Ok(table) =>
      match RuleOf(timeframe)
      case None => (Err("Unsupported timeframe: " + timeframe), db)
      case Some(rule) =>
        if table !in db then (Ok(Failed(table)), db)
        else
          var rest := Remaining(db[table], timeframe, rule);
          RemainingFacts(db[table], timeframe, rule);
          (Ok(Deleted(table, |db[table]| - |rest|)), db[table := rest])
  }

  // ---------------------------------------------------------------------
  // The tables, deleted from in place
  // ---------------------------------------------------------------------

  class DataTable {
    var rows: seq<DatedRow>

    constructor (rows0: seq<DatedRow>)
      ensures rows == rows0
    {
      rows := rows0;
    }

    /** DELETE FROM table WHERE timeframe = %s AND condition; the row count
        is returned. */
    method DeleteBreaking(timeframe: string, rule: Rule) returns (deleted: nat)
      modifies this
      ensures rows == Remaining(old(rows), timeframe, rule)
      ensures deleted == |old(rows)| - |rows|
    {
      var keep := KeptFn(timeframe, rule);
      var src := rows;
      var kept: seq<DatedRow> := [];
      for i := 0 to |src|
        invariant kept == Scanners.Filter(src[..i], keep)
      {
        Scanners.FilterSnoc(src[..i], src[i], keep);
        assert src[..i + 1] == src[..i] + [src[i]];
        if Kept(timeframe, rule, src[i]) {
          kept := kept + [src[i]];
        }
      }
      assert src[..|src|] == src;
      deleted := |src| - |kept|;
      rows := kept;
    }
  }

  function Contents(stores: map<string, DataTable>): (d: Tables)
    reads stores.Values
    ensures d.Keys == stores.Keys
  {
    map t | t in stores :: stores[t].rows
  }

  ghost predicate Separate(stores: map<string, DataTable>) {
    forall s, t :: s in stores && t in stores && s != t ==> stores[s] != stores[t]
  }

  /** delete_invalid_timeframe_rows. */
  method DeleteInvalidTimeframeRows(timeframe: string, dataType: string, assetType: string, isIndex: bool, stores: map<string, DataTable>)
    returns (r: Result<Outcome>)
    requires Separate(stores)
    modifies stores.Values
    ensures (r, Contents(stores)) == DeleteInvalid(timeframe, dataType, assetType, isIndex, old(Contents(stores)))
  {
    var table := TableName(dataType, assetType, isIndex);
    if table.Err? {
      return Err(table.error);
    }
    var rule := RuleOf(timeframe);
    if rule.None? {
      return Err("Unsupported timeframe: " + timeframe);
    }
    if table.value !in stores {
      return Ok(Failed(table.value));
    }
    ghost var before := Contents(stores);
    var deleted := stores[table.value].DeleteBreaking(timeframe, rule.value);
    r := Ok(Deleted(table.value, deleted));
    assert Contents(stores) == before[table.value := Remaining(before[table.value], timeframe, rule.value)];
  }
}
