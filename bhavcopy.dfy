/** NSE bhavcopy files: which names are read and in what order, the date a
    name carries, the symbol of a historical per-symbol file, the cleaning
    of numeric cells, the delivery-percentage updates, and the range of
    dates whose files are fetched. */
module Bhavcopy {
  import opened Wrappers
  import opened Text
  import opened Calendar
  import Sorting
  import Scanners
  import Symbols

  // ---------------------------------------------------------------------
  // File names
  // ---------------------------------------------------------------------

  const Prefix: string := "sec_bhavdata_full_"

  /** `f.endswith(".csv") and "sec_bhavdata_full_" in f`. */
  predicate IsBhavcopyName(f: string) {
    EndsWith(f, ".csv") && Contains(f, Prefix)
  }

  function IsBhavcopyNameFn(): string -> bool {
    f => IsBhavcopyName(f)
  }

  function ByName(): (string, string) -> bool {
    (a: string, b: string) => StrLe(a, b)
  }

  lemma ByNameOrder()
    ensures Sorting.Total(ByName()) && Sorting.Transitive(ByName())
  {
    var le := ByName();
    forall a: string, b: string ensures le(a, b) || le(b, a) {
      StrLeTotal(a, b);
    }
    forall a: string, b: string, c: string | le(a, b) && le(b, c) ensures le(a, c) {
      StrLeTrans(a, b, c);
    }
  }

  /** `sorted([f for f in os.listdir(dir) if ...])`: the bhavcopy names of
      the folder, each as often as listed, in code-point order. */
  function BhavcopyFiles(names: seq<string>): (r: seq<string>)
    ensures Sorting.Sorted(r, ByName())
    ensures multiset(r) == multiset(Scanners.Filter(names, IsBhavcopyNameFn()))
    ensures forall f :: f in r <==> f in names && IsBhavcopyName(f)
  {
    var picked := Scanners.Filter(names, IsBhavcopyNameFn());
    ByNameOrder();
    Sorting.SortSorted(picked, ByName());
    var r := Sorting.Sort(picked, ByName());
    assert forall f :: f in r <==> f in picked by {
      forall f ensures f in r <==> f in picked {
        assert f in r <==> f in multiset(r);
        assert f in picked <==> f in multiset(picked);
      }
    }
    r
  }

  /** The name download_bhavcopy saves a day's file under. */
  function BhavcopyName(c: Civil): string {
    Prefix + FormatDdmmyyyy(c) + ".csv"
  }

  /** `file.split("_")[-1].split(".")[0]`. */
  function FileDateText(name: string): string {
    FirstPiece(LastPiece(name, '_'), '.')
  }

  /** The date a bhavcopy name carries; None is the skipped name. */
  function FileDate(name: string): (r: Option<Civil>)
    ensures r.Some? ==> ValidCivil(r.value)
  {
    ParseDdmmyyyy(FileDateText(name))
  }

  /** The date re-emitted as `strftime("%Y-%m-%d")`. */
  function FileDateIso(name: string): (r: Option<string>)
    ensures r.Some? <==> FileDate(name).Some?
    ensures r.Some? ==> ParseIso(r.value) == FileDate(name)
  {
    match FileDate(name)
    case None => None
    case Some(c) =>
      IsoRoundTrip(c);
      Some(FormatIso(c))
  }

  /** A saved day's file is read back, and carries its own day. */
  lemma FileDateRoundTrip(c: Civil)
    requires ValidCivil(c)
    ensures IsBhavcopyName(BhavcopyName(c))
    ensures FileDate(BhavcopyName(c)) == Some(c)
    ensures FileDateIso(BhavcopyName(c)) == Some(FormatIso(c))
  {
    var d := FormatDdmmyyyy(c);
    var name := BhavcopyName(c);
    var tail := d + ".csv";
    assert name == "sec_bhavdata_full" + ['_'] + tail;
    assert '_' !in tail by {
      forall i | 0 <= i < |tail| ensures tail[i] != '_' {
        if i < 8 {
          assert tail[i] == d[i] && IsDigit(d[i]);
        }
      }
    }
    LastPieceAppend("sec_bhavdata_full", '_', tail);
    var k := IndexOf(tail, '.');
    assert tail[8] == '.';
    assert forall i :: 0 <= i < 8 ==> tail[i] == d[i] && IsDigit(d[i]);
    assert k == 8;
    assert tail[..8] == d;
    DdmmyyyyRoundTrip(c);
    assert EndsWith(name, ".csv") by {
      assert name[|name| - 4..] == ".csv";
    }
    assert OccursAt(name, Prefix, 0) by {
      assert name[..|Prefix|] == Prefix;
    }
  }

  // ---------------------------------------------------------------------
  // Historical per-symbol files
  // ---------------------------------------------------------------------

  /** `f.lower().endswith(".csv")`. */
  predicate IsHistoricalName(f: string) {
    EndsWith(Lower(f), ".csv")
  }

  /** `file_name.split("_")[0].upper()` plus the ".NS" suffix. */
  function HistoricalSymbol(name: string): string {
    Upper(FirstPiece(name, '_')) + ".NS"
  }

  /** A historical file named "<code>_..." belongs to "<CODE>.NS". */
  lemma HistoricalSymbolOf(code: string, rest: string)
    requires '_' !in code
    ensures HistoricalSymbol(code + "_" + rest) == Upper(code) + ".NS"
  {
    var name := code + "_" + rest;
    var k := IndexOf(name, '_');
    assert name[|code|] == '_';
    assert forall i :: 0 <= i < |code| ==> name[i] == code[i];
    assert k == |code|;
    assert name[..|code|] == code;
  }

  /** `{row["yahoo_symbol"].upper(): row["symbol_id"]}` over the listings,
      a later listing replacing an earlier one with the same key. */
  function SymbolMap(listings: seq<Symbols.Listing>): (m: map<string, int>)
    ensures forall k :: k in m <==> exists l :: l in listings && Upper(l.yahooSymbol) == k
    ensures forall k :: k in m ==> exists l :: l in listings && Upper(l.yahooSymbol) == k && l.symbolId == m[k]
    decreases |listings|
  {
    if listings == [] then map[]
    else
      var init := listings[..|listings| - 1];
      var l := listings[|listings| - 1];
      assert forall x :: x in listings <==> x in init || x == l by {
        assert listings == init + [l];
      }
      SymbolMap(init)[Upper(l.yahooSymbol) := l.symbolId]
  }

  // ---------------------------------------------------------------------
  // CSV cells
  // ---------------------------------------------------------------------

  /** A CSV as read: header names and rows of cells, None for a NaN cell. */
  datatype Csv = Csv(columns: seq<string>, rows: seq<seq<Option<string>>>)

  /** `[c.strip() for c in df.columns]`. */
  function StrippedHeader(columns: seq<string>): (r: seq<string>)
    ensures |r| == |columns| && forall k :: 0 <= k < |columns| ==> r[k] == Strip(columns[k])
  {
    seq(|columns|, k requires 0 <= k < |columns| => Strip(columns[k]))
  }

  /** `[c.strip().upper() for c in df_csv.columns]`. */
  function UpperHeader(columns: seq<string>): (r: seq<string>)
    ensures |r| == |columns| && forall k :: 0 <= k < |columns| ==> r[k] == Upper(Strip(columns[k]))
  {
    seq(|columns|, k requires 0 <= k < |columns| => Upper(Strip(columns[k])))
  }

  /** The CSV read from a file name; None when it cannot be read. */
  function CsvOf(files: map<string, Csv>, name: string): Option<Csv> {
    if name in files then Some(files[name]) else None
  }

  /** `df_row.get(name)`: None when the column is missing. */
  function Field(cols: seq<string>, row: seq<Option<string>>, name: string): Option<string> {
    if name in cols then Symbols.Cell(row, Symbols.ColumnOf(cols, name)) else None
  }

  lemma {:induction false} RemoveCommasNone(s: string)
    requires ',' !in s
    ensures RemoveCommas(s) == s
    decreases |s|
  {
    if s != [] {
      assert s[0] != ',';
      RemoveCommasNone(s[1..]);
      assert [s[0]] + s[1..] == s;
    }
  }

  /** `float(str(x).replace(",", ""))` when x is not NaN: None for a
      missing value, Err for a text float() refuses. */
  function CleanFloat(cell: Option<string>): (r: Result<Option<real>>)
    ensures cell.None? ==> r == Ok(None)
    ensures cell.Some? ==> (r.Ok? <==> ParseDecimal(RemoveCommas(cell.value)).Some?)
  {
    match cell
    case None => Ok(None)
    case Some(s) =>
      match ParseDecimal(RemoveCommas(s))
      case Some(v) => Ok(Some(v))
      case None => Err("could not convert string to float")
  }

  /** `int(str(x).replace(",", ""))`. */
  function CleanInt(cell: Option<string>): (r: Result<Option<int>>)
    ensures cell.None? ==> r == Ok(None)
    ensures cell.Some? ==> (r.Ok? <==> ParseInteger(RemoveCommas(cell.value)).Some?)
  {
    match cell
    case None => Ok(None)
    case Some(s) =>
      match ParseInteger(RemoveCommas(s))
      case Some(v) => Ok(Some(v))
      case None => Err("invalid literal for int()")
  }

  /** Thousands separators do not change a cleaned value. */
  lemma CleanIgnoresCommas(s: string)
    ensures CleanFloat(Some(s)) == CleanFloat(Some(RemoveCommas(s)))
    ensures CleanInt(Some(s)) == CleanInt(Some(RemoveCommas(s)))
  {
    RemoveCommasNone(RemoveCommas(s));
  }

  /** The delivery percentage of update_equity_delv_pct_from_bhavcopy: as
      CleanFloat, with any failure read as None. */
  function DelvCell(cell: Option<string>): (r: Option<real>)
    ensures CleanFloat(cell).Ok? ==> r == CleanFloat(cell).value
    ensures CleanFloat(cell).Err? ==> r.None?
  {
    match cell
    case None => None
    case Some(s) => ParseDecimal(RemoveCommas(s))
  }

  /** The columns of one equity price row. */
  datatype PriceRecord = PriceRecord(
    open: Option<real>, high: Option<real>, low: Option<real>,
    close: Option<real>, adjClose: Option<real>, volume: Option<int>, delv: Option<real>)

  /** The column mapping of update_equity_price_from_bhavcopy: LAST_PRICE
      fills close and CLOSE_PRICE fills adj_close. */
  function PriceRecordOf(cols: seq<string>, row: seq<Option<string>>): (r: Result<PriceRecord>)
    ensures r.Ok? <==> (CleanFloat(Field(cols, row, "OPEN_PRICE")).Ok? && CleanFloat(Field(cols, row, "HIGH_PRICE")).Ok?
      && CleanFloat(Field(cols, row, "LOW_PRICE")).Ok? && CleanFloat(Field(cols, row, "LAST_PRICE")).Ok?
      && CleanFloat(Field(cols, row, "CLOSE_PRICE")).Ok? && CleanInt(Field(cols, row, "TTL_TRD_QNTY")).Ok?
      && CleanFloat(Field(cols, row, "DELIV_PER")).Ok?)
    ensures r.Ok? ==> (r.value.close == CleanFloat(Field(cols, row, "LAST_PRICE")).value
      && r.value.adjClose == CleanFloat(Field(cols, row, "CLOSE_PRICE")).value
      && r.value.open == CleanFloat(Field(cols, row, "OPEN_PRICE")).value
      && r.value.high == CleanFloat(Field(cols, row, "HIGH_PRICE")).value
      && r.value.low == CleanFloat(Field(cols, row, "LOW_PRICE")).value
      && r.value.volume == CleanInt(Field(cols, row, "TTL_TRD_QNTY")).value
      && r.value.delv == DelvCell(Field(cols, row, "DELIV_PER")))
  {
    var open :- CleanFloat(Field(cols, row, "OPEN_PRICE"));
    var high :- CleanFloat(Field(cols, row, "HIGH_PRICE"));
    var low :- CleanFloat(Field(cols, row, "LOW_PRICE"));
    var close :- CleanFloat(Field(cols, row, "LAST_PRICE"));
    var adjClose :- CleanFloat(Field(cols, row, "CLOSE_PRICE"));
    var volume :- CleanInt(Field(cols, row, "TTL_TRD_QNTY"));
    var delv :- CleanFloat(Field(cols, row, "DELIV_PER"));
    Ok(PriceRecord(open, high, low, close, adjClose, volume, delv))
  }

  /** A missing column gives a missing value, never an error. */
  lemma MissingColumnIsNone(cols: seq<string>, row: seq<Option<string>>, name: string)
    requires name !in cols
    ensures CleanFloat(Field(cols, row, name)) == Ok(None) && DelvCell(Field(cols, row, name)).None?
  {
  }

  // ---------------------------------------------------------------------
  // The range of days to fetch
  // ---------------------------------------------------------------------

  /** The first day to fetch: the day after the override, after the
      database's latest daily bar, or after today - 30 when there is none.
      A failed database query counts as none; an override that is not an
      ISO date ends the run (None). An empty override is falsy and ignored. */
  function StartDay(override: Option<string>, latest: Result<Option<Day>>, today: Day): (r: Option<Day>)
    ensures override.Some? && override.value != "" ==>
      (r.None? <==> ParseIso(override.value).None?)
      && (r.Some? ==> r.value == DaysFromCivil(ParseIso(override.value).value) + 1)
    ensures (override.None? || override.value == "") ==> r.Some?
    ensures (override.None? || override.value == "") && latest.Ok? && latest.value.Some? ==> r == Some(latest.value.value + 1)
    ensures (override.None? || override.value == "") && (latest.Err? || latest.value.None?) ==> r == Some(today - 29)
  {
    if override.Some? && override.value != "" then
      match ParseIso(override.value)
      case None => None
      case Some(c) => Some(DaysFromCivil(c) + 1)
    else
      var known := if latest.Ok? then latest.value else None;
      var last := if known.Some? then known.value else today - 30;
      Some(last + 1)
  }

  /** The days from start to today inclusive, in order. */
  function DaysFrom(start: Day, today: Day): (r: seq<Day>)
    ensures |r| == if today < start then 0 else today - start + 1
    ensures forall i :: 0 <= i < |r| ==> r[i] == start + i
    decreases today - start
  {
    if today < start then [] else [start] + DaysFrom(start + 1, today)
  }

  /** Each day of the range is visited exactly once. */
  lemma DaysFromOnce(start: Day, today: Day)
    ensures forall d :: d in DaysFrom(start, today) <==> start <= d <= today
    ensures forall i, j :: 0 <= i < j < |DaysFrom(start, today)| ==> DaysFrom(start, today)[i] < DaysFrom(start, today)[j]
  {
    var r := DaysFrom(start, today);
    forall d | start <= d <= today ensures d in r {
      assert r[d - start] == d;
    }
  }

  /** download_missing_bhavcopies: the days whose files are requested, in
      order, and the count it reports (every attempt counts). */
  method DownloadMissing(override: Option<string>, latest: Result<Option<Day>>, today: Day)
    returns (requested: seq<string>, count: nat)
    ensures StartDay(override, latest, today).None? ==> requested == [] && count == 0
    ensures StartDay(override, latest, today).Some? ==>
      var days := DaysFrom(StartDay(override, latest, today).value, today);
      |requested| == |days| && count == |days|
      && forall i :: 0 <= i < |days| ==> requested[i] == FormatDdmmyyyy(CivilFromDays(days[i]))
  {
    requested, count := [], 0;
    var start := StartDay(override, latest, today);
    if start.None? {
      return;
    }
    var curr := start.value;
    if curr > today {
      return;
    }
    ghost var days := DaysFrom(start.value, today);
    while curr <= today
      invariant start.value <= curr <= today + 1
      invariant count == curr - start.value == |requested|
      invariant forall i :: 0 <= i < |requested| ==> requested[i] == FormatDdmmyyyy(CivilFromDays(days[i]))
      decreases today - curr
    {
      NextRequest(requested, days, curr);
      requested := requested + [FormatDdmmyyyy(CivilFromDays(curr))];
      count := count + 1;
      curr := curr + 1;
    }
  }

  /** Requesting the next day of the range keeps the requests in step with
      the days. */
  lemma NextRequest(requested: seq<string>, days: seq<Day>, curr: Day)
    requires |requested| < |days| && days[|requested|] == curr
    requires forall i :: 0 <= i < |requested| ==> requested[i] == FormatDdmmyyyy(CivilFromDays(days[i]))
    ensures var next := requested + [FormatDdmmyyyy(CivilFromDays(curr))];
      forall i :: 0 <= i < |next| ==> next[i] == FormatDdmmyyyy(CivilFromDays(days[i]))
  {
  }

  // ---------------------------------------------------------------------
  // The daily price table and its delivery percentages
  // ---------------------------------------------------------------------

  /** The conflict key (symbol_id, timeframe, date). */
  datatype PriceKey = PriceKey(symbolId: int, timeframe: string, date: Day)

  type Prices = map<PriceKey, PriceRecord>

  const EmptyRecord: PriceRecord := PriceRecord(None, None, None, None, None, None, None)

  function SymbolIds(listings: seq<Symbols.Listing>): set<int> {
    set l | l in listings :: l.symbolId
  }

  /** No row is lost and every row keeps its price columns. */
  predicate KeepsPrices(before: Prices, after: Prices) {
    before.Keys <= after.Keys && forall k :: k in before ==> after[k].(delv := before[k].delv) == before[k]
  }

  /** Only daily rows of the given symbols are added or changed. */
  predicate TouchesOnly(before: Prices, after: Prices, sids: set<int>) {
    forall k :: k in after && (k !in before || after[k] != before[k]) ==> k.timeframe == "1d" && k.symbolId in sids
  }

  // Historical files: UPDATE ... SET delv_pct WHERE the row exists.

  const HistDateColumn: string := "Date"
  const HistDelvColumn: string := "% Dly Qt to Traded Qty"

  /** One day's value of a historical file. */
  datatype DelvValue = DelvValue(date: Day, delv: Option<real>)

  /** A row's value: its Date parsed as DD-Mon-YYYY (NaT drops the row) and
      its delivery column through to_numeric(errors='coerce'). */
  function HistValue(cols: seq<string>, row: seq<Option<string>>): (r: Option<DelvValue>)
    ensures r.Some? <==> Field(cols, row, HistDateColumn).Some? && ParseDdMonYyyy(Field(cols, row, HistDateColumn).value).Some?
  {
    match Field(cols, row, HistDateColumn)
    case None => None
    case Some(t) =>
      match ParseDdMonYyyy(t)
      case None => None
      case Some(c) =>
        var pct := Field(cols, row, HistDelvColumn);
        Some(DelvValue(DaysFromCivil(c), if pct.Some? then ParseDecimal(pct.value) else None))
  }

  /** `dropna(subset=["date"])`: the values of the rows whose date parses,
      in row order. */
  function HistValues(cols: seq<string>, rows: seq<seq<Option<string>>>): (r: seq<DelvValue>)
    ensures |r| <= |rows|
    ensures forall v :: v in r <==> exists row :: row in rows && HistValue(cols, row) == Some(v)
    decreases |rows|
  {
    if rows == [] then []
    else
      assert forall row :: row in rows <==> row == rows[0] || row in rows[1..];
      var rest := HistValues(cols, rows[1..]);
      match HistValue(cols, rows[0])
      case None => rest
      case Some(v) => [v] + rest
  }

  /** One value of the UPDATE: an existing daily row of the symbol on that
      date takes the value when it is distinct from the current one. */
  function UpdateOne(rows: Prices, sid: int, v: DelvValue): Prices {
    var key := PriceKey(sid, "1d", v.date);
    if key in rows && rows[key].delv != v.delv then rows[key := rows[key].(delv := v.delv)] else rows
  }

  function UpdateAll(rows: Prices, sid: int, values: seq<DelvValue>): Prices
    decreases |values|
  {
    if values == [] then rows
    else UpdateOne(UpdateAll(rows, sid, values[..|values| - 1]), sid, values[|values| - 1])
  }

  /** The UPDATE adds no row, changes only delv_pct, only on the symbol's
      daily rows of the listed dates. */
  lemma {:induction false} UpdateAllFacts(rows: Prices, sid: int, values: seq<DelvValue>)
    ensures var r := UpdateAll(rows, sid, values);
      r.Keys == rows.Keys && KeepsPrices(rows, r) && TouchesOnly(rows, r, {sid})
      && forall k :: k in rows && (forall v :: v in values ==> k != PriceKey(sid, "1d", v.date)) ==> r[k] == rows[k]
    decreases |values|
  {
    if values != [] {
      var init := values[..|values| - 1];
      UpdateAllFacts(rows, sid, init);
      assert forall v :: v in init ==> v in values;
    }
  }

  /** With one value per date, each existing daily row of a listed date
      ends with that date's value. */
  lemma {:induction false} UpdateAllSets(rows: Prices, sid: int, values: seq<DelvValue>, v: DelvValue)
    requires forall i, j :: 0 <= i < j < |values| ==> values[i].date != values[j].date
    requires v in values && PriceKey(sid, "1d", v.date) in rows
    ensures PriceKey(sid, "1d", v.date) in UpdateAll(rows, sid, values)
    ensures UpdateAll(rows, sid, values)[PriceKey(sid, "1d", v.date)].delv == v.delv
    decreases |values|
  {
    var init := values[..|values| - 1];
    var last := values[|values| - 1];
    var key := PriceKey(sid, "1d", v.date);
    UpdateAllFacts(rows, sid, init);
    if v != last {
      assert values == init + [last];
      assert v in init;
      UpdateAllSets(rows, sid, init, v);
      var i :| 0 <= i < |init| && init[i] == v;
      assert values[i] == v;
    }
  }

  /** One historical file: the symbol is its name's prefix plus ".NS";
      an unknown symbol, an unreadable file, a missing column or no dated
      row leaves the table as it is. */
  function HistFile(rows: Prices, symbolMap: map<string, int>, name: string, csv: Option<Csv>): Prices {
    var symbol := HistoricalSymbol(name);
    if !IsHistoricalName(name) || symbol !in symbolMap || csv.None? then rows
    else
      var cols := StrippedHeader(csv.value.columns);
      if HistDateColumn !in cols || HistDelvColumn !in cols then rows
      else
        var values := HistValues(cols, csv.value.rows);
        if values == [] then rows else UpdateAll(rows, symbolMap[symbol], values)
  }

  /** update_hist_delv_pct_from_bhavcopy over the folder's names, in the
      order listed; a name with no readable file maps to no CSV. */
  function HistUpdate(rows: Prices, listings: seq<Symbols.Listing>, names: seq<string>, files: map<string, Csv>): Prices
    decreases |names|
  {
    if names == [] then rows
    else
      var name := names[|names| - 1];
      HistFile(HistUpdate(rows, listings, names[..|names| - 1], files), SymbolMap(listings), name,
        CsvOf(files, name))
  }

  lemma HistFileFacts(rows: Prices, listings: seq<Symbols.Listing>, name: string, csv: Option<Csv>)
    ensures var r := HistFile(rows, SymbolMap(listings), name, csv);
      r.Keys == rows.Keys && KeepsPrices(rows, r) && TouchesOnly(rows, r, SymbolIds(listings))
  {
    var m := SymbolMap(listings);
    var symbol := HistoricalSymbol(name);
    if IsHistoricalName(name) && symbol in m && csv.Some? {
      var l :| l in listings && Upper(l.yahooSymbol) == symbol && l.symbolId == m[symbol];
      var cols := StrippedHeader(csv.value.columns);
      UpdateAllFacts(rows, m[symbol], HistValues(cols, csv.value.rows));
    }
  }

  /** The historical update adds no row, keeps every price column, and
      touches only the listed symbols' daily rows. */
  lemma {:induction false} HistUpdateFacts(rows: Prices, listings: seq<Symbols.Listing>, names: seq<string>, files: map<string, Csv>)
    ensures var r := HistUpdate(rows, listings, names, files);
      r.Keys == rows.Keys && KeepsPrices(rows, r) && TouchesOnly(rows, r, SymbolIds(listings))
    decreases |names|
  {
    if names != [] {
      var name := names[|names| - 1];
      var mid := HistUpdate(rows, listings, names[..|names| - 1], files);
      HistUpdateFacts(rows, listings, names[..|names| - 1], files);
      HistFileFacts(mid, listings, name, CsvOf(files, name));
    }
  }

  // Daily bhavcopies: INSERT ... ON CONFLICT DO UPDATE SET delv_pct.

  /** `astype(str).str.upper().str.strip()` on the SYMBOL column. */
  function CsvSymbol(cell: Option<string>): string {
    match cell
    case None => "NAN"
    case Some(t) => Strip(Upper(t))
  }

  /** `yahoo_symbol.replace(".NS", "").upper().strip()`. */
  function MatchCode(yahoo: string): string {
    Strip(Upper(RemoveAll(yahoo, ".NS")))
  }

  lemma {:induction false} RemoveNsSuffix(code: string)
    requires !Contains(code, ".NS")
    ensures RemoveAll(code + ".NS", ".NS") == code
    decreases |code|
  {
    var s := code + ".NS";
    if code == [] {
      assert s == ".NS";
      assert StartsWith(s, ".NS");
      assert s[3..] == [];
    } else {
      assert !StartsWith(s, ".NS") by {
        if |code| >= 3 {
          assert s[..3] == code[..3];
          assert !OccursAt(code, ".NS", 0);
        } else if |code| == 1 {
          assert s[1] == '.';
        } else {
          assert s[2] == '.';
        }
      }
      assert !Contains(code[1..], ".NS") by {
        forall i | 0 <= i <= |code[1..]| && OccursAt(code[1..], ".NS", i) ensures false {
          assert code[1..][i..i + 3] == code[i + 1..i + 4];
          assert OccursAt(code, ".NS", i + 1);
        }
      }
      RemoveNsSuffix(code[1..]);
      assert s[1..] == code[1..] + ".NS";
      assert [code[0]] + code[1..] == code;
    }
  }

  /** The code of a listing "<CODE>.NS" is CODE. */
  lemma MatchCodeOfListing(code: string)
    requires Strip(Upper(code)) == code && !Contains(code, ".NS")
    ensures MatchCode(code + ".NS") == code
  {
    RemoveNsSuffix(code);
  }

  /** The first index of the code in the cleaned SYMBOL column
      (`df_csv[df_csv["SYMBOL"] == sym].iloc[0]`). */
  function FirstIndex(codes: seq<string>, code: string): (r: Option<nat>)
    ensures r.Some? ==> r.value < |codes| && codes[r.value] == code && code !in codes[..r.value]
    ensures r.None? <==> code !in codes
    decreases |codes|
  {
    if codes == [] then None
    else if codes[0] == code then Some(0)
    else
      match FirstIndex(codes[1..], code)
      case None => None
      case Some(i) =>
        assert codes[..i + 1] == [codes[0]] + codes[1..][..i];
        Some(i + 1)
  }

  /** The upsert: a new row carries only delv_pct; an existing row keeps
      its price columns. */
  function Upserted(rows: Prices, key: PriceKey, delv: Option<real>): (r: Prices)
    ensures r.Keys == rows.Keys + {key} && r[key].delv == delv
    ensures key in rows ==> r[key] == rows[key].(delv := delv)
    ensures key !in rows ==> r[key] == EmptyRecord.(delv := delv)
    ensures forall k :: k in rows && k != key ==> r[k] == rows[k]
  {
    if key in rows then rows[key := rows[key].(delv := delv)] else rows[key := EmptyRecord.(delv := delv)]
  }

  /** One file's cleaned SYMBOL column and the delivery percentage of each
      row. */
  datatype Sheet = Sheet(codes: seq<string>, delvs: seq<Option<real>>)

  predicate WellFormed(sh: Sheet) {
    |sh.codes| == |sh.delvs|
  }

  function SheetOf(cols: seq<string>, rows: seq<seq<Option<string>>>): (sh: Sheet)
    ensures WellFormed(sh) && |sh.codes| == |rows|
  {
    var symCol := Symbols.ColumnOf(cols, "SYMBOL");
    var delvCol := Symbols.ColumnOf(cols, "DELIV_PER");
    Sheet(seq(|rows|, k requires 0 <= k < |rows| => CsvSymbol(Symbols.Cell(rows[k], symCol))),
          seq(|rows|, k requires 0 <= k < |rows| => DelvCell(Symbols.Cell(rows[k], delvCol))))
  }

  /** One listing: found in the sheet, its daily row of the day is upserted
      with the first matching row's percentage and counted. */
  function DelvStep(done: (nat, Prices), l: Symbols.Listing, sh: Sheet, day: Day): (r: (nat, Prices))
    requires WellFormed(sh)
  {
    var found := FirstIndex(sh.codes, MatchCode(l.yahooSymbol));
    if found.None? then done
    else
      var delv := sh.delvs[found.value];
      (done.0 + 1, Upserted(done.1, PriceKey(l.symbolId, "1d", day), delv))
  }

  /** A step changes no other symbol's row. */
  lemma DelvStepOthers(done: (nat, Prices), l: Symbols.Listing, sh: Sheet, day: Day, key: PriceKey)
    requires WellFormed(sh)
    requires key in done.1 && key.symbolId != l.symbolId
    ensures key in DelvStep(done, l, sh, day).1 && DelvStep(done, l, sh, day).1[key] == done.1[key]
  {
  }

  /** The listings' upserts for one file: the count of listings found in
      it, and the table after. */
  function DelvMatches(rows: Prices, listings: seq<Symbols.Listing>, sh: Sheet, day: Day): (nat, Prices)
    requires WellFormed(sh)
    decreases |listings|
  {
    if listings == [] then (0, rows)
    else DelvStep(DelvMatches(rows, listings[..|listings| - 1], sh, day), listings[|listings| - 1], sh, day)
  }

  /** At most one upsert per listing, each keeping the price columns of an
      existing row and touching only a listed symbol's daily row. */
  lemma {:induction false} DelvMatchesFacts(rows: Prices, listings: seq<Symbols.Listing>, sh: Sheet, day: Day)
    requires WellFormed(sh)
    ensures var r := DelvMatches(rows, listings, sh, day);
      r.0 <= |listings| && KeepsPrices(rows, r.1) && TouchesOnly(rows, r.1, SymbolIds(listings))
    decreases |listings|
  {
    if listings != [] {
      var init := listings[..|listings| - 1];
      DelvMatchesFacts(rows, init, sh, day);
      assert SymbolIds(init) <= SymbolIds(listings) by {
        assert forall l :: l in init ==> l in listings;
      }
      assert listings[|listings| - 1] in listings;
    }
  }

  lemma DelvMatchesPrefix(rows: Prices, listings: seq<Symbols.Listing>, sh: Sheet, day: Day, j: nat)
    requires WellFormed(sh) && j < |listings|
    ensures DelvMatches(rows, listings[..j + 1], sh, day) == DelvStep(DelvMatches(rows, listings[..j], sh, day), listings[j], sh, day)
  {
    assert listings[..j + 1][..j] == listings[..j];
  }

  lemma InInit<T>(s: seq<T>, x: T)
    requires x in s && x != s[|s| - 1]
    ensures x in s[..|s| - 1]
  {
    assert s == s[..|s| - 1] + [s[|s| - 1]];
  }

  /** With distinct symbol ids, a listing found in the file ends with the
      delivery percentage of the first matching row. */
  lemma {:induction false} DelvMatchesSets(rows: Prices, listings: seq<Symbols.Listing>, sh: Sheet, day: Day, l: Symbols.Listing)
    requires WellFormed(sh)
    requires forall i, j :: 0 <= i < j < |listings| ==> listings[i].symbolId != listings[j].symbolId
    requires l in listings && FirstIndex(sh.codes, MatchCode(l.yahooSymbol)).Some?
    ensures var r := DelvMatches(rows, listings, sh, day).1;
      PriceKey(l.symbolId, "1d", day) in r
      && r[PriceKey(l.symbolId, "1d", day)].delv == sh.delvs[FirstIndex(sh.codes, MatchCode(l.yahooSymbol)).value]
    decreases |listings|
  {
    var init := listings[..|listings| - 1];
    var last := listings[|listings| - 1];
    if l != last {
      InInit(listings, l);
      DelvMatchesSets(rows, init, sh, day, l);
      var i :| 0 <= i < |init| && init[i] == l;
      assert listings[i] == l;
      DelvStepOthers(DelvMatches(rows, init, sh, day), last, sh, day, PriceKey(l.symbolId, "1d", day));
    }
  }

  /** One daily bhavcopy: skipped when its name has no date, it cannot be
      read, it has no row, or SYMBOL or DELIV_PER is missing after the
      header is stripped and upper-cased. */
  function DelvFile(rows: Prices, listings: seq<Symbols.Listing>, name: string, csv: Option<Csv>): (nat, Prices) {
    var date := FileDate(name);
    if date.None? || csv.None? || csv.value.rows == [] then (0, rows)
    else
      var cols := UpperHeader(csv.value.columns);
      if "SYMBOL" !in cols || "DELIV_PER" !in cols then (0, rows)
      else DelvMatches(rows, listings, SheetOf(cols, csv.value.rows), DaysFromCivil(date.value))
  }

  /** One file of the run: its upserts are added to the running count. */
  function DelvFileStep(done: (nat, Prices), listings: seq<Symbols.Listing>, name: string, files: map<string, Csv>): (nat, Prices) {
    (done.0 + DelvFile(done.1, listings, name, CsvOf(files, name)).0, DelvFile(done.1, listings, name, CsvOf(files, name)).1)
  }

  lemma DelvFileStepOf(done: (nat, Prices), total: nat, rows: Prices, listings: seq<Symbols.Listing>, name: string, files: map<string, Csv>)
    requires total == done.0 + DelvFile(done.1, listings, name, CsvOf(files, name)).0
    requires rows == DelvFile(done.1, listings, name, CsvOf(files, name)).1
    ensures total == DelvFileStep(done, listings, name, files).0
    ensures rows == DelvFileStep(done, listings, name, files).1
  {
  }

  function DelvFiles(rows: Prices, listings: seq<Symbols.Listing>, fs: seq<string>, files: map<string, Csv>): (nat, Prices)
    decreases |fs|
  {
    if fs == [] then (0, rows)
    else DelvFileStep(DelvFiles(rows, listings, fs[..|fs| - 1], files), listings, fs[|fs| - 1], files)
  }

  lemma DelvFilesPrefix(rows: Prices, listings: seq<Symbols.Listing>, fs: seq<string>, files: map<string, Csv>, i: nat)
    requires i < |fs|
    ensures DelvFiles(rows, listings, fs[..i + 1], files) == DelvFileStep(DelvFiles(rows, listings, fs[..i], files), listings, fs[i], files)
  {
    assert fs[..i + 1][..i] == fs[..i];
  }

  /** update_equity_delv_pct_from_bhavcopy: nothing without symbols or
      without bhavcopy files; otherwise the files in sorted order. */
  function DelvUpdate(rows: Prices, listings: seq<Symbols.Listing>, names: seq<string>, files: map<string, Csv>): (nat, Prices) {
    if listings == [] || BhavcopyFiles(names) == [] then (0, rows)
    else DelvFiles(rows, listings, BhavcopyFiles(names), files)
  }

  /** The delivery update counts at most one upsert per listing and file,
      keeps every price column of the existing rows, and adds or changes
      only the listed symbols' daily rows. */
  lemma {:induction false} DelvFilesFacts(rows: Prices, listings: seq<Symbols.Listing>, fs: seq<string>, files: map<string, Csv>)
    ensures var r := DelvFiles(rows, listings, fs, files);
      r.0 <= |fs| * |listings| && KeepsPrices(rows, r.1) && TouchesOnly(rows, r.1, SymbolIds(listings))
    decreases |fs|
  {
    if fs != [] {
      var init := fs[..|fs| - 1];
      var done := DelvFiles(rows, listings, init, files);
      DelvFilesFacts(rows, listings, init, files);
      var name := fs[|fs| - 1];
      var csv := CsvOf(files, name);
      var date := FileDate(name);
      if date.Some? && csv.Some? && csv.value.rows != [] {
        var cols := UpperHeader(csv.value.columns);
        DelvMatchesFacts(done.1, listings, SheetOf(cols, csv.value.rows), DaysFromCivil(date.value));
      }
      assert |fs| * |listings| == |init| * |listings| + |listings|;
    }
  }

  /** The outcome of update_equity_delv_pct_from_bhavcopy. */
  lemma DelvUpdateFacts(rows: Prices, listings: seq<Symbols.Listing>, names: seq<string>, files: map<string, Csv>)
    ensures var r := DelvUpdate(rows, listings, names, files);
      KeepsPrices(rows, r.1) && TouchesOnly(rows, r.1, SymbolIds(listings))
      && r.0 <= |BhavcopyFiles(names)| * |listings|
      && (listings == [] || BhavcopyFiles(names) == [] ==> r == (0, rows))
  {
    DelvFilesFacts(rows, listings, BhavcopyFiles(names), files);
  }

  // ---------------------------------------------------------------------
  // The price table, updated row by row
  // ---------------------------------------------------------------------

  class PriceTable {
    var rows: Prices

    constructor (rows0: Prices)
      ensures rows == rows0
    {
      rows := rows0;
    }

    /** The UPDATE of one historical file, value by value. */
    method UpdateValues(sid: int, values: seq<DelvValue>)
      modifies this
      ensures rows == UpdateAll(old(rows), sid, values)
    {
      for i := 0 to |values|
        invariant rows == UpdateAll(old(rows), sid, values[..i])
      {
        assert values[..i + 1][..i] == values[..i];
        var key := PriceKey(sid, "1d", values[i].date);
        if key in rows && rows[key].delv != values[i].delv {
          rows := rows[key := rows[key].(delv := values[i].delv)];
        }
      }
      assert values[..|values|] == values;
    }

    /** update_hist_delv_pct_from_bhavcopy. */
    method UpdateHistDelvPct(listings: seq<Symbols.Listing>, names: seq<string>, files: map<string, Csv>)
      modifies this
      ensures rows == HistUpdate(old(rows), listings, names, files)
    {
      var symbolMap := SymbolMap(listings);
      for i := 0 to |names|
        invariant rows == HistUpdate(old(rows), listings, names[..i], files)
      {
        assert names[..i + 1][..i] == names[..i];
        var name := names[i];
        var symbol := HistoricalSymbol(name);
        if IsHistoricalName(name) && symbol in symbolMap && name in files {
          var csv := files[name];
          var cols := StrippedHeader(csv.columns);
          if HistDateColumn in cols && HistDelvColumn in cols {
            var values := HistValues(cols, csv.rows);
            if values != [] {
              UpdateValues(symbolMap[symbol], values);
            }
          }
        }
      }
      assert names[..|names|] == names;
    }

    /** One listing's upsert, when the file has its code. */
    method UpsertListing(l: Symbols.Listing, sh: Sheet, day: Day, count: nat) returns (count': nat)
      requires WellFormed(sh)
      modifies this
      ensures count' == DelvStep((count, old(rows)), l, sh, day).0 && rows == DelvStep((count, old(rows)), l, sh, day).1
    {
      count' := count;
      var found := FirstIndex(sh.codes, MatchCode(l.yahooSymbol));
      if found.Some? {
        var key := PriceKey(l.symbolId, "1d", day);
        var delv := sh.delvs[found.value];
        if key in rows {
          rows := rows[key := rows[key].(delv := delv)];
        } else {
          rows := rows[key := EmptyRecord.(delv := delv)];
        }
        count' := count + 1;
      }
    }

    /** The listings of one daily file, upserted one by one. */
    method UpsertListings(listings: seq<Symbols.Listing>, sh: Sheet, day: Day) returns (count: nat)
      requires WellFormed(sh)
      modifies this
      ensures count == DelvMatches(old(rows), listings, sh, day).0 && rows == DelvMatches(old(rows), listings, sh, day).1
    {
      count := 0;
      ghost var start := rows;
      for j := 0 to |listings|
        invariant count == DelvMatches(start, listings[..j], sh, day).0 && rows == DelvMatches(start, listings[..j], sh, day).1
      {
        DelvMatchesPrefix(start, listings, sh, day, j);
        count := UpsertListing(listings[j], sh, day, count);
      }
      assert listings[..|listings|] == listings;
    }

    /** One daily file, skipped as DelvFile says. */
    method UpdateFromFile(listings: seq<Symbols.Listing>, name: string, files: map<string, Csv>, total: nat)
      returns (total': nat)
      modifies this
      ensures total' == total + DelvFile(old(rows), listings, name, CsvOf(files, name)).0
      ensures rows == DelvFile(old(rows), listings, name, CsvOf(files, name)).1
    {
      total' := total;
      var csv := CsvOf(files, name);
      var date := FileDate(name);
      if date.None? || csv.None? || csv.value.rows == [] {
        return;
      }
      var cols := UpperHeader(csv.value.columns);
      if "SYMBOL" !in cols || "DELIV_PER" !in cols {
        return;
      }
      var count := UpsertListings(listings, SheetOf(cols, csv.value.rows), DaysFromCivil(date.value));
      total' := total + count;
    }

    /** The bhavcopy files in order, their upserts counted. */
    method UpdateFromFiles(listings: seq<Symbols.Listing>, fs: seq<string>, files: map<string, Csv>)
      returns (total: nat)
      modifies this
      ensures total == DelvFiles(old(rows), listings, fs, files).0 && rows == DelvFiles(old(rows), listings, fs, files).1
    {
      total := 0;
      ghost var start := rows;
      for i := 0 to |fs|
        invariant total == DelvFiles(start, listings, fs[..i], files).0 && rows == DelvFiles(start, listings, fs[..i], files).1
      {
        ghost var prev := (total, rows);
        DelvFilesPrefix(start, listings, fs, files, i);
        total := UpdateFromFile(listings, fs[i], files, total);
        DelvFileStepOf(prev, total, rows, listings, fs[i], files);
      }
      assert fs[..|fs|] == fs;
    }

    /** update_equity_delv_pct_from_bhavcopy; total_updates is returned. */
    method UpdateEquityDelvPct(listings: seq<Symbols.Listing>, names: seq<string>, files: map<string, Csv>)
      returns (total: nat)
      modifies this
      ensures total == DelvUpdate(old(rows), listings, names, files).0 && rows == DelvUpdate(old(rows), listings, names, files).1
    {
      total := 0;
      if listings == [] {
        return;
      }
      var fs := BhavcopyFiles(names);
      if fs == [] {
        return;
      }
      total := UpdateFromFiles(listings, fs, files);
    }
  }
}
