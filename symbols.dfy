/** The symbol registry: the parsing of the symbol argument and the query it
    selects, the three-step refresh of a symbol table from its CSV export,
    and the guards of the latest-trading-date query. */
module Symbols {
  import opened Wrappers
  import opened Text
  import Sorting
  import Registry
  import Scanners

  // ---------------------------------------------------------------------
  // The symbol argument
  // ---------------------------------------------------------------------

  /** What the symbol argument asks for: nothing, every symbol, or the
      listed codes. */
  datatype Selection = NoSymbols | AllSymbols | Listed(codes: seq<string>)

  /** s.strip().upper() */
  function Normal(s: string): (r: string)
    ensures |r| <= |s|
    ensures r == [] <==> IsBlank(s)
  {
    Upper(Strip(s))
  }

  lemma NormalOfNormal(s: string)
    requires Normal(s) == s
    ensures s == [] || (!IsSpace(s[0]) && !IsSpace(s[|s| - 1]))
  {
    var t := Strip(s);
    if s != [] {
      assert UpperChar(t[0]) == s[0];
      assert UpperChar(t[|t| - 1]) == s[|s| - 1];
    }
  }

  /** [p.strip().upper() for p in parts if p.strip()] */
  function ListedCodes(parts: seq<string>): seq<string> {
    if parts == [] then []
    else (if IsBlank(parts[0]) then [] else [Normal(parts[0])]) + ListedCodes(parts[1..])
  }

  /** The codes are exactly the normal forms of the non-blank pieces, and
      none is empty. */
  lemma {:induction false} ListedCodesMembers(parts: seq<string>)
    ensures forall c :: c in ListedCodes(parts) <==> exists p :: p in parts && !IsBlank(p) && c == Normal(p)
    ensures forall c :: c in ListedCodes(parts) ==> c != []
  {
    if parts != [] {
      var rest := parts[1..];
      ListedCodesMembers(rest);
      var head := if IsBlank(parts[0]) then [] else [Normal(parts[0])];
      assert ListedCodes(parts) == head + ListedCodes(rest);
      assert parts == [parts[0]] + rest;
      forall c | c in ListedCodes(parts)
        ensures exists p :: p in parts && !IsBlank(p) && c == Normal(p)
      {
        if c !in head {
          var p :| p in rest && !IsBlank(p) && c == Normal(p);
          assert p in parts;
        }
      }
      forall c, p | p in parts && !IsBlank(p) && c == Normal(p)
        ensures c in ListedCodes(parts)
      {
        if p != parts[0] {
          assert p in rest;
        }
      }
    }
  }

  /** No code is left exactly when every piece is blank. */
  lemma {:induction false} ListedCodesEmpty(parts: seq<string>)
    ensures ListedCodes(parts) == [] <==> forall p :: p in parts ==> IsBlank(p)
  {
    if parts != [] {
      ListedCodesEmpty(parts[1..]);
      assert forall p :: p in parts <==> p == parts[0] || p in parts[1..] by {
        assert parts == [parts[0]] + parts[1..];
      }
    }
  }

  /** A list of pieces that are all normal already comes back unchanged. */
  lemma {:induction false} ListedCodesNormal(codes: seq<string>)
    requires forall k :: 0 <= k < |codes| ==> codes[k] != [] && Normal(codes[k]) == codes[k]
    ensures ListedCodes(codes) == codes
  {
    if codes != [] {
      assert !IsBlank(codes[0]);
      ListedCodesNormal(codes[1..]);
      assert codes == [codes[0]] + codes[1..];
    }
  }

  /** The argument of retrieve_symbols: a blank argument selects nothing,
      "ALL" in any case and padding selects every symbol, and otherwise the
      comma-separated pieces, stripped and upper-cased, with blank pieces
      dropped, are the codes; no code left selects nothing. */
  function ParseSelection(symbol: string): (r: Selection)
    ensures r == AllSymbols <==> Normal(symbol) == "ALL"
    ensures r == NoSymbols <==>
      IsBlank(symbol) || (Normal(symbol) != "ALL" && forall p :: p in Split(symbol, ',') ==> IsBlank(p))
    ensures r.Listed? ==> r.codes != []
    ensures r.Listed? ==>
      forall c :: c in r.codes <==> exists p :: p in Split(symbol, ',') && !IsBlank(p) && c == Normal(p)
  {
    if IsBlank(symbol) then NoSymbols
    else if Normal(symbol) == "ALL" then AllSymbols
    else
      var codes := ListedCodes(Split(symbol, ','));
      ListedCodesEmpty(Split(symbol, ','));
      ListedCodesMembers(Split(symbol, ','));
      if codes == [] then NoSymbols else Listed(codes)
  }

  /** Writing normal, comma-free codes joined by commas selects exactly
      those codes (the single code "ALL" excepted). */
  lemma SelectionRoundTrip(codes: seq<string>)
    requires codes != [] && codes != ["ALL"]
    requires forall k :: 0 <= k < |codes| ==> codes[k] != [] && ',' !in codes[k] && Normal(codes[k]) == codes[k]
    ensures ParseSelection(Join(codes, ',')) == Listed(codes)
  {
    var s := Join(codes, ',');
    SplitJoin(codes, ',');
    ListedCodesNormal(codes);
    assert ListedCodes(Split(s, ',')) == codes;
    JoinedListing(codes);
    ParseListed(s);
  }

  /** A selection that is neither blank nor "ALL" and leaves a code lists
      its codes. */
  lemma ParseListed(symbol: string)
    requires !IsBlank(symbol) && Normal(symbol) != "ALL" && ListedCodes(Split(symbol, ',')) != []
    ensures ParseSelection(symbol) == Listed(ListedCodes(Split(symbol, ',')))
  {
  }

  /** Normal, comma-free codes joined by commas are neither blank nor
      "ALL" (the single code "ALL" excepted). */
  lemma JoinedListing(codes: seq<string>)
    requires codes != [] && codes != ["ALL"]
    requires forall k :: 0 <= k < |codes| ==> codes[k] != [] && ',' !in codes[k] && Normal(codes[k]) == codes[k]
    ensures !IsBlank(Join(codes, ',')) && Normal(Join(codes, ',')) != "ALL"
  {
    var s := Join(codes, ',');
    JoinEnds(codes, ',');
    NormalOfNormal(codes[0]);
    NormalOfNormal(codes[|codes| - 1]);
    StripUntrimmed(s);
    NotAll(codes, s);
  }

  lemma NotAll(codes: seq<string>, s: string)
    requires codes != [] && codes != ["ALL"] && s == Join(codes, ',') && Strip(s) == s
    requires |codes| >= 2 ==> ',' in s
    requires |codes| == 1 ==> Normal(codes[0]) == codes[0]
    ensures Normal(s) != "ALL"
  {
    if |codes| == 1 {
      assert s == codes[0];
    } else {
      var i :| 0 <= i < |s| && s[i] == ',';
      var u := Upper(s);
      assert u[i] == ',';
      CommaNotAll(u, i);
    }
  }

  lemma CommaNotAll(t: string, i: nat)
    requires i < |t| && t[i] == ','
    ensures t != "ALL"
  {
  }

  // ---------------------------------------------------------------------
  // Symbol tables and the query
  // ---------------------------------------------------------------------

  /** A row of a symbol table; the name is NOT NULL, the exchange is not. */
  datatype SymbolRow = SymbolRow(symbolId: int, name: string, yahooSymbol: string, exchange: Option<string>, isActive: bool)

  /** The columns retrieve_symbols selects. */
  datatype Listing = Listing(symbolId: int, name: string, yahooSymbol: string)

  function ListingOf(row: SymbolRow): Listing {
    Listing(row.symbolId, row.name, row.yahooSymbol)
  }

  function Listings(rows: seq<SymbolRow>): (r: seq<Listing>)
    ensures |r| == |rows| && forall k :: 0 <= k < |rows| ==> r[k] == ListingOf(rows[k])
  {
    seq(|rows|, k requires 0 <= k < |rows| => ListingOf(rows[k]))
  }

  /** ORDER BY yahoo_symbol, compared code point by code point. */
  function ByYahoo(): (Listing, Listing) -> bool {
    (a: Listing, b: Listing) => StrLe(a.yahooSymbol, b.yahooSymbol)
  }

  lemma ByYahooOrder()
    ensures Sorting.Total(ByYahoo()) && Sorting.Transitive(ByYahoo())
  {
    var le := ByYahoo();
    forall a: Listing, b: Listing ensures le(a, b) || le(b, a) {
      StrLeTotal(a.yahooSymbol, b.yahooSymbol);
    }
    forall a: Listing, b: Listing, c: Listing | le(a, b) && le(b, c) ensures le(a, c) {
      StrLeTrans(a.yahooSymbol, b.yahooSymbol, c.yahooSymbol);
    }
  }

  /** An active row whose code is one of the listed ones. */
  function Chosen(codes: seq<string>): SymbolRow -> bool {
    (row: SymbolRow) => row.isActive && row.yahooSymbol in codes
  }

  /** The rows of the query, ordered by code; membership is kept. */
  function Ordered(rows: seq<SymbolRow>): (r: seq<Listing>)
    ensures Sorting.Sorted(r, ByYahoo())
    ensures forall x :: x in r <==> exists row :: row in rows && x == ListingOf(row)
  {
    var ls := Listings(rows);
    ByYahooOrder();
    Sorting.SortSorted(ls, ByYahoo());
    var r := Sorting.Sort(ls, ByYahoo());
    assert forall x :: x in r <==> x in ls by {
      forall x ensures x in r <==> x in ls {
        assert x in r <==> x in multiset(r);
        assert x in ls <==> x in multiset(ls);
      }
    }
    assert forall x :: x in ls <==> exists row :: row in rows && x == ListingOf(row) by {
      forall x | x in ls ensures exists row :: row in rows && x == ListingOf(row) {
        var k :| 0 <= k < |ls| && ls[k] == x;
        assert rows[k] in rows;
      }
      forall row | row in rows ensures ListingOf(row) in ls {
        var k :| 0 <= k < |rows| && rows[k] == row;
        assert ls[k] == ListingOf(row);
      }
    }
    r
  }

  /** retrieve_symbols: an unknown asset type, a missing table or an empty
      selection give nothing; "ALL" gives every row of the asset's symbol
      table; a list gives the active rows with a listed code. */
  function Retrieve(symbol: string, assetType: string, db: map<string, seq<SymbolRow>>): (r: seq<Listing>)
    ensures Registry.Lookup(assetType).None? ==> r == []
    ensures ParseSelection(symbol).NoSymbols? ==> r == []
    ensures Sorting.Sorted(r, ByYahoo())
    ensures Registry.Lookup(assetType).Some? && ParseSelection(symbol).AllSymbols? ==>
      var table := Registry.AssetTables(Registry.Lookup(assetType).value).symbols;
      forall x :: x in r <==> table in db && exists row :: row in db[table] && x == ListingOf(row)
    ensures Registry.Lookup(assetType).Some? && ParseSelection(symbol).Listed? ==>
      var table := Registry.AssetTables(Registry.Lookup(assetType).value).symbols;
      forall x :: x in r <==> table in db && exists row ::
        row in db[table] && row.isActive && row.yahooSymbol in ParseSelection(symbol).codes && x == ListingOf(row)
  {
    match Registry.Lookup(assetType)
    case None => []
    case Some(a) =>
      var table := Registry.AssetTables(a).symbols;
      if table !in db then []
      else
        match ParseSelection(symbol)
        case NoSymbols => []
        case AllSymbols => Ordered(db[table])
        case Listed(codes) => Ordered(Scanners.Filter(db[table], Chosen(codes)))
  }

  /** The list query as written: it filters on a column `symbol` that the
      symbol tables do not have, the database rejects the query, and the
      error is turned into an empty result. */
  function RetrieveAsWritten(symbol: string, assetType: string, db: map<string, seq<SymbolRow>>): (r: seq<Listing>)
    ensures ParseSelection(symbol).Listed? ==> r == []
    ensures !ParseSelection(symbol).Listed? ==> r == Retrieve(symbol, assetType, db)
  {
    if ParseSelection(symbol).Listed? then [] else Retrieve(symbol, assetType, db)
  }

  /** A listed code with an active row is found by the corrected query and
      lost by the query as written. */
  lemma ListedCodeLost(symbol: string, assetType: string, db: map<string, seq<SymbolRow>>, row: SymbolRow)
    requires Registry.Lookup(assetType).Some?
    requires Registry.AssetTables(Registry.Lookup(assetType).value).symbols in db
    requires row in db[Registry.AssetTables(Registry.Lookup(assetType).value).symbols]
    requires ParseSelection(symbol).Listed? && row.isActive && row.yahooSymbol in ParseSelection(symbol).codes
    ensures ListingOf(row) in Retrieve(symbol, assetType, db)
    ensures RetrieveAsWritten(symbol, assetType, db) == []
  {
  }

  // ---------------------------------------------------------------------
  // The CSV export and its records
  // ---------------------------------------------------------------------

  /** A symbol CSV as pandas reads it: header cells and rows of cells, None
      for a cell pandas reads as missing. */
  datatype SymbolCsv = SymbolCsv(columns: seq<string>, rows: seq<seq<Option<string>>>)

  datatype Record = Record(name: string, yahooSymbol: string, exchange: string)

  const Required: seq<string> := ["name", "yahoo_symbol", "exchange"]

  /** The header after `c.lower().strip()`. */
  function Header(columns: seq<string>): (r: seq<string>)
    ensures |r| == |columns| && forall k :: 0 <= k < |columns| ==> r[k] == Strip(Lower(columns[k]))
  {
    seq(|columns|, k requires 0 <= k < |columns| => Strip(Lower(columns[k])))
  }

  /** Position of the first column with the given name, or |cols|. */
  function ColumnOf(cols: seq<string>, c: string): (k: nat)
    ensures k <= |cols| && (k < |cols| <==> c in cols)
    ensures k < |cols| ==> cols[k] == c
  {
    if cols == [] then 0 else if cols[0] == c then 0 else 1 + ColumnOf(cols[1..], c)
  }

  function Cell(row: seq<Option<string>>, k: nat): Option<string> {
    if k < |row| then row[k] else None
  }

  /** The three cells of a row that the refresh reads. */
  datatype Raw = Raw(name: Option<string>, yahooSymbol: Option<string>, exchange: Option<string>)

  predicate Complete(r: Raw) {
    r.name.Some? && r.yahooSymbol.Some? && r.exchange.Some?
  }

  function RawOf(cols: seq<string>, row: seq<Option<string>>): Raw {
    Raw(Cell(row, ColumnOf(cols, "name")), Cell(row, ColumnOf(cols, "yahoo_symbol")), Cell(row, ColumnOf(cols, "exchange")))
  }

  function Raws(cols: seq<string>, rows: seq<seq<Option<string>>>): (r: seq<Raw>)
    ensures |r| == |rows| && forall k :: 0 <= k < |rows| ==> r[k] == RawOf(cols, rows[k])
  {
    seq(|rows|, k requires 0 <= k < |rows| => RawOf(cols, rows[k]))
  }

  /** drop_duplicates(): the first occurrence of each value survives. */
  function Distinct(s: seq<Raw>): (r: seq<Raw>)
    ensures |r| <= |s|
    ensures forall x :: x in r <==> x in s
    ensures forall i, j :: 0 <= i < j < |r| ==> r[i] != r[j]
    decreases |s|
  {
    if s == [] then []
    else
      var init := s[..|s| - 1];
      var d := Distinct(init);
      assert forall x :: x in s <==> x in init || x == s[|s| - 1] by {
        assert s == init + [s[|s| - 1]];
      }
      if s[|s| - 1] in init then d else d + [s[|s| - 1]]
  }

  function NormalRecord(r: Raw): Record
    requires Complete(r)
  {
    Record(Strip(r.name.value), Normal(r.yahooSymbol.value), Normal(r.exchange.value))
  }

  function NormalRecords(raws: seq<Raw>): (r: seq<Record>)
    requires forall k :: 0 <= k < |raws| ==> Complete(raws[k])
    ensures |r| == |raws| && forall k :: 0 <= k < |raws| ==> r[k] == NormalRecord(raws[k])
  {
    seq(|raws|, k requires 0 <= k < |raws| => NormalRecord(raws[k]))
  }

  /** A normalised record is its own normal form. */
  predicate IsNormal(rec: Record) {
    rec.name == Strip(rec.name) && rec.yahooSymbol == Normal(rec.yahooSymbol) && rec.exchange == Normal(rec.exchange)
  }

  lemma NormalRecordIsNormal(x: Raw)
    requires Complete(x)
    ensures IsNormal(NormalRecord(x))
  {
    StripIdempotent(x.name.value);
    NormalIdempotent(x.yahooSymbol.value);
    NormalIdempotent(x.exchange.value);
  }

  /** The records of a CSV export: an error when a required column is
      missing; otherwise the rows with all three cells present, duplicates
      dropped, the name stripped and the code and exchange stripped and
      upper-cased. */
  function RecordsOf(csv: SymbolCsv): (r: Result<seq<Record>>)
    ensures r.Err? <==> exists c :: c in Required && c !in Header(csv.columns)
    ensures r.Ok? ==> |r.value| <= |csv.rows|
    ensures r.Ok? ==> forall rec :: rec in r.value ==> IsNormal(rec)
    ensures r.Ok? ==> forall x :: x in Raws(Header(csv.columns), csv.rows) && Complete(x) ==> NormalRecord(x) in r.value
    ensures r.Ok? ==> forall rec :: rec in r.value ==>
      exists x :: x in Raws(Header(csv.columns), csv.rows) && Complete(x) && rec == NormalRecord(x)
  {
    var cols := Header(csv.columns);
    if exists c :: c in Required && c !in cols then Err("symbol CSV must have columns name, yahoo_symbol, exchange")
    else Ok(RecordsOfRaws(Raws(cols, csv.rows)))
  }

  function RecordsOfRaws(raws: seq<Raw>): (recs: seq<Record>)
    ensures |recs| <= |raws|
    ensures forall rec :: rec in recs ==> IsNormal(rec)
    ensures forall x :: x in raws && Complete(x) ==> NormalRecord(x) in recs
    ensures forall rec :: rec in recs ==> exists x :: x in raws && Complete(x) && rec == NormalRecord(x)
  {
    var kept := Distinct(Scanners.Filter(raws, (x: Raw) => Complete(x)));
    assert forall k :: 0 <= k < |kept| ==> kept[k] in kept;
    var recs := NormalRecords(kept);
    RecordsCover(kept, recs);
    RecordsFrom(kept, recs);
    recs
  }

  lemma RecordsCover(kept: seq<Raw>, recs: seq<Record>)
    requires forall k :: 0 <= k < |kept| ==> Complete(kept[k])
    requires |recs| == |kept| && forall k :: 0 <= k < |kept| ==> recs[k] == NormalRecord(kept[k])
    ensures forall x :: x in kept ==> NormalRecord(x) in recs
  {
    forall x | x in kept ensures NormalRecord(x) in recs {
      var i :| 0 <= i < |kept| && kept[i] == x;
      assert recs[i] == NormalRecord(x);
    }
  }

  lemma RecordsFrom(kept: seq<Raw>, recs: seq<Record>)
    requires forall k :: 0 <= k < |kept| ==> Complete(kept[k])
    requires |recs| == |kept| && forall k :: 0 <= k < |kept| ==> recs[k] == NormalRecord(kept[k])
    ensures forall rec :: rec in recs ==> IsNormal(rec) && exists x :: x in kept && Complete(x) && rec == NormalRecord(x)
  {
    forall rec | rec in recs ensures IsNormal(rec) && exists x :: x in kept && Complete(x) && rec == NormalRecord(x) {
      var i :| 0 <= i < |recs| && recs[i] == rec;
      assert kept[i] in kept;
      NormalRecordIsNormal(kept[i]);
    }
  }

  /** A normalised code normalises to itself. */
  lemma NormalIdempotent(s: string)
    ensures Normal(Normal(s)) == Normal(s)
  {
    var t := Strip(s);
    var u := Upper(t);
    if u != [] {
      assert !IsSpace(u[0]) && !IsSpace(u[|u| - 1]) by {
        assert u[0] == UpperChar(t[0]) && u[|u| - 1] == UpperChar(t[|t| - 1]);
      }
      StripUntrimmed(u);
    }
    UpperIdempotent(t);
  }

  // ---------------------------------------------------------------------
  // The three steps of a refresh, as functions of the table
  // ---------------------------------------------------------------------

  /** The table's rows and the next value of its symbol_id sequence. */
  datatype Store = Store(rows: seq<SymbolRow>, nextId: int)

  predicate Has(rows: seq<SymbolRow>, code: string) {
    exists k :: 0 <= k < |rows| && rows[k].yahooSymbol == code
  }

  /** The UNIQUE code and the SERIAL key: codes and ids are distinct and
      every id lies below the sequence's next value. */
  predicate Keyed(st: Store) {
    (forall i, j :: 0 <= i < j < |st.rows| ==>
       st.rows[i].yahooSymbol != st.rows[j].yahooSymbol && st.rows[i].symbolId != st.rows[j].symbolId)
    && forall i :: 0 <= i < |st.rows| ==> st.rows[i].symbolId < st.nextId
  }

  /** INSERT ... ON CONFLICT (yahoo_symbol) DO NOTHING for one record: a
      new code gets the next id, the record's fields and is_active's
      default TRUE. PostgreSQL draws the SERIAL default before it checks
      the conflict, so a conflicting record uses up an id too. */
  function InsertOne(st: Store, rec: Record): Store {
    if Has(st.rows, rec.yahooSymbol) then Store(st.rows, st.nextId + 1)
    else Store(st.rows + [SymbolRow(st.nextId, rec.name, rec.yahooSymbol, Some(rec.exchange), true)], st.nextId + 1)
  }

  function InsertAll(st: Store, recs: seq<Record>): Store
    decreases |recs|
  {
    if recs == [] then st else InsertOne(InsertAll(st, recs[..|recs| - 1]), recs[|recs| - 1])
  }

  /** One insert keeps the rows before it and the key constraints, and
      leaves the record's code in the table. */
  lemma InsertOneFacts(st: Store, rec: Record)
    ensures var r := InsertOne(st, rec);
      |st.rows| <= |r.rows| <= |st.rows| + 1 && r.rows[..|st.rows|] == st.rows && r.nextId == st.nextId + 1
      && Has(r.rows, rec.yahooSymbol)
      && (Keyed(st) ==> Keyed(r))
      && (|r.rows| > |st.rows| ==>
            !Has(st.rows, rec.yahooSymbol)
            && r.rows[|st.rows|] == SymbolRow(st.nextId, rec.name, rec.yahooSymbol, Some(rec.exchange), true))
  {
    if !Has(st.rows, rec.yahooSymbol) {
      var r := InsertOne(st, rec);
      assert r.rows[|st.rows|].yahooSymbol == rec.yahooSymbol;
    }
  }

  /** The inserts keep every existing row as it is and the key
      constraints. */
  lemma {:induction false} InsertAllKeeps(st: Store, recs: seq<Record>)
    ensures var r := InsertAll(st, recs);
      |st.rows| <= |r.rows| && r.rows[..|st.rows|] == st.rows && r.nextId == st.nextId + |recs|
      && (Keyed(st) ==> Keyed(r))
    decreases |recs|
  {
    if recs != [] {
      var m := InsertAll(st, recs[..|recs| - 1]);
      InsertAllKeeps(st, recs[..|recs| - 1]);
      InsertOneFacts(m, recs[|recs| - 1]);
      var r := InsertOne(m, recs[|recs| - 1]);
      assert r.rows[..|st.rows|] == r.rows[..|m.rows|][..|st.rows|];
    }
  }

  /** After the inserts every record's code is in the table. */
  lemma {:induction false} InsertAllHas(st: Store, recs: seq<Record>)
    ensures forall rec :: rec in recs ==> Has(InsertAll(st, recs).rows, rec.yahooSymbol)
    decreases |recs|
  {
    if recs != [] {
      var init := recs[..|recs| - 1];
      var m := InsertAll(st, init);
      InsertAllHas(st, init);
      InsertOneFacts(m, recs[|recs| - 1]);
      var r := InsertOne(m, recs[|recs| - 1]);
      forall rec | rec in recs ensures Has(r.rows, rec.yahooSymbol) {
        if rec in init {
          var k :| 0 <= k < |m.rows| && m.rows[k].yahooSymbol == rec.yahooSymbol;
          assert r.rows[k] == m.rows[k];
        } else {
          assert recs == init + [recs[|recs| - 1]];
        }
      }
    }
  }

  /** A row the inserts add carries a code the table did not have, and a
      record's name, code and exchange. */
  lemma {:induction false} InsertAllNew(st: Store, recs: seq<Record>)
    ensures var r := InsertAll(st, recs);
      forall k :: |st.rows| <= k < |r.rows| ==>
        !Has(st.rows, r.rows[k].yahooSymbol)
        && exists rec :: rec in recs && r.rows[k] == SymbolRow(r.rows[k].symbolId, rec.name, rec.yahooSymbol, Some(rec.exchange), true)
    decreases |recs|
  {
    if recs != [] {
      var init := recs[..|recs| - 1];
      var rec := recs[|recs| - 1];
      var m := InsertAll(st, init);
      InsertAllNew(st, init);
      InsertAllKeeps(st, init);
      InsertOneFacts(m, rec);
      var r := InsertOne(m, rec);
      assert forall x :: x in init ==> x in recs;
      assert rec in recs;
      forall k | |st.rows| <= k < |r.rows|
        ensures !Has(st.rows, r.rows[k].yahooSymbol)
      {
        if k != |m.rows| {
          assert r.rows[k] == m.rows[k];
        }
      }
    }
  }

  /** name or exchange IS NULL or empty. */
  predicate Missing(row: SymbolRow) {
    row.name == "" || row.exchange.None? || row.exchange == Some("")
  }

  /** UPDATE ... SET name, exchange WHERE yahoo_symbol = code AND a field is
      missing, for one record. */
  function FillOne(rows: seq<SymbolRow>, rec: Record): (r: seq<SymbolRow>)
    ensures |r| == |rows|
    ensures forall k :: 0 <= k < |rows| ==> r[k] == (if rows[k].yahooSymbol == rec.yahooSymbol && Missing(rows[k])
      then rows[k].(name := rec.name, exchange := Some(rec.exchange)) else rows[k])
  {
    seq(|rows|, k requires 0 <= k < |rows| =>
      if rows[k].yahooSymbol == rec.yahooSymbol && Missing(rows[k])
      then rows[k].(name := rec.name, exchange := Some(rec.exchange)) else rows[k])
  }

  function FillAll(rows: seq<SymbolRow>, recs: seq<Record>): seq<SymbolRow>
    decreases |recs|
  {
    if recs == [] then rows else FillOne(FillAll(rows, recs[..|recs| - 1]), recs[|recs| - 1])
  }

  /** The fill step changes only name and exchange, only of rows with a
      missing field and a listed code, and takes them from a record with
      that code; a complete row keeps its name and exchange. */
  lemma {:induction false} FillAllFacts(rows: seq<SymbolRow>, recs: seq<Record>)
    ensures var r := FillAll(rows, recs);
      |r| == |rows|
      && (forall k :: 0 <= k < |rows| ==>
            r[k].symbolId == rows[k].symbolId && r[k].yahooSymbol == rows[k].yahooSymbol && r[k].isActive == rows[k].isActive)
      && (forall k :: 0 <= k < |rows| && !Missing(rows[k]) ==> r[k] == rows[k])
      && (forall k :: 0 <= k < |rows| && r[k] != rows[k] ==>
            exists rec :: rec in recs && rec.yahooSymbol == rows[k].yahooSymbol && r[k].name == rec.name
              && r[k].exchange == Some(rec.exchange))
    decreases |recs|
  {
    if recs != [] {
      var init := recs[..|recs| - 1];
      var rec := recs[|recs| - 1];
      FillAllFacts(rows, init);
      assert forall x :: x in init ==> x in recs;
      assert rec in recs;
    }
  }

  /** UPDATE ... SET is_active = TRUE WHERE yahoo_symbol = code, for one
      record. */
  function ReactivateOne(rows: seq<SymbolRow>, rec: Record): (r: seq<SymbolRow>)
    ensures |r| == |rows|
    ensures forall k :: 0 <= k < |rows| ==> r[k] == (if rows[k].yahooSymbol == rec.yahooSymbol then rows[k].(isActive := true) else rows[k])
  {
    seq(|rows|, k requires 0 <= k < |rows| =>
      if rows[k].yahooSymbol == rec.yahooSymbol then rows[k].(isActive := true) else rows[k])
  }

  function ReactivateAll(rows: seq<SymbolRow>, recs: seq<Record>): seq<SymbolRow>
    decreases |recs|
  {
    if recs == [] then rows else ReactivateOne(ReactivateAll(rows, recs[..|recs| - 1]), recs[|recs| - 1])
  }

  /** Reactivation sets is_active on exactly the listed codes' rows and
      changes nothing else. */
  lemma {:induction false} ReactivateAllFacts(rows: seq<SymbolRow>, recs: seq<Record>)
    ensures var r := ReactivateAll(rows, recs);
      |r| == |rows|
      && forall k :: 0 <= k < |rows| ==>
        r[k] == (if exists rec :: rec in recs && rec.yahooSymbol == rows[k].yahooSymbol then rows[k].(isActive := true) else rows[k])
    decreases |recs|
  {
    if recs != [] {
      var init := recs[..|recs| - 1];
      var rec := recs[|recs| - 1];
      ReactivateAllFacts(rows, init);
      assert forall x :: x in recs <==> x in init || x == rec by {
        assert recs == init + [rec];
      }
    }
  }

  /** The three statements of a refresh: insert, fill, and reactivate when
      the table has an is_active column. */
  function Steps(st: Store, hasIsActive: bool, recs: seq<Record>): Store {
    var ins := InsertAll(st, recs);
    var filled := FillAll(ins.rows, recs);
    Store(if hasIsActive then ReactivateAll(filled, recs) else filled, ins.nextId)
  }

  /** Rows with the same ids and codes in the same places keep the key
      constraints. */
  lemma KeyedSameKeys(a: seq<SymbolRow>, b: seq<SymbolRow>, id: int)
    requires Keyed(Store(a, id)) && |a| == |b|
    requires forall k :: 0 <= k < |a| ==> a[k].symbolId == b[k].symbolId && a[k].yahooSymbol == b[k].yahooSymbol
    ensures Keyed(Store(b, id))
  {
  }

  /** A refresh loses no row, keeps every row's id and code and the key
      constraints, and overwrites no complete row's name or exchange. */
  lemma StepsKeep(st: Store, hasIsActive: bool, recs: seq<Record>)
    requires Keyed(st)
    ensures var r := Steps(st, hasIsActive, recs);
      Keyed(r) && |st.rows| <= |r.rows|
      && (forall k :: 0 <= k < |st.rows| ==>
            r.rows[k].symbolId == st.rows[k].symbolId && r.rows[k].yahooSymbol == st.rows[k].yahooSymbol)
      && (forall k :: 0 <= k < |st.rows| && !Missing(st.rows[k]) ==>
            r.rows[k].name == st.rows[k].name && r.rows[k].exchange == st.rows[k].exchange)
  {
    InsertAllKeeps(st, recs);
    var ins := InsertAll(st, recs);
    FillAllFacts(ins.rows, recs);
    var filled := FillAll(ins.rows, recs);
    ReactivateAllFacts(filled, recs);
    assert forall k :: 0 <= k < |st.rows| ==> ins.rows[k] == st.rows[k];
    KeyedSameKeys(ins.rows, filled, ins.nextId);
    var r := Steps(st, hasIsActive, recs);
    KeyedSameKeys(filled, r.rows, ins.nextId);
  }

  /** After a refresh every record's code is in the table, and active when
      the table has an is_active column. */
  lemma StepsHas(st: Store, hasIsActive: bool, recs: seq<Record>)
    ensures var r := Steps(st, hasIsActive, recs);
      forall rec :: rec in recs ==>
        exists k :: 0 <= k < |r.rows| && r.rows[k].yahooSymbol == rec.yahooSymbol && (hasIsActive ==> r.rows[k].isActive)
  {
    InsertAllHas(st, recs);
    var ins := InsertAll(st, recs);
    FillAllFacts(ins.rows, recs);
    var filled := FillAll(ins.rows, recs);
    ReactivateAllFacts(filled, recs);
    var r := Steps(st, hasIsActive, recs);
    forall rec | rec in recs
      ensures exists k :: 0 <= k < |r.rows| && r.rows[k].yahooSymbol == rec.yahooSymbol && (hasIsActive ==> r.rows[k].isActive)
    {
      var k :| 0 <= k < |ins.rows| && ins.rows[k].yahooSymbol == rec.yahooSymbol;
      assert r.rows[k].yahooSymbol == rec.yahooSymbol;
    }
  }

  /** refresh_one_symbol_table on the table's state: a CSV that cannot be
      read or lacks a column is an error and changes nothing; no records
      is no write; otherwise the three statements run and the number is
      the count of records. */
  function Refreshed(st: Store, hasIsActive: bool, csv: Option<SymbolCsv>): (r: (Result<nat>, Store))
    ensures r.0.Err? <==> csv.None? || RecordsOf(csv.value).Err?
    ensures r.0.Err? || r.0 == Ok(0) ==> r.1 == st
    ensures r.0.Ok? ==> r.0.value == |RecordsOf(csv.value).value|
    ensures r.0.Ok? && r.0.value > 0 ==> r.1 == Steps(st, hasIsActive, RecordsOf(csv.value).value)
  {
    if csv.None? then (Err("failed to read symbol CSV"), st)
    else
      match RecordsOf(csv.value)
      case Err(e) => (Err(e), st)
      case Ok(recs) =>
        if recs == [] then (Ok(0), st)
        else (Ok(|recs|), Steps(st, hasIsActive, recs))
  }

  // ---------------------------------------------------------------------
  // The table, updated in place
  // ---------------------------------------------------------------------

  class SymbolTable {
    var rows: seq<SymbolRow>
    var nextId: int
    /** Whether the table has an is_active column. */
    const hasIsActive: bool

    function State(): Store
      reads this
    {
      Store(rows, nextId)
    }

    constructor (hasIsActive: bool)
      ensures rows == [] && nextId == 1 && this.hasIsActive == hasIsActive
    {
      rows := [];
      nextId := 1;
      this.hasIsActive := hasIsActive;
    }

    method InsertRecords(recs: seq<Record>)
      modifies this
      ensures State() == InsertAll(old(State()), recs)
    {
      ghost var st := State();
      for j := 0 to |recs|
        invariant State() == InsertAll(st, recs[..j])
      {
        assert recs[..j + 1][..j] == recs[..j];
        var rec := recs[j];
        var present := false;
        for k := 0 to |rows|
          invariant present <==> exists i :: 0 <= i < k && rows[i].yahooSymbol == rec.yahooSymbol
        {
          if rows[k].yahooSymbol == rec.yahooSymbol {
            present := true;
          }
        }
        if !present {
          rows := rows + [SymbolRow(nextId, rec.name, rec.yahooSymbol, Some(rec.exchange), true)];
        }
        nextId := nextId + 1;
      }
      assert recs[..|recs|] == recs;
    }

    method FillRecords(recs: seq<Record>)
      modifies this
      ensures rows == FillAll(old(rows), recs) && nextId == old(nextId)
    {
      ghost var start := rows;
      for j := 0 to |recs|
        invariant rows == FillAll(start, recs[..j]) && nextId == old(nextId)
      {
        assert recs[..j + 1][..j] == recs[..j];
        rows := FillOne(rows, recs[j]);
      }
      assert recs[..|recs|] == recs;
    }

    method ReactivateRecords(recs: seq<Record>)
      modifies this
      ensures rows == ReactivateAll(old(rows), recs) && nextId == old(nextId)
    {
      ghost var start := rows;
      for j := 0 to |recs|
        invariant rows == ReactivateAll(start, recs[..j]) && nextId == old(nextId)
      {
        assert recs[..j + 1][..j] == recs[..j];
        rows := ReactivateOne(rows, recs[j]);
      }
      assert recs[..|recs|] == recs;
    }

    /** refresh_one_symbol_table. */
    method Refresh(csv: Option<SymbolCsv>) returns (res: Result<nat>)
      modifies this
      ensures (res, State()) == Refreshed(old(State()), hasIsActive, csv)
    {
      if csv.None? {
        return Err("failed to read symbol CSV");
      }
      var got := RecordsOf(csv.value);
      if got.Err? {
        return Err(got.error);
      }
      var recs := got.value;
      if recs == [] {
        return Ok(0);
      }
      InsertRecords(recs);
      FillRecords(recs);
      if hasIsActive {
        ReactivateRecords(recs);
      }
      res := Ok(|recs|);
    }
  }

  /** The CSV of a configured path, None when the file cannot be read. */
  function CsvAt(files: map<string, SymbolCsv>, path: string): Option<SymbolCsv> {
    if path in files then Some(files[path]) else None
  }

  /** The state of each table. */
  ghost function StatesOf(tables: seq<SymbolTable>): (r: seq<Store>)
    reads set t | t in tables
    ensures |r| == |tables| && forall k :: 0 <= k < |tables| ==> r[k] == tables[k].State()
  {
    if tables == [] then [] else StatesOf(tables[..|tables| - 1]) + [tables[|tables| - 1].State()]
  }

  /** The CSV path of each configured table. */
  function Paths(sources: seq<(string, string)>): (r: seq<string>)
    ensures |r| == |sources| && forall k :: 0 <= k < |sources| ==> r[k] == sources[k].1
  {
    if sources == [] then [] else Paths(sources[..|sources| - 1]) + [sources[|sources| - 1].1]
  }

  /** The state each table is refreshed to from the CSV at its path. */
  ghost function Targets(tables: seq<SymbolTable>, states: seq<Store>, paths: seq<string>, files: map<string, SymbolCsv>): (r: seq<Store>)
    requires |tables| == |states| == |paths|
    ensures |r| == |tables| && forall k :: 0 <= k < |tables| ==>
      r[k] == Refreshed(states[k], tables[k].hasIsActive, CsvAt(files, paths[k])).1
  {
    if tables == [] then []
    else
      var n := |tables| - 1;
      Targets(tables[..n], states[..n], paths[..n], files)
        + [Refreshed(states[n], tables[n].hasIsActive, CsvAt(files, paths[n])).1]
  }

  /** refresh_symbols: every configured table is refreshed from its CSV in
      turn; an error in one table leaves that table as it was and the
      remaining tables are still refreshed. */
  method RefreshSymbols(tables: seq<SymbolTable>, files: map<string, SymbolCsv>)
    requires |tables| == |Registry.SymbolSources|
    requires forall i, j :: 0 <= i < j < |tables| ==> tables[i] != tables[j]
    modifies set t | t in tables
    ensures forall i :: 0 <= i < |tables| ==>
      tables[i].State() == Refreshed(old(tables[i].State()), tables[i].hasIsActive,
                                     CsvAt(files, Registry.SymbolSources[i].1)).1
  {
    ghost var olds := StatesOf(tables);
    var paths := Paths(Registry.SymbolSources);
    ghost var goal := Targets(tables, olds, paths, files);
    for i := 0 to |tables|
      invariant forall k :: 0 <= k < i ==> tables[k].State() == goal[k]
      invariant forall k :: i <= k < |tables| ==> tables[k].State() == olds[k]
    {
      var _ := tables[i].Refresh(CsvAt(files, paths[i]));
    }
  }

  // ---------------------------------------------------------------------
  // The latest trading date
  // ---------------------------------------------------------------------

  /** The columns of a price row the query reads. */
  datatype PriceStamp = PriceStamp(timeframe: string, date: int, isActive: bool)

  /** The asset types whose query adds `is_active = TRUE`: india_equity,
      usa_equity and india_index (the fourth name in the source's set,
      usa_index, is not a registry key). */
  predicate ActiveFiltered(a: Registry.Asset) {
    a.IndiaEquity? || a.UsaEquity? || a.IndiaIndex?
  }

  function MaxDate(ds: seq<int>): (m: int)
    requires ds != []
    ensures m in ds && forall d :: d in ds ==> d <= m
  {
    if |ds| == 1 then ds[0]
    else
      var rest := MaxDate(ds[1..]);
      assert forall d :: d in ds ==> d == ds[0] || d in ds[1..];
      if ds[0] >= rest then ds[0] else rest
  }

  function Dates(rows: seq<PriceStamp>, timeframe: string, activeOnly: bool): (r: seq<int>)
    ensures forall d :: d in r <==> exists row ::
      row in rows && row.timeframe == timeframe && (activeOnly ==> row.isActive) && d == row.date
  {
    if rows == [] then []
    else
      assert forall x :: x in rows <==> x == rows[0] || x in rows[1..];
      (if rows[0].timeframe == timeframe && (activeOnly ==> rows[0].isActive) then [rows[0].date] else [])
        + Dates(rows[1..], timeframe, activeOnly)
  }

  lemma DatesHas(rows: seq<PriceStamp>, timeframe: string, activeOnly: bool)
    ensures forall row :: row in rows && row.timeframe == timeframe && (activeOnly ==> row.isActive) ==>
      row.date in Dates(rows, timeframe, activeOnly)
  {
  }

  /** The latest date of the timeframe's rows of an asset's price table,
      counting only active rows when the query filters on is_active. */
  ghost predicate IsLatest(a: Registry.Asset, timeframe: string, db: map<string, seq<PriceStamp>>, d: int) {
    var table := Registry.AssetTables(a).price;
    table in db
    && (exists row :: row in db[table] && row.timeframe == timeframe && (ActiveFiltered(a) ==> row.isActive) && row.date == d)
    && forall row :: row in db[table] && row.timeframe == timeframe && (ActiveFiltered(a) ==> row.isActive) ==> row.date <= d
  }

  /** get_latest_trading_date: an unknown asset type is an error raised
      before any query; a query the database rejects (a missing table, or
      an is_active filter on a price table without that column) gives no
      date; otherwise the latest date of the timeframe's rows, if any. */
  function LatestTradingDate(assetType: string, timeframe: string, db: map<string, seq<PriceStamp>>,
                             activeColumn: bool): (r: Result<Option<int>>)
    ensures r.Err? <==> Registry.Lookup(assetType).None?
    ensures r.Ok? && ActiveFiltered(Registry.Lookup(assetType).value) && !activeColumn ==> r.value.None?
    ensures r.Ok? && r.value.Some? ==> IsLatest(Registry.Lookup(assetType).value, timeframe, db, r.value.value)
    ensures r.Ok? && r.value.None? && (!ActiveFiltered(Registry.Lookup(assetType).value) || activeColumn) ==>
      forall d :: !IsLatest(Registry.Lookup(assetType).value, timeframe, db, d)
  {
    match Registry.Lookup(assetType)
    case None => Err("Unsupported asset_type: " + assetType)
    case Some(a) =>
      var table := Registry.AssetTables(a).price;
      if table !in db || (ActiveFiltered(a) && !activeColumn) then Ok(None)
      else
        var ds := Dates(db[table], timeframe, ActiveFiltered(a));
        DatesHas(db[table], timeframe, ActiveFiltered(a));
        if ds == [] then Ok(None) else Ok(Some(MaxDate(ds)))
  }
}
