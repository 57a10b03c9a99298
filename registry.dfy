/** The asset registry: which tables belong to each asset class. Dictionary
    iteration order is insertion order, so the keys are kept as a sequence
    beside the maps. */
module Registry {
  import opened Wrappers

  /** (symbol table, price table, indicator table, 52-week stats table). */
  datatype Tables = Tables(symbols: string, price: string, indicators: string, stats: string)

  /** The seven keys of ASSET_TABLE_MAP. */
  datatype Asset = IndiaEquity | UsaEquity | IndiaIndex | GlobalIndex | Commodity | Crypto | Forex

  /** The keys in the dictionaries' insertion order. */
  const Assets: seq<Asset> := [IndiaEquity, UsaEquity, IndiaIndex, GlobalIndex, Commodity, Crypto, Forex]

  function Key(a: Asset): string {
    match a
    case IndiaEquity => "india_equity"
    case UsaEquity => "usa_equity"
    case IndiaIndex => "india_index"
    case GlobalIndex => "global_index"
    case Commodity => "commodity"
    case Crypto => "crypto"
    case Forex => "forex"
  }

  /** ASSET_TABLE_MAP. */
  function AssetTables(a: Asset): Tables {
    match a
    case IndiaEquity => Tables("india_equity_symbols", "india_equity_price_data", "india_equity_indicators", "india_equity_52week_stats")
    case UsaEquity => Tables("usa_equity_symbols", "usa_equity_price_data", "usa_equity_indicators", "usa_equity_52week_stats")
    case IndiaIndex => Tables("india_index_symbols", "india_index_price_data", "india_index_indicators", "india_index_52week_stats")
    case GlobalIndex => Tables("global_index_symbols", "global_index_price_data", "global_index_indicators", "global_index_52week_stats")
    case Commodity => Tables("commodity_symbols", "commodity_price_data", "commodity_indicators", "commodity_52week_stats")
    case Crypto => Tables("crypto_symbols", "crypto_price_data", "crypto_indicators", "crypto_52week_stats")
    case Forex => Tables("forex_symbols", "forex_price_data", "forex_indicators", "forex_52week_stats")
  }

  /** ASSET_PRICE_SYMBOL_MAP: (price table, symbol table). */
  function AssetPriceSymbol(a: Asset): (string, string) {
    match a
    case IndiaEquity => ("india_equity_price_data", "india_equity_symbols")
    case UsaEquity => ("usa_equity_price_data", "usa_equity_symbols")
    case IndiaIndex => ("india_index_price_data", "india_index_symbols")
    case GlobalIndex => ("global_index_price_data", "global_index_symbols")
    case Commodity => ("commodity_price_data", "commodity_symbols")
    case Crypto => ("crypto_price_data", "crypto_symbols")
    case Forex => ("forex_price_data", "forex_symbols")
  }

  /** SYMBOL_SOURCES: (symbol table, CSV file in the Yahoo symbols directory). */
  const SymbolSources: seq<(string, string)> := [
    ("india_equity_symbols", "india_equity_yahoo_symbols.csv"),
    ("usa_equity_symbols", "usa_equity_yahoo_symbols.csv"),
    ("india_index_symbols", "india_index_yahoo_symbols.csv"),
    ("global_index_symbols", "global_index_yahoo_symbols.csv"),
    ("commodity_symbols", "commodity_yahoo_symbols.csv"),
    ("crypto_symbols", "crypto_yahoo_symbols.csv"),
    ("forex_symbols", "forex_yahoo_symbols.csv")
  ]

  /** DATA_TABLES. */
  const DataTables: seq<string> := [
    "india_equity_price_data", "india_equity_indicators",
    "usa_equity_price_data", "usa_equity_indicators",
    "india_index_price_data", "india_index_indicators",
    "global_index_price_data", "global_index_indicators",
    "commodity_price_data", "commodity_indicators",
    "crypto_price_data", "crypto_indicators",
    "forex_price_data", "forex_indicators"
  ]

  /** The table names the naming convention gives an asset key. */
  function Conventional(k: string): Tables {
    Tables(k + "_symbols", k + "_price_data", k + "_indicators", k + "_52week_stats")
  }

  /** Dictionary lookup by key text; None is Python's KeyError. */
  function Lookup(k: string): (r: Option<Asset>)
    ensures r.Some? ==> Key(r.value) == k
    ensures r.None? ==> forall a :: Key(a) != k
  {
    if k == "india_equity" then Some(IndiaEquity)
    else if k == "usa_equity" then Some(UsaEquity)
    else if k == "india_index" then Some(IndiaIndex)
    else if k == "global_index" then Some(GlobalIndex)
    else if k == "commodity" then Some(Commodity)
    else if k == "crypto" then Some(Crypto)
    else if k == "forex" then Some(Forex)
    else None
  }

  lemma LookupKey(a: Asset)
    ensures Lookup(Key(a)) == Some(a)
  {
  }

  /** Every key's tables follow the naming convention, its symbol CSV is
      named after it, and the listing holds every key exactly once. */
  lemma {:induction false} RegistryConvention(a: Asset)
    ensures AssetTables(a) == Conventional(Key(a))
    ensures a in Assets && |Assets| == 7 && |SymbolSources| == 7
    ensures forall i, j :: 0 <= i < j < |Assets| ==> Assets[i] != Assets[j]
    ensures forall i :: 0 <= i < |Assets| && Assets[i] == a ==>
      SymbolSources[i] == (AssetTables(a).symbols, Key(a) + "_yahoo_symbols.csv")
  {
    match a
    case IndiaEquity => IndiaEquityNames(); IndiaEquityFiles();
    case UsaEquity => UsaEquityNames(); UsaEquityFiles();
    case IndiaIndex => IndiaIndexNames(); IndiaIndexFiles();
    case GlobalIndex => GlobalIndexNames(); GlobalIndexFiles();
    case Commodity => CommodityNames(); CommodityFiles();
    case Crypto => CryptoNames(); CryptoFiles();
    case Forex => ForexNames(); ForexFiles();
  }

  // Proof steps of RegistryConvention, one pair per key: Z3 needs each
  // literal concatenation in a proof of its own, as all of them together in
  // RegistryConvention's proof exceed the resource bound.

  lemma IndiaEquityNames()
    ensures "india_equity" + "_symbols" == "india_equity_symbols"
    ensures "india_equity" + "_price_data" == "india_equity_price_data"
    ensures "india_equity" + "_indicators" == "india_equity_indicators"
  {
  }

  lemma IndiaEquityFiles()
    ensures "india_equity" + "_52week_stats" == "india_equity_52week_stats"
    ensures "india_equity" + "_yahoo_symbols.csv" == "india_equity_yahoo_symbols.csv"
  {
  }

  lemma UsaEquityNames()
    ensures "usa_equity" + "_symbols" == "usa_equity_symbols"
    ensures "usa_equity" + "_price_data" == "usa_equity_price_data"
    ensures "usa_equity" + "_indicators" == "usa_equity_indicators"
  {
  }

  lemma UsaEquityFiles()
    ensures "usa_equity" + "_52week_stats" == "usa_equity_52week_stats"
    ensures "usa_equity" + "_yahoo_symbols.csv" == "usa_equity_yahoo_symbols.csv"
  {
  }

  lemma IndiaIndexNames()
    ensures "india_index" + "_symbols" == "india_index_symbols"
    ensures "india_index" + "_price_data" == "india_index_price_data"
    ensures "india_index" + "_indicators" == "india_index_indicators"
  {
  }

  lemma IndiaIndexFiles()
    ensures "india_index" + "_52week_stats" == "india_index_52week_stats"
    ensures "india_index" + "_yahoo_symbols.csv" == "india_index_yahoo_symbols.csv"
  {
  }

  lemma GlobalIndexNames()
    ensures "global_index" + "_symbols" == "global_index_symbols"
    ensures "global_index" + "_price_data" == "global_index_price_data"
    ensures "global_index" + "_indicators" == "global_index_indicators"
  {
  }

  lemma GlobalIndexFiles()
    ensures "global_index" + "_52week_stats" == "global_index_52week_stats"
    ensures "global_index" + "_yahoo_symbols.csv" == "global_index_yahoo_symbols.csv"
  {
  }

  lemma CommodityNames()
    ensures "commodity" + "_symbols" == "commodity_symbols"
    ensures "commodity" + "_price_data" == "commodity_price_data"
    ensures "commodity" + "_indicators" == "commodity_indicators"
  {
  }

  lemma CommodityFiles()
    ensures "commodity" + "_52week_stats" == "commodity_52week_stats"
    ensures "commodity" + "_yahoo_symbols.csv" == "commodity_yahoo_symbols.csv"
  {
  }

  lemma CryptoNames()
    ensures "crypto" + "_symbols" == "crypto_symbols"
    ensures "crypto" + "_price_data" == "crypto_price_data"
    ensures "crypto" + "_indicators" == "crypto_indicators"
  {
  }

  lemma CryptoFiles()
    ensures "crypto" + "_52week_stats" == "crypto_52week_stats"
    ensures "crypto" + "_yahoo_symbols.csv" == "crypto_yahoo_symbols.csv"
  {
  }

  lemma ForexNames()
    ensures "forex" + "_symbols" == "forex_symbols"
    ensures "forex" + "_price_data" == "forex_price_data"
    ensures "forex" + "_indicators" == "forex_indicators"
  {
  }

  lemma ForexFiles()
    ensures "forex" + "_52week_stats" == "forex_52week_stats"
    ensures "forex" + "_yahoo_symbols.csv" == "forex_yahoo_symbols.csv"
  {
  }

  /** SYMBOL_SOURCES lists the symbol table of every key, in key order. */
  lemma {:induction false} SymbolSourcesAgree()
    ensures |SymbolSources| == |Assets|
    ensures forall i :: 0 <= i < |Assets| ==>
      SymbolSources[i] == (AssetTables(Assets[i]).symbols, Key(Assets[i]) + "_yahoo_symbols.csv")
  {
    forall i | 0 <= i < |Assets|
      ensures SymbolSources[i] == (AssetTables(Assets[i]).symbols, Key(Assets[i]) + "_yahoo_symbols.csv")
    {
      RegistryConvention(Assets[i]);
    }
  }

  /** ASSET_PRICE_SYMBOL_MAP pairs each key's price table with its symbol
      table, as ASSET_TABLE_MAP names them. */
  lemma PriceSymbolAgrees(a: Asset)
    ensures AssetPriceSymbol(a) == (AssetTables(a).price, AssetTables(a).symbols)
  {
  }

  /** DATA_TABLES lists the price and indicator table of every key, in key
      order. */
  lemma DataTablesAgree()
    ensures |DataTables| == 2 * |Assets|
    ensures forall i :: 0 <= i < |Assets| ==>
      DataTables[2 * i] == AssetTables(Assets[i]).price
      && DataTables[2 * i + 1] == AssetTables(Assets[i]).indicators
  {
  }
}
