/** The per-symbol trading rules of the Binance crypto agent: which pairs it
    trades, how many fractional digits quantities and prices keep, the
    smallest order quantity and the price tick. Every lookup except the one in
    position formatting upper-cases the symbol first. */
module SymbolRules {
  import opened Decimals
  import opened Options

  /** Fractional digits kept for quantities and for prices. */
  datatype Precision = Precision(quantity: nat, price: nat)

  /** The record get_crypto_market_info returns for a supported pair. */
  datatype MarketInfo = MarketInfo(
    symbol: string,
    precision: Precision,
    minQuantity: real,
    priceTickSize: real,
    isActive: bool)

  /** str.upper on one character, for every character whose upper-case form
      is a single ASCII character; any other character is left unchanged. */
  function UpperChar(c: char): char
  {
    if 'a' <= c <= 'z' then (c as int - 32) as char
    else if c == '\U{0131}' then 'I'  // dotless i
    else if c == '\U{017F}' then 'S'  // long s
    else c
  }

  /** str.lower on ASCII letters; any other character is left unchanged. */
  function LowerChar(c: char): char
  {
    if 'A' <= c <= 'Z' then (c as int + 32) as char else c
  }

  function Upper(s: string): (r: string)
    ensures |r| == |s|
  {
    if s == [] then [] else [UpperChar(s[0])] + Upper(s[1..])
  }

  function Lower(s: string): (r: string)
    ensures |r| == |s|
  {
    if s == [] then [] else [LowerChar(s[0])] + Lower(s[1..])
  }

  /** The pairs the agent trades, in its own order. */
  const TradingPairs: seq<string> := [
    "BTCUSDT", "ETHUSDT", "BNBUSDT", "ADAUSDT", "DOTUSDT",
    "XRPUSDT", "LTCUSDT", "LINKUSDT", "BCHUSDT", "XLMUSDT"]

  const PrecisionTable: map<string, Precision> := map[
    "BTCUSDT" := Precision(6, 2),
    "ETHUSDT" := Precision(5, 2),
    "BNBUSDT" := Precision(4, 2),
    "ADAUSDT" := Precision(0, 4),
    "DOTUSDT" := Precision(3, 3),
    "XRPUSDT" := Precision(1, 4),
    "LTCUSDT" := Precision(3, 2),
    "LINKUSDT" := Precision(2, 3),
    "BCHUSDT" := Precision(3, 2),
    "XLMUSDT" := Precision(1, 5)]

  const DefaultPrecision := Precision(6, 2)

  const MinQuantityTable: map<string, real> := map[
    "BTCUSDT" := 0.000001,
    "ETHUSDT" := 0.00001,
    "BNBUSDT" := 0.0001,
    "ADAUSDT" := 1.0,
    "DOTUSDT" := 0.001,
    "XRPUSDT" := 0.1,
    "LTCUSDT" := 0.001,
    "LINKUSDT" := 0.01,
    "BCHUSDT" := 0.001,
    "XLMUSDT" := 0.1]

  const DefaultMinQuantity: real := 0.000001

  /** How Python prints each minimum quantity (the repr of the float). */
  const MinQuantityTextTable: map<string, string> := map[
    "BTCUSDT" := "1e-06",
    "ETHUSDT" := "1e-05",
    "BNBUSDT" := "0.0001",
    "ADAUSDT" := "1.0",
    "DOTUSDT" := "0.001",
    "XRPUSDT" := "0.1",
    "LTCUSDT" := "0.001",
    "LINKUSDT" := "0.01",
    "BCHUSDT" := "0.001",
    "XLMUSDT" := "0.1"]

  const DefaultMinQuantityText: string := "1e-06"

  const TickSizeTable: map<string, real> := map[
    "BTCUSDT" := 0.01,
    "ETHUSDT" := 0.01,
    "BNBUSDT" := 0.01,
    "ADAUSDT" := 0.0001,
    "DOTUSDT" := 0.001,
    "XRPUSDT" := 0.0001,
    "LTCUSDT" := 0.01,
    "LINKUSDT" := 0.001,
    "BCHUSDT" := 0.01,
    "XLMUSDT" := 0.00001]

  const DefaultTickSize: real := 0.01

  /** validate_crypto_symbol: the upper-cased symbol is a traded pair. The
      pairs are exactly the keys of the precision table (SupportedIffListed),
      whose membership test is cheaper to reason about than the list's. */
  predicate IsSupported(symbol: string)
  {
    Upper(symbol) in PrecisionTable
  }

  /** get_crypto_precision: never fails, falling back to (6, 2). */
  function GetPrecision(symbol: string): (r: Precision)
    ensures IsSupported(symbol) ==> r == PrecisionTable[Upper(symbol)]
    ensures !IsSupported(symbol) ==> r == DefaultPrecision
  {
    var s := Upper(symbol);
    if s in PrecisionTable then PrecisionTable[s] else DefaultPrecision
  }

  /** get_min_quantity: never fails, falling back to 0.000001. */
  function GetMinQuantity(symbol: string): (r: real)
    ensures r > 0.0
    ensures !IsSupported(symbol) ==> r == DefaultMinQuantity
  {
    TablesCoverPairs();
    var s := Upper(symbol);
    if s in MinQuantityTable then MinQuantityTable[s] else DefaultMinQuantity
  }

  /** The printed form of GetMinQuantity(symbol). */
  function MinQuantityText(symbol: string): (r: string)
    ensures !IsSupported(symbol) ==> r == DefaultMinQuantityText
  {
    TablesCoverPairs();
    var s := Upper(symbol);
    if s in MinQuantityTextTable then MinQuantityTextTable[s] else DefaultMinQuantityText
  }

  /** get_price_tick_size: never fails, falling back to 0.01. */
  function GetPriceTickSize(symbol: string): (r: real)
    ensures r > 0.0
    ensures !IsSupported(symbol) ==> r == DefaultTickSize
  {
    TablesCoverPairs();
    var s := Upper(symbol);
    if s in TickSizeTable then TickSizeTable[s] else DefaultTickSize
  }

  /** get_crypto_market_info: the empty dict for an unsupported symbol. */
  function GetMarketInfo(symbol: string): (r: Option<MarketInfo>)
    ensures r.Some? <==> IsSupported(symbol)
    ensures r.Some? ==> r.value.symbol == Upper(symbol) && r.value.symbol in TradingPairs && r.value.isActive
    ensures r.Some? ==> r.value.precision == GetPrecision(symbol)
    ensures r.Some? ==> r.value.minQuantity == GetMinQuantity(symbol)
    ensures r.Some? ==> r.value.priceTickSize == GetPriceTickSize(symbol)
    ensures r.Some? ==> r.value.minQuantity == Unit(r.value.precision.quantity)
    ensures r.Some? ==> r.value.priceTickSize == Unit(r.value.precision.price)
  {
    if !IsSupported(symbol) then None
    else
      TablesAgree(symbol);
      Some(MarketInfo(Upper(symbol), GetPrecision(symbol), GetMinQuantity(symbol),
                      GetPriceTickSize(symbol), true))
  }

  lemma UpperCharIdempotent(c: char)
    ensures UpperChar(UpperChar(c)) == UpperChar(c)
  {
  }

  /** Upper-casing twice is upper-casing once. */
  lemma {:induction false} UpperIdempotent(s: string)
    ensures Upper(Upper(s)) == Upper(s)
  {
    if s != [] {
      UpperIdempotent(s[1..]);
      UpperCharIdempotent(s[0]);
      assert Upper(s)[1..] == Upper(s[1..]);
    }
  }

  /** Every rule looks the symbol up case-insensitively. */
  lemma CaseInsensitive(symbol: string)
    ensures IsSupported(symbol) <==> IsSupported(Upper(symbol))
    ensures GetPrecision(symbol) == GetPrecision(Upper(symbol))
    ensures GetMinQuantity(symbol) == GetMinQuantity(Upper(symbol))
    ensures GetPriceTickSize(symbol) == GetPriceTickSize(Upper(symbol))
    ensures GetMarketInfo(symbol) == GetMarketInfo(Upper(symbol))
  {
    UpperIdempotent(symbol);
  }

  /** A string of upper-case ASCII letters is its own upper-case form. */
  lemma {:induction false} UpperOfUpperAscii(s: string)
    requires forall i :: 0 <= i < |s| ==> 'A' <= s[i] <= 'Z'
    ensures Upper(s) == s
  {
    if s != [] {
      UpperOfUpperAscii(s[1..]);
    }
  }

  /** Each traded pair is written in upper case, so it is supported as listed. */
  lemma PairsUpper(p: string)
    requires p in TradingPairs
    ensures Upper(p) == p && IsSupported(p)
  {
    assert forall j :: 0 <= j < |p| ==> 'A' <= p[j] <= 'Z';
    UpperOfUpperAscii(p);
  }

  /** For a supported symbol, the case-sensitive table lookup of position
      formatting hits exactly when the symbol is already in upper case. */
  lemma ExactKeyIffUpper(symbol: string)
    requires IsSupported(symbol)
    ensures symbol in PrecisionTable <==> symbol == Upper(symbol)
  {
    TablesCoverPairs();
    if symbol in PrecisionTable {
      PairsUpper(symbol);
    }
  }

  /** The four tables are keyed by exactly the traded pairs. */
  lemma TablesCoverPairs()
    ensures PrecisionTable.Keys == MinQuantityTable.Keys == TickSizeTable.Keys
    ensures MinQuantityTable.Keys == MinQuantityTextTable.Keys
    ensures forall p :: p in PrecisionTable <==> p in TradingPairs
  {
  }

  lemma UnitValues()
    ensures Unit(0) == 1.0 && Unit(1) == 0.1 && Unit(2) == 0.01
    ensures Unit(3) == 0.001 && Unit(4) == 0.0001 && Unit(5) == 0.00001
    ensures Unit(6) == 0.000001
  {
    assert Pow10(6) == 1000000;
  }

  /** The minimum quantity is one step at the quantity precision and the tick
      is one step at the price precision, for every symbol, the defaults
      included. */
  lemma TablesAgree(symbol: string)
    ensures GetMinQuantity(symbol) == Unit(GetPrecision(symbol).quantity)
    ensures GetPriceTickSize(symbol) == Unit(GetPrecision(symbol).price)
  {
    UnitValues();
    TablesCoverPairs();
  }

  /** A symbol is supported exactly when its upper-case form is in the list
      of traded pairs. */
  lemma SupportedIffListed(symbol: string)
    ensures IsSupported(symbol) <==> Upper(symbol) in TradingPairs
  {
    TablesCoverPairs();
  }

  /** An unsupported symbol gets the defaults (6, 2), 0.000001 and 0.01. */
  lemma UnsupportedDefaults(symbol: string)
    requires !IsSupported(symbol)
    ensures GetPrecision(symbol) == Precision(6, 2)
    ensures GetMinQuantity(symbol) == 0.000001 && MinQuantityText(symbol) == "1e-06"
    ensures GetPriceTickSize(symbol) == 0.01
    ensures GetMarketInfo(symbol) == None
  {
    TablesCoverPairs();
  }

  /** The printed minimum quantity matches the minimum quantity. */
  lemma MinQuantityTextAgrees(symbol: string)
    ensures MinQuantityText(symbol) == "1e-06" <==> GetMinQuantity(symbol) == 0.000001
  {
    TablesCoverPairs();
  }
}
