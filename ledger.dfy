/**
 The trade ledger and the price snapshot that the aggregation engine of
 script.js reads: trade records, the upper-casing of coin symbols and the
 price lookup that treats an unknown symbol as worth nothing.
 */
module Ledger {

  /** One trade of the ledger: `amount` units of `coin` bought at unit `price`. */
  datatype Trade = Trade(coin: string, amount: real, price: real, date: string, location: string)

  /** The live price snapshot, keyed by upper-case symbol. */
  type Prices = map<string, real>

  /** Upper-cases one ASCII letter and leaves every other character alone. */
  function UpperChar(c: char): (u: char)
    ensures 'a' <= c <= 'z' ==> 'A' <= u <= 'Z' && u as int + 32 == c as int
    ensures !('a' <= c <= 'z') ==> u == c
  {
    if 'a' <= c <= 'z' then (c as int - 32) as char else c
  }

  /** `coin.toUpperCase()`: the canonical symbol used for price and threshold lookups. */
  function Upper(s: string): (r: string)
    ensures |r| == |s|
    ensures forall i :: 0 <= i < |s| ==> r[i] == UpperChar(s[i])
  {
    if s == [] then [] else [UpperChar(s[0])] + Upper(s[1..])
  }

  /** Upper-casing a canonical symbol changes nothing. */
  lemma UpperIdempotent(s: string)
    ensures Upper(Upper(s)) == Upper(s)
  {
    var u := Upper(s);
    assert forall i :: 0 <= i < |u| ==> UpperChar(u[i]) == u[i];
    assert Upper(u) == u;
  }

  /** Two spellings that differ only in case share one canonical symbol. */
  lemma CaseVariantsShareSymbol()
    ensures Upper("xrp") == Upper("XRP") == Upper("Xrp") == "XRP"
  {
  }

  /** Every price of the snapshot is a non-negative number. */
  predicate ValidPrices(prices: Prices)
  {
    forall sym :: sym in prices ==> prices[sym] >= 0.0
  }

  /**
   `currentPrices[upper] || 0`: the current unit price of a coin, looked up by
   its canonical symbol; a symbol missing from the snapshot is priced at 0.
   */
  function PriceOf(prices: Prices, coin: string): (p: real)
    ensures Upper(coin) !in prices ==> p == 0.0
    ensures Upper(coin) in prices ==> p == prices[Upper(coin)]
    ensures ValidPrices(prices) ==> p >= 0.0
  {
    var upper := Upper(coin);
    if upper in prices then prices[upper] else 0.0
  }

  /** The current value of one trade: its amount at the current price of its symbol. */
  function TradeValue(t: Trade, prices: Prices): real
  {
    t.amount * PriceOf(prices, t.coin)
  }
}
