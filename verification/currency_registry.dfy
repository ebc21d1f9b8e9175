/** The backend's static currency tables and the lookups over them
    (backend/src/config/currency.ts). */
module CurrencyRegistry {
  import opened Common
  import opened Text

  datatype CurrencyConfig = CurrencyConfig(
    code: string,
    name: string,
    symbol: string,
    isStablecoin: bool,
    peggedTo: Option<string>)

  /** Which CoinGecko coin a currency is, and in which currency it is quoted. */
  datatype CoinGeckoMapping = CoinGeckoMapping(coinId: string, vsCurrency: string)

  const SupportedCurrencies: map<string, CurrencyConfig> := map[
    "TON" := CurrencyConfig("TON", "The Open Network", "TON", false, None),
    "USDT" := CurrencyConfig("USDT", "Tether USD", "USDT", true, Some("USD"))
  ]

  const CoinGeckoMappings: map<string, CoinGeckoMapping> := map[
    "TON" := CoinGeckoMapping("the-open-network", "usd"),
    "USDT" := CoinGeckoMapping("tether", "usd")
  ]

  /** The keys of `SupportedCurrencies`, in declaration order. */
  const SupportedCurrencyCodes: seq<string> := ["TON", "USDT"]

  /** The directed pairs the system serves, as an explicit list. */
  const SupportedCurrencyPairs: seq<string> := ["TON-USDT", "USDT-TON"]

  /** The textual pair name `from-to` used as a table key throughout: the
      `from` code, a dash, then the `to` code. */
  function PairKey(from: string, to: string): (k: string)
    ensures |k| == |from| + 1 + |to|
    ensures k[..|from|] == from && k[|from|] == '-' && k[|from| + 1..] == to
  {
    from + "-" + to
  }

  /** A pair name splits back into its two halves whenever the reference
      halves hold no dash, which is the case for every registered code. */
  lemma PairKeyMatches(from: string, to: string, x: string, y: string)
    requires '-' !in x && '-' !in y
    ensures PairKey(from, to) == PairKey(x, y) <==> from == x && to == y
  {
    if PairKey(from, to) == PairKey(x, y) {
      SplitAtSeparator(from, to, x, y, '-');
    }
  }

  /** The pair keys of the two served directions, spelled out. */
  lemma PairKeysSpelled()
    ensures PairKey("TON", "USDT") == "TON-USDT" && PairKey("USDT", "TON") == "USDT-TON"
  {
    var a, b := PairKey("TON", "USDT"), PairKey("USDT", "TON");
    assert |a| == 8 && forall i :: 0 <= i < 8 ==> a[i] == "TON-USDT"[i];
    assert |b| == 8 && forall i :: 0 <= i < 8 ==> b[i] == "USDT-TON"[i];
  }

  /** The code list and both tables describe the same two currencies, and
      every configuration is filed under its own code. */
  lemma TablesAgree()
    ensures (set c | c in SupportedCurrencyCodes) == SupportedCurrencies.Keys
    ensures CoinGeckoMappings.Keys == SupportedCurrencies.Keys
    ensures forall c :: c in SupportedCurrencies ==> SupportedCurrencies[c].code == c
  {
  }

  /** `isSupportedCurrency`: the code, upper-cased, is TON or USDT. */
  function IsSupportedCurrency(currency: string): (b: bool)
    ensures b <==> ToUpper(currency) in SupportedCurrencies
    ensures b <==> ToUpper(currency) == "TON" || ToUpper(currency) == "USDT"
  {
    ToUpper(currency) in SupportedCurrencyCodes
  }

  /** `isSupportedPair`: the upper-cased pair is one of the two listed
      directions, TON to USDT or USDT to TON. */
  function IsSupportedPair(from: string, to: string): (b: bool)
    ensures b <==>
      || (ToUpper(from) == "TON" && ToUpper(to) == "USDT")
      || (ToUpper(from) == "USDT" && ToUpper(to) == "TON")
  {
    var f, t := ToUpper(from), ToUpper(to);
    PairKeysSpelled();
    PairKeyMatches(f, t, "TON", "USDT");
    PairKeyMatches(f, t, "USDT", "TON");
    PairKey(f, t) in SupportedCurrencyPairs
  }

  /** No currency pairs with itself. */
  lemma NoPairIsReflexive(currency: string)
    ensures !IsSupportedPair(currency, currency)
  {
  }

  /** Both sides of every supported pair are supported currencies. */
  lemma PairsUseSupportedCurrencies(from: string, to: string)
    requires IsSupportedPair(from, to)
    ensures IsSupportedCurrency(from) && IsSupportedCurrency(to)
  {
  }

  /** `getCurrencyConfig`: the configuration filed under the upper-cased
      code; it carries exactly that code, and is absent for any other code. */
  function GetCurrencyConfig(currency: string): (r: Option<CurrencyConfig>)
    ensures r.Some? <==> IsSupportedCurrency(currency)
    ensures r.Some? ==> r.value.code == ToUpper(currency)
  {
    var key := ToUpper(currency);
    if key in SupportedCurrencies then Some(SupportedCurrencies[key]) else None
  }

  /** `getCoinGeckoMapping`, case-insensitive on the code. */
  function GetCoinGeckoMapping(currency: string): (r: Option<CoinGeckoMapping>)
    ensures ToUpper(currency) == "TON" ==> r == Some(CoinGeckoMapping("the-open-network", "usd"))
    ensures ToUpper(currency) == "USDT" ==> r == Some(CoinGeckoMapping("tether", "usd"))
    ensures r.Some? <==> IsSupportedCurrency(currency)
  {
    var key := ToUpper(currency);
    if key in CoinGeckoMappings then Some(CoinGeckoMappings[key]) else None
  }

  /** USDT is the only stablecoin, pegged to USD; TON has no peg. */
  lemma OnlyUsdtIsStablecoin()
    ensures forall c :: c in SupportedCurrencies ==> (SupportedCurrencies[c].isStablecoin <==> c == "USDT")
    ensures forall c :: c in SupportedCurrencies ==>
      (SupportedCurrencies[c].peggedTo.Some? <==> SupportedCurrencies[c].isStablecoin)
    ensures SupportedCurrencies["USDT"].peggedTo == Some("USD")
  {
  }
}
