/** The front end's currency configuration (frontend/src/config/currency.ts):
    the option lists the selectors show and the default counterpart chosen
    when one side of the pair changes. */
module FrontendCurrency {
  /** `Currency`: the two tradable tokens and the "more" placeholder. */
  datatype Currency = TON | USDT | More

  /** One entry of a selector (`caption` is its `label`); `disabled` absent is `false`. */
  datatype CurrencyOption = CurrencyOption(value: string, caption: string, disabled: bool)

  const SupportedCurrencies: seq<CurrencyOption> := [
    CurrencyOption("TON", "TON", false),
    CurrencyOption("USDT", "USDT", false),
    CurrencyOption("more", "More currency pairs in the future", true)
  ]

  const ExchangeSources: seq<CurrencyOption> := [
    CurrencyOption("CoinGecko", "CoinGecko", false),
    CurrencyOption("more", "More sources in the future", true)
  ]

  /** `getDefaultToCurrency`: the other token of the pair; the placeholder
      falls back to USDT. The answer is always a real token. */
  function GetDefaultToCurrency(from: Currency): (to: Currency)
    ensures to != More
    ensures from != More ==> to != from
    ensures from == More ==> to == USDT
  {
    match from
    case TON => USDT
    case USDT => TON
    case More => USDT
  }

  /** `getDefaultFromCurrency`: the other token of the pair; the placeholder
      falls back to TON. The answer is always a real token. */
  function GetDefaultFromCurrency(to: Currency): (from: Currency)
    ensures from != More
    ensures to != More ==> from != to
    ensures to == More ==> from == TON
  {
    match to
    case TON => USDT
    case USDT => TON
    case More => TON
  }

  /** On the two tokens both defaults pick the same counterpart, and
      applying either twice gives the token back. */
  lemma DefaultsSwapTokens(c: Currency)
    requires c != More
    ensures GetDefaultToCurrency(c) == GetDefaultFromCurrency(c)
    ensures GetDefaultToCurrency(GetDefaultToCurrency(c)) == c
    ensures GetDefaultFromCurrency(GetDefaultFromCurrency(c)) == c
  {
  }

  /** A default choice always forms a supported pair with its input: the
      chosen side is the other token, whichever side was set first. */
  lemma DefaultsFormPair(c: Currency)
    requires c != More
    ensures {c, GetDefaultToCurrency(c)} == {TON, USDT}
    ensures {GetDefaultFromCurrency(c), c} == {TON, USDT}
  {
  }

  /** In both option lists exactly the "more" placeholders are disabled. */
  lemma OnlyPlaceholdersDisabled()
    ensures forall i :: 0 <= i < |SupportedCurrencies| ==>
      (SupportedCurrencies[i].disabled <==> SupportedCurrencies[i].value == "more")
    ensures forall i :: 0 <= i < |ExchangeSources| ==>
      (ExchangeSources[i].disabled <==> ExchangeSources[i].value == "more")
  {
  }

  /** The enabled currency options are exactly the two tokens, in order. */
  lemma EnabledCurrenciesAreTokens()
    ensures |SupportedCurrencies| == 3
    ensures !SupportedCurrencies[0].disabled && SupportedCurrencies[0].value == "TON"
    ensures !SupportedCurrencies[1].disabled && SupportedCurrencies[1].value == "USDT"
    ensures SupportedCurrencies[2].disabled
  {
  }
}
