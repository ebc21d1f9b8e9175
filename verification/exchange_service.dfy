/** `ExchangeRateService.getExchangeRate` (backend/src/services/exchangeService.ts):
    validation, then the same-currency check, then the pair lookup in the
    hard-coded rate table, each failure short-circuiting as a thrown error. */
module ExchangeService {
  import opened Common
  import opened Text
  import opened Validation
  import opened CurrencyRegistry
  import opened ApiTypes

  /** The two directed pairs the rate table serves, on raw query values. */
  predicate IsServedPair(from: Value, to: Value) {
    || (from == Str("TON") && to == Str("USDT"))
    || (from == Str("USDT") && to == Str("TON"))
  }

  /** Both sides of a served pair pass validation, and they differ. */
  lemma ServedPairsAreAccepted(from: Value, to: Value)
    ensures IsServedPair(from, to) ==> Accepted(from) && Accepted(to) && from.s != to.s
  {
  }

  /** For two accepted codes, the pair key is in the table exactly when the
      pair is one of the two served directions. */
  lemma {:induction false} ServedPairLookup(f: string, t: string)
    requires IsCurrencyCode(f) && IsCurrencyCode(t)
    ensures RateFor(PairKey(f, t)).Some? <==> IsServedPair(Str(f), Str(t))
  {
    PairKeysSpelled();
    PairKeyMatches(f, t, "TON", "USDT");
    PairKeyMatches(f, t, "USDT", "TON");
  }

  /** The checks run in the order validation of `from`, validation of `to`,
      same currency, pair lookup; the first failure is the result. Success
      happens exactly for TON-USDT and USDT-TON and returns the sanitised
      codes, which are the codes as given, with the table rate. */
  function GetExchangeRate(from: Value, to: Value, timestamp: string): (r: Result<ExchangeRate>)
    ensures !Accepted(from) ==>
      r == Failure(InvalidParameterMessage("from", ValidateCurrency(from).value.Message()))
    ensures Accepted(from) && !Accepted(to) ==>
      r == Failure(InvalidParameterMessage("to", ValidateCurrency(to).value.Message()))
    ensures Accepted(from) && Accepted(to) && from.s == to.s ==> r == Failure(SameCurrencyMessage)
    ensures Accepted(from) && Accepted(to) && from.s != to.s && !IsServedPair(from, to) ==>
      r == Failure(RateNotFoundMessage(PairKey(from.s, to.s)))
    ensures r.Success? <==> IsServedPair(from, to)
    ensures r.Success? ==>
      && r.value.from == from.s && r.value.to == to.s
      && r.value.source == CoinGeckoSource && r.value.timestamp == timestamp
      && RateFor(PairKey(from.s, to.s)) == Some(r.value.rate)
  {
    ServedPairsAreAccepted(from, to);
    var fromError := ValidateCurrency(from);
    var toError := ValidateCurrency(to);
    if fromError.Some? then Failure(InvalidParameterMessage("from", fromError.value.Message()))
    else if toError.Some? then Failure(InvalidParameterMessage("to", toError.value.Message()))
    else
      AcceptedIsSanitized(from);
      AcceptedIsSanitized(to);
      var fromCurrency := Sanitize(from.s);
      var toCurrency := Sanitize(to.s);
      if fromCurrency == toCurrency then Failure(SameCurrencyMessage)
      else
        var pair := PairKey(fromCurrency, toCurrency);
        ServedPairLookup(fromCurrency, toCurrency);
        match RateFor(pair)
        case None => Failure(RateNotFoundMessage(pair))
        case Some(rate) => Success(ExchangeRate(fromCurrency, toCurrency, rate, CoinGeckoSource, timestamp))
  }

  /** On raw values, the served pairs are the accepted codes forming a
      registry-supported pair: accepted codes are already upper-case. */
  lemma ServedIffSupported(from: Value, to: Value)
    ensures IsServedPair(from, to) <==> Accepted(from) && Accepted(to) && IsSupportedPair(from.s, to.s)
  {
    if Accepted(from) && Accepted(to) {
      ToUpperFixesUpper(from.s);
      ToUpperFixesUpper(to.s);
    }
  }

  /** The service serves exactly the pairs the currency registry lists. */
  lemma ServiceAgreesWithRegistry(from: Value, to: Value, timestamp: string)
    ensures GetExchangeRate(from, to, timestamp).Success? <==>
      Accepted(from) && Accepted(to) && IsSupportedPair(from.s, to.s)
  {
    ServedIffSupported(from, to);
  }

  /** The two directions served by the service have reciprocal rates:
      when one direction is served, so is the other, and the two rates
      multiply to 1. */
  lemma ServiceRatesReciprocal(from: Value, to: Value, t1: string, t2: string)
    requires IsServedPair(from, to)
    ensures GetExchangeRate(to, from, t2).Success?
    ensures GetExchangeRate(from, to, t1).value.rate * GetExchangeRate(to, from, t2).value.rate == 1.0
  {
    PairKeysSpelled();
    RateTableConsistent();
    var there := GetExchangeRate(from, to, t1);
    var back := GetExchangeRate(to, from, t2);
    assert IsServedPair(to, from);
    assert RateFor(PairKey(from.s, to.s)) == Some(there.value.rate);
    assert RateFor(PairKey(to.s, from.s)) == Some(back.value.rate);
    if from.s == "TON" {
      assert PairKey(from.s, to.s) == "TON-USDT" && PairKey(to.s, from.s) == "USDT-TON";
    } else {
      assert PairKey(from.s, to.s) == "USDT-TON" && PairKey(to.s, from.s) == "TON-USDT";
    }
  }
}
