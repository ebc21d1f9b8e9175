/** The live `GET /api/exchange-rate` handler (backend/src/routes.ts), as a
    function from the query to the status and body it writes. Logging and
    the Express plumbing are not modelled; the clock reading is a parameter. */
module Routes {
  import opened Common
  import opened Validation
  import opened CurrencyRegistry
  import opened ApiTypes
  import ExchangeService

  /** The `from` and `to` query parameters as the parser delivered them. */
  datatype Query = Query(from: Value, to: Value)

  /** The handler's early returns, in source order: missing parameter (400),
      invalid `from` (400), invalid `to` (400), same currency (400), pair not
      in the rate table (404), else 200 with the record. Only TON-USDT and
      USDT-TON succeed; every other response carries just an error text. */
  function HandleExchangeRate(q: Query, timestamp: string): (resp: HttpResponse)
    ensures !q.from.Truthy() || !q.to.Truthy() ==>
      resp == HttpResponse(400, ErrorBody(MissingParametersMessage))
    ensures q.from.Truthy() && q.to.Truthy() && !Accepted(q.from) ==>
      resp == HttpResponse(400, ErrorBody(InvalidParameterMessage("from", ValidateCurrency(q.from).value.Message())))
    ensures Accepted(q.from) && q.to.Truthy() && !Accepted(q.to) ==>
      resp == HttpResponse(400, ErrorBody(InvalidParameterMessage("to", ValidateCurrency(q.to).value.Message())))
    ensures Accepted(q.from) && Accepted(q.to) && q.from.s == q.to.s ==>
      resp == HttpResponse(400, ErrorBody(SameCurrencyMessage))
    ensures Accepted(q.from) && Accepted(q.to) && q.from.s != q.to.s && !ExchangeService.IsServedPair(q.from, q.to) ==>
      resp == HttpResponse(404, ErrorBody(RateNotFoundMessage(PairKey(q.from.s, q.to.s))))
    ensures resp.status == 200 <==> ExchangeService.IsServedPair(q.from, q.to)
    ensures resp.status == 200 <==> resp.body.RateBody?
    ensures resp.status == 200 ==>
      && resp.body.record.from == q.from.s && resp.body.record.to == q.to.s
      && resp.body.record.source == CoinGeckoSource && resp.body.record.timestamp == timestamp
      && RateFor(PairKey(q.from.s, q.to.s)) == Some(resp.body.record.rate)
  {
    ExchangeService.ServedPairsAreAccepted(q.from, q.to);
    if !q.from.Truthy() || !q.to.Truthy() then
      HttpResponse(400, ErrorBody(MissingParametersMessage))
    else
      var fromError := ValidateCurrency(q.from);
      var toError := ValidateCurrency(q.to);
      if fromError.Some? then
        HttpResponse(400, ErrorBody(InvalidParameterMessage("from", fromError.value.Message())))
      else if toError.Some? then
        HttpResponse(400, ErrorBody(InvalidParameterMessage("to", toError.value.Message())))
      else
        AcceptedIsSanitized(q.from);
        AcceptedIsSanitized(q.to);
        var fromCurrency := Sanitize(q.from.s);
        var toCurrency := Sanitize(q.to.s);
        if fromCurrency == toCurrency then
          HttpResponse(400, ErrorBody(SameCurrencyMessage))
        else
          var pair := PairKey(fromCurrency, toCurrency);
          ExchangeService.ServedPairLookup(fromCurrency, toCurrency);
          match RateFor(pair)
          case None => HttpResponse(404, ErrorBody(RateNotFoundMessage(pair)))
          case Some(rate) =>
            HttpResponse(200, RateBody(ExchangeRate(fromCurrency, toCurrency, rate, CoinGeckoSource, timestamp)))
  }

  /** With both parameters present, the handler answers exactly what the
      service computes: its record with 200, or its error text with 400,
      except the missing-rate error, which is 404. */
  lemma RouteMatchesService(q: Query, timestamp: string)
    requires q.from.Truthy() && q.to.Truthy()
    ensures var s := ExchangeService.GetExchangeRate(q.from, q.to, timestamp);
      && (s.Success? ==> HandleExchangeRate(q, timestamp) == HttpResponse(200, RateBody(s.value)))
      && (s.Failure? ==> HandleExchangeRate(q, timestamp).body == ErrorBody(s.error))
  {
  }

  /** Lower-case codes are rejected as malformed, not normalised. */
  lemma LowercaseQueryRejected(timestamp: string)
    ensures HandleExchangeRate(Query(Str("ton"), Str("usdt")), timestamp)
      == HttpResponse(400, ErrorBody(InvalidParameterMessage("from", NotUppercaseLetters.Message())))
  {
    var q := Query(Str("ton"), Str("usdt"));
    LowercaseRejected();
    assert q.from.Truthy() && q.to.Truthy() && !Accepted(q.from);
  }
}
