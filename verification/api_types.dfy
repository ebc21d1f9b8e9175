/** The records the backend hands back (backend/src/types.ts,
    backend/src/providers/baseProvider.ts) and the hard-coded rate table
    (backend/src/constants.ts). */
module ApiTypes {
  import opened Common
  import opened CurrencyRegistry

  /** One resolved rate. `ExchangeRateResponse` (types.ts, routes.ts) and
      `ExchangeRateData` (baseProvider.ts) are this same record. The
      timestamp is the ISO-8601 text of the clock reading, supplied by the
      caller. */
  datatype ExchangeRate = ExchangeRate(
    from: string,
    to: string,
    rate: real,
    source: string,
    timestamp: string)

  /** What a handler writes: a status and either a rate record or an
      `{error}` object that has no other field. */
  datatype Body = RateBody(record: ExchangeRate) | ErrorBody(error: string)

  datatype HttpResponse = HttpResponse(status: int, body: Body)

  /** The source name every rate record of the backend carries. */
  const CoinGeckoSource: string := "CoinGecko"

  /** The error texts the request handlers share. */
  const MissingParametersMessage: string := "Missing required parameters: from and to"
  const SameCurrencyMessage: string := "From and to currencies cannot be the same"

  function InvalidParameterMessage(side: string, reason: string): (m: string) {
    "Invalid '" + side + "' parameter: " + reason
  }

  function RateNotFoundMessage(pair: string): (m: string) {
    "Exchange rate not found for " + pair + ". Supported pairs: TON-USDT, USDT-TON"
  }

  /** `EXCHANGE_RATES`: a rate per pair key, the two directions reciprocal. */
  const ExchangeRates: map<string, real> := map[
    "TON-USDT" := 123.45,
    "USDT-TON" := 1.0 / 123.45
  ]

  /** `EXCHANGE_RATES[pair]` followed by the `!rate` test: a missing entry
      and a falsy (zero) rate both count as "not found". */
  function RateFor(pair: string): (r: Option<real>)
    ensures r.Some? <==> pair in SupportedCurrencyPairs
    ensures r.Some? ==> r.value > 0.0 && r.value == ExchangeRates[pair]
  {
    if pair in ExchangeRates && ExchangeRates[pair] != 0.0 then Some(ExchangeRates[pair]) else None
  }

  /** The table covers exactly the supported pairs, and its two rates are
      each other's reciprocal. */
  lemma RateTableConsistent()
    ensures ExchangeRates.Keys == set p | p in SupportedCurrencyPairs
    ensures ExchangeRates["TON-USDT"] * ExchangeRates["USDT-TON"] == 1.0
  {
  }
}
