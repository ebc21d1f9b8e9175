/** The decision logic of the CoinGecko price provider
    (backend/src/providers/coingeckoProvider.ts): which coin and quote
    currency to request, whether to invert, how the reply becomes a rate
    record, and which error is raised. The HTTP exchange itself is an
    input: the reply the request received. */
module CoinGeckoProvider {
  import opened Common
  import opened ApiTypes
  import opened RateConversion

  /** `coinMapping`: CoinGecko coin id per currency code. */
  const CoinMapping: map<string, string> := map["TON" := "the-open-network", "USDT" := "tether"]

  /** `currencyMapping`: CoinGecko quote currency per target code; USDT is
      quoted in USD because it is pegged to it. */
  const CurrencyMapping: map<string, string> := map["USD" := "usd", "USDT" := "usd"]

  /** `getProviderName`. */
  const ProviderName: string := "CoinGecko"

  /** What `getExchangeRate` asks `fetchAndConvertRate` to do. */
  datatype RequestPlan = RequestPlan(coinId: string, vsCurrency: string, invert: bool)

  /** A JSON value inside a quote object: a number, or anything else. */
  datatype JsonValue = Number(n: real) | NotANumber

  /** The value filed under a coin id in the reply: an object of quotes, or
      anything else (null, a string, a number, ...). */
  datatype CoinEntry = Quotes(quotes: map<string, JsonValue>) | NotAnObject

  /** What the HTTP request produced: a transport-level failure (timeout,
      refused connection, non-2xx status; axios throws these), a JSON
      `null` body, or any other body, read as an object keyed by coin id.
      A body that is neither `null` nor an object (a string, a number, a
      boolean) has no coin entries, so it behaves as an empty one. */
  datatype Reply =
    | TransportFailure(message: string)
    | NullBody
    | Body(coins: map<string, CoinEntry>)

  /** The `TypeError` text V8 gives when `response.data[coinId]` reads a
      property of a `null` body. */
  function NullReadMessage(coinId: string): (m: string) {
    "Cannot read properties of null (reading '" + coinId + "')"
  }

  /** What the `catch` clause of `fetchAndConvertRate` can receive. */
  datatype Thrown = AxiosError(message: string) | PlainError(message: string)

  /** The `getExchangeRate` branch selection. USDT to TON fetches the TON
      price in USD and inverts it; TON to USDT fetches the same price and
      keeps it; any other pair needs a known `from` (checked first) and a
      known target. Only USDT to TON ever inverts. */
  function PlanRequest(from: string, to: string): (r: Result<RequestPlan>)
    ensures from == "USDT" && to == "TON" ==> r == Success(RequestPlan("the-open-network", "usd", true))
    ensures from == "TON" && to == "USDT" ==> r == Success(RequestPlan("the-open-network", "usd", false))
    ensures !IsTonUsdtPair(from, to) && from != "TON" && from != "USDT" ==>
      r == Failure("Unsupported currency: " + from)
    ensures !IsTonUsdtPair(from, to) && (from == "TON" || from == "USDT") && to != "USD" && to != "USDT" ==>
      r == Failure("Unsupported target currency: " + to)
    ensures !IsTonUsdtPair(from, to) && (from == "TON" || from == "USDT") && (to == "USD" || to == "USDT") ==>
      r == Success(RequestPlan(if from == "TON" then "the-open-network" else "tether", "usd", false))
    ensures r.Success? && r.value.invert ==> from == "USDT" && to == "TON"
  {
    if from == "USDT" && to == "TON" then
      if "TON" in CoinMapping && "USD" in CurrencyMapping
      then Success(RequestPlan(CoinMapping["TON"], CurrencyMapping["USD"], true))
      else Failure("Unsupported currency pair: " + from + "/" + to)
    else if from == "TON" && to == "USDT" then
      if from in CoinMapping && "USD" in CurrencyMapping
      then Success(RequestPlan(CoinMapping[from], CurrencyMapping["USD"], false))
      else Failure("Unsupported currency pair: " + from + "/" + to)
    else if from !in CoinMapping then
      Failure("Unsupported currency: " + from)
    else if to !in CurrencyMapping then
      Failure("Unsupported target currency: " + to)
    else
      Success(RequestPlan(CoinMapping[from], CurrencyMapping[to], false))
  }

  /** `data[vsCurrency]` of `response.data[coinId]`, when it is a number. */
  function PriceIn(reply: Reply, coinId: string, vsCurrency: string): (p: Option<real>)
    ensures p.Some? <==>
      && reply.Body? && coinId in reply.coins && reply.coins[coinId].Quotes?
      && vsCurrency in reply.coins[coinId].quotes && reply.coins[coinId].quotes[vsCurrency].Number?
    ensures p.Some? ==> p.value == reply.coins[coinId].quotes[vsCurrency].n
  {
    if reply.Body? && coinId in reply.coins then
      match reply.coins[coinId]
      case NotAnObject => None
      case Quotes(q) =>
        if vsCurrency in q && q[vsCurrency].Number? then Some(q[vsCurrency].n) else None
    else None
  }

  /** The price an inverting request would divide by is not zero. */
  predicate InvertiblePrice(reply: Reply, coinId: string, vsCurrency: string) {
    PriceIn(reply, coinId, vsCurrency) != Some(0.0)
  }

  /** The `catch` clause: transport errors are re-raised with a
      "CoinGecko API error" prefix, anything else unchanged. */
  function CaughtMessage(t: Thrown): (m: string)
    ensures t.AxiosError? ==> m == "CoinGecko API error: " + t.message
    ensures t.PlainError? ==> m == t.message
  {
    match t
    case AxiosError(message) => "CoinGecko API error: " + message
    case PlainError(message) => message
  }

  /** `fetchAndConvertRate` once the reply is in: a missing coin entry or a
      non-numeric quote is a data error naming the pair; a transport
      failure is rewrapped; otherwise the record echoes the pair, is
      sourced from CoinGecko, and carries the raw price or its reciprocal. */
  function FetchAndConvertRate(
    coinId: string, vsCurrency: string, from: string, to: string, invert: bool,
    reply: Reply, timestamp: string): (r: Result<ExchangeRate>)
    requires invert ==> InvertiblePrice(reply, coinId, vsCurrency)
    ensures reply.TransportFailure? ==> r == Failure("CoinGecko API error: " + reply.message)
    ensures reply.NullBody? ==> r == Failure(NullReadMessage(coinId))
    ensures reply.Body? && PriceIn(reply, coinId, vsCurrency).None? ==>
      r == Failure("No price data available for " + from + "/" + to)
    ensures r.Success? <==> PriceIn(reply, coinId, vsCurrency).Some?
    ensures r.Success? ==>
      && r.value.from == from && r.value.to == to
      && r.value.source == "CoinGecko" && r.value.timestamp == timestamp
    ensures r.Success? && !invert ==> r.value.rate == PriceIn(reply, coinId, vsCurrency).value
    ensures r.Success? && invert ==> r.value.rate * PriceIn(reply, coinId, vsCurrency).value == 1.0
  {
    match reply
    case TransportFailure(message) => Failure(CaughtMessage(AxiosError(message)))
    case NullBody => Failure(CaughtMessage(PlainError(NullReadMessage(coinId))))
    case Body(_) =>
      match PriceIn(reply, coinId, vsCurrency)
      case None => Failure(CaughtMessage(PlainError("No price data available for " + from + "/" + to)))
      case Some(rate) =>
        var finalRate := if invert then 1.0 / rate else rate;
        Success(ExchangeRate(from, to, finalRate, ProviderName, timestamp))
  }

  /** `getExchangeRate`: plan the request, then convert the reply it got.
      A pair the plan rejects fails before any request is made. A planned
      request succeeds exactly when the reply quotes the planned coin in
      the planned currency, and the rate is that quote, or its reciprocal
      for USDT to TON. */
  function GetExchangeRate(from: string, to: string, reply: Reply, timestamp: string): (r: Result<ExchangeRate>)
    requires from == "USDT" && to == "TON" ==> InvertiblePrice(reply, "the-open-network", "usd")
    ensures PlanRequest(from, to).Failure? ==> r == Failure(PlanRequest(from, to).error)
    ensures PlanRequest(from, to).Success? ==>
      var plan := PlanRequest(from, to).value;
      && (r.Success? <==> PriceIn(reply, plan.coinId, plan.vsCurrency).Some?)
      && (reply.TransportFailure? ==> r == Failure("CoinGecko API error: " + reply.message))
      && (r.Success? && !plan.invert ==> r.value.rate == PriceIn(reply, plan.coinId, plan.vsCurrency).value)
    ensures from == "TON" && to == "USDT" ==>
      (r.Success? <==> PriceIn(reply, "the-open-network", "usd").Some?)
      && (r.Success? ==> r.value.rate == PriceIn(reply, "the-open-network", "usd").value)
    ensures from == "USDT" && to == "TON" ==>
      (r.Success? <==> PriceIn(reply, "the-open-network", "usd").Some?)
      && (r.Success? ==> r.value.rate * PriceIn(reply, "the-open-network", "usd").value == 1.0)
    ensures r.Success? ==>
      && r.value.from == from && r.value.to == to
      && r.value.source == "CoinGecko" && r.value.timestamp == timestamp
  {
    match PlanRequest(from, to)
    case Failure(e) => Failure(e)
    case Success(plan) =>
      FetchAndConvertRate(plan.coinId, plan.vsCurrency, from, to, plan.invert, reply, timestamp)
  }

  /** Given the same TON price, the provider's TON-USDT and USDT-TON rates
      multiply to exactly 1; both succeed exactly when the reply quotes
      the-open-network in usd. */
  lemma ProviderDirectionsReciprocal(reply: Reply, t1: string, t2: string)
    requires InvertiblePrice(reply, "the-open-network", "usd")
    ensures GetExchangeRate("TON", "USDT", reply, t1).Success?
        <==> PriceIn(reply, "the-open-network", "usd").Some?
    ensures GetExchangeRate("TON", "USDT", reply, t1).Success?
        <==> GetExchangeRate("USDT", "TON", reply, t2).Success?
    ensures GetExchangeRate("TON", "USDT", reply, t1).Success? ==>
      GetExchangeRate("TON", "USDT", reply, t1).value.rate
        * GetExchangeRate("USDT", "TON", reply, t2).value.rate == 1.0
  {
    var price := PriceIn(reply, "the-open-network", "usd");
    if price.Some? {
      var direct := GetExchangeRate("TON", "USDT", reply, t1).value.rate;
      var inverted := GetExchangeRate("USDT", "TON", reply, t2).value.rate;
      assert direct == price.value;
      assert inverted * price.value == 1.0;
    }
  }
}
