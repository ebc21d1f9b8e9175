/** Direction strategies per currency pair and the CoinGecko request
    parameters (backend/src/services/rateConversionService.ts). */
module RateConversion {
  import opened Common
  import opened Text
  import opened CurrencyRegistry

  /** How a raw provider price becomes the rate of one directed pair: as it
      is, or as its reciprocal. */
  datatype Strategy = Direct | Inverted {
    /** `convert`: the direct strategy passes the raw rate through; the
        inverted one returns the rate whose product with the raw rate is 1. */
    function Convert(from: string, to: string, rawRate: real): (r: real)
      requires Inverted? ==> rawRate != 0.0
      ensures Direct? ==> r == rawRate
      ensures Inverted? ==> r * rawRate == 1.0
    {
      match this
      case Direct => rawRate
      case Inverted => 1.0 / rawRate
    }
  }

  /** The two directions of the TON/USDT pair, which share one price feed. */
  predicate IsTonUsdtPair(from: string, to: string) {
    (from == "TON" && to == "USDT") || (from == "USDT" && to == "TON")
  }

  class RateConversionService {
    /** Strategy per exact pair key `from-to`. */
    var strategies: map<string, Strategy>

    /** The table the constructor builds; nothing changes it afterwards. */
    ghost predicate Valid()
      reads this
    {
      strategies == map["TON-USDT" := Direct, "USDT-TON" := Inverted]
    }

    /** Registers TON-USDT as direct and USDT-TON as inverted, and nothing else. */
    constructor ()
      ensures Valid()
      ensures strategies.Keys == {"TON-USDT", "USDT-TON"}
      ensures strategies["TON-USDT"] == Direct && strategies["USDT-TON"] == Inverted
    {
      strategies := map[];
      new;
      strategies := strategies["TON-USDT" := Direct];
      strategies := strategies["USDT-TON" := Inverted];
    }

    /** `getStrategy`: an exact, case-sensitive match of `from-to`;
        every other pair, lower-case spellings included, is an error that
        names the pair. */
    function GetStrategy(from: string, to: string): (r: Result<Strategy>)
      reads this
      requires Valid()
      ensures r.Success? <==> IsTonUsdtPair(from, to)
      ensures from == "TON" && to == "USDT" ==> r == Success(Direct)
      ensures from == "USDT" && to == "TON" ==> r == Success(Inverted)
      ensures r.Failure? ==> r.error == "No conversion strategy found for pair: " + PairKey(from, to)
    {
      var pair := PairKey(from, to);
      PairKeysSpelled();
      PairKeyMatches(from, to, "TON", "USDT");
      PairKeyMatches(from, to, "USDT", "TON");
      if pair !in strategies then Failure("No conversion strategy found for pair: " + pair)
      else Success(strategies[pair])
    }

    /** `convertRate`: the raw rate as it is for TON-USDT, its reciprocal
        for USDT-TON, and the lookup error for every other pair. */
    function ConvertRate(from: string, to: string, rawRate: real): (r: Result<real>)
      reads this
      requires Valid()
      requires from == "USDT" && to == "TON" ==> rawRate != 0.0
      ensures r.Success? <==> IsTonUsdtPair(from, to)
      ensures from == "TON" && to == "USDT" ==> r == Success(rawRate)
      ensures from == "USDT" && to == "TON" ==> r.Success? && r.value * rawRate == 1.0
      ensures r.Failure? ==> r == Failure("No conversion strategy found for pair: " + PairKey(from, to))
    {
      match GetStrategy(from, to)
      case Failure(e) => Failure(e)
      case Success(strategy) => Success(strategy.Convert(from, to, rawRate))
    }

    /** `getCoinGeckoParams`: both directions of TON/USDT fetch the TON
        price in USD; any other pair uses the mapping of `from`
        (case-insensitively) or fails naming `from`. */
    function GetCoinGeckoParams(from: string, to: string): (r: Result<CoinGeckoMapping>)
      ensures IsTonUsdtPair(from, to) ==> r == Success(CoinGeckoMapping("the-open-network", "usd"))
      ensures !IsTonUsdtPair(from, to) && IsSupportedCurrency(from) ==>
        r.Success? && Some(r.value) == GetCoinGeckoMapping(from)
      ensures !IsTonUsdtPair(from, to) && !IsSupportedCurrency(from) ==>
        r == Failure("CoinGecko mapping not found for " + from)
    {
      if IsTonUsdtPair(from, to) then
        match GetCoinGeckoMapping("TON")
        case None => Failure("CoinGecko mapping not found for TON")
        case Some(m) => Success(m)
      else
        match GetCoinGeckoMapping(from)
        case None => Failure("CoinGecko mapping not found for " + from)
        case Some(m) => Success(m)
    }
  }

  /** The two directions of the pair are reciprocal: for any non-zero raw
      price, the TON-USDT rate times the USDT-TON rate is exactly 1. */
  lemma DirectionsAreReciprocal(service: RateConversionService, rawRate: real)
    requires service.Valid() && rawRate != 0.0
    ensures service.ConvertRate("TON", "USDT", rawRate).Success?
    ensures service.ConvertRate("USDT", "TON", rawRate).Success?
    ensures service.ConvertRate("TON", "USDT", rawRate).value
          * service.ConvertRate("USDT", "TON", rawRate).value == 1.0
  {
  }
}
