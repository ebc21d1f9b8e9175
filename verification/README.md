# ton-usdt exchange-rate backend, modelled in Dafny

This project models the request pipeline of the ton-usdt exchange-rate
service. It covers the small tables and decision functions the pipeline is
built from:

- **Validation and normalisation** of a currency token: `validateCurrency`
  and `sanitizeCurrency`.
- **The currency registry**: supported currencies, CoinGecko mappings, and
  the two directed pairs TON-USDT and USDT-TON.
- **The direction strategies**: direct, or inverted by taking the
  reciprocal of the price.
- **The CoinGecko provider's decisions**: which coin and quote currency to
  request, whether to invert the price, how a reply becomes a rate record,
  and which error is raised.
- **The rate cache's key discipline**: a class over a map of entries.
- **Three request handlers**:
  - the `ExchangeRateService` that throws;
  - the live `GET /api/exchange-rate` route;
  - the `ExchangeController`, which maps error texts to 404 or 400.
- **The front end's pair defaults** and its option lists.

Modelling choices:

- Rates are `real`s, so "the direct rate times the inverted rate is 1" holds
  exactly.
- A query parameter is a `Value`. It is absent (`Undefined`), a string, or a
  `Composite`, the array or object a repeated or bracketed parameter
  parses to.
- JavaScript `length` is counted in UTF-16 code units.
- `trim` removes the ECMAScript whitespace and line-terminator characters.
- `toUpperCase` and `toLowerCase` change only the ASCII letters.
- The clock reading (the ISO timestamp) is a parameter.
- The CoinGecko HTTP reply is a parameter: a transport failure, a JSON
  `null` body, or a body that maps coin ids to quote objects.

The main results:

- Validation accepts exactly the tokens of 1 to 10 upper-case ASCII letters.
  Each rejection reason holds exactly under its own condition.
- Sanitising is idempotent, and it leaves every accepted token unchanged.
- The service, the route and the controller serve exactly TON-USDT and
  USDT-TON.
- Before the six-decimal rounding, the two served rates are reciprocal in
  the rate table, in the strategy service and in the provider. The program
  serves the rounded values 123.45 and 0.0081, whose product is 0.999945.
- The route and the controller give the same status and body for every
  query. An unknown pair is a 404 in both, because only the missing-rate
  text says "not found".
- Cache keys fold the provider name's case and nothing else. Distinct
  dash-free currency pairs never share a cache entry.

Where the code and its tests disagree, the model follows the code.
`backend/src/__tests__/app.test.ts:88-94` expects 400 "Unsupported currency
pair: BTC-ETH". The handler at `backend/src/routes.ts:68-73` answers 404
"Exchange rate not found for BTC-ETH. Supported pairs: TON-USDT, USDT-TON",
and so does `Routes.HandleExchangeRate`.

## Model

| member | source | states |
|---|---|---|
| Text.Trim | backend/src/validation.ts:3 | `trim`: the result is the input with a whitespace prefix and a whitespace suffix cut off, with no whitespace left at either end; it is empty exactly when the input is all whitespace; an already trimmed string is unchanged |
| Text.Utf16Length | backend/src/validation.ts:4 | `length` is the number of characters plus one for each code point above U+FFFF (a surrogate pair), so it equals the character count when there is none |
| Text.ToUpper | backend/src/validation.ts:10 | `toUpperCase` on ASCII letters: same length, no lower-case letter left, each character unchanged or a lower-case letter replaced by its upper-case form |
| Text.ToLower | backend/src/cache/exchangeRateCache.ts:15 | `toLowerCase` on ASCII letters: same length, no upper-case letter left, each character unchanged or an upper-case letter replaced by its lower-case form |
| Text.Contains | backend/src/controllers/exchangeController.ts:38 | `includes`: true exactly when the text is some prefix, then the searched text, then some suffix |
| Text.ToUpperIdempotent | backend/src/validation.ts:10 | upper-casing twice is upper-casing once |
| Text.ToUpperFixesUpper | backend/src/validation.ts:10 | a string with no lower-case letter is its own upper-case form |
| Validation.Value.Truthy | backend/src/routes.ts:28 | JavaScript truthiness of a query value: false exactly for an absent parameter and the empty string |
| Validation.ValidateCurrency | backend/src/validation.ts:1-7 | first failure wins: not a string iff "must be a string"; all whitespace iff "cannot be empty"; else over 10 UTF-16 units iff "too long"; else any non `A`-`Z` character iff "only uppercase letters"; accepted iff a string of 1 to 10 `A`-`Z` letters |
| Validation.CodeIsNormalised | backend/src/validation.ts:5-11 | a currency code is its own trim and its own upper-case form |
| Validation.Sanitize | backend/src/validation.ts:9-11 | trim then upper-case: no longer than the input, trimmed ends, no lower-case letter, and an accepted token comes back unchanged |
| Validation.SanitizeIdempotent | backend/src/validation.ts:9-11 | sanitising twice equals sanitising once |
| Validation.AcceptedIsSanitized | backend/src/validation.ts:5-11 | every accepted value is a string that sanitising leaves unchanged |
| Validation.LowercaseRejected | backend/src/validation.ts:5 | "ton" is rejected with the upper-case-letters reason, not normalised |
| CurrencyRegistry.PairKey | backend/src/config/currency.ts:57 | the pair name `from-to`: the `from` code, one dash, then the `to` code |
| CurrencyRegistry.PairKeyMatches | backend/src/config/currency.ts:56-59 | the `from-to` key determines both halves when the reference codes hold no dash |
| CurrencyRegistry.TablesAgree | backend/src/config/currency.ts:18-45 | the code list, the configurations and the CoinGecko mappings cover the same two codes; each configuration is filed under its own code |
| CurrencyRegistry.IsSupportedCurrency | backend/src/config/currency.ts:52-54 | true exactly when the upper-cased code is TON or USDT, i.e. has a configuration |
| CurrencyRegistry.IsSupportedPair | backend/src/config/currency.ts:56-59 | true exactly when the upper-cased pair is (TON, USDT) or (USDT, TON) |
| CurrencyRegistry.NoPairIsReflexive | backend/src/config/currency.ts:47-59 | no currency forms a supported pair with itself |
| CurrencyRegistry.PairsUseSupportedCurrencies | backend/src/config/currency.ts:45-50 | both sides of a supported pair are supported currencies |
| CurrencyRegistry.GetCurrencyConfig | backend/src/config/currency.ts:61-63 | defined exactly for supported codes, and then its `code` is the upper-cased input |
| CurrencyRegistry.GetCoinGeckoMapping | backend/src/config/currency.ts:65-67 | the-open-network/usd for TON, tether/usd for USDT (any case), undefined for every other code |
| CurrencyRegistry.OnlyUsdtIsStablecoin | backend/src/config/currency.ts:19-31 | USDT is the only stablecoin; a currency has a peg exactly when it is a stablecoin; USDT is pegged to USD |
| RateConversion.Strategy.Convert | backend/src/services/rateConversionService.ts:11-21 | the direct strategy returns the raw rate; the inverted one returns the rate whose product with the raw rate is 1 |
| RateConversion.RateConversionService.constructor | backend/src/services/rateConversionService.ts:24-29 | the table holds exactly TON-USDT (direct) and USDT-TON (inverted) |
| RateConversion.RateConversionService.GetStrategy | backend/src/services/rateConversionService.ts:31-40 | exact-match lookup: succeeds exactly for TON-USDT and USDT-TON, lower-case spellings included among the failures, with the error naming the pair |
| RateConversion.RateConversionService.ConvertRate | backend/src/services/rateConversionService.ts:42-45 | the raw rate for TON-USDT, its reciprocal for USDT-TON, the lookup error for every other pair |
| RateConversion.RateConversionService.GetCoinGeckoParams | backend/src/services/rateConversionService.ts:47-63 | both TON/USDT directions use TON's mapping; other pairs use the mapping of `from` or fail naming `from` |
| RateConversion.DirectionsAreReciprocal | backend/src/services/rateConversionService.ts:11-45 | for any non-zero raw price, the TON-USDT rate times the USDT-TON rate is 1 |
| ApiTypes.RateFor | backend/src/constants.ts:2-5 | the `EXCHANGE_RATES` lookup with its falsy test: present exactly for the two supported pair keys, and then positive |
| ApiTypes.RateTableConsistent | backend/src/constants.ts:2-5 | the table's keys are the supported pairs, and its two rates multiply to 1 |
| CoinGeckoProvider.PlanRequest | backend/src/providers/coingeckoProvider.ts:29-67 | USDT-TON requests the-open-network/usd inverted; TON-USDT the same, not inverted; other pairs fail on an unknown `from` first, then on an unknown target; only USDT-TON ever inverts |
| CoinGeckoProvider.PriceIn | backend/src/providers/coingeckoProvider.ts:89-94 | a price exists exactly when the reply has the coin entry as an object with a numeric quote, and it is that quote |
| CoinGeckoProvider.CaughtMessage | backend/src/providers/coingeckoProvider.ts:104-109 | transport errors get the "CoinGecko API error: " prefix; other errors keep their message |
| CoinGeckoProvider.FetchAndConvertRate | backend/src/providers/coingeckoProvider.ts:69-110 | transport failure is rewrapped; a `null` body fails with the property-read error, unchanged; missing data fails naming the pair; success exactly when a price exists; the record echoes the pair with source CoinGecko; the rate is the price, or its reciprocal when inverting |
| CoinGeckoProvider.GetExchangeRate | backend/src/providers/coingeckoProvider.ts:29-67 | a rejected pair fails before any request with the plan's error; a planned pair succeeds exactly when the reply quotes the planned coin in the planned currency, a transport failure is rewrapped, and the rate is the quote, or its reciprocal for USDT-TON; a success echoes the pair with source CoinGecko |
| CoinGeckoProvider.ProviderDirectionsReciprocal | backend/src/providers/coingeckoProvider.ts:29-95 | from the same reply, TON-USDT succeeds exactly when the reply quotes the-open-network in usd, USDT-TON succeeds together with it, and their rates multiply to 1 |
| RateCache.ExchangeRateCache.constructor | backend/src/cache/exchangeRateCache.ts:7-12 | an empty store configured with a 60 000 ms TTL and a capacity of 100 |
| RateCache.ExchangeRateCache.GenerateKey | backend/src/cache/exchangeRateCache.ts:14-16 | the key reads back as the lower-cased provider, a dash, the `from` code, a dash and the `to` code |
| RateCache.ExchangeRateCache.Get | backend/src/cache/exchangeRateCache.ts:18-21 | the entry at the generated key, or none; nothing changes |
| RateCache.ExchangeRateCache.Set | backend/src/cache/exchangeRateCache.ts:23-26 | the entry at the generated key becomes `data`; every other entry stays |
| RateCache.ExchangeRateCache.Has | backend/src/cache/exchangeRateCache.ts:28-31 | true exactly when an entry sits at the generated key |
| RateCache.ExchangeRateCache.Clear | backend/src/cache/exchangeRateCache.ts:33-35 | the store becomes empty |
| RateCache.KeyIgnoresProviderCase | backend/src/cache/exchangeRateCache.ts:14-16 | provider names equal up to letter case give the same key |
| RateCache.KeyDeterminesEntry | backend/src/cache/exchangeRateCache.ts:14-16 | with dash-free codes, equal keys mean the same lower-cased provider and the same two codes |
| RateCache.CodesAreCaseSensitive | backend/src/cache/exchangeRateCache.ts:15 | for every provider and every `to`, "TON" and "ton" address different entries |
| ExchangeService.ServedPairLookup | backend/src/services/exchangeService.ts:28-33 | for two accepted codes, the rate table has the pair exactly when it is TON-USDT or USDT-TON |
| ExchangeService.GetExchangeRate | backend/src/services/exchangeService.ts:6-42 | invalid `from`, then invalid `to`, then same currency, then a missing rate, each with its exact message; success exactly for TON-USDT and USDT-TON, echoing the codes with source CoinGecko and the table rate |
| ExchangeService.ServedIffSupported | backend/src/services/exchangeService.ts:8-33 | the served pairs are exactly the accepted codes that form a registry-supported pair |
| ExchangeService.ServiceAgreesWithRegistry | backend/src/services/exchangeService.ts:6-42 | the service succeeds exactly for accepted codes forming a registry-supported pair |
| ExchangeService.ServiceRatesReciprocal | backend/src/services/exchangeService.ts:28-41 | whenever one direction is served the reverse one is too, and their two rates multiply to 1 |
| Routes.HandleExchangeRate | backend/src/routes.ts:24-89 | 400 for a missing or falsy parameter, then invalid `from`, then invalid `to`, then same currency; 404 for a pair without a rate; 200 exactly for TON-USDT and USDT-TON, with a record body exactly then, echoing the codes with source CoinGecko and the table rate |
| Routes.RouteMatchesService | backend/src/routes.ts:36-88 | with both parameters present, the route answers the service's record with 200 or the service's error text |
| Routes.LowercaseQueryRejected | backend/src/routes.ts:36-44 | `?from=ton&to=usdt` is a 400 for the `from` parameter |
| ExchangeController.ErrorMessage | backend/src/controllers/exchangeController.ts:30 | an `Error`'s own message, or "Unknown error" |
| ExchangeController.ErrorResponse | backend/src/controllers/exchangeController.ts:30-39 | an `{error}` body; 404 exactly when the message contains "not found", otherwise 400 |
| ExchangeController.GetExchangeRate | backend/src/controllers/exchangeController.ts:7-41 | 400 on a missing parameter without calling the service; otherwise the service's record with 200, or its error with 404 iff the text says "not found" |
| ExchangeController.InvalidParameterMessagesLackNotFound | backend/src/services/exchangeService.ts:8-17 | no invalid-parameter text contains "not found" |
| ExchangeController.SameCurrencyMessageLacksNotFound | backend/src/services/exchangeService.ts:24-26 | the same-currency text does not contain "not found" |
| ExchangeController.RateNotFoundMessageSaysNotFound | backend/src/services/exchangeService.ts:28-33 | the missing-rate text contains "not found" for every pair |
| ExchangeController.ControllerMatchesRoute | backend/src/controllers/exchangeController.ts:7-41 | the controller and the live route answer every query with the same status and body |
| FrontendCurrency.GetDefaultToCurrency | frontend/src/config/currency.ts:25-34 | never "more"; a token maps to the other token; "more" falls back to USDT |
| FrontendCurrency.GetDefaultFromCurrency | frontend/src/config/currency.ts:36-45 | never "more"; a token maps to the other token; "more" falls back to TON |
| FrontendCurrency.DefaultsSwapTokens | frontend/src/config/currency.ts:25-45 | on TON and USDT the two defaults agree and each is an involution |
| FrontendCurrency.DefaultsFormPair | frontend/src/config/currency.ts:25-45 | a token and its default counterpart are always the pair {TON, USDT} |
| FrontendCurrency.OnlyPlaceholdersDisabled | frontend/src/config/currency.ts:11-20 | in both option lists an entry is disabled exactly when its value is "more" |
| FrontendCurrency.EnabledCurrenciesAreTokens | frontend/src/config/currency.ts:11-15 | the enabled currency options are TON then USDT, followed by the disabled placeholder |

## Left out

- Case mapping beyond ASCII: JavaScript's `toUpperCase` and `toLowerCase`
  also map letters outside ASCII. For example U+017F maps to `S` and U+00DF
  to `SS`, and the Kelvin sign U+212A lower-cases to `k`. The model changes
  only `a`-`z` and `A`-`Z`. Validation rejects every non-ASCII token, so the
  three request handlers are not affected. These members are:
- Text.ToUpper: maps only ASCII letters, so it differs from `toUpperCase` on
  any input with a non-ASCII letter that has an upper-case form.
- Text.ToLower: maps only ASCII letters, for the same reason.
- Validation.Sanitize: differs from `sanitizeCurrency` on such input. Its
  callers only pass accepted tokens, which are ASCII.
- CurrencyRegistry.IsSupportedCurrency: is false for "uſdt" (with U+017F),
  where the source is true.
- CurrencyRegistry.IsSupportedPair: diverges the same way on such codes.
- CurrencyRegistry.GetCurrencyConfig: diverges the same way on such codes.
- CurrencyRegistry.GetCoinGeckoMapping: diverges the same way on such codes.
- RateConversion.RateConversionService.GetCoinGeckoParams: diverges through
  `GetCoinGeckoMapping` for pairs other than TON/USDT.
- RateCache.ExchangeRateCache.GenerateKey: lower-cases only ASCII letters of
  the provider name, so provider names that differ in non-ASCII letter case
  can get different keys where the source gives one.
- ExchangeService.GetExchangeRate: the rate is not passed through
  `parseFloat(rate.toFixed(6))`. The ensures speak of the unrounded table
  rate, because decimal rounding of binary floating point is not modelled.
- Routes.HandleExchangeRate: the same six-decimal rounding is left out, for
  the same reason.
- CoinGeckoProvider.FetchAndConvertRate: the same six-decimal rounding is
  left out, and rates are reals rather than IEEE doubles.
- RateConversion.Strategy.Convert: requires a non-zero raw rate for
  inversion. JavaScript would return `Infinity`, which has no real
  counterpart.
- RateConversion.RateConversionService.ConvertRate: requires a non-zero raw
  rate for inversion, for the same reason.
- CoinGeckoProvider.GetExchangeRate: requires that a USDT-TON reply does not
  quote 0 for TON, for the same reason.
- The clock: `new Date().toISOString()` is a `timestamp` parameter.
- CoinGeckoProvider.FetchAndConvertRate: the text of the error a `null`
  body raises is V8's `TypeError` message. Other JavaScript engines word it
  differently.
- Network I/O: the axios request is not modelled. Its outcome is the
  `Reply` parameter. `coinGeckoApiService.ts` and the front end's
  `exchangeApi.ts` are not part of this model.
- `CacheService` is not part of this model. Its storage is an abstract map,
  with no TTL expiry, eviction or capacity enforcement. The TTL and the
  capacity are kept only as configuration values. `getStats` is left out
  because it only forwards to `CacheService`.
- Logging (`logger.warn`, `logger.info`) has no effect on responses and is
  left out.
- Lookups such as `coinMapping[from]` in JavaScript can also hit inherited
  object keys like `constructor`. The model uses plain maps with only the
  declared keys.
- The health endpoints (`/api/health`, `ExchangeController.getHealth`) are
  left out. Each only returns a constant status and the clock.
- Persistence, migrations, Express wiring and middleware, `index.ts`, and
  all React UI are outside the exchange-rate logic and are left out.
