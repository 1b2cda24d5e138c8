# EraXchange rate cache, modelled in Dafny

EraXchange is a currency-conversion Telegram bot with a web mini-application.
Its one piece of real logic is `get_exchange_rate`, a rate lookup in front of
an exchange-rate provider with a process-wide, time-limited cache
(`RATE_CACHE`, expiry `CACHE_EXPIRY` = 3600 seconds). A second, small piece
is the removal of a Markdown code fence from the JSON text the language model
returns, in `parse_currency_query`.

The project has three modules:

- `Options` (`options.dfy`): Python's `None`-or-value as `Option`.
- `RateCache` (`rate_cache.dfy`): the cache and the call.
  - `Resolve` is one call as a pure function from the cache, the time, the
    two codes and the provider's outcome to the reply, the base code
    requested (none on a hit) and the new cache.
  - `RateResolver` is a class holding the cache as a mutable `map` field.
    Its method `GetRate` follows the source's control flow, updates the
    field in place on success, and is proved equal to `Resolve`.
  - The lemmas relate several calls: repeat, refresh after expiry,
    idempotence, shared keys, and the growth of the cache over a sequence of
    calls (`Replay`).
- `FenceStrip` (`fence.dfy`): Python's `str.strip(chars)`, which removes
  leading and trailing characters belonging to a SET, and the fence-removal
  expression built from it.
  - `IsStripped` is a reference description of a strip.
  - `StripIsSlice` and `StripExact` prove that `Strip` meets it and is the
    only slice that does.
  - `FencedResult` gives the result for every fenced reply.

The provider request is not modelled. What it yields is the parameter `outcome`:
- `TransportFailure`: any `RequestException`. That covers connection errors,
  timeouts, a 4xx or 5xx status from `raise_for_status`, and a body that is
  not JSON, because the decode error of `requests` is a `RequestException`.
- `NonObjectBody`: a JSON body that is not an object.
- `Document(result, conversionRates)`: a JSON object.

A missing or non-object `conversion_rates` member, or a non-object body,
makes the source raise an exception that is not a `RequestException`. That
exception escapes the call, and the model returns `Raised`.

The cache key is built from the raw arguments, `f"{from}_{to}"`
(eraXchange.py:73). Only the request and the rate lookup upper-case
(eraXchange.py:81, 89). So differently-cased pairs use different keys, and
pairs containing `_` can share one (`KeysAreCaseSensitive`, `KeysCollide`).
Both callers in the file upper-case their arguments first
(eraXchange.py:200-201, 301-302), so in practice the keys are upper-case;
`UpperNormalises` shows that upper-casing again changes nothing. A quote that
is present but `null` is also `CURRENCY_NOT_FOUND` (eraXchange.py:89-91).

## Model

| member | source | states |
|---|---|---|
| `RateCache.CacheKey` | eraXchange.py:73 | the key is the base code as given, then `_`, then the quote code as given |
| `RateCache.Upper` | eraXchange.py:81-89 | `str.upper()` as used for the request and the rate lookup: same length, each ASCII lower-case letter mapped to its capital, every other character kept |
| `RateCache.UpperNormalises` | eraXchange.py:81-89 | upper-cased text has no ASCII lower-case letter, keeps every character outside `a`..`z`, and is unchanged by upper-casing again |
| `RateCache.UpperCasedCallUsesKeyCodes` | eraXchange.py:200-201 | on a miss, a call with arguments the caller already upper-cased requests the base code exactly as it stands in the key, and upper-casing the quote code again leaves it as it stands in the key |
| `RateCache.Resolve` | eraXchange.py:71-98 | every returned pair holds exactly one of a rate and an error kind; the provider is asked for the upper-cased base exactly on a miss; a hit (entry younger than 3600 s) returns the cached rate; the cache is either unchanged or has exactly the call's key set to the call's time and the returned rate; errors and escaping exceptions leave it unchanged |
| `RateCache.RateResolver.GetRate` | eraXchange.py:71-98 | the reply, the request and the cache after the call are those of `Resolve` on the cache before it |
| `RateCache.RateResolver.constructor` | eraXchange.py:47 | the cache starts empty |
| `RateCache.StaleEntryBypassed` | eraXchange.py:76-78 | an entry at least 3600 s old is bypassed with a provider request, and it stays in the cache unless the call returns a rate |
| `RateCache.MissClassified` | eraXchange.py:81-98 | on a miss, a transport failure gives `NETWORK_ERROR`, a result other than `"success"` gives `API_ERROR`, a quote that is absent or `null` gives `CURRENCY_NOT_FOUND`, a malformed document raises, and a quoted rate is returned and stored; the cache changes only when a rate is quoted |
| `RateCache.SuccessTouchesOneKey` | eraXchange.py:93-94 | after a call that returns a rate, the call's key holds that rate, stamped with the call's time if it was fetched; the cache gains at most that key, and every other entry is unchanged |
| `RateCache.RepeatIsHit` | eraXchange.py:74-79 | right after a call that returned a rate, the same call at the same time is a hit with that rate, no request and no change, whatever the provider would say |
| `RateCache.Idempotent` | eraXchange.py:71-98 | repeating a call with the same inputs, time and provider outcome gives the same reply and the same cache |
| `RateCache.OverwriteOnRefresh` | eraXchange.py:76-93 | a fetch of rate R1, then after expiry a fetch of rate R2, leaves the key holding R2 at the second time |
| `RateCache.KeyDeterminesPair` | eraXchange.py:73 | when neither base code contains `_`, equal keys mean equal pairs |
| `RateCache.KeysCollide` | eraXchange.py:73 | `("A_B","C")` and `("A","B_C")` share one key |
| `RateCache.SharedKeySharesHit` | eraXchange.py:73-79 | two pairs with one key share its entry: a hit for one is the same hit for the other |
| `RateCache.KeysAreCaseSensitive` | eraXchange.py:73 | `("usd","kzt")` and `("USD","KZT")` use different keys although both request base `USD` |
| `RateCache.UsdToKzt` | eraXchange.py:81-94 | with an empty cache and the provider quoting 450.0 for KZT against USD, the call returns 450.0 and caches it under `USD_KZT` |
| `RateCache.ReplayKeys` | eraXchange.py:93 | over any sequence of calls no key is ever removed, only keys of calls made are added, and at most one per call |
| `FenceStrip.KeptStart` | eraXchange.py:132 | the left end of `strip(chars)`: every character before it is in the set, and the character at it is not |
| `FenceStrip.KeptEnd` | eraXchange.py:132 | the right end of `strip(chars)`, never left of its left end: every character from it on is in the set, and the one before it, if kept, is not |
| `FenceStrip.Strip` | eraXchange.py:132 | `strip(chars)`: the result neither starts nor ends with a character of the set |
| `FenceStrip.StripIsSlice` | eraXchange.py:132 | `Strip` returns a slice of its input that meets the reference description `IsStripped` |
| `FenceStrip.StripExact` | eraXchange.py:132 | any slice that meets `IsStripped` is exactly what `Strip` returns |
| `FenceStrip.StripSubsetIdle` | eraXchange.py:132 | stripping with a subset of a set already stripped changes nothing |
| `FenceStrip.StripFence` | eraXchange.py:129-132 | the result has no leading or trailing whitespace; unfenced text is only trimmed |
| `FenceStrip.FencedIsTwoPasses` | eraXchange.py:131-132 | on fenced text the `'```'` pass is a no-op after the `'```json'` pass |
| `FenceStrip.FenceLettersStrip` | eraXchange.py:132 | stripping the fence letters from `'```json' + m + '```'` removes the fence and exactly what the same strip removes from `m` |
| `FenceStrip.FenceLettersAround` | eraXchange.py:132 | on fence, fence letters, body, fence letters, fence, where the body neither starts nor ends with a fence letter, the fence-letter strip leaves exactly the body |
| `FenceStrip.FencedBody` | eraXchange.py:129-132 | a fenced reply split as fence, fence letters, body, fence letters, fence comes out as the body trimmed: fence letters touching the body go with the fence (```` ```jsonnull``` ```` gives `ull`); a body set off by whitespace, or a JSON object, loses only its surrounding whitespace |
| `FenceStrip.FencedFrame` | eraXchange.py:131 | a text that starts with ```` ```json ```` and ends with ```` ``` ```` is at least ten characters long and is the opening fence, the text between, and the closing fence |
| `FenceStrip.FencedResult` | eraXchange.py:129-132 | every fenced reply comes out as the text between the fences, stripped of fence letters, then trimmed |

## Left out

- The HTTP request itself (`requests.get` with its 10-second timeout, the URL with the API key, `raise_for_status`, `.json()`). It is replaced by the `outcome` parameter. The request is represented by the upper-cased base code it asks for.
- The clock: `time.time()` is the parameter `now`, read once per call. Time and rates are mathematical reals, so floating-point rounding is not modelled.
- Upper-casing: `Upper` maps only the ASCII letters. Python's `str.upper` also maps other Unicode letters, sometimes to several characters.
- Rate values that are JSON values other than numbers and `null` (strings, lists): the source would cache and return them as they are; the model has only numeric rates.
- Which exception escapes (`KeyError` or `AttributeError`) is not distinguished; both are `Raised`, and neither changes the cache.
- Logging (eraXchange.py:97) and the rest of `parse_currency_query`: the Gemini call, `json.loads` and its error kinds (eraXchange.py:101-128, 134-144).
- Concurrent access to `RATE_CACHE` from several request handlers: calls are modelled one at a time.
- The conversion `amount * rate` and its `{:,.2f}`/`{:,.4f}` formatting, the Flask routes, the Telegram handlers, webhook set-up and configuration loading (eraXchange.py:23-44, 59-68, 147-360).
