/**
 * The time-limited exchange-rate cache of `get_exchange_rate`
 * (eraXchange.py:47-48, 71-98).
 *
 * A call builds the key `from + "_" + to` from the raw arguments, answers
 * from the cache when the entry under that key is younger than one hour,
 * and otherwise asks the rate provider for all rates of the upper-cased
 * base code and sorts what comes back into a rate or one of three error
 * kinds. Only a successful fetch writes to the cache.
 *
 * The HTTP request is not modelled: what it yields is the parameter
 * `outcome`, consulted only on a miss, and the base code the request asks
 * for is returned so that a hit can be seen to make no request at all.
 */
module RateCache {
  import opened Options

  /** Seconds, as `time.time()` reads them. */
  type Time = real

  /** A conversion rate as the provider's JSON gives it. */
  type Rate = real

  /** `CACHE_EXPIRY`: one hour, in seconds. */
  const CacheExpiry: real := 3600.0

  /** The value stored under a key: `(timestamp, rate)`. */
  datatype CacheEntry = CacheEntry(timestamp: Time, rate: Rate)

  /** `RATE_CACHE`. */
  type Cache = map<string, CacheEntry>

  /** The error strings `get_exchange_rate` returns. */
  datatype ErrorKind = NetworkError | ApiError | CurrencyNotFound

  /** The `conversion_rates` member of the provider's document: missing, not
      a JSON object, or an object whose values are rates or `null` (`None`). */
  datatype RatesField = Absent | NotObject | Object(rates: map<string, Option<Rate>>)

  /** What the request to the provider yields.
      `TransportFailure`: `requests.get`, `raise_for_status` or `.json()`
      raised a `RequestException` (connection error, timeout, non-2xx status,
      a body that is not JSON).
      `NonObjectBody`: the body is JSON but not an object, so `data.get`
      raises.
      `Document`: a JSON object; `result` is its `"result"` member when that
      is a string and `None` otherwise. */
  datatype ProviderOutcome =
    | TransportFailure
    | NonObjectBody
    | Document(result: Option<string>, conversionRates: RatesField)

  /** What the caller sees: the returned pair `(rate, error)`, or an
      exception other than `RequestException` escaping the call (a missing
      or non-object `conversion_rates`, a non-object body). */
  datatype Reply = Returned(rate: Option<Rate>, error: Option<ErrorKind>) | Raised

  /** The reply, the base code requested from the provider (`None` when no
      request is made) and the cache afterwards. */
  datatype Step = Step(reply: Reply, request: Option<string>, cache: Cache)

  /** `f"{from_currency}_{to_currency}"`. */
  function CacheKey(from: string, to: string): (key: string)
    ensures |key| == |from| + 1 + |to|
    ensures key[..|from|] == from && key[|from|] == '_' && key[|from| + 1..] == to
  {
    from + "_" + to
  }

  /** `str.upper()` on one character, for the ASCII letters. */
  function UpperChar(c: char): char {
    if 'a' <= c <= 'z' then (c as int - 'a' as int + 'A' as int) as char else c
  }

  /** `str.upper()`, for the ASCII letters. */
  function Upper(s: string): (r: string)
    ensures |r| == |s|
    ensures forall k :: 0 <= k < |s| ==> r[k] == UpperChar(s[k])
  {
    seq(|s|, k requires 0 <= k < |s| => UpperChar(s[k]))
  }

  /** Upper-casing leaves no lower-case ASCII letter, keeps every other
      character, and changes nothing the second time. Because of this, the
      codes the callers upper-case before the call (eraXchange.py:200-201,
      301-302) are the codes the request and the rate lookup use. */
  lemma UpperNormalises(s: string)
    ensures forall k :: 0 <= k < |s| ==> !('a' <= Upper(s)[k] <= 'z')
    ensures forall k :: 0 <= k < |s| && !('a' <= s[k] <= 'z') ==> Upper(s)[k] == s[k]
    ensures Upper(Upper(s)) == Upper(s)
  {
    var u := Upper(s);
    forall k | 0 <= k < |s| ensures UpperChar(u[k]) == u[k] {
      assert !('a' <= u[k] <= 'z');
    }
  }

  /** A call whose arguments the caller has upper-cased requests the base
      code of its own key and looks up the quote code of its own key. */
  lemma UpperCasedCallUsesKeyCodes(cache: Cache, now: Time, from: string, to: string, outcome: ProviderOutcome)
    requires !IsHit(cache, now, Upper(from), Upper(to))
    ensures Resolve(cache, now, Upper(from), Upper(to), outcome).request == Some(Upper(from))
    ensures Upper(Upper(to)) == Upper(to)
  {
    UpperNormalises(from);
    UpperNormalises(to);
  }

  /** An entry may be answered from when it is younger than the expiry. */
  predicate IsFresh(entry: CacheEntry, now: Time) {
    now - entry.timestamp < CacheExpiry
  }

  predicate IsHit(cache: Cache, now: Time, from: string, to: string) {
    CacheKey(from, to) in cache && IsFresh(cache[CacheKey(from, to)], now)
  }

  /** One call of `get_exchange_rate` at time `now`. */
  function Resolve(cache: Cache, now: Time, from: string, to: string, outcome: ProviderOutcome): (s: Step)
    // every returned pair holds exactly one of a rate and an error kind
    ensures s.reply.Returned? ==> (s.reply.rate.Some? <==> s.reply.error.None?)
    // the provider is asked, for the upper-cased base, exactly on a miss
    ensures s.request == if IsHit(cache, now, from, to) then None else Some(Upper(from))
    // a hit answers with the cached rate
    ensures IsHit(cache, now, from, to) ==>
              s.reply == Returned(Some(cache[CacheKey(from, to)].rate), None)
    // the cache changes only by a successful fetch, which sets exactly the
    // call's key to the time of the call and the rate it returns
    ensures s.cache == cache
            || (!IsHit(cache, now, from, to) && s.reply.Returned? && s.reply.rate.Some?
                && s.cache == cache[CacheKey(from, to) := CacheEntry(now, s.reply.rate.value)])
    // every error and every escaping exception leaves the cache as it was
    ensures (s.reply.Raised? || s.reply.error.Some?) ==> s.cache == cache
  {
    var key := CacheKey(from, to);
    if key in cache && IsFresh(cache[key], now) then
      Step(Returned(Some(cache[key].rate), None), None, cache)
    else
      var request := Some(Upper(from));
      match outcome
      case TransportFailure => Step(Returned(None, Some(NetworkError)), request, cache)
      case NonObjectBody => Step(Raised, request, cache)
      case Document(result, conversionRates) =>
        if result != Some("success") then
          Step(Returned(None, Some(ApiError)), request, cache)
        else
          match conversionRates
          case Absent => Step(Raised, request, cache)
          case NotObject => Step(Raised, request, cache)
          case Object(rates) =>
            var code := Upper(to);
            if code !in rates || rates[code].None? then
              Step(Returned(None, Some(CurrencyNotFound)), request, cache)
            else
              var rate := rates[code].value;
              Step(Returned(Some(rate), None), request, cache[key := CacheEntry(now, rate)])
  }

  /** The provider's document is a success that quotes `rate` for `code`. */
  predicate Quotes(outcome: ProviderOutcome, code: string, rate: Rate) {
    && outcome.Document?
    && outcome.result == Some("success")
    && outcome.conversionRates.Object?
    && code in outcome.conversionRates.rates
    && outcome.conversionRates.rates[code] == Some(rate)
  }

  /** Expiry is strict: an entry exactly one hour old is no longer answered
      from; it is bypassed with a provider request, and it stays in the cache
      unless that request succeeds. */
  lemma StaleEntryBypassed(cache: Cache, now: Time, from: string, to: string, outcome: ProviderOutcome)
    requires CacheKey(from, to) in cache
    requires now - cache[CacheKey(from, to)].timestamp >= CacheExpiry
    ensures var s := Resolve(cache, now, from, to, outcome);
            && s.request == Some(Upper(from))
            && CacheKey(from, to) in s.cache
            && (s.cache[CacheKey(from, to)] == cache[CacheKey(from, to)]
                || (s.reply.Returned? && s.reply.rate.Some?))
  {
  }

  /** On a miss, the outcome of the provider request decides the reply, and
      nothing but a quoted rate changes the cache. */
  lemma MissClassified(cache: Cache, now: Time, from: string, to: string, outcome: ProviderOutcome)
    requires !IsHit(cache, now, from, to)
    ensures var s := Resolve(cache, now, from, to, outcome);
            && (outcome.TransportFailure? ==> s.reply == Returned(None, Some(NetworkError)))
            && (outcome.Document? && outcome.result != Some("success") ==>
                  s.reply == Returned(None, Some(ApiError)))
            && (outcome.Document? && outcome.result == Some("success") && outcome.conversionRates.Object?
                && (Upper(to) !in outcome.conversionRates.rates
                    || outcome.conversionRates.rates[Upper(to)] == None) ==>
                  s.reply == Returned(None, Some(CurrencyNotFound)))
            && (outcome.NonObjectBody? ==> s.reply == Raised)
            && (outcome.Document? && outcome.result == Some("success") && !outcome.conversionRates.Object? ==>
                  s.reply == Raised)
            && (forall rate :: Quotes(outcome, Upper(to), rate) ==>
                  s.reply == Returned(Some(rate), None)
                  && s.cache == cache[CacheKey(from, to) := CacheEntry(now, rate)])
            && (s.cache != cache ==> exists rate :: Quotes(outcome, Upper(to), rate))
  {
  }

  /** A successful call sets its own key to the time of the call and the
      returned rate, and leaves every other key as it was. */
  lemma SuccessTouchesOneKey(cache: Cache, now: Time, from: string, to: string, outcome: ProviderOutcome)
    requires Resolve(cache, now, from, to, outcome).reply.Returned?
    requires Resolve(cache, now, from, to, outcome).reply.rate.Some?
    ensures var s := Resolve(cache, now, from, to, outcome);
            && CacheKey(from, to) in s.cache
            && s.cache[CacheKey(from, to)].rate == s.reply.rate.value
            && (s.request.Some? ==> s.cache[CacheKey(from, to)].timestamp == now)
            && s.cache.Keys == cache.Keys + {CacheKey(from, to)}
            && forall k :: k in cache && k != CacheKey(from, to) ==> s.cache[k] == cache[k]
  {
  }

  /** Right after a call that returned a rate, the same call at the same time
      is a hit that returns the same rate, makes no request and changes
      nothing, whatever the provider would say. */
  lemma RepeatIsHit(cache: Cache, now: Time, from: string, to: string, outcome: ProviderOutcome,
                    later: ProviderOutcome)
    requires Resolve(cache, now, from, to, outcome).reply.Returned?
    requires Resolve(cache, now, from, to, outcome).reply.rate.Some?
    ensures var s := Resolve(cache, now, from, to, outcome);
            Resolve(s.cache, now, from, to, later) == Step(s.reply, None, s.cache)
  {
  }

  /** Repeating a call with the same inputs, at the same time and with the
      same provider outcome, gives the same reply and leaves the same cache. */
  lemma Idempotent(cache: Cache, now: Time, from: string, to: string, outcome: ProviderOutcome)
    ensures var s := Resolve(cache, now, from, to, outcome);
            var s' := Resolve(s.cache, now, from, to, outcome);
            s'.reply == s.reply && s'.cache == s.cache
  {
  }

  /** A refresh after expiry overwrites the earlier rate: the cache then holds
      the second rate, stamped with the second call's time. */
  lemma OverwriteOnRefresh(cache: Cache, t1: Time, t2: Time, from: string, to: string,
                           o1: ProviderOutcome, o2: ProviderOutcome, r1: Rate, r2: Rate)
    requires !IsHit(cache, t1, from, to)
    requires Quotes(o1, Upper(to), r1) && Quotes(o2, Upper(to), r2)
    requires t2 - t1 >= CacheExpiry
    ensures var s1 := Resolve(cache, t1, from, to, o1);
            var s2 := Resolve(s1.cache, t2, from, to, o2);
            && s1.cache[CacheKey(from, to)] == CacheEntry(t1, r1)
            && s2.reply == Returned(Some(r2), None)
            && s2.cache == cache[CacheKey(from, to) := CacheEntry(t2, r2)]
  {
  }

  /** Without an underscore in the base code the key determines the pair. */
  lemma KeyDeterminesPair(f1: string, t1: string, f2: string, t2: string)
    requires '_' !in f1 && '_' !in f2
    requires CacheKey(f1, t1) == CacheKey(f2, t2)
    ensures f1 == f2 && t1 == t2
  {
  }

  /** An underscore in the base code lets two pairs share one key. */
  lemma KeysCollide()
    ensures CacheKey("A_B", "C") == CacheKey("A", "B_C")
  {
  }

  /** Pairs that share a key share the entry: a hit for one is a hit for the
      other, with the same rate and without a request. */
  lemma SharedKeySharesHit(cache: Cache, now: Time, f1: string, t1: string, f2: string, t2: string,
                           o1: ProviderOutcome, o2: ProviderOutcome)
    requires CacheKey(f1, t1) == CacheKey(f2, t2)
    requires IsHit(cache, now, f1, t1)
    ensures Resolve(cache, now, f2, t2, o2) == Resolve(cache, now, f1, t1, o1)
  {
  }

  /** The key is built from the arguments as given: pairs differing only in
      case use different keys, although both request the same base code. */
  lemma KeysAreCaseSensitive()
    ensures CacheKey("usd", "kzt") != CacheKey("USD", "KZT")
    ensures Upper("usd") == Upper("USD") == "USD"
  {
  }

  /** The example of a conversion: an empty cache, the provider quoting 450
      for KZT against USD. */
  lemma UsdToKzt(now: Time)
    ensures var o := Document(Some("success"), Object(map["KZT" := Some(450.0)]));
            var s := Resolve(map[], now, "USD", "KZT", o);
            && s.reply == Returned(Some(450.0), None)
            && s.cache == map["USD_KZT" := CacheEntry(now, 450.0)]
  {
    assert Upper("USD") == "USD";
    assert Upper("KZT") == "KZT";
    assert CacheKey("USD", "KZT") == "USD_KZT";
  }

  /** One call in a sequence of calls. */
  datatype Call = Call(now: Time, from: string, to: string, outcome: ProviderOutcome)

  /** The cache after a sequence of calls, in order. */
  ghost function Replay(cache: Cache, calls: seq<Call>): Cache
    decreases |calls|
  {
    if calls == [] then cache
    else
      var c := calls[0];
      Replay(Resolve(cache, c.now, c.from, c.to, c.outcome).cache, calls[1..])
  }

  ghost function KeysOf(calls: seq<Call>): set<string> {
    set i | 0 <= i < |calls| :: CacheKey(calls[i].from, calls[i].to)
  }

  /** The keys of a sequence of calls: the first call's and the rest's. */
  lemma KeysOfFirst(calls: seq<Call>)
    requires calls != []
    ensures KeysOf(calls) == {CacheKey(calls[0].from, calls[0].to)} + KeysOf(calls[1..])
  {
  }

  /** No entry is ever removed, and the cache only gains keys of calls that
      were made: at most one new entry per call. */
  lemma {:induction false} ReplayKeys(cache: Cache, calls: seq<Call>)
    ensures cache.Keys <= Replay(cache, calls).Keys <= cache.Keys + KeysOf(calls)
    ensures |Replay(cache, calls).Keys| <= |cache.Keys| + |calls|
    decreases |calls|
  {
    if calls != [] {
      var c := calls[0];
      var next := Resolve(cache, c.now, c.from, c.to, c.outcome).cache;
      ReplayKeys(next, calls[1..]);
      KeysOfFirst(calls);
      assert |next.Keys| <= |cache.Keys| + 1 by {
        if next != cache {
          assert next.Keys == cache.Keys + {CacheKey(c.from, c.to)};
        }
      }
    }
  }

  /** The process-wide cache and the call that consults and fills it. */
  class RateResolver {
    var cache: Cache

    /** The cache is empty when the process starts. */
    constructor ()
      ensures cache == map[]
    {
      cache := map[];
    }

    /** `get_exchange_rate(from, to)` at time `now`; `outcome` is what the
        provider request would yield and is looked at only on a miss. */
    method GetRate(now: Time, from: string, to: string, outcome: ProviderOutcome)
      returns (reply: Reply, request: Option<string>)
      modifies this
      ensures Step(reply, request, cache) == Resolve(old(cache), now, from, to, outcome)
    {
      var key := CacheKey(from, to);
      if key in cache {
        var entry := cache[key];
        if now - entry.timestamp < CacheExpiry {
          return Returned(Some(entry.rate), None), None;
        }
      }
      request := Some(Upper(from));
      if outcome.TransportFailure? {
        return Returned(None, Some(NetworkError)), request;
      }
      if outcome.NonObjectBody? {
        return Raised, request;
      }
      if outcome.result != Some("success") {
        return Returned(None, Some(ApiError)), request;
      }
      if !outcome.conversionRates.Object? {
        return Raised, request;
      }
      var code := Upper(to);
      var rates := outcome.conversionRates.rates;
      if code !in rates || rates[code].None? {
        return Returned(None, Some(CurrencyNotFound)), request;
      }
      var rate := rates[code].value;
      cache := cache[key := CacheEntry(now, rate)];
      reply := Returned(Some(rate), None);
    }
  }
}
