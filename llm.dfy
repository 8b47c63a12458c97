/**
 * The self-contained parts of the LLM layer: the provider configuration
 * check, the provider registry's name lookups and the in-memory response
 * cache with expiry and eviction. The clock is a `now` parameter (seconds).
 */
module Llm {
  import opened Wrappers

  /** A provider configuration; the float fields `retry_backoff` and `temperature` are left out. */
  datatype ProviderConfig = ProviderConfig(
    apiKey: string,
    model: string,
    baseUrl: Option<string>,
    timeout: int,
    maxRetries: int,
    maxTokens: int)

  /** A configuration with the source's defaults for every field that is not given. */
  function DefaultConfig(apiKey: string, model: string): ProviderConfig
  {
    ProviderConfig(apiKey, model, None, 30, 3, 4000)
  }

  // --- Configuration validation ---

  const ApiKeyRequired := "API key is required"
  const TimeoutNotPositive := "Timeout must be positive"
  const RetriesNegative := "Max retries must be non-negative"

  /** The position of a check's message in the order the checks run. */
  function CheckOrder(message: string): nat
  {
    if message == ApiKeyRequired then 0
    else if message == TimeoutNotPositive then 1
    else 2
  }

  /**
   * The messages of the violated checks, in the order the checks run: an
   * empty API key, a timeout that is not positive, a negative retry count.
   */
  method ValidateProviderConfig(config: ProviderConfig) returns (errors: seq<string>)
    ensures (ApiKeyRequired in errors) <==> config.apiKey == ""
    ensures (TimeoutNotPositive in errors) <==> config.timeout <= 0
    ensures (RetriesNegative in errors) <==> config.maxRetries < 0
    ensures forall e :: e in errors ==> e in {ApiKeyRequired, TimeoutNotPositive, RetriesNegative}
    ensures forall i, j :: 0 <= i < j < |errors| ==> CheckOrder(errors[i]) < CheckOrder(errors[j])
    ensures errors == [] <==> config.apiKey != "" && config.timeout > 0 && config.maxRetries >= 0
  {
    assert ApiKeyRequired[0] == 'A' && TimeoutNotPositive[0] == 'T' && RetriesNegative[0] == 'M';
    errors := [];
    if config.apiKey == "" {
      errors := errors + [ApiKeyRequired];
    }
    if config.timeout <= 0 {
      errors := errors + [TimeoutNotPositive];
    }
    if config.maxRetries < 0 {
      errors := errors + [RetriesNegative];
    }
  }

  // --- Provider registry ---

  datatype ProviderKind = OpenAI | Anthropic | Google | OpenRouter

  /** The registry, keyed by provider name. */
  const Providers: map<string, ProviderKind> :=
    map["openai" := OpenAI, "anthropic" := Anthropic, "google" := Google, "openrouter" := OpenRouter]

  /** The name each provider reports for itself. */
  function ProviderName(kind: ProviderKind): string
  {
    match kind
    case OpenAI => "openai"
    case Anthropic => "anthropic"
    case Google => "google"
    case OpenRouter => "openrouter"
  }

  /** A provider of a registered kind; its network client is not modelled. */
  datatype Provider = Provider(kind: ProviderKind, config: ProviderConfig)

  /**
   * Creates the provider registered under `providerType`; an unknown name is
   * an error whose message lists the registered names in registration order.
   */
  function CreateProvider(providerType: string, config: ProviderConfig): (r: Result<Provider, string>)
    ensures r.Success? <==> providerType in Providers
    ensures r.Success? ==> ProviderName(r.value.kind) == providerType && r.value.config == config
    ensures r.Failure? ==>
              r.error == "Unsupported provider: " + providerType + ". Supported: ['openai', 'anthropic', 'google', 'openrouter']"
  {
    if providerType in Providers then Success(Provider(Providers[providerType], config))
    else Failure("Unsupported provider: " + providerType + ". Supported: ['openai', 'anthropic', 'google', 'openrouter']")
  }

  /** The models listed for a provider name; none for an unknown name. */
  function GetSupportedModels(providerType: string): (models: seq<string>)
    ensures providerType !in Providers ==> models == []
    ensures providerType in Providers ==> |models| == 2
  {
    var table := map[
      "openai" := ["gpt-5.2", "gpt-5-mini"],
      "anthropic" := ["claude-sonnet-4-6", "claude-haiku-4-5"],
      "google" := ["gemini-3-flash-preview", "gemini-3.1-pro-preview"],
      "openrouter" := ["moonshotai/kimi-k2.5", "z-ai/glm-5"]];
    if providerType in table then table[providerType] else []
  }

  /** Creating a provider by the name it reports gives back a provider of that kind. */
  lemma ProviderNameRoundTrip(kind: ProviderKind, config: ProviderConfig)
    ensures CreateProvider(ProviderName(kind), config) == Success(Provider(kind, config))
  {
  }

  /** A name lists models exactly when a provider can be created under it. */
  lemma SupportedModelsIffCreatable(providerType: string, config: ProviderConfig)
    ensures |GetSupportedModels(providerType)| > 0 <==> CreateProvider(providerType, config).Success?
  {
  }

  // --- Response cache ---

  /** The hexadecimal SHA-256 digest of `data`, kept abstract: two keys are equal exactly when their data are. */
  datatype CacheKey = Sha256Hex(data: string)

  /** The text the key is hashed from: the four arguments joined with "|". */
  function KeyData(prompt: string, provider: string, model: string, schemaName: string): string
  {
    prompt + "|" + provider + "|" + model + "|" + schemaName
  }

  function GenerateKey(prompt: string, provider: string, model: string, schemaName: string): CacheKey
  {
    Sha256Hex(KeyData(prompt, provider, model, schemaName))
  }

  /** The position of the first "|" in `s`, or `|s|` when there is none. */
  function BarIndex(s: string): nat
  {
    if s == [] || s[0] == '|' then 0 else 1 + BarIndex(s[1..])
  }

  /** In `x + "|" + rest` with no "|" in `x`, the first "|" is the one just after `x`. */
  lemma {:induction false} BarIndexOfJoin(x: string, rest: string)
    requires '|' !in x
    ensures BarIndex(x + "|" + rest) == |x|
  {
    if x != [] {
      assert (x + "|" + rest)[1..] == x[1..] + "|" + rest;
      BarIndexOfJoin(x[1..], rest);
    }
  }

  /** Two strings joined to a rest by "|" are the same when neither contains "|" and the joined texts are. */
  lemma SplitAtFirstBar(x: string, y: string, rx: string, ry: string)
    requires '|' !in x && '|' !in y
    requires x + "|" + rx == y + "|" + ry
    ensures x == y && rx == ry
  {
    var a, b := x + "|" + rx, y + "|" + ry;
    BarIndexOfJoin(x, rx);
    BarIndexOfJoin(y, ry);
    assert x == a[..|x|] && y == b[..|y|];
    assert rx == a[|x| + 1..] && ry == b[|y| + 1..];
  }

  /** Requests that differ only in the schema name get different keys, whatever the other arguments hold. */
  lemma KeyDistinguishesSchemas(prompt: string, provider: string, model: string, schema1: string, schema2: string)
    requires schema1 != schema2
    ensures GenerateKey(prompt, provider, model, schema1) != GenerateKey(prompt, provider, model, schema2)
  {
    var head := prompt + "|" + provider + "|" + model + "|";
    assert KeyData(prompt, provider, model, schema1) == head + schema1;
    assert KeyData(prompt, provider, model, schema2) == head + schema2;
    assert (head + schema1)[|head|..] == schema1;
    assert (head + schema2)[|head|..] == schema2;
  }

  /** When no argument contains "|", requests that differ in any argument get different keys. */
  lemma KeyDistinguishesArguments(p1: string, v1: string, m1: string, s1: string,
                                  p2: string, v2: string, m2: string, s2: string)
    requires '|' !in p1 && '|' !in v1 && '|' !in m1
    requires '|' !in p2 && '|' !in v2 && '|' !in m2
    requires GenerateKey(p1, v1, m1, s1) == GenerateKey(p2, v2, m2, s2)
    ensures p1 == p2 && v1 == v2 && m1 == m2 && s1 == s2
  {
    assert KeyData(p1, v1, m1, s1) == p1 + "|" + (v1 + "|" + (m1 + "|" + s1));
    assert KeyData(p2, v2, m2, s2) == p2 + "|" + (v2 + "|" + (m2 + "|" + s2));
    SplitAtFirstBar(p1, p2, v1 + "|" + (m1 + "|" + s1), v2 + "|" + (m2 + "|" + s2));
    SplitAtFirstBar(v1, v2, m1 + "|" + s1, m2 + "|" + s2);
    SplitAtFirstBar(m1, m2, s1, s2);
  }

  /** A "|" inside an argument can make two different requests share a key. */
  lemma KeyCollidesWhenArgumentsHoldBar()
    ensures GenerateKey("a|b", "c", "m", "s") == GenerateKey("a", "b|c", "m", "s")
  {
  }

  /** An entry is expired when it has no timestamp or is strictly older than `ttl` seconds. */
  predicate Expired(timestamps: map<CacheKey, real>, key: CacheKey, ttl: int, now: real)
  {
    key !in timestamps || now - timestamps[key] > ttl as real
  }

  /** The keys of `cache` that are expired at `now`. */
  function ExpiredKeys<R>(cache: map<CacheKey, R>, timestamps: map<CacheKey, real>, ttl: int, now: real): set<CacheKey>
  {
    set k | k in cache && Expired(timestamps, k, ttl, now)
  }

  /** Once expired, an entry stays expired as the clock moves on. */
  lemma ExpiryIsPermanent(timestamps: map<CacheKey, real>, key: CacheKey, ttl: int, now: real, later: real)
    requires now <= later
    requires Expired(timestamps, key, ttl, now)
    ensures Expired(timestamps, key, ttl, later)
  {
  }

  /** An entry stored at `storedAt` is live exactly up to `ttl` seconds later, the bound included. */
  lemma StoredEntryLiveWithinTtl(timestamps: map<CacheKey, real>, key: CacheKey, ttl: int, storedAt: real, now: real)
    ensures !Expired(timestamps[key := storedAt], key, ttl, now) <==> now - storedAt <= ttl as real
  {
  }

  /** `key` has the smallest timestamp, the one Python's `min` picks. */
  ghost predicate IsOldest(timestamps: map<CacheKey, real>, key: CacheKey)
  {
    key in timestamps && forall k :: k in timestamps ==> timestamps[key] <= timestamps[k]
  }

  /** A key with the smallest timestamp, found by one pass over the keys. */
  method OldestKey(timestamps: map<CacheKey, real>) returns (oldest: CacheKey)
    requires timestamps != map[]
    ensures IsOldest(timestamps, oldest)
  {
    var remaining := timestamps.Keys;
    oldest :| oldest in remaining;
    remaining := remaining - {oldest};
    while remaining != {}
      invariant remaining <= timestamps.Keys && oldest in timestamps
      invariant forall k :: k in timestamps && k !in remaining ==> timestamps[oldest] <= timestamps[k]
      decreases remaining
    {
      var k :| k in remaining;
      if timestamps[k] < timestamps[oldest] {
        oldest := k;
      }
      remaining := remaining - {k};
    }
  }

  const EmptyMinMessage := "min() arg is an empty sequence"

  /** An in-memory cache of responses with a time to live and a size bound. */
  class ResponseCache<R> {
    var ttl: int
    var maxsize: int
    var cache: map<CacheKey, R>
    var timestamps: map<CacheKey, real>

    /** Every cached response has a timestamp and every timestamp a response. */
    ghost predicate Valid()
      reads this
    {
      cache.Keys == timestamps.Keys
    }

    constructor (ttl: int := 3600, maxsize: int := 1000)
      ensures Valid()
      ensures this.ttl == ttl && this.maxsize == maxsize
      ensures cache == map[] && timestamps == map[]
    {
      this.ttl := ttl;
      this.maxsize := maxsize;
      cache := map[];
      timestamps := map[];
    }

    predicate IsExpired(key: CacheKey, now: real)
      reads this
    {
      Expired(timestamps, key, ttl, now)
    }

    /** Removes exactly the entries that are expired at `now`. */
    method Cleanup(now: real)
      requires Valid()
      modifies this`cache, this`timestamps
      ensures Valid()
      ensures var expired := ExpiredKeys(old(cache), old(timestamps), ttl, now);
        cache == old(cache) - expired && timestamps == old(timestamps) - expired
    {
      var expiredKeys := set k | k in cache && IsExpired(k, now);
      var pending := expiredKeys;
      while pending != {}
        invariant pending <= expiredKeys
        invariant cache == old(cache) - (expiredKeys - pending)
        invariant timestamps == old(timestamps) - (expiredKeys - pending)
        decreases pending
      {
        var key :| key in pending;
        cache := cache - {key};
        timestamps := timestamps - {key};
        pending := pending - {key};
      }
    }

    /**
     * Looks a response up. First drops the expired entries; then, if the
     * cache still holds `maxsize` entries or more, evicts one with the oldest
     * timestamp (an error when there is none); then returns the entry of the
     * request's key, if any.
     */
    method Get(prompt: string, provider: string, model: string, schemaName: string, now: real)
      returns (r: Result<Option<R>, string>)
      requires Valid()
      modifies this`cache, this`timestamps
      ensures Valid()
      ensures var expired := ExpiredKeys(old(cache), old(timestamps), ttl, now);
        var live, liveTimes := old(cache) - expired, old(timestamps) - expired;
        && (|live| < maxsize ==> cache == live && timestamps == liveTimes)
        && (|live| >= maxsize && live == map[] ==> cache == live && timestamps == liveTimes)
        && (|live| >= maxsize && live != map[] ==>
              exists k :: IsOldest(liveTimes, k) && cache == live - {k} && timestamps == liveTimes - {k})
        && (r.Failure? <==> |live| >= maxsize && live == map[])
      ensures r.Failure? ==> r.error == EmptyMinMessage
      ensures var key := GenerateKey(prompt, provider, model, schemaName);
        r.Success? ==> r.value == if key in cache then Option.Some(cache[key]) else None
    {
      Cleanup(now);
      if |cache| >= maxsize {
        if timestamps == map[] {
          return Failure(EmptyMinMessage);
        }
        var oldestKey := OldestKey(timestamps);
        cache := cache - {oldestKey};
        timestamps := timestamps - {oldestKey};
      }
      var key := GenerateKey(prompt, provider, model, schemaName);
      if key in cache && !IsExpired(key, now) {
        return Success(Option.Some(cache[key]));
      }
      return Success(None);
    }

    /** Stores `response` under the request's key with timestamp `now`, replacing any entry there; never evicts. */
    method Set(prompt: string, provider: string, model: string, schemaName: string, response: R, now: real)
      requires Valid()
      modifies this`cache, this`timestamps
      ensures Valid()
      ensures var key := GenerateKey(prompt, provider, model, schemaName);
        cache == old(cache)[key := response] && timestamps == old(timestamps)[key := now]
    {
      var key := GenerateKey(prompt, provider, model, schemaName);
      cache := cache[key := response];
      timestamps := timestamps[key := now];
    }
  }

  /** A map with some keys removed is no larger. */
  lemma {:induction false} RemovingKeysShrinks<R>(m: map<CacheKey, R>, s: set<CacheKey>)
    ensures |m - s| <= |m|
  {
    var sub := (m - s).Keys;
    assert sub <= m.Keys;
    SubsetNoLarger(sub, m.Keys);
  }

  lemma {:induction false} SubsetNoLarger(a: set<CacheKey>, b: set<CacheKey>)
    requires a <= b
    ensures |a| <= |b|
    decreases |a|
  {
    if a != {} {
      var x :| x in a;
      SubsetNoLarger(a - {x}, b - {x});
    }
  }

  /** A lookup on a new cache finds nothing. */
  method FreshCacheMisses<R>(prompt: string, provider: string, model: string, schemaName: string, now: real)
    returns (r: Result<Option<R>, string>)
    ensures r == Success(None)
  {
    var c := new ResponseCache<R>();
    r := c.Get(prompt, provider, model, schemaName, now);
  }

  /**
   * A lookup with the arguments of an earlier store returns the stored
   * response, provided it has not expired and the cache was small enough
   * that nothing is evicted.
   */
  method SetThenGetHits<R>(c: ResponseCache<R>, prompt: string, provider: string, model: string, schemaName: string,
                           response: R, storedAt: real, now: real)
    returns (r: Result<Option<R>, string>)
    requires c.Valid()
    requires |c.cache| + 1 < c.maxsize
    requires storedAt <= now <= storedAt + c.ttl as real
    modifies c
    ensures r == Success(Option.Some(response))
  {
    c.Set(prompt, provider, model, schemaName, response, storedAt);
    var key := GenerateKey(prompt, provider, model, schemaName);
    ghost var stored := c.cache;
    ghost var expired := ExpiredKeys(c.cache, c.timestamps, c.ttl, now);
    RemovingKeysShrinks(stored, expired);
    assert key !in expired;
    r := c.Get(prompt, provider, model, schemaName, now);
  }

  /** Responses stored for two schemas do not overwrite each other; both are found afterwards. */
  method SchemasDoNotOverwrite<R>(c: ResponseCache<R>, prompt: string, provider: string, model: string,
                                  schema1: string, schema2: string, response1: R, response2: R, storedAt: real, now: real)
    returns (r1: Result<Option<R>, string>, r2: Result<Option<R>, string>)
    requires c.Valid()
    requires schema1 != schema2
    requires |c.cache| + 2 < c.maxsize
    requires storedAt <= now <= storedAt + c.ttl as real
    modifies c
    ensures r1 == Success(Option.Some(response1)) && r2 == Success(Option.Some(response2))
  {
    KeyDistinguishesSchemas(prompt, provider, model, schema1, schema2);
    var key1 := GenerateKey(prompt, provider, model, schema1);
    var key2 := GenerateKey(prompt, provider, model, schema2);
    c.Set(prompt, provider, model, schema1, response1, storedAt);
    c.Set(prompt, provider, model, schema2, response2, storedAt);
    ghost var expired := ExpiredKeys(c.cache, c.timestamps, c.ttl, now);
    RemovingKeysShrinks(c.cache, expired);
    assert key1 !in expired && key2 !in expired;
    r1 := c.Get(prompt, provider, model, schema1, now);
    ghost var expired2 := ExpiredKeys(c.cache, c.timestamps, c.ttl, now);
    RemovingKeysShrinks(c.cache, expired2);
    assert key2 !in expired2;
    r2 := c.Get(prompt, provider, model, schema2, now);
  }
}
