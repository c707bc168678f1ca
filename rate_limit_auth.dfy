// The auth domain's RateLimitService: application and endpoint limits with verdict and config caches.
module AuthRateLimit {
  import opened Wrappers
  import opened Domain
  import opened TokenBuckets
  import opened RateLimitChecks

  /** A limit at application level (no endpoint) or at one endpoint; enabled when the rate is positive. */
  datatype RateLimitConfig = RateLimitConfig(appId: string, endpointId: Option<string>, rateLimit: int, burstCapacity: int)

  predicate Enabled(c: RateLimitConfig)
  {
    c.rateLimit > 0
  }

  const KeyPrefix: string := "ratelimit:"

  function AppKey(appId: string): string
  {
    KeyPrefix + appId
  }

  function EndpointKey(appId: string, endpointId: string): string
  {
    KeyPrefix + appId + ":" + endpointId
  }

  /**
   * An application-level key equals an endpoint-level key only when the first application id
   * holds a ':'; valid application ids never do, so the two levels never share a bucket.
   */
  lemma LevelsNeverCollide(a1: string, a2: string, e: string)
    requires AppKey(a1) == EndpointKey(a2, e)
    ensures ':' in a1
  {
    var k := AppKey(a1);
    assert k[|KeyPrefix|..] == a1;
    assert EndpointKey(a2, e)[|KeyPrefix|..] == a2 + ":" + e;
    assert a1[|a2|] == ':';
  }

  /** The collision the lemma rules out for valid ids: application "a:b" and endpoint "b" of application "a". */
  lemma LevelsCollideWithColon()
    ensures AppKey("a:b") == EndpointKey("a", "b")
  {
  }

  /**
   * getRateLimitConfig(appId): a cached config wins; with nothing configured in the limiter, an
   * uncached disabled default; otherwise the limiter's rate and capacity, cached.
   */
  function AppConfig(cache: map<string, RateLimitConfig>, appId: string, limiterConfig: string -> Option<(int, int)>)
    : (r: (RateLimitConfig, map<string, RateLimitConfig>))
    ensures AppKey(appId) in cache ==> r == (cache[AppKey(appId)], cache)
    ensures AppKey(appId) !in cache && limiterConfig(AppKey(appId)).None? ==>
              r == (RateLimitConfig(appId, None, 0, 0), cache) && !Enabled(r.0)
    ensures AppKey(appId) !in cache && limiterConfig(AppKey(appId)).Some? ==>
              r.0.rateLimit == limiterConfig(AppKey(appId)).value.0 && r.1 == cache[AppKey(appId) := r.0]
  {
    var key := AppKey(appId);
    if key in cache then (cache[key], cache)
    else match limiterConfig(key)
      case None => (RateLimitConfig(appId, None, 0, 0), cache)
      case Some((rate, burst)) =>
        var c := RateLimitConfig(appId, None, rate, burst);
        (c, cache[key := c])
  }

  /** getRateLimitConfig(appId, endpointId): falls back to the application level when the endpoint has none. */
  function EndpointConfig(cache: map<string, RateLimitConfig>, appId: string, endpointId: string,
                          limiterConfig: string -> Option<(int, int)>): (r: (RateLimitConfig, map<string, RateLimitConfig>))
    ensures EndpointKey(appId, endpointId) in cache ==> r == (cache[EndpointKey(appId, endpointId)], cache)
    ensures EndpointKey(appId, endpointId) !in cache && limiterConfig(EndpointKey(appId, endpointId)).None? ==>
              r == AppConfig(cache, appId, limiterConfig)
    ensures EndpointKey(appId, endpointId) !in cache && limiterConfig(EndpointKey(appId, endpointId)).Some? ==>
              r.0.endpointId == Some(endpointId) && r.1 == cache[EndpointKey(appId, endpointId) := r.0]
  {
    var key := EndpointKey(appId, endpointId);
    if key in cache then (cache[key], cache)
    else match limiterConfig(key)
      case None => AppConfig(cache, appId, limiterConfig)
      case Some((rate, burst)) =>
        var c := RateLimitConfig(appId, Some(endpointId), rate, burst);
        (c, cache[key := c])
  }

  /**
   * A config, once cached, is returned by every later lookup whatever the limiter now says: updating
   * a limit clears only the verdict cache, so the config read back can be stale.
   */
  lemma CachedConfigIsSticky(cache: map<string, RateLimitConfig>, appId: string,
                             before: string -> Option<(int, int)>, after: string -> Option<(int, int)>)
    requires before(AppKey(appId)).Some?
    ensures var (c1, cache1) := AppConfig(cache, appId, before);
      AppConfig(cache1, appId, after).0 == c1
  {
  }

  class RateLimitService {
    const limiter: RateLimiter
    var statusCache: map<string, bool>
    var configCache: map<string, RateLimitConfig>

    constructor (limiter: RateLimiter)
      ensures this.limiter == limiter && statusCache == map[] && configCache == map[]
    {
      this.limiter := limiter;
      statusCache := map[];
      configCache := map[];
    }

    /** isRateLimited(appId) and isRateLimited(appId, endpointId): the cached single check on the key. */
    method IsRateLimited(key: string) returns (limited: bool)
      requires limiter.Valid()
      modifies this`statusCache, limiter.buckets.Values
      ensures limiter.Valid()
      ensures var spec := CachedCheck(old(statusCache), old(limiter.States()), key);
        limited == spec.limited && statusCache == spec.cache && limiter.States() == spec.buckets
    {
      if key in statusCache {
        return statusCache[key];
      }
      var granted := limiter.TryAcquire(key, 1);
      limited := !granted;
      statusCache := statusCache[key := limited];
    }

    method IsAppRateLimited(appId: string) returns (limited: bool)
      requires limiter.Valid()
      modifies this`statusCache, limiter.buckets.Values
      ensures limiter.Valid()
      ensures var spec := CachedCheck(old(statusCache), old(limiter.States()), AppKey(appId));
        limited == spec.limited && statusCache == spec.cache && limiter.States() == spec.buckets
    {
      limited := IsRateLimited(AppKey(appId));
    }

    method IsEndpointRateLimited(appId: string, endpointId: string) returns (limited: bool)
      requires limiter.Valid()
      modifies this`statusCache, limiter.buckets.Values
      ensures limiter.Valid()
      ensures var spec := CachedCheck(old(statusCache), old(limiter.States()), EndpointKey(appId, endpointId));
        limited == spec.limited && statusCache == spec.cache && limiter.States() == spec.buckets
    {
      limited := IsRateLimited(EndpointKey(appId, endpointId));
    }

    /** isRateLimited(appId[, endpointId], count): always asks the limiter and overwrites the verdict. */
    method IsRateLimitedCount(key: string, count: int) returns (limited: bool)
      requires limiter.Valid()
      modifies this`statusCache, limiter.buckets.Values
      ensures count >= 0 ==> limiter.Valid()
      ensures var spec := CountCheck(old(statusCache), old(limiter.States()), key, count);
        limited == spec.limited && statusCache == spec.cache && limiter.States() == spec.buckets
    {
      var granted := limiter.TryAcquire(key, count);
      limited := !granted;
      statusCache := statusCache[key := limited];
    }

    method GetAppConfig(appId: string, limiterConfig: string -> Option<(int, int)>) returns (config: RateLimitConfig)
      modifies this`configCache
      ensures (config, configCache) == AppConfig(old(configCache), appId, limiterConfig)
    {
      var key := AppKey(appId);
      if key in configCache {
        return configCache[key];
      }
      match limiterConfig(key)
      case None =>
        return RateLimitConfig(appId, None, 0, 0);
      case Some((rate, burst)) =>
        config := RateLimitConfig(appId, None, rate, burst);
        configCache := configCache[key := config];
    }

    method GetEndpointConfig(appId: string, endpointId: string, limiterConfig: string -> Option<(int, int)>)
      returns (config: RateLimitConfig)
      modifies this`configCache
      ensures (config, configCache) == EndpointConfig(old(configCache), appId, endpointId, limiterConfig)
    {
      var key := EndpointKey(appId, endpointId);
      if key in configCache {
        return configCache[key];
      }
      match limiterConfig(key)
      case None =>
        config := GetAppConfig(appId, limiterConfig);
      case Some((rate, burst)) =>
        config := RateLimitConfig(appId, Some(endpointId), rate, burst);
        configCache := configCache[key := config];
    }

    /** updateRateLimit at either level: replaces the key's bucket and clears its verdict, not its config. */
    method UpdateRateLimit(key: string, rateLimit: int, burstCapacity: int, now: Instant)
      requires limiter.Valid()
      modifies this`statusCache, limiter`buckets
      ensures limiter.Valid()
      ensures statusCache == old(statusCache) - {key} && configCache == old(configCache)
      ensures rateLimit > 0 && burstCapacity > 0 ==> limiter.States() == old(limiter.States())[
                key := BucketState(rateLimit as real / 1000.0, burstCapacity, burstCapacity as real, now)]
      ensures rateLimit <= 0 || burstCapacity <= 0 ==> limiter.buckets == old(limiter.buckets) - {key}
    {
      limiter.CreateOrUpdate(key, rateLimit, burstCapacity, now);
      statusCache := statusCache - {key};
    }

    /** removeRateLimit at either level: drops the key's bucket and verdict, not its config. */
    method RemoveRateLimit(key: string)
      requires limiter.Valid()
      modifies this`statusCache, limiter`buckets
      ensures limiter.Valid()
      ensures statusCache == old(statusCache) - {key} && configCache == old(configCache)
      ensures limiter.States() == old(limiter.States()) - {key}
    {
      limiter.Remove(key);
      statusCache := statusCache - {key};
    }
  }
}
