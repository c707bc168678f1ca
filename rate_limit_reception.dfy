// The reception domain's RateLimitService: per application-and-endpoint limits with a verdict cache.
module ReceptionRateLimit {
  import opened Wrappers
  import opened Domain
  import opened TokenBuckets
  import opened RateLimitChecks
  import Text

  /** The configured limit of one application at one endpoint; enabled when the rate is positive. */
  datatype RateLimitConfig = RateLimitConfig(appId: string, endpointId: string, rateLimit: int, burstCapacity: int)

  predicate Enabled(c: RateLimitConfig)
  {
    c.rateLimit > 0
  }

  const KeyPrefix: string := "ratelimit:"

  function Key(appId: string, endpointId: string): string
  {
    KeyPrefix + appId + ":" + endpointId
  }

  /** Applications whose ids hold no ':' (every valid AppId) never share a key at any endpoints. */
  lemma KeyInjective(a1: string, e1: string, a2: string, e2: string)
    requires ':' !in a1 && ':' !in a2
    requires Key(a1, e1) == Key(a2, e2)
    ensures a1 == a2 && e1 == e2
  {
    var k := Key(a1, e1);
    assert k[|KeyPrefix|..] == Text.Join(a1, e1);
    assert Key(a2, e2)[|KeyPrefix|..] == Text.Join(a2, e2);
    Text.JoinInjective(a1, e1, a2, e2);
  }

  /** The single check without a cached verdict: a missing or disabled config caches "not limited". */
  function SingleCheck(cache: map<string, bool>, buckets: map<string, BucketState>, key: string,
                       config: Option<RateLimitConfig>): Check
  {
    if key in cache || (config.Some? && Enabled(config.value)) then CachedCheck(cache, buckets, key)
    else Check(false, cache[key := false], buckets)
  }

  /** A missing or disabled configuration never limits and never touches a bucket. */
  lemma DisabledNeverLimits(cache: map<string, bool>, buckets: map<string, BucketState>, key: string,
                            config: Option<RateLimitConfig>)
    requires key !in cache && (config.None? || !Enabled(config.value))
    ensures !SingleCheck(cache, buckets, key, config).limited
    ensures SingleCheck(cache, buckets, key, config).buckets == buckets
    ensures CachedCheck(SingleCheck(cache, buckets, key, config).cache, buckets, key).limited == false
  {
  }

  class RateLimitService {
    const limiter: RateLimiter
    var statusCache: map<string, bool>

    constructor (limiter: RateLimiter)
      ensures this.limiter == limiter && statusCache == map[]
    {
      this.limiter := limiter;
      statusCache := map[];
    }

    /** isRateLimited(appId, endpointId); `config` is what the config service returns for the pair. */
    method IsRateLimited(appId: string, endpointId: string, config: Option<RateLimitConfig>) returns (limited: bool)
      requires limiter.Valid()
      modifies this`statusCache, limiter.buckets.Values
      ensures limiter.Valid()
      ensures var spec := SingleCheck(old(statusCache), old(limiter.States()), Key(appId, endpointId), config);
        limited == spec.limited && statusCache == spec.cache && limiter.States() == spec.buckets
    {
      var key := Key(appId, endpointId);
      if key in statusCache {
        return statusCache[key];
      }
      if config.None? || !Enabled(config.value) {
        statusCache := statusCache[key := false];
        return false;
      }
      var granted := limiter.TryAcquire(key, 1);
      limited := !granted;
      statusCache := statusCache[key := limited];
    }

    /** isRateLimited(appId, endpointId, count): asks for `count` tokens and overwrites the cached verdict. */
    method IsRateLimitedCount(appId: string, endpointId: string, count: int, config: Option<RateLimitConfig>)
      returns (limited: bool)
      requires limiter.Valid()
      modifies this`statusCache, limiter.buckets.Values
      ensures count >= 0 ==> limiter.Valid()
      ensures config.None? || !Enabled(config.value) ==>
        !limited && statusCache == old(statusCache) && limiter.States() == old(limiter.States())
      ensures config.Some? && Enabled(config.value) ==>
        var spec := CountCheck(old(statusCache), old(limiter.States()), Key(appId, endpointId), count);
        limited == spec.limited && statusCache == spec.cache && limiter.States() == spec.buckets
    {
      if config.None? || !Enabled(config.value) {
        return false;
      }
      var key := Key(appId, endpointId);
      var granted := limiter.TryAcquire(key, count);
      limited := !granted;
      statusCache := statusCache[key := limited];
    }

    /** The single check as evidently intended: every call asks the limiter, nothing is cached. */
    method IsRateLimitedFixed(appId: string, endpointId: string, config: Option<RateLimitConfig>) returns (limited: bool)
      requires limiter.Valid()
      modifies limiter.buckets.Values
      ensures limiter.Valid()
      ensures config.None? || !Enabled(config.value) ==> !limited && limiter.States() == old(limiter.States())
      ensures config.Some? && Enabled(config.value) ==>
        var spec := UncachedCheck(statusCache, old(limiter.States()), Key(appId, endpointId));
        limited == spec.limited && limiter.States() == spec.buckets
    {
      if config.None? || !Enabled(config.value) {
        return false;
      }
      var granted := limiter.TryAcquire(Key(appId, endpointId), 1);
      limited := !granted;
    }

    /** updateRateLimit: replaces the pair's bucket and forgets its cached verdict. */
    method UpdateRateLimit(appId: string, endpointId: string, rateLimit: int, burstCapacity: int, now: Instant)
      requires limiter.Valid()
      modifies this`statusCache, limiter`buckets
      ensures limiter.Valid()
      ensures statusCache == old(statusCache) - {Key(appId, endpointId)}
      ensures rateLimit > 0 && burstCapacity > 0 ==> limiter.States() == old(limiter.States())[
                Key(appId, endpointId) := BucketState(rateLimit as real / 1000.0, burstCapacity, burstCapacity as real, now)]
      ensures rateLimit <= 0 || burstCapacity <= 0 ==> limiter.buckets == old(limiter.buckets) - {Key(appId, endpointId)}
    {
      var key := Key(appId, endpointId);
      limiter.CreateOrUpdate(key, rateLimit, burstCapacity, now);
      statusCache := statusCache - {key};
    }

    /** removeRateLimit: drops the pair's bucket and its cached verdict. */
    method RemoveRateLimit(appId: string, endpointId: string)
      requires limiter.Valid()
      modifies this`statusCache, limiter`buckets
      ensures limiter.Valid()
      ensures statusCache == old(statusCache) - {Key(appId, endpointId)}
      ensures limiter.States() == old(limiter.States()) - {Key(appId, endpointId)}
    {
      var key := Key(appId, endpointId);
      limiter.Remove(key);
      statusCache := statusCache - {key};
    }
  }
}
