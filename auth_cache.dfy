// The auth domain's AuthorizationCache: authorization verdicts for 300 s, rate-limit verdicts for 60 s.
module AuthCache {
  import opened Domain
  import opened ExpiringCache

  const AuthTtlMs: int := 300 * 1000
  const RateLimitTtlMs: int := 60 * 1000

  function AuthKey(appId: string, endpointId: string, clientIp: string): string
  {
    "auth:" + appId + ":" + endpointId + ":" + clientIp
  }

  function RateLimitKey(appId: string): string
  {
    "ratelimit:" + appId
  }

  /** The two key spaces never meet: an authorization key and a rate-limit key always differ. */
  lemma KeySpacesDisjoint(appId: string, endpointId: string, clientIp: string, other: string)
    ensures AuthKey(appId, endpointId, clientIp) != RateLimitKey(other)
  {
    assert AuthKey(appId, endpointId, clientIp)[0] == 'a';
    assert RateLimitKey(other)[0] == 'r';
  }

  class AuthorizationCache {
    var authCache: map<string, Entry>
    var rateLimitCache: map<string, Entry>

    constructor ()
      ensures authCache == map[] && rateLimitCache == map[]
    {
      authCache := map[];
      rateLimitCache := map[];
    }

    /** getAuthorizationResult(cacheKey, supplier); `supplied` is what the supplier would return. */
    method GetAuthorizationResultByKey(key: string, supplied: bool, now: Instant) returns (result: bool)
      modifies this`authCache
      ensures (result, authCache) == Lookup(old(authCache), key, supplied, AuthTtlMs, now)
    {
      if key in authCache && !Expired(authCache[key], now) {
        return authCache[key].value;
      }
      result := supplied;
      authCache := authCache[key := Entry(result, now + AuthTtlMs)];
    }

    /** getAuthorizationResult(appId, endpointId, clientIp, supplier). */
    method GetAuthorizationResult(appId: string, endpointId: string, clientIp: string, supplied: bool, now: Instant)
      returns (result: bool)
      modifies this`authCache
      ensures (result, authCache) == Lookup(old(authCache), AuthKey(appId, endpointId, clientIp), supplied, AuthTtlMs, now)
    {
      result := GetAuthorizationResultByKey(AuthKey(appId, endpointId, clientIp), supplied, now);
    }

    method GetRateLimitResult(appId: string, supplied: bool, now: Instant) returns (result: bool)
      modifies this`rateLimitCache
      ensures (result, rateLimitCache) == Lookup(old(rateLimitCache), RateLimitKey(appId), supplied, RateLimitTtlMs, now)
    {
      var key := RateLimitKey(appId);
      if key in rateLimitCache && !Expired(rateLimitCache[key], now) {
        return rateLimitCache[key].value;
      }
      result := supplied;
      rateLimitCache := rateLimitCache[key := Entry(result, now + RateLimitTtlMs)];
    }

    /** cleanupCache: the periodic sweep removing expired entries from both caches. */
    method CleanupCache(now: Instant) returns (authExpired: nat, rateLimitExpired: nat)
      modifies this
      ensures authCache == Cleaned(old(authCache), now) && rateLimitCache == Cleaned(old(rateLimitCache), now)
      ensures authExpired == |old(authCache).Keys| - |authCache.Keys|
      ensures rateLimitExpired == |old(rateLimitCache).Keys| - |rateLimitCache.Keys|
    {
      authCache, authExpired := Cleanup(authCache, now);
      rateLimitCache, rateLimitExpired := Cleanup(rateLimitCache, now);
    }
  }
}
