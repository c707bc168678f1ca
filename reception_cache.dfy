// The reception domain's AuthorizationCache: verdicts per (app, endpoint, client IP) and per app, 60 s by default.
module ReceptionCache {
  import opened Wrappers
  import opened Domain
  import opened ExpiringCache

  const DefaultTtlMs: int := 60 * 1000

  /** A null client IP is keyed as the empty one. */
  function AuthKey(appId: string, endpointId: string, clientIp: Option<string>): string
  {
    appId + ":" + endpointId + ":" + (if clientIp.None? then "" else clientIp.value)
  }

  /** A request without a client IP shares its cached verdict with one whose IP is empty. */
  lemma NullIpSharesEmptyIpEntry(appId: string, endpointId: string)
    ensures AuthKey(appId, endpointId, None) == AuthKey(appId, endpointId, Some(""))
  {
  }

  class AuthorizationCache {
    var authCache: map<string, Entry>
    var rateLimitCache: map<string, Entry>

    constructor ()
      ensures authCache == map[] && rateLimitCache == map[]
    {
      authCache := map[];
      rateLimitCache := map[];
    }

    /** getAuthorizationResult, with the default TTL or the one given. */
    method GetAuthorizationResult(appId: string, endpointId: string, clientIp: Option<string>, supplied: bool,
                                  ttlMs: int, now: Instant) returns (result: bool)
      modifies this`authCache
      ensures (result, authCache) == Lookup(old(authCache), AuthKey(appId, endpointId, clientIp), supplied, ttlMs, now)
    {
      var key := AuthKey(appId, endpointId, clientIp);
      if key !in authCache || Expired(authCache[key], now) {
        result := supplied;
        authCache := authCache[key := Entry(result, now + ttlMs)];
        return;
      }
      return authCache[key].value;
    }

    /** getRateLimitResult: keyed by the bare application id. */
    method GetRateLimitResult(appId: string, supplied: bool, ttlMs: int, now: Instant) returns (result: bool)
      modifies this`rateLimitCache
      ensures (result, rateLimitCache) == Lookup(old(rateLimitCache), appId, supplied, ttlMs, now)
    {
      if appId !in rateLimitCache || Expired(rateLimitCache[appId], now) {
        result := supplied;
        rateLimitCache := rateLimitCache[appId := Entry(result, now + ttlMs)];
        return;
      }
      return rateLimitCache[appId].value;
    }

    method InvalidateAuthorizationCache(appId: string, endpointId: string, clientIp: Option<string>)
      modifies this`authCache
      ensures authCache == old(authCache) - {AuthKey(appId, endpointId, clientIp)}
    {
      authCache := authCache - {AuthKey(appId, endpointId, clientIp)};
    }

    method InvalidateRateLimitCache(appId: string)
      modifies this`rateLimitCache
      ensures rateLimitCache == old(rateLimitCache) - {appId}
    {
      rateLimitCache := rateLimitCache - {appId};
    }
  }

  /** After invalidation the next lookup of that key recomputes, at any instant. */
  lemma InvalidationForcesRecompute(cache: map<string, Entry>, key: string, supplied: bool, ttlMs: int, now: Instant)
    ensures Lookup(cache - {key}, key, supplied, ttlMs, now).0 == supplied
  {
  }
}
