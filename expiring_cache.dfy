// The expiring boolean cache both AuthorizationCaches keep: look up, else compute and store for a TTL.
module ExpiringCache {
  import opened Domain

  /** A cached verdict and the instant after which it is stale. */
  datatype Entry = Entry(value: bool, expiryTime: Instant)

  /** isExpired / isAfter: stale strictly after the expiry instant. */
  predicate Expired(e: Entry, now: Instant)
  {
    now > e.expiryTime
  }

  /**
   * A live entry is returned; otherwise the supplied value is returned and stored until now + ttl.
   * The answer is always the entry held under the key afterwards, no live entry is ever replaced
   * or shortened, and only the key can be added.
   */
  function Lookup(cache: map<string, Entry>, key: string, supplied: bool, ttlMs: int, now: Instant)
    : (r: (bool, map<string, Entry>))
    ensures key in r.1 && r.0 == r.1[key].value
    ensures r.1.Keys == cache.Keys + {key}
    ensures forall k :: k in cache && (k != key || !Expired(cache[k], now)) ==> r.1[k] == cache[k]
    ensures !(key in cache && !Expired(cache[key], now)) ==> r.0 == supplied
    ensures ttlMs >= 0 ==> !Expired(r.1[key], now)
  {
    if key in cache && !Expired(cache[key], now) then (cache[key].value, cache)
    else (supplied, cache[key := Entry(supplied, now + ttlMs)])
  }

  /**
   * A verdict computed at t0 is served for exactly ttl milliseconds: every lookup of the key up
   * to t0 + ttl returns it whatever the supplier says, and the first lookup after that recomputes.
   */
  lemma ServedForTtl(cache: map<string, Entry>, key: string, supplied: bool, ttlMs: int, t0: Instant,
                     later: bool, t1: Instant)
    requires !(key in cache && !Expired(cache[key], t0))
    requires t1 >= t0
    ensures var stored := Lookup(cache, key, supplied, ttlMs, t0).1;
      Lookup(stored, key, later, ttlMs, t1).0 == (if t1 <= t0 + ttlMs then supplied else later)
  {
  }

  /** The cache after removing every expired entry. */
  function Cleaned(cache: map<string, Entry>, now: Instant): (r: map<string, Entry>)
    ensures forall k :: k in r <==> k in cache && !Expired(cache[k], now)
    ensures forall k :: k in r ==> r[k] == cache[k]
  {
    map k | k in cache && !Expired(cache[k], now) :: cache[k]
  }

  /** Cleanup is invisible to lookups made at the same instant (or later). */
  lemma CleanupInvisible(cache: map<string, Entry>, key: string, supplied: bool, ttlMs: int, now: Instant, t: Instant)
    requires t >= now
    ensures Lookup(Cleaned(cache, now), key, supplied, ttlMs, t).0 == Lookup(cache, key, supplied, ttlMs, t).0
  {
  }

  /** The cleanup loop: walks a snapshot of the keys and removes those whose entry has expired. */
  method Cleanup(cache: map<string, Entry>, now: Instant) returns (r: map<string, Entry>, removed: nat)
    ensures r == Cleaned(cache, now)
    ensures removed == |cache.Keys| - |r.Keys|
  {
    r := cache;
    removed := 0;
    var todo := cache.Keys;
    while todo != {}
      invariant todo <= cache.Keys
      invariant forall k :: k in r <==> k in cache && (k in todo || !Expired(cache[k], now))
      invariant forall k :: k in r ==> r[k] == cache[k]
      invariant removed + |r.Keys| == |cache.Keys|
      decreases todo
    {
      var k :| k in todo;
      if Expired(r[k], now) {
        r := r - {k};
        removed := removed + 1;
      }
      todo := todo - {k};
    }
  }
}
