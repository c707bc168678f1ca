// The status-cached rate-limit check both RateLimitServices perform, and the uncached check it should be.
module RateLimitChecks {
  import opened TokenBuckets

  /** After one check: the verdict, the status cache and the bucket states. */
  datatype Check = Check(limited: bool, cache: map<string, bool>, buckets: map<string, BucketState>)

  /** isRateLimited(app[, endpoint]) as written: a cached verdict is returned without touching the bucket. */
  function CachedCheck(cache: map<string, bool>, buckets: map<string, BucketState>, key: string): Check
  {
    if key in cache then Check(cache[key], cache, buckets)
    else
      var (granted, after) := Acquire(buckets, key, 1);
      Check(!granted, cache[key := !granted], after)
  }

  /** isRateLimited(app[, endpoint], count): always asks the limiter, then overwrites the cached verdict. */
  function CountCheck(cache: map<string, bool>, buckets: map<string, BucketState>, key: string, count: int): (r: Check)
    ensures r.cache == cache[key := r.limited]
    ensures r.limited <==> !Acquire(buckets, key, count).0
  {
    var (granted, after) := Acquire(buckets, key, count);
    Check(!granted, cache[key := !granted], after)
  }

  /** The check evidently intended: every request asks the limiter for one token. */
  function UncachedCheck(cache: map<string, bool>, buckets: map<string, BucketState>, key: string): Check
  {
    var (granted, after) := Acquire(buckets, key, 1);
    Check(!granted, cache, after)
  }

  /** Once a key's verdict is cached, every later check repeats it and consumes nothing, whatever the bucket holds. */
  lemma CachedVerdictIsSticky(cache: map<string, bool>, buckets: map<string, BucketState>, key: string,
                              later: map<string, BucketState>)
    ensures var first := CachedCheck(cache, buckets, key);
      var second := CachedCheck(first.cache, later, key);
      second.limited == first.limited && second.buckets == later && second.cache == first.cache
  {
  }

  /** How many of n consecutive checks of one key are admitted, with no refill in between. */
  function CachedAdmissions(cache: map<string, bool>, buckets: map<string, BucketState>, key: string, n: nat): nat
    decreases n
  {
    if n == 0 then 0
    else
      var c := CachedCheck(cache, buckets, key);
      (if c.limited then 0 else 1) + CachedAdmissions(c.cache, c.buckets, key, n - 1)
  }

  function UncachedAdmissions(buckets: map<string, BucketState>, key: string, n: nat): nat
    decreases n
  {
    if n == 0 then 0
    else
      var c := UncachedCheck(map[], buckets, key);
      (if c.limited then 0 else 1) + UncachedAdmissions(c.buckets, key, n - 1)
  }

  /** As written: once the first check of an uncached key is admitted, all n checks are, whatever the capacity. */
  lemma {:induction false} CachedAdmitsAll(cache: map<string, bool>, buckets: map<string, BucketState>, key: string, n: nat)
    requires key in cache && !cache[key]
    ensures CachedAdmissions(cache, buckets, key, n) == n
    decreases n
  {
    if n > 0 {
      CachedAdmitsAll(cache, buckets, key, n - 1);
    }
  }

  /** A bucket with one token, and three checks of its key: as written all three pass. */
  lemma CachedCheckOverAdmits()
    ensures var buckets := map["ratelimit:app" := BucketState(0.001, 1, 1.0, 0)];
      CachedAdmissions(map[], buckets, "ratelimit:app", 3) == 3
  {
    var buckets := map["ratelimit:app" := BucketState(0.001, 1, 1.0, 0)];
    var c := CachedCheck(map[], buckets, "ratelimit:app");
    assert !c.limited;
    CachedAdmitsAll(c.cache, c.buckets, "ratelimit:app", 2);
  }

  /** Corrected: without refills, n checks of a bucketed key admit at most as many requests as it holds tokens. */
  lemma {:induction false} UncachedAdmissionsBounded(buckets: map<string, BucketState>, key: string, n: nat)
    requires key in buckets && buckets[key].tokens >= 0.0
    ensures UncachedAdmissions(buckets, key, n) as real <= buckets[key].tokens
    decreases n
  {
    if n > 0 {
      var c := UncachedCheck(map[], buckets, key);
      if !c.limited {
        UncachedAdmissionsBounded(c.buckets, key, n - 1);
      } else {
        UncachedAdmissionsBounded(c.buckets, key, n - 1);
        assert c.buckets[key].tokens == buckets[key].tokens;
        assert buckets[key].tokens < 1.0;
        assert UncachedAdmissions(c.buckets, key, n - 1) as real <= buckets[key].tokens;
      }
    }
  }

  /** The one-token example again, corrected: only the first of the three checks passes. */
  lemma UncachedCheckLimits()
    ensures var buckets := map["ratelimit:app" := BucketState(0.001, 1, 1.0, 0)];
      UncachedAdmissions(buckets, "ratelimit:app", 3) == 1
  {
    var buckets := map["ratelimit:app" := BucketState(0.001, 1, 1.0, 0)];
    var c1 := UncachedCheck(map[], buckets, "ratelimit:app");
    var c2 := UncachedCheck(map[], c1.buckets, "ratelimit:app");
    var c3 := UncachedCheck(map[], c2.buckets, "ratelimit:app");
    assert !c1.limited && c2.limited && c3.limited;
    assert c3.buckets == c2.buckets;
  }
}
