// TokenBucketIRateLimiter: one token bucket per rate-limit key, refilled by a periodic task.
module TokenBuckets {
  import opened Domain

  /** A bucket as its fields stand: refill rate per millisecond, capacity, tokens, last refill. */
  datatype BucketState = BucketState(tokensPerMs: real, capacity: int, tokens: real, lastRefillTime: Instant)

  function Min(a: real, b: real): real
  {
    if a <= b then a else b
  }

  /** generateTokens(t): nothing unless time moved forward; else add elapsed * rate, capped at capacity. */
  function Refill(s: BucketState, t: Instant): (r: BucketState)
    ensures r.tokensPerMs == s.tokensPerMs && r.capacity == s.capacity
    ensures t <= s.lastRefillTime ==> r == s
    ensures t > s.lastRefillTime ==> r.lastRefillTime == t && r.tokens <= s.capacity as real
  {
    if t <= s.lastRefillTime then s
    else s.(tokens := Min(s.capacity as real, s.tokens + (t - s.lastRefillTime) as real * s.tokensPerMs),
            lastRefillTime := t)
  }

  /** A refill never lowers the tokens below what they were, nor lifts them above the capacity. */
  lemma RefillBounds(s: BucketState, t: Instant)
    requires 0.0 <= s.tokens <= s.capacity as real && s.tokensPerMs >= 0.0
    ensures s.tokens <= Refill(s, t).tokens <= s.capacity as real
    ensures Refill(s, t).lastRefillTime >= s.lastRefillTime
  {
    if t > s.lastRefillTime {
      assert (t - s.lastRefillTime) as real * s.tokensPerMs >= 0.0;
    }
  }

  /** Refilling at t and then at the same t again is the same as refilling once. */
  lemma RefillIdempotent(s: BucketState, t: Instant)
    ensures Refill(Refill(s, t), t) == Refill(s, t)
  {
  }

  class TokenBucket {
    const tokensPerMs: real
    const capacity: int
    var tokens: real
    var lastRefillTime: Instant
    /** Tokens handed out since creation, and the creation time: the accounting behind Valid. */
    ghost var consumed: real
    ghost const createdAt: Instant

    function State(): BucketState
      reads this
    {
      BucketState(tokensPerMs, capacity, tokens, lastRefillTime)
    }

    /**
     * The bucket holds between zero and capacity tokens, and has never handed out more than its
     * capacity plus what the rate added since creation.
     */
    ghost predicate Valid()
      reads this
    {
      && capacity > 0 && tokensPerMs > 0.0
      && 0.0 <= tokens <= capacity as real
      && createdAt <= lastRefillTime
      && consumed >= 0.0
      && consumed + tokens <= capacity as real + (lastRefillTime - createdAt) as real * tokensPerMs
    }

    /** A new bucket is full. */
    constructor (rate: int, capacity: int, now: Instant)
      requires rate > 0 && capacity > 0
      ensures Valid()
      ensures State() == BucketState(rate as real / 1000.0, capacity, capacity as real, now)
    {
      tokensPerMs := rate as real / 1000.0;
      this.capacity := capacity;
      tokens := capacity as real;
      lastRefillTime := now;
      consumed := 0.0;
      createdAt := now;
    }

    /** tryConsume: succeeds, and takes the tokens, exactly when there are at least `count` of them. */
    method TryConsume(count: int) returns (ok: bool)
      modifies this`tokens, this`consumed
      ensures ok <==> count as real <= old(tokens)
      ensures tokens == if ok then old(tokens) - count as real else old(tokens)
      ensures count >= 0 && old(Valid()) ==> Valid()
    {
      if count as real <= tokens {
        tokens := tokens - count as real;
        consumed := consumed + count as real;
        return true;
      }
      return false;
    }

    method GenerateTokens(t: Instant)
      modifies this`tokens, this`lastRefillTime
      ensures State() == Refill(old(State()), t)
      ensures old(Valid()) ==> Valid()
    {
      if t <= lastRefillTime {
        return;
      }
      if Valid() {
        RefillStepKeepsBudget(State(), t, consumed, createdAt);
      }
      tokens := Min(capacity as real, tokens + (t - lastRefillTime) as real * tokensPerMs);
      lastRefillTime := t;
    }
  }

  /** A refill raises the budget by exactly what it can add to the tokens, or more. */
  lemma RefillStepKeepsBudget(s: BucketState, t: Instant, consumed: real, createdAt: Instant)
    requires t > s.lastRefillTime && s.tokensPerMs > 0.0 && createdAt <= s.lastRefillTime
    requires consumed + s.tokens <= s.capacity as real + (s.lastRefillTime - createdAt) as real * s.tokensPerMs
    ensures consumed + Refill(s, t).tokens <= s.capacity as real + (t - createdAt) as real * s.tokensPerMs
  {
    var e := (t - s.lastRefillTime) as real;
    assert (t - createdAt) as real * s.tokensPerMs
        == (s.lastRefillTime - createdAt) as real * s.tokensPerMs + e * s.tokensPerMs;
  }

  /** tryAcquire(key, count) on bucket states: a key without a bucket is granted and nothing changes. */
  function Acquire(buckets: map<string, BucketState>, key: string, count: int): (r: (bool, map<string, BucketState>))
    ensures key !in buckets ==> r == (true, buckets)
    ensures key in buckets ==> (r.0 <==> count as real <= buckets[key].tokens)
    ensures r.1.Keys == buckets.Keys && forall k :: k in buckets && k != key ==> r.1[k] == buckets[k]
    ensures key in buckets && r.0 ==> r.1[key].tokens == buckets[key].tokens - count as real
  {
    if key !in buckets then (true, buckets)
    else if count as real <= buckets[key].tokens then
      (true, buckets[key := buckets[key].(tokens := buckets[key].tokens - count as real)])
    else (false, buckets)
  }

  /** The limiter: a map from key to bucket; a key without a bucket is never limited. */
  class RateLimiter {
    var buckets: map<string, TokenBucket>

    /** Every bucket is valid, and no two keys share a bucket object. */
    ghost predicate Valid()
      reads this, buckets.Values
    {
      && (forall k :: k in buckets ==> buckets[k].Valid())
      && (forall k1, k2 :: k1 in buckets && k2 in buckets && k1 != k2 ==> buckets[k1] != buckets[k2])
    }

    /** The bucket states, key by key. */
    function States(): map<string, BucketState>
      reads this, buckets.Values
    {
      map k | k in buckets :: buckets[k].State()
    }

    constructor ()
      ensures Valid() && buckets == map[]
    {
      buckets := map[];
    }

    /**
     * tryAcquire(key, count): granted when the key has no bucket; otherwise the bucket's
     * tryConsume decides and no other bucket changes.
     */
    method TryAcquire(key: string, count: int) returns (ok: bool)
      requires Valid()
      modifies if key in buckets then {buckets[key]} else {}
      ensures (ok, States()) == Acquire(old(States()), key, count)
      ensures count >= 0 ==> Valid()
    {
      if key !in buckets {
        return true;
      }
      ghost var before := States();
      var b := buckets[key];
      ok := b.TryConsume(count);
      assert forall k :: k in buckets && k != key ==> buckets[k] != b;
      assert States() == before[key := b.State()];
      if !ok {
        assert before[key := b.State()] == before;
      }
    }

    /** createOrUpdateRateLimiter: a non-positive rate or capacity removes the key; else a new full bucket. */
    method CreateOrUpdate(key: string, rate: int, burstCapacity: int, now: Instant)
      requires Valid()
      modifies this`buckets
      ensures rate <= 0 || burstCapacity <= 0 ==> buckets == old(buckets) - {key}
      ensures rate > 0 && burstCapacity > 0 ==>
        key in buckets && fresh(buckets[key]) && buckets.Keys == old(buckets.Keys) + {key}
        && States() == old(States())[key := BucketState(rate as real / 1000.0, burstCapacity, burstCapacity as real, now)]
      ensures Valid()
    {
      if rate <= 0 || burstCapacity <= 0 {
        Remove(key);
        return;
      }
      var b := new TokenBucket(rate, burstCapacity, now);
      buckets := buckets[key := b];
    }

    method Remove(key: string)
      requires Valid()
      modifies this`buckets
      ensures buckets == old(buckets) - {key}
      ensures States() == old(States()) - {key}
      ensures Valid()
    {
      buckets := buckets - {key};
    }

    /** generateTokens: refills every bucket at the same instant; the set of keys does not change. */
    method GenerateTokens(now: Instant)
      requires Valid()
      modifies buckets.Values
      ensures buckets == old(buckets)
      ensures States() == map k | k in old(States()) :: Refill(old(States())[k], now)
      ensures Valid()
    {
      var todo := buckets.Keys;
      while todo != {}
        invariant todo <= buckets.Keys
        invariant forall k :: k in buckets && k !in todo ==> buckets[k].State() == Refill(old(buckets[k].State()), now)
        invariant forall k :: k in todo ==> buckets[k].State() == old(buckets[k].State())
        invariant forall k :: k in buckets ==> buckets[k].consumed == old(buckets[k].consumed)
        invariant Valid()
        decreases todo
      {
        var k :| k in todo;
        var b := buckets[k];
        assert forall k2 :: k2 in buckets && k2 != k ==> buckets[k2] != b;
        b.GenerateTokens(now);
        todo := todo - {k};
      }
    }
  }
}
