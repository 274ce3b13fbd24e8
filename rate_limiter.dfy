/** Admission control for the channel. A rate limiter answers `Allow`
    once per message offered to the channel; `false` drops the message.
    `NullLimiter` admits everything; `TokenBucketRateLimiter` keeps a
    bucket of tokens that is refilled lazily, from the elapsed time, on
    each call. Clock readings are steady-clock milliseconds passed in by the
    caller. */
module RateLimiters {

  function Min(a: int, b: int): int { if a <= b then a else b }

  /** The token bucket's fields: the cap, the refill interval in
      milliseconds, the tokens added per whole interval, the current
      tokens and the time of the last refill. */
  datatype Bucket = Bucket(
    maxTokens: nat, refillInterval: nat, refillAmount: nat, tokens: nat, lastRefill: int)

  /** The bucket never holds more than its cap, and its interval is
      positive (the refill divides by it). */
  predicate Valid(b: Bucket)
  {
    b.refillInterval > 0 && b.tokens <= b.maxTokens
  }

  /** The constructor: a full bucket whose last refill is the time of
      construction. */
  function NewBucket(maxTokens: nat, refillInterval: nat, refillAmount: nat, now: int): (b: Bucket)
    requires refillInterval > 0
    ensures Valid(b) && b.tokens == b.maxTokens == maxTokens && b.lastRefill == now
    ensures b.refillInterval == refillInterval && b.refillAmount == refillAmount
  {
    Bucket(maxTokens, refillInterval, refillAmount, maxTokens, now)
  }

  /** `Refill`: when at least one whole interval has passed since the last
      refill, add the whole intervals' worth of tokens, capped, and take
      `now` as the new time of the last refill; otherwise nothing changes. */
  function Refill(b: Bucket, now: int): (r: Bucket)
    requires b.refillInterval > 0
  {
    var elapsed := now - b.lastRefill;
    if elapsed >= b.refillInterval then
      b.(tokens := Min(b.tokens + (elapsed / b.refillInterval) * b.refillAmount, b.maxTokens),
         lastRefill := now)
    else b
  }

  /** What `Refill` changes and what it keeps. */
  lemma RefillEffect(b: Bucket, now: int)
    requires Valid(b)
    ensures var r := Refill(b, now);
      && Valid(r)
      && r.maxTokens == b.maxTokens && r.refillInterval == b.refillInterval
      && r.refillAmount == b.refillAmount
      && (now - b.lastRefill < b.refillInterval ==> r == b)
      && (now - b.lastRefill >= b.refillInterval ==>
            r.lastRefill == now && b.tokens <= r.tokens
            && r.tokens == Min(b.tokens + ((now - b.lastRefill) / b.refillInterval) * b.refillAmount,
                               b.maxTokens))
  {
  }

  /** A second refill at the same instant adds nothing. */
  lemma RefillSameInstant(b: Bucket, now: int)
    requires Valid(b)
    ensures Refill(Refill(b, now), now) == Refill(b, now)
  {
  }

  /** `Allow`: refill, then take one token if there is one. The answer is
      `true` exactly when the refilled bucket held a token. */
  function BucketAllow(b: Bucket, now: int): (r: (bool, Bucket))
    requires Valid(b)
    ensures Valid(r.1)
    ensures r.0 <==> Refill(b, now).tokens > 0
    ensures r.0 ==> r.1 == Refill(b, now).(tokens := Refill(b, now).tokens - 1)
    ensures !r.0 ==> r.1 == Refill(b, now)
  {
    var c := Refill(b, now);
    if c.tokens > 0 then (true, c.(tokens := c.tokens - 1)) else (false, c)
  }

  /** The answers of `n` calls to `Allow` made at the same instant. */
  function AllowRun(b: Bucket, now: int, n: nat): (r: seq<bool>)
    requires Valid(b)
    ensures |r| == n
    decreases n
  {
    if n == 0 then [] else [BucketAllow(b, now).0] + AllowRun(BucketAllow(b, now).1, now, n - 1)
  }

  /** Calls made at one instant are admitted exactly while the refilled
      bucket lasts: the first `Refill(b, now).tokens` answers are `true`
      and every later one is `false`. */
  lemma {:induction false} SameInstantBurst(b: Bucket, now: int, n: nat)
    requires Valid(b)
    ensures forall i :: 0 <= i < n ==> AllowRun(b, now, n)[i] == (i < Refill(b, now).tokens)
    decreases n
  {
    if n > 0 {
      var c := Refill(b, now);
      var next := BucketAllow(b, now).1;
      RefillSameInstant(b, now);
      assert Refill(next, now) == (if c.tokens > 0 then c.(tokens := c.tokens - 1) else c);
      SameInstantBurst(next, now, n - 1);
      var run := AllowRun(b, now, n);
      assert run == [c.tokens > 0] + AllowRun(next, now, n - 1);
      forall i | 0 <= i < n ensures run[i] == (i < c.tokens) {
        if i > 0 {
          assert run[i] == AllowRun(next, now, n - 1)[i - 1];
        }
      }
    }
  }

  /** A fresh bucket of `maxTokens`, asked `maxTokens + 1` times before an
      interval has passed, admits `maxTokens` calls and refuses the next. */
  lemma FreshBucketBurst(maxTokens: nat, refillInterval: nat, refillAmount: nat,
                         created: int, now: int)
    requires refillInterval > 0 && created <= now < created + refillInterval
    ensures var run := AllowRun(NewBucket(maxTokens, refillInterval, refillAmount, created),
                                now, maxTokens + 1);
      (forall i :: 0 <= i < maxTokens ==> run[i]) && !run[maxTokens]
  {
    SameInstantBurst(NewBucket(maxTokens, refillInterval, refillAmount, created), now, maxTokens + 1);
  }

  /** After an exhausted bucket waits at least one interval, at least
      `min(refillAmount, maxTokens)` calls are admitted again. */
  lemma RecoveryAfterInterval(b: Bucket, now: int)
    requires Valid(b) && b.tokens == 0 && now - b.lastRefill >= b.refillInterval
    ensures Refill(b, now).tokens >= Min(b.refillAmount, b.maxTokens)
    ensures forall i :: 0 <= i < Min(b.refillAmount, b.maxTokens) ==>
      AllowRun(b, now, Min(b.refillAmount, b.maxTokens))[i]
  {
    var k := (now - b.lastRefill) / b.refillInterval;
    assert k >= 1;
    assert k * b.refillAmount >= b.refillAmount by {
      MultiplyAtLeastOne(k, b.refillAmount);
    }
    SameInstantBurst(b, now, Min(b.refillAmount, b.maxTokens));
  }

  lemma MultiplyAtLeastOne(k: int, a: nat)
    requires k >= 1
    ensures k * a >= a
  {
  }

  /** Setting the last refill to `now` forgets the part of an interval
      that had passed: an interval of 10 ms, one token per interval, polled
      at 15 ms and again at 30 ms gives two tokens where one poll at 30 ms
      gives three. */
  lemma RefillDropsPartialInterval()
    ensures var b := Bucket(100, 10, 1, 0, 0);
      Refill(Refill(b, 15), 30).tokens == 2 && Refill(b, 30).tokens == 3
  {
  }

  /** The limiters a channel can be gated by. */
  datatype Limiter = NullLimiter | TokenBucket(bucket: Bucket)

  predicate LimiterValid(l: Limiter)
  {
    l.TokenBucket? ==> Valid(l.bucket)
  }

  /** `RateLimiter::Allow`: the answer and the limiter's state after the
      call. */
  function LimiterAllow(l: Limiter, now: int): (r: (bool, Limiter))
    requires LimiterValid(l)
    ensures LimiterValid(r.1)
    ensures l.NullLimiter? ==> r == (true, NullLimiter)
    ensures l.TokenBucket? ==> r.1.TokenBucket? && (r.0, r.1.bucket) == BucketAllow(l.bucket, now)
  {
    match l
    case NullLimiter => (true, NullLimiter)
    case TokenBucket(b) => var (ok, b') := BucketAllow(b, now); (ok, TokenBucket(b'))
  }

  /** The answers of a limiter asked once at each of the given times. */
  function LimiterRun(l: Limiter, times: seq<int>): (r: seq<bool>)
    requires LimiterValid(l)
    ensures |r| == |times|
    decreases |times|
  {
    if times == [] then []
    else [LimiterAllow(l, times[0]).0] + LimiterRun(LimiterAllow(l, times[0]).1, times[1..])
  }

  /** `NullLimiter` has no state: any number of calls, at any times, all
      answer `true`. */
  lemma {:induction false} NullLimiterAlwaysAllows(times: seq<int>)
    ensures forall i :: 0 <= i < |times| ==> LimiterRun(NullLimiter, times)[i]
    decreases |times|
  {
    if times != [] {
      NullLimiterAlwaysAllows(times[1..]);
      var run := LimiterRun(NullLimiter, times);
      assert run == [true] + LimiterRun(NullLimiter, times[1..]);
      forall i | 0 <= i < |times| ensures run[i] {
        if i > 0 {
          assert run[i] == LimiterRun(NullLimiter, times[1..])[i - 1];
        }
      }
    }
  }

  /** The token-bucket object. Its fields are those of the C++ class; the
      mutex is left out because `Allow` is one critical section. */
  class TokenBucketRateLimiter {
    const maxTokens: nat
    const refillInterval: nat
    const refillAmount: nat
    var tokens: nat
    var lastRefill: int

    function State(): (b: Bucket)
      reads this
    {
      Bucket(maxTokens, refillInterval, refillAmount, tokens, lastRefill)
    }

    predicate Inv()
      reads this
    {
      Valid(State())
    }

    /** `now` is the steady-clock reading at construction. */
    constructor (maxTokens: nat, refillInterval: nat, refillAmount: nat, now: int)
      requires refillInterval > 0
      ensures Inv() && State() == NewBucket(maxTokens, refillInterval, refillAmount, now)
    {
      this.maxTokens := maxTokens;
      this.refillInterval := refillInterval;
      this.refillAmount := refillAmount;
      tokens := maxTokens;
      lastRefill := now;
    }

    method Allow(now: int) returns (allowed: bool)
      requires Inv()
      modifies this
      ensures Inv()
      ensures (allowed, State()) == BucketAllow(old(State()), now)
    {
      RefillAt(now);
      if tokens > 0 {
        tokens := tokens - 1;
        allowed := true;
      } else {
        allowed := false;
      }
    }

    /** `Refill` on the object's fields. */
    method RefillAt(now: int)
      requires Inv()
      modifies this
      ensures Inv() && State() == Refill(old(State()), now)
    {
      var elapsed := now - lastRefill;
      if elapsed >= refillInterval {
        tokens := Min(tokens + (elapsed / refillInterval) * refillAmount, maxTokens);
        lastRefill := now;
      }
    }
  }
}
