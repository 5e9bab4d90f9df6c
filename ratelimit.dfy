/** The per-client token-bucket rate limiter of the HTTP middleware. Token
    counts and instants (in seconds) are real numbers; the float64 rounding
    of the running program is not modelled. */
module RateLimit {
  import opened Common

  /** A client's bucket: the tokens left and the instant of its last request. */
  datatype Bucket = Bucket(tokens: real, lastTime: real)

  /** Stale buckets are dropped once idle for longer than ten minutes. */
  const IdleLimit: real := 600.0

  /** The tokens of an existing bucket at `now`: refilled at `rate` per
      second of elapsed time, capped at `burst`. */
  function Refilled(b: Bucket, now: real, rate: real, burst: real): (t: real)
    ensures t <= burst
    ensures t == burst || t == b.tokens + (now - b.lastTime) * rate
    ensures t < burst ==> t == b.tokens + (now - b.lastTime) * rate
    ensures t <= b.tokens + (now - b.lastTime) * rate
  {
    var t := b.tokens + (now - b.lastTime) * rate;
    if t > burst then burst else t
  }

  /** The decision for one request and the bucket left behind. */
  datatype Admission = Admission(allowed: bool, bucket: Bucket)

  /** allow for one key. An unseen key is always admitted and gets a bucket
      of `burst - 1` tokens. An existing bucket is refilled and stamped with
      `now`; it is refused iff it then holds less than one token, a refusal
      consumes nothing, and an admission consumes exactly one token. */
  function Admit(b: Option<Bucket>, now: real, rate: real, burst: real): (a: Admission)
    ensures a.bucket.lastTime == now
    ensures b.None? ==> a.allowed && a.bucket.tokens == burst - 1.0
    ensures b.Some? ==>
      var t := Refilled(b.value, now, rate, burst);
      && (!a.allowed <==> t < 1.0)
      && (!a.allowed ==> a.bucket.tokens == t)
      && (a.allowed ==> a.bucket.tokens == t - 1.0)
  {
    match b
    case None => Admission(true, Bucket(burst - 1.0, now))
    case Some(old_) =>
      var t := Refilled(old_, now, rate, burst);
      if t < 1.0 then Admission(false, Bucket(t, now)) else Admission(true, Bucket(t - 1.0, now))
  }

  /** Every bucket holds between 0 and `burst` tokens and was last used no
      later than `now`. */
  ghost predicate InBounds(buckets: map<string, Bucket>, now: real, burst: real)
  {
    forall k :: k in buckets ==> 0.0 <= buckets[k].tokens <= burst && buckets[k].lastTime <= now
  }

  /** With a non-negative rate, a burst of at least one and a clock that
      does not go back, a decision keeps the bucket within [0, burst]. */
  lemma AdmitKeepsBounds(b: Option<Bucket>, now: real, rate: real, burst: real)
    requires rate >= 0.0 && burst >= 1.0
    requires b.Some? ==> 0.0 <= b.value.tokens <= burst && b.value.lastTime <= now
    ensures 0.0 <= Admit(b, now, rate, burst).bucket.tokens <= burst
  {
    if b.Some? {
      var gain := (now - b.value.lastTime) * rate;
      MulMonotone(rate, 0.0, now - b.value.lastTime);
      assert 0.0 * rate == 0.0;
      assert gain >= 0.0;
      var t := Refilled(b.value, now, rate, burst);
      assert t == burst || t == b.value.tokens + gain;
      assert t >= 0.0;
      var a := Admit(b, now, rate, burst);
      assert a.bucket.tokens == t || a.bucket.tokens == t - 1.0;
    }
  }

  /** The decisions for successive requests of one client at `times`. */
  function Run(b: Option<Bucket>, times: seq<real>, rate: real, burst: real): seq<bool>
    decreases |times|
  {
    if times == [] then []
    else
      var a := Admit(b, times[0], rate, burst);
      [a.allowed] + Run(Some(a.bucket), times[1..], rate, burst)
  }

  predicate Nondecreasing(times: seq<real>)
  {
    forall i, j :: 0 <= i <= j < |times| ==> times[i] <= times[j]
  }

  /** `n` admissions followed by one refusal. */
  function AdmittedThenRefused(n: nat): (s: seq<bool>)
    ensures |s| == n + 1 && !s[n] && forall i :: 0 <= i < n ==> s[i]
  {
    seq(n, _ => true) + [false]
  }

  /** One request inside a burst: if the bucket holds between burst - used
      tokens and that plus the refill since `t0`, so does the refilled
      bucket at a later `now`. */
  lemma RefillWithinBurst(bk: Bucket, now: real, rate: real, burst: nat, used: nat, t0: real)
    requires used <= burst && t0 <= bk.lastTime <= now && rate >= 0.0
    requires (burst - used) as real <= bk.tokens <= (burst - used) as real + (bk.lastTime - t0) * rate
    ensures var t := Refilled(bk, now, rate, burst as real);
      (burst - used) as real <= t <= (burst - used) as real + (now - t0) * rate
  {
    MulMonotone(rate, 0.0, now - bk.lastTime);
    assert (now - t0) * rate == (bk.lastTime - t0) * rate + (now - bk.lastTime) * rate;
  }

  /** The rest of a burst: `used` requests were already admitted since `t0`,
      the bucket holds between burst - used tokens and that plus what the
      rate has refilled since `t0`, and the remaining requests come fast
      enough that less than one token is refilled overall. Then all but the
      last are admitted and the last is refused. */
  lemma {:induction false} RunRestOfBurst(bk: Bucket, times: seq<real>, rate: real, burst: nat, used: nat, t0: real)
    requires |times| >= 1 && used + |times| == burst + 1
    requires Nondecreasing(times) && t0 <= bk.lastTime <= times[0]
    requires rate >= 0.0 && (times[|times| - 1] - t0) * rate < 1.0
    requires (burst - used) as real <= bk.tokens <= (burst - used) as real + (bk.lastTime - t0) * rate
    ensures Run(Some(bk), times, rate, burst as real) == AdmittedThenRefused(|times| - 1)
    decreases |times|
  {
    var now := times[0];
    RefillWithinBurst(bk, now, rate, burst, used, t0);
    var t := Refilled(bk, now, rate, burst as real);
    var a := Admit(Some(bk), now, rate, burst as real);
    if |times| == 1 {
      assert !a.allowed;
      assert Run(Some(bk), times, rate, burst as real) == [false];
    } else {
      MulMonotone(rate, now - t0, times[|times| - 1] - t0);
      assert a.allowed && a.bucket == Bucket(t - 1.0, now);
      assert times[1..][|times| - 2] == times[|times| - 1];
      RunRestOfBurst(a.bucket, times[1..], rate, burst, used + 1, t0);
      assert Run(Some(bk), times, rate, burst as real) == [true] + AdmittedThenRefused(|times| - 2);
    }
  }

  lemma MulMonotone(r: real, x: real, y: real)
    requires r >= 0.0 && x <= y
    ensures x * r <= y * r
  {
    assert y * r - x * r == (y - x) * r;
  }

  /** With burst B and requests arriving fast enough that less than one
      token is refilled while they last, a new client gets exactly B
      requests through and the next is refused. */
  lemma BurstThenRefuse(times: seq<real>, rate: real, burst: nat)
    requires burst >= 1 && |times| == burst + 1
    requires Nondecreasing(times) && rate >= 0.0
    requires (times[burst] - times[0]) * rate < 1.0
    ensures Run(None, times, rate, burst as real) == AdmittedThenRefused(burst)
  {
    var first := Bucket(burst as real - 1.0, times[0]);
    assert (first.lastTime - times[0]) * rate == 0.0;
    RunRestOfBurst(first, times[1..], rate, burst, 1, times[0]);
    assert Run(None, times, rate, burst as real) == [true] + Run(Some(first), times[1..], rate, burst as real);
  }

  /** The buckets that survive a cleanup at `cutoff`: those last used at or
      after it, unchanged. */
  function Surviving(buckets: map<string, Bucket>, cutoff: real): (kept: map<string, Bucket>)
    ensures forall k :: k in kept <==> k in buckets && !(buckets[k].lastTime < cutoff)
    ensures forall k :: k in kept ==> kept[k] == buckets[k]
  {
    map k | k in buckets && !(buckets[k].lastTime < cutoff) :: buckets[k]
  }

  /** What the middleware does with a request. */
  datatype Verdict = TooManyRequests(code: int, message: string) | CallNext

  /** The per-client rate limiter: one bucket per key, `rate` tokens per
      second up to `burst` tokens. */
  class RateLimiter {
    var buckets: map<string, Bucket>
    const rate: real
    const burst: real

    constructor (rate: real, burst: real)
      ensures this.rate == rate && this.burst == burst && buckets == map[]
    {
      this.rate := rate;
      this.burst := burst;
      buckets := map[];
    }

    /** allow: decides for `key` at `now` and updates that key's bucket
        only; every other bucket is left as it was. */
    method Allow(key: string, now: real) returns (allowed: bool)
      modifies this
      ensures var a := Admit(if key in old(buckets) then Some(old(buckets)[key]) else None, now, rate, burst);
        allowed == a.allowed && buckets == old(buckets)[key := a.bucket]
      ensures forall k :: k != key ==> (k in buckets <==> k in old(buckets)) && (k in buckets ==> buckets[k] == old(buckets)[k])
      ensures rate >= 0.0 && burst >= 1.0 && InBounds(old(buckets), now, burst) ==> InBounds(buckets, now, burst)
    {
      if key !in buckets {
        buckets := buckets[key := Bucket(burst - 1.0, now)];
        return true;
      }
      var b := buckets[key];
      var tokens := b.tokens + (now - b.lastTime) * rate;
      if tokens > burst {
        tokens := burst;
      }
      assert tokens == Refilled(b, now, rate, burst);
      if rate >= 0.0 && burst >= 1.0 && InBounds(buckets, now, burst) {
        AdmitKeepsBounds(Some(b), now, rate, burst);
      }
      b := Bucket(tokens, now);
      if tokens < 1.0 {
        buckets := buckets[key := b];
        return false;
      }
      buckets := buckets[key := b.(tokens := tokens - 1.0)];
      allowed := true;
    }

    /** cleanup: deletes every bucket last used before `now` minus ten
        minutes and leaves the others unchanged. */
    method Cleanup(now: real)
      modifies this
      ensures buckets == Surviving(old(buckets), now - IdleLimit)
    {
      var cutoff := now - IdleLimit;
      var pending := buckets.Keys;
      while pending != {}
        invariant pending <= old(buckets).Keys
        invariant buckets == Surviving(old(buckets), cutoff) + map k | k in pending :: old(buckets)[k]
        decreases pending
      {
        var k :| k in pending;
        if buckets[k].lastTime < cutoff {
          buckets := buckets - {k};
        }
        pending := pending - {k};
      }
    }

    /** The middleware: keyed by the remote address exactly as given
        (address and port); a refused request gets 429 and does not reach
        the next handler, an admitted one is passed on. */
    method Handle(remoteAddr: string, now: real) returns (v: Verdict)
      modifies this
      ensures var a := Admit(if remoteAddr in old(buckets) then Some(old(buckets)[remoteAddr]) else None, now, rate, burst);
        && buckets == old(buckets)[remoteAddr := a.bucket]
        && (a.allowed ==> v == CallNext)
        && (!a.allowed ==> v == TooManyRequests(429, "rate limit exceeded"))
    {
      var ok := Allow(remoteAddr, now);
      if !ok {
        return TooManyRequests(429, "rate limit exceeded");
      }
      v := CallNext;
    }
  }
}
