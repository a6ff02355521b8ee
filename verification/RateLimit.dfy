/** The per-IP token buckets with idle eviction. Time is in seconds; tokens are reals. */
module RateLimit {
  const IDLE_LIMIT := 600.0

  datatype Rates = Rates(rate: real, burst: real)

  /** A bucket's value. */
  datatype Level = Level(tokens: real, lastSeen: real)

  type Buckets = map<string, Level>

  /** Tokens refilled in that time: rate times seconds. */
  function Earned(r: Rates, seconds: real): real {
    seconds * r.rate
  }

  function Refilled(r: Rates, b: Level, now: real): real {
    var t := b.tokens + Earned(r, now - b.lastSeen);
    if t > r.burst then r.burst else t
  }

  function Allow(r: Rates, b: Level, now: real): (Level, bool) {
    var t := Refilled(r, b, now);
    if t < 1.0 then (Level(t, now), false) else (Level(t - 1.0, now), true)
  }

  /** `get`: a missing bucket starts full. */
  function Get(r: Rates, bs: Buckets, key: string, now: real): Buckets {
    if key in bs then bs else bs[key := Level(r.burst, now)]
  }

  predicate Idle(b: Level, now: real) {
    b.lastSeen < now - IDLE_LIMIT
  }

  function Sweep(bs: Buckets, now: real): Buckets {
    map k | k in bs && !Idle(bs[k], now) :: bs[k]
  }

  // ---- tokens ----

  ghost predicate Sane(r: Rates) {
    r.rate >= 0.0 && r.burst >= 0.0
  }

  ghost predicate LevelOk(r: Rates, b: Level, now: real) {
    0.0 <= b.tokens <= r.burst && b.lastSeen <= now
  }

  lemma EarnedIsMonotone(r: Rates, a: real, b: real)
    requires r.rate >= 0.0 && a <= b
    ensures Earned(r, a) <= Earned(r, b)
    ensures 0.0 <= a ==> 0.0 <= Earned(r, a)
  {
    assert (b - a) * r.rate >= 0.0;
    assert b * r.rate == a * r.rate + (b - a) * r.rate;
  }

  lemma EarnedAdds(r: Rates, a: real, b: real)
    ensures Earned(r, a + b) == Earned(r, a) + Earned(r, b)
  {
  }

  lemma RefillMonotone(r: Rates, b: Level, t: real, t': real)
    requires Sane(r) && LevelOk(r, b, t) && t <= t'
    ensures 0.0 <= Refilled(r, b, t) <= Refilled(r, b, t') <= r.burst
    ensures Refilled(r, b, t') <= Refilled(r, b, t) + Earned(r, t' - t)
  {
    EarnedIsMonotone(r, 0.0, t - b.lastSeen);
    EarnedIsMonotone(r, 0.0, t' - t);
    EarnedAdds(r, t - b.lastSeen, t' - t);
    assert t' - b.lastSeen == (t - b.lastSeen) + (t' - t);
    var before, more := Earned(r, t - b.lastSeen), Earned(r, t' - t);
    assert before >= 0.0 && more >= 0.0 && Earned(r, t' - b.lastSeen) == before + more;
  }

  /** Refilling in two goes is refilling in one. */
  lemma RefillFrom(r: Rates, b: Level, t: real, t': real)
    requires Sane(r) && t <= t'
    ensures var more := Refilled(r, b, t) + Earned(r, t' - t);
            Refilled(r, b, t') == if more > r.burst then r.burst else more
  {
    EarnedIsMonotone(r, 0.0, t' - t);
    EarnedAdds(r, t - b.lastSeen, t' - t);
    assert t' - b.lastSeen == (t - b.lastSeen) + (t' - t);
  }

  lemma AllowKeeps(r: Rates, b: Level, now: real)
    requires Sane(r) && LevelOk(r, b, now)
    ensures LevelOk(r, Allow(r, b, now).0, now)
    ensures Refilled(r, Allow(r, b, now).0, now) == Refilled(r, b, now) - (if Allow(r, b, now).1 then 1.0 else 0.0)
  {
    RefillMonotone(r, b, now, now);
    assert Earned(r, now - now) == 0.0;
  }

  lemma NewBucketIsFull(r: Rates, got: real, asked: real)
    requires Sane(r) && got <= asked
    ensures Refilled(r, Level(r.burst, got), asked) == r.burst && LevelOk(r, Level(r.burst, got), asked)
  {
    EarnedIsMonotone(r, 0.0, asked - got);
  }

  // ---- idle buckets ----

  /** An idle bucket is full again when `rate * 600 s >= burst`. */
  ghost predicate RefillsWhileIdle(r: Rates) {
    Sane(r) && r.rate * IDLE_LIMIT >= r.burst
  }

  lemma IdleIsFull(r: Rates, b: Level, now: real)
    requires RefillsWhileIdle(r) && LevelOk(r, b, now) && Idle(b, now)
    ensures Refilled(r, b, now) == r.burst
  {
    EarnedIsMonotone(r, IDLE_LIMIT, now - b.lastSeen);
    assert Earned(r, IDLE_LIMIT) == r.rate * IDLE_LIMIT;
  }

  lemma SlowBucket(r: Rates, now: real) returns (b: Level)
    requires Sane(r) && r.rate * IDLE_LIMIT < r.burst
    ensures LevelOk(r, b, now) && Idle(b, now) && Refilled(r, b, now) < r.burst
  {
    // just past the limit an empty bucket still misses half of what it misses at the limit
    var missing := r.burst - r.rate * IDLE_LIMIT;
    var extra := missing / (2.0 * (r.rate + 1.0));
    b := Level(0.0, now - IDLE_LIMIT - extra);
    assert extra * (r.rate + 1.0) == missing / 2.0;
    EarnedAdds(r, IDLE_LIMIT, extra);
    assert Earned(r, extra) == extra * (r.rate + 1.0) - extra;
    assert now - b.lastSeen == IDLE_LIMIT + extra;
  }

  /** The condition is exact: idle buckets are always full again if and only if `rate * 600 s >= burst`. */
  lemma IdleMeansFullIff(r: Rates, now: real)
    requires Sane(r)
    ensures (forall b: Level :: LevelOk(r, b, now) && Idle(b, now) ==> Refilled(r, b, now) == r.burst)
            <==> r.rate * 600.0 >= r.burst
  {
    if r.rate * 600.0 >= r.burst {
      forall b: Level | LevelOk(r, b, now) && Idle(b, now) ensures Refilled(r, b, now) == r.burst {
        IdleIsFull(r, b, now);
      }
    } else {
      var b := SlowBucket(r, now);
    }
  }
}
