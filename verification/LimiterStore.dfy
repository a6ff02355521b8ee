/** The limiter's objects, updated in place. */
module LimiterStore {
  import opened RateLimit

  class Bucket {
    var tokens: real
    const maxTokens: real
    const refillPS: real
    var lastSeen: real

    constructor (r: Rates, now: real)
      ensures View() == Level(r.burst, now) && maxTokens == r.burst && refillPS == r.rate
    {
      tokens, maxTokens, refillPS, lastSeen := r.burst, r.burst, r.rate, now;
    }

    function View(): Level
      reads this
    {
      Level(tokens, lastSeen)
    }

    method Allow(now: real) returns (ok: bool)
      modifies this
      ensures (View(), ok) == RateLimit.Allow(Rates(refillPS, maxTokens), old(View()), now)
      ensures lastSeen == now
      ensures var had := old(tokens) + (now - old(lastSeen)) * refillPS;
              ok <==> had >= 1.0 && maxTokens >= 1.0
      ensures var had := old(tokens) + (now - old(lastSeen)) * refillPS;
              tokens == (if had > maxTokens then maxTokens else had) - (if ok then 1.0 else 0.0)
    {
      var elapsed := now - lastSeen;
      lastSeen := now;
      tokens := tokens + elapsed * refillPS;
      assert tokens == old(tokens) + (now - old(lastSeen)) * refillPS;
      assert elapsed * refillPS == Earned(Rates(refillPS, maxTokens), elapsed);
      if tokens > maxTokens {
        tokens := maxTokens;
      }
      if tokens < 1.0 {
        return false;
      }
      tokens := tokens - 1.0;
      return true;
    }
  }

  class LimiterStore {
    var buckets: map<string, Bucket>
    const rates: Rates

    /** No two keys share a bucket, and every bucket has the store's rates. */
    ghost predicate Valid()
      reads this, buckets.Values
    {
      && (forall k :: k in buckets ==> buckets[k].maxTokens == rates.burst && buckets[k].refillPS == rates.rate)
      && (forall k, k' :: k in buckets && k' in buckets && k != k' ==> buckets[k] != buckets[k'])
    }

    function View(): Buckets
      reads this, buckets.Values
    {
      map k | k in buckets :: buckets[k].View()
    }

    constructor (r: Rates)
      ensures Valid() && View() == map[] && rates == r && fresh(buckets.Values)
    {
      rates, buckets := r, map[];
    }

    method Get(key: string, now: real) returns (b: Bucket)
      requires Valid()
      modifies this
      ensures Valid() && key in buckets && b == buckets[key]
      ensures View() == RateLimit.Get(rates, old(View()), key, now)
      ensures key !in old(buckets) ==> fresh(b) && b.tokens == rates.burst && b.lastSeen == now
      ensures fresh(buckets.Values - old(buckets.Values))
      ensures forall k :: k in old(buckets) ==> k in buckets && buckets[k] == old(buckets)[k]
    {
      if key in buckets {
        b := buckets[key];
      } else {
        b := new Bucket(rates, now);
        buckets := buckets[key := b];
      }
    }

    /** One pass of the cleanup goroutine. */
    method Sweep(now: real)
      requires Valid()
      modifies this
      ensures Valid() && View() == RateLimit.Sweep(old(View()), now)
      ensures forall k :: k in buckets <==> k in old(buckets) && now - old(buckets)[k].lastSeen <= 600.0
      ensures forall k :: k in buckets ==> buckets[k] == old(buckets)[k] && unchanged(buckets[k])
      ensures buckets.Values <= old(buckets.Values)
    {
      var cutoff := now - IDLE_LIMIT;
      var ips := buckets.Keys;
      while ips != {}
        invariant ips <= old(buckets).Keys
        invariant buckets == map k | k in old(buckets) && (k in ips || !Idle(old(buckets)[k].View(), now)) ::
                  old(buckets)[k]
        decreases ips
      {
        var ip :| ip in ips;
        ips := ips - {ip};
        if buckets[ip].lastSeen < cutoff {
          buckets := buckets - {ip};
        }
      }
    }

    /** The middleware's decision for one request that nothing interrupts. */
    method Decide(key: string, got: real, asked: real) returns (ok: bool)
      requires Valid()
      modifies this, buckets.Values
      ensures Valid() && fresh(buckets.Values - old(buckets.Values))
      ensures var found := RateLimit.Get(rates, old(View()), key, got);
              (View(), ok) == (found[key := RateLimit.Allow(rates, found[key], asked).0],
                               RateLimit.Allow(rates, found[key], asked).1)
    {
      var b := Get(key, got);
      ghost var mid := View();
      ok := b.Allow(asked);
      assert View() == mid[key := b.View()];
    }
  }

  /** What a request of this key would find. */
  function Found(r: Rates, bs: Buckets, key: string, now: real): real {
    if key in bs then Refilled(r, bs[key], now) else r.burst
  }

  ghost predicate FoundOk(r: Rates, bs: Buckets, key: string, now: real) {
    key in bs ==> LevelOk(r, bs[key], now)
  }

  lemma DecideSpends(r: Rates, bs: Buckets, key: string, now: real)
    requires Sane(r) && FoundOk(r, bs, key, now) && Found(r, bs, key, now) >= 1.0
    ensures var found := RateLimit.Get(r, bs, key, now);
            var (level, ok) := RateLimit.Allow(r, found[key], now);
            && ok && FoundOk(r, found[key := level], key, now)
            && Found(r, found[key := level], key, now) == Found(r, bs, key, now) - 1.0
  {
    NewBucketIsFull(r, now, now);
    AllowKeeps(r, RateLimit.Get(r, bs, key, now)[key], now);
  }

  /** `get` and `allow` are not one step: a sweep between them, which finds the held bucket idle, lets the request spend
      from a bucket the store has forgotten, and `burst` further requests at the same instant from a new one. */
  method SweepBetweenGetAndAllow(store: LimiterStore, key: string, at: real) returns (allowed: nat)
    requires store.Valid() && RefillsWhileIdle(store.rates) && store.rates.burst >= 1.0
    requires key in store.buckets && LevelOk(store.rates, store.View()[key], at) && Idle(store.View()[key], at)
    modifies store, store.buckets.Values
    ensures allowed == store.rates.burst.Floor + 1
  {
    var r := store.rates;
    var held := store.Get(key, at);
    assert held.View() == store.View()[key];
    IdleIsFull(r, held.View(), at);
    store.Sweep(at);
    assert key !in store.View() && store.buckets.Keys == store.View().Keys;
    var first := held.Allow(at);
    allowed := 0;
    if first {
      allowed := allowed + 1;
    }
    var n: nat := r.burst.Floor;
    for i := 0 to n
      invariant store.Valid() && store.rates == r && allowed == i + 1
      invariant fresh(store.buckets.Values - old(store.buckets.Values))
      invariant FoundOk(r, store.View(), key, at) && Found(r, store.View(), key, at) == r.burst - i as real
    {
      DecideSpends(r, store.View(), key, at);
      var ok := store.Decide(key, at, at);
      if ok {
        allowed := allowed + 1;
      }
    }
  }
}
