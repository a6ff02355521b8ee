/** Runs of the limiter in which a request first takes its bucket from the store and only later, the store being
    unlocked in between, spends a token of it; evictions fall anywhere. */
module LimiterRuns {
  import opened RateLimit

  datatype Bucket = Bucket(key: string, level: Level)

  /** A request holds the bucket of that number until it is done. */
  datatype Held = Held(bucket: nat, done: bool)

  /** `buckets` are all that were ever made, `store` the ones the store still has, by key. */
  datatype Limiter = Limiter(buckets: seq<Bucket>, store: map<string, nat>, held: seq<Held>,
      answers: seq<(string, bool)>)

  /** `Take`: a new request takes the bucket of its key. `Spend`: a request spends. `Evict`: the cleanup loop comes to
      this key; its `cutoff` time was read before it took the lock. */
  datatype Event =
    | Take(key: string, at: real)
    | Spend(request: nat, at: real)
    | Evict(key: string, cutoff: real, at: real)

  const NEW := Limiter([], map[], [], [])

  function AtGet(r: Rates, l: Limiter, key: string, at: real): Limiter {
    if key in l.store then l.(held := l.held + [Held(l.store[key], false)])
    else l.(buckets := l.buckets + [Bucket(key, Level(r.burst, at))], store := l.store[key := |l.buckets|],
            held := l.held + [Held(|l.buckets|, false)])
  }

  function AtAllow(r: Rates, l: Limiter, q: nat, at: real): Limiter
    requires q < |l.held| && l.held[q].bucket < |l.buckets|
  {
    var n := l.held[q].bucket;
    var (level, ok) := RateLimit.Allow(r, l.buckets[n].level, at);
    l.(buckets := l.buckets[n := Bucket(l.buckets[n].key, level)], held := l.held[q := Held(n, true)],
       answers := l.answers + [(l.buckets[n].key, ok)])
  }

  /** The eviction finds the key's bucket idle. */
  predicate Removes(l: Limiter, key: string, cutoff: real) {
    key in l.store && l.store[key] < |l.buckets| && Idle(l.buckets[l.store[key]].level, cutoff)
  }

  function AtEvict(l: Limiter, key: string, cutoff: real): Limiter {
    if Removes(l, key, cutoff) then l.(store := l.store - {key}) else l
  }

  predicate Spends(l: Limiter, e: Event) {
    e.Spend? && e.request < |l.held| && !l.held[e.request].done && l.held[e.request].bucket < |l.buckets|
  }

  function Step(r: Rates, l: Limiter, e: Event, sweeping: bool): Limiter {
    match e
    case Take(key, at) => AtGet(r, l, key, at)
    case Spend(q, at) => if Spends(l, e) then AtAllow(r, l, q, at) else l
    case Evict(key, cutoff, _) => if sweeping then AtEvict(l, key, cutoff) else l
  }

  function Run(r: Rates, l: Limiter, es: seq<Event>, sweeping: bool): Limiter {
    if es == [] then l
    else Step(r, Run(r, l, es[..|es| - 1], sweeping), es[|es| - 1], sweeping)
  }

  /** The time after the events, when they begin at `start`. */
  function After(es: seq<Event>, start: real): real {
    if es == [] then start else es[|es| - 1].at
  }

  /** From `start` on the clock never goes back, and no eviction uses a cutoff from the future. */
  predicate Ordered(es: seq<Event>, start: real) {
    es == [] ||
    var n := |es| - 1;
    Ordered(es[..n], start) && After(es[..n], start) <= es[n].at && (es[n].Evict? ==> es[n].cutoff <= es[n].at)
  }

  // ---- invariant ----

  ghost predicate Ok(r: Rates, l: Limiter, now: real) {
    && (forall n :: 0 <= n < |l.buckets| ==> LevelOk(r, l.buckets[n].level, now))
    && (forall key :: key in l.store ==> l.store[key] < |l.buckets| && l.buckets[l.store[key]].key == key)
    && (forall q :: 0 <= q < |l.held| ==> l.held[q].bucket < |l.buckets|)
  }

  /** What a request of this key would find in the store. */
  function Available(r: Rates, l: Limiter, key: string, now: real): real {
    if key in l.store && l.store[key] < |l.buckets| then Refilled(r, l.buckets[l.store[key]].level, now) else r.burst
  }

  /** The request is not done, and the store no longer has the bucket it holds. */
  predicate IsOrphan(l: Limiter, q: nat)
    requires q < |l.held| && l.held[q].bucket < |l.buckets|
  {
    && !l.held[q].done
    && var key := l.buckets[l.held[q].bucket].key; !(key in l.store && l.store[key] == l.held[q].bucket)
  }

  lemma StepOk(r: Rates, l: Limiter, e: Event, now: real, sweeping: bool)
    requires Sane(r) && Ok(r, l, now) && now <= e.at
    ensures Ok(r, Step(r, l, e, sweeping), e.at)
  {
    if Spends(l, e) {
      AllowKeeps(r, l.buckets[l.held[e.request].bucket].level, e.at);
    }
  }

  /** Taking a bucket and evicting one change what nobody finds. */
  lemma GetKeepsAvailable(r: Rates, l: Limiter, key: string, at: real, k: string)
    requires Sane(r) && Ok(r, l, at)
    ensures Available(r, AtGet(r, l, key, at), k, at) == Available(r, l, k, at)
  {
    NewBucketIsFull(r, at, at);
  }

  lemma EvictKeepsAvailable(r: Rates, l: Limiter, key: string, cutoff: real, at: real, k: string)
    requires RefillsWhileIdle(r) && Ok(r, l, at) && cutoff <= at
    ensures Available(r, AtEvict(l, key, cutoff), k, at) == Available(r, l, k, at)
  {
    if Removes(l, key, cutoff) && k == key {
      IdleIsFull(r, l.buckets[l.store[key]].level, at);
    }
  }

  /** Spending answers by what is available, and takes it from there; an orphan takes it from nowhere. */
  lemma AllowSpends(r: Rates, l: Limiter, q: nat, at: real, k: string)
    requires Sane(r) && Ok(r, l, at) && Spends(l, Spend(q, at))
    ensures var l', key := AtAllow(r, l, q, at), l.buckets[l.held[q].bucket].key;
            && l'.answers == l.answers + [(key, l'.answers[|l.answers|].1)]
            && (IsOrphan(l, q) ==> Available(r, l', k, at) == Available(r, l, k, at))
            && (!IsOrphan(l, q) ==>
                  && (l'.answers[|l.answers|].1 <==> Available(r, l, key, at) >= 1.0)
                  && Available(r, l', k, at)
                     == Available(r, l, k, at) - (if k == key && Available(r, l, key, at) >= 1.0 then 1.0 else 0.0))
  {
    AllowKeeps(r, l.buckets[l.held[q].bucket].level, at);
  }

  // ---- evictions that nobody can notice ----

  /** No pending request holds the bucket that this eviction would remove. */
  predicate Unheld(l: Limiter, e: Event) {
    e.Evict? && Removes(l, e.key, e.cutoff) ==>
      forall q :: 0 <= q < |l.held| ==> l.held[q].done || l.held[q].bucket != l.store[e.key]
  }

  ghost predicate NoHeldRemoved(r: Rates, l: Limiter, es: seq<Event>) {
    es == [] ||
    var n := |es| - 1;
    NoHeldRemoved(r, l, es[..n]) && Unheld(Run(r, l, es[..n], true), es[n])
  }

  /** Everybody who waits holds what the store has. */
  ghost predicate NoOrphans(l: Limiter) {
    forall q :: 0 <= q < |l.held| && l.held[q].bucket < |l.buckets| ==> !IsOrphan(l, q)
  }

  ghost predicate SameRequests(a: Limiter, b: Limiter) {
    && |a.held| == |b.held| && a.answers == b.answers
    && forall q :: 0 <= q < |a.held| && a.held[q].bucket < |a.buckets| && b.held[q].bucket < |b.buckets| ==>
         a.held[q].done == b.held[q].done && a.buckets[a.held[q].bucket].key == b.buckets[b.held[q].bucket].key
  }

  ghost predicate SameAvailable(r: Rates, a: Limiter, b: Limiter, now: real) {
    forall key :: Available(r, a, key, now) == Available(r, b, key, now)
  }

  /** The two have answered alike and nobody can tell them apart. */
  ghost predicate Alike(r: Rates, a: Limiter, b: Limiter, now: real) {
    Ok(r, a, now) && Ok(r, b, now) && NoOrphans(a) && NoOrphans(b) && SameRequests(a, b) && SameAvailable(r, a, b, now)
  }

  /** Time alone tells nobody anything. */
  lemma LaterAlike(r: Rates, a: Limiter, b: Limiter, now: real, later: real)
    requires Sane(r) && Alike(r, a, b, now) && now <= later
    ensures Alike(r, a, b, later)
  {
    forall key ensures Available(r, a, key, later) == Available(r, b, key, later) {
      assert Available(r, a, key, now) == Available(r, b, key, now);
      AvailableFrom(r, a, key, now, later);
      AvailableFrom(r, b, key, now, later);
    }
  }

  lemma AvailableFrom(r: Rates, l: Limiter, key: string, now: real, later: real)
    requires Sane(r) && Ok(r, l, now) && now <= later
    ensures var more := Available(r, l, key, now) + Earned(r, later - now);
            Available(r, l, key, later) == if more > r.burst then r.burst else more
    ensures 0.0 <= Available(r, l, key, later) <= r.burst
  {
    EarnedIsMonotone(r, 0.0, later - now);
    if key in l.store {
      RefillFrom(r, l.buckets[l.store[key]].level, now, later);
      RefillMonotone(r, l.buckets[l.store[key]].level, now, later);
    }
  }

  lemma GetAlike(r: Rates, a: Limiter, b: Limiter, key: string, at: real)
    requires Sane(r) && Alike(r, a, b, at)
    ensures Alike(r, AtGet(r, a, key, at), AtGet(r, b, key, at), at)
  {
    var a', b' := AtGet(r, a, key, at), AtGet(r, b, key, at);
    StepOk(r, a, Take(key, at), at, false);
    StepOk(r, b, Take(key, at), at, false);
    forall k ensures Available(r, a', k, at) == Available(r, b', k, at) {
      GetKeepsAvailable(r, a, key, at, k);
      GetKeepsAvailable(r, b, key, at, k);
    }
    GetNoOrphans(r, a, key, at);
    GetNoOrphans(r, b, key, at);
  }

  lemma GetNoOrphans(r: Rates, l: Limiter, key: string, at: real)
    requires Sane(r) && Ok(r, l, at) && NoOrphans(l)
    ensures NoOrphans(AtGet(r, l, key, at))
  {
    var l' := AtGet(r, l, key, at);
    forall q | 0 <= q < |l'.held| ensures !IsOrphan(l', q) {
      if q < |l.held| {
        assert !IsOrphan(l, q) && l'.held[q] == l.held[q];
      }
    }
  }

  lemma AllowAlike(r: Rates, a: Limiter, b: Limiter, q: nat, at: real)
    requires Sane(r) && Alike(r, a, b, at) && Spends(a, Spend(q, at))
    ensures Spends(b, Spend(q, at)) && Alike(r, AtAllow(r, a, q, at), AtAllow(r, b, q, at), at)
  {
    assert !IsOrphan(a, q) && !IsOrphan(b, q);
    var a', b' := AtAllow(r, a, q, at), AtAllow(r, b, q, at);
    StepOk(r, a, Spend(q, at), at, false);
    StepOk(r, b, Spend(q, at), at, false);
    forall k ensures Available(r, a', k, at) == Available(r, b', k, at) {
      AllowSpends(r, a, q, at, k);
      AllowSpends(r, b, q, at, k);
      assert Available(r, a, k, at) == Available(r, b, k, at);
      assert Available(r, a, a.buckets[a.held[q].bucket].key, at)
          == Available(r, b, a.buckets[a.held[q].bucket].key, at);
    }
    AllowSpends(r, a, q, at, "");
    AllowSpends(r, b, q, at, "");
    assert Available(r, a, a.buckets[a.held[q].bucket].key, at) == Available(r, b, a.buckets[a.held[q].bucket].key, at);
    AllowNoOrphans(r, a, q, at);
    AllowNoOrphans(r, b, q, at);
  }

  lemma AllowNoOrphans(r: Rates, l: Limiter, q: nat, at: real)
    requires Sane(r) && Ok(r, l, at) && NoOrphans(l) && Spends(l, Spend(q, at))
    ensures NoOrphans(AtAllow(r, l, q, at))
  {
    var l' := AtAllow(r, l, q, at);
    forall p | 0 <= p < |l'.held| ensures !IsOrphan(l', p) {
      assert !IsOrphan(l, p);
    }
  }

  lemma EvictAlike(r: Rates, a: Limiter, b: Limiter, e: Event)
    requires RefillsWhileIdle(r) && e.Evict? && e.cutoff <= e.at && Alike(r, a, b, e.at) && Unheld(a, e)
    ensures Alike(r, AtEvict(a, e.key, e.cutoff), b, e.at)
  {
    var a' := AtEvict(a, e.key, e.cutoff);
    StepOk(r, a, e, e.at, true);
    forall k ensures Available(r, a', k, e.at) == Available(r, b, k, e.at) {
      EvictKeepsAvailable(r, a, e.key, e.cutoff, e.at, k);
      assert Available(r, a, k, e.at) == Available(r, b, k, e.at);
    }
    forall q | 0 <= q < |a'.held| ensures !IsOrphan(a', q) {
      assert !IsOrphan(a, q);
    }
  }

  lemma StepAlike(r: Rates, a: Limiter, b: Limiter, e: Event, sweeping: bool)
    requires RefillsWhileIdle(r) && Alike(r, a, b, e.at) && (e.Evict? ==> e.cutoff <= e.at)
             && (sweeping ==> Unheld(a, e))
    ensures Alike(r, Step(r, a, e, sweeping), Step(r, b, e, false), e.at)
  {
    match e
    case Take(key, at) => GetAlike(r, a, b, key, at);
    case Spend(q, at) => if Spends(a, e) { AllowAlike(r, a, b, q, at); }
    case Evict(_, _, _) => if sweeping { EvictAlike(r, a, b, e); }
  }

  lemma {:induction false} RunsAlike(r: Rates, a: Limiter, b: Limiter, es: seq<Event>, start: real, sweeping: bool)
    requires RefillsWhileIdle(r) && Alike(r, a, b, start) && Ordered(es, start)
    requires sweeping ==> NoHeldRemoved(r, a, es)
    ensures Alike(r, Run(r, a, es, sweeping), Run(r, b, es, false), After(es, start))
  {
    if es != [] {
      var n := |es| - 1;
      RunsAlike(r, a, b, es[..n], start, sweeping);
      var a', b' := Run(r, a, es[..n], sweeping), Run(r, b, es[..n], false);
      LaterAlike(r, a', b', After(es[..n], start), es[n].at);
      StepAlike(r, a', b', es[n], sweeping);
    }
  }

  /** Eviction is invisible: in every run in which no eviction removes a bucket that a request is holding, evicting idle
      buckets at any times changes no answer to any request. */
  lemma EvictionIsInvisible(r: Rates, es: seq<Event>, start: real)
    requires RefillsWhileIdle(r) && Ordered(es, start) && NoHeldRemoved(r, NEW, es)
    ensures Run(r, NEW, es, true).answers == Run(r, NEW, es, false).answers
  {
    RunsAlike(r, NEW, NEW, es, start, true);
  }

  // ---- evictions that somebody will notice ----

  /** `n` requests for the key one after the other, each taking its bucket and spending at once. */
  function Asking(first: nat, key: string, at: real, n: nat): seq<Event> {
    if n == 0 then [] else Asking(first, key, at, n - 1) + [Take(key, at), Spend(first + n - 1, at)]
  }

  lemma RunSnoc(r: Rates, l: Limiter, es: seq<Event>, e: Event, sweeping: bool)
    ensures Run(r, l, es + [e], sweeping) == Step(r, Run(r, l, es, sweeping), e, sweeping)
  {
    assert (es + [e])[..|es|] == es;
  }

  lemma {:induction false} RunConcat(r: Rates, l: Limiter, a: seq<Event>, b: seq<Event>, sweeping: bool)
    ensures Run(r, l, a + b, sweeping) == Run(r, Run(r, l, a, sweeping), b, sweeping)
    decreases |b|
  {
    if b == [] {
      assert a + b == a;
    } else {
      assert (a + b)[..|a + b| - 1] == a + b[..|b| - 1];
      RunConcat(r, l, a, b[..|b| - 1], sweeping);
    }
  }

  /** One more request at the same instant, at once. */
  lemma AskOnce(r: Rates, l: Limiter, key: string, at: real)
    requires Sane(r) && Ok(r, l, at)
    ensures var l' := Step(r, Step(r, l, Take(key, at), false), Spend(|l.held|, at), false);
            && Ok(r, l', at) && |l'.held| == |l.held| + 1
            && l'.answers == l.answers + [(key, Available(r, l, key, at) >= 1.0)]
            && (Available(r, l, key, at) >= 1.0 ==> Available(r, l', key, at) == Available(r, l, key, at) - 1.0)
  {
    var mid := Step(r, l, Take(key, at), false);
    StepOk(r, l, Take(key, at), at, false);
    GetKeepsAvailable(r, l, key, at, key);
    assert Spends(mid, Spend(|l.held|, at)) && !IsOrphan(mid, |l.held|);
    AllowSpends(r, mid, |l.held|, at, key);
    StepOk(r, mid, Spend(|l.held|, at), at, false);
  }

  lemma AskingOneMore(r: Rates, l: Limiter, first: nat, key: string, at: real, n: nat)
    requires n > 0
    ensures Run(r, l, Asking(first, key, at, n), false)
            == Step(r, Step(r, Run(r, l, Asking(first, key, at, n - 1), false), Take(key, at), false),
                    Spend(first + n - 1, at), false)
  {
    var es := Asking(first, key, at, n - 1);
    RunSnoc(r, l, es, Take(key, at), false);
    RunSnoc(r, l, es + [Take(key, at)], Spend(first + n - 1, at), false);
    assert es + [Take(key, at)] + [Spend(first + n - 1, at)] == Asking(first, key, at, n);
  }

  /** As long as there is a token for each of them, all are allowed. */
  lemma {:induction false} AskAll(r: Rates, l: Limiter, key: string, at: real, n: nat)
    requires Sane(r) && Ok(r, l, at) && n as real <= Available(r, l, key, at)
    ensures var l' := Run(r, l, Asking(|l.held|, key, at, n), false);
            && Ok(r, l', at) && |l'.held| == |l.held| + n && |l'.answers| == |l.answers| + n
            && (n > 0 ==> l'.answers[|l.answers| + n - 1] == (key, true))
            && Available(r, l', key, at) == Available(r, l, key, at) - n as real
  {
    if n > 0 {
      assert n as real == (n - 1) as real + 1.0;
      AskAll(r, l, key, at, n - 1);
      AskingOneMore(r, l, |l.held|, key, at, n);
      var l1 := Run(r, l, Asking(|l.held|, key, at, n - 1), false);
      AskAllowed(r, l1, key, at, |l.held| + n - 1);
      var l2 := Step(r, Step(r, l1, Take(key, at), false), Spend(|l.held| + n - 1, at), false);
      assert Run(r, l, Asking(|l.held|, key, at, n), false) == l2;
      assert l2.answers[|l1.answers|] == (key, true);
    }
  }

  lemma AskAllowed(r: Rates, l: Limiter, key: string, at: real, q: nat)
    requires Sane(r) && Ok(r, l, at) && q == |l.held| && Available(r, l, key, at) >= 1.0
    ensures var l' := Step(r, Step(r, l, Take(key, at), false), Spend(q, at), false);
            && Ok(r, l', at) && |l'.held| == |l.held| + 1 && l'.answers == l.answers + [(key, true)]
            && Available(r, l', key, at) == Available(r, l, key, at) - 1.0
  {
    AskOnce(r, l, key, at);
  }

  /** One request more than there are tokens: the last is denied. */
  lemma AskTooMany(r: Rates, l: Limiter, key: string, at: real, n: nat)
    requires Sane(r) && Ok(r, l, at) && n > 0 && (n - 1) as real <= Available(r, l, key, at) < n as real
    ensures var l' := Run(r, l, Asking(|l.held|, key, at, n), false);
            |l'.answers| == |l.answers| + n && l'.answers[|l.answers| + n - 1] == (key, false)
  {
    AskAll(r, l, key, at, n - 1);
    AskingOneMore(r, l, |l.held|, key, at, n);
    AskDenied(r, Run(r, l, Asking(|l.held|, key, at, n - 1), false), key, at, |l.held| + n - 1);
  }

  lemma AskDenied(r: Rates, l: Limiter, key: string, at: real, q: nat)
    requires Sane(r) && Ok(r, l, at) && q == |l.held| && Available(r, l, key, at) < 1.0
    ensures Step(r, Step(r, l, Take(key, at), false), Spend(q, at), false).answers == l.answers + [(key, false)]
  {
    AskOnce(r, l, key, at);
  }

  lemma OrderedSnoc(es: seq<Event>, e: Event, start: real)
    requires Ordered(es, start) && After(es, start) <= e.at && (e.Evict? ==> e.cutoff <= e.at)
    ensures Ordered(es + [e], start) && After(es + [e], start) == e.at
  {
    assert (es + [e])[..|es|] == es;
  }

  lemma AskingSnoc(before: seq<Event>, first: nat, key: string, at: real, n: nat)
    requires n > 0
    ensures before + Asking(first, key, at, n)
            == before + Asking(first, key, at, n - 1) + [Take(key, at)] + [Spend(first + n - 1, at)]
  {
  }

  lemma {:induction false} AskingIsOrdered(first: nat, key: string, at: real, n: nat, before: seq<Event>)
    requires Ordered(before, at) && After(before, at) == at
    ensures Ordered(before + Asking(first, key, at, n), at) && After(before + Asking(first, key, at, n), at) == at
  {
    if n == 0 {
      assert before + [] == before;
    } else {
      var es := before + Asking(first, key, at, n - 1);
      AskingIsOrdered(first, key, at, n - 1, before);
      OrderedSnoc(es, Take(key, at), at);
      OrderedSnoc(es + [Take(key, at)], Spend(first + n - 1, at), at);
      AskingSnoc(before, first, key, at, n);
    }
  }

  /** The key has a pending request that holds the store's bucket. */
  predicate IsHeld(l: Limiter, key: string) {
    key in l.store && exists q :: 0 <= q < |l.held| && !l.held[q].done && l.held[q].bucket == l.store[key]
  }

  /** The store's bucket is gone, or still there: the holder spends from it either way, but only in one case from the
      store. */
  lemma HolderSpends(r: Rates, l: Limiter, key: string, cutoff: real, at: real, q: nat)
    requires RefillsWhileIdle(r) && r.burst >= 1.0 && Ok(r, l, at) && cutoff <= at && Removes(l, key, cutoff)
    requires q < |l.held| && !l.held[q].done && l.held[q].bucket == l.store[key]
    ensures var gone, there := AtAllow(r, AtEvict(l, key, cutoff), q, at), AtAllow(r, l, q, at);
            && Ok(r, gone, at) && Ok(r, there, at) && |gone.held| == |there.held| == |l.held|
            && gone.answers == there.answers
            && Available(r, gone, key, at) == r.burst && Available(r, there, key, at) == r.burst - 1.0
  {
    var evicted := AtEvict(l, key, cutoff);
    IdleIsFull(r, l.buckets[l.store[key]].level, at);
    StepOk(r, l, Evict(key, cutoff, at), at, true);
    StepOk(r, l, Spend(q, at), at, false);
    StepOk(r, evicted, Spend(q, at), at, false);
    AllowSpends(r, l, q, at, key);
    AllowSpends(r, evicted, q, at, key);
  }

  /** The holder spends, and then as many requests come as the burst is large. */
  function Revealing(r: Rates, l: Limiter, key: string, at: real, q: nat): seq<Event>
    requires r.burst >= 1.0
  {
    [Spend(q, at)] + Asking(|l.held|, key, at, r.burst.Floor)
  }

  lemma RevealingRuns(r: Rates, l: Limiter, l0: Limiter, key: string, at: real, q: nat)
    requires r.burst >= 1.0 && Spends(l0, Spend(q, at))
    ensures Run(r, l0, Revealing(r, l, key, at, q), false)
            == Run(r, AtAllow(r, l0, q, at), Asking(|l.held|, key, at, r.burst.Floor), false)
  {
    var spend, rest := [Spend(q, at)], Asking(|l.held|, key, at, r.burst.Floor);
    RunConcat(r, l0, spend, rest, false);
    RunSnoc(r, l0, [], spend[0], false);
    assert [] + [spend[0]] == spend;
  }

  lemma LastIsAllowed(r: Rates, l: Limiter, key: string, at: real, n: nat)
    requires Sane(r) && Ok(r, l, at) && n > 0 && n as real <= Available(r, l, key, at)
    ensures var answers := Run(r, l, Asking(|l.held|, key, at, n), false).answers;
            |answers| == |l.answers| + n && answers[|l.answers| + n - 1] == (key, true)
  {
    AskAll(r, l, key, at, n);
  }

  /** The last of `n` requests tells a bucket with `n` tokens from one with fewer. */
  lemma TellApart(r: Rates, gone: Limiter, there: Limiter, key: string, at: real, n: nat)
    requires Sane(r) && Ok(r, gone, at) && Ok(r, there, at) && |gone.held| == |there.held|
             && gone.answers == there.answers
    requires n > 0 && n as real <= Available(r, gone, key, at)
    requires (n - 1) as real <= Available(r, there, key, at) < n as real
    ensures Run(r, gone, Asking(|gone.held|, key, at, n), false).answers
            != Run(r, there, Asking(|gone.held|, key, at, n), false).answers
  {
    LastIsAllowed(r, gone, key, at, n);
    AskTooMany(r, there, key, at, n);
  }

  /** The last of them is allowed if the bucket is gone and denied if it is there. */
  lemma HeldEvictionShows(r: Rates, l: Limiter, key: string, cutoff: real, at: real, q: nat)
    requires RefillsWhileIdle(r) && r.burst >= 1.0 && Ok(r, l, at) && cutoff <= at && Removes(l, key, cutoff)
    requires q < |l.held| && !l.held[q].done && l.held[q].bucket == l.store[key]
    ensures var es := Revealing(r, l, key, at, q);
            Run(r, AtEvict(l, key, cutoff), es, false).answers != Run(r, l, es, false).answers
  {
    var evicted := AtEvict(l, key, cutoff);
    HolderSpends(r, l, key, cutoff, at, q);
    RevealingRuns(r, l, evicted, key, at, q);
    RevealingRuns(r, l, l, key, at, q);
    TellApart(r, AtAllow(r, evicted, q, at), AtAllow(r, l, q, at), key, at, r.burst.Floor);
  }

  lemma RevealingIsOrdered(r: Rates, l: Limiter, key: string, at: real, q: nat)
    requires r.burst >= 1.0
    ensures Ordered(Revealing(r, l, key, at, q), at)
  {
    assert [Spend(q, at)][..0] == [];
    AskingIsOrdered(|l.held|, key, at, r.burst.Floor, [Spend(q, at)]);
  }

  /** The exact boundary. From any state in which nobody holds an orphan, some continuation is answered differently with
      one eviction than without it if and only if the eviction finds the bucket idle and a request is holding it. */
  lemma EvictionShowsIff(r: Rates, l: Limiter, key: string, cutoff: real, at: real)
    requires RefillsWhileIdle(r) && r.burst >= 1.0 && Ok(r, l, at) && NoOrphans(l) && cutoff <= at
    ensures (exists es :: Ordered(es, at)
                && Run(r, AtEvict(l, key, cutoff), es, false).answers != Run(r, l, es, false).answers)
            <==> Removes(l, key, cutoff) && IsHeld(l, key)
  {
    if Removes(l, key, cutoff) && IsHeld(l, key) {
      var q :| 0 <= q < |l.held| && !l.held[q].done && l.held[q].bucket == l.store[key];
      HeldEvictionShows(r, l, key, cutoff, at, q);
      RevealingIsOrdered(r, l, key, at, q);
    } else {
      forall es | Ordered(es, at)
        ensures Run(r, AtEvict(l, key, cutoff), es, false).answers == Run(r, l, es, false).answers
      {
        EvictAlike(r, l, l, Evict(key, cutoff, at));
        RunsAlike(r, AtEvict(l, key, cutoff), l, es, at, false);
      }
    }
  }

  // ---- the rate guarantee ----

  function Allowed(answers: seq<(string, bool)>, key: string): nat {
    if answers == [] then 0
    else Allowed(answers[..|answers| - 1], key) + (if answers[|answers| - 1] == (key, true) then 1 else 0)
  }

  lemma AllowedOneMore(answers: seq<(string, bool)>, answer: (string, bool), key: string)
    ensures Allowed(answers + [answer], key) == Allowed(answers, key) + (if answer == (key, true) then 1 else 0)
  {
    assert (answers + [answer])[..|answers|] == answers;
  }

  /** A request of this key spends from a bucket that was evicted under it. */
  predicate SpendsOrphan(l: Limiter, e: Event, key: string) {
    Spends(l, e) && IsOrphan(l, e.request) && l.buckets[l.held[e.request].bucket].key == key
  }

  function OrphansSpent(r: Rates, l: Limiter, es: seq<Event>, key: string): nat {
    if es == [] then 0
    else
      var before := es[..|es| - 1];
      OrphansSpent(r, l, before, key) + (if SpendsOrphan(Run(r, l, before, true), es[|es| - 1], key) then 1 else 0)
  }

  /** One event: what it allowed was available, or came from an orphan. */
  lemma EventSpends(r: Rates, l: Limiter, e: Event, now: real, key: string)
    requires RefillsWhileIdle(r) && Ok(r, l, now) && now <= e.at && (e.Evict? ==> e.cutoff <= e.at)
    ensures var l' := Step(r, l, e, true);
            && Ok(r, l', e.at)
            && (Allowed(l'.answers, key) - Allowed(l.answers, key)) as real
               <= Available(r, l, key, now) + Earned(r, e.at - now) - Available(r, l', key, e.at)
                  + (if SpendsOrphan(l, e, key) then 1.0 else 0.0)
  {
    StepOk(r, l, e, now, true);
    AvailableFrom(r, l, key, now, e.at);
    match e
    case Take(k, at) => GetKeepsAvailable(r, l, k, at, key);
    case Spend(q, at) =>
      if Spends(l, e) {
        AllowSpends(r, l, q, at, key);
        AllowedOneMore(l.answers, AtAllow(r, l, q, at).answers[|l.answers|], key);
      }
    case Evict(k, cutoff, at) => EvictKeepsAvailable(r, l, k, cutoff, at, key);
  }

  function AllowedSince(r: Rates, l: Limiter, es: seq<Event>, key: string): real {
    (Allowed(Run(r, l, es, true).answers, key) - Allowed(l.answers, key)) as real
  }

  lemma {:induction false} WindowSpends(r: Rates, l: Limiter, es: seq<Event>, start: real, key: string)
    requires RefillsWhileIdle(r) && Ok(r, l, start) && Ordered(es, start)
    ensures Ok(r, Run(r, l, es, true), After(es, start)) && start <= After(es, start)
    ensures AllowedSince(r, l, es, key)
            <= Available(r, l, key, start) + Earned(r, After(es, start) - start)
               - Available(r, Run(r, l, es, true), key, After(es, start)) + OrphansSpent(r, l, es, key) as real
  {
    if es == [] {
      assert Earned(r, start - start) == 0.0;
    } else {
      var before, e := es[..|es| - 1], es[|es| - 1];
      WindowSpends(r, l, before, start, key);
      var mid, t := Run(r, l, before, true), After(before, start);
      EventSpends(r, mid, e, t, key);
      EarnedAdds(r, t - start, e.at - t);
      assert (t - start) + (e.at - t) == e.at - start;
      assert AllowedSince(r, l, es, key)
             == AllowedSince(r, l, before, key)
                + (Allowed(Step(r, mid, e, true).answers, key) - Allowed(mid.answers, key)) as real;
    }
  }

  lemma WindowBound(r: Rates, l: Limiter, es: seq<Event>, start: real, length: real, key: string)
    requires RefillsWhileIdle(r) && Ok(r, l, start) && Ordered(es, start) && After(es, start) <= start + length
    ensures AllowedSince(r, l, es, key) <= r.burst + Earned(r, length) + OrphansSpent(r, l, es, key) as real
  {
    WindowSpends(r, l, es, start, key);
    var end := After(es, start);
    AvailableFrom(r, l, key, start, start);
    AvailableFrom(r, Run(r, l, es, true), key, end, end);
    EarnedIsMonotone(r, end - start, length);
  }

  /** Rate guarantee, whatever the cleanup does: of the requests for a key within any stretch of `length` seconds of any
      run, at most `burst + rate * length` are allowed, plus those that spent from a bucket evicted while they held
      it. */
  lemma RateGuarantee(r: Rates, before: seq<Event>, t0: real, during: seq<Event>, start: real, length: real,
      key: string)
    requires RefillsWhileIdle(r) && Ordered(before, t0) && After(before, t0) <= start
    requires Ordered(during, start) && After(during, start) <= start + length
    ensures var l := Run(r, NEW, before, true);
            AllowedSince(r, l, during, key) <= r.burst + Earned(r, length) + OrphansSpent(r, l, during, key) as real
  {
    WindowSpends(r, NEW, before, t0, key);
    LaterOk(r, Run(r, NEW, before, true), After(before, t0), start);
    WindowBound(r, Run(r, NEW, before, true), during, start, length, key);
  }

  lemma LaterOk(r: Rates, l: Limiter, now: real, later: real)
    requires Ok(r, l, now) && now <= later
    ensures Ok(r, l, later)
  {
  }

  // ---- the store as a table of levels ----

  function Levels(l: Limiter): Buckets
    requires forall key :: key in l.store ==> l.store[key] < |l.buckets|
  {
    map key | key in l.store :: l.buckets[l.store[key]].level
  }

  /** What the events do to the table is what the store's methods do; evicting key by key is one sweep. */
  lemma StoreViews(r: Rates, l: Limiter, key: string, at: real)
    requires Sane(r) && Ok(r, l, at)
    ensures Ok(r, AtGet(r, l, key, at), at) && Levels(AtGet(r, l, key, at)) == RateLimit.Get(r, Levels(l), key, at)
    ensures Ok(r, AtEvict(l, key, at), at)
    ensures Levels(AtEvict(l, key, at)) == if key in Sweep(Levels(l), at) then Levels(l) else Levels(l) - {key}
  {
    StepOk(r, l, Take(key, at), at, true);
    StepOk(r, l, Evict(key, at, at), at, true);
  }
}
