/** How many outcomes a transfer has: one for each data handler that passes the completion test. */
module TransferOutcomes {
  import opened Slicing
  import opened PacketCodec
  import opened ChunkStore
  import opened TransferState
  import opened TransferModel
  import opened TransferSafety
  import opened TransferAccounting
  import opened TransferCompletion
  import opened TransferTheorems
  import opened Counting

  /** A handler takes the branch that deletes the entry and reassembles. */
  predicate PassesTest(w: World, e: Event) {
    && e.R? && e.r.Check? && e.r.task < |w.r.tasks| && w.r.tasks[e.r.task].Counted?
    && w.r.inc.count >= w.r.inc.total
  }

  function Passes(job: Job, w: World, es: seq<Event>): nat {
    if es == [] then 0
    else Passes(job, w, es[..|es| - 1]) + Tick(PassesTest(Run(job, w, es[..|es| - 1]), es[|es| - 1]))
  }

  lemma {:induction false} PassesConcat(job: Job, w: World, a: seq<Event>, b: seq<Event>)
    ensures Passes(job, w, a + b) == Passes(job, w, a) + Passes(job, Run(job, w, a), b)
    decreases |b|
  {
    if b == [] {
      assert a + b == a;
    } else {
      var n := |b| - 1;
      assert (a + b)[..|a + b| - 1] == a + b[..n];
      PassesConcat(job, w, a, b[..n]);
      RunConcat(job, w, a, b[..n]);
    }
  }

  predicate IsOutcome(t: Task) { IsFinal(t) || t.Failing? || t.Failed? }
  predicate IsCounted(t: Task) { t.Counted? }

  /** Deliveries and failures reported, and those still on their way. */
  function Outcomes(r: Receiver): nat {
    |r.completed| + r.failures + Num(r.tasks, IsOutcome)
  }

  // ---- one outcome for each pass ----

  lemma OutcomeMove(r: Receiver, t: nat, r': Receiver)
    requires t < |r.tasks| == |r'.tasks| && r'.tasks == r.tasks[t := r'.tasks[t]]
    ensures Outcomes(r') - Outcomes(r)
            == |r'.completed| - |r.completed| + r'.failures - r.failures
               + Tick(IsOutcome(r'.tasks[t])) - Tick(IsOutcome(r.tasks[t]))
  {
    NumUpdate(r.tasks, t, r'.tasks[t], IsOutcome);
  }

  lemma OutcomeBeforeTest(job: Job, r: Receiver, n: Network, e: ReceiverEvent)
    requires SmoothThere(e) && (e.SaveEnds? || e.CountChunk? || e.Check?) && e.task < |r.tasks|
    ensures Outcomes(ReceiverStep(job, r, n, e).0)
            == Outcomes(r) + Tick(e.Check? && r.tasks[e.task].Counted? && r.inc.count >= r.inc.total)
  {
    match e
    case SaveEnds(t, ok) => if r.tasks[t].Saving? { OutcomeMove(r, t, ReceiverStep(job, r, n, e).0); }
    case CountChunk(t) => if r.tasks[t].Saved? { OutcomeMove(r, t, ReceiverStep(job, r, n, e).0); }
    case Check(t, throws) => if r.tasks[t].Counted? { OutcomeMove(r, t, AtCheck(r, t, throws)); }
  }

  lemma OutcomeAfterTest(job: Job, r: Receiver, n: Network, e: ReceiverEvent)
    requires SmoothThere(e) && (e.Fetch? || e.Verify? || e.Clear? || e.Announce?) && e.task < |r.tasks|
    ensures Outcomes(ReceiverStep(job, r, n, e).0) == Outcomes(r)
  {
    match e
    case Fetch(t, ok) => if r.tasks[t].Fetching? { OutcomeMove(r, t, ReceiverStep(job, r, n, e).0); }
    case Verify(t) => if r.tasks[t].Fetched? { OutcomeMove(r, t, AtVerify(job, r, t)); }
    case Clear(t, ok) =>
      if r.tasks[t].Completing? || r.tasks[t].Failing? || r.tasks[t].Sweeping? {
        OutcomeMove(r, t, AtClear(job, r, t, ok));
      }
    case Announce(t, throws) =>
      if r.tasks[t].Delivering? || r.tasks[t].Failed? {
        OutcomeMove(r, t, AtAnnounce(r, t, throws));
      }
  }

  lemma OutcomeStep(job: Job, w: World, e: Event)
    requires Smooth(job, e) && NoCancel(w.n.toReceiver)
    ensures Outcomes(Step(job, w, e).r) == Outcomes(w.r) + Tick(PassesTest(w, e))
  {
    if e.R? {
      if IsTaskEvent(e.r) {
        if e.r.task < |w.r.tasks| {
          if e.r.SaveEnds? || e.r.CountChunk? || e.r.Check? {
            OutcomeBeforeTest(job, w.r, w.n, e.r);
          } else {
            OutcomeAfterTest(job, w.r, w.n, e.r);
          }
        }
      } else if e.r.Arrive? {
        if e.r.lane < LANES && w.n.lanes[e.r.lane] != [] && Ours(job, w.n.lanes[e.r.lane][0]) {
          NumAppend(w.r.tasks, Saving(RowOf(Decode(w.n.lanes[e.r.lane][0]).value)), IsOutcome);
        }
      }
    }
  }

  /** Conservation of outcomes: in every run in which nothing fails or is cancelled, deliveries and failures, reported
      or on their way, are as many as the handlers that passed the completion test. */
  lemma {:induction false} OneOutcomeForEachPass(job: Job, es: seq<Event>)
    requires WellFormed(job) && job.file != [] && Total(job) <= U32_LIMIT && SmoothRun(job, es)
    ensures Outcomes(Run(job, Accepted(job), es).r) == Passes(job, Accepted(job), es)
  {
    if es != [] {
      var n := |es| - 1;
      OneOutcomeForEachPass(job, es[..n]);
      RunIsSound(job, es[..n]);
      OutcomeStep(job, Run(job, Accepted(job), es[..n]), es[n]);
    }
  }

  /** Exactly one delivery and no failure if and only if exactly one handler passed the test. */
  lemma OneOutcomeIff(job: Job, es: seq<Event>)
    requires WellFormed(job) && job.file != [] && Total(job) <= U32_LIMIT && SmoothRun(job, es)
    requires var r := Run(job, Accepted(job), es).r; Idle(r) && AllReceived(job, r)
    ensures var r := Run(job, Accepted(job), es).r;
            r.completed == [job.file] && r.failures == 0 <==> Passes(job, Accepted(job), es) == 1
  {
    var r := Run(job, Accepted(job), es).r;
    OneOutcomeForEachPass(job, es);
    RunIsSound(job, es);
    NumPositive(r.tasks, IsOutcome);
    DeliversIffAllArrived(job, es);
    if Passes(job, Accepted(job), es) == 1 {
      assert |r.completed| == 1 && r.completed[0] == job.file;
    }
  }

  // ---- what decides it: who was waiting when the last chunk was counted ----

  lemma CountGrows(job: Job, w: World, e: Event)
    ensures Step(job, w, e).r.inc.count >= w.r.inc.count && Step(job, w, e).r.inc.total == w.r.inc.total
  {
  }

  lemma {:induction false} NoPassBeforeFull(job: Job, w: World, es: seq<Event>)
    requires Run(job, w, es).r.inc.count < w.r.inc.total
    ensures Passes(job, w, es) == 0 && Run(job, w, es).r.inc.total == w.r.inc.total
    decreases |es|
  {
    TotalStays(job, w, es);
    if es != [] {
      var n := |es| - 1;
      CountGrows(job, Run(job, w, es[..n]), es[n]);
      NoPassBeforeFull(job, w, es[..n]);
    }
  }

  lemma {:induction false} TotalStays(job: Job, w: World, es: seq<Event>)
    ensures Run(job, w, es).r.inc.total == w.r.inc.total
  {
    if es != [] {
      TotalStays(job, w, es[..|es| - 1]);
      CountGrows(job, Run(job, w, es[..|es| - 1]), es[|es| - 1]);
    }
  }

  /** Nothing fails or is cancelled, and every chunk has been counted. */
  ghost predicate Full(job: Job, w: World) {
    Safe(job, w) && Sound(job, w.r) && NoCancel(w.n.toReceiver) && w.r.inc.count >= w.r.inc.total
  }

  lemma CountedMove(r: Receiver, t: nat, r': Receiver)
    requires t < |r.tasks| == |r'.tasks| && r'.tasks == r.tasks[t := r'.tasks[t]]
    ensures Num(r'.tasks, IsCounted) + Tick(IsCounted(r.tasks[t]))
            == Num(r.tasks, IsCounted) + Tick(IsCounted(r'.tasks[t]))
  {
    NumUpdate(r.tasks, t, r'.tasks[t], IsCounted);
  }

  /** A handler past its count leaves the wait for the test only through the test. */
  lemma CountedFetch(job: Job, r: Receiver, t: nat, chunks: seq<Row>)
    requires t < |r.tasks|
    ensures r.tasks[t].Fetching? ==> Num(PutTask(r, t, Fetched(chunks)).tasks, IsCounted) == Num(r.tasks, IsCounted)
    ensures r.tasks[t].Fetched? ==> Num(AtVerify(job, r, t).tasks, IsCounted) == Num(r.tasks, IsCounted)
  {
    if r.tasks[t].Fetching? {
      CountedMove(r, t, PutTask(r, t, Fetched(chunks)));
    } else if r.tasks[t].Fetched? {
      CountedMove(r, t, AtVerify(job, r, t));
    }
  }

  lemma CountedClear(job: Job, r: Receiver, t: nat, ok: bool)
    requires t < |r.tasks|
    ensures Num(AtClear(job, r, t, ok).tasks, IsCounted) == Num(r.tasks, IsCounted)
  {
    if r.tasks[t].Completing? || r.tasks[t].Failing? || r.tasks[t].Sweeping? {
      CountedMove(r, t, AtClear(job, r, t, ok));
    }
  }

  lemma CountedAnnounce(r: Receiver, t: nat, throws: bool)
    requires t < |r.tasks|
    ensures Num(AtAnnounce(r, t, throws).tasks, IsCounted) == Num(r.tasks, IsCounted)
  {
    if r.tasks[t].Delivering? || r.tasks[t].Failed? {
      CountedMove(r, t, AtAnnounce(r, t, throws));
    }
  }

  /** After that no chunk is taken any more. */
  lemma FullTaskStep(job: Job, r: Receiver, n: Network, e: ReceiverEvent)
    requires Sound(job, r) && r.inc.count >= r.inc.total
    requires SmoothThere(e) && IsTaskEvent(e) && e.task < |r.tasks|
    ensures Num(ReceiverStep(job, r, n, e).0.tasks, IsCounted) + Tick(e.Check? && r.tasks[e.task].Counted?)
            == Num(r.tasks, IsCounted)
  {
    FullCount(job, r);
    NumPositive(r.tasks, IsUncounted);
    assert !IsUncounted(r.tasks[e.task]);
    match e
    case SaveEnds(t, ok) =>
    case CountChunk(t) =>
    case Check(t, throws) => if r.tasks[t].Counted? { CountedMove(r, t, AtCheck(r, t, throws)); }
    case Fetch(t, ok) => CountedFetch(job, r, t, if ok then SortByIndex(Of(r.rows, job.id)) else []);
    case Verify(t) => CountedFetch(job, r, t, []);
    case Clear(t, ok) => CountedClear(job, r, t, ok);
    case Announce(t, throws) => CountedAnnounce(r, t, throws);
  }

  lemma FullStep(job: Job, w: World, e: Event)
    requires WellFormed(job) && Total(job) <= U32_LIMIT && Full(job, w) && Smooth(job, e)
    ensures Full(job, Step(job, w, e))
    ensures Tick(PassesTest(w, e)) + Num(Step(job, w, e).r.tasks, IsCounted) == Num(w.r.tasks, IsCounted)
  {
    StepIsSafe(job, w, e);
    SoundStep(job, w, e);
    CountGrows(job, w, e);
    if e.R? {
      if IsTaskEvent(e.r) {
        if e.r.task < |w.r.tasks| {
          FullTaskStep(job, w.r, w.n, e.r);
        }
      } else if e.r.Arrive? {
        FullCount(job, w.r);
      }
    }
  }

  lemma {:induction false} PassesAfterFull(job: Job, w: World, es: seq<Event>)
    requires WellFormed(job) && Total(job) <= U32_LIMIT && Full(job, w) && SmoothRun(job, es)
    ensures Full(job, Run(job, w, es))
    ensures Passes(job, w, es) + Num(Run(job, w, es).r.tasks, IsCounted) == Num(w.r.tasks, IsCounted)
  {
    if es != [] {
      var n := |es| - 1;
      PassesAfterFull(job, w, es[..n]);
      FullStep(job, Run(job, w, es[..n]), es[n]);
    }
  }

  /** The handler of task `t` is about to count the last chunk. */
  predicate CountsLast(w: World, t: nat) {
    t < |w.r.tasks| && w.r.tasks[t].Saved? && w.r.inc.count + 1 == w.r.inc.total
  }

  lemma PassesOfRun(job: Job, before: seq<Event>, t: nat, after: seq<Event>)
    requires WellFormed(job) && job.file != [] && Total(job) <= U32_LIMIT && SmoothRun(job, before)
             && SmoothRun(job, after)
    requires CountsLast(Run(job, Accepted(job), before), t)
    ensures var es := before + [R(CountChunk(t))] + after;
            && Full(job, Run(job, Accepted(job), es))
            && Passes(job, Accepted(job), es) + Num(Run(job, Accepted(job), es).r.tasks, IsCounted)
               == Num(Run(job, Accepted(job), before).r.tasks, IsCounted) + 1
  {
    var a, e := Accepted(job), R(CountChunk(t));
    var w := Run(job, a, before);
    RunIsSound(job, before);
    TotalStays(job, a, before);
    NoPassBeforeFull(job, a, before);
    RunSnoc(job, a, before, e);
    PassesConcat(job, a, before, [e]);
    var w1 := Step(job, w, e);
    assert Run(job, w, [e][..0]) == w;
    assert Passes(job, w, [e]) == 0;
    StepIsSafe(job, w, e);
    SoundStep(job, w, e);
    NumUpdate(w.r.tasks, t, Counted, IsCounted);
    RunConcat(job, a, before + [e], after);
    PassesConcat(job, a, before + [e], after);
    PassesAfterFull(job, w1, after);
  }

  /** The exact condition for one outcome. In every run in which nothing fails, once no handler is suspended: the file
      was delivered exactly once and no failure reported if and only if, when the last chunk was counted, no other
      handler was waiting between its own count and the completion test. */
  lemma ExactlyOnceIff(job: Job, before: seq<Event>, t: nat, after: seq<Event>)
    requires WellFormed(job) && job.file != [] && Total(job) <= U32_LIMIT && SmoothRun(job, before)
             && SmoothRun(job, after)
    requires CountsLast(Run(job, Accepted(job), before), t)
    requires Idle(Run(job, Accepted(job), before + [R(CountChunk(t))] + after).r)
    ensures var r := Run(job, Accepted(job), before + [R(CountChunk(t))] + after).r;
            r.completed == [job.file] && r.failures == 0
            <==> forall u :: 0 <= u < |Run(job, Accepted(job), before).r.tasks|
                   ==> !Run(job, Accepted(job), before).r.tasks[u].Counted?
  {
    var es := before + [R(CountChunk(t))] + after;
    var r := Run(job, Accepted(job), es).r;
    PassesOfRun(job, before, t, after);
    FullCount(job, r);
    NumPositive(r.tasks, IsCounted);
    NumPositive(Run(job, Accepted(job), before).r.tasks, IsCounted);
    OneOutcomeIff(job, es);
  }
}
