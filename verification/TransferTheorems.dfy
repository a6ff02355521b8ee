/** The transfer protocol over whole runs: completion through pauses, and the runs that never complete. */
module TransferTheorems {
  import opened Wrappers
  import opened Slicing
  import opened PacketCodec
  import opened ChunkStore
  import opened TransferState
  import opened TransferModel
  import opened TransferSafety
  import opened TransferAccounting
  import opened TransferCompletion
  import opened TransferResume

  /** The receiver has accepted the announced transfer. */
  function Accepted(job: Job): World {
    Step(job, Init(job), R(AcceptHere(true)))
  }

  ghost predicate HeldRun(job: Job, w: World, es: seq<Event>) {
    es == [] ||
    var n := |es| - 1;
    HeldRun(job, w, es[..n]) && HeldOnResume(Run(job, w, es[..n]), es[n])
  }

  /** Each data message is handled to its end before the next is. */
  ghost predicate SerialRun(job: Job, w: World, es: seq<Event>) {
    es == [] ||
    var n := |es| - 1;
    SerialRun(job, w, es[..n]) && (es[n].R? && es[n].r.Arrive? ==> Idle(Run(job, w, es[..n]).r))
  }

  /** Nothing is under way any more. */
  ghost predicate Drained(w: World) {
    && (forall l :: 0 <= l < LANES ==> w.n.lanes[l] == [])
    && w.n.toSender == [] && w.n.toReceiver == []
    && (forall k :: 0 <= k < |w.s.streams| ==> w.s.streams[k].stage.Ended?)
    && Idle(w.r)
  }

  /** Drained, and the receiver is not left paused. */
  ghost predicate Quiet(w: World) {
    Drained(w) && (w.r.live ==> !w.r.inc.paused)
  }

  lemma ResumableStep(job: Job, w: World, e: Event)
    requires WellFormed(job) && Total(job) <= U32_LIMIT
    requires Resumable(job, w) && Smooth(job, e) && HeldOnResume(w, e)
    ensures Resumable(job, Step(job, w, e))
    ensures OneAtATime(w.r) && (e.R? && e.r.Arrive? ==> Idle(w.r)) ==> OneAtATime(Step(job, w, e).r)
  {
    StepIsSafe(job, w, e);
    match e
    case S(se) =>
      match se {
        case Transmit(i, _) => TransmitKeeps(job, w, i);
        case Hear => HearKeeps(job, w);
        case Breaks(_) =>
        case CancelHere(_) =>
        case PauseHere(_) => PauseHereKeeps(job, w);
        case ResumeHere(_) => ResumeHereKeeps(job, w);
        case _ => StreamStepKeeps(job, w, se);
      }
    case N(ne) => NetworkKeepsOwed(job, w, ne);
    case R(re) =>
      AccountedStep(job, w.r, w.n, re);
      RangeStep(job, w.r, w.n, re);
      CourseStep(job, w.r, w.n, re);
      ReceiverKeepsOwed(job, w, re);
      if OneAtATime(w.r) && (re.Arrive? ==> Idle(w.r)) {
        SerialStep(job, w.r, w.n, re);
      }
  }

  lemma {:induction false} RunIsResumable(job: Job, es: seq<Event>)
    requires WellFormed(job) && job.file != [] && Total(job) <= U32_LIMIT
    requires SmoothRun(job, es) && HeldRun(job, Accepted(job), es)
    ensures Resumable(job, Run(job, Accepted(job), es))
    ensures SerialRun(job, Accepted(job), es) ==> OneAtATime(Run(job, Accepted(job), es).r)
  {
    if es == [] {
      SliceCountBounds(|job.file|, CHUNK_SIZE, 0);
    } else {
      var n := |es| - 1;
      RunIsResumable(job, es[..n]);
      ResumableStep(job, Run(job, Accepted(job), es[..n]), es[n]);
    }
  }

  /** Pausing and resuming loses nothing, from whichever side it comes. In every run in which nothing fails and each of
      the receiver's resumes finds the sender still holding the transfer, once everything has drained and the receiver
      is not left paused, the file has been delivered, and only the file. If each data message was handled to its end
      before the next, it was delivered exactly once and no failure was reported. */
  lemma DrainedRunHasDelivered(job: Job, es: seq<Event>)
    requires WellFormed(job) && job.file != [] && Total(job) <= U32_LIMIT
    requires SmoothRun(job, es) && HeldRun(job, Accepted(job), es)
    requires Quiet(Run(job, Accepted(job), es))
    ensures var r := Run(job, Accepted(job), es).r;
            && r.completed != [] && (forall blob :: blob in r.completed ==> blob == job.file)
            && (SerialRun(job, Accepted(job), es) ==> r.completed == [job.file] && r.failures == 0)
  {
    RunIsResumable(job, es);
    var w := Run(job, Accepted(job), es);
    FullCount(job, w.r);
    if w.r.live {
      assert !Interrupted(w) && w.s.streams != [];
      forall i | 0 <= i < Total(job) ensures i in w.r.inc.received {
        assert Covered(job, w, i);
      }
    }
    IdleAndFullDelivers(job, w.r);
  }

  lemma SoundStep(job: Job, w: World, e: Event)
    requires WellFormed(job) && Total(job) <= U32_LIMIT
    requires Safe(job, w) && Sound(job, w.r) && NoCancel(w.n.toReceiver) && Smooth(job, e)
    ensures Sound(job, Step(job, w, e).r) && NoCancel(Step(job, w, e).n.toReceiver)
  {
    StepIsSafe(job, w, e);
    if e.R? {
      AccountedStep(job, w.r, w.n, e.r);
      RangeStep(job, w.r, w.n, e.r);
      CourseStep(job, w.r, w.n, e.r);
    }
  }

  lemma {:induction false} RunIsSound(job: Job, es: seq<Event>)
    requires WellFormed(job) && job.file != [] && Total(job) <= U32_LIMIT && SmoothRun(job, es)
    ensures var w := Run(job, Accepted(job), es); Safe(job, w) && Sound(job, w.r) && NoCancel(w.n.toReceiver)
  {
    if es == [] {
      SliceCountBounds(|job.file|, CHUNK_SIZE, 0);
    } else {
      var n := |es| - 1;
      RunIsSound(job, es[..n]);
      SoundStep(job, Run(job, Accepted(job), es[..n]), es[n]);
      StepIsSafe(job, Run(job, Accepted(job), es[..n]), es[n]);
    }
  }

  /** Whether or not the resumes come in time: when nothing fails and no handler is suspended, the file has been
      delivered if and only if every one of its chunks has been received. */
  lemma DeliversIffAllArrived(job: Job, es: seq<Event>)
    requires WellFormed(job) && job.file != [] && Total(job) <= U32_LIMIT && SmoothRun(job, es)
    requires Idle(Run(job, Accepted(job), es).r)
    ensures var r := Run(job, Accepted(job), es).r; r.completed != [] <==> AllReceived(job, r)
  {
    RunIsSound(job, es);
    var r := Run(job, Accepted(job), es).r;
    if r.completed != [] {
      var accept := [R(AcceptHere(true))];
      RunConcat(job, Init(job), accept, es);
      RunSnoc(job, Init(job), [], accept[0]);
      assert [] + [accept[0]] == accept;
      DeliveredMeansAllReceived(job, accept + es);
    } else if AllReceived(job, r) {
      IdleAndFullDelivers(job, r);
    }
  }

  /** The exact condition, with pauses from both sides: when everything has drained, the file has been delivered if and
      only if the receiver is not left paused with a chunk missing. */
  lemma DrainedDeliversIff(job: Job, es: seq<Event>)
    requires WellFormed(job) && job.file != [] && Total(job) <= U32_LIMIT
    requires SmoothRun(job, es) && HeldRun(job, Accepted(job), es)
    requires Drained(Run(job, Accepted(job), es))
    ensures var r := Run(job, Accepted(job), es).r;
            r.completed != [] <==> !(r.inc.paused && !AllReceived(job, r))
  {
    DeliversIffAllArrived(job, es);
    if !Run(job, Accepted(job), es).r.inc.paused {
      DrainedRunHasDelivered(job, es);
    }
  }

  // ---- runs that cannot complete ----

  /** Chunk `i` is neither received nor on a lane, and the sender has let go of the transfer. */
  ghost predicate Gone(job: Job, w: World, i: nat) {
    && i < Total(job) && i !in w.r.inc.received && !InLane(job, w.n, i)
    && !w.s.live && (forall k :: 0 <= k < |w.s.streams| ==> w.s.streams[k].stage.Ended?)
  }

  lemma GoneStep(job: Job, w: World, e: Event, i: nat)
    requires Gone(job, w, i) && Honest(job, e)
    ensures Gone(job, Step(job, w, e), i)
  {
    var w' := Step(job, w, e);
    forall l, k | 0 <= l < LANES && 0 <= k < |w'.n.lanes[l]| ensures !IsChunk(job, w'.n.lanes[l][k], i) {
      if k < |w.n.lanes[l]| {
        assert !IsChunk(job, w.n.lanes[l][k], i);
      }
      if k + 1 < |w.n.lanes[l]| {
        assert !IsChunk(job, w.n.lanes[l][k + 1], i);
      }
    }
    if e.R? && e.r.Arrive? && e.r.lane < LANES && w.n.lanes[e.r.lane] != [] {
      assert !IsChunk(job, w.n.lanes[e.r.lane][0], i);
    }
  }

  lemma {:induction false} GoneForGood(job: Job, w: World, es: seq<Event>, i: nat)
    requires Gone(job, w, i) && HonestRun(job, es)
    ensures Gone(job, Run(job, w, es), i)
  {
    if es != [] {
      GoneForGood(job, w, es[..|es| - 1], i);
      GoneStep(job, Run(job, w, es[..|es| - 1]), es[|es| - 1], i);
    }
  }

  lemma {:induction false} RunConcat(job: Job, w: World, a: seq<Event>, b: seq<Event>)
    ensures Run(job, w, a + b) == Run(job, Run(job, w, a), b)
    decreases |b|
  {
    if b == [] {
      assert a + b == a;
    } else {
      assert (a + b)[..|a + b| - 1] == a + b[..|b| - 1];
      RunConcat(job, w, a, b[..|b| - 1]);
    }
  }

  /** Once a chunk is gone, no continuation of any kind delivers the file: resumes are ignored for ever. */
  lemma GoneNeverDelivers(job: Job, before: seq<Event>, after: seq<Event>, i: nat)
    requires WellFormed(job) && Total(job) <= U32_LIMIT && HonestRun(job, before + after)
    requires Gone(job, Run(job, Init(job), before), i)
    ensures Run(job, Init(job), before + after).r.completed == []
  {
    assert HonestRun(job, after) by {
      forall k | 0 <= k < |after| ensures Honest(job, after[k]) {
        assert (before + after)[|before| + k] == after[k];
      }
    }
    RunConcat(job, Init(job), before, after);
    GoneForGood(job, Run(job, Init(job), before), after, i);
    DeliveredMeansAllReceived(job, before + after);
  }

  lemma PausedStep(job: Job, r: Receiver, n: Network, e: ReceiverEvent)
    requires r.inc.paused && !e.ResumeThere?
    ensures var r' := ReceiverStep(job, r, n, e).0; r'.inc.paused && r'.inc.received == r.inc.received
  {
  }

  /** A paused receiver that never resumes by itself receives nothing more, whatever the sender does. */
  lemma {:induction false} PausedReceivesNothing(job: Job, w: World, es: seq<Event>)
    requires w.r.inc.paused && (forall k :: 0 <= k < |es| && es[k].R? ==> !es[k].r.ResumeThere?)
    ensures Run(job, w, es).r.inc.paused && Run(job, w, es).r.inc.received == w.r.inc.received
  {
    if es != [] {
      var n := |es| - 1;
      PausedReceivesNothing(job, w, es[..n]);
      if es[n].R? {
        PausedStep(job, Run(job, w, es[..n]).r, Run(job, w, es[..n]).n, es[n].r);
      }
    }
  }

  /** A pause that came from the sender is not undone by the sender's resume: with a chunk missing, the transfer is
      stuck until the receiver itself resumes. */
  lemma SenderResumeCannotUnpause(job: Job, before: seq<Event>, after: seq<Event>)
    requires WellFormed(job) && Total(job) <= U32_LIMIT && HonestRun(job, before + after)
    requires Run(job, Init(job), before).r.inc.paused && !AllReceived(job, Run(job, Init(job), before).r)
    requires forall k :: 0 <= k < |after| && after[k].R? ==> !after[k].r.ResumeThere?
    ensures Run(job, Init(job), before + after).r.completed == []
  {
    RunConcat(job, Init(job), before, after);
    PausedReceivesNothing(job, Run(job, Init(job), before), after);
    DeliveredMeansAllReceived(job, before + after);
  }

  // ---- a concrete run in which the resume comes too late ----

  lemma RunSnoc(job: Job, w: World, es: seq<Event>, e: Event)
    ensures Run(job, w, es + [e]) == Step(job, Run(job, w, es), e)
  {
    assert (es + [e])[..|es|] == es;
  }

  lemma RunTwo(job: Job, w: World, a: Event, b: Event)
    ensures Run(job, w, [a, b]) == Step(job, Step(job, w, a), b)
  {
    RunSnoc(job, w, [], a);
    RunSnoc(job, w, [a], b);
    assert [] + [a] == [a] && [a] + [b] == [a, b];
  }

  lemma RunFive(job: Job, w: World, a: Event, b: Event, c: Event, d: Event, e: Event)
    ensures Run(job, w, [a, b, c, d, e]) == Step(job, Run(job, Run(job, w, [a, b]), [c, d]), e)
  {
    RunSnoc(job, w, [a, b] + [c, d], e);
    RunConcat(job, w, [a, b], [c, d]);
    assert [a, b] + [c, d] + [e] == [a, b, c, d, e];
  }

  /** The accept is heard and the one chunk streamed; the stream runs off its end and forgets the transfer. */
  function WholeStream(iv: Bytes): seq<Event> {
    [S(Hear), S(LoopHead(0)), S(Seal(0, iv, true)), S(Transmit(0, true)), S(LoopHead(0))]
  }

  /** The receiver pauses, drops the chunk, and resumes; the sender hears both messages too late. */
  const PAUSE_DROP_RESUME: seq<Event> :=
    [R(PauseThere(true)), R(Arrive(0)), S(Hear), R(ResumeThere(true)), S(Hear)]

  function StreamedWorld(job: Job, packet: Bytes): World {
    World(Sender(Outgoing(false, false, 0), false, [Stream(1, Ended)]),
          Network([[packet], [], [], []], [|packet|, 0, 0, 0], 0, [], []),
          Init(job).r)
  }

  function SealingWorld(job: Job): World {
    World(Sender(NewOutgoing(), true, [Stream(0, Sealing)]), Init(job).n, Init(job).r)
  }

  lemma HeardAndLooked(job: Job)
    requires Total(job) >= 1
    ensures Step(job, Step(job, Accepted(job), S(Hear)), S(LoopHead(0))) == SealingWorld(job)
  {
    var w1 := Step(job, Accepted(job), S(Hear));
    assert w1 == World(Sender(NewOutgoing(), true, [Stream(0, Looping)]), Init(job).n, Init(job).r);
  }

  function SentWorld(job: Job, packet: Bytes): World {
    StreamedWorld(job, packet).(s := Sender(Outgoing(false, false, 0), true, [Stream(1, Looping)]))
  }

  lemma SealedAndSent(job: Job, iv: Bytes, packet: Bytes)
    requires Total(job) >= 1 && |iv| == IV_BYTES && PacketFor(job, 0, iv) == Some(packet)
    ensures Step(job, Step(job, SealingWorld(job), S(Seal(0, iv, true))), S(Transmit(0, true)))
            == SentWorld(job, packet)
  {
    var w3 := Step(job, SealingWorld(job), S(Seal(0, iv, true)));
    assert w3 == World(Sender(NewOutgoing(), true, [Stream(0, Granted(packet))]), Init(job).n, Init(job).r);
    assert [] + [packet] == [packet];
  }

  lemma WholeStreamRuns(job: Job, iv: Bytes)
    requires WellFormed(job) && Total(job) == 1 && |iv| == IV_BYTES
    ensures PacketFor(job, 0, iv).Some? && IsChunk(job, PacketFor(job, 0, iv).value, 0)
    ensures Run(job, Accepted(job), WholeStream(iv)) == StreamedWorld(job, PacketFor(job, 0, iv).value)
  {
    SealedIsGood(job, 0, iv);
    var packet := PacketFor(job, 0, iv).value;
    var es := WholeStream(iv);
    RunFive(job, Accepted(job), es[0], es[1], es[2], es[3], es[4]);
    RunTwo(job, Accepted(job), es[0], es[1]);
    HeardAndLooked(job);
    RunTwo(job, SealingWorld(job), es[2], es[3]);
    SealedAndSent(job, iv, packet);
  }

  function DroppedWorld(job: Job, packet: Bytes): World {
    var w := StreamedWorld(job, packet);
    w.(n := w.n.(lanes := [[], [], [], []], toSender := [Pause]), r := w.r.(inc := w.r.inc.(paused := true)))
  }

  lemma PausedAndDropped(job: Job, packet: Bytes)
    requires Total(job) == 1 && IsChunk(job, packet, 0)
    ensures Step(job, Step(job, StreamedWorld(job, packet), R(PauseThere(true))), R(Arrive(0)))
            == DroppedWorld(job, packet)
  {
    assert [packet][1..] == [];
  }

  lemma IgnoredResume(job: Job, packet: Bytes)
    requires Total(job) == 1
    ensures var w := DroppedWorld(job, packet);
            Step(job, Step(job, Step(job, w, S(Hear)), R(ResumeThere(true))), S(Hear))
            == w.(n := w.n.(toSender := []), r := w.r.(inc := w.r.inc.(paused := false)))
  {
    var w := DroppedWorld(job, packet);
    var w1 := Step(job, w, S(Hear));
    assert w1 == w.(n := w.n.(toSender := []));
    var w2 := Step(job, w1, R(ResumeThere(true)));
    assert [] + [ResumeFrom(0)] == [ResumeFrom(0)];
    assert w2 == w.(n := w.n.(toSender := [ResumeFrom(0)]), r := w.r.(inc := w.r.inc.(paused := false)));
  }

  lemma DroppedAndStuck(job: Job, packet: Bytes)
    requires Total(job) == 1 && IsChunk(job, packet, 0)
    ensures var w := Run(job, StreamedWorld(job, packet), PAUSE_DROP_RESUME);
            Quiet(w) && Gone(job, w, 0) && w.r.completed == []
  {
    var es := PAUSE_DROP_RESUME;
    RunFive(job, StreamedWorld(job, packet), es[0], es[1], es[2], es[3], es[4]);
    RunTwo(job, StreamedWorld(job, packet), es[0], es[1]);
    PausedAndDropped(job, packet);
    RunTwo(job, DroppedWorld(job, packet), es[2], es[3]);
    IgnoredResume(job, packet);
  }

  /** Without the sender still holding the transfer the completion theorem fails: nothing goes wrong, everything drains,
      and the file is never delivered. */
  lemma LateResumeStrands(job: Job, iv: Bytes)
    requires WellFormed(job) && Total(job) == 1 && |iv| == IV_BYTES
    ensures var es := WholeStream(iv) + PAUSE_DROP_RESUME;
            var w := Run(job, Accepted(job), es);
            SmoothRun(job, es) && Quiet(w) && Gone(job, w, 0) && w.r.completed == []
  {
    WholeStreamRuns(job, iv);
    RunConcat(job, Accepted(job), WholeStream(iv), PAUSE_DROP_RESUME);
    DroppedAndStuck(job, PacketFor(job, 0, iv).value);
  }
}
