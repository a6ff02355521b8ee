/** When the sender can no longer help: what then decides whether the file is delivered, and the runs in which it is
    not. */
module TransferPauses {
  import opened Wrappers
  import opened Slicing
  import opened PacketCodec
  import opened ChunkStore
  import opened TransferState
  import opened TransferModel
  import opened TransferSafety
  import opened TransferAccounting
  import opened TransferCompletion
  import opened TransferResume
  import opened TransferTheorems

  // ---- after the sender has let go ----

  /** The sender has deleted its entry and all its streams have ended: from here on every resume is ignored. */
  ghost predicate LetGo(s: Sender) {
    !s.live && forall k :: 0 <= k < |s.streams| ==> s.streams[k].stage.Ended?
  }

  /** The receiver is listening, and no pause is on its way to it. */
  ghost predicate Listening(w: World) {
    !w.r.inc.paused && !HasPause(w.n.toReceiver) && NoCancel(w.n.toReceiver)
  }

  ghost predicate Arrived(job: Job, w: World, i: nat) {
    i in w.r.inc.received || InLane(job, w.n, i)
  }

  /** Every chunk has arrived or is about to. */
  ghost predicate AllArrived(job: Job, w: World) {
    forall i :: 0 <= i < Total(job) ==> Arrived(job, w, i)
  }

  ghost predicate LastPhase(job: Job, w: World) {
    Safe(job, w) && Sound(job, w.r) && Listening(w) && LetGo(w.s)
  }

  lemma LastSenderStep(job: Job, w: World, e: SenderEvent)
    requires LastPhase(job, w)
    ensures var w' := Step(job, w, S(e));
            LetGo(w'.s) && w'.n.lanes == w.n.lanes && w'.n.toReceiver == w.n.toReceiver && w'.r == w.r
  {
  }

  /** A chunk that was on its way has arrived or is still on its way: nobody turns it away any more. */
  lemma LastArrive(job: Job, w: World, l: nat)
    requires LastPhase(job, w) && l < LANES && w.n.lanes[l] != []
    ensures var w' := Step(job, w, R(Arrive(l)));
            forall i :: 0 <= i < Total(job) && Arrived(job, w, i) ==> Arrived(job, w', i)
  {
    var w' := Step(job, w, R(Arrive(l)));
    LanePop(job, w.n, l, w'.n);
    FullCount(job, w.r);
    forall i | 0 <= i < Total(job) && Arrived(job, w, i) ensures Arrived(job, w', i) {
    }
  }

  lemma LastReceiverStep(job: Job, w: World, e: ReceiverEvent)
    requires LastPhase(job, w) && SmoothThere(e) && !e.PauseThere?
    ensures var w' := Step(job, w, R(e)); Listening(w')
    ensures var w' := Step(job, w, R(e)); AllArrived(job, w) ==> AllArrived(job, w')
  {
    var w' := Step(job, w, R(e));
    if e.Arrive? {
      if e.lane < LANES && w.n.lanes[e.lane] != [] {
        LastArrive(job, w, e.lane);
      }
    } else {
      if e.HearThere? && w.n.toReceiver != [] {
        HasPauseTail(w.n.toReceiver);
      }
      assert w'.n.lanes == w.n.lanes && w'.r.inc.received == w.r.inc.received;
      KeepsArrived(job, w, w');
    }
  }

  lemma KeepsArrived(job: Job, w: World, w': World)
    requires w'.r.inc.received == w.r.inc.received && forall c :: InLane(job, w.n, c) ==> InLane(job, w'.n, c)
    ensures AllArrived(job, w) ==> AllArrived(job, w')
  {
    if AllArrived(job, w) {
      forall i | 0 <= i < Total(job) ensures Arrived(job, w', i) {
        assert Arrived(job, w, i);
      }
    }
  }

  lemma LastStep(job: Job, w: World, e: Event)
    requires WellFormed(job) && Total(job) <= U32_LIMIT
    requires LastPhase(job, w) && Smooth(job, e) && !(e.R? && e.r.PauseThere?)
    ensures LastPhase(job, Step(job, w, e))
    ensures AllArrived(job, w) ==> AllArrived(job, Step(job, w, e))
  {
    StepIsSafe(job, w, e);
    SoundStep(job, w, e);
    var w' := Step(job, w, e);
    match e
    case S(se) =>
      LastSenderStep(job, w, se);
      assert forall c :: InLane(job, w.n, c) ==> InLane(job, w'.n, c);
      KeepsArrived(job, w, w');
    case N(ne) =>
      if ne.Foreign? && ne.lane < LANES {
        LanePush(job, w.n, ne.lane, ne.packet, w'.n);
      } else {
        assert w'.n.lanes == w.n.lanes;
        assert forall c :: InLane(job, w.n, c) ==> InLane(job, w'.n, c);
      }
      KeepsArrived(job, w, w');
    case R(re) => LastReceiverStep(job, w, re);
  }

  predicate NoMorePauses(es: seq<Event>) {
    forall k :: 0 <= k < |es| && es[k].R? ==> !es[k].r.PauseThere?
  }

  lemma {:induction false} LastRun(job: Job, w: World, es: seq<Event>)
    requires WellFormed(job) && Total(job) <= U32_LIMIT
    requires LastPhase(job, w) && SmoothRun(job, es) && NoMorePauses(es)
    ensures LastPhase(job, Run(job, w, es)) && (AllArrived(job, w) ==> AllArrived(job, Run(job, w, es)))
  {
    if es != [] {
      var n := |es| - 1;
      LastRun(job, w, es[..n]);
      LastStep(job, Run(job, w, es[..n]), es[n]);
    }
  }

  /** The exact boundary of a resume that comes too late. From any moment at which the sender has let go and the
      receiver is listening, whatever then happens without a failure or a further pause, once it has drained the file
      has been delivered if and only if every chunk had at that moment been received or was on a lane. */
  lemma LateResumeIff(job: Job, w: World, es: seq<Event>)
    requires WellFormed(job) && Total(job) <= U32_LIMIT
    requires LastPhase(job, w) && SmoothRun(job, es) && NoMorePauses(es) && Drained(Run(job, w, es))
    ensures Run(job, w, es).r.completed != [] <==> AllArrived(job, w)
  {
    LastRun(job, w, es);
    var end := Run(job, w, es);
    FullCount(job, end.r);
    if AllArrived(job, w) {
      forall i | 0 <= i < Total(job) ensures i in end.r.inc.received {
        assert Arrived(job, end, i);
      }
      IdleAndFullDelivers(job, end.r);
    } else {
      var i :| 0 <= i < Total(job) && !Arrived(job, w, i);
      assert Gone(job, w, i);
      GoneForGood(job, w, es, i);
    }
  }

  /** The same of every run in which nothing fails: split it at any moment after the sender has let go. */
  lemma LateResumeIffInRun(job: Job, before: seq<Event>, after: seq<Event>)
    requires WellFormed(job) && job.file != [] && Total(job) <= U32_LIMIT
    requires SmoothRun(job, before) && SmoothRun(job, after) && NoMorePauses(after)
    requires var w := Run(job, Accepted(job), before); LetGo(w.s) && !w.r.inc.paused && !HasPause(w.n.toReceiver)
    requires Drained(Run(job, Accepted(job), before + after))
    ensures Run(job, Accepted(job), before + after).r.completed != []
            <==> AllArrived(job, Run(job, Accepted(job), before))
  {
    RunIsSound(job, before);
    RunConcat(job, Accepted(job), before, after);
    LateResumeIff(job, Run(job, Accepted(job), before), after);
  }

  // ---- a run in which the sender pauses and resumes, and the receiver stays paused ----

  const PAUSE_RESUME: seq<Event> := [S(PauseHere(true)), R(HearThere), S(ResumeHere(true)), R(HearThere)]

  /** The resumed stream sends the one chunk, which is dropped; the accept is heard too late. */
  function StreamAndDrop(iv: Bytes): seq<Event> {
    [S(LoopHead(0)), S(Seal(0, iv, true))] + [S(Transmit(0, true)), S(LoopHead(0))] + [R(Arrive(0)), S(Hear)]
  }

  function PausedReceiver(job: Job): Receiver {
    Init(job).r.(inc := Init(job).r.inc.(paused := true))
  }

  function ResumedWorld(job: Job): World {
    World(Sender(NewOutgoing(), true, [Stream(0, Looping)]), Init(job).n.(toSender := [Accept]), PausedReceiver(job))
  }

  function SealedWorld(job: Job, packet: Bytes): World {
    ResumedWorld(job).(s := Sender(NewOutgoing(), true, [Stream(0, Granted(packet))]))
  }

  function SpentWorld(job: Job, packet: Bytes): World {
    World(Sender(Outgoing(false, false, 0), false, [Stream(1, Ended)]),
          Network([[packet], [], [], []], [|packet|, 0, 0, 0], 0, [Accept], []), PausedReceiver(job))
  }

  lemma PausedAndResumed(job: Job)
    ensures Run(job, Accepted(job), PAUSE_RESUME) == ResumedWorld(job)
  {
    var es := PAUSE_RESUME;
    var a := Accepted(job);
    assert es == [es[0], es[1]] + [es[2], es[3]];
    RunConcat(job, a, [es[0], es[1]], [es[2], es[3]]);
    RunTwo(job, a, es[0], es[1]);
    var w1 := Step(job, a, es[0]);
    assert w1 == a.(s := a.s.(out := Outgoing(true, false, -1)), n := a.n.(toReceiver := [Pause]));
    var w2 := Step(job, w1, es[1]);
    assert w2 == World(w1.s, a.n, PausedReceiver(job));
    RunTwo(job, w2, es[2], es[3]);
    var w3 := Step(job, w2, es[2]);
    assert w3 == ResumedWorld(job).(n := w2.n.(toReceiver := [ResumeFrom(0)]));
  }

  lemma StreamedWhilePaused(job: Job, iv: Bytes, packet: Bytes)
    requires Total(job) == 1 && |iv| == IV_BYTES && PacketFor(job, 0, iv) == Some(packet)
    ensures Run(job, ResumedWorld(job), [S(LoopHead(0)), S(Seal(0, iv, true))]) == SealedWorld(job, packet)
    ensures Run(job, SealedWorld(job, packet), [S(Transmit(0, true)), S(LoopHead(0))]) == SpentWorld(job, packet)
  {
    RunTwo(job, ResumedWorld(job), S(LoopHead(0)), S(Seal(0, iv, true)));
    var w1 := Step(job, ResumedWorld(job), S(LoopHead(0)));
    assert w1.s == Sender(NewOutgoing(), true, [Stream(0, Sealing)]);
    assert Step(job, w1, S(Seal(0, iv, true))).s.streams == [Stream(0, Granted(packet))];
    RunTwo(job, SealedWorld(job, packet), S(Transmit(0, true)), S(LoopHead(0)));
    var w3 := Step(job, SealedWorld(job, packet), S(Transmit(0, true)));
    assert w3.s == Sender(Outgoing(false, false, 0), true, [Stream(1, Looping)]);
    assert [] + [packet] == [packet];
  }

  lemma DroppedWhilePaused(job: Job, packet: Bytes)
    requires Total(job) == 1
    ensures var w := SpentWorld(job, packet);
            Run(job, w, [R(Arrive(0)), S(Hear)]) == w.(n := w.n.(lanes := [[], [], [], []], toSender := []))
  {
    var w := SpentWorld(job, packet);
    RunTwo(job, w, R(Arrive(0)), S(Hear));
    assert [packet][1..] == [] && [Accept][1..] == [];
    var w1 := Step(job, w, R(Arrive(0)));
    assert w1 == w.(n := w.n.(lanes := [[], [], [], []]));
  }

  function StrandedWorld(job: Job, packet: Bytes): World {
    var w := SpentWorld(job, packet);
    w.(n := w.n.(lanes := [[], [], [], []], toSender := []))
  }

  lemma StrandedRuns(job: Job, iv: Bytes, packet: Bytes)
    requires Total(job) == 1 && |iv| == IV_BYTES && PacketFor(job, 0, iv) == Some(packet)
    ensures Run(job, Accepted(job), PAUSE_RESUME + StreamAndDrop(iv)) == StrandedWorld(job, packet)
  {
    var stream, send, drop := [S(LoopHead(0)), S(Seal(0, iv, true))], [S(Transmit(0, true)), S(LoopHead(0))],
      [R(Arrive(0)), S(Hear)];
    RunConcat(job, Accepted(job), PAUSE_RESUME, StreamAndDrop(iv));
    PausedAndResumed(job);
    RunConcat(job, ResumedWorld(job), stream + send, drop);
    RunConcat(job, ResumedWorld(job), stream, send);
    StreamedWhilePaused(job, iv, packet);
    DroppedWhilePaused(job, packet);
  }

  lemma StrandedIsStuck(job: Job, packet: Bytes)
    requires Total(job) == 1
    ensures var w := StrandedWorld(job, packet);
            && Drained(w) && w.r.live && w.r.inc.paused && LetGo(w.s) && !AllArrived(job, w) && w.r.completed == []
  {
    assert !Arrived(job, StrandedWorld(job, packet), 0);
  }

  /** A pause and a resume at the sender alone: nothing fails, everything drains, and the file has not been delivered.
      By `SenderResumeCannotUnpause` it never is unless the receiver resumes, and by `LateResumeIff` not even then. */
  lemma SenderPauseStrands(job: Job, iv: Bytes)
    requires WellFormed(job) && Total(job) == 1 && |iv| == IV_BYTES
    ensures SmoothRun(job, PAUSE_RESUME + StreamAndDrop(iv))
    ensures var w := Run(job, Accepted(job), PAUSE_RESUME + StreamAndDrop(iv));
            && Drained(w) && w.r.live && w.r.inc.paused && LetGo(w.s) && !AllArrived(job, w) && w.r.completed == []
  {
    SealedIsGood(job, 0, iv);
    var packet := PacketFor(job, 0, iv).value;
    StrandedRuns(job, iv, packet);
    StrandedIsStuck(job, packet);
  }
}
