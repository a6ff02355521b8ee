/** Progress: what is under way comes to an end, and a transfer at rest has drained. */
module TransferProgress {
  import opened Wrappers
  import opened Slicing
  import opened PacketCodec
  import opened ChunkStore
  import opened TransferState
  import opened TransferModel
  import opened TransferSafety
  import opened TransferCompletion
  import opened TransferTheorems
  import opened Counting

  // ---- the work left ----

  function ChunksLeft(job: Job, index: nat): nat {
    if index < Total(job) then Total(job) - index else 0
  }

  function StreamWork(job: Job, st: Stream): nat {
    match st.stage
    case Looping => 20 * ChunksLeft(job, st.index) + 4
    case Sealing => 20 * ChunksLeft(job, st.index) + 3
    case Waiting(_) => 20 * ChunksLeft(job, st.index) + 2
    case Granted(_) => 20 * ChunksLeft(job, st.index) + 1
    case Ended => 0
  }

  function TaskWork(t: Task): nat {
    match t
    case Saving(_) => 11
    case Saved => 10
    case Counted => 9
    case Fetching => 8
    case Fetched(_) => 7
    case Completing(_) => 6
    case Delivering(_) => 5
    case Failing(inner) => if inner then 4 else 2
    case Failed(inner) => if inner then 3 else 1
    case Sweeping => 1
    case Finished => 0
  }

  function StreamsWork(job: Job, s: Sender): nat {
    Sum(s.streams, (st: Stream) => StreamWork(job, st))
  }

  function TasksWork(r: Receiver): nat {
    Sum(r.tasks, TaskWork)
  }

  /** A packet may become a handler, a control message a stream. */
  function NetworkWork(job: Job, n: Network): nat {
    12 * (|n.lanes[0]| + |n.lanes[1]| + |n.lanes[2]| + |n.lanes[3]|)
    + Times(|n.toSender|, 20 * Total(job) + 5) + 3 * |n.toReceiver|
  }

  function Times(n: nat, k: nat): nat {
    if n == 0 then 0 else Times(n - 1, k) + k
  }

  function Work(job: Job, w: World): nat {
    StreamsWork(job, w.s) + NetworkWork(job, w.n) + TasksWork(w.r)
  }

  /** Beyond the loop head a stream has a chunk in hand. */
  ghost predicate InHand(job: Job, s: Sender) {
    forall k :: 0 <= k < |s.streams| && !s.streams[k].stage.Looping? && !s.streams[k].stage.Ended? ==>
      s.streams[k].index < Total(job)
  }

  lemma StepInHand(job: Job, w: World, e: Event)
    requires InHand(job, w.s)
    ensures InHand(job, Step(job, w, e).s)
  {
  }

  lemma {:induction false} RunInHand(job: Job, w: World, es: seq<Event>)
    requires InHand(job, w.s)
    ensures InHand(job, Run(job, w, es).s)
  {
    if es != [] {
      RunInHand(job, w, es[..|es| - 1]);
      StepInHand(job, Run(job, w, es[..|es| - 1]), es[|es| - 1]);
    }
  }

  // ---- events that do some of it ----

  predicate StreamWorks(s: Sender, n: Network, e: SenderEvent) {
    match e
    case LoopHead(i) => i < |s.streams| && s.streams[i].stage.Looping?
    case Seal(i, iv, _) => i < |s.streams| && s.streams[i].stage.Sealing? && |iv| == IV_BYTES
    case LowEvent(i) =>
      i < |s.streams| && s.streams[i].stage.Waiting? && n.buffered[s.streams[i].index % LANES] <= BUFFER_LOW_WATERMARK
    case Timeout(i) => i < |s.streams| && s.streams[i].stage.Waiting?
    case Transmit(i, _) => i < |s.streams| && s.streams[i].stage.Granted?
    case Breaks(i) => i < |s.streams| && (s.streams[i].stage.Looping? || s.streams[i].stage.Sealing?)
    case _ => false
  }

  predicate TaskWorks(r: Receiver, e: ReceiverEvent) {
    match e
    case SaveEnds(t, _) => t < |r.tasks| && r.tasks[t].Saving?
    case CountChunk(t) => t < |r.tasks| && r.tasks[t].Saved?
    case Check(t, _) => t < |r.tasks| && r.tasks[t].Counted?
    case Fetch(t, _) => t < |r.tasks| && r.tasks[t].Fetching?
    case Verify(t) => t < |r.tasks| && r.tasks[t].Fetched?
    case Clear(t, _) => t < |r.tasks| && (r.tasks[t].Completing? || r.tasks[t].Failing? || r.tasks[t].Sweeping?)
    case Announce(t, _) => t < |r.tasks| && (r.tasks[t].Delivering? || r.tasks[t].Failed?)
    case _ => false
  }

  /** The event takes up something that is waiting: a suspended stream or handler, a packet, a control message. */
  predicate Works(w: World, e: Event) {
    match e
    case S(se) => StreamWorks(w.s, w.n, se) || (se.Hear? && w.n.toSender != [])
    case N(_) => false
    case R(re) =>
      || TaskWorks(w.r, re)
      || (re.Arrive? && re.lane < LANES && w.n.lanes[re.lane] != [])
      || (re.HearThere? && w.n.toReceiver != [])
  }

  lemma StreamMoves(job: Job, s: Sender, i: nat, s': Sender)
    requires i < |s.streams| == |s'.streams| && s'.streams == s.streams[i := s'.streams[i]]
    ensures StreamsWork(job, s') + StreamWork(job, s.streams[i]) == StreamsWork(job, s) + StreamWork(job, s'.streams[i])
  {
    SumUpdate(s.streams, i, s'.streams[i], (st: Stream) => StreamWork(job, st));
  }

  lemma TransmitShrinks(job: Job, s: Sender, n: Network, i: nat, sendOk: bool)
    requires InHand(job, s) && i < |s.streams| && s.streams[i].stage.Granted?
    ensures var (s', n') := AtTransmit(s, n, i, sendOk);
            StreamsWork(job, s') + NetworkWork(job, n') < StreamsWork(job, s) + NetworkWork(job, n)
  {
    var (s', n') := AtTransmit(s, n, i, sendOk);
    StreamMoves(job, s, i, s');
    assert |n'.lanes[0]| + |n'.lanes[1]| + |n'.lanes[2]| + |n'.lanes[3]|
           <= |n.lanes[0]| + |n.lanes[1]| + |n.lanes[2]| + |n.lanes[3]| + 1;
  }

  lemma StreamStepShrinks(job: Job, s: Sender, n: Network, e: SenderEvent)
    requires InHand(job, s) && StreamWorks(s, n, e)
    ensures var (s', n') := SenderStep(job, s, n, e);
            StreamsWork(job, s') + NetworkWork(job, n') < StreamsWork(job, s) + NetworkWork(job, n)
  {
    match e
    case LoopHead(i) => StreamMoves(job, s, i, AtLoopHead(job, s, i));
    case Seal(i, iv, laneOpen) => StreamMoves(job, s, i, AtSeal(job, s, n, i, iv, laneOpen));
    case LowEvent(i) => StreamMoves(job, s, i,
        PutStream(s, i, s.streams[i].(stage := Granted(s.streams[i].stage.packet))));
    case Timeout(i) => StreamMoves(job, s, i,
        PutStream(s, i, s.streams[i].(stage := Granted(s.streams[i].stage.packet))));
    case Transmit(i, sendOk) => TransmitShrinks(job, s, n, i, sendOk);
    case Breaks(i) => StreamMoves(job, s, i, Throw(s, i));
  }

  lemma HearShrinks(job: Job, s: Sender, msg: Control)
    ensures StreamsWork(job, AtHear(s, msg)) <= StreamsWork(job, s) + 20 * Total(job) + 4
  {
    if s.live && (msg.Accept? || msg.ResumeFrom?) {
      var start := if msg.Accept? then 0 else msg.start;
      SumAppend(s.streams, Stream(start, Looping), (st: Stream) => StreamWork(job, st));
      assert AtHear(s, msg).streams == s.streams + [Stream(start, Looping)];
    } else {
      assert AtHear(s, msg).streams == s.streams;
    }
  }

  lemma TaskMoves(r: Receiver, t: nat, r': Receiver)
    requires t < |r.tasks| == |r'.tasks| && r'.tasks == r.tasks[t := r'.tasks[t]]
    ensures TasksWork(r') + TaskWork(r.tasks[t]) == TasksWork(r) + TaskWork(r'.tasks[t])
  {
    SumUpdate(r.tasks, t, r'.tasks[t], TaskWork);
  }

  lemma SaveShrinks(job: Job, r: Receiver, n: Network, e: ReceiverEvent)
    requires TaskWorks(r, e) && (e.SaveEnds? || e.CountChunk? || e.Fetch?)
    ensures TasksWork(ReceiverStep(job, r, n, e).0) < TasksWork(r) && ReceiverStep(job, r, n, e).1 == n
  {
    TaskMoves(r, e.task, ReceiverStep(job, r, n, e).0);
  }

  lemma CheckShrinks(job: Job, r: Receiver, n: Network, e: ReceiverEvent)
    requires TaskWorks(r, e) && (e.Check? || e.Verify?)
    ensures TasksWork(ReceiverStep(job, r, n, e).0) < TasksWork(r) && ReceiverStep(job, r, n, e).1 == n
  {
    TaskMoves(r, e.task, if e.Check? then AtCheck(r, e.task, e.throws) else AtVerify(job, r, e.task));
  }

  lemma EndShrinks(job: Job, r: Receiver, n: Network, e: ReceiverEvent)
    requires TaskWorks(r, e) && (e.Clear? || e.Announce?)
    ensures TasksWork(ReceiverStep(job, r, n, e).0) < TasksWork(r) && ReceiverStep(job, r, n, e).1 == n
  {
    TaskMoves(r, e.task, if e.Clear? then AtClear(job, r, e.task, e.ok) else AtAnnounce(r, e.task, e.throws));
  }

  lemma TaskStepShrinks(job: Job, r: Receiver, n: Network, e: ReceiverEvent)
    requires TaskWorks(r, e)
    ensures TasksWork(ReceiverStep(job, r, n, e).0) < TasksWork(r) && ReceiverStep(job, r, n, e).1 == n
  {
    match e
    case Check(_, _) => CheckShrinks(job, r, n, e);
    case Verify(_) => CheckShrinks(job, r, n, e);
    case Clear(_, _) => EndShrinks(job, r, n, e);
    case Announce(_, _) => EndShrinks(job, r, n, e);
    case _ => SaveShrinks(job, r, n, e);
  }

  lemma ArriveShrinks(job: Job, r: Receiver, packet: Bytes)
    ensures TasksWork(AtArrive(job, r, packet)) <= TasksWork(r) + 11
  {
    if Ours(job, packet) {
      SumAppend(r.tasks, Saving(RowOf(Decode(packet).value)), TaskWork);
    }
  }

  lemma HearThereShrinks(r: Receiver, msg: Control)
    ensures TasksWork(AtHearThere(r, msg)) <= TasksWork(r) + 2
  {
    SumAppend(r.tasks, Failing(false), TaskWork);
  }

  lemma HeardWork(job: Job, w: World)
    requires w.n.toSender != []
    ensures Work(job, Step(job, w, S(Hear))) < Work(job, w)
  {
    HearShrinks(job, w.s, w.n.toSender[0]);
  }

  lemma ReceiverWork(job: Job, w: World, e: ReceiverEvent)
    requires Works(w, R(e))
    ensures Work(job, Step(job, w, R(e))) < Work(job, w)
  {
    if TaskWorks(w.r, e) {
      TaskStepShrinks(job, w.r, w.n, e);
    } else if e.Arrive? {
      ArriveShrinks(job, w.r, w.n.lanes[e.lane][0]);
    } else {
      HearThereShrinks(w.r, w.n.toReceiver[0]);
    }
  }

  lemma WorkShrinks(job: Job, w: World, e: Event)
    requires InHand(job, w.s) && Works(w, e)
    ensures Work(job, Step(job, w, e)) < Work(job, w)
  {
    match e
    case S(se) =>
      if StreamWorks(w.s, w.n, se) {
        StreamStepShrinks(job, w.s, w.n, se);
      } else {
        HeardWork(job, w);
      }
    case N(_) =>
    case R(re) => ReceiverWork(job, w, re);
  }

  ghost predicate AllWork(job: Job, w: World, es: seq<Event>) {
    es == [] || (AllWork(job, w, es[..|es| - 1]) && Works(Run(job, w, es[..|es| - 1]), es[|es| - 1]))
  }

  /** What is under way comes to an end: from any world of any run, no more steps can work than its measure says,
      whatever fails and in whatever order they come. */
  lemma {:induction false} WorkTerminates(job: Job, w: World, es: seq<Event>)
    requires InHand(job, w.s) && AllWork(job, w, es)
    ensures |es| + Work(job, Run(job, w, es)) <= Work(job, w)
  {
    if es != [] {
      var n := |es| - 1;
      WorkTerminates(job, w, es[..n]);
      RunInHand(job, w, es[..n]);
      WorkShrinks(job, Run(job, w, es[..n]), es[n]);
    }
  }

  // ---- at rest ----

  /** Something can go on, without a failure. */
  ghost predicate CanWork(job: Job, w: World) {
    exists e :: Works(w, e) && Smooth(job, e)
  }

  lemma StreamCanWork(job: Job, w: World, k: nat)
    requires k < |w.s.streams| && !w.s.streams[k].stage.Ended?
    ensures CanWork(job, w)
  {
    var zeros: Bytes := seq(IV_BYTES, _ => 0);
    var e := match w.s.streams[k].stage
      case Looping => LoopHead(k)
      case Sealing => Seal(k, zeros, true)
      case Waiting(_) => Timeout(k)
      case _ => Transmit(k, true);
    assert Works(w, S(e)) && Smooth(job, S(e));
  }

  lemma TaskCanWork(job: Job, w: World, t: nat)
    requires t < |w.r.tasks| && !w.r.tasks[t].Finished?
    ensures CanWork(job, w)
  {
    var e := match w.r.tasks[t]
      case Saving(_) => SaveEnds(t, true)
      case Saved => CountChunk(t)
      case Counted => Check(t, false)
      case Fetching => Fetch(t, true)
      case Fetched(_) => Verify(t)
      case Completing(_) => Clear(t, true)
      case Failing(_) => Clear(t, true)
      case Sweeping => Clear(t, true)
      case _ => Announce(t, false);
    assert Works(w, R(e)) && Smooth(job, R(e));
  }

  /** A world in which nothing can go on has drained, and one that has drained has nothing that could go on. */
  lemma AtRestIff(job: Job, w: World)
    ensures CanWork(job, w) <==> !Drained(w)
  {
    if !Drained(w) {
      if l :| 0 <= l < LANES && w.n.lanes[l] != [] {
        assert Works(w, R(Arrive(l))) && Smooth(job, R(Arrive(l)));
      } else if w.n.toSender != [] {
        assert Works(w, S(Hear)) && Smooth(job, S(Hear));
      } else if w.n.toReceiver != [] {
        assert Works(w, R(HearThere)) && Smooth(job, R(HearThere));
      } else if k :| 0 <= k < |w.s.streams| && !w.s.streams[k].stage.Ended? {
        StreamCanWork(job, w, k);
      } else {
        var t :| 0 <= t < |w.r.tasks| && !w.r.tasks[t].Finished?;
        TaskCanWork(job, w, t);
      }
    }
  }

  lemma RunCons(job: Job, w: World, e: Event, es: seq<Event>)
    requires Smooth(job, e) && SmoothRun(job, es)
    ensures Run(job, w, [e] + es) == Run(job, Step(job, w, e), es) && SmoothRun(job, [e] + es)
  {
    RunSnoc(job, w, [], e);
    assert [] + [e] == [e];
    RunConcat(job, w, [e], es);
  }

  /** From any world of any run there is a way on, without failures and no longer than the measure, after which it has
      drained. */
  lemma {:induction false} EveryRunCanDrain(job: Job, w: World) returns (es: seq<Event>)
    requires InHand(job, w.s)
    ensures SmoothRun(job, es) && |es| <= Work(job, w) && Drained(Run(job, w, es))
    decreases Work(job, w)
  {
    AtRestIff(job, w);
    es := [];
    if !Drained(w) {
      var e :| Works(w, e) && Smooth(job, e);
      WorkShrinks(job, w, e);
      StepInHand(job, w, e);
      var rest := EveryRunCanDrain(job, Step(job, w, e));
      RunCons(job, w, e, rest);
      es := [e] + rest;
    }
  }
}
