/** Pausing and resuming, from either side, loses no chunk as long as the receiver resumes in the end and the sender
    still holds the transfer when that resume arrives. */
module TransferResume {
  import opened Wrappers
  import opened Slicing
  import opened PacketCodec
  import opened ChunkStore
  import opened TransferState
  import opened TransferModel
  import opened TransferSafety
  import opened TransferAccounting
  import opened TransferCompletion

  // ---- what is owed ----

  ghost predicate HasResume(q: seq<Control>) {
    exists k :: 0 <= k < |q| && q[k].ResumeFrom?
  }

  ghost predicate HasPause(q: seq<Control>) {
    exists k :: 0 <= k < |q| && q[k].Pause?
  }

  /** The receiver is paused, or is about to be, or its resume is still under way. */
  ghost predicate Interrupted(w: World) {
    w.r.inc.paused || HasPause(w.n.toReceiver) || HasResume(w.n.toSender)
  }

  ghost predicate IsChunk(job: Job, packet: Bytes, i: nat) {
    Ours(job, packet) && Decode(packet).value.index == i
  }

  ghost predicate InLane(job: Job, n: Network, i: nat) {
    exists l, k :: 0 <= l < LANES && 0 <= k < |n.lanes[l]| && IsChunk(job, n.lanes[l][k], i)
  }

  ghost predicate StreamComingTo(st: Stream, i: nat) {
    !st.stage.Ended? && st.index <= i
  }

  ghost predicate InStream(s: Sender, i: nat) {
    exists k :: 0 <= k < |s.streams| && StreamComingTo(s.streams[k], i)
  }

  /** Chunk `i` has arrived, is on a lane, or a running stream is yet to send it. */
  ghost predicate Covered(job: Job, w: World, i: nat) {
    i in w.r.inc.received || InLane(job, w.n, i) || InStream(w.s, i)
  }

  ghost predicate AllCovered(job: Job, w: World) {
    forall i :: 0 <= i < Total(job) ==> Covered(job, w, i)
  }

  // ---- invariant ----

  ghost predicate PausesAnswered(paused: bool, q: seq<Control>) {
    forall j :: 0 <= j < |q| && q[j].Pause? ==> paused || HasResume(q[j..])
  }

  /** A resume never asks for more than what is missing. */
  ghost predicate ResumesLow(received: set<nat>, q: seq<Control>) {
    forall j, i :: 0 <= j < |q| && q[j].ResumeFrom? && 0 <= i < q[j].start ==> i in received
  }

  ghost predicate PacketMatches(job: Job, st: Stream) {
    match st.stage
    case Sealing => st.index < Total(job)
    case Waiting(packet) => st.index < Total(job) && IsChunk(job, packet, st.index)
    case Granted(packet) => st.index < Total(job) && IsChunk(job, packet, st.index)
    case _ => true
  }

  ghost predicate PacketsMatch(job: Job, s: Sender) {
    forall k :: 0 <= k < |s.streams| ==> PacketMatches(job, s.streams[k])
  }

  /** Before the first accept has been heard, or a resume here, nothing has been sent. */
  ghost predicate Untouched(w: World) {
    w.s.live && w.s.out.lastSentIndex == -1 && w.n.toSender != [] && w.n.toSender[0].Accept?
  }

  ghost predicate Orderly(job: Job, w: World) {
    && !w.s.out.cancelled && NoCancel(w.n.toSender) && NoCancel(w.n.toReceiver)
    && (w.s.out.paused ==> Interrupted(w) || AllReceived(job, w.r))
    && PausesAnswered(w.r.inc.paused, w.n.toSender)
    && ResumesLow(w.r.inc.received, w.n.toSender)
    && (w.s.streams == [] ==> Untouched(w))
  }

  ghost predicate Owed(job: Job, w: World) {
    Interrupted(w) || w.s.streams == [] || AllCovered(job, w)
  }

  ghost predicate Resumable(job: Job, w: World) {
    && Safe(job, w) && Sound(job, w.r)
    && Orderly(job, w) && PacketsMatch(job, w.s) && Owed(job, w)
  }

  /** When a resume is heard the sender still holds the transfer. */
  predicate HeldOnResume(w: World, e: Event) {
    e == S(Hear) && w.n.toSender != [] && w.n.toSender[0].ResumeFrom? ==> w.s.live
  }

  // ---- the control queue ----

  lemma HasResumeTail(q: seq<Control>)
    requires q != []
    ensures HasResume(q) <==> q[0].ResumeFrom? || HasResume(q[1..])
  {
    if HasResume(q) && !q[0].ResumeFrom? {
      var k :| 0 <= k < |q| && q[k].ResumeFrom?;
      assert q[1..][k - 1].ResumeFrom?;
    }
    if HasResume(q[1..]) {
      var k :| 0 <= k < |q[1..]| && q[1..][k].ResumeFrom?;
      assert q[k + 1].ResumeFrom?;
    }
  }

  lemma PopControl(paused: bool, received: set<nat>, q: seq<Control>)
    requires q != [] && PausesAnswered(paused, q) && ResumesLow(received, q) && NoCancel(q)
    ensures PausesAnswered(paused, q[1..]) && ResumesLow(received, q[1..]) && NoCancel(q[1..])
    ensures q[0].Pause? ==> paused || HasResume(q[1..])
  {
    HasResumeTail(q);
    forall j | 0 <= j < |q[1..]| && q[1..][j].Pause? ensures paused || HasResume(q[1..][j..]) {
      assert q[j + 1].Pause? && q[1..][j..] == q[j + 1..];
    }
    if q[0].Pause? && !paused {
      assert q[0..] == q;
    }
  }

  lemma PushControl(paused: bool, received: set<nat>, q: seq<Control>, msg: Control, paused': bool)
    requires PausesAnswered(paused, q) && ResumesLow(received, q) && NoCancel(q)
    requires !msg.Cancel? && (msg.Pause? ==> paused') && (paused && !paused' ==> msg.ResumeFrom?)
    requires msg.ResumeFrom? ==> forall i :: 0 <= i < msg.start ==> i in received
    ensures PausesAnswered(paused', q + [msg]) && ResumesLow(received, q + [msg]) && NoCancel(q + [msg])
    ensures HasResume(q) || msg.ResumeFrom? ==> HasResume(q + [msg])
  {
    var p := q + [msg];
    if msg.ResumeFrom? {
      assert p[|q|].ResumeFrom?;
    }
    if k :| 0 <= k < |q| && q[k].ResumeFrom? {
      assert p[k].ResumeFrom?;
    }
    forall j | 0 <= j < |p| && p[j].Pause? ensures paused' || HasResume(p[j..]) {
      if !paused' {
        assert q[j].Pause? && p[j..] == q[j..] + [msg];
        if msg.ResumeFrom? {
          assert p[j..][|q| - j].ResumeFrom?;
        } else {
          var k :| 0 <= k < |q[j..]| && q[j..][k].ResumeFrom?;
          assert p[j..][k].ResumeFrom?;
        }
      }
    }
  }

  // ---- sender steps ----

  lemma ExtendCovered(job: Job, w: World, w': World)
    requires AllCovered(job, w)
    requires forall i :: i in w.r.inc.received ==> i in w'.r.inc.received
    requires forall i :: 0 <= i < Total(job) && InLane(job, w.n, i) ==> Covered(job, w', i)
    requires forall i :: 0 <= i < Total(job) && InStream(w.s, i) ==> Covered(job, w', i)
    ensures AllCovered(job, w')
  {
    forall i | 0 <= i < Total(job) ensures Covered(job, w', i) {
      assert Covered(job, w, i);
    }
  }

  /** Replacing stream `i` by one that still comes to all it came to, or has nothing left to send. */
  lemma PutCovers(job: Job, s: Sender, i: nat, st: Stream, out: Outgoing, live: bool)
    requires i < |s.streams|
    requires forall c :: 0 <= c < Total(job) && StreamComingTo(s.streams[i], c) ==> StreamComingTo(st, c)
    ensures forall c :: 0 <= c < Total(job) && InStream(s, c) ==>
            InStream(PutStream(s, i, st).(out := out, live := live), c)
  {
    var s' := PutStream(s, i, st).(out := out, live := live);
    forall c | 0 <= c < Total(job) && InStream(s, c) ensures InStream(s', c) {
      var k :| 0 <= k < |s.streams| && StreamComingTo(s.streams[k], c);
      assert StreamComingTo(s'.streams[k], c);
    }
  }

  lemma ReceivedIsOwed(job: Job, w: World)
    requires AllReceived(job, w.r)
    ensures Owed(job, w)
  {
    forall i | 0 <= i < Total(job) ensures Covered(job, w, i) {
    }
  }

  lemma StreamStepKeeps(job: Job, w: World, e: SenderEvent)
    requires WellFormed(job) && Total(job) <= U32_LIMIT
    requires Resumable(job, w) && Smooth(job, S(e)) && (e.LoopHead? || e.Seal? || e.LowEvent? || e.Timeout?)
    ensures Orderly(job, Step(job, w, S(e))) && PacketsMatch(job, Step(job, w, S(e)).s) && Owed(job, Step(job, w, S(e)))
  {
    var i := e.stream;
    var w' := Step(job, w, S(e));
    if i < |w.s.streams| {
      var st := w.s.streams[i];
      assert PacketMatches(job, st);
      if e.Seal? && st.stage.Sealing? && |e.iv| == IV_BYTES {
        SealedIsGood(job, st.index, e.iv);
      }
      var st' := w'.s.streams[i];
      assert PacketMatches(job, st');
      assert w'.s.streams == w.s.streams[i := st'];
      if AllReceived(job, w.r) {
        ReceivedIsOwed(job, w');
      } else if !Interrupted(w) {
        PutCovers(job, w.s, i, st', w'.s.out, w'.s.live);
        assert w'.s == PutStream(w.s, i, st').(out := w'.s.out, live := w'.s.live);
        assert forall c :: InLane(job, w.n, c) ==> InLane(job, w'.n, c);
        ExtendCovered(job, w, w');
      }
    }
  }

  lemma LanePush(job: Job, n: Network, lane: nat, packet: Bytes, n': Network)
    requires lane < LANES && n'.lanes == n.lanes[lane := n.lanes[lane] + [packet]]
    ensures forall c :: InLane(job, n, c) ==> InLane(job, n', c)
    ensures forall c :: IsChunk(job, packet, c) ==> InLane(job, n', c)
  {
    forall c | InLane(job, n, c) ensures InLane(job, n', c) {
      var l, k :| 0 <= l < LANES && 0 <= k < |n.lanes[l]| && IsChunk(job, n.lanes[l][k], c);
      assert IsChunk(job, n'.lanes[l][k], c);
    }
    forall c | IsChunk(job, packet, c) ensures InLane(job, n', c) {
      assert IsChunk(job, n'.lanes[lane][|n.lanes[lane]|], c);
    }
  }

  lemma TransmitKeeps(job: Job, w: World, i: nat)
    requires Resumable(job, w)
    ensures var w' := Step(job, w, S(Transmit(i, true)));
            Orderly(job, w') && PacketsMatch(job, w'.s) && Owed(job, w')
  {
    var w' := Step(job, w, S(Transmit(i, true)));
    if i < |w.s.streams| && w.s.streams[i].stage.Granted? {
      var st := w.s.streams[i];
      assert PacketMatches(job, st);
      if AllReceived(job, w.r) {
        ReceivedIsOwed(job, w');
      } else if !Interrupted(w) {
        LanePush(job, w.n, st.index % LANES, st.stage.packet, w'.n);
        forall c | 0 <= c < Total(job) && InStream(w.s, c) ensures Covered(job, w', c) {
          var k :| 0 <= k < |w.s.streams| && StreamComingTo(w.s.streams[k], c);
          if k != i || c > st.index {
            assert StreamComingTo(w'.s.streams[k], c);
          }
        }
        ExtendCovered(job, w, w');
      }
    }
  }

  lemma SpawnCovers(s: Sender, start: nat)
    ensures forall c :: InStream(s, c) ==> InStream(Spawn(s, start), c)
    ensures forall c :: start <= c ==> InStream(Spawn(s, start), c)
  {
    var s' := Spawn(s, start);
    forall c | InStream(s, c) ensures InStream(s', c) {
      var k :| 0 <= k < |s.streams| && StreamComingTo(s.streams[k], c);
      assert StreamComingTo(s'.streams[k], c);
    }
    forall c | start <= c ensures InStream(s', c) {
      assert StreamComingTo(s'.streams[|s.streams|], c);
    }
  }

  lemma HearKeeps(job: Job, w: World)
    requires Resumable(job, w) && HeldOnResume(w, S(Hear))
    ensures var w' := Step(job, w, S(Hear));
            Orderly(job, w') && PacketsMatch(job, w'.s) && Owed(job, w')
  {
    var q := w.n.toSender;
    if q != [] {
      var w' := Step(job, w, S(Hear));
      PopControl(w.r.inc.paused, w.r.inc.received, q);
      HasResumeTail(q);
      assert forall c :: InLane(job, w.n, c) ==> InLane(job, w'.n, c);
      match q[0]
      case Accept =>
        SpawnCovers(w.s, 0);
        if !Interrupted(w) {
          if w.s.streams == [] {
            assert AllCovered(job, w');
          } else {
            ExtendCovered(job, w, w');
          }
        }
      case Pause =>
      case ResumeFrom(start) =>
        var heard := w.s.(out := SenderHears(w.s.out, q[0]));
        SpawnCovers(heard, start);
        assert w'.s == Spawn(heard, start);
        forall i | 0 <= i < Total(job) ensures Covered(job, w', i) {
          if i < start {
            assert i in w.r.inc.received;
          }
        }
      case Cancel =>
    }
  }

  lemma HasPauseTail(q: seq<Control>)
    requires q != []
    ensures HasPause(q) <==> q[0].Pause? || HasPause(q[1..])
  {
    if HasPause(q) && !q[0].Pause? {
      var k :| 0 <= k < |q| && q[k].Pause?;
      assert q[1..][k - 1].Pause?;
    }
    if HasPause(q[1..]) {
      var k :| 0 <= k < |q[1..]| && q[1..][k].Pause?;
      assert q[k + 1].Pause?;
    }
  }

  /** A pause made here is announced, which is an interruption until the receiver resumes. */
  lemma PauseHereKeeps(job: Job, w: World)
    requires Resumable(job, w)
    ensures var w' := Step(job, w, S(PauseHere(true)));
            Orderly(job, w') && PacketsMatch(job, w'.s) && Owed(job, w')
  {
    if w.s.live {
      var w' := Step(job, w, S(PauseHere(true)));
      assert w'.n.toReceiver[|w.n.toReceiver|].Pause?;
    }
  }

  /** A resume made here starts one more stream. */
  lemma ResumeHereKeeps(job: Job, w: World)
    requires Resumable(job, w)
    ensures var w' := Step(job, w, S(ResumeHere(true)));
            Orderly(job, w') && PacketsMatch(job, w'.s) && Owed(job, w')
  {
    if w.s.live && w.s.out.paused {
      var w' := Step(job, w, S(ResumeHere(true)));
      var resumed, start := w.s.(out := w.s.out.(paused := false)), w.s.out.lastSentIndex + 1;
      assert w'.s == Spawn(resumed, start) && w'.n.toSender == w.n.toSender;
      if k :| 0 <= k < |w.n.toReceiver| && w.n.toReceiver[k].Pause? {
        assert w'.n.toReceiver[k].Pause?;
      }
      SpawnCovers(resumed, start);
      if !Interrupted(w) {
        if w.s.streams == [] {
          assert forall i :: 0 <= i < Total(job) ==> InStream(w'.s, i);
        } else {
          assert forall c :: InLane(job, w.n, c) ==> InLane(job, w'.n, c);
          ExtendCovered(job, w, w');
        }
      }
    }
  }

  // ---- receiver steps ----

  lemma LanePop(job: Job, n: Network, lane: nat, n': Network)
    requires lane < LANES && n.lanes[lane] != [] && n'.lanes == n.lanes[lane := n.lanes[lane][1..]]
    ensures forall c :: InLane(job, n, c) ==> InLane(job, n', c) || IsChunk(job, n.lanes[lane][0], c)
  {
    forall c | InLane(job, n, c) ensures InLane(job, n', c) || IsChunk(job, n.lanes[lane][0], c) {
      var l, k :| 0 <= l < LANES && 0 <= k < |n.lanes[l]| && IsChunk(job, n.lanes[l][k], c);
      if l == lane {
        if k > 0 {
          assert IsChunk(job, n'.lanes[l][k - 1], c);
        }
      } else {
        assert IsChunk(job, n'.lanes[l][k], c);
      }
    }
  }

  lemma ArriveKeepsOwed(job: Job, w: World, l: nat)
    requires Resumable(job, w) && l < LANES && w.n.lanes[l] != []
    ensures var w' := Step(job, w, R(Arrive(l))); Orderly(job, w') && PacketsMatch(job, w'.s) && Owed(job, w')
  {
    var w' := Step(job, w, R(Arrive(l)));
    assert w'.n.toSender == w.n.toSender && w'.r.inc.paused == w.r.inc.paused;
    if !Interrupted(w) {
      LanePop(job, w.n, l, w'.n);
      FullCount(job, w.r);
      forall c | 0 <= c < Total(job) && InLane(job, w.n, c) ensures Covered(job, w', c) {
      }
      if w.s.streams != [] {
        ExtendCovered(job, w, w');
      }
    }
  }

  /** The sender's pause interrupts the receiver, unless the receiver already has everything. */
  lemma HearThereKeeps(job: Job, w: World)
    requires Resumable(job, w)
    ensures var w' := Step(job, w, R(HearThere));
            Orderly(job, w') && PacketsMatch(job, w'.s) && Owed(job, w')
  {
    if w.n.toReceiver != [] {
      var w' := Step(job, w, R(HearThere));
      HasPauseTail(w.n.toReceiver);
      assert NoCancel(w.n.toReceiver[1..]);
      FullCount(job, w.r);
      assert w'.n.lanes == w.n.lanes && w'.r.inc.received == w.r.inc.received;
      if AllReceived(job, w.r) {
        ReceivedIsOwed(job, w');
      } else if !Interrupted(w) && w.s.streams != [] {
        assert forall c :: InLane(job, w.n, c) ==> InLane(job, w'.n, c);
        ExtendCovered(job, w, w');
      }
    }
  }

  lemma SayKeeps(job: Job, w: World, e: ReceiverEvent)
    requires Resumable(job, w) && SmoothThere(e) && (e.PauseThere? || e.ResumeThere? || e.AcceptHere?)
    ensures var w' := Step(job, w, R(e)); Orderly(job, w') && PacketsMatch(job, w'.s) && Owed(job, w')
  {
    var w' := Step(job, w, R(e));
    var q, received := w.n.toSender, w.r.inc.received;
    if e.PauseThere? && w.r.live {
      PushControl(w.r.inc.paused, received, q, Pause, true);
    } else if e.ResumeThere? && w.r.live && w.r.inc.paused {
      PushControl(true, received, q, ResumeFrom(w.r.inc.contiguous), false);
    } else if e.AcceptHere? && w.r.live {
      PushControl(w.r.inc.paused, received, q, Accept, w.r.inc.paused);
    }
    assert w'.n.lanes == w.n.lanes && w'.r.inc.received == received && w'.n.toReceiver == w.n.toReceiver;
    if !Interrupted(w) && w.s.streams != [] {
      assert forall c :: InLane(job, w.n, c) ==> InLane(job, w'.n, c);
      ExtendCovered(job, w, w');
    }
  }

  lemma ReceiverKeepsOwed(job: Job, w: World, e: ReceiverEvent)
    requires Resumable(job, w) && SmoothThere(e)
    ensures var w' := Step(job, w, R(e)); Orderly(job, w') && PacketsMatch(job, w'.s) && Owed(job, w')
  {
    match e
    case Arrive(l) => if l < LANES && w.n.lanes[l] != [] { ArriveKeepsOwed(job, w, l); }
    case HearThere => HearThereKeeps(job, w);
    case PauseThere(_) => SayKeeps(job, w, e);
    case ResumeThere(_) => SayKeeps(job, w, e);
    case AcceptHere(_) => SayKeeps(job, w, e);
    case _ => HandlerKeepsOwed(job, w, e);
  }

  /** A handler going on changes neither what is received nor what is under way. */
  lemma HandlerKeepsOwed(job: Job, w: World, e: ReceiverEvent)
    requires Resumable(job, w) && (IsTaskEvent(e) || e.OtherRows?)
    ensures var w' := Step(job, w, R(e)); Orderly(job, w') && PacketsMatch(job, w'.s) && Owed(job, w')
  {
    var w' := Step(job, w, R(e));
    assert w'.n == w.n && w'.s == w.s && w'.r.inc.received == w.r.inc.received && w'.r.inc.paused == w.r.inc.paused;
    if !Interrupted(w) && w.s.streams != [] {
      ExtendCovered(job, w, w');
    }
  }

  lemma NetworkKeepsOwed(job: Job, w: World, e: NetworkEvent)
    requires Resumable(job, w) && Smooth(job, N(e))
    ensures var w' := Step(job, w, N(e)); Orderly(job, w') && PacketsMatch(job, w'.s) && Owed(job, w')
  {
    var w' := Step(job, w, N(e));
    if e.Foreign? && e.lane < LANES {
      LanePush(job, w.n, e.lane, e.packet, w'.n);
    } else {
      assert w'.n.lanes == w.n.lanes;
      assert forall c :: InLane(job, w.n, c) ==> InLane(job, w'.n, c);
    }
    if !Interrupted(w) && w.s.streams != [] {
      ExtendCovered(job, w, w');
    }
  }
}
