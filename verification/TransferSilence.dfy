/** A sender that is paused or cancelled is silent, and a cancelled transfer is over for good, at both ends. */
module TransferSilence {
  import opened Wrappers
  import opened Slicing
  import opened PacketCodec
  import opened ChunkStore
  import opened TransferState
  import opened TransferModel
  import opened TransferSafety
  import opened TransferTheorems

  predicate IsStopped(s: Sender) {
    s.out.paused || s.out.cancelled
  }

  // ---- one step ----

  /** No event of a paused or cancelled sender puts anything on a lane or moves the last sent index, and a run that
      comes to one of its two looks at the flags ends there. */
  lemma StoppedSenderIsSilent(job: Job, s: Sender, n: Network, e: SenderEvent)
    requires IsStopped(s)
    ensures var (s', n') := SenderStep(job, s, n, e);
            n'.lanes == n.lanes && n'.buffered == n.buffered && s'.out.lastSentIndex == s.out.lastSentIndex
    ensures var s' := SenderStep(job, s, n, e).0;
            && (e.LoopHead? && e.stream < |s.streams| && s.streams[e.stream].stage.Looping? ==>
                  s'.streams[e.stream].stage == Ended)
            && (e.Transmit? && e.stream < |s.streams| && s.streams[e.stream].stage.Granted? ==>
                  s'.streams[e.stream].stage == Ended)
  {
  }

  /** Only a run in its last stage sends: its own packet, to its own lane, and the index moves to that chunk. */
  lemma OnlyTransmitSends(job: Job, s: Sender, n: Network, e: SenderEvent)
    ensures var (s', n') := SenderStep(job, s, n, e);
            if && e.Transmit? && e.sendOk && e.stream < |s.streams| && s.streams[e.stream].stage.Granted?
               && !s.out.paused && !s.out.cancelled
            then && var st, lane := s.streams[e.stream], s.streams[e.stream].index % 4;
                    && n'.lanes[lane] == n.lanes[lane] + [st.stage.packet]
                    && n'.buffered[lane] == n.buffered[lane] + |st.stage.packet|
                    && (forall l :: 0 <= l < LANES && l != lane ==>
                         n'.lanes[l] == n.lanes[l] && n'.buffered[l] == n.buffered[l])
                    && s'.out.lastSentIndex == st.index && s'.streams[e.stream] == Stream(st.index + 1, Looping)
            else n'.lanes == n.lanes && n'.buffered == n.buffered && s'.out.lastSentIndex == s.out.lastSentIndex
  {
  }

  /** What stops a sender: its own pause or cancel, or the peer's. */
  lemma WhatStops(job: Job, w: World, open: bool)
    requires w.s.live
    ensures Step(job, w, S(PauseHere(open))).s.out.paused
    ensures Step(job, w, S(CancelHere(open))).s.out.cancelled && !Step(job, w, S(CancelHere(open))).s.live
    ensures w.n.toSender != [] && w.n.toSender[0] == Pause ==> Step(job, w, S(Hear)).s.out.paused
    ensures w.n.toSender != [] && w.n.toSender[0] == Cancel ==>
              Step(job, w, S(Hear)).s.out.cancelled && !Step(job, w, S(Hear)).s.live
  {
  }

  /** What starts it again: a resume here, from after the last sent chunk, or the receiver's, from the chunk it names.
      Both are ignored once the entry is deleted, and neither undoes a cancellation. */
  lemma WhatResumes(job: Job, w: World, open: bool, start: nat)
    ensures var s' := Step(job, w, S(ResumeHere(open))).s;
            if w.s.live && w.s.out.paused
            then !s'.out.paused && s'.streams == w.s.streams + [Stream(w.s.out.lastSentIndex + 1, Looping)]
            else s' == w.s
    ensures w.n.toSender != [] && w.n.toSender[0] == ResumeFrom(start) ==>
              var s' := Step(job, w, S(Hear)).s;
              if w.s.live then !s'.out.paused && s'.streams == w.s.streams + [Stream(start, Looping)] else s' == w.s
    ensures w.n.toSender != [] && w.n.toSender[0] == Accept ==>
              var s' := Step(job, w, S(Hear)).s;
              if w.s.live then s'.out == w.s.out && s'.streams == w.s.streams + [Stream(0, Looping)] else s' == w.s
  {
  }

  // ---- over runs ----

  /** The event resumes the sender. */
  predicate Resumes(w: World, e: Event) {
    && w.s.live
    && ((e == S(Hear) && w.n.toSender != [] && w.n.toSender[0].ResumeFrom?)
        || (e.S? && e.s.ResumeHere? && w.s.out.paused))
  }

  ghost predicate NeverResumes(job: Job, w: World, es: seq<Event>) {
    es == [] ||
    var n := |es| - 1;
    NeverResumes(job, w, es[..n]) && !Resumes(Run(job, w, es[..n]), es[n])
  }

  /** What is left of a lane, and perhaps packets of other transfers behind it. */
  ghost predicate OnlyLeft(job: Job, before: seq<Bytes>, now: seq<Bytes>) {
    exists k: nat :: k <= |before| && LeftFrom(job, before, now, k)
  }

  ghost predicate LeftFrom(job: Job, before: seq<Bytes>, now: seq<Bytes>, k: nat)
    requires k <= |before|
  {
    && |before| - k <= |now| && now[..|before| - k] == before[k..]
    && forall j :: |before| - k <= j < |now| ==> !Ours(job, now[j])
  }

  lemma LeftPop(job: Job, before: seq<Bytes>, now: seq<Bytes>)
    requires OnlyLeft(job, before, now) && now != []
    ensures OnlyLeft(job, before, now[1..])
  {
    var k: nat :| k <= |before| && LeftFrom(job, before, now, k);
    if k < |before| {
      assert LeftFrom(job, before, now[1..], k + 1);
    } else {
      assert LeftFrom(job, before, now[1..], k);
    }
  }

  lemma LeftForeign(job: Job, before: seq<Bytes>, now: seq<Bytes>, packet: Bytes)
    requires OnlyLeft(job, before, now) && !Ours(job, packet)
    ensures OnlyLeft(job, before, now + [packet])
  {
    var k: nat :| k <= |before| && LeftFrom(job, before, now, k);
    assert LeftFrom(job, before, now + [packet], k);
  }

  lemma LeftNothing(job: Job, before: seq<Bytes>)
    ensures OnlyLeft(job, before, [])
  {
    assert LeftFrom(job, before, [], |before|);
  }

  lemma LeftAll(job: Job, before: seq<Bytes>)
    ensures OnlyLeft(job, before, before)
  {
    assert LeftFrom(job, before, before, 0);
  }

  ghost predicate OnlyLeftOn(job: Job, n: Network, n': Network) {
    forall l :: 0 <= l < LANES ==> OnlyLeft(job, n.lanes[l], n'.lanes[l])
  }

  lemma StepLeaves(job: Job, n0: Network, w: World, e: Event)
    requires IsStopped(w.s) && OnlyLeftOn(job, n0, w.n) && Honest(job, e)
    ensures OnlyLeftOn(job, n0, Step(job, w, e).n)
  {
    var n' := Step(job, w, e).n;
    forall l | 0 <= l < LANES ensures OnlyLeft(job, n0.lanes[l], n'.lanes[l]) {
      match e
      case S(se) => StoppedSenderIsSilent(job, w.s, w.n, se);
      case N(Lose(_)) => LeftNothing(job, n0.lanes[l]);
      case N(Foreign(_, packet)) => LeftForeign(job, n0.lanes[l], w.n.lanes[l], packet);
      case N(Drain(_, _)) =>
      case R(Arrive(_)) => if w.n.lanes[l] != [] { LeftPop(job, n0.lanes[l], w.n.lanes[l]); }
      case R(_) =>
    }
  }

  lemma StaysStopped(job: Job, w: World, e: Event)
    requires IsStopped(w.s)
    ensures !Resumes(w, e) || w.s.out.cancelled ==> IsStopped(Step(job, w, e).s)
    ensures w.s.out.cancelled ==> Step(job, w, e).s.out.cancelled
    ensures Step(job, w, e).s.out.lastSentIndex == w.s.out.lastSentIndex
  {
    if e.S? {
      StoppedSenderIsSilent(job, w.s, w.n, e.s);
    }
  }

  lemma {:induction false} SilentUntilResumed(job: Job, w: World, es: seq<Event>)
    requires IsStopped(w.s) && HonestRun(job, es) && (w.s.out.cancelled || NeverResumes(job, w, es))
    ensures var w' := Run(job, w, es);
            && IsStopped(w'.s) && (w.s.out.cancelled ==> w'.s.out.cancelled)
            && w'.s.out.lastSentIndex == w.s.out.lastSentIndex && OnlyLeftOn(job, w.n, w'.n)
  {
    if es == [] {
      forall l | 0 <= l < LANES ensures OnlyLeft(job, w.n.lanes[l], w.n.lanes[l]) {
        LeftAll(job, w.n.lanes[l]);
      }
    } else {
      var n := |es| - 1;
      SilentUntilResumed(job, w, es[..n]);
      StepLeaves(job, w.n, Run(job, w, es[..n]), es[n]);
      StaysStopped(job, Run(job, w, es[..n]), es[n]);
    }
  }

  /** From a pause of the sender on, made here or heard, until it hears or makes a resume, its lanes only lose packets
      or gain those of other transfers, and the last sent index stands. */
  lemma PausedSenderIsSilent(job: Job, w: World, es: seq<Event>)
    requires w.s.out.paused && HonestRun(job, es) && NeverResumes(job, w, es)
    ensures OnlyLeftOn(job, w.n, Run(job, w, es).n)
    ensures Run(job, w, es).s.out.lastSentIndex == w.s.out.lastSentIndex
  {
    SilentUntilResumed(job, w, es);
  }

  // ---- after a cancellation ----

  /** No run of the stream is started any more. */
  lemma NoNewStreams(job: Job, w: World, e: Event)
    requires !w.s.live
    ensures var w' := Step(job, w, e); !w'.s.live && |w'.s.streams| == |w.s.streams|
    ensures forall k :: 0 <= k < |w.s.streams| && w.s.streams[k].stage.Ended? ==>
            Step(job, w, e).s.streams[k].stage.Ended?
  {
  }

  /** A cancelled upload is over for good: in no continuation of any kind is another of its packets put on a lane, is
      the last sent index moved or a stream started. */
  lemma {:induction false} CancelledSenderIsOver(job: Job, w: World, es: seq<Event>)
    requires w.s.out.cancelled && !w.s.live && HonestRun(job, es)
    ensures var w' := Run(job, w, es);
            && w'.s.out.cancelled && !w'.s.live && OnlyLeftOn(job, w.n, w'.n)
            && w'.s.out.lastSentIndex == w.s.out.lastSentIndex && |w'.s.streams| == |w.s.streams|
  {
    SilentUntilResumed(job, w, es);
    if es != [] {
      CancelledSenderIsOver(job, w, es[..|es| - 1]);
      NoNewStreams(job, Run(job, w, es[..|es| - 1]), es[|es| - 1]);
    }
  }

  /** The event takes run `i` of the stream to one of its looks at the flags. */
  predicate AtLook(s: Sender, e: Event, i: nat) {
    && i < |s.streams| && e.S?
    && ((e.s.LoopHead? && e.s.stream == i && s.streams[i].stage.Looping?)
        || (e.s.Transmit? && e.s.stream == i && s.streams[i].stage.Granted?))
  }

  ghost predicate HasLooked(job: Job, w: World, es: seq<Event>, i: nat) {
    es != [] &&
    var n := |es| - 1;
    HasLooked(job, w, es[..n], i) || AtLook(Run(job, w, es[..n]).s, es[n], i)
  }

  lemma LookEnds(job: Job, w: World, e: Event, i: nat)
    requires IsStopped(w.s) && AtLook(w.s, e, i)
    ensures var w' := Step(job, w, e); i < |w'.s.streams| && w'.s.streams[i].stage.Ended?
  {
    StoppedSenderIsSilent(job, w.s, w.n, e.s);
  }

  /** And every run of its stream ends at its next look at the flags. */
  lemma {:induction false} CancelledRunsEnd(job: Job, w: World, es: seq<Event>, i: nat)
    requires w.s.out.cancelled && !w.s.live && HonestRun(job, es) && HasLooked(job, w, es, i)
    ensures i < |Run(job, w, es).s.streams| && Run(job, w, es).s.streams[i].stage.Ended?
  {
    var n := |es| - 1;
    var v := Run(job, w, es[..n]);
    CancelledSenderIsOver(job, w, es[..n]);
    NoNewStreams(job, v, es[n]);
    if AtLook(v.s, es[n], i) {
      LookEnds(job, v, es[n], i);
    } else {
      CancelledRunsEnd(job, w, es[..n], i);
    }
  }

  // ---- the receiver ----

  /** What ends a transfer at the receiver: its own cancel, or the peer's, and each owes the clearing of what is stored.
      */
  lemma WhatEndsReceiving(job: Job, w: World, open: bool)
    requires w.r.live
    ensures var r' := Step(job, w, R(CancelThere(open))).r;
            !r'.live && r'.inc.cancelled && r'.tasks == w.r.tasks + [Sweeping]
    ensures w.n.toReceiver != [] && w.n.toReceiver[0] == Cancel ==>
              var r' := Step(job, w, R(HearThere)).r;
              !r'.live && r'.inc.cancelled && r'.tasks == w.r.tasks + [Failing(false)]
  {
  }

  /** A transfer that has left the table of incoming ones receives nothing more, whatever comes. */
  lemma {:induction false} EndedReceivesNothing(job: Job, w: World, es: seq<Event>)
    requires !w.r.live
    ensures !Run(job, w, es).r.live && Run(job, w, es).r.inc.received == w.r.inc.received
  {
    if es != [] {
      EndedReceivesNothing(job, w, es[..|es| - 1]);
      EndedStep(job, Run(job, w, es[..|es| - 1]), es[|es| - 1]);
    }
  }

  lemma EndedStep(job: Job, w: World, e: Event)
    requires !w.r.live
    ensures !Step(job, w, e).r.live && Step(job, w, e).r.inc.received == w.r.inc.received
  {
  }
}
