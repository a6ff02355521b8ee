/** The control channel: what a user does at one end takes effect at the other once that has read its messages. */
module TransferControl {
  import opened Wrappers
  import opened Slicing
  import opened PacketCodec
  import opened ChunkStore
  import opened TransferState
  import opened TransferModel
  import opened TransferSafety
  import opened TransferTheorems
  import opened TransferSilence

  // ---- what is said ----

  /** This much more is on the control channel, and nothing else on the network has changed. */
  predicate Says(n: Network, n': Network, toSender: seq<Control>, toReceiver: seq<Control>) {
    n' == n.(toSender := n.toSender + toSender, toReceiver := n.toReceiver + toReceiver)
  }

  /** Over an open channel the peer is told of every accept, pause, resume and cancel; of a resume only when there was a
      pause to end, with the chunk to go on from. */
  lemma PeersAreTold(job: Job, w: World)
    ensures w.s.live ==>
              && Says(w.n, Step(job, w, S(PauseHere(true))).n, [], [Pause])
              && Says(w.n, Step(job, w, S(CancelHere(true))).n, [], [Cancel])
              && Says(w.n, Step(job, w, S(ResumeHere(true))).n, [],
                      if w.s.out.paused then [ResumeFrom(w.s.out.lastSentIndex + 1)] else [])
    ensures w.r.live ==>
              && Says(w.n, Step(job, w, R(AcceptHere(true))).n, [Accept], [])
              && Says(w.n, Step(job, w, R(PauseThere(true))).n, [Pause], [])
              && Says(w.n, Step(job, w, R(CancelThere(true))).n, [Cancel], [])
              && Says(w.n, Step(job, w, R(ResumeThere(true))).n,
                      if w.r.inc.paused then [ResumeFrom(w.r.inc.contiguous)] else [], [])
  {
  }

  // ---- a cancellation here ----

  predicate CancelComes(w: World) {
    Cancel in w.n.toReceiver || !w.r.live
  }

  lemma StillComes(job: Job, w: World, e: Event)
    requires CancelComes(w)
    ensures CancelComes(Step(job, w, e))
  {
    if e == R(HearThere) && w.n.toReceiver != [] {
      assert w.n.toReceiver == [w.n.toReceiver[0]] + w.n.toReceiver[1..];
    }
  }

  lemma {:induction false} KeepsComing(job: Job, w: World, es: seq<Event>)
    requires CancelComes(w)
    ensures CancelComes(Run(job, w, es))
  {
    if es != [] {
      KeepsComing(job, w, es[..|es| - 1]);
      StillComes(job, Run(job, w, es[..|es| - 1]), es[|es| - 1]);
    }
  }

  /** Cancelled by the sender's user, the transfer is over at both ends: from then on nothing is sent, and from when the
      receiver has read its control messages, nothing is received. */
  lemma CancelHereEndsBoth(job: Job, w: World, first: seq<Event>, rest: seq<Event>)
    requires w.s.live && HonestRun(job, first)
    requires Run(job, Step(job, w, S(CancelHere(true))), first).n.toReceiver == []
    ensures var told := Step(job, w, S(CancelHere(true)));
            var heard := Run(job, told, first);
            && heard.s.out.cancelled && !heard.s.live && OnlyLeftOn(job, told.n, heard.n)
            && !heard.r.live && !Run(job, heard, rest).r.live
            && Run(job, heard, rest).r.inc.received == heard.r.inc.received
  {
    var told := Step(job, w, S(CancelHere(true)));
    CancelledSenderIsOver(job, told, first);
    KeepsComing(job, told, first);
    EndedReceivesNothing(job, Run(job, told, first), rest);
  }

  // ---- a cancellation there ----

  /** A stream comes to its end, or cannot go on, while the transfer is still listed. */
  predicate GivesUpHere(job: Job, w: World, e: Event) {
    && w.s.live && e.S? && !Step(job, w, e).s.live
    && (e.s.LoopHead? || e.s.Seal? || e.s.Transmit? || e.s.Breaks?)
  }

  ghost predicate NeverGivesUp(job: Job, w: World, es: seq<Event>) {
    es == [] ||
    var n := |es| - 1;
    NeverGivesUp(job, w, es[..n]) && !GivesUpHere(job, Run(job, w, es[..n]), es[n])
  }

  predicate CancelComesBack(w: World) {
    if w.s.live then Cancel in w.n.toSender else w.s.out.cancelled
  }

  lemma StillComesBack(job: Job, w: World, e: Event)
    requires CancelComesBack(w) && !GivesUpHere(job, w, e)
    ensures CancelComesBack(Step(job, w, e))
  {
    if e == S(Hear) && w.n.toSender != [] {
      assert w.n.toSender == [w.n.toSender[0]] + w.n.toSender[1..];
    }
  }

  lemma {:induction false} KeepsComingBack(job: Job, w: World, es: seq<Event>)
    requires CancelComesBack(w) && NeverGivesUp(job, w, es)
    ensures CancelComesBack(Run(job, w, es))
  {
    if es != [] {
      KeepsComingBack(job, w, es[..|es| - 1]);
      StillComesBack(job, Run(job, w, es[..|es| - 1]), es[|es| - 1]);
    }
  }

  /** Cancelled by the receiver's user, the transfer is over at both ends: from then on nothing is received, and from
      when the sender has read its control messages, nothing is sent, unless a stream of it had already given it up. */
  lemma CancelThereEndsBoth(job: Job, w: World, first: seq<Event>, rest: seq<Event>)
    requires w.s.live && w.r.live && HonestRun(job, rest)
    requires NeverGivesUp(job, Step(job, w, R(CancelThere(true))), first)
    requires Run(job, Step(job, w, R(CancelThere(true))), first).n.toSender == []
    ensures var heard := Run(job, Step(job, w, R(CancelThere(true))), first);
            && !heard.r.live && heard.r.inc.received == w.r.inc.received
            && heard.s.out.cancelled && !heard.s.live && OnlyLeftOn(job, heard.n, Run(job, heard, rest).n)
  {
    var told := Step(job, w, R(CancelThere(true)));
    EndedReceivesNothing(job, told, first);
    KeepsComingBack(job, told, first);
    CancelledSenderIsOver(job, Run(job, told, first), rest);
  }

  // ---- a pause there ----

  predicate NobodyResumes(es: seq<Event>) {
    forall k :: 0 <= k < |es| ==> !(es[k].S? && es[k].s.ResumeHere?) && !(es[k].R? && es[k].r.ResumeThere?)
  }

  predicate NoResume(msgs: seq<Control>) {
    forall k :: 0 <= k < |msgs| ==> !msgs[k].ResumeFrom?
  }

  /** A pause is among the messages, and no resume behind it. */
  ghost predicate PauseIsLast(msgs: seq<Control>) {
    exists k :: 0 <= k < |msgs| && msgs[k] == Pause && NoResume(msgs[k..])
  }

  ghost predicate PauseComes(w: World) {
    !w.s.live || PauseIsLast(w.n.toSender) || (w.s.out.paused && NoResume(w.n.toSender))
  }

  lemma LastPops(msgs: seq<Control>)
    requires PauseIsLast(msgs)
    ensures if msgs[0] == Pause then PauseIsLast(msgs[1..]) || NoResume(msgs[1..]) else PauseIsLast(msgs[1..])
  {
    var k :| 0 <= k < |msgs| && msgs[k] == Pause && NoResume(msgs[k..]);
    if k > 0 {
      assert msgs[1..][k - 1] == Pause && msgs[1..][k - 1..] == msgs[k..];
    } else {
      assert forall j :: 0 <= j < |msgs[1..]| ==> msgs[1..][j] == msgs[k..][j + 1];
    }
  }

  lemma LastStays(msgs: seq<Control>, msg: Control)
    requires PauseIsLast(msgs) && !msg.ResumeFrom?
    ensures PauseIsLast(msgs + [msg])
  {
    var k :| 0 <= k < |msgs| && msgs[k] == Pause && NoResume(msgs[k..]);
    assert (msgs + [msg])[k] == Pause && (msgs + [msg])[k..] == msgs[k..] + [msg];
  }

  lemma PauseStillComes(job: Job, w: World, e: Event)
    requires PauseComes(w) && NobodyResumes([e])
    ensures PauseComes(Step(job, w, e))
  {
    assert [e][0] == e;
    var w' := Step(job, w, e);
    if e == S(Hear) {
      if w.n.toSender != [] && PauseIsLast(w.n.toSender) {
        LastPops(w.n.toSender);
      }
    } else if w'.n.toSender != w.n.toSender {
      var msg := w'.n.toSender[|w.n.toSender|];
      assert w'.n.toSender == w.n.toSender + [msg] && !msg.ResumeFrom?;
      if PauseIsLast(w.n.toSender) {
        LastStays(w.n.toSender, msg);
      }
    }
  }

  lemma {:induction false} PauseKeepsComing(job: Job, w: World, es: seq<Event>)
    requires PauseComes(w) && NobodyResumes(es)
    ensures PauseComes(Run(job, w, es))
  {
    if es != [] {
      PauseKeepsComing(job, w, es[..|es| - 1]);
      PauseStillComes(job, Run(job, w, es[..|es| - 1]), es[|es| - 1]);
    }
  }

  lemma NoneIsSaid(job: Job, w: World, e: Event)
    requires NoResume(w.n.toSender) && NobodyResumes([e])
    ensures NoResume(Step(job, w, e).n.toSender) && !Resumes(w, e)
  {
    assert [e][0] == e;
  }

  /** Where no resume is waiting and nobody resumes, none is heard. */
  lemma {:induction false} NoneIsHeard(job: Job, w: World, es: seq<Event>)
    requires NoResume(w.n.toSender) && NobodyResumes(es)
    ensures NoResume(Run(job, w, es).n.toSender) && NeverResumes(job, w, es)
  {
    if es != [] {
      var n := |es| - 1;
      NoneIsHeard(job, w, es[..n]);
      NoneIsSaid(job, Run(job, w, es[..n]), es[n]);
    }
  }

  /** Paused by the receiver's user, the transfer rests at both ends until somebody resumes: from then on nothing is
      received, and from when the sender has read its control messages, nothing is sent. */
  lemma PauseThereStopsBoth(job: Job, w: World, first: seq<Event>, rest: seq<Event>)
    requires w.r.live && NobodyResumes(first) && NobodyResumes(rest) && HonestRun(job, rest)
    requires Run(job, Step(job, w, R(PauseThere(true))), first).n.toSender == []
    ensures var heard := Run(job, Step(job, w, R(PauseThere(true))), first);
            && heard.r.inc.paused && heard.r.inc.received == w.r.inc.received
            && (heard.s.live ==>
                  && heard.s.out.paused && OnlyLeftOn(job, heard.n, Run(job, heard, rest).n)
                  && Run(job, heard, rest).s.out.lastSentIndex == heard.s.out.lastSentIndex)
  {
    var told := Step(job, w, R(PauseThere(true)));
    assert told.n.toSender[|w.n.toSender|..] == [Pause];
    assert PauseIsLast(told.n.toSender);
    PauseKeepsComing(job, told, first);
    PausedReceivesNothing(job, told, first);
    var heard := Run(job, told, first);
    if heard.s.live {
      NoneIsHeard(job, heard, rest);
      PausedSenderIsSilent(job, heard, rest);
    }
  }

  // ---- a pause here ----

  predicate PauseArrives(w: World) {
    Pause in w.n.toReceiver || w.r.inc.paused || !w.r.live
  }

  lemma StillArrives(job: Job, w: World, e: Event)
    requires PauseArrives(w) && NobodyResumes([e])
    ensures PauseArrives(Step(job, w, e))
  {
    assert [e][0] == e;
    if e == R(HearThere) && w.n.toReceiver != [] {
      assert w.n.toReceiver == [w.n.toReceiver[0]] + w.n.toReceiver[1..];
    }
  }

  lemma {:induction false} KeepsArriving(job: Job, w: World, es: seq<Event>)
    requires PauseArrives(w) && NobodyResumes(es)
    ensures PauseArrives(Run(job, w, es))
  {
    if es != [] {
      KeepsArriving(job, w, es[..|es| - 1]);
      StillArrives(job, Run(job, w, es[..|es| - 1]), es[|es| - 1]);
    }
  }

  /** Paused by the sender's user, it rests likewise; what is on the lanes by then is lost on a receiver that has heard
      of the pause. */
  lemma PauseHereStopsBoth(job: Job, w: World, first: seq<Event>, rest: seq<Event>)
    requires w.s.live && NoResume(w.n.toSender) && NobodyResumes(first) && NobodyResumes(rest) && HonestRun(job, first)
    requires Run(job, Step(job, w, S(PauseHere(true))), first).n.toReceiver == []
    ensures var told := Step(job, w, S(PauseHere(true)));
            var heard := Run(job, told, first);
            && OnlyLeftOn(job, told.n, heard.n) && heard.s.out.lastSentIndex == told.s.out.lastSentIndex
            && Run(job, heard, rest).r.inc.received == heard.r.inc.received
  {
    var told := Step(job, w, S(PauseHere(true)));
    NoneIsHeard(job, told, first);
    PausedSenderIsSilent(job, told, first);
    KeepsArriving(job, told, first);
    var heard := Run(job, told, first);
    if heard.r.live {
      PausedReceivesNothing(job, heard, rest);
    } else {
      EndedReceivesNothing(job, heard, rest);
    }
  }
}
