/** Several uploads at once: each goes on exactly as the one-transfer machine says, whatever the others do. */
module TransferUploads {
  import opened Wrappers
  import opened Slicing
  import opened PacketCodec
  import opened TransferState
  import opened TransferModel
  import opened TransferBackpressure
  import opened TransferSilence

  /** The runs of upload `u`, in the order in which they were started. */
  function StreamsOf(rs: seq<Runner>, u: nat): seq<Stream> {
    if rs == [] then []
    else
      var last := rs[|rs| - 1];
      StreamsOf(rs[..|rs| - 1], u) + (if last.upload == u then [last.stream] else [])
  }

  /** Upload `u` as the one-transfer machine sees it. */
  function ViewOf(c: Uploads, u: nat): Sender
    requires u < |c.all|
  {
    SenderOf(c, u, StreamsOf(c.runners, u))
  }

  /** Its run number among those of its own upload. */
  function Place(rs: seq<Runner>, i: nat): nat
    requires i < |rs|
  {
    |StreamsOf(rs[..i], rs[i].upload)|
  }

  lemma {:induction false} OfAppended(rs: seq<Runner>, more: seq<Runner>, u: nat)
    ensures StreamsOf(rs + more, u) == StreamsOf(rs, u) + StreamsOf(more, u)
    decreases |more|
  {
    if more == [] {
      assert rs + more == rs;
    } else {
      assert (rs + more)[..|rs + more| - 1] == rs + more[..|more| - 1];
      OfAppended(rs, more[..|more| - 1], u);
    }
  }

  lemma OfSplit(rs: seq<Runner>, i: nat, u: nat)
    requires i < |rs|
    ensures StreamsOf(rs, u) == StreamsOf(rs[..i], u) + (if rs[i].upload == u then [rs[i].stream] else [])
                                + StreamsOf(rs[i + 1..], u)
  {
    assert rs == rs[..i] + [rs[i]] + rs[i + 1..];
    OfAppended(rs[..i] + [rs[i]], rs[i + 1..], u);
    OfAppended(rs[..i], [rs[i]], u);
  }

  lemma OfUpdated(rs: seq<Runner>, i: nat, st: Stream, u: nat)
    requires i < |rs|
    ensures rs[i].upload == u ==>
              && Place(rs, i) < |StreamsOf(rs, u)| && StreamsOf(rs, u)[Place(rs, i)] == rs[i].stream
              && StreamsOf(rs[i := Runner(u, st)], u) == StreamsOf(rs, u)[Place(rs, i) := st]
    ensures rs[i].upload != u ==> StreamsOf(rs[i := Runner(rs[i].upload, st)], u) == StreamsOf(rs, u)
  {
    var rs' := rs[i := Runner(rs[i].upload, st)];
    assert rs'[..i] == rs[..i] && rs'[i + 1..] == rs[i + 1..];
    OfSplit(rs, i, u);
    OfSplit(rs', i, u);
  }

  lemma {:induction false} OfSpawned(u: nat, streams: seq<Stream>, v: nat)
    ensures StreamsOf(RunnersFor(u, streams), v) == if u == v then streams else []
  {
    if streams != [] {
      var n := |streams| - 1;
      OfSpawned(u, streams[..n], v);
      assert RunnersFor(u, streams)[..n] == RunnersFor(u, streams[..n]);
    }
  }

  /** The event, for the run of that number. */
  function For(e: SenderEvent, k: nat): SenderEvent
    requires IsStreamEvent(e)
  {
    match e
    case LoopHead(_) => LoopHead(k)
    case Seal(_, iv, laneOpen) => Seal(k, iv, laneOpen)
    case LowEvent(_) => LowEvent(k)
    case Timeout(_) => Timeout(k)
    case Transmit(_, sendOk) => Transmit(k, sendOk)
    case Breaks(_) => Breaks(k)
  }

  /** A run of a stream looks at nothing but its transfer's record and its own state, and changes nothing else. */
  lemma RunsAreLocal(job: Job, s: Sender, n: Network, e: SenderEvent, k: nat)
    requires IsStreamEvent(e) && k < |s.streams|
    ensures var (one, n') := SenderStep(job, s.(streams := [s.streams[k]]), n, e);
            && |one.streams| == 1
            && SenderStep(job, s, n, For(e, k)) == (one.(streams := s.streams[k := one.streams[0]]), n')
  {
    assert s.streams[k := s.streams[k]] == s.streams;
    match e
    case LoopHead(_) =>
    case Seal(_, _, _) =>
    case LowEvent(_) =>
    case Timeout(_) =>
    case Transmit(_, _) =>
    case Breaks(_) =>
  }

  /** One run of upload `u` goes on: a step of that upload's own machine, on the lanes all share. */
  lemma AdvanceIsOneStep(c: Uploads, i: nat, e: SenderEvent)
    requires i < |c.runners| && c.runners[i].upload < |c.all| && IsStreamEvent(e)
    ensures var u, c' := c.runners[i].upload, TransferBackpressure.Step(c, Advance(i, e));
            && |c'.all| == |c.all| && c'.all[u].job == c.all[u].job
            && (ViewOf(c', u), c'.n) == SenderStep(c.all[u].job, ViewOf(c, u), c.n, For(e, Place(c.runners, i)))
  {
    var u := c.runners[i].upload;
    OfUpdated(c.runners, i, c.runners[i].stream, u);
    RunsAreLocal(c.all[u].job, ViewOf(c, u), c.n, e, Place(c.runners, i));
    OfUpdated(c.runners, i, TransferBackpressure.Step(c, Advance(i, e)).runners[i].stream, u);
  }

  /** Nor does a command of the user, or a control message, touch the runs there are: it may start one more. */
  lemma CommandsAreLocal(job: Job, s: Sender, n: Network, e: SenderEvent)
    requires e.PauseHere? || e.ResumeHere? || e.CancelHere?
    ensures var (one, n') := SenderStep(job, s.(streams := []), n, e);
            SenderStep(job, s, n, e) == (one.(streams := s.streams + one.streams), n')
  {
    assert s.streams + [] == s.streams && s.(streams := s.streams) == s;
    var one := SenderStep(job, s.(streams := []), n, e).0;
    match e
    case PauseHere(_) => assert one.streams == [];
    case ResumeHere(_) => assert one.streams == [] || one.streams == [Stream(s.out.lastSentIndex + 1, Looping)];
    case CancelHere(_) => assert one.streams == [];
  }

  lemma HearingIsLocal(s: Sender, msg: Control)
    ensures var one := AtHear(s.(streams := []), msg); AtHear(s, msg) == one.(streams := s.streams + one.streams)
  {
    assert s.streams + [] == s.streams;
  }

  lemma UpdatedView(c: Uploads, u: nat, s: Sender, n: Network, v: nat)
    requires u < |c.all| && v < |c.all|
    ensures ViewOf(Updated(c, u, s, n), v)
            == if u == v then s.(streams := StreamsOf(c.runners, u) + s.streams) else ViewOf(c, v)
  {
    OfAppended(c.runners, RunnersFor(u, s.streams), v);
    OfSpawned(u, s.streams, v);
  }

  /** So is a command of the user. */
  lemma CommandIsOneStep(c: Uploads, u: nat, e: SenderEvent)
    requires u < |c.all| && (e.PauseHere? || e.ResumeHere? || e.CancelHere?)
    ensures var c' := TransferBackpressure.Step(c, Command(u, e));
            && |c'.all| == |c.all| && c'.all[u].job == c.all[u].job
            && (ViewOf(c', u), c'.n) == SenderStep(c.all[u].job, ViewOf(c, u), c.n, e)
  {
    var (s, n) := SenderStep(c.all[u].job, SenderOf(c, u, []), c.n, e);
    CommandsAreLocal(c.all[u].job, ViewOf(c, u), c.n, e);
    UpdatedView(c, u, s, n, u);
  }

  /** And a control message that comes in. */
  lemma HearingIsOneStep(c: Uploads, u: nat, msg: Control)
    requires u < |c.all|
    ensures var c' := TransferBackpressure.Step(c, Hears(u, msg));
            && |c'.all| == |c.all| && c'.all[u].job == c.all[u].job && c'.n == c.n
            && ViewOf(c', u) == SenderStep(c.all[u].job, ViewOf(c, u), c.n.(toSender := [msg]), Hear).0
  {
    HearingIsLocal(ViewOf(c, u), msg);
    UpdatedView(c, u, AtHear(SenderOf(c, u, []), msg), c.n, u);
  }

  /** Which upload the event is for. */
  function Concerns(c: Uploads, e: TransferBackpressure.Event): Option<nat> {
    match e
    case Advance(i, _) => if i < |c.runners| then Some(c.runners[i].upload) else None
    case Command(u, _) => Some(u)
    case Hears(u, _) => Some(u)
    case _ => None
  }

  /** No other upload notices: neither its record nor its runs change. */
  lemma OthersAreUntouched(c: Uploads, e: TransferBackpressure.Event, v: nat)
    requires v < |c.all| && Concerns(c, e) != Some(v)
    ensures var c' := TransferBackpressure.Step(c, e);
            v < |c'.all| && c'.all[v] == c.all[v] && ViewOf(c', v) == ViewOf(c, v)
  {
    match e
    case NewUpload(_) =>
    case Advance(i, se) =>
      if i < |c.runners| && c.runners[i].upload < |c.all| && IsStreamEvent(se) {
        var u := c.runners[i].upload;
        RunsAreLocal(c.all[u].job, SenderOf(c, u, [c.runners[i].stream]), c.n, se, 0);
        OfUpdated(c.runners, i, TransferBackpressure.Step(c, e).runners[i].stream, v);
      }
    case Command(u, se) =>
      if u < |c.all| && (se.PauseHere? || se.ResumeHere? || se.CancelHere?) {
        var (s, n) := SenderStep(c.all[u].job, SenderOf(c, u, []), c.n, se);
        UpdatedView(c, u, s, n, v);
      }
    case Hears(u, msg) =>
      if u < |c.all| {
        UpdatedView(c, u, AtHear(SenderOf(c, u, []), msg), c.n, v);
      }
    case Flow(_) =>
  }

  ghost predicate AllListed(c: Uploads) {
    forall i :: 0 <= i < |c.runners| ==> c.runners[i].upload < |c.all|
  }

  lemma StepLists(c: Uploads, e: TransferBackpressure.Event)
    requires AllListed(c)
    ensures AllListed(TransferBackpressure.Step(c, e))
  {
  }

  /** Every runner is for a known upload, so that every run of a stream can go on. */
  lemma {:induction false} RunnersHaveUploads(es: seq<TransferBackpressure.Event>)
    ensures AllListed(TransferBackpressure.Run(es))
  {
    if es != [] {
      RunnersHaveUploads(es[..|es| - 1]);
      StepLists(TransferBackpressure.Run(es[..|es| - 1]), es[|es| - 1]);
    }
  }

  // ---- an upload that is paused among others ----

  /** The upload is resumed, by its user or by its peer. */
  predicate Restarts(e: TransferBackpressure.Event, u: nat) {
    (e.Command? && e.upload == u && e.e.ResumeHere?) || (e.Hears? && e.upload == u && e.msg.ResumeFrom?)
  }

  predicate NeverRestarts(es: seq<TransferBackpressure.Event>, u: nat) {
    forall k :: 0 <= k < |es| ==> !Restarts(es[k], u)
  }

  predicate Rests(c: Uploads, u: nat) {
    u < |c.all| && (c.all[u].out.paused || c.all[u].out.cancelled)
  }

  lemma StepRests(c: Uploads, e: TransferBackpressure.Event, u: nat)
    requires Rests(c, u) && !Restarts(e, u)
    ensures var c' := TransferBackpressure.Step(c, e);
            Rests(c', u) && c'.all[u].out.lastSentIndex == c.all[u].out.lastSentIndex
    ensures Concerns(c, e) == Some(u) ==> TransferBackpressure.Step(c, e).n.lanes == c.n.lanes
  {
    if Concerns(c, e) != Some(u) {
      OthersAreUntouched(c, e, u);
    } else if e.Advance? && IsStreamEvent(e.e) {
      AdvanceIsOneStep(c, e.runner, e.e);
      StoppedSenderIsSilent(c.all[u].job, ViewOf(c, u), c.n, For(e.e, Place(c.runners, e.runner)));
    }
  }

  /** A paused or cancelled upload sends nothing until it is resumed, whatever the others are doing. */
  lemma {:induction false} PausedUploadRests(before: seq<TransferBackpressure.Event>,
                                             after: seq<TransferBackpressure.Event>, u: nat)
    requires Rests(TransferBackpressure.Run(before), u) && NeverRestarts(after, u)
    ensures var c, c' := TransferBackpressure.Run(before), TransferBackpressure.Run(before + after);
            Rests(c', u) && c'.all[u].out.lastSentIndex == c.all[u].out.lastSentIndex
    decreases |after|
  {
    if after == [] {
      assert before + after == before;
    } else {
      var n := |after| - 1;
      assert (before + after)[..|before + after| - 1] == before + after[..n];
      PausedUploadRests(before, after[..n], u);
      StepRests(TransferBackpressure.Run(before + after[..n]), after[n], u);
    }
  }
}
