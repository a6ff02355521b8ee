/** The resume pointer: what `contiguousIndex` says about the chunks received so far. */
module TransferPointer {
  import opened Wrappers
  import opened Slicing
  import opened PacketCodec
  import opened ChunkStore
  import opened TransferState
  import opened TransferModel
  import opened TransferSafety
  import opened TransferAccounting
  import opened TransferCompletion
  import opened TransferResume
  import opened TransferTheorems
  import opened Counting

  predicate IsLeastMissing(received: set<nat>, c: nat) {
    c !in received && forall i :: 0 <= i < c ==> i in received
  }

  /** Exact whenever no handler is between marking a chunk and counting it. */
  ghost predicate PointerExact(r: Receiver) {
    Num(r.tasks, IsUncounted) == 0 ==> IsLeastMissing(r.inc.received, r.inc.contiguous)
  }

  /** A handler goes on without counting: the pointer stands, and stays as exact as it was. */
  lemma PointerMove(r: Receiver, t: nat, x: Task, r': Receiver)
    requires PointerExact(r) && t < |r.tasks| && r'.tasks == r.tasks[t := x] && r'.inc == r.inc
    requires IsUncounted(r.tasks[t]) <==> IsUncounted(x)
    ensures PointerExact(r') && r'.inc.contiguous >= r.inc.contiguous
  {
    NumUpdate(r.tasks, t, x, IsUncounted);
  }

  /** Counting moves the pointer to the least missing index. */
  lemma PointerCount(r: Receiver, t: nat)
    requires Accounted(r) && t < |r.tasks| && r.tasks[t].Saved?
    ensures var r' := PutTask(r, t, Counted).(inc := AfterSave(r.inc));
            PointerExact(r') && r'.inc.contiguous >= r.inc.contiguous
  {
  }

  lemma PointerBeforeTest(job: Job, r: Receiver, n: Network, e: ReceiverEvent)
    requires Accounted(r) && PointerExact(r) && (e.SaveEnds? || e.CountChunk? || e.Check?) && e.task < |r.tasks|
    ensures PointerExact(ReceiverStep(job, r, n, e).0)
    ensures ReceiverStep(job, r, n, e).0.inc.contiguous >= r.inc.contiguous
  {
    match e
    case SaveEnds(t, ok) => if r.tasks[t].Saving? { PointerMove(r, t, Saved, ReceiverStep(job, r, n, e).0); }
    case CountChunk(t) => if r.tasks[t].Saved? { PointerCount(r, t); }
    case Check(t, throws) =>
      if r.tasks[t].Counted? { PointerMove(r, t, AtCheck(r, t, throws).tasks[t], AtCheck(r, t, throws)); }
  }

  lemma PointerFetched(job: Job, r: Receiver, t: nat, chunks: seq<Row>)
    requires PointerExact(r) && t < |r.tasks|
    ensures r.tasks[t].Fetching? ==> PointerExact(PutTask(r, t, Fetched(chunks)))
    ensures r.tasks[t].Fetched? ==>
              PointerExact(AtVerify(job, r, t)) && AtVerify(job, r, t).inc == r.inc
  {
    if r.tasks[t].Fetching? {
      PointerMove(r, t, Fetched(chunks), PutTask(r, t, Fetched(chunks)));
    } else if r.tasks[t].Fetched? {
      PointerMove(r, t, AtVerify(job, r, t).tasks[t], AtVerify(job, r, t));
    }
  }

  lemma PointerEnds(job: Job, r: Receiver, t: nat, ok: bool, throws: bool)
    requires PointerExact(r) && t < |r.tasks|
    ensures PointerExact(AtClear(job, r, t, ok)) && AtClear(job, r, t, ok).inc == r.inc
    ensures PointerExact(AtAnnounce(r, t, throws)) && AtAnnounce(r, t, throws).inc == r.inc
  {
    if r.tasks[t].Completing? || r.tasks[t].Failing? || r.tasks[t].Sweeping? {
      PointerMove(r, t, AtClear(job, r, t, ok).tasks[t], AtClear(job, r, t, ok));
    } else if r.tasks[t].Delivering? || r.tasks[t].Failed? {
      PointerMove(r, t, AtAnnounce(r, t, throws).tasks[t], AtAnnounce(r, t, throws));
    }
  }

  lemma PointerTaskStep(job: Job, r: Receiver, n: Network, e: ReceiverEvent)
    requires Accounted(r) && PointerExact(r) && IsTaskEvent(e) && e.task < |r.tasks|
    ensures PointerExact(ReceiverStep(job, r, n, e).0)
    ensures ReceiverStep(job, r, n, e).0.inc.contiguous >= r.inc.contiguous
  {
    match e
    case Fetch(t, ok) => PointerFetched(job, r, t, if ok then SortByIndex(Of(r.rows, job.id)) else []);
    case Verify(t) => PointerFetched(job, r, t, []);
    case Clear(t, ok) => PointerEnds(job, r, t, ok, false);
    case Announce(t, throws) => PointerEnds(job, r, t, true, throws);
    case _ => PointerBeforeTest(job, r, n, e);
  }

  lemma PointerAppend(r: Receiver, x: Task, r': Receiver)
    requires PointerExact(r) && r'.tasks == r.tasks + [x] && r'.inc.contiguous == r.inc.contiguous
    requires r'.inc.received == r.inc.received || IsUncounted(x)
    ensures PointerExact(r')
  {
    NumAppend(r.tasks, x, IsUncounted);
  }

  lemma PointerStep(job: Job, r: Receiver, n: Network, e: ReceiverEvent)
    requires Accounted(r) && PointerExact(r)
    ensures PointerExact(ReceiverStep(job, r, n, e).0)
    ensures ReceiverStep(job, r, n, e).0.inc.contiguous >= r.inc.contiguous
  {
    if IsTaskEvent(e) {
      if e.task < |r.tasks| {
        PointerTaskStep(job, r, n, e);
      }
    } else {
      var r' := ReceiverStep(job, r, n, e).0;
      if |r'.tasks| > |r.tasks| {
        PointerAppend(r, r'.tasks[|r.tasks|], r');
      }
    }
  }

  /** In every run the pointer never moves back, everything below it has been received, and it is the least missing
      index whenever no handler is suspended before its count. */
  lemma {:induction false} ResumePointer(job: Job, before: seq<Event>, after: seq<Event>)
    ensures var r, r' := Run(job, Init(job), before).r, Run(job, Init(job), before + after).r;
            && r.inc.contiguous <= r'.inc.contiguous
            && (forall i :: 0 <= i < r'.inc.contiguous ==> i in r'.inc.received)
            && PointerExact(r')
    decreases |before| + |after|
  {
    var es := before + after;
    RunIsAccounted(job, Init(job), es);
    if es != [] {
      var k := |es| - 1;
      var w := Run(job, Init(job), es[..k]);
      RunIsAccounted(job, Init(job), es[..k]);
      if after == [] {
        assert es[..k] + [] == es[..k] && es == before;
        ResumePointer(job, es[..k], []);
      } else {
        assert es[..k] == before + after[..|after| - 1];
        ResumePointer(job, before, after[..|after| - 1]);
      }
      if es[k].R? {
        PointerStep(job, w.r, w.n, es[k].r);
      }
    }
  }
}
