/** The receiver's counters against the set of received indices, over every run. */
module TransferAccounting {
  import opened Wrappers
  import opened Slicing
  import opened PacketCodec
  import opened ChunkStore
  import opened TransferState
  import opened TransferModel
  import opened TransferSafety
  import opened Counting

  lemma {:induction false} BelowCount(s: set<nat>, n: nat)
    requires forall i :: i in s ==> i < n
    ensures |s| <= n
    ensures |s| == n <==> forall i :: 0 <= i < n ==> i in s
  {
    if n > 0 {
      BelowCount(s - {n - 1}, n - 1);
    } else {
      assert s == {};
    }
  }

  predicate IsSaving(t: Task) { t.Saving? }
  predicate IsUncounted(t: Task) { t.Saving? || t.Saved? }

  /** Past the completion test on the way to onComplete. */
  predicate IsFinal(t: Task) { t.Fetching? || t.Fetched? || t.Completing? || t.Delivering? }

  predicate IsFailure(t: Task) { t.Failing? || t.Failed? || t.Sweeping? }

  /** Every received index is counted or held by one suspended handler; only a full count opens the way to
      onComplete. */
  ghost predicate Accounted(r: Receiver) {
    && |r.inc.received| == r.inc.count + Num(r.tasks, IsUncounted)
    && (r.completed != [] || Num(r.tasks, IsFinal) > 0 ==> r.inc.count >= r.inc.total)
    && (forall i :: 0 <= i < r.inc.contiguous ==> i in r.inc.received)
  }

  lemma AccountedPut(r: Receiver, t: nat, x: Task)
    requires t < |r.tasks|
    ensures Num(r.tasks[t := x], IsUncounted)
            == Num(r.tasks, IsUncounted) - Tick(IsUncounted(r.tasks[t])) + Tick(IsUncounted(x))
    ensures Num(r.tasks[t := x], IsFinal)
            == Num(r.tasks, IsFinal) - (if IsFinal(r.tasks[t]) then 1 else 0) + (if IsFinal(x) then 1 else 0)
    ensures IsFinal(r.tasks[t]) ==> Num(r.tasks, IsFinal) > 0
  {
    NumUpdate(r.tasks, t, x, IsUncounted);
    NumUpdate(r.tasks, t, x, IsFinal);
    NumPositive(r.tasks, IsFinal);
  }

  lemma AccountedAppend(r: Receiver, x: Task)
    ensures Num(r.tasks + [x], IsUncounted) == Num(r.tasks, IsUncounted) + (if IsUncounted(x) then 1 else 0)
    ensures Num(r.tasks + [x], IsFinal) == Num(r.tasks, IsFinal) + (if IsFinal(x) then 1 else 0)
  {
    NumAppend(r.tasks, x, IsUncounted);
    NumAppend(r.tasks, x, IsFinal);
  }

  predicate IsTaskEvent(e: ReceiverEvent) {
    e.SaveEnds? || e.CountChunk? || e.Check? || e.Fetch? || e.Verify? || e.Clear? || e.Announce?
  }

  lemma AccountedMove(r: Receiver, t: nat, x: Task, r': Receiver)
    requires Accounted(r) && t < |r.tasks| && r'.tasks == r.tasks[t := x]
    requires r'.inc.received == r.inc.received && r'.inc.total == r.inc.total
    requires r'.inc.count == r.inc.count + (if r.tasks[t].Saved? && !IsUncounted(x) then 1 else 0)
    requires IsUncounted(x) ==> r.tasks[t].Saving?
    requires r.tasks[t].Saving? ==> IsUncounted(x)
    requires IsFinal(x) ==> IsFinal(r.tasks[t]) || r.inc.count >= r.inc.total
    requires r'.completed != [] ==> r.completed != [] || IsFinal(r.tasks[t])
    requires forall i :: 0 <= i < r'.inc.contiguous ==> i in r.inc.received
    ensures Accounted(r')
  {
    AccountedPut(r, t, x);
  }

  lemma AccountedCount(r: Receiver, t: nat)
    requires Accounted(r) && t < |r.tasks| && r.tasks[t].Saved?
    ensures Accounted(PutTask(r, t, Counted).(inc := AfterSave(r.inc)))
  {
    AccountedMove(r, t, Counted, PutTask(r, t, Counted).(inc := AfterSave(r.inc)));
  }

  lemma AccountedCheck(r: Receiver, t: nat, throws: bool)
    requires Accounted(r) && t < |r.tasks| && r.tasks[t].Counted?
    ensures Accounted(AtCheck(r, t, throws))
  {
    AccountedMove(r, t, AtCheck(r, t, throws).tasks[t], AtCheck(r, t, throws));
  }

  lemma AccountedVerify(job: Job, r: Receiver, t: nat)
    requires Accounted(r) && t < |r.tasks| && r.tasks[t].Fetched?
    ensures Accounted(AtVerify(job, r, t))
  {
    AccountedMove(r, t, AtVerify(job, r, t).tasks[t], AtVerify(job, r, t));
  }

  lemma AccountedClear(job: Job, r: Receiver, t: nat, ok: bool)
    requires Accounted(r) && t < |r.tasks|
    ensures Accounted(AtClear(job, r, t, ok))
  {
    if r.tasks[t].Completing? || r.tasks[t].Failing? || r.tasks[t].Sweeping? {
      AccountedMove(r, t, AtClear(job, r, t, ok).tasks[t], AtClear(job, r, t, ok));
    }
  }

  lemma AccountedAnnounce(r: Receiver, t: nat, throws: bool)
    requires Accounted(r) && t < |r.tasks|
    ensures Accounted(AtAnnounce(r, t, throws))
  {
    if r.tasks[t].Delivering? || r.tasks[t].Failed? {
      AccountedMove(r, t, AtAnnounce(r, t, throws).tasks[t], AtAnnounce(r, t, throws));
    }
  }

  lemma AccountedStore(job: Job, r: Receiver, t: nat, ok: bool)
    requires Accounted(r) && t < |r.tasks|
    ensures r.tasks[t].Saving? ==>
              Accounted(PutTask(r, t, Saved).(rows := if ok then r.rows + [r.tasks[t].row] else r.rows))
    ensures r.tasks[t].Fetching? ==>
              Accounted(PutTask(r, t, Fetched(if ok then SortByIndex(Of(r.rows, job.id)) else [])))
  {
    if r.tasks[t].Saving? {
      AccountedMove(r, t, Saved, PutTask(r, t, Saved).(rows := if ok then r.rows + [r.tasks[t].row] else r.rows));
    } else if r.tasks[t].Fetching? {
      var chunks := if ok then SortByIndex(Of(r.rows, job.id)) else [];
      AccountedMove(r, t, Fetched(chunks), PutTask(r, t, Fetched(chunks)));
    }
  }

  lemma AccountedTaskStep(job: Job, r: Receiver, n: Network, e: ReceiverEvent)
    requires Accounted(r) && IsTaskEvent(e) && e.task < |r.tasks|
    ensures Accounted(ReceiverStep(job, r, n, e).0)
  {
    match e
    case SaveEnds(t, ok) => AccountedStore(job, r, t, ok);
    case CountChunk(t) => if r.tasks[t].Saved? { AccountedCount(r, t); }
    case Check(t, throws) => if r.tasks[t].Counted? { AccountedCheck(r, t, throws); }
    case Fetch(t, ok) => AccountedStore(job, r, t, ok);
    case Verify(t) => if r.tasks[t].Fetched? { AccountedVerify(job, r, t); }
    case Clear(t, ok) => AccountedClear(job, r, t, ok);
    case Announce(t, throws) => AccountedAnnounce(r, t, throws);
  }

  lemma AccountedArrive(job: Job, r: Receiver, packet: Bytes)
    requires Accounted(r)
    ensures Accounted(AtArrive(job, r, packet))
  {
    if Ours(job, packet) {
      AccountedAppend(r, Saving(RowOf(Decode(packet).value)));
    }
  }

  lemma AccountedControl(job: Job, r: Receiver, n: Network, e: ReceiverEvent)
    requires Accounted(r) && !IsTaskEvent(e) && !e.Arrive?
    ensures Accounted(ReceiverStep(job, r, n, e).0)
  {
    if e.HearThere? {
      if n.toReceiver != [] {
        AccountedHearing(r, n.toReceiver[0]);
      }
    } else {
      AccountedAppend(r, Sweeping);
    }
  }

  lemma AccountedHearing(r: Receiver, msg: Control)
    requires Accounted(r)
    ensures Accounted(AtHearThere(r, msg))
  {
    AccountedAppend(r, Failing(false));
  }

  lemma AccountedStep(job: Job, r: Receiver, n: Network, e: ReceiverEvent)
    requires Accounted(r)
    ensures Accounted(ReceiverStep(job, r, n, e).0)
  {
    if IsTaskEvent(e) {
      if e.task < |r.tasks| {
        AccountedTaskStep(job, r, n, e);
      }
    } else if e.Arrive? {
      if e.lane < LANES && n.lanes[e.lane] != [] {
        AccountedArrive(job, r, n.lanes[e.lane][0]);
      }
    } else {
      AccountedControl(job, r, n, e);
    }
  }

  lemma {:induction false} RunIsAccounted(job: Job, w: World, es: seq<Event>)
    requires Accounted(w.r)
    ensures Accounted(Run(job, w, es).r)
  {
    if es != [] {
      var n := |es| - 1;
      RunIsAccounted(job, w, es[..n]);
      var v := Run(job, w, es[..n]);
      if es[n].R? {
        AccountedStep(job, v.r, v.n, es[n].r);
      }
    }
  }

  predicate AllReceived(job: Job, r: Receiver) {
    forall i :: 0 <= i < Total(job) ==> i in r.inc.received
  }

  /** Received indices are chunk numbers of the file, so a full count means nothing is missing. */
  ghost predicate InRange(job: Job, r: Receiver) {
    forall i :: i in r.inc.received ==> i < Total(job)
  }

  lemma RangeStep(job: Job, r: Receiver, n: Network, e: ReceiverEvent)
    requires InRange(job, r) && NetworkOk(job, n) && Total(job) <= U32_LIMIT
    ensures InRange(job, ReceiverStep(job, r, n, e).0)
  {
    if e.Arrive? && e.lane < LANES && n.lanes[e.lane] != [] {
      assert GoodPacket(job, n.lanes[e.lane][0]);
    }
  }

  lemma {:induction false} RunInRange(job: Job, w: World, es: seq<Event>)
    requires WellFormed(job) && Safe(job, w) && HonestRun(job, es) && InRange(job, w.r) && Total(job) <= U32_LIMIT
    ensures InRange(job, Run(job, w, es).r)
  {
    if es != [] {
      var n := |es| - 1;
      RunInRange(job, w, es[..n]);
      RunIsSafe(job, w, es[..n]);
      var v := Run(job, w, es[..n]);
      if es[n].R? {
        RangeStep(job, v.r, v.n, es[n].r);
      }
    }
  }

  lemma FullCount(job: Job, r: Receiver)
    requires Accounted(r) && InRange(job, r)
    ensures r.inc.count >= Total(job) ==>
            AllReceived(job, r) && r.inc.count == Total(job) && Num(r.tasks, IsUncounted) == 0
    ensures AllReceived(job, r) ==> |r.inc.received| == Total(job)
  {
    BelowCount(r.inc.received, Total(job));
  }

  /** In every run, a transfer that has delivered anything has received every chunk, each counted once. */
  lemma DeliveredMeansAllReceived(job: Job, es: seq<Event>)
    requires WellFormed(job) && HonestRun(job, es) && Total(job) <= U32_LIMIT
    ensures var r := Run(job, Init(job), es).r;
            r.completed != [] ==> AllReceived(job, r) && r.inc.count == Total(job) == |r.inc.received|
  {
    RunIsAccounted(job, Init(job), es);
    RunInRange(job, Init(job), es);
    RunIsSafe(job, Init(job), es);
    FullCount(job, Run(job, Init(job), es).r);
  }
}
