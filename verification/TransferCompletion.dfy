/** Completion of the receiver: once every chunk has been received and every handler has run to its end, onComplete has
    fired. */
module TransferCompletion {
  import opened Wrappers
  import opened Slicing
  import opened PacketCodec
  import opened ChunkStore
  import opened TransferState
  import opened TransferModel
  import opened TransferSafety
  import opened TransferAccounting
  import opened Counting

  /** Nothing fails and nobody cancels; both sides may pause and resume. */
  predicate Smooth(job: Job, e: Event) {
    match e
    case S(se) => (match se
                   case Seal(_, _, laneOpen) => laneOpen
                   case Transmit(_, sendOk) => sendOk
                   case Breaks(_) => false
                   case PauseHere(open) => open
                   case ResumeHere(open) => open
                   case CancelHere(_) => false
                   case _ => true)
    case N(ne) => (match ne
                   case Drain(_, _) => true
                   case Lose(_) => false
                   case Foreign(_, packet) => !Ours(job, packet))
    case R(re) => SmoothThere(re)
  }

  predicate SmoothThere(e: ReceiverEvent) {
    match e
    case SaveEnds(_, ok) => ok
    case Check(_, throws) => !throws
    case Fetch(_, ok) => ok
    case Announce(_, throws) => !throws
    case AcceptHere(open) => open
    case PauseThere(open) => open
    case ResumeThere(open) => open
    case CancelThere(_) => false
    case _ => true
  }

  ghost predicate NoCancel(q: seq<Control>) {
    forall j :: 0 <= j < |q| ==> !q[j].Cancel?
  }

  predicate SmoothRun(job: Job, es: seq<Event>) {
    forall i :: 0 <= i < |es| ==> Smooth(job, es[i])
  }

  predicate IsDelivering(t: Task) { t.Delivering? }
  predicate IsOnTheWay(t: Task) { t.Counted? || t.Fetching? || t.Fetched? || t.Completing? }
  predicate IsBeforeTest(t: Task) { t.Saving? || t.Saved? || t.Counted? }
  predicate IsActive(t: Task) { !t.Finished? }

  lemma NumMove(tasks: seq<Task>, t: nat, x: Task)
    requires t < |tasks|
    ensures Num(tasks[t := x], IsSaving) == Num(tasks, IsSaving) - Tick(IsSaving(tasks[t])) + Tick(IsSaving(x))
    ensures Num(tasks[t := x], IsDelivering)
            == Num(tasks, IsDelivering) - Tick(IsDelivering(tasks[t])) + Tick(IsDelivering(x))
    ensures Num(tasks[t := x], IsOnTheWay) == Num(tasks, IsOnTheWay) - Tick(IsOnTheWay(tasks[t])) + Tick(IsOnTheWay(x))
    ensures Num(tasks[t := x], IsFailure) == Num(tasks, IsFailure) - Tick(IsFailure(tasks[t])) + Tick(IsFailure(x))
    ensures Num(tasks, IsFailure) >= Tick(IsFailure(tasks[t]))
    ensures Num(tasks, IsDelivering) >= Tick(IsDelivering(tasks[t]))
    ensures Num(tasks, IsFinal) >= Tick(IsFinal(tasks[t]))
  {
    NumUpdate(tasks, t, x, IsSaving);
    NumUpdate(tasks, t, x, IsDelivering);
    NumUpdate(tasks, t, x, IsOnTheWay);
    NumUpdate(tasks, t, x, IsFailure);
    NumPositive(tasks, IsFailure);
    NumPositive(tasks, IsDelivering);
    NumPositive(tasks, IsFinal);
  }

  /** onComplete has fired or only its call is left. */
  ghost predicate Claimed(r: Receiver) {
    r.completed != [] || Num(r.tasks, IsDelivering) > 0
  }

  ghost predicate WholeFetches(r: Receiver) {
    forall t :: 0 <= t < |r.tasks| && r.tasks[t].Fetched? ==> |r.tasks[t].chunks| == r.inc.total
  }

  /** Until the claim no stored row is lost and nobody has failed; a full count always has somebody acting on it. */
  ghost predicate OnCourse(job: Job, r: Receiver) {
    && (!Claimed(r) ==>
          && Num(r.tasks, IsFailure) == 0
          && |Of(r.rows, job.id)| + Num(r.tasks, IsSaving) == |r.inc.received|
          && WholeFetches(r))
    && (r.inc.count >= r.inc.total ==> Claimed(r) || Num(r.tasks, IsOnTheWay) > 0)
    && (!r.live ==> r.inc.count >= r.inc.total)
    && !r.inc.cancelled
  }

  ghost predicate Sound(job: Job, r: Receiver) {
    ReceiverOk(job, r) && Accounted(r) && InRange(job, r) && OnCourse(job, r)
  }

  lemma CourseStore(job: Job, r: Receiver, t: nat)
    requires Sound(job, r) && t < |r.tasks| && r.tasks[t].Saving?
    ensures OnCourse(job, PutTask(r, t, Saved).(rows := r.rows + [r.tasks[t].row]))
  {
    assert GoodTask(job, r, r.tasks[t]);
    NumMove(r.tasks, t, Saved);
    OfAppend(r.rows, r.tasks[t].row, job.id);
  }

  lemma CourseCount(job: Job, r: Receiver, t: nat)
    requires Sound(job, r) && t < |r.tasks| && r.tasks[t].Saved?
    ensures OnCourse(job, PutTask(r, t, Counted).(inc := AfterSave(r.inc)))
  {
    NumMove(r.tasks, t, Counted);
  }

  lemma CourseCheck(job: Job, r: Receiver, t: nat)
    requires Sound(job, r) && t < |r.tasks| && r.tasks[t].Counted?
    ensures OnCourse(job, AtCheck(r, t, false))
  {
    NumMove(r.tasks, t, AtCheck(r, t, false).tasks[t]);
  }

  /** The first fetch sees every row: nothing has been cleared and no save is outstanding. */
  lemma FetchIsWhole(job: Job, r: Receiver, t: nat)
    requires Sound(job, r) && !Claimed(r) && t < |r.tasks| && IsFinal(r.tasks[t])
    ensures |SortByIndex(Of(r.rows, job.id))| == r.inc.total
  {
    NumMove(r.tasks, t, r.tasks[t]);
    FullCount(job, r);
    NumPositive(r.tasks, IsUncounted);
    NumPositive(r.tasks, IsSaving);
    BelowCount(r.inc.received, Total(job));
  }

  lemma CourseFetch(job: Job, r: Receiver, t: nat)
    requires Sound(job, r) && t < |r.tasks| && r.tasks[t].Fetching?
    ensures OnCourse(job, PutTask(r, t, Fetched(SortByIndex(Of(r.rows, job.id)))))
  {
    NumMove(r.tasks, t, Fetched(SortByIndex(Of(r.rows, job.id))));
    if !Claimed(r) {
      FetchIsWhole(job, r, t);
    }
  }

  lemma CourseVerify(job: Job, r: Receiver, t: nat)
    requires Sound(job, r) && t < |r.tasks| && r.tasks[t].Fetched?
    ensures OnCourse(job, AtVerify(job, r, t))
    ensures !Claimed(r) ==> AtVerify(job, r, t) == PutTask(r, t, Completing(job.file))
  {
    assert GoodTask(job, r, r.tasks[t]);
    FullSetIsTheFile(job, r.inc, r.tasks[t].chunks);
    NumMove(r.tasks, t, AtVerify(job, r, t).tasks[t]);
  }

  lemma CourseClear(job: Job, r: Receiver, t: nat, ok: bool)
    requires Sound(job, r) && t < |r.tasks|
    ensures OnCourse(job, AtClear(job, r, t, ok))
  {
    NumMove(r.tasks, t, AtClear(job, r, t, ok).tasks[t]);
  }

  lemma CourseAnnounce(job: Job, r: Receiver, t: nat)
    requires Sound(job, r) && t < |r.tasks|
    ensures OnCourse(job, AtAnnounce(r, t, false))
  {
    NumMove(r.tasks, t, AtAnnounce(r, t, false).tasks[t]);
  }

  lemma CourseArrive(job: Job, r: Receiver, packet: Bytes)
    requires Sound(job, r)
    ensures OnCourse(job, AtArrive(job, r, packet))
  {
    if Ours(job, packet) {
      var x := Saving(RowOf(Decode(packet).value));
      NumAppend(r.tasks, x, IsSaving);
      NumAppend(r.tasks, x, IsDelivering);
      NumAppend(r.tasks, x, IsOnTheWay);
      NumAppend(r.tasks, x, IsFailure);
    }
  }

  lemma CourseStep(job: Job, r: Receiver, n: Network, e: ReceiverEvent)
    requires Sound(job, r) && SmoothThere(e) && NoCancel(n.toReceiver)
    ensures OnCourse(job, ReceiverStep(job, r, n, e).0)
  {
    match e
    case Arrive(l) => if l < LANES && n.lanes[l] != [] { CourseArrive(job, r, n.lanes[l][0]); }
    case SaveEnds(t, ok) => if t < |r.tasks| && r.tasks[t].Saving? { CourseStore(job, r, t); }
    case CountChunk(t) => if t < |r.tasks| && r.tasks[t].Saved? { CourseCount(job, r, t); }
    case Check(t, throws) => if t < |r.tasks| && r.tasks[t].Counted? { CourseCheck(job, r, t); }
    case Fetch(t, ok) => if t < |r.tasks| && r.tasks[t].Fetching? { CourseFetch(job, r, t); }
    case Verify(t) => if t < |r.tasks| && r.tasks[t].Fetched? { CourseVerify(job, r, t); }
    case Clear(t, ok) => if t < |r.tasks| { CourseClear(job, r, t, ok); }
    case Announce(t, throws) => if t < |r.tasks| { CourseAnnounce(job, r, t); }
    case _ =>
  }

  predicate Idle(r: Receiver) {
    forall t :: 0 <= t < |r.tasks| ==> r.tasks[t].Finished?
  }

  /** At await granularity: everything received and every handler at its end means the file was delivered. */
  lemma IdleAndFullDelivers(job: Job, r: Receiver)
    requires Sound(job, r) && Idle(r) && AllReceived(job, r)
    ensures r.completed != []
  {
    NumPositive(r.tasks, IsUncounted);
    NumPositive(r.tasks, IsOnTheWay);
    NumPositive(r.tasks, IsDelivering);
    FullCount(job, r);
  }

  // ---- each data message handled to its end before the next: exactly one outcome ----

  ghost predicate OneAtATime(r: Receiver) {
    && Num(r.tasks, IsActive) <= 1
    && (Num(r.tasks, IsBeforeTest) > 0 ==> r.live)
    && |r.completed| + Num(r.tasks, IsFinal) <= (if r.live then 0 else 1)
    && Num(r.tasks, IsFailure) == 0 && r.failures == 0
  }

  lemma NumMoveSerial(tasks: seq<Task>, t: nat, x: Task)
    requires t < |tasks|
    ensures Num(tasks[t := x], IsActive) == Num(tasks, IsActive) - Tick(IsActive(tasks[t])) + Tick(IsActive(x))
    ensures Num(tasks[t := x], IsBeforeTest)
            == Num(tasks, IsBeforeTest) - Tick(IsBeforeTest(tasks[t])) + Tick(IsBeforeTest(x))
    ensures Num(tasks[t := x], IsFinal) == Num(tasks, IsFinal) - Tick(IsFinal(tasks[t])) + Tick(IsFinal(x))
    ensures Num(tasks[t := x], IsFailure) == Num(tasks, IsFailure) - Tick(IsFailure(tasks[t])) + Tick(IsFailure(x))
    ensures Num(tasks, IsBeforeTest) >= Tick(IsBeforeTest(tasks[t])) && Num(tasks, IsFinal) >= Tick(IsFinal(tasks[t]))
    ensures Num(tasks, IsFailure) >= Tick(IsFailure(tasks[t]))
  {
    NumUpdate(tasks, t, x, IsActive);
    NumUpdate(tasks, t, x, IsBeforeTest);
    NumUpdate(tasks, t, x, IsFinal);
    NumUpdate(tasks, t, x, IsFailure);
    NumPositive(tasks, IsBeforeTest);
    NumPositive(tasks, IsFinal);
    NumPositive(tasks, IsFailure);
  }

  /** A verification that runs alone is the first to claim the file. */
  lemma AloneIsUnclaimed(r: Receiver, t: nat)
    requires OneAtATime(r) && t < |r.tasks| && IsFinal(r.tasks[t]) && !r.tasks[t].Delivering?
    ensures !Claimed(r)
  {
    NumMoveSerial(r.tasks, t, r.tasks[t]);
    NumUpdate(r.tasks, t, Finished, IsFinal);
    NumUpdate(r.tasks, t, Finished, IsDelivering);
    NumLe(r.tasks[t := Finished], IsDelivering, IsFinal);
  }

  lemma SerialBeforeTest(job: Job, r: Receiver, t: nat)
    requires OneAtATime(r) && t < |r.tasks|
    ensures r.tasks[t].Saving? ==> OneAtATime(PutTask(r, t, Saved).(rows := r.rows + [r.tasks[t].row]))
    ensures r.tasks[t].Saved? ==> OneAtATime(PutTask(r, t, Counted).(inc := AfterSave(r.inc)))
  {
    NumMoveSerial(r.tasks, t, Saved);
    NumMoveSerial(r.tasks, t, Counted);
  }

  lemma SerialCheck(r: Receiver, t: nat)
    requires OneAtATime(r) && t < |r.tasks| && r.tasks[t].Counted?
    ensures OneAtATime(AtCheck(r, t, false))
  {
    NumMoveSerial(r.tasks, t, Fetching);
    NumMoveSerial(r.tasks, t, Finished);
    NumSum(r.tasks, IsBeforeTest, IsFinal, IsActive);
  }

  lemma SerialAfterTest(job: Job, r: Receiver, t: nat)
    requires Sound(job, r) && OneAtATime(r) && t < |r.tasks|
    ensures r.tasks[t].Fetching? ==> OneAtATime(PutTask(r, t, Fetched(SortByIndex(Of(r.rows, job.id)))))
    ensures r.tasks[t].Fetched? ==> OneAtATime(AtVerify(job, r, t))
  {
    if r.tasks[t].Fetching? {
      NumMoveSerial(r.tasks, t, Fetched(SortByIndex(Of(r.rows, job.id))));
    } else if r.tasks[t].Fetched? {
      AloneIsUnclaimed(r, t);
      CourseVerify(job, r, t);
      NumMoveSerial(r.tasks, t, Completing(job.file));
    }
  }

  lemma SerialEnd(job: Job, r: Receiver, t: nat, ok: bool)
    requires OneAtATime(r) && t < |r.tasks|
    ensures OneAtATime(AtClear(job, r, t, ok)) && OneAtATime(AtAnnounce(r, t, false))
  {
    NumMoveSerial(r.tasks, t, AtClear(job, r, t, ok).tasks[t]);
    NumMoveSerial(r.tasks, t, AtAnnounce(r, t, false).tasks[t]);
  }

  lemma SerialTaskStep(job: Job, r: Receiver, n: Network, e: ReceiverEvent)
    requires Sound(job, r) && OneAtATime(r) && SmoothThere(e) && IsTaskEvent(e) && e.task < |r.tasks|
    ensures OneAtATime(ReceiverStep(job, r, n, e).0)
  {
    match e
    case SaveEnds(t, ok) => SerialBeforeTest(job, r, t);
    case CountChunk(t) => SerialBeforeTest(job, r, t);
    case Check(t, throws) => if r.tasks[t].Counted? { SerialCheck(r, t); }
    case Fetch(t, ok) => SerialAfterTest(job, r, t);
    case Verify(t) => SerialAfterTest(job, r, t);
    case Clear(t, ok) => SerialEnd(job, r, t, ok);
    case Announce(t, throws) => SerialEnd(job, r, t, true);
  }

  lemma SerialArrive(job: Job, r: Receiver, packet: Bytes)
    requires OneAtATime(r) && Idle(r)
    ensures OneAtATime(AtArrive(job, r, packet))
  {
    NumPositive(r.tasks, IsActive);
    if Ours(job, packet) {
      var x := Saving(RowOf(Decode(packet).value));
      NumAppend(r.tasks, x, IsActive);
      NumAppend(r.tasks, x, IsBeforeTest);
      NumAppend(r.tasks, x, IsFinal);
      NumAppend(r.tasks, x, IsFailure);
    }
  }

  lemma SerialStep(job: Job, r: Receiver, n: Network, e: ReceiverEvent)
    requires Sound(job, r) && OneAtATime(r) && SmoothThere(e) && NoCancel(n.toReceiver)
    requires e.Arrive? ==> Idle(r)
    ensures OneAtATime(ReceiverStep(job, r, n, e).0)
  {
    if IsTaskEvent(e) {
      if e.task < |r.tasks| {
        SerialTaskStep(job, r, n, e);
      }
    } else if e.Arrive? {
      if e.lane < LANES && n.lanes[e.lane] != [] {
        SerialArrive(job, r, n.lanes[e.lane][0]);
      }
    }
  }
}
