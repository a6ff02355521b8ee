/** Data handlers suspended at once: how many outcomes a transfer has, and runs in which it has two. */
module TransferOverlap {
  import opened Wrappers
  import opened Slicing
  import opened PacketCodec
  import opened ChunkStore
  import opened TransferState
  import opened TransferModel
  import opened TransferSafety
  import opened TransferAccounting
  import opened TransferCompletion
  import opened TransferResume
  import opened TransferTheorems
  import opened Counting

  /** Both handlers' saves have resolved, and theirs are the last two chunks; the stored rows are good. */
  ghost predicate LastTwo(job: Job, r: Receiver, t: nat, u: nat, blob: Bytes) {
    && t < |r.tasks| && u < |r.tasks| && t != u && r.tasks[t].Saved? && r.tasks[u].Saved?
    && r.inc.count + 2 == r.inc.total
    && Assemble(job.crypto, r.inc, SortByIndex(Of(r.rows, job.id))) == Some(blob)
  }

  function Both(e: ReceiverEvent, f: ReceiverEvent): seq<Event> {
    [R(e), R(f)]
  }

  /** Both have passed the completion test, and neither has fetched the rows. */
  ghost predicate BothFetching(job: Job, r: Receiver, t: nat, u: nat, blob: Bytes) {
    && t < |r.tasks| && u < |r.tasks| && t != u && r.tasks[t].Fetching? && r.tasks[u].Fetching?
    && Assemble(job.crypto, r.inc, SortByIndex(Of(r.rows, job.id))) == Some(blob)
  }

  /** Each counts its chunk before either reaches the completion test. */
  function Passing(t: nat, u: nat): seq<Event> {
    Both(CountChunk(t), CountChunk(u)) + Both(Check(t, false), Check(u, false))
  }

  lemma BothCount(job: Job, w: World, t: nat, u: nat)
    requires t < |w.r.tasks| && u < |w.r.tasks| && t != u && w.r.tasks[t].Saved? && w.r.tasks[u].Saved?
    ensures Run(job, w, Both(CountChunk(t), CountChunk(u))).r
            == PutTask(PutTask(w.r, t, Counted), u, Counted).(inc := AfterSave(AfterSave(w.r.inc)))
  {
    RunTwo(job, w, R(CountChunk(t)), R(CountChunk(u)));
    var w1 := Step(job, w, R(CountChunk(t)));
    assert w1.r == PutTask(w.r, t, Counted).(inc := AfterSave(w.r.inc));
  }

  lemma BothCheck(job: Job, w: World, t: nat, u: nat)
    requires t < |w.r.tasks| && u < |w.r.tasks| && t != u && w.r.tasks[t].Counted? && w.r.tasks[u].Counted?
    requires w.r.inc.count >= w.r.inc.total
    ensures Run(job, w, Both(Check(t, false), Check(u, false))).r
            == PutTask(PutTask(w.r, t, Fetching), u, Fetching).(live := false)
  {
    RunTwo(job, w, R(Check(t, false)), R(Check(u, false)));
    var w1 := Step(job, w, R(Check(t, false)));
    assert w1.r == PutTask(w.r, t, Fetching).(live := false);
  }

  /** When each counts its chunk before either reaches the completion test, both pass it. */
  lemma BothPass(job: Job, w: World, t: nat, u: nat, blob: Bytes)
    requires LastTwo(job, w.r, t, u, blob)
    ensures var r := Run(job, w, Passing(t, u)).r;
            && BothFetching(job, r, t, u, blob) && r.inc.total == w.r.inc.total
            && r.completed == w.r.completed && r.failures == w.r.failures
  {
    RunConcat(job, w, Both(CountChunk(t), CountChunk(u)), Both(Check(t, false), Check(u, false)));
    BothCount(job, w, t, u);
    BothCheck(job, Run(job, w, Both(CountChunk(t), CountChunk(u))), t, u);
  }

  // ---- both reassemble at once ----

  function VerifyBoth(t: nat, u: nat): seq<Event> {
    Both(Fetch(t, true), Fetch(u, true)) + Both(Verify(t), Verify(u))
  }

  function DeliverBoth(t: nat, u: nat): seq<Event> {
    Both(Clear(t, true), Clear(u, true)) + Both(Announce(t, false), Announce(u, false))
  }

  lemma BothFetch(job: Job, w: World, t: nat, u: nat)
    requires t < |w.r.tasks| && u < |w.r.tasks| && t != u && w.r.tasks[t].Fetching? && w.r.tasks[u].Fetching?
    ensures var rows := SortByIndex(Of(w.r.rows, job.id));
            Run(job, w, Both(Fetch(t, true), Fetch(u, true))).r
            == PutTask(PutTask(w.r, t, Fetched(rows)), u, Fetched(rows))
  {
    RunTwo(job, w, R(Fetch(t, true)), R(Fetch(u, true)));
    var w1 := Step(job, w, R(Fetch(t, true)));
    assert w1.r == PutTask(w.r, t, Fetched(SortByIndex(Of(w.r.rows, job.id))));
  }

  lemma BothAssemble(job: Job, w: World, t: nat, u: nat, rows: seq<Row>, blob: Bytes)
    requires t < |w.r.tasks| && u < |w.r.tasks| && t != u
    requires w.r.tasks[t] == Fetched(rows) && w.r.tasks[u] == Fetched(rows)
    requires Assemble(job.crypto, w.r.inc, rows) == Some(blob)
    ensures Run(job, w, Both(Verify(t), Verify(u))).r == PutTask(PutTask(w.r, t, Completing(blob)), u, Completing(blob))
  {
    RunTwo(job, w, R(Verify(t)), R(Verify(u)));
    var w1 := Step(job, w, R(Verify(t)));
    assert w1.r == PutTask(w.r, t, Completing(blob));
  }

  lemma BothVerify(job: Job, w: World, t: nat, u: nat, blob: Bytes)
    requires BothFetching(job, w.r, t, u, blob)
    ensures var r := Run(job, w, VerifyBoth(t, u)).r;
            && t < |r.tasks| && u < |r.tasks| && r.tasks[t] == Completing(blob) && r.tasks[u] == Completing(blob)
            && r.completed == w.r.completed && r.failures == w.r.failures
  {
    RunConcat(job, w, Both(Fetch(t, true), Fetch(u, true)), Both(Verify(t), Verify(u)));
    BothFetch(job, w, t, u);
    BothAssemble(job, Run(job, w, Both(Fetch(t, true), Fetch(u, true))), t, u,
                 SortByIndex(Of(w.r.rows, job.id)), blob);
  }

  lemma BothClear(job: Job, w: World, t: nat, u: nat, blob: Bytes)
    requires t < |w.r.tasks| && u < |w.r.tasks| && t != u
    requires w.r.tasks[t] == Completing(blob) && w.r.tasks[u] == Completing(blob)
    ensures var r := Run(job, w, Both(Clear(t, true), Clear(u, true))).r;
      && |r.tasks| == |w.r.tasks| && r.tasks[t] == Delivering(blob) && r.tasks[u] == Delivering(blob)
      && r.completed == w.r.completed && r.failures == w.r.failures
  {
    RunTwo(job, w, R(Clear(t, true)), R(Clear(u, true)));
    var w1 := Step(job, w, R(Clear(t, true)));
    assert w1.r == PutTask(w.r, t, Delivering(blob)).(rows := Without(w.r.rows, job.id));
    assert Step(job, w1, R(Clear(u, true))).r
        == PutTask(w1.r, u, Delivering(blob)).(rows := Without(w1.r.rows, job.id));
  }

  lemma BothAnnounce(job: Job, w: World, t: nat, u: nat, blob: Bytes)
    requires t < |w.r.tasks| && u < |w.r.tasks| && t != u
    requires w.r.tasks[t] == Delivering(blob) && w.r.tasks[u] == Delivering(blob)
    ensures var r := Run(job, w, Both(Announce(t, false), Announce(u, false))).r;
      r.completed == w.r.completed + [blob] + [blob] && r.failures == w.r.failures
  {
    RunTwo(job, w, R(Announce(t, false)), R(Announce(u, false)));
    var w1 := Step(job, w, R(Announce(t, false)));
    assert w1.r == PutTask(w.r, t, Finished).(completed := w.r.completed + [blob]);
    assert Step(job, w1, R(Announce(u, false))).r == PutTask(w1.r, u, Finished).(completed := w1.r.completed + [blob]);
  }

  lemma BothDeliver(job: Job, w: World, t: nat, u: nat, blob: Bytes)
    requires t < |w.r.tasks| && u < |w.r.tasks| && t != u
    requires w.r.tasks[t] == Completing(blob) && w.r.tasks[u] == Completing(blob)
    ensures var r := Run(job, w, DeliverBoth(t, u)).r;
            r.completed == w.r.completed + [blob] + [blob] && r.failures == w.r.failures
  {
    RunConcat(job, w, Both(Clear(t, true), Clear(u, true)), Both(Announce(t, false), Announce(u, false)));
    BothClear(job, w, t, u, blob);
    BothAnnounce(job, Run(job, w, Both(Clear(t, true), Clear(u, true))), t, u, blob);
  }

  // ---- the second fetches after the first has cleared ----

  function Alone(t: nat): seq<Event> {
    Both(Fetch(t, true), Verify(t)) + Both(Clear(t, true), Announce(t, false))
  }

  lemma FirstVerifies(job: Job, w: World, t: nat, u: nat, blob: Bytes)
    requires BothFetching(job, w.r, t, u, blob)
    ensures Run(job, w, Both(Fetch(t, true), Verify(t))).r == PutTask(w.r, t, Completing(blob))
  {
    RunTwo(job, w, R(Fetch(t, true)), R(Verify(t)));
    var w1 := Step(job, w, R(Fetch(t, true)));
    assert w1.r == PutTask(w.r, t, Fetched(SortByIndex(Of(w.r.rows, job.id))));
    assert Step(job, w1, R(Verify(t))).r == PutTask(w1.r, t, Completing(blob));
    assert w.r.tasks[t := w1.r.tasks[t]][t := Completing(blob)] == w.r.tasks[t := Completing(blob)];
  }

  lemma FirstAnnounces(job: Job, w: World, t: nat, u: nat, blob: Bytes)
    requires t < |w.r.tasks| && u < |w.r.tasks| && t != u && w.r.tasks[t] == Completing(blob)
    ensures var r := Run(job, w, Both(Clear(t, true), Announce(t, false))).r;
      && u < |r.tasks| && r.tasks[u] == w.r.tasks[u] && r.rows == Without(w.r.rows, job.id) && r.inc == w.r.inc
      && r.completed == w.r.completed + [blob] && r.failures == w.r.failures
  {
    RunTwo(job, w, R(Clear(t, true)), R(Announce(t, false)));
    var w1 := Step(job, w, R(Clear(t, true)));
    assert w1.r == PutTask(w.r, t, Delivering(blob)).(rows := Without(w.r.rows, job.id));
    assert Step(job, w1, R(Announce(t, false))).r == PutTask(w1.r, t, Finished).(completed := w1.r.completed + [blob]);
  }

  lemma FirstDelivers(job: Job, w: World, t: nat, u: nat, blob: Bytes)
    requires BothFetching(job, w.r, t, u, blob)
    ensures var r := Run(job, w, Alone(t)).r;
      && u < |r.tasks| && r.tasks[u].Fetching? && r.rows == Without(w.r.rows, job.id) && r.inc == w.r.inc
      && r.completed == w.r.completed + [blob] && r.failures == w.r.failures
  {
    RunConcat(job, w, Both(Fetch(t, true), Verify(t)), Both(Clear(t, true), Announce(t, false)));
    FirstVerifies(job, w, t, u, blob);
    FirstAnnounces(job, Run(job, w, Both(Fetch(t, true), Verify(t))), t, u, blob);
  }

  lemma SecondFetchesNothing(job: Job, w: World, u: nat)
    requires u < |w.r.tasks| && w.r.tasks[u].Fetching? && Of(w.r.rows, job.id) == [] && w.r.inc.total != 0
    ensures Run(job, w, Both(Fetch(u, true), Verify(u))).r == PutTask(w.r, u, Failing(true))
  {
    RunTwo(job, w, R(Fetch(u, true)), R(Verify(u)));
    var w1 := Step(job, w, R(Fetch(u, true)));
    assert w1.r == PutTask(w.r, u, Fetched([]));
    assert w.r.tasks[u := w1.r.tasks[u]][u := Failing(true)] == w.r.tasks[u := Failing(true)];
  }

  lemma SecondFails(job: Job, w: World, u: nat)
    requires u < |w.r.tasks| && w.r.tasks[u].Fetching? && Of(w.r.rows, job.id) == [] && w.r.inc.total != 0
    ensures var r := Run(job, w, Alone(u)).r; r.completed == w.r.completed && r.failures == w.r.failures + 1
  {
    RunConcat(job, w, Both(Fetch(u, true), Verify(u)), Both(Clear(u, true), Announce(u, false)));
    SecondFetchesNothing(job, w, u);
    var w2 := Run(job, w, Both(Fetch(u, true), Verify(u)));
    RunTwo(job, w2, R(Clear(u, true)), R(Announce(u, false)));
    var w3 := Step(job, w2, R(Clear(u, true)));
    assert w3.r == PutTask(w2.r, u, Failed(true)).(rows := Without(w2.r.rows, job.id));
  }

  /** The handlers of the last two chunks, both past their saves, may deliver twice: if both fetch the rows in time. */
  lemma TwoHandlersDeliverTwice(job: Job, w: World, t: nat, u: nat, blob: Bytes)
    requires LastTwo(job, w.r, t, u, blob)
    ensures var r := Run(job, w, Passing(t, u) + (VerifyBoth(t, u) + DeliverBoth(t, u))).r;
      r.completed == w.r.completed + [blob] + [blob] && r.failures == w.r.failures
  {
    BothPass(job, w, t, u, blob);
    var p := Run(job, w, Passing(t, u));
    RunConcat(job, w, Passing(t, u), VerifyBoth(t, u) + DeliverBoth(t, u));
    RunConcat(job, p, VerifyBoth(t, u), DeliverBoth(t, u));
    BothVerify(job, p, t, u, blob);
    BothDeliver(job, Run(job, p, VerifyBoth(t, u)), t, u, blob);
  }

  /** Or deliver and then fail: if the second fetches only after the first has cleared. */
  lemma TwoHandlersDeliverAndFail(job: Job, w: World, t: nat, u: nat, blob: Bytes)
    requires LastTwo(job, w.r, t, u, blob)
    ensures var r := Run(job, w, Passing(t, u) + (Alone(t) + Alone(u))).r;
      r.completed == w.r.completed + [blob] && r.failures == w.r.failures + 1
  {
    BothPass(job, w, t, u, blob);
    var p := Run(job, w, Passing(t, u));
    RunConcat(job, w, Passing(t, u), Alone(t) + Alone(u));
    RunConcat(job, p, Alone(t), Alone(u));
    FirstDelivers(job, p, t, u, blob);
    ClearIsLocal(p.r.rows, job.id, job.id);
    SecondFails(job, Run(job, p, Alone(t)), u);
  }

  // ---- such a state is reached, for every file of two chunks ----

  /** Both chunks are sent, each on its lane. */
  function SendingTwo(iv0: Bytes, iv1: Bytes): seq<Event> {
    [S(Hear), S(LoopHead(0))] + [S(Seal(0, iv0, true)), S(Transmit(0, true))]
    + ([S(LoopHead(0)), S(Seal(0, iv1, true))] + [S(Transmit(0, true)), S(LoopHead(0))])
  }

  /** Both arrive, and both saves resolve. */
  const SAVING_TWO: seq<Event> := [R(Arrive(0)), R(Arrive(1))] + [R(SaveEnds(0, true)), R(SaveEnds(1, true))]

  function TwoSent(job: Job, p0: Bytes, p1: Bytes): World {
    World(Sender(Outgoing(false, false, 1), false, [Stream(2, Ended)]),
          Network([[p0], [p1], [], []], [|p0|, |p1|, 0, 0], 0, [], []), Init(job).r)
  }

  lemma SecondSealed(job: Job, p0: Bytes, iv1: Bytes, p1: Bytes)
    requires Total(job) == 2 && |iv1| == IV_BYTES && PacketFor(job, 1, iv1) == Some(p1)
    ensures var w := SentWorld(job, p0);
            Run(job, w, [S(LoopHead(0)), S(Seal(0, iv1, true))])
            == w.(s := Sender(Outgoing(false, false, 0), true, [Stream(1, Granted(p1))]))
  {
    var w := SentWorld(job, p0);
    RunTwo(job, w, S(LoopHead(0)), S(Seal(0, iv1, true)));
    var w1 := Step(job, w, S(LoopHead(0)));
    assert w1.s == Sender(Outgoing(false, false, 0), true, [Stream(1, Sealing)]) && w1.n == w.n;
    var w2 := Step(job, w1, S(Seal(0, iv1, true)));
    assert w2.s.streams == [Stream(1, Granted(p1))];
  }

  lemma SecondSent(job: Job, p0: Bytes, iv1: Bytes, p1: Bytes)
    requires Total(job) == 2 && |iv1| == IV_BYTES && PacketFor(job, 1, iv1) == Some(p1)
    ensures Run(job, SentWorld(job, p0), [S(LoopHead(0)), S(Seal(0, iv1, true))] + [S(Transmit(0, true)),
            S(LoopHead(0))])
            == TwoSent(job, p0, p1)
  {
    var w := SentWorld(job, p0);
    RunConcat(job, w, [S(LoopHead(0)), S(Seal(0, iv1, true))], [S(Transmit(0, true)), S(LoopHead(0))]);
    SecondSealed(job, p0, iv1, p1);
    var w2 := Run(job, w, [S(LoopHead(0)), S(Seal(0, iv1, true))]);
    RunTwo(job, w2, S(Transmit(0, true)), S(LoopHead(0)));
    var w3 := Step(job, w2, S(Transmit(0, true)));
    assert w3.s == Sender(Outgoing(false, false, 1), true, [Stream(2, Looping)]);
    assert [] + [p1] == [p1];
    assert w3.n == TwoSent(job, p0, p1).n;
  }

  lemma BothSent(job: Job, iv0: Bytes, iv1: Bytes, p0: Bytes, p1: Bytes)
    requires Total(job) == 2 && |iv0| == IV_BYTES && |iv1| == IV_BYTES
    requires PacketFor(job, 0, iv0) == Some(p0) && PacketFor(job, 1, iv1) == Some(p1)
    ensures Run(job, Accepted(job), SendingTwo(iv0, iv1)) == TwoSent(job, p0, p1)
  {
    var a, b := [S(Hear), S(LoopHead(0))], [S(Seal(0, iv0, true)), S(Transmit(0, true))];
    var c := [S(LoopHead(0)), S(Seal(0, iv1, true))] + [S(Transmit(0, true)), S(LoopHead(0))];
    RunConcat(job, Accepted(job), a + b, c);
    RunConcat(job, Accepted(job), a, b);
    RunTwo(job, Accepted(job), S(Hear), S(LoopHead(0)));
    HeardAndLooked(job);
    RunTwo(job, SealingWorld(job), S(Seal(0, iv0, true)), S(Transmit(0, true)));
    SealedAndSent(job, iv0, p0);
    SecondSent(job, p0, iv1, p1);
  }

  lemma BothArrive(job: Job, p0: Bytes, p1: Bytes)
    requires IsChunk(job, p0, 0) && IsChunk(job, p1, 1)
    ensures var w, r := Run(job, TwoSent(job, p0, p1), [R(Arrive(0)), R(Arrive(1))]), Init(job).r;
            && w.r == r.(inc := r.inc.(received := {0, 1}),
                         tasks := [Saving(RowOf(Decode(p0).value)), Saving(RowOf(Decode(p1).value))])
  {
    var w := TwoSent(job, p0, p1);
    RunTwo(job, w, R(Arrive(0)), R(Arrive(1)));
    var w1 := Step(job, w, R(Arrive(0)));
    assert w1.r == w.r.(inc := w.r.inc.(received := {0}), tasks := [Saving(RowOf(Decode(p0).value))]);
    assert w1.n.lanes[1] == [p1];
    assert {0} + {1} == {0, 1};
  }

  lemma BothSaved(job: Job, w: World, row0: Row, row1: Row)
    requires w.r.tasks == [Saving(row0), Saving(row1)]
    ensures var r := Run(job, w, [R(SaveEnds(0, true)), R(SaveEnds(1, true))]).r;
            r.tasks == [Saved, Saved] && r.inc == w.r.inc && r.completed == w.r.completed && r.failures == w.r.failures
  {
    RunTwo(job, w, R(SaveEnds(0, true)), R(SaveEnds(1, true)));
    var w1 := Step(job, w, R(SaveEnds(0, true)));
    assert w1.r.tasks == [Saved, Saving(row1)];
  }

  /** With nothing claimed and no save outstanding, what is stored reassembles to the file. */
  lemma StoredIsTheFile(job: Job, r: Receiver)
    requires WellFormed(job) && Sound(job, r) && !Claimed(r) && AllReceived(job, r)
    requires forall t :: 0 <= t < |r.tasks| ==> !r.tasks[t].Saving?
    ensures Assemble(job.crypto, r.inc, SortByIndex(Of(r.rows, job.id))) == Some(job.file)
  {
    var rows := Of(r.rows, job.id);
    NumPositive(r.tasks, IsSaving);
    FullCount(job, r);
    SortMembers(rows);
    SortOrders(rows);
    assert |SortByIndex(rows)| == |multiset(SortByIndex(rows))| == |rows|;
    forall i | 0 <= i < |SortByIndex(rows)| ensures GoodRow(job, SortByIndex(rows)[i]) {
      assert SortByIndex(rows)[i] in rows;
    }
    FullSetIsTheFile(job, r.inc, SortByIndex(rows));
  }

  function TwoSaved(job: Job): Incoming {
    Init(job).r.inc.(received := {0, 1})
  }

  lemma BothAtTheirCount(job: Job, iv0: Bytes, iv1: Bytes)
    requires WellFormed(job) && Total(job) == 2 && |iv0| == IV_BYTES && |iv1| == IV_BYTES
    ensures var r := Run(job, Accepted(job), SendingTwo(iv0, iv1) + SAVING_TWO).r;
            r.tasks == [Saved, Saved] && r.inc == TwoSaved(job) && r.completed == [] && r.failures == 0
  {
    SealedIsGood(job, 0, iv0);
    SealedIsGood(job, 1, iv1);
    var p0, p1 := PacketFor(job, 0, iv0).value, PacketFor(job, 1, iv1).value;
    var arrive, save := [R(Arrive(0)), R(Arrive(1))], [R(SaveEnds(0, true)), R(SaveEnds(1, true))];
    RunConcat(job, Accepted(job), SendingTwo(iv0, iv1), SAVING_TWO);
    BothSent(job, iv0, iv1, p0, p1);
    RunConcat(job, TwoSent(job, p0, p1), arrive, save);
    BothArrive(job, p0, p1);
    BothSaved(job, Run(job, TwoSent(job, p0, p1), arrive), RowOf(Decode(p0).value), RowOf(Decode(p1).value));
  }

  lemma TwoSavedAreStored(job: Job, r: Receiver)
    requires WellFormed(job) && Total(job) == 2 && Sound(job, r)
    requires r.tasks == [Saved, Saved] && r.inc == TwoSaved(job) && r.completed == []
    ensures LastTwo(job, r, 0, 1, job.file)
  {
    NumPositive(r.tasks, IsDelivering);
    StoredIsTheFile(job, r);
  }

  /** For every file of two chunks a run without failures leaves two handlers past their saves, about to count the last
      two chunks. */
  lemma LastTwoIsReached(job: Job, iv0: Bytes, iv1: Bytes)
    requires WellFormed(job) && Total(job) == 2 && |iv0| == IV_BYTES && |iv1| == IV_BYTES
    ensures SmoothRun(job, SendingTwo(iv0, iv1) + SAVING_TWO)
    ensures var r := Run(job, Accepted(job), SendingTwo(iv0, iv1) + SAVING_TWO).r;
            LastTwo(job, r, 0, 1, job.file) && r.completed == [] && r.failures == 0
  {
    var es := SendingTwo(iv0, iv1) + SAVING_TWO;
    BothAtTheirCount(job, iv0, iv1);
    SliceCountBounds(|job.file|, CHUNK_SIZE, 0);
    RunIsSound(job, es);
    TwoSavedAreStored(job, Run(job, Accepted(job), es).r);
  }

  lemma SmoothConcat(job: Job, a: seq<Event>, b: seq<Event>)
    requires SmoothRun(job, a) && SmoothRun(job, b)
    ensures SmoothRun(job, a + b)
  {
  }

  /** So "delivered exactly once" is false of overlapping handlers: every file of two chunks has a run without failures
      that delivers it twice. */
  lemma OverlapDeliversTwice(job: Job, iv0: Bytes, iv1: Bytes)
    requires WellFormed(job) && Total(job) == 2 && |iv0| == IV_BYTES && |iv1| == IV_BYTES
    ensures exists es :: SmoothRun(job, es) && Run(job, Accepted(job), es).r.completed == [job.file, job.file]
  {
    var es := SendingTwo(iv0, iv1) + SAVING_TWO;
    LastTwoIsReached(job, iv0, iv1);
    var w := Run(job, Accepted(job), es);
    var twice := Passing(0, 1) + (VerifyBoth(0, 1) + DeliverBoth(0, 1));
    TwoHandlersDeliverTwice(job, w, 0, 1, job.file);
    RunConcat(job, Accepted(job), es, twice);
    SmoothConcat(job, es, twice);
  }

  /** And one that delivers it and then reports a failure. */
  lemma OverlapDeliversAndFails(job: Job, iv0: Bytes, iv1: Bytes)
    requires WellFormed(job) && Total(job) == 2 && |iv0| == IV_BYTES && |iv1| == IV_BYTES
    ensures exists es :: SmoothRun(job, es)
              && Run(job, Accepted(job), es).r.completed == [job.file] && Run(job, Accepted(job), es).r.failures == 1
  {
    var es := SendingTwo(iv0, iv1) + SAVING_TWO;
    LastTwoIsReached(job, iv0, iv1);
    var w := Run(job, Accepted(job), es);
    var mixed := Passing(0, 1) + (Alone(0) + Alone(1));
    TwoHandlersDeliverAndFail(job, w, 0, 1, job.file);
    RunConcat(job, Accepted(job), es, mixed);
    SmoothConcat(job, es, mixed);
  }
}
