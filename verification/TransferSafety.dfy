/** Whatever is delivered is the file: over every run, at await granularity. */
module TransferSafety {
  import opened Wrappers
  import opened Slicing
  import opened PacketCodec
  import opened ChunkStore
  import opened TransferState
  import opened TransferModel

  /** The job's id has the length the wire format reserves for it (a UUID's text). */
  ghost predicate WellFormed(job: Job) {
    |job.id| == ID_BYTES && Authentic(job.crypto)
  }

  /** Only the sender makes packets that carry this transfer's id. */
  predicate Honest(job: Job, e: Event) {
    e.N? && e.n.Foreign? ==> !Ours(job, e.n.packet)
  }

  predicate HonestRun(job: Job, es: seq<Event>) {
    forall i :: 0 <= i < |es| ==> Honest(job, es[i])
  }

  // ---- invariant ----

  /** The index fits its field, and unless the file overflows that field it names the slice inside. */
  ghost predicate GoodRow(job: Job, row: Row) {
    && row.index < U32_LIMIT
    && (Total(job) <= U32_LIMIT ==>
          && row.index < Total(job)
          && OpenRow(job.crypto, job.key, row) == Some(Slice(job.file, row.index, CHUNK_SIZE)))
  }

  ghost predicate GoodPacket(job: Job, packet: Bytes) {
    Ours(job, packet) ==> GoodRow(job, RowOf(Decode(packet).value))
  }

  ghost predicate GoodPackets(job: Job, packets: seq<Bytes>) {
    forall i :: 0 <= i < |packets| ==> GoodPacket(job, packets[i])
  }

  ghost predicate GoodStream(job: Job, st: Stream) {
    match st.stage
    case Sealing => st.index < Total(job)
    case Waiting(packet) => GoodPacket(job, packet)
    case Granted(packet) => GoodPacket(job, packet)
    case _ => true
  }

  ghost predicate GoodRows(job: Job, rows: seq<Row>, received: set<nat>) {
    && DistinctIndices(rows)
    && (forall i :: 0 <= i < |rows| ==> GoodRow(job, rows[i]) && rows[i].index in received)
  }

  ghost predicate GoodTask(job: Job, r: Receiver, task: Task) {
    match task
    case Saving(row) =>
      && row.id == job.id && GoodRow(job, row) && row.index in r.inc.received
      && (forall i :: 0 <= i < |Of(r.rows, job.id)| ==> Of(r.rows, job.id)[i].index != row.index)
    case Fetched(chunks) => StrictlyAscending(chunks) && (forall i :: 0 <= i < |chunks| ==> GoodRow(job, chunks[i]))
    case Completing(blob) => blob == job.file
    case Delivering(blob) => blob == job.file
    case _ => true
  }

  ghost predicate SenderOk(job: Job, s: Sender) {
    forall i :: 0 <= i < |s.streams| ==> GoodStream(job, s.streams[i])
  }

  ghost predicate NetworkOk(job: Job, n: Network) {
    forall l :: 0 <= l < LANES ==> GoodPackets(job, n.lanes[l])
  }

  ghost predicate SavesApart(tasks: seq<Task>) {
    forall i, j :: 0 <= i < j < |tasks| && tasks[i].Saving? && tasks[j].Saving? ==>
        tasks[i].row.index != tasks[j].row.index
  }

  ghost predicate Announced(job: Job, inc: Incoming) {
    inc.key == job.key && inc.hash == job.crypto.digest(job.file) && inc.total == Total(job)
  }

  ghost predicate ReceiverOk(job: Job, r: Receiver) {
    && Announced(job, r.inc)
    && GoodRows(job, Of(r.rows, job.id), r.inc.received)
    && (forall t :: 0 <= t < |r.tasks| ==> GoodTask(job, r, r.tasks[t]))
    && SavesApart(r.tasks)
    && (forall k :: 0 <= k < |r.completed| ==> r.completed[k] == job.file)
  }

  ghost predicate Safe(job: Job, w: World) {
    SenderOk(job, w.s) && NetworkOk(job, w.n) && ReceiverOk(job, w.r)
  }

  // ---- the counting argument ----

  lemma {:induction false} AscendingIndexAtLeast(rows: seq<Row>, i: nat)
    requires StrictlyAscending(rows) && i < |rows|
    ensures rows[i].index >= i
  {
    if i > 0 {
      AscendingIndexAtLeast(rows, i - 1);
    }
  }

  lemma {:induction false} AscendingIndexAtMost(rows: seq<Row>, i: nat, bound: nat)
    requires StrictlyAscending(rows) && i < |rows|
    requires forall j :: 0 <= j < |rows| ==> rows[j].index < bound
    ensures rows[i].index <= bound - (|rows| - i)
    decreases |rows| - i
  {
    if i + 1 < |rows| {
      AscendingIndexAtMost(rows, i + 1, bound);
    }
  }

  /** As many distinct good rows as the file has chunks, in order, reassemble to exactly the file. */
  lemma FullSetIsTheFile(job: Job, inc: Incoming, chunks: seq<Row>)
    requires Announced(job, inc)
    requires StrictlyAscending(chunks) && (forall i :: 0 <= i < |chunks| ==> GoodRow(job, chunks[i]))
    ensures Assemble(job.crypto, inc, chunks) == if |chunks| == Total(job) then Some(job.file) else None
  {
    var n := |chunks|;
    if n == Total(job) {
      if n > U32_LIMIT {
        AscendingIndexAtLeast(chunks, n - 1);
        assert false;
      }
      forall i | 0 <= i < n ensures OpenRow(job.crypto, job.key, chunks[i]) == Some(Slice(job.file, i, CHUNK_SIZE)) {
        AscendingIndexAtLeast(chunks, i);
        AscendingIndexAtMost(chunks, i, n);
      }
      OpenAllEach(job.crypto, job.key, chunks);
      SlicesRejoin(job.file, CHUNK_SIZE, OpenAll(job.crypto, job.key, chunks).value);
    }
  }

  /** Every chunk index fits its 32-bit field if and only if the file has at most 2^48 bytes. */
  lemma IndicesFitIff(job: Job)
    ensures Total(job) <= U32_LIMIT <==> |job.file| <= 0x1_0000_0000_0000
  {
    SliceCountBounds(|job.file|, CHUNK_SIZE, U32_LIMIT);
  }

  /** A sealed slice, sent and decoded, is a good row. */
  lemma SealedIsGood(job: Job, index: nat, iv: Bytes)
    requires WellFormed(job) && |iv| == IV_BYTES && index < Total(job)
    ensures PacketFor(job, index, iv).Some? && GoodPacket(job, PacketFor(job, index, iv).value)
    ensures index < U32_LIMIT ==>
              && Ours(job, PacketFor(job, index, iv).value)
              && Decode(PacketFor(job, index, iv).value).value.index == index
  {
    var plain := Slice(job.file, index, CHUNK_SIZE);
    var payload := job.crypto.seal(job.key, plain, iv);
    RoundTrip(job.id, index, iv, payload);
    var packet := PacketFor(job, index, iv).value;
    ReEncode(packet);
    if index < U32_LIMIT {
      var row := RowOf(Decode(packet).value);
      assert row.data[..IV_BYTES] == iv && row.data[IV_BYTES..] == payload;
    }
  }

  // ---- preservation ----

  lemma SealKeeps(job: Job, s: Sender, n: Network, i: nat, iv: Bytes, laneOpen: bool)
    requires WellFormed(job) && SenderOk(job, s) && i < |s.streams| && s.streams[i].stage.Sealing? && |iv| == IV_BYTES
    ensures SenderOk(job, AtSeal(job, s, n, i, iv, laneOpen))
  {
    assert GoodStream(job, s.streams[i]);
    SealedIsGood(job, s.streams[i].index, iv);
  }

  lemma TransmitKeepsSafe(job: Job, s: Sender, n: Network, i: nat, sendOk: bool)
    requires SenderOk(job, s) && NetworkOk(job, n) && i < |s.streams| && s.streams[i].stage.Granted?
    ensures SenderOk(job, AtTransmit(s, n, i, sendOk).0) && NetworkOk(job, AtTransmit(s, n, i, sendOk).1)
  {
    assert GoodStream(job, s.streams[i]);
  }

  lemma SenderKeeps(job: Job, s: Sender, n: Network, e: SenderEvent)
    requires WellFormed(job) && SenderOk(job, s) && NetworkOk(job, n)
    ensures SenderOk(job, SenderStep(job, s, n, e).0) && NetworkOk(job, SenderStep(job, s, n, e).1)
  {
    match e
    case Seal(i, iv, laneOpen) =>
      if i < |s.streams| && s.streams[i].stage.Sealing? && |iv| == IV_BYTES {
        SealKeeps(job, s, n, i, iv, laneOpen);
      }
    case Transmit(i, sendOk) =>
      if i < |s.streams| && s.streams[i].stage.Granted? {
        TransmitKeepsSafe(job, s, n, i, sendOk);
      }
    case _ =>
  }

  lemma NetworkKeeps(job: Job, n: Network, e: NetworkEvent)
    requires NetworkOk(job, n) && Honest(job, N(e))
    ensures NetworkOk(job, NetworkStep(n, e))
  {
  }

  lemma ArriveKeeps(job: Job, r: Receiver, packet: Bytes)
    requires ReceiverOk(job, r) && GoodPacket(job, packet)
    ensures ReceiverOk(job, AtArrive(job, r, packet))
  {
  }

  lemma SavedRows(job: Job, r: Receiver, row: Row)
    requires GoodRows(job, Of(r.rows, job.id), r.inc.received) && GoodTask(job, r, Saving(row))
    ensures Of(r.rows + [row], job.id) == Of(r.rows, job.id) + [row]
    ensures GoodRows(job, Of(r.rows + [row], job.id), r.inc.received)
  {
    OfAppend(r.rows, row, job.id);
  }

  lemma SaveKeepsTask(job: Job, r: Receiver, r': Receiver, row: Row, task: Task)
    requires GoodTask(job, r, task) && (task.Saving? ==> task.row.index != row.index) && r'.inc == r.inc
    requires Of(r'.rows, job.id) == Of(r.rows, job.id) || Of(r'.rows, job.id) == Of(r.rows, job.id) + [row]
    ensures GoodTask(job, r', task)
  {
  }

  lemma SaveKeeps(job: Job, r: Receiver, t: nat, ok: bool)
    requires ReceiverOk(job, r) && t < |r.tasks| && r.tasks[t].Saving?
    ensures ReceiverOk(job, PutTask(r, t, Saved).(rows := if ok then r.rows + [r.tasks[t].row] else r.rows))
  {
    var row := r.tasks[t].row;
    assert GoodTask(job, r, r.tasks[t]);
    SavedRows(job, r, row);
    var r' := PutTask(r, t, Saved).(rows := if ok then r.rows + [row] else r.rows);
    forall u | 0 <= u < |r'.tasks| ensures GoodTask(job, r', r'.tasks[u]) {
      if u != t {
        SaveKeepsTask(job, r, r', row, r.tasks[u]);
      }
    }
  }

  lemma ClearKeeps(job: Job, r: Receiver, t: nat, ok: bool)
    requires ReceiverOk(job, r) && t < |r.tasks|
    ensures ReceiverOk(job, AtClear(job, r, t, ok))
  {
    ClearIsLocal(r.rows, job.id, job.id);
    assert GoodTask(job, r, r.tasks[t]);
    var r' := AtClear(job, r, t, ok);
    forall u | 0 <= u < |r'.tasks| ensures GoodTask(job, r', r'.tasks[u]) {
      assert GoodTask(job, r, r.tasks[u]);
    }
  }

  lemma FetchKeeps(job: Job, r: Receiver, t: nat, ok: bool)
    requires ReceiverOk(job, r) && t < |r.tasks| && r.tasks[t].Fetching?
    ensures ReceiverOk(job, PutTask(r, t, Fetched(if ok then SortByIndex(Of(r.rows, job.id)) else [])))
  {
    var mine := Of(r.rows, job.id);
    SortMembers(mine);
    SortOrders(mine);
    forall i | 0 <= i < |SortByIndex(mine)| ensures GoodRow(job, SortByIndex(mine)[i]) {
      assert SortByIndex(mine)[i] in mine;
    }
    var r' := PutTask(r, t, Fetched(if ok then SortByIndex(mine) else []));
    forall u | 0 <= u < |r'.tasks| ensures GoodTask(job, r', r'.tasks[u]) {
      assert GoodTask(job, r, r.tasks[u]);
    }
  }

  /** Replacing a task by one that holds nothing to check. */
  lemma PutKeeps(job: Job, r: Receiver, t: nat, task: Task, inc: Incoming)
    requires ReceiverOk(job, r) && t < |r.tasks| && !task.Saving?
    requires Announced(job, inc) && inc.received == r.inc.received
    requires GoodTask(job, r, task)
    ensures ReceiverOk(job, PutTask(r, t, task).(inc := inc))
    ensures ReceiverOk(job, PutTask(r, t, task).(inc := inc, live := false))
  {
    var r' := PutTask(r, t, task).(inc := inc);
    forall u | 0 <= u < |r'.tasks| ensures GoodTask(job, r', r'.tasks[u]) {
      assert u != t ==> GoodTask(job, r, r.tasks[u]) && r'.tasks[u] == r.tasks[u];
    }
  }

  lemma VerifyKeeps(job: Job, r: Receiver, t: nat)
    requires ReceiverOk(job, r) && t < |r.tasks| && r.tasks[t].Fetched?
    ensures ReceiverOk(job, AtVerify(job, r, t))
  {
    assert GoodTask(job, r, r.tasks[t]);
    FullSetIsTheFile(job, r.inc, r.tasks[t].chunks);
    PutKeeps(job, r, t, AtVerify(job, r, t).tasks[t], r.inc);
  }

  lemma CountKeeps(job: Job, r: Receiver, t: nat)
    requires ReceiverOk(job, r) && t < |r.tasks| && r.tasks[t].Saved?
    ensures ReceiverOk(job, PutTask(r, t, Counted).(inc := AfterSave(r.inc)))
  {
    assert GoodTask(job, r, r.tasks[t]);
    PutKeeps(job, r, t, Counted, AfterSave(r.inc));
  }

  lemma CheckKeeps(job: Job, r: Receiver, t: nat, throws: bool)
    requires ReceiverOk(job, r) && t < |r.tasks| && r.tasks[t].Counted?
    ensures ReceiverOk(job, AtCheck(r, t, throws))
  {
    PutKeeps(job, r, t, AtCheck(r, t, throws).tasks[t], r.inc);
  }

  lemma AnnounceKeeps(job: Job, r: Receiver, t: nat, throws: bool)
    requires ReceiverOk(job, r) && t < |r.tasks|
    ensures ReceiverOk(job, AtAnnounce(r, t, throws))
  {
    assert GoodTask(job, r, r.tasks[t]);
    if r.tasks[t].Delivering? || r.tasks[t].Failed? {
      PutKeeps(job, r, t, AtAnnounce(r, t, throws).tasks[t], r.inc);
    }
  }

  lemma ControlKeeps(job: Job, r: Receiver, n: Network, e: ReceiverEvent)
    requires ReceiverOk(job, r) && NetworkOk(job, n)
    requires e.AcceptHere? || e.PauseThere? || e.ResumeThere? || e.CancelThere? || e.HearThere? || e.OtherRows?
    ensures ReceiverOk(job, ReceiverStep(job, r, n, e).0) && NetworkOk(job, ReceiverStep(job, r, n, e).1)
  {
    var r' := ReceiverStep(job, r, n, e).0;
    assert Announced(job, r'.inc) && r'.inc.received == r.inc.received;
    assert Of(r'.rows, job.id) == Of(r.rows, job.id);
    forall u | 0 <= u < |r'.tasks| ensures GoodTask(job, r', r'.tasks[u]) {
      if u < |r.tasks| {
        assert GoodTask(job, r, r.tasks[u]) && r'.tasks[u] == r.tasks[u];
      }
    }
  }

  lemma ReceiverKeeps(job: Job, r: Receiver, n: Network, e: ReceiverEvent)
    requires ReceiverOk(job, r) && NetworkOk(job, n)
    ensures ReceiverOk(job, ReceiverStep(job, r, n, e).0) && NetworkOk(job, ReceiverStep(job, r, n, e).1)
  {
    match e
    case Arrive(l) =>
      if l < LANES && n.lanes[l] != [] {
        assert GoodPackets(job, n.lanes[l]);
        ArriveKeeps(job, r, n.lanes[l][0]);
      }
    case SaveEnds(t, ok) => if t < |r.tasks| && r.tasks[t].Saving? { SaveKeeps(job, r, t, ok); }
    case Fetch(t, ok) => if t < |r.tasks| && r.tasks[t].Fetching? { FetchKeeps(job, r, t, ok); }
    case Clear(t, ok) => if t < |r.tasks| { ClearKeeps(job, r, t, ok); }
    case CountChunk(t) => if t < |r.tasks| && r.tasks[t].Saved? { CountKeeps(job, r, t); }
    case Check(t, throws) => if t < |r.tasks| && r.tasks[t].Counted? { CheckKeeps(job, r, t, throws); }
    case Verify(t) => if t < |r.tasks| && r.tasks[t].Fetched? { VerifyKeeps(job, r, t); }
    case Announce(t, throws) => if t < |r.tasks| { AnnounceKeeps(job, r, t, throws); }
    case _ => ControlKeeps(job, r, n, e);
  }

  lemma StepIsSafe(job: Job, w: World, e: Event)
    requires WellFormed(job) && Safe(job, w) && Honest(job, e)
    ensures Safe(job, Step(job, w, e))
  {
    match e
    case S(se) => SenderKeeps(job, w.s, w.n, se);
    case N(ne) => NetworkKeeps(job, w.n, ne);
    case R(re) => ReceiverKeeps(job, w.r, w.n, re);
  }

  lemma {:induction false} RunIsSafe(job: Job, w: World, es: seq<Event>)
    requires WellFormed(job) && Safe(job, w) && HonestRun(job, es)
    ensures Safe(job, Run(job, w, es))
  {
    if es != [] {
      RunIsSafe(job, w, es[..|es| - 1]);
      StepIsSafe(job, Run(job, w, es[..|es| - 1]), es[|es| - 1]);
    }
  }

  /** End-to-end safety: in every run, however lanes, overlapping or resumed streams, pauses, cancels, suspended
      handlers and failing saves interleave, a blob passed to onComplete is the sender's file, byte for byte. */
  lemma DeliveredIsTheFile(job: Job, es: seq<Event>, blob: Bytes)
    requires WellFormed(job) && HonestRun(job, es)
    requires blob in Run(job, Init(job), es).r.completed
    ensures blob == job.file
  {
    RunIsSafe(job, Init(job), es);
  }

  // ---- without any assumption on what arrives ----

  ghost predicate DigestsMatch(job: Job, r: Receiver) {
    && Announced(job, r.inc)
    && (forall t :: 0 <= t < |r.tasks| ==>
          && (r.tasks[t].Completing? ==> job.crypto.digest(r.tasks[t].blob) == r.inc.hash)
          && (r.tasks[t].Delivering? ==> job.crypto.digest(r.tasks[t].blob) == r.inc.hash))
    && (forall k :: 0 <= k < |r.completed| ==> job.crypto.digest(r.completed[k]) == r.inc.hash)
  }

  lemma VerifyVerifies(job: Job, r: Receiver, t: nat)
    requires DigestsMatch(job, r) && t < |r.tasks| && r.tasks[t].Fetched?
    ensures DigestsMatch(job, AtVerify(job, r, t))
  {
  }

  lemma AnnounceVerified(job: Job, r: Receiver, t: nat, throws: bool)
    requires DigestsMatch(job, r) && t < |r.tasks|
    ensures DigestsMatch(job, AtAnnounce(r, t, throws))
  {
  }

  lemma ClearVerified(job: Job, r: Receiver, t: nat, ok: bool)
    requires DigestsMatch(job, r) && t < |r.tasks|
    ensures DigestsMatch(job, AtClear(job, r, t, ok))
  {
  }

  lemma CheckVerified(job: Job, r: Receiver, t: nat, throws: bool)
    requires DigestsMatch(job, r) && t < |r.tasks|
    ensures DigestsMatch(job, AtCheck(r, t, throws))
  {
  }

  lemma VerifiedStep(job: Job, r: Receiver, n: Network, e: ReceiverEvent)
    requires DigestsMatch(job, r)
    ensures DigestsMatch(job, ReceiverStep(job, r, n, e).0)
  {
    match e
    case Verify(t) => if t < |r.tasks| && r.tasks[t].Fetched? { VerifyVerifies(job, r, t); }
    case Announce(t, throws) => if t < |r.tasks| { AnnounceVerified(job, r, t, throws); }
    case Clear(t, ok) => if t < |r.tasks| { ClearVerified(job, r, t, ok); }
    case Check(t, throws) => if t < |r.tasks| { CheckVerified(job, r, t, throws); }
    case _ =>
  }

  /** Even if packets for this transfer are forged, whatever is delivered has the announced digest. */
  lemma {:induction false} DeliveredHasTheDigest(job: Job, es: seq<Event>)
    ensures DigestsMatch(job, Run(job, Init(job), es).r)
    ensures forall blob :: blob in Run(job, Init(job), es).r.completed ==>
            job.crypto.digest(blob) == job.crypto.digest(job.file)
  {
    if es != [] {
      var n := |es| - 1;
      DeliveredHasTheDigest(job, es[..n]);
      var w := Run(job, Init(job), es[..n]);
      if es[n].R? {
        VerifiedStep(job, w.r, w.n, es[n].r);
      }
    }
  }
}
