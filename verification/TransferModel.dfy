/** One transfer as a step machine: sender, four FIFO lanes, a control channel each way, receiver and chunk table.
    Every step is one uninterrupted piece of code between two awaits, or one act of the environment. */
module TransferModel {
  import opened Wrappers
  import opened Slicing
  import opened PacketCodec
  import opened ChunkStore
  import opened TransferState

  /** What sender and receiver agree on: the file and the metadata that announced it. */
  datatype Job = Job(id: Bytes, file: Bytes, key: Bytes, crypto: Crypto)

  function Total(job: Job): nat {
    SliceCount(|job.file|, CHUNK_SIZE)
  }

  /** One run of `streamOutgoing`: the loop variable and where the run is suspended. */
  datatype Stream = Stream(index: nat, stage: Stage)

  datatype Stage = Looping | Sealing | Waiting(packet: Bytes) | Granted(packet: Bytes) | Ended

  /** `live`: the transfer is in `activeOutgoing`. */
  datatype Sender = Sender(out: Outgoing, live: bool, streams: seq<Stream>)

  datatype NetworkData = Network(lanes: seq<seq<Bytes>>, buffered: seq<nat>, timeouts: nat,
                                 toSender: seq<Control>, toReceiver: seq<Control>)

  type Network = n: NetworkData | |n.lanes| == LANES && |n.buffered| == LANES
    witness Network([[], [], [], []], [0, 0, 0, 0], 0, [], [])

  /** A suspended receiver-side function and what it holds while suspended. */
  datatype Task =
    | Saving(row: Row)                // handleDataMessage, in saveChunk
    | Saved                           // its save has resolved
    | Counted                         // chunk counted, in the metadata awaits
    | Fetching                        // reassembleFile, before getTransferChunks
    | Fetched(chunks: seq<Row>)       // decrypting the fetched rows
    | Completing(blob: Bytes)         // verified, before the chunks are cleared
    | Delivering(blob: Bytes)         // cleared, before onComplete
    | Failing(inner: bool)            // in a catch, before the chunks are cleared; inner: that of reassembleFile
    | Failed(inner: bool)             // in a catch, before onFailed
    | Sweeping                        // cancelTransfer, before the chunks are cleared
    | Finished

  /** `live`: the transfer is in `activeIncoming`. `completed` lists the blobs passed to onComplete. */
  datatype Receiver = Receiver(inc: Incoming, live: bool, tasks: seq<Task>, rows: seq<Row>,
                               completed: seq<Bytes>, failures: nat)

  datatype World = World(s: Sender, n: Network, r: Receiver)

  datatype SenderEvent =
    | LoopHead(stream: nat)
    | Seal(stream: nat, iv: Bytes, laneOpen: bool)
    | LowEvent(stream: nat)
    | Timeout(stream: nat)
    | Transmit(stream: nat, sendOk: bool)
    | Breaks(stream: nat)
    | PauseHere(open: bool)
    | ResumeHere(open: bool)
    | CancelHere(open: bool)
    | Hear

  datatype NetworkEvent =
    | Drain(lane: nat, amount: nat)
    | Lose(lane: nat)
    | Foreign(lane: nat, packet: Bytes)

  datatype ReceiverEvent =
    | Arrive(lane: nat)
    | SaveEnds(task: nat, ok: bool)
    | CountChunk(task: nat)
    | Check(task: nat, throws: bool)
    | Fetch(task: nat, ok: bool)
    | Verify(task: nat)
    | Clear(task: nat, ok: bool)
    | Announce(task: nat, throws: bool)
    | AcceptHere(open: bool)
    | PauseThere(open: bool)
    | ResumeThere(open: bool)
    | CancelThere(open: bool)
    | HearThere
    | OtherRows(rows: seq<Row>)

  datatype Event = S(s: SenderEvent) | N(n: NetworkEvent) | R(r: ReceiverEvent)

  /** After `sendFile` and the receiver's handling of its metadata message. */
  function Init(job: Job): World {
    World(Sender(NewOutgoing(), true, []),
          Network([[], [], [], []], [0, 0, 0, 0], 0, [], []),
          Receiver(NewIncoming(job.key, job.crypto.digest(job.file), |job.file|), true, [], [], [], 0))
  }

  // ---- sender ----

  function PutStream(s: Sender, i: nat, st: Stream): Sender
    requires i < |s.streams|
  {
    s.(streams := s.streams[i := st])
  }

  function Spawn(s: Sender, start: nat): Sender {
    s.(streams := s.streams + [Stream(start, Looping)])
  }

  function Throw(s: Sender, i: nat): Sender
    requires i < |s.streams|
  {
    PutStream(s, i, s.streams[i].(stage := Ended)).(live := false)
  }

  function AtLoopHead(job: Job, s: Sender, i: nat): Sender
    requires i < |s.streams|
  {
    if s.streams[i].index >= Total(job) then Throw(s, i)    // the loop is over: the entry is deleted as well
    else PutStream(s, i, s.streams[i].(stage := if s.out.paused || s.out.cancelled then Ended else Sealing))
  }

  function PacketFor(job: Job, index: nat, iv: Bytes): Option<Bytes> {
    Encode(job.id, index, iv, job.crypto.seal(job.key, Slice(job.file, index, CHUNK_SIZE), iv))
  }

  function AtSeal(job: Job, s: Sender, n: Network, i: nat, iv: Bytes, laneOpen: bool): Sender
    requires i < |s.streams|
  {
    var st := s.streams[i];
    match PacketFor(job, st.index, iv)
    case None => Throw(s, i)
    case Some(packet) =>
      if !laneOpen then Throw(s, i)
      else if n.buffered[st.index % LANES] < BUFFER_HIGH_WATERMARK then PutStream(s, i, st.(stage := Granted(packet)))
      else PutStream(s, i, st.(stage := Waiting(packet)))
  }

  function AtTransmit(s: Sender, n: Network, i: nat, sendOk: bool): (Sender, Network)
    requires i < |s.streams| && s.streams[i].stage.Granted?
  {
    var st := s.streams[i];
    var lane := st.index % LANES;
    if s.out.paused || s.out.cancelled then (PutStream(s, i, st.(stage := Ended)), n)
    else if !sendOk then (Throw(s, i), n)
    else (PutStream(s, i, Stream(st.index + 1, Looping)).(out := s.out.(lastSentIndex := st.index)),
          n.(lanes := n.lanes[lane := n.lanes[lane] + [st.stage.packet]],
             buffered := n.buffered[lane := n.buffered[lane] + |st.stage.packet|]))
  }

  function ToReceiver(n: Network, open: bool, msg: Control): Network {
    if open then n.(toReceiver := n.toReceiver + [msg]) else n
  }

  function ToSender(n: Network, open: bool, msg: Control): Network {
    if open then n.(toSender := n.toSender + [msg]) else n
  }

  function AtHear(s: Sender, msg: Control): Sender {
    if !s.live then s
    else
      var heard := s.(out := SenderHears(s.out, msg));
      match msg
      case Accept => Spawn(heard, 0)
      case ResumeFrom(start) => Spawn(heard, start)
      case Pause => heard
      case Cancel => heard.(live := false)
  }

  function SenderStep(job: Job, s: Sender, n: Network, e: SenderEvent): (Sender, Network) {
    match e
    case LoopHead(i) => if i < |s.streams| && s.streams[i].stage.Looping? then (AtLoopHead(job, s, i), n) else (s, n)
    case Seal(i, iv, laneOpen) =>
      if i < |s.streams| && s.streams[i].stage.Sealing? && |iv| == IV_BYTES then (AtSeal(job, s, n, i, iv, laneOpen), n)
          else (s, n)
    case LowEvent(i) =>
      if i < |s.streams| && s.streams[i].stage.Waiting?
          && n.buffered[s.streams[i].index % LANES] <= BUFFER_LOW_WATERMARK
      then (PutStream(s, i, s.streams[i].(stage := Granted(s.streams[i].stage.packet))), n) else (s, n)
    case Timeout(i) =>
      if i < |s.streams| && s.streams[i].stage.Waiting?
      then (PutStream(s, i, s.streams[i].(stage := Granted(s.streams[i].stage.packet))), n.(timeouts := n.timeouts + 1))
          else (s, n)
    case Transmit(i, sendOk) => if i < |s.streams| && s.streams[i].stage.Granted? then AtTransmit(s, n, i, sendOk)
        else (s, n)
    case Breaks(i) =>    // reading or sealing the slice throws, or onProgress after a send
      if i < |s.streams| && (s.streams[i].stage.Looping? || s.streams[i].stage.Sealing?) then (Throw(s, i), n)
          else (s, n)
    case PauseHere(open) =>
      if s.live then (s.(out := s.out.(paused := true)), ToReceiver(n, open, Pause)) else (s, n)
    case ResumeHere(open) =>
      if s.live && s.out.paused
      then (Spawn(s.(out := s.out.(paused := false)), s.out.lastSentIndex + 1),
            ToReceiver(n, open, ResumeFrom(s.out.lastSentIndex + 1)))
      else (s, n)
    case CancelHere(open) =>
      if s.live then (s.(out := s.out.(cancelled := true), live := false), ToReceiver(n, open, Cancel)) else (s, n)
    case Hear =>
      if n.toSender == [] then (s, n) else (AtHear(s, n.toSender[0]), n.(toSender := n.toSender[1..]))
  }

  // ---- network ----

  function NetworkStep(n: Network, e: NetworkEvent): Network {
    match e
    case Drain(l, amount) =>
      if l < LANES && amount <= n.buffered[l] then n.(buffered := n.buffered[l := n.buffered[l] - amount]) else n
    case Lose(l) =>
      if l < LANES then n.(lanes := n.lanes[l := []]) else n
    case Foreign(l, packet) =>
      if l < LANES then n.(lanes := n.lanes[l := n.lanes[l] + [packet]]) else n
  }

  /** The packet decodes to a chunk of this transfer. */
  predicate Ours(job: Job, packet: Bytes) {
    Decode(packet).Some? && Decode(packet).value.id == job.id
  }

  // ---- receiver ----

  function PutTask(r: Receiver, t: nat, task: Task): Receiver
    requires t < |r.tasks|
  {
    r.(tasks := r.tasks[t := task])
  }

  function AddTask(r: Receiver, task: Task): Receiver {
    r.(tasks := r.tasks + [task])
  }

  function AtArrive(job: Job, r: Receiver, packet: Bytes): Receiver {
    if Ours(job, packet) && r.live && Admissible(r.inc, Decode(packet).value.index)
    then AddTask(r.(inc := Admit(r.inc, Decode(packet).value.index)), Saving(RowOf(Decode(packet).value)))
    else r
  }

  function AtCheck(r: Receiver, t: nat, throws: bool): Receiver
    requires t < |r.tasks|
  {
    if throws then PutTask(r, t, Failing(false)).(live := false)
    else if r.inc.count >= r.inc.total then PutTask(r, t, Fetching).(live := false)
    else PutTask(r, t, Finished)
  }

  function AtVerify(job: Job, r: Receiver, t: nat): Receiver
    requires t < |r.tasks| && r.tasks[t].Fetched?
  {
    match Assemble(job.crypto, r.inc, r.tasks[t].chunks)
    case None => PutTask(r, t, Failing(true))
    case Some(blob) => PutTask(r, t, Completing(blob))
  }

  function AtClear(job: Job, r: Receiver, t: nat, ok: bool): Receiver
    requires t < |r.tasks|
  {
    var cleared := if ok then r.(rows := Without(r.rows, job.id)) else r;
    match r.tasks[t]
    case Completing(blob) => PutTask(cleared, t, Delivering(blob))
    case Failing(inner) => PutTask(cleared, t, Failed(inner))
    case Sweeping => PutTask(cleared, t, Finished)
    case _ => r
  }

  function AtAnnounce(r: Receiver, t: nat, throws: bool): Receiver
    requires t < |r.tasks|
  {
    match r.tasks[t]
    case Delivering(blob) =>
      PutTask(r, t, if throws then Failing(true) else Finished).(completed := r.completed + [blob])
    case Failed(inner) =>    // what onFailed throws in the inner catch is caught by the handler's own
      PutTask(r, t, if throws && inner then Failing(false) else Finished).(failures := r.failures + 1)
    case _ => r
  }

  function AtHearThere(r: Receiver, msg: Control): Receiver {
    if !r.live then r
    else
      var heard := r.(inc := ReceiverHears(r.inc, msg));
      if msg == Cancel then AddTask(heard, Failing(false)).(live := false) else heard
  }

  function ReceiverStep(job: Job, r: Receiver, n: Network, e: ReceiverEvent): (Receiver, Network) {
    match e
    case Arrive(l) =>
      if l < LANES && n.lanes[l] != []
      then (AtArrive(job, r, n.lanes[l][0]), n.(lanes := n.lanes[l := n.lanes[l][1..]])) else (r, n)
    case SaveEnds(t, ok) =>
      if t < |r.tasks| && r.tasks[t].Saving?
      then (PutTask(r, t, Saved).(rows := if ok then r.rows + [r.tasks[t].row] else r.rows), n) else (r, n)
    case CountChunk(t) =>
      if t < |r.tasks| && r.tasks[t].Saved? then (PutTask(r, t, Counted).(inc := AfterSave(r.inc)), n) else (r, n)
    case Check(t, throws) => if t < |r.tasks| && r.tasks[t].Counted? then (AtCheck(r, t, throws), n) else (r, n)
    case Fetch(t, ok) =>
      if t < |r.tasks| && r.tasks[t].Fetching?
      then (PutTask(r, t, Fetched(if ok then SortByIndex(Of(r.rows, job.id)) else [])), n) else (r, n)
    case Verify(t) => if t < |r.tasks| && r.tasks[t].Fetched? then (AtVerify(job, r, t), n) else (r, n)
    case Clear(t, ok) => if t < |r.tasks| then (AtClear(job, r, t, ok), n) else (r, n)
    case Announce(t, throws) => if t < |r.tasks| then (AtAnnounce(r, t, throws), n) else (r, n)
    case AcceptHere(open) => if r.live then (r, ToSender(n, open, Accept)) else (r, n)
    case PauseThere(open) =>
      if r.live then (r.(inc := r.inc.(paused := true)), ToSender(n, open, Pause)) else (r, n)
    case ResumeThere(open) =>
      if r.live && r.inc.paused
      then (r.(inc := r.inc.(paused := false)), ToSender(n, open, ResumeFrom(r.inc.contiguous))) else (r, n)
    case CancelThere(open) =>
      if r.live
      then (AddTask(r.(inc := r.inc.(cancelled := true)), Sweeping).(live := false), ToSender(n, open, Cancel))
          else (r, n)
    case HearThere =>
      if n.toReceiver == [] then (r, n) else (AtHearThere(r, n.toReceiver[0]), n.(toReceiver := n.toReceiver[1..]))
    case OtherRows(rows) => if Of(rows, job.id) == Of(r.rows, job.id) then (r.(rows := rows), n) else (r, n)
  }

  function Step(job: Job, w: World, e: Event): World {
    match e
    case S(se) => var (s, n) := SenderStep(job, w.s, w.n, se); World(s, n, w.r)
    case N(ne) => World(w.s, NetworkStep(w.n, ne), w.r)
    case R(re) => var (r, n) := ReceiverStep(job, w.r, w.n, re); World(w.s, n, r)
  }

  /** The world after a run; an event whose moment has not come changes nothing. */
  function Run(job: Job, w: World, es: seq<Event>): World {
    if es == [] then w else Step(job, Run(job, w, es[..|es| - 1]), es[|es| - 1])
  }
}
