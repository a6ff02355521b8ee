/** A coordinator with any number of outgoing transfers, whose streams share the four lanes: how far the buffered amount
    of a lane can grow past the high watermark. */
module TransferBackpressure {
  import opened Wrappers
  import opened Slicing
  import opened PacketCodec
  import opened TransferState
  import opened TransferModel
  import opened Counting

  /** Header, slice and tag of the largest packet. */
  const MAX_PACKET := HEADER_BYTES + CHUNK_SIZE + 16

  /** An entry of `activeOutgoing`; `live` while it is there. */
  datatype Upload = Upload(job: Job, out: Outgoing, live: bool)

  /** One run of `streamOutgoing`, for the transfer of that number. */
  datatype Runner = Runner(upload: nat, stream: Stream)

  datatype Uploads = Uploads(all: seq<Upload>, runners: seq<Runner>, n: Network)

  /** `Advance`: one runner goes on. `Command`: the user pauses, resumes or cancels. `Hears`: a control message comes
      in. */
  datatype Event =
    | NewUpload(job: Job)
    | Advance(runner: nat, e: SenderEvent)
    | Command(upload: nat, e: SenderEvent)
    | Hears(upload: nat, msg: Control)
    | Flow(flow: NetworkEvent)

  predicate IsStreamEvent(e: SenderEvent) {
    match e
    case LoopHead(i) => i == 0
    case Seal(i, _, _) => i == 0
    case LowEvent(i) => i == 0
    case Timeout(i) => i == 0
    case Transmit(i, _) => i == 0
    case Breaks(i) => i == 0
    case _ => false
  }

  /** Transfer `u` and some of its runs, as the one-transfer machine sees them. */
  function SenderOf(c: Uploads, u: nat, streams: seq<Stream>): Sender
    requires u < |c.all|
  {
    Sender(c.all[u].out, c.all[u].live, streams)
  }

  function RunnersFor(u: nat, streams: seq<Stream>): (rs: seq<Runner>)
    ensures |rs| == |streams|
  {
    seq(|streams|, k requires 0 <= k < |streams| => Runner(u, streams[k]))
  }

  /** Transfer `u` is now as in `s`, which has one more run at most. */
  function Updated(c: Uploads, u: nat, s: Sender, n: Network): Uploads
    requires u < |c.all|
  {
    Uploads(c.all[u := c.all[u].(out := s.out, live := s.live)], c.runners + RunnersFor(u, s.streams), n)
  }

  function AtAdvance(c: Uploads, i: nat, e: SenderEvent): Uploads
    requires i < |c.runners| && c.runners[i].upload < |c.all|
  {
    var u := c.runners[i].upload;
    var (s, n) := SenderStep(c.all[u].job, SenderOf(c, u, [c.runners[i].stream]), c.n, e);
    if s.streams == [] then c
    else Uploads(c.all[u := c.all[u].(out := s.out, live := s.live)], c.runners[i := Runner(u, s.streams[0])], n)
  }

  function AtCommand(c: Uploads, u: nat, e: SenderEvent): Uploads
    requires u < |c.all|
  {
    var (s, n) := SenderStep(c.all[u].job, SenderOf(c, u, []), c.n, e);
    Updated(c, u, s, n)
  }

  function Step(c: Uploads, e: Event): Uploads {
    match e
    case NewUpload(job) => c.(all := c.all + [Upload(job, NewOutgoing(), true)])
    case Advance(i, se) =>
      if i < |c.runners| && c.runners[i].upload < |c.all| && IsStreamEvent(se) then AtAdvance(c, i, se) else c
    case Command(u, se) =>
      if u < |c.all| && (se.PauseHere? || se.ResumeHere? || se.CancelHere?) then AtCommand(c, u, se) else c
    case Hears(u, msg) => if u < |c.all| then Updated(c, u, AtHear(SenderOf(c, u, []), msg), c.n) else c
    case Flow(flow) => c.(n := NetworkStep(c.n, flow))
  }

  const NEW := Uploads([], [], Network([[], [], [], []], [0, 0, 0, 0], 0, [], []))

  function Run(es: seq<Event>): Uploads {
    if es == [] then NEW else Step(Run(es[..|es| - 1]), es[|es| - 1])
  }

  // ---- the ceiling ----

  predicate IsRunning(r: Runner) {
    !r.stream.stage.Ended?
  }

  /** Runs of any transfer let through towards lane `l` that have not sent yet. */
  function GrantedOn(rs: seq<Runner>, l: nat): nat {
    Num(rs, (r: Runner) => r.stream.stage.Granted? && r.stream.index % LANES == l)
  }

  ghost predicate Small(r: Runner) {
    && (r.stream.stage.Granted? ==> |r.stream.stage.packet| <= MAX_PACKET)
    && (r.stream.stage.Waiting? ==> |r.stream.stage.packet| <= MAX_PACKET)
  }

  function Ceiling(streams: nat, timeouts: nat): nat {
    BUFFER_HIGH_WATERMARK + (streams + timeouts) * MAX_PACKET
  }

  /** What is buffered, plus what is about to be, stays under the ceiling. */
  ghost predicate UnderCeiling(c: Uploads, streams: nat) {
    && (forall k :: 0 <= k < |c.runners| ==> Small(c.runners[k]))
    && (forall l :: 0 <= l < LANES ==>
          c.n.buffered[l] + GrantedOn(c.runners, l) * MAX_PACKET < Ceiling(streams, c.n.timeouts))
  }

  lemma GrantsAreRunning(rs: seq<Runner>, l: nat)
    ensures GrantedOn(rs, l) <= Num(rs, IsRunning)
  {
    NumLe(rs, (r: Runner) => r.stream.stage.Granted? && r.stream.index % LANES == l, IsRunning);
  }

  lemma GrantMoves(rs: seq<Runner>, i: nat, r: Runner, l: nat)
    requires i < |rs|
    ensures var p := (x: Runner) => x.stream.stage.Granted? && x.stream.index % LANES == l;
            GrantedOn(rs[i := r], l) == GrantedOn(rs, l) - Tick(p(rs[i])) + Tick(p(r))
  {
    NumUpdate(rs, i, r, (x: Runner) => x.stream.stage.Granted? && x.stream.index % LANES == l);
  }

  lemma PacketIsSmall(job: Job, index: nat, iv: Bytes)
    requires TagOverhead(job.crypto) && PacketFor(job, index, iv).Some?
    ensures |PacketFor(job, index, iv).value| <= MAX_PACKET
  {
    var plain := Slice(job.file, index, CHUNK_SIZE);
    assert |plain| <= CHUNK_SIZE;
    assert |job.crypto.seal(job.key, plain, iv)| == |plain| + 16;
  }

  // ---- one run's step ----

  /** The step sends nothing: no grant, or a grant the ceiling has room for. */
  ghost predicate IsQuiet(st: Stream, st': Stream, n: Network, n': Network) {
    && n'.buffered == n.buffered && n'.timeouts >= n.timeouts
    && (st'.stage.Granted? ==> st'.index == st.index)
    && (st'.stage.Granted? && !st.stage.Granted? ==>
          n'.timeouts > n.timeouts || n.buffered[st'.index % LANES] < BUFFER_HIGH_WATERMARK)
  }

  /** The granted packet is sent. */
  ghost predicate IsSend(st: Stream, st': Stream, n: Network, n': Network) {
    && st.stage.Granted? && !st'.stage.Granted? && !st'.stage.Waiting? && n'.timeouts == n.timeouts
    && var lane := st.index % LANES;
       n'.buffered == n.buffered[lane := n.buffered[lane] + |st.stage.packet|]
  }

  lemma RunStep(job: Job, s: Sender, n: Network, e: SenderEvent)
    requires TagOverhead(job.crypto) && |s.streams| == 1 && IsStreamEvent(e) && Small(Runner(0, s.streams[0]))
    ensures var (s', n') := SenderStep(job, s, n, e);
            && |s'.streams| == 1 && Small(Runner(0, s'.streams[0]))
            && (IsQuiet(s.streams[0], s'.streams[0], n, n') || IsSend(s.streams[0], s'.streams[0], n, n'))
  {
    var st := s.streams[0];
    match e
    case LoopHead(_) =>
    case Seal(_, iv, laneOpen) =>
      if st.stage.Sealing? && |iv| == IV_BYTES && PacketFor(job, st.index, iv).Some? {
        PacketIsSmall(job, st.index, iv);
      }
    case LowEvent(_) =>
    case Timeout(_) =>
    case Transmit(_, sendOk) =>
    case Breaks(_) =>
  }

  lemma QuietKeeps(c: Uploads, i: nat, r: Runner, c': Uploads, streams: nat)
    requires UnderCeiling(c, streams) && i < |c.runners| && c'.runners == c.runners[i := r] && Small(r)
    requires IsQuiet(c.runners[i].stream, r.stream, c.n, c'.n) && Num(c'.runners, IsRunning) <= streams
    ensures UnderCeiling(c', streams)
  {
    forall l | 0 <= l < LANES
      ensures c'.n.buffered[l] + GrantedOn(c'.runners, l) * MAX_PACKET < Ceiling(streams, c'.n.timeouts)
    {
      GrantMoves(c.runners, i, r, l);
      GrantsAreRunning(c'.runners, l);
      assert GrantedOn(c'.runners, l) <= GrantedOn(c.runners, l) + 1;
    }
  }

  lemma SendKeeps(c: Uploads, i: nat, r: Runner, c': Uploads, streams: nat)
    requires UnderCeiling(c, streams) && i < |c.runners| && c'.runners == c.runners[i := r]
    requires Small(r) && IsSend(c.runners[i].stream, r.stream, c.n, c'.n)
    ensures UnderCeiling(c', streams)
  {
    forall l | 0 <= l < LANES
      ensures c'.n.buffered[l] + GrantedOn(c'.runners, l) * MAX_PACKET < Ceiling(streams, c'.n.timeouts)
    {
      GrantMoves(c.runners, i, r, l);
    }
  }

  lemma AdvanceKeeps(c: Uploads, i: nat, e: SenderEvent, streams: nat)
    requires UnderCeiling(c, streams) && i < |c.runners| && c.runners[i].upload < |c.all| && IsStreamEvent(e)
    requires TagOverhead(c.all[c.runners[i].upload].job.crypto)
    requires Num(AtAdvance(c, i, e).runners, IsRunning) <= streams
    ensures UnderCeiling(AtAdvance(c, i, e), streams)
  {
    var u, st := c.runners[i].upload, c.runners[i].stream;
    var (s', n') := SenderStep(c.all[u].job, SenderOf(c, u, [st]), c.n, e);
    RunStep(c.all[u].job, SenderOf(c, u, [st]), c.n, e);
    var r := Runner(u, s'.streams[0]);
    if IsQuiet(st, r.stream, c.n, n') {
      QuietKeeps(c, i, r, AtAdvance(c, i, e), streams);
    } else {
      SendKeeps(c, i, r, AtAdvance(c, i, e), streams);
    }
  }

  /** New runs have been granted nothing. */
  lemma UpdatedKeeps(c: Uploads, u: nat, s: Sender, n: Network, streams: nat)
    requires UnderCeiling(c, streams) && u < |c.all| && n.buffered == c.n.buffered && n.timeouts == c.n.timeouts
    requires s.streams == [] || (|s.streams| == 1 && s.streams[0].stage.Looping?)
    ensures UnderCeiling(Updated(c, u, s, n), streams)
  {
    var c' := Updated(c, u, s, n);
    if s.streams == [] {
      assert c'.runners == c.runners;
    } else {
      assert c'.runners == c.runners + [Runner(u, s.streams[0])];
      forall l | 0 <= l < LANES ensures GrantedOn(c'.runners, l) == GrantedOn(c.runners, l) {
        NumAppend(c.runners, Runner(u, s.streams[0]),
                  (x: Runner) => x.stream.stage.Granted? && x.stream.index % LANES == l);
      }
    }
  }

  // ---- every run ----

  /** AES-GCM seals for every transfer. */
  ghost predicate Sealed(es: seq<Event>) {
    forall k :: 0 <= k < |es| && es[k].NewUpload? ==> TagOverhead(es[k].job.crypto)
  }

  ghost predicate AllSealed(c: Uploads) {
    forall u :: 0 <= u < |c.all| ==> TagOverhead(c.all[u].job.crypto)
  }

  /** At no point of the run do more than `streams` runs of `streamOutgoing`, of whatever transfers, overlap. */
  ghost predicate FewStreams(es: seq<Event>, streams: nat) {
    && Num(Run(es).runners, IsRunning) <= streams
    && (es == [] || FewStreams(es[..|es| - 1], streams))
  }

  lemma StepSealed(c: Uploads, e: Event)
    requires AllSealed(c) && (e.NewUpload? ==> TagOverhead(e.job.crypto))
    ensures AllSealed(Step(c, e))
  {
  }

  lemma CommandKeeps(c: Uploads, u: nat, e: SenderEvent, streams: nat)
    requires UnderCeiling(c, streams) && u < |c.all| && (e.PauseHere? || e.ResumeHere? || e.CancelHere?)
    ensures UnderCeiling(AtCommand(c, u, e), streams)
  {
    var (s, n) := SenderStep(c.all[u].job, SenderOf(c, u, []), c.n, e);
    UpdatedKeeps(c, u, s, n, streams);
  }

  /** The network only drains, and other packets on the lanes are not this coordinator's. */
  lemma FlowKeeps(c: Uploads, flow: NetworkEvent, streams: nat)
    requires UnderCeiling(c, streams)
    ensures UnderCeiling(c.(n := NetworkStep(c.n, flow)), streams)
  {
    var n' := NetworkStep(c.n, flow);
    assert n'.timeouts == c.n.timeouts && forall l :: 0 <= l < LANES ==> n'.buffered[l] <= c.n.buffered[l];
  }

  lemma StepStaysUnder(c: Uploads, e: Event, streams: nat)
    requires AllSealed(c) && UnderCeiling(c, streams) && Num(Step(c, e).runners, IsRunning) <= streams
    ensures UnderCeiling(Step(c, e), streams)
  {
    match e
    case NewUpload(_) =>
    case Advance(i, se) =>
      if i < |c.runners| && c.runners[i].upload < |c.all| && IsStreamEvent(se) {
        AdvanceKeeps(c, i, se, streams);
      }
    case Command(u, se) =>
      if u < |c.all| && (se.PauseHere? || se.ResumeHere? || se.CancelHere?) {
        CommandKeeps(c, u, se, streams);
      }
    case Hears(u, msg) =>
      if u < |c.all| {
        UpdatedKeeps(c, u, AtHear(SenderOf(c, u, []), msg), c.n, streams);
      }
    case Flow(flow) => FlowKeeps(c, flow, streams);
  }

  lemma {:induction false} RunStaysUnder(es: seq<Event>, streams: nat)
    requires Sealed(es) && FewStreams(es, streams)
    ensures UnderCeiling(Run(es), streams) && AllSealed(Run(es))
  {
    if es != [] {
      RunStaysUnder(es[..|es| - 1], streams);
      StepStaysUnder(Run(es[..|es| - 1]), es[|es| - 1], streams);
      StepSealed(Run(es[..|es| - 1]), es[|es| - 1]);
    }
  }

  /** Backpressure bound: while at most `streams` runs of `streamOutgoing`, over all transfers of the coordinator,
      overlap, the buffered amount of every lane stays below 1 MiB plus one largest packet for each of them and for each
      wait that timed out. */
  lemma BufferedAmountBound(es: seq<Event>, streams: nat, l: nat)
    requires Sealed(es) && l < LANES && FewStreams(es, streams)
    ensures Run(es).n.buffered[l] < 1024 * 1024 + (streams + Run(es).n.timeouts) * 65605
  {
    RunStaysUnder(es, streams);
    assert GrantedOn(Run(es).runners, l) * MAX_PACKET >= 0;
  }
}
