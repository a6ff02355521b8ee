/** `streamOutgoing` and `waitForDrain` as an object: one method for each uninterrupted piece between two awaits. */
module StreamRunner {
  import opened Wrappers
  import opened Slicing
  import opened PacketCodec
  import opened TransferState
  import opened TransferModel
  import opened Coordinator

  /** A WebRTC data channel: `lane` is what is on its way, `bufferedAmount` the bytes not yet handed to the network. */
  class DataChannel {
    var isOpen: bool
    var lane: seq<Bytes>
    var bufferedAmount: nat

    constructor ()
      ensures isOpen && lane == [] && bufferedAmount == 0
    {
      isOpen, lane, bufferedAmount := true, [], 0;
    }

    /** `accepts`: the browser takes the packet; otherwise `send` throws. */
    method Send(packet: Bytes, accepts: bool)
      modifies this`lane, this`bufferedAmount
      ensures lane == if accepts then old(lane) + [packet] else old(lane)
      ensures bufferedAmount == if accepts then old(bufferedAmount) + |packet| else old(bufferedAmount)
    {
      if accepts {
        lane := lane + [packet];
        bufferedAmount := bufferedAmount + |packet|;
      }
    }
  }

  /** What becomes of the transfer's entry in `activeOutgoing`. */
  datatype Entry = Kept | Deleted

  /** One run of the stream over the four channels. */
  class StreamRun {
    const job: Job
    const outgoing: OutgoingTransfer
    const channels: seq<DataChannel>
    var index: nat
    var stage: Stage

    predicate Valid() {
      |channels| == LANES && forall k, l :: 0 <= k < l < LANES ==> channels[k] != channels[l]
    }

    constructor (job: Job, outgoing: OutgoingTransfer, channels: seq<DataChannel>, start: nat)
      requires |channels| == LANES && forall k, l :: 0 <= k < l < LANES ==> channels[k] != channels[l]
      ensures Valid() && View() == Stream(start, Looping)
      ensures this.job == job && this.outgoing == outgoing && this.channels == channels
    {
      this.job, this.outgoing, this.channels := job, outgoing, channels;
      index, stage := start, Looping;
    }

    function View(): Stream
      reads this
    {
      Stream(index, stage)
    }

    /** The sender as far as this run knows it: it is `live` while the entry is kept. */
    function SenderView(entry: Entry): Sender
      reads this, outgoing
    {
      Sender(outgoing.View(), entry.Kept?, [View()])
    }

    function Lanes(): seq<seq<Bytes>>
      reads channels
    {
      seq(|channels|, l requires 0 <= l < |channels| reads channels => channels[l].lane)
    }

    function Buffered(): seq<nat>
      reads channels
    {
      seq(|channels|, l requires 0 <= l < |channels| reads channels => channels[l].bufferedAmount)
    }

    /** The network with this run's channels in it; what else it holds is `rest`. */
    function NetworkView(rest: Network): Network
      reads channels
      requires Valid()
    {
      rest.(lanes := Lanes(), buffered := Buffered())
    }

    method LoopHead() returns (entry: Entry)
      requires Valid() && stage.Looping?
      modifies this`stage
      ensures SenderView(entry) == AtLoopHead(job, old(SenderView(Kept)), 0)
      ensures entry == Deleted <==> index * 65536 >= |job.file|
      ensures stage == if index * 65536 >= |job.file| || outgoing.paused || outgoing.cancelled then Ended else Sealing
    {
      SliceCountBounds(|job.file|, CHUNK_SIZE, index);
      entry := Kept;
      if index >= SliceCount(|job.file|, CHUNK_SIZE) {
        stage, entry := Ended, Deleted;
      } else if outgoing.paused || outgoing.cancelled {
        stage := Ended;
      } else {
        stage := Sealing;
      }
    }

    /** Slice, seal, serialise; then either straight on or into `waitForDrain`. */
    method Seal(iv: Bytes) returns (entry: Entry)
      requires Valid() && stage.Sealing? && |iv| == IV_BYTES
      modifies this`stage
      ensures var dc, sealed := channels[index % 4], job.crypto.seal(job.key, Slice(job.file, index, CHUNK_SIZE), iv);
              match Encode(job.id, index, iv, sealed)
              case None => stage == Ended && entry == Deleted
              case Some(packet) =>
                if !dc.isOpen then stage == Ended && entry == Deleted
                else entry == Kept && stage == if dc.bufferedAmount < 1048576 then Granted(packet) else Waiting(packet)
      ensures forall rest: Network ::
        SenderView(entry) == AtSeal(job, old(SenderView(Kept)), NetworkView(rest), 0, iv,
            channels[index % LANES].isOpen)
    {
      entry := Kept;
      var plain := Slice(job.file, index, CHUNK_SIZE);
      var packet := Encode(job.id, index, iv, job.crypto.seal(job.key, plain, iv));
      var dc := channels[index % LANES];
      if packet.None? || !dc.isOpen {
        stage, entry := Ended, Deleted;
      } else if dc.bufferedAmount < BUFFER_HIGH_WATERMARK {
        stage := Granted(packet.value);
      } else {
        stage := Waiting(packet.value);
      }
    }

    /** `dc.send(packet)` on the packet's channel. */
    method SendOn(lane: nat, packet: Bytes, accepts: bool, ghost rest: Network)
      requires Valid() && lane < LANES
      modifies channels[lane]
      ensures channels[lane].lane == if accepts then old(channels[lane].lane) + [packet] else old(channels[lane].lane)
      ensures channels[lane].bufferedAmount == old(channels[lane].bufferedAmount) + if accepts then |packet| else 0
      ensures var n := old(NetworkView(rest));
        NetworkView(rest) == if accepts then n.(lanes := n.lanes[lane := n.lanes[lane] + [packet]],
                                                buffered := n.buffered[lane := n.buffered[lane] + |packet|]) else n
    {
      ghost var lanes, buffered := Lanes(), Buffered();
      channels[lane].Send(packet, accepts);
      if accepts {
        assert Lanes() == lanes[lane := lanes[lane] + [packet]];
        assert Buffered() == buffered[lane := buffered[lane] + |packet|];
      } else {
        assert Lanes() == lanes && Buffered() == buffered;
      }
    }

    /** After the wait: the state is looked at again, and the packet sent. */
    method Transmit(accepts: bool, ghost rest: Network) returns (entry: Entry)
      requires Valid() && stage.Granted?
      modifies this, outgoing`lastSentIndex, channels
      ensures SenderView(entry) == AtTransmit(old(SenderView(Kept)), old(NetworkView(rest)), 0, accepts).0
      ensures forall l :: 0 <= l < LANES && (l != old(index) % 4 || stage == Ended) ==>
                channels[l].lane == old(channels[l].lane)
                    && channels[l].bufferedAmount == old(channels[l].bufferedAmount)
      ensures old(outgoing.paused || outgoing.cancelled) ==>
                && stage == Ended && index == old(index) && entry == Kept
                && outgoing.lastSentIndex == old(outgoing.lastSentIndex)
      ensures !old(outgoing.paused || outgoing.cancelled) && !accepts ==>
                stage == Ended && entry == Deleted && outgoing.lastSentIndex == old(outgoing.lastSentIndex)
      ensures !old(outgoing.paused || outgoing.cancelled) && accepts ==>
                var dc, packet := channels[old(index) % 4], old(stage).packet;
                && dc.lane == old(channels[index % 4].lane) + [packet]
                && dc.bufferedAmount == old(channels[index % 4].bufferedAmount) + |packet|
                && outgoing.lastSentIndex == old(index) && index == old(index) + 1 && stage == Looping && entry == Kept
      ensures outgoing.paused == old(outgoing.paused) && outgoing.cancelled == old(outgoing.cancelled)
      ensures NetworkView(rest) == AtTransmit(old(SenderView(Kept)), old(NetworkView(rest)), 0, accepts).1
    {
      entry := Kept;
      var packet := stage.packet;
      if outgoing.paused || outgoing.cancelled {
        stage := Ended;
        SameChannels(rest);
        return;
      }
      SendOn(index % LANES, packet, accepts, rest);
      label sent:
      if !accepts {
        stage, entry := Ended, Deleted;
      } else {
        outgoing.lastSentIndex := index;
        index, stage := index + 1, Looping;
      }
      SameChannels@sent(rest);
    }

    twostate lemma SameChannels(rest: Network)
      requires Valid() && forall k :: 0 <= k < LANES ==> unchanged(channels[k])
      ensures NetworkView(rest) == old(NetworkView(rest))
    {
      assert Lanes() == old(Lanes()) && Buffered() == old(Buffered());
    }
  }
}
