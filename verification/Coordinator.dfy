/** The coordinator's objects, updated in place. Each method is one uninterrupted piece of code between two awaits. */
module Coordinator {
  import opened Wrappers
  import opened Slicing
  import opened PacketCodec
  import opened ChunkStore
  import opened TransferState

  class OutgoingTransfer {
    var paused: bool
    var cancelled: bool
    var lastSentIndex: SentIndex

    constructor ()
      ensures View() == NewOutgoing()
    {
      paused, cancelled, lastSentIndex := false, false, -1;
    }

    function View(): Outgoing
      reads this
    {
      Outgoing(paused, cancelled, lastSentIndex)
    }
  }

  class IncomingTransfer {
    const key: Bytes
    const hash: Bytes
    const totalChunks: nat
    var paused: bool
    var cancelled: bool
    var chunksReceivedCount: nat
    var receivedChunks: set<nat>
    var contiguousIndex: nat

    constructor (key: Bytes, hash: Bytes, sizeBytes: nat)
      ensures View() == NewIncoming(key, hash, sizeBytes)
    {
      this.key, this.hash, totalChunks := key, hash, SliceCount(sizeBytes, CHUNK_SIZE);
      paused, cancelled := false, false;
      chunksReceivedCount, receivedChunks, contiguousIndex := 0, {}, 0;
    }

    function View(): Incoming
      reads this
    {
      Incoming(key, hash, totalChunks, paused, cancelled, chunksReceivedCount, receivedChunks, contiguousIndex)
    }

    /** What a data handler does when its save has resolved, whether or not the row was stored. */
    method ChunkSaved()
      modifies this
      ensures View() == AfterSave(old(View()))
      ensures chunksReceivedCount == old(chunksReceivedCount) + 1 && receivedChunks == old(receivedChunks)
      ensures contiguousIndex !in receivedChunks && contiguousIndex >= old(contiguousIndex)
      ensures forall i :: old(contiguousIndex) <= i < contiguousIndex ==> i in receivedChunks
      ensures paused == old(paused) && cancelled == old(cancelled)
    {
      chunksReceivedCount := chunksReceivedCount + 1;
      ghost var start := contiguousIndex;
      while contiguousIndex in receivedChunks
        invariant start <= contiguousIndex
        invariant FirstMissing(receivedChunks, contiguousIndex) == FirstMissing(receivedChunks, start)
        invariant View() == old(View()).(count := old(chunksReceivedCount) + 1, contiguous := contiguousIndex)
        decreases AtLeast(receivedChunks, contiguousIndex)
      {
        assert AtLeast(receivedChunks, contiguousIndex)
            == AtLeast(receivedChunks, contiguousIndex + 1) + {contiguousIndex};
        contiguousIndex := contiguousIndex + 1;
      }
    }
  }

  /** `FileTransferCoordinator`. `sent` records what was handed to an open control channel. */
  class FileTransferCoordinator {
    var activeOutgoing: map<Bytes, OutgoingTransfer>
    var activeIncoming: map<Bytes, IncomingTransfer>
    var controlOpen: bool
    var sent: seq<(Bytes, Control)>

    constructor ()
      ensures activeOutgoing == map[] && activeIncoming == map[] && sent == [] && controlOpen
    {
      activeOutgoing, activeIncoming := map[], map[];
      controlOpen, sent := true, [];
    }

    method SendControl(id: Bytes, msg: Control)
      modifies this`sent
      ensures sent == if controlOpen then old(sent) + [(id, msg)] else old(sent)
    {
      if controlOpen {
        sent := sent + [(id, msg)];
      }
    }

    /** The synchronous head of a data handler: the row to save, or None when the packet is ignored. */
    method HandleDataMessage(data: Bytes) returns (row: Option<Row>)
      modifies activeIncoming.Values
      ensures row.Some? <==> && Decode(data).Some? && Decode(data).value.id in activeIncoming
                             && Admissible(old(activeIncoming[Decode(data).value.id].View()), Decode(data).value.index)
      ensures row.Some? <==> && Decode(data).Some? && Decode(data).value.id in activeIncoming
                             && var inc := activeIncoming[Decode(data).value.id];
                                && !inc.paused && !inc.cancelled && Decode(data).value.index !in old(inc.receivedChunks)
      ensures row.Some? ==> var c, inc := Decode(data).value, activeIncoming[Decode(data).value.id];
                            && row.value.id == c.id && row.value.index == c.index && row.value.data == c.iv + c.payload
                            && inc.receivedChunks == old(inc.receivedChunks) + {c.index}
                            && inc.chunksReceivedCount == old(inc.chunksReceivedCount)
                            && inc.contiguousIndex == old(inc.contiguousIndex)
      ensures row.Some? ==> && row.value == RowOf(Decode(data).value)
                            && activeIncoming[row.value.id].View()
                                 == Admit(old(activeIncoming[row.value.id].View()), row.value.index)
      ensures forall inc :: inc in activeIncoming.Values && (row.None? || inc != activeIncoming[row.value.id]) ==>
              unchanged(inc)
    {
      var chunk := Decode(data);
      if chunk.None? || chunk.value.id !in activeIncoming {
        return None;
      }
      var incoming := activeIncoming[chunk.value.id];
      if incoming.paused || incoming.cancelled || chunk.value.index in incoming.receivedChunks {
        return None;
      }
      incoming.receivedChunks := incoming.receivedChunks + {chunk.value.index};
      return Some(RowOf(chunk.value));
    }

    /** The completion test of a data handler: exactly the handlers that see a full count go on to reassemble. */
    method CheckComplete(id: Bytes, incoming: IncomingTransfer) returns (reassemble: bool)
      modifies this`activeIncoming
      ensures reassemble <==> incoming.View().count >= incoming.View().total
      ensures activeIncoming == if reassemble then old(activeIncoming) - {id} else old(activeIncoming)
    {
      reassemble := incoming.chunksReceivedCount >= incoming.totalChunks;
      if reassemble {
        activeIncoming := activeIncoming - {id};
      }
    }

    /** Decrypts the fetched rows one by one, joins them and checks the digest. */
    method ReassembleFile(c: Crypto, incoming: IncomingTransfer, chunks: seq<Row>) returns (blob: Option<Bytes>)
      ensures blob == Assemble(c, incoming.View(), chunks)
    {
      if |chunks| != incoming.totalChunks {
        return None;
      }
      var decryptedBuffers: seq<Bytes> := [];
      for i := 0 to |chunks|
        invariant OpenAll(c, incoming.key, chunks[..i]) == Some(decryptedBuffers)
      {
        var decrypted := OpenRow(c, incoming.key, chunks[i]);
        assert chunks[..i + 1][..i] == chunks[..i];
        if decrypted.None? {
          OpenAllPrefix(c, incoming.key, chunks, i + 1);
          return None;
        }
        decryptedBuffers := decryptedBuffers + [decrypted.value];
      }
      assert chunks[..|chunks|] == chunks;
      var whole := Concat(decryptedBuffers);
      return if c.digest(whole) != incoming.hash then None else Some(whole);
    }

    method AcceptTransfer(id: Bytes)
      modifies this`sent
      ensures sent == if id in activeIncoming && controlOpen then old(sent) + [(id, Accept)] else old(sent)
    {
      if id in activeIncoming {
        SendControl(id, Accept);
      }
    }

    /** Pausing marks both directions of the transfer and tells the peer once per direction. */
    method PauseTransfer(id: Bytes)
      modifies this`sent, activeOutgoing.Values, activeIncoming.Values
      ensures id in activeOutgoing ==> activeOutgoing[id].View() == old(activeOutgoing[id].View()).(paused := true)
      ensures id in activeIncoming ==> activeIncoming[id].View() == old(activeIncoming[id].View()).(paused := true)
      ensures forall o :: o in activeOutgoing.Values && (id in activeOutgoing ==> o != activeOutgoing[id]) ==>
              unchanged(o)
      ensures forall o :: o in activeIncoming.Values && (id in activeIncoming ==> o != activeIncoming[id]) ==>
              unchanged(o)
      ensures sent == old(sent) + (if id in activeOutgoing && controlOpen then [(id, Pause)] else [])
                                + (if id in activeIncoming && controlOpen then [(id, Pause)] else [])
    {
      if id in activeOutgoing {
        activeOutgoing[id].paused := true;
        SendControl(id, Pause);
      }
      if id in activeIncoming {
        activeIncoming[id].paused := true;
        SendControl(id, Pause);
      }
    }

    /** Resuming: a paused outgoing transfer restarts a stream here; a paused incoming one asks for its first missing
        chunk. */
    method ResumeTransfer(id: Bytes) returns (stream: Option<nat>)
      modifies this`sent, activeOutgoing.Values, activeIncoming.Values
      ensures stream == if id in activeOutgoing && old(activeOutgoing[id].paused)
                        then Some(old(activeOutgoing[id].lastSentIndex) + 1) else None
      ensures id in activeOutgoing ==> activeOutgoing[id].View() == old(activeOutgoing[id].View()).(paused := false)
      ensures id in activeIncoming ==> activeIncoming[id].View() == old(activeIncoming[id].View()).(paused := false)
      ensures forall o :: o in activeOutgoing.Values && (id in activeOutgoing ==> o != activeOutgoing[id]) ==>
              unchanged(o)
      ensures forall o :: o in activeIncoming.Values && (id in activeIncoming ==> o != activeIncoming[id]) ==>
              unchanged(o)
      ensures sent == old(sent)
                      + (if stream.Some? && controlOpen then [(id, ResumeFrom(stream.value))] else [])
                      + (if id in activeIncoming && old(activeIncoming[id].paused) && controlOpen
                         then [(id, ResumeFrom(activeIncoming[id].contiguousIndex))] else [])
    {
      stream := None;
      if id in activeOutgoing && activeOutgoing[id].paused {
        activeOutgoing[id].paused := false;
        SendControl(id, ResumeFrom(activeOutgoing[id].lastSentIndex + 1));
        stream := Some(activeOutgoing[id].lastSentIndex + 1);
      }
      if id in activeIncoming && activeIncoming[id].paused {
        activeIncoming[id].paused := false;
        SendControl(id, ResumeFrom(activeIncoming[id].contiguousIndex));
      }
    }

    /** The outgoing part of a cancellation, up to its first await. */
    method CancelOutgoing(id: Bytes)
      modifies this`activeOutgoing, this`sent, activeOutgoing.Values
      ensures activeOutgoing == old(activeOutgoing) - {id}
      ensures id in old(activeOutgoing) ==>
              old(activeOutgoing)[id].View() == old(activeOutgoing[id].View()).(cancelled := true)
      ensures var was := old(activeOutgoing);
              forall o :: o in was.Values && (id in was ==> o != was[id]) ==> unchanged(o)
      ensures sent == old(sent) + (if id in old(activeOutgoing) && controlOpen then [(id, Cancel)] else [])
    {
      if id in activeOutgoing {
        activeOutgoing[id].cancelled := true;
        activeOutgoing := activeOutgoing - {id};
        SendControl(id, Cancel);
      }
    }

    /** The incoming part, which comes after those awaits, up to the clearing of the stored chunks that `clear` asks
        for. */
    method CancelIncoming(id: Bytes) returns (clear: bool)
      modifies this`activeIncoming, this`sent, activeIncoming.Values
      ensures clear <==> id in old(activeIncoming)
      ensures activeIncoming == old(activeIncoming) - {id}
      ensures id in old(activeIncoming) ==>
              old(activeIncoming)[id].View() == old(activeIncoming[id].View()).(cancelled := true)
      ensures var was := old(activeIncoming);
              forall o :: o in was.Values && (id in was ==> o != was[id]) ==> unchanged(o)
      ensures sent == old(sent) + (if id in old(activeIncoming) && controlOpen then [(id, Cancel)] else [])
    {
      clear := id in activeIncoming;
      if clear {
        activeIncoming[id].cancelled := true;
        activeIncoming := activeIncoming - {id};
        SendControl(id, Cancel);
      }
    }

    /** Both parts with nothing in between: as when the transfer is not outgoing, which leaves out the awaits, or when
        nothing else touches it meanwhile. */
    method CancelTransfer(id: Bytes) returns (clear: bool)
      modifies this, activeOutgoing.Values, activeIncoming.Values
      ensures clear <==> id in old(activeIncoming)
      ensures activeOutgoing == old(activeOutgoing) - {id} && activeIncoming == old(activeIncoming) - {id}
      ensures id in old(activeOutgoing) ==>
              old(activeOutgoing)[id].View() == old(activeOutgoing[id].View()).(cancelled := true)
      ensures id in old(activeIncoming) ==>
              old(activeIncoming)[id].View() == old(activeIncoming[id].View()).(cancelled := true)
      ensures var was := old(activeOutgoing);
              forall o :: o in was.Values && (id in was ==> o != was[id]) ==> unchanged(o)
      ensures var was := old(activeIncoming);
              forall o :: o in was.Values && (id in was ==> o != was[id]) ==> unchanged(o)
      ensures controlOpen == old(controlOpen)
      ensures sent == old(sent) + (if id in old(activeOutgoing) && controlOpen then [(id, Cancel)] else [])
                                + (if id in old(activeIncoming) && controlOpen then [(id, Cancel)] else [])
    {
      CancelOutgoing(id);
      clear := CancelIncoming(id);
    }

    /** A control message from the peer. `stream` is the start index of the stream it sets off, if any; `failed` says
        whether onFailed is called for an outgoing transfer, `clear` whether stored chunks are to be cleared and
        onFailed then called for an incoming one. */
    method HandleControlMessage(id: Bytes, msg: Control) returns (stream: Option<nat>, failed: bool, clear: bool)
      modifies this`activeOutgoing, this`activeIncoming, activeOutgoing.Values, activeIncoming.Values
      ensures stream == if id !in old(activeOutgoing) then None
                        else match msg { case Accept => Some(0) case ResumeFrom(start) => Some(start) case _ => None }
      ensures id in old(activeOutgoing) ==>
                var out := old(activeOutgoing)[id];
                && out.cancelled == (old(out.cancelled) || msg == Cancel)
                && out.paused == (if msg == Pause then true else if msg.ResumeFrom? then false else old(out.paused))
                && out.lastSentIndex == old(out.lastSentIndex)
      ensures id in old(activeIncoming) ==>
                var inc := old(activeIncoming)[id];
                && inc.cancelled == (old(inc.cancelled) || msg == Cancel)
                && inc.paused == (old(inc.paused) || msg == Pause)
                && inc.receivedChunks == old(inc.receivedChunks) && inc.contiguousIndex == old(inc.contiguousIndex)
                && inc.chunksReceivedCount == old(inc.chunksReceivedCount)
      ensures failed == (msg == Cancel && id in old(activeOutgoing))
              && clear == (msg == Cancel && id in old(activeIncoming))
      ensures id in old(activeOutgoing) ==>
                old(activeOutgoing)[id].View() == SenderHears(old(activeOutgoing[id].View()), msg)
      ensures id in old(activeIncoming) ==>
                old(activeIncoming)[id].View() == ReceiverHears(old(activeIncoming[id].View()), msg)
      ensures var was := old(activeOutgoing);
              forall o :: o in was.Values && (id in was ==> o != was[id]) ==> unchanged(o)
      ensures var was := old(activeIncoming);
              forall o :: o in was.Values && (id in was ==> o != was[id]) ==> unchanged(o)
      ensures activeOutgoing == if msg == Cancel then old(activeOutgoing) - {id} else old(activeOutgoing)
      ensures activeIncoming == if msg == Cancel then old(activeIncoming) - {id} else old(activeIncoming)
    {
      stream, failed, clear := None, false, false;
      match msg
      case Accept =>
        if id in activeOutgoing {
          stream := Some(0);
        }
      case Pause =>
        if id in activeOutgoing {
          activeOutgoing[id].paused := true;
        }
        if id in activeIncoming {
          activeIncoming[id].paused := true;
        }
      case ResumeFrom(start) =>
        if id in activeOutgoing {
          activeOutgoing[id].paused := false;
          stream := Some(start);
        }
      case Cancel =>
        if id in activeOutgoing {
          activeOutgoing[id].cancelled := true;
          activeOutgoing := activeOutgoing - {id};
          failed := true;
        }
        if id in activeIncoming {
          activeIncoming[id].cancelled := true;
          activeIncoming := activeIncoming - {id};
          clear := true;
        }
    }
  }
}
