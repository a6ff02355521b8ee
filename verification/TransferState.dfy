/** The records of one file transfer and what each uninterrupted piece of the coordinator does to them. */
module TransferState {
  import opened Wrappers
  import opened Slicing
  import opened PacketCodec
  import opened ChunkStore

  const CHUNK_SIZE := 64 * 1024
  const BUFFER_HIGH_WATERMARK := 1024 * 1024
  const BUFFER_LOW_WATERMARK := 64 * 1024
  const LANES := 4

  /** The foreign cryptography: AES-GCM sealing and opening, and the digest of a whole file. */
  datatype Crypto = Crypto(seal: (Bytes, Bytes, Bytes) -> Bytes,
                           open: (Bytes, Bytes, Bytes) -> Option<Bytes>,
                           digest: Bytes -> Bytes)

  /** Opening undoes sealing (section 7 of NIST SP 800-38D). */
  ghost predicate Authentic(c: Crypto) {
    forall key: Bytes, plain: Bytes, iv: Bytes :: c.open(key, c.seal(key, plain, iv), iv) == Some(plain)
  }

  /** A 16-byte tag is all that sealing adds. */
  ghost predicate TagOverhead(c: Crypto) {
    forall key: Bytes, plain: Bytes, iv: Bytes :: |c.seal(key, plain, iv)| == |plain| + 16
  }

  /** `OutgoingTransferState` without its constant file and key. */
  datatype Outgoing = Outgoing(paused: bool, cancelled: bool, lastSentIndex: SentIndex)

  type SentIndex = i: int | -1 <= i witness -1

  /** `IncomingTransferState`; `key`, `hash` and `total` come from the metadata message. */
  datatype Incoming = Incoming(key: Bytes, hash: Bytes, total: nat, paused: bool, cancelled: bool,
                               count: nat, received: set<nat>, contiguous: nat)

  datatype Control =
    | Accept
    | Pause
    | ResumeFrom(start: nat)
    | Cancel

  function NewOutgoing(): Outgoing {
    Outgoing(false, false, -1)
  }

  function NewIncoming(key: Bytes, hash: Bytes, sizeBytes: nat): Incoming {
    Incoming(key, hash, SliceCount(sizeBytes, CHUNK_SIZE), false, false, 0, {}, 0)
  }

  /** What a control message does to the outgoing side. */
  function SenderHears(out: Outgoing, msg: Control): Outgoing {
    match msg
    case Accept => out
    case Pause => out.(paused := true)
    case ResumeFrom(_) => out.(paused := false)
    case Cancel => out.(cancelled := true)
  }

  /** What a control message does to the incoming side: a resume from the sender changes nothing here. */
  function ReceiverHears(inc: Incoming, msg: Control): Incoming {
    match msg
    case Accept => inc
    case Pause => inc.(paused := true)
    case ResumeFrom(_) => inc
    case Cancel => inc.(cancelled := true)
  }

  /** The least index at or after `from` that has not been received. */
  function FirstMissing(received: set<nat>, from: nat): (r: nat)
    ensures from <= r && r !in received
    ensures forall i :: from <= i < r ==> i in received
    decreases AtLeast(received, from)
  {
    if from !in received then from
    else
      assert AtLeast(received, from) == AtLeast(received, from + 1) + {from};
      FirstMissing(received, from + 1)
  }

  function AtLeast(received: set<nat>, from: nat): set<nat> {
    set i | i in received && from <= i
  }

  predicate Admissible(inc: Incoming, index: nat) {
    !inc.paused && !inc.cancelled && index !in inc.received
  }

  /** Before its first await a data handler only marks the index as received. */
  function Admit(inc: Incoming, index: nat): Incoming {
    inc.(received := inc.received + {index})
  }

  /** After the save it counts the chunk and moves the resume pointer over what is received. */
  function AfterSave(inc: Incoming): Incoming {
    inc.(count := inc.count + 1, contiguous := FirstMissing(inc.received, inc.contiguous))
  }

  function RowOf(c: Chunk): Row {
    Row(c.id, c.index, c.iv + c.payload)
  }

  function OpenRow(c: Crypto, key: Bytes, row: Row): Option<Bytes> {
    var cut := Min(IV_BYTES, |row.data|);
    c.open(key, row.data[cut..], row.data[..cut])
  }

  function OpenAll(c: Crypto, key: Bytes, rows: seq<Row>): (r: Option<seq<Bytes>>)
    ensures r.Some? ==> |r.value| == |rows|
  {
    if rows == [] then Some([])
    else
      match OpenAll(c, key, rows[..|rows| - 1])
      case None => None
      case Some(parts) =>
        match OpenRow(c, key, rows[|rows| - 1])
        case None => None
        case Some(part) => Some(parts + [part])
  }

  /** The outcome of reassembly on the fetched rows; None stands for each of its three thrown errors. */
  function Assemble(c: Crypto, inc: Incoming, rows: seq<Row>): Option<Bytes> {
    if |rows| != inc.total then None
    else
      match OpenAll(c, inc.key, rows)
      case None => None
      case Some(parts) => if c.digest(Concat(parts)) != inc.hash then None else Some(Concat(parts))
  }

  lemma {:induction false} OpenAllPrefix(c: Crypto, key: Bytes, rows: seq<Row>, n: nat)
    requires n <= |rows| && OpenAll(c, key, rows[..n]).None?
    ensures OpenAll(c, key, rows).None?
    decreases |rows|
  {
    if n < |rows| {
      assert rows[..|rows| - 1][..n] == rows[..n];
      OpenAllPrefix(c, key, rows[..|rows| - 1], n);
    } else {
      assert rows[..n] == rows;
    }
  }

  /** Opening all rows opens each of them, in order. */
  lemma {:induction false} OpenAllEach(c: Crypto, key: Bytes, rows: seq<Row>)
    ensures OpenAll(c, key, rows).Some? <==> forall i :: 0 <= i < |rows| ==> OpenRow(c, key, rows[i]).Some?
    ensures OpenAll(c, key, rows).Some? ==>
              forall i :: 0 <= i < |rows| ==> OpenRow(c, key, rows[i]) == Some(OpenAll(c, key, rows).value[i])
  {
    if rows != [] {
      var n := |rows| - 1;
      OpenAllEach(c, key, rows[..n]);
      if forall i :: 0 <= i < |rows| ==> OpenRow(c, key, rows[i]).Some? {
        forall i | 0 <= i < n ensures OpenRow(c, key, rows[..n][i]).Some? {
          assert rows[i] == rows[..n][i];
        }
      }
      if OpenAll(c, key, rows).Some? {
        forall i | 0 <= i < |rows| ensures OpenRow(c, key, rows[i]) == Some(OpenAll(c, key, rows).value[i]) {
          if i < n {
            assert rows[i] == rows[..n][i];
          }
        }
      }
    }
  }
}
