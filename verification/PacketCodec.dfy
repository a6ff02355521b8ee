/** The wire format of one file chunk: a 53-byte header (type, 36-byte id, big-endian index, 12-byte IV), then the
    ciphertext. */
module PacketCodec {
  import opened Wrappers
  import opened Slicing

  const ID_BYTES := 36
  const IV_BYTES := 12
  const HEADER_BYTES := 1 + 36 + 4 + 12
  const FILE_CHUNK: byte := 0x01
  const U32_LIMIT := 0x1_0000_0000

  datatype Chunk = Chunk(id: Bytes, index: nat, iv: Bytes, payload: Bytes)

  /** `DataView.setUint32(.., false)`: big endian, reduced modulo 2^32. */
  function ToU32(i: nat): (b: Bytes)
    ensures |b| == 4
  {
    [i / 0x100_0000 % 256, i / 0x1_0000 % 256, i / 0x100 % 256, i % 256]
  }

  /** `DataView.getUint32(.., false)`. */
  function FromU32(b: Bytes): (i: nat)
    requires |b| == 4
  {
    b[0] as int * 0x100_0000 + b[1] as int * 0x1_0000 + b[2] as int * 0x100 + b[3] as int
  }

  /** Dividing by 256 time and again is dividing by its powers. */
  lemma Quotients(d: nat, r3: nat, r2: nat, r1: nat, r0: nat)
    requires r3 < 256 && r2 < 256 && r1 < 256 && r0 < 256
    ensures var i := d * U32_LIMIT + r3 * 0x100_0000 + r2 * 0x1_0000 + r1 * 0x100 + r0;
      i / 0x100 == d * 0x100_0000 + r3 * 0x1_0000 + r2 * 0x100 + r1 && i / 0x1_0000 == d * 0x1_0000 + r3 * 0x100 + r2
      && i / 0x100_0000 == d * 0x100 + r3
      && i % U32_LIMIT == r3 * 0x100_0000 + r2 * 0x1_0000 + r1 * 0x100 + r0
  {
  }

  lemma U32RoundTrip(i: nat)
    ensures FromU32(ToU32(i)) == i % U32_LIMIT
  {
    var a := i / 256;
    var b := a / 256;
    var c := b / 256;
    Quotients(c / 256, c % 256, b % 256, a % 256, i % 256);
    assert i == (c / 256) * U32_LIMIT + c % 256 * 0x100_0000 + b % 256 * 0x1_0000 + a % 256 * 0x100 + i % 256;
  }

  lemma U32Onto(b: Bytes)
    requires |b| == 4
    ensures FromU32(b) < U32_LIMIT && ToU32(FromU32(b)) == b
  {
    var i := FromU32(b);
    assert i / 0x100 == b[0] as int * 0x1_0000 + b[1] as int * 0x100 + b[2] as int;
    assert i / 0x1_0000 == b[0] as int * 0x100 + b[1] as int;
    assert i / 0x100_0000 == b[0];
  }

  /** `Uint8Array.set(src, at)` on a copy. */
  function Put(buf: Bytes, at: nat, src: Bytes): (r: Bytes)
    requires at + |src| <= |buf|
    ensures |r| == |buf|
  {
    buf[..at] + src + buf[at + |src|..]
  }

  /** The header as the code writes it, field over field; None is the RangeError of an over-long `set`. */
  function Header(id: Bytes, index: nat, iv: Bytes): (r: Option<Bytes>)
    ensures r.Some? ==> |r.value| == HEADER_BYTES
  {
    if 1 + |id| > HEADER_BYTES || 1 + ID_BYTES + 4 + |iv| > HEADER_BYTES then None
    else
      var h0 := Put(seq(HEADER_BYTES, _ => 0), 0, [FILE_CHUNK]);
      var h1 := Put(h0, 1, id);
      var h2 := Put(h1, 1 + ID_BYTES, ToU32(index));
      Some(Put(h2, 1 + ID_BYTES + 4, iv))
  }

  function Encode(id: Bytes, index: nat, iv: Bytes, payload: Bytes): Option<Bytes> {
    match Header(id, index, iv)
    case None => None
    case Some(h) => Some(h + payload)
  }

  /** The id is compared as bytes: on ASCII ids this is what decoding it to text and comparing strings does. */
  function Decode(packet: Bytes): Option<Chunk> {
    if |packet| < HEADER_BYTES || packet[0] != FILE_CHUNK then None
    else Some(Chunk(packet[1..1 + ID_BYTES],
                    FromU32(packet[1 + ID_BYTES..1 + ID_BYTES + 4]),
                    packet[1 + ID_BYTES + 4..HEADER_BYTES],
                    packet[HEADER_BYTES..]))
  }

  /** Writing never changes the type byte, the index field or the tail, whatever the id's length. */
  lemma HeaderFields(id: Bytes, index: nat, iv: Bytes)
    requires Header(id, index, iv).Some?
    ensures var h := Header(id, index, iv).value;
            && h[0] == FILE_CHUNK
            && h[1 + ID_BYTES..1 + ID_BYTES + 4] == ToU32(index)
            && h[1 + ID_BYTES + 4..1 + ID_BYTES + 4 + |iv|] == iv
            && h[1..1 + Min(|id|, ID_BYTES)] == id[..Min(|id|, ID_BYTES)]
  {
  }

  lemma DecodeFields(h: Bytes, payload: Bytes)
    requires |h| == HEADER_BYTES && h[0] == FILE_CHUNK
    ensures Decode(h + payload) == Some(Chunk(h[1..1 + ID_BYTES], FromU32(h[1 + ID_BYTES..1 + ID_BYTES + 4]),
                                              h[1 + ID_BYTES + 4..], payload))
  {
    var p := h + payload;
    assert p[1..1 + ID_BYTES] == h[1..1 + ID_BYTES];
    assert p[1 + ID_BYTES..1 + ID_BYTES + 4] == h[1 + ID_BYTES..1 + ID_BYTES + 4];
    assert p[1 + ID_BYTES + 4..HEADER_BYTES] == h[1 + ID_BYTES + 4..];
    assert p[HEADER_BYTES..] == payload;
  }

  /** What an encoded packet decodes to, whatever the lengths of id and IV. */
  lemma DecodeEncoded(id: Bytes, index: nat, iv: Bytes, payload: Bytes)
    requires Encode(id, index, iv, payload).Some?
    ensures var h := Header(id, index, iv).value;
      Decode(Encode(id, index, iv, payload).value)
      == Some(Chunk(h[1..1 + ID_BYTES], index % U32_LIMIT, h[1 + ID_BYTES + 4..], payload))
  {
    HeaderFields(id, index, iv);
    DecodeFields(Header(id, index, iv).value, payload);
    U32RoundTrip(index);
  }

  /** Decoding gives back what was encoded exactly when the id has 36 bytes, the IV 12, and the index fits in 32
      bits. */
  lemma RoundTrip(id: Bytes, index: nat, iv: Bytes, payload: Bytes)
    requires Encode(id, index, iv, payload).Some?
    ensures Decode(Encode(id, index, iv, payload).value) == Some(Chunk(id, index, iv, payload))
            <==> |id| == ID_BYTES && |iv| == IV_BYTES && index < U32_LIMIT
    ensures Decode(Encode(id, index, iv, payload).value).Some?
    ensures Decode(Encode(id, index, iv, payload).value).value.index == index % U32_LIMIT
    ensures Decode(Encode(id, index, iv, payload).value).value.payload == payload
  {
    var h := Header(id, index, iv).value;
    HeaderFields(id, index, iv);
    DecodeEncoded(id, index, iv, payload);
    assert |h[1..1 + ID_BYTES]| == ID_BYTES && |h[1 + ID_BYTES + 4..]| == IV_BYTES;
    assert |id| == ID_BYTES ==> id[..ID_BYTES] == id;
    assert |iv| == IV_BYTES ==> h[1 + ID_BYTES + 4..] == h[1 + ID_BYTES + 4..1 + ID_BYTES + 4 + |iv|];
  }

  /** Every accepted packet is the encoding of what it decodes to. */
  lemma ReEncode(packet: Bytes)
    requires Decode(packet).Some?
    ensures var c := Decode(packet).value;
            && |c.id| == ID_BYTES && |c.iv| == IV_BYTES && c.index < U32_LIMIT
            && Encode(c.id, c.index, c.iv, c.payload) == Some(packet)
  {
    var c := Decode(packet).value;
    U32Onto(packet[1 + ID_BYTES..1 + ID_BYTES + 4]);
    HeaderFields(c.id, c.index, c.iv);
    var h := Header(c.id, c.index, c.iv).value;
    assert c.id[..ID_BYTES] == c.id;
    assert h[1 + ID_BYTES + 4..] == h[1 + ID_BYTES + 4..1 + ID_BYTES + 4 + IV_BYTES];
    assert h == [h[0]] + h[1..1 + ID_BYTES] + h[1 + ID_BYTES..1 + ID_BYTES + 4] + h[1 + ID_BYTES + 4..];
    assert packet == [packet[0]] + packet[1..1 + ID_BYTES] + packet[1 + ID_BYTES..1 + ID_BYTES + 4]
                     + packet[1 + ID_BYTES + 4..HEADER_BYTES] + packet[HEADER_BYTES..];
    assert h + c.payload == packet;
  }

  method SetBytes(buf: array<byte>, at: nat, src: Bytes)
    requires at + |src| <= buf.Length
    modifies buf
    ensures buf[..] == Put(old(buf[..]), at, src)
  {
    forall i | 0 <= i < |src| {
      buf[at + i] := src[i];
    }
    assert buf[..at] == old(buf[..at]) && buf[at..at + |src|] == src && buf[at + |src|..] == old(buf[at + |src|..]);
    assert buf[..] == buf[..at] + buf[at..at + |src|] + buf[at + |src|..];
  }

  /** The sender's serializer: fills the header buffer field by field, then copies header and ciphertext into one
      packet. */
  method SerializeChunk(id: Bytes, index: nat, iv: Bytes, ciphertext: Bytes) returns (r: Option<Bytes>)
    ensures r == Encode(id, index, iv, ciphertext)
  {
    if 1 + |id| > HEADER_BYTES {
      return None;
    }
    var header := new byte[HEADER_BYTES](_ => 0);
    assert header[..] == seq(HEADER_BYTES, _ => 0);
    SetBytes(header, 0, [FILE_CHUNK]);
    SetBytes(header, 1, id);
    SetBytes(header, 1 + ID_BYTES, ToU32(index));
    if 1 + ID_BYTES + 4 + |iv| > HEADER_BYTES {
      return None;
    }
    SetBytes(header, 1 + ID_BYTES + 4, iv);
    var packet := new byte[header.Length + |ciphertext|](_ => 0);
    SetBytes(packet, 0, header[..]);
    SetBytes(packet, header.Length, ciphertext);
    assert packet[..] == header[..] + ciphertext;
    return Some(packet[..]);
  }
}
