/** The wire format of forwarded packets: key, session id, slot, flags and payload. */
module Forwards {
  import opened Wrappers
  import opened Payloads
  import F = Framing

  const SESSION_ID_SIZE := 16
  const HEADER_SIZE := 1 + SESSION_ID_SIZE + 4 + 2
  const FORWARD_KEY: Byte := 10   // tag 1, wire type 2

  type Uint16 = x: nat | x < 0x1_0000
  type Uint32 = x: nat | x < 0x1_0000_0000

  datatype Forward = Forward(sessionId: seq<Byte>, slot: Uint32, flags: Uint16, payload: seq<Byte>)
  {
    predicate Valid() {
      |sessionId| == SESSION_ID_SIZE
    }
  }

  datatype DecodeError = PacketTooShort | PacketFormatInvalid | SliceOutOfRange

  // ---------------------------------------------------------------- big-endian numbers

  function ToBytes(x: nat, n: nat): (bytes: seq<Byte>)
    ensures |bytes| == n
  {
    if n == 0 then [] else ToBytes(x / 256, n - 1) + [x % 256]
  }

  function FromBytes(bytes: seq<Byte>): nat {
    if bytes == [] then 0 else 256 * FromBytes(bytes[..|bytes| - 1]) + bytes[|bytes| - 1]
  }

  function Range(n: nat): nat {
    if n == 0 then 1 else 256 * Range(n - 1)
  }

  lemma {:induction false} FromToBytes(x: nat, n: nat)
    requires x < Range(n)
    ensures FromBytes(ToBytes(x, n)) == x
  {
    if n > 0 {
      FromToBytes(x / 256, n - 1);
      assert ToBytes(x, n)[..n - 1] == ToBytes(x / 256, n - 1);
    }
  }

  lemma {:induction false} ToFromBytes(bytes: seq<Byte>)
    ensures FromBytes(bytes) < Range(|bytes|)
    ensures ToBytes(FromBytes(bytes), |bytes|) == bytes
  {
    if bytes != [] {
      var k := |bytes| - 1;
      ToFromBytes(bytes[..k]);
      var x := FromBytes(bytes);
      assert x / 256 == FromBytes(bytes[..k]) && x % 256 == bytes[k];
      assert bytes[..k] + [bytes[k]] == bytes;
    }
  }

  lemma Ranges()
    ensures Range(2) == 0x1_0000 && Range(4) == 0x1_0000_0000
  {
    assert Range(1) == 256;
    assert Range(3) == 256 * Range(2);
  }

  // ---------------------------------------------------------------- the codec

  function Encode(f: Forward): (buf: seq<Byte>)
    requires f.Valid()
    ensures |buf| == HEADER_SIZE + |f.payload|
  {
    [FORWARD_KEY] + f.sessionId + ToBytes(f.slot, 4) + ToBytes(f.flags, 2) + f.payload
  }

  /** A key is a varint of at most ten bytes that fits 32 bits: the wire type in the lower three bits,
      one of six, and a nonzero tag above them. */
  function DecodeKey(buf: seq<Byte>): Result<(nat, nat), DecodeError> {
    match F.DecodeVarint(buf, 10)
    case Err(_) => Err(PacketFormatInvalid)
    case Ok((key, k)) =>
      if key >= 0x1_0000_0000 || key % 8 > 5 || key / 8 == 0 then Err(PacketFormatInvalid) else Ok((key / 8, k))
  }

  /** The fixed fields that follow the key. */
  function DecodeBody(body: seq<Byte>): (f: Forward)
    requires |body| >= HEADER_SIZE - 1
    ensures f.Valid()
  {
    Ranges();
    ToFromBytes(body[16..20]);
    ToFromBytes(body[20..22]);
    Forward(body[..16], FromBytes(body[16..20]), FromBytes(body[20..22]), body[22..])
  }

  function Decode(buf: seq<Byte>): Result<Forward, DecodeError> {
    if |buf| < HEADER_SIZE then Err(PacketTooShort)
    else
      match DecodeKey(buf)
      case Err(e) => Err(e)
      case Ok((tag, k)) =>
        if tag != 1 then Err(PacketFormatInvalid)
        else if |buf| < k + HEADER_SIZE - 1 then Err(SliceOutOfRange)
        else Ok(DecodeBody(buf[k..]))
  }

  // ---------------------------------------------------------------- round trips

  lemma BodyRoundTrip(f: Forward)
    requires f.Valid()
    ensures DecodeBody(Encode(f)[1..]) == f
  {
    var body := Encode(f)[1..];
    assert body == f.sessionId + ToBytes(f.slot, 4) + ToBytes(f.flags, 2) + f.payload;
    assert body[..16] == f.sessionId;
    assert body[16..20] == ToBytes(f.slot, 4);
    assert body[20..22] == ToBytes(f.flags, 2);
    assert body[22..] == f.payload;
    Ranges();
    FromToBytes(f.slot, 4);
    FromToBytes(f.flags, 2);
  }

  /** Decoding undoes encoding. */
  lemma DecodeEncode(f: Forward)
    requires f.Valid()
    ensures Decode(Encode(f)) == Ok(f)
  {
    var buf := Encode(f);
    assert buf[0] == FORWARD_KEY;
    assert F.DecodeVarint(buf, 10) == Ok((10, 1));
    BodyRoundTrip(f);
  }

  lemma BodyReencoded(body: seq<Byte>)
    requires |body| >= HEADER_SIZE - 1
    ensures Encode(DecodeBody(body)) == [FORWARD_KEY] + body
  {
    var f := DecodeBody(body);
    ToFromBytes(body[16..20]);
    ToFromBytes(body[20..22]);
    assert ToBytes(f.slot, 4) == body[16..20] && ToBytes(f.flags, 2) == body[20..22];
    assert body == body[..16] + body[16..20] + body[20..22] + body[22..];
  }

  /** Encoding undoes decoding exactly for buffers that start with the canonical key. */
  lemma EncodeDecode(buf: seq<Byte>)
    requires Decode(buf).Ok?
    ensures Encode(Decode(buf).value) == buf <==> buf[0] == FORWARD_KEY
  {
    F.VarintBounds(buf, 10);
    var k := DecodeKey(buf).value.1;
    BodyReencoded(buf[k..]);
    if buf[0] == FORWARD_KEY {
      assert k == 1;
      assert buf == [FORWARD_KEY] + buf[1..];
    }
  }

  function Zeros(n: nat): (bytes: seq<Byte>)
    ensures |bytes| == n && forall i :: 0 <= i < n ==> bytes[i] == 0
  {
    seq(n, _ => 0)
  }

  /** A key with another wire type is decoded all the same, and re-encoding it gives another buffer. */
  lemma OtherWireTypesAreDecoded()
    ensures var buf := [8] + Zeros(22); Decode(buf).Ok? && Encode(Decode(buf).value) != buf
  {
    var buf: seq<Byte> := [8] + Zeros(22);
    assert buf[0] == 8 && F.DecodeVarint(buf, 10) == Ok((8, 1));
    EncodeDecode(buf);
  }

  // ---------------------------------------------------------------- through the frame reader

  /** A forwarded packet that is sent is received: it is read off the stream as one forward, whatever follows it,
      and decodes to what was sent; and so does the datagram. */
  lemma ForwardsArrive(f: Forward, max: nat, rest: seq<Byte>)
    requires f.Valid() && |Encode(f)| <= F.MAX_PACKET_SIZE
    ensures F.Read(F.Written(Encode(f)) + rest, max) == (rest, F.Reading.Forward(Encode(f), 0))
    ensures F.ReadInner(Encode(f), |Encode(f)|, 0, max) == ([], F.Reading.Forward(Encode(f), 0))
    ensures Decode(Encode(f)) == Ok(f)
  {
    var frame := Encode(f);
    DecodeEncode(f);
    assert frame[0] == FORWARD_KEY;
    F.PrefixIsRead(frame, rest);
    var off := |F.EncodeVarint(|frame|)|;
    var buf := F.Written(frame) + rest;
    assert buf[off..] == frame + rest && buf[off..][0] == FORWARD_KEY;
    assert buf[off..off + |frame|] == frame && buf[off + |frame|..] == rest;
    assert frame[0..] == frame && frame[..|frame|] == frame && frame[|frame|..] == [];
  }

  // ---------------------------------------------------------------- fields outside the buffer

  /** `k` groups without any bits in them. */
  predicate Blank(buf: seq<Byte>, k: nat) {
    && k > 0 && buf != []
    && if k == 1 then buf[0] == 0 else buf[0] == 128 && Blank(buf[1..], k - 1)
  }

  /** A small number written in `k > 1` groups: its own and then blank ones. */
  predicate Padded(buf: seq<Byte>, n: nat, k: nat) {
    k > 1 && buf != [] && buf[0] == n + 128 && Blank(buf[1..], k - 1)
  }

  lemma {:induction false} BlankIsZero(buf: seq<Byte>, limit: nat, k: nat)
    requires 0 < k <= limit
    ensures F.DecodeVarint(buf, limit) == Ok((0, k)) <==> Blank(buf, k)
    decreases limit
  {
    if buf != [] && buf[0] >= 128 {
      F.VarintBounds(buf[1..], limit - 1);
      if k > 1 {
        BlankIsZero(buf[1..], limit - 1, k - 1);
      }
    }
  }

  lemma PaddedIsLongForm(buf: seq<Byte>, n: nat, k: nat)
    requires n < 128 && 1 < k <= 10
    ensures F.DecodeVarint(buf, 10) == Ok((n, k)) <==> Padded(buf, n, k)
  {
    if buf != [] && buf[0] >= 128 {
      F.VarintBounds(buf[1..], 9);
      BlankIsZero(buf[1..], 9, k - 1);
    }
  }

  /** The bytes at which decoding leaves the buffer: a forward key written in more bytes than it needs,
      followed by too little. */
  ghost predicate Overrun(buf: seq<Byte>) {
    && HEADER_SIZE <= |buf|
    && exists n, k :: 8 <= n <= 13 && 1 < k <= 10 && |buf| < k + HEADER_SIZE - 1 && Padded(buf, n, k)
  }

  /** Decoding aborts exactly at those buffers. */
  lemma AbortsIffOverrun(buf: seq<Byte>)
    ensures Decode(buf) == Err(SliceOutOfRange) <==> Overrun(buf)
  {
    F.VarintBounds(buf, 10);
    if Decode(buf) == Err(SliceOutOfRange) {
      var (key, k) := F.DecodeVarint(buf, 10).value;
      assert key / 8 == 1 && key % 8 <= 5;
      PaddedIsLongForm(buf, key, k);
    }
    if Overrun(buf) {
      var n, k :| 8 <= n <= 13 && 1 < k <= 10 && |buf| < k + HEADER_SIZE - 1 && Padded(buf, n, k);
      PaddedIsLongForm(buf, n, k);
      assert DecodeKey(buf) == Ok((1, k));
    }
  }

  /** For instance at the forward key in two bytes and 21 bytes after it. */
  lemma LongKeyOverruns()
    ensures Decode([0x8A, 0] + Zeros(21)) == Err(SliceOutOfRange)
  {
    var buf: seq<Byte> := [0x8A, 0] + Zeros(21);
    assert buf[1..][0] == 0 && Padded(buf, 10, 2);
    AbortsIffOverrun(buf);
  }

  /** What the frame reader hands out as a forward never leads there, because it refuses keys of more than
      one byte. */
  lemma FramesNeverOverrun(buf: seq<Byte>, total: nat, off: nat, max: nat)
    requires off <= |buf| && F.ReadInner(buf, total, off, max).1.Forward?
    ensures Decode(F.ReadInner(buf, total, off, max).1.bytes) != Err(SliceOutOfRange)
  {
    var bytes := F.ReadInner(buf, total, off, max).1.bytes;
    AbortsIffOverrun(bytes);
    assert buf[off..][0] == buf[off];
  }

  /** Neither on a stream nor on a datagram. */
  lemma ForwardsReadAreSafe(buf: seq<Byte>, max: nat)
    ensures var r := F.Read(buf, max).1; r.Forward? ==> Decode(r.bytes) != Err(SliceOutOfRange)
    ensures var r := F.ReadInner(buf, |buf|, 0, |buf|).1; r.Forward? ==> Decode(r.bytes) != Err(SliceOutOfRange)
  {
    F.VarintBounds(buf, 3);
    match F.DecodeVarint(buf, 3) {
      case Ok((total, off)) =>
        if F.ReadInner(buf, total, off, max).1.Forward? {
          FramesNeverOverrun(buf, total, off, max);
        }
      case Err(_) =>
    }
    if F.ReadInner(buf, |buf|, 0, |buf|).1.Forward? {
      FramesNeverOverrun(buf, |buf|, 0, |buf|);
    }
  }
}
