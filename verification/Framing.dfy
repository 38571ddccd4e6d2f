/**
 Size-prefixed frames in a byte stream. The prefix is a base 128 varint of at most three bytes; the
 frame starts with a key byte whose upper bits are the tag.
 */
module Framing {
  import opened Wrappers
  import opened Payloads

  const MAX_PACKET_SIZE := 2097151
  const FORWARD_HEADER := 23

  datatype DecodeError = PrefixTooShort | PrefixTooLong

  // ---------------------------------------------------------------- varints

  /** The least significant group of seven bits first; a set high bit announces another group. */
  function EncodeVarint(n: nat): (bytes: seq<Byte>)
    ensures bytes != []
  {
    if n < 128 then [n] else [n % 128 + 128] + EncodeVarint(n / 128)
  }

  /** The value of a varint of at most `limit` bytes at the front of `buf`, and how long it is. */
  function DecodeVarint(buf: seq<Byte>, limit: nat): Result<(nat, nat), DecodeError>
    decreases limit
  {
    if limit == 0 then Err(PrefixTooLong)
    else if buf == [] then Err(PrefixTooShort)
    else if buf[0] < 128 then Ok((buf[0], 1))
    else
      match DecodeVarint(buf[1..], limit - 1)
      case Ok((n, k)) => Ok((buf[0] - 128 + 128 * n, k + 1))
      case Err(e) => Err(e)
  }

  function Groups(limit: nat): nat {
    if limit == 0 then 1 else 128 * Groups(limit - 1)
  }

  /** A value that fits into `limit` groups is read back, whatever follows it. */
  lemma {:induction false} VarintRoundTrip(n: nat, limit: nat, rest: seq<Byte>)
    requires n < Groups(limit) && limit > 0
    ensures |EncodeVarint(n)| <= limit
    ensures DecodeVarint(EncodeVarint(n) + rest, limit) == Ok((n, |EncodeVarint(n)|))
    decreases limit
  {
    var buf := EncodeVarint(n) + rest;
    if n >= 128 {
      assert n / 128 < Groups(limit - 1);
      assert limit > 1;
      VarintRoundTrip(n / 128, limit - 1, rest);
      assert buf[1..] == EncodeVarint(n / 128) + rest;
    }
  }

  /** What is read never exceeds what `limit` groups can hold, nor the buffer. */
  lemma {:induction false} VarintBounds(buf: seq<Byte>, limit: nat)
    ensures match DecodeVarint(buf, limit)
            case Ok((n, k)) => n < Groups(limit) && 0 < k <= limit && k <= |buf|
            case Err(PrefixTooShort) => |buf| < limit && forall i :: 0 <= i < |buf| ==> buf[i] >= 128
            case Err(PrefixTooLong) => |buf| >= limit && forall i :: 0 <= i < limit ==> buf[i] >= 128
    decreases limit
  {
    if limit > 0 && buf != [] && buf[0] >= 128 {
      VarintBounds(buf[1..], limit - 1);
      assert forall i :: 0 < i < |buf| ==> buf[i] == buf[1..][i - 1];
    } else if limit > 0 && buf != [] {
      GroupsGrow(limit);
    }
  }

  lemma {:induction false} GroupsGrow(limit: nat)
    requires limit > 0
    ensures Groups(limit) >= 128
  {
    if limit > 1 {
      GroupsGrow(limit - 1);
    }
  }

  /** Reading the prefix byte by byte is reading a varint of at most three groups. */
  method PeekSize(buf: seq<Byte>) returns (r: Result<(nat, nat), DecodeError>)
    ensures r == DecodeVarint(buf, 3)
  {
    if |buf| == 0 {
      return Err(PrefixTooShort);
    }
    var b: nat := buf[0];
    var part0: nat := b;
    if b < 0x80 {
      return Ok((part0, 1));
    }
    part0 := part0 - 0x80;
    ThreeGroups(buf);
    if |buf| < 2 {
      return Err(PrefixTooShort);
    }
    b := buf[1];
    part0 := part0 + b * 128;
    if b < 0x80 {
      return Ok((part0, 2));
    }
    part0 := part0 - 0x80 * 128;
    if |buf| < 3 {
      return Err(PrefixTooShort);
    }
    b := buf[2];
    part0 := part0 + b * 16384;
    if b < 0x80 {
      return Ok((part0, 3));
    }
    return Err(PrefixTooLong);
  }

  lemma ThreeGroups(buf: seq<Byte>)
    requires |buf| > 0 && buf[0] >= 128
    ensures DecodeVarint(buf, 3) ==
            if |buf| < 2 then Err(PrefixTooShort)
            else if buf[1] < 128 then Ok((buf[0] - 128 + 128 * (buf[1] as nat), 2))
            else if |buf| < 3 then Err(PrefixTooShort)
            else if buf[2] < 128 then Ok((buf[0] - 128 + 128 * (buf[1] - 128 + 128 * (buf[2] as nat)), 3))
            else Err(PrefixTooLong)
  {
    var b1 := buf[1..];
    if b1 != [] && b1[0] >= 128 {
      var b2 := b1[1..];
      assert DecodeVarint(b1, 2) == match DecodeVarint(b2, 1)
                                    case Ok((n, k)) => Ok((b1[0] - 128 + 128 * n, k + 1))
                                    case Err(e) => Err(e);
      if b2 != [] && b2[0] >= 128 {
        assert DecodeVarint(b2[1..], 0) == Err(PrefixTooLong);
      }
    }
  }

  // ---------------------------------------------------------------- frames

  datatype EncodeError = NoData | PacketTooLong(size: nat)

  function WriteSize(size: nat): Result<seq<Byte>, EncodeError> {
    if size == 0 then Err(NoData)
    else if size > MAX_PACKET_SIZE then Err(PacketTooLong(size))
    else Ok(EncodeVarint(size))
  }

  lemma {:induction false} TooManyGroups(n: nat, limit: nat)
    requires n >= Groups(limit)
    ensures DecodeVarint(EncodeVarint(n), limit) == Err(PrefixTooLong)
    decreases limit
  {
    if limit > 0 {
      GroupsGrow(limit);
      assert n / 128 >= Groups(limit - 1);
      TooManyGroups(n / 128, limit - 1);
      assert EncodeVarint(n)[1..] == EncodeVarint(n / 128);
    }
  }

  /** A size is written exactly if there is something to write and the receiver can read the size. */
  lemma WrittenIffReadable(size: nat)
    ensures WriteSize(size).Ok? <==> size > 0 && DecodeVarint(EncodeVarint(size), 3).Ok?
    ensures WriteSize(size).Ok? ==> DecodeVarint(WriteSize(size).value, 3) == Ok((size, |WriteSize(size).value|))
  {
    assert Groups(3) == 128 * Groups(2) == 128 * (128 * Groups(1)) == MAX_PACKET_SIZE + 1;
    if size <= MAX_PACKET_SIZE {
      VarintRoundTrip(size, 3, []);
      assert EncodeVarint(size) + [] == EncodeVarint(size);
    } else {
      TooManyGroups(size, 3);
    }
  }

  /** The outcome of reading one frame. */
  datatype Reading =
    | Incomplete
    | Frame(bytes: seq<Byte>)
    | Forward(bytes: seq<Byte>, left: nat)
    | Invalid(left: nat)
    | TooLong(left: nat)
    | TooShort(left: nat)
    | BadPrefix(error: DecodeError)

  function PeekTag(buf: seq<Byte>): Result<Option<nat>, DecodeError> {
    if buf == [] then Ok(None)
    else if buf[0] < 0x80 then Ok(Some(buf[0] / 8))
    else Err(PrefixTooLong)
  }

  /** What remains of the buffer, and what was read. */
  function ReadInner(buf: seq<Byte>, total: nat, off: nat, max: nat): (seq<Byte>, Reading)
    requires off <= |buf|
  {
    var available := if total < |buf| - off then total else |buf| - off;
    var left := total - available;
    match PeekTag(buf[off..])
    case Err(e) => (buf, BadPrefix(e))
    case Ok(None) => (buf, Incomplete)
    case Ok(Some(tag)) =>
      if tag == 0 then (buf[off + available..], Invalid(left))
      else if tag == 1 then
        if |buf| >= off + FORWARD_HEADER then (buf[off + available..], Forward(buf[off..off + available], left))
        else (buf, Incomplete)
      else if total > max then (buf[off + available..], TooLong(left))
      else if |buf| >= off + total then (buf[off + available..], Frame(buf[off..off + available]))
      else (buf, TooShort(left))
  }

  function Read(buf: seq<Byte>, max: nat): (seq<Byte>, Reading) {
    VarintBounds(buf, 3);
    match DecodeVarint(buf, 3)
    case Err(e) => (buf, BadPrefix(e))
    case Ok((total, off)) => ReadInner(buf, total, off, max)
  }

  /** A frame that can be sent: a tag above one, and short enough for sender and receiver. */
  predicate Sendable(frame: seq<Byte>, max: nat) {
    0 < |frame| <= MAX_PACKET_SIZE && |frame| <= max && 16 <= frame[0] < 128
  }

  function Written(frame: seq<Byte>): seq<Byte>
    requires 0 < |frame| <= MAX_PACKET_SIZE
  {
    WriteSize(|frame|).value + frame
  }

  lemma PrefixIsRead(frame: seq<Byte>, rest: seq<Byte>)
    requires 0 < |frame| <= MAX_PACKET_SIZE
    ensures DecodeVarint(Written(frame) + rest, 3) == Ok((|frame|, |EncodeVarint(|frame|)|))
    ensures Written(frame) == EncodeVarint(|frame|) + frame
  {
    assert Groups(3) == 128 * Groups(2) == 128 * (128 * Groups(1)) == MAX_PACKET_SIZE + 1;
    VarintRoundTrip(|frame|, 3, frame + rest);
    assert Written(frame) + rest == EncodeVarint(|frame|) + (frame + rest);
  }

  lemma InnerCases(prefix: seq<Byte>, front: seq<Byte>, total: nat, max: nat)
    requires 0 < |front| <= total && front[0] < 128
    ensures var buf := prefix + front; var left := total - |front|;
            ReadInner(buf, total, |prefix|, max) ==
              if front[0] < 8 then ([], Invalid(left))
              else if front[0] < 16 then
                if |front| >= FORWARD_HEADER then ([], Forward(front, left)) else (buf, Incomplete)
              else if total > max then ([], TooLong(left))
              else if |front| < total then (buf, TooShort(left))
              else ([], Frame(front))
  {
    var buf, off := prefix + front, |prefix|;
    assert buf[off..] == front && buf[off..off + |front|] == front && buf[off + |front|..] == [];
  }

  /** What is read when the first `k` bytes of a frame have arrived: a frame with a bad tag or longer than allowed
      is thrown away, a forward is handed out as soon as its header is there, and any other frame only when it is
      complete; until then nothing is consumed. What is still to come is always known. */
  lemma PartialFrame(frame: seq<Byte>, k: nat, max: nat)
    requires 0 < k <= |frame| <= MAX_PACKET_SIZE && frame[0] < 128
    ensures var buf := EncodeVarint(|frame|) + frame[..k]; var left := |frame| - k;
            Read(buf, max) ==
              if frame[0] < 8 then ([], Invalid(left))
              else if frame[0] < 16 then
                if k >= FORWARD_HEADER then ([], Forward(frame[..k], left)) else (buf, Incomplete)
              else if |frame| > max then ([], TooLong(left))
              else if k < |frame| then (buf, TooShort(left))
              else ([], Frame(frame))
  {
    assert Groups(3) == 128 * Groups(2) == 128 * (128 * Groups(1)) == MAX_PACKET_SIZE + 1;
    VarintRoundTrip(|frame|, 3, frame[..k]);
    InnerCases(EncodeVarint(|frame|), frame[..k], |frame|, max);
    assert k == |frame| ==> frame[..k] == frame;
  }

  /** A frame is read back as it was written, and exactly it is consumed. */
  lemma ReadsWhatWasWritten(frame: seq<Byte>, max: nat, rest: seq<Byte>)
    requires Sendable(frame, max)
    ensures Read(Written(frame) + rest, max) == (rest, Frame(frame))
  {
    var n := |frame|;
    var buf := Written(frame) + rest;
    PrefixIsRead(frame, rest);
    var off := |EncodeVarint(n)|;
    assert buf[off..] == frame + rest;
    assert buf[off..off + n] == frame;
    assert buf[off + n..] == rest;
  }

  function WrittenAll(frames: seq<seq<Byte>>, max: nat): seq<Byte>
    requires forall i :: 0 <= i < |frames| ==> Sendable(frames[i], max)
  {
    if frames == [] then []
    else
      assert Sendable(frames[0], max);
      Written(frames[0]) + WrittenAll(frames[1..], max)
  }

  /** Read frames until something else turns up. */
  function ReadAll(buf: seq<Byte>, max: nat): (seq<Byte>, seq<seq<Byte>>)
    decreases |buf|
  {
    var (rest, r) := Read(buf, max);
    if r.Frame? && |rest| < |buf| then
      var (end, frames) := ReadAll(rest, max);
      (end, [r.bytes] + frames)
    else (buf, [])
  }

  /** Frames written back to back are read back one by one, in order and completely. */
  lemma {:induction false} StreamRoundTrip(frames: seq<seq<Byte>>, max: nat)
    requires forall i :: 0 <= i < |frames| ==> Sendable(frames[i], max)
    ensures ReadAll(WrittenAll(frames, max), max) == ([], frames)
  {
    if frames != [] {
      var buf := WrittenAll(frames, max);
      var rest := WrittenAll(frames[1..], max);
      ReadsWhatWasWritten(frames[0], max, rest);
      StreamRoundTrip(frames[1..], max);
      assert |rest| < |buf|;
      assert [frames[0]] + frames[1..] == frames;
    } else {
      assert Read([], max).1 == BadPrefix(PrefixTooShort);
    }
  }

  /** Whatever was read, the bytes handed out and the bytes that remain are consecutive pieces of the
      buffer, and the bytes still missing are counted. */
  lemma ReadLosesNothing(buf: seq<Byte>, max: nat)
    ensures var (rest, r) := Read(buf, max);
            match r
            case Frame(bytes) => exists k :: 0 < k <= 3 && k <= |buf| && buf[k..] == bytes + rest
            case Forward(bytes, left) =>
              exists k :: 0 < k <= 3 && k <= |buf| && buf[k..] == bytes + rest && (left > 0 ==> rest == [])
            case Incomplete => rest == buf
            case TooShort(_) => rest == buf
            case BadPrefix(_) => rest == buf
            case Invalid(left) => left > 0 ==> rest == []
            case TooLong(left) => left > 0 ==> rest == []
  {
    VarintBounds(buf, 3);
    match DecodeVarint(buf, 3) {
      case Err(_) =>
      case Ok((total, off)) =>
        var available := if total < |buf| - off then total else |buf| - off;
        SplitAt(buf, off, available);
        var (rest, r) := ReadInner(buf, total, off, max);
        assert r.Frame? || r.Forward? ==> buf[off..] == r.bytes + rest;
    }
  }

  lemma SplitAt(buf: seq<Byte>, off: nat, n: nat)
    requires off + n <= |buf|
    ensures buf[off..] == buf[off..off + n] + buf[off + n..]
  {
  }

  // ---------------------------------------------------------------- reading in place

  class Buffer {
    var data: seq<Byte>

    constructor (data: seq<Byte>)
      ensures this.data == data
    {
      this.data := data;
    }

    method Advance(n: nat)
      requires n <= |data|
      modifies this
      ensures data == old(data)[n..]
    {
      data := data[n..];
    }

    method SplitTo(n: nat) returns (front: seq<Byte>)
      requires n <= |data|
      modifies this
      ensures front == old(data)[..n] && data == old(data)[n..]
    {
      front := data[..n];
      data := data[n..];
    }

    /** Take one frame off the front of the buffer. */
    method ReadBytes(max: nat) returns (r: Reading)
      modifies this
      ensures (data, r) == Read(old(data), max)
    {
      var prefix := PeekSize(data);
      if prefix.Err? {
        return BadPrefix(prefix.error);
      }
      VarintBounds(data, 3);
      var (total, off) := prefix.value;
      r := ReadBytesInner(total, off, max);
    }

    method ReadBytesInner(total: nat, off: nat, max: nat) returns (r: Reading)
      requires off <= |data|
      modifies this
      ensures (data, r) == ReadInner(old(data), total, off, max)
    {
      var tag := PeekTag(data[off..]);
      var available := if total < |data| - off then total else |data| - off;
      var left := total - available;
      if tag.Err? {
        return BadPrefix(tag.error);
      }
      if tag.value.None? {
        return Incomplete;
      }
      if tag.value.value == 0 {
        Advance(off + available);
        return Invalid(left);
      }
      if tag.value.value == 1 {
        if |data| < off + FORWARD_HEADER {
          return Incomplete;
        }
        Advance(off);
        assert data[..available] == old(data)[off..off + available];
        assert data[available..] == old(data)[off + available..];
        var bytes := SplitTo(available);
        return Forward(bytes, left);
      }
      if total > max {
        Advance(off + available);
        return TooLong(left);
      }
      if |data| < off + total {
        return TooShort(left);
      }
      Advance(off);
      assert data[..available] == old(data)[off..off + available];
      assert data[available..] == old(data)[off + available..];
      var bytes := SplitTo(available);
      return Frame(bytes);
    }
  }
}
