/** Message payloads and the in-place insertion of bytes at their front. */
module Payloads {
  type Byte = x: nat | x < 256

  /** Shift the first `|b| - |front|` bytes of `b` to its end and store `front` before them. The two
      regions overlap; walking backwards, every byte is read before it is overwritten. */
  method ShiftIn(b: array<Byte>, front: seq<Byte>)
    requires |front| <= b.Length
    modifies b
    ensures b[..] == front + old(b[..b.Length - |front|])
  {
    var len := |front|;
    var i := b.Length;
    while i > 0
      invariant 0 <= i <= b.Length
      invariant forall k :: 0 <= k < i && k < b.Length - len ==> b[k] == old(b[k])
      invariant forall k :: i <= k < b.Length ==> b[k] == if k >= len then old(b[k - len]) else front[k]
    {
      i := i - 1;
      b[i] := if i >= len then b[i - len] else front[i];
    }
  }

  /** How the bytes are stored: shared ones are copied before they are changed. */
  datatype Storage = Growable | Vector | Shared

  class Payload {
    var storage: Storage
    var bytes: array<Byte>

    constructor (storage: Storage, bytes: array<Byte>)
      ensures this.storage == storage && this.bytes == bytes
    {
      this.storage := storage;
      this.bytes := bytes;
    }

    ghost function Contents(): seq<Byte>
      reads this, bytes
    {
      bytes[..]
    }

    method MakeMutable()
      modifies this
      ensures Contents() == old(Contents()) && !storage.Shared?
      ensures old(storage).Shared? ==> fresh(bytes)
      ensures !old(storage).Shared? ==> bytes == old(bytes)
    {
      if storage.Shared? {
        var copy := new Byte[bytes.Length](i requires 0 <= i < bytes.Length reads this, bytes => bytes[i]);
        bytes := copy;
        storage := Growable;
      }
    }

    /** A longer buffer with the same bytes followed by zeros. */
    method Grow(extra: nat)
      modifies this`bytes
      ensures fresh(bytes) && bytes.Length == old(bytes.Length) + extra
      ensures bytes[..old(bytes.Length)] == old(Contents())
    {
      var n := bytes.Length;
      var grown := new Byte[n + extra](i requires 0 <= i reads this, bytes => if i < bytes.Length then bytes[i] else 0);
      bytes := grown;
    }

    method Prepend(front: seq<Byte>)
      modifies this
      ensures Contents() == front + old(Contents())
    {
      if front == [] {
        return;
      }
      MakeMutable();
      if storage.Growable? && bytes.Length > 0 {
        Grow(|front|);
        ShiftIn(bytes, front);
      } else {
        var all := front + bytes[..];
        bytes := new Byte[|all|](i requires 0 <= i < |all| => all[i]);
      }
    }

    method Extend(tail: seq<Byte>)
      modifies this
      ensures Contents() == old(Contents()) + tail
    {
      MakeMutable();
      var n := bytes.Length;
      Grow(|tail|);
      var i := 0;
      while i < |tail|
        invariant 0 <= i <= |tail| && fresh(bytes) && bytes.Length == n + |tail|
        invariant bytes[..n + i] == old(Contents()) + tail[..i]
      {
        bytes[n + i] := tail[i];
        i := i + 1;
      }
    }
  }
}
