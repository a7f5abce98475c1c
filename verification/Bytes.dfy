/** Byte arrays and byte streams. */
module Bytes {
  type Bytes = seq<bv8>

  function Zeros(n: nat): (r: Bytes)
    ensures |r| == n && forall i :: 0 <= i < n ==> r[i] == 0
  {
    seq(n, i => 0)
  }

  method ArrayCopy(from: Bytes, start: nat, to: array<bv8>, at: nat, length: nat)
    requires start + length <= |from| && at + length <= to.Length
    modifies to
    ensures to[at..at + length] == from[start..start + length]
    ensures forall i :: 0 <= i < to.Length && !(at <= i < at + length) ==> to[i] == old(to[i])
  {
    var k := 0;
    while k < length
      invariant 0 <= k <= length
      invariant to[at..at + k] == from[start..start + k]
      invariant forall i :: 0 <= i < to.Length && !(at <= i < at + k) ==> to[i] == old(to[i])
    {
      to[at + k] := from[start + k];
      assert to[at..at + k + 1] == to[at..at + k] + [from[start + k]];
      k := k + 1;
    }
  }

  /** What reading n bytes from a position leaves in a new array: bytes past the end stay zero. */
  function Field(s: Bytes, at: nat, n: nat): (r: Bytes)
    ensures |r| == n
  {
    seq(n, i requires 0 <= i => if at + i < |s| then s[at + i] else 0)
  }

  function Rest(s: Bytes, at: nat): Bytes { if at <= |s| then s[at..] else [] }

  class ByteArrayInputStream {
    const buf: Bytes
    var pos: nat
    /** How many bytes were asked for: the position stops at the end. */
    ghost var asked: nat

    ghost predicate Valid()
      reads this
    {
      pos == if asked <= |buf| then asked else |buf|
    }

    constructor (buf: Bytes)
      ensures Valid() && this.buf == buf && asked == 0
    {
      this.buf, pos, asked := buf, 0, 0;
    }

    function Available(): nat
      requires Valid()
      reads this
    {
      |buf| - pos
    }

    method Read() returns (r: int)
      requires Valid()
      modifies this
      ensures Valid() && asked == old(asked) + 1
      ensures r == if old(asked) < |buf| then buf[old(asked)] as int else -1
    {
      asked := asked + 1;
      if pos >= |buf| {
        return -1;
      }
      r := buf[pos] as int;
      pos := pos + 1;
    }

    /** `new byte[n]`, then a read into it: a short read leaves its tail at zero. */
    method ReadNew(n: nat) returns (r: Bytes)
      requires Valid()
      modifies this
      ensures Valid() && r == Field(buf, old(asked), n) && asked == old(asked) + n
    {
      var b := new bv8[n](i => 0);
      var length := if n > Available() then Available() else n;
      ArrayCopy(buf, pos, b, 0, length);
      assert forall i :: 0 <= i < length ==> b[..][i] == b[0..length][i] == buf[pos + i];
      pos := pos + length;
      asked := asked + n;
      r := b[..];
    }

    method ReadRest() returns (r: Bytes)
      requires Valid()
      modifies this
      ensures Valid() && r == Rest(buf, old(asked))
    {
      r := ReadNew(Available());
    }
  }

  class ByteArrayOutputStream {
    var buf: Bytes

    constructor ()
      ensures buf == []
    {
      buf := [];
    }

    method Write(b: bv8)
      modifies this
      ensures buf == old(buf) + [b]
    {
      buf := buf + [b];
    }

    method WriteAll(b: Bytes)
      modifies this
      ensures buf == old(buf) + b
    {
      buf := buf + b;
    }
  }
}
