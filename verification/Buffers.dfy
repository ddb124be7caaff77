/** Bytes written one after the other into a buffer. */
module Buffers {
  import opened Names

  /** s with the bytes from p on replaced by b. */
  function Patch(s: seq<byte>, p: nat, b: seq<byte>): (r: seq<byte>)
    requires p + |b| <= |s|
    ensures |r| == |s|
  {
    s[..p] + b + s[p + |b|..]
  }

  /** The bytes of b lie at p, and every other byte is what it was. */
  lemma PatchAt(s: seq<byte>, p: nat, b: seq<byte>, i: nat)
    requires p + |b| <= |s| && i < |s|
    ensures Patch(s, p, b)[i] == if p <= i < p + |b| then b[i - p] else s[i]
  {
  }

  /** Writing a and then b after it is writing a + b. */
  lemma PatchTwice(s: seq<byte>, p: nat, a: seq<byte>, b: seq<byte>)
    requires p + |a| + |b| <= |s|
    ensures Patch(Patch(s, p, a), p + |a|, b) == Patch(s, p, a + b)
  {
    var t := Patch(s, p, a);
    assert t[..p + |a|] == s[..p] + a;
    assert t[p + |a| + |b|..] == s[p + |a| + |b|..];
  }

  /** Patching a whole buffer leaves nothing of what was there. */
  lemma PatchAll(s: seq<byte>, b: seq<byte>)
    requires |b| == |s|
    ensures Patch(s, 0, b) == b
  {
  }

  function Big16(v: int): seq<byte> { [v / 256 % 256, v % 256] }

  function Big32(v: int): seq<byte> { [v / 0x100_0000 % 256, v / 0x1_0000 % 256, v / 256 % 256, v % 256] }

  function From16(b: seq<byte>): int
    requires |b| == 2
  {
    b[0] as int * 256 + b[1]
  }

  function From32(b: seq<byte>): int
    requires |b| == 4
  {
    b[0] as int * 0x100_0000 + b[1] as int * 0x1_0000 + b[2] as int * 256 + b[3]
  }

  lemma From16Big16(v: int)
    requires 0 <= v < 0x1_0000
    ensures From16(Big16(v)) == v
  {
  }

  lemma From32Big32(v: int)
    requires 0 <= v < 0x1_0000_0000
    ensures From32(Big32(v)) == v
  {
    var a := v / 256;
    var b := a / 256;
    assert v == a * 256 + v % 256;
    assert a == b * 256 + a % 256;
    assert b == v / 0x1_0000;
    assert b / 256 == v / 0x100_0000;
  }

  /** A memcpy of b to data[p..]. */
  method Write(data: array<byte>, p: nat, b: seq<byte>)
    requires p + |b| <= data.Length
    modifies data
    ensures data[..] == Patch(old(data[..]), p, b)
  {
    var i := 0;
    while i < |b|
      invariant 0 <= i <= |b|
      invariant forall k :: 0 <= k < data.Length ==>
                  data[k] == if p <= k < p + i then b[k - p] else old(data[k])
    {
      data[p + i] := b[i];
      i := i + 1;
    }
  }

  /** The next bytes of a message under construction: `done` has been written from p on. */
  method WriteNext(data: array<byte>, p: nat, ghost was: seq<byte>, ghost done: seq<byte>, at: nat, b: seq<byte>)
    requires at == p + |done| && at + |b| <= data.Length == |was|
    requires data[..] == Patch(was, p, done)
    modifies data
    ensures data[..] == Patch(was, p, done + b)
  {
    Write(data, at, b);
    PatchTwice(was, p, done, b);
  }
}
