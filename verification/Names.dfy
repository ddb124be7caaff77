/** Bytes, 32-bit numbers, process names and the order `operator<` gives two `std::string`s. */
module Names {
  type byte = x: int | 0 <= x < 256

  const WIDTH: int := 0x1_0000_0000

  type uint32 = x: int | 0 <= x < WIDTH

  /** A C++ string: any bytes at all, of any length. */
  type Name = seq<byte>

  datatype Option<+T> = None | Some(value: T)

  /** Lexicographic order on unsigned bytes; a proper prefix comes first. */
  predicate Less(a: Name, b: Name) {
    b != [] && (a == [] || a[0] < b[0] || (a[0] == b[0] && Less(a[1..], b[1..])))
  }

  /** a and b agree up to position i, where a has ended or has the smaller byte. */
  predicate LessAt(a: Name, b: Name, i: nat) {
    i <= |a| && i < |b| && a[..i] == b[..i] && (i == |a| || a[i] < b[i])
  }

  /** The smaller name is a proper prefix of the other one, or has the smaller byte where they first differ. */
  lemma {:induction false} LessIs(a: Name, b: Name)
    ensures Less(a, b) <==> exists i: nat :: LessAt(a, b, i)
  {
    if b == [] {
    } else if a == [] || a[0] < b[0] {
      assert LessAt(a, b, 0);
    } else {
      assert !LessAt(a, b, 0);
      LessIs(a[1..], b[1..]);
      if Less(a, b) {
        var i: nat :| LessAt(a[1..], b[1..], i);
        assert a[..i + 1] == [a[0]] + a[1..][..i] && b[..i + 1] == [b[0]] + b[1..][..i];
        assert LessAt(a, b, i + 1);
      }
      forall i: nat | i > 0 && LessAt(a, b, i)
        ensures a[0] == b[0] && LessAt(a[1..], b[1..], i - 1)
      {
        assert a[..i][0] == a[0] && b[..i][0] == b[0];
        assert a[1..][..i - 1] == a[..i][1..] && b[1..][..i - 1] == b[..i][1..];
      }
    }
  }

  /** Of two distinct names exactly one is the smaller: the tie-break always names one winner. */
  lemma {:induction false} LessTotal(a: Name, b: Name)
    ensures Less(a, b) <==> a != b && !Less(b, a)
  {
    if a == [] || b == [] || a[0] != b[0] {
    } else {
      assert a == [a[0]] + a[1..] && b == [b[0]] + b[1..];
      LessTotal(a[1..], b[1..]);
    }
  }

  lemma {:induction false} LessTransitive(a: Name, b: Name, c: Name)
    requires Less(a, b) && Less(b, c)
    ensures Less(a, c)
  {
    if a == [] || a[0] < b[0] || b[0] < c[0] {
    } else {
      LessTransitive(a[1..], b[1..], c[1..]);
    }
  }

  /** The bytes of an ASCII literal. */
  function Ascii(s: string): (r: Name)
    requires forall i :: 0 <= i < |s| ==> s[i] < 256 as char
  {
    seq(|s|, i requires 0 <= i < |s| => s[i] as int)
  }
}
