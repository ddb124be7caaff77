/** The tag/length/value body head of src/message/body_head.cpp. */
module BodyHeads {
  import opened Names
  import opened Buffers

  datatype Fields = Fields(sender: Name, recver: Name, mod: Name, func: Name)

  const NO_FIELDS := Fields([], [], [], [])

  const MAGIC: seq<byte> := [0xA5, 0x5A]
  const SENDER_TAG: byte := 0x53    // the parser looks at the first byte of a tag only
  const RECVER_TAG: byte := 0x52
  const MODULE_TAG: byte := 0x4D
  const FUNCTION_TAG: byte := 0x46
  const SECOND: byte := 0x4E
  const BODY_DATA: seq<byte> := [0x42, 0x44]

  predicate IsTag(t: byte) { t == SENDER_TAG || t == RECVER_TAG || t == MODULE_TAG || t == FUNCTION_TAG }

  // ---- The printer ----

  /** One field: nothing when empty; otherwise its tag, its length modulo 256, and all of it. */
  function PrintField(t: byte, n: Name): seq<byte> {
    if n == [] then [] else [t, SECOND, |n| % 256] + n
  }

  function Print(f: Fields): (b: seq<byte>)
    ensures |b| == Size(f)
  {
    MAGIC + PrintField(SENDER_TAG, f.sender) + PrintField(RECVER_TAG, f.recver)
    + PrintField(MODULE_TAG, f.mod) + PrintField(FUNCTION_TAG, f.func) + BODY_DATA
  }

  function FieldSize(n: Name): nat { if n == [] then 0 else |n| + 3 }

  /** BodyHead::size */
  function Size(f: Fields): nat {
    2 + FieldSize(f.sender) + FieldSize(f.recver) + FieldSize(f.mod) + FieldSize(f.func) + 2
  }

  // ---- The parser ----

  /** The field a tag names, with v appended. */
  function Append(f: Fields, t: byte, v: seq<byte>): Fields {
    if t == SENDER_TAG then f.(sender := f.sender + v)
    else if t == RECVER_TAG then f.(recver := f.recver + v)
    else if t == MODULE_TAG then f.(mod := f.mod + v)
    else if t == FUNCTION_TAG then f.(func := f.func + v)
    else f
  }

  /** Where the loop stops and with which fields; Overrun when it reads past the buffer. */
  datatype Parsed = Parsed(f: Fields, at: nat) | Overrun

  function ParseRecords(b: seq<byte>, i: nat, f: Fields): Parsed
    requires i <= |b|
    decreases |b| - i
  {
    if i == |b| then Overrun
    else if !IsTag(b[i]) then Parsed(f, i)
    else if i + 3 > |b| || i + 3 + b[i + 2] > |b| then Overrun
    else ParseRecords(b, i + 3 + b[i + 2], Append(f, b[i], b[i + 3..i + 3 + b[i + 2]]))
  }

  /** Without the magic number nothing is parsed. */
  function Parse(b: seq<byte>, i: nat, f: Fields): Parsed
    requires i <= |b|
  {
    if i + 2 > |b| then Overrun
    else if b[i..i + 2] != MAGIC then Parsed(f, i)
    else ParseRecords(b, i + 2, f)
  }

  class BodyHead {
    var f: Fields

    constructor ()
      ensures f == NO_FIELDS
    {
      f := NO_FIELDS;
    }

    /** size() */
    method GetSize() returns (length: nat)
      ensures length == Size(f)
    {
      length := 2;
      if |f.sender| != 0 { length := length + |f.sender| + 3; }
      if |f.recver| != 0 { length := length + |f.recver| + 3; }
      if |f.mod| != 0 { length := length + |f.mod| + 3; }
      if |f.func| != 0 { length := length + |f.func| + 3; }
      length := length + 2;
    }

    /** One of the four blocks of SerializeBodyHead. */
    method SerializeField(data: array<byte>, off: nat, ghost was: seq<byte>, ghost done: seq<byte>,
                          ptr: nat, t: byte, n: Name) returns (next: nat)
      requires ptr == off + |done| && ptr + FieldSize(n) <= data.Length == |was|
      requires data[..] == Patch(was, off, done)
      modifies data
      ensures data[..] == Patch(was, off, done + PrintField(t, n)) && next == ptr + FieldSize(n)
    {
      next := ptr;
      if |n| != 0 {
        WriteNext(data, off, was, done, ptr, [t, SECOND, |n| % 256]);
        WriteNext(data, off, was, done + [t, SECOND, |n| % 256], ptr + 3, n);
        next := ptr + 3 + |n|;
        assert done + [t, SECOND, |n| % 256] + n == done + PrintField(t, n);
      } else {
        assert done + PrintField(t, n) == done;
      }
    }

    /** Exactly size() bytes are written, whatever the lengths of the names. */
    method Serialize(data: array<byte>, off: nat)
      requires off + Size(f) <= data.Length
      modifies data
      ensures data[..] == Patch(old(data[..]), off, Print(f))
    {
      ghost var was := data[..];
      WriteNext(data, off, was, [], off, MAGIC);
      ghost var done := MAGIC;
      var ptr := off + 2;
      ptr := SerializeField(data, off, was, done, ptr, SENDER_TAG, f.sender);
      done := done + PrintField(SENDER_TAG, f.sender);
      ptr := SerializeField(data, off, was, done, ptr, RECVER_TAG, f.recver);
      done := done + PrintField(RECVER_TAG, f.recver);
      ptr := SerializeField(data, off, was, done, ptr, MODULE_TAG, f.mod);
      done := done + PrintField(MODULE_TAG, f.mod);
      ptr := SerializeField(data, off, was, done, ptr, FUNCTION_TAG, f.func);
      done := done + PrintField(FUNCTION_TAG, f.func);
      WriteNext(data, off, was, done, ptr, BODY_DATA);
    }

    /** The loop of DeserializeBodyHead; `inside` is false where the C++ would read past the buffer. */
    method Deserialize(data: array<byte>, off: nat) returns (inside: bool)
      requires off <= data.Length
      modifies this
      ensures inside <==> Parse(data[..], off, old(f)).Parsed?
      ensures inside ==> f == Parse(data[..], off, old(f)).f
    {
      ghost var b := data[..];
      if off + 2 > data.Length {
        return false;
      }
      assert b[off..off + 2] == [data[off], data[off + 1]];
      if data[off] != 0xA5 || data[off + 1] != 0x5A {
        return true;
      }
      var ptr: int := off + 2;
      var loop := true;
      while loop
        invariant 0 <= ptr <= data.Length && data[..] == b
        invariant ParseRecords(b, off + 2, old(f)) == ParseRecords(b, ptr, f)
        invariant !loop ==> ptr < data.Length && !IsTag(data[ptr])
        decreases data.Length - ptr, if loop then 1 else 0
      {
        if ptr == data.Length {
          return false;
        }
        if data[ptr] == SENDER_TAG || data[ptr] == RECVER_TAG || data[ptr] == MODULE_TAG || data[ptr] == FUNCTION_TAG {
          if ptr + 3 > data.Length || ptr + 3 + data[ptr + 2] > data.Length {
            return false;
          }
          var v := data[ptr + 3..ptr + 3 + data[ptr + 2]];
          match data[ptr] {
            case 0x53 => f := f.(sender := f.sender + v);
            case 0x52 => f := f.(recver := f.recver + v);
            case 0x4D => f := f.(mod := f.mod + v);
            case _ => f := f.(func := f.func + v);
          }
          ptr := ptr + 3 + data[ptr + 2];
        } else {
          loop := false;
        }
      }
      inside := true;
    }
  }

  // ---- What the parser makes of a sequence of records ----

  /** A record as it lies in the buffer; the second tag byte is not looked at. */
  datatype Record = Record(tag: byte, second: byte, value: seq<byte>)

  predicate WellFormed(r: Record) { IsTag(r.tag) && |r.value| < 256 }

  function RenderOne(r: Record): seq<byte>
    requires WellFormed(r)
  {
    var front: seq<byte> := [r.tag, r.second, |r.value|];
    front + r.value
  }

  function Render(rs: seq<Record>): seq<byte>
    requires forall i :: 0 <= i < |rs| ==> WellFormed(rs[i])
  {
    if rs == [] then [] else RenderOne(rs[0]) + Render(rs[1..])
  }

  /** The values of one tag, joined in order. */
  function Joined(rs: seq<Record>, t: byte): seq<byte> {
    if rs == [] then [] else (if rs[0].tag == t then rs[0].value else []) + Joined(rs[1..], t)
  }

  function Collected(f: Fields, rs: seq<Record>): Fields {
    Fields(f.sender + Joined(rs, SENDER_TAG), f.recver + Joined(rs, RECVER_TAG),
           f.mod + Joined(rs, MODULE_TAG), f.func + Joined(rs, FUNCTION_TAG))
  }

  /** b holds v at i. */
  predicate Holds(b: seq<byte>, i: nat, v: seq<byte>) { i + |v| <= |b| && b[i..i + |v|] == v }

  lemma HoldsParts(b: seq<byte>, i: nat, u: seq<byte>, v: seq<byte>)
    ensures Holds(b, i, u + v) <==> Holds(b, i, u) && Holds(b, i + |u|, v)
  {
    if i + |u| + |v| <= |b| {
      assert b[i..i + |u| + |v|] == b[i..i + |u|] + b[i + |u|..i + |u| + |v|];
      assert (u + v)[..|u|] == u && (u + v)[|u|..] == v;
    }
  }

  /** One record is one turn of the loop, which moves at least three bytes on. */
  lemma ParseOfRecord(b: seq<byte>, i: nat, r: Record, f: Fields)
    requires WellFormed(r) && Holds(b, i, RenderOne(r))
    ensures |RenderOne(r)| >= 3
    ensures ParseRecords(b, i, f) == ParseRecords(b, i + |RenderOne(r)|, Append(f, r.tag, r.value))
  {
    var cell := RenderOne(r);
    assert b[i] == cell[0] && b[i + 2] == cell[2];
    assert b[i + 3..i + 3 + |r.value|] == b[i..i + |cell|][3..] == r.value;
  }

  /**
   * Whatever follows the first byte that is not a tag: every record is consumed, each field is
   * extended by the values of its tag in order, and the loop stops at that byte.
   */
  lemma {:induction false} ParseOfRender(b: seq<byte>, i: nat, rs: seq<Record>, f: Fields)
    requires forall k :: 0 <= k < |rs| ==> WellFormed(rs[k])
    requires Holds(b, i, Render(rs)) && i + |Render(rs)| < |b| && !IsTag(b[i + |Render(rs)|])
    ensures ParseRecords(b, i, f) == Parsed(Collected(f, rs), i + |Render(rs)|)
    decreases |rs|
  {
    if rs == [] {
      assert Collected(f, rs) == f;
    } else {
      var r, rest := rs[0], rs[1..];
      var j, g := i + |RenderOne(r)|, Append(f, r.tag, r.value);
      HoldsParts(b, i, RenderOne(r), Render(rest));
      assert j + |Render(rest)| == i + |Render(rs)|;
      assert ParseRecords(b, i, f) == ParseRecords(b, j, g) by {
        ParseOfRecord(b, i, r, f);
      }
      assert ParseRecords(b, j, g) == Parsed(Collected(g, rest), j + |Render(rest)|) by {
        ParseOfRender(b, j, rest, g);
      }
      CollectedCons(f, rs);
    }
  }

  lemma CollectedCons(f: Fields, rs: seq<Record>)
    requires rs != [] && IsTag(rs[0].tag)
    ensures Collected(Append(f, rs[0].tag, rs[0].value), rs[1..]) == Collected(f, rs)
  {
    var r, t := rs[0], rs[1..];
    assert f.sender + (r.value + Joined(t, SENDER_TAG)) == f.sender + r.value + Joined(t, SENDER_TAG);
    assert f.recver + (r.value + Joined(t, RECVER_TAG)) == f.recver + r.value + Joined(t, RECVER_TAG);
    assert f.mod + (r.value + Joined(t, MODULE_TAG)) == f.mod + r.value + Joined(t, MODULE_TAG);
    assert f.func + (r.value + Joined(t, FUNCTION_TAG)) == f.func + r.value + Joined(t, FUNCTION_TAG);
  }

  /** How many records carry a tag. */
  function Occurrences(rs: seq<Record>, t: byte): nat {
    if rs == [] then 0 else (if rs[0].tag == t then 1 else 0) + Occurrences(rs[1..], t)
  }

  lemma {:induction false} LengthOfRender(rs: seq<Record>)
    requires forall i :: 0 <= i < |rs| ==> WellFormed(rs[i])
    ensures |Render(rs)| ==
            3 * Occurrences(rs, SENDER_TAG) + |Joined(rs, SENDER_TAG)|
            + 3 * Occurrences(rs, RECVER_TAG) + |Joined(rs, RECVER_TAG)|
            + 3 * Occurrences(rs, MODULE_TAG) + |Joined(rs, MODULE_TAG)|
            + 3 * Occurrences(rs, FUNCTION_TAG) + |Joined(rs, FUNCTION_TAG)|
  {
    if rs != [] {
      LengthOfRender(rs[1..]);
    }
  }

  lemma {:induction false} AbsentTag(rs: seq<Record>, t: byte)
    ensures Occurrences(rs, t) == 0 ==> Joined(rs, t) == []
  {
    if rs != [] {
      AbsentTag(rs[1..], t);
    }
  }

  /** A record that is the only one of its tag gives the field its value. */
  lemma {:induction false} OnlyOne(rs: seq<Record>, i: nat)
    requires i < |rs| && Occurrences(rs, rs[i].tag) <= 1
    ensures Occurrences(rs, rs[i].tag) == 1 && Joined(rs, rs[i].tag) == rs[i].value
  {
    var t := rs[i].tag;
    if i > 0 {
      OnlyOne(rs[1..], i - 1);
    } else {
      AbsentTag(rs[1..], t);
      assert rs[0].value + [] == rs[0].value;
    }
  }

  /** The record sequence writes a tag as the printer would: once, or not at all when there is nothing to write. */
  predicate Plain(rs: seq<Record>, t: byte) {
    Occurrences(rs, t) == if Joined(rs, t) == [] then 0 else 1
  }

  /**
   * The receiver computes the offset of the user data from the parsed fields.  For any record
   * sequence it is the right one, the end of the BD tag, exactly when no tag occurs twice and
   * none with an empty value.
   */
  lemma SizeIsConsumedIff(rs: seq<Record>)
    requires forall i :: 0 <= i < |rs| ==> WellFormed(rs[i])
    ensures Size(Collected(NO_FIELDS, rs)) == 2 + |Render(rs)| + 2 <==>
            Plain(rs, SENDER_TAG) && Plain(rs, RECVER_TAG) && Plain(rs, MODULE_TAG) && Plain(rs, FUNCTION_TAG)
  {
    LengthOfRender(rs);
    AbsentTag(rs, SENDER_TAG);
    AbsentTag(rs, RECVER_TAG);
    AbsentTag(rs, MODULE_TAG);
    AbsentTag(rs, FUNCTION_TAG);
    assert Collected(NO_FIELDS, rs) == Fields(Joined(rs, SENDER_TAG), Joined(rs, RECVER_TAG),
                                              Joined(rs, MODULE_TAG), Joined(rs, FUNCTION_TAG));
  }

  function Field(f: Fields, t: byte): Name {
    if t == SENDER_TAG then f.sender
    else if t == RECVER_TAG then f.recver
    else if t == MODULE_TAG then f.mod
    else if t == FUNCTION_TAG then f.func
    else []
  }

  lemma ParseOfMessage(rs: seq<Record>, data: seq<byte>)
    requires forall i :: 0 <= i < |rs| ==> WellFormed(rs[i])
    ensures var b := MAGIC + Render(rs) + BODY_DATA + data;
            && Parse(b, 0, NO_FIELDS) == Parsed(Collected(NO_FIELDS, rs), 2 + |Render(rs)|)
            && b[2 + |Render(rs)| + 2..] == data
  {
    var b := MAGIC + Render(rs) + BODY_DATA + data;
    assert Holds(b, 0, MAGIC) && Holds(b, 2, Render(rs)) && b[2 + |Render(rs)|] == BODY_DATA[0];
    ParseOfRender(b, 2, rs, NO_FIELDS);
  }

  /**
   * Records in any order, each tag at most once and no value empty: each field gets the value
   * of its record, a field without one stays empty, and the user data is found right behind BD.
   */
  lemma ParseAnyOrder(rs: seq<Record>, data: seq<byte>)
    requires forall i :: 0 <= i < |rs| ==> WellFormed(rs[i]) && rs[i].value != [] && Occurrences(rs, rs[i].tag) <= 1
    ensures var b := MAGIC + Render(rs) + BODY_DATA + data;
            var p := Parse(b, 0, NO_FIELDS);
            && p.Parsed?
            && (forall i :: 0 <= i < |rs| ==> Field(p.f, rs[i].tag) == rs[i].value)
            && (forall t :: IsTag(t) && Occurrences(rs, t) == 0 ==> Field(p.f, t) == [])
            && Size(p.f) <= |b| && b[Size(p.f)..] == data
  {
    ParseOfMessage(rs, data);
    var p := Parse(MAGIC + Render(rs) + BODY_DATA + data, 0, NO_FIELDS);
    assert p.f == Fields(Joined(rs, SENDER_TAG), Joined(rs, RECVER_TAG), Joined(rs, MODULE_TAG), Joined(rs, FUNCTION_TAG));
    forall i | 0 <= i < |rs|
      ensures Field(p.f, rs[i].tag) == rs[i].value
    {
      OnlyOne(rs, i);
    }
    forall t | IsTag(t)
      ensures Occurrences(rs, t) == 0 ==> Field(p.f, t) == []
      ensures Plain(rs, t)
    {
      AbsentTag(rs, t);
      if Occurrences(rs, t) > 0 {
        var i := SomeWith(rs, t);
        OnlyOne(rs, i);
      }
    }
    SizeIsConsumedIff(rs);
  }

  lemma {:induction false} SomeWith(rs: seq<Record>, t: byte) returns (i: nat)
    requires Occurrences(rs, t) > 0
    ensures i < |rs| && rs[i].tag == t
  {
    if rs[0].tag == t {
      i := 0;
    } else {
      i := SomeWith(rs[1..], t);
      i := i + 1;
    }
  }

  // ---- The printer's own output ----

  predicate Short(f: Fields) { |f.sender| < 256 && |f.recver| < 256 && |f.mod| < 256 && |f.func| < 256 }

  /** A printed field is one turn of the loop, or none. */
  lemma ParseStep(b: seq<byte>, i: nat, j: nat, t: byte, n: Name, f: Fields, g: Fields, r: Parsed)
    requires IsTag(t) && |n| < 256 && Holds(b, i, PrintField(t, n)) && j == i + FieldSize(n)
    requires g == Append(f, t, n) && ParseRecords(b, j, g) == r
    ensures ParseRecords(b, i, f) == r
  {
    if n == [] {
      assert g == f;
    } else {
      ParseOfRecord(b, i, Record(t, SECOND, n), f);
    }
  }

  /** Where each part of a printed body head lies. */
  lemma PrintHolds(b: seq<byte>, i: nat, f: Fields)
    requires Holds(b, i, Print(f))
    ensures var i2 := i + 2 + FieldSize(f.sender);
            var i3 := i2 + FieldSize(f.recver);
            var i4 := i3 + FieldSize(f.mod);
            var i5 := i4 + FieldSize(f.func);
            && Holds(b, i, MAGIC)
            && Holds(b, i + 2, PrintField(SENDER_TAG, f.sender))
            && Holds(b, i2, PrintField(RECVER_TAG, f.recver))
            && Holds(b, i3, PrintField(MODULE_TAG, f.mod))
            && Holds(b, i4, PrintField(FUNCTION_TAG, f.func))
            && i5 + 2 <= |b| && b[i5] == BODY_DATA[0] && b[i5 + 1] == BODY_DATA[1]
  {
    var s, r := PrintField(SENDER_TAG, f.sender), PrintField(RECVER_TAG, f.recver);
    var m, u := PrintField(MODULE_TAG, f.mod), PrintField(FUNCTION_TAG, f.func);
    var p1 := MAGIC + s;
    var p2 := p1 + r;
    var p3 := p2 + m;
    var p4 := p3 + u;
    assert |p1| == 2 + FieldSize(f.sender) && |p2| == |p1| + FieldSize(f.recver);
    assert |p3| == |p2| + FieldSize(f.mod) && |p4| == |p3| + FieldSize(f.func);
    assert Print(f) == p4 + BODY_DATA;
    HoldsParts(b, i, p4, BODY_DATA);
    HoldsParts(b, i, p3, u);
    HoldsParts(b, i, p2, m);
    HoldsParts(b, i, p1, r);
    HoldsParts(b, i, MAGIC, s);
    var i5 := i + |p4|;
    assert b[i5] == b[i5..i5 + 2][0] && b[i5 + 1] == b[i5..i5 + 2][1];
  }

  /** b holds the two letters of a tag, the length modulo 256 and the name at i; nothing for an empty name. */
  predicate FieldAt(b: seq<byte>, i: nat, letter: char, n: Name) {
    n != [] ==>
      && i + 3 + |n| <= |b|
      && b[i] == letter as int && b[i + 1] == 'N' as int && b[i + 2] == |n| % 256
      && forall j :: 0 <= j < |n| ==> b[i + 3 + j] == n[j]
  }

  lemma FieldLies(b: seq<byte>, i: nat, t: byte, letter: char, n: Name)
    requires Holds(b, i, PrintField(t, n)) && t == letter as int
    ensures FieldAt(b, i, letter, n)
  {
    if n != [] {
      var cell := PrintField(t, n);
      assert forall k :: 0 <= k < |cell| ==> b[i + k] == b[i..i + |cell|][k] == cell[k];
    }
  }

  /** A5 5A in front and BD behind. */
  lemma BodyEnds(f: Fields)
    ensures var b := Print(f);
            && |b| == Size(f) && b[0] == 0xA5 && b[1] == 0x5A
            && b[|b| - 2] == 'B' as int && b[|b| - 1] == 'D' as int
  {
  }

  /** The layout of a body head: A5 5A, then SN, RN, MN and FN with their names, then BD. */
  lemma BodyLayout(f: Fields)
    ensures var b := Print(f);
            var i2 := 2 + FieldSize(f.sender);
            var i3 := i2 + FieldSize(f.recver);
            var i4 := i3 + FieldSize(f.mod);
            && FieldAt(b, 2, 'S', f.sender) && FieldAt(b, i2, 'R', f.recver)
            && FieldAt(b, i3, 'M', f.mod) && FieldAt(b, i4, 'F', f.func)
            && b[0] == 0xA5 && b[1] == 0x5A
            && |b| == i4 + FieldSize(f.func) + 2 && b[|b| - 2] == 'B' as int && b[|b| - 1] == 'D' as int
  {
    HoldsSelf(Print(f));
    SenderLies(Print(f), f);
    RecverLies(Print(f), f);
    ModuleLies(Print(f), f);
    FunctionLies(Print(f), f);
    BodyEnds(f);
  }

  lemma HoldsSelf(b: seq<byte>)
    ensures Holds(b, 0, b)
  {
  }

  lemma SenderLies(b: seq<byte>, f: Fields)
    requires Holds(b, 0, Print(f))
    ensures FieldAt(b, 2, 'S', f.sender)
  {
    PrintHolds(b, 0, f);
    FieldLies(b, 2, SENDER_TAG, 'S', f.sender);
  }

  lemma RecverLies(b: seq<byte>, f: Fields)
    requires Holds(b, 0, Print(f))
    ensures FieldAt(b, 2 + FieldSize(f.sender), 'R', f.recver)
  {
    PrintHolds(b, 0, f);
    FieldLies(b, 2 + FieldSize(f.sender), RECVER_TAG, 'R', f.recver);
  }

  lemma ModuleLies(b: seq<byte>, f: Fields)
    requires Holds(b, 0, Print(f))
    ensures FieldAt(b, 2 + FieldSize(f.sender) + FieldSize(f.recver), 'M', f.mod)
  {
    PrintHolds(b, 0, f);
    FieldLies(b, 2 + FieldSize(f.sender) + FieldSize(f.recver), MODULE_TAG, 'M', f.mod);
  }

  lemma FunctionLies(b: seq<byte>, f: Fields)
    requires Holds(b, 0, Print(f))
    ensures FieldAt(b, 2 + FieldSize(f.sender) + FieldSize(f.recver) + FieldSize(f.mod), 'F', f.func)
  {
    PrintHolds(b, 0, f);
    FieldLies(b, 2 + FieldSize(f.sender) + FieldSize(f.recver) + FieldSize(f.mod), FUNCTION_TAG, 'F', f.func);
  }

  lemma AppendToEmpty(f: Fields)
    ensures Append(NO_FIELDS, SENDER_TAG, f.sender) == Fields(f.sender, [], [], [])
    ensures Append(Fields(f.sender, [], [], []), RECVER_TAG, f.recver) == Fields(f.sender, f.recver, [], [])
    ensures Append(Fields(f.sender, f.recver, [], []), MODULE_TAG, f.mod) == Fields(f.sender, f.recver, f.mod, [])
    ensures Append(Fields(f.sender, f.recver, f.mod, []), FUNCTION_TAG, f.func) == f
  {
  }

  /** The last two fields of a printed body head. */
  lemma TailRoundTrip(b: seq<byte>, i: nat, f: Fields)
    requires |f.mod| < 256 && |f.func| < 256
    requires Holds(b, i, PrintField(MODULE_TAG, f.mod))
    requires Holds(b, i + FieldSize(f.mod), PrintField(FUNCTION_TAG, f.func))
    requires var j := i + FieldSize(f.mod) + FieldSize(f.func); j < |b| && b[j] == BODY_DATA[0]
    ensures ParseRecords(b, i, Fields(f.sender, f.recver, [], [])) ==
            Parsed(f, i + FieldSize(f.mod) + FieldSize(f.func))
  {
    AppendToEmpty(f);
    var j := i + FieldSize(f.mod);
    var k := j + FieldSize(f.func);
    var r := Parsed(f, k);
    ParseStep(b, j, k, FUNCTION_TAG, f.func, Fields(f.sender, f.recver, f.mod, []), f, r);
    ParseStep(b, i, j, MODULE_TAG, f.mod, Fields(f.sender, f.recver, [], []), Fields(f.sender, f.recver, f.mod, []), r);
  }

  /** The last three. */
  lemma RestRoundTrip(b: seq<byte>, i: nat, f: Fields)
    requires |f.recver| < 256 && |f.mod| < 256 && |f.func| < 256
    requires Holds(b, i, PrintField(RECVER_TAG, f.recver))
    requires var j := i + FieldSize(f.recver);
             && Holds(b, j, PrintField(MODULE_TAG, f.mod))
             && Holds(b, j + FieldSize(f.mod), PrintField(FUNCTION_TAG, f.func))
             && j + FieldSize(f.mod) + FieldSize(f.func) < |b|
             && b[j + FieldSize(f.mod) + FieldSize(f.func)] == BODY_DATA[0]
    ensures ParseRecords(b, i, Fields(f.sender, [], [], [])) ==
            Parsed(f, i + FieldSize(f.recver) + FieldSize(f.mod) + FieldSize(f.func))
  {
    var j := i + FieldSize(f.recver);
    TailRoundTrip(b, j, f);
    AppendToEmpty(f);
    ParseStep(b, i, j, RECVER_TAG, f.recver, Fields(f.sender, [], [], []), Fields(f.sender, f.recver, [], []),
              Parsed(f, j + FieldSize(f.mod) + FieldSize(f.func)));
  }

  /** Names of at most 255 bytes come back, whatever the user data looks like. */
  lemma BodyRoundTrip(b: seq<byte>, i: nat, f: Fields)
    requires Short(f) && Holds(b, i, Print(f))
    ensures Parse(b, i, NO_FIELDS) == Parsed(f, i + Size(f) - 2)
  {
    PrintHolds(b, i, f);
    var i2, r := i + 2 + FieldSize(f.sender), Parsed(f, i + Size(f) - 2);
    assert ParseRecords(b, i2, Fields(f.sender, [], [], [])) == r by {
      RestRoundTrip(b, i2, f);
    }
    assert Append(NO_FIELDS, SENDER_TAG, f.sender) == Fields(f.sender, [], [], []) by {
      AppendToEmpty(f);
    }
    ParseStep(b, i + 2, i2, SENDER_TAG, f.sender, NO_FIELDS, Fields(f.sender, [], [], []), r);
  }

  // ---- Names of 256 bytes and more ----

  /**
   * A longer name does not come back: its length is written modulo 256, and unless a tag
   * happens to lie that many bytes into the name, the parser ends there.
   */
  lemma LongFieldIsCut(b: seq<byte>, i: nat, t: byte, n: Name, f: Fields)
    requires IsTag(t) && LongAndClean(n) && Holds(b, i, PrintField(t, n))
    ensures ParseRecords(b, i, f) == Parsed(Append(f, t, n[..|n| % 256]), i + 3 + |n| % 256)
  {
    var k := |n| % 256;
    var r := Record(t, SECOND, n[..k]);
    assert Holds(b, i, RenderOne(r)) && Holds(b, i + 3 + k, n[k..]) by {
      assert PrintField(t, n) == RenderOne(r) + n[k..];
      HoldsParts(b, i, RenderOne(r), n[k..]);
    }
    assert b[i + 3 + k] == n[k] by {
      assert b[i + 3 + k] == b[i + 3 + k..i + 3 + k + |n[k..]|][0];
    }
    ParseOfRecord(b, i, r, f);
  }

  /** The first field, in printing order, with a name of 256 bytes or more. */
  function FirstLong(f: Fields): Name
    requires !Short(f)
  {
    if |f.sender| >= 256 then f.sender
    else if |f.recver| >= 256 then f.recver
    else if |f.mod| >= 256 then f.mod
    else f.func
  }

  /** No tag byte where a long name is cut. */
  predicate LongAndClean(n: Name) { |n| >= 256 && !IsTag(n[|n| % 256]) }

  /** No tag byte where the first long name is cut. */
  predicate CutCleanly(f: Fields) { Short(f) || LongAndClean(FirstLong(f)) }

  /** What is parsed when the module or the function name is too long. */
  lemma LongTailIsCut(b: seq<byte>, i: nat, f: Fields)
    requires LongAndClean(f.mod) || (|f.mod| < 256 && LongAndClean(f.func))
    requires Holds(b, i, PrintField(MODULE_TAG, f.mod))
    requires Holds(b, i + FieldSize(f.mod), PrintField(FUNCTION_TAG, f.func))
    ensures var p := ParseRecords(b, i, Fields(f.sender, f.recver, [], [])); p.Parsed? && p.f != f
  {
    var g := Fields(f.sender, f.recver, [], []);
    if |f.mod| >= 256 {
      LongFieldIsCut(b, i, MODULE_TAG, f.mod, g);
    } else {
      var j, h := i + FieldSize(f.mod), Fields(f.sender, f.recver, f.mod, []);
      AppendToEmpty(f);
      LongFieldIsCut(b, j, FUNCTION_TAG, f.func, h);
      ParseStep(b, i, j, MODULE_TAG, f.mod, g, h, ParseRecords(b, j, h));
    }
  }

  /** What is parsed behind a short sender. */
  lemma LongRestIsCut(b: seq<byte>, i: nat, f: Fields)
    requires LongAndClean(f.recver)
             || (|f.recver| < 256 && (LongAndClean(f.mod) || (|f.mod| < 256 && LongAndClean(f.func))))
    requires var j := i + FieldSize(f.recver);
             && Holds(b, i, PrintField(RECVER_TAG, f.recver))
             && Holds(b, j, PrintField(MODULE_TAG, f.mod))
             && Holds(b, j + FieldSize(f.mod), PrintField(FUNCTION_TAG, f.func))
    ensures var p := ParseRecords(b, i, Fields(f.sender, [], [], [])); p.Parsed? && p.f != f
  {
    var g, h := Fields(f.sender, [], [], []), Fields(f.sender, f.recver, [], []);
    if |f.recver| >= 256 {
      LongFieldIsCut(b, i, RECVER_TAG, f.recver, g);
    } else {
      var j := i + FieldSize(f.recver);
      AppendToEmpty(f);
      LongTailIsCut(b, j, f);
      ParseStep(b, i, j, RECVER_TAG, f.recver, g, h, ParseRecords(b, j, h));
    }
  }

  lemma LongNameIsLost(b: seq<byte>, i: nat, f: Fields)
    requires !Short(f) && CutCleanly(f) && Holds(b, i, Print(f))
    ensures var p := Parse(b, i, NO_FIELDS); p.Parsed? && p.f != f
  {
    PrintHolds(b, i, f);
    var i1 := i + 2;
    if |f.sender| >= 256 {
      LongFieldIsCut(b, i1, SENDER_TAG, f.sender, NO_FIELDS);
    } else {
      var i2, g := i1 + FieldSize(f.sender), Fields(f.sender, [], [], []);
      LongRestIsCut(b, i2, f);
      assert Append(NO_FIELDS, SENDER_TAG, f.sender) == g by {
        AppendToEmpty(f);
      }
      ParseStep(b, i1, i2, SENDER_TAG, f.sender, NO_FIELDS, g, ParseRecords(b, i2, g));
    }
  }

  /** The names come back exactly when all are of at most 255 bytes, unless a tag byte lies at the cut. */
  lemma NamesSurviveIff(b: seq<byte>, i: nat, f: Fields)
    requires CutCleanly(f) && Holds(b, i, Print(f))
    ensures var p := Parse(b, i, NO_FIELDS); p.Parsed? && (p.f == f <==> Short(f))
  {
    if Short(f) {
      BodyRoundTrip(b, i, f);
    } else {
      LongNameIsLost(b, i, f);
    }
  }

  // ---- A tag byte at the cut ----

  /** A pattern of tags and lengths that describes itself: a name and what lies behind it. */
  function Pattern(j: nat): byte {
    if j < 9 then [0x4D, 0x00, 0x06][j % 3]
    else if j < 80 then [0x4D, 0x00, 0x06, 0x4D, 0x42, 0x44][j % 6]
    else [0x00, 0xB6, 0x06, 0x4D, 0x42, 0x44, 0x4D, 0x00, 0x4D][j % 9]
  }

  function Patterned(): (s: seq<byte>)
    ensures |s| == 265 && forall j :: 0 <= j < 265 ==> s[j] == Pattern(j)
  {
    seq<byte>(265, j requires 0 <= j < 265 => Pattern(j))
  }

  lemma PatternRepeats(j: nat)
    ensures j < 6 ==> Pattern(j + 3) == Pattern(j)
    ensures 6 <= j < 74 ==> Pattern(j + 6) == Pattern(j)
    ensures 74 <= j ==> Pattern(j + 9) == Pattern(j)
  {
    if 9 <= j < 74 {
      assert (j + 6) % 6 == j % 6;
    } else if 80 <= j {
      assert (j + 9) % 9 == j % 9;
    } else if j < 9 {
      PatternStart(j);
    } else {
      PatternMiddle(j);
    }
  }

  lemma PatternStart(j: nat)
    requires j < 9
    ensures j < 6 ==> Pattern(j + 3) == Pattern(j)
    ensures 6 <= j ==> Pattern(j + 6) == Pattern(j)
  {
    assert j in {0, 1, 2, 3, 4, 5, 6, 7, 8};
  }

  lemma PatternMiddle(j: nat)
    requires 74 <= j < 80
    ensures Pattern(j + 9) == Pattern(j)
  {
    assert j in {74, 75, 76, 77, 78, 79};
  }

  /** The first 256 bytes are three of the records in it, joined. */
  lemma PatternJoins(s: seq<byte>)
    requires s == Patterned()
    ensures s[3..9] + s[12..80] + s[83..265] == s[..256]
  {
    var a, b, c := s[3..9], s[12..80], s[83..265];
    forall j: nat | j < 256
      ensures (a + b + c)[j] == s[j]
    {
      PatternRepeats(j);
      assert (a + b + c)[j] == if j < 6 then a[j] else if j < 74 then b[j - 6] else c[j - 74];
    }
  }

  /** A module record that lies at i in the part of b that begins at p. */
  lemma ParseWithin(b: seq<byte>, p: nat, s: seq<byte>, i: nat, j: nat, f: Fields)
    requires Holds(b, p, s) && i + 3 <= j <= |s| && s[i] == MODULE_TAG && s[i + 2] == j - i - 3
    ensures ParseRecords(b, p + i, f) == ParseRecords(b, p + j, f.(mod := f.mod + s[i + 3..j]))
  {
    var r := Record(MODULE_TAG, s[i + 1], s[i + 3..j]);
    assert forall k :: 0 <= k < |s| ==> b[p + k] == b[p..p + |s|][k] == s[k];
    assert b[p + i..p + j] == s[i..j];
    assert s[i..j] == RenderOne(r);
    ParseOfRecord(b, p + i, r, f);
  }

  lemma PatternParse(b: seq<byte>, s: seq<byte>)
    requires s == Patterned() && |b| == 271 && Holds(b, 0, MAGIC) && !IsTag(b[270])
    requires Holds(b, 2, RenderOne(Record(MODULE_TAG, SECOND, []))) && Holds(b, 5, s)
    ensures Parse(b, 0, NO_FIELDS) == Parsed(NO_FIELDS.(mod := s[..256]), 270)
  {
    var f := NO_FIELDS;
    assert Append(f, MODULE_TAG, []) == f;
    ParseOfRecord(b, 2, Record(MODULE_TAG, SECOND, []), f);
    PatternTags();
    ParseWithin(b, 5, s, 0, 9, f);
    assert [] + s[3..9] == s[3..9];
    ParseWithin(b, 5, s, 9, 80, f.(mod := s[3..9]));
    ParseWithin(b, 5, s, 80, 265, f.(mod := s[3..9] + s[12..80]));
    PatternJoins(s);
  }

  lemma PatternTags()
    ensures Pattern(0) == Pattern(9) == Pattern(80) == MODULE_TAG
    ensures Pattern(2) == 6 && Pattern(11) == 68 && Pattern(82) == 182
    ensures Pattern(256) == BODY_DATA[0] && Pattern(257) == BODY_DATA[1]
  {
  }

  lemma PrintOfModule(n: Name)
    requires |n| == 256
    ensures Print(NO_FIELDS.(mod := n)) == MAGIC + (RenderOne(Record(MODULE_TAG, SECOND, [])) + n) + BODY_DATA
  {
    assert RenderOne(Record(MODULE_TAG, SECOND, [])) + n == PrintField(MODULE_TAG, n);
    assert MAGIC + [] + [] + PrintField(MODULE_TAG, n) + [] + BODY_DATA == MAGIC + PrintField(MODULE_TAG, n) + BODY_DATA;
  }

  lemma Reassociate(u: seq<byte>, v: seq<byte>, n: seq<byte>, w: seq<byte>, d: seq<byte>, x: seq<byte>)
    ensures u + (v + n) + w + (d + x) == u + (v + ((n + w + d) + x))
  {
  }

  lemma HoldsAll(b: seq<byte>, u: seq<byte>, v: seq<byte>, w: seq<byte>, x: seq<byte>)
    requires b == u + (v + (w + x))
    ensures Holds(b, 0, u) && Holds(b, |u|, v) && Holds(b, |u| + |v|, w) && Holds(b, |u| + |v| + |w|, x)
  {
    assert Holds(b, 0, b);
    HoldsParts(b, 0, u, v + (w + x));
    HoldsParts(b, |u|, v, w + x);
    HoldsParts(b, |u| + |v|, w, x);
  }

  /**
   * The condition on the cut is needed: here are a name too long for its length byte and user
   * data with which it comes back all the same, because together they look like records that
   * complete it.
   */
  lemma LongNameCanSurvive() returns (f: Fields, data: seq<byte>)
    ensures !Short(f) && !CutCleanly(f)
    ensures Parse(Print(f) + data, 0, NO_FIELDS) == Parsed(f, |Print(f)| + |data| - 1)
  {
    var s := Patterned();
    f, data := NO_FIELDS.(mod := s[..256]), s[258..] + [0x00];
    PatternTags();
    var r := Record(MODULE_TAG, SECOND, []);
    var b := Print(f) + data;
    PrintOfModule(f.mod);
    assert s == f.mod + BODY_DATA + s[258..];
    Reassociate(MAGIC, RenderOne(r), f.mod, BODY_DATA, s[258..], [0x00]);
    HoldsAll(b, MAGIC, RenderOne(r), s, [0x00]);
    PatternParse(b, s);
    assert FirstLong(f) == f.mod && f.mod[0] == MODULE_TAG;
  }
}
