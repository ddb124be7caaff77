/** A whole message of src/message/message.cpp, on its way to the wire and back. */
module Messages {
  import opened Names
  import opened Buffers
  import opened MessageHeads
  import opened BodyHeads

  /** The three parts of a message. */
  datatype Packet = Packet(head: Head, names: Fields, data: seq<byte>)

  /** getMessageSize */
  function TotalSize(p: Packet): nat { 32 + Size(p.names) + |p.data| }

  function Wire(p: Packet): (b: seq<byte>)
    ensures |b| == TotalSize(p)
  {
    Encode(p.head) + Print(p.names) + p.data
  }

  /** What src/rpc_core.cpp 1364-1368 makes of a received buffer; None where it would read outside it. */
  function Received(b: seq<byte>): Option<Packet> {
    if |b| < 32 then None
    else
      match Parse(b, 32, NO_FIELDS)
      case Overrun => None
      case Parsed(f, _) =>
        if 32 + Size(f) > |b| then None
        else Some(Packet(Decode(b[..32]), f, b[32 + Size(f)..]))
  }

  /** What the wire does to a packet: nothing, but for the timeout modulo 4096. */
  function Carried(p: Packet): Packet { p.(head := p.head.(timeout := Reduced(p.head.timeout))) }

  /** Every header field, the four names and the user data come back, whatever bytes the data holds. */
  lemma WireRoundTrip(p: Packet)
    requires Short(p.names)
    ensures Received(Wire(p)) == Some(Carried(p))
  {
    var b := Wire(p);
    assert b == Encode(p.head) + (Print(p.names) + p.data);
    assert b[..32] == Encode(p.head);
    assert b[32..32 + Size(p.names)] == Print(p.names);
    assert b[32 + Size(p.names)..] == p.data;
    HeadRoundTrip(p.head);
    BodyRoundTrip(b, 32, p.names);
  }

  /**
   * A message comes back unchanged exactly when its names have at most 255 bytes and both parts
   * of its timeout are in 0..4095, unless a tag byte lies where a longer name is cut.
   */
  lemma ExactRoundTripIff(p: Packet)
    requires CutCleanly(p.names)
    ensures Received(Wire(p)) == Some(p) <==>
            Short(p.names) && 0 <= p.head.timeout.sec < 4096 && 0 <= p.head.timeout.usec < 4096
  {
    if Short(p.names) {
      WireRoundTrip(p);
      ReducedIff(p.head.timeout);
      assert Carried(p) == p <==> Reduced(p.head.timeout) == p.head.timeout;
    } else {
      var b := Wire(p);
      assert b == Encode(p.head) + (Print(p.names) + p.data);
      assert b[32..32 + Size(p.names)] == Print(p.names);
      LongNameIsLost(b, 32, p.names);
    }
  }

  /** A header and a body head that parses, with its data behind it. */
  lemma ReceivedBehind(h: Head, body: seq<byte>, f: Fields, at: nat)
    requires Parse(body, 0, NO_FIELDS) == Parsed(f, at) && Size(f) <= |body|
    ensures Received(Encode(h) + body) == Some(Packet(h.(timeout := Reduced(h.timeout)), f, body[Size(f)..]))
  {
    var b := Encode(h) + body;
    ParseShifted(Encode(h), body, 0, NO_FIELDS);
    assert Parse(b, 32, NO_FIELDS) == Parsed(f, 32 + at);
    assert b[..32] == Encode(h);
    HeadRoundTrip(h);
    assert b[32 + Size(f)..] == body[Size(f)..];
  }

  /** Where a tag byte does lie there, a message with a longer name may come back all the same. */
  lemma LongMessageCanSurvive(h: Head) returns (p: Packet)
    ensures p.head == h && !Short(p.names) && Received(Wire(p)) == Some(Carried(p))
  {
    var f, data := LongNameCanSurvive();
    var body := Print(f) + data;
    p := Packet(h, f, data);
    ReceivedBehind(h, body, f, |body| - 1);
    assert Wire(p) == Encode(h) + body && body[Size(f)..] == data;
  }

  /** The same names and data, with the records of the body head in any other order. */
  lemma AnyOrderRoundTrip(h: Head, rs: seq<Record>, data: seq<byte>)
    requires forall i :: 0 <= i < |rs| ==> WellFormed(rs[i]) && rs[i].value != [] && Occurrences(rs, rs[i].tag) <= 1
    ensures var r := Received(Encode(h) + (MAGIC + Render(rs) + BODY_DATA + data));
            && r.Some? && r.value.data == data
            && (forall i :: 0 <= i < |rs| ==> Field(r.value.names, rs[i].tag) == rs[i].value)
            && (forall t :: IsTag(t) && Occurrences(rs, t) == 0 ==> Field(r.value.names, t) == [])
  {
    var body := MAGIC + Render(rs) + BODY_DATA + data;
    ParseAnyOrder(rs, data);
    var p := Parse(body, 0, NO_FIELDS);
    ReceivedBehind(h, body, p.f, p.at);
  }

  /** Parsing does not depend on where the body head starts. */
  lemma ParseShifted(pre: seq<byte>, b: seq<byte>, i: nat, f: Fields)
    requires i <= |b|
    ensures var p, q := Parse(b, i, f), Parse(pre + b, |pre| + i, f);
            (p.Overrun? && q.Overrun?) || (p.Parsed? && q.Parsed? && q.f == p.f && q.at == |pre| + p.at)
  {
    if i + 2 <= |b| {
      assert (pre + b)[|pre| + i..|pre| + i + 2] == b[i..i + 2];
      RecordsShifted(pre, b, i + 2, f);
    }
  }

  lemma {:induction false} RecordsShifted(pre: seq<byte>, b: seq<byte>, i: nat, f: Fields)
    requires i <= |b|
    ensures var p, q := ParseRecords(b, i, f), ParseRecords(pre + b, |pre| + i, f);
            (p.Overrun? && q.Overrun?) || (p.Parsed? && q.Parsed? && q.f == p.f && q.at == |pre| + p.at)
    decreases |b| - i
  {
    var c := pre + b;
    if i + 3 <= |b| && IsTag(b[i]) && i + 3 + b[i + 2] <= |b| {
      assert c[|pre| + i] == b[i] && c[|pre| + i + 2] == b[i + 2];
      assert c[|pre| + i + 3..|pre| + i + 3 + b[i + 2]] == b[i + 3..i + 3 + b[i + 2]];
      RecordsShifted(pre, b, i + 3 + b[i + 2], Append(f, b[i], b[i + 3..i + 3 + b[i + 2]]));
    }
  }

  class Message {
    const messageHead: MessageHead
    const bodyHead: BodyHead
    var userData: seq<byte>

    ghost function Value(): Packet
      reads this, messageHead, bodyHead
    {
      Packet(messageHead.m, bodyHead.f, userData)
    }

    constructor ()
      ensures Value() == Packet(FRESH_HEAD, NO_FIELDS, [])
      ensures fresh(messageHead) && fresh(bodyHead)
    {
      messageHead := new MessageHead();
      bodyHead := new BodyHead();
      userData := [];
    }

    /** setBodyHead */
    method SetBodyHead(sender: Name, recver: Name, mod: Name, func: Name)
      modifies bodyHead
      ensures Value() == old(Value()).(names := Fields(sender, recver, mod, func))
    {
      bodyHead.f := Fields(sender, recver, mod, func);
    }

    /** mallocBodyData: a copy of the bytes. */
    method MallocBodyData(data: seq<byte>)
      modifies this
      ensures Value() == old(Value()).(data := data)
    {
      userData := data;
    }

    /** updateBodySize: everything behind the header, in 32 bits. */
    method UpdateBodySize()
      modifies messageHead
      ensures Value() == old(Value()).(head := old(messageHead.m).(bodySize := (TotalSize(old(Value())) - 32) % 0x1_0000_0000))
      ensures TotalSize(Value()) - 32 < 0x1_0000_0000 ==> messageHead.m.bodySize == TotalSize(Value()) - 32
    {
      var n := bodyHead.GetSize();
      messageHead.m := messageHead.m.(bodySize := (n + |userData|) % 0x1_0000_0000);
    }

    /** serializeMessage: a new buffer of getMessageSize() bytes, every one of them written. */
    method Serialize() returns (data: array<byte>)
      ensures fresh(data) && data.Length == TotalSize(Value()) && data[..] == Wire(Value())
    {
      var n := bodyHead.GetSize();
      var len := 32 + n + |userData|;
      data := new byte[len];
      ghost var was := data[..];
      var p := messageHead.m;
      messageHead.Serialize(data, 0);
      bodyHead.Serialize(data, 32);
      PatchTwice(was, 0, Encode(messageHead.m), Print(bodyHead.f));
      ghost var front := Encode(messageHead.m) + Print(bodyHead.f);
      if |userData| != 0 {
        WriteNext(data, 0, was, front, 32 + n, userData);
      } else {
        assert front + userData == front;
      }
      PatchAll(was, Wire(Value()));
    }

    /** The first lines of analyseReceiveData, on a new message; false where the C++ would read outside the buffer. */
    method Receive(data: array<byte>) returns (inside: bool)
      requires Value() == Packet(FRESH_HEAD, NO_FIELDS, [])
      modifies this, messageHead, bodyHead
      ensures inside <==> Received(data[..]).Some?
      ensures inside ==> Value() == Received(data[..]).value
    {
      ghost var b := data[..];
      if data.Length < 32 {
        return false;
      }
      messageHead.Deserialize(data, 0);
      inside := bodyHead.Deserialize(data, 32);
      if !inside {
        return;
      }
      var n := bodyHead.GetSize();
      if 32 + n > data.Length {
        return false;
      }
      MallocBodyData(data[32 + n..]);
      assert data[0..32] == b[..32];
    }
  }
}
