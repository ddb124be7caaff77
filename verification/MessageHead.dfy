/** The 32-byte header of src/message/message_head.cpp. */
module MessageHeads {
  import opened Names
  import opened Buffers

  type nibble = x: int | 0 <= x < 16
  type bits16 = x: int | 0 <= x < 0x1_0000

  /** A struct timeval: two signed integers. */
  datatype Timeval = Timeval(sec: int, usec: int)

  /** MessageHeadStr, with the widths of its bit-fields; the reserved bits are always zero. */
  datatype Head = Head(magic: bits16, headSize: bits16, version: byte, messageType: nibble, serializeType: nibble,
                       oneWay: bool, response: bool, timeout: Timeval, statusCode: bits16, id: uint32, bodySize: uint32)

  const MESSAGE_MAGIC_NUM: bits16 := 0xF55F
  const MESSAGE_HEAD_SIZE: bits16 := 32
  const VERSION: byte := 0x01
  const MT_LINK_PK: nibble := 1
  const MT_BEAT_PK: nibble := 2
  const MT_APPLY_PK: nibble := 3
  const MT_OBSER_PK: nibble := 4
  const ST_BIN_BD: nibble := 2

  /** MessageHead::init */
  const FRESH_HEAD := Head(MESSAGE_MAGIC_NUM, MESSAGE_HEAD_SIZE, VERSION, MT_LINK_PK, ST_BIN_BD, false, false,
                           Timeval(0, 0), 0, 0, 0)

  /** What initLinkRequestMsg and its eight relatives set. */
  function Started(h: Head, messageType: nibble, oneWay: bool, response: bool,
                   tv: Timeval, id: uint32, statusCode: bits16): Head
  {
    h.(messageType := messageType, serializeType := ST_BIN_BD, oneWay := oneWay, response := response,
       timeout := tv, statusCode := statusCode, id := id)
  }

  /** 12 bits of seconds and 12 bits of the other part, in three bytes. */
  function PackTimeout(t: Timeval): seq<byte> {
    [t.sec / 16 % 256, t.sec % 16 * 16 + t.usec / 256 % 16, t.usec % 256]
  }

  function UnpackTimeout(b: seq<byte>): Timeval
    requires |b| == 3
  {
    Timeval(b[0] as int * 16 + b[1] / 16, (b[1] as int) % 16 * 256 + b[2])
  }

  function Reduced(t: Timeval): Timeval { Timeval(t.sec % 4096, t.usec % 4096) }

  /** The packing keeps each part modulo 4096. */
  lemma TimeoutModulo(t: Timeval)
    ensures UnpackTimeout(PackTimeout(t)) == Reduced(t)
  {
    var s, u := t.sec, t.usec;
    assert s % 4096 == s / 16 % 256 * 16 + s % 16;
    assert u % 4096 == u / 256 % 16 * 256 + u % 256;
    assert (s % 16 * 16 + u / 256 % 16) / 16 == s % 16;
    assert (s % 16 * 16 + u / 256 % 16) % 16 == u / 256 % 16;
  }

  lemma ReducedIff(t: Timeval)
    ensures Reduced(t) == t <==> 0 <= t.sec < 4096 && 0 <= t.usec < 4096
  {
  }

  /** A timeout survives the wire exactly when both parts are in 0..4095. */
  lemma TimeoutSurvivesIff(t: Timeval)
    ensures UnpackTimeout(PackTimeout(t)) == t <==> 0 <= t.sec < 4096 && 0 <= t.usec < 4096
  {
    TimeoutModulo(t);
    ReducedIff(t);
  }

  /** RPCCore::start splits a configured number of milliseconds; the second part stays milliseconds. */
  function Configured(ms: int): Timeval { Timeval(ms / 1000, ms % 1000) }

  /** A configured timeout survives the wire exactly below 4096 seconds. */
  lemma ConfiguredSurvivesIff(ms: nat)
    ensures UnpackTimeout(PackTimeout(Configured(ms))) == Configured(ms) <==> ms < 4_096_000
  {
    TimeoutSurvivesIff(Configured(ms));
  }

  function Flags(h: Head): byte { (if h.oneWay then 0x80 else 0) + if h.response then 0x40 else 0 }

  const RESERVED: seq<byte> := [0, 0, 0, 0, 0, 0, 0, 0, 0, 0, 0, 0]

  /** The bytes in front of the timeout, and those behind it. */
  function EncodeFront(h: Head): seq<byte> {
    Big16(h.magic) + Big16(h.headSize) + [h.version] + [h.messageType * 16 + h.serializeType] + [Flags(h)]
  }

  function EncodeBack(h: Head): seq<byte> {
    Big16(h.statusCode) + Big32(h.id) + RESERVED + Big32(h.bodySize)
  }

  function Encode(h: Head): (b: seq<byte>)
    ensures |b| == 32
  {
    EncodeFront(h) + PackTimeout(h.timeout) + EncodeBack(h)
  }

  function Decode(b: seq<byte>): Head
    requires |b| == 32
  {
    Head(From16(b[0..2]), From16(b[2..4]), b[4], b[5] / 16 % 16, b[5] % 16,
         b[6] / 0x80 % 2 == 1, b[6] / 0x40 % 2 == 1,
         UnpackTimeout(b[7..10]), From16(b[10..12]), From32(b[12..16]), From32(b[28..32]))
  }

  lemma EncodedFront(h: Head)
    ensures var b := Encode(h);
            && b[0..2] == Big16(h.magic) && b[2..4] == Big16(h.headSize)
            && b[4] == h.version && b[5] / 16 % 16 == h.messageType && b[5] % 16 == h.serializeType
            && (b[6] / 0x80 % 2 == 1) == h.oneWay && (b[6] / 0x40 % 2 == 1) == h.response
  {
  }

  lemma EncodedBack(h: Head)
    ensures var b := Encode(h);
            && b[7..10] == PackTimeout(h.timeout) && b[10..12] == Big16(h.statusCode)
            && b[12..16] == Big32(h.id) && b[28..32] == Big32(h.bodySize)
  {
  }

  /** The layout of the 32 bytes: every number big-endian, the timeout 12 bits and 12 bits. */
  lemma HeadLayout(h: Head)
    ensures var b := Encode(h);
            && b[0] as int * 256 + b[1] == h.magic && b[2] as int * 256 + b[3] == h.headSize
            && b[4] == h.version && b[5] as int == h.messageType as int * 16 + h.serializeType
            && b[6] as int == (if h.oneWay then 0x80 else 0) + (if h.response then 0x40 else 0)
            && b[10] as int * 256 + b[11] == h.statusCode
            && ((b[12] as int * 256 + b[13]) * 256 + b[14]) * 256 + b[15] == h.id
            && (forall i :: 16 <= i < 28 ==> b[i] == 0)
            && ((b[28] as int * 256 + b[29]) * 256 + b[30]) * 256 + b[31] == h.bodySize
    ensures var b := Encode(h);
            (b[7] as int * 256 + b[8]) * 256 + b[9] == h.timeout.sec % 4096 * 4096 + h.timeout.usec % 4096
  {
    var b := Encode(h);
    EncodedFront(h);
    EncodedBack(h);
    From16Big16(h.magic);
    From16Big16(h.headSize);
    From16Big16(h.statusCode);
    From32Big32(h.id);
    From32Big32(h.bodySize);
    PartsAt(b);
    assert b[16..28] == RESERVED;
    TimeoutBits(h.timeout);
  }

  lemma TimeoutBits(t: Timeval)
    ensures var b := PackTimeout(t);
            (b[0] as int * 256 + b[1]) * 256 + b[2] == t.sec % 4096 * 4096 + t.usec % 4096
  {
    var s, u := t.sec, t.usec;
    assert s % 4096 == s / 16 % 256 * 16 + s % 16;
    assert u % 4096 == u / 256 % 16 * 256 + u % 256;
  }

  /** Where the parts of a header lie. */
  lemma PartsAt(b: seq<byte>)
    requires |b| == 32
    ensures b[0..2] == [b[0], b[1]] && b[2..4] == [b[2], b[3]] && b[7..10] == [b[7], b[8], b[9]]
    ensures b[10..12] == [b[10], b[11]] && b[12..16] == [b[12], b[13], b[14], b[15]]
    ensures b[28..32] == [b[28], b[29], b[30], b[31]]
  {
  }

  /** Every header field comes back, the timeout modulo 4096. */
  lemma HeadRoundTrip(h: Head)
    ensures Decode(Encode(h)) == h.(timeout := Reduced(h.timeout))
  {
    EncodedFront(h);
    EncodedBack(h);
    From16Big16(h.magic);
    From16Big16(h.headSize);
    TimeoutModulo(h.timeout);
    From16Big16(h.statusCode);
    From32Big32(h.id);
    From32Big32(h.bodySize);
  }

  class MessageHead {
    var m: Head

    constructor ()
      ensures m == FRESH_HEAD
    {
      m := FRESH_HEAD;
    }

    /** The bytes of the header go to data[off..off + 32], and nothing else changes. */
    method Serialize(data: array<byte>, off: nat)
      requires off + 32 <= data.Length
      modifies data
      ensures data[..] == Patch(old(data[..]), off, Encode(m))
    {
      ghost var was := data[..];
      var ptr := SerializeFront(data, off);
      WriteNext(data, off, was, EncodeFront(m), ptr, PackTimeout(m.timeout));
      ptr := ptr + 3;
      SerializeBack(data, off, was, EncodeFront(m) + PackTimeout(m.timeout), ptr);
    }

    method SerializeFront(data: array<byte>, off: nat) returns (ptr: nat)
      requires off + 7 <= data.Length
      modifies data
      ensures data[..] == Patch(old(data[..]), off, EncodeFront(m)) && ptr == off + 7
    {
      ghost var was := data[..];
      var types: seq<byte>, flags: seq<byte> := [m.messageType * 16 + m.serializeType], [Flags(m)];
      var magic, headSize, version := Big16(m.magic), Big16(m.headSize), [m.version];
      assert EncodeFront(m) == magic + headSize + version + types + flags;
      ptr := off;
      Write(data, ptr, magic);
      ptr := ptr + 2;
      WriteNext(data, off, was, magic, ptr, headSize);
      ptr := ptr + 2;
      WriteNext(data, off, was, magic + headSize, ptr, version);
      ptr := ptr + 1;
      WriteNext(data, off, was, magic + headSize + version, ptr, types);
      ptr := ptr + 1;
      WriteNext(data, off, was, magic + headSize + version + types, ptr, flags);
      ptr := ptr + 1;
    }

    method SerializeBack(data: array<byte>, off: nat, ghost was: seq<byte>, ghost front: seq<byte>, at: nat)
      requires at == off + |front| && at + 22 <= data.Length == |was|
      requires data[..] == Patch(was, off, front)
      modifies data
      ensures data[..] == Patch(was, off, front + EncodeBack(m))
    {
      ghost var done := front;
      var ptr := at;
      WriteNext(data, off, was, done, ptr, Big16(m.statusCode));
      ptr, done := ptr + 2, done + Big16(m.statusCode);
      WriteNext(data, off, was, done, ptr, Big32(m.id));
      ptr, done := ptr + 4, done + Big32(m.id);
      WriteNext(data, off, was, done, ptr, RESERVED);
      ptr, done := ptr + 12, done + RESERVED;
      WriteNext(data, off, was, done, ptr, Big32(m.bodySize));
      assert done + Big32(m.bodySize) == front + EncodeBack(m);
    }

    method Deserialize(data: array<byte>, off: nat)
      requires off + 32 <= data.Length
      modifies this
      ensures m == Decode(data[off..off + 32])
    {
      var ptr := off;
      var magic: bits16 := Get16(data, ptr);
      ptr := ptr + 2;
      var headSize: bits16 := Get16(data, ptr);
      ptr := ptr + 2;
      var version := data[ptr];
      ptr := ptr + 1;
      var messageType: nibble, serializeType: nibble := data[ptr] / 16 % 16, data[ptr] % 16;
      ptr := ptr + 1;
      var oneWay, response := data[ptr] / 0x80 % 2 == 1, data[ptr] / 0x40 % 2 == 1;
      ptr := ptr + 1;
      var sec: int := data[ptr] as int * 16 + data[ptr + 1] / 16;
      var usec: int := (data[ptr + 1] as int) % 16 * 256 + data[ptr + 2];
      ptr := ptr + 3;
      var statusCode: bits16 := Get16(data, ptr);
      ptr := ptr + 2;
      var id: uint32 := Get32(data, ptr);
      ptr := ptr + 4;
      ptr := ptr + 12;
      var bodySize: uint32 := Get32(data, ptr);
      ghost var b := data[off..off + 32];
      assert b[0..2] == data[off..off + 2] && b[2..4] == data[off + 2..off + 4];
      assert b[10..12] == data[off + 10..off + 12] && b[12..16] == data[off + 12..off + 16];
      assert b[28..32] == data[off + 28..off + 32];
      assert Timeval(sec, usec) == UnpackTimeout(b[7..10]);
      m := Head(magic, headSize, version, messageType, serializeType, oneWay, response, Timeval(sec, usec),
                statusCode, id, bodySize);
    }
  }

  /** getUnsignedShortData and getUnsignedIntData */
  function Get16(data: array<byte>, p: nat): (v: bits16)
    requires p + 2 <= data.Length
    reads data
    ensures v == From16(data[p..p + 2])
  {
    data[p] as int * 256 + data[p + 1]
  }

  function Get32(data: array<byte>, p: nat): (v: uint32)
    requires p + 4 <= data.Length
    reads data
    ensures v == From32(data[p..p + 4])
  {
    data[p] as int * 0x100_0000 + data[p + 1] as int * 0x1_0000 + data[p + 2] as int * 256 + data[p + 3]
  }
}
