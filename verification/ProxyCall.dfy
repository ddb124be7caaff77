/** proxyCall, setResponse and the dispatch of apply messages: the same call on the local and on the remote path. */
module ProxyCall {
  import opened Names
  import opened Buffers
  import opened MessageHeads
  import opened BodyHeads
  import opened Messages

  const RPCSUCCESS: bits16 := 0
  const RPCNOSPECIFYSERVICE: bits16 := 1

  /** The registered services of a process; a handler turns request data into response data. */
  type Services = map<Name, seq<byte> -> seq<byte>>

  datatype Request = Request(caller: Name, callee: Name, mod: Name, func: Name, id: uint32, tv: Timeval, data: seq<byte>)

  /** What proxyCall gives back: its result, the receive buffer and *rlen. */
  datatype Outcome = Outcome(result: int, recv: seq<byte>, rlen: nat)

  /** updateBodySize */
  function Sized(p: Packet): Packet { p.(head := p.head.(bodySize := (TotalSize(p) - 32) % 0x1_0000_0000)) }

  /** A caller with no room to receive anything makes its call one-way. */
  function RequestPacket(r: Request, oneWay: bool): Packet {
    Sized(Packet(Started(FRESH_HEAD, MT_APPLY_PK, oneWay, false, r.tv, r.id, RPCSUCCESS),
                 Fields(r.caller, r.callee, r.mod, r.func), r.data))
  }

  /** setResponse and responseErrorCodeACK at process `me`. */
  function ResponsePacket(me: Name, q: Packet, status: bits16, data: seq<byte>): Packet {
    Sized(Packet(Started(FRESH_HEAD, MT_APPLY_PK, true, true, q.head.timeout, q.head.id, status),
                 Fields(me, q.names.sender, q.names.mod, q.names.func), data))
  }

  /**
   * analyseReceiveData on an apply message: a request is served and, unless it is one-way,
   * answered.  A missing function is reported to one-way callers too.
   */
  function Serve(me: Name, services: Services, q: Packet): Option<Packet> {
    if q.head.messageType != MT_APPLY_PK || q.head.response then None
    else if q.names.func !in services then Some(ResponsePacket(me, q, RPCNOSPECIFYSERVICE, []))
    else if q.head.oneWay then None
    else Some(ResponsePacket(me, q, RPCSUCCESS, services[q.names.func](q.data)))
  }

  /** The end of proxyCall, once a response has been read. */
  function CopyOut(p: Packet, recv: seq<byte>, rlen: nat): (o: Outcome)
    requires rlen <= |recv|
    ensures o.rlen <= rlen && |o.recv| == |recv| && o.recv[rlen..] == recv[rlen..]
  {
    if p.head.statusCode != RPCSUCCESS then Outcome(-1, recv, rlen)
    else if p.data == [] then Outcome(0, recv, rlen)
    else
      var n := if |p.data| > rlen then rlen else |p.data|;
      assert Patch(recv, 0, p.data[..n])[rlen..] == recv[rlen..];
      Outcome(0, Patch(recv, 0, p.data[..n]), n)
  }

  /** The callee is this process: no message leaves it. */
  function LocalCall(services: Services, r: Request, recv: seq<byte>, rlen: nat): Outcome
    requires rlen <= |recv|
  {
    if r.func !in services then Outcome(-1, recv, rlen)
    else if rlen == 0 then Outcome(0, recv, 0)
    else
      var q := RequestPacket(r, false);
      CopyOut(ResponsePacket(r.callee, q, RPCSUCCESS, services[r.func](q.data)), recv, rlen)
  }

  /**
   * The callee is another process: a one-way call returns once its request is queued, any other
   * waits.  None if a message does not parse, or is not taken for what it is.
   */
  function RemoteCall(services: Services, r: Request, recv: seq<byte>, rlen: nat): Option<Outcome>
    requires rlen <= |recv|
  {
    if rlen == 0 then Some(Outcome(0, recv, 0))
    else match Received(Wire(RequestPacket(r, false)))
    case None => None
    case Some(q) =>
      match Serve(r.callee, services, q)
      case None => None
      case Some(p) =>
        match Received(Wire(p))
        case None => None
        case Some(m) =>
          if m.head.messageType == MT_APPLY_PK && m.head.response && m.head.id == r.id
          then Some(CopyOut(m, recv, rlen)) else None
  }

  predicate ShortNames(r: Request) { |r.caller| < 256 && |r.callee| < 256 && |r.mod| < 256 && |r.func| < 256 }

  /**
   * Whether the module is in this process or in another makes no difference to the caller: same
   * return code, same bytes, same *rlen, for any services, any data and any timeout, with the
   * function there or not.  The one exception is a one-way call of a missing function: only the
   * local path notices.
   */
  lemma LocationTransparency(services: Services, r: Request, recv: seq<byte>, rlen: nat)
    requires ShortNames(r) && rlen <= |recv|
    ensures RemoteCall(services, r, recv, rlen) == Some(LocalCall(services, r, recv, rlen)) <==>
            rlen > 0 || r.func in services
  {
    if rlen > 0 {
      var q := RequestPacket(r, false);
      WireRoundTrip(q);
      var p := Serve(r.callee, services, Carried(q)).value;
      WireRoundTrip(p);
    }
  }

  /** The header of an apply message that belongs to the call r. */
  function ApplyHead(oneWay: bool, response: bool, r: Request, status: bits16, p: Packet): Head
  {
    Head(MESSAGE_MAGIC_NUM, MESSAGE_HEAD_SIZE, VERSION, MT_APPLY_PK, ST_BIN_BD, oneWay, response,
         Reduced(r.tv), status, r.id, (TotalSize(p) - 32) % 0x1_0000_0000)
  }

  /** A request as received: from the caller, to the callee, for the module and function that were called. */
  lemma RequestArrives(r: Request, oneWay: bool)
    requires ShortNames(r)
    ensures var q := Received(Wire(RequestPacket(r, oneWay)));
            && q.Some? && q.value.data == r.data
            && q.value.names.sender == r.caller && q.value.names.recver == r.callee
            && q.value.names.mod == r.mod && q.value.names.func == r.func
            && q.value.head == ApplyHead(oneWay, false, r, RPCSUCCESS, q.value)
  {
    WireRoundTrip(RequestPacket(r, oneWay));
  }

  /**
   * The reply to a request, at the callee and as received: it is addressed to the caller, comes
   * from the callee, and carries the id, timeout, module and function of the call.
   */
  lemma ReplyGoesToCaller(services: Services, r: Request, oneWay: bool)
    requires ShortNames(r)
    ensures var q := Received(Wire(RequestPacket(r, oneWay)));
            && q.Some? && (Serve(r.callee, services, q.value).None? <==> oneWay && r.func in services)
            && (Serve(r.callee, services, q.value).Some? ==>
                  var p := Serve(r.callee, services, q.value).value;
                  Answers(services, r, p) && Received(Wire(p)) == Some(p))
  {
    var q := Carried(RequestPacket(r, oneWay));
    WireRoundTrip(RequestPacket(r, oneWay));
    ServeAddresses(services, r, oneWay, q);
    if Serve(r.callee, services, q).Some? {
      var p := Serve(r.callee, services, q).value;
      assert Short(p.names);
      WireRoundTrip(p);
      CarriedStays(p, r);
    }
  }

  /** p is addressed to the caller and says what became of the call. */
  predicate Answers(services: Services, r: Request, p: Packet) {
    && p.names.sender == r.callee && p.names.recver == r.caller && p.names.mod == r.mod && p.names.func == r.func
    && p.head == ApplyHead(true, true, r, if r.func in services then RPCSUCCESS else RPCNOSPECIFYSERVICE, p)
    && p.data == if r.func in services then services[r.func](r.data) else []
  }

  lemma ServeAddresses(services: Services, r: Request, oneWay: bool, q: Packet)
    requires q == Carried(RequestPacket(r, oneWay))
    ensures var p := Serve(r.callee, services, q);
            && (p.None? <==> oneWay && r.func in services)
            && (p.Some? ==> Answers(services, r, p.value))
  {
  }

  /** A timeout that has been over the wire once stays as it is. */
  lemma CarriedStays(p: Packet, r: Request)
    requires p.head.timeout == Reduced(r.tv)
    ensures Carried(p) == p
  {
    TimeoutTwice(r.tv);
  }

  lemma TimeoutTwice(t: Timeval)
    ensures Reduced(Reduced(t)) == Reduced(t)
  {
  }

  /** What the callee makes of a one-way request: nothing comes back unless the function is missing. */
  lemma OneWayIsServed(services: Services, r: Request)
    requires ShortNames(r)
    ensures var q := Received(Wire(RequestPacket(r, true)));
            && q.Some? && q.value.data == r.data
            && (Serve(r.callee, services, q.value).None? <==> r.func in services)
  {
    WireRoundTrip(RequestPacket(r, true));
  }

  /**
   * What a call delivers: the handler's answer, cut to the room the caller has; an empty answer
   * and a missing function leave the buffer and *rlen alone.
   */
  lemma AnswerIsDelivered(services: Services, r: Request, recv: seq<byte>, rlen: nat)
    requires 0 < rlen <= |recv|
    ensures LocalCall(services, r, recv, rlen) ==
            if r.func !in services then Outcome(-1, recv, rlen)
            else
              var answer := services[r.func](r.data);
              var n := if |answer| < rlen then |answer| else rlen;
              Outcome(0, answer[..n] + recv[n..], if n == 0 then rlen else n)
  {
    if r.func in services {
      var answer := services[r.func](r.data);
      var n := if |answer| < rlen then |answer| else rlen;
      assert answer != [] ==> Patch(recv, 0, answer[..n]) == answer[..n] + recv[n..];
      assert answer == [] ==> answer[..n] + recv[n..] == recv;
    }
  }

  // ---- The remote path with its messages and buffers ----

  /** A request or response message, filled in and sized. */
  method NewMessage(head: Head, names: Fields, data: seq<byte>) returns (m: Message)
    ensures m.Value() == Sized(Packet(head, names, data))
    ensures fresh(m) && fresh(m.messageHead) && fresh(m.bodyHead)
  {
    m := new Message();
    m.messageHead.m := head;
    m.SetBodyHead(names.sender, names.recver, names.mod, names.func);
    m.MallocBodyData(data);
    m.UpdateBodySize();
  }

  /** The callee's event thread and worker: from the received buffer to the buffer it sends back. */
  method Answer(me: Name, services: Services, wire: array<byte>) returns (reply: Option<array<byte>>)
    ensures Received(wire[..]).None? ==> reply.None?
    ensures Received(wire[..]).Some? ==>
              match Serve(me, services, Received(wire[..]).value)
              case None => reply.None?
              case Some(p) => reply.Some? && reply.value[..] == Wire(p)
  {
    var request := new Message();
    var inside := request.Receive(wire);
    if !inside {
      return None;
    }
    var head, names := request.messageHead.m, request.bodyHead.f;
    if head.messageType != MT_APPLY_PK || head.response {
      return None;
    }
    var status, data := RPCNOSPECIFYSERVICE, [];
    if names.func in services {
      if head.oneWay {
        return None;
      }
      status, data := RPCSUCCESS, services[names.func](request.userData);
    }
    var response := NewMessage(Started(FRESH_HEAD, MT_APPLY_PK, true, true, head.timeout, head.id, status),
                               Fields(me, names.sender, names.mod, names.func), data);
    var bytes := response.Serialize();
    reply := Some(bytes);
  }

  /** The end of proxyCall: at most *rlen bytes of recv are written. */
  method Finish(response: Message, recv: array<byte>, rlen: nat) returns (result: int, rlen': nat)
    requires rlen <= recv.Length
    modifies recv
    ensures Outcome(result, recv[..], rlen') == CopyOut(old(response.Value()), old(recv[..]), rlen)
  {
    result, rlen' := 0, rlen;
    if response.messageHead.m.statusCode == RPCSUCCESS {
      var len := |response.userData|;
      if len == 0 {
        return;
      }
      if len > rlen {
        len := rlen;
      }
      Write(recv, 0, response.userData[..len]);
      rlen' := len;
    } else {
      result := -1;
    }
  }

  /** proxyCall on the remote path, with the messages and buffers of both processes. */
  method CallRemotely(services: Services, r: Request, recv: array<byte>, rlen: nat) returns (result: int, rlen': nat)
    requires ShortNames(r) && rlen <= recv.Length
    modifies recv
    ensures Some(Outcome(result, recv[..], rlen')) == RemoteCall(services, r, old(recv[..]), rlen)
    ensures rlen > 0 || r.func in services ==>
              Outcome(result, recv[..], rlen') == LocalCall(services, r, old(recv[..]), rlen)
  {
    LocationTransparency(services, r, recv[..], rlen);
    var request := NewMessage(Started(FRESH_HEAD, MT_APPLY_PK, rlen == 0, false, r.tv, r.id, RPCSUCCESS),
                              Fields(r.caller, r.callee, r.mod, r.func), r.data);
    if rlen == 0 {
      return 0, 0;
    }
    var wire := request.Serialize();
    var reply := Answer(r.callee, services, wire);
    var response := new Message();
    var inside := response.Receive(reply.value);
    result, rlen' := Finish(response, recv, rlen);
  }
}
