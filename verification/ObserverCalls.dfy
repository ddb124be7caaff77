/** invokeObserver, and what an invocation becomes at each observer. */
module ObserverCalls {
  import opened Names
  import opened Tables
  import opened MessageHeads
  import opened BodyHeads
  import opened Messages
  import opened Observers
  import SendThread
  import ProxyCall

  const APPEND_STRING: Name := Ascii("ObserverHandler")
  const INVOKE_FUNC: Name := Ascii("invokeObserverHandler")

  /** Under this key registerObserverRequest files the handler for an observed object. */
  function HandlerKey(observed: Name): Name { observed + APPEND_STRING }

  /** A key begins with the name of its object, and so belongs to one object only. */
  lemma HandlerKeysDiffer(a: Name, b: Name)
    ensures HandlerKey(a)[..|a|] == a && HandlerKey(a)[|a|..] == APPEND_STRING
    ensures HandlerKey(a) == HandlerKey(b) <==> a == b
  {
    assert HandlerKey(a)[..|a|] == a;
    if HandlerKey(a) == HandlerKey(b) {
      assert |a| == |b|;
      assert a == HandlerKey(a)[..|a|] && b == HandlerKey(b)[..|b|];
    }
  }

  /** The message invokeObserver builds. */
  function InvokePacket(me: Name, observed: Name, id: uint32, data: seq<byte>): Packet {
    ProxyCall.Sized(Packet(Started(FRESH_HEAD, MT_OBSER_PK, true, false, Timeval(0, 0), id, 0),
                           Fields(me, observed, observed, INVOKE_FUNC), data))
  }

  /** An invocation: one-way, from the invoking process, under the name of the object. */
  function Invocation(me: Name, observed: Name, id: uint32, data: seq<byte>): Packet {
    var names := Fields(me, observed, observed, INVOKE_FUNC);
    Packet(Head(MESSAGE_MAGIC_NUM, MESSAGE_HEAD_SIZE, VERSION, MT_OBSER_PK, ST_BIN_BD, true, false, Timeval(0, 0), 0, id,
                (Size(names) + |data|) % 0x1_0000_0000), names, data)
  }

  lemma InvokePacketIs(me: Name, observed: Name, id: uint32, data: seq<byte>)
    ensures InvokePacket(me, observed, id, data) == Invocation(me, observed, id, data)
  {
  }

  /** It is received as such. */
  lemma InvocationArrives(me: Name, observed: Name, id: uint32, data: seq<byte>)
    requires |me| < 256 && |observed| < 256
    ensures Received(Wire(InvokePacket(me, observed, id, data))) == Some(Invocation(me, observed, id, data))
  {
    var p := Invocation(me, observed, id, data);
    InvokePacketIs(me, observed, id, data);
    assert Carried(p) == p by {
      ReducedIff(p.head.timeout);
    }
    WireRoundTrip(p);
  }

  /** analyseReceiveData on an observer request: the handler to run and its argument. */
  function Dispatch<H>(funcs: map<Name, H>, p: Packet): Option<(H, seq<byte>)> {
    if p.head.messageType != MT_OBSER_PK || p.head.response || p.names.func != INVOKE_FUNC then None
    else if HandlerKey(p.names.mod) !in funcs then None
    else Some((funcs[HandlerKey(p.names.mod)], p.data))
  }

  /** The handler table of a process that registered for the objects in `regs`. */
  ghost predicate Files<H>(funcs: map<Name, H>, regs: map<Name, H>) {
    && (forall o :: o in regs ==> HandlerKey(o) in funcs && funcs[HandlerKey(o)] == regs[o])
    && (forall k :: k in funcs ==> exists o :: o in regs && k == HandlerKey(o))
  }

  /** Any packet at all: only an invocation runs a handler, the one registered for its module. */
  lemma DispatchIs<H>(funcs: map<Name, H>, regs: map<Name, H>, p: Packet)
    requires Files(funcs, regs)
    ensures Dispatch(funcs, p) ==
            if p.head.messageType == MT_OBSER_PK && !p.head.response && p.names.func == INVOKE_FUNC && p.names.mod in regs
            then Some((regs[p.names.mod], p.data)) else None
  {
    if HandlerKey(p.names.mod) in funcs {
      var o :| o in regs && HandlerKey(p.names.mod) == HandlerKey(o);
      HandlerKeysDiffer(p.names.mod, o);
    }
  }

  /** Registering, and registering again, files under the object's own key; the first handler stays. */
  lemma FilesInsert<H>(funcs: map<Name, H>, regs: map<Name, H>, observed: Name, h: H)
    requires Files(funcs, regs)
    ensures Files(Inserted(funcs, HandlerKey(observed), h), Inserted(regs, observed, h))
  {
    var f, r := Inserted(funcs, HandlerKey(observed), h), Inserted(regs, observed, h);
    forall o | o in r
      ensures HandlerKey(o) in f && f[HandlerKey(o)] == r[o]
    {
      HandlerKeysDiffer(o, observed);
      if o == observed && HandlerKey(o) in funcs {
        var q :| q in regs && HandlerKey(o) == HandlerKey(q);
        HandlerKeysDiffer(o, q);
      }
    }
    forall k | k in f
      ensures exists o :: o in r && k == HandlerKey(o)
    {
      if k in funcs {
        var o :| o in regs && k == HandlerKey(o);
        assert o in r;
      } else {
        assert observed in r && k == HandlerKey(observed);
      }
    }
  }

  /** Unregistering takes out the object's own handler and no other. */
  lemma FilesRemove<H>(funcs: map<Name, H>, regs: map<Name, H>, observed: Name)
    requires Files(funcs, regs)
    ensures Files(funcs - {HandlerKey(observed)}, regs - {observed})
  {
    var f, r := funcs - {HandlerKey(observed)}, regs - {observed};
    forall o | o in r
      ensures HandlerKey(o) in f && f[HandlerKey(o)] == r[o]
    {
      HandlerKeysDiffer(o, observed);
    }
    forall k | k in f
      ensures exists o :: o in r && k == HandlerKey(o)
    {
      var o :| o in regs && k == HandlerKey(o);
      assert o in r;
    }
  }

  datatype Registration<H> = Register(observed: Name, h: H) | Unregister(observed: Name)

  /** The handler table after a history of successful registrations, as lines 860-867 and 930-936 keep it. */
  function Table<H>(h: seq<Registration<H>>): map<Name, H> {
    if h == [] then map[]
    else
      var funcs := Table(h[..|h| - 1]);
      match h[|h| - 1]
      case Register(o, f) => Inserted(funcs, HandlerKey(o), f)
      case Unregister(o) => funcs - {HandlerKey(o)}
  }

  /** The first registration of an object since it was last unregistered. */
  function Current<H>(h: seq<Registration<H>>, observed: Name): Option<H> {
    if h == [] then None
    else
      var before, e := Current(h[..|h| - 1], observed), h[|h| - 1];
      if e.observed != observed then before
      else if e.Unregister? then None
      else if before.Some? then before
      else Some(e.h)
  }

  /** After any history the handler filed for an object is the one of the object's own events. */
  lemma {:induction false} TableIsItsHistory<H>(h: seq<Registration<H>>, observed: Name)
    ensures (if HandlerKey(observed) in Table(h) then Some(Table(h)[HandlerKey(observed)]) else None) ==
            Current(h, observed)
  {
    if h != [] {
      TableIsItsHistory(h[..|h| - 1], observed);
      HandlerKeysDiffer(h[|h| - 1].observed, observed);
    }
  }

  /** And nothing else is filed. */
  lemma {:induction false} TableHoldsHandlersOnly<H>(h: seq<Registration<H>>) returns (regs: map<Name, H>)
    ensures Files(Table(h), regs)
    ensures forall o :: (if o in regs then Some(regs[o]) else None) == Current(h, o)
  {
    regs := map[];
    if h != [] {
      var before := TableHoldsHandlersOnly(h[..|h| - 1]);
      match h[|h| - 1] {
        case Register(o, f) =>
          FilesInsert(Table(h[..|h| - 1]), before, o, f);
          regs := Inserted(before, o, f);
        case Unregister(o) =>
          FilesRemove(Table(h[..|h| - 1]), before, o);
          regs := before - {o};
      }
    }
  }

  /**
   * An invocation that went over the wire runs, at an observer, the handler it registered for
   * that very object with the very data, and no handler if it registered none.
   */
  lemma InvocationFindsItsHandler<H>(funcs: map<Name, H>, regs: map<Name, H>, me: Name, observed: Name,
                                     id: uint32, data: seq<byte>)
    requires Files(funcs, regs) && |me| < 256 && |observed| < 256
    ensures var p := Received(Wire(InvokePacket(me, observed, id, data)));
            && p.Some?
            && Dispatch(funcs, p.value) == if observed in regs then Some((regs[observed], data)) else None
  {
    var p := InvokePacket(me, observed, id, data);
    WireRoundTrip(p);
    if HandlerKey(observed) in funcs {
      var o :| o in regs && HandlerKey(observed) == HandlerKey(o);
      HandlerKeysDiffer(observed, o);
    }
  }

  /** The dispatch to this process's own handler, if it has one. */
  function Local<H>(funcs: map<Name, H>, observed: Name, data: seq<byte>): seq<(H, seq<byte>)> {
    if HandlerKey(observed) in funcs then [(funcs[HandlerKey(observed)], data)] else []
  }

  /** The local handler that runs is the one registered for this very object, and it gets the data. */
  lemma LocalIs<H>(funcs: map<Name, H>, regs: map<Name, H>, observed: Name, data: seq<byte>)
    requires Files(funcs, regs)
    ensures Local(funcs, observed, data) == if observed in regs then [(regs[observed], data)] else []
  {
    if HandlerKey(observed) in funcs {
      var o :| o in regs && HandlerKey(observed) == HandlerKey(o);
      HandlerKeysDiffer(observed, o);
    }
  }

  /** After any history of registrations it is the first one registered since the object was last unregistered. */
  lemma LocalIsCurrent<H>(h: seq<Registration<H>>, observed: Name, data: seq<byte>)
    ensures Local(Table(h), observed, data) ==
            match Current(h, observed)
            case Some(f) => [(f, data)]
            case None => []
  {
    var regs := TableHoldsHandlersOnly(h);
    LocalIs(Table(h), regs, observed, data);
  }

  /** What goes to the send list: one message however many observers there are, none if there is none. */
  function Queued<F(==)>(fds: seq<F>, observed: Name, data: seq<byte>): seq<SendThread.Message> {
    if fds == [] then [] else [SendThread.Invoke(observed, data)]
  }

  class Subject<F(==), H(==)> {
    const sender: SendThread.Sender<F>
    const funcs: StringHash<H>
    ghost var dispatched: seq<(H, seq<byte>)>     // what was given to the thread pool

    ghost predicate Valid()
      reads this, sender, sender.list, sender.list.head, sender.list.nodes, sender.observers
    {
      sender.Valid()
    }

    constructor (s: SendThread.Sender<F>, f: StringHash<H>)
      requires s.Valid()
      ensures Valid() && sender == s && funcs == f && dispatched == []
    {
      sender, funcs := s, f;
      dispatched := [];
    }

    /** invokeObserver */
    method InvokeObserver(observed: Name, data: seq<byte>) returns (result: int)
      requires Valid()
      modifies this, sender.list, sender.list.head, sender.list.nodes
      ensures Valid() && sender.sends == old(sender.sends)
      ensures sender.observers.Contents() == old(sender.observers.Contents())
      ensures sender.list.nodes == old(sender.list.nodes)
              || (sender.list.nodes != [] && fresh(sender.list.nodes[0]) && sender.list.nodes[1..] == old(sender.list.nodes))
      ensures observed !in old(sender.observers.Contents()) ==>
                result == -1 && dispatched == old(dispatched) && sender.list.Contents() == old(sender.list.Contents())
      ensures observed in old(sender.observers.Contents()) ==>
                && result == 0
                && dispatched == old(dispatched) + Local(old(funcs.m), observed, data)
                && sender.list.Contents() ==
                     Queued(old(sender.observers.Contents())[observed], observed, data) + old(sender.list.Contents())
    {
      var known := sender.observers.Find(observed);
      if known.None? {
        return -1;
      }
      DispatchLocally(observed, data);
      QueueInvocation(observed, data);
      result := 0;
    }

    /** Lines 633-641. */
    method DispatchLocally(observed: Name, data: seq<byte>)
      modifies this`dispatched
      ensures dispatched == old(dispatched) + Local(funcs.m, observed, data)
    {
      var handler := funcs.Find(HandlerKey(observed));
      if handler.Some? {
        dispatched := dispatched + [(handler.value, data)];
      }
    }

    /** Lines 643-680. */
    method QueueInvocation(observed: Name, data: seq<byte>)
      requires Valid() && observed in sender.observers.Contents()
      modifies sender.list, sender.list.head, sender.list.nodes
      ensures Valid() && sender.observers.Contents() == old(sender.observers.Contents())
      ensures sender.list.Contents() ==
                Queued(sender.observers.Contents()[observed], observed, data) + old(sender.list.Contents())
      ensures sender.list.nodes == old(sender.list.nodes)
              || (sender.list.nodes != [] && fresh(sender.list.nodes[0]) && sender.list.nodes[1..] == old(sender.list.nodes))
    {
      var empty := sender.observers.Empty(observed);
      if !empty {
        sender.list.Insert(SendThread.Invoke(observed, data));
      }
    }

    /** The thread takes an invocation that lies at the front. */
    method Transmit(observed: Name, data: seq<byte>, env: nat -> SendThread.Pass<F>, ghost budget: nat,
                    ghost rest: seq<SendThread.Message>)
      requires Valid() && observed in sender.observers.Contents()
      requires sender.list.Contents() == [SendThread.Invoke(observed, data)] + rest
      requires forall i: nat :: SendThread.LinkFailures(env, i) <= budget
      modifies sender, sender.list, sender.list.head, sender.list.nodes
      ensures Valid() && sender.list.Contents() == rest
      ensures sender.sends == old(sender.sends) +
                SendThread.FanOut(old(sender.observers.Contents())[observed], SendThread.Invoke(observed, data))
    {
      assert old(sender.list.Contents())[0] == SendThread.Invoke(observed, data);
      assert old(sender.list.Contents())[1..] == rest;
      var _, _ := sender.Iterate(env, budget);
    }

    /**
     * An invocation taken at once by the sending thread: one transmission per registration in
     * the list, in its order, and one local dispatch if this process has a handler.
     */
    method InvokeAndSend(observed: Name, data: seq<byte>, env: nat -> SendThread.Pass<F>, ghost budget: nat)
      returns (result: int)
      requires Valid() && observed in sender.observers.Contents()
      requires forall i: nat :: SendThread.LinkFailures(env, i) <= budget
      modifies this, sender, sender.list, sender.list.head, sender.list.nodes
      ensures Valid() && result == 0
      ensures sender.list.Contents() == old(sender.list.Contents())
      ensures sender.sends == old(sender.sends) +
                SendThread.FanOut(old(sender.observers.Contents())[observed], SendThread.Invoke(observed, data))
      ensures dispatched == old(dispatched) + Local(old(funcs.m), observed, data)
    {
      result := InvokeObserver(observed, data);
      var empty := sender.observers.Empty(observed);
      if !empty {
        assert forall i :: 0 < i < |sender.list.nodes| ==> sender.list.nodes[i] == sender.list.nodes[1..][i - 1];
        Transmit(observed, data, env, budget, old(sender.list.Contents()));
      }
    }
  }
}
