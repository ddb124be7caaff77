/**
 * getFrameID, RPCProxy, the pending table and wakeupOneThread as code.  Each method takes one
 * step of the protocol in Correlation; what lies between two of them is up to the other threads.
 */
module ProxyTable {
  import opened Names
  import opened Tables
  import opened Correlation

  /** A proxy: its response slot and whether its caller is inside wait, or has been signalled there. */
  class RPCProxy {
    var response: Option<Msg>
    var waiting: bool
    var signalled: bool

    /** The proxy is in the state the protocol has call c in. */
    ghost predicate Represents(c: Call)
      reads this
    {
      response == c.stored && waiting == c.phase.Waiting? && signalled == c.phase.Signalled?
    }

    constructor ()
      ensures response == None && !waiting && !signalled
    {
      response, waiting, signalled := None, false, false;
    }

    method SetResponseMsg(m: Msg)
      modifies this`response
      ensures response == Some(m)
    {
      response := Some(m);
    }

    /** A signal is kept for nobody: without a waiter it has no effect. */
    method Wakeup()
      modifies this`signalled, this`waiting
      ensures signalled == (old(signalled) || old(waiting)) && !waiting
    {
      if waiting {
        signalled, waiting := true, false;
      }
    }

    /** The critical section of wakeupOneThread: what StoreCall makes of the call. */
    method Deliver(m: Msg, ghost c: Call)
      requires Represents(c)
      modifies this
      ensures Represents(StoreCall(c, m))
    {
      SetResponseMsg(m);
      Wakeup();
    }

    /** wait, up to the release of the mutex. */
    method StartWait(ghost c: Call)
      requires Represents(c) && c.phase.Queued?
      modifies this`waiting
      ensures Represents(c.(phase := Waiting))
    {
      waiting := true;
    }

    /** The deadline passes before a signal comes. */
    method Expire(ghost c: Call)
      requires Represents(c) && c.phase.Waiting?
      modifies this`waiting
      ensures Represents(c.(phase := Expired))
    {
      waiting := false;
    }

    /** wait, from the moment the mutex is taken back, and getResponseMsg. */
    method FinishWait(ghost c: Call) returns (result: int, read: Option<Msg>)
      requires Represents(c) && (c.phase.Signalled? || c.phase.Expired?)
      modifies this`signalled
      ensures Represents(c.(phase := Returned(result, read)))
      ensures result == (if c.phase.Signalled? then 0 else -1) && read == c.stored
    {
      result := if signalled then 0 else -1;
      signalled := false;
      read := response;
    }
  }

  /** The mutex of the call, if there is one, can be taken. */
  predicate Free(s: State, c: Option<Key>) { c.Some? ==> c.value in s.calls && !HoldsMutex(s.calls[c.value].phase) }

  /** Fetch and Store in a row. */
  ghost function Woken(s: State, m: Msg): State
    requires Free(s, Cursor(s, m.recver))
  {
    var c := Cursor(s, m.recver);
    if c.Some? then StoreStep(FetchStep(s, m), c.value, m) else FetchStep(s, m)
  }

  lemma NextModulo(n: nat)
    ensures (n + 1) % WIDTH == if n % WIDTH == WIDTH - 1 then 0 else n % WIDTH + 1
  {
    var q, r := n / WIDTH, n % WIDTH;
    assert n + 1 == q * WIDTH + r + 1;
  }

  /** The part of one process: its counter, its pending table, and the proxies of its calls. */
  class CallTable {
    const proc: Name
    var frameId: uint32
    const proxies: UintHash<RPCProxy>
    ghost var objects: map<Key, RPCProxy>

    /** This process is in the state the protocol has it in. */
    ghost predicate Refines(s: State)
      reads this, proxies, objects.Values
    {
      && frameId == Frame(s, proc) % WIDTH
      && ObjectsRefine(s.calls) && TableRefines(s.pending)
      && (Reading(s, proc) ==> CursorRefines(Cursor(s, proc)))
    }

    /** Every call has a proxy of its own, in the state of the call. */
    ghost predicate ObjectsRefine(calls: map<Key, Call>)
      reads this`objects, objects.Values
    {
      && (forall k :: k in objects <==> k in calls && k.proc == proc)
      && (forall k :: k in objects ==> objects[k].Represents(calls[k]))
      && (forall j, k :: j in objects && k in objects && objects[j] == objects[k] ==> j == k)
    }

    ghost predicate TableRefines(pending: map<(Name, uint32), Key>)
      reads this`objects, proxies`m
    {
      && (forall id :: id in proxies.m <==> (proc, id) in pending)
      && (forall id :: id in proxies.m ==>
            (proc, id) in pending && pending[(proc, id)] in objects
            && proxies.m[id] == objects[pending[(proc, id)]])
    }

    /** The iterator stands at the proxy of k, or at the end. */
    ghost predicate CursorRefines(c: Option<Key>)
      reads this`objects, proxies
    {
      match c
      case None => proxies.it == None
      case Some(k) =>
        && proxies.it == Some(IdOf(k)) && IdOf(k) in proxies.m
        && k in objects && proxies.m[IdOf(k)] == objects[k]
    }

    constructor (p: Name)
      ensures Refines(INIT) && proc == p && fresh(proxies)
    {
      proc, frameId, objects := p, 0, map[];
      proxies := new UintHash<RPCProxy>();
    }

    /** getFrameID: the counter wraps. */
    method GetFrameId(ghost issued: nat) returns (id: uint32)
      requires frameId == issued % WIDTH
      modifies this`frameId
      ensures id == IdOf(Key(proc, issued)) && frameId == (issued + 1) % WIDTH
    {
      NextModulo(issued);
      id := frameId;
      frameId := if frameId == WIDTH - 1 then 0 else frameId + 1;
    }

    /** The beginning of proxyCall: an id and a proxy for a new call. */
    method NewCall(recver: Name, mod: Name, func: Name, data: seq<byte>, oneWay: bool, ghost s: State)
      returns (proxy: RPCProxy, id: uint32)
      requires Inv(s) && Refines(s)
      modifies this
      ensures var k := Key(proc, Frame(s, proc));
              && Refines(GetIdStep(s, k, Request(k, recver, mod, func, data), oneWay))
              && objects == old(objects)[k := proxy] && id == IdOf(k)
      ensures fresh(proxy)
    {
      ghost var k := Key(proc, Frame(s, proc));
      ghost var c := Call(Request(k, recver, mod, func, data), oneWay, Numbered, None);
      GetIdFresh(s, k);
      id := GetFrameId(k.issue);
      proxy := new RPCProxy();
      Add(proxy, k, c, s, GetIdStep(s, k, c.request, oneWay));
    }

    ghost method Add(proxy: RPCProxy, k: Key, c: Call, s: State, t: State)
      requires k.proc == proc && k !in objects && proxy !in objects.Values && proxy.Represents(c)
      requires t.calls == s.calls[k := c] && t.pending == s.pending && frameId == Frame(t, proc) % WIDTH
      requires t.seeking == s.seeking && t.cursor == s.cursor
      requires ObjectsRefine(s.calls) && TableRefines(s.pending)
      requires Reading(s, proc) ==> CursorRefines(Cursor(s, proc))
      modifies this`objects
      ensures Refines(t) && objects == old(objects)[k := proxy]
    {
      objects := objects[k := proxy];
      assert ObjectsRefine(t.calls);
      assert TableRefines(t.pending);
      assert Reading(t, proc) ==> Reading(s, proc);
    }

    /** m_proxy_hash.insert */
    method FileProxy(proxy: RPCProxy, id: uint32, ghost k: Key, ghost s: State)
      requires Refines(s) && k in s.calls && s.calls[k].phase.Numbered? && !Reading(s, proc)
      requires k in objects && objects[k] == proxy && id == IdOf(k)
      modifies proxies
      ensures Refines(RegisterStep(s, k))
    {
      var _ := proxies.Insert(id, proxy);
    }

    /** m_proxy_hash.remove */
    method RemoveProxy(id: uint32, ghost k: Key, ghost s: State)
      requires Refines(s) && k in s.calls && s.calls[k].phase.Returned? && !Reading(s, proc)
      requires k in objects && id == IdOf(k)
      modifies proxies
      ensures Refines(RetireStep(s, k))
    {
      ghost var t := RetireStep(s, k);
      assert ObjectsRefine(t.calls);
      var _ := proxies.Remove(id);
      assert TableRefines(t.pending);
    }

    /** The lookup of wakeupOneThread sets the iterator; the mutex of the proxy is not yet taken. */
    method SeekProxy(m: Msg, ghost s: State)
      requires PendingOk(s.pending, s.calls) && Refines(s) && m in s.net && m.response && m.recver == proc
      modifies proxies`it
      ensures Refines(SeekStep(s, m))
    {
      ghost var c := Lookup(s, m);
      assert c.Some? ==> IdOf(c.value) == m.id by {
        assert c.Some? ==> Holder(s.calls, (proc, m.id), c.value);
      }
      proxies.Seek(m.id);
      assert CursorRefines(c);
    }

    /** And reads it, whatever lookups of other threads have done to it since. */
    method FetchProxy(ghost m: Msg, ghost s: State) returns (proxy: Option<RPCProxy>)
      requires Refines(s) && m in s.seeking && m.recver == proc
      ensures Refines(FetchStep(s, m))
      ensures proxy.Some? <==> Cursor(s, proc).Some?
      ensures proxy.Some? ==>
                var k := Cursor(s, proc).value;
                (k, m) in FetchStep(s, m).found && k in objects && objects[k] == proxy.value
    {
      assert Reading(s, proc);
      proxy := proxies.Fetch();
    }

    /** wakeupOneThread from line 1003, whatever happened since the proxy was found. */
    method StoreIn(proxy: RPCProxy, m: Msg, ghost k: Key, ghost s: State)
      requires Refines(s) && (k, m) in s.found && k in s.calls && !HoldsMutex(s.calls[k].phase)
      requires k in objects && objects[k] == proxy
      modifies proxy
      ensures Refines(StoreStep(s, k, m))
    {
      proxy.Deliver(m, s.calls[k]);
    }

    method FetchAndStore(m: Msg, ghost s: State) returns (result: int)
      requires Refines(s) && m in s.seeking && m.recver == proc
      requires Free(s, Cursor(s, proc))
      modifies if proxies.it.Some? && proxies.it.value in proxies.m then {proxies.m[proxies.it.value]} else {}
      ensures result == if Cursor(s, proc).Some? then 0 else -1
      ensures Refines(Woken(s, m))
    {
      assert Reading(s, proc);
      var proxy := FetchProxy(m, s);
      if proxy.None? {
        return -1;
      }
      StoreIn(proxy.value, m, Cursor(s, proc).value, FetchStep(s, m));
      result := 0;
    }

    /** wakeupOneThread when no other thread comes between its steps. */
    method WakeupOneThread(m: Msg, ghost s: State) returns (result: int)
      requires PendingOk(s.pending, s.calls) && Refines(s) && m in s.net && m.response && m.recver == proc
      requires Free(s, Lookup(s, m))
      modifies proxies`it, if m.id in proxies.m then {proxies.m[m.id]} else {}
      ensures result == if Lookup(s, m).Some? then 0 else -1
      ensures Refines(Woken(SeekStep(s, m), m))
    {
      SeekProxy(m, s);
      assert Cursor(SeekStep(s, m), proc) == Lookup(s, m);
      result := FetchAndStore(m, SeekStep(s, m));
    }
  }
}
