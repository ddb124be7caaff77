/**
 * Calls and their responses: getFrameID, the pending table m_proxy_hash, RPCProxy, proxyCall,
 * setResponse, analyseReceiveData and wakeupOneThread, for any number of processes, callers
 * and handlers.  Every lock acquisition, table update and queueing is a step of its own, and a
 * lookup in the pending table is two: setting the iterator, which belongs to the table, and
 * reading it.  Messages may be delayed, overtaken and lost.
 */
module Correlation {
  import opened Names
  import opened Tables

  /** A call, named by its process and by how many ids that process had issued before it. */
  datatype Key = Key(proc: Name, issue: nat)

  /** m_frame_id is an unsigned int. */
  function IdOf(k: Key): uint32 { k.issue % WIDTH }

  /** `origin` records the call a message belongs to; no step of the protocol reads it. */
  datatype Msg = Msg(id: uint32, response: bool, sender: Name, recver: Name, mod: Name, func: Name,
                     data: seq<byte>, origin: Key)

  datatype Phase =
    | Numbered                                         // has its id, nothing else yet
    | Filed                                            // in the pending table, mutex free
    | Locked                                           // mutex held
    | Queued                                           // request on its way, mutex held
    | Waiting                                          // inside wait, mutex released
    | Signalled                                        // signalled, mutex not yet taken back
    | Expired                                          // timed out, mutex not yet taken back
    | Returned(result: int, read: Option<Msg>)         // has read its response, still in the table
    | Retired(result: int, read: Option<Msg>)          // out of the table

  datatype Call = Call(request: Msg, oneWay: bool, phase: Phase, stored: Option<Msg>)

  datatype State = State(
    frames: map<Name, nat>,                   // ids issued so far, by process
    last: map<Name, nat>,                     // the latest call of each process; read by no step
    pending: map<(Name, uint32), Key>,        // m_proxy_hash of every process
    calls: map<Key, Call>,                    // the proxies; a finished one stays where it is
    net: multiset<Msg>,                       // queued, in flight, or in a worker's queue
    served: multiset<Msg>,                    // requests inside a service handler
    seeking: multiset<Msg>,                   // responses whose lookup is between its two steps
    cursor: map<Name, Option<Key>>,           // where the iterator of m_proxy_hash stands; None is its end
    found: multiset<(Key, Msg)>)              // wakeupOneThread between find and lock

  const INIT := State(map[], map[], map[], map[], multiset{}, multiset{}, multiset{}, map[], multiset{})

  function Frame(s: State, p: Name): nat { if p in s.frames then s.frames[p] else 0 }

  function Cursor(s: State, p: Name): Option<Key> { if p in s.cursor then s.cursor[p] else None }

  /** Some thread of p holds the read lock of its m_proxy_hash. */
  ghost predicate Reading(s: State, p: Name) { exists m :: m in s.seeking && m.recver == p }

  /** The event thread of p, which handles everything that comes from other processes, does. */
  ghost predicate EventThreadReads(s: State, p: Name) {
    exists m :: m in s.seeking && m.recver == p && m.sender != p
  }

  datatype Action =
    | GetId(p: Name, recver: Name, mod: Name, func: Name, data: seq<byte>, oneWay: bool)
    | OtherId(p: Name)                        // getFrameID for a message nobody waits for
    | Register(k: Key)                        // m_proxy_hash.insert
    | Lock(k: Key)                            // the caller takes the mutex of its proxy
    | Queue(k: Key)
    | Begin(k: Key)                           // wait, or the early return of a one-way call
    | Expire(k: Key)
    | Resume(k: Key)                          // wait returns; getResponseMsg, unlock
    | Retire(k: Key)                          // m_proxy_hash.remove
    | Serve(m: Msg)                           // a request reaches its handler
    | Respond(m: Msg, data: seq<byte>)        // setResponse inside the handler
    | Done(m: Msg)                            // the handler returns, the request is released
    | Reject(k: Key)                          // no such local function, or no queueing: unlock, return -1
    | Seek(m: Msg)                            // UINTHash::find in wakeupOneThread sets the iterator
    | Fetch(m: Msg)                           // and reads it
    | Store(k: Key, m: Msg)                   // its critical section
    | Lose(m: Msg)

  ghost predicate Enabled(s: State, a: Action) {
    match a
    case GetId(_, _, _, _, _, _) => true
    case OtherId(_) => true
    case Register(k) => k in s.calls && s.calls[k].phase.Numbered? && !Reading(s, k.proc)
    case Lock(k) => k in s.calls && s.calls[k].phase.Filed?
    case Queue(k) => k in s.calls && s.calls[k].phase.Locked?
    case Begin(k) => k in s.calls && s.calls[k].phase.Queued?
    case Expire(k) => k in s.calls && s.calls[k].phase.Waiting?
    case Resume(k) => k in s.calls && (s.calls[k].phase.Signalled? || s.calls[k].phase.Expired?)
    case Retire(k) => k in s.calls && s.calls[k].phase.Returned? && !Reading(s, k.proc)
    case Reject(k) => k in s.calls && s.calls[k].phase.Locked?
    case Serve(m) => m in s.net && !m.response
    case Respond(m, _) => m in s.served
    case Done(m) => m in s.served
    case Seek(m) =>
      m in s.net && m.response && (m.sender != m.recver ==> !EventThreadReads(s, m.recver))
    case Fetch(m) => m in s.seeking
    case Store(k, m) => (k, m) in s.found && k in s.calls && !HoldsMutex(s.calls[k].phase)
    case Lose(m) => m in s.net
  }

  /** Where the caller has the mutex of its proxy; in Filed it is free for whoever finds the proxy. */
  predicate HoldsMutex(p: Phase) { p.Locked? || p.Queued? }

  function Request(k: Key, recver: Name, mod: Name, func: Name, data: seq<byte>): Msg {
    Msg(IdOf(k), false, k.proc, recver, mod, func, data, k)
  }

  /** setResponse and responseErrorCodeACK, at the process the request was sent to. */
  function Response(m: Msg, data: seq<byte>): Msg {
    Msg(m.id, true, m.recver, m.sender, m.mod, m.func, data, m.origin)
  }

  function SetPhase(s: State, k: Key, p: Phase): State
    requires k in s.calls
  {
    s.(calls := s.calls[k := s.calls[k].(phase := p)])
  }

  ghost function GetIdStep(s: State, k: Key, r: Msg, oneWay: bool): State {
    s.(frames := s.frames[k.proc := Frame(s, k.proc) + 1],
       last := s.last[k.proc := k.issue],
       calls := s.calls[k := Call(r, oneWay, Numbered, None)])
  }

  ghost function OtherIdStep(s: State, p: Name): State { s.(frames := s.frames[p := Frame(s, p) + 1]) }

  ghost function QueueStep(s: State, k: Key): State
    requires k in s.calls
  {
    SetPhase(s, k, Queued).(net := s.net + multiset{s.calls[k].request})
  }

  ghost function RegisterStep(s: State, k: Key): State
    requires k in s.calls
  {
    SetPhase(s, k, Filed).(pending := Inserted(s.pending, (k.proc, IdOf(k)), k))
  }

  ghost function RetireStep(s: State, k: Key): State
    requires k in s.calls && s.calls[k].phase.Returned?
  {
    s.(calls := s.calls[k := RetiredCall(s.calls[k])], pending := s.pending - {(k.proc, IdOf(k))})
  }

  function RetiredCall(c: Call): Call
    requires c.phase.Returned?
  {
    c.(phase := Retired(c.phase.result, c.phase.read))
  }

  /** What the pending table of the receiver holds under the id of m. */
  function Lookup(s: State, m: Msg): Option<Key> {
    if (m.recver, m.id) in s.pending then Some(s.pending[(m.recver, m.id)]) else None
  }

  ghost function SeekStep(s: State, m: Msg): State {
    s.(net := s.net - multiset{m}, seeking := s.seeking + multiset{m}, cursor := s.cursor[m.recver := Lookup(s, m)])
  }

  /** The iterator belongs to the table: what is read is where the latest lookup has left it. */
  ghost function FetchStep(s: State, m: Msg): State {
    var t := s.(seeking := s.seeking - multiset{m});
    match Cursor(s, m.recver)
    case None => t
    case Some(k) => t.(found := s.found + multiset{(k, m)})
  }

  function StoreCall(c: Call, m: Msg): Call {
    c.(stored := Some(m), phase := if c.phase.Waiting? then Signalled else c.phase)
  }

  ghost function StoreStep(s: State, k: Key, m: Msg): State
    requires k in s.calls
  {
    s.(found := s.found - multiset{(k, m)}, calls := s.calls[k := StoreCall(s.calls[k], m)])
  }

  ghost function Apply(s: State, a: Action): State
    requires Enabled(s, a)
  {
    match a
    case GetId(p, recver, mod, func, data, oneWay) =>
      var k := Key(p, Frame(s, p));
      GetIdStep(s, k, Request(k, recver, mod, func, data), oneWay)
    case OtherId(p) => OtherIdStep(s, p)
    case Register(k) => RegisterStep(s, k)
    case Lock(k) => SetPhase(s, k, Locked)
    case Queue(k) => QueueStep(s, k)
    case Begin(k) => SetPhase(s, k, if s.calls[k].oneWay then Returned(0, None) else Waiting)
    case Expire(k) => SetPhase(s, k, Expired)
    case Resume(k) => SetPhase(s, k, Returned(if s.calls[k].phase.Signalled? then 0 else -1, s.calls[k].stored))
    case Retire(k) => RetireStep(s, k)
    case Serve(m) => s.(net := s.net - multiset{m}, served := s.served + multiset{m})
    case Respond(m, data) => s.(net := s.net + multiset{Response(m, data)})
    case Done(m) => s.(served := s.served - multiset{m})
    case Reject(k) => SetPhase(s, k, Returned(-1, None))
    case Seek(m) => SeekStep(s, m)
    case Fetch(m) => FetchStep(s, m)
    case Store(k, m) => StoreStep(s, k, m)
    case Lose(m) => s.(net := s.net - multiset{m})
  }

  // ---- The assumption: ids do not come round while anything still carries one ----

  /** Fewer than 2^32 ids were issued since call k got its own. */
  predicate Recent(s: State, k: Key) { Frame(s, k.proc) - k.issue < WIDTH }

  /** That holds of every call of p that is not retired, or that some message still belongs to. */
  ghost predicate Room(s: State, p: Name) {
    && (forall k :: k in s.calls && k.proc == p && !s.calls[k].phase.Retired? ==> Recent(s, k))
    && (forall m :: m in s.net && m.origin.proc == p ==> Recent(s, m.origin))
    && (forall m :: m in s.served && m.origin.proc == p ==> Recent(s, m.origin))
    && (forall m :: m in s.seeking && m.origin.proc == p ==> Recent(s, m.origin))
    && (forall f :: f in s.found && f.1.origin.proc == p ==> Recent(s, f.1.origin))
  }

  ghost predicate Legal(s: State, acts: seq<Action>)
    decreases |acts|
  {
    acts == [] ||
      (Enabled(s, acts[0]) && (acts[0].GetId? ==> Room(s, acts[0].p)) && Legal(Apply(s, acts[0]), acts[1..]))
  }

  ghost function Run(s: State, acts: seq<Action>): State
    requires Legal(s, acts)
    decreases |acts|
  {
    if acts == [] then s else Run(Apply(s, acts[0]), acts[1..])
  }

  // ---- The invariant, over all runs ----

  /** m is the request of call k, or was built for it. */
  predicate BelongsTo(m: Msg, c: Call) {
    if !m.response then m == c.request else m == Response(c.request, m.data)
  }

  /** Fewer than 2^32 ids lie between k and the latest call of its process. */
  predicate InWindow(last: map<Name, nat>, k: Key) {
    k.proc in last && k.issue <= last[k.proc] < k.issue + WIDTH
  }

  /** The request is not queued yet. */
  predicate Early(p: Phase) { p.Numbered? || p.Filed? || p.Locked? }

  /** Messages belong to calls, and exist only from the moment the request is queued. */
  predicate MsgOk(calls: map<Key, Call>, last: map<Name, nat>, m: Msg) {
    && m.origin in calls && BelongsTo(m, calls[m.origin]) && InWindow(last, m.origin)
    && !Early(calls[m.origin].phase)
  }

  ghost predicate CallOk(k: Key, c: Call) {
    && c.request == Request(k, c.request.recver, c.request.mod, c.request.func, c.request.data)
    && PhaseOk(c, c.phase)
  }

  predicate PhaseOk(c: Call, p: Phase) {
    && (Early(p) || p.Queued? || p.Waiting? ==> c.stored.None?)
    && (p.Signalled? ==> c.stored.Some?)
    && ((p.Returned? || p.Retired?) && p.result == 0 && !c.oneWay ==> p.read.Some?)
  }

  /** A lookup in the table of p that ends at k has found one of its calls, with its request queued. */
  predicate Reached(calls: map<Key, Call>, p: Name, k: Key) {
    k in calls && k.proc == p && !Early(calls[k].phase)
  }

  predicate CursorOk(calls: map<Key, Call>, cursor: map<Name, Option<Key>>, p: Name) {
    p in cursor && cursor[p].Some? ==> Reached(calls, p, cursor[p].value)
  }

  predicate InTable(p: Phase) { !p.Numbered? && !p.Retired? }

  ghost predicate RowOk(last: map<Name, nat>, k: Key, c: Call) {
    && CallOk(k, c)
    && k.proc in last && k.issue <= last[k.proc]
    && (c.phase.Retired? || InWindow(last, k))
  }

  ghost predicate CallsOk(s: State) {
    && (forall p :: p in s.last ==> s.last[p] < Frame(s, p))
    && (forall k :: k in s.calls ==> RowOk(s.last, k, s.calls[k]))
  }

  ghost predicate NetOk(calls: map<Key, Call>, last: map<Name, nat>, net: multiset<Msg>) {
    forall m :: m in net ==> MsgOk(calls, last, m)
  }

  ghost predicate ServedOk(calls: map<Key, Call>, last: map<Name, nat>, served: multiset<Msg>) {
    forall m :: m in served ==> MsgOk(calls, last, m) && !m.response
  }

  ghost predicate SeekingOk(calls: map<Key, Call>, last: map<Name, nat>, seeking: multiset<Msg>,
                            cursor: map<Name, Option<Key>>) {
    forall m :: m in seeking ==> MsgOk(calls, last, m) && m.response && CursorOk(calls, cursor, m.recver)
  }

  ghost predicate FoundOk(calls: map<Key, Call>, last: map<Name, nat>, found: multiset<(Key, Msg)>) {
    forall f :: f in found ==> MsgOk(calls, last, f.1) && f.1.response && Reached(calls, f.1.recver, f.0)
  }

  ghost predicate MessagesOk(s: State) {
    && NetOk(s.calls, s.last, s.net) && ServedOk(s.calls, s.last, s.served)
    && SeekingOk(s.calls, s.last, s.seeking, s.cursor) && FoundOk(s.calls, s.last, s.found)
  }

  predicate Holder(calls: map<Key, Call>, x: (Name, uint32), k: Key) {
    x == (k.proc, IdOf(k)) && k in calls && InTable(calls[k].phase)
  }

  predicate Entered(pending: map<(Name, uint32), Key>, k: Key) {
    (k.proc, IdOf(k)) in pending && pending[(k.proc, IdOf(k))] == k
  }

  ghost predicate PendingOk(pending: map<(Name, uint32), Key>, calls: map<Key, Call>) {
    && (forall x :: x in pending ==> Holder(calls, x, pending[x]))
    && (forall k :: k in calls && InTable(calls[k].phase) ==> Entered(pending, k))
  }

  ghost predicate Inv(s: State) {
    CallsOk(s) && MessagesOk(s) && PendingOk(s.pending, s.calls)
  }

  /** Two calls less than 2^32 ids apart have the same id only if they are the same. */
  lemma SameIdSameCall(j: Key, k: Key)
    requires j.proc == k.proc && IdOf(j) == IdOf(k)
    requires j.issue - k.issue < WIDTH && k.issue - j.issue < WIDTH
    ensures j == k
  {
    var a, b := j.issue, k.issue;
    assert a == a / WIDTH * WIDTH + a % WIDTH;
    assert b == b / WIDTH * WIDTH + b % WIDTH;
    assert a - b == (a / WIDTH - b / WIDTH) * WIDTH;
  }

  lemma WindowSame(s: State, j: Key, k: Key)
    requires InWindow(s.last, j) && InWindow(s.last, k)
    requires j.proc == k.proc && IdOf(j) == IdOf(k)
    ensures j == k
  {
    SameIdSameCall(j, k);
  }

  /** A call keeps its request, and one whose request is queued stays so. */
  predicate Onward(c: Call, d: Call) { d.request == c.request && (Early(d.phase) ==> Early(c.phase)) }

  /** Messages stay right while the calls only move on and the window stays. */
  lemma MessagesStay(s: State, t: State)
    requires MessagesOk(s)
    requires forall k :: k in s.calls ==> k in t.calls && Onward(s.calls[k], t.calls[k])
    requires t.last == s.last && t.net == s.net && t.served == s.served && t.found == s.found
    requires t.seeking == s.seeking && t.cursor == s.cursor
    ensures MessagesOk(t)
  {
    forall m: Msg | MsgOk(s.calls, s.last, m)
      ensures MsgOk(t.calls, s.last, m)
    {
    }
    forall p, k | Reached(s.calls, p, k)
      ensures Reached(t.calls, p, k)
    {
    }
  }

  /** One call changes, and its row of the table of calls is right. */
  lemma CallsStay(s: State, t: State, k: Key, c: Call)
    requires CallsOk(s) && RowOk(s.last, k, c)
    requires t.calls == s.calls[k := c] && t.last == s.last && t.frames == s.frames
    ensures CallsOk(t)
  {
  }

  /** A call moves on, and may enter or leave the table. */
  lemma OneCallMoves(s: State, k: Key, c: Call, pending: map<(Name, uint32), Key>)
    requires CallsOk(s) && MessagesOk(s) && k in s.calls
    requires RowOk(s.last, k, c) && Onward(s.calls[k], c)
    ensures var t := s.(calls := s.calls[k := c], pending := pending); CallsOk(t) && MessagesOk(t)
  {
    var t := s.(calls := s.calls[k := c], pending := pending);
    CallsStay(s, t, k, c);
    MessagesStay(s, t);
  }

  /** A call moves on without entering or leaving the table. */
  lemma UpdateCall(s: State, k: Key, c: Call)
    requires Inv(s) && k in s.calls
    requires CallOk(k, c) && Onward(s.calls[k], c)
    requires InTable(c.phase) == InTable(s.calls[k].phase) && c.phase.Retired? == s.calls[k].phase.Retired?
    ensures Inv(s.(calls := s.calls[k := c]))
  {
    assert RowOk(s.last, k, s.calls[k]);
    OneCallMoves(s, k, c, s.pending);
    PendingStays(s.pending, s.calls, k, c);
  }

  lemma PendingStays(pending: map<(Name, uint32), Key>, calls: map<Key, Call>, k: Key, c: Call)
    requires PendingOk(pending, calls)
    requires if k in calls then InTable(c.phase) == InTable(calls[k].phase) else !InTable(c.phase)
    ensures PendingOk(pending, calls[k := c])
  {
    forall x | x in pending
      ensures Holder(calls[k := c], x, pending[x])
    {
      assert Holder(calls, x, pending[x]);
    }
  }

  lemma NetMore(calls: map<Key, Call>, last: map<Name, nat>, net: multiset<Msg>, m: Msg)
    requires NetOk(calls, last, net) && MsgOk(calls, last, m)
    ensures NetOk(calls, last, net + multiset{m})
  {
  }

  lemma NetLess(calls: map<Key, Call>, last: map<Name, nat>, net: multiset<Msg>, m: Msg)
    requires NetOk(calls, last, net) && m in net
    ensures NetOk(calls, last, net - multiset{m}) && MsgOk(calls, last, m)
  {
  }

  lemma ServedMore(calls: map<Key, Call>, last: map<Name, nat>, served: multiset<Msg>, m: Msg)
    requires ServedOk(calls, last, served) && MsgOk(calls, last, m) && !m.response
    ensures ServedOk(calls, last, served + multiset{m})
  {
  }

  lemma ServedLess(calls: map<Key, Call>, last: map<Name, nat>, served: multiset<Msg>, m: Msg)
    requires ServedOk(calls, last, served) && m in served
    ensures ServedOk(calls, last, served - multiset{m}) && MsgOk(calls, last, m) && !m.response
  {
  }

  lemma SeekingMore(calls: map<Key, Call>, last: map<Name, nat>, seeking: multiset<Msg>,
                    cursor: map<Name, Option<Key>>, m: Msg, c: Option<Key>)
    requires SeekingOk(calls, last, seeking, cursor) && MsgOk(calls, last, m) && m.response
    requires c.Some? ==> Reached(calls, m.recver, c.value)
    ensures SeekingOk(calls, last, seeking + multiset{m}, cursor[m.recver := c])
  {
    forall x | x in seeking + multiset{m}
      ensures MsgOk(calls, last, x) && x.response && CursorOk(calls, cursor[m.recver := c], x.recver)
    {
      assert x == m || x in seeking;
    }
  }

  lemma SeekingLess(calls: map<Key, Call>, last: map<Name, nat>, seeking: multiset<Msg>,
                    cursor: map<Name, Option<Key>>, m: Msg)
    requires SeekingOk(calls, last, seeking, cursor) && m in seeking
    ensures SeekingOk(calls, last, seeking - multiset{m}, cursor)
    ensures MsgOk(calls, last, m) && m.response && CursorOk(calls, cursor, m.recver)
  {
  }

  lemma FoundMore(calls: map<Key, Call>, last: map<Name, nat>, found: multiset<(Key, Msg)>, k: Key, m: Msg)
    requires FoundOk(calls, last, found) && MsgOk(calls, last, m) && m.response && Reached(calls, m.recver, k)
    ensures FoundOk(calls, last, found + multiset{(k, m)})
  {
  }

  lemma FoundLess(calls: map<Key, Call>, last: map<Name, nat>, found: multiset<(Key, Msg)>, k: Key, m: Msg)
    requires FoundOk(calls, last, found) && (k, m) in found
    ensures FoundOk(calls, last, found - multiset{(k, m)})
    ensures MsgOk(calls, last, m) && m.response && Reached(calls, m.recver, k)
  {
    assert (k, m).0 == k && (k, m).1 == m;
  }

  lemma UpdatePhase(s: State, k: Key, p: Phase)
    requires Inv(s) && k in s.calls && PhaseOk(s.calls[k], p)
    requires InTable(p) == InTable(s.calls[k].phase) && !p.Retired? && !s.calls[k].phase.Retired?
    requires Early(p) ==> Early(s.calls[k].phase)
    ensures Inv(SetPhase(s, k, p))
  {
    assert RowOk(s.last, k, s.calls[k]);
    UpdateCall(s, k, s.calls[k].(phase := p));
  }

  /** The window moves on to a new latest call, and nothing that is left falls out of it. */
  lemma RowStays(last: map<Name, nat>, j: Key, c: Call, p: Name, n: nat)
    requires RowOk(last, j, c) && (p in last ==> last[p] <= n)
    requires j.proc == p && !c.phase.Retired? ==> n - j.issue < WIDTH
    ensures RowOk(last[p := n], j, c)
  {
  }

  lemma NewRow(last: map<Name, nat>, k: Key, r: Msg, oneWay: bool)
    requires r == Request(k, r.recver, r.mod, r.func, r.data)
    ensures RowOk(last[k.proc := k.issue], k, Call(r, oneWay, Numbered, None))
  {
  }

  lemma GetIdFresh(s: State, k: Key)
    requires Inv(s) && k.issue == Frame(s, k.proc)
    ensures k !in s.calls
  {
    assert k in s.calls ==> RowOk(s.last, k, s.calls[k]);
  }

  lemma GetIdCalls(s: State, k: Key, r: Msg, oneWay: bool)
    requires CallsOk(s) && k.issue == Frame(s, k.proc) && Room(s, k.proc) && k !in s.calls
    requires r == Request(k, r.recver, r.mod, r.func, r.data)
    ensures CallsOk(GetIdStep(s, k, r, oneWay))
  {
    var t := GetIdStep(s, k, r, oneWay);
    NewRow(s.last, k, r, oneWay);
    forall j | j in t.calls
      ensures RowOk(t.last, j, t.calls[j])
    {
      if j != k {
        RowStays(s.last, j, s.calls[j], k.proc, k.issue);
      }
    }
  }

  /** One more call, the latest of its process: what belongs to a recent call stays right. */
  lemma WindowMoves(calls: map<Key, Call>, last: map<Name, nat>, k: Key, c: Call, m: Msg)
    requires MsgOk(calls, last, m) && k !in calls && (k.proc in last ==> last[k.proc] <= k.issue)
    requires m.origin.proc == k.proc ==> k.issue - m.origin.issue < WIDTH
    ensures MsgOk(calls[k := c], last[k.proc := k.issue], m)
  {
  }

  lemma GetIdMessages(s: State, k: Key, c: Call)
    requires Inv(s) && k.issue == Frame(s, k.proc) && Room(s, k.proc) && k !in s.calls
    ensures var calls, last := s.calls[k := c], s.last[k.proc := k.issue];
            && NetOk(calls, last, s.net) && ServedOk(calls, last, s.served)
            && SeekingOk(calls, last, s.seeking, s.cursor) && FoundOk(calls, last, s.found)
  {
    var calls, last := s.calls[k := c], s.last[k.proc := k.issue];
    forall m | MsgOk(s.calls, s.last, m) && (m.origin.proc == k.proc ==> Recent(s, m.origin))
      ensures MsgOk(calls, last, m)
    {
      WindowMoves(s.calls, s.last, k, c, m);
    }
    assert forall p, j :: Reached(s.calls, p, j) ==> Reached(calls, p, j);
    MessagesMove(s, k.proc, calls, last);
  }

  lemma MessagesMove(s: State, p: Name, calls: map<Key, Call>, last: map<Name, nat>)
    requires MessagesOk(s) && Room(s, p)
    requires forall m :: MsgOk(s.calls, s.last, m) && (m.origin.proc == p ==> Recent(s, m.origin)) ==>
               MsgOk(calls, last, m)
    requires forall q, j :: Reached(s.calls, q, j) ==> Reached(calls, q, j)
    ensures NetOk(calls, last, s.net) && ServedOk(calls, last, s.served)
    ensures SeekingOk(calls, last, s.seeking, s.cursor) && FoundOk(calls, last, s.found)
  {
  }

  lemma GetIdKeeps(s: State, k: Key, r: Msg, oneWay: bool)
    requires Inv(s) && k.issue == Frame(s, k.proc) && Room(s, k.proc)
    requires r == Request(k, r.recver, r.mod, r.func, r.data)
    ensures Inv(GetIdStep(s, k, r, oneWay))
  {
    var t := GetIdStep(s, k, r, oneWay);
    GetIdFresh(s, k);
    GetIdCalls(s, k, r, oneWay);
    GetIdMessages(s, k, Call(r, oneWay, Numbered, None));
    PendingStays(s.pending, s.calls, k, Call(r, oneWay, Numbered, None));
  }

  /** The id of a call that is being registered is not in the table: the insert never fails. */
  lemma RegisterSucceeds(s: State, k: Key)
    requires Inv(s) && k in s.calls && s.calls[k].phase.Numbered?
    ensures (k.proc, IdOf(k)) !in s.pending
  {
    if (k.proc, IdOf(k)) in s.pending {
      var j := s.pending[(k.proc, IdOf(k))];
      assert Holder(s.calls, (k.proc, IdOf(k)), j);
      WindowSame(s, j, k);
    }
  }

  lemma RegisterPending(pending: map<(Name, uint32), Key>, calls: map<Key, Call>, k: Key, c: Call)
    requires PendingOk(pending, calls) && k in calls && !InTable(calls[k].phase) && InTable(c.phase)
    requires (k.proc, IdOf(k)) !in pending
    ensures PendingOk(pending[(k.proc, IdOf(k)) := k], calls[k := c])
  {
    forall x | x in pending
      ensures Holder(calls[k := c], x, pending[x])
    {
      assert Holder(calls, x, pending[x]);
    }
    forall j | j in calls && j != k && InTable(calls[j].phase)
      ensures Entered(pending[(k.proc, IdOf(k)) := k], j)
    {
      assert Entered(pending, j);
    }
  }

  lemma FiledRow(last: map<Name, nat>, k: Key, c: Call)
    requires RowOk(last, k, c) && c.phase.Numbered?
    ensures RowOk(last, k, c.(phase := Filed))
  {
  }

  lemma RegisterKeeps(s: State, k: Key)
    requires Inv(s) && k in s.calls && s.calls[k].phase.Numbered?
    ensures Inv(RegisterStep(s, k))
  {
    var d := s.calls[k].(phase := Filed);
    FiledRow(s.last, k, s.calls[k]);
    OneCallMoves(s, k, d, Inserted(s.pending, (k.proc, IdOf(k)), k));
    RegisterSucceeds(s, k);
    RegisterPending(s.pending, s.calls, k, d);
  }

  lemma SentKeeps(s: State, m: Msg)
    requires Inv(s) && MsgOk(s.calls, s.last, m)
    ensures Inv(s.(net := s.net + multiset{m}))
  {
    NetMore(s.calls, s.last, s.net, m);
  }

  lemma QueueKeeps(s: State, k: Key)
    requires Inv(s) && k in s.calls && s.calls[k].phase.Locked?
    ensures Inv(QueueStep(s, k))
  {
    QueuedKeeps(s, k);
    SentKeeps(SetPhase(s, k, Queued), s.calls[k].request);
  }

  lemma QueuedKeeps(s: State, k: Key)
    requires Inv(s) && k in s.calls && s.calls[k].phase.Locked?
    ensures var t := SetPhase(s, k, Queued); Inv(t) && MsgOk(t.calls, t.last, s.calls[k].request)
  {
    assert RowOk(s.last, k, s.calls[k]);
    UpdatePhase(s, k, Queued);
  }

  lemma RetirePending(pending: map<(Name, uint32), Key>, calls: map<Key, Call>, k: Key, c: Call)
    requires PendingOk(pending, calls) && k in calls && InTable(calls[k].phase) && !InTable(c.phase)
    ensures PendingOk(pending - {(k.proc, IdOf(k))}, calls[k := c])
  {
    assert Entered(pending, k);
    forall x | x in pending && x != (k.proc, IdOf(k))
      ensures Holder(calls[k := c], x, pending[x])
    {
      assert Holder(calls, x, pending[x]);
    }
    forall j | j in calls && j != k && InTable(calls[j].phase)
      ensures Entered(pending - {(k.proc, IdOf(k))}, j)
    {
      assert Entered(pending, j);
    }
  }

  lemma RetiredRow(last: map<Name, nat>, k: Key, c: Call)
    requires RowOk(last, k, c) && c.phase.Returned?
    ensures RowOk(last, k, RetiredCall(c))
  {
  }

  lemma RetireKeeps(s: State, k: Key)
    requires Inv(s) && k in s.calls && s.calls[k].phase.Returned?
    ensures Inv(RetireStep(s, k))
  {
    var d := RetiredCall(s.calls[k]);
    RetiredRow(s.last, k, s.calls[k]);
    OneCallMoves(s, k, d, s.pending - {(k.proc, IdOf(k))});
    RetirePending(s.pending, s.calls, k, d);
  }

  /** What a response is looked up as, if anything, is the call it was built for. */
  lemma LookupIsOrigin(s: State, m: Msg)
    requires Inv(s) && MsgOk(s.calls, s.last, m) && m.response
    ensures Lookup(s, m).Some? ==> Lookup(s, m).value == m.origin
    ensures m.recver == m.origin.proc
  {
    assert RowOk(s.last, m.origin, s.calls[m.origin]);
    if (m.recver, m.id) in s.pending {
      var k := s.pending[(m.recver, m.id)];
      assert Holder(s.calls, (m.recver, m.id), k);
      assert RowOk(s.last, k, s.calls[k]);
      WindowSame(s, m.origin, k);
    }
  }

  lemma SeekKeeps(s: State, m: Msg)
    requires Inv(s) && m in s.net && m.response
    ensures Inv(SeekStep(s, m))
  {
    NetLess(s.calls, s.last, s.net, m);
    LookupIsOrigin(s, m);
    SeekingMore(s.calls, s.last, s.seeking, s.cursor, m, Lookup(s, m));
  }

  lemma FetchKeeps(s: State, m: Msg)
    requires Inv(s) && m in s.seeking
    ensures Inv(FetchStep(s, m))
  {
    SeekingLess(s.calls, s.last, s.seeking, s.cursor, m);
    var t := s.(seeking := s.seeking - multiset{m});
    assert Inv(t);
    if Cursor(s, m.recver).Some? {
      FoundKeeps(t, Cursor(s, m.recver).value, m);
    }
  }

  lemma FoundKeeps(s: State, k: Key, m: Msg)
    requires Inv(s) && MsgOk(s.calls, s.last, m) && m.response && Reached(s.calls, m.recver, k)
    ensures Inv(s.(found := s.found + multiset{(k, m)}))
  {
    FoundMore(s.calls, s.last, s.found, k, m);
  }

  lemma StoreKeeps(s: State, k: Key, m: Msg)
    requires Inv(s) && (k, m) in s.found && k in s.calls && !HoldsMutex(s.calls[k].phase)
    ensures Inv(StoreStep(s, k, m))
  {
    FoundLess(s.calls, s.last, s.found, k, m);
    StoredCall(s, k, m);
    var t := s.(found := s.found - multiset{(k, m)});
    assert Inv(t);
    UpdateCall(t, k, StoreCall(s.calls[k], m));
  }

  lemma StoredCall(s: State, k: Key, m: Msg)
    requires CallsOk(s) && k in s.calls && Reached(s.calls, k.proc, k) && !HoldsMutex(s.calls[k].phase)
    ensures var c := StoreCall(s.calls[k], m); CallOk(k, c) && Onward(s.calls[k], c)
  {
    assert RowOk(s.last, k, s.calls[k]);
  }

  lemma LockKeeps(s: State, k: Key)
    requires Inv(s) && k in s.calls && s.calls[k].phase.Filed?
    ensures Inv(SetPhase(s, k, Locked))
  {
    assert RowOk(s.last, k, s.calls[k]);
    UpdatePhase(s, k, Locked);
  }

  lemma BeginKeeps(s: State, k: Key)
    requires Inv(s) && k in s.calls && s.calls[k].phase.Queued?
    ensures Inv(SetPhase(s, k, if s.calls[k].oneWay then Returned(0, None) else Waiting))
  {
    assert RowOk(s.last, k, s.calls[k]);
    UpdatePhase(s, k, if s.calls[k].oneWay then Returned(0, None) else Waiting);
  }

  lemma ExpireKeeps(s: State, k: Key)
    requires Inv(s) && k in s.calls && s.calls[k].phase.Waiting?
    ensures Inv(SetPhase(s, k, Expired))
  {
    UpdatePhase(s, k, Expired);
  }

  lemma ResumeKeeps(s: State, k: Key)
    requires Inv(s) && k in s.calls && (s.calls[k].phase.Signalled? || s.calls[k].phase.Expired?)
    ensures Inv(SetPhase(s, k, Returned(if s.calls[k].phase.Signalled? then 0 else -1, s.calls[k].stored)))
  {
    assert RowOk(s.last, k, s.calls[k]);
    UpdatePhase(s, k, Returned(if s.calls[k].phase.Signalled? then 0 else -1, s.calls[k].stored));
  }

  lemma RejectKeeps(s: State, k: Key)
    requires Inv(s) && k in s.calls && s.calls[k].phase.Locked?
    ensures Inv(SetPhase(s, k, Returned(-1, None)))
  {
    UpdatePhase(s, k, Returned(-1, None));
  }

  lemma ServeKeeps(s: State, m: Msg)
    requires Inv(s) && m in s.net && !m.response
    ensures Inv(s.(net := s.net - multiset{m}, served := s.served + multiset{m}))
  {
    NetLess(s.calls, s.last, s.net, m);
    ServedMore(s.calls, s.last, s.served, m);
  }

  lemma RespondKeeps(s: State, m: Msg, data: seq<byte>)
    requires Inv(s) && m in s.served
    ensures Inv(s.(net := s.net + multiset{Response(m, data)}))
  {
    ServedLess(s.calls, s.last, s.served, m);
    SentKeeps(s, Response(m, data));
  }

  lemma DoneKeeps(s: State, m: Msg)
    requires Inv(s) && m in s.served
    ensures Inv(s.(served := s.served - multiset{m}))
  {
    ServedLess(s.calls, s.last, s.served, m);
  }

  lemma LoseKeeps(s: State, m: Msg)
    requires Inv(s) && m in s.net
    ensures Inv(s.(net := s.net - multiset{m}))
  {
    NetLess(s.calls, s.last, s.net, m);
  }

  /** The steps of a caller. */
  lemma CallStepKeeps(s: State, a: Action)
    requires Inv(s) && Enabled(s, a)
    requires a.Register? || a.Lock? || a.Queue? || a.Begin? || a.Expire? || a.Resume? || a.Retire? || a.Reject?
    ensures Inv(Apply(s, a))
  {
    match a
    case Register(k) => RegisterKeeps(s, k);
    case Lock(k) => LockKeeps(s, k);
    case Queue(k) => QueueKeeps(s, k);
    case Begin(k) => BeginKeeps(s, k);
    case Expire(k) => ExpireKeeps(s, k);
    case Resume(k) => ResumeKeeps(s, k);
    case Retire(k) => RetireKeeps(s, k);
    case Reject(k) => RejectKeeps(s, k);
  }

  /** The steps of wakeupOneThread. */
  lemma WakeStepKeeps(s: State, a: Action)
    requires Inv(s) && Enabled(s, a) && (a.Seek? || a.Fetch? || a.Store?)
    ensures Inv(Apply(s, a))
  {
    match a
    case Seek(m) => SeekKeeps(s, m);
    case Fetch(m) => FetchKeeps(s, m);
    case Store(k, m) => StoreKeeps(s, k, m);
  }

  /** The steps of handlers and the network. */
  lemma MessageStepKeeps(s: State, a: Action)
    requires Inv(s) && Enabled(s, a) && (a.Serve? || a.Respond? || a.Done? || a.Lose?)
    ensures Inv(Apply(s, a))
  {
    match a
    case Serve(m) => ServeKeeps(s, m);
    case Respond(m, data) => RespondKeeps(s, m, data);
    case Done(m) => DoneKeeps(s, m);
    case Lose(m) => LoseKeeps(s, m);
  }

  lemma StepKeeps(s: State, a: Action)
    requires Inv(s) && Enabled(s, a) && (a.GetId? ==> Room(s, a.p))
    ensures Inv(Apply(s, a))
  {
    match a
    case GetId(p, recver, mod, func, data, oneWay) =>
      var k := Key(p, Frame(s, p));
      GetIdKeeps(s, k, Request(k, recver, mod, func, data), oneWay);
    case OtherId(p) => OtherIdKeeps(s, p);
    case Serve(_) => MessageStepKeeps(s, a);
    case Respond(_, _) => MessageStepKeeps(s, a);
    case Done(_) => MessageStepKeeps(s, a);
    case Lose(_) => MessageStepKeeps(s, a);
    case Seek(_) => WakeStepKeeps(s, a);
    case Fetch(_) => WakeStepKeeps(s, a);
    case Store(_, _) => WakeStepKeeps(s, a);
    case _ => CallStepKeeps(s, a);
  }

  lemma OtherIdKeeps(s: State, p: Name)
    requires Inv(s)
    ensures Inv(OtherIdStep(s, p))
  {
    var t := OtherIdStep(s, p);
    assert CallsOk(t) by {
      assert forall q :: q in s.last ==> s.last[q] < Frame(s, q) <= Frame(t, q);
    }
  }

  lemma {:induction false} RunKeeps(s: State, acts: seq<Action>)
    requires Inv(s) && Legal(s, acts)
    ensures Inv(Run(s, acts))
    decreases |acts|
  {
    if acts != [] {
      StepKeeps(s, acts[0]);
      RunKeeps(Apply(s, acts[0]), acts[1..]);
    }
  }
}
