/**
 * Link establishment between two processes that may connect to each other at the same time.
 *
 * Every `m_link_mutex` critical section is one step, every socket operation is another, and
 * the steps of the two sending threads and the two event threads interleave freely.  The two
 * processes are called Lo and Hi after the order of their names; which one is which never
 * enters a step other than through the name comparison the code makes.
 */
module LinkProtocol {
  import opened Names

  datatype Side = Lo | Hi

  function Other(p: Side): Side { if p == Lo then Hi else Lo }

  /** One socket connection, seen as the same value from both ends. */
  datatype Conn = Conn(opener: Side, serial: nat)

  datatype Msg =
    | LinkRequest(id: nat, sender: Name)
    | LinkResponse(id: nat, keep: nat)
    | App
    | Eof

  datatype Packet = Packet(conn: Conn, to: Side, msg: Msg)

  /** How wait ended: with a response that arrived on `via`, or by the clock. */
  datatype Answer = Answered(keep: nat, via: Conn) | TimedOut

  /** Where the sending thread is while it works on one message. */
  datatype Pc =
    | Looking                                            // at REPEAT_CONNECT
    | NoEntry                                            // the lookup returned NULL
    | Connected(c: Conn)                                 // requestLink not yet in the table
    | Inserted(c: Conn, id: nat)                         // in the table, holding the proxy mutex
    | Waiting(c: Conn, id: nat)                          // request sent, inside wait
    | Woken(c: Conn, id: nat, answer: Answer)            // before the table is read again
    | Lost(c: Conn)                                      // requestLink returned 1 or -1
    | Ready(c: Conn)                                     // about to send the message on c

  datatype Thread = Idle | Busy(fails: nat, conflicts: nat, pc: Pc)

  datatype Event = Listening | Replying(id: nat, dest: Conn)

  /**
   * One process.  `table` is its entry for the other process.  `tried` records the connection
   * its own sending thread entered in the table and `closed` the ends it has freed; no step
   * reads either.
   */
  datatype Proc = Proc(name: Name, table: Option<Conn>, thread: Thread, event: Event,
                       serials: nat, tried: Option<Conn>, closed: set<Conn>)

  datatype State = State(lo: Proc, hi: Proc, net: seq<Packet>)

  function P(s: State, p: Side): Proc { if p == Lo then s.lo else s.hi }

  function Set(s: State, p: Side, x: Proc): State { if p == Lo then s.(lo := x) else s.(hi := x) }

  function InitProc(n: Name): Proc { Proc(n, None, Idle, Listening, 0, None, {}) }

  function Init(lo: Name, hi: Name): State { State(InitProc(lo), InitProc(hi), []) }

  const RETRIES := 3

  datatype Action =
    | Take(p: Side)              // the thread takes a message for the other process
    | Lookup(p: Side)
    | Connect(p: Side)
    | ConnectFail(p: Side)
    | GiveUp(p: Side)            // third failed connect: the message is dropped
    | Enter(p: Side, id: nat)    // first critical section of requestLink
    | SendRequest(p: Side)
    | TimeOut(p: Side)           // wait gives up
    | Recheck(p: Side)           // second critical section of requestLink
    | Close(p: Side)             // disconnect after requestLink returned 1 or -1
    | SendApp(p: Side)
    | Deliver(i: nat)            // the event thread receives packet i
    | SendReply(p: Side)

  /** Each connection delivers each direction in order. */
  predicate First(net: seq<Packet>, i: nat)
    requires i < |net|
  {
    forall j :: 0 <= j < i ==> net[j].conn != net[i].conn || net[j].to != net[i].to
  }

  predicate At(x: Proc, pc: Pc) { x.thread.Busy? && x.thread.pc == pc }

  predicate Enabled(s: State, a: Action) {
    match a
    case Take(p) => P(s, p).thread.Idle?
    case Lookup(p) => At(P(s, p), Looking)
    case Connect(p) => At(P(s, p), NoEntry) && P(s, p).thread.fails != RETRIES
    case ConnectFail(p) => At(P(s, p), NoEntry) && P(s, p).thread.fails != RETRIES
    case GiveUp(p) => At(P(s, p), NoEntry) && P(s, p).thread.fails == RETRIES
    case Enter(p, id) => P(s, p).thread.Busy? && P(s, p).thread.pc.Connected?
    case SendRequest(p) => P(s, p).thread.Busy? && P(s, p).thread.pc.Inserted?
    case TimeOut(p) => P(s, p).thread.Busy? && P(s, p).thread.pc.Waiting?
    case Recheck(p) => P(s, p).thread.Busy? && P(s, p).thread.pc.Woken?
    case Close(p) => P(s, p).thread.Busy? && P(s, p).thread.pc.Lost?
    case SendApp(p) => P(s, p).thread.Busy? && P(s, p).thread.pc.Ready?
    case Deliver(i) =>
      && i < |s.net| && First(s.net, i)
      && P(s, s.net[i].to).event.Listening?
      && !Blocked(P(s, s.net[i].to), s.net[i])
    case SendReply(p) => P(s, p).event.Replying?
  }

  /** wakeupOneThread cannot take a proxy mutex its caller still holds. */
  predicate Blocked(x: Proc, k: Packet) {
    && k.conn !in x.closed && k.msg.LinkResponse?
    && x.thread.Busy? && x.thread.pc.Inserted? && x.thread.pc.id == k.msg.id
  }

  function Goto(x: Proc, pc: Pc): Proc
    requires x.thread.Busy?
  {
    x.(thread := x.thread.(pc := pc))
  }

  function Lose(x: Proc, c: Conn): Proc
    requires x.thread.Busy?
  {
    x.(thread := x.thread.(pc := Lost(c), conflicts := x.thread.conflicts + 1))
  }

  /** StringHash::remove(value) on a table with a single key. */
  function Forget(table: Option<Conn>, c: Conn): Option<Conn> {
    if table == Some(c) then None else table
  }

  /** src/rpc_core.cpp 1180-1191. */
  function EnterStep(x: Proc, id: nat): Proc
    requires x.thread.Busy? && x.thread.pc.Connected?
  {
    var c := x.thread.pc.c;
    if x.table.Some? then Lose(x, c)
    else Goto(x, Inserted(c, id)).(table := Some(c), tried := Some(c))
  }

  function TimeOutStep(x: Proc): Proc
    requires x.thread.Busy? && x.thread.pc.Waiting?
  {
    Goto(x, Woken(x.thread.pc.c, x.thread.pc.id, TimedOut))
  }

  /** src/rpc_core.cpp 1204-1232. */
  function RecheckStep(x: Proc): Proc
    requires x.thread.Busy? && x.thread.pc.Woken?
  {
    var c := x.thread.pc.c;
    if x.table != Some(c) then Lose(x, c)
    else match x.thread.pc.answer
      case Answered(keep, via) => if keep == 0 then Lose(x, c).(table := Some(via)) else Goto(x, Ready(c))
      case TimedOut => Lose(x, c).(table := None)
  }

  /** src/rpc_core.cpp 1271-1295: the new table entry and the connection that carries the reply. */
  function RespondStep(x: Proc, sender: Name, id: nat, fd: Conn): Proc {
    if x.table.Some? && Less(x.name, sender) then x.(event := Replying(id, x.table.value))
    else x.(table := Some(fd), event := Replying(id, fd))
  }

  /** What arrives at an end that has been freed is lost. */
  function ReceiveStep(x: Proc, k: Packet): Proc {
    if k.conn in x.closed then x else HandleStep(x, k)
  }

  function HandleStep(x: Proc, k: Packet): Proc {
    match k.msg
    case LinkRequest(id, sender) => RespondStep(x, sender, id, k.conn)
    case LinkResponse(id, keep) =>
      if !x.thread.Busy? then x
      else (match x.thread.pc
            case Waiting(c, i) => if i == id then Goto(x, Woken(c, id, Answered(keep, k.conn))) else x
            case Woken(c, i, Answered(_, _)) =>
              if i == id then Goto(x, Woken(c, id, Answered(keep, k.conn))) else x
            case _ => x)
    case App => x
    case Eof => x.(table := Forget(x.table, k.conn), closed := x.closed + {k.conn})
  }

  function TakeStep(x: Proc): Proc { x.(thread := Busy(0, 0, Looking)) }

  /** src/rpc_core.cpp 1066-1069. */
  function LookupStep(x: Proc): Proc
    requires x.thread.Busy?
  {
    Goto(x, if x.table.Some? then Ready(x.table.value) else NoEntry)
  }

  function ConnectStep(x: Proc, p: Side): Proc
    requires x.thread.Busy?
  {
    Goto(x, Connected(Conn(p, x.serials))).(serials := x.serials + 1)
  }

  function ConnectFailStep(x: Proc): Proc
    requires x.thread.Busy?
  {
    x.(thread := x.thread.(pc := Looking, fails := x.thread.fails + 1))
  }

  function DoneStep(x: Proc): Proc { x.(thread := Idle) }

  function SentStep(x: Proc): Proc
    requires x.thread.Busy? && x.thread.pc.Inserted?
  {
    Goto(x, Waiting(x.thread.pc.c, x.thread.pc.id))
  }

  function CloseStep(x: Proc): Proc
    requires x.thread.Busy? && x.thread.pc.Lost?
  {
    var c := x.thread.pc.c;
    Goto(x, Looking).(table := Forget(x.table, c), closed := x.closed + {c})
  }

  function RepliedStep(x: Proc): Proc { x.(event := Listening) }

  function Without<T>(xs: seq<T>, i: nat): seq<T>
    requires i < |xs|
  {
    xs[..i] + xs[i + 1..]
  }

  /** What is still on its way to an end that has been freed is lost. */
  function Discard(net: seq<Packet>, c: Conn, p: Side): seq<Packet> {
    if net == [] then []
    else if net[0].conn == c && net[0].to == p then Discard(net[1..], c, p)
    else [net[0]] + Discard(net[1..], c, p)
  }

  function Apply(s: State, a: Action): State
    requires Enabled(s, a)
  {
    match a
    case Take(p) => Set(s, p, TakeStep(P(s, p)))
    case Lookup(p) => Set(s, p, LookupStep(P(s, p)))
    case Connect(p) => Set(s, p, ConnectStep(P(s, p), p))
    case ConnectFail(p) => Set(s, p, ConnectFailStep(P(s, p)))
    case GiveUp(p) => Set(s, p, DoneStep(P(s, p)))
    case Enter(p, id) => Set(s, p, EnterStep(P(s, p), id))
    case SendRequest(p) =>
      var pc := P(s, p).thread.pc;
      Set(s, p, SentStep(P(s, p)))
        .(net := s.net + [Packet(pc.c, Other(p), LinkRequest(pc.id, P(s, p).name))])
    case TimeOut(p) => Set(s, p, TimeOutStep(P(s, p)))
    case Recheck(p) => Set(s, p, RecheckStep(P(s, p)))
    case Close(p) =>
      var c := P(s, p).thread.pc.c;
      Set(s, p, CloseStep(P(s, p))).(net := Discard(s.net, c, p) + [Packet(c, Other(p), Eof)])
    case SendApp(p) =>
      Set(s, p, DoneStep(P(s, p))).(net := s.net + [Packet(P(s, p).thread.pc.c, Other(p), App)])
    case Deliver(i) =>
      var k := s.net[i];
      Set(s, k.to, ReceiveStep(P(s, k.to), k)).(net := Without(s.net, i))
    case SendReply(p) =>
      var ev := P(s, p).event;
      Set(s, p, RepliedStep(P(s, p)))
        .(net := s.net + [Packet(ev.dest, Other(p), LinkResponse(ev.id, 1))])
  }

  ghost predicate Legal(s: State, acts: seq<Action>)
    decreases |acts|
  {
    acts == [] || (Enabled(s, acts[0]) && Legal(Apply(s, acts[0]), acts[1..]))
  }

  ghost function Run(s: State, acts: seq<Action>): State
    requires Legal(s, acts)
    decreases |acts|
  {
    if acts == [] then s else Run(Apply(s, acts[0]), acts[1..])
  }

  /** No wait of requestLink ran into its timeout. */
  ghost predicate Punctual(acts: seq<Action>) { forall i :: 0 <= i < |acts| ==> !acts[i].TimeOut? }

  /** No link attempt and no link message is outstanding. */
  ghost predicate Quiet(s: State) {
    && (forall p: Side :: !Attempting(P(s, p)) && P(s, p).event.Listening?)
    && (forall i :: 0 <= i < |s.net| ==> !s.net[i].msg.LinkRequest? && !s.net[i].msg.LinkResponse?)
  }

  predicate Attempting(x: Proc) {
    x.thread.Busy? && (x.thread.pc.Inserted? || x.thread.pc.Waiting? || x.thread.pc.Woken?)
  }
}
