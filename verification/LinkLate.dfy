/**
 * What every step of link establishment keeps when waits may run into their timeouts, but only
 * after the peer has decided on the request they wait for.
 */
module LinkLate {
  import opened Names
  import opened LinkProtocol
  import opened LinkInvariant

  // ---- The invariant ----

  /** The ids each side's attempts have used so far. */
  datatype Used = Used(lo: set<nat>, hi: set<nat>)

  function UsedBy(u: Used, p: Side): set<nat> { if p == Lo then u.lo else u.hi }

  function Use(u: Used, p: Side, id: nat): Used {
    if p == Lo then u.(lo := u.lo + {id}) else u.(hi := u.hi + {id})
  }

  /** The requests of each side that are in flight. */
  datatype Open = Open(lo: nat, hi: nat)

  function OpenBy(n: Open, p: Side): nat { if p == Lo then n.lo else n.hi }

  function OpenIn(net: seq<Packet>): Open { Open(Tally(net, RequestsOf(Lo)), Tally(net, RequestsOf(Hi))) }

  predicate Asking(x: Proc) { Unsent(x) || Waits(x) }

  /** A connection belongs to the side that opened it, which is also the one to close it. */
  predicate Owning(x: Proc, p: Side) {
    x.thread.Busy? ==>
      var pc := x.thread.pc;
      && (pc.Connected? || Attempting(x) || pc.Lost? ==> pc.c.opener == p && pc.c !in x.closed)
      && (pc.Connected? || pc.Lost? ==> x.table != Some(pc.c))
      && (pc.Woken? && pc.answer.Answered? ==> pc.answer.keep == 1)
  }

  ghost predicate Ends(lo: Proc, hi: Proc) {
    && (forall c :: c in lo.closed && c.opener == Hi ==> c in hi.closed)
    && (forall c :: c in hi.closed && c.opener == Lo ==> c in lo.closed)
    && (lo.table.Some? ==> lo.table.value !in lo.closed)
    && (hi.table.Some? ==> hi.table.value !in hi.closed)
  }

  /** Lo has entered a connection that Hi has not heard of. */
  predicate Announcing(lo: Proc, n: Open) { Unsent(lo) || n.lo > 0 }

  /** The entry for a connection of Lo's. */
  predicate TablesOfLo(lo: Proc, hi: Proc, n: Open) {
    && (Attempting(lo) ==> lo.table == Some(lo.thread.pc.c))
    && (lo.table.Some? && lo.table.value.opener == Lo && !Announcing(lo, n) ==> hi.table == lo.table)
    && (hi.table.Some? && hi.table.value.opener == Lo ==>
          lo.table == hi.table || At(lo, Lost(hi.table.value)) || hi.table.value in lo.closed)
  }

  /** Hi works on h and has not read an answer. */
  predicate Undecided(hi: Proc, h: Conn) {
    Attempting(hi) && hi.thread.pc.c == h && (hi.thread.pc.Woken? ==> hi.thread.pc.answer.TimedOut?)
  }

  /** The entry for a connection of Hi's. */
  predicate TablesOfHi(lo: Proc, hi: Proc, n: Open) {
    && (lo.table.Some? && lo.table.value.opener == Hi ==>
          var h := lo.table.value;
          hi.table == Some(h) || (Attempting(hi) && hi.thread.pc.c == h) || At(hi, Lost(h)) || h in hi.closed)
    && (hi.table.Some? && hi.table.value.opener == Hi ==>
          lo.table == hi.table || Announcing(lo, n) || Undecided(hi, hi.table.value))
  }

  /** An answer that reaches Hi on d finds the tables in order, or about to be overruled by Lo. */
  predicate AnswerOk(lo: Proc, hi: Proc, n: Open, d: Conn)
    requires Waits(hi)
  {
    d !in hi.closed && hi.table == Some(hi.thread.pc.c) ==> lo.table == hi.table || Announcing(lo, n)
  }

  /** The answer `id` to an attempt of side p, to go out or under way on d. */
  predicate ReplyOk(lo: Proc, hi: Proc, n: Open, u: Used, p: Side, id: nat, d: Conn) {
    var x := if p == Lo then lo else hi;
    && id in UsedBy(u, p)
    && (Asking(x) && x.thread.pc.id == id ==>
          Waits(x) && OpenBy(n, p) == 0 && (p == Hi ==> AnswerOk(lo, hi, n, d)))
  }

  predicate Asked(x: Proc, p: Side, n: Open, u: Used) {
    && OpenBy(n, p) <= (if Waits(x) then 1 else 0)
    && (Asking(x) ==> x.thread.pc.id in UsedBy(u, p))
  }

  ghost predicate Control(lo: Proc, hi: Proc, n: Open, u: Used) {
    && Less(lo.name, hi.name)
    && Numbered(lo.serials, hi.serials, lo, Lo) && Numbered(lo.serials, hi.serials, hi, Hi)
    && Owning(lo, Lo) && Owning(hi, Hi) && Ends(lo, hi)
    && Asked(lo, Lo, n, u) && Asked(hi, Hi, n, u)
    && TablesOfLo(lo, hi, n) && TablesOfHi(lo, hi, n)
    && (lo.event.Replying? ==> ReplyOk(lo, hi, n, u, Hi, lo.event.id, lo.event.dest))
    && (hi.event.Replying? ==> ReplyOk(lo, hi, n, u, Lo, hi.event.id, hi.event.dest))
  }

  predicate PacketOk(lo: Proc, hi: Proc, n: Open, u: Used, k: Packet) {
    var y := if k.to == Lo then hi else lo;
    && (k.msg.Eof? ==> k.conn in y.closed)
    && (k.msg.LinkRequest? ==>
          && Waits(y) && OpenBy(n, Other(k.to)) > 0
          && k.conn == y.thread.pc.c && k.msg.id == y.thread.pc.id && k.msg.sender == y.name)
    && (k.msg.LinkResponse? ==> k.msg.keep == 1 && ReplyOk(lo, hi, n, u, k.to, k.msg.id, k.conn))
  }

  /** The peer of an end that was freed has been told, or is being told. */
  ghost predicate Told(x: Proc, y: Proc, q: Side, net: seq<Packet>) {
    forall c :: c in x.closed && c !in y.closed ==> Packet(c, q, Eof) in net
  }

  ghost predicate Inv(s: State, u: Used) {
    && Control(s.lo, s.hi, OpenIn(s.net), u)
    && (forall i :: 0 <= i < |s.net| ==> PacketOk(s.lo, s.hi, OpenIn(s.net), u, s.net[i]))
    && Told(s.lo, s.hi, Hi, s.net) && Told(s.hi, s.lo, Lo, s.net)
  }

  /** No link attempt, link message, or closing of a connection is under way. */
  ghost predicate Calm(s: State) {
    && (forall p: Side :: !Attempting(P(s, p)) && P(s, p).event.Listening?)
    && (forall p: Side :: P(s, p).thread.Busy? ==> !P(s, p).thread.pc.Lost?)
    && (forall i :: 0 <= i < |s.net| ==> s.net[i].msg.App?)
  }

  lemma CalmAgrees(s: State, u: Used)
    requires Inv(s, u) && Calm(s)
    ensures s.lo.table == s.hi.table
  {
    NoneCounted(s.net, RequestsOf(Lo));
    assert !Attempting(P(s, Lo)) && !Attempting(P(s, Hi));
    assert P(s, Lo).thread.Busy? ==> !P(s, Lo).thread.pc.Lost?;
    assert P(s, Hi).thread.Busy? ==> !P(s, Hi).thread.pc.Lost?;
  }

  // ---- Every step keeps it, one side at a time ----

  lemma RelaxLo(lo: Proc, hi: Proc, n: Open, u: Used, t: Thread)
    requires Control(lo, hi, n, u) && !Attempting(lo) && (t.Busy? ==> t.pc.Looking? || t.pc.NoEntry? || t.pc.Ready?)
    requires lo.thread.Busy? ==> !lo.thread.pc.Lost?
    requires Numbered(lo.serials, hi.serials, lo.(thread := t), Lo)
    ensures Control(lo.(thread := t), hi, n, u)
    ensures forall k {:trigger PacketOk(lo, hi, n, u, k)} ::
              PacketOk(lo, hi, n, u, k) ==> PacketOk(lo.(thread := t), hi, n, u, k)
  {
  }

  lemma RelaxHi(lo: Proc, hi: Proc, n: Open, u: Used, t: Thread)
    requires Control(lo, hi, n, u) && !Attempting(hi) && (t.Busy? ==> t.pc.Looking? || t.pc.NoEntry? || t.pc.Ready?)
    requires hi.thread.Busy? ==> !hi.thread.pc.Lost?
    requires Numbered(lo.serials, hi.serials, hi.(thread := t), Hi)
    ensures Control(lo, hi.(thread := t), n, u)
    ensures forall k {:trigger PacketOk(lo, hi, n, u, k)} ::
              PacketOk(lo, hi, n, u, k) ==> PacketOk(lo, hi.(thread := t), n, u, k)
  {
  }

  lemma ConnectLo(lo: Proc, hi: Proc, n: Open, u: Used)
    requires Control(lo, hi, n, u) && At(lo, NoEntry)
    ensures Control(ConnectStep(lo, Lo), hi, n, u)
    ensures forall k {:trigger PacketOk(lo, hi, n, u, k)} ::
              PacketOk(lo, hi, n, u, k) ==> PacketOk(ConnectStep(lo, Lo), hi, n, u, k)
  {
  }

  lemma ConnectHi(lo: Proc, hi: Proc, n: Open, u: Used)
    requires Control(lo, hi, n, u) && At(hi, NoEntry)
    ensures Control(lo, ConnectStep(hi, Hi), n, u)
    ensures forall k {:trigger PacketOk(lo, hi, n, u, k)} ::
              PacketOk(lo, hi, n, u, k) ==> PacketOk(lo, ConnectStep(hi, Hi), n, u, k)
  {
  }

  lemma EnterLo(lo: Proc, hi: Proc, n: Open, u: Used, id: nat)
    requires Control(lo, hi, n, u) && lo.thread.Busy? && lo.thread.pc.Connected? && id !in u.lo
    ensures Control(EnterStep(lo, id), hi, n, Use(u, Lo, id))
    ensures forall k {:trigger PacketOk(lo, hi, n, u, k)} ::
              PacketOk(lo, hi, n, u, k) ==> PacketOk(EnterStep(lo, id), hi, n, Use(u, Lo, id), k)
  {
  }

  lemma EnterHi(lo: Proc, hi: Proc, n: Open, u: Used, id: nat)
    requires Control(lo, hi, n, u) && hi.thread.Busy? && hi.thread.pc.Connected? && id !in u.hi
    ensures Control(lo, EnterStep(hi, id), n, Use(u, Hi, id))
    ensures forall k {:trigger PacketOk(lo, hi, n, u, k)} ::
              PacketOk(lo, hi, n, u, k) ==> PacketOk(lo, EnterStep(hi, id), n, Use(u, Hi, id), k)
  {
  }

  lemma SentLo(lo: Proc, hi: Proc, n: Open, u: Used)
    requires Control(lo, hi, n, u) && lo.thread.Busy? && lo.thread.pc.Inserted?
    ensures Control(SentStep(lo), hi, n.(lo := n.lo + 1), u)
    ensures forall k {:trigger PacketOk(lo, hi, n, u, k)} ::
              PacketOk(lo, hi, n, u, k) ==> PacketOk(SentStep(lo), hi, n.(lo := n.lo + 1), u, k)
  {
  }

  lemma SentHi(lo: Proc, hi: Proc, n: Open, u: Used)
    requires Control(lo, hi, n, u) && hi.thread.Busy? && hi.thread.pc.Inserted?
    ensures Control(lo, SentStep(hi), n.(hi := n.hi + 1), u)
    ensures forall k {:trigger PacketOk(lo, hi, n, u, k)} ::
              PacketOk(lo, hi, n, u, k) ==> PacketOk(lo, SentStep(hi), n.(hi := n.hi + 1), u, k)
  {
  }

  lemma TimeOutLo(lo: Proc, hi: Proc, n: Open, u: Used)
    requires Control(lo, hi, n, u) && Waits(lo) && n.lo == 0
    ensures Control(TimeOutStep(lo), hi, n, u)
    ensures forall k {:trigger PacketOk(lo, hi, n, u, k)} ::
              PacketOk(lo, hi, n, u, k) ==> PacketOk(TimeOutStep(lo), hi, n, u, k)
  {
  }

  lemma TimeOutHi(lo: Proc, hi: Proc, n: Open, u: Used)
    requires Control(lo, hi, n, u) && Waits(hi) && n.hi == 0
    ensures Control(lo, TimeOutStep(hi), n, u)
    ensures forall k {:trigger PacketOk(lo, hi, n, u, k)} ::
              PacketOk(lo, hi, n, u, k) ==> PacketOk(lo, TimeOutStep(hi), n, u, k)
  {
  }

  lemma RecheckLo(lo: Proc, hi: Proc, n: Open, u: Used)
    requires Control(lo, hi, n, u) && lo.thread.Busy? && lo.thread.pc.Woken?
    ensures Control(RecheckStep(lo), hi, n, u)
    ensures forall k {:trigger PacketOk(lo, hi, n, u, k)} ::
              PacketOk(lo, hi, n, u, k) ==> PacketOk(RecheckStep(lo), hi, n, u, k)
  {
  }

  lemma RecheckHiLoses(lo: Proc, hi: Proc, n: Open, u: Used, t: Option<Conn>)
    requires Control(lo, hi, n, u) && hi.thread.Busy? && hi.thread.pc.Woken?
    requires if hi.table == Some(hi.thread.pc.c) then hi.thread.pc.answer.TimedOut? && t == None else t == hi.table
    ensures Control(lo, Lose(hi, hi.thread.pc.c).(table := t), n, u)
  {
  }

  lemma RecheckHiWins(lo: Proc, hi: Proc, n: Open, u: Used)
    requires Control(lo, hi, n, u) && hi.thread.Busy? && hi.thread.pc.Woken?
    requires hi.table == Some(hi.thread.pc.c) && hi.thread.pc.answer.Answered?
    ensures Control(lo, Goto(hi, Ready(hi.thread.pc.c)), n, u)
  {
  }

  lemma RecheckHiControl(lo: Proc, hi: Proc, n: Open, u: Used)
    requires Control(lo, hi, n, u) && hi.thread.Busy? && hi.thread.pc.Woken?
    ensures Control(lo, RecheckStep(hi), n, u)
  {
    if hi.table == Some(hi.thread.pc.c) && hi.thread.pc.answer.Answered? {
      RecheckHiWins(lo, hi, n, u);
    } else {
      RecheckHiLoses(lo, hi, n, u, if hi.table == Some(hi.thread.pc.c) then None else hi.table);
    }
  }

  lemma RecheckHi(lo: Proc, hi: Proc, n: Open, u: Used)
    requires Control(lo, hi, n, u) && hi.thread.Busy? && hi.thread.pc.Woken?
    ensures Control(lo, RecheckStep(hi), n, u)
    ensures forall k {:trigger PacketOk(lo, hi, n, u, k)} ::
              PacketOk(lo, hi, n, u, k) ==> PacketOk(lo, RecheckStep(hi), n, u, k)
  {
    RecheckHiControl(lo, hi, n, u);
  }

  lemma CloseLo(lo: Proc, hi: Proc, n: Open, u: Used)
    requires Control(lo, hi, n, u) && lo.thread.Busy? && lo.thread.pc.Lost?
    ensures Control(CloseStep(lo), hi, n, u)
    ensures forall k {:trigger PacketOk(lo, hi, n, u, k)} ::
              PacketOk(lo, hi, n, u, k) ==> PacketOk(CloseStep(lo), hi, n, u, k)
  {
  }

  lemma CloseHi(lo: Proc, hi: Proc, n: Open, u: Used)
    requires Control(lo, hi, n, u) && hi.thread.Busy? && hi.thread.pc.Lost?
    ensures Control(lo, CloseStep(hi), n, u)
    ensures forall k {:trigger PacketOk(lo, hi, n, u, k)} ::
              PacketOk(lo, hi, n, u, k) ==> PacketOk(lo, CloseStep(hi), n, u, k)
  {
  }

  lemma RepliedLo(lo: Proc, hi: Proc, n: Open, u: Used)
    requires Control(lo, hi, n, u) && lo.event.Replying?
    ensures Control(RepliedStep(lo), hi, n, u)
    ensures forall k {:trigger PacketOk(lo, hi, n, u, k)} ::
              PacketOk(lo, hi, n, u, k) ==> PacketOk(RepliedStep(lo), hi, n, u, k)
  {
  }

  lemma RepliedHi(lo: Proc, hi: Proc, n: Open, u: Used)
    requires Control(lo, hi, n, u) && hi.event.Replying?
    ensures Control(lo, RepliedStep(hi), n, u)
    ensures forall k {:trigger PacketOk(lo, hi, n, u, k)} ::
              PacketOk(lo, hi, n, u, k) ==> PacketOk(lo, RepliedStep(hi), n, u, k)
  {
  }

  /** A request in flight other than the one that was just delivered would be one too many. */
  predicate Left(k: Packet, n: Open) {
    (IsRequest(k, Lo) ==> n.lo > 0) && (IsRequest(k, Hi) ==> n.hi > 0)
  }

  lemma RespondLoControl(lo: Proc, hi: Proc, n: Open, u: Used, j: Packet)
    requires Control(lo, hi, n, u) && PacketOk(lo, hi, n, u, j)
    requires j.to == Lo && lo.event.Listening? && j.msg.LinkRequest? && n.hi > 0
    ensures Control(ReceiveStep(lo, j), hi, n.(hi := n.hi - 1), u)
  {
  }

  lemma RespondLo(lo: Proc, hi: Proc, n: Open, u: Used, j: Packet)
    requires Control(lo, hi, n, u) && PacketOk(lo, hi, n, u, j)
    requires j.to == Lo && lo.event.Listening? && j.msg.LinkRequest? && n.hi > 0
    ensures Control(ReceiveStep(lo, j), hi, n.(hi := n.hi - 1), u)
    ensures forall k {:trigger PacketOk(lo, hi, n, u, k)} ::
              PacketOk(lo, hi, n, u, k) && Left(k, n.(hi := n.hi - 1)) ==>
                PacketOk(ReceiveStep(lo, j), hi, n.(hi := n.hi - 1), u, k)
  {
    RespondLoControl(lo, hi, n, u, j);
  }

  lemma RespondHi(lo: Proc, hi: Proc, n: Open, u: Used, j: Packet)
    requires Control(lo, hi, n, u) && PacketOk(lo, hi, n, u, j)
    requires j.to == Hi && hi.event.Listening? && j.msg.LinkRequest? && n.lo > 0
    ensures Control(lo, ReceiveStep(hi, j), n.(lo := n.lo - 1), u)
    ensures forall k {:trigger PacketOk(lo, hi, n, u, k)} ::
              PacketOk(lo, hi, n, u, k) && Left(k, n.(lo := n.lo - 1)) ==>
                PacketOk(lo, ReceiveStep(hi, j), n.(lo := n.lo - 1), u, k)
  {
    LessTotal(lo.name, hi.name);
  }

  lemma WakeLo(lo: Proc, hi: Proc, n: Open, u: Used, j: Packet)
    requires Control(lo, hi, n, u) && PacketOk(lo, hi, n, u, j)
    requires j.to == Lo && j.msg.LinkResponse?
    ensures Control(ReceiveStep(lo, j), hi, n, u)
    ensures forall k {:trigger PacketOk(lo, hi, n, u, k)} ::
              PacketOk(lo, hi, n, u, k) ==> PacketOk(ReceiveStep(lo, j), hi, n, u, k)
  {
  }

  lemma WakeHi(lo: Proc, hi: Proc, n: Open, u: Used, j: Packet)
    requires Control(lo, hi, n, u) && PacketOk(lo, hi, n, u, j)
    requires j.to == Hi && j.msg.LinkResponse?
    ensures Control(lo, ReceiveStep(hi, j), n, u)
    ensures forall k {:trigger PacketOk(lo, hi, n, u, k)} ::
              PacketOk(lo, hi, n, u, k) ==> PacketOk(lo, ReceiveStep(hi, j), n, u, k)
  {
  }

  lemma EofLo(lo: Proc, hi: Proc, n: Open, u: Used, j: Packet)
    requires Control(lo, hi, n, u) && PacketOk(lo, hi, n, u, j)
    requires j.to == Lo && j.msg.Eof?
    ensures Control(ReceiveStep(lo, j), hi, n, u)
    ensures forall k {:trigger PacketOk(lo, hi, n, u, k)} ::
              PacketOk(lo, hi, n, u, k) ==> PacketOk(ReceiveStep(lo, j), hi, n, u, k)
  {
  }

  lemma EofHiControl(lo: Proc, hi: Proc, n: Open, u: Used, j: Packet)
    requires Control(lo, hi, n, u) && PacketOk(lo, hi, n, u, j)
    requires j.to == Hi && j.msg.Eof?
    ensures Control(lo, ReceiveStep(hi, j), n, u)
  {
  }

  lemma EofHi(lo: Proc, hi: Proc, n: Open, u: Used, j: Packet)
    requires Control(lo, hi, n, u) && PacketOk(lo, hi, n, u, j)
    requires j.to == Hi && j.msg.Eof?
    ensures Control(lo, ReceiveStep(hi, j), n, u)
    ensures forall k {:trigger PacketOk(lo, hi, n, u, k)} ::
              PacketOk(lo, hi, n, u, k) ==> PacketOk(lo, ReceiveStep(hi, j), n, u, k)
  {
    EofHiControl(lo, hi, n, u, j);
  }

  // ---- Every step keeps it ----

  /** What the environment promises: no wait ends before the peer has decided on the request, and ids do not repeat. */
  ghost predicate Careful(s: State, u: Used, a: Action) {
    && (a.TimeOut? ==> !UnderWay(s.net, a.p))
    && (a.Enter? ==> a.id !in UsedBy(u, a.p))
  }

  /** A request of p's own is in flight. */
  ghost predicate UnderWay(net: seq<Packet>, p: Side) { exists i :: 0 <= i < |net| && IsRequest(net[i], p) }

  function Next(u: Used, a: Action): Used { if a.Enter? then Use(u, a.p, a.id) else u }

  lemma {:induction false} NoneOpen(net: seq<Packet>, p: Side)
    requires forall i :: 0 <= i < |net| ==> !IsRequest(net[i], p)
    ensures Tally(net, RequestsOf(p)) == 0
    decreases |net|
  {
    if net != [] {
      NoneOpen(net[1..], p);
    }
  }

  lemma SomeOpen(net: seq<Packet>, i: nat)
    requires i < |net|
    ensures Left(net[i], OpenIn(net))
  {
    TallyOfWithout(net, i, RequestsOf(Lo));
    TallyOfWithout(net, i, RequestsOf(Hi));
  }

  /** A step that leaves what is in flight and what is freed alone. */
  lemma Kept(s: State, u: Used, t: State, v: Used)
    requires Inv(s, u) && t.net == s.net && t.lo.closed == s.lo.closed && t.hi.closed == s.hi.closed
    requires Control(t.lo, t.hi, OpenIn(s.net), v)
    requires forall k {:trigger PacketOk(s.lo, s.hi, OpenIn(s.net), u, k)} ::
               PacketOk(s.lo, s.hi, OpenIn(s.net), u, k) ==> PacketOk(t.lo, t.hi, OpenIn(s.net), v, k)
    ensures Inv(t, v)
  {
  }

  lemma BetweenAttempts(s: State, u: Used, a: Action)
    requires Inv(s, u) && Enabled(s, a)
    requires a.Take? || a.Lookup? || a.Connect? || a.ConnectFail? || a.GiveUp?
    ensures Inv(Apply(s, a), u)
  {
    var n, lo, hi := OpenIn(s.net), s.lo, s.hi;
    var t := Apply(s, a);
    if a.Connect? {
      if a.p == Lo { ConnectLo(lo, hi, n, u); } else { ConnectHi(lo, hi, n, u); }
    } else {
      if a.p == Lo { RelaxLo(lo, hi, n, u, t.lo.thread); } else { RelaxHi(lo, hi, n, u, t.hi.thread); }
    }
    Kept(s, u, t, u);
  }

  lemma WithinAttempt(s: State, u: Used, a: Action)
    requires Inv(s, u) && Enabled(s, a) && Careful(s, u, a)
    requires a.Enter? || a.TimeOut? || a.Recheck?
    ensures Inv(Apply(s, a), Next(u, a))
  {
    var n, lo, hi := OpenIn(s.net), s.lo, s.hi;
    match a {
      case Enter(p, id) => if p == Lo { EnterLo(lo, hi, n, u, id); } else { EnterHi(lo, hi, n, u, id); }
      case TimeOut(p) =>
        NoneOpen(s.net, p);
        if p == Lo { TimeOutLo(lo, hi, n, u); } else { TimeOutHi(lo, hi, n, u); }
      case Recheck(p) => if p == Lo { RecheckLo(lo, hi, n, u); } else { RecheckHi(lo, hi, n, u); }
    }
    Kept(s, u, Apply(s, a), Next(u, a));
  }

  /** One more packet. */
  function Opened(n: Open, k: Packet): Open {
    if IsRequest(k, Lo) then n.(lo := n.lo + 1) else if IsRequest(k, Hi) then n.(hi := n.hi + 1) else n
  }

  lemma OpenOfAppend(net: seq<Packet>, k: Packet)
    ensures OpenIn(net + [k]) == Opened(OpenIn(net), k)
  {
    TallyOfAppend(net, k, RequestsOf(Lo));
    TallyOfAppend(net, k, RequestsOf(Hi));
  }

  /** A step that puts k in flight behind `net`, and may free the connection k is the end-of-file of. */
  lemma Appended(net: seq<Packet>, t: State, u: Used, k: Packet)
    requires t.net == net + [k] && Control(t.lo, t.hi, Opened(OpenIn(net), k), u)
    requires forall i :: 0 <= i < |net| ==> PacketOk(t.lo, t.hi, Opened(OpenIn(net), k), u, net[i])
    requires PacketOk(t.lo, t.hi, Opened(OpenIn(net), k), u, k)
    requires forall c :: c in t.lo.closed && c !in t.hi.closed ==> Packet(c, Hi, Eof) in net || k == Packet(c, Hi, Eof)
    requires forall c :: c in t.hi.closed && c !in t.lo.closed ==> Packet(c, Lo, Eof) in net || k == Packet(c, Lo, Eof)
    ensures Inv(t, u)
  {
    OpenOfAppend(net, k);
  }

  lemma SendRequestKeeps(s: State, u: Used, p: Side)
    requires Inv(s, u) && Enabled(s, SendRequest(p))
    ensures Inv(Apply(s, SendRequest(p)), u)
  {
    var x := P(s, p);
    if p == Lo { SentLo(s.lo, s.hi, OpenIn(s.net), u); } else { SentHi(s.lo, s.hi, OpenIn(s.net), u); }
    Appended(s.net, Apply(s, SendRequest(p)), u,
             Packet(x.thread.pc.c, Other(p), LinkRequest(x.thread.pc.id, x.name)));
  }

  lemma SendAppKeeps(s: State, u: Used, p: Side)
    requires Inv(s, u) && Enabled(s, SendApp(p))
    ensures Inv(Apply(s, SendApp(p)), u)
  {
    var n := OpenIn(s.net);
    if p == Lo { RelaxLo(s.lo, s.hi, n, u, Idle); } else { RelaxHi(s.lo, s.hi, n, u, Idle); }
    Appended(s.net, Apply(s, SendApp(p)), u, Packet(P(s, p).thread.pc.c, Other(p), App));
  }

  lemma SendReplyKeeps(s: State, u: Used, p: Side)
    requires Inv(s, u) && Enabled(s, SendReply(p))
    ensures Inv(Apply(s, SendReply(p)), u)
  {
    var n, ev := OpenIn(s.net), P(s, p).event;
    if p == Lo { RepliedLo(s.lo, s.hi, n, u); } else { RepliedHi(s.lo, s.hi, n, u); }
    Appended(s.net, Apply(s, SendReply(p)), u, Packet(ev.dest, Other(p), LinkResponse(ev.id, 1)));
  }

  lemma {:induction false} DiscardMembers(net: seq<Packet>, c: Conn, p: Side)
    ensures forall k :: k in Discard(net, c, p) <==> k in net && !(k.conn == c && k.to == p)
    decreases |net|
  {
    if net != [] {
      DiscardMembers(net[1..], c, p);
      assert net == [net[0]] + net[1..];
    }
  }

  lemma {:induction false} DiscardTally(net: seq<Packet>, c: Conn, p: Side, q: Side)
    requires forall i :: 0 <= i < |net| && net[i].msg.LinkRequest? && net[i].to == p ==> net[i].conn != c
    ensures Tally(Discard(net, c, p), RequestsOf(q)) == Tally(net, RequestsOf(q))
    decreases |net|
  {
    if net != [] {
      var rest := Discard(net[1..], c, p);
      DiscardTally(net[1..], c, p, q);
      assert ([net[0]] + rest)[1..] == rest;
    }
  }

  /** A side frees its own connections only, so it discards neither requests nor what tells of freed ends. */
  lemma DiscardOk(s: State, u: Used, p: Side)
    requires Inv(s, u) && Enabled(s, Close(p))
    ensures var c := P(s, p).thread.pc.c;
            var net := Discard(s.net, c, p);
            && OpenIn(net) == OpenIn(s.net)
            && (forall k :: k in net ==> k in s.net)
            && Told(s.lo, s.hi, Hi, net) && Told(s.hi, s.lo, Lo, net)
  {
    var c := P(s, p).thread.pc.c;
    forall i | 0 <= i < |s.net| && s.net[i].msg.LinkRequest? && s.net[i].to == p
      ensures s.net[i].conn != c
    {
      assert PacketOk(s.lo, s.hi, OpenIn(s.net), u, s.net[i]);
    }
    DiscardTally(s.net, c, p, Lo);
    DiscardTally(s.net, c, p, Hi);
    DiscardMembers(s.net, c, p);
  }

  lemma CloseKeeps(s: State, u: Used, p: Side)
    requires Inv(s, u) && Enabled(s, Close(p))
    ensures Inv(Apply(s, Close(p)), u)
  {
    var n, c := OpenIn(s.net), P(s, p).thread.pc.c;
    var net := Discard(s.net, c, p);
    DiscardOk(s, u, p);
    if p == Lo { CloseLo(s.lo, s.hi, n, u); } else { CloseHi(s.lo, s.hi, n, u); }
    forall i | 0 <= i < |net|
      ensures PacketOk(s.lo, s.hi, n, u, net[i])
    {
      assert net[i] in net;
      var j :| 0 <= j < |s.net| && s.net[j] == net[i];
    }
    Appended(net, Apply(s, Close(p)), u, Packet(c, Other(p), Eof));
  }

  /** One packet less. */
  function Taken(n: Open, k: Packet): Open
    requires Left(k, n)
  {
    if IsRequest(k, Lo) then n.(lo := n.lo - 1) else if IsRequest(k, Hi) then n.(hi := n.hi - 1) else n
  }

  lemma OpenOfWithout(net: seq<Packet>, i: nat)
    requires i < |net|
    ensures Left(net[i], OpenIn(net)) && OpenIn(Without(net, i)) == Taken(OpenIn(net), net[i])
  {
    TallyOfWithout(net, i, RequestsOf(Lo));
    TallyOfWithout(net, i, RequestsOf(Hi));
  }

  /** A step that takes packet i out of flight; an end-of-file is taken note of. */
  lemma Removed(s: State, u: Used, i: nat, t: State)
    requires Inv(s, u) && i < |s.net| && t.net == Without(s.net, i)
    requires Control(t.lo, t.hi, OpenIn(t.net), u)
    requires forall k {:trigger PacketOk(s.lo, s.hi, OpenIn(s.net), u, k)} ::
               PacketOk(s.lo, s.hi, OpenIn(s.net), u, k) && Left(k, OpenIn(t.net)) ==>
                 PacketOk(t.lo, t.hi, OpenIn(t.net), u, k)
    requires s.lo.closed <= t.lo.closed && s.hi.closed <= t.hi.closed
    requires forall c :: c in t.lo.closed && c !in s.lo.closed ==> c in t.hi.closed
    requires forall c :: c in t.hi.closed && c !in s.hi.closed ==> c in t.lo.closed
    requires s.net[i].msg.Eof? ==> s.net[i].conn in P(t, s.net[i].to).closed
    ensures Inv(t, u)
  {
    forall m | 0 <= m < |t.net|
      ensures PacketOk(t.lo, t.hi, OpenIn(t.net), u, t.net[m])
    {
      assert t.net[m] == if m < i then s.net[m] else s.net[m + 1];
      SomeOpen(t.net, m);
    }
    forall k | k in s.net && k != s.net[i]
      ensures k in t.net
    {
      var j :| 0 <= j < |s.net| && s.net[j] == k;
      assert t.net[if j < i then j else j - 1] == k;
    }
  }

  lemma RequestDelivered(s: State, u: Used, i: nat)
    requires Inv(s, u) && Enabled(s, Deliver(i)) && s.net[i].msg.LinkRequest?
    ensures Inv(Apply(s, Deliver(i)), u)
  {
    var n, k := OpenIn(s.net), s.net[i];
    OpenOfWithout(s.net, i);
    if k.to == Lo { RespondLo(s.lo, s.hi, n, u, k); } else { RespondHi(s.lo, s.hi, n, u, k); }
    Removed(s, u, i, Apply(s, Deliver(i)));
  }

  lemma ResponseDelivered(s: State, u: Used, i: nat)
    requires Inv(s, u) && Enabled(s, Deliver(i)) && s.net[i].msg.LinkResponse?
    ensures Inv(Apply(s, Deliver(i)), u)
  {
    var n, k := OpenIn(s.net), s.net[i];
    OpenOfWithout(s.net, i);
    if k.to == Lo { WakeLo(s.lo, s.hi, n, u, k); } else { WakeHi(s.lo, s.hi, n, u, k); }
    Removed(s, u, i, Apply(s, Deliver(i)));
  }

  lemma EofDelivered(s: State, u: Used, i: nat)
    requires Inv(s, u) && Enabled(s, Deliver(i)) && s.net[i].msg.Eof?
    ensures Inv(Apply(s, Deliver(i)), u)
  {
    var n, k := OpenIn(s.net), s.net[i];
    OpenOfWithout(s.net, i);
    if k.to == Lo { EofLo(s.lo, s.hi, n, u, k); } else { EofHi(s.lo, s.hi, n, u, k); }
    Removed(s, u, i, Apply(s, Deliver(i)));
  }

  lemma DeliverKeeps(s: State, u: Used, i: nat)
    requires Inv(s, u) && Enabled(s, Deliver(i))
    ensures Inv(Apply(s, Deliver(i)), u)
  {
    match s.net[i].msg
    case LinkRequest(_, _) => RequestDelivered(s, u, i);
    case LinkResponse(_, _) => ResponseDelivered(s, u, i);
    case App =>
      OpenOfWithout(s.net, i);
      Removed(s, u, i, Apply(s, Deliver(i)));
    case Eof => EofDelivered(s, u, i);
  }

  lemma StepKeeps(s: State, u: Used, a: Action)
    requires Inv(s, u) && Enabled(s, a) && Careful(s, u, a)
    ensures Inv(Apply(s, a), Next(u, a))
  {
    match a
    case Deliver(i) => DeliverKeeps(s, u, i);
    case SendRequest(p) => SendRequestKeeps(s, u, p);
    case Close(p) => CloseKeeps(s, u, p);
    case SendApp(p) => SendAppKeeps(s, u, p);
    case SendReply(p) => SendReplyKeeps(s, u, p);
    case Enter(_, _) => WithinAttempt(s, u, a);
    case TimeOut(_) => WithinAttempt(s, u, a);
    case Recheck(_) => WithinAttempt(s, u, a);
    case _ => BetweenAttempts(s, u, a);
  }

  lemma InitInv(lo: Name, hi: Name)
    requires Less(lo, hi)
    ensures Inv(Init(lo, hi), Used({}, {}))
  {
  }
}
