/** What every step of link establishment keeps. */
module LinkInvariant {
  import opened Names
  import opened LinkProtocol

  // ---- Link messages in flight ----

  predicate IsRequest(k: Packet, p: Side) { k.msg.LinkRequest? && k.to == Other(p) }

  predicate IsResponse(k: Packet, p: Side) { k.msg.LinkResponse? && k.to == p }

  /** The requests of p's own attempts, and the answers to them. */
  datatype Kind = RequestsOf(p: Side) | ResponsesTo(p: Side)

  function One(k: Packet, d: Kind): nat {
    if (match d case RequestsOf(p) => IsRequest(k, p) case ResponsesTo(p) => IsResponse(k, p)) then 1 else 0
  }

  /** How many of them are in flight. */
  function Tally(net: seq<Packet>, d: Kind): nat {
    if net == [] then 0 else One(net[0], d) + Tally(net[1..], d)
  }

  lemma {:induction false} TallyOfConcat(a: seq<Packet>, b: seq<Packet>, d: Kind)
    ensures Tally(a + b, d) == Tally(a, d) + Tally(b, d)
    decreases |a|
  {
    if a == [] {
      assert a + b == b;
    } else {
      assert (a + b)[1..] == a[1..] + b;
      TallyOfConcat(a[1..], b, d);
    }
  }

  lemma TallyOfAppend(net: seq<Packet>, k: Packet, d: Kind)
    ensures Tally(net + [k], d) == Tally(net, d) + One(k, d)
  {
    TallyOfConcat(net, [k], d);
    assert [k][1..] == [];
  }

  lemma TallyOfWithout(net: seq<Packet>, i: nat, d: Kind)
    requires i < |net|
    ensures Tally(net, d) == Tally(Without(net, i), d) + One(net[i], d)
  {
    var a, b := net[..i], net[i + 1..];
    TallyOfConcat(a, b, d);
    TallyOfAppend(a, net[i], d);
    TallyOfConcat(a + [net[i]], b, d);
    assert net == a + [net[i]] + b;
  }

  lemma {:induction false} NoneCounted(net: seq<Packet>, d: Kind)
    requires forall i :: 0 <= i < |net| ==> !net[i].msg.LinkRequest? && !net[i].msg.LinkResponse?
    ensures Tally(net, d) == 0
    decreases |net|
  {
    if net != [] {
      NoneCounted(net[1..], d);
    }
  }

  datatype Counts = Counts(requestsLo: nat, responsesLo: nat, requestsHi: nat, responsesHi: nat)

  function Count(net: seq<Packet>): Counts {
    Counts(Tally(net, RequestsOf(Lo)), Tally(net, ResponsesTo(Lo)),
           Tally(net, RequestsOf(Hi)), Tally(net, ResponsesTo(Hi)))
  }

  /** One packet more. */
  function More(n: Counts, k: Packet): Counts {
    if IsRequest(k, Lo) then n.(requestsLo := n.requestsLo + 1)
    else if IsRequest(k, Hi) then n.(requestsHi := n.requestsHi + 1)
    else if IsResponse(k, Lo) then n.(responsesLo := n.responsesLo + 1)
    else if IsResponse(k, Hi) then n.(responsesHi := n.responsesHi + 1)
    else n
  }

  lemma MoreIs(n: Counts, m: Counts, k: Packet)
    requires m.requestsLo == n.requestsLo + One(k, RequestsOf(Lo))
    requires m.responsesLo == n.responsesLo + One(k, ResponsesTo(Lo))
    requires m.requestsHi == n.requestsHi + One(k, RequestsOf(Hi))
    requires m.responsesHi == n.responsesHi + One(k, ResponsesTo(Hi))
    ensures m == More(n, k)
  {
  }

  lemma CountOfAppend(net: seq<Packet>, k: Packet)
    ensures Count(net + [k]) == More(Count(net), k)
  {
    TallyOfAppend(net, k, RequestsOf(Lo));
    TallyOfAppend(net, k, ResponsesTo(Lo));
    TallyOfAppend(net, k, RequestsOf(Hi));
    TallyOfAppend(net, k, ResponsesTo(Hi));
    MoreIs(Count(net), Count(net + [k]), k);
  }

  /** A link message in flight is one of those counted. */
  predicate Counted(n: Counts, k: Packet) {
    && (IsRequest(k, Lo) ==> n.requestsLo > 0) && (IsRequest(k, Hi) ==> n.requestsHi > 0)
    && (IsResponse(k, Lo) ==> n.responsesLo > 0) && (IsResponse(k, Hi) ==> n.responsesHi > 0)
  }

  /** One packet less, whatever it is. */
  function Minus(n: Counts, k: Packet): Counts
    requires Counted(n, k)
  {
    if IsRequest(k, Lo) then n.(requestsLo := n.requestsLo - 1)
    else if IsRequest(k, Hi) then n.(requestsHi := n.requestsHi - 1)
    else if IsResponse(k, Lo) then n.(responsesLo := n.responsesLo - 1)
    else if IsResponse(k, Hi) then n.(responsesHi := n.responsesHi - 1)
    else n
  }

  lemma MinusIs(n: Counts, m: Counts, k: Packet)
    requires n.requestsLo == m.requestsLo + One(k, RequestsOf(Lo))
    requires n.responsesLo == m.responsesLo + One(k, ResponsesTo(Lo))
    requires n.requestsHi == m.requestsHi + One(k, RequestsOf(Hi))
    requires n.responsesHi == m.responsesHi + One(k, ResponsesTo(Hi))
    ensures Counted(n, k) && m == Minus(n, k)
  {
  }

  lemma CountOfWithout(net: seq<Packet>, i: nat)
    requires i < |net|
    ensures Counted(Count(net), net[i]) && Count(Without(net, i)) == Minus(Count(net), net[i])
  {
    TallyOfWithout(net, i, RequestsOf(Lo));
    TallyOfWithout(net, i, ResponsesTo(Lo));
    TallyOfWithout(net, i, RequestsOf(Hi));
    TallyOfWithout(net, i, ResponsesTo(Hi));
    MinusIs(Count(net), Count(Without(net, i)), net[i]);
  }

  // ---- The invariant: the two processes ----

  predicate Unsent(x: Proc) { x.thread.Busy? && x.thread.pc.Inserted? }

  predicate Waits(x: Proc) { x.thread.Busy? && x.thread.pc.Waiting? }

  /** The connection on which the attempt of x, on side p, is answered. */
  function Route(lo: Proc, x: Proc, p: Side): Conn
    requires Waits(x)
  {
    if p == Hi && lo.tried.Some? then lo.tried.value else x.thread.pc.c
  }

  /** Connections are numbered before they are used; a and b are the two sides' counts. */
  predicate Issued(a: nat, b: nat, c: Conn) { c.serial < if c.opener == Lo then a else b }

  predicate PcIssued(a: nat, b: nat, pc: Pc) {
    match pc
    case Looking => true
    case NoEntry => true
    case Connected(c) => Issued(a, b, c)
    case Inserted(c, _) => Issued(a, b, c)
    case Waiting(c, _) => Issued(a, b, c)
    case Woken(c, _, _) => Issued(a, b, c)
    case Lost(c) => Issued(a, b, c)
    case Ready(c) => Issued(a, b, c)
  }

  ghost predicate Numbered(a: nat, b: nat, x: Proc, p: Side) {
    && (x.table.Some? ==> Issued(a, b, x.table.value))
    && (x.tried.Some? ==> Issued(a, b, x.tried.value) && x.tried.value.opener == p)
    && (x.thread.Busy? ==> PcIssued(a, b, x.thread.pc))
    && (forall c :: c in x.closed ==> Issued(a, b, c))
  }

  /** One attempt at most enters the table, and a message meets one conflict at most. */
  predicate Sending(x: Proc, p: Side) {
    x.thread.Busy? ==>
      var pc := x.thread.pc;
      && x.thread.conflicts <= 1
      && x.thread.fails <= RETRIES
      && (pc.NoEntry? || pc.Connected? ==> x.tried.None?)
      && (pc.Connected? || pc.Lost? ==> pc.c.opener == p)
      && (Attempting(x) ==> x.tried == Some(pc.c))
      && (pc.NoEntry? || pc.Connected? || Attempting(x) ==> x.thread.conflicts == 0)
      && (pc.Lost? ==> x.thread.conflicts == 1)
      && (x.thread.conflicts > 0 ==> x.table.Some?)
      && (pc.Woken? ==> pc.answer.Answered? && pc.answer.keep == 1)
  }

  /** Entries are attempts of one side or the other, and the smaller name keeps its own. */
  predicate Tables(lo: Proc, hi: Proc) {
    && (lo.table.None? ==> lo.tried.None?)
    && (hi.table.None? ==> hi.tried.None?)
    && (lo.table.Some? ==> lo.table == lo.tried || lo.table == hi.tried)
    && (hi.table.Some? ==> hi.table == lo.tried || hi.table == hi.tried)
    && (lo.tried.Some? ==> lo.table == lo.tried)
  }

  /**
   * What y's table says about the attempt of x, on side p, before and after the request is
   * handled; `requests` counts the requests of x in flight.
   */
  predicate Handling(x: Proc, y: Proc, p: Side, requests: nat) {
    x.tried.Some? ==>
      if Unsent(x) || requests > 0 then y.table != x.tried
      else y.table.Some? && (p == Lo ==> y.table == x.tried)
  }

  /**
   * While x waits its attempt is in exactly one place: a request in flight, y's event thread,
   * or a response in flight.  At any other time it is nowhere.
   */
  predicate Token(lo: Proc, x: Proc, y: Proc, p: Side, requests: nat, responses: nat) {
    && requests + responses + (if y.event.Replying? then 1 else 0) == (if Waits(x) then 1 else 0)
    && (y.event.Replying? ==> Waits(x) && y.event.id == x.thread.pc.id && y.event.dest == Route(lo, x, p))
  }

  predicate Refers(x: Proc, c: Conn) {
    || x.table == Some(c)
    || At(x, Ready(c))
    || At(x, Connected(c))
    || (Attempting(x) && x.thread.pc.c == c)
    || (x.event.Replying? && x.event.dest == c)
  }

  predicate Unused(lo: Proc, hi: Proc, c: Conn) {
    && !Refers(lo, c) && !Refers(hi, c)
    && lo.tried != Some(c)
    && (hi.tried == Some(c) ==> lo.tried.Some?)
  }

  /** A connection some end has freed, or is about to free, is referred to by nobody. */
  ghost predicate Closing(lo: Proc, hi: Proc) {
    && (forall c :: c in lo.closed ==> Unused(lo, hi, c) && !At(lo, Lost(c)) && !At(hi, Lost(c)))
    && (forall c :: c in hi.closed ==> Unused(lo, hi, c) && !At(lo, Lost(c)) && !At(hi, Lost(c)))
    && (lo.thread.Busy? && lo.thread.pc.Lost? ==> Unused(lo, hi, lo.thread.pc.c))
    && (hi.thread.Busy? && hi.thread.pc.Lost? ==> Unused(lo, hi, hi.thread.pc.c))
  }

  /** The process on side y may send a message on c. */
  predicate MayUse(lo: Proc, hi: Proc, y: Side, c: Conn) {
    && (lo.tried == Some(c) || hi.tried == Some(c))
    && (hi.tried == Some(c) ==>
          if y == Lo then lo.tried.None? && lo.table == Some(c) else !Attempting(hi))
  }

  predicate Using(lo: Proc, hi: Proc) {
    && (lo.thread.Busy? && lo.thread.pc.Ready? ==> MayUse(lo, hi, Lo, lo.thread.pc.c))
    && (hi.thread.Busy? && hi.thread.pc.Ready? ==> MayUse(lo, hi, Hi, hi.thread.pc.c))
  }

  /** The two processes, given how many link messages are in flight. */
  ghost predicate Control(lo: Proc, hi: Proc, n: Counts) {
    && Less(lo.name, hi.name)
    && Numbered(lo.serials, hi.serials, lo, Lo) && Numbered(lo.serials, hi.serials, hi, Hi)
    && Sending(lo, Lo) && Sending(hi, Hi)
    && Tables(lo, hi)
    && Handling(lo, hi, Lo, n.requestsLo) && Handling(hi, lo, Hi, n.requestsHi)
    && Token(lo, lo, hi, Lo, n.requestsLo, n.responsesLo) && Token(lo, hi, lo, Hi, n.requestsHi, n.responsesHi)
    && Closing(lo, hi)
    && Using(lo, hi)
  }

  // ---- The invariant: what is in flight ----

  predicate Live(lo: Proc, hi: Proc, c: Conn) {
    c !in lo.closed && c !in hi.closed && !At(lo, Lost(c)) && !At(hi, Lost(c))
  }

  predicate PacketOk(lo: Proc, hi: Proc, k: Packet) {
    var x, y := if k.to == Lo then lo else hi, if k.to == Lo then hi else lo;
    && Issued(lo.serials, hi.serials, k.conn)
    && (if k.msg.Eof? then k.conn in y.closed else Live(lo, hi, k.conn))
    && (k.msg.App? ==> MayUse(lo, hi, Other(k.to), k.conn))
    && (k.msg.LinkRequest? ==>
          Waits(y) && k.conn == y.thread.pc.c && k.msg.id == y.thread.pc.id && k.msg.sender == y.name)
    && (k.msg.LinkResponse? ==>
          Waits(x) && k.conn == Route(lo, x, k.to) && k.msg.id == x.thread.pc.id && k.msg.keep == 1)
  }

  ghost predicate Inv(s: State) {
    && Control(s.lo, s.hi, Count(s.net))
    && (forall i :: 0 <= i < |s.net| ==> PacketOk(s.lo, s.hi, s.net[i]))
  }

  lemma InitInv(lo: Name, hi: Name)
    requires Less(lo, hi)
    ensures Inv(Init(lo, hi))
  {
  }

  // ---- Every step keeps it, one side at a time ----

  /** Take, a failed connect, giving up, and a message sent: the thread moves between attempts. */
  lemma RelaxLo(lo: Proc, hi: Proc, n: Counts, t: Thread)
    requires Control(lo, hi, n) && !Attempting(lo)
             && (t.Busy? ==> t.pc.Looking? && t.conflicts == 0 && t.fails <= RETRIES)
             && (lo.thread.Busy? ==> !lo.thread.pc.Lost?)
    ensures Control(lo.(thread := t), hi, n)
    ensures forall k {:trigger PacketOk(lo, hi, k)} :: PacketOk(lo, hi, k) ==> PacketOk(lo.(thread := t), hi, k)
  {
  }

  lemma RelaxHi(lo: Proc, hi: Proc, n: Counts, t: Thread)
    requires Control(lo, hi, n) && !Attempting(hi)
             && (t.Busy? ==> t.pc.Looking? && t.conflicts == 0 && t.fails <= RETRIES)
             && (hi.thread.Busy? ==> !hi.thread.pc.Lost?)
    ensures Control(lo, hi.(thread := t), n)
    ensures forall k {:trigger PacketOk(lo, hi, k)} :: PacketOk(lo, hi, k) ==> PacketOk(lo, hi.(thread := t), k)
  {
  }

  lemma LookupLo(lo: Proc, hi: Proc, n: Counts)
    requires Control(lo, hi, n) && At(lo, Looking)
    ensures Control(LookupStep(lo), hi, n)
    ensures forall k {:trigger PacketOk(lo, hi, k)} :: PacketOk(lo, hi, k) ==> PacketOk(LookupStep(lo), hi, k)
  {
  }

  lemma LookupHi(lo: Proc, hi: Proc, n: Counts)
    requires Control(lo, hi, n) && At(hi, Looking)
    ensures Control(lo, LookupStep(hi), n)
    ensures forall k {:trigger PacketOk(lo, hi, k)} :: PacketOk(lo, hi, k) ==> PacketOk(lo, LookupStep(hi), k)
  {
  }

  lemma ConnectLo(lo: Proc, hi: Proc, n: Counts)
    requires Control(lo, hi, n) && At(lo, NoEntry)
    ensures Control(ConnectStep(lo, Lo), hi, n)
    ensures forall k {:trigger PacketOk(lo, hi, k)} :: PacketOk(lo, hi, k) ==> PacketOk(ConnectStep(lo, Lo), hi, k)
  {
  }

  lemma ConnectHi(lo: Proc, hi: Proc, n: Counts)
    requires Control(lo, hi, n) && At(hi, NoEntry)
    ensures Control(lo, ConnectStep(hi, Hi), n)
    ensures forall k {:trigger PacketOk(lo, hi, k)} :: PacketOk(lo, hi, k) ==> PacketOk(lo, ConnectStep(hi, Hi), k)
  {
  }

  lemma EnterLoControl(lo: Proc, hi: Proc, n: Counts, id: nat)
    requires Control(lo, hi, n) && lo.thread.Busy? && lo.thread.pc.Connected?
    ensures Control(EnterStep(lo, id), hi, n)
  {
  }

  lemma EnterLo(lo: Proc, hi: Proc, n: Counts, id: nat)
    requires Control(lo, hi, n) && lo.thread.Busy? && lo.thread.pc.Connected?
    ensures Control(EnterStep(lo, id), hi, n)
    ensures forall k {:trigger PacketOk(lo, hi, k)} ::
              PacketOk(lo, hi, k) && Counted(n, k) ==>
                PacketOk(EnterStep(lo, id), hi, k)
  {
    EnterLoControl(lo, hi, n, id);
  }

  lemma EnterHiControl(lo: Proc, hi: Proc, n: Counts, id: nat)
    requires Control(lo, hi, n) && hi.thread.Busy? && hi.thread.pc.Connected?
    ensures Control(lo, EnterStep(hi, id), n)
  {
  }

  lemma EnterHi(lo: Proc, hi: Proc, n: Counts, id: nat)
    requires Control(lo, hi, n) && hi.thread.Busy? && hi.thread.pc.Connected?
    ensures Control(lo, EnterStep(hi, id), n)
    ensures forall k {:trigger PacketOk(lo, hi, k)} ::
              PacketOk(lo, hi, k) && Counted(n, k) ==>
                PacketOk(lo, EnterStep(hi, id), k)
  {
    EnterHiControl(lo, hi, n, id);
  }

  lemma SentLo(lo: Proc, hi: Proc, n: Counts)
    requires Control(lo, hi, n) && lo.thread.Busy? && lo.thread.pc.Inserted?
    ensures Control(SentStep(lo), hi, n.(requestsLo := n.requestsLo + 1))
    ensures forall k {:trigger PacketOk(lo, hi, k)} :: PacketOk(lo, hi, k) ==> PacketOk(SentStep(lo), hi, k)
  {
  }

  lemma SentHi(lo: Proc, hi: Proc, n: Counts)
    requires Control(lo, hi, n) && hi.thread.Busy? && hi.thread.pc.Inserted?
    ensures Control(lo, SentStep(hi), n.(requestsHi := n.requestsHi + 1))
    ensures forall k {:trigger PacketOk(lo, hi, k)} :: PacketOk(lo, hi, k) ==> PacketOk(lo, SentStep(hi), k)
  {
  }

  lemma RecheckLo(lo: Proc, hi: Proc, n: Counts)
    requires Control(lo, hi, n) && lo.thread.Busy? && lo.thread.pc.Woken?
    ensures Control(RecheckStep(lo), hi, n)
    ensures forall k {:trigger PacketOk(lo, hi, k)} :: PacketOk(lo, hi, k) ==> PacketOk(RecheckStep(lo), hi, k)
  {
  }

  lemma RecheckHi(lo: Proc, hi: Proc, n: Counts)
    requires Control(lo, hi, n) && hi.thread.Busy? && hi.thread.pc.Woken?
    ensures Control(lo, RecheckStep(hi), n)
    ensures forall k {:trigger PacketOk(lo, hi, k)} :: PacketOk(lo, hi, k) ==> PacketOk(lo, RecheckStep(hi), k)
  {
  }

  lemma CloseLo(lo: Proc, hi: Proc, n: Counts)
    requires Control(lo, hi, n) && lo.thread.Busy? && lo.thread.pc.Lost?
    ensures Control(CloseStep(lo), hi, n)
    ensures forall k {:trigger PacketOk(lo, hi, k)} :: PacketOk(lo, hi, k) ==> PacketOk(CloseStep(lo), hi, k)
  {
  }

  lemma CloseHi(lo: Proc, hi: Proc, n: Counts)
    requires Control(lo, hi, n) && hi.thread.Busy? && hi.thread.pc.Lost?
    ensures Control(lo, CloseStep(hi), n)
    ensures forall k {:trigger PacketOk(lo, hi, k)} :: PacketOk(lo, hi, k) ==> PacketOk(lo, CloseStep(hi), k)
  {
  }

  lemma RepliedLo(lo: Proc, hi: Proc, n: Counts)
    requires Control(lo, hi, n) && lo.event.Replying?
    ensures Control(RepliedStep(lo), hi, n.(responsesHi := n.responsesHi + 1))
    ensures forall k {:trigger PacketOk(lo, hi, k)} :: PacketOk(lo, hi, k) ==> PacketOk(RepliedStep(lo), hi, k)
  {
  }

  lemma RepliedHi(lo: Proc, hi: Proc, n: Counts)
    requires Control(lo, hi, n) && hi.event.Replying?
    ensures Control(lo, RepliedStep(hi), n.(responsesLo := n.responsesLo + 1))
    ensures forall k {:trigger PacketOk(lo, hi, k)} :: PacketOk(lo, hi, k) ==> PacketOk(lo, RepliedStep(hi), k)
  {
  }

  lemma RespondLo(lo: Proc, hi: Proc, n: Counts, j: Packet)
    requires Control(lo, hi, n) && PacketOk(lo, hi, j) && j.to == Lo && lo.event.Listening? && j.msg.LinkRequest?
             && n.requestsHi > 0
    ensures Control(RespondStep(lo, j.msg.sender, j.msg.id, j.conn), hi, n.(requestsHi := n.requestsHi - 1))
    ensures forall k {:trigger PacketOk(lo, hi, k)} ::
              PacketOk(lo, hi, k) && Counted(n.(requestsHi := n.requestsHi - 1), k) ==>
                PacketOk(RespondStep(lo, j.msg.sender, j.msg.id, j.conn), hi, k)
  {
  }

  lemma RespondHi(lo: Proc, hi: Proc, n: Counts, j: Packet)
    requires Control(lo, hi, n) && PacketOk(lo, hi, j) && j.to == Hi && hi.event.Listening? && j.msg.LinkRequest?
             && n.requestsLo > 0
    ensures Control(lo, RespondStep(hi, j.msg.sender, j.msg.id, j.conn), n.(requestsLo := n.requestsLo - 1))
    ensures forall k {:trigger PacketOk(lo, hi, k)} ::
              PacketOk(lo, hi, k) && Counted(n.(requestsLo := n.requestsLo - 1), k) ==>
                PacketOk(lo, RespondStep(hi, j.msg.sender, j.msg.id, j.conn), k)
  {
    LessTotal(lo.name, hi.name);
  }

  lemma WakeLo(lo: Proc, hi: Proc, n: Counts, j: Packet)
    requires Control(lo, hi, n) && PacketOk(lo, hi, j) && j.to == Lo && j.msg.LinkResponse? && n.responsesLo > 0
    ensures Control(ReceiveStep(lo, j), hi, n.(responsesLo := n.responsesLo - 1))
    ensures forall k {:trigger PacketOk(lo, hi, k)} ::
              PacketOk(lo, hi, k) && Counted(n.(responsesLo := n.responsesLo - 1), k) ==>
                PacketOk(ReceiveStep(lo, j), hi, k)
  {
    assert Waits(lo);
  }

  lemma WakeHiControl(lo: Proc, hi: Proc, n: Counts, j: Packet)
    requires Control(lo, hi, n) && PacketOk(lo, hi, j) && j.to == Hi && j.msg.LinkResponse? && n.responsesHi > 0
    ensures Control(lo, ReceiveStep(hi, j), n.(responsesHi := n.responsesHi - 1))
  {
    assert Waits(hi);
    assert ReceiveStep(hi, j) == Goto(hi, Woken(hi.thread.pc.c, j.msg.id, Answered(1, j.conn)));
  }

  lemma WakeHi(lo: Proc, hi: Proc, n: Counts, j: Packet)
    requires Control(lo, hi, n) && PacketOk(lo, hi, j) && j.to == Hi && j.msg.LinkResponse? && n.responsesHi > 0
    ensures Control(lo, ReceiveStep(hi, j), n.(responsesHi := n.responsesHi - 1))
    ensures forall k {:trigger PacketOk(lo, hi, k)} ::
              PacketOk(lo, hi, k) && Counted(n.(responsesHi := n.responsesHi - 1), k) ==>
                PacketOk(lo, ReceiveStep(hi, j), k)
  {
    WakeHiControl(lo, hi, n, j);
    assert Waits(hi);
  }

  lemma FreedLo(lo: Proc, hi: Proc, n: Counts, c: Conn)
    requires Control(lo, hi, n) && c in hi.closed
    ensures Control(lo.(closed := lo.closed + {c}), hi, n)
  {
    assert Unused(lo, hi, c);
  }

  lemma EofLo(lo: Proc, hi: Proc, n: Counts, j: Packet)
    requires Control(lo, hi, n) && PacketOk(lo, hi, j) && j.to == Lo && j.msg.Eof?
    ensures Control(ReceiveStep(lo, j), hi, n)
    ensures forall k {:trigger PacketOk(lo, hi, k)} :: PacketOk(lo, hi, k) ==> PacketOk(ReceiveStep(lo, j), hi, k)
  {
    assert ReceiveStep(lo, j) == lo.(closed := lo.closed + {j.conn}) by {
      assert Unused(lo, hi, j.conn);
      assert j.conn in lo.closed ==> lo.closed + {j.conn} == lo.closed;
    }
    FreedLo(lo, hi, n, j.conn);
  }

  lemma FreedHi(lo: Proc, hi: Proc, n: Counts, c: Conn)
    requires Control(lo, hi, n) && c in lo.closed
    ensures Control(lo, hi.(closed := hi.closed + {c}), n)
  {
    assert Unused(lo, hi, c);
  }

  lemma EofHi(lo: Proc, hi: Proc, n: Counts, j: Packet)
    requires Control(lo, hi, n) && PacketOk(lo, hi, j) && j.to == Hi && j.msg.Eof?
    ensures Control(lo, ReceiveStep(hi, j), n)
    ensures forall k {:trigger PacketOk(lo, hi, k)} :: PacketOk(lo, hi, k) ==> PacketOk(lo, ReceiveStep(hi, j), k)
  {
    assert ReceiveStep(hi, j) == hi.(closed := hi.closed + {j.conn}) by {
      assert Unused(lo, hi, j.conn);
      assert j.conn in hi.closed ==> hi.closed + {j.conn} == hi.closed;
    }
    FreedHi(lo, hi, n, j.conn);
  }

  // ---- Every step keeps it ----

  lemma AllCounted(net: seq<Packet>)
    ensures forall i :: 0 <= i < |net| ==> Counted(Count(net), net[i])
  {
    forall i | 0 <= i < |net|
      ensures Counted(Count(net), net[i])
    {
      CountOfWithout(net, i);
    }
  }

  /** Closing a connection discards nothing: no message is ever lost to it. */
  lemma NothingDiscarded(s: State, p: Side)
    requires Inv(s) && Enabled(s, Close(p))
    ensures Discard(s.net, P(s, p).thread.pc.c, p) == s.net
    ensures forall i :: 0 <= i < |s.net| ==> s.net[i].conn != P(s, p).thread.pc.c
  {
    var c := P(s, p).thread.pc.c;
    forall i | 0 <= i < |s.net|
      ensures s.net[i].conn != c
    {
      assert PacketOk(s.lo, s.hi, s.net[i]);
    }
    DiscardNone(s.net, c, p);
  }

  lemma {:induction false} DiscardNone(net: seq<Packet>, c: Conn, p: Side)
    requires forall i :: 0 <= i < |net| ==> net[i].conn != c
    ensures Discard(net, c, p) == net
  {
    if net != [] {
      DiscardNone(net[1..], c, p);
    }
  }

  /** A step that leaves what is in flight alone. */
  lemma Kept(s: State, t: State)
    requires Inv(s) && t.net == s.net && Control(t.lo, t.hi, Count(s.net))
    requires forall k {:trigger PacketOk(s.lo, s.hi, k)} ::
               PacketOk(s.lo, s.hi, k) && Counted(Count(s.net), k) ==> PacketOk(t.lo, t.hi, k)
    ensures Inv(t)
  {
    AllCounted(s.net);
  }

  lemma BetweenAttempts(s: State, a: Action)
    requires Inv(s) && Enabled(s, a) && (a.Take? || a.ConnectFail? || a.GiveUp?)
    ensures Inv(Apply(s, a))
  {
    var n, t := Count(s.net), Apply(s, a);
    if a.p == Lo { RelaxLo(s.lo, s.hi, n, t.lo.thread); } else { RelaxHi(s.lo, s.hi, n, t.hi.thread); }
    Kept(s, t);
  }

  lemma ThreadStepKeeps(s: State, a: Action)
    requires Inv(s) && Enabled(s, a) && (a.Lookup? || a.Connect? || a.Enter? || a.Recheck?)
    ensures Inv(Apply(s, a))
  {
    var n, lo, hi := Count(s.net), s.lo, s.hi;
    match a {
      case Lookup(p) => if p == Lo { LookupLo(lo, hi, n); } else { LookupHi(lo, hi, n); }
      case Connect(p) => if p == Lo { ConnectLo(lo, hi, n); } else { ConnectHi(lo, hi, n); }
      case Enter(p, id) => if p == Lo { EnterLo(lo, hi, n, id); } else { EnterHi(lo, hi, n, id); }
      case Recheck(p) => if p == Lo { RecheckLo(lo, hi, n); } else { RecheckHi(lo, hi, n); }
    }
    Kept(s, Apply(s, a));
  }

  /** A step of one process that also puts k in flight. */
  lemma AppendKeeps(s: State, t: State, k: Packet)
    requires forall i :: 0 <= i < |s.net| ==> PacketOk(t.lo, t.hi, s.net[i])
    requires PacketOk(t.lo, t.hi, k) && t.net == s.net + [k]
    requires Control(t.lo, t.hi, More(Count(s.net), k))
    ensures Inv(t)
  {
    CountOfAppend(s.net, k);
  }

  lemma SendRequestKeeps(s: State, p: Side)
    requires Inv(s) && Enabled(s, SendRequest(p))
    ensures Inv(Apply(s, SendRequest(p)))
  {
    var n, x := Count(s.net), P(s, p);
    var k := Packet(x.thread.pc.c, Other(p), LinkRequest(x.thread.pc.id, x.name));
    if p == Lo { SentLo(s.lo, s.hi, n); } else { SentHi(s.lo, s.hi, n); }
    AppendKeeps(s, Apply(s, SendRequest(p)), k);
  }

  lemma CloseKeeps(s: State, p: Side)
    requires Inv(s) && Enabled(s, Close(p))
    ensures Inv(Apply(s, Close(p)))
  {
    var n := Count(s.net);
    NothingDiscarded(s, p);
    if p == Lo { CloseLo(s.lo, s.hi, n); } else { CloseHi(s.lo, s.hi, n); }
    AppendKeeps(s, Apply(s, Close(p)), Packet(P(s, p).thread.pc.c, Other(p), Eof));
  }

  lemma SendAppKeeps(s: State, p: Side)
    requires Inv(s) && Enabled(s, SendApp(p))
    ensures Inv(Apply(s, SendApp(p)))
  {
    var n := Count(s.net);
    if p == Lo { RelaxLo(s.lo, s.hi, n, Idle); } else { RelaxHi(s.lo, s.hi, n, Idle); }
    AppendKeeps(s, Apply(s, SendApp(p)), Packet(P(s, p).thread.pc.c, Other(p), App));
  }

  lemma SendReplyKeeps(s: State, p: Side)
    requires Inv(s) && Enabled(s, SendReply(p))
    ensures Inv(Apply(s, SendReply(p)))
  {
    var n, ev := Count(s.net), P(s, p).event;
    if p == Lo { RepliedLo(s.lo, s.hi, n); } else { RepliedHi(s.lo, s.hi, n); }
    AppendKeeps(s, Apply(s, SendReply(p)), Packet(ev.dest, Other(p), LinkResponse(ev.id, 1)));
  }

  lemma RestKeeps(s: State, i: nat)
    requires Inv(s) && i < |s.net|
    ensures forall m :: 0 <= m < |s.net| - 1 ==>
              PacketOk(s.lo, s.hi, Without(s.net, i)[m]) && Counted(Count(Without(s.net, i)), Without(s.net, i)[m])
  {
    var rest := Without(s.net, i);
    AllCounted(rest);
    forall m | 0 <= m < |rest|
      ensures PacketOk(s.lo, s.hi, rest[m])
    {
      assert rest[m] == if m < i then s.net[m] else s.net[m + 1];
    }
  }

  /** A step of one process that takes packet i out of flight. */
  lemma RemoveKeeps(s: State, i: nat, t: State)
    requires Inv(s) && i < |s.net|
    requires t.net == Without(s.net, i)
    requires Control(t.lo, t.hi, Count(t.net))
    requires forall k {:trigger PacketOk(s.lo, s.hi, k)} ::
               PacketOk(s.lo, s.hi, k) && Counted(Count(t.net), k) ==> PacketOk(t.lo, t.hi, k)
    ensures Inv(t)
  {
    RestKeeps(s, i);
  }

  lemma RequestDelivered(s: State, i: nat)
    requires Inv(s) && Enabled(s, Deliver(i)) && s.net[i].msg.LinkRequest?
    ensures Inv(Apply(s, Deliver(i)))
  {
    var n, j, t := Count(s.net), s.net[i], Apply(s, Deliver(i));
    CountOfWithout(s.net, i);
    if j.to == Lo {
      RespondLo(s.lo, s.hi, n, j);
    } else {
      RespondHi(s.lo, s.hi, n, j);
    }
    RemoveKeeps(s, i, t);
  }

  lemma ResponseDelivered(s: State, i: nat)
    requires Inv(s) && Enabled(s, Deliver(i)) && s.net[i].msg.LinkResponse?
    ensures Inv(Apply(s, Deliver(i)))
  {
    var n, j, t := Count(s.net), s.net[i], Apply(s, Deliver(i));
    CountOfWithout(s.net, i);
    if j.to == Lo {
      WakeLo(s.lo, s.hi, n, j);
    } else {
      WakeHi(s.lo, s.hi, n, j);
    }
    RemoveKeeps(s, i, t);
  }

  lemma DeliverKeeps(s: State, i: nat)
    requires Inv(s) && Enabled(s, Deliver(i))
    ensures Inv(Apply(s, Deliver(i)))
  {
    var n, j := Count(s.net), s.net[i];
    match j.msg
    case LinkRequest(_, _) => RequestDelivered(s, i);
    case LinkResponse(_, _) => ResponseDelivered(s, i);
    case App =>
      CountOfWithout(s.net, i);
      RemoveKeeps(s, i, Apply(s, Deliver(i)));
    case Eof =>
      CountOfWithout(s.net, i);
      if j.to == Lo { EofLo(s.lo, s.hi, n, j); } else { EofHi(s.lo, s.hi, n, j); }
      RemoveKeeps(s, i, Apply(s, Deliver(i)));
  }

  lemma StepKeeps(s: State, a: Action)
    requires Inv(s) && Enabled(s, a) && !a.TimeOut?
    ensures Inv(Apply(s, a))
  {
    match a
    case Deliver(i) => DeliverKeeps(s, i);
    case SendRequest(p) => SendRequestKeeps(s, p);
    case Close(p) => CloseKeeps(s, p);
    case SendApp(p) => SendAppKeeps(s, p);
    case SendReply(p) => SendReplyKeeps(s, p);
    case Take(_) => BetweenAttempts(s, a);
    case ConnectFail(_) => BetweenAttempts(s, a);
    case GiveUp(_) => BetweenAttempts(s, a);
    case _ => ThreadStepKeeps(s, a);
  }

  lemma {:induction false} RunKeeps(s: State, acts: seq<Action>)
    requires Inv(s) && Legal(s, acts) && Punctual(acts)
    ensures Inv(Run(s, acts))
    decreases |acts|
  {
    if acts != [] {
      StepKeeps(s, acts[0]);
      RunKeeps(Apply(s, acts[0]), acts[1..]);
    }
  }
}
