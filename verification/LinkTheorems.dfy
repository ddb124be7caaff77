/** Agreement, safety and termination of link establishment, over every interleaving. */
module LinkTheorems {
  import opened Names
  import opened LinkProtocol
  import opened LinkInvariant

  // ---- Agreement ----

  lemma QuietAgrees(s: State)
    requires Inv(s) && Quiet(s)
    ensures s.lo.table == s.hi.table
    ensures s.lo.table.None? <==> s.lo.tried.None? && s.hi.tried.None?
    ensures s.lo.tried.Some? ==> s.lo.table == s.lo.tried
    ensures s.lo.table.Some? ==> Live(s.lo, s.hi, s.lo.table.value)
  {
    NoneCounted(s.net, RequestsOf(Lo));
    NoneCounted(s.net, RequestsOf(Hi));
    NoneCounted(s.net, ResponsesTo(Lo));
    NoneCounted(s.net, ResponsesTo(Hi));
    assert !Attempting(P(s, Lo)) && !Attempting(P(s, Hi));
  }

  /**
   * Once no link attempt and no link message is outstanding, the two table entries are both
   * absent or the two open ends of one connection.  They are absent only if neither thread
   * ever entered a connection of its own; if the process with the smaller name did, its own
   * is the survivor, whatever the other did.
   */
  lemma LinkAgreement(lo: Name, hi: Name, acts: seq<Action>)
    requires Less(lo, hi) && Legal(Init(lo, hi), acts) && Punctual(acts)
    ensures var s := Run(Init(lo, hi), acts);
            Quiet(s) ==>
              && s.lo.table == s.hi.table
              && (s.lo.table.None? <==> s.lo.tried.None? && s.hi.tried.None?)
              && (s.lo.tried.Some? ==> s.lo.table == s.lo.tried && s.lo.table.value.opener == Lo)
              && (s.lo.table.Some? ==> Live(s.lo, s.hi, s.lo.table.value))
  {
    InitInv(lo, hi);
    RunKeeps(Init(lo, hi), acts);
    var s := Run(Init(lo, hi), acts);
    if Quiet(s) {
      QuietAgrees(s);
    }
  }

  // ---- Safety of single steps ----

  /** The connection a step writes to. */
  function Target(s: State, a: Action): Option<Conn>
    requires Enabled(s, a)
  {
    match a
    case SendRequest(p) => Some(P(s, p).thread.pc.c)
    case SendApp(p) => Some(P(s, p).thread.pc.c)
    case SendReply(p) => Some(P(s, p).event.dest)
    case Close(p) => Some(P(s, p).thread.pc.c)
    case _ => None
  }

  /**
   * In every reachable state: no step writes to, or frees, a connection either end has freed;
   * freeing one discards nothing in flight; and requestLink is never told to give way by the
   * byte in the reply, which is always 1.
   */
  lemma LinkSafety(lo: Name, hi: Name, acts: seq<Action>, a: Action)
    requires Less(lo, hi) && Legal(Init(lo, hi), acts) && Punctual(acts)
    requires Enabled(Run(Init(lo, hi), acts), a)
    ensures var s := Run(Init(lo, hi), acts);
            && (Target(s, a).Some? ==> !(Target(s, a).value in s.lo.closed) && !(Target(s, a).value in s.hi.closed))
            && (a.Close? ==> Discard(s.net, Target(s, a).value, a.p) == s.net)
            && (a.Recheck? ==> P(s, a.p).thread.pc.answer.Answered? && P(s, a.p).thread.pc.answer.keep == 1)
  {
    InitInv(lo, hi);
    RunKeeps(Init(lo, hi), acts);
    var s := Run(Init(lo, hi), acts);
    if a.Close? {
      NothingDiscarded(s, a.p);
    }
  }

  /**
   * A requestLink that returned 1 leaves an entry that the next lookup finds, so the thread
   * goes on to send; and it meets at most one such conflict for a message.
   */
  lemma ConflictThenEntry(lo: Name, hi: Name, acts: seq<Action>, p: Side)
    requires Less(lo, hi) && Legal(Init(lo, hi), acts) && Punctual(acts)
    ensures var s := Run(Init(lo, hi), acts);
            P(s, p).thread.Busy? ==>
              && P(s, p).thread.conflicts <= 1
              && P(s, p).thread.fails <= RETRIES
              && (At(P(s, p), Looking) && P(s, p).thread.conflicts == 1 ==>
                    P(Apply(s, Lookup(p)), p).thread.pc.Ready?)
  {
    InitInv(lo, hi);
    RunKeeps(Init(lo, hi), acts);
  }

  // ---- Every run comes to rest ----

  function Rank(x: Proc): nat {
    (match x.thread
     case Idle => 0
     case Busy(fails, conflicts, pc) =>
       var left := if fails <= RETRIES then 2 * (RETRIES - fails) else 0;
       match pc
       case Looking => if conflicts > 0 then 3 else 15 + left
       case NoEntry => 14 + left
       case Connected(_) => 13
       case Inserted(_, _) => 12
       case Waiting(_, _) => 7
       case Woken(_, _, _) => 6
       case Lost(_) => 5
       case Ready(_) => 2)
    + if x.event.Replying? then 3 else 0
  }

  function Weight(m: Msg): nat {
    match m
    case LinkRequest(_, _) => 4
    case LinkResponse(_, _) => 2
    case App => 1
    case Eof => 1
  }

  function Load(net: seq<Packet>): nat {
    if net == [] then 0 else Weight(net[0].msg) + Load(net[1..])
  }

  lemma {:induction false} LoadOfConcat(a: seq<Packet>, b: seq<Packet>)
    ensures Load(a + b) == Load(a) + Load(b)
  {
    if a == [] {
      assert a + b == b;
    } else {
      assert (a + b)[1..] == a[1..] + b;
      LoadOfConcat(a[1..], b);
    }
  }

  lemma LoadOfAppend(net: seq<Packet>, k: Packet)
    ensures Load(net + [k]) == Load(net) + Weight(k.msg)
  {
    LoadOfConcat(net, [k]);
    assert [k][1..] == [];
  }

  lemma LoadOfParts(a: seq<Packet>, k: Packet, b: seq<Packet>)
    ensures Load(a + [k] + b) == Load(a + b) + Weight(k.msg)
  {
    LoadOfConcat(a, b);
    LoadOfAppend(a, k);
    LoadOfConcat(a + [k], b);
  }

  lemma LoadOfWithout(net: seq<Packet>, i: nat)
    requires i < |net|
    ensures Load(net) == Load(Without(net, i)) + Weight(net[i].msg)
  {
    LoadOfParts(net[..i], net[i], net[i + 1..]);
    assert net == net[..i] + [net[i]] + net[i + 1..];
  }

  /** What is left to do before everything comes to rest. */
  function Measure(s: State): nat { Rank(s.lo) + Rank(s.hi) + Load(s.net) }

  lemma ThreadRanks(x: Proc, p: Side, id: nat)
    requires x.thread.Busy? && Sending(x, p)
    ensures x.thread.pc.Looking? ==> Rank(LookupStep(x)) < Rank(x)
    ensures x.thread.pc.NoEntry? && x.thread.fails != RETRIES ==> Rank(ConnectFailStep(x)) < Rank(x)
    ensures x.thread.pc.NoEntry? ==> Rank(ConnectStep(x, p)) < Rank(x) && Rank(DoneStep(x)) < Rank(x)
    ensures x.thread.pc.Connected? ==> Rank(EnterStep(x, id)) < Rank(x)
    ensures x.thread.pc.Inserted? ==> Rank(SentStep(x)) + 4 < Rank(x)
    ensures x.thread.pc.Woken? ==> Rank(RecheckStep(x)) < Rank(x)
    ensures x.thread.pc.Lost? ==> Rank(CloseStep(x)) + 1 < Rank(x)
    ensures x.thread.pc.Ready? ==> Rank(DoneStep(x)) + 1 < Rank(x)
  {
  }

  lemma EventRanks(x: Proc, k: Packet)
    ensures x.event.Listening? ==> Rank(ReceiveStep(x, k)) < Rank(x) + Weight(k.msg)
    ensures x.event.Replying? ==> Rank(RepliedStep(x)) + 2 < Rank(x)
  {
  }

  /** A step of p on its own, and a step of p that also puts k in flight. */
  lemma MeasureOfStep(s: State, p: Side, x: Proc, k: Packet)
    ensures Measure(Set(s, p, x)) + Rank(P(s, p)) == Measure(s) + Rank(x)
    ensures Measure(Set(s, p, x).(net := s.net + [k])) + Rank(P(s, p)) == Measure(s) + Rank(x) + Weight(k.msg)
  {
    LoadOfAppend(s.net, k);
  }

  lemma StepDecreases(s: State, a: Action)
    requires Inv(s) && Enabled(s, a) && !a.Take? && !a.TimeOut?
    ensures Measure(Apply(s, a)) < Measure(s)
  {
    match a
    case Deliver(i) =>
      LoadOfWithout(s.net, i);
      EventRanks(P(s, s.net[i].to), s.net[i]);
    case SendReply(p) =>
      var ev := P(s, p).event;
      var k := Packet(ev.dest, Other(p), LinkResponse(ev.id, 1));
      EventRanks(P(s, p), k);
      MeasureOfStep(s, p, RepliedStep(P(s, p)), k);
    case SendRequest(_) => ThreadSendDecreases(s, a);
    case SendApp(_) => ThreadSendDecreases(s, a);
    case Close(_) => ThreadSendDecreases(s, a);
    case _ => ThreadStepDecreases(s, a);
  }

  lemma ThreadStepDecreases(s: State, a: Action)
    requires Inv(s) && Enabled(s, a) && !a.Take? && !a.TimeOut? && !a.Deliver? && !a.SendReply?
    requires !a.SendRequest? && !a.SendApp? && !a.Close?
    ensures Measure(Apply(s, a)) < Measure(s)
  {
    ThreadRanks(P(s, a.p), a.p, if a.Enter? then a.id else 0);
  }

  lemma ThreadSendDecreases(s: State, a: Action)
    requires Inv(s) && Enabled(s, a) && (a.SendRequest? || a.SendApp? || a.Close?)
    ensures Measure(Apply(s, a)) < Measure(s)
  {
    var p := a.p;
    var x := P(s, p);
    ThreadRanks(x, p, 0);
    match a
    case SendRequest(_) =>
      MeasureOfStep(s, p, SentStep(x), Packet(x.thread.pc.c, Other(p), LinkRequest(x.thread.pc.id, x.name)));
    case SendApp(_) =>
      MeasureOfStep(s, p, DoneStep(x), Packet(x.thread.pc.c, Other(p), App));
    case Close(_) =>
      NothingDiscarded(s, p);
      MeasureOfStep(s, p, CloseStep(x), Packet(x.thread.pc.c, Other(p), Eof));
  }

  /** Nothing is left to do until a thread takes another message. */
  predicate Settled(s: State) {
    && s.net == []
    && s.lo.thread.Idle? && s.hi.thread.Idle?
    && s.lo.event.Listening? && s.hi.event.Listening?
  }

  /** A step that can be taken now: no one waits for something that will not come. */
  function NextAction(s: State): Action {
    if s.lo.event.Replying? then SendReply(Lo)
    else if s.hi.event.Replying? then SendReply(Hi)
    else if s.net != [] then Deliver(0)
    else ThreadAction(s, if s.lo.thread.Busy? then Lo else Hi)
  }

  function ThreadAction(s: State, p: Side): Action {
    match P(s, p).thread
    case Idle => Take(p)
    case Busy(fails, _, pc) =>
      match pc
      case Looking => Lookup(p)
      case NoEntry => if fails == RETRIES then GiveUp(p) else Connect(p)
      case Connected(_) => Enter(p, 0)
      case Inserted(_, _) => SendRequest(p)
      case Waiting(_, _) => Take(p)
      case Woken(_, _, _) => Recheck(p)
      case Lost(_) => Close(p)
      case Ready(_) => SendApp(p)
  }

  lemma NoDeadlock(s: State)
    requires Inv(s) && !Settled(s)
    ensures Enabled(s, NextAction(s)) && !NextAction(s).Take? && !NextAction(s).TimeOut?
  {
    if s.net != [] {
      assert PacketOk(s.lo, s.hi, s.net[0]);
    }
  }

  ghost predicate NoTake(acts: seq<Action>) { forall i :: 0 <= i < |acts| ==> !acts[i].Take? }

  lemma {:induction false} RunsAreShort(s: State, acts: seq<Action>)
    requires Inv(s) && Legal(s, acts) && Punctual(acts) && NoTake(acts)
    ensures |acts| + Measure(Run(s, acts)) <= Measure(s)
    decreases |acts|
  {
    if acts != [] {
      StepDecreases(s, acts[0]);
      StepKeeps(s, acts[0]);
      RunsAreShort(Apply(s, acts[0]), acts[1..]);
    }
  }

  /**
   * From any reachable state, however the scheduler, the network and the connects choose, at
   * most Measure more steps happen before a new message is taken; and when none can happen any
   * more, every message taken has been sent or dropped, every link message has been answered
   * and read, and the two tables agree.
   */
  lemma EveryRunSettles(lo: Name, hi: Name, before: seq<Action>, acts: seq<Action>)
    requires Less(lo, hi) && Legal(Init(lo, hi), before) && Punctual(before)
    requires Legal(Run(Init(lo, hi), before), acts) && Punctual(acts) && NoTake(acts)
    ensures var s := Run(Init(lo, hi), before);
            var t := Run(s, acts);
            && |acts| <= Measure(s)
            && ((forall a :: Enabled(t, a) ==> a.Take? || a.TimeOut?) ==> Settled(t) && t.lo.table == t.hi.table)
  {
    InitInv(lo, hi);
    RunKeeps(Init(lo, hi), before);
    var s := Run(Init(lo, hi), before);
    RunKeeps(s, acts);
    RunsAreShort(s, acts);
    var t := Run(s, acts);
    if forall a :: Enabled(t, a) ==> a.Take? || a.TimeOut? {
      if !Settled(t) {
        NoDeadlock(t);
      }
      QuietAgrees(t);
    }
  }

  // ---- Failed connects ----

  /** How many of p's connects fail along a run. */
  function Failures(acts: seq<Action>, p: Side): nat {
    if acts == [] then 0 else (if acts[0] == ConnectFail(p) then 1 else 0) + Failures(acts[1..], p)
  }

  function Fails(x: Proc): nat { if x.thread.Busy? then x.thread.fails else 0 }

  lemma {:induction false} FailsAreCounted(s: State, acts: seq<Action>, p: Side)
    requires Legal(s, acts)
    ensures Fails(P(Run(s, acts), p)) <= Fails(P(s, p)) + Failures(acts, p)
    decreases |acts|
  {
    if acts != [] {
      FailsAreCounted(Apply(s, acts[0]), acts[1..], p);
    }
  }

  /** A message is dropped only after three failed connects: with fewer, it is sent. */
  lemma DropNeedsThreeFailures(s: State, acts: seq<Action>, p: Side)
    requires Legal(s, acts) && P(s, p).thread.Idle?
    requires Enabled(Run(s, acts), GiveUp(p))
    ensures Failures(acts, p) >= RETRIES
  {
    FailsAreCounted(s, acts, p);
  }
}
