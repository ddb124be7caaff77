/** What timeouts do to link agreement: which of them are harmless, and what a single other one breaks. */
module LinkTimeouts {
  import opened Names
  import opened LinkProtocol
  import opened LinkTheorems
  import LinkInvariant
  import LinkLate

  /** How many waits of requestLink run into their timeouts. */
  function TimeOuts(acts: seq<Action>): nat {
    if acts == [] then 0 else (if acts[0].TimeOut? then 1 else 0) + TimeOuts(acts[1..])
  }

  /** How many do so before the peer has decided on the request: receiving and deciding are one step. */
  ghost function EarlyTimeOuts(s: State, acts: seq<Action>): nat
    requires Legal(s, acts)
    decreases |acts|
  {
    if acts == [] then 0
    else (if Early(s, acts[0]) then 1 else 0) + EarlyTimeOuts(Apply(s, acts[0]), acts[1..])
  }

  ghost predicate Early(s: State, a: Action) { a.TimeOut? && LinkLate.UnderWay(s.net, a.p) }

  /** The ids p's attempts use. */
  function Ids(acts: seq<Action>, p: Side): multiset<nat> {
    if acts == [] then multiset{} else IdOf(acts[0], p) + Ids(acts[1..], p)
  }

  function IdOf(a: Action, p: Side): multiset<nat> { if a.Enter? && a.p == p then multiset{a.id} else multiset{} }

  /** getFrameID has not come round. */
  ghost predicate DistinctIds(acts: seq<Action>) { forall p: Side, x: nat :: Ids(acts, p)[x] <= 1 }

  // ---- Late timeouts are harmless ----

  ghost predicate Unused(acts: seq<Action>, u: LinkLate.Used) {
    forall p: Side, x: nat :: x in Ids(acts, p) ==> x !in LinkLate.UsedBy(u, p)
  }

  lemma IdsOfRest(acts: seq<Action>, u: LinkLate.Used)
    requires acts != [] && DistinctIds(acts) && Unused(acts, u)
    ensures acts[0].Enter? ==> acts[0].id !in LinkLate.UsedBy(u, acts[0].p)
    ensures DistinctIds(acts[1..]) && Unused(acts[1..], LinkLate.Next(u, acts[0]))
  {
    var a, rest := acts[0], acts[1..];
    forall p: Side, x: nat
      ensures Ids(acts, p)[x] == IdOf(a, p)[x] + Ids(rest, p)[x]
    {
    }
    if a.Enter? {
      assert IdOf(a, a.p)[a.id] == 1 && a.id in Ids(acts, a.p);
    }
  }

  lemma {:induction false} LateRunKeeps(s: State, u: LinkLate.Used, acts: seq<Action>) returns (v: LinkLate.Used)
    requires LinkLate.Inv(s, u) && Legal(s, acts) && EarlyTimeOuts(s, acts) == 0 && DistinctIds(acts)
    requires Unused(acts, u)
    ensures LinkLate.Inv(Run(s, acts), v)
    decreases |acts|
  {
    v := u;
    if acts != [] {
      IdsOfRest(acts, u);
      LinkLate.StepKeeps(s, u, acts[0]);
      v := LateRunKeeps(Apply(s, acts[0]), LinkLate.Next(u, acts[0]), acts[1..]);
    }
  }

  /**
   * Timeouts that come once the peer has decided cannot keep the tables apart: whenever no
   * link attempt, link message or closing is under way, they agree.
   */
  lemma LateTimeoutsAgree(lo: Name, hi: Name, acts: seq<Action>)
    requires Less(lo, hi) && Legal(Init(lo, hi), acts) && DistinctIds(acts)
    requires EarlyTimeOuts(Init(lo, hi), acts) == 0
    ensures var s := Run(Init(lo, hi), acts); LinkLate.Calm(s) ==> s.lo.table == s.hi.table
  {
    LinkLate.InitInv(lo, hi);
    var v := LateRunKeeps(Init(lo, hi), LinkLate.Used({}, {}), acts);
    if LinkLate.Calm(Run(Init(lo, hi), acts)) {
      LinkLate.CalmAgrees(Run(Init(lo, hi), acts), v);
    }
  }

  // ---- A single early one is not ----

  lemma {:induction false} RunSnoc(s: State, acts: seq<Action>, a: Action)
    requires Legal(s, acts) && Enabled(Run(s, acts), a)
    ensures Legal(s, acts + [a]) && Run(s, acts + [a]) == Apply(Run(s, acts), a)
    decreases |acts|
  {
    if acts == [] {
      assert acts + [a] == [a] && [a][1..] == [];
    } else {
      assert (acts + [a])[1..] == acts[1..] + [a];
      RunSnoc(Apply(s, acts[0]), acts[1..], a);
    }
  }

  lemma {:induction false} CountsOfSnoc(acts: seq<Action>, a: Action)
    ensures TimeOuts(acts + [a]) == TimeOuts(acts) + if a.TimeOut? then 1 else 0
    ensures forall p :: Ids(acts + [a], p) == Ids(acts, p) + IdOf(a, p)
    decreases |acts|
  {
    if acts == [] {
      assert acts + [a] == [a] && [a][1..] == [];
    } else {
      assert (acts + [a])[1..] == acts[1..] + [a];
      CountsOfSnoc(acts[1..], a);
    }
  }

  /** A run and where it leads, with its timeouts; Lo's attempts have the ids below `ids`, and Hi makes none. */
  datatype Trace = Trace(acts: seq<Action>, end: State, timeOuts: nat, ids: nat)

  ghost predicate Follows(s: State, r: Trace) {
    && Legal(s, r.acts) && Run(s, r.acts) == r.end && TimeOuts(r.acts) == r.timeOuts
    && forall p: Side, x: nat :: Ids(r.acts, p)[x] <= if p == Lo && x < r.ids then 1 else 0
  }

  /** One step more. */
  lemma Extend(s: State, r: Trace, a: Action) returns (q: Trace)
    requires Follows(s, r) && Enabled(r.end, a) && (a.Enter? ==> a == Enter(Lo, r.ids))
    ensures Follows(s, q) && q.end == Apply(r.end, a)
    ensures q.timeOuts == r.timeOuts + (if a.TimeOut? then 1 else 0) && q.ids == r.ids + if a.Enter? then 1 else 0
  {
    RunSnoc(s, r.acts, a);
    CountsOfSnoc(r.acts, a);
    q := Trace(r.acts + [a], Apply(r.end, a), r.timeOuts + (if a.TimeOut? then 1 else 0),
               r.ids + if a.Enter? then 1 else 0);
  }

  const FIRST := Conn(Lo, 0)
  const SECOND := Conn(Lo, 1)

  /** Lo's first attempt has timed out. */
  function Abandoned(lo: Name, hi: Name): State {
    State(InitProc(lo).(tried := Some(FIRST), serials := 1, thread := Busy(0, 1, Lost(FIRST))),
          InitProc(hi), [Packet(FIRST, Hi, LinkRequest(0, lo))])
  }

  /** Its connection is closed, and its second attempt is on the way. */
  function Retried(lo: Name, hi: Name): State {
    State(RetriedProc(lo), InitProc(hi),
          [Packet(FIRST, Hi, LinkRequest(0, lo)), Packet(FIRST, Hi, Eof), Packet(SECOND, Hi, LinkRequest(1, lo))])
  }

  function RetriedProc(lo: Name): Proc {
    InitProc(lo).(table := Some(SECOND), tried := Some(SECOND), serials := 2, closed := {FIRST},
                  thread := Busy(0, 1, Waiting(SECOND, 1)))
  }

  /** Hi has answered the second attempt first, and then the abandoned one. */
  function Overtaken(lo: Name, hi: Name): State {
    State(RetriedProc(lo), InitProc(hi).(table := Some(FIRST)),
          [Packet(FIRST, Hi, Eof), Packet(SECOND, Lo, LinkResponse(1, 1)), Packet(FIRST, Lo, LinkResponse(0, 1))])
  }

  lemma EnteredIsReached(lo: Name, hi: Name) returns (r: Trace)
    ensures Follows(Init(lo, hi), r) && r.timeOuts == 0 && r.ids == 1
    ensures r.end == State(InitProc(lo).(table := Some(FIRST), tried := Some(FIRST), serials := 1,
                                         thread := Busy(0, 0, Inserted(FIRST, 0))), InitProc(hi), [])
  {
    var s := Init(lo, hi);
    r := Trace([], s, 0, 0);
    r := Extend(s, r, Take(Lo));
    r := Extend(s, r, Lookup(Lo));
    r := Extend(s, r, Connect(Lo));
    r := Extend(s, r, Enter(Lo, 0));
  }

  lemma AbandonedIsReached(lo: Name, hi: Name) returns (r: Trace)
    ensures Follows(Init(lo, hi), r) && r.timeOuts == 1 && r.ids == 1
    ensures r.end == Abandoned(lo, hi)
  {
    var s := Init(lo, hi);
    r := EnteredIsReached(lo, hi);
    r := Extend(s, r, SendRequest(Lo));
    r := Extend(s, r, TimeOut(Lo));
    r := Extend(s, r, Recheck(Lo));
  }

  lemma ClosedIsReached(lo: Name, hi: Name) returns (r: Trace)
    ensures Follows(Init(lo, hi), r) && r.timeOuts == 1 && r.ids == 1
    ensures r.end ==
            State(InitProc(lo).(tried := Some(FIRST), serials := 1, closed := {FIRST}, thread := Busy(0, 1, Looking)),
                  InitProc(hi), [Packet(FIRST, Hi, LinkRequest(0, lo)), Packet(FIRST, Hi, Eof)])
  {
    r := AbandonedIsReached(lo, hi);
    assert r.end.net[1..] == [] && Discard(r.end.net, FIRST, Lo) == r.end.net;
    r := Extend(Init(lo, hi), r, Close(Lo));
  }

  lemma RetriedIsReached(lo: Name, hi: Name) returns (r: Trace)
    ensures Follows(Init(lo, hi), r) && r.timeOuts == 1 && r.ids == 2
    ensures r.end == Retried(lo, hi)
  {
    var s := Init(lo, hi);
    r := ClosedIsReached(lo, hi);
    r := Extend(s, r, Lookup(Lo));
    r := Extend(s, r, Connect(Lo));
    r := Extend(s, r, Enter(Lo, 1));
    r := Extend(s, r, SendRequest(Lo));
    assert r.end.net == Retried(lo, hi).net;
  }

  lemma OvertakenIsReached(lo: Name, hi: Name) returns (r: Trace)
    requires Less(lo, hi)
    ensures Follows(Init(lo, hi), r) && r.timeOuts == 1 && r.ids == 2
    ensures r.end == Overtaken(lo, hi)
  {
    LessTotal(lo, hi);
    var s := Init(lo, hi);
    r := RetriedIsReached(lo, hi);
    r := Extend(s, r, Deliver(2));
    r := Extend(s, r, SendReply(Hi));
    assert r.end.net == [Packet(FIRST, Hi, LinkRequest(0, lo)), Packet(FIRST, Hi, Eof), Packet(SECOND, Lo, LinkResponse(1, 1))];
    r := Extend(s, r, Deliver(0));
    r := Extend(s, r, SendReply(Hi));
    assert r.end.net == Overtaken(lo, hi).net;
  }

  /** Hi has read the end-of-file, and Lo the answer to its second attempt. */
  function Forgotten(lo: Name, hi: Name): State {
    State(RetriedProc(lo).(thread := Busy(0, 1, Woken(SECOND, 1, Answered(1, SECOND)))),
          InitProc(hi).(closed := {FIRST}), [Packet(FIRST, Lo, LinkResponse(0, 1))])
  }

  lemma ForgottenIsReached(lo: Name, hi: Name) returns (r: Trace)
    requires Less(lo, hi)
    ensures Follows(Init(lo, hi), r) && r.timeOuts == 1 && r.ids == 2
    ensures r.end == Forgotten(lo, hi)
  {
    var s := Init(lo, hi);
    r := OvertakenIsReached(lo, hi);
    r := Extend(s, r, Deliver(0));
    assert r.end == State(RetriedProc(lo), InitProc(hi).(closed := {FIRST}),
                          [Packet(SECOND, Lo, LinkResponse(1, 1)), Packet(FIRST, Lo, LinkResponse(0, 1))]);
    r := Extend(s, r, Deliver(0));
    assert r.end.net == Forgotten(lo, hi).net;
  }

  lemma UsedIsReached(lo: Name, hi: Name) returns (r: Trace)
    requires Less(lo, hi)
    ensures Follows(Init(lo, hi), r) && r.timeOuts == 1 && r.ids == 2
    ensures r.end == State(RetriedProc(lo).(thread := Idle), InitProc(hi).(closed := {FIRST}),
                           [Packet(FIRST, Lo, LinkResponse(0, 1)), Packet(SECOND, Hi, App)])
  {
    var s := Init(lo, hi);
    r := ForgottenIsReached(lo, hi);
    r := Extend(s, r, Recheck(Lo));
    r := Extend(s, r, SendApp(Lo));
  }

  /**
   * Agreement is lost by one timeout that comes too early: the request of the abandoned
   * connection, delivered late, replaces the entry for the new one, and its end-of-file then
   * removes it.  Everything comes to rest with an entry at Lo and none at Hi.
   */
  lemma TimeoutBreaksAgreement(lo: Name, hi: Name) returns (acts: seq<Action>)
    requires Less(lo, hi)
    ensures Legal(Init(lo, hi), acts) && TimeOuts(acts) == 1 && DistinctIds(acts)
    ensures var s := Run(Init(lo, hi), acts); Settled(s) && s.lo.table == Some(SECOND) && s.hi.table == None
  {
    var s := Init(lo, hi);
    var x, y := RetriedProc(lo).(thread := Idle), InitProc(hi).(closed := {FIRST});
    var r := UsedIsReached(lo, hi);
    r := Extend(s, r, Deliver(0));
    assert r.end == State(x, y, [Packet(SECOND, Hi, App)]);
    r := Extend(s, r, Deliver(0));
    assert r.end == State(x, y, []);
    acts := r.acts;
  }

  // ---- How many timeouts agreement survives ----

  lemma {:induction false} PunctualIff(acts: seq<Action>)
    ensures Punctual(acts) <==> TimeOuts(acts) == 0
    decreases |acts|
  {
    if acts != [] {
      assert acts == [acts[0]] + acts[1..];
      PunctualIff(acts[1..]);
    }
  }

  lemma {:induction false} EarlyAreTimeOuts(s: State, acts: seq<Action>)
    requires Legal(s, acts)
    ensures EarlyTimeOuts(s, acts) <= TimeOuts(acts)
    decreases |acts|
  {
    if acts != [] {
      EarlyAreTimeOuts(Apply(s, acts[0]), acts[1..]);
    }
  }

  /** Every run with at most n timeouts leaves equal tables at rest. */
  ghost predicate AgreesWithin(lo: Name, hi: Name, n: nat) {
    forall acts :: Legal(Init(lo, hi), acts) && TimeOuts(acts) <= n ==>
      var s := Run(Init(lo, hi), acts); Quiet(s) ==> s.lo.table == s.hi.table
  }

  /** Every run whose ids differ, with any number of timeouts of which at most n are early, does. */
  ghost predicate AgreesWithinEarly(lo: Name, hi: Name, n: nat) {
    forall acts :: Legal(Init(lo, hi), acts) && DistinctIds(acts) && EarlyTimeOuts(Init(lo, hi), acts) <= n ==>
      var s := Run(Init(lo, hi), acts); LinkLate.Calm(s) ==> s.lo.table == s.hi.table
  }

  /** Where no wait may time out the tables agree; where one may, for any two names, they need not. */
  lemma TimeOutsDecide(lo: Name, hi: Name, n: nat)
    requires Less(lo, hi)
    ensures AgreesWithin(lo, hi, n) <==> n == 0
  {
    if n == 0 {
      forall acts | Legal(Init(lo, hi), acts) && TimeOuts(acts) <= n
        ensures var s := Run(Init(lo, hi), acts); Quiet(s) ==> s.lo.table == s.hi.table
      {
        PunctualIff(acts);
        LinkAgreement(lo, hi, acts);
      }
    } else {
      var acts := TimeoutBreaksAgreement(lo, hi);
      SettledIsQuiet(Run(Init(lo, hi), acts));
    }
  }

  /** The only timeouts that matter are those of waits whose request is still on its way. */
  lemma EarlyTimeOutsDecide(lo: Name, hi: Name, n: nat)
    requires Less(lo, hi)
    ensures AgreesWithinEarly(lo, hi, n) <==> n == 0
  {
    if n == 0 {
      forall acts | Legal(Init(lo, hi), acts) && DistinctIds(acts) && EarlyTimeOuts(Init(lo, hi), acts) <= n
        ensures var s := Run(Init(lo, hi), acts); LinkLate.Calm(s) ==> s.lo.table == s.hi.table
      {
        LateTimeoutsAgree(lo, hi, acts);
      }
    } else {
      var acts := TimeoutBreaksAgreement(lo, hi);
      EarlyAreTimeOuts(Init(lo, hi), acts);
      SettledIsQuiet(Run(Init(lo, hi), acts));
    }
  }

  lemma SettledIsQuiet(s: State)
    requires Settled(s)
    ensures Quiet(s) && LinkLate.Calm(s)
  {
  }
}
