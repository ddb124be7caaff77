/** Overlapping lookups in the pending table: who is safe from them, and what a single one does. */
module LookupRaces {
  import opened Names
  import opened Tables
  import opened Correlation
  import opened Responses

  // ---- A process that calls others only ----

  /** No call of p goes to a module of its own. */
  predicate CallsOthersOnly(acts: seq<Action>, p: Name) {
    forall i :: 0 <= i < |acts| && acts[i].GetId? && acts[i].p == p ==> acts[i].recver != p
  }

  ghost predicate Outward(s: State, p: Name) {
    forall k :: k in s.calls && k.proc == p ==> s.calls[k].request.recver != p
  }

  /** A response to a call that left the process came from another one. */
  lemma CameFromOutside(s: State, m: Msg, p: Name)
    requires Inv(s) && Outward(s, p) && MsgOk(s.calls, s.last, m) && m.response && m.recver == p
    ensures m.sender != p
  {
    assert RowOk(s.last, m.origin, s.calls[m.origin]);
  }

  lemma EventThreadIsAlone(s: State, a: Action, p: Name)
    requires Inv(s) && Outward(s, p) && Enabled(s, a)
    ensures !Overlapping(s, a, p)
  {
    if Overlapping(s, a, p) {
      var x :| x in s.seeking && x.recver == p;
      SeekingLess(s.calls, s.last, s.seeking, s.cursor, x);
      CameFromOutside(s, x, p);
      NetLess(s.calls, s.last, s.net, a.m);
      CameFromOutside(s, a.m, p);
      assert EventThreadReads(s, p);
    }
  }

  lemma OutwardStays(s: State, a: Action, p: Name)
    requires Inv(s) && Outward(s, p) && Enabled(s, a) && CallsOthersOnly([a], p)
    ensures Outward(Apply(s, a), p)
  {
    forall k | k in Apply(s, a).calls && k.proc == p
      ensures Apply(s, a).calls[k].request.recver != p
    {
      if Subject(s, a) != Some(k) {
        OthersStay(s, a, k);
      } else if a.GetId? {
        assert [a][0] == a;
      } else if !a.Store? {
        SubjectReads(s, a, k);
      }
    }
  }

  lemma {:induction false} NoOverlaps(s: State, acts: seq<Action>, p: Name)
    requires Inv(s) && Outward(s, p) && Legal(s, acts) && CallsOthersOnly(acts, p)
    ensures Overlaps(s, acts, p) == 0
    decreases |acts|
  {
    if acts != [] {
      EventThreadIsAlone(s, acts[0], p);
      OutwardStays(s, acts[0], p);
      StepKeeps(s, acts[0]);
      NoOverlaps(Apply(s, acts[0]), acts[1..], p);
    }
  }

  /**
   * A process that makes no call to its own modules has its event thread as the only reader of
   * m_proxy_hash, so its lookups never overlap, and each of its calls gets its own response.
   */
  lemma OutwardCallersAreSafe(acts: seq<Action>, k: Key)
    requires Legal(INIT, acts) && k in Run(INIT, acts).calls && CallsOthersOnly(acts, k.proc)
    ensures Overlaps(INIT, acts, k.proc) == 0
    ensures OwnCall(k, Run(INIT, acts).calls[k])
  {
    NoOverlaps(INIT, acts, k.proc);
    RunOwn(INIT, acts, k.proc);
  }

  // ---- A run that goes wrong ----

  lemma {:induction false} Snoc(s: State, acts: seq<Action>, a: Action, p: Name)
    requires Legal(s, acts) && Enabled(Run(s, acts), a) && (a.GetId? ==> Room(Run(s, acts), a.p))
    ensures Legal(s, acts + [a]) && Run(s, acts + [a]) == Apply(Run(s, acts), a)
    ensures Overlaps(s, acts + [a], p) == Overlaps(s, acts, p) + if Overlapping(Run(s, acts), a, p) then 1 else 0
    decreases |acts|
  {
    if acts == [] {
      assert acts + [a] == [a] && [a][1..] == [];
    } else {
      assert (acts + [a])[1..] == acts[1..] + [a];
      Snoc(Apply(s, acts[0]), acts[1..], a, p);
    }
  }

  /** A run, where it leads, and its overlapping lookups in the table of p. */
  datatype Trace = Trace(acts: seq<Action>, end: State, overlaps: nat)

  ghost predicate Follows(r: Trace, p: Name) {
    Legal(INIT, r.acts) && Run(INIT, r.acts) == r.end && Overlaps(INIT, r.acts, p) == r.overlaps
  }

  lemma Extend(r: Trace, a: Action, p: Name) returns (q: Trace)
    requires Follows(r, p) && Enabled(r.end, a) && (a.GetId? ==> Room(r.end, a.p))
    ensures Follows(q, p) && q.end == Apply(r.end, a)
    ensures q.overlaps == r.overlaps + if Overlapping(r.end, a, p) then 1 else 0
  {
    Snoc(INIT, r.acts, a, p);
    q := Trace(r.acts + [a], Apply(r.end, a), r.overlaps + if Overlapping(r.end, a, p) then 1 else 0);
  }

  /** Call k of p to itself waits, and its response m is under way. */
  ghost predicate Placed(s: State, p: Name, k: Key, m: Msg) {
    && k in s.calls && k.proc == p && s.calls[k].phase.Waiting? && s.calls[k].request.func == m.func
    && m in s.net && m.response && m.origin == k && m.id == IdOf(k) && m.sender == p && m.recver == p
  }

  ghost predicate Still(s: State, t: State, p: Name) {
    && t.seeking == s.seeking && (forall k, m :: Placed(s, p, k, m) ==> Placed(t, p, k, m))
  }

  /** A step about a call that does not wait leaves the waiting ones alone. */
  lemma StepStill(s: State, a: Action, p: Name)
    requires Enabled(s, a) && (a.Register? || a.Lock? || a.Queue? || a.Begin? || a.Respond?)
    ensures Still(s, Apply(s, a), p)
  {
    forall k, m | Placed(s, p, k, m)
      ensures Placed(Apply(s, a), p, k, m)
    {
      OthersStay(s, a, k);
    }
  }

  lemma ServeStill(s: State, r: Msg, p: Name)
    requires r in s.net && !r.response
    ensures Still(s, Apply(s, Serve(r)), p)
  {
  }

  lemma GetIdStill(s: State, a: Action, p: Name)
    requires Inv(s) && a.GetId? && a.p == p
    ensures Still(s, Apply(s, a), p)
  {
    GetIdFresh(s, Key(p, Frame(s, p)));
    forall k, m | Placed(s, p, k, m)
      ensures Placed(Apply(s, a), p, k, m)
    {
      OthersStay(s, a, k);
    }
  }

  /** The request of call k of p to its own function f waits to be served. */
  ghost predicate Asked(s: State, p: Name, k: Key, f: Name) {
    && k in s.calls && k.proc == p && s.calls[k].phase.Waiting?
    && s.calls[k].request == Request(k, p, [], f, []) && s.calls[k].request in s.net
  }

  /** Before the first 2^32 ids are used up they cannot come round. */
  lemma RoomAtFirst(s: State, p: Name)
    requires Frame(s, p) < WIDTH
    ensures Room(s, p)
  {
  }

  lemma NewCall(r: Trace, p: Name, f: Name) returns (q: Trace, k: Key)
    requires Follows(r, p) && Frame(r.end, p) < WIDTH
    ensures Follows(q, p) && q.overlaps == r.overlaps && Frame(q.end, p) == Frame(r.end, p) + 1
    ensures k == Key(p, Frame(r.end, p)) && k in q.end.calls && q.end.calls[k].phase.Numbered?
    ensures q.end.calls[k].request == Request(k, p, [], f, []) && !q.end.calls[k].oneWay
    ensures Still(r.end, q.end, p)
  {
    var a := GetId(p, p, [], f, [], false);
    k := Key(p, Frame(r.end, p));
    assert Room(r.end, p) by {
      RoomAtFirst(r.end, p);
    }
    RunKeeps(INIT, r.acts);
    GetIdStill(r.end, a, p);
    q := Extend(r, a, p);
  }

  /** Register, lock, queue and wait. */
  lemma CallWaits(r: Trace, p: Name, k: Key, f: Name) returns (q: Trace)
    requires Follows(r, p) && r.end.seeking == multiset{}
    requires k in r.end.calls && k.proc == p && r.end.calls[k].phase.Numbered? && !r.end.calls[k].oneWay
    requires r.end.calls[k].request == Request(k, p, [], f, [])
    ensures Follows(q, p) && q.overlaps == r.overlaps && Frame(q.end, p) == Frame(r.end, p)
    ensures Asked(q.end, p, k, f) && Still(r.end, q.end, p)
  {
    StepStill(r.end, Register(k), p);
    q := Extend(r, Register(k), p);
    StepStill(q.end, Lock(k), p);
    q := Extend(q, Lock(k), p);
    q := CallSent(q, p, k, f);
  }

  lemma CallSent(r: Trace, p: Name, k: Key, f: Name) returns (q: Trace)
    requires Follows(r, p) && r.end.seeking == multiset{}
    requires k in r.end.calls && k.proc == p && r.end.calls[k].phase.Locked? && !r.end.calls[k].oneWay
    requires r.end.calls[k].request == Request(k, p, [], f, [])
    ensures Follows(q, p) && q.overlaps == r.overlaps && Frame(q.end, p) == Frame(r.end, p)
    ensures Asked(q.end, p, k, f) && Still(r.end, q.end, p)
  {
    StepStill(r.end, Queue(k), p);
    q := Extend(r, Queue(k), p);
    StepStill(q.end, Begin(k), p);
    q := Extend(q, Begin(k), p);
  }

  /** A handler answers. */
  lemma CallAnswered(r: Trace, p: Name, k: Key, f: Name) returns (q: Trace)
    requires Follows(r, p) && Asked(r.end, p, k, f)
    ensures Follows(q, p) && q.overlaps == r.overlaps && Frame(q.end, p) == Frame(r.end, p)
    ensures Placed(q.end, p, k, Response(Request(k, p, [], f, []), [])) && Still(r.end, q.end, p)
  {
    var m := Request(k, p, [], f, []);
    ServeStill(r.end, m, p);
    q := Extend(r, Serve(m), p);
    StepStill(q.end, Respond(m, []), p);
    q := Extend(q, Respond(m, []), p);
  }

  lemma LocalCall(r: Trace, p: Name, f: Name) returns (q: Trace, k: Key, m: Msg)
    requires Follows(r, p) && Frame(r.end, p) < WIDTH && r.end.seeking == multiset{}
    ensures Follows(q, p) && q.overlaps == r.overlaps && Frame(q.end, p) == Frame(r.end, p) + 1
    ensures k == Key(p, Frame(r.end, p)) && Placed(q.end, p, k, m) && m.func == f
    ensures Still(r.end, q.end, p)
  {
    q, k := NewCall(r, p, f);
    q := CallWaits(q, p, k, f);
    q := CallAnswered(q, p, k, f);
    m := Response(Request(k, p, [], f, []), []);
  }

  /** Two lookups of waiting local calls overlap, and the response to the first reaches the second. */
  lemma Race(r: Trace, p: Name, j: Key, m: Msg, k: Key, x: Msg) returns (q: Trace)
    requires Follows(r, p) && r.end.seeking == multiset{}
    requires Placed(r.end, p, j, m) && Placed(r.end, p, k, x) && j != k
    ensures Follows(q, p) && q.overlaps == r.overlaps + 1
    ensures k in q.end.calls && q.end.calls[k].phase == Returned(0, Some(m))
    ensures q.end.calls[k].stored == Some(m) && q.end.calls[k].request.func == x.func
  {
    q := SoughtTwice(r, p, j, m, k, x);
    q := Extend(q, Fetch(m), p);
    assert (k, m) in q.end.found;
    q := Extend(q, Store(k, m), p);
    q := Extend(q, Resume(k), p);
  }

  lemma PlacedIsFiled(r: Trace, p: Name, k: Key, m: Msg)
    requires Follows(r, p) && Placed(r.end, p, k, m)
    ensures Lookup(r.end, m) == Some(k)
  {
    RunKeeps(INIT, r.acts);
    assert Entered(r.end.pending, k);
  }

  lemma SoughtTwice(r: Trace, p: Name, j: Key, m: Msg, k: Key, x: Msg) returns (q: Trace)
    requires Follows(r, p) && r.end.seeking == multiset{}
    requires Placed(r.end, p, j, m) && Placed(r.end, p, k, x) && j != k
    ensures Follows(q, p) && q.overlaps == r.overlaps + 1
    ensures m in q.end.seeking && Cursor(q.end, p) == Some(k) && q.end.calls == r.end.calls
  {
    PlacedIsFiled(r, p, k, x);
    q := Extend(r, Seek(m), p);
    assert q.end.seeking == multiset{m} && x in q.end.net && q.end.pending == r.end.pending;
    q := Extend(q, Seek(x), p);
  }

  lemma TwoCalls(p: Name, f: Name, g: Name) returns (r: Trace, j: Key, m: Msg, k: Key, x: Msg)
    ensures Follows(r, p) && r.overlaps == 0 && r.end.seeking == multiset{}
    ensures Placed(r.end, p, j, m) && Placed(r.end, p, k, x) && j != k && m.func == f && x.func == g
  {
    r := Trace([], INIT, 0);
    r, j, m := LocalCall(r, p, f);
    r, k, x := LocalCall(r, p, g);
  }

  /**
   * In any process, for any two of its functions: of two calls it makes to them itself, with one
   * overlapping lookup, one returns success with the response to the other.
   */
  lemma OverlapMisroutes(p: Name, f: Name, g: Name) returns (acts: seq<Action>, k: Key)
    ensures Legal(INIT, acts) && Overlaps(INIT, acts, p) == 1
    ensures k in Run(INIT, acts).calls && k.proc == p
    ensures var c := Run(INIT, acts).calls[k];
            && c.request.func == g && c.phase.Returned? && c.phase.result == 0 && c.stored == c.phase.read
            && c.stored.Some? && c.stored.value.origin != k && c.stored.value.func == f
  {
    var r, j, m, x;
    r, j, m, k, x := TwoCalls(p, f, g);
    r := Race(r, p, j, m, k, x);
    acts := r.acts;
  }

  // ---- How many overlaps correlation survives ----

  /** Over every run with at most n overlapping lookups of p, a response stored for a call of p answers it. */
  ghost predicate AnswersWithin(p: Name, n: nat) {
    forall acts, k ::
      Legal(INIT, acts) && Overlaps(INIT, acts, p) <= n && k in Run(INIT, acts).calls && k.proc == p ==>
        var c := Run(INIT, acts).calls[k]; c.stored.Some? ==> AnswerOf(k, c, c.stored.value)
  }

  /** Responses reach their calls exactly where no lookup begins while another one is under way. */
  lemma OverlapsDecide(p: Name, n: nat)
    ensures AnswersWithin(p, n) <==> n == 0
  {
    if n == 0 {
      forall acts, k | Legal(INIT, acts) && Overlaps(INIT, acts, p) <= n && k in Run(INIT, acts).calls && k.proc == p
        ensures var c := Run(INIT, acts).calls[k]; c.stored.Some? ==> AnswerOf(k, c, c.stored.value)
      {
        RunOwn(INIT, acts, p);
        assert OwnCall(k, Run(INIT, acts).calls[k]);
      }
    } else {
      var acts, k := OverlapMisroutes(p, [], []);
      assert !AnswerOf(k, Run(INIT, acts).calls[k], Run(INIT, acts).calls[k].stored.value);
    }
  }
}
