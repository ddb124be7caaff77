/**
 * What a call returns, read off the run itself: its result, the handler that gave the data, and
 * the arguments that went out with the request.
 */
module CallHistory {
  import opened Names
  import opened Tables
  import opened Correlation
  import opened Responses

  // ---- The request ----

  /** How many ids the first n actions issue for p. */
  function Issued(acts: seq<Action>, p: Name, n: nat): nat
    requires n <= |acts|
  {
    if n == 0 then 0
    else Issued(acts, p, n - 1) +
         if (acts[n - 1].GetId? || acts[n - 1].OtherId?) && acts[n - 1].p == p then 1 else 0
  }

  /** Action i makes call k, and c goes out with the arguments of the caller. */
  predicate Makes(acts: seq<Action>, i: nat, k: Key, c: Call) {
    && i < |acts| && acts[i].GetId? && acts[i].p == k.proc && Issued(acts, k.proc, i) == k.issue
    && c.oneWay == acts[i].oneWay
    && !c.request.response && c.request.id == IdOf(k) && c.request.origin == k
    && c.request.sender == acts[i].p && c.request.recver == acts[i].recver
    && c.request.mod == acts[i].mod && c.request.func == acts[i].func && c.request.data == acts[i].data
  }

  lemma {:induction false} FrameIsIssued(acts: seq<Action>, p: Name, n: nat)
    requires Legal(INIT, acts) && n <= |acts|
    ensures Legal(INIT, acts[..n]) && Frame(Run(INIT, acts[..n]), p) == Issued(acts, p, n)
  {
    if n > 0 {
      Prefix(INIT, acts, n - 1);
      FrameIsIssued(acts, p, n - 1);
      FrameStep(Run(INIT, acts[..n - 1]), acts[n - 1], p);
    }
  }

  lemma FrameStep(s: State, a: Action, p: Name)
    requires Enabled(s, a)
    ensures Frame(Apply(s, a), p) == Frame(s, p) + if (a.GetId? || a.OtherId?) && a.p == p then 1 else 0
  {
  }

  /** No step changes the request of a call, or whether it is one-way. */
  lemma RequestStays(s: State, a: Action, k: Key)
    requires Inv(s) && Enabled(s, a) && k in s.calls
    ensures k in Apply(s, a).calls
    ensures Apply(s, a).calls[k].request == s.calls[k].request && Apply(s, a).calls[k].oneWay == s.calls[k].oneWay
  {
    if Subject(s, a) != Some(k) {
      OthersStay(s, a, k);
    } else if a.GetId? {
      GetIdFresh(s, k);
    } else if !a.Store? {
      SubjectReads(s, a, k);
    }
  }

  lemma SameMaker(acts: seq<Action>, i: nat, k: Key, c: Call, d: Call)
    requires Makes(acts, i, k, c) && d.request == c.request && d.oneWay == c.oneWay
    ensures Makes(acts, i, k, d)
  {
  }

  lemma {:induction false} CallIsMade(acts: seq<Action>, k: Key, n: nat)
    requires Legal(INIT, acts) && n <= |acts| && Legal(INIT, acts[..n]) && k in Run(INIT, acts[..n]).calls
    ensures exists i :: 0 <= i < n && Makes(acts, i, k, Run(INIT, acts[..n]).calls[k])
  {
    assert acts[..0] == [];
    if n > 0 {
      Prefix(INIT, acts, n - 1);
      RunKeeps(INIT, acts[..n - 1]);
      FrameIsIssued(acts, k.proc, n - 1);
      if k in Run(INIT, acts[..n - 1]).calls {
        CallIsMade(acts, k, n - 1);
      }
      MadeOnce(acts, Run(INIT, acts[..n - 1]), n - 1, k);
    }
  }

  lemma MadeOnce(acts: seq<Action>, s: State, n: nat, k: Key)
    requires n < |acts| && Inv(s) && Enabled(s, acts[n]) && k in Apply(s, acts[n]).calls
    requires Frame(s, k.proc) == Issued(acts, k.proc, n)
    requires k in s.calls ==> exists i :: 0 <= i < n && Makes(acts, i, k, s.calls[k])
    ensures exists i :: 0 <= i <= n && Makes(acts, i, k, Apply(s, acts[n]).calls[k])
  {
    var d := Apply(s, acts[n]).calls[k];
    if k in s.calls {
      var i :| 0 <= i < n && Makes(acts, i, k, s.calls[k]);
      RequestStays(s, acts[n], k);
      SameMaker(acts, i, k, s.calls[k], d);
    } else {
      MadeNow(s, acts[n], k);
      assert Makes(acts, n, k, d);
    }
  }

  lemma MadeNow(s: State, a: Action, k: Key)
    requires Enabled(s, a) && k !in s.calls && k in Apply(s, a).calls
    ensures a.GetId? && k == Key(a.p, Frame(s, a.p))
    ensures Apply(s, a).calls[k] ==
            Call(Msg(IdOf(k), false, a.p, a.recver, a.mod, a.func, a.data, k), a.oneWay, Numbered, None)
  {
    if Subject(s, a) != Some(k) {
      OthersStay(s, a, k);
    }
  }

  /** Over every run a call was made by one action, and its request has the arguments given there. */
  lemma RequestIsAsked(acts: seq<Action>, k: Key)
    requires Legal(INIT, acts) && k in Run(INIT, acts).calls
    ensures exists i :: 0 <= i < |acts| && Makes(acts, i, k, Run(INIT, acts).calls[k])
  {
    assert acts[..|acts|] == acts;
    CallIsMade(acts, k, |acts|);
  }

  /** Over every run what a handler is given is the request of a call, unchanged. */
  lemma HandlersGetRequests(acts: seq<Action>, m: Msg)
    requires Legal(INIT, acts) && m in Run(INIT, acts).served
    ensures m.origin in Run(INIT, acts).calls && m == Run(INIT, acts).calls[m.origin].request
  {
    RunKeeps(INIT, acts);
    var s := Run(INIT, acts);
    ServedLess(s.calls, s.last, s.served, m);
  }

  // ---- The data of a response ----

  /** What handlers have answered to which requests in the first n actions. */
  function Given(acts: seq<Action>, n: nat): set<(Msg, seq<byte>)>
    requires n <= |acts|
  {
    if n == 0 then {} else Given(acts, n - 1) + GivenBy(acts[n - 1])
  }

  function GivenBy(a: Action): set<(Msg, seq<byte>)> { if a.Respond? then {(a.m, a.data)} else {} }

  lemma {:induction false} GivenIs(acts: seq<Action>, n: nat, m: Msg, data: seq<byte>)
    requires n <= |acts| && (m, data) in Given(acts, n)
    ensures exists i :: 0 <= i < n && acts[i] == Respond(m, data)
  {
    if (m, data) in GivenBy(acts[n - 1]) {
      assert acts[n - 1] == Respond(m, data);
    } else {
      GivenIs(acts, n - 1, m, data);
    }
  }

  /** x has the data some handler gave to the request of the call x was built for. */
  predicate Sourced(calls: map<Key, Call>, g: set<(Msg, seq<byte>)>, x: Msg) {
    x.response && x.origin in calls && (calls[x.origin].request, x.data) in g
  }

  predicate SourcedCall(calls: map<Key, Call>, g: set<(Msg, seq<byte>)>, c: Call) {
    && (c.stored.Some? ==> Sourced(calls, g, c.stored.value))
    && (Finished(c.phase) && c.phase.read.Some? ==> Sourced(calls, g, c.phase.read.value))
  }

  ghost predicate SourcedCalls(s: State, g: set<(Msg, seq<byte>)>) {
    forall k :: k in s.calls ==> SourcedCall(s.calls, g, s.calls[k])
  }

  ghost predicate SourcedNet(calls: map<Key, Call>, g: set<(Msg, seq<byte>)>, net: multiset<Msg>) {
    forall m :: m in net && m.response ==> Sourced(calls, g, m)
  }

  ghost predicate SourcedFound(calls: map<Key, Call>, g: set<(Msg, seq<byte>)>, found: multiset<(Key, Msg)>) {
    forall f :: f in found ==> Sourced(calls, g, f.1)
  }

  ghost predicate AllSourced(s: State, g: set<(Msg, seq<byte>)>) {
    && SourcedCalls(s, g)
    && SourcedNet(s.calls, g, s.net) && SourcedNet(s.calls, g, s.seeking) && SourcedFound(s.calls, g, s.found)
  }

  /** More has been given, and the requests are what they were. */
  ghost predicate Wider(calls: map<Key, Call>, g: set<(Msg, seq<byte>)>, calls': map<Key, Call>, g': set<(Msg, seq<byte>)>) {
    forall x :: Sourced(calls, g, x) ==> Sourced(calls', g', x)
  }

  lemma StepWider(s: State, a: Action, g: set<(Msg, seq<byte>)>)
    requires Inv(s) && Enabled(s, a)
    ensures Wider(s.calls, g, Apply(s, a).calls, g + GivenBy(a))
  {
    forall x | Sourced(s.calls, g, x)
      ensures Sourced(Apply(s, a).calls, g + GivenBy(a), x)
    {
      RequestStays(s, a, x.origin);
    }
  }

  /** What a step adds to the network: no response but the one a handler gives. */
  lemma NetGains(s: State, a: Action, x: Msg)
    requires Enabled(s, a) && x in Apply(s, a).net && x !in s.net
    ensures (a.Queue? && x == s.calls[a.k].request) || (a.Respond? && x == Response(a.m, a.data))
  {
  }

  lemma RequestsAsk(s: State, a: Action)
    requires Inv(s) && Enabled(s, a)
    ensures a.Queue? ==> !s.calls[a.k].request.response
  {
    if a.Queue? {
      assert RowOk(s.last, a.k, s.calls[a.k]);
    }
  }

  lemma NetSourced(s: State, a: Action, g: set<(Msg, seq<byte>)>)
    requires Inv(s) && Enabled(s, a) && AllSourced(s, g)
    ensures SourcedNet(Apply(s, a).calls, g + GivenBy(a), Apply(s, a).net)
  {
    StepWider(s, a, g);
    RequestsAsk(s, a);
    forall x | x in Apply(s, a).net && x.response
      ensures Sourced(Apply(s, a).calls, g + GivenBy(a), x)
    {
      if x !in s.net {
        NetGains(s, a, x);
        ResponseSourced(s, a.m, a.data, g + GivenBy(a));
        RequestStays(s, a, x.origin);
      }
    }
  }

  lemma ResponseSourced(s: State, m: Msg, data: seq<byte>, g: set<(Msg, seq<byte>)>)
    requires Inv(s) && m in s.served && (m, data) in g
    ensures Sourced(s.calls, g, Response(m, data))
  {
    ServedLess(s.calls, s.last, s.served, m);
  }

  lemma SeekingGains(s: State, a: Action, x: Msg)
    requires Enabled(s, a) && x in Apply(s, a).seeking && x !in s.seeking
    ensures a.Seek? && x == a.m
  {
    if !a.Seek? && !a.Fetch? {
      SeekingStays(s, a);
    }
  }

  lemma SeekingStays(s: State, a: Action)
    requires Enabled(s, a) && !a.Seek? && !a.Fetch?
    ensures Apply(s, a).seeking == s.seeking
  {
  }

  lemma SeekingSourced(s: State, a: Action, g: set<(Msg, seq<byte>)>)
    requires Inv(s) && Enabled(s, a) && AllSourced(s, g)
    ensures SourcedNet(Apply(s, a).calls, g + GivenBy(a), Apply(s, a).seeking)
  {
    StepWider(s, a, g);
    forall x | x in Apply(s, a).seeking && x.response
      ensures Sourced(Apply(s, a).calls, g + GivenBy(a), x)
    {
      if x !in s.seeking {
        SeekingGains(s, a, x);
      }
    }
  }

  lemma FoundGains(s: State, a: Action, f: (Key, Msg))
    requires Enabled(s, a) && f in Apply(s, a).found && f !in s.found
    ensures a.Fetch? && f.1 == a.m
  {
  }

  lemma FoundSourced(s: State, a: Action, g: set<(Msg, seq<byte>)>)
    requires Inv(s) && Enabled(s, a) && AllSourced(s, g)
    ensures SourcedFound(Apply(s, a).calls, g + GivenBy(a), Apply(s, a).found)
  {
    StepWider(s, a, g);
    forall f | f in Apply(s, a).found
      ensures Sourced(Apply(s, a).calls, g + GivenBy(a), f.1)
    {
      if f !in s.found {
        FoundGains(s, a, f);
        SeekingLess(s.calls, s.last, s.seeking, s.cursor, a.m);
      }
    }
  }

  /** What a call holds or has read after a step it had before, or the step has stored it. */
  lemma CallGains(s: State, a: Action, k: Key)
    requires Inv(s) && Enabled(s, a) && k in Apply(s, a).calls
    ensures var d := Apply(s, a).calls[k];
            if k !in s.calls then d.stored == None && !Finished(d.phase)
            else
              var c := s.calls[k];
              && (d.stored == c.stored || (a.Store? && a.k == k && d.stored == Some(a.m)))
              && (Finished(d.phase) ==>
                    (Finished(c.phase) && d.phase.read == c.phase.read)
                    || d.phase.read == None || (!a.Store? && d.phase.read == c.stored))
  {
    if k !in s.calls {
      MadeNow(s, a, k);
    } else if Subject(s, a) != Some(k) {
      OthersStay(s, a, k);
    } else if a.GetId? {
      GetIdFresh(s, k);
    } else if a.Store? {
      StoreGains(s, k, a.m);
    } else {
      SubjectMoves(s, a, k);
      SubjectReads(s, a, k);
    }
  }

  lemma StoreGains(s: State, k: Key, m: Msg)
    requires k in s.calls
    ensures var c, d := s.calls[k], StoreStep(s, k, m).calls[k];
            && d == StoreCall(c, m) && d.stored == Some(m)
            && (Finished(d.phase) ==> Finished(c.phase) && d.phase.read == c.phase.read)
  {
  }

  /** A call that holds what it held or something sourced, and has read that or nothing. */
  lemma SourcedMoves(calls: map<Key, Call>, g: set<(Msg, seq<byte>)>, calls': map<Key, Call>,
                     g': set<(Msg, seq<byte>)>, c: Call, d: Call)
    requires Wider(calls, g, calls', g') && SourcedCall(calls, g, c)
    requires d.stored == c.stored || (d.stored.Some? && Sourced(calls, g, d.stored.value))
    requires Finished(d.phase) ==>
               (Finished(c.phase) && d.phase.read == c.phase.read) || d.phase.read == None || d.phase.read == c.stored
    ensures SourcedCall(calls', g', d)
  {
  }

  lemma CallSourced(s: State, a: Action, g: set<(Msg, seq<byte>)>, k: Key)
    requires Inv(s) && Enabled(s, a) && AllSourced(s, g) && k in Apply(s, a).calls
    ensures SourcedCall(Apply(s, a).calls, g + GivenBy(a), Apply(s, a).calls[k])
  {
    CallGains(s, a, k);
    if k in s.calls {
      StepWider(s, a, g);
      StoreSourced(s, a, g);
      SourcedMoves(s.calls, g, Apply(s, a).calls, g + GivenBy(a), s.calls[k], Apply(s, a).calls[k]);
    }
  }

  lemma StoreSourced(s: State, a: Action, g: set<(Msg, seq<byte>)>)
    requires Enabled(s, a) && AllSourced(s, g)
    ensures a.Store? ==> Sourced(s.calls, g, a.m)
  {
    if a.Store? {
      assert Sourced(s.calls, g, (a.k, a.m).1);
    }
  }

  lemma StepSourced(s: State, a: Action, g: set<(Msg, seq<byte>)>)
    requires Inv(s) && Enabled(s, a) && AllSourced(s, g)
    ensures AllSourced(Apply(s, a), g + GivenBy(a))
  {
    NetSourced(s, a, g);
    SeekingSourced(s, a, g);
    FoundSourced(s, a, g);
    forall k | k in Apply(s, a).calls
      ensures SourcedCall(Apply(s, a).calls, g + GivenBy(a), Apply(s, a).calls[k])
    {
      CallSourced(s, a, g, k);
    }
  }

  lemma {:induction false} RunSourced(acts: seq<Action>, n: nat)
    requires Legal(INIT, acts) && n <= |acts|
    ensures Legal(INIT, acts[..n]) && AllSourced(Run(INIT, acts[..n]), Given(acts, n))
  {
    if n > 0 {
      Prefix(INIT, acts, n - 1);
      RunSourced(acts, n - 1);
      RunKeeps(INIT, acts[..n - 1]);
      StepSourced(Run(INIT, acts[..n - 1]), acts[n - 1], Given(acts, n - 1));
    } else {
      assert acts[..0] == [];
    }
  }

  /** Action i of the run is a handler answering the request of x's call with the data of x. */
  ghost predicate Gave(acts: seq<Action>, i: nat, calls: map<Key, Call>, x: Msg) {
    i < |acts| && x.origin in calls && acts[i] == Respond(calls[x.origin].request, x.data)
  }

  lemma SourcedIsGiven(acts: seq<Action>, calls: map<Key, Call>, x: Msg)
    requires Sourced(calls, Given(acts, |acts|), x)
    ensures exists i: nat :: Gave(acts, i, calls, x)
  {
    GivenIs(acts, |acts|, calls[x.origin].request, x.data);
    var i :| 0 <= i < |acts| && acts[i] == Respond(calls[x.origin].request, x.data);
    assert Gave(acts, i, calls, x);
  }

  /**
   * Over every run: whatever response a call holds or has read, a handler gave its data, in answer
   * to the request of the call the response was built for.  Without overlapping lookups that is
   * the request of this very call.
   */
  lemma HandlersGaveTheData(acts: seq<Action>, k: Key)
    requires Legal(INIT, acts) && k in Run(INIT, acts).calls
    ensures var calls := Run(INIT, acts).calls;
            var c := calls[k];
            && (c.stored.Some? ==> exists i: nat :: Gave(acts, i, calls, c.stored.value))
            && (Finished(c.phase) && c.phase.read.Some? ==> exists i: nat :: Gave(acts, i, calls, c.phase.read.value))
            && (Overlaps(INIT, acts, k.proc) == 0 ==>
                  && (c.stored.Some? ==> c.stored.value.origin == k)
                  && (Finished(c.phase) && c.phase.read.Some? ==> c.phase.read.value.origin == k))
  {
    assert acts[..|acts|] == acts;
    RunSourced(acts, |acts|);
    var calls := Run(INIT, acts).calls;
    assert SourcedCall(calls, Given(acts, |acts|), calls[k]);
    if calls[k].stored.Some? {
      SourcedIsGiven(acts, calls, calls[k].stored.value);
    }
    if Finished(calls[k].phase) && calls[k].phase.read.Some? {
      SourcedIsGiven(acts, calls, calls[k].phase.read.value);
    }
    if Overlaps(INIT, acts, k.proc) == 0 {
      RunOwn(INIT, acts, k.proc);
      assert OwnCall(k, calls[k]);
    }
  }

  // ---- The result ----

  predicate Fails(a: Action, k: Key) { (a.Expire? || a.Reject?) && a.k == k }

  /** One of the first n actions has call k time out or be rejected. */
  predicate Failed(acts: seq<Action>, k: Key, n: nat)
    requires n <= |acts|
  {
    n > 0 && (Failed(acts, k, n - 1) || Fails(acts[n - 1], k))
  }

  lemma {:induction false} FailedIff(acts: seq<Action>, k: Key, n: nat)
    requires n <= |acts|
    ensures Failed(acts, k, n) <==> exists i :: 0 <= i < n && Fails(acts[i], k)
  {
    if n > 0 {
      FailedIff(acts, k, n - 1);
    }
  }

  /** Where a call can be that has, or has not, failed. */
  predicate Fits(c: Call, failed: bool) {
    && (c.phase.Expired? ==> failed)
    && (failed ==> c.phase.Expired? || Finished(c.phase))
    && (Finished(c.phase) ==> c.phase.result == if failed then -1 else 0)
    && (c.oneWay ==> !c.phase.Waiting? && !c.phase.Signalled? && !c.phase.Expired?)
    && (c.oneWay && Finished(c.phase) ==> c.phase.read == None)
  }

  lemma StepFits(s: State, a: Action, k: Key, failed: bool)
    requires Inv(s) && Enabled(s, a) && k in s.calls && Fits(s.calls[k], failed)
    ensures k in Apply(s, a).calls && Fits(Apply(s, a).calls[k], failed || Fails(a, k))
  {
    if Subject(s, a) != Some(k) {
      FitsOther(s, a, k, failed);
    } else if a.GetId? {
      GetIdFresh(s, k);
    } else if a.Store? {
      FitsStored(s, k, a.m, failed);
    } else {
      FitsMoves(s, a, k, failed);
    }
  }

  lemma FitsOther(s: State, a: Action, k: Key, failed: bool)
    requires Enabled(s, a) && Subject(s, a) != Some(k) && k in s.calls && Fits(s.calls[k], failed)
    ensures k in Apply(s, a).calls && Fits(Apply(s, a).calls[k], failed || Fails(a, k))
  {
    OthersStay(s, a, k);
    FailsSubject(s, a, k);
  }

  lemma FitsStored(s: State, k: Key, m: Msg, failed: bool)
    requires k in s.calls && Fits(s.calls[k], failed)
    ensures k in StoreStep(s, k, m).calls && Fits(StoreStep(s, k, m).calls[k], failed)
  {
    StoreGains(s, k, m);
    FitsStore(s.calls[k], m, failed);
  }

  lemma FailsSubject(s: State, a: Action, k: Key)
    requires Enabled(s, a)
    ensures Fails(a, k) ==> Subject(s, a) == Some(k) && k in s.calls
  {
  }

  lemma FitsStore(c: Call, m: Msg, failed: bool)
    requires Fits(c, failed)
    ensures Fits(StoreCall(c, m), failed)
  {
  }

  lemma FitsNew(s: State, a: Action, k: Key)
    requires Enabled(s, a) && k !in s.calls && k in Apply(s, a).calls
    ensures Fits(Apply(s, a).calls[k], false)
  {
    MadeNow(s, a, k);
  }

  lemma FitsMoves(s: State, a: Action, k: Key, failed: bool)
    requires Enabled(s, a) && Subject(s, a) == Some(k) && !a.GetId? && !a.Store? && k in s.calls
    requires Fits(s.calls[k], failed)
    ensures k in Apply(s, a).calls && Fits(Apply(s, a).calls[k], failed || Fails(a, k))
  {
    match a
    case Register(_) =>
    case Lock(_) =>
    case Queue(_) =>
    case Begin(_) =>
    case Expire(_) =>
    case Resume(_) =>
    case Retire(_) =>
    case Reject(_) =>
  }

  lemma {:induction false} RunFits(acts: seq<Action>, k: Key, n: nat)
    requires Legal(INIT, acts) && n <= |acts|
    ensures Legal(INIT, acts[..n])
    ensures var calls := Run(INIT, acts[..n]).calls;
            if k in calls then Fits(calls[k], Failed(acts, k, n)) else !Failed(acts, k, n)
  {
    if n > 0 {
      Prefix(INIT, acts, n - 1);
      RunFits(acts, k, n - 1);
      RunKeeps(INIT, acts[..n - 1]);
      FitsOn(Run(INIT, acts[..n - 1]), acts[n - 1], k, Failed(acts, k, n - 1));
    } else {
      assert acts[..0] == [];
    }
  }

  lemma FitsOn(s: State, a: Action, k: Key, failed: bool)
    requires Inv(s) && Enabled(s, a)
    requires if k in s.calls then Fits(s.calls[k], failed) else !failed
    ensures var t := Apply(s, a).calls;
            if k in t then Fits(t[k], failed || Fails(a, k)) else !failed && !Fails(a, k)
  {
    FailsSubject(s, a, k);
    if k in s.calls {
      StepFits(s, a, k, failed);
    } else if k in Apply(s, a).calls {
      FitsNew(s, a, k);
    }
  }

  /**
   * Over every run a call that has returned has returned -1 if it timed out or was rejected, and 0
   * otherwise.  A one-way call never waits, and reads nothing.
   */
  lemma ResultIsItsHistory(acts: seq<Action>, k: Key)
    requires Legal(INIT, acts) && k in Run(INIT, acts).calls
    ensures var c := Run(INIT, acts).calls[k];
            && (Finished(c.phase) ==>
                  c.phase.result == if exists i :: 0 <= i < |acts| && Fails(acts[i], k) then -1 else 0)
            && (c.oneWay ==> !c.phase.Waiting? && (Finished(c.phase) ==> c.phase.read == None))
  {
    assert acts[..|acts|] == acts;
    RunFits(acts, k, |acts|);
    FailedIff(acts, k, |acts|);
  }
}
