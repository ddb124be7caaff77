/** No message is made or multiplied on its way: what each step of a response or request takes, an earlier one put there. */
module Deliveries {
  import opened Names
  import opened Tables
  import opened Correlation
  import opened Responses
  import opened CallHistory

  // ---- What an action puts and takes, by where it is ----

  /** Queued or sent: a request by its call, a response by a handler. */
  function Put(s: State, a: Action): multiset<Msg> {
    if a.Queue? && a.k in s.calls then multiset{s.calls[a.k].request}
    else if a.Respond? then multiset{Response(a.m, a.data)}
    else multiset{}
  }

  /** Handed to a handler, looked up, or lost. */
  function Left(a: Action): multiset<Msg> {
    if a.Serve? || a.Seek? || a.Lose? then multiset{a.m} else multiset{}
  }

  function Sought(a: Action): multiset<Msg> { if a.Seek? then multiset{a.m} else multiset{} }

  function Fetched(a: Action): multiset<Msg> { if a.Fetch? then multiset{a.m} else multiset{} }

  /** The lookups that found a call, and the writes that followed. */
  function Matched(s: State, a: Action): multiset<(Key, Msg)> {
    if a.Fetch? && Cursor(s, a.m.recver).Some? then multiset{(Cursor(s, a.m.recver).value, a.m)} else multiset{}
  }

  function Written(a: Action): multiset<(Key, Msg)> { if a.Store? then multiset{(a.k, a.m)} else multiset{} }

  lemma NetTaken(s: State, a: Action)
    requires Enabled(s, a) && (a.Serve? || a.Seek? || a.Lose?)
    ensures a.m in s.net && Apply(s, a).net == s.net - multiset{a.m} && Put(s, a) == multiset{}
  {
  }

  lemma NetGrows(s: State, a: Action)
    requires Enabled(s, a) && (a.Queue? || a.Respond?)
    ensures Apply(s, a).net == s.net + Put(s, a)
  {
  }

  lemma NetStays(s: State, a: Action)
    requires Enabled(s, a) && !a.Serve? && !a.Seek? && !a.Lose? && !a.Queue? && !a.Respond?
    ensures Apply(s, a).net == s.net
  {
  }

  lemma NetStep(s: State, a: Action)
    requires Enabled(s, a)
    ensures Apply(s, a).net + Left(a) == s.net + Put(s, a)
  {
    if a.Serve? || a.Seek? || a.Lose? {
      NetTaken(s, a);
      TakenOut(s.net, a.m);
    } else if a.Queue? || a.Respond? {
      NetGrows(s, a);
    } else {
      NetStays(s, a);
    }
  }

  lemma TakenOut<T>(x: multiset<T>, m: T)
    requires m in x
    ensures x - multiset{m} + multiset{m} == x
  {
  }

  lemma SeekingStep(s: State, a: Action)
    requires Enabled(s, a)
    ensures Apply(s, a).seeking + Fetched(a) == s.seeking + Sought(a)
  {
    if a.Fetch? {
      TakenOut(s.seeking, a.m);
    } else if !a.Seek? {
      SeekingStays(s, a);
    }
  }

  lemma FoundTaken(s: State, a: Action)
    requires Enabled(s, a) && a.Store?
    ensures (a.k, a.m) in s.found && Apply(s, a).found == s.found - multiset{(a.k, a.m)}
  {
  }

  lemma FoundGrows(s: State, a: Action)
    requires Enabled(s, a) && !a.Store?
    ensures Apply(s, a).found == s.found + Matched(s, a)
  {
  }

  lemma FoundStep(s: State, a: Action)
    requires Enabled(s, a)
    ensures Apply(s, a).found + Written(a) == s.found + Matched(s, a)
  {
    if a.Store? {
      FoundTaken(s, a);
      TakenOut(s.found, (a.k, a.m));
    } else {
      FoundGrows(s, a);
    }
  }

  // ---- Over a run ----

  ghost function AllPut(acts: seq<Action>, n: nat): multiset<Msg>
    requires Legal(INIT, acts) && n <= |acts|
  {
    if n == 0 then multiset{}
    else
      Prefix(INIT, acts, n - 1);
      AllPut(acts, n - 1) + Put(Run(INIT, acts[..n - 1]), acts[n - 1])
  }

  function AllLeft(acts: seq<Action>, n: nat): multiset<Msg>
    requires n <= |acts|
  {
    if n == 0 then multiset{} else AllLeft(acts, n - 1) + Left(acts[n - 1])
  }

  function AllSought(acts: seq<Action>, n: nat): multiset<Msg>
    requires n <= |acts|
  {
    if n == 0 then multiset{} else AllSought(acts, n - 1) + Sought(acts[n - 1])
  }

  function AllFetched(acts: seq<Action>, n: nat): multiset<Msg>
    requires n <= |acts|
  {
    if n == 0 then multiset{} else AllFetched(acts, n - 1) + Fetched(acts[n - 1])
  }

  ghost function AllMatched(acts: seq<Action>, n: nat): multiset<(Key, Msg)>
    requires Legal(INIT, acts) && n <= |acts|
  {
    if n == 0 then multiset{}
    else
      Prefix(INIT, acts, n - 1);
      AllMatched(acts, n - 1) + Matched(Run(INIT, acts[..n - 1]), acts[n - 1])
  }

  function AllWritten(acts: seq<Action>, n: nat): multiset<(Key, Msg)>
    requires n <= |acts|
  {
    if n == 0 then multiset{} else AllWritten(acts, n - 1) + Written(acts[n - 1])
  }

  /**
   * Over every run: what is under way is what was put there and has not left; the lookups under way
   * are those begun and not ended; the writes to come are those of lookups that found a call.
   */
  lemma {:induction false} MessagesAreConserved(acts: seq<Action>, n: nat)
    requires Legal(INIT, acts) && n <= |acts|
    ensures Legal(INIT, acts[..n])
    ensures var s := Run(INIT, acts[..n]);
            && s.net + AllLeft(acts, n) == AllPut(acts, n)
            && s.seeking + AllFetched(acts, n) == AllSought(acts, n)
            && s.found + AllWritten(acts, n) == AllMatched(acts, n)
  {
    assert acts[..0] == [];
    if n > 0 {
      MessagesAreConserved(acts, n - 1);
      Prefix(INIT, acts, n - 1);
      var s, a := Run(INIT, acts[..n - 1]), acts[n - 1];
      NetStep(s, a);
      SeekingStep(s, a);
      FoundStep(s, a);
      Balance(s.net, AllLeft(acts, n - 1), AllPut(acts, n - 1), Apply(s, a).net, Left(a), Put(s, a));
      Balance(s.seeking, AllFetched(acts, n - 1), AllSought(acts, n - 1), Apply(s, a).seeking, Fetched(a), Sought(a));
      Balance(s.found, AllWritten(acts, n - 1), AllMatched(acts, n - 1), Apply(s, a).found, Written(a), Matched(s, a));
    }
  }

  lemma Balance<T>(x: multiset<T>, out: multiset<T>, into: multiset<T>, y: multiset<T>, o: multiset<T>, i: multiset<T>)
    requires x + out == into && y + o == x + i
    ensures y + (out + o) == into + i
  {
    assert y + (out + o) == (y + o) + out;
    assert (x + i) + out == (x + out) + i;
  }

  // ---- Every request is served at most once ----

  /** How often the first n actions queue call k. */
  function Queuings(acts: seq<Action>, k: Key, n: nat): nat
    requires n <= |acts|
  {
    if n == 0 then 0 else Queuings(acts, k, n - 1) + if acts[n - 1].Queue? && acts[n - 1].k == k then 1 else 0
  }

  /** A call whose request is still to be queued has not queued it, and none queues it twice. */
  predicate QueuedOnce(c: Call, n: nat) { n <= 1 && (Early(c.phase) ==> n == 0) }

  lemma StepQueues(s: State, a: Action, k: Key, n: nat)
    requires Inv(s) && Enabled(s, a)
    requires if k in s.calls then QueuedOnce(s.calls[k], n) else n == 0
    ensures var t := Apply(s, a).calls;
            var n' := n + if a.Queue? && a.k == k then 1 else 0;
            if k in t then QueuedOnce(t[k], n') else n' == 0
  {
    if k in s.calls {
      QueuesOn(s, a, k, n);
    } else if k in Apply(s, a).calls {
      MadeNow(s, a, k);
    }
  }

  lemma QueuesOn(s: State, a: Action, k: Key, n: nat)
    requires Inv(s) && Enabled(s, a) && k in s.calls && QueuedOnce(s.calls[k], n)
    ensures k in Apply(s, a).calls
    ensures QueuedOnce(Apply(s, a).calls[k], n + if a.Queue? && a.k == k then 1 else 0)
  {
    if Subject(s, a) != Some(k) {
      OthersStay(s, a, k);
      QueueSubject(s, a, k);
    } else if a.GetId? {
      GetIdFresh(s, k);
    } else if a.Store? {
      StoreQueues(s.calls[k], a.m, n);
    } else {
      QueueMoves(s, a, k, n);
    }
  }

  lemma QueueSubject(s: State, a: Action, k: Key)
    requires Enabled(s, a)
    ensures a.Queue? && a.k == k ==> Subject(s, a) == Some(k)
  {
  }

  lemma StoreQueues(c: Call, m: Msg, n: nat)
    requires QueuedOnce(c, n)
    ensures QueuedOnce(StoreCall(c, m), n)
  {
  }

  lemma QueueMoves(s: State, a: Action, k: Key, n: nat)
    requires Enabled(s, a) && Subject(s, a) == Some(k) && !a.GetId? && !a.Store? && k in s.calls
    requires QueuedOnce(s.calls[k], n)
    ensures k in Apply(s, a).calls && QueuedOnce(Apply(s, a).calls[k], n + if a.Queue? then 1 else 0)
  {
    match a
    case Register(_) =>
    case Lock(_) =>
    case Queue(_) =>
    case Begin(_) =>
    case Expire(_) =>
    case Resume(_) =>
    case Retire(_) =>
    case Reject(_) =>
  }

  lemma QueuesNext(acts: seq<Action>, k: Key, n: nat)
    requires Legal(INIT, acts) && n < |acts| && Legal(INIT, acts[..n]) && Enabled(Run(INIT, acts[..n]), acts[n])
    requires var calls := Run(INIT, acts[..n]).calls;
             if k in calls then QueuedOnce(calls[k], Queuings(acts, k, n)) else Queuings(acts, k, n) == 0
    ensures var calls := Apply(Run(INIT, acts[..n]), acts[n]).calls;
            if k in calls then QueuedOnce(calls[k], Queuings(acts, k, n + 1)) else Queuings(acts, k, n + 1) == 0
  {
    RunKeeps(INIT, acts[..n]);
    StepQueues(Run(INIT, acts[..n]), acts[n], k, Queuings(acts, k, n));
  }

  lemma {:induction false} RunQueues(acts: seq<Action>, k: Key, n: nat)
    requires Legal(INIT, acts) && n <= |acts|
    ensures Legal(INIT, acts[..n])
    ensures var calls := Run(INIT, acts[..n]).calls;
            if k in calls then QueuedOnce(calls[k], Queuings(acts, k, n)) else Queuings(acts, k, n) == 0
  {
    assert acts[..0] == [];
    if n > 0 {
      Prefix(INIT, acts, n - 1);
      RunQueues(acts, k, n - 1);
      QueuesNext(acts, k, n - 1);
    }
  }

  /** A request comes only from the queueing of its own call. */
  lemma PutOnce(s: State, a: Action, m: Msg)
    requires Inv(s) && Enabled(s, a) && !m.response
    ensures Put(s, a)[m] <= if a.Queue? && a.k == m.origin then 1 else 0
  {
    if a.Queue? {
      assert RowOk(s.last, a.k, s.calls[a.k]);
    }
  }

  lemma {:induction false} RequestsPut(acts: seq<Action>, m: Msg, n: nat)
    requires Legal(INIT, acts) && n <= |acts| && !m.response
    ensures AllPut(acts, n)[m] <= Queuings(acts, m.origin, n)
  {
    if n > 0 {
      RequestsPut(acts, m, n - 1);
      Prefix(INIT, acts, n - 1);
      PutNext(acts, m, n - 1);
    }
  }

  lemma PutNext(acts: seq<Action>, m: Msg, n: nat)
    requires Legal(INIT, acts) && n < |acts| && Legal(INIT, acts[..n]) && Enabled(Run(INIT, acts[..n]), acts[n])
    requires !m.response
    ensures AllPut(acts, n + 1)[m] - AllPut(acts, n)[m] <= Queuings(acts, m.origin, n + 1) - Queuings(acts, m.origin, n)
  {
    RunKeeps(INIT, acts[..n]);
    PutOnce(Run(INIT, acts[..n]), acts[n], m);
  }

  /** How often m has been handed to a handler. */
  function Servings(acts: seq<Action>, m: Msg, n: nat): nat
    requires n <= |acts|
  {
    if n == 0 then 0 else Servings(acts, m, n - 1) + if acts[n - 1] == Serve(m) then 1 else 0
  }

  lemma {:induction false} ServingsLeave(acts: seq<Action>, m: Msg, n: nat)
    requires n <= |acts|
    ensures Servings(acts, m, n) <= AllLeft(acts, n)[m]
  {
    if n > 0 {
      ServingsLeave(acts, m, n - 1);
    }
  }

  /** Over every run the request of a call reaches a handler at most once, and only after it was queued. */
  lemma ServedAtMostOnce(acts: seq<Action>, m: Msg)
    requires Legal(INIT, acts) && !m.response
    ensures Servings(acts, m, |acts|) <= Queuings(acts, m.origin, |acts|) <= 1
  {
    var n := |acts|;
    MessagesAreConserved(acts, n);
    ServingsLeave(acts, m, n);
    RequestsPut(acts, m, n);
    RunQueues(acts, m.origin, n);
    assert AllLeft(acts, n)[m] <= AllPut(acts, n)[m];
  }
}
