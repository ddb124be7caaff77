/**
 * What the callers get, over all runs: for a process whose lookups in m_proxy_hash never overlap
 * each call gets its own response, and one overlap is enough to give it another call's.
 */
module Responses {
  import opened Names
  import opened Tables
  import opened Correlation

  // ---- Overlapping lookups ----

  /** UINTHash::find keeps its iterator in the table, and a read lock keeps no other reader out. */
  ghost predicate Overlapping(s: State, a: Action, p: Name) { a.Seek? && a.m.recver == p && Reading(s, p) }

  /** How many lookups in the table of p begin while another one is between its two steps. */
  ghost function Overlaps(s: State, acts: seq<Action>, p: Name): nat
    requires Legal(s, acts)
    decreases |acts|
  {
    if acts == [] then 0
    else (if Overlapping(s, acts[0], p) then 1 else 0) + Overlaps(Apply(s, acts[0]), acts[1..], p)
  }

  // ---- Without them every call gets its own response ----

  /** m answers call k and no other. */
  predicate AnswerOf(k: Key, c: Call, m: Msg) {
    m.response && m.origin == k && m == Response(c.request, m.data)
  }

  predicate OwnCall(k: Key, c: Call) {
    && (c.stored.Some? ==> AnswerOf(k, c, c.stored.value))
    && (Finished(c.phase) && c.phase.read.Some? ==> AnswerOf(k, c, c.phase.read.value))
  }

  ghost predicate OwnCalls(calls: map<Key, Call>, p: Name) {
    forall k :: k in calls && k.proc == p ==> OwnCall(k, calls[k])
  }

  ghost predicate OwnFound(found: multiset<(Key, Msg)>, p: Name) {
    forall f :: f in found && f.1.recver == p ==> f.0 == f.1.origin
  }

  /** The iterator stands where each reader has put it. */
  ghost predicate OwnCursor(s: State, p: Name) { Steady(s.pending, s.seeking, Cursor(s, p), p) }

  ghost predicate Steady(pending: map<(Name, uint32), Key>, seeking: multiset<Msg>, c: Option<Key>, p: Name) {
    forall m :: m in seeking && m.recver == p ==>
      c == if (p, m.id) in pending then Some(pending[(p, m.id)]) else None
  }

  ghost predicate Own(s: State, p: Name) { OwnCalls(s.calls, p) && OwnFound(s.found, p) && OwnCursor(s, p) }

  lemma CallsKeep(s: State, a: Action, p: Name)
    requires Inv(s) && Own(s, p) && Enabled(s, a)
    ensures OwnCalls(Apply(s, a).calls, p)
  {
    forall k | k in Apply(s, a).calls && k.proc == p
      ensures OwnCall(k, Apply(s, a).calls[k])
    {
      if Subject(s, a) != Some(k) {
        OthersStay(s, a, k);
      } else {
        SubjectOwn(s, a, k);
      }
    }
  }

  lemma SubjectOwn(s: State, a: Action, k: Key)
    requires Inv(s) && Own(s, k.proc) && Enabled(s, a) && Subject(s, a) == Some(k)
    ensures k in Apply(s, a).calls && OwnCall(k, Apply(s, a).calls[k])
  {
    if a.Store? {
      StoreOwn(s, k, a.m);
    } else if !a.GetId? {
      SubjectMoves(s, a, k);
      SubjectReads(s, a, k);
    }
  }

  lemma StoreOwn(s: State, k: Key, m: Msg)
    requires Inv(s) && Own(s, k.proc) && (k, m) in s.found && k in s.calls
    ensures OwnCall(k, StoreCall(s.calls[k], m))
  {
    FoundLess(s.calls, s.last, s.found, k, m);
    LookupIsOrigin(s, m);
    assert (k, m).0 == (k, m).1.origin;
  }

  lemma FoundStays(s: State, a: Action)
    requires Enabled(s, a) && !a.Fetch?
    ensures Apply(s, a).found <= s.found
  {
  }

  lemma FetchFound(s: State, m: Msg, p: Name)
    requires Inv(s) && Own(s, p) && m in s.seeking
    ensures m.recver == p && Cursor(s, p).Some? ==> Cursor(s, p).value == m.origin
  {
    SeekingLess(s.calls, s.last, s.seeking, s.cursor, m);
    LookupIsOrigin(s, m);
  }

  lemma FoundKeep(s: State, a: Action, p: Name)
    requires Inv(s) && Own(s, p) && Enabled(s, a)
    ensures OwnFound(Apply(s, a).found, p)
  {
    if a.Fetch? {
      FetchFound(s, a.m, p);
      OwnMore(s.found, p, Cursor(s, a.m.recver), a.m);
    } else {
      FoundStays(s, a);
    }
  }

  lemma OwnMore(found: multiset<(Key, Msg)>, p: Name, c: Option<Key>, m: Msg)
    requires OwnFound(found, p) && (m.recver == p && c.Some? ==> c.value == m.origin)
    ensures c.Some? ==> OwnFound(found + multiset{(c.value, m)}, p)
  {
    if c.Some? {
      assert (c.value, m).0 == c.value && (c.value, m).1 == m;
    }
  }

  lemma LookupsStay(s: State, a: Action)
    requires Enabled(s, a) && !a.Seek? && !a.Fetch? && !a.Register? && !a.Retire?
    ensures var t := Apply(s, a); t.seeking == s.seeking && t.cursor == s.cursor && t.pending == s.pending
  {
    match a
    case GetId(_, _, _, _, _, _) =>
    case OtherId(_) =>
    case Lock(_) =>
    case Queue(_) =>
    case Begin(_) =>
    case Expire(_) =>
    case Resume(_) =>
    case Reject(_) =>
    case Serve(_) =>
    case Respond(_, _) =>
    case Done(_) =>
    case Store(_, _) =>
    case Lose(_) =>
  }

  /** The write lock: no lookup of the same table is between its steps. */
  lemma WriteKeeps(s: State, a: Action, p: Name)
    requires OwnCursor(s, p) && Enabled(s, a) && (a.Register? || a.Retire?)
    ensures OwnCursor(Apply(s, a), p)
  {
    var t := Apply(s, a);
    assert t.seeking == s.seeking && t.cursor == s.cursor;
    forall m | m in s.seeking && m.recver == p
      ensures (p, m.id) != (a.k.proc, IdOf(a.k))
    {
      assert Reading(s, p);
    }
  }

  lemma SteadyMore(pending: map<(Name, uint32), Key>, seeking: multiset<Msg>, c: Option<Key>, p: Name, m: Msg)
    requires if m.recver == p then forall x :: x in seeking ==> x.recver != p else Steady(pending, seeking, c, p)
    requires m.recver == p ==> c == if (p, m.id) in pending then Some(pending[(p, m.id)]) else None
    ensures Steady(pending, seeking + multiset{m}, c, p)
  {
    forall x | x in seeking + multiset{m} && x.recver == p
      ensures c == if (p, x.id) in pending then Some(pending[(p, x.id)]) else None
    {
      assert x == m || x in seeking;
    }
  }

  lemma SteadyLess(pending: map<(Name, uint32), Key>, seeking: multiset<Msg>, c: Option<Key>, p: Name, m: Msg)
    requires Steady(pending, seeking, c, p)
    ensures Steady(pending, seeking - multiset{m}, c, p)
  {
  }

  lemma SeekOwn(s: State, m: Msg, p: Name)
    requires OwnCursor(s, p) && (m.recver == p ==> !Reading(s, p))
    ensures OwnCursor(SeekStep(s, m), p)
  {
    SteadyMore(s.pending, s.seeking, Cursor(SeekStep(s, m), p), p, m);
  }

  lemma FetchOwn(s: State, m: Msg, p: Name)
    requires OwnCursor(s, p)
    ensures OwnCursor(FetchStep(s, m), p)
  {
    SteadyLess(s.pending, s.seeking, Cursor(s, p), p, m);
  }

  lemma CursorKeeps(s: State, a: Action, p: Name)
    requires OwnCursor(s, p) && Enabled(s, a) && !Overlapping(s, a, p)
    ensures OwnCursor(Apply(s, a), p)
  {
    if a.Seek? {
      SeekOwn(s, a.m, p);
    } else if a.Fetch? {
      FetchOwn(s, a.m, p);
    } else if a.Register? || a.Retire? {
      WriteKeeps(s, a, p);
    } else {
      LookupsStay(s, a);
    }
  }

  lemma OwnKeeps(s: State, a: Action, p: Name)
    requires Inv(s) && Own(s, p) && Enabled(s, a) && !Overlapping(s, a, p)
    ensures Own(Apply(s, a), p)
  {
    CallsKeep(s, a, p);
    FoundKeep(s, a, p);
    CursorKeeps(s, a, p);
  }

  lemma {:induction false} RunOwn(s: State, acts: seq<Action>, p: Name)
    requires Inv(s) && Own(s, p) && Legal(s, acts) && Overlaps(s, acts, p) == 0
    ensures Own(Run(s, acts), p)
    decreases |acts|
  {
    if acts != [] {
      StepKeeps(s, acts[0]);
      OwnKeeps(s, acts[0], p);
      RunOwn(Apply(s, acts[0]), acts[1..], p);
    }
  }

  /**
   * Over every run in which the lookups of a process do not overlap: a response stored in the
   * proxy of one of its calls, at whatever time, was built for that call's own request, with its
   * id, its module and function, and sender and receiver swapped.
   */
  lemma ResponsesReachTheirCall(acts: seq<Action>, k: Key)
    requires Legal(INIT, acts) && k in Run(INIT, acts).calls && Overlaps(INIT, acts, k.proc) == 0
    ensures var c := Run(INIT, acts).calls[k];
            c.stored.Some? ==>
              var m := c.stored.value;
              && m.response && m.origin == k
              && m.id == c.request.id == IdOf(k)
              && m.sender == c.request.recver && m.recver == c.request.sender == k.proc
              && m.mod == c.request.mod && m.func == c.request.func
  {
    RunKeeps(INIT, acts);
    RunOwn(INIT, acts, k.proc);
    var s := Run(INIT, acts);
    assert RowOk(s.last, k, s.calls[k]) && OwnCall(k, s.calls[k]);
  }

  /**
   * No wakeup is lost, over every run: a response is stored only once the caller has begun to
   * wait, and a two-way call that returns success has read one; without overlapping lookups it
   * is its own.
   */
  lemma NoLostWakeup(acts: seq<Action>, k: Key)
    requires Legal(INIT, acts) && k in Run(INIT, acts).calls
    ensures var c := Run(INIT, acts).calls[k];
            && (c.stored.Some? ==> !Early(c.phase) && !c.phase.Queued? && !c.phase.Waiting?)
            && (c.phase.Signalled? ==> c.stored.Some?)
            && (Finished(c.phase) && c.phase.result == 0 && !c.oneWay ==>
                  c.phase.read.Some? && (Overlaps(INIT, acts, k.proc) == 0 ==> c.phase.read.value.origin == k))
  {
    RunKeeps(INIT, acts);
    var s := Run(INIT, acts);
    assert RowOk(s.last, k, s.calls[k]);
    if Overlaps(INIT, acts, k.proc) == 0 {
      RunOwn(INIT, acts, k.proc);
      assert OwnCall(k, s.calls[k]);
    }
  }

  // ---- What a caller reads ----

  /** The message the latest of the first n actions that wrote into the proxy of k wrote there. */
  function LastStored(acts: seq<Action>, k: Key, n: nat): Option<Msg>
    requires n <= |acts|
  {
    if n == 0 then None
    else if acts[n - 1].Store? && acts[n - 1].k == k then Some(acts[n - 1].m)
    else LastStored(acts, k, n - 1)
  }

  /** The first n steps of a run, and the one after them. */
  lemma {:induction false} Prefix(s: State, acts: seq<Action>, n: nat)
    requires Legal(s, acts) && n < |acts|
    ensures Legal(s, acts[..n]) && Legal(s, acts[..n + 1]) && Legal(s, acts)
    ensures var t := Run(s, acts[..n]);
            && Enabled(t, acts[n]) && (acts[n].GetId? ==> Room(t, acts[n].p))
            && Run(s, acts[..n + 1]) == Apply(t, acts[n])
            && Legal(Apply(t, acts[n]), acts[n + 1..])
            && Run(Apply(t, acts[n]), acts[n + 1..]) == Run(s, acts)
    decreases n
  {
    if n == 0 {
      assert acts[..0] == [] && acts[..1][1..] == [];
    } else {
      var rest := acts[1..];
      assert acts[..n][1..] == rest[..n - 1] && acts[..n + 1][1..] == rest[..n];
      assert acts[n] == rest[n - 1] && rest[n..] == acts[n + 1..];
      Prefix(Apply(s, acts[0]), rest, n - 1);
    }
  }

  function StoredIn(s: State, k: Key): Option<Msg> { if k in s.calls then s.calls[k].stored else None }

  predicate Finished(p: Phase) { p.Returned? || p.Retired? }

  predicate Same(p: Phase, q: Phase)
    requires Finished(p)
  {
    Finished(q) && q.result == p.result && q.read == p.read
  }

  /** The call a step is about. */
  function Subject(s: State, a: Action): Option<Key> {
    match a
    case GetId(p, _, _, _, _, _) => Some(Key(p, Frame(s, p)))
    case OtherId(_) => None
    case Register(k) => Some(k)
    case Lock(k) => Some(k)
    case Queue(k) => Some(k)
    case Begin(k) => Some(k)
    case Expire(k) => Some(k)
    case Resume(k) => Some(k)
    case Retire(k) => Some(k)
    case Reject(k) => Some(k)
    case Store(k, _) => Some(k)
    case _ => None
  }

  /** A step changes no other call. */
  lemma OthersStay(s: State, a: Action, k: Key)
    requires Enabled(s, a) && Subject(s, a) != Some(k)
    ensures k in Apply(s, a).calls <==> k in s.calls
    ensures k in s.calls ==> Apply(s, a).calls[k] == s.calls[k]
  {
  }

  /** What a step makes of the call it is about, once there is one. */
  lemma SubjectMoves(s: State, a: Action, k: Key)
    requires Enabled(s, a) && Subject(s, a) == Some(k) && !a.GetId?
    ensures k in s.calls && k in Apply(s, a).calls
    ensures Apply(s, a).calls[k].stored == if a.Store? then Some(a.m) else s.calls[k].stored
    ensures Finished(s.calls[k].phase) ==> Same(s.calls[k].phase, Apply(s, a).calls[k].phase)
  {
    if !a.Store? {
      match a
      case Register(_) =>
      case Lock(_) =>
      case Queue(_) =>
      case Begin(_) =>
      case Expire(_) =>
      case Resume(_) =>
      case Retire(_) =>
      case Reject(_) =>
    }
  }

  /** What a step makes of what the call it is about has read. */
  lemma SubjectReads(s: State, a: Action, k: Key)
    requires Enabled(s, a) && Subject(s, a) == Some(k) && !a.GetId? && !a.Store?
    ensures k in s.calls && k in Apply(s, a).calls
    ensures var c, d := s.calls[k], Apply(s, a).calls[k];
            && d.request == c.request
            && (Finished(d.phase) && !Finished(c.phase) ==> d.phase.read == None || d.phase.read == c.stored)
  {
    match a
    case Register(_) =>
    case Lock(_) =>
    case Queue(_) =>
    case Begin(_) =>
    case Expire(_) =>
    case Resume(_) =>
    case Retire(_) =>
    case Reject(_) =>
  }

  lemma StepStores(s: State, a: Action, k: Key)
    requires Inv(s) && Enabled(s, a)
    ensures StoredIn(Apply(s, a), k) == if a.Store? && a.k == k then Some(a.m) else StoredIn(s, k)
  {
    if Subject(s, a) != Some(k) {
      OthersStay(s, a, k);
    } else if a.GetId? {
      GetIdFresh(s, k);
    } else {
      SubjectMoves(s, a, k);
    }
  }

  /** What a proxy holds is what was last written into it. */
  lemma {:induction false} StoredIsLast(acts: seq<Action>, k: Key, n: nat)
    requires Legal(INIT, acts) && n <= |acts|
    ensures Legal(INIT, acts[..n]) && StoredIn(Run(INIT, acts[..n]), k) == LastStored(acts, k, n)
  {
    if n > 0 {
      Prefix(INIT, acts, n - 1);
      StoredIsLast(acts, k, n - 1);
      var s := Run(INIT, acts[..n - 1]);
      assert StoredIn(Apply(s, acts[n - 1]), k) ==
             if acts[n - 1].Store? && acts[n - 1].k == k then Some(acts[n - 1].m) else StoredIn(s, k) by {
        RunKeeps(INIT, acts[..n - 1]);
        StepStores(s, acts[n - 1], k);
      }
    }
  }

  lemma StepFinished(s: State, a: Action, k: Key)
    requires Inv(s) && Enabled(s, a) && k in s.calls && Finished(s.calls[k].phase)
    ensures k in Apply(s, a).calls
    ensures Same(s.calls[k].phase, Apply(s, a).calls[k].phase)
  {
    if Subject(s, a) != Some(k) {
      OthersStay(s, a, k);
    } else if a.GetId? {
      GetIdFresh(s, k);
    } else {
      SubjectMoves(s, a, k);
    }
  }

  /** What a call has returned with does not change any more, whatever is still written into its proxy. */
  lemma {:induction false} FinishedStays(s: State, acts: seq<Action>, k: Key)
    requires Inv(s) && Legal(s, acts) && k in s.calls && Finished(s.calls[k].phase)
    ensures k in Run(s, acts).calls
    ensures Same(s.calls[k].phase, Run(s, acts).calls[k].phase)
    decreases |acts|
  {
    if acts != [] {
      StepKeeps(s, acts[0]);
      StepFinished(s, acts[0], k);
      FinishedStays(Apply(s, acts[0]), acts[1..], k);
    }
  }

  /**
   * Over every run: a call whose wait ended at step j, signalled or expired, returns for good
   * with the message last stored in its proxy before that step, and with none exactly if nothing
   * had been stored.  Without overlapping lookups the message answers this call.
   */
  lemma WaitReadsLastStored(acts: seq<Action>, k: Key, j: nat)
    requires Legal(INIT, acts) && j < |acts| && acts[j] == Resume(k)
    ensures k in Run(INIT, acts).calls
    ensures var c := Run(INIT, acts).calls[k];
            && Finished(c.phase) && c.phase.read == LastStored(acts, k, j)
            && (c.phase.read.Some? <==> exists i :: 0 <= i < j && acts[i].Store? && acts[i].k == k)
            && (c.phase.read.Some? && Overlaps(INIT, acts, k.proc) == 0 ==> AnswerOf(k, c, c.phase.read.value))
  {
    Prefix(INIT, acts, j);
    StoredIsLast(acts, k, j);
    var s := Run(INIT, acts[..j]);
    RunKeeps(INIT, acts[..j]);
    StepKeeps(s, acts[j]);
    FinishedStays(Apply(s, acts[j]), acts[j + 1..], k);
    StoredIffStore(acts, k, j);
    if Overlaps(INIT, acts, k.proc) == 0 {
      RunOwn(INIT, acts, k.proc);
      assert OwnCall(k, Run(INIT, acts).calls[k]);
    }
  }

  lemma {:induction false} StoredIffStore(acts: seq<Action>, k: Key, n: nat)
    requires n <= |acts|
    ensures LastStored(acts, k, n).Some? <==> exists i :: 0 <= i < n && acts[i].Store? && acts[i].k == k
  {
    if n > 0 {
      StoredIffStore(acts, k, n - 1);
    }
  }

  /** Over every run the ignored result of the insert into the pending table is success. */
  lemma PendingIdsAreFresh(acts: seq<Action>, k: Key)
    requires Legal(INIT, acts) && Enabled(Run(INIT, acts), Register(k))
    ensures (k.proc, IdOf(k)) !in Run(INIT, acts).pending
  {
    RunKeeps(INIT, acts);
    RegisterSucceeds(Run(INIT, acts), k);
  }

  /** Ids repeat every 2^32 calls and not before. */
  lemma IdsRepeatIff(j: Key, k: Key)
    ensures IdOf(j) == IdOf(k) <==> (j.issue - k.issue) % WIDTH == 0
  {
    var a, b := j.issue, k.issue;
    var q, r := a / WIDTH - b / WIDTH, a % WIDTH - b % WIDTH;
    assert a - b == q * WIDTH + r;
    assert -WIDTH < r < WIDTH;
    ModuloOfSum(q, r);
  }

  lemma ModuloOfSum(q: int, r: int)
    requires -WIDTH < r < WIDTH
    ensures (q * WIDTH + r) % WIDTH == 0 <==> r == 0
  {
    var x := q * WIDTH + r;
    var d := x / WIDTH;
    assert x == d * WIDTH + x % WIDTH;
    if x % WIDTH == 0 {
      assert (d - q) * WIDTH == r;
    }
  }
}
