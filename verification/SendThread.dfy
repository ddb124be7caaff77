/** The send list and the sending thread of src/rpc_core.cpp. */
module SendThread {
  import opened Names
  import opened IntrusiveList
  import opened Observers
  import LinkProtocol

  // ---- The send list over any interleaving of inserters and the thread ----

  /** Insertions are numbered by their position in the history. */
  datatype Op = Put | Take

  function After(p: seq<nat>, n: nat, op: Op): seq<nat> {
    match op
    case Put => [n] + p
    case Take => if p == [] then [] else p[1..]
  }

  /** The pending insertions, next to be taken first. */
  function Pending(h: seq<Op>): seq<nat> {
    if h == [] then [] else After(Pending(h[..|h| - 1]), |h| - 1, h[|h| - 1])
  }

  function TakenAfter(p: seq<nat>, t: seq<nat>, op: Op): seq<nat> {
    if op.Take? && p != [] then t + [p[0]] else t
  }

  /** The insertions taken so far, in the order they were taken; Take on an empty list waits. */
  function Taken(h: seq<Op>): seq<nat> {
    if h == [] then []
    else TakenAfter(Pending(h[..|h| - 1]), Taken(h[..|h| - 1]), h[|h| - 1])
  }

  /** Every insertion made so far, once each. */
  function Puts(h: seq<Op>): multiset<nat> {
    if h == [] then multiset{}
    else Puts(h[..|h| - 1]) + if h[|h| - 1].Put? then multiset{|h| - 1} else multiset{}
  }

  lemma StepConserves(p: seq<nat>, t: seq<nat>, n: nat, op: Op)
    ensures multiset(TakenAfter(p, t, op)) + multiset(After(p, n, op)) ==
            multiset(t) + multiset(p) + if op.Put? then multiset{n} else multiset{}
  {
    if op.Take? && p != [] {
      assert p == [p[0]] + p[1..];
    }
  }

  /** Whatever has been inserted has been taken or is still pending, once. */
  lemma {:induction false} Conservation(h: seq<Op>)
    ensures Puts(h) == multiset(Taken(h)) + multiset(Pending(h))
  {
    if h != [] {
      var g := h[..|h| - 1];
      Conservation(g);
      StepConserves(Pending(g), Taken(g), |g|, h[|h| - 1]);
    }
  }

  lemma {:induction false} PutsAreDistinct(h: seq<Op>)
    ensures forall x :: Puts(h)[x] <= 1
    ensures forall x :: x in Puts(h) ==> x < |h| && h[x].Put?
  {
    if h != [] {
      var g := h[..|h| - 1];
      PutsAreDistinct(g);
      assert |g| !in Puts(g);
      forall x | x in Puts(h)
        ensures x < |h| && h[x].Put?
      {
        assert x in Puts(g) ==> g[x] == h[x];
      }
    } else {
      assert Puts(h) == multiset{};
    }
  }

  predicate Descending(p: seq<nat>, n: nat) {
    && (forall i :: 0 <= i < |p| ==> p[i] < n)
    && (forall i, j :: 0 <= i < j < |p| ==> p[i] > p[j])
  }

  /** What is taken is the most recent insertion still pending. */
  lemma {:induction false} NewestFirst(h: seq<Op>)
    ensures Descending(Pending(h), |h|)
  {
    if h != [] {
      NewestFirst(h[..|h| - 1]);
    }
  }

  // ---- The list itself ----

  ghost function Messages<M>(s: seq<Entry<M>>): seq<M> {
    seq(|s|, i requires 0 <= i < |s| => s[i].message)
  }

  lemma MessagesOfCons<M>(e: Entry<M>, s: seq<Entry<M>>)
    ensures Messages([e] + s) == [e.message] + Messages(s)
  {
  }

  /** The messages of the given insertions. */
  ghost function Picked<M>(msgs: map<nat, M>, p: seq<nat>): seq<M>
    requires forall i :: 0 <= i < |p| ==> p[i] in msgs
  {
    seq(|p|, i requires 0 <= i < |p| => msgs[p[i]])
  }

  /**
   * A list whose operations so far were h, with `msgs` the messages of its insertions, holds the
   * messages of the pending ones, and those of the taken ones have been taken.
   */
  ghost predicate Records<M>(h: seq<Op>, msgs: map<nat, M>, contents: seq<M>, taken: seq<M>) {
    && (forall x :: x in msgs ==> x < |h|)
    && (forall i :: 0 <= i < |Pending(h)| ==> Pending(h)[i] in msgs)
    && (forall i :: 0 <= i < |Taken(h)| ==> Taken(h)[i] in msgs)
    && contents == Picked(msgs, Pending(h)) && taken == Picked(msgs, Taken(h))
  }

  lemma RecordPut<M>(h: seq<Op>, msgs: map<nat, M>, contents: seq<M>, taken: seq<M>, m: M)
    requires Records(h, msgs, contents, taken)
    ensures Records(h + [Put], msgs[|h| := m], [m] + contents, taken)
  {
    var g := h + [Put];
    assert g[..|h|] == h && Pending(g) == [|h|] + Pending(h) && Taken(g) == Taken(h);
  }

  lemma RecordTake<M>(h: seq<Op>, msgs: map<nat, M>, contents: seq<M>, taken: seq<M>)
    requires Records(h, msgs, contents, taken)
    ensures if contents == [] then Records(h + [Take], msgs, contents, taken)
            else Records(h + [Take], msgs, contents[1..], taken + [contents[0]])
  {
    var g := h + [Take];
    assert g[..|h|] == h;
    if contents != [] {
      assert Pending(g) == Pending(h)[1..] && Taken(g) == Taken(h) + [Pending(h)[0]];
    } else {
      assert Pending(h) == [] && Pending(g) == [] && Taken(g) == Taken(h);
    }
  }

  class SendList<M> {
    const head: Head<M>
    ghost var nodes: seq<Entry<M>>
    ghost var freed: set<Entry<M>>
    // The operations so far, the messages inserted by them, and the messages taken, in order.
    ghost var hist: seq<Op>
    ghost var msgs: map<nat, M>
    ghost var taken: seq<M>

    ghost predicate Valid()
      reads this, head, nodes
    {
      && IsList(head, nodes)
      && (forall e :: e in nodes ==> e !in freed)
      && Records(hist, msgs, Messages(nodes), taken)
    }

    /** The pending messages, next to be taken first. */
    ghost function Contents(): seq<M>
      reads this
    {
      Messages(nodes)
    }

    constructor ()
      ensures Valid() && Contents() == [] && freed == {} && fresh(head) && hist == [] && taken == []
    {
      head := new Head<M>();
      nodes := [];
      freed := {};
      hist, msgs, taken := [], map[], [];
    }

    /** insertSenderNode */
    method Insert(m: M)
      requires Valid()
      modifies this, head, nodes
      ensures Valid() && Contents() == [m] + old(Contents()) && freed == old(freed)
      ensures hist == old(hist) + [Put] && taken == old(taken)
      ensures nodes != [] && fresh(nodes[0]) && nodes[1..] == old(nodes)
    {
      var sender := new Entry<M>(m);
      InsertHead(head, sender, nodes);
      MessagesOfCons(sender, nodes);
      RecordPut(hist, msgs, Messages(nodes), taken, m);
      nodes := [sender] + nodes;
      hist, msgs := hist + [Put], msgs[|hist| := m];
    }

    /** LIST_FIRST and LIST_REMOVE of the thread, under the send mutex; None means it has to wait. */
    method TakeFirst() returns (sender: Entry?<M>)
      requires Valid()
      modifies this`nodes, this`hist, this`taken, head, nodes
      ensures Valid() && freed == old(freed) && hist == old(hist) + [Take]
      ensures taken == old(taken) + if sender == null then [] else [sender.message]
      ensures sender == null <==> old(nodes) == []
      ensures sender == null ==> nodes == []
      ensures sender != null ==>
                && sender == old(nodes)[0] && nodes == old(nodes)[1..]
                && sender !in nodes && sender !in freed
    {
      sender := head.lhFirst;
      RecordTake(hist, msgs, Messages(nodes), taken);
      hist := hist + [Take];
      if sender != null {
        RemoveFirst(sender, head, nodes);
        assert nodes == [sender] + nodes[1..];
        MessagesOfCons(sender, nodes[1..]);
        nodes, taken := nodes[1..], taken + [sender.message];
      }
    }

    /** free(sender) */
    method Free(ghost sender: Entry<M>)
      requires Valid() && sender !in nodes && sender !in freed
      modifies this`freed
      ensures Valid() && freed == old(freed) + {sender}
    {
      freed := freed + {sender};
    }
  }

  // ---- One iteration of RPCCoreThread ----

  datatype Message = Invoke(observed: Name, data: seq<byte>) | Direct(recver: Name, data: seq<byte>)

  /** What one pass through REPEAT_CONNECT meets. */
  datatype Pass<F> = Found(fd: F) | ConnectFailed | LinkFailed(fd: F) | Linked(fd: F)

  /** The connects that fail, and the attempts that lose the link, among the first n passes. */
  function ConnectFailures<F>(env: nat -> Pass<F>, n: nat): nat {
    if n == 0 then 0 else ConnectFailures(env, n - 1) + if env(n - 1).ConnectFailed? then 1 else 0
  }

  function LinkFailures<F>(env: nat -> Pass<F>, n: nat): nat {
    if n == 0 then 0 else LinkFailures(env, n - 1) + if env(n - 1).LinkFailed? then 1 else 0
  }

  /** This pass leads back to REPEAT_CONNECT: a failed connect or a lost link, and no third failure yet. */
  ghost predicate Repeats<F>(env: nat -> Pass<F>, i: nat) {
    (env(i).ConnectFailed? || env(i).LinkFailed?) && ConnectFailures(env, i) < LinkProtocol.RETRIES
  }

  datatype Outcome<F> = Sent(fd: F) | Dropped

  /** Pass n is the last one, and this is how it ends. */
  ghost predicate Ends<F>(env: nat -> Pass<F>, n: nat, r: Outcome<F>) {
    && (forall i {:trigger Repeats(env, i)} :: 0 <= i < n ==> Repeats(env, i))
    && !Repeats(env, n)
    && match env(n)
       case Found(fd) => r == Sent(fd)
       case Linked(fd) => r == if ConnectFailures(env, n) < LinkProtocol.RETRIES then Sent(fd) else Dropped
       case _ => r == Dropped
  }

  lemma {:induction false} FailuresBefore<F>(env: nat -> Pass<F>, n: nat)
    requires forall i {:trigger Repeats(env, i)} :: 0 <= i < n ==> Repeats(env, i)
    ensures ConnectFailures(env, n) <= LinkProtocol.RETRIES
    ensures n == ConnectFailures(env, n) + LinkFailures(env, n)
  {
    if n > 0 {
      FailuresBefore(env, n - 1);
      assert Repeats(env, n - 1);
    }
  }

  /**
   * A message is dropped exactly when three connects have failed and there is still no entry;
   * every pass before the last was a failed connect or a lost link.
   */
  lemma DroppedIff<F>(env: nat -> Pass<F>, n: nat, r: Outcome<F>)
    requires Ends(env, n, r)
    ensures r == Dropped <==> ConnectFailures(env, n) == LinkProtocol.RETRIES && !env(n).Found?
    ensures n <= LinkProtocol.RETRIES + LinkFailures(env, n)
  {
    FailuresBefore(env, n);
  }

  /** How an iteration ends is settled by what its passes meet. */
  lemma EndsOnce<F>(env: nat -> Pass<F>, m: nat, q: Outcome<F>, n: nat, r: Outcome<F>)
    requires Ends(env, m, q) && Ends(env, n, r)
    ensures m == n && q == r
  {
    assert m < n ==> Repeats(env, m);
    assert n < m ==> Repeats(env, n);
  }

  /** One transmission for each connection of the list, in its order. */
  function FanOut<F>(fds: seq<F>, m: Message): seq<(F, Message)> {
    seq(|fds|, i requires 0 <= i < |fds| => (fds[i], m))
  }

  /** Each connection of the list gets the message, in the order of the list. */
  lemma FanOutAt<F>(fds: seq<F>, m: Message)
    ensures |FanOut(fds, m)| == |fds|
    ensures forall i :: 0 <= i < |fds| ==> FanOut(fds, m)[i].0 == fds[i] && FanOut(fds, m)[i].1 == m
  {
  }

  /** How many transmissions go to fd. */
  function SentTo<F(==)>(sends: seq<(F, Message)>, fd: F): nat {
    if sends == [] then 0 else (if sends[0].0 == fd then 1 else 0) + SentTo(sends[1..], fd)
  }

  /** A connection gets the message as many times as it is registered. */
  lemma {:induction false} FanOutCounts<F>(fds: seq<F>, m: Message, fd: F)
    ensures SentTo(FanOut(fds, m), fd) == multiset(fds)[fd]
  {
    if fds != [] {
      FanOutCounts(fds[1..], m, fd);
      FanOutAt(fds, m);
      FanOutAt(fds[1..], m);
      assert FanOut(fds, m)[1..] == FanOut(fds[1..], m);
      assert fds == [fds[0]] + fds[1..];
    }
  }

  /**
   * After any history of the registry, what an invocation of an object sends goes to the
   * registrations that no later event took away: one transmission each, in their order.
   */
  lemma FanOutReachesSurvivors<F(!new)>(h: seq<Event<F>>, observed: Name, m: Message)
    requires Present(h, observed)
    ensures observed in Play(h)
    ensures var fds := Survivors(h, observed, |h|);
            var sent := FanOut(Play(h)[observed], m);
            && |sent| == |fds| && (forall i :: 0 <= i < |fds| ==> sent[i] == (fds[i], m))
            && forall fd :: SentTo(sent, fd) == multiset(fds)[fd]
  {
    RegistryIsItsHistory(h, observed);
    var fds := Survivors(h, observed, |h|);
    FanOutAt(fds, m);
    forall fd
      ensures SentTo(FanOut(fds, m), fd) == multiset(fds)[fd]
    {
      FanOutCounts(fds, m, fd);
    }
  }

  lemma PrefixOneMore<M>(a: seq<M>, p: seq<M>, k: nat)
    requires k < |p|
    ensures a + p[..k] + [p[k]] == a + p[..k + 1]
  {
  }

  class Sender<F(==)> {
    const list: SendList<Message>
    const observers: ObserverHash<F>
    // What went to COMMDriver::send, how many connections were disconnected, what was released.
    ghost var sends: seq<(F, Message)>
    ghost var disconnects: nat
    ghost var released: seq<Message>

    ghost predicate Valid()
      reads this, list, list.head, list.nodes, observers
    {
      list.Valid() && observers.Valid()
    }

    constructor (l: SendList<Message>, o: ObserverHash<F>)
      requires l.Valid() && o.Valid()
      ensures Valid() && list == l && observers == o
      ensures sends == [] && disconnects == 0 && released == []
    {
      list, observers := l, o;
      sends, disconnects, released := [], 0, [];
    }

    /** COMMDriver::send */
    method Send(ghost fd: F, ghost m: Message)
      modifies this`sends
      ensures sends == old(sends) + [(fd, m)]
    {
      sends := sends + [(fd, m)];
    }

    /** FREE_MEMORY: the message and then its node, once each. */
    method FreeMemory(ghost sender: Entry<Message>)
      requires Valid() && sender !in list.nodes && sender !in list.freed
      modifies this`released, list`freed
      ensures Valid() && released == old(released) + [sender.message]
      ensures list.freed == old(list.freed) + {sender}
    {
      released := released + [sender.message];
      list.Free(sender);
    }

    /** Lines 1044-1063: every observer of the object gets the message. */
    method Notify(observed: Name, m: Message)
      requires Valid()
      modifies this`sends
      ensures sends == old(sends) +
                       FanOut(if observed in observers.Contents() then observers.Contents()[observed] else [], m)
    {
      var listPtr := observers.Find(observed);
      if listPtr.None? || listPtr.value.items == [] {
        return;
      }
      var fds := listPtr.value.items;
      var i := 0;
      while i < |fds|
        invariant 0 <= i <= |fds|
        invariant sends == old(sends) + FanOut(fds[..i], m)
      {
        Send(fds[i], m);
        i := i + 1;
        assert FanOut(fds[..i], m) == FanOut(fds[..i - 1], m) + [(fds[i - 1], m)];
      }
      assert fds[..i] == fds;
    }

    /**
     * REPEAT_CONNECT to REPEAT_SEND.  `env` says what each pass meets; the link is lost no more
     * than `budget` times.
     */
    method Route(m: Message, env: nat -> Pass<F>, ghost budget: nat) returns (r: Outcome<F>, n: nat)
      requires Valid()
      requires forall i: nat :: LinkFailures(env, i) <= budget
      modifies this`sends, this`disconnects
      ensures Ends(env, n, r) && n <= LinkProtocol.RETRIES + budget
      ensures sends == old(sends) + if r.Sent? then [(r.fd, m)] else []
      ensures disconnects == old(disconnects) + LinkFailures(env, n)
    {
      var connectCount := 0;
      n := 0;
      while true
        invariant connectCount == ConnectFailures(env, n) <= LinkProtocol.RETRIES
        invariant forall i {:trigger Repeats(env, i)} :: 0 <= i < n ==> Repeats(env, i)
        invariant sends == old(sends)
        invariant disconnects == old(disconnects) + LinkFailures(env, n)
        invariant n <= connectCount + LinkFailures(env, n)
        decreases budget - LinkFailures(env, n), LinkProtocol.RETRIES - connectCount
      {
        assert LinkFailures(env, n) <= budget && LinkFailures(env, n + 1) <= budget;
        match env(n) {
          case Found(fd) =>
            Send(fd, m);
            return Sent(fd), n;
          case _ =>
        }
        if connectCount == LinkProtocol.RETRIES {
          return Dropped, n;
        }
        match env(n) {
          case ConnectFailed =>
            connectCount := connectCount + 1;
          case LinkFailed(_) =>
            disconnects := disconnects + 1;
          case Linked(fd) =>
            Send(fd, m);
            return Sent(fd), n;
        }
        assert Repeats(env, n);
        n := n + 1;
      }
    }

    /** What is done with a message between its being taken and released. */
    method Process(m: Message, env: nat -> Pass<F>, ghost budget: nat) returns (r: Option<Outcome<F>>, n: nat)
      requires Valid()
      requires forall i: nat :: LinkFailures(env, i) <= budget
      modifies this`sends, this`disconnects
      ensures match m
              case Invoke(o, _) =>
                r == None && sends == old(sends) +
                  FanOut(if o in observers.Contents() then observers.Contents()[o] else [], m)
              case Direct(_, _) =>
                && r.Some? && Ends(env, n, r.value) && n <= LinkProtocol.RETRIES + budget
                && sends == old(sends) + (if r.value.Sent? then [(r.value.fd, m)] else [])
                && disconnects == old(disconnects) + LinkFailures(env, n)
    {
      r, n := None, 0;
      match m {
        case Invoke(observed, _) =>
          Notify(observed, m);
        case Direct(_, _) =>
          var o;
          o, n := Route(m, env, budget);
          r := Some(o);
      }
    }

    /**
     * One iteration of the thread's loop.  If a message is pending the newest is taken and,
     * whichever way the iteration goes, released once, and its node freed once.
     */
    method Iterate(env: nat -> Pass<F>, ghost budget: nat) returns (r: Option<Outcome<F>>, n: nat)
      requires Valid()
      requires forall i: nat :: LinkFailures(env, i) <= budget
      modifies this, list, list.head, list.nodes
      ensures Valid() && unchanged(observers)
      ensures old(released) == old(list.taken) ==> released == list.taken
      ensures old(list.Contents()) == [] ==>
                r == None && list.Contents() == [] && released == old(released) && sends == old(sends)
                && list.freed == old(list.freed)
      ensures old(list.Contents()) != [] ==>
                var m := old(list.Contents())[0];
                && list.Contents() == old(list.Contents())[1..]
                && released == old(released) + [m]
                && old(list.nodes)[0] !in old(list.freed)
                && list.freed == old(list.freed) + {old(list.nodes)[0]}
                && match m
                   case Invoke(o, _) =>
                     r == None && sends == old(sends) +
                       FanOut(if o in observers.Contents() then observers.Contents()[o] else [], m)
                   case Direct(_, _) =>
                     && r.Some? && Ends(env, n, r.value) && n <= LinkProtocol.RETRIES + budget
                     && sends == old(sends) + (if r.value.Sent? then [(r.value.fd, m)] else [])
                     && disconnects == old(disconnects) + LinkFailures(env, n)
    {
      r, n := None, 0;
      var sender := list.TakeFirst();
      if sender == null {
        return;
      }
      var m := sender.message;
      assert old(list.nodes) == [sender] + list.nodes;
      MessagesOfCons(sender, list.nodes);
      r, n := Process(m, env, budget);
      FreeMemory(sender);
    }

    /** One turn of the drain below. */
    method ReleaseFirst() returns (more: bool)
      requires Valid()
      modifies this`released, list, list.head, list.nodes
      ensures Valid() && more == (old(list.nodes) != [])
      ensures !more ==>
                && list.nodes == [] && released == old(released)
                && list.taken == old(list.taken) && list.freed == old(list.freed)
      ensures more ==>
                && list.nodes == old(list.nodes)[1..] && list.Contents() == old(list.Contents())[1..]
                && released == old(released) + [old(list.Contents())[0]]
                && list.taken == old(list.taken) + [old(list.Contents())[0]]
                && list.freed == old(list.freed) + {old(list.nodes)[0]}
    {
      var sender := list.TakeFirst();
      more := sender != null;
      if more {
        assert old(list.nodes) == [sender] + list.nodes;
        MessagesOfCons(sender, list.nodes);
        FreeMemory(sender);
      }
    }

    /** The drain of runUntilAskedToQuit: whatever is still pending is released. */
    method Drain()
      requires Valid()
      modifies this`released, list, list.head, list.nodes
      ensures Valid() && list.Contents() == []
      ensures released == old(released) + old(list.Contents())
      ensures old(released) == old(list.taken) ==> released == list.taken
      ensures forall e :: e in list.freed <==> e in old(list.freed) || e in old(list.nodes)
    {
      ghost var all, pending, before, k := list.nodes, list.Contents(), released, 0;
      assert before + pending[..0] == before;
      var more := true;
      while more
        invariant Valid() && k <= |all| == |pending| && list.nodes == all[k..] && list.Contents() == pending[k..]
        invariant released == before + pending[..k]
        invariant before == old(list.taken) ==> released == list.taken
        invariant forall i :: 0 <= i < k ==> all[i] in list.freed
        invariant forall e :: e in list.freed ==> e in old(list.freed) || e in all
        invariant forall e :: e in old(list.freed) ==> e in list.freed
        invariant !more ==> k == |all|
        decreases |all| - k, more
      {
        assert forall i :: k <= i < |all| ==> all[i] == list.nodes[i - k];
        more := ReleaseFirst();
        if more {
          PrefixOneMore(before, pending, k);
          k := k + 1;
        }
      }
      assert pending[..k] == pending;
    }
  }
}
