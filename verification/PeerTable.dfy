/** The peer table m_process_connect_hash and the observer registry of one process, as the code updates them. */
module PeerTable {
  import opened Names
  import opened Tables
  import Obs = Observers
  import LinkProtocol

  datatype State<F> = State(peers: map<Name, F>, observers: Obs.Registry<F>)

  /** What requestLink finds in the proxy once wait has returned. */
  datatype Reply<F> = NoReply | Reply(keep: nat, via: F)

  datatype Op<F> =
    | Enter(recver: Name, fd: F)                       // requestLink, before the request is sent
    | Recheck(recver: Name, fd: F, reply: Reply<F>)    // requestLink, after wait
    | Respond(sender: Name, fd: F)                     // responseLink
    | Disconnect(fd: F)                                // COMMEventDisconnect, own or passive
    | Observe(e: Obs.Event<F>)                         // any operation on the registry

  function Find<F>(m: map<Name, F>, n: Name): Option<F> { if n in m then Some(m[n]) else None }

  ghost function Step<F(!new)>(me: Name, s: State<F>, op: Op<F>): State<F> {
    match op
    case Enter(recver, fd) => s.(peers := Inserted(s.peers, recver, fd))
    case Recheck(recver, fd, reply) =>
      if Find(s.peers, recver) != Some(fd) then s
      else (match reply
            case NoReply => s.(peers := s.peers - {recver})
            case Reply(keep, via) => if keep == 0 then s.(peers := s.peers[recver := via]) else s)
    case Respond(sender, fd) =>
      if sender in s.peers && Less(me, sender) then s else s.(peers := s.peers[sender := fd])
    case Disconnect(fd) =>
      s.(peers := RemovedFirst(s.peers, fd), observers := Obs.Step(s.observers, Obs.Disconnect(fd)))
    case Observe(e) => s.(observers := Obs.Step(s.observers, e))
  }

  ghost function Run<F(!new)>(me: Name, ops: seq<Op<F>>): State<F> {
    if ops == [] then State(map[], map[]) else Step(me, Run(me, ops[..|ops| - 1]), ops[|ops| - 1])
  }

  /** `ends` says which process is at the other end of a connection; the names used are the true ones. */
  predicate Truthful<F>(op: Op<F>, ends: F -> Name) {
    match op
    case Enter(recver, fd) => ends(fd) == recver
    case Recheck(recver, fd, reply) => reply.Reply? ==> ends(reply.via) == recver
    case Respond(sender, fd) => ends(fd) == sender
    case _ => true
  }

  ghost predicate Sound<F(!new)>(s: State<F>, ends: F -> Name) {
    forall n :: n in s.peers ==> ends(s.peers[n]) == n
  }

  lemma StepKeepsSound<F(!new)>(me: Name, s: State<F>, op: Op<F>, ends: F -> Name)
    requires Sound(s, ends) && Truthful(op, ends)
    ensures Sound(Step(me, s, op), ends)
  {
    if op.Disconnect? && op.fd in s.peers.Values {
      FirstExists(s.peers, op.fd);
    }
  }

  /** Over every run with truthful names an entry is a connection with the process it is filed under. */
  lemma {:induction false} PeerTableIsSound<F(!new)>(me: Name, ops: seq<Op<F>>, ends: F -> Name)
    requires forall i :: 0 <= i < |ops| ==> Truthful(ops[i], ends)
    ensures Sound(Run(me, ops), ends)
  {
    if ops != [] {
      PeerTableIsSound(me, ops[..|ops| - 1], ends);
      StepKeepsSound(me, Run(me, ops[..|ops| - 1]), ops[|ops| - 1], ends);
    }
  }

  /**
   * So no two names share a connection, the first-match removal of a disconnect removes every
   * entry there is, and no observer list keeps the connection either; nobody else's entry goes.
   */
  lemma DisconnectForgets<F(!new)>(me: Name, ops: seq<Op<F>>, ends: F -> Name, fd: F)
    requires forall i :: 0 <= i < |ops| ==> Truthful(ops[i], ends)
    ensures var s := Run(me, ops);
            var t := Step(me, s, Disconnect(fd));
            && HeldOnce(s.peers, fd)
            && fd !in t.peers.Values
            && (forall key :: key in t.observers ==> fd !in t.observers[key])
            && (forall n :: n in s.peers && s.peers[n] != fd ==> n in t.peers && t.peers[n] == s.peers[n])
  {
    var s := Run(me, ops);
    PeerTableIsSound(me, ops, ends);
    RemovedFirstClears(s.peers, fd);
    Obs.DisconnectClears(s.observers, fd);
    if fd in s.peers.Values {
      FirstExists(s.peers, fd);
    }
  }

  /** With a lie the removal can miss: an entry stays behind exactly when two names hold the connection. */
  lemma DisconnectMissesIff<F(!new)>(me: Name, s: State<F>, fd: F)
    ensures fd in Step(me, s, Disconnect(fd)).peers.Values <==> !HeldOnce(s.peers, fd)
  {
    RemovedFirstClears(s.peers, fd);
  }

  // ---- The code, and the protocol steps it takes ----

  /** What responseLink does to the entry of the sender, and where its reply goes, is RespondStep. */
  lemma RespondIsProtocolStep(me: Name, s: State<LinkProtocol.Conn>, x: LinkProtocol.Proc, sender: Name,
                              id: nat, fd: LinkProtocol.Conn)
    requires x.name == me && x.table == Find(s.peers, sender)
    ensures var y := LinkProtocol.RespondStep(x, sender, id, fd);
            var t := Step(me, s, Respond(sender, fd));
            && y.table == Find(t.peers, sender)
            && y.event == LinkProtocol.Replying(id, ReplyOn(me, s.peers, sender, fd))
            && (forall n :: n != sender ==> Find(t.peers, n) == Find(s.peers, n))
  {
  }

  lemma EnterIsProtocolStep(me: Name, s: State<LinkProtocol.Conn>, x: LinkProtocol.Proc, recver: Name, id: nat)
    requires x.table == Find(s.peers, recver) && x.thread.Busy? && x.thread.pc.Connected?
    ensures var y := LinkProtocol.EnterStep(x, id);
            var t := Step(me, s, Enter(recver, x.thread.pc.c));
            && y.table == Find(t.peers, recver)
            && (y.thread.pc.Inserted? <==> recver !in s.peers)
            && (forall n :: n != recver ==> Find(t.peers, n) == Find(s.peers, n))
  {
  }

  lemma RecheckIsProtocolStep(me: Name, s: State<LinkProtocol.Conn>, x: LinkProtocol.Proc, recver: Name)
    requires x.table == Find(s.peers, recver) && x.thread.Busy? && x.thread.pc.Woken?
    ensures var y := LinkProtocol.RecheckStep(x);
            var a := x.thread.pc.answer;
            var reply := if a.Answered? then Reply(a.keep, a.via) else NoReply;
            var t := Step(me, s, Recheck(recver, x.thread.pc.c, reply));
            && y.table == Find(t.peers, recver)
            && (y.thread.pc.Ready? <==> RecheckResult(s.peers, recver, x.thread.pc.c, reply) == 0)
            && (forall n :: n != recver ==> Find(t.peers, n) == Find(s.peers, n))
  {
  }

  /** The connection responseLink replies on. */
  function ReplyOn<F>(me: Name, peers: map<Name, F>, sender: Name, fd: F): F {
    if sender in peers && Less(me, sender) then peers[sender] else fd
  }

  function RecheckResult<F(==)>(peers: map<Name, F>, recver: Name, fd: F, reply: Reply<F>): int {
    if Find(peers, recver) != Some(fd) then 1
    else match reply
      case NoReply => -1
      case Reply(keep, _) => if keep == 0 then 1 else 0
  }

  /**
   * What responseLink decides: an existing entry stays if this process has the smaller name, and
   * the new connection becomes the entry otherwise; the reply goes out on the connection that is
   * the entry from then on.
   */
  lemma RespondMeans<F(!new)>(me: Name, s: State<F>, sender: Name, fd: F)
    ensures var t := Step(me, s, Respond(sender, fd));
            && Find(t.peers, sender) == Some(ReplyOn(me, s.peers, sender, fd))
            && (sender in s.peers && (exists i: nat :: LessAt(me, sender, i)) ==> t.peers == s.peers)
            && (sender !in s.peers || !(exists i: nat :: LessAt(me, sender, i)) ==> Find(t.peers, sender) == Some(fd))
            && (forall n :: n != sender ==> Find(t.peers, n) == Find(s.peers, n))
  {
    LessIs(me, sender);
  }

  /**
   * What the results of requestLink's second look mean for the table it leaves: 0, the entry is
   * its own connection; -1, there is none; 1, it is another one or none, the one that carried the
   * response if that told it to give way.  No other entry changes.
   */
  lemma RecheckMeans<F(!new)>(me: Name, s: State<F>, recver: Name, fd: F, reply: Reply<F>)
    ensures var r := RecheckResult(s.peers, recver, fd, reply);
            var t := Step(me, s, Recheck(recver, fd, reply));
            && (r == 0 <==> Find(s.peers, recver) == Some(fd) && reply.Reply? && reply.keep != 0)
            && (r == -1 <==> Find(s.peers, recver) == Some(fd) && reply.NoReply?)
            && (r == 0 ==> Find(t.peers, recver) == Some(fd))
            && (r == -1 ==> Find(t.peers, recver) == None)
            && (r == 1 && Find(s.peers, recver) == Some(fd) ==> Find(t.peers, recver) == Some(reply.via))
            && (r == 1 && Find(s.peers, recver) != Some(fd) ==> Find(t.peers, recver) == Find(s.peers, recver))
            && (forall n :: n != recver ==> Find(t.peers, n) == Find(s.peers, n))
  {
  }

  class Links<F(==, !new)> {
    const me: Name
    const peers: StringHash<F>
    const observers: Obs.ObserverHash<F>

    ghost predicate Valid()
      reads this, observers
    {
      observers.Valid()
    }

    ghost function Value(): State<F>
      reads this, peers, observers, observers.m.Values
    {
      State(peers.m, observers.Contents())
    }

    constructor (name: Name)
      ensures Valid() && me == name && Value() == Run(name, [])
      ensures fresh(peers) && fresh(observers) && fresh(observers.m.Values)
    {
      me := name;
      peers := new StringHash<F>();
      observers := new Obs.ObserverHash<F>();
    }

    /** requestLink up to line 1191: 1 when there already is an entry. */
    method RequestLinkEnter(recver: Name, fd: F) returns (result: int)
      requires Valid()
      modifies peers
      ensures Valid() && Value() == Step(me, old(Value()), Enter(recver, fd))
      ensures result == if recver in old(peers.m) then 1 else 0
    {
      var tmp := peers.Find(recver);
      if tmp.Some? {
        return 1;
      }
      var _ := peers.Insert(recver, fd);
      result := 0;
    }

    /** requestLink from line 1204. */
    method RequestLinkRecheck(recver: Name, fd: F, reply: Reply<F>) returns (result: int)
      requires Valid()
      modifies peers
      ensures Valid() && Value() == Step(me, old(Value()), Recheck(recver, fd, reply))
      ensures result == RecheckResult(old(peers.m), recver, fd, reply)
    {
      var tmp := peers.Find(recver);
      if tmp != Some(fd) {
        return 1;
      }
      match reply {
        case Reply(keep, via) =>
          result := 0;
          if keep == 0 {
            result := 1;
            var _ := peers.Remove(recver);
            var _ := peers.Insert(recver, via);
          }
        case NoReply =>
          result := -1;
          var _ := peers.Remove(recver);
      }
    }

    /** responseLink, lines 1271-1295: the connection the reply goes out on. */
    method ResponseLink(sender: Name, fd: F) returns (dest: F)
      requires Valid()
      modifies peers
      ensures Valid() && Value() == Step(me, old(Value()), Respond(sender, fd))
      ensures dest == ReplyOn(me, old(peers.m), sender, fd)
    {
      var dealConnect := true;
      var exist := peers.Find(sender);
      if exist.Some? {
        if Less(me, sender) {
          dealConnect := false;
        } else {
          dealConnect := true;
          var _ := peers.Remove(sender);
          var _ := peers.Insert(sender, fd);
        }
      } else {
        var _ := peers.Insert(sender, fd);
      }
      dest := if dealConnect then fd else exist.value;
    }

    /** commEventHandler on COMMEventDisconnect. */
    method OnDisconnect(fd: F)
      requires Valid()
      modifies peers, observers.m.Values
      ensures Valid() && Value() == Step(me, old(Value()), Disconnect(fd))
    {
      peers.RemoveValue(fd);
      observers.RemoveFd(fd);
    }
  }
}
