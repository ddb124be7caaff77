/** The observer registry of src/rpc_observer.cpp: a map from names to separately allocated lists. */
module Observers {
  import opened Names

  // ---- Specification: lists and registries as values ----

  /** `std::list::remove`: every element equal to x goes. */
  function Dropped<F(==)>(xs: seq<F>, x: F): seq<F> {
    if xs == [] then []
    else if xs[0] == x then Dropped(xs[1..], x)
    else [xs[0]] + Dropped(xs[1..], x)
  }

  lemma {:induction false} DroppedConcat<F>(a: seq<F>, b: seq<F>, x: F)
    ensures Dropped(a + b, x) == Dropped(a, x) + Dropped(b, x)
  {
    if a == [] {
      assert a + b == b;
    } else {
      assert (a + b)[1..] == a[1..] + b;
      DroppedConcat(a[1..], b, x);
    }
  }

  lemma {:induction false} DroppedMembers<F>(xs: seq<F>, x: F)
    ensures forall y :: y in Dropped(xs, x) <==> y in xs && y != x
  {
    if xs != [] {
      DroppedMembers(xs[1..], x);
      assert xs == [xs[0]] + xs[1..];
    }
  }

  type Registry<F> = map<Name, seq<F>>

  datatype Event<F> =
    | Create(key: Name)
    | Destroy(key: Name)
    | Register(key: Name, fd: F)
    | Unregister(key: Name, fd: F)
    | Disconnect(fd: F)

  function Step<F(==)>(m: Registry<F>, e: Event<F>): Registry<F> {
    match e
    case Create(key) => if key in m then m else m[key := []]
    case Destroy(key) => m - {key}
    case Register(key, fd) => if key in m then m[key := m[key] + [fd]] else m
    case Unregister(key, fd) => if key in m then m[key := Dropped(m[key], fd)] else m
    case Disconnect(fd) => map key | key in m :: Dropped(m[key], fd)
  }

  function Play<F(==)>(h: seq<Event<F>>): Registry<F> {
    if h == [] then map[] else Step(Play(h[..|h| - 1]), h[|h| - 1])
  }

  // ---- What a history leaves, read off the history itself ----

  /** The observed object was created and not destroyed since. */
  ghost predicate Present<F(!new)>(h: seq<Event<F>>, key: Name) {
    exists i :: 0 <= i < |h| && h[i] == Create(key) && forall j :: i < j < |h| ==> h[j] != Destroy(key)
  }

  predicate Kills<F(==)>(e: Event<F>, key: Name, fd: F) {
    e == Destroy(key) || e == Unregister(key, fd) || e == Disconnect(fd)
  }

  /** Event i registered an observer of key, and nothing later took it away. */
  ghost predicate Stays<F(!new)>(h: seq<Event<F>>, i: nat, key: Name)
    requires i < |h|
  {
    && h[i].Register? && h[i].key == key && Present(h[..i], key)
    && forall j :: i < j < |h| ==> !Kills(h[j], key, h[i].fd)
  }

  /** The registrations among the first n events that stay, in order. */
  ghost function Survivors<F(!new)>(h: seq<Event<F>>, key: Name, n: nat): seq<F>
    requires n <= |h|
  {
    if n == 0 then []
    else Survivors(h, key, n - 1) + if Stays(h, n - 1, key) then [h[n - 1].fd] else []
  }

  lemma PresentSnoc<F(!new)>(h: seq<Event<F>>, e: Event<F>, key: Name)
    ensures Present(h + [e], key) <==> e == Create(key) || (e != Destroy(key) && Present(h, key))
  {
    var g := h + [e];
    if Present(g, key) && e != Create(key) {
      var i :| 0 <= i < |g| && g[i] == Create(key) && forall j :: i < j < |g| ==> g[j] != Destroy(key);
      assert g[|h|] == e;
      assert h[i] == Create(key) && forall j :: i < j < |h| ==> h[j] == g[j];
    }
    if e == Create(key) {
      assert g[|h|] == Create(key);
    } else if e != Destroy(key) && Present(h, key) {
      var i :| 0 <= i < |h| && h[i] == Create(key) && forall j :: i < j < |h| ==> h[j] != Destroy(key);
      assert g[i] == Create(key) && forall j :: i < j < |g| ==> g[j] != Destroy(key);
    }
  }

  lemma StaysSnoc<F(!new)>(h: seq<Event<F>>, e: Event<F>, i: nat, key: Name)
    requires i < |h|
    ensures Stays(h + [e], i, key) <==> Stays(h, i, key) && !Kills(e, key, h[i].fd)
  {
    var g := h + [e];
    assert g[..i] == h[..i] && g[i] == h[i] && g[|h|] == e;
    assert forall j :: i < j < |h| ==> g[j] == h[j];
  }

  /** What one more event does to the registrations that stay. */
  lemma {:induction false} SurvivorsSnoc<F(!new)>(h: seq<Event<F>>, e: Event<F>, key: Name, n: nat)
    requires n <= |h|
    ensures Survivors(h + [e], key, n) ==
            match e
            case Destroy(k) => if k == key then [] else Survivors(h, key, n)
            case Unregister(k, fd) => if k == key then Dropped(Survivors(h, key, n), fd) else Survivors(h, key, n)
            case Disconnect(fd) => Dropped(Survivors(h, key, n), fd)
            case _ => Survivors(h, key, n)
  {
    if n > 0 {
      SurvivorsSnoc(h, e, key, n - 1);
      StaysSnoc(h, e, n - 1, key);
      if (e.Unregister? && e.key == key) || e.Disconnect? {
        DroppedConcat(Survivors(h, key, n - 1), if Stays(h, n - 1, key) then [h[n - 1].fd] else [], e.fd);
      }
    }
  }

  lemma StaysIsPresent<F(!new)>(h: seq<Event<F>>, n: nat, key: Name)
    requires n < |h| && Stays(h, n, key)
    ensures Present(h, key)
  {
    var g := h[..n];
    var i :| 0 <= i < |g| && g[i] == Create(key) && forall j {:trigger g[j]} :: i < j < |g| ==> g[j] != Destroy(key);
    assert h[i] == Create(key);
    assert forall j :: i < j < n ==> h[j] == g[j];
  }

  lemma {:induction false} AbsentHasNone<F(!new)>(h: seq<Event<F>>, key: Name, n: nat)
    requires n <= |h| && !Present(h, key)
    ensures Survivors(h, key, n) == []
  {
    if n > 0 {
      AbsentHasNone(h, key, n - 1);
      if Stays(h, n - 1, key) {
        StaysIsPresent(h, n - 1, key);
      }
    }
  }

  /**
   * After any history an object has a list exactly if it was created and not destroyed since,
   * and the list holds, in order, the registrations that no later event took away.
   */
  lemma {:induction false} RegistryIsItsHistory<F(!new)>(h: seq<Event<F>>, key: Name)
    ensures key in Play(h) <==> Present(h, key)
    ensures key in Play(h) ==> Play(h)[key] == Survivors(h, key, |h|)
  {
    if h != [] {
      var g, e := h[..|h| - 1], h[|h| - 1];
      assert h == g + [e];
      RegistryIsItsHistory(g, key);
      PresentSnoc(g, e, key);
      SurvivorsSnoc(g, e, key, |g|);
      assert h[..|g|] == g;
      if e == Create(key) && key !in Play(g) {
        AbsentHasNone(g, key, |g|);
      }
    }
  }

  /** Only its own events and disconnects change an object's list. */
  lemma OthersKeep<F>(m: Registry<F>, e: Event<F>, key: Name)
    requires !e.Disconnect? && e.key != key
    ensures key in Step(m, e) <==> key in m
    ensures key in m ==> Step(m, e)[key] == m[key]
  {
  }

  /** After a disconnect no list holds the connection. */
  lemma DisconnectClears<F>(m: Registry<F>, fd: F)
    ensures forall key :: key in Step(m, Disconnect(fd)) ==> fd !in Step(m, Disconnect(fd))[key]
  {
    forall key | key in m
      ensures fd !in Dropped(m[key], fd)
    {
      DroppedMembers(m[key], fd);
    }
  }

  // ---- The classes ----

  class ObserverList<F(==)> {
    var items: seq<F>

    constructor ()
      ensures items == []
    {
      items := [];
    }

    method PushBack(fd: F)
      modifies this
      ensures items == old(items) + [fd]
    {
      items := items + [fd];
    }

    method Remove(fd: F)
      modifies this
      ensures items == Dropped(old(items), fd)
    {
      var i := 0;
      while i < |items|
        invariant 0 <= i <= |items|
        invariant Dropped(old(items), fd) == items[..i] + Dropped(items[i..], fd)
        decreases |items| - i
      {
        assert items[i..][1..] == items[i + 1..];
        if items[i] == fd {
          ghost var was := items;
          items := items[..i] + items[i + 1..];
          assert items[i..] == was[i + 1..] && items[..i] == was[..i];
        } else {
          assert items[..i] + [items[i]] == items[..i + 1];
          i := i + 1;
        }
      }
      assert items[..i] == items && items[i..] == [];
    }
  }

  class ObserverHash<F(==)> {
    var m: map<Name, ObserverList<F>>

    /** Every key owns a list of its own. */
    ghost predicate Valid()
      reads this
    {
      forall j, k :: j in m && k in m && m[j] == m[k] ==> j == k
    }

    /** The registry as a value. */
    ghost function Contents(): Registry<F>
      reads this, m.Values
    {
      map key | key in m :: m[key].items
    }

    constructor ()
      ensures Valid() && m == map[] && Contents() == map[]
    {
      m := map[];
    }

    method Find(key: Name) returns (r: Option<ObserverList<F>>)
      ensures r.Some? <==> key in Contents()
      ensures r.Some? ==> r.value.items == Contents()[key]
    {
      r := if key in m then Some(m[key]) else None;
    }

    method Empty(key: Name) returns (r: bool)
      ensures r <==> !(key in Contents() && Contents()[key] != [])
    {
      r := true;
      if key in m {
        r := m[key].items == [];
      }
    }

    method InsertKey(key: Name) returns (r: int)
      requires Valid()
      modifies this
      ensures Valid() && fresh(m.Values - old(m.Values))
      ensures Contents() == Step(old(Contents()), Create(key))
      ensures r == if key in old(Contents()) then 1 else 0
    {
      if key in m {
        return 1;
      }
      var it := new ObserverList<F>();
      m := m[key := it];
      r := 0;
    }

    method RemoveKey(key: Name)
      requires Valid()
      modifies this
      ensures Valid() && m.Values <= old(m.Values)
      ensures Contents() == Step(old(Contents()), Destroy(key))
    {
      if key in m {
        m := m - {key};
      }
    }

    method Insert(key: Name, fd: F) returns (r: int)
      requires Valid()
      modifies m.Values
      ensures Valid() && unchanged(this)
      ensures Contents() == Step(old(Contents()), Register(key, fd))
      ensures r == if key in old(Contents()) then 0 else -1
    {
      if key !in m {
        return -1;
      }
      m[key].PushBack(fd);
      r := 0;
    }

    method Remove(key: Name, fd: F)
      requires Valid()
      modifies m.Values
      ensures Valid() && unchanged(this)
      ensures Contents() == Step(old(Contents()), Unregister(key, fd))
    {
      if key in m {
        m[key].Remove(fd);
      }
    }

    method RemoveFd(fd: F)
      requires Valid()
      modifies m.Values
      ensures Valid() && unchanged(this)
      ensures Contents() == Step(old(Contents()), Disconnect(fd))
    {
      var rest := m.Keys;
      while rest != {}
        invariant rest <= m.Keys && unchanged(this)
        invariant forall k :: k in m ==>
                    m[k].items == if k in rest then old(m[k].items) else Dropped(old(m[k].items), fd)
        decreases rest
      {
        var it :| it in rest;
        m[it].Remove(fd);
        rest := rest - {it};
      }
    }
  }
}
