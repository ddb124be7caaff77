/** The lookup tables of src/data_structure: StringHash and UINTHash. */
module Tables {
  import opened Names

  // ---- Specification ----

  /** Insertion never replaces an entry. */
  function Inserted<K, V>(m: map<K, V>, k: K, v: V): map<K, V> { if k in m then m else m[k := v] }

  /** k is the first key, in the order of a `std::map`, that holds v. */
  ghost predicate FirstWith<V>(m: map<Name, V>, v: V, k: Name) {
    && k in m && m[k] == v
    && forall j :: j in m && m[j] == v ==> j == k || Less(k, j)
  }

  lemma {:induction false} LeastExists(s: set<Name>) returns (k: Name)
    requires s != {}
    ensures k in s && forall j :: j in s ==> j == k || Less(k, j)
  {
    var x :| x in s;
    if s == {x} {
      k := x;
    } else {
      var y := LeastExists(s - {x});
      LessTotal(x, y);
      k := if Less(x, y) then x else y;
      forall j | j in s && j != k
        ensures Less(k, j)
      {
        if Less(x, y) && j != y {
          LessTransitive(x, y, j);
        }
      }
    }
  }

  lemma FirstExists<V>(m: map<Name, V>, v: V)
    requires v in m.Values
    ensures exists k :: FirstWith(m, v, k)
  {
    var holders := set k | k in m && m[k] == v;
    var w :| w in m && m[w] == v;
    assert w in holders;
    var k := LeastExists(holders);
    assert FirstWith(m, v, k);
  }

  lemma FirstIsUnique<V>(m: map<Name, V>, v: V, j: Name, k: Name)
    requires FirstWith(m, v, j) && FirstWith(m, v, k)
    ensures j == k
  {
    LessTotal(j, k);
  }

  /** Removal by value: the first entry that holds v goes, and only that one. */
  ghost function RemovedFirst<V>(m: map<Name, V>, v: V): (r: map<Name, V>)
    ensures v !in m.Values ==> r == m
    ensures forall k :: FirstWith(m, v, k) ==> r == m - {k}
  {
    if v in m.Values then
      FirstExists(m, v);
      var k :| FirstWith(m, v, k);
      assert forall j :: FirstWith(m, v, j) ==> j == k by {
        forall j | FirstWith(m, v, j) ensures j == k { FirstIsUnique(m, v, j, k); }
      }
      m - {k}
    else m
  }

  ghost predicate HeldOnce<V>(m: map<Name, V>, v: V) {
    forall j, k :: j in m && k in m && m[j] == v && m[k] == v ==> j == k
  }

  /** Removal by value clears the table of v exactly when no two keys hold it. */
  lemma RemovedFirstClears<V>(m: map<Name, V>, v: V)
    ensures v !in RemovedFirst(m, v).Values <==> HeldOnce(m, v)
  {
    if v in m.Values {
      FirstExists(m, v);
      var k :| FirstWith(m, v, k);
      var r := RemovedFirst(m, v);
      assert r == m - {k};
      if HeldOnce(m, v) {
        assert forall j :: j in r ==> j in m && r[j] == m[j] && j != k;
      } else {
        var i, j :| i in m && j in m && m[i] == v && m[j] == v && i != j;
        var other := if i == k then j else i;
        assert other in r && r[other] == v;
      }
    }
  }

  // ---- The classes ----

  class StringHash<V(==)> {
    var m: map<Name, V>

    constructor ()
      ensures m == map[]
    {
      m := map[];
    }

    method Find(key: Name) returns (r: Option<V>)
      ensures r == if key in m then Some(m[key]) else None
    {
      r := if key in m then Some(m[key]) else None;
    }

    method Insert(key: Name, value: V) returns (r: int)
      modifies this
      ensures m == Inserted(old(m), key, value)
      ensures r == if key in old(m) then 1 else 0
    {
      r := 0;
      if key in m {
        r := 1;
      } else {
        m := m[key := value];
      }
    }

    method Remove(key: Name) returns (r: int)
      modifies this
      ensures m == old(m) - {key} && r == 0
    {
      if key in m {
        m := m - {key};
      }
      r := 0;
    }

    method RemoveValue(value: V)
      modifies this
      ensures m == RemovedFirst(old(m), value)
    {
      var rest := m.Keys;
      while rest != {}
        invariant rest <= m.Keys && m == old(m)
        invariant forall k :: k in m && k !in rest ==> m[k] != value
        invariant forall j, k :: j in m && j !in rest && k in rest ==> Less(j, k)
      {
        ghost var least := LeastExists(rest);
        var it :| it in rest && forall j :: j in rest ==> j == it || Less(it, j);
        if m[it] == value {
          assert FirstWith(m, value, it);
          m := m - {it};
          return;
        }
        rest := rest - {it};
      }
      assert value !in m.Values;
    }
  }

  /** `it` is the member the C++ class keeps its iterator in; None is the end of the map. */
  class UintHash<V> {
    var m: map<uint32, V>
    var it: Option<uint32>

    constructor ()
      ensures m == map[] && it == None
    {
      m, it := map[], None;
    }

    /** The first step of a lookup, under the read lock. */
    method Seek(key: uint32)
      modifies this`it
      ensures it == if key in m then Some(key) else None
    {
      it := if key in m then Some(key) else None;
    }

    /** The second one: it reads the iterator wherever that stands by then. */
    method Fetch() returns (r: Option<V>)
      requires it.Some? ==> it.value in m
      ensures r == if it.Some? then Some(m[it.value]) else None
    {
      r := if it.Some? then Some(m[it.value]) else None;
    }

    /** A lookup that no other one comes between. */
    method Find(key: uint32) returns (r: Option<V>)
      modifies this`it
      ensures r == if key in m then Some(m[key]) else None
    {
      Seek(key);
      r := Fetch();
    }

    method Insert(key: uint32, value: V) returns (r: int)
      modifies this
      ensures m == Inserted(old(m), key, value) && it == if key in old(m) then Some(key) else None
      ensures r == if key in old(m) then 1 else 0
    {
      Seek(key);
      r := 0;
      if it.Some? {
        r := 1;
      } else {
        m := m[key := value];
      }
    }

    /** The iterator of an erased entry is of no use; the model puts it at the end. */
    method Remove(key: uint32) returns (r: int)
      modifies this
      ensures m == old(m) - {key} && it == None && r == 0
    {
      Seek(key);
      if it.Some? {
        m, it := m - {key}, None;
      }
      r := 0;
    }
  }
}
