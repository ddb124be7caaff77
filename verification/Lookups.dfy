/**
 * The lookups of StringHash, UINTHash and ObserverHash.  The iterator a lookup sets and then reads
 * is a member of the table, and the read lock around the two steps lets other readers in.
 */
module Lookups {
  import opened Names

  /** `it` is the member iterator, None at the end; `reading` has the key each reader is after. */
  datatype Table<K, V> = Table(m: map<K, V>, it: Option<K>, reading: map<nat, K>)

  datatype Op<K, V> =
    | Seek(r: nat, k: K)                      // it = map.find(key)
    | Fetch(r: nat)                           // (it == map.end()) ? NULL : it->second
    | Write(m: map<K, V>, it: Option<K>)      // whatever is done under the write lock

  predicate Enabled<K, V>(t: Table<K, V>, a: Op<K, V>) {
    match a
    case Seek(r, _) => r !in t.reading
    case Fetch(r) => r in t.reading
    case Write(_, _) => t.reading == map[]
  }

  function Apply<K, V>(t: Table<K, V>, a: Op<K, V>): Table<K, V>
    requires Enabled(t, a)
  {
    match a
    case Seek(r, k) => t.(it := if k in t.m then Some(k) else None, reading := t.reading[r := k])
    case Fetch(r) => t.(reading := t.reading - {r})
    case Write(m, it) => t.(m := m, it := it)
  }

  ghost predicate Legal<K, V>(t: Table<K, V>, acts: seq<Op<K, V>>)
    decreases |acts|
  {
    acts == [] || (Enabled(t, acts[0]) && Legal(Apply(t, acts[0]), acts[1..]))
  }

  ghost function Run<K, V>(t: Table<K, V>, acts: seq<Op<K, V>>): Table<K, V>
    requires Legal(t, acts)
    decreases |acts|
  {
    if acts == [] then t else Run(Apply(t, acts[0]), acts[1..])
  }

  /** How many lookups begin while another one is between its two steps. */
  ghost function Overlaps<K, V>(t: Table<K, V>, acts: seq<Op<K, V>>): nat
    requires Legal(t, acts)
    decreases |acts|
  {
    if acts == [] then 0
    else (if acts[0].Seek? && t.reading != map[] then 1 else 0) + Overlaps(Apply(t, acts[0]), acts[1..])
  }

  function Entry<K, V>(m: map<K, V>, k: K): Option<V> { if k in m then Some(m[k]) else None }

  /** What a reader would fetch now. */
  function Fetched<K, V>(t: Table<K, V>): Option<V> { if t.it.Some? then Entry(t.m, t.it.value) else None }

  /** Every reader would fetch the entry of its own key. */
  ghost predicate Right<K, V>(t: Table<K, V>) {
    forall r :: r in t.reading ==> Fetched(t) == Entry(t.m, t.reading[r])
  }

  lemma {:induction false} RightStays<K, V>(t: Table<K, V>, acts: seq<Op<K, V>>)
    requires Right(t) && Legal(t, acts) && Overlaps(t, acts) == 0
    ensures Right(Run(t, acts))
    decreases |acts|
  {
    if acts != [] {
      RightStays(Apply(t, acts[0]), acts[1..]);
    }
  }

  function Empty<K, V>(): Table<K, V> { Table(map[], None, map[]) }

  /** The lookups are all those of one thread. */
  predicate OneReader<K, V>(acts: seq<Op<K, V>>, r: nat) {
    forall i :: 0 <= i < |acts| && acts[i].Seek? ==> acts[i].r == r
  }

  /** What a single thread looks up cannot overlap. */
  lemma {:induction false} OneReaderIsSafe<K, V>(t: Table<K, V>, acts: seq<Op<K, V>>, r: nat)
    requires Legal(t, acts) && OneReader(acts, r) && t.reading.Keys <= {r}
    ensures Overlaps(t, acts) == 0
    decreases |acts|
  {
    if acts != [] {
      if acts[0].Seek? {
        assert t.reading == map[] by {
          assert r !in t.reading;
        }
      }
      OneReaderIsSafe(Apply(t, acts[0]), acts[1..], r);
    }
  }

  /** Over every run with at most n overlapping lookups every reader fetches the entry of its own key. */
  ghost predicate RightWithin<K(!new), V(!new)>(n: nat) {
    forall acts: seq<Op<K, V>> :: Legal(Empty<K, V>(), acts) && Overlaps(Empty<K, V>(), acts) <= n ==>
      Right(Run(Empty<K, V>(), acts))
  }

  /** One reader gets the entry of another's key. */
  lemma OverlapMisleads<K, V>(a: K, b: K, u: V, v: V) returns (acts: seq<Op<K, V>>)
    requires a != b && u != v
    ensures Legal(Empty<K, V>(), acts) && Overlaps(Empty<K, V>(), acts) == 1
    ensures var t := Run(Empty<K, V>(), acts);
            0 in t.reading && t.reading[0] == a && Entry(t.m, a) == Some(u) && Fetched(t) == Some(v)
  {
    var x: Op<K, V>, y: Op<K, V>, z: Op<K, V> := Write(map[a := u, b := v], None), Seek(0, a), Seek(1, b);
    acts := [x, y, z];
    var t1 := Apply(Empty<K, V>(), x);
    var t2 := Apply(t1, y);
    assert 0 in t2.reading && 1 !in t2.reading && t1.reading == map[];
    var t3 := Apply(t2, z);
    assert [z][1..] == [] && Legal(t2, [z]) && Run(t2, [z]) == t3 && Overlaps(t2, [z]) == 1;
    assert [y, z][1..] == [z] && Legal(t1, [y, z]) && Run(t1, [y, z]) == t3 && Overlaps(t1, [y, z]) == 1;
    assert acts[1..] == [y, z];
    assert t3.it == Some(b) && 0 in t3.reading && t3.reading[0] == a && t3.m == map[a := u, b := v];
  }

  /** In a table of any keys and values lookups are right exactly where none begins while another is under way. */
  lemma OverlapsDecide<K(!new), V(!new)>(a: K, b: K, u: V, v: V, n: nat)
    requires a != b && u != v
    ensures RightWithin<K, V>(n) <==> n == 0
  {
    if n == 0 {
      forall acts: seq<Op<K, V>> | Legal(Empty<K, V>(), acts) && Overlaps(Empty<K, V>(), acts) <= n
        ensures Right(Run(Empty<K, V>(), acts))
      {
        RightStays(Empty<K, V>(), acts);
      }
    } else {
      var acts := OverlapMisleads(a, b, u, v);
      assert !Right(Run(Empty<K, V>(), acts));
    }
  }
}
