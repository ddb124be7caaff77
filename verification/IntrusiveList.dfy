/** The LIST macros of src/data_structure/queue.h. */
module IntrusiveList {

  class Head<T> {
    var lhFirst: Entry?<T>

    /** LIST_INIT */
    constructor ()
      ensures IsList(this, [])
    {
      lhFirst := null;
    }
  }

  /** An element with its LIST_ENTRY field; `lePrev` is meaningless until the element is inserted. */
  class Entry<T> {
    const message: T
    var leNext: Entry?<T>
    var lePrev: Slot<T>

    constructor (m: T)
      ensures message == m
    {
      message := m;
      leNext := null;
      lePrev := Unset;
    }
  }

  /** The address of a pointer to an element. */
  datatype Slot<T> = Unset | FirstOf(head: Head<T>) | NextOf(entry: Entry<T>)

  /** What the slot points to. */
  ghost predicate Points<T>(slot: Slot<T>, e: Entry?<T>)
    reads if slot.FirstOf? then {slot.head} else {}, if slot.NextOf? then {slot.entry} else {}
  {
    match slot
    case Unset => false
    case FirstOf(h) => h.lhFirst == e
    case NextOf(d) => d.leNext == e
  }

  /** The slot in front of position i of the list s of h. */
  ghost function SlotAt<T>(h: Head<T>, s: seq<Entry<T>>, i: nat): Slot<T>
    requires i <= |s|
  {
    if i == 0 then FirstOf(h) else NextOf(s[i - 1])
  }

  ghost predicate Distinct<T>(s: seq<Entry<T>>) {
    forall i, j :: 0 <= i < j < |s| ==> s[i] != s[j]
  }

  /** h heads exactly the elements s; each lePrev is the address of the one slot that points to its element. */
  ghost predicate IsList<T>(h: Head<T>, s: seq<Entry<T>>)
    reads h, s
  {
    && Distinct(s)
    && h.lhFirst == (if s == [] then null else s[0])
    && (forall i {:trigger s[i].leNext} :: 0 <= i < |s| ==> s[i].leNext == if i + 1 < |s| then s[i + 1] else null)
    && (forall i {:trigger s[i].lePrev} :: 0 <= i < |s| ==> s[i].lePrev == SlotAt(h, s, i))
  }

  /** In a well-formed list the slot an element points back to points to that element. */
  lemma BackPointsForward<T>(h: Head<T>, s: seq<Entry<T>>, i: nat)
    requires IsList(h, s) && i < |s|
    ensures Points(s[i].lePrev, s[i])
    ensures forall j :: 0 <= j < |s| && s[j].lePrev == s[i].lePrev ==> j == i
  {
    if i > 0 {
      assert s[i - 1].leNext == s[i];
    }
    forall j | 0 <= j < |s| && s[j].lePrev == s[i].lePrev
      ensures j == i
    {
      assert SlotAt(h, s, j) == SlotAt(h, s, i);
    }
  }

  /** `*slot = e` */
  method Store<T>(slot: Slot<T>, e: Entry?<T>)
    requires !slot.Unset?
    modifies if slot.FirstOf? then {slot.head} else {}
    modifies if slot.NextOf? then {slot.entry} else {}
    ensures slot.FirstOf? ==> slot.head.lhFirst == e
    ensures slot.NextOf? ==> slot.entry.leNext == e && slot.entry.lePrev == old(slot.entry.lePrev)
  {
    match slot
    case FirstOf(h) => h.lhFirst := e;
    case NextOf(d) => d.leNext := e;
  }

  /** LIST_INSERT_HEAD */
  method InsertHead<T>(h: Head<T>, elm: Entry<T>, ghost s: seq<Entry<T>>)
    requires IsList(h, s) && elm !in s
    modifies h, elm, s
    ensures IsList(h, [elm] + s)
  {
    elm.leNext := h.lhFirst;
    if elm.leNext != null {
      h.lhFirst.lePrev := NextOf(elm);
    }
    h.lhFirst := elm;
    elm.lePrev := FirstOf(h);
  }

  /** LIST_INSERT_AFTER */
  method InsertAfter<T>(listelm: Entry<T>, elm: Entry<T>, ghost h: Head<T>, ghost s: seq<Entry<T>>, ghost k: nat)
    requires IsList(h, s) && k < |s| && s[k] == listelm && elm !in s
    modifies elm, s
    ensures IsList(h, s[..k + 1] + [elm] + s[k + 1..])
  {
    elm.leNext := listelm.leNext;
    if elm.leNext != null {
      listelm.leNext.lePrev := NextOf(elm);
    }
    listelm.leNext := elm;
    elm.lePrev := NextOf(listelm);
  }

  /** LIST_INSERT_BEFORE */
  method InsertBefore<T>(listelm: Entry<T>, elm: Entry<T>, ghost h: Head<T>, ghost s: seq<Entry<T>>, ghost k: nat)
    requires IsList(h, s) && k < |s| && s[k] == listelm && elm !in s
    modifies h, elm, s
    ensures IsList(h, s[..k] + [elm] + s[k..])
  {
    elm.lePrev := listelm.lePrev;
    elm.leNext := listelm;
    Store(listelm.lePrev, elm);
    listelm.lePrev := NextOf(elm);
    ghost var t := s[..k] + [elm] + s[k..];
    assert t[k] == elm && t[k + 1] == listelm;
    assert forall i :: k < i < |t| ==> t[i] == s[i - 1];
  }

  /** LIST_REMOVE; the element keeps its own, now stale, pointers. */
  method Remove<T>(elm: Entry<T>, ghost h: Head<T>, ghost s: seq<Entry<T>>, ghost k: nat)
    requires IsList(h, s) && k < |s| && s[k] == elm
    modifies h, s
    ensures IsList(h, s[..k] + s[k + 1..])
    ensures elm.leNext == old(elm.leNext) && elm.lePrev == old(elm.lePrev)
  {
    if elm.leNext != null {
      elm.leNext.lePrev := elm.lePrev;
    }
    Store(elm.lePrev, elm.leNext);
    ghost var t := s[..k] + s[k + 1..];
    assert forall i :: 0 <= i < k ==> t[i] == s[i];
    assert forall i :: k <= i < |t| ==> t[i] == s[i + 1];
  }

  /** LIST_REMOVE of LIST_FIRST. */
  method RemoveFirst<T>(elm: Entry<T>, h: Head<T>, ghost s: seq<Entry<T>>)
    requires IsList(h, s) && s != [] && s[0] == elm
    modifies h, s
    ensures IsList(h, s[1..]) && elm !in s[1..]
  {
    assert s[..0] + s[1..] == s[1..];
    assert forall i :: 0 <= i < |s[1..]| ==> s[1..][i] == s[i + 1];
    Remove(elm, h, s, 0);
  }

  /** LIST_REPLACE */
  method Replace<T>(elm: Entry<T>, elm2: Entry<T>, ghost h: Head<T>, ghost s: seq<Entry<T>>, ghost k: nat)
    requires IsList(h, s) && k < |s| && s[k] == elm && elm2 !in s
    modifies h, elm2, s
    ensures IsList(h, s[k := elm2])
  {
    elm2.leNext := elm.leNext;
    if elm2.leNext != null {
      elm2.leNext.lePrev := NextOf(elm2);
    }
    elm2.lePrev := elm.lePrev;
    Store(elm2.lePrev, elm2);
  }

  /** Removing an element and inserting it again before its old successor restores the list. */
  method RemoveThenInsertBefore<T>(h: Head<T>, elm: Entry<T>, succ: Entry<T>, ghost s: seq<Entry<T>>, ghost k: nat)
    requires IsList(h, s) && k + 1 < |s| && s[k] == elm && s[k + 1] == succ
    modifies h, s
    ensures IsList(h, s)
  {
    Remove(elm, h, s, k);
    ghost var r := s[..k] + s[k + 1..];
    assert r[k] == succ;
    InsertBefore(succ, elm, h, r, k);
    assert r[..k] + [elm] + r[k..] == s;
  }

  /** Whatever is done to one list, a list that shares nothing with it stays as it was. */
  method TwoLists<T>(h: Head<T>, g: Head<T>, elm: Entry<T>, ghost s: seq<Entry<T>>, ghost r: seq<Entry<T>>, ghost k: nat)
    requires IsList(h, s) && IsList(g, r) && h != g && k < |s| && s[k] == elm
    requires forall e :: e in s ==> e !in r
    modifies h, g, s, r
    ensures IsList(h, s[..k] + s[k + 1..]) && IsList(g, [elm] + r)
  {
    assert forall i :: 0 <= i < |r| ==> r[i] !in s;
    Remove(elm, h, s, k);
    assert IsList(g, r);
    InsertHead(g, elm, r);
    assert forall e :: e in s[..k] + s[k + 1..] ==> e in s && e != elm && e !in r;
  }
}
