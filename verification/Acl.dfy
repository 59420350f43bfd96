/** AccessControlList: a sorted list of named entries beside the packed permissions of
    owner, group, others and mask. */
module Acls {
  import opened ChunkTypes

  const NAMED_USER: nat := 0
  const NAMED_GROUP: nat := 1
  const USER: nat := 2
  const GROUP: nat := 3
  const OTHER: nat := 4
  const MASK: nat := 5
  const INVALID: nat := 6
  const MASK_UNSET: nat := 15
  const UNDEFINED_ID: nat := 0xFFFFFFFF

  datatype Entry = Entry(kind: nat, id: nat, rights: nat) {
    predicate Is(kind: nat, id: nat) { this.kind == kind && this.id == id }
    predicate Before(kind: nat, id: nat) { this.kind < kind || (this.kind == kind && this.id < id) }
    predicate Valid() { kind <= NAMED_GROUP && id <= UNDEFINED_ID && rights <= 7 }
  }

  datatype Acl = Acl(list: seq<Entry>, owner: nat, group: nat, other: nat, mask: nat)

  predicate Sorted(list: seq<Entry>) { forall i, j :: 0 <= i < j < |list| ==> list[i].Before(list[j].kind, list[j].id) }

  ghost predicate WellFormed(a: Acl) {
    && Sorted(a.list) && (forall e <- a.list :: e.Valid())
    && a.owner <= 7 && a.group <= 7 && a.other <= 7 && (a.mask <= 7 || a.mask == MASK_UNSET)
  }

  function Empty(): Acl { Acl([], 0, 0, 0, MASK_UNSET) }

  // ---------------------------------------------------------------- the list as a map

  /** lower_bound: how many entries come before the key. */
  function LowerBound(list: seq<Entry>, kind: nat, id: nat): (r: nat)
    ensures r <= |list|
  {
    if list == [] || !list[0].Before(kind, id) then 0 else 1 + LowerBound(list[1..], kind, id)
  }

  lemma {:induction false} LowerBoundIs(list: seq<Entry>, kind: nat, id: nat)
    requires Sorted(list)
    ensures var n := LowerBound(list, kind, id);
            && (forall k :: 0 <= k < n ==> list[k].Before(kind, id))
            && (forall k :: n <= k < |list| ==> !list[k].Before(kind, id))
  {
    if list != [] && list[0].Before(kind, id) { LowerBoundIs(list[1..], kind, id); }
  }

  /** The entry with this key, by plain search. */
  function Find(list: seq<Entry>, kind: nat, id: nat): Option<nat> {
    if list == [] then None
    else if list[0].Is(kind, id) then Some(list[0].rights)
    else Find(list[1..], kind, id)
  }

  lemma {:induction false} FindAt(list: seq<Entry>, kind: nat, id: nat, k: nat)
    requires Sorted(list) && k < |list| && list[k].Is(kind, id)
    ensures Find(list, kind, id) == Some(list[k].rights)
  {
    if k > 0 { FindAt(list[1..], kind, id, k - 1); }
  }

  lemma {:induction false} FindNone(list: seq<Entry>, kind: nat, id: nat)
    requires forall e <- list :: !e.Is(kind, id)
    ensures Find(list, kind, id) == None
  {
    if list != [] {
      assert list[0] in list;
      FindNone(list[1..], kind, id);
    }
  }

  lemma {:induction false} FindSome(list: seq<Entry>, kind: nat, id: nat) returns (k: nat)
    requires Find(list, kind, id).Some?
    ensures k < |list| && list[k].Is(kind, id)
  {
    if list[0].Is(kind, id) { k := 0; } else { k := FindSome(list[1..], kind, id); k := k + 1; }
  }

  function HasAt(list: seq<Entry>, n: nat, kind: nat, id: nat): bool { n < |list| && list[n].Is(kind, id) }

  /** The position lower_bound gives holds the key exactly when the list does. */
  lemma FoundAtBound(list: seq<Entry>, kind: nat, id: nat)
    requires Sorted(list)
    ensures var n := LowerBound(list, kind, id);
            Find(list, kind, id) == if HasAt(list, n, kind, id) then Some(list[n].rights) else None
  {
    var n := LowerBound(list, kind, id);
    LowerBoundIs(list, kind, id);
    if HasAt(list, n, kind, id) {
      FindAt(list, kind, id, n);
    } else {
      forall e | e in list ensures !e.Is(kind, id) {
        var k :| 0 <= k < |list| && list[k] == e;
        if k > n { assert list[n].Before(list[k].kind, list[k].id); }
      }
      FindNone(list, kind, id);
    }
  }

  // ---------------------------------------------------------------- operations

  /** getEntry. */
  function GetEntry(a: Acl, kind: nat, id: nat): Entry {
    if kind <= NAMED_GROUP then
      var n := LowerBound(a.list, kind, id);
      if HasAt(a.list, n, kind, id) then a.list[n] else Entry(INVALID, UNDEFINED_ID, 0)
    else if kind == USER then Entry(USER, UNDEFINED_ID, a.owner)
    else if kind == GROUP then Entry(GROUP, UNDEFINED_ID, a.group)
    else if kind == OTHER then Entry(OTHER, UNDEFINED_ID, a.other)
    else if kind == MASK && a.mask != MASK_UNSET then Entry(MASK, UNDEFINED_ID, a.mask)
    else Entry(INVALID, UNDEFINED_ID, 0)
  }

  /** setEntry; `capacity` is the largest size of the list. */
  function SetEntry(a: Acl, kind: nat, id: nat, rights: nat, capacity: nat): Acl {
    if kind <= NAMED_GROUP then
      var n := LowerBound(a.list, kind, id);
      if HasAt(a.list, n, kind, id) then a.(list := a.list[n := Entry(kind, id, rights)])
      else if |a.list| < capacity then a.(list := a.list[..n] + [Entry(kind, id, rights)] + a.list[n..])
      else a
    else if kind == USER then a.(owner := rights)
    else if kind == GROUP then a.(group := rights)
    else if kind == OTHER then a.(other := rights)
    else if kind == MASK then a.(mask := rights)
    else a
  }

  /** removeEntry. */
  function RemoveEntry(a: Acl, kind: nat, id: nat): Acl {
    if kind <= NAMED_GROUP then
      var n := LowerBound(a.list, kind, id);
      if HasAt(a.list, n, kind, id) then a.(list := a.list[..n] + a.list[n + 1..]) else a
    else if kind == USER then a.(owner := 0)
    else if kind == GROUP then a.(group := 0)
    else if kind == OTHER then a.(other := 0)
    else if kind == MASK then a.(mask := MASK_UNSET)
    else a
  }

  lemma InsertedSorted(list: seq<Entry>, e: Entry)
    requires Sorted(list) && !HasAt(list, LowerBound(list, e.kind, e.id), e.kind, e.id)
    ensures var n := LowerBound(list, e.kind, e.id); Sorted(list[..n] + [e] + list[n..])
  {
    LowerBoundIs(list, e.kind, e.id);
  }

  /** setEntry keeps the list well-formed and changes the map at its key only. */
  lemma SetIsMapUpdate(a: Acl, kind: nat, id: nat, rights: nat, capacity: nat, k: nat, i: nat)
    requires WellFormed(a) && kind <= NAMED_GROUP && id <= UNDEFINED_ID && rights <= 7
    ensures var b := SetEntry(a, kind, id, rights, capacity);
            && WellFormed(b) && b.(list := a.list) == a
            && Find(b.list, k, i) ==
               if k == kind && i == id && (Find(a.list, kind, id).Some? || |a.list| < capacity) then Some(rights)
               else Find(a.list, k, i)
  {
    var b, n := SetEntry(a, kind, id, rights, capacity), LowerBound(a.list, kind, id);
    FoundAtBound(a.list, kind, id);
    if HasAt(a.list, n, kind, id) {
      assert Sorted(b.list);
      SameElsewhere(a.list, b.list, k, i, n);
      if k == kind && i == id { FindAt(b.list, kind, id, n); }
    } else if |a.list| < capacity {
      InsertedSorted(a.list, Entry(kind, id, rights));
      Inserted(a.list, n, Entry(kind, id, rights), k, i);
      if k == kind && i == id { FindAt(b.list, kind, id, n); }
    }
  }

  lemma SameElsewhere(xs: seq<Entry>, ys: seq<Entry>, k: nat, i: nat, n: nat)
    requires Sorted(xs) && Sorted(ys) && |xs| == |ys| && n < |xs| && xs[n].Is(ys[n].kind, ys[n].id) && ys == xs[n := ys[n]]
    ensures !xs[n].Is(k, i) ==> Find(ys, k, i) == Find(xs, k, i)
  {
    if !xs[n].Is(k, i) {
      if Find(xs, k, i).Some? {
        var m := FindSome(xs, k, i);
        FindAt(xs, k, i, m);
        FindAt(ys, k, i, m);
      } else if Find(ys, k, i).Some? {
        var m := FindSome(ys, k, i);
        FindAt(xs, k, i, m);
      }
    }
  }

  lemma Inserted(xs: seq<Entry>, n: nat, e: Entry, k: nat, i: nat)
    requires n <= |xs| && Sorted(xs) && Sorted(xs[..n] + [e] + xs[n..])
    ensures !e.Is(k, i) ==> Find(xs[..n] + [e] + xs[n..], k, i) == Find(xs, k, i)
  {
    var ys := xs[..n] + [e] + xs[n..];
    assert forall m :: 0 <= m < |xs| ==> xs[m] == ys[if m < n then m else m + 1];
    if !e.Is(k, i) {
      if Find(xs, k, i).Some? {
        var m := FindSome(xs, k, i);
        FindAt(xs, k, i, m);
        FindAt(ys, k, i, if m < n then m else m + 1);
      } else if Find(ys, k, i).Some? {
        var m := FindSome(ys, k, i);
        FindAt(xs, k, i, if m < n then m else m - 1);
      }
    }
  }

  lemma RemovedSorted(xs: seq<Entry>, n: nat)
    requires n < |xs| && Sorted(xs)
    ensures Sorted(xs[..n] + xs[n + 1..]) && xs[..n] + [xs[n]] + (xs[..n] + xs[n + 1..])[n..] == xs
  {}

  lemma RemovedGone(xs: seq<Entry>, n: nat)
    requires n < |xs| && Sorted(xs)
    ensures Find(xs[..n] + xs[n + 1..], xs[n].kind, xs[n].id) == None
  {
    var ys := xs[..n] + xs[n + 1..];
    forall e | e in ys ensures !e.Is(xs[n].kind, xs[n].id) {
      var m :| 0 <= m < |ys| && ys[m] == e;
      assert e == xs[if m < n then m else m + 1];
    }
    FindNone(ys, xs[n].kind, xs[n].id);
  }

  lemma RemovedElsewhere(xs: seq<Entry>, n: nat, k: nat, i: nat)
    requires n < |xs| && Sorted(xs) && !xs[n].Is(k, i)
    ensures Find(xs[..n] + xs[n + 1..], k, i) == Find(xs, k, i)
  {
    var ys := xs[..n] + xs[n + 1..];
    RemovedSorted(xs, n);
    assert ys[..n] == xs[..n] && ys[..n] + [xs[n]] + ys[n..] == xs;
    Inserted(ys, n, xs[n], k, i);
  }

  /** removeEntry keeps the list well-formed and removes its key only. */
  lemma RemoveIsMapRemoval(a: Acl, kind: nat, id: nat, k: nat, i: nat)
    requires WellFormed(a) && kind <= NAMED_GROUP
    ensures var b := RemoveEntry(a, kind, id);
            && WellFormed(b) && b.(list := a.list) == a
            && Find(b.list, k, i) == if k == kind && i == id then None else Find(a.list, k, i)
  {
    var n := LowerBound(a.list, kind, id);
    FoundAtBound(a.list, kind, id);
    if HasAt(a.list, n, kind, id) {
      RemovedSorted(a.list, n);
      if k == kind && i == id { RemovedGone(a.list, n); } else { RemovedElsewhere(a.list, n, k, i); }
    }
  }

  // ---------------------------------------------------------------- any sequence of changes

  datatype Change = Sets(kind: nat, id: nat, rights: nat) | Removes(kind: nat, id: nat) {
    predicate Valid() { kind <= NAMED_GROUP && id <= UNDEFINED_ID && (Sets? ==> rights <= 7) }
  }

  function Changed(a: Acl, c: Change, capacity: nat): Acl {
    match c
    case Sets(kind, id, rights) => SetEntry(a, kind, id, rights, capacity)
    case Removes(kind, id) => RemoveEntry(a, kind, id)
  }

  function Changes(a: Acl, cs: seq<Change>, capacity: nat): Acl {
    if cs == [] then a else Changed(Changes(a, cs[..|cs| - 1], capacity), cs[|cs| - 1], capacity)
  }

  /** The finite map the list stands for, under the same changes: it takes a new key only
      while it has fewer than `capacity`. */
  function MapChanged(m: map<(nat, nat), nat>, c: Change, capacity: nat): map<(nat, nat), nat> {
    match c
    case Sets(kind, id, rights) => if (kind, id) in m || |m| < capacity then m[(kind, id) := rights] else m
    case Removes(kind, id) => m - {(kind, id)}
  }

  function MapChanges(cs: seq<Change>, capacity: nat): map<(nat, nat), nat> {
    if cs == [] then map[] else MapChanged(MapChanges(cs[..|cs| - 1], capacity), cs[|cs| - 1], capacity)
  }

  ghost predicate Agrees(a: Acl, m: map<(nat, nat), nat>) {
    forall k: nat, i: nat :: Find(a.list, k, i) == if (k, i) in m then Some(m[(k, i)]) else None
  }

  lemma ChangedSize(a: Acl, m: map<(nat, nat), nat>, c: Change, capacity: nat)
    requires WellFormed(a) && Agrees(a, m) && c.Valid() && |a.list| == |m|
    ensures |Changed(a, c, capacity).list| == |MapChanged(m, c, capacity)|
  {
    FoundAtBound(a.list, c.kind, c.id);
    assert Find(a.list, c.kind, c.id).Some? <==> (c.kind, c.id) in m;
    hide WellFormed, Agrees, Find, LowerBound;
    MapSizes(m, (c.kind, c.id), if c.Sets? then c.rights else 0);
  }

  lemma MapSizes(m: map<(nat, nat), nat>, key: (nat, nat), v: nat)
    ensures |m[key := v]| == |m| + if key in m then 0 else 1
    ensures |m - {key}| == |m| - if key in m then 1 else 0
  {
    assert |m| == |m.Keys| && |m[key := v]| == |m[key := v].Keys| && |m - {key}| == |(m - {key}).Keys|;
    assert m[key := v].Keys == m.Keys + {key} && (m - {key}).Keys == m.Keys - {key};
  }

  lemma ChangedAgrees(a: Acl, m: map<(nat, nat), nat>, c: Change, capacity: nat)
    requires WellFormed(a) && Agrees(a, m) && c.Valid() && |a.list| == |m|
    ensures WellFormed(Changed(a, c, capacity)) && Agrees(Changed(a, c, capacity), MapChanged(m, c, capacity))
  {
    var m' := MapChanged(m, c, capacity);
    forall k: nat, i: nat ensures Find(Changed(a, c, capacity).list, k, i) == if (k, i) in m' then Some(m'[(k, i)]) else None {
      assert Find(a.list, k, i) == if (k, i) in m then Some(m[(k, i)]) else None;
      assert Find(a.list, c.kind, c.id).Some? <==> (c.kind, c.id) in m;
      hide WellFormed, Find;
      match c
      case Sets(kind, id, rights) => SetIsMapUpdate(a, kind, id, rights, capacity, k, i);
      case Removes(kind, id) => RemoveIsMapRemoval(a, kind, id, k, i);
    }
    assert WellFormed(Changed(a, c, capacity)) by {
      match c
      case Sets(kind, id, rights) => SetIsMapUpdate(a, kind, id, rights, capacity, 0, 0);
      case Removes(kind, id) => RemoveIsMapRemoval(a, kind, id, 0, 0);
    }
  }

  /** Under any sequence of changes the sorted list is the finite map, which holds at most
      `capacity` keys. */
  lemma {:induction false} ListIsMap(cs: seq<Change>, capacity: nat)
    requires forall c <- cs :: c.Valid()
    ensures WellFormed(Changes(Empty(), cs, capacity)) && Agrees(Changes(Empty(), cs, capacity), MapChanges(cs, capacity))
    ensures |Changes(Empty(), cs, capacity).list| == |MapChanges(cs, capacity)| <= capacity
  {
    if cs != [] {
      var n := |cs| - 1;
      assert cs[n] in cs;
      ListIsMap(cs[..n], capacity);
      var a, m := Changes(Empty(), cs[..n], capacity), MapChanges(cs[..n], capacity);
      BoundKept(m, cs[n], capacity);
      hide WellFormed, Agrees, Changed, MapChanged;
      ChangedAgrees(a, m, cs[n], capacity);
      ChangedSize(a, m, cs[n], capacity);
    }
  }

  lemma BoundKept(m: map<(nat, nat), nat>, c: Change, capacity: nat)
    requires |m| <= capacity
    ensures |MapChanged(m, c, capacity)| <= capacity
  {
    MapSizes(m, (c.kind, c.id), if c.Sets? then c.rights else 0);
  }

  /** getEntry answers as the map does. */
  lemma GetIsLookup(a: Acl, m: map<(nat, nat), nat>, kind: nat, id: nat)
    requires WellFormed(a) && Agrees(a, m) && kind <= NAMED_GROUP
    ensures GetEntry(a, kind, id) == if (kind, id) in m then Entry(kind, id, m[(kind, id)]) else Entry(INVALID, UNDEFINED_ID, 0)
  {
    FoundAtBound(a.list, kind, id);
  }
}
