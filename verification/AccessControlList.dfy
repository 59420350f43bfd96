/** The AccessControlList object: its sorted list and its packed permissions, changed in place,
    against the operations on values in module Acls. */
module AccessControlLists {
  import opened ChunkTypes
  import opened Acls

  // ---------------------------------------------------------------- packed permissions

  function Owner(b: bv16): bv16 { (b >> 8) & 0xF }
  function Group(b: bv16): bv16 { (b >> 4) & 0xF }
  function Other(b: bv16): bv16 { b & 0xF }
  function Mask(b: bv16): bv16 { b >> 12 }

  function WithOwner(b: bv16, v: bv16): (r: bv16)
    ensures Owner(r) == v & 0xF && Group(r) == Group(b) && Other(r) == Other(b) && Mask(r) == Mask(b)
  {
    (b & 0xF0FF) | ((v & 0xF) << 8)
  }

  function WithGroup(b: bv16, v: bv16): (r: bv16)
    ensures Group(r) == v & 0xF && Owner(r) == Owner(b) && Other(r) == Other(b) && Mask(r) == Mask(b)
  {
    (b & 0xFF0F) | ((v & 0xF) << 4)
  }

  function WithOther(b: bv16, v: bv16): (r: bv16)
    ensures Other(r) == v & 0xF && Owner(r) == Owner(b) && Group(r) == Group(b) && Mask(r) == Mask(b)
  {
    (b & 0xFFF0) | (v & 0xF)
  }

  function WithMask(b: bv16, v: bv16): (r: bv16)
    ensures Mask(r) == v & 0xF && Owner(r) == Owner(b) && Group(r) == Group(b) && Other(r) == Other(b)
  {
    (b & 0x0FFF) | ((v & 0xF) << 12)
  }

  /** Four bits hold a rights value. */
  lemma Nibble(v: nat)
    requires v <= 15
    ensures ((v as bv16) & 0xF) as nat == v
  {
    if v == 0 {} else if v == 1 {} else if v == 2 {} else if v == 3 {} else if v == 4 {} else if v == 5 {}
    else if v == 6 {} else if v == 7 {} else if v == 8 {} else if v == 9 {} else if v == 10 {} else if v == 11 {}
    else if v == 12 {} else if v == 13 {} else if v == 14 {}
  }

  function Unpacked(list: seq<Entry>, b: bv16): Acl {
    Acl(list, Owner(b) as nat, Group(b) as nat, Other(b) as nat, Mask(b) as nat)
  }

  lemma PackedSingle(list: seq<Entry>, b: bv16, v: nat)
    requires v <= 15
    ensures Unpacked(list, WithOwner(b, v as bv16)) == Unpacked(list, b).(owner := v)
    ensures Unpacked(list, WithGroup(b, v as bv16)) == Unpacked(list, b).(group := v)
    ensures Unpacked(list, WithOther(b, v as bv16)) == Unpacked(list, b).(other := v)
    ensures Unpacked(list, WithMask(b, v as bv16)) == Unpacked(list, b).(mask := v)
  {
    hide Owner, Group, Other, Mask, WithOwner, WithGroup, WithOther, WithMask;
    Nibble(v);
  }

  // ---------------------------------------------------------------- the mode

  function Mode(b: bv16): bv16 {
    var middle := if Mask(b) != 0xF then Mask(b) else Group(b);
    (Other(b) & 0x7) | ((middle & 0x7) << 3) | ((Owner(b) & 0x7) << 6)
  }

  function ModeSet(b: bv16, mode: bv16): bv16 {
    var c := WithOwner(WithOther(b, mode & 0x7), (mode >> 6) & 0x7);
    if Mask(c) == 0xF then WithGroup(c, (mode >> 3) & 0x7) else WithMask(c, (mode >> 3) & 0x7)
  }

  /** The mode that was set is the mode that is got; it goes to the mask if there is one, and
      to the group otherwise, and the other of the two stays. */
  lemma ModeBack(b: bv16, mode: bv16)
    ensures Mode(ModeSet(b, mode)) == mode & 0x1FF
    ensures Mask(b) == 0xF ==> Mask(ModeSet(b, mode)) == 0xF
    ensures Mask(b) != 0xF ==> Group(ModeSet(b, mode)) == Group(b) && Mask(ModeSet(b, mode)) != 0xF
  {}

  // ---------------------------------------------------------------- rights, bit by bit

  predicate Bit(rights: nat, k: nat) {
    if k == 0 then rights % 2 == 1 else if k == 1 then rights / 2 % 2 == 1 else rights / 4 % 2 == 1
  }

  function Bits(x: bool, w: bool, r: bool): (v: nat)
    ensures v <= 7 && Bit(v, 0) == x && Bit(v, 1) == w && Bit(v, 2) == r
  {
    (if x then 1 else 0) + (if w then 2 else 0) + (if r then 4 else 0)
  }

  function Or(a: nat, b: nat): (v: nat)
    ensures v <= 7
    ensures forall k | k <= 2 :: Bit(v, k) == (Bit(a, k) || Bit(b, k))
  {
    Bits(Bit(a, 0) || Bit(b, 0), Bit(a, 1) || Bit(b, 1), Bit(a, 2) || Bit(b, 2))
  }

  function And(a: nat, b: nat): (v: nat)
    ensures v <= 7
    ensures forall k | k <= 2 :: Bit(v, k) == (Bit(a, k) && Bit(b, k))
  {
    Bits(Bit(a, 0) && Bit(b, 0), Bit(a, 1) && Bit(b, 1), Bit(a, 2) && Bit(b, 2))
  }

  predicate MaskAllows(a: Acl, k: nat) { a.mask == MASK_UNSET || Bit(a.mask, k) }

  predicate NamedGrants(a: Acl, groups: seq<nat>, k: nat) {
    exists g <- groups :: Find(a.list, NAMED_GROUP, g).Some? && Bit(Find(a.list, NAMED_GROUP, g).value, k)
  }

  predicate InNamedGroup(a: Acl, groups: seq<nat>) { exists g <- groups :: Find(a.list, NAMED_GROUP, g).Some? }

  predicate InSomeGroup(a: Acl, ownerGid: nat, groups: seq<nat>) {
    ownerGid in groups || InNamedGroup(a, groups)
  }

  /** The access rule, one permission bit at a time: the owner by its entry; a named user by
      its entry and the mask; a member of matching groups if one of their entries grants the
      bit and the mask does; anyone else by the entry for others. */
  predicate Granted(a: Acl, ownerUid: nat, ownerGid: nat, uid: nat, groups: seq<nat>, k: nat) {
    if uid == ownerUid then Bit(a.owner, k)
    else if Find(a.list, NAMED_USER, uid).Some? then Bit(Find(a.list, NAMED_USER, uid).value, k) && MaskAllows(a, k)
    else if InSomeGroup(a, ownerGid, groups) then
      ((ownerGid in groups && Bit(a.group, k)) || NamedGrants(a, groups, k)) && MaskAllows(a, k)
    else Bit(a.other, k)
  }

  // ---------------------------------------------------------------- the object

  /** A position with smaller entries before it and no smaller entry from it on is lower_bound's. */
  lemma {:induction false} BoundUnique(list: seq<Entry>, kind: nat, id: nat, n: nat)
    requires n <= |list|
    requires forall k :: 0 <= k < n ==> list[k].Before(kind, id)
    requires forall k :: n <= k < |list| ==> !list[k].Before(kind, id)
    ensures LowerBound(list, kind, id) == n
  {
    if n > 0 { BoundUnique(list[1..], kind, id, n - 1); }
  }

  class AccessControlList {
    const capacity: nat
    var list: seq<Entry>
    var basic: bv16

    ghost function View(): Acl
      reads this
    {
      Unpacked(list, basic)
    }

    ghost predicate Valid()
      reads this
    {
      WellFormed(View()) && |list| <= capacity
    }

    constructor (capacity: nat)
      ensures this.capacity == capacity && View() == Empty() && Valid()
    {
      this.capacity := capacity;
      list := [];
      basic := 0xF000;
    }

    /** lower_bound by halving. */
    method Bound(kind: nat, id: nat) returns (n: nat)
      requires Sorted(list)
      ensures n == LowerBound(list, kind, id)
    {
      var len := |list|;
      n := 0;
      while len > 0
        invariant 0 <= len && n + len <= |list|
        invariant forall k :: 0 <= k < n ==> list[k].Before(kind, id)
        invariant forall k :: n + len <= k < |list| ==> !list[k].Before(kind, id)
      {
        var half := len / 2;
        var mid := n + half;
        assert forall k :: 0 <= k < mid ==> list[k].Before(list[mid].kind, list[mid].id);
        assert forall k :: mid < k < |list| ==> list[mid].Before(list[k].kind, list[k].id);
        if list[mid].Before(kind, id) {
          n := mid + 1;
          len := len - half - 1;
        } else {
          len := half;
        }
      }
      BoundUnique(list, kind, id, n);
    }

    /** getEntry. */
    method Get(kind: nat, id: nat) returns (e: Entry)
      requires Valid() && kind < INVALID
      ensures e == GetEntry(View(), kind, id)
    {
      if kind <= NAMED_GROUP {
        var n := Bound(kind, id);
        if n < |list| && list[n].Is(kind, id) { return list[n]; }
      } else if kind == USER {
        return Entry(USER, UNDEFINED_ID, Owner(basic) as nat);
      } else if kind == GROUP {
        return Entry(GROUP, UNDEFINED_ID, Group(basic) as nat);
      } else if kind == OTHER {
        return Entry(OTHER, UNDEFINED_ID, Other(basic) as nat);
      } else if Mask(basic) as nat != MASK_UNSET {
        return Entry(MASK, UNDEFINED_ID, Mask(basic) as nat);
      }
      e := Entry(INVALID, UNDEFINED_ID, 0);
    }

    /** setEntry. */
    method Set(kind: nat, id: nat, rights: nat)
      requires Valid() && kind < INVALID && id <= UNDEFINED_ID && rights <= 7
      modifies this
      ensures View() == SetEntry(old(View()), kind, id, rights, capacity) && Valid()
    {
      hide LowerBound, Owner, Group, Other, Mask, WithOwner, WithGroup, WithOther, WithMask;
      if kind <= NAMED_GROUP {
        SetIsMapUpdate(View(), kind, id, rights, capacity, 0, 0);
        var n := Bound(kind, id);
        if n < |list| {
          if list[n].Is(kind, id) {
            list := list[n := Entry(kind, id, rights)];
            return;
          }
        }
        if |list| < capacity { list := list[..n] + [Entry(kind, id, rights)] + list[n..]; }
      } else {
        PackedSingle(list, basic, rights);
        if kind == USER { basic := WithOwner(basic, rights as bv16); }
        else if kind == GROUP { basic := WithGroup(basic, rights as bv16); }
        else if kind == OTHER { basic := WithOther(basic, rights as bv16); }
        else { basic := WithMask(basic, rights as bv16); }
      }
    }

    /** removeEntry. */
    method Remove(kind: nat, id: nat)
      requires Valid() && kind < INVALID
      modifies this
      ensures View() == RemoveEntry(old(View()), kind, id) && Valid()
    {
      hide LowerBound, Owner, Group, Other, Mask, WithOwner, WithGroup, WithOther, WithMask;
      if kind <= NAMED_GROUP {
        RemoveIsMapRemoval(View(), kind, id, 0, 0);
        var n := Bound(kind, id);
        if n < |list| && list[n].Is(kind, id) { list := list[..n] + list[n + 1..]; }
      } else {
        PackedSingle(list, basic, 0);
        PackedSingle(list, basic, 15);
        if kind == USER { basic := WithOwner(basic, 0); }
        else if kind == GROUP { basic := WithGroup(basic, 0); }
        else if kind == OTHER { basic := WithOther(basic, 0); }
        else { basic := WithMask(basic, 0xF); }
      }
    }

    /** getMode. */
    method GetMode() returns (mode: bv16)
      ensures mode == Mode(basic)
    {
      if Mask(basic) != 0xF {
        return (Other(basic) & 0x7) | ((Mask(basic) & 0x7) << 3) | ((Owner(basic) & 0x7) << 6);
      }
      mode := (Other(basic) & 0x7) | ((Group(basic) & 0x7) << 3) | ((Owner(basic) & 0x7) << 6);
    }

    /** setMode. */
    method SetMode(mode: bv16)
      modifies this`basic
      ensures basic == ModeSet(old(basic), mode) && Mode(basic) == mode & 0x1FF
    {
      ModeBack(basic, mode);
      basic := WithOther(basic, mode & 0x7);
      basic := WithOwner(basic, (mode >> 6) & 0x7);
      if Mask(basic) == 0xF { basic := WithGroup(basic, (mode >> 3) & 0x7); }
      else { basic := WithMask(basic, (mode >> 3) & 0x7); }
    }

    /** applyMask. */
    method ApplyMask(rights: nat) returns (r: nat)
      requires rights <= 7
      ensures r <= 7 && forall k | k <= 2 :: Bit(r, k) == (Bit(rights, k) && MaskAllows(View(), k))
    {
      if Mask(basic) as nat != MASK_UNSET { return And(rights, Mask(basic) as nat); }
      r := rights;
    }

    /** getEffectiveRights. */
    method GetEffectiveRights(ownerUid: nat, ownerGid: nat, uid: nat, groups: seq<nat>) returns (r: nat)
      requires Valid()
      ensures r <= 7
      ensures forall k | k <= 2 :: Bit(r, k) == Granted(View(), ownerUid, ownerGid, uid, groups, k)
    {
      hide WellFormed, Bit, LowerBound, Find, Owner, Group, Other, Mask, InNamedGroup, NamedGrants, MaskAllows;
      Limits(View());
      if uid == ownerUid {
        var e := Get(USER, 0);
        return e.rights;
      }
      FoundAtBound(list, NAMED_USER, uid);
      var user := Get(NAMED_USER, uid);
      NamedRights(View(), NAMED_USER, uid);
      if user.kind != INVALID {
        r := ApplyMask(user.rights);
        return;
      }
      var rights, found := 0, false;
      NoneYet(View(), groups);
      if ownerGid in groups {
        var e := Get(GROUP, 0);
        rights, found := e.rights, true;
      }
      for i := 0 to |groups|
        invariant rights <= 7 && found == (ownerGid in groups || InNamedGroup(View(), groups[..i]))
        invariant forall k | k <= 2 :: Bit(rights, k) == ((ownerGid in groups && Bit(View().group, k)) || NamedGrants(View(), groups[..i], k))
      {
        var e := Get(NAMED_GROUP, groups[i]);
        NamedRights(View(), NAMED_GROUP, groups[i]);
        OneMore(View(), groups, i);
        if e.kind != INVALID {
          rights := Or(rights, e.rights);
          found := true;
        }
      }
      assert groups[..|groups|] == groups;
      if found {
        r := ApplyMask(rights);
        return;
      }
      var e := Get(OTHER, 0);
      r := e.rights;
    }
  }

  lemma NoneYet(a: Acl, groups: seq<nat>)
    ensures forall k :: !Bit(0, k)
    ensures !InNamedGroup(a, groups[..0]) && forall k :: !NamedGrants(a, groups[..0], k)
  {}

  lemma Limits(a: Acl)
    requires WellFormed(a)
    ensures a.owner <= 7 && a.group <= 7 && a.other <= 7 && Sorted(a.list)
  {}

  /** What getEntry says of a named key. */
  lemma NamedRights(a: Acl, kind: nat, id: nat)
    requires WellFormed(a) && kind <= NAMED_GROUP
    ensures var e := GetEntry(a, kind, id);
            && Find(a.list, kind, id) == (if e.kind == INVALID then None else Some(e.rights))
            && e.rights <= 7
  {
    var n := LowerBound(a.list, kind, id);
    if HasAt(a.list, n, kind, id) { assert a.list[n] in a.list; }
    FoundAtBound(a.list, kind, id);
  }

  lemma OneMore(a: Acl, groups: seq<nat>, i: nat)
    requires i < |groups|
    ensures var f := Find(a.list, NAMED_GROUP, groups[i]);
            && InNamedGroup(a, groups[..i + 1]) == (InNamedGroup(a, groups[..i]) || f.Some?)
            && forall k :: NamedGrants(a, groups[..i + 1], k) == (NamedGrants(a, groups[..i], k) || (f.Some? && Bit(f.value, k)))
  {
    hide Find, Bit;
    assert groups[..i + 1] == groups[..i] + [groups[i]];
    assert groups[i] in groups[..i + 1];
    assert forall g <- groups[..i] :: g in groups[..i + 1];
  }
}
