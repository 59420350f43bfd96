/** aclConverter: the extended attribute form of an ACL (version 2, little endian, one
    eight-byte record per entry). */
module AclXattr {
  import opened ChunkTypes
  import opened Acls
  import AclText

  const VERSION: nat := 2
  const ENTRY: nat := 8

  function Le16(n: nat): (r: seq<u8>)
    requires n < 0x1_0000
    ensures |r| == 2
  {
    [(n % 256) as u8, (n / 256) as u8]
  }

  function Word16(b: seq<u8>): (r: nat)
    requires |b| == 2
    ensures r < 0x1_0000
  {
    b[0] as nat + 256 * b[1] as nat
  }

  function Le32(n: nat): (r: seq<u8>)
    requires n < 0x1_0000_0000
    ensures |r| == 4
  {
    Le16(n % 0x1_0000) + Le16(n / 0x1_0000)
  }

  function Word32(b: seq<u8>): (r: nat)
    requires |b| == 4
    ensures r < 0x1_0000_0000
  {
    Word16(b[..2]) + 0x1_0000 * Word16(b[2..])
  }

  lemma Word32Back(n: nat)
    requires n < 0x1_0000_0000
    ensures Word32(Le32(n)) == n
  {
    var lo, hi := Le16(n % 0x1_0000), Le16(n / 0x1_0000);
    assert (lo + hi)[..2] == lo && (lo + hi)[2..] == hi;
  }

  // ---------------------------------------------------------------- records

  function Tag(kind: nat): (r: nat)
    requires kind < INVALID
    ensures r < 0x1_0000
  {
    [0x02, 0x08, 0x01, 0x04, 0x20, 0x10][kind]
  }

  /** convertTag. */
  function KindOfTag(tag: nat): (r: nat)
    ensures r <= INVALID
  {
    if tag == 0x01 then USER else if tag == 0x02 then NAMED_USER
    else if tag == 0x04 then GROUP else if tag == 0x08 then NAMED_GROUP
    else if tag == 0x10 then MASK else if tag == 0x20 then OTHER else INVALID
  }

  /** An entry both sides accept: a named one, or one of the four single ones without an id. */
  predicate Storable(e: Entry) {
    && e.kind < INVALID && e.id <= UNDEFINED_ID && e.rights <= 7
    && (e.kind >= USER ==> e.id == UNDEFINED_ID)
  }

  /** storeEntry. */
  function Record(e: Entry): (r: seq<u8>)
    requires Storable(e)
    ensures |r| == ENTRY
  {
    Le16(Tag(e.kind)) + Le16(e.rights) + Le32(e.id)
  }

  /** extractEntry: the rights field keeps four bits of the sixteen. */
  function ExtractEntry(b: seq<u8>): (r: Option<Entry>)
    requires |b| == ENTRY
    ensures r.Some? ==> Storable(r.value) || r.value.kind == INVALID
  {
    var e := Entry(KindOfTag(Word16(b[..2])), Word32(b[4..]), Word16(b[2..4]) % 16);
    if e.rights > 7 then None
    else if USER <= e.kind < INVALID && e.id != UNDEFINED_ID then None
    else Some(e)
  }

  lemma RecordBack(e: Entry)
    requires Storable(e)
    ensures ExtractEntry(Record(e)) == Some(e)
  {
    var t, p, i := Le16(Tag(e.kind)), Le16(e.rights), Le32(e.id);
    var b := t + p + i;
    Fields(t, p, i);
    Word32Back(e.id);
    assert Word16(t) == Tag(e.kind) && Word16(p) == e.rights;
    assert KindOfTag(Tag(e.kind)) == e.kind;
    hide Word16, Word32, Le16, Le32, Tag, KindOfTag;
  }

  lemma Fields(t: seq<u8>, p: seq<u8>, i: seq<u8>)
    requires |t| == 2 && |p| == 2 && |i| == 4
    ensures (t + p + i)[..2] == t && (t + p + i)[2..4] == p && (t + p + i)[4..] == i
  {}

  function Records(es: seq<Entry>): (r: seq<u8>)
    requires forall e <- es :: Storable(e)
    ensures |r| == ENTRY * |es|
  {
    if es == [] then [] else Record(es[0]) + Records(es[1..])
  }

  lemma {:induction false} RecordsAppend(xs: seq<Entry>, ys: seq<Entry>)
    requires (forall e <- xs :: Storable(e)) && (forall e <- ys :: Storable(e))
    ensures Records(xs + ys) == Records(xs) + Records(ys)
  {
    hide Record, Storable;
    if xs == [] {
      assert xs + ys == ys;
    } else {
      assert (xs + ys)[0] == xs[0] && (xs + ys)[1..] == xs[1..] + ys;
      RecordsAppend(xs[1..], ys);
    }
  }

  // ---------------------------------------------------------------- encoding

  /** The entries of one kind, in list order. */
  function OfKind(list: seq<Entry>, kind: nat): (r: seq<Entry>)
    ensures forall e <- r :: e in list && e.kind == kind
  {
    if list == [] then []
    else if list[0].kind == kind then [list[0]] + OfKind(list[1..], kind)
    else OfKind(list[1..], kind)
  }

  function MaskEntries(a: Acl): seq<Entry> { if a.mask == MASK_UNSET then [] else [Entry(MASK, UNDEFINED_ID, a.mask)] }

  /** What the attribute lists: the owner, the named users, the group, the named groups, the
      mask if there is one, the others. */
  function Entries(a: Acl): seq<Entry> {
    [Entry(USER, UNDEFINED_ID, a.owner)] + OfKind(a.list, NAMED_USER) +
    [Entry(GROUP, UNDEFINED_ID, a.group)] + OfKind(a.list, NAMED_GROUP) +
    MaskEntries(a) + [Entry(OTHER, UNDEFINED_ID, a.other)]
  }

  lemma EntriesStorable(a: Acl)
    requires WellFormed(a)
    ensures forall e <- Entries(a) :: Storable(e)
  {}

  /** One of the two loops of aclObjectToXattr. */
  method StoreNamed(buffer: seq<u8>, list: seq<Entry>, kind: nat) returns (r: seq<u8>)
    requires forall e <- list :: Storable(e)
    ensures r == buffer + Records(OfKind(list, kind))
  {
    hide Record, Storable;
    r := buffer;
    for k := 0 to |list|
      invariant r + Records(OfKind(list[k..], kind)) == buffer + Records(OfKind(list, kind))
    {
      var e := list[k];
      assert e in list && list[k..][0] == e && list[k..][1..] == list[k + 1..];
      if e.kind != kind { continue; }
      ghost var rest := OfKind(list[k + 1..], kind);
      assert ([e] + rest)[0] == e && ([e] + rest)[1..] == rest;
      assert r + (Record(e) + Records(rest)) == r + Record(e) + Records(rest);
      r := r + Record(e);
    }
    assert r + [] == r;
  }

  /** storeEntry of a result of getEntry. */
  method StoreSingle(buffer: seq<u8>, e: Entry) returns (r: seq<u8>)
    requires e.kind == INVALID || Storable(e)
    ensures r == if e.kind == INVALID then buffer else buffer + Records([e])
  {
    if e.kind == INVALID { return buffer; }
    assert [e][1..] == [] && Record(e) + [] == Record(e);
    r := buffer + Record(e);
  }

  /** aclObjectToXattr. */
  method AclObjectToXattr(a: Acl) returns (r: seq<u8>)
    requires WellFormed(a)
    ensures (forall e <- Entries(a) :: Storable(e)) && r == Le32(VERSION) + Records(Entries(a))
  {
    hide Record, Records, Storable, Le32, WellFormed;
    EntriesStorable(a);
    Singles(a);
    r := Le32(VERSION);
    r := StoreSingle(r, GetEntry(a, USER, 0));
    r := StoreNamed(r, a.list, NAMED_USER);
    r := StoreSingle(r, GetEntry(a, GROUP, 0));
    r := StoreNamed(r, a.list, NAMED_GROUP);
    r := StoreSingle(r, GetEntry(a, MASK, 0));
    r := StoreSingle(r, GetEntry(a, OTHER, 0));
    Joined(Le32(VERSION), [GetEntry(a, USER, 0)], OfKind(a.list, NAMED_USER), [GetEntry(a, GROUP, 0)],
           OfKind(a.list, NAMED_GROUP), MaskEntries(a), [GetEntry(a, OTHER, 0)]);
    assert a.mask == MASK_UNSET ==> forall b: seq<u8> :: b + Records([]) == b by { NoRecords(); }
  }

  lemma Singles(a: Acl)
    requires WellFormed(a)
    ensures Storable(GetEntry(a, USER, 0)) && Storable(GetEntry(a, GROUP, 0)) && Storable(GetEntry(a, OTHER, 0))
    ensures GetEntry(a, MASK, 0).kind == INVALID || Storable(GetEntry(a, MASK, 0))
    ensures forall e <- a.list :: Storable(e)
    ensures forall e <- MaskEntries(a) :: Storable(e)
  {}

  lemma NoRecords()
    ensures forall b: seq<u8> :: b + Records([]) == b
  {}

  lemma Joined(h: seq<u8>, a: seq<Entry>, b: seq<Entry>, c: seq<Entry>, d: seq<Entry>, m: seq<Entry>, o: seq<Entry>)
    requires forall e <- a + b + c + d + m + o :: Storable(e)
    ensures (forall e <- a :: Storable(e)) && (forall e <- b :: Storable(e)) && (forall e <- c :: Storable(e))
    ensures (forall e <- d :: Storable(e)) && (forall e <- m :: Storable(e)) && (forall e <- o :: Storable(e))
    ensures h + Records(a + b + c + d + m + o) ==
            h + Records(a) + Records(b) + Records(c) + Records(d) + Records(m) + Records(o)
  {
    hide Records, Storable;
    assert forall e <- a :: e in a + b + c + d + m + o;
    assert forall e <- b :: e in a + b + c + d + m + o;
    assert forall e <- c :: e in a + b + c + d + m + o;
    assert forall e <- d :: e in a + b + c + d + m + o;
    assert forall e <- m :: e in a + b + c + d + m + o;
    assert forall e <- o :: e in a + b + c + d + m + o;
    RecordsAppend(a, b);
    RecordsAppend(a + b, c);
    RecordsAppend(a + b + c, d);
    RecordsAppend(a + b + c + d, m);
    RecordsAppend(a + b + c + d + m, o);
    var x := Records(a) + Records(b) + Records(c) + Records(d) + Records(m) + Records(o);
    assert h + x == h + Records(a) + Records(b) + Records(c) + Records(d) + Records(m) + Records(o);
  }

  // ---------------------------------------------------------------- decoding

  /** One entry of the scan: set it, unless its tag was seen and may not repeat. */
  function Scan(a: Acl, tags: set<nat>, e: Entry, capacity: nat): Option<(Acl, set<nat>)> {
    if e.kind >= USER && e.kind in tags then None
    else Some((SetEntry(a, e.kind, e.id, e.rights, capacity), tags + {e.kind}))
  }

  /** The scan over records; a last record that is too short is an error. */
  function ScanAll(b: seq<u8>, a: Acl, tags: set<nat>, capacity: nat): Option<(Acl, set<nat>)> {
    if b == [] then Some((a, tags))
    else if |b| < ENTRY then None
    else
      var e := ExtractEntry(b[..ENTRY]);
      if e.None? || e.value.kind == INVALID then None
      else
        var s := Scan(a, tags, e.value, capacity);
        if s.None? then None else ScanAll(b[ENTRY..], s.value.0, s.value.1, capacity)
  }

  function Decode(b: seq<u8>, capacity: nat): Option<Acl> {
    if |b| < 4 || Word32(b[..4]) != VERSION then None
    else
      var s := ScanAll(b[4..], Empty(), {}, capacity);
      if s.None? || !({USER, GROUP, OTHER} <= s.value.1) then None else Some(s.value.0)
  }

  /** extractAclObject. */
  method ExtractAclObject(b: seq<u8>, capacity: nat) returns (r: Option<Acl>)
    ensures r == Decode(b, capacity)
  {
    hide ExtractEntry, SetEntry, Word32;
    if |b| < 4 { return None; }
    if Word32(b[..4]) != VERSION { return None; }
    var a: Acl, tags: set<nat> := Empty(), {};
    var at := 4;
    while at < |b|
      invariant 4 <= at <= |b| && ScanAll(b[at..], a, tags, capacity) == ScanAll(b[4..], Empty(), {}, capacity)
    {
      if |b| - at < ENTRY { return None; }
      assert b[at..][..ENTRY] == b[at..at + ENTRY] && b[at..][ENTRY..] == b[at + ENTRY..];
      var e := ExtractEntry(b[at..at + ENTRY]);
      if e.None? || e.value.kind == INVALID { return None; }
      a := SetEntry(a, e.value.kind, e.value.id, e.value.rights, capacity);
      if e.value.kind >= USER && e.value.kind in tags { return None; }
      tags := tags + {e.value.kind};
      at := at + ENTRY;
    }
    if USER !in tags || GROUP !in tags || OTHER !in tags { return None; }
    r := Some(a);
  }

  // ---------------------------------------------------------------- the round trip

  /** The scan on entries instead of bytes. */
  function Fold(es: seq<Entry>, a: Acl, tags: set<nat>, capacity: nat): Option<(Acl, set<nat>)> {
    if es == [] then Some((a, tags))
    else
      var s := Scan(a, tags, es[0], capacity);
      if s.None? then None else Fold(es[1..], s.value.0, s.value.1, capacity)
  }

  lemma {:induction false} ScanIsFold(es: seq<Entry>, a: Acl, tags: set<nat>, capacity: nat)
    requires forall e <- es :: Storable(e)
    ensures ScanAll(Records(es), a, tags, capacity) == Fold(es, a, tags, capacity)
  {
    if es != [] {
      var b := Records(es);
      assert es[0] in es;
      assert b[..ENTRY] == Record(es[0]) && b[ENTRY..] == Records(es[1..]);
      RecordBack(es[0]);
      hide Record, ExtractEntry, SetEntry;
      var s := Scan(a, tags, es[0], capacity);
      if s.Some? { ScanIsFold(es[1..], s.value.0, s.value.1, capacity); }
    }
  }

  lemma {:induction false} FoldAppend(xs: seq<Entry>, ys: seq<Entry>, a: Acl, tags: set<nat>, capacity: nat)
    ensures var m := Fold(xs, a, tags, capacity);
            Fold(xs + ys, a, tags, capacity) == if m.None? then None else Fold(ys, m.value.0, m.value.1, capacity)
  {
    hide SetEntry;
    if xs == [] {
      assert xs + ys == ys;
    } else {
      assert (xs + ys)[0] == xs[0] && (xs + ys)[1..] == xs[1..] + ys;
      var s := Scan(a, tags, xs[0], capacity);
      if s.Some? { FoldAppend(xs[1..], ys, s.value.0, s.value.1, capacity); }
    }
  }

  /** Named entries that follow the list in order are put at its end. */
  lemma {:induction false} FoldNamed(xs: seq<Entry>, a: Acl, tags: set<nat>, capacity: nat) returns (more: set<nat>)
    requires Sorted(a.list + xs) && |a.list + xs| <= capacity && forall e <- xs :: e.kind <= NAMED_GROUP
    ensures Fold(xs, a, tags, capacity) == Some((a.(list := a.list + xs), more))
    ensures forall k: nat | k >= USER :: k in more <==> k in tags
  {
    if xs == [] {
      assert a.list + xs == a.list;
      more := tags;
    } else {
      var e := xs[0];
      assert e in xs && a.list + [e] + xs[1..] == a.list + xs;
      assert a.list + [e] == (a.list + xs)[..|a.list| + 1];
      PrefixSorted(a.list + xs, |a.list| + 1);
      AclText.SetLast(a, e, capacity);
      hide SetEntry, Sorted;
      more := FoldNamed(xs[1..], a.(list := a.list + [e]), tags + {e.kind}, capacity);
    }
  }

  lemma PrefixSorted(list: seq<Entry>, k: nat)
    requires Sorted(list) && k <= |list|
    ensures Sorted(list[..k])
  {}

  /** In a sorted list the named users come before the named groups. */
  lemma {:induction false} UsersThenGroups(list: seq<Entry>)
    requires Sorted(list) && forall e <- list :: e.kind <= NAMED_GROUP
    ensures OfKind(list, NAMED_USER) + OfKind(list, NAMED_GROUP) == list
  {
    if list != [] {
      UsersThenGroups(list[1..]);
      if list[0].kind == NAMED_GROUP { NoUsers(list[1..]); }
    }
  }

  lemma {:induction false} NoUsers(list: seq<Entry>)
    requires forall e <- list :: e.kind != NAMED_USER
    ensures OfKind(list, NAMED_USER) == []
  {
    if list != [] {
      assert list[0] in list;
      NoUsers(list[1..]);
    }
  }

  lemma FoldOne(e: Entry, a: Acl, tags: set<nat>, capacity: nat)
    ensures Fold([e], a, tags, capacity) == Scan(a, tags, e, capacity)
  {
    assert [e][1..] == [];
  }

  /** A single entry that may be set, then the named entries of its kind. */
  lemma FoldGroup(e: Entry, xs: seq<Entry>, a: Acl, tags: set<nat>, capacity: nat) returns (more: set<nat>)
    requires USER <= e.kind < INVALID && e.kind !in tags
    requires Sorted(a.list + xs) && |a.list + xs| <= capacity && forall x <- xs :: x.kind <= NAMED_GROUP
    ensures var b := SetEntry(a, e.kind, e.id, e.rights, capacity);
            b.list == a.list && Fold([e] + xs, a, tags, capacity) == Some((b.(list := a.list + xs), more))
    ensures forall k: nat | k >= USER :: k in more <==> k in tags || k == e.kind
  {
    hide Fold, Sorted;
    var b := SetEntry(a, e.kind, e.id, e.rights, capacity);
    FoldOne(e, a, tags, capacity);
    more := FoldNamed(xs, b, tags + {e.kind}, capacity);
    FoldAppend([e], xs, a, tags, capacity);
  }

  /** Scanning the entries of an ACL builds it from the empty one. */
  lemma FoldEntries(a: Acl, capacity: nat) returns (tags: set<nat>)
    requires WellFormed(a) && |a.list| <= capacity
    ensures Fold(Entries(a), Empty(), {}, capacity) == Some((a, tags)) && {USER, GROUP, OTHER} <= tags
  {
    hide Fold, Sorted, OfKind;
    var us, gs, m := OfKind(a.list, NAMED_USER), OfKind(a.list, NAMED_GROUP), MaskEntries(a);
    var u, g, o := Entry(USER, UNDEFINED_ID, a.owner), Entry(GROUP, UNDEFINED_ID, a.group), Entry(OTHER, UNDEFINED_ID, a.other);
    NamedParts(a.list);
    assert [] + us == us;
    hide WellFormed;
    var t2 := FoldGroup(u, us, Empty(), {}, capacity);
    var a2 := Empty().(owner := a.owner, list := us);
    var t4 := FoldGroup(g, gs, a2, t2, capacity);
    var a4 := a2.(group := a.group, list := a.list);
    FoldAppend([u] + us, [g] + gs, Empty(), {}, capacity);
    var t6 := FoldRest(a, a4, t4, capacity);
    FoldAppend(([u] + us) + ([g] + gs), m + [o], Empty(), {}, capacity);
    tags := t6;
    Regroup([u], us, [g], gs, m, [o]);
    assert a4.(mask := a.mask, other := a.other) == a;
    assert USER in t4 && GROUP in t4;
  }

  lemma NamedParts(list: seq<Entry>)
    requires Sorted(list) && forall e <- list :: e.Valid()
    ensures OfKind(list, NAMED_USER) + OfKind(list, NAMED_GROUP) == list
    ensures Sorted([] + OfKind(list, NAMED_USER))
  {
    UsersThenGroups(list);
    var us := OfKind(list, NAMED_USER);
    PrefixSorted(list, |us|);
    assert list[..|us|] == us && [] + us == us;
  }

  lemma Regroup(u: seq<Entry>, us: seq<Entry>, g: seq<Entry>, gs: seq<Entry>, m: seq<Entry>, o: seq<Entry>)
    ensures (u + us) + (g + gs) + (m + o) == u + us + g + gs + m + o
  {}

  lemma FoldRest(a: Acl, b: Acl, tags: set<nat>, capacity: nat) returns (more: set<nat>)
    requires b.mask == MASK_UNSET && MASK !in tags && OTHER !in tags
    ensures Fold(MaskEntries(a) + [Entry(OTHER, UNDEFINED_ID, a.other)], b, tags, capacity) ==
            Some((b.(mask := a.mask, other := a.other), more))
    ensures tags + {OTHER} <= more
  {
    var o := Entry(OTHER, UNDEFINED_ID, a.other);
    var t := FoldMask(a, b, tags, capacity);
    FoldOne(o, b.(mask := a.mask), t, capacity);
    FoldAppend(MaskEntries(a), [o], b, tags, capacity);
    hide Fold;
    more := t + {OTHER};
    assert forall k: nat :: k in tags ==> k in t;
  }

  lemma FoldMask(a: Acl, b: Acl, tags: set<nat>, capacity: nat) returns (more: set<nat>)
    requires b.mask == MASK_UNSET && MASK !in tags
    ensures Fold(MaskEntries(a), b, tags, capacity) == Some((b.(mask := a.mask), more))
    ensures forall k: nat | k != MASK :: k in more <==> k in tags
  {
    if a.mask == MASK_UNSET { more := tags; } else { more := tags + {MASK}; }
  }

  /** Decoding the encoding of any well-formed ACL that fits returns it. */
  lemma XattrRoundTrip(a: Acl, capacity: nat)
    requires WellFormed(a) && |a.list| <= capacity
    ensures forall e <- Entries(a) :: Storable(e)
    ensures Decode(Le32(VERSION) + Records(Entries(a)), capacity) == Some(a)
  {
    EntriesStorable(a);
    var h, t := Le32(VERSION), Records(Entries(a));
    assert (h + t)[..4] == h && (h + t)[4..] == t;
    Word32Back(VERSION);
    hide Le32, Word32, Records, Entries, ScanAll, Fold, Storable, WellFormed;
    ScanIsFold(Entries(a), Empty(), {}, capacity);
    var tags := FoldEntries(a, capacity);
  }

  lemma ScanWellFormed(a: Acl, tags: set<nat>, e: Entry, capacity: nat)
    requires WellFormed(a) && |a.list| <= capacity && Storable(e)
    ensures var b := SetEntry(a, e.kind, e.id, e.rights, capacity); WellFormed(b) && |b.list| <= capacity
  {
    if e.kind <= NAMED_GROUP { SetIsMapUpdate(a, e.kind, e.id, e.rights, capacity, 0, 0); }
  }

  lemma {:induction false} ScanAllWellFormed(b: seq<u8>, a: Acl, tags: set<nat>, capacity: nat)
    requires WellFormed(a) && |a.list| <= capacity
    ensures var s := ScanAll(b, a, tags, capacity);
            s.Some? ==> WellFormed(s.value.0) && |s.value.0.list| <= capacity
  {
    hide ExtractEntry, SetEntry, WellFormed, Storable;
    if |b| >= ENTRY {
      var e := ExtractEntry(b[..ENTRY]);
      if e.Some? && e.value.kind != INVALID {
        ScanWellFormed(a, tags, e.value, capacity);
        var s := Scan(a, tags, e.value, capacity);
        if s.Some? { ScanAllWellFormed(b[ENTRY..], s.value.0, s.value.1, capacity); }
      }
    }
  }

  /** Whatever bytes decode, they decode to a well-formed ACL that fits; its own encoding is a
      canonical form of them. */
  lemma DecodedIsCanonical(b: seq<u8>, capacity: nat)
    ensures var r := Decode(b, capacity);
            r.Some? ==>
              && WellFormed(r.value) && |r.value.list| <= capacity
              && (forall e <- Entries(r.value) :: Storable(e))
              && Decode(Le32(VERSION) + Records(Entries(r.value)), capacity) == r
  {
    var r := Decode(b, capacity);
    if r.Some? {
      ScanAllWellFormed(b[4..], Empty(), {}, capacity);
      hide Le32, Records, Entries, ScanAll, Storable;
      XattrRoundTrip(r.value, capacity);
    }
  }

  // ---------------------------------------------------------------- the bytes

  lemma Le16Bytes(n: nat)
    requires n < 0x100
    ensures Le16(n) == [n as u8, 0]
  {}

  /** Low byte first. */
  lemma Le32Bytes(n: nat)
    requires n < 0x1_0000_0000
    ensures Le32(n) == [(n % 0x100) as u8, (n / 0x100 % 0x100) as u8, (n / 0x1_0000 % 0x100) as u8, (n / 0x100_0000) as u8]
  {
    assert n % 0x1_0000 % 0x100 == n % 0x100;
    assert n % 0x1_0000 / 0x100 == n / 0x100 % 0x100;
    assert n / 0x1_0000 / 0x100 == n / 0x100_0000;
  }

  /** A record is the tag, the rights and the id. */
  lemma RecordBytes(e: Entry)
    requires Storable(e)
    ensures var tag := if e.kind == USER then 1 else if e.kind == NAMED_USER then 2 else if e.kind == GROUP then 4
                       else if e.kind == NAMED_GROUP then 8 else if e.kind == MASK then 16 else 32;
            Record(e) == [tag, 0] + [e.rights as u8, 0] +
                         [(e.id % 0x100) as u8, (e.id / 0x100 % 0x100) as u8, (e.id / 0x1_0000 % 0x100) as u8, (e.id / 0x100_0000) as u8]
  {
    hide Le16, Le32;
    Le16Bytes(Tag(e.kind));
    Le16Bytes(e.rights);
    Le32Bytes(e.id);
  }

  predicate Below(x: Entry, y: Entry)
    requires x.kind < INVALID && y.kind < INVALID
  {
    Tag(x.kind) < Tag(y.kind) || (x.kind == y.kind && x.id < y.id)
  }

  predicate Ascending(es: seq<Entry>)
    requires forall e <- es :: e.kind < INVALID
  {
    forall i, j :: 0 <= i < j < |es| ==> Below(es[i], es[j])
  }

  lemma AscendingJoin(xs: seq<Entry>, ys: seq<Entry>)
    requires (forall x <- xs :: x.kind < INVALID) && (forall y <- ys :: y.kind < INVALID) && Ascending(xs) && Ascending(ys)
    requires forall x, y | x in xs && y in ys :: Below(x, y)
    ensures (forall e <- xs + ys :: e.kind < INVALID) && Ascending(xs + ys)
  {
    hide Below;
  }

  lemma {:induction false} NamedAscending(list: seq<Entry>, kind: nat)
    requires Sorted(list) && kind < INVALID
    ensures Ascending(OfKind(list, kind))
  {
    if list != [] {
      NamedAscending(list[1..], kind);
      if list[0].kind == kind {
        forall y | y in OfKind(list[1..], kind) ensures Below(list[0], y) {
          assert y in list[1..];
          var k :| 0 <= k < |list[1..]| && list[1..][k] == y;
          assert list[k + 1] == y;
        }
        AscendingJoin([list[0]], OfKind(list[1..], kind));
      }
    }
  }

  /** The records are in the order of their tags, those with the same tag in the order of their ids. */
  lemma EntriesAscending(a: Acl)
    requires WellFormed(a)
    ensures (forall e <- Entries(a) :: e.kind < INVALID) && Ascending(Entries(a))
  {
    var us, gs := OfKind(a.list, NAMED_USER), OfKind(a.list, NAMED_GROUP);
    NamedAscending(a.list, NAMED_USER);
    NamedAscending(a.list, NAMED_GROUP);
    hide OfKind, Ascending;
    var u, g, m, o := [Entry(USER, UNDEFINED_ID, a.owner)], [Entry(GROUP, UNDEFINED_ID, a.group)], MaskEntries(a), [Entry(OTHER, UNDEFINED_ID, a.other)];
    OneAscending(u);
    OneAscending(g);
    OneAscending(m);
    OneAscending(o);
    AscendingJoin(u, us);
    AscendingJoin(u + us, g);
    AscendingJoin(u + us + g, gs);
    AscendingJoin(u + us + g + gs, m);
    AscendingJoin(u + us + g + gs + m, o);
  }

  lemma OneAscending(es: seq<Entry>)
    requires |es| <= 1 && forall e <- es :: e.kind < INVALID
    ensures Ascending(es)
  {}

  /** The minimal ACL of the converter's unit tests has the bytes given there, both ways. */
  lemma SampleXattr(capacity: nat)
    ensures var a, bytes := Acl([], 7, 6, 4, MASK_UNSET),
                            [2, 0, 0, 0] + [1, 0, 7, 0, 255, 255, 255, 255] + [4, 0, 6, 0, 255, 255, 255, 255] + [32, 0, 4, 0, 255, 255, 255, 255];
            && (forall e <- Entries(a) :: Storable(e)) && Le32(VERSION) + Records(Entries(a)) == bytes
            && Decode(bytes, capacity) == Some(a)
  {
    hide Record, Decode;
    var a := Acl([], 7, 6, 4, MASK_UNSET);
    var es := [Entry(USER, UNDEFINED_ID, 7), Entry(GROUP, UNDEFINED_ID, 6), Entry(OTHER, UNDEFINED_ID, 4)];
    assert Entries(a) == es;
    RecordBytes(es[0]);
    RecordBytes(es[1]);
    RecordBytes(es[2]);
    assert es[1..][1..] == [es[2]] && es[2..][1..] == [];
    assert Records([es[2]]) == Record(es[2]);
    assert Records(es[1..]) == Record(es[1]) + Record(es[2]);
    XattrRoundTrip(a, capacity);
  }
}
