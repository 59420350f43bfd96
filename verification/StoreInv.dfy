/** The invariant of the buffers of a write operation: their order of acknowledgement,
    their agreement with the already-replied registry, and the credit they hold. */
module StoreInv {
  import opened ChunkTypes
  import opened WriteOp

  /** A buffer has replied blocks only if all earlier buffers are fully replied. */
  ghost predicate Ordered(bs: seq<Buf>) {
    forall i, j :: 0 <= i < j < |bs| && bs[j].replied > 0 ==> bs[i].AllReplied()
  }

  /** The registry these buffers must have: one entry for each buffer with replied
      blocks, in order, whose snapshot describes exactly the replied blocks. */
  ghost function RegistryOf(bs: seq<Buf>): seq<Entry> {
    if bs == [] || bs[0].replied == 0 then []
    else [EntryOf(bs[0])] + RegistryOf(bs[1..])
  }

  function EntryOf(b: Buf): Entry { Entry(b.id, Infos(b.blocks[..b.replied])) }

  ghost predicate BufOk(b: Buf) { 0 < b.Count() <= b.capacity }

  ghost predicate DistinctBufs(bs: seq<Buf>) {
    forall i, j :: 0 <= i < j < |bs| ==> bs[i].id != bs[j].id
  }

  ghost predicate BufsOk(bs: seq<Buf>) {
    (forall i :: 0 <= i < |bs| ==> BufOk(bs[i])) && DistinctBufs(bs) && Ordered(bs)
  }

  ghost predicate StoreOk(st: Store) {
    && BufsOk(st.Live())
    && (forall i :: 0 <= i < |st.Live()| ==> st.Live()[i].id !in st.pool)
    && (forall i :: 0 <= i < |st.queue| ==> !st.queue[i].updating)
    && st.registry == RegistryOf(st.Live())
  }

  /** Ids of the replied blocks, in order. */
  function RepliedIds(bs: seq<Buf>): seq<nat> {
    if bs == [] then [] else Ids(bs[0].blocks[..bs[0].replied]) + RepliedIds(bs[1..])
  }

  function Held(bs: seq<Buf>): nat {
    if bs == [] then 0 else bs[0].replied + Held(bs[1..])
  }

  ghost predicate NoneReplied(bs: seq<Buf>) { forall i :: 0 <= i < |bs| ==> bs[i].replied == 0 }

  /** Same buffers and blocks; only reply counts grew. */
  ghost predicate OnlyReplies(bs: seq<Buf>, bs': seq<Buf>) {
    |bs| == |bs'| && forall i :: 0 <= i < |bs| ==> bs'[i] == bs[i].(replied := bs'[i].replied) && bs[i].replied <= bs'[i].replied
  }

  // ---------------------------------------------------------------- list lemmas

  lemma {:induction false} IdsConcat(xs: seq<Write>, ys: seq<Write>)
    ensures Ids(xs + ys) == Ids(xs) + Ids(ys)
  {}

  lemma {:induction false} RepliedIdsConcat(xs: seq<Buf>, ys: seq<Buf>)
    ensures RepliedIds(xs + ys) == RepliedIds(xs) + RepliedIds(ys)
  {
    if xs == [] {
      assert xs + ys == ys;
    } else {
      assert (xs + ys)[1..] == xs[1..] + ys;
      RepliedIdsConcat(xs[1..], ys);
    }
  }

  lemma {:induction false} RepliedIdsNone(xs: seq<Buf>)
    requires NoneReplied(xs)
    ensures RepliedIds(xs) == [] && RegistryOf(xs) == [] && Held(xs) == 0
  {
    if xs != [] { RepliedIdsNone(xs[1..]); }
  }

  lemma {:induction false} HeldConcat(xs: seq<Buf>, ys: seq<Buf>)
    ensures Held(xs + ys) == Held(xs) + Held(ys)
  {
    if xs == [] {
      assert xs + ys == ys;
    } else {
      assert (xs + ys)[1..] == xs[1..] + ys;
      HeldConcat(xs[1..], ys);
    }
  }

  lemma {:induction false} FlatConcat(xs: seq<Buf>, ys: seq<Buf>)
    ensures Flat(xs + ys) == Flat(xs) + Flat(ys)
  {
    if xs == [] {
      assert xs + ys == ys;
    } else {
      assert (xs + ys)[1..] == xs[1..] + ys;
      FlatConcat(xs[1..], ys);
    }
  }

  lemma {:induction false} FlatSame(xs: seq<Buf>, ys: seq<Buf>)
    requires |xs| == |ys| && forall i :: 0 <= i < |xs| ==> xs[i].blocks == ys[i].blocks
    ensures Flat(xs) == Flat(ys)
  {
    if xs != [] { FlatSame(xs[1..], ys[1..]); }
  }

  lemma {:induction false} RegistrySplit(xs: seq<Buf>, ys: seq<Buf>)
    requires forall i :: 0 <= i < |xs| ==> xs[i].replied > 0
    ensures RegistryOf(xs + ys) == RegistryOf(xs) + RegistryOf(ys)
    ensures |RegistryOf(xs)| == |xs|
    ensures forall i :: 0 <= i < |xs| ==> RegistryOf(xs)[i] == EntryOf(xs[i])
  {
    if xs == [] {
      assert xs + ys == ys;
    } else {
      assert (xs + ys)[1..] == xs[1..] + ys;
      RegistrySplit(xs[1..], ys);
    }
  }

  /** Every registry entry is that of a live buffer with replied blocks. */
  lemma {:induction false} RegistryMembers(bs: seq<Buf>, e: Entry)
    requires e in RegistryOf(bs)
    ensures exists i :: 0 <= i < |bs| && e == EntryOf(bs[i]) && bs[i].replied > 0
  {
    if e != EntryOf(bs[0]) {
      RegistryMembers(bs[1..], e);
      var i :| 0 <= i < |bs[1..]| && e == EntryOf(bs[1..][i]) && bs[1..][i].replied > 0;
      assert e == EntryOf(bs[i + 1]);
    }
  }

  lemma {:induction false} RefreshAt(r: seq<Entry>, i: nat, snapshot: seq<Info>)
    requires i < |r| && forall j :: 0 <= j < i ==> r[j].bufId != r[i].bufId
    ensures Refresh(r, r[i].bufId, snapshot) == r[i := Entry(r[i].bufId, snapshot)]
  {
    if i > 0 {
      assert r[0].bufId != r[i].bufId;
      RefreshAt(r[1..], i - 1, snapshot);
    }
  }

  lemma {:induction false} RefreshAbsent(r: seq<Entry>, id: nat, snapshot: seq<Info>)
    requires forall e <- r :: e.bufId != id
    ensures Refresh(r, id, snapshot) == r
  {
    if r != [] {
      assert r[0] in r;
      RefreshAbsent(r[1..], id, snapshot);
    }
  }

  lemma {:induction false} WithoutSnoc(r: seq<Entry>, e: Entry, id: nat)
    ensures Without(r + [e], id) == Without(r, id) + if e.bufId == id then [] else [e]
  {
    if r != [] {
      assert (r + [e])[1..] == r[1..] + [e];
      WithoutSnoc(r[1..], e, id);
    }
  }

  lemma {:induction false} WithoutAbsent(r: seq<Entry>, id: nat)
    requires forall e <- r :: e.bufId != id
    ensures Without(r, id) == r
  {
    if r != [] {
      assert r[0] in r;
      WithoutAbsent(r[1..], id);
    }
  }

  // ---------------------------------------------------------------- instant replies

  /** The first buffer that is not fully replied. */
  ghost predicate Frontier(bs: seq<Buf>, i: nat) {
    && i < |bs| && !bs[i].updating && !bs[i].AllReplied()
    && forall j :: 0 <= j < i ==> bs[j].AllReplied()
  }

  function Answered(b: Buf): Buf { b.(replied := |b.blocks|) }

  lemma FrontierSplit(bs: seq<Buf>, i: nat)
    requires BufsOk(bs) && Frontier(bs, i)
    ensures bs == bs[..i] + ([bs[i]] + bs[i + 1..])
    ensures bs[i := Answered(bs[i])] == bs[..i] + ([Answered(bs[i])] + bs[i + 1..])
    ensures forall j :: 0 <= j < i ==> bs[..i][j].replied > 0
    ensures Answered(bs[i]).replied > 0
    ensures NoneReplied(bs[i + 1..])
  {
    assert BufOk(bs[i]);
    forall j | 0 <= j < i ensures bs[..i][j].replied > 0 { assert BufOk(bs[j]); }
  }

  lemma AnsweredBufsOk(bs: seq<Buf>, i: nat)
    requires BufsOk(bs) && Frontier(bs, i)
    ensures BufsOk(bs[i := Answered(bs[i])])
  {
    FrontierSplit(bs, i);
    var bs' := bs[i := Answered(bs[i])];
    forall j | 0 <= j < |bs'| ensures BufOk(bs'[j]) { assert BufOk(bs[j]); }
  }

  lemma LastReplied(b: Buf, later: seq<Buf>)
    requires NoneReplied(later)
    ensures RegistryOf([b] + later) == if b.replied == 0 then [] else [EntryOf(b)]
  {
    RepliedIdsNone(later);
    assert ([b] + later)[1..] == later;
  }

  lemma AnsweredRegistry(bs: seq<Buf>, i: nat)
    requires BufsOk(bs) && Frontier(bs, i)
    ensures var b := bs[i];
            RegistryOf(bs[i := Answered(b)]) ==
              if b.replied == 0 then RegistryOf(bs) + [Entry(b.id, Infos(b.blocks))]
              else Refresh(RegistryOf(bs), b.id, Infos(b.blocks))
  {
    hide RegistryOf, Refresh, NoneReplied, Infos;
    FrontierSplit(bs, i);
    var b, later, first := bs[i], bs[i + 1..], RegistryOf(bs[..i]);
    RegistrySplit(bs[..i], [Answered(b)] + later);
    RegistrySplit(bs[..i], [b] + later);
    LastReplied(b, later);
    LastReplied(Answered(b), later);
    AnsweredEntry(b);
    if b.replied > 0 {
      assert forall j :: 0 <= j < i ==> first[j].bufId == bs[..i][j].id == bs[j].id != b.id;
      RefreshLast(first, EntryOf(b), Infos(b.blocks));
    } else {
      assert first + [] == first;
    }
  }

  lemma AnsweredEntry(b: Buf)
    ensures EntryOf(Answered(b)) == Entry(b.id, Infos(b.blocks)) && EntryOf(b).bufId == b.id
  {
    assert b.blocks[..|b.blocks|] == b.blocks;
  }

  lemma RefreshLast(r: seq<Entry>, e: Entry, snapshot: seq<Info>)
    requires forall j :: 0 <= j < |r| ==> r[j].bufId != e.bufId
    ensures Refresh(r + [e], e.bufId, snapshot) == r + [Entry(e.bufId, snapshot)]
  {
    RefreshAt(r + [e], |r|, snapshot);
  }

  /** One buffer is answered; nothing behind it is replied. */
  lemma FrontAnswered(b: Buf, later: seq<Buf>)
    requires RepliedIds(later) == []
    ensures RepliedIds([b] + later) == Ids(b.blocks[..b.replied])
    ensures RepliedIds([Answered(b)] + later) == Ids(b.blocks[..b.replied]) + Ids(b.blocks[b.replied..])
    ensures Held([Answered(b)] + later) == Held([b] + later) + |b.blocks| - b.replied
  {
    assert ([b] + later)[1..] == later && ([Answered(b)] + later)[1..] == later;
    assert b.blocks[..|b.blocks|] == b.blocks == b.blocks[..b.replied] + b.blocks[b.replied..];
    IdsConcat(b.blocks[..b.replied], b.blocks[b.replied..]);
  }

  lemma AnsweredIds(bs: seq<Buf>, i: nat)
    requires BufsOk(bs) && Frontier(bs, i)
    ensures RepliedIds(bs[i := Answered(bs[i])]) == RepliedIds(bs) + Ids(bs[i].blocks[bs[i].replied..])
    ensures Held(bs[i := Answered(bs[i])]) == Held(bs) + |bs[i].blocks| - bs[i].replied
  {
    hide RepliedIds, Held, Ids, Answered;
    FrontierSplit(bs, i);
    hide BufsOk, Frontier;
    var b, later := bs[i], bs[i + 1..];
    RepliedIdsNone(later);
    FrontAnswered(b, later);
    RepliedIdsConcat(bs[..i], [Answered(b)] + later);
    RepliedIdsConcat(bs[..i], [b] + later);
    HeldConcat(bs[..i], [Answered(b)] + later);
    HeldConcat(bs[..i], [b] + later);
  }

  /** st' acknowledges `ids`, a run of blocks directly behind those acknowledged in st,
      paid for with credit, and changes nothing else. */
  ghost predicate Extended(st: Store, st': Store, ids: seq<nat>) {
    && OnlyReplies(st.Live(), st'.Live()) && |st'.queue| == |st.queue| && st'.pool == st.pool
    && RepliedIds(st'.Live()) == RepliedIds(st.Live()) + ids
    && Held(st'.Live()) + st'.available == Held(st.Live()) + st.available
  }

  lemma ExtendedTrans(a: Store, b: Store, c: Store, xs: seq<nat>, ys: seq<nat>)
    requires Extended(a, b, xs) && Extended(b, c, ys)
    ensures Extended(a, c, xs + ys)
  {
    assert RepliedIds(a.Live()) + xs + ys == RepliedIds(a.Live()) + (xs + ys);
  }

  /** Replying the whole of the first buffer that is not fully replied. */
  lemma ReplyAtOk(st: Store, i: nat)
    requires StoreOk(st) && Frontier(st.Live(), i)
    ensures StoreOk(ReplyAt(st, i))
    ensures ReplyAt(st, i).Live() == st.Live()[i := Answered(st.Live()[i])]
  {
    AnsweredBufsOk(st.Live(), i);
    AnsweredRegistry(st.Live(), i);
  }

  lemma ReplyAtExtends(st: Store, i: nat)
    requires StoreOk(st) && Frontier(st.Live(), i)
    ensures Extended(st, ReplyAt(st, i), Ids(st.Live()[i].blocks[st.Live()[i].replied..]))
  {
    AnsweredIds(st.Live(), i);
  }

  /** tryInstantReply keeps order, registry and credit right, whatever the credit. */
  lemma {:induction false} InstantReplyOk(st: Store, i: nat)
    requires StoreOk(st)
    requires forall j :: 0 <= j < i && j < |st.Live()| ==> st.Live()[j].AllReplied()
    ensures StoreOk(InstantReply(st, i).0)
    ensures Extended(st, InstantReply(st, i).0, InstantReply(st, i).1)
    decreases |st.Live()| - i
  {
    if i < |st.Live()| && !st.Live()[i].updating {
      var b := st.Live()[i];
      if b.AllReplied() {
        InstantReplyOk(st, i + 1);
      } else if st.available + b.replied >= |b.blocks| {
        var st1 := ReplyAt(st, i);
        ReplyAtOk(st, i);
        ReplyAtExtends(st, i);
        InstantReplyOk(st1, i + 1);
        var (st2, ids) := InstantReply(st1, i + 1);
        ExtendedTrans(st, st1, st2, Ids(b.blocks[b.replied..]), ids);
      }
    }
  }

  // ---------------------------------------------------------------- the other steps

  /** If the first buffer has no replied block, no buffer has. */
  lemma NoneAfterFirst(bs: seq<Buf>)
    requires BufsOk(bs) && bs != [] && bs[0].replied == 0
    ensures NoneReplied(bs)
  {
    assert BufOk(bs[0]);
  }

  lemma TailBufsOk(bs: seq<Buf>)
    requires BufsOk(bs) && bs != []
    ensures BufsOk(bs[1..])
    ensures RegistryOf(bs[1..]) == if bs[0].replied > 0 then Without(RegistryOf(bs), bs[0].id) else RegistryOf(bs)
  {
    var rest := bs[1..];
    forall i | 0 <= i < |rest| ensures BufOk(rest[i]) { assert BufOk(bs[i + 1]); }
    if bs[0].replied == 0 {
      NoneAfterFirst(bs);
      RepliedIdsNone(rest);
    } else {
      forall e | e in RegistryOf(rest) ensures e.bufId != bs[0].id {
        RegistryMembers(rest, e);
      }
      WithoutAbsent(RegistryOf(rest), bs[0].id);
      assert RegistryOf(bs)[1..] == RegistryOf(rest);
    }
  }

  /** What writeFinishedCallback does to the buffers. */
  function PopFront(st: Store, retain: set<nat>): (r: Store)
    requires st.queue != []
    ensures r.Live() == st.Live()[1..]
  {
    Put(Unregister(st, st.queue[0]), st.queue[0], retain).(queue := st.queue[1..])
  }

  lemma PopFrontOk(st: Store, retain: set<nat>)
    requires StoreOk(st) && st.queue != []
    ensures StoreOk(PopFront(st, retain))
    ensures Held(PopFront(st, retain).Live()) + PopFront(st, retain).available == Held(st.Live()) + st.available
    ensures RepliedIds(st.Live()) == Ids(st.queue[0].blocks[..st.queue[0].replied]) + RepliedIds(st.Live()[1..])
  {
    TailBufsOk(st.Live());
    assert st.Live()[0] == st.queue[0];
  }

  lemma PushInputOk(st: Store)
    requires StoreOk(st) && st.input.Some? && !st.input.value.updating
    ensures var st' := st.(queue := st.queue + [st.input.value], input := None);
            StoreOk(st') && st'.Live() == st.Live()
  {
    var st' := st.(queue := st.queue + [st.input.value], input := None);
    assert st'.Live() == st.Live();
  }

  ghost predicate SameReplied(a: Buf, b: Buf) {
    b.id == a.id && b.replied == a.replied && a.blocks <= b.blocks
  }

  lemma LastChangedRegistry(bs: seq<Buf>, a: Buf, b: Buf)
    requires BufsOk(bs + [a]) && SameReplied(a, b)
    ensures RegistryOf(bs + [b]) == RegistryOf(bs + [a])
  {
    assert a.blocks[..a.replied] == b.blocks[..b.replied];
    if a.replied > 0 {
      var xs := bs + [a];
      assert xs[|bs|] == a;
      forall i | 0 <= i < |bs| ensures bs[i].replied > 0 { assert BufOk(xs[i]) && xs[i] == bs[i]; }
      RegistrySplit(bs, [a]);
      RegistrySplit(bs, [b]);
    } else {
      RegistryPadded(bs, [a]);
      RegistryPadded(bs, [b]);
    }
  }

  /** A change of the last buffer that keeps id and replied blocks. */
  lemma LastChanged(bs: seq<Buf>, a: Buf, b: Buf)
    requires BufsOk(bs + [a]) && BufOk(b) && SameReplied(a, b)
    ensures BufsOk(bs + [b]) && RegistryOf(bs + [b]) == RegistryOf(bs + [a])
    ensures RepliedIds(bs + [b]) == RepliedIds(bs + [a]) && Held(bs + [b]) == Held(bs + [a])
  {
    LastChangedRegistry(bs, a, b);
    var xs, ys := bs + [a], bs + [b];
    assert xs[|bs|] == a && ys[|bs|] == b && forall i :: 0 <= i < |bs| ==> ys[i] == xs[i];
    forall i | 0 <= i < |ys| ensures BufOk(ys[i]) { assert BufOk(xs[i]); }
    assert a.blocks[..a.replied] == b.blocks[..b.replied];
    RepliedIdsConcat(bs, [a]);
    RepliedIdsConcat(bs, [b]);
    HeldConcat(bs, [a]);
    HeldConcat(bs, [b]);
  }

  /** Buffers without replied blocks at the end add nothing to the registry. */
  lemma {:induction false} RegistryPadded(xs: seq<Buf>, ys: seq<Buf>)
    requires NoneReplied(ys)
    ensures RegistryOf(xs + ys) == RegistryOf(xs)
    ensures RepliedIds(xs + ys) == RepliedIds(xs) && Held(xs + ys) == Held(xs)
  {
    if xs == [] {
      assert xs + ys == ys;
      RepliedIdsNone(ys);
    } else {
      assert (xs + ys)[1..] == xs[1..] + ys;
      RegistryPadded(xs[1..], ys);
    }
  }

  /** A fresh buffer at the end. */
  lemma FreshAppended(bs: seq<Buf>, b: Buf)
    requires BufsOk(bs) && BufOk(b) && b.replied == 0
    requires forall i :: 0 <= i < |bs| ==> bs[i].id != b.id
    ensures BufsOk(bs + [b]) && RegistryOf(bs + [b]) == RegistryOf(bs)
    ensures RepliedIds(bs + [b]) == RepliedIds(bs) && Held(bs + [b]) == Held(bs)
  {
    hide RegistryOf, RepliedIds, Held, BufsOk;
    RegistryPadded(bs, [b]);
    FreshBufs(bs, b);
  }

  lemma FreshBufs(bs: seq<Buf>, b: Buf)
    requires BufsOk(bs) && BufOk(b) && b.replied == 0
    requires forall i :: 0 <= i < |bs| ==> bs[i].id != b.id
    ensures BufsOk(bs + [b])
  {
    forall i | 0 <= i < |bs + [b]| ensures BufOk((bs + [b])[i]) {
      if i < |bs| { assert BufOk(bs[i]); }
    }
  }

  /** Taking unreplied buffers off the end. */
  lemma ShortenedBufs(bs: seq<Buf>, n: nat)
    requires BufsOk(bs) && n <= |bs| && NoneReplied(bs[n..])
    ensures BufsOk(bs[..n]) && RegistryOf(bs[..n]) == RegistryOf(bs)
    ensures RepliedIds(bs[..n]) == RepliedIds(bs) && Held(bs[..n]) == Held(bs)
  {
    RegistryPadded(bs[..n], bs[n..]);
    assert bs == bs[..n] + bs[n..];
    forall i | 0 <= i < n ensures BufOk(bs[..n][i]) { assert BufOk(bs[i]); }
  }

  lemma BeginOk(st: Store, b: Buf)
    requires StoreOk(st) && BufOk(b)
    requires st.input.Some? ==> b == st.input.value.(updating := true)
    requires st.input.None? ==> b.replied == 0 && (b.id in st.pool || NotAllocated(st, b.id))
    ensures var st' := st.(input := Some(b), pool := if st.input.None? then st.pool - {b.id} else st.pool);
            StoreOk(st') && RepliedIds(st'.Live()) == RepliedIds(st.Live()) && Held(st'.Live()) == Held(st.Live())
  {
    var st' := st.(input := Some(b), pool := if st.input.None? then st.pool - {b.id} else st.pool);
    if st.input.Some? {
      assert st.Live() == st.queue + [st.input.value] && st'.Live() == st.queue + [b];
      assert st.Live()[|st.queue|] == st.input.value;
      LastChanged(st.queue, st.input.value, b);
      assert forall i :: 0 <= i < |st.Live()| ==> st'.Live()[i].id == st.Live()[i].id;
    } else {
      assert st'.Live() == st.Live() + [b];
      FreshAppended(st.Live(), b);
    }
  }

  lemma ReceiveOk(st: Store, w: Write)
    requires StoreOk(st) && st.input.Some? && st.input.value.updating
    ensures var b := st.input.value;
            var b' := b.(blocks := b.blocks + [w], updating := false);
            var st' := st.(input := Some(b'));
            && StoreOk(st') && RepliedIds(st'.Live()) == RepliedIds(st.Live()) && Held(st'.Live()) == Held(st.Live())
            && Flat(st'.Live()) == Flat(st.Live()) + [w]
  {
    var b := st.input.value;
    var b' := b.(blocks := b.blocks + [w], updating := false);
    var st' := st.(input := Some(b'));
    assert st.Live() == st.queue + [b] && st'.Live() == st.queue + [b'];
    assert st.Live()[|st.queue|] == b && BufOk(st.Live()[|st.queue|]);
    LastChanged(st.queue, b, b');
    assert forall i :: 0 <= i < |st.Live()| ==> st'.Live()[i].id == st.Live()[i].id;
    FlatConcat(st.queue, [b]);
    FlatConcat(st.queue, [b']);
    assert Flat([b]) == b.blocks && Flat([b']) == b.blocks + [w];
  }

  ghost predicate Trims(t: Trimmed, t': Trimmed) {
    && StoreOk(t'.store) && t'.store.input.None?
    && RepliedIds(t'.store.Live()) == RepliedIds(t.store.Live())
    && Held(t'.store.Live()) + t'.store.available == Held(t.store.Live()) + t.store.available
    && Flat(t'.store.Live()) + t'.dropped == Flat(t.store.Live()) + t.dropped
  }

  lemma KeepInputOk(t: Trimmed, retain: set<nat>)
    requires StoreOk(t.store) && t.store.input.Some? && t.store.input.value.replied > 0
    ensures Trims(t, CloseInput(t, retain))
  {
    var st := t.store;
    var b := st.input.value;
    var b' := b.(updating := false);
    assert CloseInput(t, retain).store.Live() == st.queue + [b'];
    assert BufOk(st.Live()[|st.queue|]);
    LastChanged(st.queue, b, b');
    FlatSame(st.queue + [b], st.queue + [b']);
  }

  /** Taking one unreplied buffer off the end. */
  lemma DropOneOk(t: Trimmed, t': Trimmed, q: seq<Buf>, b: Buf, retain: set<nat>)
    requires StoreOk(t.store) && t.store.Live() == q + [b] && b.replied == 0
    requires t'.store == Put(t.store, b, retain).(queue := q, input := None) && t'.dropped == b.blocks + t.dropped
    ensures Trims(t, t')
  {
    assert t'.store.Live() == q == (q + [b])[..|q|];
    ShortenedBufs(q + [b], |q|);
    FlatConcat(q, [b]);
    assert Flat([b]) == b.blocks;
    forall i | 0 <= i < |q| ensures !q[i].updating && q[i].id != b.id { assert (q + [b])[i] == q[i]; }
  }

  /** CloseInput keeps the replied blocks, the credit and the arrival order. */
  lemma CloseInputOk(t: Trimmed, retain: set<nat>)
    requires StoreOk(t.store)
    ensures Trims(t, CloseInput(t, retain))
  {
    if t.store.input.Some? {
      if t.store.input.value.replied > 0 {
        KeepInputOk(t, retain);
      } else {
        DropOneOk(t, CloseInput(t, retain), t.store.queue, t.store.input.value, retain);
      }
    }
  }

  /** Dropping keeps the replied blocks, the credit and the arrival order; what is left
      behind the protected first buffers has replied blocks. */
  lemma {:induction false} DropUnrepliedOk(t: Trimmed, keep: nat, retain: set<nat>)
    requires StoreOk(t.store) && t.store.input.None?
    ensures var t' := DropUnreplied(t, keep, retain);
            && Trims(t, t')
            && (|t'.store.queue| > keep ==> t'.store.queue[|t'.store.queue| - 1].replied > 0)
            && t'.store.queue <= t.store.queue
            && (keep <= |t.store.queue| ==> keep <= |t'.store.queue|)
    decreases |t.store.queue|
  {
    var q := t.store.queue;
    var n := |q|;
    if n > keep && q[n - 1].replied == 0 {
      var b := q[n - 1];
      var t1 := Trimmed(Put(t.store, b, retain).(queue := q[..n - 1]), b.blocks + t.dropped);
      assert q == q[..n - 1] + [b];
      DropOneOk(t, t1, q[..n - 1], b, retain);
      DropUnrepliedOk(t1, keep, retain);
    }
  }

  /** After cleanup no buffer of the operation is registered, and its credit is back. */
  lemma {:induction false} DiscardOk(st: Store, bs: seq<Buf>, retain: set<nat>)
    requires BufsOk(bs) && st.registry == RegistryOf(bs)
    ensures var st' := Discard(st, bs, retain);
            && st'.registry == [] && st'.available == st.available + Held(bs)
            && (forall x <- st'.pool :: x in st.pool || exists i :: 0 <= i < |bs| && bs[i].id == x)
    decreases |bs|
  {
    if bs != [] {
      TailBufsOk(bs);
      DiscardOk(Put(Unregister(st, bs[0]), bs[0], retain), bs[1..], retain);
      forall x | x in Discard(st, bs, retain).pool
        ensures x in st.pool || exists i :: 0 <= i < |bs| && bs[i].id == x
      {
        if x !in st.pool && x != bs[0].id {
          var i :| 0 <= i < |bs[1..]| && bs[1..][i].id == x;
          assert bs[i + 1].id == x;
        } else if x == bs[0].id {
          assert bs[0].id == x;
        }
      }
    }
  }
}
