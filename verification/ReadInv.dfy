/** What every step of a read keeps, and what holds in every run. */
module ReadInv {
  import opened ChunkTypes
  import opened ReadOp

  // ---------------------------------------------------------------- coverage

  /** The ranges follow one another from `from` to `to` without gap or overlap. */
  predicate Tiles(items: seq<Item>, from: nat, to: nat) {
    if items == [] then from == to
    else items[|items| - 1].range.start + items[|items| - 1].range.len == to && items[|items| - 1].range.len > 0 &&
         Tiles(items[..|items| - 1], from, items[|items| - 1].range.start)
  }

  lemma TilesSnoc(items: seq<Item>, i: Item, from: nat)
    requires Tiles(items, from, i.range.start) && i.range.len > 0
    ensures Tiles(items + [i], from, i.range.start + i.range.len)
  {
    assert (items + [i])[..|items|] == items;
  }

  lemma {:induction false} TilesSame(a: seq<Item>, b: seq<Item>, from: nat, to: nat)
    requires Tiles(a, from, to) && |a| == |b| && forall k :: 0 <= k < |a| ==> a[k].range == b[k].range
    ensures Tiles(b, from, to)
  {
    if a != [] { TilesSame(a[..|a| - 1], b[..|b| - 1], from, a[|a| - 1].range.start); }
  }

  /** Delivered and pending jobs make up the part of the request issued so far. */
  ghost predicate Covers(r: Read, from: nat, end: nat) {
    && r.offset + r.size == end
    && (r.phase == Reading || r.phase == Served ==> Tiles(r.attached + r.pending, from, r.offset))
    && (r.phase == Served ==> r.pending == [] && r.size == 0)
  }

  lemma {:induction false} AttachCovers(r: Read, from: nat, end: nat)
    requires Covers(r, from, end) && r.phase == Reading
    ensures Covers(Attach(r), from, end) && Attach(r).phase == Reading
    ensures Attach(r).attached + Attach(r).pending == r.attached + r.pending
    decreases |r.pending|
  {
    if r.pending != [] && r.pending[0].started {
      var r1 := r.(pending := r.pending[1..], attached := r.attached + [r.pending[0]]);
      assert r1.attached + r1.pending == r.attached + r.pending;
      AttachCovers(r1, from, end);
    }
  }

  lemma {:induction false} IssueCovers(r: Read, maxJobs: nat, maxBlocks: nat, granted: nat, from: nat, end: nat)
    requires Covers(r, from, end) && r.phase == Reading && maxBlocks > 0
    ensures Covers(Issue(r, maxJobs, maxBlocks, granted), from, end)
    decreases r.size
  {
    if r.size > 0 && |r.pending| < maxJobs && granted > 0 {
      var n := PartSize(r.offset, r.size, maxBlocks);
      var i := Item(r.nextId, Range(r.offset, n), Waiting, false);
      TilesSnoc(r.attached + r.pending, i, from);
      assert r.attached + r.pending + [i] == r.attached + (r.pending + [i]);
      IssueCovers(r.(offset := r.offset + n, size := r.size - n, nextId := r.nextId + 1, pending := r.pending + [i]),
                  maxJobs, maxBlocks, granted - 1, from, end);
    }
  }

  /** New jobs respect the limits: not more than maxJobs at a time, and each within maxBlocks
      blocks, which it fills unless it is the end of the request. */
  lemma {:induction false} IssueLimits(r: Read, maxJobs: nat, maxBlocks: nat, granted: nat)
    requires maxBlocks > 0
    ensures var q := Issue(r, maxJobs, maxBlocks, granted);
            && r.pending <= q.pending && (|q.pending| <= maxJobs || q.pending == r.pending)
            && (|q.pending| < |r.pending| + granted ==> q.size == 0 || |q.pending| >= maxJobs)
            && forall k :: |r.pending| <= k < |q.pending| ==>
                 var job := q.pending[k].range;
                 && job.start % BLOCK_SIZE + job.len <= maxBlocks * BLOCK_SIZE
                 && (job.start % BLOCK_SIZE + job.len == maxBlocks * BLOCK_SIZE || (k == |q.pending| - 1 && q.size == 0))
    decreases r.size
  {
    if r.size > 0 && |r.pending| < maxJobs && granted > 0 {
      var n := PartSize(r.offset, r.size, maxBlocks);
      var i := Item(r.nextId, Range(r.offset, n), Waiting, false);
      var r1 := r.(offset := r.offset + n, size := r.size - n, nextId := r.nextId + 1, pending := r.pending + [i]);
      IssueLimits(r1, maxJobs, maxBlocks, granted - 1);
      assert Issue(r, maxJobs, maxBlocks, granted).pending[|r.pending|] == i;
      if r1.size == 0 { assert Issue(r1, maxJobs, maxBlocks, granted - 1) == r1; }
    }
  }

  lemma ContinueCovers(r: Read, maxJobs: nat, maxBlocks: nat, granted: nat, from: nat, end: nat)
    requires Covers(r, from, end) && r.phase == Reading && maxBlocks > 0
    ensures Covers(Continue(r, maxJobs, maxBlocks, granted), from, end)
  {
    AttachCovers(r, from, end);
    if !(Attach(r).pending == [] && Attach(r).size == 0) { IssueCovers(Attach(r), maxJobs, maxBlocks, granted, from, end); }
  }

  lemma PendingChanged(r: Read, k: nat, i: Item, from: nat, end: nat)
    requires Covers(r, from, end) && k < |r.pending| && i.range == r.pending[k].range
    ensures Covers(r.(pending := r.pending[k := i]), from, end)
  {
    if r.phase == Reading || r.phase == Served {
      TilesSame(r.attached + r.pending, r.attached + r.pending[k := i], from, r.offset);
    }
  }

  lemma CoversStep(r: Read, e: Event, from: nat, end: nat)
    requires Covers(r, from, end) && MayHappen(r, e)
    ensures Covers(Apply(r, e), from, end)
  {
    match e
    case Goes(maxJobs, maxBlocks, granted) => ContinueCovers(r, maxJobs, maxBlocks, granted, from, end);
    case Takes(k) => PendingChanged(r, k, r.pending[k].(work := Filling), from, end);
    case Fills(k, ok) => PendingChanged(r, k, r.pending[k].(work := Filled(ok)), from, end);
    case Returns(k, maxJobs, maxBlocks, granted) =>
      PendingChanged(r, k, Started(r.pending, k)[k], from, end);
      if r.pending[k].work.ok { ContinueCovers(r.(pending := Started(r.pending, k)), maxJobs, maxBlocks, granted, from, end); }
    case DiscardReturns(k) => SweepFrontAside(r.(discard := Started(r.discard, k)));
    case _ =>
  }

  lemma {:induction false} SweepFrontAside(r: Read)
    ensures SweepFront(r) == r.(discard := SweepFront(r).discard, pool := SweepFront(r).pool)
    decreases |r.discard|
  {
    if r.discard != [] && r.discard[0].started {
      SweepFrontAside(r.(discard := r.discard[1..], pool := r.pool + [r.discard[0]]));
    }
  }

  /** In every run the issued jobs are consecutive and disjoint, buffers are delivered in
      offset order, and a served request was delivered completely. */
  lemma {:induction false} ReadsCover(offset: nat, size: nat, events: seq<Event>)
    ensures Covers(Run(Setup(offset, size), events), offset, offset + size)
  {
    if events != [] {
      var n := |events| - 1;
      ReadsCover(offset, size, events[..n]);
      hide Covers, Apply, MayHappen;
      var r := Run(Setup(offset, size), events[..n]);
      if MayHappen(r, events[n]) { CoversStep(r, events[n], offset, offset + size); }
    }
  }

  // ---------------------------------------------------------------- discarding

  /** A buffer no worker will touch any more. */
  predicate Settled(i: Item) { i.started || i.work == Disabled }

  function Keep(items: seq<Item>, settled: bool): seq<Item> {
    if items == [] then [] else (if Settled(items[0]) == settled then [items[0]] else []) + Keep(items[1..], settled)
  }

  predicate DistinctIds(items: seq<Item>) { forall i, j :: 0 <= i < j < |items| ==> items[i].id != items[j].id }

  predicate NoneDisabled(items: seq<Item>) { forall k :: 0 <= k < |items| ==> items[k].work != Disabled }

  lemma {:induction false} DisabledIdsIn(items: seq<Item>, id: nat)
    requires id in DisabledIds(items)
    ensures exists k :: 0 <= k < |items| && items[k].id == id
  {
    if items[0].work == Waiting && items[0].id == id {
    } else {
      DisabledIdsIn(items[1..], id);
      var k :| 0 <= k < |items[1..]| && items[1..][k].id == id;
      assert items[k + 1].id == id;
    }
  }

  /** Every pending buffer goes to exactly one of pool and discard list, by whether a worker
      may still fill it, and the list of disabled ids is used up. */
  lemma {:induction false} SortSpec(items: seq<Item>, discard: seq<Item>, pool: seq<Item>)
    requires DistinctIds(items) && NoneDisabled(items)
    ensures Sort(DisableAll(items), DisabledIds(items), discard, pool)
         == ([], discard + Keep(DisableAll(items), false), pool + Keep(DisableAll(items), true))
  {
    if items == [] {
      assert DisableAll(items) == [] && discard + [] == discard && pool + [] == pool;
    } else {
      var i, rest := items[0], items[1..];
      var all := DisableAll(items);
      assert all[0] == Disabled1(i) && all[1..] == DisableAll(rest);
      if i.work != Waiting && DisabledIds(rest) != [] && DisabledIds(rest)[0] == i.id {
        DisabledIdsIn(rest, i.id);
        assert false;
      }
      var ids := DisabledIds(items);
      if i.work == Waiting {
        assert ids == [i.id] + DisabledIds(rest) && ids[1..] == DisabledIds(rest);
      } else {
        assert ids == DisabledIds(rest);
      }
      if Settled(all[0]) {
        SortSpec(rest, discard, pool + [all[0]]);
        assert Keep(all, false) == Keep(all[1..], false);
        assert pool + [all[0]] + Keep(all[1..], true) == pool + ([all[0]] + Keep(all[1..], true));
      } else {
        SortSpec(rest, discard + [all[0]], pool);
        assert Keep(all, true) == Keep(all[1..], true);
        assert discard + [all[0]] + Keep(all[1..], false) == discard + ([all[0]] + Keep(all[1..], false));
      }
    }
  }

  // ---------------------------------------------------------------- buffers

  function Ids(items: seq<Item>): (r: seq<nat>)
    ensures |r| == |items|
  {
    seq(|items|, k requires 0 <= k < |items| => items[k].id)
  }

  /** In how many lists a buffer is. */
  function Places(attached: seq<Item>, pending: seq<Item>, discard: seq<Item>, pool: seq<Item>, id: nat): nat {
    multiset(Ids(attached))[id] + multiset(Ids(pending))[id] + multiset(Ids(discard))[id] + multiset(Ids(pool))[id]
  }

  /** A callback runs exactly once, and only for a job that was filled. */
  predicate ItemOk(i: Item) { i.started <==> i.work.Returned? }

  predicate AllOk(items: seq<Item>) { forall k :: 0 <= k < |items| ==> ItemOk(items[k]) }

  /** Disabled jobs are gone from the queue for good; what is discarded is with a worker or
      waits for its callback; nothing in the pool will be filled. */
  predicate ListsOk(pending: seq<Item>, discard: seq<Item>, pool: seq<Item>) {
    && AllOk(pending) && AllOk(discard) && NoneDisabled(pending)
    && (forall k :: 0 <= k < |discard| ==> discard[k].work != Waiting && discard[k].work != Disabled)
    && (forall k :: 0 <= k < |pool| ==> Settled(pool[k]))
  }

  function Unstarted(items: seq<Item>): nat {
    if items == [] then 0 else (if items[0].started then 0 else 1) + Unstarted(items[1..])
  }

  /** While closing, the count of pending callbacks is that of the buffers not returned, and
      the first of them is still out. */
  predicate ClosingOk(phase: Phase, discard: seq<Item>, delayed: int) {
    && (phase == Closing ==> delayed == Unstarted(discard) && (discard != [] ==> !discard[0].started))
    && (phase != Closing ==> delayed == 0 && forall k :: 0 <= k < |discard| ==> !discard[k].started)
  }

  /** Every buffer handed out is in exactly one list. */
  ghost predicate PlacedOnce(attached: seq<Item>, pending: seq<Item>, discard: seq<Item>, pool: seq<Item>, nextId: nat) {
    forall id: nat :: Places(attached, pending, discard, pool, id) == if id < nextId then 1 else 0
  }

  ghost predicate Inv(r: Read) {
    && PlacedOnce(r.attached, r.pending, r.discard, r.pool, r.nextId)
    && ListsOk(r.pending, r.discard, r.pool) && ClosingOk(r.phase, r.discard, r.delayed)
    && (r.phase != Reading ==> r.pending == [])
  }

  lemma IdsConcat(xs: seq<Item>, ys: seq<Item>)
    ensures Ids(xs + ys) == Ids(xs) + Ids(ys)
  {}

  lemma IdsHead(xs: seq<Item>, id: nat)
    requires xs != []
    ensures multiset(Ids(xs))[id] == multiset(Ids(xs[1..]))[id] + if xs[0].id == id then 1 else 0
  {
    assert Ids(xs) == [xs[0].id] + Ids(xs[1..]);
  }

  lemma IdsSnoc(xs: seq<Item>, x: Item, id: nat)
    ensures multiset(Ids(xs + [x]))[id] == multiset(Ids(xs))[id] + if x.id == id then 1 else 0
  {
    IdsConcat(xs, [x]);
    assert Ids([x]) == [x.id];
  }

  lemma {:induction false} KeepSplits(items: seq<Item>, id: nat)
    ensures multiset(Ids(items))[id] == multiset(Ids(Keep(items, true)))[id] + multiset(Ids(Keep(items, false)))[id]
  {
    if items != [] {
      KeepSplits(items[1..], id);
      IdsHead(items, id);
      var k := Settled(items[0]);
      IdsHead([items[0]] + Keep(items[1..], k), id);
      assert ([items[0]] + Keep(items[1..], k))[1..] == Keep(items[1..], k);
      assert [] + Keep(items[1..], !k) == Keep(items[1..], !k);
    }
  }

  lemma {:induction false} KeepMembers(items: seq<Item>, settled: bool, k: nat)
    requires k < |Keep(items, settled)|
    ensures Settled(Keep(items, settled)[k]) == settled && Keep(items, settled)[k] in items
  {
    var rest := Keep(items[1..], settled);
    if Settled(items[0]) == settled {
      if k > 0 { KeepMembers(items[1..], settled, k - 1); }
    } else {
      assert Keep(items, settled) == rest;
      KeepMembers(items[1..], settled, k);
    }
  }

  /** Distinct buffers have distinct ids. */
  lemma PendingDistinct(r: Read)
    requires PlacedOnce(r.attached, r.pending, r.discard, r.pool, r.nextId)
    ensures DistinctIds(r.pending)
  {
    forall i, j | 0 <= i < j < |r.pending| ensures r.pending[i].id != r.pending[j].id {
      var ids := Ids(r.pending);
      assert Places(r.attached, r.pending, r.discard, r.pool, ids[i]) <= 1;
      assert ids == ids[..i] + [ids[i]] + ids[i + 1..j] + [ids[j]] + ids[j + 1..];
    }
  }

  // ---------------------------------------------------------------- steps

  lemma {:induction false} AttachInv(r: Read)
    requires Inv(r) && r.phase == Reading
    ensures Inv(Attach(r)) && Attach(r).phase == Reading
    decreases |r.pending|
  {
    if r.pending != [] && r.pending[0].started {
      forall id: nat ensures Places(r.attached + [r.pending[0]], r.pending[1..], r.discard, r.pool, id)
                          == Places(r.attached, r.pending, r.discard, r.pool, id)
      {
        IdsHead(r.pending, id);
        IdsSnoc(r.attached, r.pending[0], id);
      }
      AttachInv(r.(pending := r.pending[1..], attached := r.attached + [r.pending[0]]));
    }
  }

  lemma IssuePlaces(r: Read, i: Item)
    requires PlacedOnce(r.attached, r.pending, r.discard, r.pool, r.nextId) && i.id == r.nextId
    ensures PlacedOnce(r.attached, r.pending + [i], r.discard, r.pool, r.nextId + 1)
  {
    forall id: nat ensures Places(r.attached, r.pending + [i], r.discard, r.pool, id) == if id <= r.nextId then 1 else 0 {
      IdsSnoc(r.pending, i, id);
      assert Places(r.attached, r.pending, r.discard, r.pool, id) == if id < r.nextId then 1 else 0;
    }
  }

  /** A buffer whose job was refused. */
  lemma RefusedInv(r: Read, i: Item)
    requires Inv(r) && i.id == r.nextId && i.work == Disabled
    ensures Inv(r.(nextId := r.nextId + 1, pool := r.pool + [i]))
  {
    forall id: nat ensures Places(r.attached, r.pending, r.discard, r.pool + [i], id) == if id <= r.nextId then 1 else 0 {
      IdsSnoc(r.pool, i, id);
      assert Places(r.attached, r.pending, r.discard, r.pool, id) == if id < r.nextId then 1 else 0;
    }
  }

  lemma {:induction false} IssueInv(r: Read, maxJobs: nat, maxBlocks: nat, granted: nat)
    requires Inv(r) && r.phase == Reading && maxBlocks > 0
    ensures Inv(Issue(r, maxJobs, maxBlocks, granted))
    decreases r.size
  {
    if r.size > 0 && |r.pending| < maxJobs {
      var n := PartSize(r.offset, r.size, maxBlocks);
      if granted == 0 {
        RefusedInv(r, Item(r.nextId, Range(r.offset, n), Disabled, false));
        return;
      }
      var i := Item(r.nextId, Range(r.offset, n), Waiting, false);
      IssuePlaces(r, i);
      assert ListsOk(r.pending + [i], r.discard, r.pool);
      hide PlacedOnce, ListsOk;
      IssueInv(r.(offset := r.offset + n, size := r.size - n, nextId := r.nextId + 1, pending := r.pending + [i]), maxJobs, maxBlocks, granted - 1);
    }
  }

  lemma ContinueInv(r: Read, maxJobs: nat, maxBlocks: nat, granted: nat)
    requires Inv(r) && r.phase == Reading && maxBlocks > 0
    ensures Inv(Continue(r, maxJobs, maxBlocks, granted))
  {
    hide PlacedOnce, ListsOk;
    AttachInv(r);
    var r1 := Attach(r);
    if !(r1.pending == [] && r1.size == 0) { IssueInv(r1, maxJobs, maxBlocks, granted); }
  }

  lemma DiscardLists(r: Read)
    requires ListsOk(r.pending, r.discard, r.pool) && DistinctIds(r.pending)
    ensures var r1 := PrepareDiscard(r);
            && ListsOk([], r1.discard, r1.pool)
            && r1 == r.(pending := [], discard := r.discard + Keep(DisableAll(r.pending), false),
                        pool := r.pool + Keep(DisableAll(r.pending), true))
            && forall k :: |r.discard| <= k < |r1.discard| ==> !r1.discard[k].started
  {
    var all := DisableAll(r.pending);
    SortSpec(r.pending, r.discard, r.pool);
    var r1 := PrepareDiscard(r);
    forall k | |r.discard| <= k < |r1.discard|
      ensures !r1.discard[k].started && ItemOk(r1.discard[k]) && r1.discard[k].work != Waiting && r1.discard[k].work != Disabled
    {
      KeepMembers(all, false, k - |r.discard|);
      DisabledMember(r.pending, r1.discard[k]);
    }
    forall k | |r.pool| <= k < |r1.pool| ensures Settled(r1.pool[k]) { KeepMembers(all, true, k - |r.pool|); }
  }

  lemma DisabledMember(items: seq<Item>, i: Item)
    requires AllOk(items) && i in DisableAll(items)
    ensures (i.work == Disabled || ItemOk(i)) && i.work != Waiting
  {
    var k :| 0 <= k < |items| && DisableAll(items)[k] == i;
    assert ItemOk(items[k]);
  }

  lemma PrepareInv(r: Read, phase: Phase)
    requires Inv(r) && phase != Reading && phase != Served
    requires phase == Closing ==> r.phase == Reading || r.phase == Failed
    requires phase == Failed ==> r.phase == Reading
    ensures var r1 := PrepareDiscard(r);
            Inv(r1.(phase := phase, delayed := if phase == Closing then r.delayed + |r1.discard| else r.delayed))
  {
    hide PlacedOnce, ListsOk;
    PendingDistinct(r);
    DiscardLists(r);
    DiscardPlaces(r);
    NoneStarted(PrepareDiscard(r).discard);
  }

  lemma DiscardPlaces(r: Read)
    requires PlacedOnce(r.attached, r.pending, r.discard, r.pool, r.nextId)
    ensures var all := DisableAll(r.pending);
            PlacedOnce(r.attached, [], r.discard + Keep(all, false), r.pool + Keep(all, true), r.nextId)
  {
    var all := DisableAll(r.pending);
    forall id: nat ensures Places(r.attached, [], r.discard + Keep(all, false), r.pool + Keep(all, true), id)
                        == Places(r.attached, r.pending, r.discard, r.pool, id)
    {
      KeepSplits(all, id);
      IdsConcat(r.discard, Keep(all, false));
      IdsConcat(r.pool, Keep(all, true));
      assert Ids(all) == Ids(r.pending) && Ids([]) == [];
    }
  }

  lemma {:induction false} NoneStarted(items: seq<Item>)
    ensures (forall k :: 0 <= k < |items| ==> !items[k].started) ==> Unstarted(items) == |items|
  {
    if items != [] { NoneStarted(items[1..]); }
  }

  lemma IdsChanged(items: seq<Item>, k: nat, i: Item)
    requires k < |items| && i.id == items[k].id
    ensures Ids(items[k := i]) == Ids(items)
  {}

  lemma SamePlaces(r: Read, pending: seq<Item>, discard: seq<Item>)
    requires PlacedOnce(r.attached, r.pending, r.discard, r.pool, r.nextId)
    requires Ids(pending) == Ids(r.pending) && Ids(discard) == Ids(r.discard)
    ensures PlacedOnce(r.attached, pending, discard, r.pool, r.nextId)
  {
    forall id: nat ensures Places(r.attached, pending, discard, r.pool, id) == Places(r.attached, r.pending, r.discard, r.pool, id) {}
  }

  /** A pending job moves on. */
  lemma PendingInv(r: Read, k: nat, i: Item)
    requires Inv(r) && k < |r.pending| && i.id == r.pending[k].id && ItemOk(i) && i.work != Disabled
    ensures Inv(r.(pending := r.pending[k := i]))
  {
    IdsChanged(r.pending, k, i);
    SamePlaces(r, r.pending[k := i], r.discard);
    hide PlacedOnce;
  }

  lemma DiscardInv(r: Read, k: nat, i: Item)
    requires Inv(r) && k < |r.discard| && i.id == r.discard[k].id && ItemOk(i) && i.work != Waiting && i.work != Disabled
    requires i.started == r.discard[k].started
    ensures Inv(r.(discard := r.discard[k := i]))
  {
    IdsChanged(r.discard, k, i);
    SamePlaces(r, r.pending, r.discard[k := i]);
    hide PlacedOnce;
    UnstartedSame(r.discard, k, i);
  }

  lemma {:induction false} UnstartedSame(items: seq<Item>, k: nat, i: Item)
    requires k < |items|
    ensures Unstarted(items[k := i]) == Unstarted(items) + (if items[k].started then 1 else 0) - (if i.started then 1 else 0)
  {
    if k > 0 {
      assert items[k := i][1..] == items[1..][k - 1 := i];
      UnstartedSame(items[1..], k - 1, i);
    } else {
      assert items[0 := i][1..] == items[1..];
    }
  }

  /** The sweep gives back exactly the returned buffers. */
  lemma {:induction false} SweepSpec(items: seq<Item>, id: nat)
    ensures var (kept, done) := Sweep(items);
            && multiset(Ids(items))[id] == multiset(Ids(kept))[id] + multiset(Ids(done))[id]
            && (forall k :: 0 <= k < |kept| ==> !kept[k].started && kept[k] in items)
            && (forall k :: 0 <= k < |done| ==> done[k].started)
  {
    if items != [] {
      SweepSpec(items[1..], id);
      var (kept, done) := Sweep(items[1..]);
      IdsHead(items, id);
      if items[0].started {
        IdsHead([items[0]] + done, id);
        assert ([items[0]] + done)[1..] == done;
      } else {
        IdsHead([items[0]] + kept, id);
        assert ([items[0]] + kept)[1..] == kept;
      }
    }
  }

  lemma SweepInv(r: Read, k: nat)
    requires Inv(r) && k < |r.discard| && r.discard[k].work.Filled? && r.phase != Closing
    ensures Inv(Apply(r, DiscardReturns(k)))
  {
    hide PlacedOnce, ListsOk;
    StartedLists(r, k);
    SweepPlaces(r.(discard := Started(r.discard, k)));
    SweepLists(r.(discard := Started(r.discard, k)));
  }

  lemma SweepPlaces(r: Read)
    requires PlacedOnce(r.attached, r.pending, r.discard, r.pool, r.nextId)
    ensures PlacedOnce(r.attached, r.pending, Sweep(r.discard).0, r.pool + Sweep(r.discard).1, r.nextId)
  {
    var (kept, done) := Sweep(r.discard);
    forall id: nat ensures Places(r.attached, r.pending, kept, r.pool + done, id) == Places(r.attached, r.pending, r.discard, r.pool, id) {
      SweepSpec(r.discard, id);
      IdsConcat(r.pool, done);
    }
  }

  lemma SweepLists(r: Read)
    requires ListsOk(r.pending, r.discard, r.pool)
    ensures ListsOk(r.pending, Sweep(r.discard).0, r.pool + Sweep(r.discard).1)
    ensures forall k :: 0 <= k < |Sweep(r.discard).0| ==> !Sweep(r.discard).0[k].started
  {
    SweepSpec(r.discard, 0);
    assert forall i :: i in r.discard ==> ItemOk(i) && i.work != Waiting && i.work != Disabled;
  }

  lemma {:induction false} SweepFrontInv(r: Read)
    requires PlacedOnce(r.attached, r.pending, r.discard, r.pool, r.nextId) && ListsOk(r.pending, r.discard, r.pool)
    ensures var r1 := SweepFront(r);
            && PlacedOnce(r1.attached, r1.pending, r1.discard, r1.pool, r1.nextId) && ListsOk(r1.pending, r1.discard, r1.pool)
            && Unstarted(r1.discard) == Unstarted(r.discard) && (r1.discard != [] ==> !r1.discard[0].started)
            && r1 == r.(discard := r1.discard, pool := r1.pool)
    decreases |r.discard|
  {
    if r.discard != [] && r.discard[0].started {
      FrontPlaces(r);
      FrontLists(r);
      hide PlacedOnce, ListsOk;
      SweepFrontInv(r.(discard := r.discard[1..], pool := r.pool + [r.discard[0]]));
    }
  }

  lemma FrontPlaces(r: Read)
    requires PlacedOnce(r.attached, r.pending, r.discard, r.pool, r.nextId) && r.discard != []
    ensures PlacedOnce(r.attached, r.pending, r.discard[1..], r.pool + [r.discard[0]], r.nextId)
  {
    forall id: nat ensures Places(r.attached, r.pending, r.discard[1..], r.pool + [r.discard[0]], id)
                        == Places(r.attached, r.pending, r.discard, r.pool, id)
    {
      IdsHead(r.discard, id);
      IdsSnoc(r.pool, r.discard[0], id);
    }
  }

  lemma FrontLists(r: Read)
    requires ListsOk(r.pending, r.discard, r.pool) && r.discard != [] && r.discard[0].started
    ensures ListsOk(r.pending, r.discard[1..], r.pool + [r.discard[0]])
  {}

  lemma StartedLists(r: Read, k: nat)
    requires Inv(r) && k < |r.discard| && r.discard[k].work.Filled?
    ensures ListsOk(r.pending, Started(r.discard, k), r.pool)
    ensures PlacedOnce(r.attached, r.pending, Started(r.discard, k), r.pool, r.nextId)
  {
    IdsChanged(r.discard, k, Started(r.discard, k)[k]);
    SamePlaces(r, r.pending, Started(r.discard, k));
  }

  lemma CloseReturnInv(r: Read, k: nat)
    requires Inv(r) && k < |r.discard| && r.discard[k].work.Filled? && r.phase == Closing
    ensures Inv(Apply(r, DiscardReturns(k)))
  {
    StartedLists(r, k);
    UnstartedSame(r.discard, k, Started(r.discard, k)[k]);
    assert !r.discard[k].started;
    hide PlacedOnce, ListsOk, Unstarted;
    SweepFrontInv(r.(discard := Started(r.discard, k)));
  }

  lemma StepInv(r: Read, e: Event)
    requires Inv(r) && MayHappen(r, e)
    ensures Inv(Apply(r, e))
  {
    ItemsOk(r);
    hide PlacedOnce, ListsOk, ClosingOk;
    match e
    case Goes(maxJobs, maxBlocks, granted) => ContinueInv(r, maxJobs, maxBlocks, granted);
    case Takes(k) => PendingInv(r, k, r.pending[k].(work := Filling));
    case Fills(k, ok) => PendingInv(r, k, r.pending[k].(work := Filled(ok)));
    case Returns(k, maxJobs, maxBlocks, granted) =>
      var r1 := r.(pending := Started(r.pending, k));
      PendingInv(r, k, r1.pending[k]);
      if r.pending[k].work.ok { ContinueInv(r1, maxJobs, maxBlocks, granted); } else { PrepareInv(r1, Failed); }
    case DiscardTakes(k) =>
    case DiscardFills(k, ok) => DiscardInv(r, k, r.discard[k].(work := Filled(ok)));
    case DiscardReturns(k) => if r.phase == Closing { CloseReturnInv(r, k); } else { SweepInv(r, k); }
    case Closes => PrepareInv(r, Closing);
  }

  /** No discarded job is still waiting. */
  lemma ItemsOk(r: Read)
    requires Inv(r)
    ensures forall k :: 0 <= k < |r.discard| ==> ItemOk(r.discard[k]) && r.discard[k].work != Waiting
    ensures forall k :: 0 <= k < |r.pending| ==> ItemOk(r.pending[k])
  {}

  lemma {:induction false} RunInv(offset: nat, size: nat, events: seq<Event>)
    ensures Inv(Run(Setup(offset, size), events))
  {
    if events == [] {
      assert forall id: nat :: Places([], [], [], [], id) == 0;
    } else {
      var n := |events| - 1;
      RunInv(offset, size, events[..n]);
      hide Inv, Apply, MayHappen;
      var r := Run(Setup(offset, size), events[..n]);
      if MayHappen(r, events[n]) { StepInv(r, events[n]); }
    }
  }

  /** In every run each buffer handed out is in exactly one of: attached, pending, to be
      discarded, given back; and no buffer given back will be filled by a worker. */
  lemma BuffersSafe(offset: nat, size: nat, events: seq<Event>, id: nat)
    ensures var r := Run(Setup(offset, size), events);
            && Places(r.attached, r.pending, r.discard, r.pool, id) == (if id < r.nextId then 1 else 0)
            && forall k :: 0 <= k < |r.pool| ==> Settled(r.pool[k])
  {
    hide Run;
    RunInv(offset, size, events);
  }

  /** A closed read has all its buffers back when its last pending callback has run. */
  lemma CloseDrains(offset: nat, size: nat, events: seq<Event>)
    ensures var r := Run(Setup(offset, size), events);
            r.phase == Closing ==> r.delayed == Unstarted(r.discard) && (r.delayed == 0 <==> r.discard == [])
  {
    hide Run;
    RunInv(offset, size, events);
  }
}
