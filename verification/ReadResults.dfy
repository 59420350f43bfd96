/** What a read makes of the results of its jobs: only data read from the disk is sent, and a
    failed job ends the read. */
module ReadResults {
  import opened ReadOp
  import opened ReadInv

  /** All these buffers were filled from the disk and given back by the worker. */
  predicate AllRead(items: seq<Item>) { forall i <- items :: i.work == Returned(true) }

  /** As long as the read goes on no job has failed: what was sent was read, what has returned
      was read, and the buffers given back belong to jobs that were refused. */
  ghost predicate NoneFailed(r: Read) {
    && AllRead(r.attached)
    && (r.phase == Reading || r.phase == Served ==>
          && r.discard == [] && (forall i <- r.pending :: i.work.Returned? ==> i.work.ok)
          && forall i <- r.pool :: i.work == Disabled)
  }

  lemma {:induction false} AttachResults(r: Read)
    requires NoneFailed(r) && r.phase == Reading && AllOk(r.pending)
    ensures NoneFailed(Attach(r)) && Attach(r).phase == Reading && AllOk(Attach(r).pending)
    decreases |r.pending|
  {
    if r.pending != [] && r.pending[0].started {
      var r1 := r.(pending := r.pending[1..], attached := r.attached + [r.pending[0]]);
      assert r.pending[0] in r.pending && ItemOk(r.pending[0]);
      assert forall i :: i in r1.pending ==> i in r.pending;
      AttachResults(r1);
    }
  }

  lemma {:induction false} IssueResults(r: Read, maxJobs: nat, maxBlocks: nat, granted: nat)
    requires NoneFailed(r) && r.phase == Reading && maxBlocks > 0
    ensures NoneFailed(Issue(r, maxJobs, maxBlocks, granted)) && Issue(r, maxJobs, maxBlocks, granted).phase == Reading
    decreases r.size
  {
    if r.size > 0 && |r.pending| < maxJobs && granted > 0 {
      var n := PartSize(r.offset, r.size, maxBlocks);
      var i := Item(r.nextId, Range(r.offset, n), Waiting, false);
      IssueResults(r.(offset := r.offset + n, size := r.size - n, nextId := r.nextId + 1, pending := r.pending + [i]),
                   maxJobs, maxBlocks, granted - 1);
    }
  }

  lemma ContinueResults(r: Read, maxJobs: nat, maxBlocks: nat, granted: nat)
    requires NoneFailed(r) && r.phase == Reading && maxBlocks > 0 && AllOk(r.pending)
    ensures var r' := Continue(r, maxJobs, maxBlocks, granted); NoneFailed(r') && (r'.phase == Reading || r'.phase == Served)
  {
    AttachResults(r);
    if !(Attach(r).pending == [] && Attach(r).size == 0) { IssueResults(Attach(r), maxJobs, maxBlocks, granted); }
  }

  lemma ChangedResults(r: Read, k: nat, i: Item)
    requires NoneFailed(r) && k < |r.pending| && (i.work.Returned? ==> i.work.ok)
    ensures NoneFailed(r.(pending := r.pending[k := i]))
  {}

  lemma SweepSends(r: Read)
    ensures SweepFront(r).attached == r.attached && SweepFront(r).phase == r.phase
  {
    SweepFrontAside(r);
  }

  lemma ResultsStep(r: Read, e: Event)
    requires Inv(r) && NoneFailed(r) && MayHappen(r, e)
    ensures NoneFailed(Apply(r, e))
  {
    hide PlacedOnce, ClosingOk;
    match e
    case Goes(maxJobs, maxBlocks, granted) => ContinueResults(r, maxJobs, maxBlocks, granted);
    case Takes(k) => ChangedResults(r, k, r.pending[k].(work := Filling));
    case Fills(k, ok) => ChangedResults(r, k, r.pending[k].(work := Filled(ok)));
    case Returns(k, maxJobs, maxBlocks, granted) =>
      if r.pending[k].work.ok {
        var r1 := r.(pending := Started(r.pending, k));
        ChangedResults(r, k, r1.pending[k]);
        ContinueResults(r1, maxJobs, maxBlocks, granted);
      }
    case DiscardReturns(k) => SweepSends(r.(discard := Started(r.discard, k)));
    case _ =>
  }

  lemma {:induction false} ResultsRun(offset: nat, size: nat, events: seq<Event>)
    ensures NoneFailed(Run(Setup(offset, size), events))
  {
    if events != [] {
      var n := |events| - 1;
      ResultsRun(offset, size, events[..n]);
      RunInv(offset, size, events[..n]);
      hide Inv, NoneFailed, Apply, MayHappen;
      var r := Run(Setup(offset, size), events[..n]);
      if MayHappen(r, events[n]) { ResultsStep(r, events[n]); }
    }
  }

  // ---------------------------------------------------------------- what the workers said

  /** What one event says about the reading of a buffer. */
  function Said(r: Read, e: Event): map<nat, bool>
    requires MayHappen(r, e)
  {
    if e.Fills? then map[r.pending[e.k].id := e.ok]
    else if e.DiscardFills? then map[r.discard[e.k].id := e.ok]
    else map[]
  }

  /** What the workers of a run have said, by buffer. */
  function Results(offset: nat, size: nat, events: seq<Event>): map<nat, bool> {
    if events == [] then map[]
    else
      var n := |events| - 1;
      var r := Run(Setup(offset, size), events[..n]);
      if MayHappen(r, events[n]) then Results(offset, size, events[..n]) + Said(r, events[n]) else Results(offset, size, events[..n])
  }

  predicate Honest1(i: Item, m: map<nat, bool>) { i.work.Filled? || i.work.Returned? ==> i.id in m && m[i.id] == i.work.ok }

  /** The items carry what was said about them. */
  predicate Honest(items: seq<Item>, m: map<nat, bool>) { forall i <- items :: Honest1(i, m) }

  ghost predicate AllHonest(r: Read, m: map<nat, bool>) { Honest(r.attached, m) && Honest(r.pending, m) && Honest(r.discard, m) }

  lemma InIds(items: seq<Item>, k: nat)
    requires k < |items|
    ensures multiset(Ids(items))[items[k].id] > 0
  {
    assert Ids(items)[k] in Ids(items);
  }

  /** The buffer of a pending job is in no other list. */
  lemma PendingAlone(r: Read, k: nat)
    requires PlacedOnce(r.attached, r.pending, r.discard, r.pool, r.nextId) && k < |r.pending|
    ensures forall i <- r.attached + r.discard :: i.id != r.pending[k].id
    ensures forall j :: 0 <= j < |r.pending| && j != k ==> r.pending[j].id != r.pending[k].id
  {
    PendingDistinct(r);
    InIds(r.pending, k);
    assert Places(r.attached, r.pending, r.discard, r.pool, r.pending[k].id) <= 1;
    forall i | i in r.attached + r.discard ensures i.id != r.pending[k].id {
      if j :| 0 <= j < |r.attached| && r.attached[j] == i { InIds(r.attached, j); }
      else { var j :| 0 <= j < |r.discard| && r.discard[j] == i; InIds(r.discard, j); }
    }
  }

  lemma TwiceIn(items: seq<Item>, j: nat, k: nat)
    requires j < k < |items| && items[j].id == items[k].id
    ensures multiset(Ids(items))[items[k].id] >= 2
  {
    var ids := Ids(items);
    assert ids == ids[..k] + ids[k..];
    assert ids[j] in ids[..k] && ids[k] in ids[k..];
  }

  lemma DiscardAlone(r: Read, k: nat)
    requires PlacedOnce(r.attached, r.pending, r.discard, r.pool, r.nextId) && k < |r.discard|
    ensures forall i <- r.attached + r.pending :: i.id != r.discard[k].id
    ensures forall j :: 0 <= j < |r.discard| && j != k ==> r.discard[j].id != r.discard[k].id
  {
    hide Ids;
    var id := r.discard[k].id;
    InIds(r.discard, k);
    assert Places(r.attached, r.pending, r.discard, r.pool, id) <= 1;
    forall i | i in r.attached + r.pending ensures i.id != id {
      if j :| 0 <= j < |r.attached| && r.attached[j] == i { InIds(r.attached, j); }
      else { var j :| 0 <= j < |r.pending| && r.pending[j] == i; InIds(r.pending, j); }
    }
    forall j | 0 <= j < |r.discard| && j != k ensures r.discard[j].id != id {
      if r.discard[j].id == id { TwiceIn(r.discard, if j < k then j else k, if j < k then k else j); }
    }
  }

  lemma HonestMore(items: seq<Item>, m: map<nat, bool>, id: nat, ok: bool)
    requires Honest(items, m) && forall i <- items :: i.id != id
    ensures Honest(items, m + map[id := ok])
  {}

  /** One item of a list is filled. */
  lemma HonestFill(items: seq<Item>, m: map<nat, bool>, k: nat, ok: bool)
    requires Honest(items, m) && k < |items| && forall j :: 0 <= j < |items| && j != k ==> items[j].id != items[k].id
    ensures Honest(items[k := items[k].(work := Filled(ok))], m + map[items[k].id := ok])
  {
    var now, m' := items[k := items[k].(work := Filled(ok))], m + map[items[k].id := ok];
    forall i | i in now ensures Honest1(i, m') {
      var j :| 0 <= j < |now| && now[j] == i;
      if j != k { assert items[j] in items; }
    }
  }

  lemma HonestChanged(items: seq<Item>, m: map<nat, bool>, k: nat, i: Item)
    requires Honest(items, m) && k < |items| && Honest1(i, m)
    ensures Honest(items[k := i], m)
  {}

  lemma HonestParts(xs: seq<Item>, ys: seq<Item>, m: map<nat, bool>)
    ensures Honest(xs + ys, m) <==> Honest(xs, m) && Honest(ys, m)
  {
    assert forall i :: i in xs + ys <==> i in xs || i in ys;
  }

  lemma HonestPrefix(xs: seq<Item>, ys: seq<Item>, m: map<nat, bool>)
    requires xs <= ys && Honest(xs, m) && forall k :: |xs| <= k < |ys| ==> Honest1(ys[k], m)
    ensures Honest(ys, m)
  {
    forall i | i in ys ensures Honest1(i, m) {
      var k :| 0 <= k < |ys| && ys[k] == i;
      if k < |xs| { assert xs[k] in xs; }
    }
  }

  lemma {:induction false} IssueHonest(r: Read, maxJobs: nat, maxBlocks: nat, granted: nat, m: map<nat, bool>)
    requires maxBlocks > 0 && AllHonest(r, m)
    ensures AllHonest(Issue(r, maxJobs, maxBlocks, granted), m)
    decreases r.size
  {
    hide Honest;
    if r.size > 0 && |r.pending| < maxJobs && granted > 0 {
      var n := PartSize(r.offset, r.size, maxBlocks);
      var i := Item(r.nextId, Range(r.offset, n), Waiting, false);
      HonestPrefix(r.pending, r.pending + [i], m);
      IssueHonest(r.(offset := r.offset + n, size := r.size - n, nextId := r.nextId + 1, pending := r.pending + [i]),
                  maxJobs, maxBlocks, granted - 1, m);
    }
  }

  lemma ContinueHonest(r: Read, maxJobs: nat, maxBlocks: nat, granted: nat, m: map<nat, bool>)
    requires maxBlocks > 0 && AllHonest(r, m)
    ensures AllHonest(Continue(r, maxJobs, maxBlocks, granted), m)
  {
    hide Honest;
    AttachGoesOn(r);
    var a := Attach(r);
    HonestParts(r.attached, r.pending, m);
    HonestParts(a.attached, a.pending, m);
    if !(a.pending == [] && a.size == 0) { IssueHonest(a, maxJobs, maxBlocks, granted, m); }
  }

  lemma DiscardHonest(r: Read, m: map<nat, bool>)
    requires ListsOk(r.pending, r.discard, r.pool) && DistinctIds(r.pending) && AllHonest(r, m)
    ensures AllHonest(PrepareDiscard(r), m)
  {
    DiscardLists(r);
    var all, r1 := DisableAll(r.pending), PrepareDiscard(r);
    hide PrepareDiscard, ListsOk;
    forall k | |r.discard| <= k < |r1.discard| ensures Honest1(r1.discard[k], m) {
      KeepMembers(all, false, k - |r.discard|);
      var j :| 0 <= j < |all| && all[j] == r1.discard[k];
      assert r.pending[j] in r.pending && all[j] == Disabled1(r.pending[j]);
    }
    HonestPrefix(r.discard, r1.discard, m);
  }

  lemma {:induction false} SweepFrontHonest(r: Read, m: map<nat, bool>)
    requires AllHonest(r, m)
    ensures AllHonest(SweepFront(r), m)
    decreases |r.discard|
  {
    if r.discard != [] && r.discard[0].started {
      assert forall i :: i in r.discard[1..] ==> i in r.discard;
      SweepFrontHonest(r.(discard := r.discard[1..], pool := r.pool + [r.discard[0]]), m);
    }
  }

  lemma SweepHonest(items: seq<Item>, m: map<nat, bool>)
    requires Honest(items, m)
    ensures Honest(Sweep(items).0, m)
  {
    SweepSpec(items, 0);
  }

  lemma FillsHonest(r: Read, m: map<nat, bool>, k: nat, ok: bool)
    requires Inv(r) && AllHonest(r, m) && MayHappen(r, Fills(k, ok))
    ensures AllHonest(Apply(r, Fills(k, ok)), m + map[r.pending[k].id := ok])
  {
    hide ListsOk, ClosingOk, Honest;
    PendingAlone(r, k);
    hide PlacedOnce;
    HonestMore(r.attached, m, r.pending[k].id, ok);
    HonestMore(r.discard, m, r.pending[k].id, ok);
    HonestFill(r.pending, m, k, ok);
  }

  lemma DiscardFillsHonest(r: Read, m: map<nat, bool>, k: nat, ok: bool)
    requires Inv(r) && AllHonest(r, m) && MayHappen(r, DiscardFills(k, ok))
    ensures AllHonest(Apply(r, DiscardFills(k, ok)), m + map[r.discard[k].id := ok])
  {
    hide ListsOk, ClosingOk, Honest;
    DiscardAlone(r, k);
    hide PlacedOnce;
    HonestMore(r.attached, m, r.discard[k].id, ok);
    HonestMore(r.pending, m, r.discard[k].id, ok);
    HonestFill(r.discard, m, k, ok);
  }

  lemma ReturnsHonest(r: Read, m: map<nat, bool>, k: nat, maxJobs: nat, maxBlocks: nat, granted: nat)
    requires Inv(r) && AllHonest(r, m) && MayHappen(r, Returns(k, maxJobs, maxBlocks, granted))
    ensures AllHonest(Apply(r, Returns(k, maxJobs, maxBlocks, granted)), m)
  {
    var r1 := r.(pending := Started(r.pending, k));
    assert r.pending[k] in r.pending;
    HonestChanged(r.pending, m, k, r1.pending[k]);
    ItemsOk(r);
    PendingInv(r, k, r1.pending[k]);
    PendingDistinct(r1);
    hide PlacedOnce, ClosingOk, Honest, Continue, PrepareDiscard;
    if r.pending[k].work.ok { ContinueHonest(r1, maxJobs, maxBlocks, granted, m); } else { DiscardHonest(r1, m); }
  }

  lemma DiscardReturnsHonest(r: Read, m: map<nat, bool>, k: nat)
    requires AllHonest(r, m) && MayHappen(r, DiscardReturns(k))
    ensures AllHonest(Apply(r, DiscardReturns(k)), m)
  {
    var r1 := r.(discard := Started(r.discard, k));
    assert r.discard[k] in r.discard;
    HonestChanged(r.discard, m, k, r1.discard[k]);
    hide Honest, Sweep, SweepFront;
    SweepHonest(r1.discard, m);
    SweepFrontHonest(r1, m);
  }

  lemma HonestStep(r: Read, e: Event, m: map<nat, bool>)
    requires Inv(r) && AllHonest(r, m) && MayHappen(r, e)
    ensures AllHonest(Apply(r, e), m + Said(r, e))
  {
    hide Inv, Honest, Continue, PrepareDiscard, Sweep, SweepFront;
    var none: map<nat, bool> := map[];
    assert m + none == m;
    match e
    case Goes(maxJobs, maxBlocks, granted) => ContinueHonest(r, maxJobs, maxBlocks, granted, m);
    case Takes(k) => HonestChanged(r.pending, m, k, r.pending[k].(work := Filling));
    case Fills(k, ok) => FillsHonest(r, m, k, ok);
    case Returns(k, maxJobs, maxBlocks, granted) => ReturnsHonest(r, m, k, maxJobs, maxBlocks, granted);
    case DiscardTakes(k) => HonestChanged(r.discard, m, k, r.discard[k].(work := Filling));
    case DiscardFills(k, ok) => DiscardFillsHonest(r, m, k, ok);
    case DiscardReturns(k) => DiscardReturnsHonest(r, m, k);
    case Closes => CloseHonest(r, m);
  }

  lemma CloseHonest(r: Read, m: map<nat, bool>)
    requires Inv(r) && AllHonest(r, m)
    ensures AllHonest(PrepareDiscard(r), m)
  {
    PendingDistinct(r);
    hide PlacedOnce, ClosingOk, PrepareDiscard;
    DiscardHonest(r, m);
  }

  lemma {:induction false} HonestRun(offset: nat, size: nat, events: seq<Event>)
    ensures AllHonest(Run(Setup(offset, size), events), Results(offset, size, events))
  {
    if events != [] {
      var n := |events| - 1;
      HonestRun(offset, size, events[..n]);
      RunInv(offset, size, events[..n]);
      hide Inv, AllHonest, Apply, MayHappen, Said;
      var r := Run(Setup(offset, size), events[..n]);
      if MayHappen(r, events[n]) { HonestStep(r, events[n], Results(offset, size, events[..n])); }
    }
  }

  // ---------------------------------------------------------------- what the client gets

  /** In every run each buffer sent to the client is one a worker has filled from the disk; a
      served request is made up of such buffers, and no job of it failed. */
  lemma SentWasRead(offset: nat, size: nat, events: seq<Event>)
    ensures var r, said := Run(Setup(offset, size), events), Results(offset, size, events);
            && (forall i <- r.attached :: i.id in said && said[i.id])
            && (r.phase == Served ==> r.pending == [] && r.discard == [] && forall i <- r.pool :: i.work == Disabled)
  {
    hide Run, Results;
    ResultsRun(offset, size, events);
    HonestRun(offset, size, events);
    ReadsCover(offset, size, events);
    var r, said := Run(Setup(offset, size), events), Results(offset, size, events);
    forall i | i in r.attached ensures i.id in said && said[i.id] { assert Honest1(i, said); }
  }

  lemma {:induction false} AttachGoesOn(r: Read)
    ensures var a := Attach(r);
            && r.attached <= a.attached && a.attached + a.pending == r.attached + r.pending
            && (a.pending != [] ==> !a.pending[0].started)
            && a == r.(attached := a.attached, pending := a.pending)
    decreases |r.pending|
  {
    if r.pending != [] && r.pending[0].started {
      var r1 := r.(pending := r.pending[1..], attached := r.attached + [r.pending[0]]);
      assert r1.attached + r1.pending == r.attached + r.pending;
      AttachGoesOn(r1);
    }
  }

  lemma {:induction false} IssueGoesOn(r: Read, maxJobs: nat, maxBlocks: nat, granted: nat)
    requires maxBlocks > 0
    ensures var q := Issue(r, maxJobs, maxBlocks, granted);
            && q.attached == r.attached && q.phase == r.phase && q.discard == r.discard && r.pending <= q.pending
            && (r.pending != [] || r.size > 0 ==> q.pending != [] || q.size > 0)
    decreases r.size
  {
    if r.size > 0 && |r.pending| < maxJobs && granted > 0 {
      var n := PartSize(r.offset, r.size, maxBlocks);
      IssueGoesOn(r.(offset := r.offset + n, size := r.size - n, nextId := r.nextId + 1,
                     pending := r.pending + [Item(r.nextId, Range(r.offset, n), Waiting, false)]), maxJobs, maxBlocks, granted - 1);
    }
  }

  /** In every run, when the callback of a job comes: if the worker could not read the disk the
      read has failed, nothing more is sent and nothing stays pending; if it could, the read goes
      on, every buffer keeps its place in the order, all up to the first one still out are sent, and
      the request is served exactly if none is out and nothing is left to read. */
  lemma ReturnAnswered(offset: nat, size: nat, events: seq<Event>, k: nat, maxJobs: nat, maxBlocks: nat, granted: nat)
    requires MayHappen(Run(Setup(offset, size), events), Returns(k, maxJobs, maxBlocks, granted))
    ensures var r, said := Run(Setup(offset, size), events), Results(offset, size, events);
            var q := Apply(r, Returns(k, maxJobs, maxBlocks, granted));
            var id := r.pending[k].id;
            var back := r.attached + r.pending[k := r.pending[k].(started := true, work := Returned(true))];
            && id in said
            && (!said[id] ==> q.phase == Failed && q.pending == [] && q.attached == r.attached)
            && (said[id] ==>
                  && q.phase == (if q.size == 0 && q.pending == [] then Served else Reading) && q.discard == []
                  && r.attached <= q.attached && back <= q.attached + q.pending
                  && (|q.attached| < |back| ==> !back[|q.attached|].started))
  {
    hide Run, Results;
    var r := Run(Setup(offset, size), events);
    ResultsRun(offset, size, events);
    HonestRun(offset, size, events);
    RunInv(offset, size, events);
    assert Honest1(r.pending[k], Results(offset, size, events));
    hide PlacedOnce, ClosingOk, Honest;
    if r.pending[k].work.ok {
      var r1 := r.(pending := Started(r.pending, k));
      AttachGoesOn(r1);
      if !(Attach(r1).pending == [] && Attach(r1).size == 0) { IssueGoesOn(Attach(r1), maxJobs, maxBlocks, granted); }
    }
  }

  /** Reading on sends every buffer up to the first one still out, and serves the request exactly if
      none is out and nothing is left to read. */
  lemma GoesAnswered(r: Read, maxJobs: nat, maxBlocks: nat, granted: nat)
    requires MayHappen(r, Goes(maxJobs, maxBlocks, granted))
    ensures var q, all := Apply(r, Goes(maxJobs, maxBlocks, granted)), r.attached + r.pending;
            && q.phase == (if q.size == 0 && q.pending == [] then Served else Reading)
            && r.attached <= q.attached && all <= q.attached + q.pending && (|q.attached| < |all| ==> !all[|q.attached|].started)
  {
    AttachGoesOn(r);
    if !(Attach(r).pending == [] && Attach(r).size == 0) { IssueGoesOn(Attach(r), maxJobs, maxBlocks, granted); }
  }
}
