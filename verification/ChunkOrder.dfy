/** In which order the jobs submitted for a chunk reach the worker queue. A submission is named
    by its number, so that the lists of waiting jobs can be compared by it. */
module ChunkOrder {
  import opened ChunkTypes
  import opened JobPools
  import opened JobPoolInv
  import opened JobPoolRuns
  import opened JobPoolTheorems
  import opened ChunkLocks

  // ---------------------------------------------------------------- lists of numbers

  ghost predicate Increasing(xs: seq<nat>) { forall i, j :: 0 <= i < j < |xs| ==> xs[i] < xs[j] }

  ghost predicate Below(xs: seq<nat>, n: nat) { forall x <- xs :: x < n }

  lemma IncreasingSnoc(xs: seq<nat>, x: nat)
    requires Increasing(xs) && Below(xs, x)
    ensures Increasing(xs + [x])
  {
    assert forall i :: 0 <= i < |xs| ==> xs[i] in xs;
  }

  lemma IncreasingParts(xs: seq<nat>, ys: seq<nat>)
    requires Increasing(xs + ys)
    ensures Increasing(xs) && Increasing(ys) && forall x, y :: x in xs && y in ys ==> x < y
  {
    var zs := xs + ys;
    assert forall i :: 0 <= i < |xs| ==> zs[i] == xs[i];
    assert forall j :: 0 <= j < |ys| ==> zs[|xs| + j] == ys[j];
  }

  /** Without some of its middle an increasing list still increases. */
  lemma IncreasingLess(xs: seq<nat>, ys: seq<nat>, zs: seq<nat>)
    requires Increasing(xs + ys + zs)
    ensures Increasing(xs + zs)
  {
    var all, less := xs + ys + zs, xs + zs;
    assert forall i :: 0 <= i < |less| ==> less[i] == all[if i < |xs| then i else i + |ys|];
  }

  lemma BelowParts(xs: seq<nat>, ys: seq<nat>, n: nat)
    ensures Below(xs + ys, n) <==> Below(xs, n) && Below(ys, n)
  {
    assert forall x :: x in xs + ys <==> x in xs || x in ys;
  }

  lemma BelowMore(xs: seq<nat>, m: nat, n: nat)
    requires Below(xs, m) && m <= n
    ensures Below(xs, n)
  {}

  // ---------------------------------------------------------------- what is always ordered

  /** The lists of waiting jobs each follow the order of submission: what is being released
      before what is deferred, and what passed the check before what is deferred. */
  ghost predicate Waits(n: nat, submitted: seq<nat>, flight: seq<nat>, transit: seq<nat>, deferred: seq<nat>) {
    && Increasing(submitted) && Increasing(flight + deferred) && Increasing(transit + deferred)
    && Below(submitted, n) && Below(flight, n) && Below(transit, n) && Below(deferred, n)
  }

  ghost predicate Waiting(p: Pool, c: nat) {
    Waits(|p.log.submitted|, Of(p.log.submitted, c), InFlight(p.locks.releases, c), InTransit(p.transit, c), Deferred(p.locks.held, c))
  }

  /** The next submission, deferred or past the check. */
  lemma WaitsMore(n: nat, submitted: seq<nat>, flight: seq<nat>, transit: seq<nat>, deferred: seq<nat>, x: seq<nat>, locked: bool)
    requires Waits(n, submitted, flight, transit, deferred) && (x == [] || x == [n]) && (!locked && x != [] ==> deferred == [])
    ensures if locked then Waits(n + 1, submitted + x, flight, transit, deferred + x)
            else Waits(n + 1, submitted + x, flight, transit + x, deferred)
  {
    assert submitted + [] == submitted && transit + [] == transit && deferred + [] == deferred;
    BelowParts(flight, deferred, n);
    BelowParts(transit, deferred, n);
    if x != [] {
      IncreasingSnoc(submitted, n);
      IncreasingSnoc(flight + deferred, n);
      IncreasingSnoc(transit + deferred, n);
      assert flight + deferred + [n] == flight + (deferred + [n]) && transit + deferred + [n] == transit + (deferred + [n]);
      assert deferred == [] ==> transit + deferred + [n] == transit + [n] + deferred;
    }
  }

  lemma SubmitWaits(p: Pool, chunk: nat, r: Request, c: nat)
    requires Inv(p) && Waiting(p, c) && r.work == |p.log.submitted|
    ensures Waiting(Submit(p, chunk, r), c)
  {
    hide Inv, Waits, Of, InFlight, InTransit, Deferred, Locked;
    if !Locked(p.locks, chunk) { UnlockedDefersNothing(p, chunk); }
    SubmitParts(p, chunk, r, c);
    var p', x := Submit(p, chunk, r), if c == chunk then [r.work] else [];
    assert |p'.log.submitted| == |p.log.submitted| + 1;
    hide Submit;
    WaitsMore(|p.log.submitted|, Of(p.log.submitted, c), InFlight(p.locks.releases, c), InTransit(p.transit, c),
              Deferred(p.locks.held, c), x, Locked(p.locks, chunk));
  }

  lemma UnlockedDefersNothing(p: Pool, chunk: nat)
    requires Inv(p) && !Locked(p.locks, chunk)
    ensures Deferred(p.locks.held, chunk) == []
  {
    hide PlaceOk, ListenersOk, StateOk, LogOk;
  }

  lemma CheckedWaits(p: Pool, i: nat, c: nat)
    requires p.work.listeners != [] && i < |p.transit| && Waiting(p, c)
    ensures Waiting(AddChecked(p, i), c)
  {
    CheckedParts(p, i, c);
    hide Of, InFlight, InTransit, Deferred, AddChecked;
    if p.transit[i].chunk == c {
      var before, x, rest := InTransit(p.transit[..i], c), [p.transit[i].r.work], InTransit(p.transit[i + 1..], c);
      WaitsLess(before, x, rest, Deferred(p.locks.held, c), |p.log.submitted|);
    }
  }

  lemma WaitsLess(before: seq<nat>, x: seq<nat>, rest: seq<nat>, deferred: seq<nat>, n: nat)
    requires Increasing(before + x + rest + deferred) && Below(before + x + rest, n)
    ensures Increasing(before + rest + deferred) && Below(before + rest, n)
  {
    assert before + x + rest + deferred == before + x + (rest + deferred) && before + rest + deferred == before + (rest + deferred);
    IncreasingLess(before, x, rest + deferred);
    BelowParts(before + x, rest, n);
    BelowParts(before, x, n);
    BelowParts(before, rest, n);
  }

  lemma GoOnWaits(p: Pool, i: nat, c: nat)
    requires p.work.listeners != [] && i < |p.locks.releases| && Waiting(p, c)
    ensures Waiting(GoOn(p, i), c)
  {
    GoOnParts(p, i, c);
    hide Of, InFlight, InTransit, Deferred, GoOn, Works;
    var r := p.locks.releases[i];
    if r.todo != [] && r.chunk == c {
      var before, rest := InFlight(p.locks.releases[..i], c), InFlight(p.locks.releases[i + 1..], c);
      var x, xs := [r.todo[0].work], Works(r.todo[1..]);
      assert before + (x + xs) + rest == before + x + (xs + rest) && before + xs + rest == before + (xs + rest);
      WaitsLess(before, x, xs + rest, Deferred(p.locks.held, c), |p.log.submitted|);
    }
  }

  lemma ReleaseWaits(p: Pool, chunk: nat, status: Option<Status>, c: nat)
    requires Waiting(p, c)
    ensures Waiting(ReleaseLock(p, chunk, status), c)
  {
    ReleaseParts(p, chunk, status, c);
    ReleaseDeferred(p, chunk, status, c);
    hide Of, InFlight, InTransit, Deferred, ReleaseLock;
    var p' := ReleaseLock(p, chunk, status);
    var n, transit := |p.log.submitted|, InTransit(p.transit, c);
    BelowParts(InFlight(p.locks.releases, c), Deferred(p.locks.held, c), n);
    BelowParts(InFlight(p'.locks.releases, c), Deferred(p'.locks.held, c), n);
    IncreasingParts(transit, Deferred(p.locks.held, c));
    assert transit + [] == transit;
  }

  lemma ReleaseDeferred(p: Pool, chunk: nat, status: Option<Status>, c: nat)
    ensures var d := Deferred(ReleaseLock(p, chunk, status).locks.held, c); d == [] || d == Deferred(p.locks.held, c)
  {}

  lemma OtherWaits(p: Pool, e: Event, c: nat)
    requires Inv(p) && Waiting(p, c) && MayHappen(p, e)
    requires !e.Submits? && !e.AddsChecked? && !e.ReleaseGoesOn? && !e.LockEnds? && !e.LockErased?
    ensures p.work.listeners != [] && Waiting(Apply(p, e), c)
  {
    hide Inv, Waits, Of, InFlight, InTransit, Deferred, Apply, MayHappen;
    SomeListener(p);
    OtherParts(p, e, c);
  }

  lemma WaitingStep(p: Pool, e: Event, c: nat)
    requires Inv(p) && Waiting(p, c) && MayHappen(p, e)
    ensures Waiting(Apply(p, e), c)
  {
    hide Inv, Waiting, Submit, AddChecked, GoOn, ReleaseLock;
    SomeListener(p);
    match e
    case Submits(chunk, r) => SubmitWaits(p, chunk, r, c);
    case AddsChecked(i) => CheckedWaits(p, i, c);
    case ReleaseGoesOn(i) => GoOnWaits(p, i, c);
    case LockEnds(chunk, status) => ReleaseWaits(p, chunk, Some(status), c);
    case LockErased(chunk) => ReleaseWaits(p, chunk, None, c);
    case _ => OtherWaits(p, e, c);
  }

  /** In every run, ordered or not. */
  lemma {:induction false} WaitingRun(listeners: nat, events: seq<Event>, c: nat)
    requires listeners > 0
    ensures Waiting(Reach(listeners, events), c)
  {
    if events == [] {
      assert Waiting(Blank(listeners), c);
    } else {
      var n := |events| - 1;
      WaitingRun(listeners, events[..n], c);
      ReachInv(listeners, events[..n]);
      hide Inv, Waiting, Apply, MayHappen;
      var p := Reach(listeners, events[..n]);
      if MayHappen(p, events[n]) { WaitingStep(p, events[n], c); }
    }
  }

  // ---------------------------------------------------------------- order of submission

  /** The jobs of the chunk have reached the worker queue in order of submission, without a gap. */
  ghost predicate Ordered(p: Pool, c: nat) { Of(p.log.enqueued, c) <= Of(p.log.submitted, c) }

  /** The number is the least of a list in increasing order. */
  predicate Precedes(x: nat, xs: seq<nat>) { xs == [] || x < xs[0] }

  /** The step does not overtake: a job past the check is added behind those that passed before
      it and before anything submitted later that is being released; a deferred job is added
      oldest lock first and before anything submitted later that passed the check. */
  predicate Orderly(p: Pool, e: Event) {
    match e
    case AddsChecked(i) =>
      i < |p.transit| &&
      var t := p.transit[i];
      InTransit(p.transit[..i], t.chunk) == [] && Precedes(t.r.work, InFlight(p.locks.releases, t.chunk))
    case ReleaseGoesOn(i) =>
      i < |p.locks.releases| &&
      var r := p.locks.releases[i];
      r.todo == [] || (InFlight(p.locks.releases[..i], r.chunk) == [] && Precedes(r.todo[0].work, InTransit(p.transit, r.chunk)))
    case _ => true
  }

  /** The step is about a job of the chunk. */
  predicate About(p: Pool, e: Event, c: nat) {
    match e
    case AddsChecked(i) => i < |p.transit| && p.transit[i].chunk == c
    case ReleaseGoesOn(i) => i < |p.locks.releases| && p.locks.releases[i].chunk == c
    case _ => false
  }

  /** The next job is the right one exactly when no other waits that was submitted before it. */
  lemma NextIs(sub: seq<nat>, enq: seq<nat>, wait: multiset<nat>, x: nat)
    requires Increasing(sub) && enq <= sub && multiset(sub) == multiset(enq) + wait && x in wait
    ensures enq + [x] <= sub <==> forall y :: y in wait ==> x <= y
  {
    var rest := sub[|enq|..];
    assert sub == enq + rest;
    MultisetSum(enq, rest);
    Cancel(multiset(enq), multiset(rest), wait);
    assert x in rest;
    assert forall i :: 0 <= i < |rest| ==> rest[0] <= rest[i];
    assert rest[0] in wait;
    assert enq + [x] <= sub <==> rest[0] == x;
  }

  lemma Cancel(a: multiset<nat>, b: multiset<nat>, c: multiset<nat>)
    requires a + b == a + c
    ensures b == c
  {
    forall x ensures b[x] == c[x] {
      assert (a + b)[x] == a[x] + b[x] && (a + c)[x] == a[x] + c[x];
    }
  }

  lemma FirstLeast(xs: seq<nat>, x: nat)
    requires Increasing(xs)
    ensures (forall y <- xs :: x < y) <==> Precedes(x, xs)
  {
    if Precedes(x, xs) {
      forall y | y in xs ensures x < y {
        var k :| 0 <= k < |xs| && xs[k] == y;
        assert xs[0] <= xs[k];
      }
    } else {
      assert xs[0] in xs;
    }
  }

  /** In an increasing list x is not behind another exactly when it is the first. */
  lemma FirstOf(before: seq<nat>, x: nat, rest: seq<nat>)
    requires Increasing(before + [x] + rest)
    ensures (forall y <- before + [x] + rest :: x <= y) <==> before == []
  {
    var all := before + [x] + rest;
    assert all[|before|] == x;
    assert forall i :: 0 <= i < |all| ==> all[i] in all;
    if before != [] { assert all[0] < all[|before|]; }
  }

  /** x is the least of what waits exactly when it is the first of its list and comes before
      the other one. */
  lemma LeastOf(x: nat, before: seq<nat>, rest: seq<nat>, other: seq<nat>, deferred: seq<nat>)
    requires Increasing(before + [x] + rest + deferred) && Increasing(other + deferred) && x !in other
    ensures (forall y :: y in multiset(before + [x] + rest) + multiset(other) + multiset(deferred) ==> x <= y) <==>
            before == [] && Precedes(x, other)
  {
    var mine := before + [x] + rest;
    assert mine[|before|] == x && x in mine;
    IncreasingParts(mine, deferred);
    IncreasingParts(other, deferred);
    FirstOf(before, x, rest);
    FirstLeast(other, x);
    hide Increasing;
    var wait := multiset(mine) + multiset(other) + multiset(deferred);
    assert forall y :: y in wait <==> y in mine || y in other || y in deferred;
    assert forall y <- other :: y != x;
  }

  /** A number submitted once waits once. */
  lemma OnlyOnce(sub: seq<nat>, a: multiset<nat>, b: multiset<nat>, c: multiset<nat>, d: multiset<nat>, x: nat)
    requires Increasing(sub) && multiset(sub) == a + b + c + d && x in b
    ensures x !in c
  {
    DistinctOnce(sub, x);
    assert (a + b + c + d)[x] == a[x] + b[x] + c[x] + d[x];
  }

  lemma {:induction false} DistinctOnce(xs: seq<nat>, x: nat)
    requires Increasing(xs)
    ensures multiset(xs)[x] <= 1
  {
    if xs != [] {
      var n := |xs| - 1;
      assert xs == xs[..n] + [xs[n]];
      MultisetSum(xs[..n], [xs[n]]);
      DistinctOnce(xs[..n], x);
      assert xs[n] !in xs[..n];
    }
  }

  /** What waits, whichever of two lists is looked at first. */
  lemma WaitingOf(sub: seq<nat>, enq: seq<nat>, a: multiset<nat>, b: multiset<nat>, d: multiset<nat>)
    requires multiset(sub) == multiset(enq) + a + b + d
    ensures multiset(sub) == multiset(enq) + (b + a + d) && multiset(sub) == multiset(enq) + (a + b + d)
    ensures multiset(sub) == multiset(enq) + b + a + d
  {}

  /** Adding x, the first of which list it may be, keeps the order exactly under this condition. */
  lemma AddedInOrder(sub: seq<nat>, enq: seq<nat>, before: seq<nat>, x: nat, rest: seq<nat>, other: seq<nat>, deferred: seq<nat>)
    requires Increasing(sub) && Increasing(before + [x] + rest + deferred) && Increasing(other + deferred) && enq <= sub
    requires multiset(sub) == multiset(enq) + multiset(before + [x] + rest) + multiset(other) + multiset(deferred)
    ensures enq + [x] <= sub <==> before == [] && Precedes(x, other)
  {
    var mine := before + [x] + rest;
    assert mine[|before|] == x && x in multiset(mine);
    OnlyOnce(sub, multiset(enq), multiset(mine), multiset(other), multiset(deferred), x);
    assert x !in other;
    LeastOf(x, before, rest, other, deferred);
    var wait := multiset(mine) + multiset(other) + multiset(deferred);
    WaitingOf(sub, enq, multiset(mine), multiset(other), multiset(deferred));
    hide Increasing, Precedes;
    NextIs(sub, enq, wait, x);
  }

  lemma CheckedOrder(p: Pool, i: nat, c: nat)
    requires p.work.listeners != [] && i < |p.transit| && p.transit[i].chunk == c
    requires Waiting(p, c) && Conserved(p, c) && Ordered(p, c)
    ensures Ordered(AddChecked(p, i), c) <==> Orderly(p, AddsChecked(i))
  {
    CheckedParts(p, i, c);
    hide Of, InFlight, InTransit, Deferred, AddChecked, Increasing, Precedes, Below;
    var before, x, rest := InTransit(p.transit[..i], c), p.transit[i].r.work, InTransit(p.transit[i + 1..], c);
    var sub, enq, other, d := Of(p.log.submitted, c), Of(p.log.enqueued, c), InFlight(p.locks.releases, c), Deferred(p.locks.held, c);
    WaitingOf(sub, enq, multiset(other), multiset(before + [x] + rest), multiset(d));
    AddedInOrder(sub, enq, before, x, rest, other, d);
  }

  lemma GoOnOrder(p: Pool, i: nat, c: nat)
    requires p.work.listeners != [] && i < |p.locks.releases| && p.locks.releases[i].chunk == c
    requires Waiting(p, c) && Conserved(p, c) && Ordered(p, c)
    ensures Ordered(GoOn(p, i), c) <==> Orderly(p, ReleaseGoesOn(i))
  {
    hide Of, InFlight, InTransit, Deferred, GoOn, Works, Increasing, Precedes, Below;
    GoOnParts(p, i, c);
    var r := p.locks.releases[i];
    if r.todo != [] {
      var before, x, xs := InFlight(p.locks.releases[..i], c), r.todo[0].work, Works(r.todo[1..]);
      var rest := xs + InFlight(p.locks.releases[i + 1..], c);
      Middle(before, [x], xs, InFlight(p.locks.releases[i + 1..], c));
      AddedInOrder(Of(p.log.submitted, c), Of(p.log.enqueued, c), before, x, rest, InTransit(p.transit, c), Deferred(p.locks.held, c));
    }
  }

  lemma Middle(a: seq<nat>, b: seq<nat>, c: seq<nat>, d: seq<nat>)
    ensures a + (b + c) + d == a + b + (c + d)
  {}

  /** Both records only grow, and the queue only for a step about a job of the chunk. */
  lemma RecordsGrow(p: Pool, e: Event, c: nat)
    requires Inv(p) && MayHappen(p, e)
    ensures p.work.listeners != []
    ensures var p' := Apply(p, e);
            && Of(p.log.submitted, c) <= Of(p'.log.submitted, c) && Of(p.log.enqueued, c) <= Of(p'.log.enqueued, c)
            && (!About(p, e, c) ==> Of(p'.log.enqueued, c) == Of(p.log.enqueued, c))
            && (!e.Submits? ==> Of(p'.log.submitted, c) == Of(p.log.submitted, c))
  {
    hide Inv, Of, InFlight, InTransit, Deferred, Submit, AddChecked, GoOn, ReleaseLock;
    SomeListener(p);
    match e
    case Submits(chunk, r) => SubmitParts(p, chunk, r, c);
    case AddsChecked(i) => CheckedParts(p, i, c);
    case ReleaseGoesOn(i) => GoOnParts(p, i, c);
    case LockEnds(chunk, status) => ReleaseParts(p, chunk, Some(status), c);
    case LockErased(chunk) => ReleaseParts(p, chunk, None, c);
    case _ => OtherParts(p, e, c);
  }

  lemma NoneExtra(p: Pool, c: nat)
    requires Conserved(p, c)
    ensures |Of(p.log.enqueued, c)| <= |Of(p.log.submitted, c)|
  {
    hide Of, InFlight, InTransit, Deferred;
    assert |multiset(Of(p.log.submitted, c))| >= |multiset(Of(p.log.enqueued, c))|;
  }

  /** Once out of order, always out of order. */
  lemma DisorderStays(p: Pool, e: Event, c: nat)
    requires Inv(p) && Conserved(p, c) && MayHappen(p, e) && !Ordered(p, c)
    ensures p.work.listeners != [] && !Ordered(Apply(p, e), c)
  {
    hide Inv, Of, Apply, MayHappen, Conserved;
    RecordsGrow(p, e, c);
    NoneExtra(p, c);
  }

  /** The order survives a step exactly when the step is no overtaking of a job of the chunk. */
  lemma OrderStep(p: Pool, e: Event, c: nat)
    requires Inv(p) && Waiting(p, c) && Conserved(p, c) && MayHappen(p, e)
    ensures p.work.listeners != []
    ensures Ordered(Apply(p, e), c) <==> Ordered(p, c) && (About(p, e, c) ==> Orderly(p, e))
  {
    hide Inv, Waiting, Conserved, Of, Orderly, Submit, AddChecked, GoOn, ReleaseLock;
    RecordsGrow(p, e, c);
    if !Ordered(p, c) {
      DisorderStays(p, e, c);
    } else if About(p, e, c) {
      if e.AddsChecked? { CheckedOrder(p, e.i, c); } else { GoOnOrder(p, e.i, c); }
    }
  }

  /** In every run: a step keeps the order of a chunk exactly when it is orderly or about
      another chunk. */
  lemma OvertakingIff(listeners: nat, events: seq<Event>, e: Event, c: nat)
    requires listeners > 0 && MayHappen(Reach(listeners, events), e) && Ordered(Reach(listeners, events), c)
    ensures var p := Reach(listeners, events); Ordered(Apply(p, e), c) <==> (About(p, e, c) ==> Orderly(p, e))
  {
    hide Reach, Inv, Waiting, Conserved, Ordered, About, Orderly, Apply, MayHappen;
    ReachInv(listeners, events);
    WaitingRun(listeners, events, c);
    SubmittedOnce(listeners, events, c);
    OrderStep(Reach(listeners, events), e, c);
  }

  /** No step of the run overtakes a job of the chunk. */
  predicate OrderlyRun(listeners: nat, events: seq<Event>, c: nat)
    requires listeners > 0
  {
    events != [] ==>
      var n := |events| - 1;
      var p := Reach(listeners, events[..n]);
      && OrderlyRun(listeners, events[..n], c)
      && (MayHappen(p, events[n]) && About(p, events[n], c) ==> Orderly(p, events[n]))
  }

  /** In a run the jobs of a chunk reach the worker queue in order of submission, the deferred
      ones when their lock is released, exactly when no step overtakes. */
  lemma {:induction false} SubmissionOrder(listeners: nat, events: seq<Event>, c: nat)
    requires listeners > 0
    ensures Ordered(Reach(listeners, events), c) <==> OrderlyRun(listeners, events, c)
  {
    if events == [] {
      assert Ordered(Blank(listeners), c);
    } else {
      var n := |events| - 1;
      SubmissionOrder(listeners, events[..n], c);
      ReachInv(listeners, events[..n]);
      WaitingRun(listeners, events[..n], c);
      SubmittedOnce(listeners, events[..n], c);
      hide Inv, Waiting, Conserved, Ordered, About, Orderly, Apply, MayHappen;
      var p := Reach(listeners, events[..n]);
      if MayHappen(p, events[n]) { OrderStep(p, events[n], c); }
    }
  }

  // ---------------------------------------------------------------- the jobs of one lock

  /** The first list is part of the second, in order. */
  predicate Sub(xs: seq<nat>, ys: seq<nat>) {
    xs == [] || (ys != [] &&
                 (|| Sub(xs, ys[..|ys| - 1])
                  || (xs[|xs| - 1] == ys[|ys| - 1] && Sub(xs[..|xs| - 1], ys[..|ys| - 1]))))
  }

  lemma {:induction false} SubMore(xs: seq<nat>, ys: seq<nat>, zs: seq<nat>)
    requires Sub(xs, ys)
    ensures Sub(xs, ys + zs)
  {
    if zs == [] {
      assert ys + zs == ys;
    } else {
      var n := |zs| - 1;
      assert (ys + zs)[..|ys + zs| - 1] == ys + zs[..n];
      SubMore(xs, ys, zs[..n]);
    }
  }

  lemma SubBoth(xs: seq<nat>, ys: seq<nat>, z: nat)
    requires Sub(xs, ys)
    ensures Sub(xs + [z], ys + [z])
  {
    assert (xs + [z])[..|xs|] == xs && (ys + [z])[..|ys|] == ys;
  }

  /** A release of the pool that has yet to add the given jobs. */
  ghost predicate Adding(rs: seq<Release>, j: nat, ticket: Ticket, chunk: nat, todo: seq<Request>) {
    j < |rs| && rs[j].ticket == ticket && rs[j].chunk == chunk && rs[j].todo == todo
  }

  /** Any step but the next one of the release itself leaves it as it is. */
  lemma AddingStays(p: Pool, e: Event, j: nat) returns (k: nat)
    requires Inv(p) && MayHappen(p, e) && j < |p.locks.releases| && p.locks.releases[j].todo != [] && e != ReleaseGoesOn(j)
    ensures p.work.listeners != []
    ensures k < |Apply(p, e).locks.releases| && Apply(p, e).locks.releases[k] == p.locks.releases[j]
  {
    hide Inv, AddJob, SendStatus, Take, Receive, Register, Finish, Disable, ChangeCallback;
    SomeListener(p);
    k := if e.ReleaseGoesOn? && p.locks.releases[e.i].todo == [] && e.i < j then j - 1 else j;
  }

  /** How far the list of a release has got between two states. */
  ghost predicate Progress(p: Pool, q: Pool, r: Release, k: nat, j: nat) {
    && k <= |r.todo| && Of(p.log.enqueued, r.chunk) <= Of(q.log.enqueued, r.chunk)
    && Sub(Works(r.todo[..k]), Of(q.log.enqueued, r.chunk)[|Of(p.log.enqueued, r.chunk)|..])
    && (k == |r.todo| || Adding(q.locks.releases, j, r.ticket, r.chunk, r.todo[k..]))
  }

  lemma ProgressBegins(p: Pool, i: nat)
    requires i < |p.locks.releases|
    ensures Progress(p, p, p.locks.releases[i], 0, i)
  {
    var r := p.locks.releases[i];
    assert r.todo[0..] == r.todo && Works(r.todo[..0]) == [];
  }

  /** The release adds its next job. */
  lemma ProgressMade(p: Pool, q: Pool, r: Release, k: nat, j: nat)
    requires q.work.listeners != [] && Progress(p, q, r, k, j) && k < |r.todo|
    ensures j < |q.locks.releases| && Progress(p, GoOn(q, j), r, k + 1, j)
  {
    GoOnParts(q, j, r.chunk);
    var q', was, mid := GoOn(q, j), Of(p.log.enqueued, r.chunk), Of(q.log.enqueued, r.chunk);
    var x := r.todo[k].work;
    assert r.todo[k..][1..] == r.todo[k + 1..];
    assert Adding(q'.locks.releases, j, r.ticket, r.chunk, r.todo[k + 1..]);
    assert r.todo[..k + 1] == r.todo[..k] + [r.todo[k]];
    WorksSnoc(r.todo[..k], r.todo[k]);
    assert (mid + [x])[|was|..] == mid[|was|..] + [x];
    hide Of, InFlight, GoOn, Works, Sub;
    SubBoth(Works(r.todo[..k]), mid[|was|..], x);
  }

  lemma ProgressKept(p: Pool, q: Pool, q': Pool, r: Release, k: nat, j: nat, j': nat)
    requires Progress(p, q, r, k, j) && Of(q.log.enqueued, r.chunk) <= Of(q'.log.enqueued, r.chunk)
    requires k < |r.todo| ==> j < |q.locks.releases| && j' < |q'.locks.releases| && q'.locks.releases[j'] == q.locks.releases[j]
    ensures Progress(p, q', r, k, j')
  {
    hide Of, Works, Sub;
    var was, mid, now := Of(p.log.enqueued, r.chunk), Of(q.log.enqueued, r.chunk), Of(q'.log.enqueued, r.chunk);
    assert now[|was|..] == mid[|was|..] + now[|mid|..];
    SubMore(Works(r.todo[..k]), mid[|was|..], now[|mid|..]);
  }

  /** On release every deferred job of a lock is added in order of submission, whatever comes
      in between: at any later time the first k of them are in the queue, in order, and the
      rest are still to be added. */
  lemma {:induction false} ReleasedInOrder(p: Pool, i: nat, events: seq<Event>) returns (k: nat, j: nat)
    requires Inv(p) && i < |p.locks.releases|
    ensures p.work.listeners != [] && Progress(p, Run(p, events), p.locks.releases[i], k, j)
  {
    hide Inv, Progress, Apply, MayHappen, Of;
    SomeListener(p);
    var r := p.locks.releases[i];
    if events == [] {
      ProgressBegins(p, i);
      k, j := 0, i;
    } else {
      var n := |events| - 1;
      k, j := ReleasedInOrder(p, i, events[..n]);
      RunInv(p, events[..n]);
      var q, e := Run(p, events[..n]), events[n];
      if MayHappen(q, e) {
        k, j := ProgressStep(p, q, r, k, j, e);
      }
    }
  }

  lemma ProgressStep(p: Pool, q: Pool, r: Release, k: nat, j: nat, e: Event) returns (k': nat, j': nat)
    requires Inv(q) && MayHappen(q, e) && Progress(p, q, r, k, j)
    ensures q.work.listeners != [] && Progress(p, Apply(q, e), r, k', j')
  {
    hide Inv, MayHappen, Of, Works, Sub, GoOn;
    SomeListener(q);
    RecordsGrow(q, e, r.chunk);
    k', j' := k, j;
    if k == |r.todo| {
      ProgressKept(p, q, Apply(q, e), r, k, j, j);
    } else if e == ReleaseGoesOn(j) {
      ProgressMade(p, q, r, k, j);
      k' := k + 1;
    } else {
      j' := AddingStays(q, e, j);
      ProgressKept(p, q, Apply(q, e), r, k, j, j');
    }
  }

  // ---------------------------------------------------------------- runs that overtake

  lemma Defers(p: Pool, t: Ticket, releases: seq<Release>, submitted: seq<Entry>) returns (q: Pool)
    requires At(p, map[7 := LockData(t, true, [])], releases, [], submitted, [])
    ensures StepsTo(p, Submits(7, Nth(|submitted|)), q)
    ensures At(q, map[7 := LockData(t, true, [Nth(|submitted|)])], releases, [], submitted + [Entry(7, |submitted|)], [])
  {
    q := Apply(p, Submits(7, Nth(|submitted|)));
    assert [] + [Nth(|submitted|)] == [Nth(|submitted|)];
  }

  lemma Ends(p: Pool, t: Ticket, pending: seq<Request>, releases: seq<Release>, submitted: seq<Entry>) returns (q: Pool)
    requires At(p, map[7 := LockData(t, true, pending)], releases, [], submitted, [])
    ensures StepsTo(p, LockEnds(7, STATUS_OK), q)
    ensures At(q, map[], releases + [Release(7, t, pending, Some(STATUS_OK))], [], submitted, [])
  {
    q := Apply(p, LockEnds(7, STATUS_OK));
    var held: map<nat, LockData> := map[7 := LockData(t, true, pending)];
    assert held - {7} == map[];
  }

  lemma Releases(p: Pool, releases: seq<Release>, i: nat, k: nat, submitted: seq<Entry>, enqueued: seq<Entry>) returns (q: Pool)
    requires At(p, map[], releases, [], submitted, enqueued) && i < |releases| && releases[i].todo == [Nth(k)] && releases[i].chunk == 7
    ensures StepsTo(p, ReleaseGoesOn(i), q)
    ensures At(q, map[], releases[i := releases[i].(todo := [])], [], submitted, enqueued + [Entry(7, k)])
  {
    q := Apply(p, ReleaseGoesOn(i));
    assert [Nth(k)][1..] == [];
  }

  /** One job is deferred behind a lock, which then ends. */
  lemma Held(p: Pool, events: seq<Event>, n: nat, p0: Pool, releases: seq<Release>, submitted: seq<Entry>) returns (q: Pool, t: Ticket)
    requires p0.work.listeners != [] && n + 4 <= |events| && Run(p0, events[..n]) == p && At(p, map[], releases, [], submitted, [])
    requires events[n] == LockStarts(7, 0, 0) && events[n + 1] == LockEnforced(7)
    requires events[n + 2] == Submits(7, Nth(|submitted|)) && events[n + 3] == LockEnds(7, STATUS_OK)
    ensures Run(p0, events[..n + 4]) == q
    ensures At(q, map[], releases + [Release(7, t, [Nth(|submitted|)], Some(STATUS_OK))], [], submitted + [Entry(7, |submitted|)], [])
  {
    hide Run, At, StepsTo;
    var p1, t1 := LockBegun(p, releases, submitted);
    var p2 := LockMade(p1, t1, releases, [], submitted);
    var p3 := Defers(p2, t1, releases, submitted);
    var p4 := Ends(p3, t1, [Nth(|submitted|)], releases, submitted + [Entry(7, |submitted|)]);
    RunStep(p0, events, n, p, p1);
    RunStep(p0, events, n + 1, p1, p2);
    RunStep(p0, events, n + 2, p2, p3);
    RunStep(p0, events, n + 3, p3, p4);
    q, t := p4, t1;
  }

  lemma OfTwo(a: nat, b: nat)
    ensures Of([Entry(7, a), Entry(7, b)], 7) == [a, b]
  {
    OfOne(7, a);
    OfSnoc([Entry(7, a)], Entry(7, b), 7);
    assert [Entry(7, a)] + [Entry(7, b)] == [Entry(7, a), Entry(7, b)];
  }

  /** Another job comes in between the release of the lock and the adding of the first. */
  function OvertakingEvents(): seq<Event> {
    [LockStarts(7, 0, 0), LockEnforced(7), Submits(7, Nth(0)), LockEnds(7, STATUS_OK), Submits(7, Nth(1)), AddsChecked(0), ReleaseGoesOn(0)]
  }

  const FIRST: seq<Entry> := [Entry(7, 0)]
  const SECOND: seq<Entry> := [Entry(7, 1)]
  const BOTH: seq<Entry> := [Entry(7, 0), Entry(7, 1)]
  const SWAPPED: seq<Entry> := [Entry(7, 1), Entry(7, 0)]

  lemma Lists()
    ensures [] + FIRST == FIRST && [] + SECOND == SECOND && FIRST + SECOND == BOTH && SECOND + FIRST == SWAPPED
  {}

  lemma BlankAt(events: seq<Event>)
    ensures At(Blank(1), map[], [], [], [], []) && Run(Blank(1), events[..0]) == Blank(1) && events[..|events|] == events
  {}

  lemma Unlocked(p: Pool, releases: seq<Release>, submitted: seq<Entry>)
    requires At(p, map[], releases, [], submitted, [])
    ensures !Locked(p.locks, 7)
  {}

  /** It does happen: the job submitted second is first in the worker queue. */
  lemma Overtakes()
    ensures var p := Reach(1, OvertakingEvents()); Of(p.log.submitted, 7) == [0, 1] && Of(p.log.enqueued, 7) == [1, 0]
  {
    hide Run, Blank, Of, StepsTo, At, Locked, Nth;
    var p0, ev := Blank(1), OvertakingEvents();
    BlankAt(ev);
    Lists();
    var p4, t := Held(p0, ev, 0, p0, [], []);
    var rs := [Release(7, t, [Nth(0)], Some(STATUS_OK))];
    assert [] + rs == rs;
    Unlocked(p4, rs, FIRST);
    var p5 := Passes(p4, map[], rs, FIRST);
    var p6 := PassedAdded(p5, map[], rs, 1, BOTH);
    var p7 := Releases(p6, rs, 0, 0, BOTH, SECOND);
    RunStep(p0, ev, 4, p4, p5);
    RunStep(p0, ev, 5, p5, p6);
    RunStep(p0, ev, 6, p6, p7);
    EndsWith(p7, rs[0 := rs[0].(todo := [])]);
  }

  lemma EndsWith(p: Pool, releases: seq<Release>)
    requires At(p, map[], releases, [], BOTH, SWAPPED)
    ensures Of(p.log.submitted, 7) == [0, 1] && Of(p.log.enqueued, 7) == [1, 0]
  {
    OfTwo(0, 1);
    OfTwo(1, 0);
  }

  /** Two locks of one chunk are released, and the second release adds first. */
  function InterleavingEvents(): seq<Event> {
    [LockStarts(7, 0, 0), LockEnforced(7), Submits(7, Nth(0)), LockEnds(7, STATUS_OK),
     LockStarts(7, 0, 0), LockEnforced(7), Submits(7, Nth(1)), LockEnds(7, STATUS_OK), ReleaseGoesOn(1), ReleaseGoesOn(0)]
  }

  /** It does happen without any job passing a lock. */
  lemma Interleaves()
    ensures var p := Reach(1, InterleavingEvents()); Of(p.log.submitted, 7) == [0, 1] && Of(p.log.enqueued, 7) == [1, 0]
  {
    hide Run, Blank, Of, StepsTo, At, Nth;
    var p0, ev := Blank(1), InterleavingEvents();
    BlankAt(ev);
    Lists();
    var p4, t := Held(p0, ev, 0, p0, [], []);
    var one := [Release(7, t, [Nth(0)], Some(STATUS_OK))];
    assert [] + one == one;
    var p8, u := Held(p4, ev, 4, p0, one, FIRST);
    var two := one + [Release(7, u, [Nth(1)], Some(STATUS_OK))];
    var p9 := Releases(p8, two, 1, 1, BOTH, []);
    var p10 := Releases(p9, two[1 := two[1].(todo := [])], 0, 0, BOTH, SECOND);
    RunStep(p0, ev, 8, p8, p9);
    RunStep(p0, ev, 9, p9, p10);
    EndsWith(p10, two[1 := two[1].(todo := [])][0 := two[0].(todo := [])]);
  }
}
