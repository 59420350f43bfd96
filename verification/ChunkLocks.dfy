/** The chunk-lock protocol: what happens to jobs submitted for a chunk while it is locked. */
module ChunkLocks {
  import opened ChunkTypes
  import opened JobPools
  import opened JobPoolInv
  import opened JobPoolRuns
  import opened JobPoolTheorems

  /** The work recorded for one chunk, in order. */
  function Of(es: seq<Entry>, chunk: nat): seq<nat> {
    if es == [] then []
    else Of(es[..|es| - 1], chunk) + if es[|es| - 1].chunk == chunk then [es[|es| - 1].work] else []
  }

  function Works(rs: seq<Request>): (r: seq<nat>)
    ensures |r| == |rs|
  {
    seq(|rs|, i requires 0 <= i < |rs| => rs[i].work)
  }

  /** The deferred work of the locks of a chunk that are being released. */
  function InFlight(rs: seq<Release>, chunk: nat): seq<nat> {
    if rs == [] then [] else (if rs[0].chunk == chunk then Works(rs[0].todo) else []) + InFlight(rs[1..], chunk)
  }

  function Deferred(held: map<nat, LockData>, chunk: nat): seq<nat> {
    if chunk in held then Works(held[chunk].pending) else []
  }

  /** The work that found the chunk unlocked and is not yet added. */
  function InTransit(ts: seq<Transit>, chunk: nat): seq<nat> {
    if ts == [] then [] else (if ts[0].chunk == chunk then [ts[0].r.work] else []) + InTransit(ts[1..], chunk)
  }

  /** The work of a chunk that no lock holds back: given to the worker queue, being released,
      or past the check. */
  function Through(p: Pool, chunk: nat): multiset<nat> {
    multiset(Of(p.log.enqueued, chunk)) + multiset(InFlight(p.locks.releases, chunk)) + multiset(InTransit(p.transit, chunk))
  }

  /** Every submission is either through or deferred. */
  ghost predicate Conserved(p: Pool, chunk: nat) {
    multiset(Of(p.log.submitted, chunk)) == Through(p, chunk) + multiset(Deferred(p.locks.held, chunk))
  }

  // ---------------------------------------------------------------- list lemmas

  lemma OfSnoc(es: seq<Entry>, e: Entry, chunk: nat)
    ensures Of(es + [e], chunk) == Of(es, chunk) + if e.chunk == chunk then [e.work] else []
  {
    assert (es + [e])[..|es|] == es;
  }

  lemma {:induction false} InFlightConcat(xs: seq<Release>, ys: seq<Release>, c: nat)
    ensures InFlight(xs + ys, c) == InFlight(xs, c) + InFlight(ys, c)
  {
    if xs == [] {
      assert xs + ys == ys;
    } else {
      assert (xs + ys)[1..] == xs[1..] + ys;
      InFlightConcat(xs[1..], ys, c);
    }
  }

  lemma InFlightSnoc(rs: seq<Release>, r: Release, chunk: nat)
    ensures InFlight(rs + [r], chunk) == InFlight(rs, chunk) + if r.chunk == chunk then Works(r.todo) else []
  {
    InFlightConcat(rs, [r], chunk);
    assert [r][1..] == [];
  }

  lemma {:induction false} InFlightSplit(rs: seq<Release>, i: nat, chunk: nat)
    requires i < |rs|
    ensures InFlight(rs, chunk) ==
            InFlight(rs[..i], chunk) + (if rs[i].chunk == chunk then Works(rs[i].todo) else []) + InFlight(rs[i + 1..], chunk)
  {
    hide Works;
    if i == 0 {
      assert rs[..0] == [];
    } else {
      assert rs[1..][..i - 1] == rs[1..i] && rs[..i][1..] == rs[1..i] && rs[1..][i..] == rs[i + 1..];
      InFlightSplit(rs[1..], i - 1, chunk);
      var a, b := if rs[0].chunk == chunk then Works(rs[0].todo) else [], InFlight(rs[1..i], chunk);
      var c, d := if rs[i].chunk == chunk then Works(rs[i].todo) else [], InFlight(rs[i + 1..], chunk);
      assert a + (b + c + d) == (a + b) + c + d;
    }
  }

  lemma WorksSnoc(rs: seq<Request>, r: Request)
    ensures Works(rs + [r]) == Works(rs) + [r.work]
  {}

  lemma WorksFirst(rs: seq<Request>)
    requires rs != []
    ensures Works(rs) == [rs[0].work] + Works(rs[1..])
  {}

  lemma {:induction false} InTransitConcat(xs: seq<Transit>, ys: seq<Transit>, c: nat)
    ensures InTransit(xs + ys, c) == InTransit(xs, c) + InTransit(ys, c)
  {
    if xs == [] {
      assert xs + ys == ys;
    } else {
      assert (xs + ys)[1..] == xs[1..] + ys && (xs + ys)[0] == xs[0];
      InTransitConcat(xs[1..], ys, c);
      Associates(if xs[0].chunk == c then [xs[0].r.work] else [], InTransit(xs[1..], c), InTransit(ys, c));
    }
  }

  lemma Associates<T>(xs: seq<T>, ys: seq<T>, zs: seq<T>)
    ensures xs + (ys + zs) == (xs + ys) + zs
  {}

  lemma InTransitOne(t: Transit, c: nat)
    ensures InTransit([t], c) == if t.chunk == c then [t.r.work] else []
  {
    assert [t][1..] == [];
  }

  lemma InTransitSplit(ts: seq<Transit>, i: nat, c: nat)
    requires i < |ts|
    ensures InTransit(ts, c) == InTransit(ts[..i], c) + (if ts[i].chunk == c then [ts[i].r.work] else []) + InTransit(ts[i + 1..], c)
  {
    assert ts == ts[..i] + ([ts[i]] + ts[i + 1..]);
    InTransitConcat(ts[..i], [ts[i]] + ts[i + 1..], c);
    InTransitConcat([ts[i]], ts[i + 1..], c);
    InTransitOne(ts[i], c);
    hide InTransit;
    var a, x, b := InTransit(ts[..i], c), if ts[i].chunk == c then [ts[i].r.work] else [], InTransit(ts[i + 1..], c);
    assert a + (x + b) == a + x + b;
  }

  // ---------------------------------------------------------------- what one step changes

  lemma SubmitParts(p: Pool, chunk: nat, r: Request, c: nat)
    ensures var p', x := Submit(p, chunk, r), if c == chunk then [r.work] else [];
            && Of(p'.log.submitted, c) == Of(p.log.submitted, c) + x
            && p'.locks.releases == p.locks.releases && p'.log.enqueued == p.log.enqueued
            && if Locked(p.locks, chunk)
               then p'.transit == p.transit && Deferred(p'.locks.held, c) == Deferred(p.locks.held, c) + x
               else p'.locks == p.locks && InTransit(p'.transit, c) == InTransit(p.transit, c) + x
  {
    hide Of, InTransit;
    OfSnoc(p.log.submitted, Entry(chunk, r.work), c);
    InTransitConcat(p.transit, [Transit(chunk, r)], c);
    InTransitOne(Transit(chunk, r), c);
    if Locked(p.locks, chunk) { WorksSnoc(p.locks.held[chunk].pending, r); }
  }

  /** A job that passed the check is added. */
  lemma CheckedParts(p: Pool, i: nat, c: nat)
    requires p.work.listeners != [] && i < |p.transit|
    ensures var p', t := AddChecked(p, i), p.transit[i];
            var before, rest := InTransit(p.transit[..i], c), InTransit(p.transit[i + 1..], c);
            && p'.log.submitted == p.log.submitted && p'.locks == p.locks
            && (t.chunk != c ==> Of(p'.log.enqueued, c) == Of(p.log.enqueued, c) && InTransit(p'.transit, c) == InTransit(p.transit, c))
            && (t.chunk == c ==>
                  && Of(p'.log.enqueued, c) == Of(p.log.enqueued, c) + [t.r.work]
                  && InTransit(p.transit, c) == before + [t.r.work] + rest
                  && InTransit(p'.transit, c) == before + rest)
  {
    hide AddJob, Of, InTransit;
    OfSnoc(p.log.enqueued, Entry(p.transit[i].chunk, p.transit[i].r.work), c);
    InTransitSplit(p.transit, i, c);
    InTransitConcat(p.transit[..i], p.transit[i + 1..], c);
  }

  /** The i-th release goes on. */
  lemma GoOnParts(p: Pool, i: nat, c: nat)
    requires p.work.listeners != [] && i < |p.locks.releases|
    ensures var p', r := GoOn(p, i), p.locks.releases[i];
            var before, rest := InFlight(p.locks.releases[..i], c), InFlight(p.locks.releases[i + 1..], c);
            && p'.log.submitted == p.log.submitted && p'.locks.held == p.locks.held && p'.transit == p.transit
            && (r.todo == [] || r.chunk != c ==>
                  Of(p'.log.enqueued, c) == Of(p.log.enqueued, c) && InFlight(p'.locks.releases, c) == InFlight(p.locks.releases, c))
            && (r.todo != [] && r.chunk == c ==>
                  && Of(p'.log.enqueued, c) == Of(p.log.enqueued, c) + [r.todo[0].work]
                  && InFlight(p.locks.releases, c) == before + ([r.todo[0].work] + Works(r.todo[1..])) + rest
                  && InFlight(p'.locks.releases, c) == before + Works(r.todo[1..]) + rest)
  {
    hide AddJob, SendStatus, Of, Works, InFlight;
    var rs, r := p.locks.releases, p.locks.releases[i];
    InFlightSplit(rs, i, c);
    if r.todo != [] {
      OfSnoc(p.log.enqueued, Entry(r.chunk, r.todo[0].work), c);
      var rs' := rs[i := r.(todo := r.todo[1..])];
      assert rs'[..i] == rs[..i] && rs'[i + 1..] == rs[i + 1..];
      InFlightSplit(rs', i, c);
      WorksFirst(r.todo);
    } else {
      NothingInFlight(rs, i, c);
    }
  }

  lemma NothingInFlight(rs: seq<Release>, i: nat, c: nat)
    requires i < |rs| && rs[i].todo == []
    ensures InFlight(rs[..i] + rs[i + 1..], c) == InFlight(rs, c)
  {
    hide InFlight;
    InFlightSplit(rs, i, c);
    InFlightConcat(rs[..i], rs[i + 1..], c);
    assert Works([]) == [] && InFlight(rs[..i], c) + [] == InFlight(rs[..i], c);
  }

  /** Releasing a lock puts its deferred work behind what is already in flight. */
  lemma ReleaseParts(p: Pool, chunk: nat, status: Option<Status>, c: nat)
    ensures var p' := ReleaseLock(p, chunk, status);
            && p'.log == p.log && p'.transit == p.transit
            && InFlight(p'.locks.releases, c) + Deferred(p'.locks.held, c) == InFlight(p.locks.releases, c) + Deferred(p.locks.held, c)
  {
    if chunk in p.locks.held {
      var lock := p.locks.held[chunk];
      InFlightSnoc(p.locks.releases, Release(chunk, lock.ticket, lock.pending, status), c);
    }
  }

  lemma OtherParts(p: Pool, e: Event, c: nat)
    requires Inv(p) && MayHappen(p, e)
    requires !e.Submits? && !e.AddsChecked? && !e.ReleaseGoesOn? && !e.LockEnds? && !e.LockErased?
    ensures var p' := Apply(p, e);
            && p'.log.submitted == p.log.submitted && p'.log.enqueued == p.log.enqueued
            && p'.transit == p.transit && p'.locks.releases == p.locks.releases
            && Deferred(p'.locks.held, c) == Deferred(p.locks.held, c)
  {
    hide Inv, AddJob, SendStatus, Take, Receive, Register, Finish, Disable, ChangeCallback, Works;
    SomeListener(p);
    if e.LockStarts? { StartParts(p, e.chunk, e.listener, e.callback, c); }
    else if e.LockEnforced? { EnforceParts(p, e.chunk, c); }
  }

  lemma StartParts(p: Pool, chunk: nat, listener: nat, callback: nat, c: nat)
    requires p.work.listeners != []
    ensures var p' := StartLock(p, chunk, listener, callback);
            p'.log == p.log && p'.transit == p.transit && p'.locks.releases == p.locks.releases && Deferred(p'.locks.held, c) == Deferred(p.locks.held, c)
  {
    hide Register;
    assert Works([]) == [];
  }

  lemma EnforceParts(p: Pool, chunk: nat, c: nat)
    ensures var p' := Enforce(p, chunk);
            p'.log == p.log && p'.transit == p.transit && p'.locks.releases == p.locks.releases && Deferred(p'.locks.held, c) == Deferred(p.locks.held, c)
  {}

  // ---------------------------------------------------------------- conservation

  lemma MultisetSum(xs: seq<nat>, ys: seq<nat>)
    ensures multiset(xs + ys) == multiset(xs) + multiset(ys)
  {}

  /** Taking x out of the middle of a list and adding it to another. */
  lemma Moved(front: seq<nat>, before: seq<nat>, x: seq<nat>, rest: seq<nat>)
    ensures multiset(front + x) + multiset(before + rest) == multiset(front) + multiset(before + x + rest)
  {
    MultisetSum(front, x);
    MultisetSum(before, rest);
    MultisetSum(before + x, rest);
    MultisetSum(before, x);
  }

  lemma CheckedThrough(p: Pool, i: nat, c: nat)
    requires p.work.listeners != [] && i < |p.transit|
    ensures Through(AddChecked(p, i), c) == Through(p, c)
  {
    hide AddChecked, Of, InFlight, InTransit;
    CheckedParts(p, i, c);
    if p.transit[i].chunk == c {
      Moved(Of(p.log.enqueued, c), InTransit(p.transit[..i], c), [p.transit[i].r.work], InTransit(p.transit[i + 1..], c));
    }
  }

  lemma GoOnThrough(p: Pool, i: nat, c: nat)
    requires p.work.listeners != [] && i < |p.locks.releases|
    ensures Through(GoOn(p, i), c) == Through(p, c)
  {
    hide GoOn, Of, InFlight, InTransit, Works;
    GoOnParts(p, i, c);
    var r := p.locks.releases[i];
    if r.todo != [] && r.chunk == c {
      var before, rest := InFlight(p.locks.releases[..i], c), InFlight(p.locks.releases[i + 1..], c);
      var x, xs := [r.todo[0].work], Works(r.todo[1..]);
      Moved(Of(p.log.enqueued, c), before, x, xs + rest);
      assert before + (x + xs) + rest == before + x + (xs + rest) && before + xs + rest == before + (xs + rest);
    }
  }

  lemma SubmitConserves(p: Pool, chunk: nat, r: Request, c: nat)
    requires Conserved(p, c)
    ensures Conserved(Submit(p, chunk, r), c)
  {
    hide Submit, Of, InFlight, InTransit, Deferred;
    SubmitParts(p, chunk, r, c);
    var x := if c == chunk then [r.work] else [];
    MultisetSum(Of(p.log.submitted, c), x);
    MultisetSum(InTransit(p.transit, c), x);
    MultisetSum(Deferred(p.locks.held, c), x);
  }

  lemma ReleaseConserves(p: Pool, chunk: nat, status: Option<Status>, c: nat)
    requires Conserved(p, c)
    ensures Conserved(ReleaseLock(p, chunk, status), c)
  {
    hide Of, InFlight, InTransit, Deferred, ReleaseLock;
    ReleaseParts(p, chunk, status, c);
    var p' := ReleaseLock(p, chunk, status);
    MultisetSum(InFlight(p'.locks.releases, c), Deferred(p'.locks.held, c));
    MultisetSum(InFlight(p.locks.releases, c), Deferred(p.locks.held, c));
    var e, t := multiset(Of(p.log.enqueued, c)), multiset(InTransit(p.transit, c));
    Regroup(e, multiset(InFlight(p.locks.releases, c)), t, multiset(Deferred(p.locks.held, c)));
    Regroup(e, multiset(InFlight(p'.locks.releases, c)), t, multiset(Deferred(p'.locks.held, c)));
  }

  lemma Regroup(a: multiset<nat>, b: multiset<nat>, c: multiset<nat>, d: multiset<nat>)
    ensures a + b + c + d == a + c + (b + d) && a + b + c == a + (b + c)
  {}

  lemma ConservedStep(p: Pool, e: Event, c: nat)
    requires Inv(p) && Conserved(p, c) && MayHappen(p, e)
    ensures Conserved(Apply(p, e), c)
  {
    hide Inv, Conserved, Submit, AddChecked, GoOn, ReleaseLock;
    SomeListener(p);
    match e
    case Submits(chunk, r) => SubmitConserves(p, chunk, r, c);
    case AddsChecked(i) => CheckedConserves(p, i, c);
    case ReleaseGoesOn(i) => GoOnConserves(p, i, c);
    case LockEnds(chunk, status) => ReleaseConserves(p, chunk, Some(status), c);
    case LockErased(chunk) => ReleaseConserves(p, chunk, None, c);
    case _ => OtherConserves(p, e, c);
  }

  lemma CheckedConserves(p: Pool, i: nat, c: nat)
    requires p.work.listeners != [] && i < |p.transit| && Conserved(p, c)
    ensures Conserved(AddChecked(p, i), c)
  {
    CheckedThrough(p, i, c);
    hide Of, Deferred, Through;
  }

  lemma GoOnConserves(p: Pool, i: nat, c: nat)
    requires p.work.listeners != [] && i < |p.locks.releases| && Conserved(p, c)
    ensures Conserved(GoOn(p, i), c)
  {
    GoOnThrough(p, i, c);
    GoOnParts(p, i, c);
    hide Of, Deferred, Through, InFlight, GoOn;
  }

  lemma OtherConserves(p: Pool, e: Event, c: nat)
    requires Inv(p) && Conserved(p, c) && MayHappen(p, e)
    requires !e.Submits? && !e.AddsChecked? && !e.ReleaseGoesOn? && !e.LockEnds? && !e.LockErased?
    ensures p.work.listeners != [] && Conserved(Apply(p, e), c)
  {
    hide Inv, Of, InFlight, InTransit, Deferred, Apply, MayHappen;
    SomeListener(p);
    OtherParts(p, e, c);
  }

  /** Whatever the interleaving, every submitted job is in exactly one of: given to the
      worker queue, being released, past the check, deferred; and as often as it was
      submitted. */
  lemma {:induction false} SubmittedOnce(listeners: nat, events: seq<Event>, c: nat)
    requires listeners > 0
    ensures Conserved(Reach(listeners, events), c)
  {
    if events == [] {
      assert Conserved(Blank(listeners), c);
    } else {
      var n := |events| - 1;
      SubmittedOnce(listeners, events[..n], c);
      ReachInv(listeners, events[..n]);
      hide Inv, Conserved, Apply, MayHappen;
      var p := Reach(listeners, events[..n]);
      if MayHappen(p, events[n]) { ConservedStep(p, events[n], c); }
    }
  }

  // ---------------------------------------------------------------- locks

  /** From p to p' the lock of the chunk stayed: what was submitted since is deferred, in
      order, behind what was deferred before, and what is in the worker queue or on its way
      there is the same. */
  ghost predicate LockStays(p: Pool, p': Pool, chunk: nat) {
    && Locked(p.locks, chunk) && Locked(p'.locks, chunk) && p'.locks.held[chunk].ticket == p.locks.held[chunk].ticket
    && Of(p.log.submitted, chunk) <= Of(p'.log.submitted, chunk)
    && Of(p.log.enqueued, chunk) <= Of(p'.log.enqueued, chunk)
    && Deferred(p'.locks.held, chunk) ==
       Deferred(p.locks.held, chunk) + Of(p'.log.submitted, chunk)[|Of(p.log.submitted, chunk)|..]
    && Through(p', chunk) == Through(p, chunk)
  }

  predicate Unlocks(e: Event, chunk: nat) { (e.LockEnds? || e.LockErased?) && e.chunk == chunk }

  lemma StaysSame(p: Pool, chunk: nat)
    requires Locked(p.locks, chunk)
    ensures LockStays(p, p, chunk)
  {}

  lemma StaysLocked(p: Pool, p': Pool, chunk: nat)
    requires LockStays(p, p', chunk)
    ensures Locked(p'.locks, chunk)
  {}

  lemma StaysTrans(p: Pool, q: Pool, r: Pool, chunk: nat)
    requires LockStays(p, q, chunk) && LockStays(q, r, chunk)
    ensures LockStays(p, r, chunk)
  {
    hide Of, Deferred, Through, Locked;
    var a, b, c := Of(p.log.submitted, chunk), Of(q.log.submitted, chunk), Of(r.log.submitted, chunk);
    assert c[|a|..] == b[|a|..] + c[|b|..];
    var d := Deferred(p.locks.held, chunk);
    assert d + b[|a|..] + c[|b|..] == d + (b[|a|..] + c[|b|..]);
  }

  lemma SubmitStays(p: Pool, c: nat, r: Request, chunk: nat)
    requires Locked(p.locks, chunk)
    ensures LockStays(p, Submit(p, c, r), chunk)
  {
    hide Of, Deferred, InFlight, InTransit, Submit;
    SubmitParts(p, c, r, chunk);
    SubmitLocked(p, c, r, chunk);
    var was := Of(p.log.submitted, chunk);
    if c == chunk {
      assert (was + [r.work])[|was|..] == [r.work];
    } else {
      assert was + [] == was && was[|was|..] == [] && InTransit(p.transit, chunk) + [] == InTransit(p.transit, chunk);
      assert Deferred(p.locks.held, chunk) + [] == Deferred(p.locks.held, chunk);
    }
  }

  lemma SubmitLocked(p: Pool, c: nat, r: Request, chunk: nat)
    requires Locked(p.locks, chunk)
    ensures var p' := Submit(p, c, r); Locked(p'.locks, chunk) && p'.locks.held[chunk].ticket == p.locks.held[chunk].ticket
  {}

  /** A step that submits nothing and leaves the lock as it is. */
  lemma QuietStays(p: Pool, p': Pool, chunk: nat)
    requires Locked(p.locks, chunk) && p'.locks.held == p.locks.held && p'.log.submitted == p.log.submitted
    requires Of(p.log.enqueued, chunk) <= Of(p'.log.enqueued, chunk) && Through(p', chunk) == Through(p, chunk)
    ensures LockStays(p, p', chunk)
  {
    hide Of, Deferred, Through;
    var was, d := Of(p.log.submitted, chunk), Deferred(p.locks.held, chunk);
    assert was[|was|..] == [] && d + [] == d;
  }

  lemma CheckedStays(p: Pool, i: nat, chunk: nat)
    requires p.work.listeners != [] && i < |p.transit| && Locked(p.locks, chunk)
    ensures LockStays(p, AddChecked(p, i), chunk)
  {
    CheckedThrough(p, i, chunk);
    CheckedParts(p, i, chunk);
    hide AddChecked, Of, Through;
    QuietStays(p, AddChecked(p, i), chunk);
  }

  lemma GoOnStays(p: Pool, i: nat, chunk: nat)
    requires p.work.listeners != [] && i < |p.locks.releases| && Locked(p.locks, chunk)
    ensures LockStays(p, GoOn(p, i), chunk)
  {
    GoOnThrough(p, i, chunk);
    GoOnParts(p, i, chunk);
    hide GoOn, Of, Through, InFlight;
    QuietStays(p, GoOn(p, i), chunk);
  }

  lemma ReleaseStays(p: Pool, c: nat, status: Option<Status>, chunk: nat)
    requires Locked(p.locks, chunk) && c != chunk
    ensures LockStays(p, ReleaseLock(p, c, status), chunk)
  {
    hide Of, InFlight, InTransit, Works;
    if c in p.locks.held {
      var lock := p.locks.held[c];
      InFlightSnoc(p.locks.releases, Release(c, lock.ticket, lock.pending, status), chunk);
      assert InFlight(p.locks.releases, chunk) + [] == InFlight(p.locks.releases, chunk);
    }
  }

  lemma OtherStays(p: Pool, e: Event, chunk: nat)
    requires Inv(p) && MayHappen(p, e) && Locked(p.locks, chunk)
    requires !e.Submits? && !e.AddsChecked? && !e.ReleaseGoesOn? && !e.LockEnds? && !e.LockErased?
    ensures LockStays(p, Apply(p, e), chunk)
  {
    hide Inv, Of, Deferred, InFlight, InTransit, Apply, MayHappen, Locked;
    SomeListener(p);
    OtherParts(p, e, chunk);
    OtherLocked(p, e, chunk);
    var was, d := Of(p.log.submitted, chunk), Deferred(p.locks.held, chunk);
    assert was[|was|..] == [] && d + [] == d;
  }

  lemma OtherLocked(p: Pool, e: Event, chunk: nat)
    requires MayHappen(p, e) && p.work.listeners != [] && Locked(p.locks, chunk)
    requires !e.Submits? && !e.AddsChecked? && !e.ReleaseGoesOn? && !e.LockEnds? && !e.LockErased?
    ensures var p' := Apply(p, e); Locked(p'.locks, chunk) && p'.locks.held[chunk].ticket == p.locks.held[chunk].ticket
  {
    hide AddJob, SendStatus, Take, Receive, Register, Finish, Disable, ChangeCallback;
  }

  /** No step but the end or the erasure of its lock takes a locked chunk out of it. */
  lemma LockedStep(p: Pool, e: Event, chunk: nat)
    requires Inv(p) && MayHappen(p, e) && Locked(p.locks, chunk) && !Unlocks(e, chunk)
    ensures LockStays(p, Apply(p, e), chunk)
  {
    hide Inv, LockStays, Locked, Submit, AddChecked, GoOn, ReleaseLock;
    SomeListener(p);
    match e
    case Submits(c, r) => SubmitStays(p, c, r, chunk);
    case AddsChecked(i) => CheckedStays(p, i, chunk);
    case ReleaseGoesOn(i) => GoOnStays(p, i, chunk);
    case LockEnds(c, status) => ReleaseStays(p, c, Some(status), chunk);
    case LockErased(c) => ReleaseStays(p, c, None, chunk);
    case _ => OtherStays(p, e, chunk);
  }

  /** Between enforcement and release, in any run from any reachable state: the lock stays,
      every job submitted for the chunk is deferred in order, and the only jobs of it that
      reach the worker queue are those that had passed the check before, or that an earlier
      release was still adding. */
  lemma {:induction false} LockedRun(p: Pool, events: seq<Event>, chunk: nat)
    requires Inv(p) && Locked(p.locks, chunk) && forall e <- events :: !Unlocks(e, chunk)
    ensures p.work.listeners != [] && LockStays(p, Run(p, events), chunk)
  {
    hide Inv, LockStays, Apply, MayHappen, Locked, Unlocks;
    SomeListener(p);
    if events == [] {
      StaysSame(p, chunk);
    } else {
      var n := |events| - 1;
      assert events[n] in events;
      LockedRun(p, events[..n], chunk);
      RunInv(p, events[..n]);
      var q := Run(p, events[..n]);
      StaysLocked(p, q, chunk);
      if MayHappen(q, events[n]) {
        LockedStep(q, events[n], chunk);
        StaysTrans(p, q, Apply(q, events[n]), chunk);
      }
    }
  }

  // ---------------------------------------------------------------- when a lock shuts

  /** As long as the lock is not ended or erased no job of the chunk reaches the worker queue,
      whatever happens. */
  ghost predicate Shut(p: Pool, chunk: nat)
    requires p.work.listeners != []
  {
    forall events: seq<Event> :: (forall e <- events :: !Unlocks(e, chunk)) ==>
      Of(Run(p, events).log.enqueued, chunk) == Of(p.log.enqueued, chunk)
  }

  lemma {:induction false} SomeTransit(ts: seq<Transit>, chunk: nat) returns (i: nat)
    requires InTransit(ts, chunk) != []
    ensures i < |ts| && ts[i].chunk == chunk
  {
    if ts[0].chunk == chunk {
      i := 0;
    } else {
      i := SomeTransit(ts[1..], chunk);
      i := i + 1;
    }
  }

  lemma {:induction false} SomeRelease(rs: seq<Release>, chunk: nat) returns (i: nat)
    requires InFlight(rs, chunk) != []
    ensures i < |rs| && rs[i].chunk == chunk && rs[i].todo != []
  {
    if rs[0].chunk == chunk && rs[0].todo != [] {
      i := 0;
    } else {
      assert rs[0].chunk == chunk ==> Works(rs[0].todo) == [];
      i := SomeRelease(rs[1..], chunk);
      i := i + 1;
    }
  }

  lemma RunOne(p: Pool, e: Event)
    requires p.work.listeners != [] && MayHappen(p, e)
    ensures Run(p, [e]) == Apply(p, e)
  {
    hide Apply, MayHappen;
    assert [e][..0] == [];
  }

  lemma TransitOpens(p: Pool, i: nat)
    requires p.work.listeners != [] && i < |p.transit|
    ensures var chunk := p.transit[i].chunk; Of(Run(p, [AddsChecked(i)]).log.enqueued, chunk) != Of(p.log.enqueued, chunk)
  {
    CheckedParts(p, i, p.transit[i].chunk);
    hide Of, InTransit, Run, AddChecked;
    RunOne(p, AddsChecked(i));
  }

  lemma ReleaseOpens(p: Pool, i: nat)
    requires p.work.listeners != [] && i < |p.locks.releases| && p.locks.releases[i].todo != []
    ensures var chunk := p.locks.releases[i].chunk; Of(Run(p, [ReleaseGoesOn(i)]).log.enqueued, chunk) != Of(p.log.enqueued, chunk)
  {
    GoOnParts(p, i, p.locks.releases[i].chunk);
    hide Of, InFlight, Run, GoOn;
    RunOne(p, ReleaseGoesOn(i));
  }

  /** One step that puts a job of the chunk into the queue. */
  lemma Opens(p: Pool, chunk: nat) returns (e: Event)
    requires p.work.listeners != [] && (InTransit(p.transit, chunk) != [] || InFlight(p.locks.releases, chunk) != [])
    ensures !Unlocks(e, chunk) && Of(Run(p, [e]).log.enqueued, chunk) != Of(p.log.enqueued, chunk)
  {
    hide Of, Run, InTransit, InFlight;
    if InTransit(p.transit, chunk) != [] {
      var i := SomeTransit(p.transit, chunk);
      TransitOpens(p, i);
      e := AddsChecked(i);
    } else {
      var i := SomeRelease(p.locks.releases, chunk);
      ReleaseOpens(p, i);
      e := ReleaseGoesOn(i);
    }
  }

  lemma NothingMore(was: seq<nat>, now: seq<nat>, more: multiset<nat>)
    requires was <= now && multiset(now) + more == multiset(was)
    ensures now == was
  {
    assert |multiset(now)| <= |multiset(was)|;
  }

  /** A lock keeps every job of its chunk out of the worker queue exactly when, as it is
      enforced, none is past the check and none is being added by an earlier release. */
  lemma ShutIff(p: Pool, chunk: nat)
    requires Inv(p) && Locked(p.locks, chunk)
    ensures p.work.listeners != []
    ensures Shut(p, chunk) <==> InTransit(p.transit, chunk) == [] && InFlight(p.locks.releases, chunk) == []
  {
    hide Inv, Of, Run, InTransit, InFlight, Locked, LockStays;
    SomeListener(p);
    if InTransit(p.transit, chunk) != [] || InFlight(p.locks.releases, chunk) != [] {
      var e := Opens(p, chunk);
      assert forall f <- [e] :: !Unlocks(f, chunk);
    } else {
      forall events: seq<Event> | forall e <- events :: !Unlocks(e, chunk)
        ensures Of(Run(p, events).log.enqueued, chunk) == Of(p.log.enqueued, chunk)
      {
        LockedRun(p, events, chunk);
        StaysShut(p, Run(p, events), chunk);
      }
    }
  }

  lemma StaysShut(p: Pool, q: Pool, chunk: nat)
    requires LockStays(p, q, chunk) && InTransit(p.transit, chunk) == [] && InFlight(p.locks.releases, chunk) == []
    ensures Of(q.log.enqueued, chunk) == Of(p.log.enqueued, chunk)
  {
    hide Of, InTransit, InFlight, Deferred, Locked;
    var e, none := multiset(Of(q.log.enqueued, chunk)), multiset(Of(p.log.enqueued, chunk)) + multiset([]) + multiset([]);
    assert none == multiset(Of(p.log.enqueued, chunk));
    Regroup(e, multiset(InFlight(q.locks.releases, chunk)), multiset(InTransit(q.transit, chunk)), multiset{});
    NothingMore(Of(p.log.enqueued, chunk), Of(q.log.enqueued, chunk),
                multiset(InFlight(q.locks.releases, chunk)) + multiset(InTransit(q.transit, chunk)));
  }

  /** The same in every run, at the moment of enforcement. */
  lemma EnforcedShutIff(listeners: nat, events: seq<Event>, chunk: nat)
    requires listeners > 0 && chunk in Reach(listeners, events).locks.held
    ensures var p := Reach(listeners, events);
            Shut(Enforce(p, chunk), chunk) <==> InTransit(p.transit, chunk) == [] && InFlight(p.locks.releases, chunk) == []
  {
    hide Reach, Shut, InTransit, InFlight, Inv;
    var p := Reach(listeners, events);
    ReachInv(listeners, events);
    EnforceInv(p, chunk);
    ShutIff(Enforce(p, chunk), chunk);
  }

  // ---------------------------------------------------------------- a run past the lock

  ghost predicate At(p: Pool, held: map<nat, LockData>, releases: seq<Release>, transit: seq<Transit>, submitted: seq<Entry>,
                     enqueued: seq<Entry>)
  {
    && p.work.listeners != [] && p.locks == Locks(held, releases) && p.transit == transit
    && p.log.submitted == submitted && p.log.enqueued == enqueued
  }

  /** The k-th job submitted. */
  function Nth(k: nat): Request { Request(0, k, 0) }

  /** A job passes the check, the lock is enforced, the job is added. */
  function RaceEvents(): seq<Event> { [LockStarts(7, 0, 0), Submits(7, Nth(0)), LockEnforced(7), AddsChecked(0)] }

  lemma LockBegun(p: Pool, releases: seq<Release>, submitted: seq<Entry>) returns (q: Pool, t: Ticket)
    requires At(p, map[], releases, [], submitted, [])
    ensures StepsTo(p, LockStarts(7, 0, 0), q) && At(q, map[7 := LockData(t, false, [])], releases, [], submitted, [])
  {
    q, t := Apply(p, LockStarts(7, 0, 0)), NextTicket(p.work, 0);
  }

  lemma LockMade(p: Pool, t: Ticket, releases: seq<Release>, transit: seq<Transit>, submitted: seq<Entry>) returns (q: Pool)
    requires At(p, map[7 := LockData(t, false, [])], releases, transit, submitted, [])
    ensures StepsTo(p, LockEnforced(7), q) && At(q, map[7 := LockData(t, true, [])], releases, transit, submitted, [])
  {
    q := Apply(p, LockEnforced(7));
  }

  lemma Passes(p: Pool, held: map<nat, LockData>, releases: seq<Release>, submitted: seq<Entry>) returns (q: Pool)
    requires At(p, held, releases, [], submitted, []) && !Locked(p.locks, 7)
    ensures StepsTo(p, Submits(7, Nth(|submitted|)), q)
    ensures At(q, held, releases, [Transit(7, Nth(|submitted|))], submitted + [Entry(7, |submitted|)], [])
  {
    q := Apply(p, Submits(7, Nth(|submitted|)));
    assert [] + [Transit(7, Nth(|submitted|))] == [Transit(7, Nth(|submitted|))];
  }

  lemma PassedAdded(p: Pool, held: map<nat, LockData>, releases: seq<Release>, k: nat, submitted: seq<Entry>) returns (q: Pool)
    requires At(p, held, releases, [Transit(7, Nth(k))], submitted, [])
    ensures StepsTo(p, AddsChecked(0), q) && At(q, held, releases, [], submitted, [Entry(7, k)])
  {
    q := Apply(p, AddsChecked(0));
    var ts := [Transit(7, Nth(k))];
    assert ts[..0] + ts[1..] == [] && [] + [Entry(7, k)] == [Entry(7, k)];
  }

  lemma OfOne(chunk: nat, a: nat)
    ensures Of([], chunk) == [] && Of([Entry(chunk, a)], chunk) == [a]
  {
    OfSnoc([], Entry(chunk, a), chunk);
    assert [] + [Entry(chunk, a)] == [Entry(chunk, a)];
  }

  /** It does happen: a job reaches the worker queue while its chunk is locked. */
  lemma Races()
    ensures var p, q := Reach(1, RaceEvents()[..3]), Reach(1, RaceEvents());
            && Locked(p.locks, 7) && Of(p.log.enqueued, 7) == []
            && Locked(q.locks, 7) && Of(q.log.enqueued, 7) == [0]
  {
    var p0, ev := Blank(1), RaceEvents();
    RunNothing(p0, ev);
    assert At(p0, map[], [], [], [], []);
    hide Run, Blank, Of, StepsTo, Apply, MayHappen;
    var p1, t := LockBegun(p0, [], []);
    var p2 := Passes(p1, map[7 := LockData(t, false, [])], [], []);
    assert [] + [Entry(7, 0)] == [Entry(7, 0)];
    var p3 := LockMade(p2, t, [], [Transit(7, Nth(0))], [Entry(7, 0)]);
    var p4 := PassedAdded(p3, map[7 := LockData(t, true, [])], [], 0, [Entry(7, 0)]);
    RunStep(p0, ev, 0, p0, p1);
    RunStep(p0, ev, 1, p1, p2);
    RunStep(p0, ev, 2, p2, p3);
    RunStep(p0, ev, 3, p3, p4);
    OfOne(7, 0);
  }

  /** As long as a lock is held or its deferred jobs are being added, its job has no status. */
  lemma LockStatusComesLast(listeners: nat, events: seq<Event>, t: Ticket)
    requires listeners > 0 && Marks(Reach(listeners, events).locks, t)
    ensures var p := Reach(listeners, events);
            Posted(p.work.listeners, t) == 0 && t !in Tickets(p.log.completed) && t !in p.log.erased
  {
    hide Reach;
    ReachInv(listeners, events);
    MarkedAreLocks(Reach(listeners, events), t);
    hide LocksOk, ListenersOk, StateOk, Marks;
    assert t !in Tickets(Reach(listeners, events).log.completed) + Reach(listeners, events).log.erased;
  }
}
