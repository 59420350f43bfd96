/** How a write operation is closed: nothing acknowledged is lost, the pending count is
    drained, and nothing more is told. */
module WriteClosing {
  import opened ChunkTypes
  import opened WriteOp
  import opened StoreInv
  import opened ClientInv
  import opened WriteInv
  import opened WriteSteps
  import opened WriteRuns
  import opened WriteTheorems

  // ---------------------------------------------------------------- dropped blocks

  lemma DistinctParts(xs: seq<nat>, ys: seq<nat>, id: nat)
    requires Distinct(xs + ys) && id in xs
    ensures id !in ys
  {
    var i :| 0 <= i < |xs| && xs[i] == id;
    forall j | 0 <= j < |ys| ensures ys[j] != id {
      assert (xs + ys)[i] == id && (xs + ys)[|xs| + j] == ys[j];
    }
  }

  lemma KeptApart(processed: seq<Done>, bs: seq<Buf>, dropped: seq<Write>, w: Write)
    requires Distinct(Ids(Blocks(processed) + Flat(bs) + dropped)) && w in dropped
    ensures w.writeId !in AckedIds(processed) + RepliedIds(bs)
  {
    hide Distinct, Blocks, Flat, AckedIds, RepliedIds, Subseq;
    var kept := Blocks(processed) + Flat(bs);
    var acks := AckedIds(processed) + RepliedIds(bs);
    IdsConcat(kept, dropped);
    AcksSubseq(processed, bs, []);
    assert kept + [] == kept;
    if w.writeId in acks {
      var i :| 0 <= i < |dropped| && dropped[i] == w;
      assert Ids(dropped)[i] == w.writeId;
      SubseqIn(acks, Ids(kept), w.writeId);
      DistinctParts(Ids(kept), Ids(dropped), w.writeId);
    }
  }

  /** No dropped block was ever acknowledged. */
  lemma DroppedUnacked(start: Start, events: seq<Event>, w: Write)
    requires start.Valid() && w in Reach(start, events).hist.dropped
    ensures w.writeId !in Reach(start, events).client.oks
  {
    hide Reach, HistOk, AckOk;
    ReachInv(start, events);
    NotAcked(Reach(start, events).store.Live(), Reach(start, events).hist, Reach(start, events).client.oks, w);
  }

  lemma NotAcked(bs: seq<Buf>, hist: History, oks: seq<nat>, w: Write)
    requires HistOk(bs, hist.arrived, hist.processed, hist.dropped) && AckOk(bs, oks, hist.greeting, hist.processed)
    requires w in hist.dropped
    ensures w.writeId !in oks
  {
    hide Blocks, Flat, AckedIds, RepliedIds, Distinct, Ids;
    KeptApart(hist.processed, bs, hist.dropped, w);
    assert w in hist.arrived;
    Assoc(hist.greeting, AckedIds(hist.processed), RepliedIds(bs));
  }

  // ---------------------------------------------------------------- steps while closing

  lemma {:induction false} SettleClosing(b: Buf, t: Phase, untold: Status, n: nat)
    requires t.Finished? && n <= |b.blocks|
    ensures Settle(b, t, true, untold, n).acks == [] && Settle(b, t, true, untold, n).failure.None?
  {
    if n > 0 { SettleClosing(b, t, untold, n - 1); }
  }

  /** What a step while closing leaves alone. */
  ghost predicate Frozen(s: Op, s': Op) {
    && s'.mode == s.mode && s'.client == s.client
    && s'.hist.arrived == s.hist.arrived && s'.hist.greeting == s.hist.greeting
    && s'.flags.errored == s.flags.errored && s'.flags.sealed == s.flags.sealed
  }

  lemma ClosingWrote(s: Op, retain: set<nat>)
    requires s.task.job.Job? && s.task.job.phase.Finished? && s.mode == ClosingWrites
    requires s.store.queue != [] && s.store.input.None?
    ensures var s' := WriteFinished(s, retain);
            && Frozen(s, s') && s'.hist.dropped == s.hist.dropped
            && s'.store == PopFront(s.store, retain) && s'.link.pending == s.link.pending - 1
  {
    SettleClosing(s.store.queue[0], s.task.job.phase, s.lock.untold, |s.store.queue[0].blocks|);
  }

  /** A callback while closing is the redirected open callback or the write callback. */
  lemma ClosingReturns(s: Op, retain: set<nat>)
    requires Core(s) && s.mode != Serving && s.task.job.Job? && s.task.job.phase.Finished?
    requires Enabled(s, JobReturns(retain))
    ensures var s' := Apply(s, JobReturns(retain));
            Frozen(s, s') && s'.link.pending == s.link.pending - 1 && s'.hist.dropped == s.hist.dropped
  {
    hide StoreOk, HistOk, AckOk, TellOk, WrittenOk, ThroughOk, ClientOk, LockOk, WriteFinished;
    if s.task.job.callback != Delayed { ClosingWrote(s, retain); }
  }

  /** While closing, nothing is acknowledged, received or reported, and each callback
      takes one off the pending count. */
  lemma ClosingStep(s: Op, e: Event)
    requires Core(s) && s.mode != Serving && Enabled(s, e)
    ensures var s' := Apply(s, e);
            && Frozen(s, s')
            && s'.link.pending == s.link.pending - (if e.JobReturns? then 1 else 0)
            && (e.CleanedUp? || s'.hist.dropped == s.hist.dropped)
  {
    hide Core;
    if e.JobReturns? { ClosingReturns(s, e.retain); }
  }

  // ---------------------------------------------------------------- draining

  /** Callbacks that ran in a run. */
  function Returns(s: Op, events: seq<Event>): nat {
    if events == [] then 0
    else
      var n := |events| - 1;
      Returns(s, events[..n]) + if events[n].JobReturns? && Enabled(Run(s, events[..n]), events[n]) then 1 else 0
  }

  /** In every run after a close the pending count is what was left of it by the callbacks
      so far, and equals the number of buffers still to be written. */
  lemma {:induction false} PendingCounts(s: Op, events: seq<Event>)
    requires Inv(s) && s.mode != Serving
    ensures var s' := Run(s, events);
            && Inv(s') && Frozen(s, s') && s'.link.pending + Returns(s, events) == s.link.pending
            && (s.mode == ClosingWrites ==> s'.link.pending == |s'.store.queue|)
  {
    hide Core, Apply, Enabled;
    RunInv(s, events);
    if events != [] {
      var n := |events| - 1;
      PendingCounts(s, events[..n]);
      if Enabled(Run(s, events[..n]), events[n]) { ClosingStep(Run(s, events[..n]), events[n]); }
    }
  }

  lemma RunSnoc(s: Op, events: seq<Event>, e: Event)
    ensures Run(s, events + [e]) == var t := Run(s, events); if Enabled(t, e) then Apply(t, e) else t
  {
    hide Enabled, Apply;
    assert (events + [e])[..|events|] == events;
  }

  lemma {:induction false} RunConcat(s: Op, xs: seq<Event>, ys: seq<Event>)
    ensures Run(s, xs + ys) == Run(Run(s, xs), ys)
  {
    hide Enabled, Apply;
    if ys == [] {
      assert xs + ys == xs;
    } else {
      var n := |ys| - 1;
      assert xs + ys == (xs + ys[..n]) + [ys[n]];
      RunConcat(s, xs, ys[..n]);
      RunSnoc(s, xs + ys[..n], ys[n]);
    }
  }

  /** The worker's next event for the job at hand. */
  function NextWork(s: Op): Event
    requires s.task.job.Job? && s.store.queue != []
  {
    match s.task.job.phase
    case Queued => WorkerTakes
    case Running(done) => WorkerEnds(if done == |s.store.queue[0].blocks| then STATUS_OK else ERROR_IO)
    case _ => JobReturns({})
  }

  function Remaining(p: Phase): nat {
    match p
    case Queued => 3
    case Running(_) => 2
    case _ => 1
  }

  ghost predicate Draining(s: Op) { Inv(s) && s.mode == ClosingWrites }

  /** As long as buffers are pending, a job is under way and can go on. */
  lemma DrainGoesOn(s: Op)
    requires Draining(s) && s.store.queue != []
    ensures s.task.job.Job? && s.task.job.kind == WriteJob && s.task.job.phase != Consumed
    ensures !s.flags.cleaned && Enabled(s, NextWork(s))
  {
    hide StoreOk, HistOk, AckOk, TellOk, WrittenOk, ThroughOk, ClientOk;
    assert s.store.Live()[0] == s.store.queue[0];
  }

  lemma DrainStep(s: Op)
    requires Draining(s) && s.store.queue != [] && s.task.job.Job? && Enabled(s, NextWork(s))
    requires s.task.job.kind == WriteJob && s.task.job.phase != Consumed
    ensures var s' := Apply(s, NextWork(s));
            && Draining(s') && s'.hist.dropped == s.hist.dropped
            && if s.task.job.phase.Finished? then |s'.store.queue| == |s.store.queue| - 1
               else s'.store == s.store && s'.task.job.Job? && Remaining(s'.task.job.phase) < Remaining(s.task.job.phase)
  {
    StepInv(s, NextWork(s));
    hide Core, Inv;
    DrainStepCore(s);
  }

  lemma DrainStepCore(s: Op)
    requires Inv(s) && s.mode == ClosingWrites && s.store.queue != [] && s.task.job.Job? && Enabled(s, NextWork(s))
    requires s.task.job.kind == WriteJob && s.task.job.phase != Consumed && Inv(Apply(s, NextWork(s)))
    ensures var s' := Apply(s, NextWork(s));
            && s'.mode == ClosingWrites && s'.hist.dropped == s.hist.dropped
            && if s.task.job.phase.Finished? then |s'.store.queue| == |s.store.queue| - 1
               else s'.store == s.store && s'.task.job.Job? && Remaining(s'.task.job.phase) < Remaining(s.task.job.phase)
  {
    hide Core;
    ClosingStep(s, NextWork(s));
  }

  /** Closed with the chunk open: there is a run that writes or fails every kept buffer and
      drops none. */
  lemma {:induction false} WritesDrain(s: Op) returns (events: seq<Event>)
    requires Draining(s)
    ensures var s' := Run(s, events);
            && s'.store.Live() == [] && s'.link.pending == 0 && s'.hist.dropped == s.hist.dropped
            && s'.client.oks == s'.hist.greeting + AckedIds(s'.hist.processed)
    decreases |s.store.queue|, if s.task.job.Job? then Remaining(s.task.job.phase) else 0
  {
    if s.store.queue == [] {
      events := [];
      Emptied(s);
    } else {
      DrainGoesOn(s);
      DrainStep(s);
      var s1 := Apply(s, NextWork(s));
      hide Core, Draining, Apply, Enabled;
      var more := WritesDrain(s1);
      events := [NextWork(s)] + more;
      RunSnoc(s, [], NextWork(s));
      assert [] + [NextWork(s)] == [NextWork(s)];
      RunConcat(s, [NextWork(s)], more);
    }
  }

  lemma Emptied(s: Op)
    requires Draining(s) && s.store.queue == []
    ensures s.store.Live() == [] && s.link.pending == 0
    ensures s.client.oks == s.hist.greeting + AckedIds(s.hist.processed)
  {
    hide StoreOk, HistOk, TellOk, WrittenOk, ThroughOk, ClientOk;
    assert s.store.Live() == [];
    assert s.hist.greeting + AckedIds(s.hist.processed) + [] == s.hist.greeting + AckedIds(s.hist.processed);
  }

  /** Closed before the chunk was open: the next event of the open job. */
  function NextOpen(s: Op): Event
    requires s.task.job.Job?
  {
    match s.task.job.phase
    case Queued => WorkerTakes
    case Running(_) => WorkerEnds(STATUS_OK)
    case _ => JobReturns({})
  }

  ghost predicate ClosedOpening(s: Op) { Inv(s) && s.mode == ClosingOpen && !s.flags.cleaned }

  lemma OpenGoesOn(s: Op)
    requires ClosedOpening(s) && s.link.pending != 0
    ensures s.link.pending == 1 && s.task.job.Job? && s.task.job.kind == OpenJob && s.task.job.phase != Consumed
    ensures Enabled(s, NextOpen(s))
  {
    hide StoreOk, HistOk, AckOk, TellOk, WrittenOk, ThroughOk, ClientOk;
  }

  lemma OpenStep(s: Op)
    requires ClosedOpening(s) && s.task.job.Job? && s.task.job.kind == OpenJob && s.task.job.phase != Consumed && Enabled(s, NextOpen(s))
    ensures var s' := Apply(s, NextOpen(s));
            && ClosedOpening(s') && s'.hist.dropped == s.hist.dropped
            && if s.task.job.phase.Finished? then s'.link.pending == s.link.pending - 1
               else s'.link.pending == s.link.pending && s'.task.job.Job? && Remaining(s'.task.job.phase) < Remaining(s.task.job.phase)
  {
    StepInv(s, NextOpen(s));
    OpenReturns(s);
    hide Inv;
    assert Core(s) by { OpeningCore(s); }
    hide Core;
    ClosingStep(s, NextOpen(s));
  }

  lemma OpeningCore(s: Op)
    requires Inv(s)
    ensures Core(s)
  {}

  lemma OpenReturns(s: Op)
    requires ClosedOpening(s) && s.task.job.Job? && s.task.job.kind == OpenJob && Enabled(s, NextOpen(s))
    ensures Apply(s, NextOpen(s)).flags.cleaned == s.flags.cleaned
  {
    hide StoreOk, HistOk, AckOk, TellOk, WrittenOk, ThroughOk, ClientOk;
  }

  lemma {:induction false} OpenDrains(s: Op) returns (events: seq<Event>)
    requires ClosedOpening(s)
    ensures var s' := Run(s, events); ClosedOpening(s') && s'.link.pending == 0 && s'.hist.dropped == s.hist.dropped
    decreases if s.link.pending == 0 then 0 else 1, if s.task.job.Job? then Remaining(s.task.job.phase) else 0
  {
    hide ClosedOpening, Apply, Enabled;
    if s.link.pending == 0 {
      events := [];
    } else {
      OpenGoesOn(s);
      OpenStep(s);
      var s1 := Apply(s, NextOpen(s));
      var more := OpenDrains(s1);
      events := [NextOpen(s)] + more;
      RunSnoc(s, [], NextOpen(s));
      assert [] + [NextOpen(s)] == [NextOpen(s)];
      RunConcat(s, [NextOpen(s)], more);
    }
  }

  lemma NothingHeld(s: Op)
    requires ClosedOpening(s)
    ensures NoneReplied(s.store.Live()) && s.client.oks == s.hist.greeting + AckedIds(s.hist.processed)
  {
    hide StoreOk, HistOk, TellOk, WrittenOk, ThroughOk, ClientOk;
    RepliedIdsNone(s.store.Live());
    assert s.hist.greeting + AckedIds(s.hist.processed) + [] == s.hist.greeting + AckedIds(s.hist.processed);
  }

  /** A closed operation that is not cleaned up drains: there is a run to pending count zero that
      drops nothing, after which no acknowledged block is left in a buffer. If the chunk was open
      no block is left at all. */
  lemma Drains(s: Op) returns (events: seq<Event>)
    requires Inv(s) && s.mode != Serving && (s.flags.cleaned ==> s.mode == ClosingWrites)
    ensures var s' := Run(s, events);
            && s'.link.pending == 0 && s'.hist.dropped == s.hist.dropped && NoneReplied(s'.store.Live())
            && (s.mode == ClosingWrites ==> s'.store.Live() == [])
            && s'.client.oks == s'.hist.greeting + AckedIds(s'.hist.processed)
  {
    hide Core;
    if s.mode == ClosingWrites {
      events := WritesDrain(s);
    } else {
      events := OpenDrains(s);
      hide Inv;
      NothingHeld(Run(s, events));
    }
  }

  /** delayedClose keeps every acknowledged block, and the run after it only drops what
      delayedClose itself dropped. */
  lemma CloseKeepsAcked(s: Op, retain: set<nat>)
    requires Inv(s) && Enabled(s, CloseRequested(retain))
    ensures var s' := DelayedClose(s, retain);
            && RepliedIds(s'.store.Live()) == RepliedIds(s.store.Live()) && s'.client == s.client
            && s'.hist.processed == s.hist.processed
            && Flat(s'.store.Live()) + s'.hist.dropped == Flat(s.store.Live()) + s.hist.dropped
  {
    if !s.task.OpenPending() {
      TrimJob(s, retain);
      hide Inv, Core, Kept;
      assert StoreOk(s.store) by { TrimStore(s); }
      KeptOk(s, retain);
      DelayedCloseForm(s, retain);
    }
  }

  lemma TrimStore(s: Op)
    requires Inv(s)
    ensures StoreOk(s.store)
  {}
}
