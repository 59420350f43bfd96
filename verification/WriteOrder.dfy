/** The order of acknowledgements and of disk writes, what a forwarding chain is told, and
    what a sealed operation still says. */
module WriteOrder {
  import opened ChunkTypes
  import opened WriteOp
  import opened StoreInv
  import opened ClientInv
  import opened WriteInv
  import opened WriteSteps
  import opened WriteEvents
  import opened WriteTheorems
  import opened WriteClosing

  // ---------------------------------------------------------------- acknowledgement order

  lemma {:induction false} AllAcked(ds: seq<Done>)
    requires forall d <- ds :: d.acked
    ensures AckedIds(ds) == Ids(Blocks(ds))
  {
    if ds != [] {
      var n := |ds| - 1;
      assert ds[n] in ds;
      AllAcked(ds[..n]);
      IdsConcat(Blocks(ds[..n]), [ds[n].block]);
      assert Ids([ds[n].block]) == [ds[n].block.writeId];
    }
  }

  lemma {:induction false} RepliedPrefix(bs: seq<Buf>)
    requires BufsOk(bs)
    ensures RepliedIds(bs) <= Ids(Flat(bs))
  {
    if bs != [] {
      var b, rest := bs[0], bs[1..];
      IdsConcat(b.blocks, Flat(rest));
      if b.replied < |b.blocks| {
        assert NoneReplied(rest);
        RepliedIdsNone(rest);
        assert Ids(b.blocks[..b.replied]) == Ids(b.blocks)[..b.replied];
      } else {
        assert b.blocks[..b.replied] == b.blocks;
        TailBufsOk(bs);
        RepliedPrefix(rest);
      }
    }
  }

  lemma PrefixConcat(xs: seq<nat>, ys: seq<nat>, zs: seq<nat>, tail: seq<nat>)
    requires ys <= zs
    ensures xs + ys <= xs + zs + tail
  {}

  /** The OKs so far: the one for the open request, if given, and then those of the first
      received blocks. */
  ghost predicate InOrder(s: Op) {
    s.hist.greeting <= s.client.oks && s.client.oks[|s.hist.greeting|..] <= Ids(s.hist.arrived)
  }

  lemma ServedInOrder(s: Op)
    requires Core(s) && s.mode == Serving && !s.flags.errored
    ensures InOrder(s)
  {
    hide JobSafe, WrittenOk, ThroughOk, ClientOk, BufsOk, RegistryOf, Distinct, Ids, Flat, Blocks, AckedIds, RepliedIds;
    AllAcked(s.hist.processed);
    RepliedPrefix(s.store.Live());
    var bs, p := s.store.Live(), s.hist.processed;
    IdsConcat(Blocks(p), Flat(bs));
    IdsConcat(Blocks(p) + Flat(bs), s.hist.dropped);
    PrefixConcat(AckedIds(p), RepliedIds(bs), Ids(Flat(bs)), Ids(s.hist.dropped));
    Assoc(s.hist.greeting, AckedIds(p), RepliedIds(bs));
  }

  /** Only delayedClose ends the serving of an operation; it says nothing. */
  lemma ServingEnds(s: Op, e: Event)
    requires Enabled(s, e) && s.mode == Serving && Apply(s, e).mode != Serving
    ensures e.CloseRequested? && Frozen(s.(mode := Apply(s, e).mode), Apply(s, e))
  {}

  /** Until the first error, OKs are issued in arrival order. */
  lemma {:induction false} AcksInOrder(start: Start, events: seq<Event>)
    requires start.Valid() && !Reach(start, events).flags.errored
    ensures InOrder(Reach(start, events))
  {
    hide Core, Apply, Enabled, InOrder;
    ReachInv(start, events);
    var s := Reach(start, events);
    if s.mode == Serving {
      ServedInOrder(s);
    } else {
      var n := |events| - 1;
      var before := Reach(start, events[..n]);
      ReachInv(start, events[..n]);
      if Enabled(before, events[n]) {
        if before.mode == Serving { ServingEnds(before, events[n]); } else { ClosingStep(before, events[n]); }
      }
      AcksInOrder(start, events[..n]);
      SameOrder(before, s);
    }
  }

  lemma SameOrder(s: Op, s': Op)
    requires InOrder(s) && s'.client == s.client && s'.hist.arrived == s.hist.arrived && s'.hist.greeting == s.hist.greeting
    ensures InOrder(s')
  {}

  /** No write is acknowledged twice, in any run. */
  lemma AcksOnce(start: Start, events: seq<Event>)
    requires start.Valid()
    ensures Distinct(Reach(start, events).client.oks) && Distinct(OkIds(Reach(start, events).client.replies))
  {
    hide Reach;
    ReachInv(start, events);
  }

  /** In a chain the client has OK for a write exactly when both our own worker and the
      next server reported it. */
  lemma ChainAgrees(start: Start, events: seq<Event>, id: nat)
    requires start.Valid() && start.cfg.chain
    ensures var c := Reach(start, events).client;
            Reply(STATUS_OK, id) in c.replies <==> id in c.oks && id in c.nexts
  {
    hide Reach, StoreOk, JobSafe, HistOk, AckOk;
    ReachInv(start, events);
    SameConfig(start, events);
    InOkIds(Reach(start, events).client.replies, id);
  }

  /** Alone, the client is told our OKs in the order they are issued, and all of them
      while the connection serves the write. */
  lemma ToldAtOnce(start: Start, events: seq<Event>)
    requires start.Valid() && !start.cfg.chain
    ensures var s := Reach(start, events);
            OkIds(s.client.replies) <= s.client.oks && (Speaking(s) ==> OkIds(s.client.replies) == s.client.oks)
  {
    hide Reach, StoreOk, JobSafe, HistOk, AckOk;
    ReachInv(start, events);
    SameConfig(start, events);
  }

  // ---------------------------------------------------------------- the disk holds a prefix

  ghost predicate AllWritten(ds: seq<Done>) { forall d <- ds :: d.written }

  lemma {:induction false} AllWrittenBlocks(ds: seq<Done>)
    requires AllWritten(ds)
    ensures WrittenOf(ds) == Blocks(ds)
  {
    if ds != [] {
      assert ds[|ds| - 1] in ds;
      AllWrittenBlocks(ds[..|ds| - 1]);
    }
  }

  /** Without a failure report, only the last buffer of a closed operation can be left
      partly unwritten. */
  ghost predicate Gapless(s: Op) {
    s.lock.untold == STATUS_OK && !s.flags.errored ==>
      || AllWritten(s.hist.processed)
      || (s.mode == ClosingWrites && s.store.queue == [] && WrittenOf(s.hist.processed) <= Blocks(s.hist.processed))
  }

  lemma GaplessUnlessClosing(s: Op)
    requires Core(s) && s.mode != ClosingWrites
    ensures Gapless(s)
  {
    hide StoreOk, JobSafe, HistOk, AckOk, WrittenOk, ClientOk;
  }

  lemma ClosingFront(s: Op)
    requires WriteDone(s) && s.mode == ClosingWrites && BufsOk(s.store.Live()) && CloseOk(s.mode, s.store, s.hist.processed)
    requires VerdictOf(s).untold == STATUS_OK
    ensures AllWritten(VerdictOf(s).outcome) || |s.store.queue| == 1
  {
    var b, t := s.store.queue[0], s.task.job.phase;
    assert s.store.Live()[0] == b && (|s.store.queue| > 1 ==> s.store.Live()[1] == s.store.queue[1]);
    SettleForm(b, t, true, s.lock.untold, |b.blocks|);
    if t.done < |b.blocks| { assert b.replied <= t.done; }
  }

  lemma GaplessRetire(s: Op)
    requires WriteDone(s) && s.mode == ClosingWrites && BufsOk(s.store.Live()) && CloseOk(s.mode, s.store, s.hist.processed)
    requires VerdictOf(s).untold == STATUS_OK && AllWritten(s.hist.processed)
    ensures var p := s.hist.processed + VerdictOf(s).outcome;
            AllWritten(p) || (|s.store.queue| == 1 && WrittenOf(p) <= Blocks(p))
  {
    ClosingFront(s);
    VerdictBlocks(s);
    hide Settle;
    DoneConcat(s.hist.processed, VerdictOf(s).outcome);
    AllWrittenBlocks(s.hist.processed);
  }

  lemma ClosingRetire(s: Op, retain: set<nat>)
    requires WriteDone(s) && s.mode == ClosingWrites && s.store.input.None?
    ensures var s', v := WriteFinished(s, retain), VerdictOf(s);
            && s'.lock == s.lock.(untold := v.untold) && s'.hist == s.hist.(processed := s.hist.processed + v.outcome)
            && s'.flags == s.flags && s'.mode == s.mode && s'.store.queue == s.store.queue[1..]
  {
    SettleClosing(s.store.queue[0], s.task.job.phase, s.lock.untold, |s.store.queue[0].blocks|);
  }

  lemma GaplessReturn(s: Op, retain: set<nat>)
    requires Core(s) && Gapless(s) && s.mode == ClosingWrites
    requires s.task.job.Job? && s.task.job.kind == WriteJob && s.task.job.phase.Finished?
    ensures Gapless(WriteFinished(s, retain))
  {
    JobDone(s);
    hide StoreOk, HistOk, AckOk, ClientOk, ThroughOk, WrittenOk, TellOk, WriteFinished, Outcome, Settle;
    StoreBufs(s.store);
    ClosingRetire(s, retain);
    SettleTold(s.store.queue[0], s.task.job.phase, true, s.lock.untold);
    if VerdictOf(s).untold == STATUS_OK && !s.flags.errored { GaplessRetire(s); }
  }

  lemma StoreBufs(st: Store)
    requires StoreOk(st)
    ensures BufsOk(st.Live())
  {}

  lemma GaplessStep(s: Op, e: Event)
    requires Core(s) && Gapless(s) && s.mode == ClosingWrites && Enabled(s, e)
    ensures Gapless(Apply(s, e))
  {
    hide Core;
    if e.JobReturns? {
      ClosingKind(s);
      GaplessReturn(s, e.retain);
    }
  }

  lemma ClosingKind(s: Op)
    requires Core(s) && s.mode == ClosingWrites && s.task.job.Job?
    ensures s.task.job.kind == WriteJob && s.task.job.callback == Normal
  {}

  lemma GaplessClose(s: Op, retain: set<nat>)
    requires Gapless(s) && s.mode == Serving
    ensures Gapless(DelayedClose(s, retain))
  {}

  lemma {:induction false} GaplessRun(start: Start, events: seq<Event>)
    requires start.Valid()
    ensures Gapless(Reach(start, events))
  {
    hide Core, Apply, Enabled, Gapless;
    ReachInv(start, events);
    var s := Reach(start, events);
    if s.mode != ClosingWrites {
      GaplessUnlessClosing(s);
    } else {
      var n := |events| - 1;
      var before := Reach(start, events[..n]);
      ReachInv(start, events[..n]);
      GaplessRun(start, events[..n]);
      if Enabled(before, events[n]) {
        if before.mode == Serving {
          ServingEnds(before, events[n]);
          CloseApplied(before, events[n]);
          GaplessClose(before, events[n].retain);
        } else {
          ClosingStep(before, events[n]);
          GaplessStep(before, events[n]);
        }
      }
    }
  }

  lemma CloseApplied(s: Op, e: Event)
    requires Enabled(s, e) && e.CloseRequested?
    ensures Apply(s, e) == DelayedClose(s, e.retain)
  {}

  /** If the lock ends with OK and no error was reported to the client, the disk holds
      exactly the effect of a prefix of the received blocks. */
  lemma DurablePrefix(start: Start, events: seq<Event>)
    requires start.Valid()
    requires Reach(start, events).lock.end == Some(STATUS_OK) && !Reach(start, events).flags.errored
    ensures Reach(start, events).hist.written <= Reach(start, events).hist.arrived
  {
    hide Reach;
    ReachInv(start, events);
    GaplessRun(start, events);
    EndedPrefix(Reach(start, events));
  }

  lemma EndedPrefix(s: Op)
    requires Core(s) && Gapless(s) && s.lock.end == Some(STATUS_OK) && !s.flags.errored
    ensures s.hist.written <= s.hist.arrived
  {
    EndedEmpty(s);
    hide StoreOk, JobSafe, AckOk, TellOk, ThroughOk, ClientOk;
    assert |s.store.queue| <= |s.store.Live()|;
    if AllWritten(s.hist.processed) { AllWrittenBlocks(s.hist.processed); }
  }
}
