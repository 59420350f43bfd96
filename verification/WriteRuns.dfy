/** Closing a write operation, and the invariant over whole runs. */
module WriteRuns {
  import opened ChunkTypes
  import opened WriteOp
  import opened StoreInv
  import opened ClientInv
  import opened WriteInv
  import opened WriteSteps
  import opened WriteEvents

  // ---------------------------------------------------------------- delayedClose

  /** delayedClose while the open job is pending. */
  lemma CloseOpeningInv(s: Op, retain: set<nat>)
    requires Inv(s) && s.mode == Serving && s.task.OpenPending()
    ensures Inv(DelayedClose(s, retain))
  {
    hide StoreOk, HistOk, AckOk, ClientOk, Blocks, AckedIds, WrittenOf;
    var s' := DelayedClose(s, retain);
    assert Progress(s'.task.job, s'.store.queue) == Progress(s.task.job, s.store.queue);
  }

  /** The buffers a close keeps. */
  function Kept(s: Op, retain: set<nat>): Trimmed {
    DropUnreplied(CloseInput(Trimmed(s.store, s.hist.dropped), retain), if s.task.job != NoJob then 1 else 0, retain)
  }

  /** The kept buffers start with the one being written, and all others hold
      acknowledged blocks. */
  lemma KeptOk(s: Op, retain: set<nat>)
    requires StoreOk(s.store) && (s.task.job != NoJob ==> s.store.queue != [])
    ensures var t := Kept(s, retain);
            && Trims(Trimmed(s.store, s.hist.dropped), t)
            && (s.task.job != NoJob ==> t.store.queue != [] && t.store.queue[0] == s.store.queue[0])
            && (forall i :: 1 <= i < |t.store.queue| ==> t.store.queue[i].replied > 0)
  {
    var t0 := Trimmed(s.store, s.hist.dropped);
    var t1 := CloseInput(t0, retain);
    CloseInputOk(t0, retain);
    assert s.store.queue <= t1.store.queue;
    DropUnrepliedOk(t1, if s.task.job != NoJob then 1 else 0, retain);
    RepliedTail(Kept(s, retain).store);
  }

  lemma RepliedTail(st: Store)
    requires StoreOk(st) && st.input.None?
    requires |st.queue| > 1 ==> st.queue[|st.queue| - 1].replied > 0
    ensures forall i :: 1 <= i < |st.queue| ==> st.queue[i].replied > 0
  {
    assert st.Live() == st.queue;
    forall i | 1 <= i < |st.queue| ensures st.queue[i].replied > 0 {
      assert BufOk(st.Live()[i]);
      if i < |st.queue| - 1 { assert st.Live()[i].AllReplied(); }
    }
  }

  lemma {:induction false} NoIdsNoneReplied(bs: seq<Buf>)
    requires RepliedIds(bs) == []
    ensures NoneReplied(bs)
  {
    if bs != [] {
      assert |Ids(bs[0].blocks[..bs[0].replied])| == bs[0].replied;
      NoIdsNoneReplied(bs[1..]);
      assert forall i :: 1 <= i < |bs| ==> bs[i] == bs[1..][i - 1];
    }
  }

  /** What is acknowledged, and in which order, does not change. */
  lemma KeptHist(s: Op, t: Trimmed)
    requires HistOk(s.store.Live(), s.hist.arrived, s.hist.processed, s.hist.dropped)
    requires AckOk(s.store.Live(), s.client.oks, s.hist.greeting, s.hist.processed)
    requires ThroughOk(s.cfg, s.store.Live(), s.hist.processed)
    requires Trims(Trimmed(s.store, s.hist.dropped), t)
    ensures HistOk(t.store.Live(), s.hist.arrived, s.hist.processed, t.dropped)
    ensures AckOk(t.store.Live(), s.client.oks, s.hist.greeting, s.hist.processed)
    ensures ThroughOk(s.cfg, t.store.Live(), s.hist.processed)
  {
    hide StoreOk, Flat, Blocks, Distinct;
    var before := Blocks(s.hist.processed);
    assert before + Flat(s.store.Live()) + s.hist.dropped == before + (Flat(s.store.Live()) + s.hist.dropped);
    assert before + Flat(t.store.Live()) + t.dropped == before + (Flat(t.store.Live()) + t.dropped);
    if NoneReplied(s.store.Live()) {
      RepliedIdsNone(s.store.Live());
      NoIdsNoneReplied(t.store.Live());
    }
  }

  /** A sealed operation has nothing to drop. */
  lemma {:induction false} DropNothing(t: Trimmed, keep: nat, retain: set<nat>)
    requires StoreOk(t.store) && t.store.input.None? && AllReplied(t.store.queue)
    ensures DropUnreplied(t, keep, retain) == t
  {
    var n := |t.store.queue|;
    if n > 0 { assert t.store.Live()[n - 1] == t.store.queue[n - 1] && BufOk(t.store.Live()[n - 1]); }
  }

  lemma KeptSealed(s: Op, retain: set<nat>)
    requires StoreOk(s.store) && SealOk(s.flags.sealed, s.store)
    ensures SealOk(s.flags.sealed, Kept(s, retain).store)
  {
    if s.flags.sealed {
      var t0 := Trimmed(s.store, s.hist.dropped);
      CloseInputOk(t0, retain);
      DropNothing(CloseInput(t0, retain), if s.task.job != NoJob then 1 else 0, retain);
    }
  }

  /** delayedClose with its buffers trimmed, before the next job starts. */
  function Trim(s: Op, retain: set<nat>): Op {
    s.(mode := ClosingWrites, store := Kept(s, retain).store, hist := s.hist.(dropped := Kept(s, retain).dropped),
       link := s.link.(pending := s.link.pending + |Kept(s, retain).store.queue|))
  }

  lemma TrimJob(s: Op, retain: set<nat>)
    requires Core(s) && s.mode == Serving && !s.task.OpenPending()
    ensures s.task.job != NoJob ==> s.task.job.kind == WriteJob && s.store.queue != []
  {}

  lemma TrimInput(s: Op, retain: set<nat>)
    requires Core(s) && s.mode == Serving && !s.task.OpenPending()
    ensures StoreOk(s.store) && Kept(s, retain).store.input.None?
  {
    TrimJob(s, retain);
    KeptOk(s, retain);
  }

  lemma TrimCore(s: Op, retain: set<nat>)
    requires Core(s) && s.mode == Serving && !s.flags.cleaned && !s.task.OpenPending()
    ensures Core(Trim(s, retain))
  {
    hide HistOk, AckOk, ThroughOk, ClientOk, SealOk, StoreOk, Kept;
    TrimJob(s, retain);
    KeptOk(s, retain);
    KeptHist(s, Kept(s, retain));
    KeptSealed(s, retain);
  }

  lemma DelayedCloseForm(s: Op, retain: set<nat>)
    requires !s.task.OpenPending()
    ensures var s1 := Trim(s, retain);
            DelayedClose(s, retain) == s1.(task := StartNext(s1.store.queue, s.task))
  {}

  /** delayedClose once the chunk is open. */
  lemma CloseWritingInv(s: Op, retain: set<nat>)
    requires Inv(s) && s.mode == Serving && !s.flags.cleaned && !s.task.OpenPending()
    ensures Inv(DelayedClose(s, retain))
  {
    hide Core, Kept, StoreOk, Trims, DelayedClose;
    var s1 := Trim(s, retain);
    TrimJob(s, retain);
    TrimCore(s, retain);
    assert StoreOk(s.store) && Kept(s, retain).store.input.None? by { TrimInput(s, retain); }
    DelayedCloseForm(s, retain);
    if s.task.job == NoJob && s1.store.queue != [] { StartNextCore(s1); }
  }

  lemma CloseCallbackInv(s: Op)
    requires Inv(s) && s.task.job.Job? && s.task.job.callback == Delayed && s.task.job.phase.Finished?
    ensures Inv(DelayedCloseCallback(s))
  {
    hide StoreOk, HistOk, AckOk, ClientOk, Blocks, AckedIds, WrittenOf;
    assert Progress(DelayedCloseCallback(s).task.job, s.store.queue) == Progress(s.task.job, s.store.queue);
  }

  lemma CloseFinishedInv(s: Op, status: Status)
    requires Inv(s) && s.lock.closeJob
    ensures Inv(CloseFinished(s, status))
  {}

  lemma CreditInv(s: Op, delta: int)
    requires Inv(s)
    ensures Inv(s.(store := s.store.(available := s.store.available + delta)))
  {
    hide BufsOk, RegistryOf, OpenJobSafe, WriteJobSafe, HistOk, AckOk, TellOk, WrittenOk, ThroughOk, ClientOk, LockOk, NoneReplied;
    var st := s.store.(available := s.store.available + delta);
    assert st.Live() == s.store.Live();
  }

  lemma PoolInv(s: Op, ids: set<nat>)
    requires Inv(s) && forall b <- s.store.Live() :: b.id !in ids
    ensures Inv(s.(store := s.store.(pool := ids)))
  {
    hide BufsOk, RegistryOf, OpenJobSafe, WriteJobSafe, HistOk, AckOk, TellOk, WrittenOk, ThroughOk, ClientOk, LockOk, NoneReplied;
    var st := s.store.(pool := ids);
    assert st.Live() == s.store.Live();
  }

  // ---------------------------------------------------------------- every step, every run

  /** A write request starts alone on its connection or with a chain to connect to. */
  predicate Starts(cfg: Config, connection: Connection) {
    connection == (if cfg.chain then Connecting else WriteLast) && cfg.maxBlocks >= 1
  }

  lemma SetupInv(cfg: Config, connection: Connection, pool: set<nat>, available: int)
    requires Starts(cfg, connection)
    ensures Inv(Setup(cfg, connection, pool, available))
  {
    var s := Setup(cfg, connection, pool, available);
    assert s.store.Live() == [];
    assert StoreOk(s.store);
    assert HistOk([], [], [], []) && AckOk([], [], [], []);
    assert ClientOk(s.client, s.cfg.chain, Speaking(s));
    hide StoreOk, HistOk, AckOk, ClientOk;
  }

  lemma NetworkStep(s: Op, e: Event)
    requires Inv(s) && Enabled(s, e)
    requires e.BlockBegins? || e.BlockArrives? || e.EndRequested? || e.LoopTurn? || e.NextServer?
    ensures Inv(Apply(s, e))
  {
    hide Inv;
    match e
    case BlockBegins(id) => BeginInv(s, id);
    case BlockArrives(w) => CompleteInv(s, w);
    case EndRequested(drained, busy, retain) => EndInv(s, drained, busy, retain);
    case LoopTurn => LoopTurnInv(s);
    case NextServer(status, id) => if status == STATUS_OK { NextOkInv(s, id); } else { NextErrorInv(s, Reply(status, id)); }
  }

  lemma ReturnKind(s: Op)
    requires Inv(s) && s.task.job.Job? && s.task.job.phase.Finished? && s.task.job.callback == Normal
    ensures s.task.job.kind == OpenJob ==> s.mode == Serving
  {}

  lemma WorkerStep(s: Op, e: Event)
    requires Inv(s) && Enabled(s, e)
    requires e.WorkerTakes? || e.WorkerWrites? || e.WorkerEnds? || e.JobReturns?
    ensures Inv(Apply(s, e))
  {
    hide Inv;
    match e
    case WorkerTakes => WorkerInv(s, Running(0));
    case WorkerWrites(n) => WorkerWritesInv(s, n);
    case WorkerEnds(status) => WorkerInv(s, Finished(s.task.job.phase.done, status));
    case JobReturns(retain) =>
      if s.task.job.callback == Delayed {
        CloseCallbackInv(s);
      } else if s.task.job.kind == OpenJob {
        ReturnKind(s);
        OpenFinishedInv(s);
      } else {
        WriteFinishedInv(s, retain);
      }
  }

  lemma CleanedUpInv(s: Op, retain: set<nat>)
    requires Inv(s) && !s.flags.cleaned && (s.Completed() || (s.mode != Serving && s.link.pending == 0))
    ensures Inv(Cleanup(s, retain))
  {
    hide Core, Cleanup;
    CleanupInv(s, retain);
  }

  lemma OutsideStep(s: Op, e: Event)
    requires Inv(s) && Enabled(s, e)
    requires e.CloseRequested? || e.CleanedUp? || e.CloseReturns? || e.ConnectionMoves? || e.CreditMoves? || e.PoolMoves?
    ensures Inv(Apply(s, e))
  {
    hide Inv;
    match e
    case CloseRequested(retain) => if s.task.OpenPending() { CloseOpeningInv(s, retain); } else { CloseWritingInv(s, retain); }
    case CleanedUp(retain) => CleanedUpInv(s, retain);
    case CloseReturns(status) => CloseFinishedInv(s, status);
    case ConnectionMoves(to) => MovedInv(s, to);
    case CreditMoves(delta) => CreditInv(s, delta);
    case PoolMoves(ids) => PoolInv(s, ids);
  }

  /** Every event keeps the invariant. */
  lemma StepInv(s: Op, e: Event)
    requires Inv(s) && Enabled(s, e)
    ensures Inv(Apply(s, e))
  {
    hide Inv, Enabled, Apply;
    if e.BlockBegins? || e.BlockArrives? || e.EndRequested? || e.LoopTurn? || e.NextServer? {
      NetworkStep(s, e);
    } else if e.WorkerTakes? || e.WorkerWrites? || e.WorkerEnds? || e.JobReturns? {
      WorkerStep(s, e);
    } else {
      OutsideStep(s, e);
    }
  }

  /** The invariant holds after every run. */
  lemma {:induction false} RunInv(s: Op, events: seq<Event>)
    requires Inv(s)
    ensures Inv(Run(s, events))
  {
    hide Inv, Apply, Enabled;
    if events != [] {
      var n := |events| - 1;
      RunInv(s, events[..n]);
      if Enabled(Run(s, events[..n]), events[n]) { StepInv(Run(s, events[..n]), events[n]); }
    }
  }
}
