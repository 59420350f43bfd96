/** Every step of a write operation keeps its write-buffering credit. */
module WriteCredit {
  import opened ChunkTypes
  import opened WriteOp
  import opened StoreInv
  import opened ClientInv
  import opened WriteInv
  import opened WriteSteps
  import opened WriteEvents
  import opened WriteRuns
  import opened WriteClosing

  /** The credit left plus the credit held by the operation's buffers. */
  function Balance(st: Store): int { st.available + Held(st.Live()) }

  // ---------------------------------------------------------------- one operation

  lemma PushBalance(s: Op)
    requires s.store.input.Some?
    ensures Balance(PushInput(s).store) == Balance(s.store)
  {
    assert PushInput(s).store.Live() == s.store.Live();
  }

  lemma ReplyBalance(s: Op)
    requires StoreOk(s.store)
    ensures Balance(TryInstantReply(s).store) == Balance(s.store)
    ensures TryInstantReply(s).store.input.Some? == s.store.input.Some?
  {
    hide StoreOk, TryInstantReply;
    TryReplyFrame(s);
  }

  lemma ContinueBalance(s: Op)
    requires StoreOk(s.store)
    ensures Balance(ContinueWriting(s).store) == Balance(s.store)
  {
    hide StoreOk, TryInstantReply, Balance, PushInput;
    ReplyBalance(s);
    var s1 := TryInstantReply(s);
    if s1.store.queue != [] {
      assert s1.(task := StartNext(s1.store.queue, s1.task)).store == s1.store;
    } else if s1.store.input.Some? && !s1.store.input.value.updating {
      PushBalance(s1);
    }
  }

  lemma BeginBalance(s: Op, id: nat)
    requires Inv(s) && Enabled(s, BlockBegins(id))
    ensures Balance(Begin(s, id).store) == Balance(s.store)
  {
    hide StoreOk, Begin, JobSafe, HistOk, AckOk, ClientOk, ThroughOk, TellOk, WrittenOk;
    BeginForm(s, id);
    BeginStore(s, id);
  }

  lemma CompleteBalance(s: Op, w: Write)
    requires StoreOk(s.store) && s.store.input.Some? && s.store.input.value.updating
    ensures Balance(Complete(s, w).store) == Balance(s.store)
  {
    ReceiveOk(s.store, w);
    hide StoreOk, TryInstantReply, PushInput;
    var s1 := Receive(s, w);
    ReplyBalance(s1);
    var s2 := TryInstantReply(s1);
    if s2.task.job == NoJob || s2.store.input.value.Full() { PushBalance(s2); }
  }

  lemma CleanupBalance(s: Op, retain: set<nat>)
    requires StoreOk(s.store)
    ensures Balance(Cleanup(s, retain).store) == Balance(s.store)
  {
    hide StoreOk, Discard;
    DiscardStore(s.store, retain);
    assert Cleanup(s, retain).store.Live() == [];
  }

  lemma EndBalance(s: Op, drained: bool, busy: bool, retain: set<nat>)
    requires StoreOk(s.store)
    ensures Balance(WriteEnd(s, drained, busy, retain).store) == Balance(s.store)
  {
    hide Balance, PushInput, Cleanup;
    var s1 := TrySeal(s).0;
    if s.store.input.Some? {
      PushBalance(s);
      if !s.store.input.value.updating { assert StoreOk(PushInput(s).store) by { PushedStore(s); } }
    }
    if s1.Completed() {
      CleanupBalance(s1, retain);
    }
  }

  lemma PushedStore(s: Op)
    requires StoreOk(s.store) && s.store.input.Some? && !s.store.input.value.updating
    ensures StoreOk(PushInput(s).store)
  {
    PushInputOk(s.store);
  }

  lemma WriteFinishedBalance(s: Op, retain: set<nat>)
    requires StoreOk(s.store) && s.task.job.Job? && s.task.job.phase.Finished?
    ensures Balance(WriteFinished(s, retain).store) == Balance(s.store)
  {
    hide StoreOk, ContinueWriting, Settle;
    if s.store.queue != [] {
      PopFrontOk(s.store, retain);
      var (s1, stopped) := Retire(s, retain);
      assert s1.store == PopFront(s.store, retain);
      ContinueBalance(s1);
    }
  }

  lemma OpenFinishedBalance(s: Op)
    requires StoreOk(s.store) && s.task.job.Job? && s.task.job.phase.Finished?
    ensures Balance(OpenFinished(s).store) == Balance(s.store)
  {
    hide StoreOk, ContinueWriting, Balance;
    if s.task.job.phase.status == STATUS_OK {
      ContinueBalance(s.(task := s.task.(job := NoJob), client := LocalOk(s.client, s.Last(), s.task.writeId),
                         flags := s.flags.(open := true),
                         hist := s.hist.(greeting := s.hist.greeting + [s.task.writeId])));
    }
  }

  lemma CloseBalance(s: Op, retain: set<nat>)
    requires Inv(s) && s.mode == Serving
    ensures Balance(DelayedClose(s, retain).store) == Balance(s.store)
  {
    if !s.task.OpenPending() {
      TrimJob(s, retain);
      TrimStore(s);
      hide Inv, Core, Kept, DelayedClose;
      KeptOk(s, retain);
      DelayedCloseForm(s, retain);
    }
  }

  lemma OutsideBalance(st: Store, delta: int, ids: set<nat>)
    ensures Balance(st.(available := st.available + delta)) == Balance(st) + delta
    ensures Balance(st.(pool := ids)) == Balance(st)
  {
    assert st.(available := st.available + delta).Live() == st.Live() && st.(pool := ids).Live() == st.Live();
  }

  /** Every step keeps available plus held credit, but for the moves others make. */
  lemma StepBalance(s: Op, e: Event)
    requires Inv(s) && Enabled(s, e)
    ensures Balance(Apply(s, e).store) == Balance(s.store) + if e.CreditMoves? then e.delta else 0
  {
    hide Inv, StoreOk, Begin, Complete, WriteEnd, TryInstantReply, WriteFinished, OpenFinished, DelayedClose, Cleanup,
      MayMove, Balance;
    TrimStore(s);
    match e
    case BlockBegins(id) => BeginBalance(s, id);
    case BlockArrives(w) => CompleteBalance(s, w);
    case EndRequested(drained, busy, retain) => EndBalance(s, drained, busy, retain);
    case LoopTurn => ReplyBalance(s);
    case JobReturns(retain) =>
      WriteFinishedBalance(s, retain);
      OpenFinishedBalance(s);
    case CloseRequested(retain) => CloseBalance(s, retain);
    case CleanedUp(retain) => CleanupBalance(s, retain);
    case CreditMoves(delta) => OutsideBalance(s.store, delta, {});
    case PoolMoves(ids) => OutsideBalance(s.store, 0, ids);
    case _ =>
  }
}
