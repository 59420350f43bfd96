/** The remaining steps of a write operation: reception, worker, callbacks, closing. */
module WriteEvents {
  import opened ChunkTypes
  import opened WriteOp
  import opened StoreInv
  import opened ClientInv
  import opened WriteInv
  import opened WriteSteps

  // ---------------------------------------------------------------- reception

  lemma ArrivalDistinct(ws: seq<Write>, w: Write)
    requires Distinct(Ids(ws)) && forall v <- ws :: v.writeId != w.writeId
    ensures Distinct(Ids(ws + [w]))
  {
    IdsConcat(ws, [w]);
    assert Ids([w]) == [w.writeId];
    forall i | 0 <= i < |ws| ensures Ids(ws)[i] != w.writeId { assert ws[i] in ws; }
    DistinctAppend(Ids(ws), w.writeId);
  }

  lemma ReceiveNone(st: Store, w: Write)
    requires st.input.Some? && NoneReplied(st.Live())
    ensures var b := st.input.value;
            NoneReplied(st.(input := Some(b.(blocks := b.blocks + [w], updating := false))).Live())
  {
    assert st.Live()[|st.queue|] == st.input.value;
    assert forall i :: 0 <= i < |st.queue| ==> st.Live()[i] == st.queue[i];
  }

  lemma ReceiveHist(st: Store, hist: History, w: Write)
    requires HistOk(st.Live(), hist.arrived, hist.processed, []) && StoreOk(st)
    requires st.input.Some? && st.input.value.updating
    requires w.InBlock() && w.writeId != 0 && forall v <- hist.arrived :: v.writeId != w.writeId
    ensures var b := st.input.value;
            var bs := st.(input := Some(b.(blocks := b.blocks + [w], updating := false))).Live();
            HistOk(bs, hist.arrived + [w], hist.processed, [])
  {
    ReceiveOk(st, w);
    ArrivalDistinct(hist.arrived, w);
    var before := Blocks(hist.processed);
    assert before + Flat(st.Live()) + [] + [w] == before + (Flat(st.Live()) + [w]) + [];
  }

  lemma ReceiveCore(s: Op, w: Write)
    requires Core(s) && s.mode == Serving && !s.flags.sealed && !s.flags.cleaned
    requires s.store.input.Some? && s.store.input.value.updating
    requires w.InBlock() && w.writeId != 0 && forall v <- s.hist.arrived :: v.writeId != w.writeId
    ensures Core(Receive(s, w))
  {
    hide StoreOk, HistOk, ClientOk;
    ReceiveOk(s.store, w);
    ReceiveHist(s.store, s.hist, w);
    if NoneReplied(s.store.Live()) { ReceiveNone(s.store, w); }
  }

  /** processWriteDataBlock. */
  lemma CompleteInv(s: Op, w: Write)
    requires Inv(s) && s.mode == Serving && !s.flags.sealed && !s.flags.cleaned
    requires s.store.input.Some? && s.store.input.value.updating
    requires w.InBlock() && w.writeId != 0 && forall v <- s.hist.arrived :: v.writeId != w.writeId
    ensures Inv(Complete(s, w))
  {
    var s1 := Receive(s, w);
    ReceiveCore(s, w);
    TryReplyCore(s1);
    TryReplyFrame(s1);
    var s2 := TryInstantReply(s1);
    if s2.task.job == NoJob || s2.store.input.value.Full() { PushInputCore(s2); }
  }

  /** Leaving WriteLast. */
  lemma ClientLeaves(c: Client, chain: bool, last: bool)
    requires ClientOk(c, chain, last)
    ensures ClientOk(c, chain, false)
  {}

  lemma MovedCore(s: Op, to: Connection)
    requires Core(s) && MayMove(s, to)
    ensures Core(s.(link := s.link.(connection := to)))
  {
    if !s.flags.sealed { ClientLeaves(s.client, s.cfg.chain, Speaking(s)); }
  }

  lemma MovedInv(s: Op, to: Connection)
    requires Inv(s) && MayMove(s, to)
    ensures Inv(s.(link := s.link.(connection := to)))
  {
    MovedCore(s, to);
  }

  lemma SealedCore(s: Op)
    requires Core(s) && !s.flags.sealed && !s.flags.errored
    requires AllReplied(s.store.queue) && s.store.input.None?
    ensures Core(s.(flags := s.flags.(sealed := true)))
  {
    ClientLeaves(s.client, s.cfg.chain, Speaking(s));
  }

  ghost predicate InvButEarlyEnd(s: Op) {
    && Core(s)
    && JobLive(s.task, s.store, s.mode, s.flags.errored)
    && InputOk(s.store.input, s.link.nextCount, s.cfg.maxBlocks)
    && PendingOk(s.link.pending, s.mode, s.task.job, s.store.queue)
  }

  lemma ReceivingUnharmed(s: Op)
    requires Core(s) && Receiving(s.link.connection)
    ensures !s.flags.errored
  {}

  /** trySeal: every buffer is handed to the worker and nothing is left to acknowledge. */
  lemma TrySealOk(s: Op)
    requires Inv(s) && s.mode == Serving && !s.flags.sealed && !s.flags.cleaned && Receiving(s.link.connection)
    ensures InvButEarlyEnd(TrySeal(s).0)
    ensures TrySeal(s).1 <==> TrySeal(s).0.flags.sealed
    ensures TrySeal(s).0.flags == s.flags.(sealed := TrySeal(s).1)
    ensures TrySeal(s).0.mode == s.mode && TrySeal(s).0.cfg == s.cfg
  {
    hide Core;
    ReceivingUnharmed(s);
    if AllReplied(s.store.queue) && !(s.store.input.Some? && (s.store.input.value.updating || !s.store.input.value.AllReplied())) {
      var s1 := if s.store.input.Some? then PushInput(s) else s;
      if s.store.input.Some? { PushInputCore(s); }
      if s.client.partial == {} { SealedCore(s1); }
    }
  }

  // ---------------------------------------------------------------- cleanup

  lemma DiscardStore(st: Store, retain: set<nat>)
    requires StoreOk(st)
    ensures var st' := Discard(st, st.Live(), retain).(queue := [], input := None);
            StoreOk(st') && st'.registry == [] && st'.available == st.available + Held(st.Live())
  {
    DiscardOk(st, st.Live(), retain);
  }

  lemma CleanupHist(bs: seq<Buf>, hist: History)
    requires HistOk(bs, hist.arrived, hist.processed, hist.dropped)
    ensures HistOk([], hist.arrived, hist.processed, Flat(bs) + hist.dropped)
  {
    assert Blocks(hist.processed) + Flat(bs) + hist.dropped == Blocks(hist.processed) + [] + (Flat(bs) + hist.dropped);
  }

  ghost predicate NoWriteJob(job: Job) { !(job.Job? && job.kind == WriteJob) }

  lemma CleanupJob(s: Op, st: Store)
    requires JobSafe(s.task, s.store, s.flags.open, s.mode, s.hist.greeting, s.hist.processed)
    requires WrittenOk(s.task.job, s.store.queue, s.hist.written, s.hist.processed)
    requires NoWriteJob(s.task.job) && st.queue == [] && st.input.None?
    ensures JobSafe(s.task, st, s.flags.open, s.mode, s.hist.greeting, s.hist.processed)
    ensures WrittenOk(s.task.job, [], s.hist.written, s.hist.processed)
  {}

  lemma CleanupAck(bs: seq<Buf>, oks: seq<nat>, greeting: seq<nat>, processed: seq<Done>)
    requires AckOk(bs, oks, greeting, processed) && RepliedIds(bs) == []
    ensures AckOk([], oks, greeting, processed)
  {}

  /** cleanup when no buffer holds an acknowledged block. */
  lemma CleanupCore(s: Op, retain: set<nat>)
    requires Core(s) && !s.flags.cleaned && RepliedIds(s.store.Live()) == [] && NoWriteJob(s.task.job)
    ensures Core(Cleanup(s, retain))
  {
    hide StoreOk, JobSafe, HistOk, AckOk, WrittenOk, ClientOk, TellOk, Discard;
    var st := Discard(s.store, s.store.Live(), retain).(queue := [], input := None);
    DiscardStore(s.store, retain);
    CleanupHist(s.store.Live(), s.hist);
    CleanupJob(s, st);
    CleanupAck(s.store.Live(), s.client.oks, s.hist.greeting, s.hist.processed);
    assert st.Live() == [];
  }

  lemma EmptyInput(st: Store)
    requires st.queue == [] && (st.input.Some? ==> st.input.value.blocks == [])
    ensures RepliedIds(st.Live()) == []
  {
    assert NoneReplied(st.Live());
    RepliedIdsNone(st.Live());
  }

  /** cleanup is called on a completed operation or after a drained close. */
  lemma CleanupInv(s: Op, retain: set<nat>)
    requires InvButEarlyEnd(s) && !s.flags.cleaned
    requires s.Completed() || (s.mode != Serving && s.link.pending == 0)
    ensures Inv(Cleanup(s, retain))
  {
    if s.mode == ClosingOpen {
      RepliedIdsNone(s.store.Live());
      CleanupCore(s, retain);
    } else {
      EmptyInput(s.store);
      CleanupCore(s, retain);
    }
  }

  /** writeEnd once the operation is sealed. */
  lemma SealedEndInv(s: Op, busy: bool, retain: set<nat>)
    requires InvButEarlyEnd(s) && s.flags.sealed && !s.flags.cleaned && !Leaving(s.link.connection)
    ensures var s2 := if s.Completed() then Cleanup(s, retain) else s;
            Inv(s2.(link := s2.link.(connection := if busy then IOFinish else Idle)))
  {
    if s.Completed() {
      CleanupInv(s, retain);
      MovedInv(Cleanup(s, retain), if busy then IOFinish else Idle);
    } else {
      SealedBusy(s);
      MovedInv(s, if busy then IOFinish else Idle);
    }
  }

  lemma GiveUpInv(s: Op)
    requires InvButEarlyEnd(s)
    ensures Inv(s.(link := s.link.(connection := IOFinish)))
  {
    MovedCore(s, IOFinish);
  }

  lemma EndInv(s: Op, drained: bool, busy: bool, retain: set<nat>)
    requires Inv(s) && s.mode == Serving && !s.flags.sealed && !s.flags.cleaned && Receiving(s.link.connection)
    ensures Inv(WriteEnd(s, drained, busy, retain))
  {
    hide Inv;
    TrySealOk(s);
    var (s1, ok) := TrySeal(s);
    if !ok || !drained {
      GiveUpInv(s1);
      assert WriteEnd(s, drained, busy, retain) == s1.(link := s1.link.(connection := IOFinish));
    } else {
      SealedEndInv(s1, busy, retain);
      var s2 := if s1.Completed() then Cleanup(s1, retain) else s1;
      assert WriteEnd(s, drained, busy, retain) == s2.(link := s2.link.(connection := if busy then IOFinish else Idle));
    }
  }

  /** A sealed operation with buffers left has its open job behind it. */
  lemma SealedBusy(s: Op)
    requires Core(s) && s.flags.sealed && s.store.queue != []
    ensures !(s.task.job.Job? && s.task.job.kind == OpenJob)
  {
    assert s.store.Live()[0] == s.store.queue[0] && BufOk(s.store.Live()[0]);
    assert s.store.queue[0].AllReplied();
  }

  lemma NextOkInv(s: Op, id: nat)
    requires Inv(s) && s.cfg.chain && !s.flags.sealed && id !in s.client.nexts
    ensures Inv(s.(client := NextOk(s.client, s.Last(), id)))
  {
    NextOkChained(s.client, id);
  }

  lemma NextErrorInv(s: Op, r: Reply)
    requires Inv(s) && !s.flags.sealed && r.status != STATUS_OK
    ensures Inv(s.(client := Failed(s.client, r), link := s.link.(connection := IOFinish), flags := s.flags.(errored := true)))
  {
    FailedOk(s.client, s.cfg.chain, Speaking(s), r);
    ClientLeaves(Failed(s.client, r), s.cfg.chain, Speaking(s));
  }

  // ---------------------------------------------------------------- the worker

  lemma WorkerInv(s: Op, phase: Phase)
    requires Inv(s) && s.task.job.Job? && phase != Consumed
    requires s.task.job.phase == Queued ==> phase == Running(0)
    requires s.task.job.phase.Running? ==>
               && phase.Finished? && phase.done == s.task.job.phase.done
               && (s.task.job.kind == WriteJob ==>
                     s.store.queue != [] && (phase.status == STATUS_OK <==> phase.done == |s.store.queue[0].blocks|))
    requires s.task.job.phase == Queued || s.task.job.phase.Running?
    ensures Inv(s.(task := s.task.(job := s.task.job.(phase := phase))))
  {
    hide StoreOk, HistOk, AckOk, ThroughOk, TellOk, ClientOk, WrittenOf;
    assert Progress(s.task.job.(phase := phase), s.store.queue) == Progress(s.task.job, s.store.queue);
  }

  lemma WorkerWrote(job: Job, queue: seq<Buf>, written: seq<Write>, processed: seq<Done>, n: nat)
    requires WrittenOk(job, queue, written, processed)
    requires job.Job? && job.kind == WriteJob && job.phase.Running? && queue != [] && job.phase.done + n <= |queue[0].blocks|
    ensures var done := job.phase.done;
            WrittenOk(job.(phase := Running(done + n)), queue, written + queue[0].blocks[done..done + n], processed)
  {
    var done, blocks := job.phase.done, queue[0].blocks;
    assert blocks[..done + n] == blocks[..done] + blocks[done..done + n];
    assert WrittenOf(processed) + blocks[..done] + blocks[done..done + n]
        == WrittenOf(processed) + (blocks[..done] + blocks[done..done + n]);
  }

  lemma WorkerWritesInv(s: Op, n: nat)
    requires Inv(s) && s.task.job.Job? && s.task.job.kind == WriteJob && s.task.job.phase.Running?
    requires s.store.queue != [] && s.task.job.phase.done + n <= |s.store.queue[0].blocks|
    ensures var done := s.task.job.phase.done;
            Inv(s.(task := s.task.(job := s.task.job.(phase := Running(done + n))),
                   hist := s.hist.(written := s.hist.written + s.store.queue[0].blocks[done..done + n])))
  {
    WorkerWrote(s.task.job, s.store.queue, s.hist.written, s.hist.processed, n);
  }

  // ---------------------------------------------------------------- the open callback

  lemma GreetedClient(c: Client, chain: bool, last: bool, bs: seq<Buf>)
    requires ClientOk(c, chain, last) && AckOk(bs, c.oks, [], []) && NoneReplied(bs)
    ensures ClientOk(LocalOk(c, last, 0), chain, last) && AckOk(bs, LocalOk(c, last, 0).oks, [0], [])
  {
    RepliedIdsNone(bs);
    assert c.oks == [];
    if chain { LocalOkChained(c, 0); } else { LocalOkUnchained(c, last, 0); }
  }

  /** openWriteFinishedCallback with OK, before writing goes on. */
  function Greeted(s: Op): Op {
    s.(task := s.task.(job := NoJob), client := LocalOk(s.client, s.Last(), 0),
       flags := s.flags.(open := true), hist := s.hist.(greeting := [0]))
  }

  lemma GreetedCore(s: Op)
    requires Core(s) && s.task.job.Job? && s.task.job.kind == OpenJob && s.mode == Serving
    requires s.flags.sealed ==> Leaving(s.link.connection)
    ensures Core(Greeted(s))
  {
    hide StoreOk, HistOk, AckOk, ClientOk;
    GreetedClient(s.client, s.cfg.chain, Speaking(s), s.store.Live());
    assert Progress(NoJob, s.store.queue) == Progress(s.task.job, s.store.queue);
  }

  lemma OpenFailedInv(s: Op)
    requires Inv(s) && s.task.job.Job? && s.task.job.kind == OpenJob && s.task.job.phase.Finished? && s.mode == Serving
    requires s.task.job.phase.status != STATUS_OK
    ensures Inv(OpenFinished(s))
  {
    var r := Reply(s.task.job.phase.status, s.task.writeId);
    FailedOk(s.client, s.cfg.chain, Speaking(s), r);
    ClientLeaves(Failed(s.client, r), s.cfg.chain, Speaking(s));
    assert Progress(NoJob, s.store.queue) == Progress(s.task.job, s.store.queue);
  }

  lemma OpenFinishedInv(s: Op)
    requires Inv(s) && s.task.job.Job? && s.task.job.kind == OpenJob && s.task.job.phase.Finished? && s.mode == Serving
    requires !s.flags.cleaned
    ensures Inv(OpenFinished(s))
  {
    if s.task.job.phase.status != STATUS_OK {
      OpenFailedInv(s);
    } else {
      assert s.hist.greeting + [s.task.writeId] == [0];
      GreetedCore(s);
      ContinueOk(Greeted(s));
      assert OpenFinished(s) == ContinueWriting(Greeted(s));
    }
  }

  // ---------------------------------------------------------------- the write callback

  /** The verdict on the front buffer of an operation. */
  function VerdictOf(s: Op): Verdict
    requires s.task.job.Job? && s.task.job.phase.Finished? && s.store.queue != []
  {
    var b := s.store.queue[0];
    Settle(b, s.task.job.phase, s.mode != Serving, s.lock.untold, |b.blocks|)
  }

  ghost predicate WriteDone(s: Op) {
    && s.task.job.Job? && s.task.job.kind == WriteJob && s.task.job.phase.Finished? && s.store.queue != []
    && Outcome(s.store.queue[0], s.task.job.phase)
  }

  lemma RetireForm(s: Op, retain: set<nat>)
    requires WriteDone(s)
    ensures var v := VerdictOf(s);
            var c := LocalOks(s.client, s.Last(), v.acks);
            && Retire(s, retain).1 == v.failure.Some?
            && Retire(s, retain).0 ==
               s.(task := s.task.(job := NoJob), store := PopFront(s.store, retain), lock := s.lock.(untold := v.untold),
                  client := if v.failure.Some? then Failed(c, v.failure.value) else c,
                  link := if v.failure.Some? then s.link.(connection := IOFinish) else s.link,
                  flags := s.flags.(errored := s.flags.errored || v.failure.Some?),
                  hist := s.hist.(processed := s.hist.processed + v.outcome))
  {}

  lemma VerdictBlocks(s: Op)
    requires WriteDone(s)
    ensures var v, b := VerdictOf(s), s.store.queue[0];
            && Blocks(v.outcome) == b.blocks
            && WrittenOf(v.outcome) == b.blocks[..s.task.job.phase.done]
            && AckedIds(v.outcome) == Ids(b.blocks[..b.replied]) + v.acks
            && (b.replied == |b.blocks| ==> v.acks == [])
  {
    var b := s.store.queue[0];
    SettleBlocks(b, s.task.job.phase, s.mode != Serving, s.lock.untold, |b.blocks|);
    SettleAcks(b, s.task.job.phase, s.mode != Serving, s.lock.untold, |b.blocks|);
    assert b.blocks[..|b.blocks|] == b.blocks;
    if b.replied == |b.blocks| { assert b.blocks[..b.replied] == b.blocks; }
  }

  lemma Regroup(xs: seq<Write>, ys: seq<Write>, zs: seq<Write>, tail: seq<Write>)
    ensures xs + (ys + zs) + tail == (xs + ys) + zs + tail
  {}

  /** The front buffer moves from the queue to the processed blocks. */
  lemma RetireHist(bs: seq<Buf>, arrived: seq<Write>, processed: seq<Done>, dropped: seq<Write>, outcome: seq<Done>)
    requires HistOk(bs, arrived, processed, dropped) && bs != [] && Blocks(outcome) == bs[0].blocks
    ensures HistOk(bs[1..], arrived, processed + outcome, dropped)
  {
    hide Distinct;
    DoneConcat(processed, outcome);
    assert Flat(bs) == bs[0].blocks + Flat(bs[1..]);
    hide Flat, Blocks;
    Regroup(Blocks(processed), bs[0].blocks, Flat(bs[1..]), dropped);
  }

  lemma Interpose(greeting: seq<nat>, told: seq<nat>, first: seq<nat>, rest: seq<nat>, acks: seq<nat>)
    requires acks == [] || rest == []
    ensures greeting + told + (first + rest) + acks == greeting + (told + (first + acks)) + rest
  {}

  /** The acknowledgements given for the front buffer stand behind all earlier ones. */
  lemma RetireAck(bs: seq<Buf>, oks: seq<nat>, greeting: seq<nat>, processed: seq<Done>, outcome: seq<Done>, acks: seq<nat>)
    requires AckOk(bs, oks, greeting, processed) && BufsOk(bs) && bs != []
    requires AckedIds(outcome) == Ids(bs[0].blocks[..bs[0].replied]) + acks
    requires bs[0].replied == |bs[0].blocks| ==> acks == []
    ensures AckOk(bs[1..], oks + acks, greeting, processed + outcome)
  {
    RestUnreplied(bs, acks);
    DoneConcat(processed, outcome);
    var first := Ids(bs[0].blocks[..bs[0].replied]);
    assert RepliedIds(bs) == first + RepliedIds(bs[1..]);
    hide BufsOk, AckedIds, RepliedIds;
    Interpose(greeting, AckedIds(processed), first, RepliedIds(bs[1..]), acks);
  }

  lemma RestUnreplied(bs: seq<Buf>, acks: seq<nat>)
    requires BufsOk(bs) && bs != [] && (bs[0].replied == |bs[0].blocks| ==> acks == [])
    ensures acks == [] || RepliedIds(bs[1..]) == []
  {
    if acks != [] {
      assert !bs[0].AllReplied();
      assert NoneReplied(bs[1..]);
      RepliedIdsNone(bs[1..]);
    }
  }

  lemma RetireTell(s: Op)
    requires WriteDone(s) && TellOk(s.hist.processed, s.lock.untold, s.mode == Serving && !s.flags.errored)
    ensures var v := VerdictOf(s);
            TellOk(s.hist.processed + v.outcome, v.untold, s.mode == Serving && !(s.flags.errored || v.failure.Some?))
  {
    SettleTold(s.store.queue[0], s.task.job.phase, s.mode != Serving, s.lock.untold);
  }

  lemma RetireWritten(s: Op)
    requires WriteDone(s) && WrittenOk(s.task.job, s.store.queue, s.hist.written, s.hist.processed)
    ensures WrittenOk(NoJob, s.store.queue[1..], s.hist.written, s.hist.processed + VerdictOf(s).outcome)
  {
    VerdictBlocks(s);
    DoneConcat(s.hist.processed, VerdictOf(s).outcome);
  }

  lemma RetireThrough(s: Op)
    requires WriteDone(s) && ThroughOk(s.cfg, s.store.Live(), s.hist.processed)
    ensures ThroughOk(s.cfg, s.store.Live()[1..], s.hist.processed + VerdictOf(s).outcome)
  {
    assert s.store.Live()[0] == s.store.queue[0];
    SettleTold(s.store.queue[0], s.task.job.phase, s.mode != Serving, s.lock.untold);
  }

  /** A sealed operation has nothing more to tell. */
  lemma VerdictQuiet(s: Op)
    requires WriteDone(s) && (s.mode != Serving || s.store.queue[0].AllReplied())
    ensures VerdictOf(s).failure.None?
    ensures s.store.queue[0].AllReplied() ==> VerdictOf(s).acks == []
  {
    var b := s.store.queue[0];
    SettleTold(b, s.task.job.phase, s.mode != Serving, s.lock.untold);
    if b.AllReplied() { VerdictBlocks(s); }
  }

  lemma RetireClient(s: Op)
    requires WriteDone(s) && StoreOk(s.store)
    requires HistOk(s.store.Live(), s.hist.arrived, s.hist.processed, s.hist.dropped)
    requires AckOk(s.store.Live(), s.client.oks, s.hist.greeting, s.hist.processed)
    requires ClientOk(s.client, s.cfg.chain, Speaking(s)) && SealOk(s.flags.sealed, s.store)
    ensures var v := VerdictOf(s);
            var c := LocalOks(s.client, s.Last(), v.acks);
            && HistOk(s.store.Live()[1..], s.hist.arrived, s.hist.processed + v.outcome, s.hist.dropped)
            && AckOk(s.store.Live()[1..], c.oks, s.hist.greeting, s.hist.processed + v.outcome)
            && ClientOk(c, s.cfg.chain, Speaking(s))
  {
    hide ClientOk;
    var v := VerdictOf(s);
    VerdictBlocks(s);
    assert s.store.Live()[0] == s.store.queue[0];
    RetireHist(s.store.Live(), s.hist.arrived, s.hist.processed, s.hist.dropped, v.outcome);
    RetireAck(s.store.Live(), s.client.oks, s.hist.greeting, s.hist.processed, v.outcome, v.acks);
    if s.flags.sealed {
      VerdictQuiet(s);
      assert s.client.oks + [] == s.client.oks;
    } else {
      OksGrow(s.client, s.cfg.chain, s.Last(), s.hist.(processed := s.hist.processed + v.outcome), s.store.Live()[1..], v.acks);
    }
  }

  lemma RetireStore(s: Op, retain: set<nat>)
    requires StoreOk(s.store) && s.store.queue != []
    requires SealOk(s.flags.sealed, s.store) && CloseOk(s.mode, s.store, s.hist.processed) && s.mode != ClosingOpen
    ensures var st := PopFront(s.store, retain);
            && StoreOk(st) && SealOk(s.flags.sealed, st)
            && forall ds: seq<Done> :: CloseOk(s.mode, st, s.hist.processed + ds)
  {
    PopFrontOk(s.store, retain);
  }

  lemma RetireReply(s: Op)
    requires WriteDone(s) && ClientOk(s.client, s.cfg.chain, Speaking(s))
    requires ClientOk(LocalOks(s.client, s.Last(), VerdictOf(s).acks), s.cfg.chain, Speaking(s))
    requires VerdictOf(s).failure.Some?
    ensures var c := LocalOks(s.client, s.Last(), VerdictOf(s).acks);
            ClientOk(Failed(c, VerdictOf(s).failure.value), s.cfg.chain, false)
  {
    var c := LocalOks(s.client, s.Last(), VerdictOf(s).acks);
    SettleTold(s.store.queue[0], s.task.job.phase, s.mode != Serving, s.lock.untold);
    FailedOk(c, s.cfg.chain, Speaking(s), VerdictOf(s).failure.value);
    ClientLeaves(Failed(c, VerdictOf(s).failure.value), s.cfg.chain, Speaking(s));
  }

  lemma JobDone(s: Op)
    requires Core(s) && s.task.job.Job? && s.task.job.kind == WriteJob && s.task.job.phase.Finished?
    ensures WriteDone(s) && s.mode != ClosingOpen
  {}

  lemma SealedFront(s: Op)
    requires SealOk(s.flags.sealed, s.store) && s.flags.sealed && s.store.queue != []
    ensures s.store.queue[0].AllReplied()
  {}

  lemma RetireCore(s: Op, retain: set<nat>)
    requires Core(s) && WriteDone(s) && s.mode != ClosingOpen && !s.flags.cleaned
    ensures Core(Retire(s, retain).0)
    ensures Retire(s, retain).1 ==> s.mode == Serving
  {
    hide StoreOk, HistOk, AckOk, TellOk, WrittenOk, ThroughOk, ClientOk, CloseOk, SealOk, Retire, Settle;
    RetireForm(s, retain);
    RetireStore(s, retain);
    RetireClient(s);
    RetireTell(s);
    RetireWritten(s);
    RetireThrough(s);
    if s.mode != Serving { VerdictQuiet(s); }
    if s.flags.sealed {
      SealedFront(s);
      VerdictQuiet(s);
    }
    if VerdictOf(s).failure.Some? { RetireReply(s); }
  }

  /** writeFinishedCallback. */
  lemma WriteFinishedInv(s: Op, retain: set<nat>)
    requires Inv(s) && s.task.job.Job? && s.task.job.kind == WriteJob && s.task.job.phase.Finished? && !s.flags.cleaned
    ensures Inv(WriteFinished(s, retain))
  {
    hide Core, Settle;
    JobDone(s);
    RetireCore(s, retain);
    RetireForm(s, retain);
    var (s1, stopped) := Retire(s, retain);
    if !stopped {
      ContinueOk(s1);
      PendingAside(ContinueWriting(s1), s.link.pending - 1);
    }
  }

  /** Core does not speak of the pending jobs. */
  lemma PendingAside(s: Op, pending: int)
    requires Core(s)
    ensures Core(s.(link := s.link.(pending := pending)))
  {}
}
