/** Every step of a write operation keeps its invariant. */
module WriteSteps {
  import opened ChunkTypes
  import opened WriteOp
  import opened StoreInv
  import opened ClientInv
  import opened WriteInv

  // ---------------------------------------------------------------- the verdict on one buffer

  ghost predicate Outcome(b: Buf, t: Phase) {
    t.Finished? && t.done <= |b.blocks| && (t.status == STATUS_OK <==> t.done == |b.blocks|)
  }

  /** The client is told of the failure: it hit a block not replied before. */
  ghost predicate TellsFailure(b: Buf, t: Phase, closing: bool)
    requires Outcome(b, t)
  {
    !closing && b.replied <= t.done < |b.blocks|
  }

  ghost function DoneOf(b: Buf, t: Phase, closing: bool, i: nat): Done
    requires Outcome(b, t) && i < |b.blocks|
  {
    Done(b.blocks[i], i < b.replied || (!closing && !(TellsFailure(b, t, closing) && t.done <= i)), i < t.done)
  }

  /** What the loop over the statuses amounts to. */
  lemma {:induction false} SettleForm(b: Buf, t: Phase, closing: bool, untold: Status, n: nat)
    requires Outcome(b, t) && n <= |b.blocks|
    ensures var v := Settle(b, t, closing, untold, n);
            && |v.outcome| == n
            && (forall i :: 0 <= i < n ==> v.outcome[i] == DoneOf(b, t, closing, i))
            && v.failure == (if TellsFailure(b, t, closing) && t.done < n
                             then Some(Reply(t.status, b.blocks[t.done].writeId)) else None)
            && v.untold == (if untold == STATUS_OK && t.done < n && t.done < b.replied then t.status else untold)
  {
    if n > 0 { SettleForm(b, t, closing, untold, n - 1); }
  }

  lemma SettleGrows(b: Buf, t: Phase, closing: bool, untold: Status, n: nat)
    requires Outcome(b, t) && 0 < n <= |b.blocks|
    ensures var v, u := Settle(b, t, closing, untold, n), Settle(b, t, closing, untold, n - 1);
            && v.outcome == u.outcome + [DoneOf(b, t, closing, n - 1)]
            && v.acks == u.acks + (if n - 1 >= b.replied && DoneOf(b, t, closing, n - 1).acked
                                   then [b.blocks[n - 1].writeId] else [])
  {
    SettleForm(b, t, closing, untold, n - 1);
  }

  lemma DoneAppend(ds: seq<Done>, d: Done)
    ensures Blocks(ds + [d]) == Blocks(ds) + [d.block]
    ensures WrittenOf(ds + [d]) == WrittenOf(ds) + if d.written then [d.block] else []
    ensures AckedIds(ds + [d]) == AckedIds(ds) + if d.acked then [d.block.writeId] else []
  {
    assert (ds + [d])[..|ds|] == ds;
  }

  lemma IdsAppend(ws: seq<Write>, n: nat)
    requires 0 < n <= |ws|
    ensures ws[..n] == ws[..n - 1] + [ws[n - 1]]
    ensures Ids(ws[..n]) == Ids(ws[..n - 1]) + [ws[n - 1].writeId]
  {}

  lemma {:induction false} SettleBlocks(b: Buf, t: Phase, closing: bool, untold: Status, n: nat)
    requires Outcome(b, t) && n <= |b.blocks|
    ensures var v := Settle(b, t, closing, untold, n);
            && Blocks(v.outcome) == b.blocks[..n]
            && WrittenOf(v.outcome) == b.blocks[..if n < t.done then n else t.done]
  {
    if n > 0 {
      SettleGrows(b, t, closing, untold, n);
      SettleBlocks(b, t, closing, untold, n - 1);
      DoneAppend(Settle(b, t, closing, untold, n - 1).outcome, DoneOf(b, t, closing, n - 1));
      IdsAppend(b.blocks, n);
    }
  }

  lemma {:induction false} SettleReplied(b: Buf, t: Phase, closing: bool, untold: Status, n: nat)
    requires Outcome(b, t) && n <= b.replied
    ensures Settle(b, t, closing, untold, n).acks == []
    ensures AckedIds(Settle(b, t, closing, untold, n).outcome) == Ids(b.blocks[..n])
  {
    if n == 0 {
      assert Ids(b.blocks[..0]) == [];
    } else {
      SettleGrows(b, t, closing, untold, n);
      hide Settle, AckedIds, Ids, Outcome;
      SettleReplied(b, t, closing, untold, n - 1);
      DoneAppend(Settle(b, t, closing, untold, n - 1).outcome, DoneOf(b, t, closing, n - 1));
      IdsAppend(b.blocks, n);
    }
  }

  lemma {:induction false} SettleAcks(b: Buf, t: Phase, closing: bool, untold: Status, n: nat)
    requires Outcome(b, t) && b.replied <= n <= |b.blocks|
    ensures var v := Settle(b, t, closing, untold, n);
            && AckedIds(v.outcome) == Ids(b.blocks[..b.replied]) + v.acks
            && (n == b.replied ==> v.acks == [])
  {
    if n == b.replied {
      SettleReplied(b, t, closing, untold, n);
    } else {
      SettleGrows(b, t, closing, untold, n);
      SettleAcks(b, t, closing, untold, n - 1);
      var u, d := Settle(b, t, closing, untold, n - 1), DoneOf(b, t, closing, n - 1);
      DoneAppend(u.outcome, d);
      hide Settle, AckedIds, Ids;
      Assoc(Ids(b.blocks[..b.replied]), u.acks, if d.acked then [b.blocks[n - 1].writeId] else []);
    }
  }

  lemma Assoc(xs: seq<nat>, ys: seq<nat>, zs: seq<nat>)
    ensures (xs + ys) + zs == xs + (ys + zs)
  {}

  /** An acknowledged block the job did not write is reported to the master. */
  lemma SettleTold(b: Buf, t: Phase, closing: bool, untold: Status)
    requires Outcome(b, t)
    ensures var v := Settle(b, t, closing, untold, |b.blocks|);
            && (forall d <- v.outcome :: d.acked && !d.written ==> v.untold != STATUS_OK)
            && (untold != STATUS_OK ==> v.untold == untold)
            && (v.failure.None? && !closing ==> forall d <- v.outcome :: d.acked)
            && (b.replied == |b.blocks| || closing ==> v.failure.None?)
            && (b.replied == 0 ==> forall d <- v.outcome :: d.acked ==> d.written)
            && (v.failure.Some? ==> v.failure.value.status != STATUS_OK)
  {
    SettleForm(b, t, closing, untold, |b.blocks|);
  }

  // ---------------------------------------------------------------- replies and job starts

  /** The first buffer of the queue, if any, keeps its blocks. */
  ghost predicate SameFront(a: Store, b: Store) {
    |a.queue| == |b.queue| && (a.queue != [] ==> a.queue[0].blocks == b.queue[0].blocks)
  }

  lemma ExtendedFront(a: Store, b: Store, ids: seq<nat>)
    requires Extended(a, b, ids)
    ensures SameFront(a, b) && Flat(a.Live()) == Flat(b.Live()) && |a.Live()| == |b.Live()|
    ensures b.input.Some? <==> a.input.Some?
    ensures a.input.Some? ==> b.input.value.blocks == a.input.value.blocks && b.input.value.updating == a.input.value.updating
                              && b.input.value.capacity == a.input.value.capacity
    ensures forall i :: 0 <= i < |a.queue| ==> a.queue[i].replied <= b.queue[i].replied
  {
    FlatSame(a.Live(), b.Live());
    assert forall i :: 0 <= i < |a.queue| ==> a.Live()[i] == a.queue[i] && b.Live()[i] == b.queue[i];
    if a.input.Some? { assert a.Live()[|a.queue|] == a.input.value; }
    if b.input.Some? { assert b.Live()[|a.queue|] == b.input.value; }
  }

  /** Acknowledging the next blocks in line keeps the client's view right. */
  lemma OksGrow(c: Client, chain: bool, last: bool, hist: History, bs: seq<Buf>, ids: seq<nat>)
    requires HistOk(bs, hist.arrived, hist.processed, hist.dropped) && ClientOk(c, chain, last)
    requires AckOk(bs, c.oks + ids, hist.greeting, hist.processed)
    ensures var c' := LocalOks(c, last, ids); ClientOk(c', chain, last) && c'.oks == c.oks + ids
  {
    AcksDistinct(hist.greeting, hist.processed, bs, hist.dropped);
    LocalOksOk(c, chain, last, ids);
  }

  lemma TryReplyClient(s: Op)
    requires StoreOk(s.store) && HistOk(s.store.Live(), s.hist.arrived, s.hist.processed, s.hist.dropped)
    requires AckOk(s.store.Live(), s.client.oks, s.hist.greeting, s.hist.processed)
    requires ClientOk(s.client, s.cfg.chain, Speaking(s)) && MayReplyEarly(s)
    ensures var s' := TryInstantReply(s);
            && HistOk(s'.store.Live(), s'.hist.arrived, s'.hist.processed, s'.hist.dropped)
            && AckOk(s'.store.Live(), s'.client.oks, s'.hist.greeting, s'.hist.processed)
            && ClientOk(s'.client, s'.cfg.chain, Speaking(s'))
  {
    var (st, ids) := InstantReply(s.store, 0);
    InstantReplyOk(s.store, 0);
    ExtendedFront(s.store, st, ids);
    var acks := s.hist.greeting + AckedIds(s.hist.processed);
    Assoc(acks, RepliedIds(s.store.Live()), ids);
    OksGrow(s.client, s.cfg.chain, s.Last(), s.hist, st.Live(), ids);
  }

  lemma TryReplyJob(s: Op)
    requires StoreOk(s.store) && MayReplyEarly(s)
    requires JobSafe(s.task, s.store, s.flags.open, s.mode, s.hist.greeting, s.hist.processed)
    requires WrittenOk(s.task.job, s.store.queue, s.hist.written, s.hist.processed)
    ensures var st := InstantReply(s.store, 0).0;
            && StoreOk(st) && (s.store.Live() == [] ==> st.Live() == [])
            && JobSafe(s.task, st, s.flags.open, s.mode, s.hist.greeting, s.hist.processed)
            && WrittenOk(s.task.job, st.queue, s.hist.written, s.hist.processed)
  {
    var (st, ids) := InstantReply(s.store, 0);
    InstantReplyOk(s.store, 0);
    ExtendedFront(s.store, st, ids);
  }

  lemma TryReplyCore(s: Op)
    requires Core(s)
    ensures Core(TryInstantReply(s))
  {
    if MayReplyEarly(s) {
      TryReplyClient(s);
      TryReplyJob(s);
    }
  }

  /** tryInstantReply changes only reply counts. */
  lemma TryReplyFrame(s: Op)
    requires StoreOk(s.store)
    ensures var s' := TryInstantReply(s);
            && SameFront(s.store, s'.store) && (s'.store.input.Some? <==> s.store.input.Some?)
            && (s.store.input.Some? ==>
                  s'.store.input.value.updating == s.store.input.value.updating &&
                  s'.store.input.value.Full() == s.store.input.value.Full())
            && s' == s.(store := s'.store, client := s'.client)
            && Held(s'.store.Live()) + s'.store.available == Held(s.store.Live()) + s.store.available
  {
    hide StoreOk;
    if MayReplyEarly(s) {
      var (st, ids) := InstantReply(s.store, 0);
      InstantReplyOk(s.store, 0);
      ExtendedFront(s.store, st, ids);
    }
  }

  lemma FrontArrived(st: Store, hist: History, i: nat)
    requires HistOk(st.Live(), hist.arrived, hist.processed, hist.dropped) && st.queue != [] && i < |st.queue[0].blocks|
    ensures st.queue[0].blocks[i] in hist.arrived
  {
    var w := st.queue[0].blocks[i];
    assert st.Live()[0] == st.queue[0];
    assert w in st.queue[0].blocks + Flat(st.Live()[1..]);
    assert w in Blocks(hist.processed) + Flat(st.Live());
  }

  /** startNextWriteJob on an idle operation. */
  lemma StartNextCore(s: Op)
    requires Core(s) && s.mode != ClosingOpen && s.task.job == NoJob && s.store.queue != []
    ensures var s' := s.(task := StartNext(s.store.queue, s.task));
            Core(s') && s'.task.job == Job(WriteJob, Queued, Normal)
  {
    assert s.store.Live()[0] == s.store.queue[0] && BufOk(s.store.Live()[0]);
    assert !s.store.queue[0].updating;
    FrontArrived(s.store, s.hist, |s.store.queue[0].blocks| - 1);
  }

  /** b holds the same blocks and replies as a, and the same first buffer. */
  ghost predicate Carries(a: Store, b: Store) {
    && Flat(b.Live()) == Flat(a.Live()) && RepliedIds(b.Live()) == RepliedIds(a.Live())
    && (NoneReplied(a.Live()) ==> NoneReplied(b.Live()))
    && (a.queue != [] ==> b.queue != [] && b.queue[0].blocks == a.queue[0].blocks)
  }

  lemma CarriesJob(s: Op, b: Store)
    requires JobSafe(s.task, s.store, s.flags.open, s.mode, s.hist.greeting, s.hist.processed)
    requires WrittenOk(s.task.job, s.store.queue, s.hist.written, s.hist.processed) && Carries(s.store, b)
    ensures JobSafe(s.task, b, s.flags.open, s.mode, s.hist.greeting, s.hist.processed)
    ensures WrittenOk(s.task.job, b.queue, s.hist.written, s.hist.processed)
  {}

  /** Rearranging buffers keeps the invariant. */
  lemma CarriesCore(s: Op, st: Store)
    requires Core(s) && !s.flags.cleaned && StoreOk(st) && Carries(s.store, st)
    requires s.mode != ClosingWrites && SealOk(s.flags.sealed, st)
    ensures Core(s.(store := st))
  {
    CarriesJob(s, st);
    hide StoreOk, ClientOk, BufsOk, RegistryOf, Blocks, Flat, RepliedIds, AckedIds;
  }

  function Pushed(st: Store): Store
    requires st.input.Some?
  {
    st.(queue := st.queue + [st.input.value], input := None)
  }

  lemma PushedCarries(st: Store)
    requires StoreOk(st) && st.input.Some? && !st.input.value.updating
    ensures StoreOk(Pushed(st)) && Carries(st, Pushed(st)) && Pushed(st).Live() == st.Live()
    ensures st.input.value.blocks != []
  {
    PushInputOk(st);
    assert st.Live()[|st.queue|] == st.input.value;
    assert BufOk(st.Live()[|st.queue|]);
  }

  /** writeCurrentInputPacket. */
  lemma PushInputCore(s: Op)
    requires Core(s) && s.mode == Serving && !s.flags.cleaned
    requires s.store.input.Some? && !s.store.input.value.updating
    ensures Core(PushInput(s)) && PushInput(s).task.job != NoJob && PushInput(s).store.input.None?
  {
    PushedCarries(s.store);
    var s1 := s.(store := Pushed(s.store));
    CarriesCore(s, s1.store);
    if s.task.job == NoJob { StartNextCore(s1); }
    assert PushInput(s) == s1.(task := StartNext(s1.store.queue, s.task));
  }

  /** continueWritingIfPossible leaves no work undone. */
  lemma ContinueOk(s: Op)
    requires Core(s) && InputOk(s.store.input, s.link.nextCount, s.cfg.maxBlocks)
    requires s.mode != ClosingOpen && !s.flags.cleaned && s.task.job == NoJob
    ensures var s' := ContinueWriting(s);
            && Core(s') && InputOk(s'.store.input, s.link.nextCount, s.cfg.maxBlocks) && JobLive(s'.task, s'.store, s.mode, s.flags.errored)
            && s' == s.(store := s'.store, client := s'.client, task := s'.task)
            && (s.mode != Serving ==> s'.store == s.store)
            && (s'.task.job == NoJob || s'.task.job == Job(WriteJob, Queued, Normal))
  {
    var s1 := TryInstantReply(s);
    TryReplyCore(s);
    TryReplyFrame(s);
    if s1.store.queue != [] {
      StartNextCore(s1);
    } else if s1.store.input.Some? && !s1.store.input.value.updating {
      PushInputCore(s1);
    }
  }

  // ---------------------------------------------------------------- network events

  lemma LoopTurnInv(s: Op)
    requires Inv(s)
    ensures Inv(TryInstantReply(s))
  {
    TryReplyCore(s);
    TryReplyFrame(s);
  }

  /** The input buffer after prepareForNewWriteData. */
  function NextInput(s: Op, id: nat): Buf {
    if s.store.input.Some? then s.store.input.value.(updating := true)
    else Buf(id, s.link.nextCount, [], 0, true)
  }

  function Opened(st: Store, b: Buf): Store {
    st.(input := Some(b), pool := if st.input.None? then st.pool - {b.id} else st.pool)
  }

  lemma BeginForm(s: Op, id: nat)
    requires InputOk(s.store.input, s.link.nextCount, s.cfg.maxBlocks) && EnabledLive(s, BlockBegins(id))
    ensures var s' := Begin(s, id);
            && s' == s.(store := Opened(s.store, NextInput(s, id)), link := s'.link)
            && s'.link == s.link.(nextCount := s'.link.nextCount) && s'.link.nextCount >= 1
  {
    assert Opened(s.store, NextInput(s, id)).pool == Begin(s, id).store.pool;
  }

  lemma BeginStore(s: Op, id: nat)
    requires StoreOk(s.store) && InputOk(s.store.input, s.link.nextCount, s.cfg.maxBlocks)
    requires EnabledLive(s, BlockBegins(id))
    ensures StoreOk(Opened(s.store, NextInput(s, id)))
    ensures RepliedIds(Opened(s.store, NextInput(s, id)).Live()) == RepliedIds(s.store.Live())
    ensures Held(Opened(s.store, NextInput(s, id)).Live()) == Held(s.store.Live())
  {
    var st := s.store;
    if st.input.Some? {
      assert st.Live()[|st.queue|] == st.input.value && BufOk(st.Live()[|st.queue|]);
    }
    BeginOk(st, NextInput(s, id));
  }

  lemma OpenedFlat(st: Store, b: Buf)
    requires st.input.Some? ==> b.blocks == st.input.value.blocks && b.replied == st.input.value.replied
    requires st.input.None? ==> b.blocks == [] && b.replied == 0
    ensures Flat(Opened(st, b).Live()) == Flat(st.Live())
    ensures NoneReplied(st.Live()) ==> NoneReplied(Opened(st, b).Live())
  {
    var bs := Opened(st, b).Live();
    FlatConcat(st.queue, [b]);
    assert Flat([b]) == b.blocks;
    assert bs == st.queue + [b];
    if st.input.Some? {
      var a := st.input.value;
      FlatConcat(st.queue, [a]);
      assert st.Live()[|st.queue|] == a && Flat([a]) == a.blocks;
    } else {
      assert st.Live() == st.queue;
    }
    assert forall i :: 0 <= i < |st.queue| ==> st.Live()[i] == st.queue[i] == bs[i];
    assert bs[|st.queue|] == b;
  }

  lemma OpenedCarries(st: Store, b: Buf)
    requires Flat(Opened(st, b).Live()) == Flat(st.Live())
    requires NoneReplied(st.Live()) ==> NoneReplied(Opened(st, b).Live())
    requires RepliedIds(Opened(st, b).Live()) == RepliedIds(st.Live())
    ensures Carries(st, Opened(st, b))
  {}

  lemma BeginCore(s: Op, id: nat)
    requires Core(s) && !s.flags.cleaned && EnabledLive(s, BlockBegins(id))
    requires InputOk(s.store.input, s.link.nextCount, s.cfg.maxBlocks)
    ensures Core(s.(store := Opened(s.store, NextInput(s, id))))
  {
    hide Carries, ClientOk, HistOk, AckOk, JobSafe, TellOk, WrittenOk, ThroughOk;
    var st' := Opened(s.store, NextInput(s, id));
    BeginStore(s, id);
    OpenedFlat(s.store, NextInput(s, id));
    OpenedCarries(s.store, NextInput(s, id));
    hide StoreOk, NextInput;
    CarriesCore(s, st');
  }

  /** Core does not speak of the size of the next buffer. */
  lemma NextCountAside(s: Op, n: nat)
    requires Core(s)
    ensures Core(s.(link := s.link.(nextCount := n)))
  {}

  lemma BeginInv(s: Op, id: nat)
    requires Inv(s) && Enabled(s, BlockBegins(id))
    ensures Inv(Begin(s, id))
  {
    hide Begin, Core;
    BeginForm(s, id);
    BeginCore(s, id);
    NextCountAside(s.(store := Opened(s.store, NextInput(s, id))), Begin(s, id).link.nextCount);
  }
}
