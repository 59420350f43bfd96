/** The invariant of a write operation. */
module WriteInv {
  import opened ChunkTypes
  import opened WriteOp
  import opened StoreInv
  import opened ClientInv

  function Blocks(ds: seq<Done>): seq<Write> {
    if ds == [] then [] else Blocks(ds[..|ds| - 1]) + [ds[|ds| - 1].block]
  }

  function AckedIds(ds: seq<Done>): seq<nat> {
    if ds == [] then []
    else
      var d := ds[|ds| - 1];
      AckedIds(ds[..|ds| - 1]) + if d.acked then [d.block.writeId] else []
  }

  function WrittenOf(ds: seq<Done>): seq<Write> {
    if ds == [] then []
    else
      var d := ds[|ds| - 1];
      WrittenOf(ds[..|ds| - 1]) + if d.written then [d.block] else []
  }

  // ---------------------------------------------------------------- the parts

  /** Before the open job returns nothing is acknowledged. */
  ghost predicate OpenJobSafe(phase: Phase, callback: Callback, writeId: nat, bs: seq<Buf>, open: bool, mode: Mode,
                              greeting: seq<nat>, processed: seq<Done>)
  {
    && writeId == 0 && processed == [] && greeting == [] && NoneReplied(bs) && !open
    && (callback == Delayed <==> mode != Serving) && mode != ClosingWrites
    && (phase.Running? ==> phase.done == 0) && (phase == Consumed ==> mode != Serving)
  }

  /** A write job always works on the first buffer of the queue. */
  ghost predicate WriteJobSafe(phase: Phase, callback: Callback, writeId: nat, queue: seq<Buf>, mode: Mode) {
    && callback == Normal && phase != Consumed && mode != ClosingOpen && queue != []
    && var n := |queue[0].blocks|;
    && n > 0 && writeId == queue[0].blocks[n - 1].writeId && writeId != 0
    && (phase.Running? ==> phase.done <= n)
    && (phase.Finished? ==> phase.done <= n && (phase.status == STATUS_OK <==> phase.done == n))
  }

  ghost predicate JobSafe(task: Task, st: Store, open: bool, mode: Mode, greeting: seq<nat>, processed: seq<Done>) {
    match task.job
    case NoJob => true
    case Job(OpenJob, phase, callback) =>
      OpenJobSafe(phase, callback, task.writeId, st.Live(), open, mode, greeting, processed)
    case Job(WriteJob, phase, callback) => WriteJobSafe(phase, callback, task.writeId, st.queue, mode)
  }

  /** Work that can be done is being done. */
  ghost predicate JobLive(task: Task, st: Store, mode: Mode, errored: bool) {
    task.job == NoJob ==>
      && (mode == ClosingWrites ==> st.queue == [])
      && (mode == Serving && !errored ==> st.queue == [] && (st.input.Some? ==> st.input.value.updating))
  }

  ghost predicate InputOk(input: Option<Buf>, nextCount: nat, maxBlocks: nat) {
    && (input.Some? && !input.value.updating ==> !input.value.Full())
    && 1 <= nextCount && 1 <= maxBlocks
  }

  /** Every received block is processed, in a buffer, or dropped, in arrival order. */
  ghost predicate HistOk(bs: seq<Buf>, arrived: seq<Write>, processed: seq<Done>, dropped: seq<Write>) {
    && arrived == Blocks(processed) + Flat(bs) + dropped
    && Distinct(Ids(arrived))
    && (forall w <- arrived :: w.writeId != 0 && w.InBlock())
  }

  /** OKs are issued once per write and in arrival order. */
  ghost predicate AckOk(bs: seq<Buf>, oks: seq<nat>, greeting: seq<nat>, processed: seq<Done>) {
    && (greeting == [] || greeting == [0])
    && oks == greeting + AckedIds(processed) + RepliedIds(bs)
  }

  /** An acknowledged block that was not written has left a status for the master; as
      long as the operation serves without error every processed block is acknowledged. */
  ghost predicate TellOk(processed: seq<Done>, untold: Status, undisturbed: bool) {
    && (forall d <- processed :: d.acked && !d.written ==> untold != STATUS_OK)
    && (undisturbed ==> forall d <- processed :: d.acked)
  }

  /** The blocks of the running job that are on disk. */
  function Progress(job: Job, queue: seq<Buf>): seq<Write> {
    if job.Job? && job.kind == WriteJob && queue != [] && (job.phase.Running? || job.phase.Finished?) &&
       job.phase.done <= |queue[0].blocks|
    then queue[0].blocks[..job.phase.done]
    else []
  }

  ghost predicate WrittenOk(job: Job, queue: seq<Buf>, written: seq<Write>, processed: seq<Done>) {
    written == WrittenOf(processed) + Progress(job, queue)
  }

  /** Without a lock, or for a standard slice, acknowledged means written. */
  ghost predicate ThroughOk(cfg: Config, bs: seq<Buf>, processed: seq<Done>) {
    !cfg.locked || cfg.standard ==> NoneReplied(bs) && forall d <- processed :: d.acked ==> d.written
  }

  /** A sealed operation has acknowledged all it holds. */
  ghost predicate SealOk(sealed: bool, st: Store) {
    sealed ==> AllReplied(st.queue) && (st.input.Some? ==> st.input.value.blocks == [])
  }

  ghost predicate ConnOk(flags: Flags, connection: Connection, chain: bool) {
    && (flags.errored ==> Leaving(connection))
    && (chain && !flags.sealed ==> connection != WriteLast)
    && ((connection == Connecting || connection == WriteInit || connection == WriteForward) && !flags.sealed ==> chain)
  }

  /** Sealing before the open job returned means the connection is given up or the
      operation is gone. */
  ghost predicate EarlyEndOk(flags: Flags, connection: Connection, job: Job) {
    flags.sealed && job.Job? && job.kind == OpenJob ==> flags.cleaned || Leaving(connection)
  }

  ghost predicate CloseOk(mode: Mode, st: Store, processed: seq<Done>) {
    && (mode == ClosingOpen ==> NoneReplied(st.Live()) && processed == [])
    && (mode == ClosingWrites ==> st.input.None? && forall i :: 1 <= i < |st.queue| ==> st.queue[i].replied > 0)
  }

  /** The operation's share of the connection's pending write jobs. */
  ghost predicate PendingOk(pending: int, mode: Mode, job: Job, queue: seq<Buf>) {
    pending == match mode
               case Serving => 0
               case ClosingOpen => if job.Job? && job.phase != Consumed then 1 else 0
               case ClosingWrites => |queue|
  }

  ghost predicate LockOk(cleaned: bool, bs: seq<Buf>, lock: Lock, locked: bool) {
    && (cleaned ==> bs == [])
    && (lock.closeJob ==> cleaned)
    && (lock.end.Some? ==> locked && cleaned && (lock.end.value == STATUS_OK ==> lock.untold == STATUS_OK))
  }

  /** Only a closing or closed operation drops blocks. */
  ghost predicate DropOk(dropped: seq<Write>, mode: Mode, cleaned: bool) {
    dropped != [] ==> mode != Serving || cleaned
  }

  ghost predicate Speaking(s: Op) { s.Last() && !s.flags.sealed }

  /** What holds inside a callback too. */
  ghost predicate Core(s: Op) {
    && StoreOk(s.store)
    && JobSafe(s.task, s.store, s.flags.open, s.mode, s.hist.greeting, s.hist.processed)
    && HistOk(s.store.Live(), s.hist.arrived, s.hist.processed, s.hist.dropped)
    && AckOk(s.store.Live(), s.client.oks, s.hist.greeting, s.hist.processed)
    && TellOk(s.hist.processed, s.lock.untold, s.mode == Serving && !s.flags.errored)
    && WrittenOk(s.task.job, s.store.queue, s.hist.written, s.hist.processed)
    && ThroughOk(s.cfg, s.store.Live(), s.hist.processed)
    && SealOk(s.flags.sealed, s.store)
    && ConnOk(s.flags, s.link.connection, s.cfg.chain)
    && CloseOk(s.mode, s.store, s.hist.processed)
    && LockOk(s.flags.cleaned, s.store.Live(), s.lock, s.cfg.locked)
    && DropOk(s.hist.dropped, s.mode, s.flags.cleaned)
    && ClientOk(s.client, s.cfg.chain, Speaking(s))
  }

  ghost predicate Inv(s: Op) {
    && Core(s)
    && JobLive(s.task, s.store, s.mode, s.flags.errored)
    && InputOk(s.store.input, s.link.nextCount, s.cfg.maxBlocks)
    && PendingOk(s.link.pending, s.mode, s.task.job, s.store.queue)
    && EarlyEndOk(s.flags, s.link.connection, s.task.job)
  }

  // ---------------------------------------------------------------- list lemmas

  lemma {:induction false} DoneConcat(xs: seq<Done>, ys: seq<Done>)
    ensures Blocks(xs + ys) == Blocks(xs) + Blocks(ys)
    ensures AckedIds(xs + ys) == AckedIds(xs) + AckedIds(ys)
    ensures WrittenOf(xs + ys) == WrittenOf(xs) + WrittenOf(ys)
  {
    if ys == [] {
      assert xs + ys == xs;
    } else {
      var n := |ys| - 1;
      assert (xs + ys)[..|xs| + n] == xs + ys[..n];
      DoneConcat(xs, ys[..n]);
    }
  }

  /** xs is obtained from ys by leaving elements out. */
  ghost predicate Subseq<T>(xs: seq<T>, ys: seq<T>) {
    xs == [] || (ys != [] && ((xs[0] == ys[0] && Subseq(xs[1..], ys[1..])) || Subseq(xs, ys[1..])))
  }

  lemma {:induction false} SubseqIn<T>(xs: seq<T>, ys: seq<T>, x: T)
    requires Subseq(xs, ys) && x in xs
    ensures x in ys
    decreases |ys|
  {
    if xs[0] == ys[0] && Subseq(xs[1..], ys[1..]) {
      if x != xs[0] { SubseqIn(xs[1..], ys[1..], x); }
    } else {
      SubseqIn(xs, ys[1..], x);
    }
  }

  lemma {:induction false} SubseqDistinct(xs: seq<nat>, ys: seq<nat>)
    requires Subseq(xs, ys) && Distinct(ys)
    ensures Distinct(xs)
    decreases |ys|
  {
    if xs != [] {
      assert Distinct(ys[1..]);
      if xs[0] == ys[0] && Subseq(xs[1..], ys[1..]) {
        SubseqDistinct(xs[1..], ys[1..]);
        if xs[0] in xs[1..] {
          SubseqIn(xs[1..], ys[1..], xs[0]);
          assert false;
        }
      } else {
        SubseqDistinct(xs, ys[1..]);
      }
    }
  }

  lemma {:induction false} SubseqConcat<T>(xs: seq<T>, ys: seq<T>, xs': seq<T>, ys': seq<T>)
    requires Subseq(xs, ys) && Subseq(xs', ys')
    ensures Subseq(xs + xs', ys + ys')
    decreases |ys|
  {
    if ys == [] {
      assert xs + xs' == xs' && ys + ys' == ys';
    } else {
      assert (ys + ys')[1..] == ys[1..] + ys';
      if xs != [] && xs[0] == ys[0] && Subseq(xs[1..], ys[1..]) {
        assert (xs + xs')[1..] == xs[1..] + xs';
        SubseqConcat(xs[1..], ys[1..], xs', ys');
      } else {
        SubseqConcat(xs, ys[1..], xs', ys');
      }
    }
  }

  lemma {:induction false} SubseqSelf<T>(xs: seq<T>)
    ensures Subseq(xs, xs)
  {
    if xs != [] { SubseqSelf(xs[1..]); }
  }

  lemma {:induction false} AckedSubseq(ds: seq<Done>)
    ensures Subseq(AckedIds(ds), Ids(Blocks(ds)))
  {
    if ds != [] {
      var n := |ds| - 1;
      var id := ds[n].block.writeId;
      AckedSubseq(ds[..n]);
      IdsConcat(Blocks(ds[..n]), [ds[n].block]);
      assert Ids([ds[n].block]) == [id];
      SubseqSelf([id]);
      SubseqConcat(AckedIds(ds[..n]), Ids(Blocks(ds[..n])), if ds[n].acked then [id] else [], [id]);
    }
  }

  lemma {:induction false} RepliedSubseq(bs: seq<Buf>)
    ensures Subseq(RepliedIds(bs), Ids(Flat(bs)))
  {
    if bs != [] {
      var b := bs[0];
      RepliedSubseq(bs[1..]);
      IdsConcat(b.blocks, Flat(bs[1..]));
      assert b.blocks == b.blocks[..b.replied] + b.blocks[b.replied..];
      IdsConcat(b.blocks[..b.replied], b.blocks[b.replied..]);
      SubseqSelf(Ids(b.blocks[..b.replied]));
      SubseqConcat(Ids(b.blocks[..b.replied]), Ids(b.blocks[..b.replied]), [], Ids(b.blocks[b.replied..]));
      assert Ids(b.blocks[..b.replied]) + [] == Ids(b.blocks[..b.replied]);
      SubseqConcat(Ids(b.blocks[..b.replied]), Ids(b.blocks), RepliedIds(bs[1..]), Ids(Flat(bs[1..])));
    }
  }

  lemma AcksSubseq(processed: seq<Done>, bs: seq<Buf>, dropped: seq<Write>)
    ensures Subseq(AckedIds(processed) + RepliedIds(bs), Ids(Blocks(processed) + Flat(bs) + dropped))
  {
    var acks := AckedIds(processed) + RepliedIds(bs);
    AckedSubseq(processed);
    RepliedSubseq(bs);
    IdsConcat(Blocks(processed), Flat(bs));
    IdsConcat(Blocks(processed) + Flat(bs), dropped);
    SubseqConcat(AckedIds(processed), Ids(Blocks(processed)), RepliedIds(bs), Ids(Flat(bs)));
    SubseqConcat(acks, Ids(Blocks(processed) + Flat(bs)), [], Ids(dropped));
    assert acks + [] == acks;
  }

  /** No write id is acknowledged twice. */
  lemma AcksDistinct(greeting: seq<nat>, processed: seq<Done>, bs: seq<Buf>, dropped: seq<Write>)
    requires greeting == [] || greeting == [0]
    requires var arrived := Blocks(processed) + Flat(bs) + dropped;
             Distinct(Ids(arrived)) && forall w <- arrived :: w.writeId != 0
    ensures Distinct(greeting + AckedIds(processed) + RepliedIds(bs))
  {
    var arrived := Blocks(processed) + Flat(bs) + dropped;
    var acks := AckedIds(processed) + RepliedIds(bs);
    hide Blocks, Flat, AckedIds, RepliedIds, Subseq;
    AcksSubseq(processed, bs, dropped);
    SubseqDistinct(acks, Ids(arrived));
    assert 0 !in acks by {
      forall i | 0 <= i < |arrived| ensures Ids(arrived)[i] != 0 { assert arrived[i] in arrived; }
      if 0 in acks { SubseqIn(acks, Ids(arrived), 0); }
    }
    assert greeting + AckedIds(processed) + RepliedIds(bs) == greeting + acks;
  }
}
