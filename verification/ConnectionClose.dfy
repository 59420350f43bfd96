/** Giving up a connection: closeJobs closes the write operations only if no read is being
    discarded; checkAndApplyClosed then cleans them up as they are. */
module ConnectionClose {
  import opened ChunkTypes
  import opened WriteOp
  import opened StoreInv
  import opened ClientInv
  import opened WriteInv
  import opened WriteTheorems
  import opened WriteOrder
  import opened WriteWitness

  /** closeJobs, for one write operation of the connection. */
  function CloseJobs(s: Op, readPending: bool, retain: set<nat>): Op {
    if readPending then s else DelayedClose(s, retain)
  }

  /** checkAndApplyClosed once nothing is pending, with the close job, if any, returning OK. */
  function AppliedClosed(s: Op, retain: set<nat>): Op {
    var s1 := Cleanup(s, retain);
    if s1.lock.closeJob then CloseFinished(s1, STATUS_OK) else s1
  }

  /** Every acknowledged block in a buffer is among those the running job has written. */
  predicate Covered(s: Op) { |RepliedIds(s.store.Live())| <= |Progress(s.task.job, s.store.queue)| }

  ghost predicate Durable(s: Op) {
    s.lock.end == Some(STATUS_OK) ==> forall id <- s.client.oks :: id != 0 ==> OnDisk(s, id)
  }

  lemma ProgressIds(job: Job, queue: seq<Buf>, bs: seq<Buf>)
    requires queue <= bs
    ensures Progress(job, queue) == Flat(bs)[..|Progress(job, queue)|] && |Progress(job, queue)| <= |Flat(bs)|
  {
    if queue != [] { assert bs[0] == queue[0]; }
  }

  lemma CoveredIsWritten(s: Op, id: nat)
    requires Core(s) && Covered(s) && id in RepliedIds(s.store.Live())
    ensures OnDisk(s, id)
  {
    var bs, done := s.store.Live(), Progress(s.task.job, s.store.queue);
    RepliedPrefix(bs);
    ProgressIds(s.task.job, s.store.queue, bs);
    hide StoreOk, JobSafe, HistOk, AckOk, ClientOk, Progress, RepliedIds, Flat;
    var k :| 0 <= k < |RepliedIds(bs)| && RepliedIds(bs)[k] == id;
    assert Ids(Flat(bs))[k] == id && done[k] == Flat(bs)[k];
    assert done[k] in s.hist.written;
  }

  lemma {:induction false} WrittenAmong(ds: seq<Done>, w: Write)
    requires w in WrittenOf(ds)
    ensures w in Blocks(ds)
  {
    var n := |ds| - 1;
    if w in WrittenOf(ds[..n]) { WrittenAmong(ds[..n], w); }
  }

  lemma DistinctAt(xs: seq<nat>, ys: seq<nat>, k: nat)
    requires Distinct(xs + ys) && k < |ys|
    ensures ys[k] !in xs && ys[k] !in ys[..k]
  {
    assert (xs + ys)[|xs| + k] == ys[k];
    forall i | 0 <= i < |xs| ensures xs[i] != ys[k] { assert (xs + ys)[i] == xs[i]; }
    forall i | 0 <= i < k ensures ys[i] != ys[k] { assert (xs + ys)[|xs| + i] == ys[i]; }
  }

  lemma IdsIn(ws: seq<Write>, w: Write)
    requires w in ws
    ensures w.writeId in Ids(ws)
  {
    var i :| 0 <= i < |ws| && ws[i] == w;
    assert Ids(ws)[i] == w.writeId;
  }

  /** No written block carries the id of the next block in line. */
  lemma NotReached(p: seq<Done>, flat: seq<Write>, dropped: seq<Write>, k: nat, w: Write)
    requires Distinct(Ids(Blocks(p) + flat + dropped)) && k < |flat| && w in WrittenOf(p) + flat[..k]
    ensures w.writeId != flat[k].writeId
  {
    IdsConcat(Blocks(p), flat);
    IdsConcat(Blocks(p) + flat, dropped);
    var tail := Ids(flat) + Ids(dropped);
    assert Ids(Blocks(p) + flat + dropped) == Ids(Blocks(p)) + tail;
    DistinctAt(Ids(Blocks(p)), tail, k);
    hide Distinct, Blocks, WrittenOf;
    assert tail[k] == flat[k].writeId && tail[..k] == Ids(flat[..k]);
    if w in flat[..k] {
      IdsIn(flat[..k], w);
    } else {
      WrittenAmong(p, w);
      IdsIn(Blocks(p), w);
    }
  }

  /** The first acknowledged block the job has not reached is not on disk. */
  lemma UncoveredIsLost(s: Op)
    requires Core(s) && !Covered(s)
    ensures var k := |Progress(s.task.job, s.store.queue)|; !OnDisk(s, RepliedIds(s.store.Live())[k])
  {
    var bs, k := s.store.Live(), |Progress(s.task.job, s.store.queue)|;
    RepliedPrefix(bs);
    ProgressIds(s.task.job, s.store.queue, bs);
    hide StoreOk, JobSafe, AckOk, ClientOk, Progress, RepliedIds, Flat, Blocks, WrittenOf, TellOk, ThroughOk, Distinct;
    forall w | w in s.hist.written ensures w.writeId != Flat(bs)[k].writeId {
      NotReached(s.hist.processed, Flat(bs), s.hist.dropped, k, w);
    }
    assert RepliedIds(bs)[k] == Ids(Flat(bs))[k];
  }

  lemma AppliedForm(s: Op, retain: set<nat>)
    requires Core(s) && !s.flags.cleaned && s.cfg.locked
    ensures var s' := AppliedClosed(s, retain);
            s'.lock.end == Some(s.lock.untold) && s'.client == s.client && s'.hist.written == s.hist.written
  {
    hide StoreOk, JobSafe, AckOk, HistOk, ClientOk, TellOk, ThroughOk, WrittenOk, Discard;
  }

  lemma RepliedWasAcked(s: Op, id: nat)
    requires Core(s) && id in RepliedIds(s.store.Live())
    ensures id in s.client.oks
  {
    hide StoreOk, JobSafe, HistOk, ClientOk, TellOk, ThroughOk, WrittenOk;
  }

  lemma RepliedNotZero(s: Op, id: nat)
    requires Core(s) && id in RepliedIds(s.store.Live())
    ensures id != 0
  {
    var bs := s.store.Live();
    RepliedPrefix(bs);
    hide StoreOk, JobSafe, AckOk, ClientOk, TellOk, ThroughOk, WrittenOk, RepliedIds, Flat, Blocks, Distinct;
    var k :| 0 <= k < |RepliedIds(bs)| && RepliedIds(bs)[k] == id;
    assert Ids(Flat(bs))[k] == id;
    assert Flat(bs)[k] in s.hist.arrived;
  }

  /** Cleaning up an operation as it is loses no acknowledged block exactly when a failure
      is reported to the master anyway or every acknowledged block was written. This is about
      the moment the lock ends: a job still running may write more afterwards, but from a
      buffer that cleanup has given away. */
  lemma AppliedClosedDurable(s: Op, retain: set<nat>)
    requires Core(s) && !s.flags.cleaned && s.cfg.locked
    ensures Durable(AppliedClosed(s, retain)) <==> s.lock.untold != STATUS_OK || Covered(s)
  {
    hide Core, Covered, AppliedClosed;
    var s' := AppliedClosed(s, retain);
    AppliedForm(s, retain);
    if s.lock.untold == STATUS_OK {
      if Covered(s) {
        forall id | id in s'.client.oks && id != 0 ensures OnDisk(s', id) {
          AckedIsKept(s, id);
          if id in RepliedIds(s.store.Live()) { CoveredIsWritten(s, id); }
        }
      } else {
        UncoveredIsLost(s);
        var id := LostId(s);
        RepliedWasAcked(s, id);
        RepliedNotZero(s, id);
        assert !OnDisk(s', id);
      }
    }
  }

  lemma LostId(s: Op) returns (id: nat)
    requires Core(s) && !Covered(s)
    ensures id in RepliedIds(s.store.Live()) && !OnDisk(s, id)
  {
    hide Core;
    UncoveredIsLost(s);
    id := RepliedIds(s.store.Live())[|Progress(s.task.job, s.store.queue)|];
  }

  /** Closing and draining first is always safe: nothing acknowledged is left in a buffer. */
  lemma DrainedIsDurable(s: Op, retain: set<nat>)
    requires Inv(s) && !s.flags.cleaned && s.cfg.locked && s.mode != Serving && s.link.pending == 0
    ensures Durable(AppliedClosed(s, retain))
  {
    assert Covered(s) by {
      hide StoreOk, JobSafe, AckOk, HistOk, ClientOk, TellOk, ThroughOk, WrittenOk;
      if s.mode == ClosingOpen {
        RepliedIdsNone(s.store.Live());
      } else {
        assert s.store.Live() == [];
      }
    }
    hide Core;
    AppliedClosedDurable(s, retain);
  }

  // ---------------------------------------------------------------- a read in the way

  /** Cleaning up while a write job is outstanding hands the buffer it works on to the pool. */
  lemma JobBufferGivenAway(s: Op, retain: set<nat>)
    requires Core(s) && s.task.job.Job? && s.task.job.kind == WriteJob
    ensures s.store.queue != []
    ensures var s' := AppliedClosed(s, retain);
            s'.task == s.task && (s.store.queue[0].id in s'.store.pool <==> s.store.queue[0].id in retain)
  {
    var bs := s.store.Live();
    assert s.store.queue != [] && bs[0] == s.store.queue[0] && bs[0].id !in s.store.pool;
    hide Core;
    DiscardPool(s.store, bs, retain, bs[0].id);
  }

  /** What the loops of cleanup put into the pool. */
  lemma {:induction false} DiscardPool(st: Store, bs: seq<Buf>, retain: set<nat>, id: nat)
    ensures id in Discard(st, bs, retain).pool <==> id in st.pool || (id in retain && exists i :: 0 <= i < |bs| && bs[i].id == id)
    decreases |bs|
  {
    if bs != [] {
      var st1 := Put(Unregister(st, bs[0]), bs[0], retain);
      DiscardPool(st1, bs[1..], retain, id);
      assert id in st1.pool <==> id in st.pool || (id in retain && bs[0].id == id);
      if i: nat :| i < |bs| && bs[i].id == id { assert i > 0 ==> bs[1..][i - 1].id == id; }
      if i: nat :| i < |bs| - 1 && bs[1..][i].id == id { assert bs[i + 1].id == id; }
    }
  }

  function OneBlock(): Write { Write(0, 0, [7 as u8], 1, 0) }

  /** With credit for one block: it is acknowledged at once, the client ends the write, and the
      operation is sealed with its write job still queued; the connection is free to serve a
      read, which fails. */
  function LossEvents(): seq<Event> {
    OpenEvents() + [BlockBegins(9), BlockArrives(OneBlock()), EndRequested(true, false, {}), ConnectionMoves(IOFinish)]
  }

  function LossBuf(): Buf { Buf(9, 4, [OneBlock()], 1, false) }
  function LossStore(): Store { Store([LossBuf()], None, [Entry(9, Infos([OneBlock()]))], {}, 0) }
  const LOSS_TASK: Task := Task(Job(WriteJob, Queued, Normal), 1)

  lemma LossReplied()
    ensures InstantReply(WithBlock(Store([], Some(Buf(9, 4, [], 0, true)), [], {}, 1), OneBlock()), 0).0 ==
            Store([], Some(LossBuf()), [Entry(9, Infos([OneBlock()]))], {}, 0)
  {
    var st := WithBlock(Store([], Some(Buf(9, 4, [], 0, true)), [], {}, 1), OneBlock());
    assert [] + [OneBlock()] == [OneBlock()] && st.Live() == [Buf(9, 4, [OneBlock()], 0, false)];
    var st' := ReplyAt(st, 0);
    assert |st'.Live()| == 1 && st' == Store([], Some(LossBuf()), [Entry(9, Infos([OneBlock()]))], {}, 0);
  }

  lemma LossReceived(events: seq<Event>) returns (s: Op)
    requires events == LossEvents()
    ensures Reach(StartWith(1), events[..5]) == s && At(s, LossStore(), LOSS_TASK, [OneBlock()])
  {
    hide Reach, At, StepsTo, InstantReply;
    assert OpenEvents() <= events && events[3] == BlockBegins(9) && events[4] == BlockArrives(OneBlock());
    var s3 := ReachOpened(1, events);
    LossReplied();
    var none: set<nat> := {};
    assert none - {9} == none && [] + [OneBlock()] == [OneBlock()];
    var s4 := Begun(s3, Store([], None, [], {}, 1), IDLE, [], 9);
    s := ArrivedIdle(s4, Store([], Some(Buf(9, 4, [], 0, true)), [], {}, 1), [], OneBlock(),
                     Store([], Some(LossBuf()), [Entry(9, Infos([OneBlock()]))], {}, 0));
    ReachStep(StartWith(1), events, 3, s3, s4);
    ReachStep(StartWith(1), events, 4, s4, s);
  }

  /** All OKs of a write without a chain are told at once. */
  lemma NothingPartial(s: Op)
    requires Inv(s) && !s.cfg.chain && Speaking(s)
    ensures s.client.partial == {}
  {
    hide StoreOk, JobSafe, HistOk, AckOk, TellOk, WrittenOk, ThroughOk, LockOk;
  }

  lemma LossSealed(s: Op) returns (t: Op)
    requires At(s, LossStore(), LOSS_TASK, [OneBlock()]) && s.client.partial == {}
    ensures StepsTo(s, EndRequested(true, false, {}), t)
    ensures t == s.(flags := s.flags.(sealed := true), link := s.link.(connection := Idle))
  {
    t := Apply(s, EndRequested(true, false, {}));
  }

  lemma LossLeft(s: Op) returns (t: Op)
    requires s.link.connection == Idle
    ensures StepsTo(s, ConnectionMoves(IOFinish), t) && t == s.(link := s.link.(connection := IOFinish))
  {
    t := Apply(s, ConnectionMoves(IOFinish));
  }

  lemma NotCovered(s: Op)
    requires s.store == LossStore() && s.task == LOSS_TASK
    ensures !Covered(s)
  {
    assert s.store.Live() == [LossBuf()];
    assert RepliedIds([LossBuf()]) == Ids([OneBlock()][..1]) + RepliedIds([LossBuf()][1..]);
    assert |Ids([OneBlock()][..1])| == 1;
  }

  /** With a read pending closeJobs leaves the sealed write operation as it is; cleaning it up
      then ends the lock with OK although the acknowledged block is on no disk, and its buffer
      may be in the pool with the job still queued on it. */
  lemma ReadPendingLoses()
    ensures StartWith(1).Valid()
    ensures var s := Reach(StartWith(1), LossEvents());
            && s.flags.sealed && !s.flags.cleaned && s.link.connection == IOFinish && s.task == LOSS_TASK
            && !Durable(AppliedClosed(CloseJobs(s, true, {}), {}))
            && 9 in AppliedClosed(CloseJobs(s, true, {9}), {9}).store.pool
            && AppliedClosed(CloseJobs(s, true, {9}), {9}).task == LOSS_TASK
  {
    hide Reach, Inv, StepsTo, Durable, AppliedClosed, LossStore, Covered;
    var events := LossEvents();
    assert events[5] == EndRequested(true, false, {}) && events[6] == ConnectionMoves(IOFinish) && events[..7] == events;
    var s5 := LossReceived(events);
    ReachInv(StartWith(1), events[..5]);
    NothingPartial(s5);
    var s6 := LossSealed(s5);
    var s7 := LossLeft(s6);
    ReachStep(StartWith(1), events, 5, s5, s6);
    ReachStep(StartWith(1), events, 6, s6, s7);
    ReachInv(StartWith(1), events);
    CoreOf(s7);
    hide Core;
    NotCovered(s7);
    AppliedClosedDurable(s7, {});
    JobBufferGivenAway(s7, {9});
    FrontIs(s7);
  }

  lemma FrontIs(s: Op)
    requires s.store == LossStore()
    ensures s.store.queue != [] && s.store.queue[0].id == 9
  {}

  lemma CoreOf(s: Op)
    requires Inv(s)
    ensures Core(s)
  {}
}
