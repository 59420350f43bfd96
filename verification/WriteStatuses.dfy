/** Which blocks writeFinishedCallback acknowledges: a block behind a failed one keeps the
    initial status OK, so that it may be acknowledged although it was never written. */
module WriteStatuses {
  import opened ChunkTypes
  import opened WriteOp
  import opened StoreInv
  import opened ClientInv
  import opened WriteInv
  import opened WriteSteps
  import opened WriteEvents
  import opened WriteTheorems
  import opened WriteWitness

  /** The job stopped at a block that was replied early, and blocks not yet replied follow. */
  predicate StoppedEarly(b: Buf, t: Phase)
    requires t.Finished?
  {
    t.done < b.replied < |b.blocks|
  }

  /** What becomes of each block of a finished buffer while the operation serves. */
  lemma AckedAs(b: Buf, t: Phase, untold: Status, k: nat)
    requires Outcome(b, t) && k < |b.blocks|
    ensures var v := Settle(b, t, false, untold, |b.blocks|);
            && |v.outcome| == |b.blocks| && v.outcome[k].block == b.blocks[k]
            && (v.outcome[k].acked <==> k < b.replied || k < t.done || t.done < b.replied)
            && (v.outcome[k].written <==> k < t.done)
  {
    SettleForm(b, t, false, untold, |b.blocks|);
  }

  /** A block that was not replied early is acknowledged without being written exactly when
      the job stopped at a replied one; then all of them are. */
  lemma UnwrittenAckedIff(b: Buf, t: Phase, untold: Status)
    requires Outcome(b, t)
    ensures var v := Settle(b, t, false, untold, |b.blocks|);
            && |v.outcome| == |b.blocks|
            && ((exists k :: b.replied <= k < |b.blocks| && v.outcome[k].acked && !v.outcome[k].written) <==> StoppedEarly(b, t))
            && (StoppedEarly(b, t) ==> forall k :: b.replied <= k < |b.blocks| ==> v.outcome[k].acked && !v.outcome[k].written)
  {
    SettleForm(b, t, false, untold, |b.blocks|);
    hide Settle;
    var v := Settle(b, t, false, untold, |b.blocks|);
    if StoppedEarly(b, t) { assert v.outcome[b.replied].acked && !v.outcome[b.replied].written; }
  }

  // ---------------------------------------------------------------- in runs

  /** The blocks recorded since include one that was acknowledged, was not written, and for
      which the client had no OK before. */
  ghost predicate FalselyAcked(was: seq<Done>, now: seq<Done>, oks: seq<nat>) {
    exists k :: |was| <= k < |now| && now[k].acked && !now[k].written && now[k].block.writeId !in oks
  }

  /** The callback acknowledges a block that is not on disk and that the client had no OK for. */
  ghost predicate Misleads(s: Op, retain: set<nat>)
    requires Enabled(s, JobReturns(retain))
  {
    FalselyAcked(s.hist.processed, Apply(s, JobReturns(retain)).hist.processed, s.client.oks)
  }

  /** What the code could look at before it answers. */
  predicate WillMislead(s: Op) {
    && s.mode == Serving && s.task.job.Job? && s.task.job.kind == WriteJob && s.task.job.phase.Finished? && s.store.queue != []
    && StoppedEarly(s.store.queue[0], s.task.job.phase)
  }

  lemma {:induction false} AcksHave(b: Buf, t: Phase, untold: Status, n: nat, k: nat)
    requires Outcome(b, t) && b.replied <= k < n <= |b.blocks| && DoneOf(b, t, false, k).acked
    ensures b.blocks[k].writeId in Settle(b, t, false, untold, n).acks
  {
    SettleGrows(b, t, false, untold, n);
    if k < n - 1 { AcksHave(b, t, untold, n - 1, k); }
  }

  lemma {:induction false} LocalOksOks(c: Client, last: bool, ids: seq<nat>)
    ensures LocalOks(c, last, ids).oks == c.oks + ids
  {
    if ids != [] {
      var n := |ids| - 1;
      LocalOksOks(c, last, ids[..n]);
      assert ids[..n] + [ids[n]] == ids;
    }
  }

  lemma ContinueHist(s: Op)
    ensures ContinueWriting(s).hist == s.hist
  {}

  /** The blocks a write callback puts on record. */
  lemma Recorded(s: Op, retain: set<nat>)
    requires WriteDone(s)
    ensures WriteFinished(s, retain).hist.processed == s.hist.processed + VerdictOf(s).outcome
  {
    hide ContinueWriting, Settle;
    ContinueHist(Retire(s, retain).0);
  }

  lemma FalselyAckedIff(b: Buf, t: Phase, closing: bool, untold: Status, was: seq<Done>, oks: seq<nat>)
    requires Outcome(b, t) && forall id <- Settle(b, t, closing, untold, |b.blocks|).acks :: id !in oks
    requires forall k :: 0 <= k < b.replied ==> b.blocks[k].writeId in oks
    ensures FalselyAcked(was, was + Settle(b, t, closing, untold, |b.blocks|).outcome, oks) <==> !closing && StoppedEarly(b, t)
  {
    SettleForm(b, t, closing, untold, |b.blocks|);
    var v := Settle(b, t, closing, untold, |b.blocks|);
    var now := was + v.outcome;
    assert forall j :: |was| <= j < |now| ==> now[j] == v.outcome[j - |was|];
    if !closing && StoppedEarly(b, t) {
      var k := b.replied;
      AcksHave(b, t, untold, |b.blocks|, k);
      hide Settle;
      assert now[|was| + k] == v.outcome[k];
    }
  }

  /** What a write callback acknowledges was not acknowledged before. */
  lemma NewlyAcked(s: Op, retain: set<nat>)
    requires Core(s) && WriteDone(s) && s.mode != ClosingOpen && !s.flags.cleaned
    ensures forall id <- VerdictOf(s).acks :: id !in s.client.oks
  {
    hide Core, Settle, Retire, VerdictOf, Outcome;
    RetireCore(s, retain);
    RetiredOks(s, retain);
    RetiredDistinct(Retire(s, retain).0);
    DistinctApart(s.client.oks, VerdictOf(s).acks);
  }

  lemma RetiredOks(s: Op, retain: set<nat>)
    requires WriteDone(s)
    ensures Retire(s, retain).0.client.oks == s.client.oks + VerdictOf(s).acks
  {
    hide Settle, Outcome;
    RetireForm(s, retain);
    LocalOksOks(s.client, s.Last(), VerdictOf(s).acks);
  }

  lemma DistinctApart(xs: seq<nat>, ys: seq<nat>)
    requires Distinct(xs + ys)
    ensures forall y <- ys :: y !in xs
  {
    forall y | y in ys ensures y !in xs {
      var j :| 0 <= j < |ys| && ys[j] == y;
      forall i | 0 <= i < |xs| ensures xs[i] != y { assert (xs + ys)[i] == xs[i] && (xs + ys)[|xs| + j] == y; }
    }
  }

  lemma RetiredDistinct(s: Op)
    requires Core(s)
    ensures Distinct(s.client.oks)
  {}

  lemma RepliedTold(s: Op)
    requires Core(s) && s.store.queue != []
    ensures forall k :: 0 <= k < s.store.queue[0].replied ==> s.store.queue[0].blocks[k].writeId in s.client.oks
  {
    hide JobSafe, HistOk, TellOk, WrittenOk, ThroughOk, ClientOk, AckedIds;
    var b, bs := s.store.queue[0], s.store.Live();
    assert bs[0] == b && RepliedIds(bs) == Ids(b.blocks[..b.replied]) + RepliedIds(bs[1..]);
    forall k | 0 <= k < b.replied ensures b.blocks[k].writeId in s.client.oks {
      assert Ids(b.blocks[..b.replied])[k] == b.blocks[k].writeId;
      assert b.blocks[k].writeId in RepliedIds(bs);
    }
  }

  lemma WriteMisleads(s: Op, retain: set<nat>)
    requires Inv(s) && Enabled(s, JobReturns(retain)) && s.task.job.kind == WriteJob
    ensures Misleads(s, retain) <==> WillMislead(s)
  {
    hide Core, Settle, WriteFinished, FalselyAcked;
    WriteReturns(s, retain);
    NewlyAcked(s, retain);
    RepliedTold(s);
    Recorded(s, retain);
    FalselyAckedIff(s.store.queue[0], s.task.job.phase, s.mode != Serving, s.lock.untold, s.hist.processed, s.client.oks);
  }

  lemma WriteReturns(s: Op, retain: set<nat>)
    requires Inv(s) && Enabled(s, JobReturns(retain)) && s.task.job.kind == WriteJob
    ensures WriteDone(s) && s.mode != ClosingOpen && !s.flags.cleaned
    ensures Apply(s, JobReturns(retain)) == WriteFinished(s, retain)
  {
    JobDone(s);
    JobNormal(s);
    hide Inv;
  }

  lemma JobNormal(s: Op)
    requires Core(s) && s.task.job.Job? && s.task.job.kind == WriteJob
    ensures s.task.job.callback == Normal
  {}

  lemma OpenMisleadsNot(s: Op, retain: set<nat>)
    requires Enabled(s, JobReturns(retain)) && s.task.job.kind == OpenJob
    ensures !Misleads(s, retain)
  {
    hide OpenFinished, DelayedCloseCallback;
    OpenHist(s);
  }

  lemma OpenHist(s: Op)
    requires s.task.job.Job? && s.task.job.phase.Finished?
    ensures OpenFinished(s).hist.processed == s.hist.processed && DelayedCloseCallback(s).hist == s.hist
  {
    hide ContinueWriting;
    if s.task.job.phase.status == STATUS_OK {
      ContinueHist(s.(task := s.task.(job := NoJob), client := LocalOk(s.client, s.Last(), s.task.writeId),
                      flags := s.flags.(open := true), hist := s.hist.(greeting := s.hist.greeting + [s.task.writeId])));
    }
  }

  /** In every run, a callback acknowledges a block that is not on disk and was not replied
      early exactly when its job stopped at a replied block with unreplied ones behind it. */
  lemma MisleadsIff(start: Start, events: seq<Event>, retain: set<nat>)
    requires start.Valid() && Enabled(Reach(start, events), JobReturns(retain))
    ensures Misleads(Reach(start, events), retain) <==> WillMislead(Reach(start, events))
  {
    hide Reach;
    ReachInv(start, events);
    hide Inv, Misleads;
    var s := Reach(start, events);
    if s.task.job.kind == WriteJob { WriteMisleads(s, retain); } else { OpenMisleadsNot(s, retain); }
  }

  // ---------------------------------------------------------------- a run that does it

  /** The k-th block of the client. */
  function W(k: nat): Write { Write(k, 0, [7 as u8], k, 0) }

  /** With credit for two blocks: the first two are replied early, the third and fourth join
      the second in its buffer; the first buffer is written, the second fails at its first
      block. */
  function MisleadingEvents(): seq<Event> {
    OpenEvents() + [BlockBegins(1), BlockArrives(W(1)), BlockBegins(2), BlockArrives(W(2)), BlockBegins(3), BlockArrives(W(3)),
      BlockBegins(3), BlockArrives(W(4)), WorkerTakes, WorkerWrites(1), WorkerEnds(STATUS_OK), JobReturns({}), WorkerTakes,
      WorkerEnds(ERROR_IO)]
  }

  function FirstBuf(): Buf { Buf(1, 4, [W(1)], 1, false) }
  function SecondBuf(blocks: seq<Write>): Buf
    requires blocks != []
  {
    Buf(2, 4, blocks, 1, false)
  }
  function Registered(k: nat): Entry { Entry(k, Infos([W(k)])) }

  lemma FirstReplied()
    ensures InstantReply(WithBlock(Store([], Some(Buf(1, 4, [], 0, true)), [], {}, 2), W(1)), 0).0 ==
            Store([], Some(FirstBuf()), [Registered(1)], {}, 1)
  {
    var st := WithBlock(Store([], Some(Buf(1, 4, [], 0, true)), [], {}, 2), W(1));
    assert [] + [W(1)] == [W(1)] && st.Live() == [Buf(1, 4, [W(1)], 0, false)];
    var st' := ReplyAt(st, 0);
    assert |st'.Live()| == 1 && st' == Store([], Some(FirstBuf()), [Registered(1)], {}, 1);
  }

  lemma SecondReplied()
    ensures InstantReply(WithBlock(Store([FirstBuf()], Some(Buf(2, 4, [], 0, true)), [Registered(1)], {}, 1), W(2)), 0).0 ==
            Store([FirstBuf()], Some(SecondBuf([W(2)])), [Registered(1), Registered(2)], {}, 0)
  {
    var st := WithBlock(Store([FirstBuf()], Some(Buf(2, 4, [], 0, true)), [Registered(1)], {}, 1), W(2));
    assert [] + [W(2)] == [W(2)] && st.Live() == [FirstBuf(), Buf(2, 4, [W(2)], 0, false)];
    var st' := ReplyAt(st, 1);
    assert st' == Store([FirstBuf()], Some(SecondBuf([W(2)])), [Registered(1), Registered(2)], {}, 0);
    assert |st'.Live()| == 2;
    assert InstantReply(st', 2).0 == st';
    hide ReplyAt;
    assert InstantReply(st, 1).0 == st';
  }

  /** No credit is left for the blocks behind. */
  lemma NotReplied(blocks: seq<Write>, w: Write)
    requires blocks != []
    ensures var st := Store([FirstBuf()], Some(SecondBuf(blocks).(updating := true)), [Registered(1), Registered(2)], {}, 0);
            InstantReply(WithBlock(st, w), 0).0 ==
            Store([FirstBuf()], Some(SecondBuf(blocks + [w])), [Registered(1), Registered(2)], {}, 0)
  {
    var st := WithBlock(Store([FirstBuf()], Some(SecondBuf(blocks).(updating := true)), [Registered(1), Registered(2)], {}, 0), w);
    assert st.Live() == [FirstBuf(), SecondBuf(blocks + [w])];
    assert InstantReply(st, 1).0 == st;
  }

  function WriteTask(phase: Phase, id: nat): Task { Task(Job(WriteJob, phase, Normal), id) }

  lemma FirstReturned(s: Op, arrived: seq<Write>) returns (t: Op)
    requires At(s, Store([FirstBuf()], Some(SecondBuf([W(2), W(3), W(4)])), [Registered(1), Registered(2)], {}, 0),
                WriteTask(Finished(1, STATUS_OK), 1), arrived)
    ensures StepsTo(s, JobReturns({}), t)
    ensures At(t, Store([SecondBuf([W(2), W(3), W(4)])], None, [Registered(2)], {}, 1), WriteTask(Queued, 4), arrived)
  {
    hide Settle, Retire, ContinueWriting;
    t := Apply(s, JobReturns({}));
    FirstRetired(s);
    SecondPushed(Retire(s, {}).0);
  }

  lemma SecondPushed(s: Op)
    requires s.store == Store([], Some(SecondBuf([W(2), W(3), W(4)])), [Registered(2)], {}, 1) && s.task.job == NoJob
    ensures var t := ContinueWriting(s);
            && t == s.(store := t.store, task := t.task, client := t.client)
            && t.store == Store([SecondBuf([W(2), W(3), W(4)])], None, [Registered(2)], {}, 1) && t.task == WriteTask(Queued, 4)
  {
    NothingReplied(s);
    hide TryInstantReply;
    assert [] + [SecondBuf([W(2), W(3), W(4)])] == [SecondBuf([W(2), W(3), W(4)])];
  }

  lemma FirstRetired(s: Op)
    requires s.store == Store([FirstBuf()], Some(SecondBuf([W(2), W(3), W(4)])), [Registered(1), Registered(2)], {}, 0)
    requires s.task == WriteTask(Finished(1, STATUS_OK), 1) && s.mode == Serving && s.lock.untold == STATUS_OK
    ensures var (s1, stopped) := Retire(s, {});
            && !stopped && s1.store == Store([], Some(SecondBuf([W(2), W(3), W(4)])), [Registered(2)], {}, 1)
            && s1 == s.(task := s.task.(job := NoJob), store := s1.store, client := s1.client, hist := s1.hist)
            && s1.hist.arrived == s.hist.arrived
  {
    hide Settle, LocalOks, Without;
    SettleForm(FirstBuf(), s.task.job.phase, false, STATUS_OK, 1);
    FirstUnregistered();
  }

  lemma FirstUnregistered()
    ensures Without([Registered(1), Registered(2)], 1) == [Registered(2)]
  {
    var r := [Registered(1), Registered(2)];
    assert Without(r, 1) == Without(r[1..], 1) && r[1..] == [Registered(2)] && [Registered(2)][1..] == [];
    assert [Registered(2)] + [] == [Registered(2)];
  }

  lemma NothingReplied(s: Op)
    requires s.store == Store([], Some(SecondBuf([W(2), W(3), W(4)])), [Registered(2)], {}, 1)
    ensures TryInstantReply(s).store == s.store && TryInstantReply(s) == s.(client := TryInstantReply(s).client)
  {
    assert s.store.Live() == [SecondBuf([W(2), W(3), W(4)])];
  }

  function Both(): seq<Entry> { [Registered(1), Registered(2)] }

  lemma FirstReceived(s3: Op, events: seq<Event>) returns (s5: Op)
    requires events == MisleadingEvents() && Reach(StartWith(2), events[..3]) == s3
    requires At(s3, Store([], None, [], {}, 2), IDLE, [])
    ensures Reach(StartWith(2), events[..5]) == s5
    ensures At(s5, Store([FirstBuf()], None, [Registered(1)], {}, 1), WriteTask(Queued, 1), [W(1)])
  {
    hide Reach, At, StepsTo, InstantReply;
    assert events[3] == BlockBegins(1) && events[4] == BlockArrives(W(1));
    FirstReplied();
    var none: set<nat> := {};
    assert none - {1} == none;
    var s4 := Begun(s3, Store([], None, [], {}, 2), IDLE, [], 1);
    s5 := ArrivedIdle(s4, Store([], Some(Buf(1, 4, [], 0, true)), [], {}, 2), [], W(1), Store([], Some(FirstBuf()), [Registered(1)], {}, 1));
    assert [] + [W(1)] == [W(1)];
    ReachStep(StartWith(2), events, 3, s3, s4);
    ReachStep(StartWith(2), events, 4, s4, s5);
  }

  lemma SecondReceived(s5: Op, events: seq<Event>) returns (s7: Op)
    requires events == MisleadingEvents() && Reach(StartWith(2), events[..5]) == s5
    requires At(s5, Store([FirstBuf()], None, [Registered(1)], {}, 1), WriteTask(Queued, 1), [W(1)])
    ensures Reach(StartWith(2), events[..7]) == s7
    ensures At(s7, Store([FirstBuf()], Some(SecondBuf([W(2)])), Both(), {}, 0), WriteTask(Queued, 1), [W(1), W(2)])
  {
    hide Reach, At, StepsTo, InstantReply;
    assert events[5] == BlockBegins(2) && events[6] == BlockArrives(W(2));
    SecondReplied();
    var st := Store([FirstBuf()], None, [Registered(1)], {}, 1);
    assert st.Live() == [FirstBuf()];
    var none: set<nat> := {};
    assert none - {2} == none;
    var s6 := Begun(s5, st, WriteTask(Queued, 1), [W(1)], 2);
    s7 := Arrived(s6, st.(input := Some(Buf(2, 4, [], 0, true))), WriteTask(Queued, 1), [W(1)], W(2),
                  Store([FirstBuf()], Some(SecondBuf([W(2)])), Both(), {}, 0));
    assert [W(1)] + [W(2)] == [W(1), W(2)];
    ReachStep(StartWith(2), events, 5, s5, s6);
    ReachStep(StartWith(2), events, 6, s6, s7);
  }

  /** One more block for the second buffer. */
  lemma MoreReceived(n: nat, s: Op, events: seq<Event>, blocks: seq<Write>, w: Write) returns (t: Op)
    requires n + 1 < |events| && events[n] == BlockBegins(3) && events[n + 1] == BlockArrives(w)
    requires Reach(StartWith(2), events[..n]) == s && 1 <= |blocks| <= 2 && Welcome(w, [W(1)] + blocks)
    requires At(s, Store([FirstBuf()], Some(SecondBuf(blocks)), Both(), {}, 0), WriteTask(Queued, 1), [W(1)] + blocks)
    ensures Reach(StartWith(2), events[..n + 2]) == t
    ensures At(t, Store([FirstBuf()], Some(SecondBuf(blocks + [w])), Both(), {}, 0), WriteTask(Queued, 1), [W(1)] + (blocks + [w]))
  {
    hide Reach, At, StepsTo, InstantReply;
    NotReplied(blocks, w);
    var st := Store([FirstBuf()], Some(SecondBuf(blocks)), Both(), {}, 0);
    assert st.Live() == [FirstBuf(), SecondBuf(blocks)];
    var mid := Begun(s, st, WriteTask(Queued, 1), [W(1)] + blocks, 3);
    t := Arrived(mid, st.(input := Some(SecondBuf(blocks).(updating := true))), WriteTask(Queued, 1), [W(1)] + blocks, w,
                 Store([FirstBuf()], Some(SecondBuf(blocks + [w])), Both(), {}, 0));
    assert [W(1)] + blocks + [w] == [W(1)] + (blocks + [w]);
    ReachStep(StartWith(2), events, n, s, mid);
    ReachStep(StartWith(2), events, n + 1, mid, t);
  }

  lemma FirstWritten(s: Op, events: seq<Event>, arrived: seq<Write>) returns (t: Op)
    requires events == MisleadingEvents() && Reach(StartWith(2), events[..11]) == s
    requires At(s, Store([FirstBuf()], Some(SecondBuf([W(2), W(3), W(4)])), Both(), {}, 0), WriteTask(Queued, 1), arrived)
    ensures Reach(StartWith(2), events[..15]) == t
    ensures At(t, Store([SecondBuf([W(2), W(3), W(4)])], None, [Registered(2)], {}, 1), WriteTask(Queued, 4), arrived)
  {
    hide Reach, At, StepsTo;
    assert events[11] == WorkerTakes && events[12] == WorkerWrites(1) && events[13] == WorkerEnds(STATUS_OK) && events[14] == JobReturns({});
    var st := Store([FirstBuf()], Some(SecondBuf([W(2), W(3), W(4)])), Both(), {}, 0);
    var s1 := Works(s, st, WriteTask(Queued, 1), arrived, WorkerTakes, Running(0));
    var s2 := Works(s1, st, WriteTask(Running(0), 1), arrived, WorkerWrites(1), Running(1));
    var s3 := Works(s2, st, WriteTask(Running(1), 1), arrived, WorkerEnds(STATUS_OK), Finished(1, STATUS_OK));
    t := FirstReturned(s3, arrived);
    ReachStep(StartWith(2), events, 11, s, s1);
    ReachStep(StartWith(2), events, 12, s1, s2);
    ReachStep(StartWith(2), events, 13, s2, s3);
    ReachStep(StartWith(2), events, 14, s3, t);
  }

  lemma SecondFailed(s: Op, events: seq<Event>, arrived: seq<Write>) returns (t: Op)
    requires events == MisleadingEvents() && Reach(StartWith(2), events[..15]) == s
    requires At(s, Store([SecondBuf([W(2), W(3), W(4)])], None, [Registered(2)], {}, 1), WriteTask(Queued, 4), arrived)
    ensures Reach(StartWith(2), events) == t
    ensures At(t, Store([SecondBuf([W(2), W(3), W(4)])], None, [Registered(2)], {}, 1), WriteTask(Finished(0, ERROR_IO), 4), arrived)
  {
    hide Reach, At, StepsTo;
    assert events[15] == WorkerTakes && events[16] == WorkerEnds(ERROR_IO) && events[..17] == events;
    var st := Store([SecondBuf([W(2), W(3), W(4)])], None, [Registered(2)], {}, 1);
    var s1 := Works(s, st, WriteTask(Queued, 4), arrived, WorkerTakes, Running(0));
    t := Works(s1, st, WriteTask(Running(0), 4), arrived, WorkerEnds(ERROR_IO), Finished(0, ERROR_IO));
    ReachStep(StartWith(2), events, 15, s, s1);
    ReachStep(StartWith(2), events, 16, s1, t);
  }

  /** It does happen: after this run the callback acknowledges blocks three and four, which
      were never given to the disk. */
  lemma MisleadingRun()
    ensures StartWith(2).Valid()
    ensures var s := Reach(StartWith(2), MisleadingEvents());
            Enabled(s, JobReturns({})) && WillMislead(s) && Misleads(s, {})
  {
    hide Reach, At, Misleads, WillMislead, Enabled;
    var events := MisleadingEvents();
    assert OpenEvents() <= events;
    assert events[7] == BlockBegins(3) && events[8] == BlockArrives(W(3)) && events[9] == BlockBegins(3) && events[10] == BlockArrives(W(4));
    var s3 := ReachOpened(2, events);
    var s5 := FirstReceived(s3, events);
    var s7 := SecondReceived(s5, events);
    assert [W(1), W(2)] == [W(1)] + [W(2)] && [W(2)] + [W(3)] == [W(2), W(3)] && [W(2), W(3)] + [W(4)] == [W(2), W(3), W(4)];
    var s9 := MoreReceived(7, s7, events, [W(2)], W(3));
    var s11 := MoreReceived(9, s9, events, [W(2), W(3)], W(4));
    var s15 := FirstWritten(s11, events, [W(1)] + [W(2), W(3), W(4)]);
    var s := SecondFailed(s15, events, [W(1)] + [W(2), W(3), W(4)]);
    AboutToMislead(s, [W(1)] + [W(2), W(3), W(4)]);
    MisleadsIff(StartWith(2), events, {});
  }

  lemma AboutToMislead(s: Op, arrived: seq<Write>)
    requires At(s, Store([SecondBuf([W(2), W(3), W(4)])], None, [Registered(2)], {}, 1), WriteTask(Finished(0, ERROR_IO), 4), arrived)
    ensures Enabled(s, JobReturns({})) && WillMislead(s)
  {}
}
