/** What holds of a write operation in every run. */
module WriteTheorems {
  import opened ChunkTypes
  import opened WriteOp
  import opened StoreInv
  import opened ClientInv
  import opened WriteInv
  import opened WriteRuns

  /** How an operation begins. */
  datatype Start = Start(cfg: Config, connection: Connection, pool: set<nat>, available: int) {
    predicate Valid() { Starts(cfg, connection) }
  }

  function Reach(start: Start, events: seq<Event>): Op {
    Run(Setup(start.cfg, start.connection, start.pool, start.available), events)
  }

  lemma ReachInv(start: Start, events: seq<Event>)
    requires start.Valid()
    ensures Inv(Reach(start, events))
  {
    hide Inv;
    SetupInv(start.cfg, start.connection, start.pool, start.available);
    RunInv(Setup(start.cfg, start.connection, start.pool, start.available), events);
  }

  // ---------------------------------------------------------------- where an acknowledged block is

  lemma {:induction false} AckedAt(ds: seq<Done>, id: nat) returns (i: nat)
    requires id in AckedIds(ds)
    ensures i < |ds| && ds[i].acked && ds[i].block.writeId == id
  {
    var n := |ds| - 1;
    if ds[n].acked && ds[n].block.writeId == id { i := n; } else { i := AckedAt(ds[..n], id); }
  }

  lemma {:induction false} WrittenAt(ds: seq<Done>, i: nat)
    requires i < |ds| && ds[i].written
    ensures ds[i].block in WrittenOf(ds)
  {
    var n := |ds| - 1;
    if i < n { WrittenAt(ds[..n], i); }
  }

  ghost predicate OnDisk(s: Op, id: nat) { exists w :: w in s.hist.written && w.writeId == id }

  /** An acknowledged block is on disk, or still in a registered buffer, or a failure
      status is kept for the master. */
  lemma AckedIsKept(s: Op, id: nat)
    requires Core(s) && id in s.client.oks && id != 0
    ensures OnDisk(s, id) || id in RepliedIds(s.store.Live()) || s.lock.untold != STATUS_OK
  {
    hide StoreOk, JobSafe, HistOk, ThroughOk, ClientOk, WrittenOf, AckedIds, RepliedIds;
    if id !in RepliedIds(s.store.Live()) {
      var i := AckedAt(s.hist.processed, id);
      var d := s.hist.processed[i];
      assert d in s.hist.processed;
      if d.written {
        WrittenAt(s.hist.processed, i);
        assert d.block in s.hist.written;
      }
    }
  }

  lemma {:induction false} WrittenSubseq(ds: seq<Done>)
    ensures Subseq(WrittenOf(ds), Blocks(ds))
  {
    if ds != [] {
      var n := |ds| - 1;
      WrittenSubseq(ds[..n]);
      SubseqSelf([ds[n].block]);
      SubseqConcat(WrittenOf(ds[..n]), Blocks(ds[..n]), if ds[n].written then [ds[n].block] else [], [ds[n].block]);
    }
  }

  lemma SubseqPrefix<T>(xs: seq<T>, ys: seq<T>)
    requires xs <= ys
    ensures Subseq(xs, ys)
  {
    SubseqSelf(xs);
    SubseqConcat(xs, xs, [], ys[|xs|..]);
    assert xs + ys[|xs|..] == ys && xs + [] == xs;
  }

  lemma ProgressPrefix(job: Job, queue: seq<Buf>, bs: seq<Buf>, dropped: seq<Write>)
    requires queue <= bs
    ensures Progress(job, queue) <= Flat(bs) + dropped
  {
    if queue != [] { assert bs[0] == queue[0]; }
  }

  /** Blocks reach the disk in arrival order. */
  lemma WrittenInOrder(s: Op)
    requires Core(s)
    ensures Subseq(s.hist.written, s.hist.arrived)
  {
    hide StoreOk, JobSafe, ThroughOk, AckOk, TellOk, ClientOk, Subseq, Progress, Flat, Distinct;
    var tail := Flat(s.store.Live()) + s.hist.dropped;
    WrittenSubseq(s.hist.processed);
    ProgressPrefix(s.task.job, s.store.queue, s.store.Live(), s.hist.dropped);
    SubseqPrefix(Progress(s.task.job, s.store.queue), tail);
    SubseqConcat(WrittenOf(s.hist.processed), Blocks(s.hist.processed), Progress(s.task.job, s.store.queue), tail);
    assert Blocks(s.hist.processed) + tail == s.hist.arrived;
  }

  // ---------------------------------------------------------------- durability

  lemma EndedEmpty(s: Op)
    requires Core(s) && s.lock.end == Some(STATUS_OK)
    ensures s.store.Live() == [] && s.lock.untold == STATUS_OK
  {}

  /** If the chunk lock ends with OK, every block whose OK the client received is on disk,
      in arrival order. */
  lemma Durability(start: Start, events: seq<Event>, id: nat)
    requires start.Valid()
    requires var s := Reach(start, events);
             s.lock.end == Some(STATUS_OK) && Reply(STATUS_OK, id) in s.client.replies && id != 0
    ensures var s := Reach(start, events);
            OnDisk(s, id) && Subseq(s.hist.written, s.hist.arrived)
  {
    hide Reach;
    var s := Reach(start, events);
    ReachInv(start, events);
    Told(s, id);
    hide Core;
    EndedEmpty(s);
    AckedIsKept(s, id);
    WrittenInOrder(s);
  }

  lemma Told(s: Op, id: nat)
    requires Core(s) && Reply(STATUS_OK, id) in s.client.replies
    ensures id in s.client.oks
  {
    ToldWasLocal(s.client, s.cfg.chain, Speaking(s), id);
  }

  /** Without a chunk lock, and for standard slices, the client receives no OK before the
      block is on disk. */
  lemma WriteThrough(start: Start, events: seq<Event>, id: nat)
    requires start.Valid() && (!start.cfg.locked || start.cfg.standard)
    requires Reply(STATUS_OK, id) in Reach(start, events).client.replies && id != 0
    ensures OnDisk(Reach(start, events), id)
  {
    hide Reach;
    var s := Reach(start, events);
    ReachInv(start, events);
    SameConfig(start, events);
    Told(s, id);
    hide StoreOk, JobSafe, HistOk, ClientOk, WrittenOf, AckedIds, RepliedIds;
    RepliedIdsNone(s.store.Live());
    var i := AckedAt(s.hist.processed, id);
    assert s.hist.processed[i] in s.hist.processed;
    WrittenAt(s.hist.processed, i);
    assert s.hist.processed[i].block in s.hist.written;
  }

  lemma {:induction false} SameConfig(start: Start, events: seq<Event>)
    ensures Reach(start, events).cfg == start.cfg
  {
    hide Apply, Enabled;
    if events != [] {
      var n := |events| - 1;
      SameConfig(start, events[..n]);
      if Enabled(Reach(start, events[..n]), events[n]) { StepConfig(Reach(start, events[..n]), events[n]); }
    }
  }

  lemma StepConfig(s: Op, e: Event)
    requires Enabled(s, e)
    ensures Apply(s, e).cfg == s.cfg
  {}
}
