/** The chunk file during a write operation: what job_write puts on disk is what the run of
    the operation records as written. */
module WriteDisk {
  import opened ChunkTypes
  import opened ChunkFiles
  import opened WriteOp
  import opened WriteInv
  import opened WriteTheorems
  import opened HddReads
  import opened HddWrites
  import JobWrite

  // ---------------------------------------------------------------- along a run

  /** The writes an event puts on disk. */
  function PutBy(s: Op, e: Event): seq<Write>
    requires Enabled(s, e)
  {
    if e.WorkerWrites? then s.store.queue[0].blocks[s.task.job.phase.done..s.task.job.phase.done + e.n] else []
  }

  /** The chunk file after a run that found it as `file`. */
  function FileAfter(sum: Checksum, file: ChunkFile, start: Start, events: seq<Event>): (r: ChunkFile)
    requires file.Whole()
    ensures r.Whole()
  {
    if events == [] then file
    else
      var n := |events| - 1;
      var before, s := FileAfter(sum, file, start, events[..n]), Reach(start, events[..n]);
      if Enabled(s, events[n]) then WrittenAll(sum, before, PutBy(s, events[n])) else before
  }

  lemma WriterRecorded(s: Op, e: Event)
    requires Enabled(s, e) && !e.JobReturns? && !e.CloseRequested? && !e.CleanedUp? && !e.EndRequested?
    ensures Apply(s, e).hist.written == s.hist.written + PutBy(s, e)
  {}

  lemma ReturnRecorded(s: Op, e: Event)
    requires Enabled(s, e) && (e.JobReturns? || e.CloseRequested? || e.CleanedUp? || e.EndRequested?)
    ensures Apply(s, e).hist.written == s.hist.written
  {}

  /** The record of written blocks grows by exactly what an event puts on disk. */
  lemma Recorded(s: Op, e: Event)
    requires Enabled(s, e)
    ensures Apply(s, e).hist.written == s.hist.written + PutBy(s, e)
  {
    if e.JobReturns? || e.CloseRequested? || e.CleanedUp? || e.EndRequested? { ReturnRecorded(s, e); } else { WriterRecorded(s, e); }
  }

  /** The file after a run is the file found with the recorded writes applied in order. */
  lemma {:induction false} FileIsWritten(sum: Checksum, file: ChunkFile, start: Start, events: seq<Event>)
    requires file.Whole()
    ensures FileAfter(sum, file, start, events) == WrittenAll(sum, file, Reach(start, events).hist.written)
  {
    hide WrittenAll, PutBy, Apply, Enabled;
    if events == [] {
      NothingWritten(sum, file, start);
    } else {
      var n := |events| - 1;
      FileIsWritten(sum, file, start, events[..n]);
      var s := Reach(start, events[..n]);
      if Enabled(s, events[n]) {
        Recorded(s, events[n]);
        WrittenAllConcat(sum, file, s.hist.written, PutBy(s, events[n]));
      }
    }
  }

  lemma NothingWritten(sum: Checksum, file: ChunkFile, start: Start)
    requires file.Whole()
    ensures WrittenAll(sum, file, Reach(start, []).hist.written) == file
  {}

  lemma WrittenInBlock(start: Start, events: seq<Event>, w: Write)
    requires start.Valid() && w in Reach(start, events).hist.written
    ensures w.InBlock() && w in Reach(start, events).hist.arrived
  {
    hide Reach;
    ReachInv(start, events);
    var s := Reach(start, events);
    WrittenInOrder(s);
    SubseqIn(s.hist.written, s.hist.arrived, w);
    ArrivedInBlock(s, w);
  }

  lemma ArrivedInBlock(s: Op, w: Write)
    requires Core(s) && w in s.hist.arrived
    ensures w.InBlock()
  {
    hide JobSafe, AckOk, TellOk, ThroughOk, WrittenOk;
  }

  /** Byte by byte: read from disk, the chunk is as the record of the run says. */
  lemma FileByte(sum: Checksum, file: ChunkFile, start: Start, events: seq<Event>, b: nat)
    requires file.Whole() && start.Valid() && b < CHUNK_SIZE
    ensures OnFile(FileAfter(sum, file, start, events))(b) == ByteAt(OnFile(file), Reach(start, events).hist.written, b)
  {
    FileIsWritten(sum, file, start, events);
    hide Reach, FileAfter;
    var written := Reach(start, events).hist.written;
    forall w | w in written ensures w.InBlock() { WrittenInBlock(start, events, w); }
    WrittenAllByte(sum, file, written, b);
  }

  /** A sound chunk is sound after every run whose client sent right checksums. */
  lemma FileSound(sum: Checksum, file: ChunkFile, start: Start, events: seq<Event>)
    requires sum.Combines() && file.Whole() && Sound(sum.crc, file) && start.Valid()
    requires forall w <- Reach(start, events).hist.arrived :: w.crc == sum.crc(w.data)
    ensures Sound(sum.crc, FileAfter(sum, file, start, events))
  {
    FileIsWritten(sum, file, start, events);
    hide Reach, FileAfter;
    var written := Reach(start, events).hist.written;
    forall w | w in written ensures w.crc == sum.crc(w.data) { WrittenInBlock(start, events, w); }
    WrittenAllSound(sum, file, written);
  }

  // ---------------------------------------------------------------- one job

  /** A buffer as it lies in memory: write i at the i-th slot of the block buffer. */
  ghost predicate Laid(b: Buf, crcs: seq<nat>, data: seq<u8>) {
    && |b.blocks| <= |crcs|
    && forall i :: 0 <= i < |b.blocks| ==>
         && crcs[i] == b.blocks[i].crc && i * BLOCK_SIZE + |b.blocks[i].data| <= |data|
         && data[i * BLOCK_SIZE..i * BLOCK_SIZE + |b.blocks[i].data|] == b.blocks[i].data
  }

  lemma LaidWrites(b: Buf, crcs: seq<nat>, data: seq<u8>)
    requires Laid(b, crcs, data)
    ensures var ps := JobWrite.Pieces(Infos(b.blocks), crcs);
            && (forall p <- ps :: JobWrite.Inside(p, data))
            && forall i :: 0 <= i < |b.blocks| ==> JobWrite.WritesOf(ps, data)[i] == b.blocks[i].(writeId := 0)
  {}

  lemma {:induction false} IdsDoNotMatter(init: Content, vs: seq<Write>, ws: seq<Write>, b: nat)
    requires |vs| == |ws| && forall i :: 0 <= i < |ws| ==> vs[i] == ws[i].(writeId := 0)
    ensures ByteAt(init, vs, b) == ByteAt(init, ws, b)
  {
    if ws != [] { IdsDoNotMatter(init, vs[..|vs| - 1], ws[..|ws| - 1], b); }
  }

  lemma {:induction false} ByteAtConcat(init: Content, mid: Content, xs: seq<Write>, ys: seq<Write>, b: nat)
    requires mid(b) == ByteAt(init, xs, b)
    ensures ByteAt(mid, ys, b) == ByteAt(init, xs + ys, b)
  {
    if ys == [] {
      assert xs + ys == xs;
    } else {
      ByteAtConcat(init, mid, xs, ys[..|ys| - 1], b);
      assert (xs + ys)[..|xs + ys| - 1] == xs + ys[..|ys| - 1];
    }
  }

  /** The write job of the operation waits for a worker. */
  predicate JobWaits(s: Op) { !s.flags.cleaned && s.task.job.Job? && s.task.job.kind == WriteJob && s.task.job.phase == Queued && s.store.queue != [] }

  /** The events of a worker that puts the first `done` writes on disk. */
  function JobEvents(done: nat, status: Status): seq<Event> { [WorkerTakes, WorkerWrites(done), WorkerEnds(status)] }

  lemma RunSnoc(s: Op, events: seq<Event>, e: Event)
    requires Enabled(Run(s, events), e)
    ensures Run(s, events + [e]) == Apply(Run(s, events), e)
  {
    hide Apply, Enabled;
    assert (events + [e])[..|events|] == events;
  }

  lemma JobTaken(s: Op)
    requires JobWaits(s)
    ensures Enabled(s, WorkerTakes) && Apply(s, WorkerTakes) == s.(task := s.task.(job := s.task.job.(phase := Running(0))))
  {}

  lemma JobPuts(s: Op, n: nat)
    requires !s.flags.cleaned && s.task.job.Job? && s.task.job.kind == WriteJob && s.task.job.phase == Running(0)
    requires s.store.queue != [] && n <= |s.store.queue[0].blocks|
    ensures Enabled(s, WorkerWrites(n))
    ensures Apply(s, WorkerWrites(n)) ==
            s.(task := s.task.(job := s.task.job.(phase := Running(n))),
               hist := s.hist.(written := s.hist.written + s.store.queue[0].blocks[..n]))
  {
    assert s.store.queue[0].blocks[0..n] == s.store.queue[0].blocks[..n];
  }

  lemma JobEnds(s: Op, n: nat, status: Status)
    requires !s.flags.cleaned && s.task.job.Job? && s.task.job.phase == Running(n) && s.store.queue != []
    requires status == STATUS_OK <==> n == |s.store.queue[0].blocks|
    ensures Enabled(s, WorkerEnds(status))
    ensures Apply(s, WorkerEnds(status)) == s.(task := s.task.(job := s.task.job.(phase := Finished(n, status))))
  {}

  lemma JobRecorded(s: Op, done: nat, status: Status)
    requires JobWaits(s) && done <= |s.store.queue[0].blocks| && (status == STATUS_OK <==> done == |s.store.queue[0].blocks|)
    ensures Run(s, JobEvents(done, status)) ==
            s.(task := s.task.(job := s.task.job.(phase := Finished(done, status))),
               hist := s.hist.(written := s.hist.written + s.store.queue[0].blocks[..done]))
  {
    JobTaken(s);
    var s1 := Apply(s, WorkerTakes);
    JobPuts(s1, done);
    var s2 := Apply(s1, WorkerWrites(done));
    JobEnds(s2, done, status);
    hide Apply, Enabled;
    assert Run(s, []) == s;
    hide Run;
    RunSnoc(s, [], WorkerTakes);
    assert [] + [WorkerTakes] == [WorkerTakes];
    RunSnoc(s, [WorkerTakes], WorkerWrites(done));
    assert [WorkerTakes] + [WorkerWrites(done)] == [WorkerTakes, WorkerWrites(done)];
    assert [WorkerTakes, WorkerWrites(done)] + [WorkerEnds(status)] == JobEvents(done, status);
    RunSnoc(s, [WorkerTakes, WorkerWrites(done)], WorkerEnds(status));
  }

  /** job_write on the front buffer does to the disk what the worker's events record, and
      leaves the statuses the callback is modelled with. */
  method RunFrontJob(s: Op, init: Content, crcs: seq<nat>, data: seq<u8>, disk: Content, answers: nat -> JobWrite.Answer)
    returns (after: Content, applied: seq<Status>, status: Status, done: nat)
    requires JobWaits(s) && Laid(s.store.queue[0], crcs, data)
    requires forall b: nat :: disk(b) == ByteAt(init, s.hist.written, b)
    ensures var s' := Run(s, JobEvents(done, status));
            && done <= |s.store.queue[0].blocks|
            && s' == s.(task := s.task.(job := s.task.job.(phase := Finished(done, status))),
                        hist := s.hist.(written := s.hist.written + s.store.queue[0].blocks[..done]))
            && (forall b: nat :: after(b) == ByteAt(init, s'.hist.written, b))
    ensures |applied| == |s.store.queue[0].blocks| && forall i :: 0 <= i < |applied| ==> applied[i] == StatusOf(done, status, i)
  {
    var front := s.store.queue[0];
    LaidWrites(front, crcs, data);
    ghost var ps := JobWrite.Pieces(Infos(front.blocks), crcs);
    hide JobWrite.Pieces, JobWrite.WritesOf, JobWrite.Inside, Laid, Run, ByteAt;
    after, applied, status, done := JobWrite.JobStatuses(Infos(front.blocks), crcs, data, disk, answers);
    JobRecorded(s, done, status);
    forall b: nat ensures after(b) == ByteAt(init, s.hist.written + front.blocks[..done], b) {
      IdsDoNotMatter(disk, JobWrite.WritesOf(ps, data)[..done], front.blocks[..done], b);
      ByteAtConcat(init, disk, s.hist.written, front.blocks[..done], b);
    }
  }
}
