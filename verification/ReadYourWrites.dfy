/** What a read returns while a write operation is under way. */
module ReadYourWrites {
  import opened ChunkTypes
  import opened WriteOp
  import opened StoreInv
  import opened ClientInv
  import opened WriteInv
  import opened WriteTheorems
  import opened WriteOrder
  import opened ChunkFiles
  import opened ReadPatch
  import opened HddReads
  import opened HddWrites
  import opened WriteDisk

  /** The chunk on disk, given its content before the operation. */
  function DiskNow(s: Op, init: Content): Content { (b: nat) => ByteAt(init, s.hist.written, b) }

  /** Byte b of a read: the disk overlaid with the registered blocks. */
  function ReadNow(s: Op, init: Content, b: nat): u8 {
    ByteAt(DiskNow(s, init), RepliedBlocks(s.store.Live()), b)
  }

  /** The chunk after the first n received blocks. */
  function After(s: Op, init: Content, n: nat, b: nat): u8
    requires n <= |s.hist.arrived|
  {
    ByteAt(init, s.hist.arrived[..n], b)
  }

  /** How many of the first received blocks are acknowledged or processed. */
  function Settled(s: Op): nat { |s.hist.processed| + |RepliedBlocks(s.store.Live())| }

  lemma {:induction false} RepliedBlocksFirst(bs: seq<Buf>)
    requires bs != []
    ensures RepliedBlocks(bs) == bs[0].blocks[..bs[0].replied] + RepliedBlocks(bs[1..])
  {
    var n := |bs| - 1;
    if n == 0 {
      assert bs[..0] == [] && bs[1..] == [];
    } else {
      RepliedBlocksFirst(bs[..n]);
      assert bs[..n][1..] == bs[1..][..n - 1];
      var first, middle, last := bs[0].blocks[..bs[0].replied], RepliedBlocks(bs[1..n]), bs[n].blocks[..bs[n].replied];
      assert bs[1..][..n - 1] == bs[1..n] && bs[1..][n - 1] == bs[n];
      assert first + (middle + last) == first + middle + last;
    }
  }

  lemma {:induction false} NoRepliedBlocks(bs: seq<Buf>)
    requires NoneReplied(bs)
    ensures RepliedBlocks(bs) == []
  {
    if bs != [] { NoRepliedBlocks(bs[..|bs| - 1]); }
  }

  /** The acknowledged blocks in buffers come first among the blocks in buffers. */
  lemma {:induction false} RepliedBlocksPrefix(bs: seq<Buf>)
    requires BufsOk(bs)
    ensures RepliedBlocks(bs) <= Flat(bs)
  {
    hide RepliedBlocks, BufOk, DistinctBufs;
    if bs == [] {
      NoRepliedBlocks(bs);
    } else {
      var b, rest := bs[0], bs[1..];
      RepliedBlocksFirst(bs);
      TailBufsOk(bs);
      if b.replied < |b.blocks| {
        assert forall j :: 0 < j < |bs| && bs[j].replied > 0 ==> bs[0].AllReplied();
        hide BufsOk;
        assert NoneReplied(rest);
        NoRepliedBlocks(rest);
      } else {
        hide BufsOk;
        assert b.blocks[..b.replied] == b.blocks;
        RepliedBlocksPrefix(rest);
      }
    }
  }

  /** Re-applying `ys` after `xs + ys + zs` gives the chunk after `xs + ys` or after all of it. */
  lemma OlderOrNewer(init: Content, mid: Content, xs: seq<Write>, ys: seq<Write>, zs: seq<Write>, b: nat)
    requires mid(b) == ByteAt(init, xs + ys + zs, b)
    ensures ByteAt(mid, ys, b) == ByteAt(init, xs + ys, b) || ByteAt(mid, ys, b) == ByteAt(init, xs + ys + zs, b)
  {
    assert [] + ys == ys;
    if Touches(ys, b) {
      ByteAtTouched(init, init, xs, ys, b);
      ByteAtTouched(mid, init, [], ys, b);
    } else {
      ByteAtUntouched(mid, [], ys, b);
    }
  }

  lemma {:induction false} BlocksLength(ds: seq<Done>)
    ensures |Blocks(ds)| == |ds|
  {
    if ds != [] { BlocksLength(ds[..|ds| - 1]); }
  }

  /** The parts a read depends on: processed blocks, those of the running job, and the
      acknowledged ones. */
  lemma ReadParts(s: Op)
    requires Core(s) && AllWritten(s.hist.processed)
    ensures var xs, done, acked := Blocks(s.hist.processed), Progress(s.task.job, s.store.queue), RepliedBlocks(s.store.Live());
            && s.hist.written == xs + done && Settled(s) == |xs| + |acked|
            && xs + acked <= s.hist.arrived && xs + done <= s.hist.arrived
  {
    var bs := s.store.Live();
    AllWrittenBlocks(s.hist.processed);
    BlocksLength(s.hist.processed);
    ReadBufs(s);
    RepliedBlocksPrefix(bs);
    ProgressPrefix(s.task.job, s.store.queue, bs, s.hist.dropped);
    ReadArrived(s);
    hide StoreOk, JobSafe, AckOk, TellOk, ThroughOk, ClientOk, BufsOk, Flat, RepliedBlocks, Progress, HistOk;
    PrefixWithin(Blocks(s.hist.processed), RepliedBlocks(bs), Flat(bs) + s.hist.dropped);
    PrefixWithin(Blocks(s.hist.processed), Progress(s.task.job, s.store.queue), Flat(bs) + s.hist.dropped);
  }

  lemma ReadBufs(s: Op)
    requires Core(s)
    ensures BufsOk(s.store.Live())
  {}

  lemma ReadArrived(s: Op)
    requires Core(s)
    ensures s.hist.arrived == Blocks(s.hist.processed) + (Flat(s.store.Live()) + s.hist.dropped)
  {
    hide StoreOk, JobSafe, AckOk, TellOk, ThroughOk, ClientOk, Flat, Blocks, Distinct;
    var xs, ys, zs := Blocks(s.hist.processed), Flat(s.store.Live()), s.hist.dropped;
    assert xs + ys + zs == xs + (ys + zs);
  }

  lemma PrefixWithin(xs: seq<Write>, ys: seq<Write>, zs: seq<Write>)
    requires ys <= zs
    ensures xs + ys <= xs + zs
  {}

  /** Overlaying `acked` on a disk that holds `xs` and `done`. */
  lemma Overlaid(init: Content, mid: Content, all: seq<Write>, xs: seq<Write>, done: seq<Write>, acked: seq<Write>, b: nat)
    returns (n: nat)
    requires xs + acked <= all && xs + done <= all && mid(b) == ByteAt(init, xs + done, b)
    ensures |xs| + |acked| <= n <= |all| && ByteAt(mid, acked, b) == ByteAt(init, all[..n], b)
    ensures |done| <= |acked| ==> n == |xs| + |acked|
  {
    hide ByteAt;
    PrefixIs(all, xs + acked);
    PrefixIs(all, xs + done);
    if |done| <= |acked| {
      n := |xs| + |acked|;
      var zs := acked[|done|..];
      SharedPrefix(all, xs, done, acked);
      ByteAtReapply(init, mid, xs, done, zs, b);
    } else {
      var zs := done[|acked|..];
      SharedPrefix(all, xs, acked, done);
      OlderOrNewer(init, mid, xs, acked, zs, b);
      n := if ByteAt(mid, acked, b) == ByteAt(init, xs + acked, b) then |xs| + |acked| else |xs| + |done|;
    }
  }

  lemma PrefixIs(all: seq<Write>, first: seq<Write>)
    requires first <= all
    ensures all[..|first|] == first
  {}

  lemma SharedPrefix(all: seq<Write>, xs: seq<Write>, short: seq<Write>, long: seq<Write>)
    requires xs + short <= all && xs + long <= all && |short| <= |long|
    ensures long == short + long[|short|..] && xs + short + long[|short|..] == xs + long
  {
    forall i | 0 <= i < |short| ensures short[i] == long[i] {
      assert (xs + short)[|xs| + i] == all[|xs| + i] == (xs + long)[|xs| + i];
    }
  }

  /** While no write has failed, a read returns the chunk after all acknowledged blocks, or
      after some later ones still in flight; exactly the former if the disk is not ahead. */
  lemma ReadByte(s: Op, init: Content, b: nat) returns (n: nat)
    requires Core(s) && AllWritten(s.hist.processed)
    ensures Settled(s) <= n <= |s.hist.arrived| && ReadNow(s, init, b) == After(s, init, n, b)
    ensures |s.hist.written| <= Settled(s) ==> n == Settled(s)
  {
    ReadParts(s);
    hide Core, Progress, Blocks, RepliedBlocks, ByteAt;
    n := Overlaid(init, DiskNow(s, init), s.hist.arrived, Blocks(s.hist.processed),
                  Progress(s.task.job, s.store.queue), RepliedBlocks(s.store.Live()), b);
  }

  // ---------------------------------------------------------------- what was acknowledged

  lemma {:induction false} RepliedIdsOf(bs: seq<Buf>)
    ensures RepliedIds(bs) == Ids(RepliedBlocks(bs))
  {
    if bs != [] {
      RepliedBlocksFirst(bs);
      IdsConcat(bs[0].blocks[..bs[0].replied], RepliedBlocks(bs[1..]));
      RepliedIdsOf(bs[1..]);
    }
  }

  lemma {:induction false} AckedAmong(ds: seq<Done>, id: nat)
    requires id in AckedIds(ds)
    ensures id in Ids(Blocks(ds))
  {
    var n := |ds| - 1;
    IdsConcat(Blocks(ds[..n]), [ds[n].block]);
    assert Ids([ds[n].block])[0] == ds[n].block.writeId;
    if id in AckedIds(ds[..n]) { AckedAmong(ds[..n], id); }
  }

  /** Every acknowledged block is among the first Settled(s) received ones. */
  lemma AckedWithin(s: Op, id: nat)
    requires Core(s) && AllWritten(s.hist.processed) && id in s.client.oks
    ensures Settled(s) <= |s.hist.arrived| && (id in s.hist.greeting || id in Ids(s.hist.arrived[..Settled(s)]))
  {
    ReadParts(s);
    var bs, p, acked := s.store.Live(), s.hist.processed, RepliedBlocks(s.store.Live());
    RepliedIdsOf(bs);
    IdsConcat(Blocks(p), acked);
    AckedParts(s, id);
    if id in AckedIds(p) { AckedAmong(p, id); }
    hide Core, RepliedBlocks, Blocks, AckedIds, RepliedIds, Ids, Progress;
    assert s.hist.arrived[..Settled(s)] == Blocks(p) + acked;
  }

  lemma AckedParts(s: Op, id: nat)
    requires Core(s) && id in s.client.oks
    ensures id in s.hist.greeting || id in AckedIds(s.hist.processed) || id in RepliedIds(s.store.Live())
  {
    hide StoreOk, JobSafe, HistOk, TellOk, ThroughOk, ClientOk, WrittenOk, AckedIds, RepliedIds;
  }

  lemma {:induction false} IdsPrefix(ws: seq<Write>, m: nat, n: nat, id: nat)
    requires m <= n <= |ws| && id in Ids(ws[..m])
    ensures id in Ids(ws[..n])
  {
    var k :| 0 <= k < m && Ids(ws[..m])[k] == id;
    assert Ids(ws[..n])[k] == id;
  }

  /** Every read during a run without failed writes: it shows the chunk after some number of
      received blocks that includes every acknowledged one. */
  lemma ReadsAcknowledged(start: Start, events: seq<Event>, init: Content, b: nat) returns (n: nat)
    requires start.Valid() && AllWritten(Reach(start, events).hist.processed)
    ensures var s := Reach(start, events);
            && Settled(s) <= n <= |s.hist.arrived| && ReadNow(s, init, b) == After(s, init, n, b)
            && (|s.hist.written| <= Settled(s) ==> n == Settled(s))
            && (forall id <- s.client.oks :: id in s.hist.greeting || id in Ids(s.hist.arrived[..n]))
  {
    hide Reach;
    ReachInv(start, events);
    hide Core, Ids, Settled, ReadNow, After, AllWritten;
    var s := Reach(start, events);
    n := ReadByte(s, init, b);
    forall id | id in s.client.oks ensures id in s.hist.greeting || id in Ids(s.hist.arrived[..n]) {
      AckedWithin(s, id);
      if id !in s.hist.greeting { IdsPrefix(s.hist.arrived, Settled(s), n, id); }
    }
  }

  // ---------------------------------------------------------------- what hddRead finds

  /** The buffer a registry entry refers to. */
  function Referred(bs: seq<Buf>, id: nat): Option<Buf> {
    if bs == [] then None else if bs[0].id == id then Some(bs[0]) else Referred(bs[1..], id)
  }

  lemma {:induction false} ReferredAt(bs: seq<Buf>, i: nat)
    requires DistinctBufs(bs) && i < |bs|
    ensures Referred(bs, bs[i].id) == Some(bs[i])
  {
    if i > 0 {
      assert bs[0].id != bs[i].id;
      ReferredAt(bs[1..], i - 1);
    }
  }

  /** What hddRead walks: each entry's snapshot beside the buffer it refers to. */
  ghost predicate Walks(st: Store, walk: seq<Registered>) {
    && |walk| == |st.registry|
    && forall i :: 0 <= i < |walk| ==>
         walk[i].snapshot == st.registry[i].snapshot && Referred(st.Live(), st.registry[i].bufId) == Some(walk[i].buffer)
  }

  /** The registry of some buffers: the entries of a first part of them, the rest unreplied. */
  lemma {:induction false} RegistryFirst(bs: seq<Buf>)
    requires BufsOk(bs)
    ensures var n := |RegistryOf(bs)|;
            && n <= |bs| && (forall i :: 0 <= i < n ==> RegistryOf(bs)[i] == EntryOf(bs[i]))
            && NoneReplied(bs[n..])
  {
    if bs != [] {
      if bs[0].replied > 0 {
        TailBufsOk(bs);
        RegistryFirst(bs[1..]);
        hide BufsOk;
        assert bs[1..][|RegistryOf(bs[1..])|..] == bs[|RegistryOf(bs)|..];
      } else {
        assert forall j :: 0 < j < |bs| && bs[j].replied > 0 ==> bs[0].AllReplied();
        assert BufOk(bs[0]) && bs[0].Count() > 0;
        assert bs[0..] == bs;
      }
    }
  }

  lemma {:induction false} RepliedBlocksConcat(xs: seq<Buf>, ys: seq<Buf>)
    requires NoneReplied(ys)
    ensures RepliedBlocks(xs + ys) == RepliedBlocks(xs)
  {
    if ys == [] {
      assert xs + ys == xs;
    } else {
      var n := |ys| - 1;
      assert (xs + ys)[..|xs| + n] == xs + ys[..n];
      RepliedBlocksConcat(xs, ys[..n]);
    }
  }

  lemma FlatHas(bs: seq<Buf>, i: nat, k: nat)
    requires i < |bs| && k < |bs[i].blocks|
    ensures bs[i].blocks[k] in Flat(bs)
  {
    if i > 0 { FlatHas(bs[1..], i - 1, k); }
  }

  lemma BlockInBlock(s: Op, i: nat, k: nat)
    requires Core(s) && i < |s.store.Live()| && k < |s.store.Live()[i].blocks|
    ensures s.store.Live()[i].blocks[k].InBlock()
  {
    ReadArrived(s);
    FlatHas(s.store.Live(), i, k);
    hide StoreOk, JobSafe, AckOk, TellOk, ThroughOk, ClientOk, Flat, Blocks, Distinct;
    assert s.store.Live()[i].blocks[k] in s.hist.arrived;
  }

  /** Walking the registry meets exactly the acknowledged blocks still in buffers, in order,
      each described by its snapshot. */
  lemma WalkFinds(s: Op, walk: seq<Registered>)
    requires Core(s) && Walks(s.store, walk)
    ensures RepliedBlocks(Buffers(walk)) == RepliedBlocks(s.store.Live())
    ensures forall r <- walk :: Described(r)
  {
    var bs, n := s.store.Live(), |walk|;
    ReadBufs(s);
    RegistryFirst(bs);
    WalkRegistry(s);
    forall i | 0 <= i < n ensures walk[i].buffer == bs[i] && Described(walk[i]) {
      ReferredAt(bs, i);
      forall k | 0 <= k < bs[i].replied ensures bs[i].blocks[k].InBlock() { BlockInBlock(s, i, k); }
    }
    hide Core, RegistryOf, Described;
    assert Buffers(walk) == bs[..n] && bs == bs[..n] + bs[n..];
    RepliedBlocksConcat(bs[..n], bs[n..]);
  }

  lemma WalkRegistry(s: Op)
    requires Core(s)
    ensures s.store.registry == RegistryOf(s.store.Live())
  {
    hide JobSafe, AckOk, TellOk, ThroughOk, ClientOk, HistOk, BufsOk, RegistryOf;
  }

  /** hddRead's answer during a run without failed writes, from the chunk file and the registry
      the run has left: the chunk after every acknowledged block or more. */
  lemma HddReadAcknowledged(sum: Checksum, file: ChunkFile, start: Start, events: seq<Event>, walk: seq<Registered>, b: nat)
    returns (n: nat)
    requires file.Whole() && b < CHUNK_SIZE
    requires start.Valid() && AllWritten(Reach(start, events).hist.processed)
    requires Walks(Reach(start, events).store, walk)
    ensures forall r <- walk :: Described(r)
    ensures var s := Reach(start, events);
            && Settled(s) <= n <= |s.hist.arrived|
            && (forall id <- s.client.oks :: id in s.hist.greeting || id in Ids(s.hist.arrived[..n]))
            && ByteAt(OnFile(FileAfter(sum, file, start, events)), RepliedBlocks(Buffers(walk)), b) == After(s, OnFile(file), n, b)
  {
    hide Reach, Core, AllWritten, Walks, Described, Settled, After, RepliedBlocks, Ids, FileAfter;
    var s := Reach(start, events);
    ReachInv(start, events);
    WalkFinds(s, walk);
    FileByte(sum, file, start, events, b);
    n := ReadsAcknowledged(start, events, OnFile(file), b);
    SameBase(OnFile(FileAfter(sum, file, start, events)), DiskNow(s, OnFile(file)), RepliedBlocks(s.store.Live()), b);
  }

  /** x is byte b of the chunk after some number of received blocks that includes every
      acknowledged one. */
  ghost predicate Current(s: Op, init: Content, b: nat, x: u8) {
    exists n :: Settled(s) <= n <= |s.hist.arrived| && x == After(s, init, n, b) &&
      forall id <- s.client.oks :: id in s.hist.greeting || id in Ids(s.hist.arrived[..n])
  }

  lemma ByteCurrent(sum: Checksum, file: ChunkFile, start: Start, events: seq<Event>, walk: seq<Registered>, b: nat)
    requires file.Whole() && b < CHUNK_SIZE
    requires start.Valid() && AllWritten(Reach(start, events).hist.processed)
    requires Walks(Reach(start, events).store, walk)
    ensures Current(Reach(start, events), OnFile(file), b,
                    ByteAt(OnFile(FileAfter(sum, file, start, events)), RepliedBlocks(Buffers(walk)), b))
  {
    hide Reach, AllWritten, Walks, Settled, After, RepliedBlocks, Ids, FileAfter, Described, ByteAt, OnFile;
    var n := HddReadAcknowledged(sum, file, start, events, walk, b);
  }

  /** The write job has stopped at a failed write. */
  predicate JobFailed(job: Job) { job.Job? && job.kind == WriteJob && job.phase.Finished? && job.phase.status != STATUS_OK }

  /** hddRead in the middle of a write operation, on the file and registry its run has left.
      While no failed write was processed every byte it returns is current. From a sound chunk,
      with right checksums from the client and no failed job waiting for its callback either, a
      read within the chunk succeeds and its CRCs match. */
  method ReadDuring(sum: Checksum, file: ChunkFile, start: Start, events: seq<Event>, walk: seq<Registered>,
                    version: nat, offset: nat, size: nat, checkCrc: bool, readable: nat -> bool)
    returns (status: Status, data: array<u8>, crcs: array<nat>)
    requires file.Whole() && start.Valid() && AllWritten(Reach(start, events).hist.processed)
    requires Walks(Reach(start, events).store, walk)
    ensures data.Length == size
    ensures status == STATUS_OK && ReadShape(offset, size) && offset + size <= CHUNK_SIZE ==>
              forall i :: 0 <= i < size ==> Current(Reach(start, events), OnFile(file), offset + i, data[i])
    ensures ReadShape(offset, size) && offset + size <= CHUNK_SIZE && (version == 0 || version == FileAfter(sum, file, start, events).version) &&
            sum.Combines() && Sound(sum.crc, file) && (forall w <- Reach(start, events).hist.arrived :: w.crc == sum.crc(w.data)) &&
            (forall b :: readable(b)) && !JobFailed(Reach(start, events).task.job) ==>
              status == STATUS_OK && CrcsMatch(sum.crc, data[..], crcs[..])
  {
    hide Reach, AllWritten, Walks, FileAfter, Current, OnFile, RepliedBlocks, Described, Sound, ReadShape, CrcsMatch, ByteAt, Fetched, PatchedBy, Trusted;
    WalkDescribed(start, events, walk);
    var now := FileAfter(sum, file, start, events);
    status, data, crcs := HddRead(sum.crc, Some(now), version, offset, size, walk, checkCrc, readable);
    if status == STATUS_OK && ReadShape(offset, size) && offset + size <= CHUNK_SIZE {
      forall i | 0 <= i < size ensures Current(Reach(start, events), OnFile(file), offset + i, data[i]) {
        ByteCurrent(sum, file, start, events, walk, offset + i);
      }
    }
    if ReadShape(offset, size) && sum.Combines() && Sound(sum.crc, file) &&
       forall w <- Reach(start, events).hist.arrived :: w.crc == sum.crc(w.data)
    {
      FileSound(sum, file, start, events);
      SoundTrusted(sum.crc, now, offset, size, checkCrc);
    }
  }

  lemma WalkDescribed(start: Start, events: seq<Event>, walk: seq<Registered>)
    requires start.Valid() && Walks(Reach(start, events).store, walk)
    ensures forall r <- walk :: Described(r)
  {
    hide Reach, Core, Walks, Described, RepliedBlocks;
    ReachInv(start, events);
    WalkFinds(Reach(start, events), walk);
  }

  lemma SoundTrusted(crc: seq<u8> -> nat, c: ChunkFile, offset: nat, size: nat, checkCrc: bool)
    requires Sound(crc, c) && ReadShape(offset, size)
    ensures Trusted(crc, c, offset, checkCrc || size < BLOCK_SIZE)
  {}

  lemma {:induction false} SameBase(one: Content, two: Content, ws: seq<Write>, b: nat)
    requires one(b) == two(b)
    ensures ByteAt(one, ws, b) == ByteAt(two, ws, b)
  {
    if ws != [] { SameBase(one, two, ws[..|ws| - 1], b); }
  }

  // ---------------------------------------------------------------- after the lock has ended

  lemma OnDiskId(s: Op, id: nat)
    requires OnDisk(s, id)
    ensures id in Ids(s.hist.written)
  {
    var w :| w in s.hist.written && w.writeId == id;
    var k :| 0 <= k < |s.hist.written| && s.hist.written[k] == w;
    assert Ids(s.hist.written)[k] == id;
  }

  /** Once the lock has ended with OK and no error was reported, the chunk on disk is that
      after the first received blocks, up to and beyond the last one the client was told OK. */
  lemma EndedContent(start: Start, events: seq<Event>, init: Content, b: nat)
    requires start.Valid()
    requires Reach(start, events).lock.end == Some(STATUS_OK) && !Reach(start, events).flags.errored
    ensures var s := Reach(start, events);
            var n := |s.hist.written|;
            && n <= |s.hist.arrived| && DiskNow(s, init)(b) == After(s, init, n, b)
            && (forall r <- s.client.replies :: r.status == STATUS_OK && r.writeId != 0 ==> r.writeId in Ids(s.hist.arrived[..n]))
  {
    hide Reach, OnDisk, Ids, ByteAt, Subseq;
    var s := Reach(start, events);
    var n := |s.hist.written|;
    DurablePrefix(start, events);
    assert s.hist.arrived[..n] == s.hist.written;
    forall r | r in s.client.replies && r.status == STATUS_OK && r.writeId != 0 ensures r.writeId in Ids(s.hist.written) {
      assert Reply(STATUS_OK, r.writeId) == r;
      Durability(start, events, r.writeId);
      OnDiskId(s, r.writeId);
    }
  }
}
