/** Writing blocks to a chunk on a conventional disk: its bytes and its table of CRCs. */
module HddWrites {
  import opened ChunkTypes
  import opened ChunkFiles
  import opened HddReads

  /** mycrc32 and mycrc32_combine. */
  datatype Checksum = Checksum(crc: seq<u8> -> nat, combine: (nat, nat, nat) -> nat) {
    /** The checksum of a concatenation follows from those of its parts. */
    ghost predicate Combines() { forall x: seq<u8>, y: seq<u8> {:trigger crc(x + y)} :: crc(x + y) == combine(crc(x), crc(y), |y|) }
  }

  /** The bytes of a file after `bytes` were put at `at`. */
  function Overwritten(data: seq<u8>, at: nat, bytes: seq<u8>): (r: seq<u8>)
    requires at + |bytes| <= |data|
    ensures |r| == |data|
    ensures forall i :: 0 <= i < |r| ==> r[i] == if at <= i < at + |bytes| then bytes[i - at] else data[i]
  {
    data[..at] + bytes + data[at + |bytes|..]
  }

  /** The chunk with at least n blocks, those added being empty. */
  function Grown(sum: Checksum, c: ChunkFile, n: nat): (r: ChunkFile)
    requires c.Whole() && n <= BLOCKS_IN_CHUNK
    ensures r.Whole() && c.blocks <= r.blocks && n <= r.blocks
  {
    if n <= c.blocks then c
    else c.(blocks := n, data := Resize(c.data, n * BLOCK_SIZE), crcs := Emptied(sum.crc, c.crcs, c.blocks, n))
  }

  /** The checksum the code enters for a block after `w` was put in it. */
  function EntryFor(sum: Checksum, block: seq<u8>, w: Write): nat
    requires |block| == BLOCK_SIZE && w.InBlock()
  {
    var end := w.offset + |w.data|;
    if w.offset == 0 && end == BLOCK_SIZE then w.crc
    else if w.offset == 0 then sum.combine(w.crc, sum.crc(block[end..]), BLOCK_SIZE - end)
    else
      var first := sum.combine(sum.crc(block[..w.offset]), w.crc, |w.data|);
      if end < BLOCK_SIZE then sum.combine(first, sum.crc(block[end..]), BLOCK_SIZE - end) else first
  }

  lemma EntryRight(sum: Checksum, block: seq<u8>, w: Write)
    requires sum.Combines() && |block| == BLOCK_SIZE && w.InBlock() && w.crc == sum.crc(w.data)
    ensures EntryFor(sum, block, w) == sum.crc(Overwritten(block, w.offset, w.data))
  {
    var end := w.offset + |w.data|;
    var pre, post := block[..w.offset], block[end..];
    var all := Overwritten(block, w.offset, w.data);
    hide Overwritten;
    assert sum.crc(pre + w.data) == sum.combine(sum.crc(pre), w.crc, |w.data|);
    assert sum.crc(pre + w.data + post) == sum.combine(sum.crc(pre + w.data), sum.crc(post), |post|);
    assert all == pre + w.data + post;
    assert w.offset == 0 ==> pre + w.data == w.data;
    assert end == BLOCK_SIZE ==> pre + w.data + post == pre + w.data;
  }

  /** The chunk after `w` reached the disk. */
  function Written(sum: Checksum, c: ChunkFile, w: Write): (r: ChunkFile)
    requires c.Whole() && w.InBlock() && w.blockNum < BLOCKS_IN_CHUNK
    ensures r.Whole()
  {
    var g := Grown(sum, c, w.blockNum + 1);
    FitsIn(w, g.blocks);
    g.(data := Overwritten(g.data, w.Start(), w.data),
       crcs := g.crcs[w.blockNum := EntryFor(sum, Block(g.data, w.blockNum), w)])
  }

  lemma FitsIn(w: Write, blocks: nat)
    requires w.InBlock() && w.blockNum < blocks
    ensures w.Start() + |w.data| <= (w.blockNum + 1) * BLOCK_SIZE <= blocks * BLOCK_SIZE
  {}

  lemma GrownByte(sum: Checksum, c: ChunkFile, n: nat, b: nat)
    requires c.Whole() && n <= BLOCKS_IN_CHUNK
    ensures DiskByte(Grown(sum, c, n), b) == DiskByte(c, b)
  {}

  /** Read back, the bytes of the write are there and all others are as before. */
  lemma WrittenByte(sum: Checksum, c: ChunkFile, w: Write, b: nat)
    requires c.Whole() && w.InBlock() && w.blockNum < BLOCKS_IN_CHUNK
    ensures OnFile(Written(sum, c, w))(b) == if w.Covers(b) then w.data[b - w.Start()] else OnFile(c)(b)
  {
    GrownByte(sum, c, w.blockNum + 1, b);
    FitsIn(w, Grown(sum, c, w.blockNum + 1).blocks);
    hide Grown, EntryFor;
  }

  lemma GrownTable(sum: Checksum, c: ChunkFile, n: nat)
    requires c.Whole() && n <= BLOCKS_IN_CHUNK && TableOk(sum.crc, c.data, c.blocks, c.crcs)
    ensures var g := Grown(sum, c, n); TableOk(sum.crc, g.data, g.blocks, g.crcs)
    ensures var g := Grown(sum, c, n); TailEmpty(sum.crc, c.blocks, c.crcs) ==> TailEmpty(sum.crc, g.blocks, g.crcs)
  {
    var g := Grown(sum, c, n);
    forall k | 0 <= k < g.blocks ensures g.crcs[k] == sum.crc(Block(g.data, k)) {
      if k < c.blocks {
        assert Block(g.data, k) == Block(c.data, k);
      } else {
        assert Block(g.data, k) == Zeros(BLOCK_SIZE);
      }
    }
  }

  lemma OtherBlock(data: seq<u8>, w: Write, k: nat)
    requires w.InBlock() && w.Start() + |w.data| <= |data| && (k + 1) * BLOCK_SIZE <= |data| && k != w.blockNum
    ensures Block(Overwritten(data, w.Start(), w.data), k) == Block(data, k)
  {
    assert k < w.blockNum ==> (k + 1) * BLOCK_SIZE <= w.Start();
    assert k > w.blockNum ==> w.Start() + |w.data| <= k * BLOCK_SIZE;
  }

  lemma ItsBlock(data: seq<u8>, w: Write)
    requires w.InBlock() && (w.blockNum + 1) * BLOCK_SIZE <= |data|
    ensures Block(Overwritten(data, w.Start(), w.data), w.blockNum) == Overwritten(Block(data, w.blockNum), w.offset, w.data)
  {}

  /** A write with a right checksum keeps the table matching, and the tail empty. */
  lemma WrittenTable(sum: Checksum, c: ChunkFile, w: Write)
    requires sum.Combines() && c.Whole() && TableOk(sum.crc, c.data, c.blocks, c.crcs)
    requires w.InBlock() && w.blockNum < BLOCKS_IN_CHUNK && w.crc == sum.crc(w.data)
    ensures var r := Written(sum, c, w); TableOk(sum.crc, r.data, r.blocks, r.crcs)
    ensures var r := Written(sum, c, w); TailEmpty(sum.crc, c.blocks, c.crcs) ==> TailEmpty(sum.crc, r.blocks, r.crcs)
  {
    var g, r := Grown(sum, c, w.blockNum + 1), Written(sum, c, w);
    GrownTable(sum, c, w.blockNum + 1);
    FitsIn(w, g.blocks);
    hide Grown, EntryFor, Overwritten, Block;
    forall k | 0 <= k < r.blocks ensures r.crcs[k] == sum.crc(Block(r.data, k)) {
      if k == w.blockNum {
        ItsBlock(g.data, w);
        EntryRight(sum, Block(g.data, k), w);
      } else {
        OtherBlock(g.data, w, k);
      }
    }
  }

  // ---------------------------------------------------------------- writeChunkBlock

  /** What the disk does: whether the block can be read, the file extended, the data put. */
  datatype Disk = Disk(readable: bool, grows: bool, stores: bool)

  predicate FullBlock(w: Write) { w.offset == 0 && |w.data| == BLOCK_SIZE }

  /** The loop that enters the checksum of an empty block for blocks skipped. */
  method FillSkipped(sum: Checksum, crcs: seq<nat>, from: nat, to: nat) returns (filled: seq<nat>)
    requires from <= to <= |crcs|
    ensures filled == Emptied(sum.crc, crcs, from, to)
  {
    filled := crcs;
    for i := from to to
      invariant |filled| == |crcs|
      invariant forall k :: 0 <= k < |crcs| ==> filled[k] == if from <= k < i then EmptyCrc(sum.crc) else crcs[k]
    {
      filled := filled[i := EmptyCrc(sum.crc)];
    }
  }

  /** Checking a block against the table piece by piece is checking it whole. */
  lemma CheckedWhole(sum: Checksum, block: seq<u8>, w: Write)
    requires sum.Combines() && |block| == BLOCK_SIZE && w.InBlock()
    ensures var part := block[w.offset..w.offset + |w.data|];
            EntryFor(sum, block, w.(data := part, crc := sum.crc(part))) == sum.crc(block)
  {
    var part := block[w.offset..w.offset + |w.data|];
    EntryRight(sum, block, w.(data := part, crc := sum.crc(part)));
    assert Overwritten(block, w.offset, part) == block;
  }

  lemma GrownBy(sum: Checksum, c: ChunkFile, w: Write)
    requires c.Whole() && w.InBlock() && c.blocks <= w.blockNum < BLOCKS_IN_CHUNK
    ensures var data := Resize(c.data, (w.blockNum + 1) * BLOCK_SIZE);
            && w.Start() + |w.data| <= |data| && Block(data, w.blockNum) == Zeros(BLOCK_SIZE)
            && Written(sum, c, w) ==
               ChunkFile(c.version, w.blockNum + 1, Overwritten(data, w.Start(), w.data),
                         Emptied(sum.crc, c.crcs, c.blocks, w.blockNum)[w.blockNum := EntryFor(sum, Zeros(BLOCK_SIZE), w)])
  {
    FitsIn(w, w.blockNum + 1);
    var one, two := Written(sum, c, w).crcs, Emptied(sum.crc, c.crcs, c.blocks, w.blockNum)[w.blockNum := EntryFor(sum, Zeros(BLOCK_SIZE), w)];
    assert Block(Resize(c.data, (w.blockNum + 1) * BLOCK_SIZE), w.blockNum) == Zeros(BLOCK_SIZE);
    hide EntryFor, Overwritten, Block;
    assert one == two;
  }

  /** CmrDisk::writeChunkBlock: exactly when it answers what; on OK the write is on disk with
      its checksum in the table, otherwise no byte read back has changed. A write that is refused
      leaves the chunk as it is. */
  method WriteChunkBlock(sum: Checksum, c: ChunkFile, version: nat, maxBlocks: nat, w: Write, check: bool, disk: Disk)
    returns (status: Status, after: ChunkFile)
    requires sum.Combines() && c.Whole() && maxBlocks <= BLOCKS_IN_CHUNK
    ensures status == if version > 0 && version != c.version then ERROR_WRONGVERSION
                      else if w.blockNum >= maxBlocks then ERROR_BNUMTOOBIG
                      else if |w.data| > BLOCK_SIZE then ERROR_WRONGSIZE
                      else if w.offset >= BLOCK_SIZE || w.offset + |w.data| > BLOCK_SIZE then ERROR_WRONGOFFSET
                      else if check && w.crc != sum.crc(w.data) then ERROR_CRC
                      else if |w.data| < BLOCK_SIZE && w.blockNum < c.blocks && !disk.readable then ERROR_IO
                      else if |w.data| < BLOCK_SIZE && w.blockNum < c.blocks && sum.crc(Block(c.data, w.blockNum)) != c.crcs[w.blockNum]
                      then ERROR_CRC
                      else if |w.data| < BLOCK_SIZE && w.blockNum >= c.blocks && !disk.grows then ERROR_IO
                      else if !disk.stores then ERROR_IO
                      else STATUS_OK
    ensures status == STATUS_OK ==> w.InBlock() && w.blockNum < BLOCKS_IN_CHUNK && after == Written(sum, c, w)
    ensures (status != STATUS_OK && status != ERROR_IO) || (status == ERROR_IO && w.blockNum < c.blocks) ==> after == c
    ensures status != STATUS_OK ==> forall b: nat :: OnFile(after)(b) == OnFile(c)(b)
  {
    hide EntryFor, Overwritten;
    after := c;
    if c.version != version && version > 0 { return ERROR_WRONGVERSION, c; }
    if w.blockNum >= maxBlocks { return ERROR_BNUMTOOBIG, c; }
    if |w.data| > BLOCK_SIZE { return ERROR_WRONGSIZE, c; }
    if w.offset >= BLOCK_SIZE || w.offset + |w.data| > BLOCK_SIZE { return ERROR_WRONGOFFSET, c; }
    if check {
      var right := w.crc == sum.crc(w.data);
      if !right { return ERROR_CRC, c; }
    }
    status := STATUS_OK;
    var entry := w.crc;
    if w.blockNum >= c.blocks {
      GrownBy(sum, c, w);
      var crcs := FillSkipped(sum, c.crcs, c.blocks, w.blockNum);
      var data := c.data;
      if FullBlock(w) {
        FullEntry(sum, Zeros(BLOCK_SIZE), w);
      } else {
        if !disk.grows { return ERROR_IO, c; }
        data := Resize(c.data, (w.blockNum + 1) * BLOCK_SIZE);
        entry := EntryFor(sum, Zeros(BLOCK_SIZE), w);
      }
      after := ChunkFile(c.version, w.blockNum + 1, data, crcs);
      if !disk.stores { return ERROR_IO, after; }
      after := after.(data := Overwritten(Resize(c.data, (w.blockNum + 1) * BLOCK_SIZE), w.Start(), w.data), crcs := crcs[w.blockNum := entry]);
    } else {
      FitsIn(w, c.blocks);
      var block := Block(c.data, w.blockNum);
      if FullBlock(w) {
        FullEntry(sum, block, w);
      } else {
        if !disk.readable { return ERROR_IO, c; }
        var part := block[w.offset..w.offset + |w.data|];
        CheckedWhole(sum, block, w);
        if EntryFor(sum, block, w.(data := part, crc := sum.crc(part))) != c.crcs[w.blockNum] { return ERROR_CRC, c; }
        entry := EntryFor(sum, block, w);
      }
      if !disk.stores { return ERROR_IO, c; }
      after := c.(data := Overwritten(c.data, w.Start(), w.data), crcs := c.crcs[w.blockNum := entry]);
    }
  }

  lemma FullEntry(sum: Checksum, block: seq<u8>, w: Write)
    requires |block| == BLOCK_SIZE && FullBlock(w)
    ensures EntryFor(sum, block, w) == w.crc
  {}

  // ---------------------------------------------------------------- several writes

  /** A write the disk takes. */
  predicate Takes(w: Write) { w.InBlock() && w.blockNum < BLOCKS_IN_CHUNK }

  /** The chunk after several writes, one after the other. An empty one is skipped, one the
      disk does not take changes nothing. */
  function WrittenAll(sum: Checksum, c: ChunkFile, ws: seq<Write>): (r: ChunkFile)
    requires c.Whole()
    ensures r.Whole()
  {
    if ws == [] then c
    else
      var before, w := WrittenAll(sum, c, ws[..|ws| - 1]), ws[|ws| - 1];
      if w.data != [] && Takes(w) then Written(sum, before, w) else before
  }

  /** Its bytes are those of the writes applied in order. */
  lemma {:induction false} WrittenAllByte(sum: Checksum, c: ChunkFile, ws: seq<Write>, b: nat)
    requires c.Whole() && b < CHUNK_SIZE && forall w <- ws :: w.InBlock()
    ensures OnFile(WrittenAll(sum, c, ws))(b) == ByteAt(OnFile(c), ws, b)
  {
    if ws != [] {
      var n := |ws| - 1;
      WrittenAllByte(sum, c, ws[..n], b);
      var before, w := WrittenAll(sum, c, ws[..n]), ws[n];
      assert w.InBlock();
      if w.Covers(b) { Beyond(w, b); }
      if w.data != [] && Takes(w) { WrittenByte(sum, before, w, b); }
      hide Written;
    }
  }

  lemma Beyond(w: Write, b: nat)
    requires b < CHUNK_SIZE && w.Covers(b)
    ensures w.blockNum < BLOCKS_IN_CHUNK
  {}

  /** A sound chunk stays sound under writes with right checksums. */
  lemma {:induction false} WrittenAllSound(sum: Checksum, c: ChunkFile, ws: seq<Write>)
    requires sum.Combines() && c.Whole() && Sound(sum.crc, c) && forall w <- ws :: w.crc == sum.crc(w.data)
    ensures Sound(sum.crc, WrittenAll(sum, c, ws))
  {
    if ws != [] {
      var n := |ws| - 1;
      WrittenAllSound(sum, c, ws[..n]);
      var before, w := WrittenAll(sum, c, ws[..n]), ws[n];
      assert w.crc == sum.crc(w.data);
      if w.data != [] && Takes(w) { WrittenTable(sum, before, w); }
      hide Written, TableOk, TailEmpty;
    }
  }

  lemma {:induction false} WrittenAllConcat(sum: Checksum, c: ChunkFile, xs: seq<Write>, ys: seq<Write>)
    requires c.Whole()
    ensures WrittenAll(sum, c, xs + ys) == WrittenAll(sum, WrittenAll(sum, c, xs), ys)
  {
    if ys == [] {
      assert xs + ys == xs;
    } else {
      hide Written;
      var n := |ys| - 1;
      WrittenAllConcat(sum, c, xs, ys[..n]);
      assert (xs + ys)[..|xs + ys| - 1] == xs + ys[..n] && (xs + ys)[|xs + ys| - 1] == ys[n];
    }
  }

  // ---------------------------------------------------------------- writeChunkBlocks

  /** Block k of a run of full blocks as a write of its own. */
  function BlockWrite(start: nat, crcs: seq<nat>, data: seq<u8>, k: nat): (w: Write)
    requires k < |crcs| && |data| == |crcs| * BLOCK_SIZE
    ensures FullBlock(w) && w.blockNum == start + k
  {
    Write(start + k, 0, data[k * BLOCK_SIZE..(k + 1) * BLOCK_SIZE], 0, crcs[k])
  }

  function BlockWrites(start: nat, crcs: seq<nat>, data: seq<u8>): (r: seq<Write>)
    requires |data| == |crcs| * BLOCK_SIZE
    ensures |r| == |crcs| && forall k :: 0 <= k < |r| ==> r[k] == BlockWrite(start, crcs, data, k)
  {
    seq(|crcs|, k requires 0 <= k < |crcs| => BlockWrite(start, crcs, data, k))
  }

  function Max(m: nat, n: nat): nat { if m < n then n else m }

  /** The table with the entries skipped emptied. */
  function Skipped(sum: Checksum, c: ChunkFile, start: nat): (r: seq<nat>)
    requires c.Whole()
    ensures |r| == BLOCKS_IN_CHUNK
  {
    if start >= c.blocks then Emptied(sum.crc, c.crcs, c.blocks, start) else c.crcs
  }

  /** The table after a run of n blocks. */
  function BulkCrcs(crcs: seq<nat>, start: nat, entries: seq<nat>, n: nat): (r: seq<nat>)
    requires n <= |entries| && start + n <= |crcs|
    ensures |r| == |crcs| && forall k :: 0 <= k < |r| ==> r[k] == if start <= k < start + n then entries[k - start] else crcs[k]
  {
    crcs[..start] + entries[..n] + crcs[start + n..]
  }

  /** The file after the first n blocks of a run were put with one call. */
  function BulkData(file: seq<u8>, blocks: nat, start: nat, data: seq<u8>, n: nat): seq<u8>
    requires n * BLOCK_SIZE <= |data|
  {
    Overwritten(Resize(file, Max(blocks, start + n) * BLOCK_SIZE), start * BLOCK_SIZE, data[..n * BLOCK_SIZE])
  }

  function Bulk(sum: Checksum, c: ChunkFile, start: nat, crcs: seq<nat>, data: seq<u8>, n: nat): ChunkFile
    requires c.Whole() && |data| == |crcs| * BLOCK_SIZE && 0 < n <= |crcs| && start + n <= BLOCKS_IN_CHUNK
  {
    ChunkFile(c.version, Max(c.blocks, start + n), BulkData(c.data, c.blocks, start, data, n),
              BulkCrcs(Skipped(sum, c, start), start, crcs, n))
  }

  lemma BulkBytes(file: seq<u8>, blocks: nat, start: nat, data: seq<u8>, n: nat)
    requires |file| == blocks * BLOCK_SIZE && (n + 1) * BLOCK_SIZE <= |data|
    ensures Overwritten(Resize(BulkData(file, blocks, start, data, n), Max(blocks, start + n + 1) * BLOCK_SIZE),
                        (start + n) * BLOCK_SIZE, data[n * BLOCK_SIZE..(n + 1) * BLOCK_SIZE]) ==
            BulkData(file, blocks, start, data, n + 1)
  {}

  lemma WrittenFull(sum: Checksum, c: ChunkFile, w: Write)
    requires c.Whole() && FullBlock(w) && w.blockNum < BLOCKS_IN_CHUNK
    ensures var blocks := Max(c.blocks, w.blockNum + 1);
            && w.Start() + |w.data| <= blocks * BLOCK_SIZE
            && Written(sum, c, w) ==
               ChunkFile(c.version, blocks, Overwritten(Resize(c.data, blocks * BLOCK_SIZE), w.Start(), w.data),
                         Skipped(sum, c, w.blockNum)[w.blockNum := w.crc])
  {
    var blocks := Max(c.blocks, w.blockNum + 1);
    FitsIn(w, blocks);
    var g := Grown(sum, c, w.blockNum + 1);
    assert g.data == Resize(c.data, blocks * BLOCK_SIZE);
    FullEntry(sum, Block(g.data, w.blockNum), w);
    var one, two := Written(sum, c, w).crcs, Skipped(sum, c, w.blockNum)[w.blockNum := w.crc];
    hide EntryFor, Overwritten, Block;
    assert one == two;
  }

  lemma BulkOne(sum: Checksum, c: ChunkFile, start: nat, crcs: seq<nat>, data: seq<u8>)
    requires c.Whole() && |data| == |crcs| * BLOCK_SIZE && 0 < |crcs| && start < BLOCKS_IN_CHUNK
    ensures Bulk(sum, c, start, crcs, data, 1) == Written(sum, c, BlockWrite(start, crcs, data, 0))
  {
    var w := BlockWrite(start, crcs, data, 0);
    WrittenFull(sum, c, w);
    hide Written, Overwritten;
    assert w.data == data[..1 * BLOCK_SIZE];
    assert BulkCrcs(Skipped(sum, c, start), start, crcs, 1) == Skipped(sum, c, start)[start := crcs[0]];
  }

  lemma BulkStep(sum: Checksum, c: ChunkFile, start: nat, crcs: seq<nat>, data: seq<u8>, n: nat)
    requires c.Whole() && |data| == |crcs| * BLOCK_SIZE && 0 < n < |crcs| && start + n < BLOCKS_IN_CHUNK
    ensures var b := Bulk(sum, c, start, crcs, data, n);
            b.Whole() && Bulk(sum, c, start, crcs, data, n + 1) == Written(sum, b, BlockWrite(start, crcs, data, n))
  {
    var b, w := Bulk(sum, c, start, crcs, data, n), BlockWrite(start, crcs, data, n);
    WrittenFull(sum, b, w);
    BulkBytes(c.data, c.blocks, start, data, n);
    hide Written, Overwritten;
    assert Skipped(sum, b, start + n) == b.crcs;
    assert BulkCrcs(Skipped(sum, c, start), start, crcs, n + 1) == b.crcs[start + n := crcs[n]];
  }

  lemma NoneWritten(sum: Checksum, c: ChunkFile, ws: seq<Write>)
    requires c.Whole() && ws == []
    ensures WrittenAll(sum, c, ws) == c
  {}

  lemma LastWritten(sum: Checksum, c: ChunkFile, ws: seq<Write>, n: nat)
    requires c.Whole() && 0 < n <= |ws| && FullBlock(ws[n - 1]) && ws[n - 1].blockNum < BLOCKS_IN_CHUNK
    ensures WrittenAll(sum, c, ws[..n]) == Written(sum, WrittenAll(sum, c, ws[..n - 1]), ws[n - 1])
  {
    hide Written;
    assert ws[..n][..n - 1] == ws[..n - 1];
  }

  /** Putting the blocks with one call is putting them one by one. */
  lemma {:induction false} BulkIsAll(sum: Checksum, c: ChunkFile, start: nat, crcs: seq<nat>, data: seq<u8>, n: nat)
    requires c.Whole() && |data| == |crcs| * BLOCK_SIZE && 0 < n <= |crcs| && start + n <= BLOCKS_IN_CHUNK
    ensures Bulk(sum, c, start, crcs, data, n) == WrittenAll(sum, c, BlockWrites(start, crcs, data)[..n])
    decreases n
  {
    hide Written, Bulk, BlockWrite, BlockWrites, WrittenAll;
    var ws := BlockWrites(start, crcs, data);
    if n == 1 {
      BulkOne(sum, c, start, crcs, data);
      NoneWritten(sum, c, ws[..0]);
    } else {
      BulkIsAll(sum, c, start, crcs, data, n - 1);
      BulkStep(sum, c, start, crcs, data, n - 1);
    }
    LastWritten(sum, c, ws, n);
  }

  method CheckRun(sum: Checksum, crcs: seq<nat>, data: seq<u8>) returns (right: bool)
    requires |data| == |crcs| * BLOCK_SIZE
    ensures right <==> forall k :: 0 <= k < |crcs| ==> crcs[k] == sum.crc(data[k * BLOCK_SIZE..(k + 1) * BLOCK_SIZE])
  {
    right := true;
    for i := 0 to |crcs|
      invariant right
      invariant forall k :: 0 <= k < i ==> crcs[k] == sum.crc(data[k * BLOCK_SIZE..(k + 1) * BLOCK_SIZE])
    {
      if crcs[i] != sum.crc(data[i * BLOCK_SIZE..(i + 1) * BLOCK_SIZE]) { return false; }
    }
  }

  /** CmrDisk::writeChunkBlocks: exactly when it answers what; on OK the chunk is that after the
      blocks were written one by one, otherwise no byte read back has changed. */
  method WriteChunkBlocks(sum: Checksum, c: ChunkFile, version: nat, maxBlocks: nat, start: nat, numBlocks: nat, crcs: seq<nat>,
                          data: seq<u8>, check: bool, stores: bool)
    returns (status: Status, after: ChunkFile)
    requires c.Whole() && maxBlocks <= BLOCKS_IN_CHUNK && |data| == numBlocks * BLOCK_SIZE
    ensures status == if c.version != version && version > 0 then ERROR_WRONGVERSION
                      else if start + numBlocks > maxBlocks then ERROR_BNUMTOOBIG
                      else if |crcs| != numBlocks then ERROR_WRONGSIZE
                      else if check && exists k :: 0 <= k < numBlocks && crcs[k] != sum.crc(data[k * BLOCK_SIZE..(k + 1) * BLOCK_SIZE])
                      then ERROR_CRC
                      else if !stores then ERROR_IO
                      else STATUS_OK
    ensures status == STATUS_OK && numBlocks > 0 ==> after == WrittenAll(sum, c, BlockWrites(start, crcs, data))
    ensures status != STATUS_OK || numBlocks == 0 ==> forall b: nat :: OnFile(after)(b) == OnFile(c)(b)
  {
    hide BulkCrcs, Overwritten, WrittenAll, BlockWrites, Emptied;
    after := c;
    if c.version != version && version > 0 { return ERROR_WRONGVERSION, c; }
    if start + numBlocks > maxBlocks { return ERROR_BNUMTOOBIG, c; }
    if |crcs| != numBlocks { return ERROR_WRONGSIZE, c; }
    var right := CheckRun(sum, crcs, data);
    if check && !right { return ERROR_CRC, c; }
    var table := c.crcs;
    if start >= c.blocks { table := FillSkipped(sum, c.crcs, c.blocks, start); }
    var blocks := Max(c.blocks, start + numBlocks);
    after := ChunkFile(c.version, blocks, c.data, table);
    if !stores { return ERROR_IO, after; }
    if numBlocks > 0 {
      after := after.(data := Overwritten(Resize(c.data, blocks * BLOCK_SIZE), start * BLOCK_SIZE, data),
                      crcs := BulkCrcs(table, start, crcs, numBlocks));
      BulkIsAll(sum, c, start, crcs, data, numBlocks);
      assert BlockWrites(start, crcs, data)[..numBlocks] == BlockWrites(start, crcs, data);
      assert data[..numBlocks * BLOCK_SIZE] == data;
    }
    status := STATUS_OK;
  }
}
