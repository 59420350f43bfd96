/** hddRead: the bytes and CRCs of a read, from the disk and from the already-replied
    registry. */
module HddReads {
  import opened ChunkTypes
  import opened ChunkFiles
  import opened ReadPatch

  /** A chunk part: its version, its data in whole blocks, and its table of block CRCs. */
  datatype ChunkFile = ChunkFile(version: nat, blocks: nat, data: seq<u8>, crcs: seq<nat>) {
    predicate Whole() { |data| == blocks * BLOCK_SIZE && blocks <= |crcs| == BLOCKS_IN_CHUNK }
  }

  /** Every entry of the table matches, those behind the end that of an empty block. */
  ghost predicate Sound(crc: seq<u8> -> nat, c: ChunkFile) {
    TableOk(crc, c.data, c.blocks, c.crcs) && TailEmpty(crc, c.blocks, c.crcs)
  }

  /** Bytes behind the end read as zeros. */
  function DiskByte(c: ChunkFile, b: nat): u8 { if b < |c.data| then c.data[b] else 0 }

  function DiskBytes(c: ChunkFile, from: nat, n: nat): (r: seq<u8>)
    ensures |r| == n && forall i :: 0 <= i < n ==> r[i] == DiskByte(c, from + i)
  {
    seq(n, i requires 0 <= i < n => DiskByte(c, from + i))
  }

  /** The bytes of a chunk as hddRead sees them on disk. */
  function OnFile(c: ChunkFile): Content { (b: nat) => DiskByte(c, b) }

  lemma BlockOnDisk(c: ChunkFile, k: nat)
    requires c.Whole()
    ensures k < c.blocks ==> (k + 1) * BLOCK_SIZE <= |c.data| && Block(c.data, k) == DiskBytes(c, k * BLOCK_SIZE, BLOCK_SIZE)
    ensures k >= c.blocks ==> DiskBytes(c, k * BLOCK_SIZE, BLOCK_SIZE) == Zeros(BLOCK_SIZE)
  {}

  // ---------------------------------------------------------------- what is fetched

  /** Byte i of the full blocks. They are read in one go from `offset`, again from there after
      a short read; blocks behind the end are zeros. */
  function BulkByte(c: ChunkFile, offset: nat, i: nat): u8
    requires c.Whole()
  {
    if offset / BLOCK_SIZE + i / BLOCK_SIZE < c.blocks then c.data[offset + i % (|c.data| - offset)] else 0
  }

  /** Where on disk the bytes behind the full blocks come from. */
  function TailStart(offset: nat, full: nat): nat {
    (offset / BLOCK_SIZE + full) * BLOCK_SIZE + if full == 0 then offset % BLOCK_SIZE else 0
  }

  function FetchedByte(c: ChunkFile, offset: nat, size: nat, i: nat): u8
    requires c.Whole()
  {
    var full := size / BLOCK_SIZE;
    if i < full * BLOCK_SIZE then BulkByte(c, offset, i) else DiskByte(c, TailStart(offset, full) + i - full * BLOCK_SIZE)
  }

  function Fetched(c: ChunkFile, offset: nat, size: nat): (r: seq<u8>)
    requires c.Whole()
    ensures |r| == size && forall i :: 0 <= i < size ==> r[i] == FetchedByte(c, offset, size, i)
  {
    seq(size, i requires 0 <= i < size => FetchedByte(c, offset, size, i))
  }

  lemma BulkAligned(c: ChunkFile, offset: nat, i: nat)
    requires c.Whole() && offset % BLOCK_SIZE == 0
    ensures BulkByte(c, offset, i) == DiskByte(c, offset + i)
  {
    InFile(c.blocks, offset, i);
    if offset + i < |c.data| { SmallMod(i, |c.data| - offset); }
  }

  lemma InFile(blocks: nat, offset: nat, i: nat)
    requires offset % BLOCK_SIZE == 0
    ensures offset / BLOCK_SIZE + i / BLOCK_SIZE < blocks <==> offset + i < blocks * BLOCK_SIZE
  {}

  lemma SmallMod(i: nat, m: nat)
    requires i < m
    ensures i % m == i
  {}

  /** A read that is aligned or lies inside one block fetches the bytes asked for. */
  lemma FetchedRight(c: ChunkFile, offset: nat, size: nat)
    requires c.Whole() && ReadShape(offset, size)
    ensures Fetched(c, offset, size) == DiskBytes(c, offset, size)
  {
    var full := size / BLOCK_SIZE;
    forall i | 0 <= i < size ensures FetchedByte(c, offset, size, i) == DiskByte(c, offset + i) {
      if i < full * BLOCK_SIZE {
        assert offset % BLOCK_SIZE == 0;
        BulkAligned(c, offset, i);
      } else {
        TailPlace(offset, size);
      }
    }
  }

  lemma TailPlace(offset: nat, size: nat)
    requires ReadShape(offset, size) && size % BLOCK_SIZE > 0
    ensures TailStart(offset, size / BLOCK_SIZE) == offset + size / BLOCK_SIZE * BLOCK_SIZE
  {}

  /** A chunk of ones that ends with the given block. */
  function Ones(blocks: nat): (c: ChunkFile)
    requires blocks <= BLOCKS_IN_CHUNK
    ensures c.Whole()
  {
    ChunkFile(1, blocks, seq(blocks * BLOCK_SIZE, _ => 1), seq(BLOCKS_IN_CHUNK, _ => 0))
  }

  /** Behind the end of the chunk the bytes read first are read again. */
  lemma ReadAgain(offset: nat, size: nat)
    requires size >= BLOCK_SIZE && offset < CHUNK_SIZE && offset % BLOCK_SIZE != 0
    ensures var c := Ones(offset / BLOCK_SIZE + 1); Fetched(c, offset, size) != DiskBytes(c, offset, size)
  {
    var c := Ones(offset / BLOCK_SIZE + 1);
    var i := |c.data| - offset;
    assert 0 < i < BLOCK_SIZE && i % i == 0;
    assert Fetched(c, offset, size)[i] == 1 && DiskBytes(c, offset, size)[i] == 0;
  }

  /** A read of a block or more fetches the bytes asked for, whatever the chunk, exactly when it
      is aligned. */
  lemma FetchedIff(offset: nat, size: nat)
    requires size >= BLOCK_SIZE && offset < CHUNK_SIZE
    ensures (forall c: ChunkFile :: c.Whole() ==> Fetched(c, offset, size) == DiskBytes(c, offset, size)) <==> offset % BLOCK_SIZE == 0
  {
    if offset % BLOCK_SIZE == 0 {
      forall c: ChunkFile | c.Whole() ensures Fetched(c, offset, size) == DiskBytes(c, offset, size) { FetchedRight(c, offset, size); }
    } else {
      ReadAgain(offset, size);
    }
  }

  // ---------------------------------------------------------------- full blocks

  lemma PassMod(at: nat, j: nat, m: nat)
    requires m > 0 && at % m == 0 && j < m
    ensures (at + j) % m == j && (at + m) % m == 0
  {
    var q := at / m;
    assert at == q * m;
    ModOf(q, j, m);
    assert at + m == (q + 1) * m by { assert (q + 1) * m == q * m + m; }
    ModOf(q + 1, 0, m);
  }

  lemma ModOf(q: nat, j: nat, m: nat)
    requires j < m
    ensures (q * m + j) % m == j
  {
    var d := (q * m + j) / m;
    if d < q { NextMultiple(d, q, m); } else if d > q { NextMultiple(q, d, m); }
  }

  lemma NextMultiple(a: nat, b: nat, m: nat)
    requires a < b
    ensures a * m + m <= b * m
  {
    assert (a + 1) * m <= b * m;
  }

  /** Buffer::copyIntoBuffer from a chunk: every round reads from the same offset. */
  method CopyFromChunk(c: ChunkFile, offset: nat, len: nat, data: array<u8>)
    requires offset < |c.data| && len <= data.Length
    modifies data
    ensures forall k :: 0 <= k < len ==> data[k] == c.data[offset + k % (|c.data| - offset)]
  {
    var at := 0;
    var period := |c.data| - offset;
    while at < len
      invariant at % period == 0 || at >= len
      invariant forall k :: 0 <= k < at && k < len ==> data[k] == c.data[offset + k % period]
    {
      var take := if len - at < period then len - at else period;
      ghost var was := at;
      UpdateInterval(data, at, c.data, offset, take);
      forall k | was <= k < was + take ensures data[k] == c.data[offset + k % period] { PassMod(was, k - was, period); }
      PassMod(at, 0, period);
      at := at + period;
    }
  }

  /** hddReadCrcAndBlock, for a block whose data was read before, and hddCheckCrcForFullBlock. */
  method ReadFullBlock(crc: seq<u8> -> nat, c: ChunkFile, block: nat, i: nat, checkCrc: bool, data: array<u8>, crcs: array<nat>)
    returns (status: Status)
    requires c.Whole() && (i + 1) * BLOCK_SIZE <= data.Length && i < crcs.Length
    modifies data, crcs
    ensures forall k :: 0 <= k < data.Length && !(i * BLOCK_SIZE <= k < (i + 1) * BLOCK_SIZE && block + i >= c.blocks) ==> data[k] == old(data[k])
    ensures crcs[..i] == old(crcs[..i])
    ensures status == STATUS_OK && block + i >= c.blocks ==> data[i * BLOCK_SIZE..(i + 1) * BLOCK_SIZE] == Zeros(BLOCK_SIZE) && crcs[i] == EmptyCrc(crc)
    ensures status == STATUS_OK && block + i < c.blocks ==> crcs[i] == c.crcs[block + i]
    ensures status == (if block + i >= BLOCKS_IN_CHUNK then ERROR_BNUMTOOBIG
                       else if checkCrc && block + i < c.blocks && crc(data[i * BLOCK_SIZE..(i + 1) * BLOCK_SIZE]) != c.crcs[block + i]
                       then ERROR_CRC else STATUS_OK)
  {
    var n := block + i;
    if n >= BLOCKS_IN_CHUNK { return ERROR_BNUMTOOBIG; }
    if n >= c.blocks {
      crcs[i] := EmptyCrc(crc);
      UpdateInterval(data, i * BLOCK_SIZE, Zeros(BLOCK_SIZE), 0, BLOCK_SIZE);
    } else {
      crcs[i] := c.crcs[n];
    }
    status := if checkCrc && n < c.blocks && crc(data[i * BLOCK_SIZE..(i + 1) * BLOCK_SIZE]) != c.crcs[n] then ERROR_CRC else STATUS_OK;
  }

  /** Bytes from..to of a read are those of the full blocks. */
  ghost predicate BulkRead(c: ChunkFile, offset: nat, data: seq<u8>, from: nat, to: nat)
    requires c.Whole()
  {
    to <= |data| && forall k :: from <= k < to ==> data[k] == BulkByte(c, offset, k)
  }

  /** The first n CRCs are those of the blocks read. */
  ghost predicate CrcsRead(crc: seq<u8> -> nat, data: seq<u8>, crcs: seq<nat>, n: nat) {
    n <= |crcs| && n * BLOCK_SIZE <= |data| && forall k :: 0 <= k < n ==> crcs[k] == crc(data[k * BLOCK_SIZE..(k + 1) * BLOCK_SIZE])
  }

  /** How much of the full blocks the file has. */
  function BulkLength(c: ChunkFile, offset: nat, full: nat): nat {
    var block := offset / BLOCK_SIZE;
    if block >= c.blocks then 0 else if full < c.blocks - block then full * BLOCK_SIZE else (c.blocks - block) * BLOCK_SIZE
  }

  lemma BulkIs(c: ChunkFile, offset: nat, full: nat, data: seq<u8>)
    requires c.Whole() && BulkLength(c, offset, full) <= |data|
    requires BulkLength(c, offset, full) > 0 ==> offset < |c.data|
    requires forall k :: 0 <= k < BulkLength(c, offset, full) ==> data[k] == c.data[offset + k % (|c.data| - offset)]
    ensures BulkRead(c, offset, data, 0, BulkLength(c, offset, full))
  {}

  lemma ZeroBlock(c: ChunkFile, offset: nat, i: nat, data: seq<u8>)
    requires c.Whole() && offset / BLOCK_SIZE + i >= c.blocks && (i + 1) * BLOCK_SIZE <= |data|
    requires data[i * BLOCK_SIZE..(i + 1) * BLOCK_SIZE] == Zeros(BLOCK_SIZE)
    ensures BulkRead(c, offset, data, i * BLOCK_SIZE, (i + 1) * BLOCK_SIZE)
  {
    forall k | i * BLOCK_SIZE <= k < (i + 1) * BLOCK_SIZE ensures data[k] == BulkByte(c, offset, k) {
      assert data[k] == data[i * BLOCK_SIZE..(i + 1) * BLOCK_SIZE][k - i * BLOCK_SIZE];
      assert k / BLOCK_SIZE == i;
    }
  }

  lemma BulkJoin(c: ChunkFile, offset: nat, was: seq<u8>, data: seq<u8>, done: nat, i: nat, from: nat)
    requires c.Whole() && |data| == |was| && BulkRead(c, offset, was, 0, done) && from == i * BLOCK_SIZE <= done
    requires BulkRead(c, offset, data, from, from + BLOCK_SIZE)
    requires forall k :: 0 <= k < |was| && !(from <= k < from + BLOCK_SIZE) ==> data[k] == was[k]
    ensures BulkRead(c, offset, data, 0, if done < from + BLOCK_SIZE then from + BLOCK_SIZE else done)
  {}

  lemma CrcNext(crc: seq<u8> -> nat, was: seq<u8>, wasCrcs: seq<nat>, data: seq<u8>, crcs: seq<nat>, i: nat)
    requires CrcsRead(crc, was, wasCrcs, i) && |data| == |was| && i < |crcs| && (i + 1) * BLOCK_SIZE <= |data|
    requires crcs[..i] == wasCrcs[..i] && crcs[i] == crc(data[i * BLOCK_SIZE..(i + 1) * BLOCK_SIZE])
    requires forall k :: 0 <= k < i * BLOCK_SIZE ==> data[k] == was[k]
    ensures CrcsRead(crc, data, crcs, i + 1)
  {
    forall k | 0 <= k < i ensures crcs[k] == crc(data[k * BLOCK_SIZE..(k + 1) * BLOCK_SIZE]) {
      assert crcs[k] == crcs[..i][k] == wasCrcs[..i][k] == wasCrcs[k];
      assert data[k * BLOCK_SIZE..(k + 1) * BLOCK_SIZE] == was[k * BLOCK_SIZE..(k + 1) * BLOCK_SIZE];
    }
  }

  /** A full block of an aligned read is the block of the file. */
  lemma AlignedBlock(c: ChunkFile, offset: nat, data: seq<u8>, i: nat)
    requires c.Whole() && offset % BLOCK_SIZE == 0 && (i + 1) * BLOCK_SIZE <= |data|
    requires BulkRead(c, offset, data, i * BLOCK_SIZE, (i + 1) * BLOCK_SIZE)
    ensures data[i * BLOCK_SIZE..(i + 1) * BLOCK_SIZE] == DiskBytes(c, (offset / BLOCK_SIZE + i) * BLOCK_SIZE, BLOCK_SIZE)
  {
    hide BulkByte;
    var from, to := i * BLOCK_SIZE, (i + 1) * BLOCK_SIZE;
    forall k | from <= k < to ensures data[k] == DiskByte(c, offset + k) { BulkAligned(c, offset, k); }
    assert offset + from == (offset / BLOCK_SIZE + i) * BLOCK_SIZE;
    SliceIs(c, offset, data, from, to);
  }

  lemma SliceIs(c: ChunkFile, offset: nat, data: seq<u8>, from: nat, to: nat)
    requires from <= to <= |data| && forall k :: from <= k < to ==> data[k] == DiskByte(c, offset + k)
    ensures data[from..to] == DiskBytes(c, offset + from, to - from)
  {}

  lemma AlignedCrc(crc: seq<u8> -> nat, c: ChunkFile, offset: nat, data: seq<u8>, i: nat)
    requires c.Whole() && offset % BLOCK_SIZE == 0 && (i + 1) * BLOCK_SIZE <= |data| && TableOk(crc, c.data, c.blocks, c.crcs)
    requires BulkRead(c, offset, data, i * BLOCK_SIZE, (i + 1) * BLOCK_SIZE) && offset / BLOCK_SIZE + i < c.blocks
    ensures crc(data[i * BLOCK_SIZE..(i + 1) * BLOCK_SIZE]) == c.crcs[offset / BLOCK_SIZE + i]
  {
    hide BulkRead;
    AlignedBlock(c, offset, data, i);
    BlockOnDisk(c, offset / BLOCK_SIZE + i);
  }

  /** The CRCs can be trusted: they are checked, or the read is aligned and the table matches. */
  ghost predicate Trusted(crc: seq<u8> -> nat, c: ChunkFile, offset: nat, checkCrc: bool) {
    checkCrc || (offset % BLOCK_SIZE == 0 && TableOk(crc, c.data, c.blocks, c.crcs))
  }

  /** One round of the loop over full blocks. */
  lemma Round(crc: seq<u8> -> nat, c: ChunkFile, offset: nat, i: nat, checkCrc: bool, was: seq<u8>, wasCrcs: seq<nat>,
              data: seq<u8>, crcs: seq<nat>, done: nat)
    requires c.Whole() && |data| == |was| && (i + 1) * BLOCK_SIZE <= |data| && i < |crcs| && i * BLOCK_SIZE <= done
    requires BulkRead(c, offset, was, 0, done) && (offset / BLOCK_SIZE + i < c.blocks ==> (i + 1) * BLOCK_SIZE <= done)
    requires forall k :: 0 <= k < |was| && !(i * BLOCK_SIZE <= k < (i + 1) * BLOCK_SIZE && offset / BLOCK_SIZE + i >= c.blocks) ==> data[k] == was[k]
    requires i <= |wasCrcs| && crcs[..i] == wasCrcs[..i]
    requires if offset / BLOCK_SIZE + i >= c.blocks
             then data[i * BLOCK_SIZE..(i + 1) * BLOCK_SIZE] == Zeros(BLOCK_SIZE) && crcs[i] == EmptyCrc(crc)
             else crcs[i] == c.crcs[offset / BLOCK_SIZE + i] &&
                  (checkCrc ==> crc(data[i * BLOCK_SIZE..(i + 1) * BLOCK_SIZE]) == c.crcs[offset / BLOCK_SIZE + i])
    ensures BulkRead(c, offset, data, 0, if done < (i + 1) * BLOCK_SIZE then (i + 1) * BLOCK_SIZE else done)
    ensures Trusted(crc, c, offset, checkCrc) && CrcsRead(crc, was, wasCrcs, i) ==> CrcsRead(crc, data, crcs, i + 1)
  {
    if offset / BLOCK_SIZE + i >= c.blocks {
      ZeroBlock(c, offset, i, data);
    } else {
      assert BulkRead(c, offset, data, i * BLOCK_SIZE, (i + 1) * BLOCK_SIZE);
    }
    BulkJoin(c, offset, was, data, done, i, i * BLOCK_SIZE);
    hide BulkRead, CrcsRead;
    if Trusted(crc, c, offset, checkCrc) && CrcsRead(crc, was, wasCrcs, i) {
      if offset / BLOCK_SIZE + i < c.blocks && !checkCrc { AlignedCrc(crc, c, offset, data, i); }
      CrcNext(crc, was, wasCrcs, data, crcs, i);
    }
  }

  /** Block i of a read, as the full blocks are fetched. */
  function BulkBlock(c: ChunkFile, offset: nat, i: nat): (r: seq<u8>)
    requires c.Whole()
    ensures |r| == BLOCK_SIZE && forall j :: 0 <= j < BLOCK_SIZE ==> r[j] == BulkByte(c, offset, i * BLOCK_SIZE + j)
  {
    seq(BLOCK_SIZE, j requires 0 <= j < BLOCK_SIZE => BulkByte(c, offset, i * BLOCK_SIZE + j))
  }

  lemma BulkSlice(c: ChunkFile, offset: nat, data: seq<u8>, done: nat, i: nat)
    requires c.Whole() && BulkRead(c, offset, data, 0, done) && (i + 1) * BLOCK_SIZE <= done
    ensures data[i * BLOCK_SIZE..(i + 1) * BLOCK_SIZE] == BulkBlock(c, offset, i)
  {}

  lemma FetchedSlice(c: ChunkFile, offset: nat, size: nat, i: nat)
    requires c.Whole() && i < size / BLOCK_SIZE
    ensures Fetched(c, offset, size)[i * BLOCK_SIZE..(i + 1) * BLOCK_SIZE] == BulkBlock(c, offset, i)
  {
    hide BulkByte;
    assert (i + 1) * BLOCK_SIZE <= size / BLOCK_SIZE * BLOCK_SIZE <= size;
  }

  /** A stored block among the first n of a read whose CRC is not that of the table. */
  ghost predicate BadBlock(crc: seq<u8> -> nat, c: ChunkFile, offset: nat, n: nat, k: nat)
    requires c.Whole()
  {
    offset / BLOCK_SIZE <= k < offset / BLOCK_SIZE + n && k < c.blocks && crc(BulkBlock(c, offset, k - offset / BLOCK_SIZE)) != c.crcs[k]
  }

  ghost predicate AnyBad(crc: seq<u8> -> nat, c: ChunkFile, offset: nat, n: nat)
    requires c.Whole()
  {
    exists k :: BadBlock(crc, c, offset, n, k)
  }

  /** The full blocks of a read. */
  method ReadFullBlocks(crc: seq<u8> -> nat, c: ChunkFile, offset: nat, full: nat, checkCrc: bool, data: array<u8>, crcs: array<nat>)
    returns (status: Status)
    requires c.Whole() && full * BLOCK_SIZE <= data.Length && full <= crcs.Length
    modifies data, crcs
    ensures status == STATUS_OK ==> BulkRead(c, offset, data[..], 0, full * BLOCK_SIZE)
    ensures status == STATUS_OK && Trusted(crc, c, offset, checkCrc) ==> CrcsRead(crc, data[..], crcs[..], full)
    ensures Sound(crc, c) && offset % BLOCK_SIZE == 0 && offset / BLOCK_SIZE + full <= BLOCKS_IN_CHUNK ==> status == STATUS_OK
    ensures status == if checkCrc && AnyBad(crc, c, offset, full) then ERROR_CRC
                      else if full > 0 && offset / BLOCK_SIZE + full > BLOCKS_IN_CHUNK then ERROR_BNUMTOOBIG
                      else STATUS_OK
  {
    hide Sound, BulkRead, CrcsRead, TableOk, Trusted, AnyBad;
    NoneBad(crc, c, offset);
    var block, length := offset / BLOCK_SIZE, BulkLength(c, offset, full);
    if block < c.blocks { CopyFromChunk(c, offset, length, data); }
    BulkIs(c, offset, full, data[..]);
    NoCrcsRead(crc, data[..], crcs[..]);
    status := STATUS_OK;
    var i := 0;
    ghost var done := length;
    while i < full && status == STATUS_OK
      invariant i <= full && i * BLOCK_SIZE <= done && length <= done <= data.Length
      invariant Sound(crc, c) && offset % BLOCK_SIZE == 0 && block + full <= BLOCKS_IN_CHUNK ==> status == STATUS_OK
      invariant status == STATUS_OK ==> BulkRead(c, offset, data[..], 0, done)
      invariant status == STATUS_OK && Trusted(crc, c, offset, checkCrc) ==> CrcsRead(crc, data[..], crcs[..], i)
      invariant status == STATUS_OK || status == ERROR_CRC || status == ERROR_BNUMTOOBIG
      invariant status == ERROR_CRC ==> checkCrc && AnyBad(crc, c, offset, i)
      invariant status != ERROR_CRC && checkCrc ==> !AnyBad(crc, c, offset, i)
      invariant if i > 0 then block + i > BLOCKS_IN_CHUNK <==> status == ERROR_BNUMTOOBIG else status == STATUS_OK
    {
      ghost var was, wasCrcs := data[..], crcs[..];
      status := ReadFullBlock(crc, c, block, i, checkCrc, data, crcs);
      if Sound(crc, c) && offset % BLOCK_SIZE == 0 && block + i < c.blocks { SoundBlock(crc, c, offset, was, data[..], i, done); }
      if block + i < c.blocks {
        NextBlock(crc, c, offset, was, data[..], done, i);
        assert data[..][i * BLOCK_SIZE..(i + 1) * BLOCK_SIZE] == data[i * BLOCK_SIZE..(i + 1) * BLOCK_SIZE];
      } else {
        NoMoreBad(crc, c, offset, i, i + 1);
      }
      if status == STATUS_OK { Round(crc, c, offset, i, checkCrc, was, wasCrcs, data[..], crcs[..], done); }
      done := if done < (i + 1) * BLOCK_SIZE then (i + 1) * BLOCK_SIZE else done;
      i := i + 1;
    }
    if status == STATUS_OK { BulkShorter(c, offset, data[..], done, full * BLOCK_SIZE); }
    if status == ERROR_CRC { BadStays(crc, c, offset, i, full); }
    if status == ERROR_BNUMTOOBIG { NoMoreBad(crc, c, offset, i, full); }
  }

  lemma NoneBad(crc: seq<u8> -> nat, c: ChunkFile, offset: nat)
    requires c.Whole()
    ensures !AnyBad(crc, c, offset, 0)
  {}

  /** Looking at block i. */
  lemma NextBlock(crc: seq<u8> -> nat, c: ChunkFile, offset: nat, was: seq<u8>, data: seq<u8>, done: nat, i: nat)
    requires c.Whole() && BulkRead(c, offset, was, 0, done) && (i + 1) * BLOCK_SIZE <= done && |data| == |was|
    requires offset / BLOCK_SIZE + i < c.blocks && forall k :: 0 <= k < |was| ==> data[k] == was[k]
    ensures (i + 1) * BLOCK_SIZE <= |data|
    ensures AnyBad(crc, c, offset, i + 1) <==>
            AnyBad(crc, c, offset, i) || crc(data[i * BLOCK_SIZE..(i + 1) * BLOCK_SIZE]) != c.crcs[offset / BLOCK_SIZE + i]
  {
    assert data == was;
    BulkSlice(c, offset, data, done, i);
    hide BulkRead, BulkBlock;
    var next := i + 1;
    if k: nat :| BadBlock(crc, c, offset, i, k) { assert BadBlock(crc, c, offset, next, k); }
    if k: nat :| BadBlock(crc, c, offset, next, k) && k != offset / BLOCK_SIZE + i { assert BadBlock(crc, c, offset, i, k); }
    assert BadBlock(crc, c, offset, next, offset / BLOCK_SIZE + i) <==>
           crc(data[i * BLOCK_SIZE..(i + 1) * BLOCK_SIZE]) != c.crcs[offset / BLOCK_SIZE + i];
  }

  /** Only stored blocks are looked at. */
  lemma NoMoreBad(crc: seq<u8> -> nat, c: ChunkFile, offset: nat, i: nat, n: nat)
    requires c.Whole() && i <= n && offset / BLOCK_SIZE + i >= c.blocks
    ensures AnyBad(crc, c, offset, n) == AnyBad(crc, c, offset, i)
  {
    hide BulkBlock;
    if k: nat :| BadBlock(crc, c, offset, i, k) { assert BadBlock(crc, c, offset, n, k); }
    if k: nat :| BadBlock(crc, c, offset, n, k) { assert BadBlock(crc, c, offset, i, k); }
  }

  lemma BadStays(crc: seq<u8> -> nat, c: ChunkFile, offset: nat, i: nat, full: nat)
    requires c.Whole() && i <= full && AnyBad(crc, c, offset, i)
    ensures AnyBad(crc, c, offset, full)
  {
    hide BulkBlock;
    var k: nat :| BadBlock(crc, c, offset, i, k);
    assert BadBlock(crc, c, offset, full, k);
  }

  lemma NoCrcsRead(crc: seq<u8> -> nat, data: seq<u8>, crcs: seq<nat>)
    ensures CrcsRead(crc, data, crcs, 0)
  {}

  lemma BulkShorter(c: ChunkFile, offset: nat, data: seq<u8>, done: nat, to: nat)
    requires c.Whole() && BulkRead(c, offset, data, 0, done) && to <= done
    ensures BulkRead(c, offset, data, 0, to)
  {}

  lemma SoundBlock(crc: seq<u8> -> nat, c: ChunkFile, offset: nat, was: seq<u8>, data: seq<u8>, i: nat, done: nat)
    requires c.Whole() && Sound(crc, c) && offset % BLOCK_SIZE == 0 && offset / BLOCK_SIZE + i < c.blocks
    requires |data| == |was| && (i + 1) * BLOCK_SIZE <= done && BulkRead(c, offset, was, 0, done)
    requires forall k :: 0 <= k < |was| ==> data[k] == was[k]
    ensures crc(data[i * BLOCK_SIZE..(i + 1) * BLOCK_SIZE]) == c.crcs[offset / BLOCK_SIZE + i]
  {
    AlignedCrc(crc, c, offset, data, i);
  }

  // ---------------------------------------------------------------- the partial block

  lemma LastPart(data: seq<u8>, at: nat, payload: seq<u8>, from: nat)
    requires at <= |data| && from + |data| - at <= |payload|
    requires forall i :: at <= i < |data| ==> data[i] == payload[from + i - at]
    ensures data[at..] == payload[from..from + |data| - at]
  {}

  lemma DiskSlice(c: ChunkFile, start: nat, n: nat, within: nat, left: nat)
    requires within + left <= n
    ensures DiskBytes(c, start, n)[within..within + left] == DiskBytes(c, start + within, left)
  {}

  /** The answer for a partial block: it is checked whole, against the table, even behind the
      end of the chunk. */
  function PartialStatus(crc: seq<u8> -> nat, c: ChunkFile, block: nat, readable: bool): Status
    requires c.Whole()
  {
    if block >= BLOCKS_IN_CHUNK then ERROR_BNUMTOOBIG
    else if block < c.blocks && !readable then ERROR_IO
    else if crc(DiskBytes(c, block * BLOCK_SIZE, BLOCK_SIZE)) != c.crcs[block] then ERROR_CRC
    else STATUS_OK
  }

  /** A partial read behind the end of the chunk fails exactly when the table has something
      else there than the CRC of an empty block. */
  lemma PartialBehindEnd(crc: seq<u8> -> nat, c: ChunkFile, block: nat, readable: bool)
    requires c.Whole() && c.blocks <= block < BLOCKS_IN_CHUNK
    ensures PartialStatus(crc, c, block, readable) == if c.crcs[block] == EmptyCrc(crc) then STATUS_OK else ERROR_CRC
  {
    BlockOnDisk(c, block);
  }

  /** After a truncation a partial read behind the new end fails exactly when the block was cut
      off at a block boundary and its content had not the CRC of an empty block. */
  lemma ReadBehindTruncated(crc: seq<u8> -> nat, c: ChunkFile, length: nat, block: nat, readable: bool)
    requires Sound(crc, c) && length <= CHUNK_SIZE && BlocksFor(length) <= block < BLOCKS_IN_CHUNK
    ensures var t := ChunkFile(c.version, BlocksFor(length), ChunkFiles.Truncated(c.data, length),
                               TruncatedCrcs(crc, c.data, c.blocks, c.crcs, length));
            && t.Whole()
            && PartialStatus(crc, t, block, readable) ==
               if length % BLOCK_SIZE == 0 && block < c.blocks && crc(Block(c.data, block)) != EmptyCrc(crc) then ERROR_CRC else STATUS_OK
  {
    var t := ChunkFile(c.version, BlocksFor(length), ChunkFiles.Truncated(c.data, length), TruncatedCrcs(crc, c.data, c.blocks, c.crcs, length));
    TruncatedTable(crc, c.data, c.blocks, c.crcs, length);
    TruncatedTail(crc, c.data, c.blocks, c.crcs, length, block);
    hide TruncatedCrcs, ChunkFiles.Truncated;
    PartialBehindEnd(crc, t, block, readable);
  }

  /** The same for a copy: it fails for every block cut off. */
  lemma ReadBehindCopy(crc: seq<u8> -> nat, c: ChunkFile, length: nat, block: nat, readable: bool)
    requires Sound(crc, c) && length <= CHUNK_SIZE && BlocksFor(length) <= block < BLOCKS_IN_CHUNK
    ensures var t := ChunkFile(c.version, BlocksFor(length), ChunkFiles.Truncated(c.data, length),
                               CopyCrcs(crc, c.data, c.blocks, c.crcs, length));
            && t.Whole()
            && PartialStatus(crc, t, block, readable) ==
               if block < c.blocks && crc(Block(c.data, block)) != EmptyCrc(crc) then ERROR_CRC else STATUS_OK
  {
    var t := ChunkFile(c.version, BlocksFor(length), ChunkFiles.Truncated(c.data, length), CopyCrcs(crc, c.data, c.blocks, c.crcs, length));
    CopyTable(crc, c.data, c.blocks, c.crcs, length);
    CopyTail(crc, c.data, c.blocks, c.crcs, length, block);
    hide CopyCrcs, ChunkFiles.Truncated;
    PartialBehindEnd(crc, t, block, readable);
  }

  /** A CRC that tells blocks by their first byte. */
  function FirstByte(x: seq<u8>): nat { if x == [] then 0 else x[0] as nat }

  /** Two blocks, the second of ones. */
  function TwoBlocks(): ChunkFile {
    ChunkFile(1, 2, seq(2 * BLOCK_SIZE, i => if i < BLOCK_SIZE then 0 else 1), seq(BLOCKS_IN_CHUNK, k => if k == 1 then 1 else 0))
  }

  lemma TwoBlocksSound()
    ensures Sound(FirstByte, TwoBlocks()) && FirstByte(Block(TwoBlocks().data, 1)) != EmptyCrc(FirstByte)
  {}

  /** Cut to one block, or copied with the first byte alone, the chunk can no longer be read
      behind its end; cut to the first byte it can. */
  lemma StaleEntry()
    ensures var c := TwoBlocks();
            && Sound(FirstByte, c)
            && (var t := ChunkFile(1, 1, ChunkFiles.Truncated(c.data, BLOCK_SIZE), TruncatedCrcs(FirstByte, c.data, 2, c.crcs, BLOCK_SIZE));
                t.Whole() && PartialStatus(FirstByte, t, 1, true) == ERROR_CRC)
            && (var t := ChunkFile(1, 1, ChunkFiles.Truncated(c.data, 1), TruncatedCrcs(FirstByte, c.data, 2, c.crcs, 1));
                t.Whole() && PartialStatus(FirstByte, t, 1, true) == STATUS_OK)
            && (var t := ChunkFile(1, 1, ChunkFiles.Truncated(c.data, 1), CopyCrcs(FirstByte, c.data, 2, c.crcs, 1));
                t.Whole() && PartialStatus(FirstByte, t, 1, true) == ERROR_CRC)
  {
    TwoBlocksSound();
    var c := TwoBlocks();
    hide Sound, TruncatedCrcs, ChunkFiles.Truncated, CopyCrcs, PartialStatus, EmptyCrc, FirstByte;
    ReadBehindTruncated(FirstByte, c, BLOCK_SIZE, 1, true);
    ReadBehindTruncated(FirstByte, c, 1, 1, true);
    ReadBehindCopy(FirstByte, c, 1, 1, true);
  }

  /** The last, partial block of a read, checked as a whole before it is cut. */
  method ReadPartial(crc: seq<u8> -> nat, c: ChunkFile, offset: nat, full: nat, left: nat, readable: bool,
                     data: array<u8>, crcs: array<nat>)
    returns (status: Status)
    requires c.Whole() && 0 < left < BLOCK_SIZE && full * BLOCK_SIZE + left == data.Length && full < crcs.Length
    requires full == 0 ==> offset % BLOCK_SIZE + left <= BLOCK_SIZE
    modifies data, crcs
    ensures data[..full * BLOCK_SIZE] == old(data[..full * BLOCK_SIZE]) && crcs[..full] == old(crcs[..full])
    ensures status == PartialStatus(crc, c, offset / BLOCK_SIZE + full, readable)
    ensures status == STATUS_OK ==>
              && data[full * BLOCK_SIZE..] == DiskBytes(c, TailStart(offset, full), left)
              && crcs[full] == crc(data[full * BLOCK_SIZE..])
  {
    hide DiskBytes;
    var block := offset / BLOCK_SIZE + full;
    var within := if full == 0 then offset % BLOCK_SIZE else 0;
    if block >= BLOCKS_IN_CHUNK { return ERROR_BNUMTOOBIG; }
    if block < c.blocks && !readable { return ERROR_IO; }
    var tmp := DiskBytes(c, block * BLOCK_SIZE, BLOCK_SIZE);
    if crc(tmp) != c.crcs[block] { return ERROR_CRC; }
    crcs[full] := crc(tmp[within..within + left]);
    UpdateInterval(data, full * BLOCK_SIZE, tmp, within, left);
    LastPart(data[..], full * BLOCK_SIZE, tmp, within);
    DiskSlice(c, block * BLOCK_SIZE, BLOCK_SIZE, within, left);
    status := STATUS_OK;
  }

  // ---------------------------------------------------------------- the whole read

  lemma Assembled(c: ChunkFile, offset: nat, was: seq<u8>, data: seq<u8>)
    requires c.Whole() && |was| == |data|
    requires var full, left := |data| / BLOCK_SIZE, |data| % BLOCK_SIZE;
             && BulkRead(c, offset, was, 0, full * BLOCK_SIZE) && data[..full * BLOCK_SIZE] == was[..full * BLOCK_SIZE]
             && (left > 0 ==> data[full * BLOCK_SIZE..] == DiskBytes(c, TailStart(offset, full), left))
    ensures data == Fetched(c, offset, |data|)
  {
    var end := |data| / BLOCK_SIZE * BLOCK_SIZE;
    forall i | 0 <= i < |data| ensures data[i] == FetchedByte(c, offset, |data|, i) {
      if i < end {
        assert data[i] == data[..end][i] == was[..end][i] == was[i];
      } else {
        assert data[i] == data[end..][i - end];
      }
    }
  }

  lemma SliceOfPrefix(s: seq<u8>, end: nat, from: nat, to: nat)
    requires from <= to <= end <= |s|
    ensures s[from..to] == s[..end][from..to]
  {}

  lemma AssembledCrcs(crc: seq<u8> -> nat, was: seq<u8>, wasCrcs: seq<nat>, data: seq<u8>, crcs: seq<nat>)
    requires |was| == |data| && |wasCrcs| == |crcs| == NumBlocks(|data|)
    requires var full := |data| / BLOCK_SIZE;
             && CrcsRead(crc, was, wasCrcs, full) && data[..full * BLOCK_SIZE] == was[..full * BLOCK_SIZE] && crcs[..full] == wasCrcs[..full]
             && (|data| % BLOCK_SIZE > 0 ==> crcs[full] == crc(data[full * BLOCK_SIZE..]))
    ensures CrcsMatch(crc, data, crcs)
  {
    var full := |data| / BLOCK_SIZE;
    var end := full * BLOCK_SIZE;
    forall k | 0 <= k < NumBlocks(|data|) ensures crcs[k] == crc(BlockAt(data, k)) {
      if k < full {
        assert crcs[k] == crcs[..full][k] == wasCrcs[..full][k] == wasCrcs[k];
        var from, to := k * BLOCK_SIZE, (k + 1) * BLOCK_SIZE;
        assert to <= end;
        SliceOfPrefix(data, end, from, to);
        SliceOfPrefix(was, end, from, to);
      } else {
        assert BlockAt(data, k) == data[end..];
      }
    }
  }

  /** Whether one of the stored blocks the full blocks are read from cannot be read. */
  method AnyUnreadable(c: ChunkFile, offset: nat, full: nat, readable: nat -> bool) returns (bad: bool)
    ensures bad <==> exists b :: offset / BLOCK_SIZE <= b < c.blocks && b * BLOCK_SIZE < offset + full * BLOCK_SIZE && !readable(b)
  {
    var b := offset / BLOCK_SIZE;
    while b < c.blocks && b * BLOCK_SIZE < offset + full * BLOCK_SIZE
      invariant b >= offset / BLOCK_SIZE
      invariant forall k :: offset / BLOCK_SIZE <= k < b ==> readable(k)
    {
      if !readable(b) { return true; }
      b := b + 1;
    }
    bad := false;
  }

  /** The part of hddRead that reads the disk. */
  method ReadDisk(crc: seq<u8> -> nat, c: ChunkFile, offset: nat, checkCrc: bool, readable: nat -> bool,
                  data: array<u8>, crcs: array<nat>)
    returns (status: Status)
    requires c.Whole() && crcs.Length == NumBlocks(data.Length)
    modifies data, crcs
    ensures var block, full, left := offset / BLOCK_SIZE, data.Length / BLOCK_SIZE, data.Length % BLOCK_SIZE;
            status == if full == 0 && offset % BLOCK_SIZE + data.Length > BLOCK_SIZE then ERROR_WRONGSIZE
                      else if full > 0 && exists b :: block <= b < c.blocks && b * BLOCK_SIZE < offset + full * BLOCK_SIZE && !readable(b)
                      then ERROR_IO
                      else if checkCrc && AnyBad(crc, c, offset, full) then ERROR_CRC
                      else if full > 0 && block + full > BLOCKS_IN_CHUNK then ERROR_BNUMTOOBIG
                      else if left == 0 then STATUS_OK
                      else PartialStatus(crc, c, block + full, readable(block + full))
    ensures status == STATUS_OK ==> data[..] == Fetched(c, offset, data.Length)
    ensures status == STATUS_OK && Trusted(crc, c, offset, checkCrc || data.Length < BLOCK_SIZE) ==> CrcsMatch(crc, data[..], crcs[..])
    ensures Sound(crc, c) && (forall b :: readable(b)) && ReadShape(offset, data.Length) && offset + data.Length <= CHUNK_SIZE ==>
              status == STATUS_OK
  {
    hide BulkRead, CrcsRead, TableOk, CrcsMatch, DiskBytes, Fetched, Sound, PartialStatus, Trusted, AnyBad;
    var block, full, left := offset / BLOCK_SIZE, data.Length / BLOCK_SIZE, data.Length % BLOCK_SIZE;
    status := STATUS_OK;
    if full > 0 {
      var bad := AnyUnreadable(c, offset, full, readable);
      if bad { return ERROR_IO; }
      status := ReadFullBlocks(crc, c, offset, full, checkCrc, data, crcs);
    } else {
      NothingRead(crc, c, offset, data[..], crcs[..]);
      NoneBad(crc, c, offset);
      if offset % BLOCK_SIZE + left > BLOCK_SIZE { return ERROR_WRONGSIZE; }
    }
    ghost var was, wasCrcs := data[..], crcs[..];
    if status == STATUS_OK && left > 0 {
      status := ReadPartial(crc, c, offset, full, left, readable(block + full), data, crcs);
      if Sound(crc, c) && (forall b :: readable(b)) && block + full < BLOCKS_IN_CHUNK { SoundPartial(crc, c, block + full); }
    }
    if status == STATUS_OK {
      Assembled(c, offset, was, data[..]);
      if CrcsRead(crc, was, wasCrcs, full) { AssembledCrcs(crc, was, wasCrcs, data[..], crcs[..]); }
      if full > 0 { SameTrust(crc, c, offset, checkCrc, data.Length); }
    }
  }

  lemma NothingRead(crc: seq<u8> -> nat, c: ChunkFile, offset: nat, data: seq<u8>, crcs: seq<nat>)
    requires c.Whole()
    ensures BulkRead(c, offset, data, 0, 0) && CrcsRead(crc, data, crcs, 0)
  {}

  lemma SameTrust(crc: seq<u8> -> nat, c: ChunkFile, offset: nat, checkCrc: bool, size: nat)
    requires size >= BLOCK_SIZE
    ensures Trusted(crc, c, offset, checkCrc || size < BLOCK_SIZE) == Trusted(crc, c, offset, checkCrc)
  {}

  lemma SoundPartial(crc: seq<u8> -> nat, c: ChunkFile, block: nat)
    requires c.Whole() && Sound(crc, c) && block < BLOCKS_IN_CHUNK
    ensures PartialStatus(crc, c, block, true) == STATUS_OK
  {
    BlockOnDisk(c, block);
  }

  /** A stored full block fails its check by the bytes fetched for it. */
  lemma BadFetched(crc: seq<u8> -> nat, c: ChunkFile, offset: nat, size: nat)
    requires c.Whole()
    ensures var block, full := offset / BLOCK_SIZE, size / BLOCK_SIZE;
            AnyBad(crc, c, offset, full) <==>
            (exists k :: block <= k < block + full && k < c.blocks &&
              crc(Fetched(c, offset, size)[(k - block) * BLOCK_SIZE..(k - block + 1) * BLOCK_SIZE]) != c.crcs[k])
  {
    var block, full := offset / BLOCK_SIZE, size / BLOCK_SIZE;
    hide Fetched, BulkBlock;
    if k: nat :| BadBlock(crc, c, offset, full, k) {
      FetchedSlice(c, offset, size, k - block);
      assert crc(Fetched(c, offset, size)[(k - block) * BLOCK_SIZE..(k - block + 1) * BLOCK_SIZE]) != c.crcs[k];
    }
    if k: nat :| block <= k < block + full && k < c.blocks && crc(Fetched(c, offset, size)[(k - block) * BLOCK_SIZE..(k - block + 1) * BLOCK_SIZE]) != c.crcs[k] {
      FetchedSlice(c, offset, size, k - block);
      assert BadBlock(crc, c, offset, full, k);
    }
  }

  /** Exactly when a read of any shape answers what. A successful one returns what it fetched
      overlaid with every acknowledged block; a read that is aligned or lies inside one block
      returns the bytes asked for, with CRCs that match them. */
  method HddRead(crc: seq<u8> -> nat, chunk: Option<ChunkFile>, version: nat, offset: nat, size: nat,
                 registry: seq<Registered>, checkCrc: bool, readable: nat -> bool)
    returns (status: Status, data: array<u8>, crcs: array<nat>)
    requires (chunk.Some? ==> chunk.value.Whole()) && forall r <- registry :: Described(r)
    ensures data.Length == size && (chunk.None? ==> status == ERROR_NOCHUNK)
    ensures chunk.Some? ==>
              var c, block, full := chunk.value, offset / BLOCK_SIZE, size / BLOCK_SIZE;
              status == if version > 0 && version != c.version then ERROR_WRONGVERSION
                        else if full == 0 && offset % BLOCK_SIZE + size > BLOCK_SIZE then ERROR_WRONGSIZE
                        else if full > 0 && exists b :: block <= b < c.blocks && b * BLOCK_SIZE < offset + full * BLOCK_SIZE && !readable(b)
                        then ERROR_IO
                        else if checkCrc && (exists k | block <= k < block + full && k < c.blocks ::
                                               crc(Fetched(c, offset, size)[(k - block) * BLOCK_SIZE..(k - block + 1) * BLOCK_SIZE]) != c.crcs[k])
                        then ERROR_CRC
                        else if full > 0 && block + full > BLOCKS_IN_CHUNK then ERROR_BNUMTOOBIG
                        else if size % BLOCK_SIZE == 0 then STATUS_OK
                        else if block + full >= BLOCKS_IN_CHUNK then ERROR_BNUMTOOBIG
                        else if block + full < c.blocks && !readable(block + full) then ERROR_IO
                        else if crc(DiskBytes(c, (block + full) * BLOCK_SIZE, BLOCK_SIZE)) != c.crcs[block + full] then ERROR_CRC
                        else STATUS_OK
    ensures chunk.Some? && status == STATUS_OK ==>
              data[..] == PatchedBy(Fetched(chunk.value, offset, size), offset, RepliedBlocks(Buffers(registry)))
    ensures chunk.Some? && status == STATUS_OK && ReadShape(offset, size) ==> forall i :: 0 <= i < size ==>
              data[i] == ByteAt(OnFile(chunk.value), RepliedBlocks(Buffers(registry)), offset + i)
    ensures chunk.Some? && status == STATUS_OK && ReadShape(offset, size) && Trusted(crc, chunk.value, offset, checkCrc || size < BLOCK_SIZE) ==>
              CrcsMatch(crc, data[..], crcs[..])
    ensures chunk.Some? && (version == 0 || version == chunk.value.version) && ReadShape(offset, size) && offset + size <= CHUNK_SIZE ==>
              (Sound(crc, chunk.value) && (forall b :: readable(b)) ==> status == STATUS_OK)
  {
    hide Sound, TableOk, CrcsMatch, Fetched, DiskBytes, PatchedBy, RepliedBlocks, Trusted, ReadShape, AnyBad;
    data := new u8[size];
    crcs := new nat[NumBlocks(size)];
    if chunk.None? { return ERROR_NOCHUNK, data, crcs; }
    var c := chunk.value;
    if c.version != version && version > 0 { return ERROR_WRONGVERSION, data, crcs; }
    status := ReadDisk(crc, c, offset, checkCrc, readable, data, crcs);
    BadFetched(crc, c, offset, size);
    if status == STATUS_OK {
      ghost var bytes := data[..];
      PatchRead(crc, registry, offset, size, data, crcs);
      if ReadShape(offset, size) {
        FetchedRight(c, offset, size);
        Overlaid(c, offset, bytes, RepliedBlocks(Buffers(registry)));
      }
    }
  }

  lemma Overlaid(c: ChunkFile, offset: nat, bytes: seq<u8>, ws: seq<Write>)
    requires bytes == DiskBytes(c, offset, |bytes|)
    ensures forall i :: 0 <= i < |bytes| ==> PatchedBy(bytes, offset, ws)[i] == ByteAt(OnFile(c), ws, offset + i)
  {
    hide PatchedBy, ByteAt;
    forall i | 0 <= i < |bytes| ensures PatchedBy(bytes, offset, ws)[i] == ByteAt(OnFile(c), ws, offset + i) {
      assert bytes[i] == DiskByte(c, offset + i);
      PatchedByteAt(bytes, offset, ws, OnFile(c), i);
    }
  }
}
