/** hddRead's use of the already-replied registry: bytes acknowledged but not yet written
    are patched into what was read from disk, and the CRCs of patched blocks renewed. */
module ReadPatch {
  import opened ChunkTypes
  import opened WriteOp

  // ---------------------------------------------------------------- blocks of a read

  function NumBlocks(size: nat): nat { (size + BLOCK_SIZE - 1) / BLOCK_SIZE }

  function BlockEnd(size: nat, k: nat): nat { if (k + 1) * BLOCK_SIZE < size then (k + 1) * BLOCK_SIZE else size }

  /** The k-th block of the bytes read; the last one may be partial. */
  function BlockAt(data: seq<u8>, k: nat): seq<u8>
    requires k < NumBlocks(|data|)
  {
    data[k * BLOCK_SIZE..BlockEnd(|data|, k)]
  }

  /** The k-th CRC is that of the k-th block, over the block's own length. */
  ghost predicate CrcsMatch(crc: seq<u8> -> nat, data: seq<u8>, crcs: seq<nat>) {
    NumBlocks(|data|) <= |crcs| && forall k :: 0 <= k < NumBlocks(|data|) ==> crcs[k] == crc(BlockAt(data, k))
  }

  /** A read is block aligned or lies inside one block. */
  predicate ReadShape(offset: nat, size: nat) { offset % BLOCK_SIZE == 0 || offset % BLOCK_SIZE + size <= BLOCK_SIZE }

  function PatchedByte(data: seq<u8>, offset: nat, w: Write, i: nat): u8
    requires i < |data|
  {
    if w.Covers(offset + i) then w.data[offset + i - w.Start()] else data[i]
  }

  /** The bytes of a read after one write is applied to them. */
  function Patched(data: seq<u8>, offset: nat, w: Write): (r: seq<u8>)
    ensures |r| == |data| && forall i :: 0 <= i < |r| ==> r[i] == PatchedByte(data, offset, w, i)
  {
    seq(|data|, i requires 0 <= i < |data| => PatchedByte(data, offset, w, i))
  }

  /** A write touches only one block of a read. */
  lemma OneBlockTouched(offset: nat, size: nat, w: Write, i: nat, j: nat)
    requires ReadShape(offset, size) && w.InBlock() && i < size && j < size
    requires w.Covers(offset + i) && w.Covers(offset + j)
    ensures i / BLOCK_SIZE == j / BLOCK_SIZE
  {}

  lemma OtherBlocksKept(data: seq<u8>, offset: nat, w: Write, i: nat, k: nat)
    requires ReadShape(offset, |data|) && w.InBlock() && i < |data| && w.Covers(offset + i)
    requires k < NumBlocks(|data|) && k != i / BLOCK_SIZE
    ensures BlockAt(Patched(data, offset, w), k) == BlockAt(data, k)
  {
    forall j | k * BLOCK_SIZE <= j < BlockEnd(|data|, k) ensures Patched(data, offset, w)[j] == data[j] {
      if w.Covers(offset + j) { OneBlockTouched(offset, |data|, w, i, j); }
    }
  }

  /** Copying the common bytes of read and write is applying the write. */
  lemma PatchedIs(before: seq<u8>, after: seq<u8>, offset: nat, w: Write, at: nat, from: nat, count: nat)
    requires |after| == |before| && at + count <= |before| && from + count <= |w.data|
    requires offset + at == w.Start() + from && (from == 0 || at == 0)
    requires from + count == |w.data| || at + count == |before|
    requires forall i :: 0 <= i < |before| ==> after[i] == if at <= i < at + count then w.data[from + i - at] else before[i]
    ensures after == Patched(before, offset, w)
  {
    forall i | 0 <= i < |before| ensures after[i] == Patched(before, offset, w)[i] {}
  }

  lemma UntouchedIs(data: seq<u8>, offset: nat, w: Write)
    requires offset + |data| <= w.Start() || w.Start() + |w.data| <= offset || |data| == 0 || |w.data| == 0
    ensures Patched(data, offset, w) == data
  {}

  /** Renewing the CRC of the block a write touches makes all CRCs match again. */
  lemma CrcsRenewed(crc: seq<u8> -> nat, before: seq<u8>, crcs: seq<nat>, offset: nat, w: Write, i: nat)
    requires ReadShape(offset, |before|) && w.InBlock() && i < |before| && w.Covers(offset + i)
    requires CrcsMatch(crc, before, crcs)
    ensures i / BLOCK_SIZE < NumBlocks(|before|)
    ensures var after, k := Patched(before, offset, w), i / BLOCK_SIZE;
            CrcsMatch(crc, after, crcs[k := crc(BlockAt(after, k))])
  {
    forall k | 0 <= k < NumBlocks(|before|) && k != i / BLOCK_SIZE
      ensures BlockAt(Patched(before, offset, w), k) == BlockAt(before, k)
    {
      OtherBlocksKept(before, offset, w, i, k);
    }
  }

  /** OutputBuffer::updateIntervalBlockData. */
  method UpdateInterval(data: array<u8>, at: nat, payload: seq<u8>, from: nat, count: nat)
    requires at + count <= data.Length && from + count <= |payload|
    modifies data
    ensures forall i :: 0 <= i < data.Length ==>
              data[i] == if at <= i < at + count then payload[from + i - at] else old(data[i])
  {
    forall i | 0 <= i < count { data[at + i] := payload[from + i]; }
  }

  /** One round of hddUpdateOutputBufferWithAlreadyRepliedInputBuffers. */
  method PatchOne(crc: seq<u8> -> nat, info: Info, payload: seq<u8>, offset: nat, size: nat, data: array<u8>, crcs: array<nat>,
                  ghost w: Write)
    requires data.Length == size && NumBlocks(size) <= crcs.Length
    requires info == w.ToInfo() && payload == w.data && w.InBlock()
    modifies data, crcs
    ensures data[..] == Patched(old(data[..]), offset, w)
    ensures ReadShape(offset, size) && CrcsMatch(crc, old(data[..]), old(crcs[..])) ==> CrcsMatch(crc, data[..], crcs[..])
  {
    hide CrcsMatch, Patched, BlockAt, ReadShape;
    var opOffset := info.offset + info.blockNum * BLOCK_SIZE;
    var opEnd := opOffset + info.size;
    var commonStart := if offset > opOffset then offset else opOffset;
    var commonEnd := if offset + size < opEnd then offset + size else opEnd;
    if commonStart >= commonEnd {
      UntouchedIs(data[..], offset, w);
      return;
    }
    var startIn := commonStart - opOffset;
    var startOut := commonStart - offset;
    var index, blockSize := 0, size;
    ghost var at := startOut;
    if offset % BLOCK_SIZE == 0 {
      blockSize := if startOut / BLOCK_SIZE == size / BLOCK_SIZE then (size - 1) % BLOCK_SIZE + 1 else BLOCK_SIZE;
      index := startOut / BLOCK_SIZE;
      startOut := startOut % BLOCK_SIZE;
    }
    Inside(offset, size, at, index, blockSize);
    if ReadShape(offset, size) { Placed(offset, size, at, index, blockSize); }
    ghost var before := data[..];
    UpdateInterval(data, index * BLOCK_SIZE + startOut, payload, startIn, commonEnd - commonStart);
    ghost var after := data[..];
    PatchedIs(before, after, offset, w, at, startIn, commonEnd - commonStart);
    if ReadShape(offset, size) {
      if CrcsMatch(crc, before, crcs[..]) { CrcsRenewed(crc, before, crcs[..], offset, w, at); }
      assert data[index * BLOCK_SIZE..index * BLOCK_SIZE + blockSize] == BlockAt(after, index) by { BlockIs(after, index); }
    }
    crcs[index] := crc(data[index * BLOCK_SIZE..index * BLOCK_SIZE + blockSize]);
    assert ReadShape(offset, size) ==> crcs[..] == old(crcs[..])[index := crc(BlockAt(after, index))];
  }

  /** The renewed part lies inside the bytes read, whatever the shape of the read. */
  lemma Inside(offset: nat, size: nat, at: nat, index: nat, blockSize: nat)
    requires at < size
    requires if offset % BLOCK_SIZE == 0
             then index == at / BLOCK_SIZE &&
                  blockSize == (if at / BLOCK_SIZE == size / BLOCK_SIZE then (size - 1) % BLOCK_SIZE + 1 else BLOCK_SIZE)
             else index == 0 && blockSize == size
    ensures index < NumBlocks(size) && index * BLOCK_SIZE + blockSize <= size
    ensures offset % BLOCK_SIZE == 0 ==> index * BLOCK_SIZE + at % BLOCK_SIZE == at
  {}

  lemma BlockIs(data: seq<u8>, k: nat)
    requires k < NumBlocks(|data|)
    ensures k * BLOCK_SIZE <= BlockEnd(|data|, k) <= |data| && BlockAt(data, k) == data[k * BLOCK_SIZE..BlockEnd(|data|, k)]
  {}

  /** The block and block length computed for the patch are those of the byte `at`. */
  lemma Placed(offset: nat, size: nat, at: nat, index: nat, blockSize: nat)
    requires ReadShape(offset, size) && at < size
    requires if offset % BLOCK_SIZE == 0
             then index == at / BLOCK_SIZE &&
                  blockSize == (if at / BLOCK_SIZE == size / BLOCK_SIZE then (size - 1) % BLOCK_SIZE + 1 else BLOCK_SIZE)
             else index == 0 && blockSize == size
    ensures index == at / BLOCK_SIZE < NumBlocks(size) && index * BLOCK_SIZE + blockSize == BlockEnd(size, index)
  {}

  // ---------------------------------------------------------------- the whole registry

  /** A registered buffer with its snapshot of write records. */
  datatype Registered = Registered(snapshot: seq<Info>, buffer: Buf)

  /** The snapshot describes the replied blocks. */
  ghost predicate Described(r: Registered) {
    && r.buffer.replied <= |r.snapshot|
    && forall i :: 0 <= i < r.buffer.replied ==>
         r.snapshot[i] == r.buffer.blocks[i].ToInfo() && r.buffer.blocks[i].InBlock()
  }

  /** The acknowledged blocks of some buffers, in order. */
  function RepliedBlocks(bs: seq<Buf>): seq<Write> {
    if bs == [] then [] else RepliedBlocks(bs[..|bs| - 1]) + bs[|bs| - 1].blocks[..bs[|bs| - 1].replied]
  }

  function Buffers(registry: seq<Registered>): (r: seq<Buf>)
    ensures |r| == |registry|
  {
    seq(|registry|, i requires 0 <= i < |registry| => registry[i].buffer)
  }

  function PatchedBy(data: seq<u8>, offset: nat, ws: seq<Write>): (r: seq<u8>)
    ensures |r| == |data|
  {
    if ws == [] then data else Patched(PatchedBy(data, offset, ws[..|ws| - 1]), offset, ws[|ws| - 1])
  }

  lemma PatchedBySnoc(data: seq<u8>, offset: nat, ws: seq<Write>, w: Write)
    ensures PatchedBy(data, offset, ws + [w]) == Patched(PatchedBy(data, offset, ws), offset, w)
  {
    assert (ws + [w])[..|ws|] == ws;
  }

  /** Patching a read is applying the writes to the chunk. */
  lemma {:induction false} PatchedByteAt(data: seq<u8>, offset: nat, ws: seq<Write>, init: Content, i: nat)
    requires i < |data| && init(offset + i) == data[i]
    ensures PatchedBy(data, offset, ws)[i] == ByteAt(init, ws, offset + i)
  {
    if ws != [] { PatchedByteAt(data, offset, ws[..|ws| - 1], init, i); }
  }

  lemma RepliedBlocksSnoc(registry: seq<Registered>, j: nat)
    requires j < |registry|
    ensures var b := registry[j].buffer;
            RepliedBlocks(Buffers(registry[..j + 1])) == RepliedBlocks(Buffers(registry[..j])) + b.blocks[..b.replied]
  {
    assert Buffers(registry[..j + 1])[..j] == Buffers(registry[..j]);
  }

  /** hddUpdateOutputBufferWithAlreadyRepliedInputBuffers. */
  method PatchRead(crc: seq<u8> -> nat, registry: seq<Registered>, offset: nat, size: nat, data: array<u8>, crcs: array<nat>)
    requires data.Length == size && NumBlocks(size) <= crcs.Length
    requires forall r <- registry :: Described(r)
    modifies data, crcs
    ensures data[..] == PatchedBy(old(data[..]), offset, RepliedBlocks(Buffers(registry)))
    ensures ReadShape(offset, size) && CrcsMatch(crc, old(data[..]), old(crcs[..])) ==> CrcsMatch(crc, data[..], crcs[..])
  {
    hide CrcsMatch, PatchedBy, Patched, ReadShape;
    ghost var before, matched := data[..], ReadShape(offset, size) && CrcsMatch(crc, data[..], crcs[..]);
    ghost var ws := [];
    PatchedByNone(before, offset);
    for j := 0 to |registry|
      invariant ws == RepliedBlocks(Buffers(registry[..j]))
      invariant data[..] == PatchedBy(before, offset, ws) && (matched ==> CrcsMatch(crc, data[..], crcs[..]))
    {
      var r := registry[j];
      assert Described(r);
      ghost var was := ws;
      assert ws + r.buffer.blocks[..0] == ws;
      for i := 0 to r.buffer.replied
        invariant ws == was + r.buffer.blocks[..i]
        invariant data[..] == PatchedBy(before, offset, ws) && (matched ==> CrcsMatch(crc, data[..], crcs[..]))
      {
        ghost var w := r.buffer.blocks[i];
        PatchedBySnoc(before, offset, ws, w);
        PatchOne(crc, r.snapshot[i], r.buffer.blocks[i].data, offset, size, data, crcs, w);
        assert was + r.buffer.blocks[..i + 1] == was + r.buffer.blocks[..i] + [w];
        ws := ws + [w];
      }
      RepliedBlocksSnoc(registry, j);
    }
    assert registry[..|registry|] == registry;
  }

  lemma PatchedByNone(data: seq<u8>, offset: nat)
    ensures PatchedBy(data, offset, []) == data
  {}
}
