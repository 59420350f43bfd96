/** Truncating and copying chunks on a conventional disk: file content and the table of block
    CRCs. */
module ChunkFiles {
  import opened ChunkTypes

  const CHUNK_SIZE: nat := BLOCKS_IN_CHUNK * BLOCK_SIZE

  // ---------------------------------------------------------------- contents

  function Zeros(n: nat): (r: seq<u8>)
    ensures |r| == n && forall i :: 0 <= i < n ==> r[i] == 0
  {
    seq(n, _ => 0)
  }

  /** ftruncate. */
  function Resize(data: seq<u8>, n: nat): (r: seq<u8>)
    ensures |r| == n
  {
    if n <= |data| then data[..n] else data + Zeros(n - |data|)
  }

  function BlocksFor(length: nat): nat { (length + BLOCK_SIZE - 1) / BLOCK_SIZE }

  /** The content cut or extended with zeros to the length, then padded to whole blocks. */
  function Truncated(data: seq<u8>, length: nat): seq<u8> { Resize(Resize(data, length), BlocksFor(length) * BLOCK_SIZE) }

  function Block(data: seq<u8>, k: nat): seq<u8>
    requires (k + 1) * BLOCK_SIZE <= |data|
  {
    data[k * BLOCK_SIZE..(k + 1) * BLOCK_SIZE]
  }

  /** Each block's CRC matches its data. */
  ghost predicate TableOk(crc: seq<u8> -> nat, data: seq<u8>, blocks: nat, crcs: seq<nat>) {
    && |data| == blocks * BLOCK_SIZE && blocks <= |crcs| == BLOCKS_IN_CHUNK
    && forall k :: 0 <= k < blocks ==> crcs[k] == crc(Block(data, k))
  }

  function EmptyCrc(crc: seq<u8> -> nat): nat { crc(Zeros(BLOCK_SIZE)) }

  function EmptiedAt(crc: seq<u8> -> nat, crcs: seq<nat>, from: nat, to: nat, k: nat): nat
    requires k < |crcs|
  {
    if from <= k < to then EmptyCrc(crc) else crcs[k]
  }

  /** crcs with the entries from..to set to that of an empty block. */
  function Emptied(crc: seq<u8> -> nat, crcs: seq<nat>, from: nat, to: nat): (r: seq<nat>)
    ensures |r| == |crcs| && forall k :: 0 <= k < |r| ==> r[k] == if from <= k < to then EmptyCrc(crc) else crcs[k]
  {
    seq(|crcs|, k requires 0 <= k < |crcs| => EmptiedAt(crc, crcs, from, to, k))
  }

  /** The table hddInternalTruncate leaves. */
  function TruncatedCrcs(crc: seq<u8> -> nat, data: seq<u8>, blocks: nat, crcs: seq<nat>, length: nat): (r: seq<nat>)
    requires |data| == blocks * BLOCK_SIZE && blocks <= |crcs| == BLOCKS_IN_CHUNK && length <= CHUNK_SIZE
    ensures |r| == |crcs|
  {
    var full, rest := length / BLOCK_SIZE, length % BLOCK_SIZE;
    if BlocksFor(length) > blocks then Emptied(crc, crcs, blocks, BlocksFor(length))
    else if rest == 0 then crcs
    else Emptied(crc, crcs[full := crc(data[full * BLOCK_SIZE..length] + Zeros(BLOCK_SIZE - rest))], full + 1, blocks)
  }

  /** Byte by byte: the content up to the length, then zeros to the end of its block. */
  lemma TruncatedByte(data: seq<u8>, length: nat, i: nat)
    requires i < |Truncated(data, length)|
    ensures |Truncated(data, length)| % BLOCK_SIZE == 0 && length <= |Truncated(data, length)| < length + BLOCK_SIZE
    ensures Truncated(data, length)[i] == if i < length && i < |data| then data[i] else 0
  {}

  lemma BlockKept(data: seq<u8>, length: nat, k: nat)
    requires (k + 1) * BLOCK_SIZE <= length && (k + 1) * BLOCK_SIZE <= |data|
    ensures (k + 1) * BLOCK_SIZE <= |Truncated(data, length)| && Block(Truncated(data, length), k) == Block(data, k)
  {}

  lemma BlockAdded(data: seq<u8>, length: nat, k: nat)
    requires |data| <= k * BLOCK_SIZE && k < BlocksFor(length)
    ensures (k + 1) * BLOCK_SIZE <= |Truncated(data, length)| && Block(Truncated(data, length), k) == Zeros(BLOCK_SIZE)
  {}

  lemma BlockCut(data: seq<u8>, length: nat)
    requires length <= |data| && length % BLOCK_SIZE > 0
    ensures var full, rest := length / BLOCK_SIZE, length % BLOCK_SIZE;
            && (full + 1) * BLOCK_SIZE <= |Truncated(data, length)|
            && Block(Truncated(data, length), full) == data[full * BLOCK_SIZE..length] + Zeros(BLOCK_SIZE - rest)
  {}

  /** After a truncation every block's CRC matches again. */
  lemma TruncatedTable(crc: seq<u8> -> nat, data: seq<u8>, blocks: nat, crcs: seq<nat>, length: nat)
    requires TableOk(crc, data, blocks, crcs) && length <= CHUNK_SIZE
    ensures TableOk(crc, Truncated(data, length), BlocksFor(length), TruncatedCrcs(crc, data, blocks, crcs, length))
  {
    var now, table := Truncated(data, length), TruncatedCrcs(crc, data, blocks, crcs, length);
    var full, rest := length / BLOCK_SIZE, length % BLOCK_SIZE;
    forall k | 0 <= k < BlocksFor(length) ensures table[k] == crc(Block(now, k)) {
      if k >= blocks {
        BlockAdded(data, length, k);
      } else if (k + 1) * BLOCK_SIZE <= length {
        BlockKept(data, length, k);
      } else {
        BlockCut(data, length);
      }
    }
  }

  /** The entries behind the last block are those of empty blocks, as a read beyond the end
      expects. */
  predicate TailEmpty(crc: seq<u8> -> nat, blocks: nat, crcs: seq<nat>) {
    forall k :: blocks <= k < |crcs| ==> crcs[k] == EmptyCrc(crc)
  }

  /** The entries a truncation leaves behind the last block: from a table with an empty tail,
      those of empty blocks, but for blocks cut off at a block boundary, which keep theirs. */
  lemma TruncatedTail(crc: seq<u8> -> nat, data: seq<u8>, blocks: nat, crcs: seq<nat>, length: nat, k: nat)
    requires TableOk(crc, data, blocks, crcs) && length <= CHUNK_SIZE && TailEmpty(crc, blocks, crcs)
    requires BlocksFor(length) <= k < BLOCKS_IN_CHUNK
    ensures TruncatedCrcs(crc, data, blocks, crcs, length)[k] ==
            if length % BLOCK_SIZE == 0 && k < blocks then crc(Block(data, k)) else EmptyCrc(crc)
  {}

  /** Truncation keeps the tail empty exactly when it does not cut off, at a block boundary, a
      block whose content has another CRC than an empty one. */
  lemma TailEmptyIff(crc: seq<u8> -> nat, data: seq<u8>, blocks: nat, crcs: seq<nat>, length: nat)
    requires TableOk(crc, data, blocks, crcs) && length <= CHUNK_SIZE && TailEmpty(crc, blocks, crcs)
    ensures TailEmpty(crc, BlocksFor(length), TruncatedCrcs(crc, data, blocks, crcs, length)) <==>
            length % BLOCK_SIZE > 0 || forall k :: BlocksFor(length) <= k < blocks ==> crc(Block(data, k)) == EmptyCrc(crc)
  {
    var now := TruncatedCrcs(crc, data, blocks, crcs, length);
    forall k | BlocksFor(length) <= k < BLOCKS_IN_CHUNK
      ensures now[k] == if length % BLOCK_SIZE == 0 && k < blocks then crc(Block(data, k)) else EmptyCrc(crc)
    {
      TruncatedTail(crc, data, blocks, crcs, length, k);
    }
    hide TruncatedCrcs;
    if k: nat :| BlocksFor(length) <= k < blocks && crc(Block(data, k)) != EmptyCrc(crc) && length % BLOCK_SIZE == 0 {
      assert now[k] != EmptyCrc(crc);
    }
  }

  // ---------------------------------------------------------------- the copy's table

  /** The table of the copy: that of the original with the blocks behind its end empty and
      the last one renewed. */
  function CopyCrcs(crc: seq<u8> -> nat, data: seq<u8>, blocks: nat, crcs: seq<nat>, length: nat): (r: seq<nat>)
    requires |data| == blocks * BLOCK_SIZE && blocks <= |crcs| == BLOCKS_IN_CHUNK && length <= CHUNK_SIZE
    ensures |r| == |crcs|
  {
    var full, rest := length / BLOCK_SIZE, length % BLOCK_SIZE;
    if BlocksFor(length) > blocks then Emptied(crc, crcs, blocks, BlocksFor(length))
    else if rest == 0 then crcs
    else crcs[full := crc(data[full * BLOCK_SIZE..length] + Zeros(BLOCK_SIZE - rest))]
  }

  /** It agrees with the table of a truncated original. */
  lemma CopyTable(crc: seq<u8> -> nat, data: seq<u8>, blocks: nat, crcs: seq<nat>, length: nat)
    requires TableOk(crc, data, blocks, crcs) && length <= CHUNK_SIZE
    ensures TableOk(crc, Truncated(data, length), BlocksFor(length), CopyCrcs(crc, data, blocks, crcs, length))
  {
    TruncatedTable(crc, data, blocks, crcs, length);
    var a, b := TruncatedCrcs(crc, data, blocks, crcs, length), CopyCrcs(crc, data, blocks, crcs, length);
    assert forall k :: 0 <= k < BlocksFor(length) ==> a[k] == b[k];
  }

  /** The entries of the copy behind its last block: those of empty blocks, but for the blocks
      that were cut off, whatever the length. */
  lemma CopyTail(crc: seq<u8> -> nat, data: seq<u8>, blocks: nat, crcs: seq<nat>, length: nat, k: nat)
    requires TableOk(crc, data, blocks, crcs) && length <= CHUNK_SIZE && TailEmpty(crc, blocks, crcs)
    requires BlocksFor(length) <= k < BLOCKS_IN_CHUNK
    ensures CopyCrcs(crc, data, blocks, crcs, length)[k] == if k < blocks then crc(Block(data, k)) else EmptyCrc(crc)
  {}

  /** The copy's tail is empty exactly when no block was cut off whose content has another CRC
      than an empty one. */
  lemma CopyTailIff(crc: seq<u8> -> nat, data: seq<u8>, blocks: nat, crcs: seq<nat>, length: nat)
    requires TableOk(crc, data, blocks, crcs) && length <= CHUNK_SIZE && TailEmpty(crc, blocks, crcs)
    ensures TailEmpty(crc, BlocksFor(length), CopyCrcs(crc, data, blocks, crcs, length)) <==>
            forall k :: BlocksFor(length) <= k < blocks ==> crc(Block(data, k)) == EmptyCrc(crc)
  {
    var now := CopyCrcs(crc, data, blocks, crcs, length);
    forall k | BlocksFor(length) <= k < BLOCKS_IN_CHUNK
      ensures now[k] == if k < blocks then crc(Block(data, k)) else EmptyCrc(crc)
    {
      CopyTail(crc, data, blocks, crcs, length, k);
    }
    hide CopyCrcs;
    if k: nat :| BlocksFor(length) <= k < blocks && crc(Block(data, k)) != EmptyCrc(crc) {
      assert now[k] != EmptyCrc(crc);
    }
  }
}
