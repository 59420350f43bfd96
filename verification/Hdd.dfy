/** hddInternalCreateChunk, hddInternalTruncate, hddInternalDuplicate and
    hddInternalDuplicateTruncate, with every disk call able to fail. */
module Hdds {
  import opened ChunkTypes
  import opened ChunkFiles

  /** A chunk of the registry. `refs` is its reference count, `leaks` counts the calls of
      hddIOEnd on it that failed and left the count as it was; `created` says that its files
      exist under the names the registry gives them, `changed` is wasChanged. */
  datatype Chunk = Chunk(version: nat, refs: int, leaks: int, created: bool, changed: bool, blocks: nat, data: seq<u8>, crcs: seq<nat>)

  function NoCrcs(): (r: seq<nat>)
    ensures |r| == BLOCKS_IN_CHUNK
  {
    seq(BLOCKS_IN_CHUNK, _ => 0)
  }

  class Hdd {
    const crc: seq<u8> -> nat
    /** Which disk calls fail, by their number. */
    const fails: nat -> bool
    var clock: nat
    var chunks: map<nat, Chunk>
    var locked: set<nat>
    /** Calls of hddIOBegin that succeeded less calls of hddIOEnd. */
    ghost var open: int

    constructor (crc: seq<u8> -> nat, fails: nat -> bool)
      ensures chunks == map[] && locked == {} && open == 0
    {
      this.crc, this.fails, clock, chunks, locked := crc, fails, 0, map[], {};
      open := 0;
    }

    /** No disk call fails from here on. */
    ghost predicate Calm()
      reads `clock
    {
      forall t: nat :: t >= clock ==> !fails(t)
    }

    /** None of the disk calls with these numbers fails. */
    ghost predicate NoFault(from: nat, to: nat) { forall t: nat :: from <= t < to ==> !fails(t) }

    lemma Joined(a: nat, b: nat, c: nat)
      requires a <= b <= c
      ensures NoFault(a, c) == (NoFault(a, b) && NoFault(b, c))
    {}

    lemma Single(a: nat)
      ensures NoFault(a, a) && NoFault(a, a + 1) == !fails(a)
    {}

    method Fault() returns (failed: bool)
      modifies `clock
      ensures failed == fails(old(clock)) && clock == old(clock) + 1
    {
      failed := fails(clock);
      clock := clock + 1;
    }

    // -------------------------------------------------------------- the registry

    method FindAndLock(id: nat) returns (found: bool)
      requires id !in locked
      modifies `locked
      ensures found == (id in chunks) && locked == if found then old(locked) + {id} else old(locked)
    {
      found := id in chunks;
      if found { locked := locked + {id}; }
    }

    method Release(id: nat)
      modifies `locked
      ensures locked == old(locked) - {id}
    {
      locked := locked - {id};
    }

    /** hddChunkCreate: the new chunk is locked. */
    method Create(id: nat, version: nat) returns (isNew: bool)
      requires id !in locked
      modifies `chunks, `locked
      ensures isNew == (id !in old(chunks))
      ensures chunks == if isNew then old(chunks)[id := Chunk(version, 0, 0, false, false, 0, [], NoCrcs())] else old(chunks)
      ensures locked == if isNew then old(locked) + {id} else old(locked)
    {
      isNew := id !in chunks;
      if isNew {
        chunks := chunks[id := Chunk(version, 0, 0, false, false, 0, [], NoCrcs())];
        locked := locked + {id};
      }
    }

    /** hddDeleteChunkFromRegistry: the lock goes with the chunk. */
    method Delete(id: nat)
      modifies `chunks, `locked
      ensures chunks == old(chunks) - {id} && locked == old(locked) - {id}
    {
      chunks := chunks - {id};
      locked := locked - {id};
    }

    // -------------------------------------------------------------- disk calls

    method IoBegin(id: nat, isNew: bool) returns (status: Status)
      requires id in chunks
      modifies `clock, `chunks, `open
      ensures status != STATUS_OK ==> chunks == old(chunks) && open == old(open)
      ensures status == STATUS_OK ==>
                && open == old(open) + 1
                && chunks == old(chunks)[id := var c := old(chunks)[id].(refs := old(chunks)[id].refs + 1);
                                               if isNew then c.(created := true, crcs := NoCrcs()) else c]
      ensures clock == old(clock) + 1 && status == if fails(old(clock)) then ERROR_IO else STATUS_OK
    {
      var failed := Fault();
      if failed { return ERROR_IO; }
      var c := chunks[id];
      if isNew { c := c.(created := true, crcs := NoCrcs()); }
      chunks := chunks[id := c.(refs := c.refs + 1)];
      open := open + 1;
      status := STATUS_OK;
    }

    /** hddIOEnd: a changed chunk has its CRCs written first; if that fails the reference is
        kept. */
    method IoEnd(id: nat) returns (status: Status)
      requires id in chunks
      modifies `clock, `chunks, `open
      ensures open == old(open) - 1
      ensures chunks == old(chunks)[id := var c := old(chunks)[id];
                                          if status == STATUS_OK then c.(refs := c.refs - 1, changed := false)
                                          else c.(leaks := c.leaks + 1)]
      ensures clock >= old(clock) && status == if NoFault(old(clock), clock) then STATUS_OK else ERROR_IO
      ensures old(chunks)[id].changed ==> clock == old(clock) + 1
    {
      open := open - 1;
      var c := chunks[id];
      if c.changed {
        var failed := Fault();
        if failed {
          chunks := chunks[id := c.(leaks := c.leaks + 1)];
          return ERROR_IO;
        }
      }
      chunks := chunks[id := c.(refs := c.refs - 1, changed := false)];
      status := STATUS_OK;
    }

    /** renameChunkFile: fails if the files do not exist. The metadata file is renamed first, so
        that a failure of the second rename leaves it where the registry does not look. */
    method Rename(id: nat, version: nat) returns (ok: bool)
      requires id in chunks
      modifies `clock, `chunks
      ensures var c := old(chunks)[id];
              && ok == (c.created && !fails(old(clock)) && !fails(old(clock) + 1))
              && chunks == if ok then old(chunks)[id := c.(version := version)]
                           else if c.created && !fails(old(clock)) then old(chunks)[id := c.(created := false)]
                           else old(chunks)
      ensures clock >= old(clock) && ok == (old(chunks)[id].created && NoFault(old(clock), clock))
    {
      var c := chunks[id];
      var failed := Fault();
      if failed || !c.created { return false; }
      failed := Fault();
      ok := !failed;
      chunks := chunks[id := if ok then c.(version := version) else c.(created := false)];
    }

    method OverwriteVersion(id: nat, version: nat) returns (status: Status)
      requires id in chunks
      modifies `clock, `chunks
      ensures chunks == if status == STATUS_OK then old(chunks)[id := old(chunks)[id].(version := version)] else old(chunks)
      ensures clock == old(clock) + 1 && status == if fails(old(clock)) then ERROR_IO else STATUS_OK
    {
      var failed := Fault();
      if failed { return ERROR_IO; }
      chunks := chunks[id := chunks[id].(version := version)];
      status := STATUS_OK;
    }

    method Ftruncate(id: nat, n: nat) returns (ok: bool)
      requires id in chunks
      modifies `clock, `chunks
      ensures chunks == if ok then old(chunks)[id := old(chunks)[id].(data := Resize(old(chunks)[id].data, n))] else old(chunks)
      ensures clock == old(clock) + 1 && ok == !fails(old(clock))
    {
      var failed := Fault();
      ok := !failed;
      if ok { chunks := chunks[id := chunks[id].(data := Resize(chunks[id].data, n))]; }
    }

    method Pread(id: nat, from: nat, n: nat) returns (ok: bool, bytes: seq<u8>)
      requires id in chunks
      modifies `clock
      ensures ok ==> from + n <= |chunks[id].data| && bytes == chunks[id].data[from..from + n]
      ensures clock == old(clock) + 1 && ok == (!fails(old(clock)) && from + n <= |chunks[id].data|)
    {
      var failed := Fault();
      if failed || from + n > |chunks[id].data| { return false, []; }
      return true, chunks[id].data[from..from + n];
    }

    /** writeChunkData: appended at the file position. */
    method Append(id: nat, bytes: seq<u8>) returns (ok: bool)
      requires id in chunks
      modifies `clock, `chunks
      ensures chunks == if ok then old(chunks)[id := old(chunks)[id].(data := old(chunks)[id].data + bytes)] else old(chunks)
      ensures clock == old(clock) + 1 && ok == !fails(old(clock))
    {
      var failed := Fault();
      ok := !failed;
      if ok { chunks := chunks[id := chunks[id].(data := chunks[id].data + bytes)]; }
    }

    method SetCrcs(id: nat, crcs: seq<nat>)
      requires id in chunks
      modifies `chunks
      ensures chunks == old(chunks)[id := old(chunks)[id].(crcs := crcs)]
    {
      chunks := chunks[id := chunks[id].(crcs := crcs)];
    }

    // -------------------------------------------------------------- the operations

    /** hddIOEnd and hddChunkRelease of a chunk whose operation failed. */
    method GiveUp(id: nat)
      requires id in chunks
      modifies `clock, `chunks, `open, `locked
      ensures open == old(open) - 1 && locked == old(locked) - {id}
      ensures chunks.Keys == old(chunks).Keys && Kept(old(chunks), chunks, id) && SameButRefs(old(chunks)[id], chunks[id])
      ensures RefsFollow(old(chunks), chunks, id, -1) && clock >= old(clock)
    {
      var _ := IoEnd(id);
      Release(id);
    }

    /** hddInternalCreateChunk: on success the new chunk is registered, locked and empty; on
        failure nothing is left of it. */
    method CreateChunk(id: nat, version: nat, hasDisk: bool) returns (status: Status)
      requires id !in locked
      modifies this
      ensures open == old(open)
      ensures status == STATUS_OK ==>
                && id !in old(chunks) && id in chunks && locked == old(locked) + {id} && Kept(old(chunks), chunks, id)
                && chunks[id].version == version && chunks[id].created && chunks[id].data == [] && chunks[id].refs == 0
      ensures status != STATUS_OK ==> locked == old(locked) && chunks == old(chunks)
      ensures clock >= old(clock) && status == if !hasDisk then ERROR_NOSPACE
                                               else if id in old(chunks) then ERROR_CHUNKEXIST
                                               else if NoFault(old(clock), clock) then STATUS_OK else ERROR_IO
      ensures old(Calm()) && hasDisk && id !in old(chunks) ==> status == STATUS_OK
    {
      if !hasDisk { return ERROR_NOSPACE; }
      var isNew := Create(id, version);
      if !isNew { return ERROR_CHUNKEXIST; }
      status := IoBegin(id, true);
      if status != STATUS_OK {
        Delete(id);
        assert chunks == old(chunks);
        return ERROR_IO;
      }
      var failed := Fault();
      if failed {
        var _ := IoEnd(id);
        Delete(id);
        assert chunks == old(chunks);
        return ERROR_IO;
      }
      status := IoEnd(id);
      if status != STATUS_OK {
        Delete(id);
        assert chunks == old(chunks);
      }
    }

    /** The loops writing the CRC of an empty block. */
    method FillEmpty(id: nat, from: nat, to: nat)
      requires id in chunks && from <= to <= |chunks[id].crcs|
      modifies `chunks
      ensures chunks == old(chunks)[id := old(chunks)[id].(crcs := Emptied(crc, old(chunks)[id].crcs, from, to))]
    {
      var crcs := chunks[id].crcs;
      ghost var was := crcs;
      for block := from to to
        invariant |crcs| == |was| && forall k :: 0 <= k < |was| ==> crcs[k] == EmptiedAt(crc, was, from, block, k)
      {
        crcs := crcs[block := crc(Zeros(BLOCK_SIZE))];
      }
      assert crcs == Emptied(crc, was, from, to);
      SetCrcs(id, crcs);
    }

    /** The chunk's data and table are whole blocks. */
    ghost predicate Whole(id: nat)
      reads this
    {
      id in chunks && |chunks[id].data| == chunks[id].blocks * BLOCK_SIZE && chunks[id].blocks <= |chunks[id].crcs| == BLOCKS_IN_CHUNK
    }

    /** The two ftruncates of a shrink inside a block, and the bytes of its last block. */
    method CutData(id: nat, length: nat) returns (ok: bool, bytes: seq<u8>)
      requires Whole(id) && length % BLOCK_SIZE > 0 && BlocksFor(length) <= chunks[id].blocks
      modifies `clock, `chunks
      ensures ok ==> chunks == old(chunks)[id := old(chunks)[id].(data := Truncated(old(chunks)[id].data, length))]
      ensures ok ==> bytes == old(chunks)[id].data[length / BLOCK_SIZE * BLOCK_SIZE..length]
      ensures id in chunks && Kept(old(chunks), chunks, id) && chunks.Keys == old(chunks).Keys && SameFrame(old(chunks)[id], chunks[id])
      ensures clock >= old(clock) && ok == NoFault(old(clock), clock)
    {
      hide Truncated, Resize, BlocksFor;
      var full, rest := length / BLOCK_SIZE, length % BLOCK_SIZE;
      bytes := [];
      CutInside(chunks[id].data, chunks[id].blocks, length);
      ok := Ftruncate(id, full * BLOCK_SIZE + rest);
      if !ok { return; }
      ok := Ftruncate(id, BlocksFor(length) * BLOCK_SIZE);
      if !ok { return; }
      ok, bytes := Pread(id, full * BLOCK_SIZE, rest);
    }

    /** Step 2 of hddInternalTruncate, shrinking to a length inside a block. */
    method ShrinkInside(id: nat, length: nat) returns (ok: bool)
      requires Whole(id) && length % BLOCK_SIZE > 0 && BlocksFor(length) <= chunks[id].blocks
      modifies `clock, `chunks
      ensures ok ==> chunks == old(chunks)[id := old(chunks)[id].(data := Truncated(old(chunks)[id].data, length),
                       crcs := TruncatedCrcs(crc, old(chunks)[id].data, old(chunks)[id].blocks, old(chunks)[id].crcs, length))]
      ensures id in chunks && Kept(old(chunks), chunks, id) && chunks.Keys == old(chunks).Keys && SameFrame(old(chunks)[id], chunks[id])
      ensures clock >= old(clock) && ok == NoFault(old(clock), clock)
    {
      hide Truncated, Emptied, BlocksFor;
      CutInside(chunks[id].data, chunks[id].blocks, length);
      var full, rest := length / BLOCK_SIZE, length % BLOCK_SIZE;
      var originalBlocks := chunks[id].blocks;
      var bytes;
      ok, bytes := CutData(id, length);
      if !ok { return; }
      SetCrcs(id, chunks[id].crcs[full := crc(bytes + Zeros(BLOCK_SIZE - rest))]);
      FillEmpty(id, full + 1, originalBlocks);
    }

    /** Step 2 of hddInternalTruncate. */
    method TruncateContent(id: nat, length: nat) returns (ok: bool)
      requires Whole(id) && length <= CHUNK_SIZE
      modifies `clock, `chunks
      ensures ok ==> chunks == old(chunks)[id := old(chunks)[id].(data := Truncated(old(chunks)[id].data, length),
                       crcs := TruncatedCrcs(crc, old(chunks)[id].data, old(chunks)[id].blocks, old(chunks)[id].crcs, length))]
      ensures id in chunks && Kept(old(chunks), chunks, id) && chunks.Keys == old(chunks).Keys && SameFrame(old(chunks)[id], chunks[id])
      ensures clock >= old(clock) && ok == NoFault(old(clock), clock)
    {
      var blocks := BlocksFor(length);
      ghost var was := chunks[id];
      if blocks > chunks[id].blocks {
        FillEmpty(id, chunks[id].blocks, blocks);
        ok := Ftruncate(id, blocks * BLOCK_SIZE);
        assert Resize(was.data, blocks * BLOCK_SIZE) == Truncated(was.data, length);
      } else if length % BLOCK_SIZE > 0 {
        ok := ShrinkInside(id, length);
      } else {
        ok := Ftruncate(id, blocks * BLOCK_SIZE);
        assert Resize(was.data, blocks * BLOCK_SIZE) == Truncated(was.data, length);
      }
    }

    /** Step 1 of hddInternalTruncate: the chunk is open if and only if it succeeds. */
    method ChangeVersion(id: nat, newVersion: nat) returns (status: Status)
      requires id in chunks
      modifies `clock, `chunks, `locked, `open
      ensures chunks.Keys == old(chunks).Keys && Kept(old(chunks), chunks, id)
      ensures status == STATUS_OK ==>
                && open == old(open) + 1 && locked == old(locked)
                && chunks[id] == old(chunks)[id].(version := newVersion, refs := old(chunks)[id].refs + 1)
      ensures status != STATUS_OK ==>
                && open == old(open) && locked == old(locked) - {id}
                && RefsFollow(old(chunks), chunks, id, 0) && Moved(old(chunks)[id], chunks[id])
      ensures clock >= old(clock) && status == if old(chunks)[id].created && NoFault(old(clock), clock) then STATUS_OK else ERROR_IO
    {
      var renamed := Rename(id, newVersion);
      if !renamed {
        Release(id);
        return ERROR_IO;
      }
      status := IoBegin(id, false);
      if status != STATUS_OK {
        Release(id);
        return;
      }
      status := OverwriteVersion(id, newVersion);
      if status != STATUS_OK { GiveUp(id); }
    }

    /** hddInternalTruncate from step 2 to its end. */
    method TruncateOpen(id: nat, length: nat) returns (status: Status)
      requires Whole(id) && length <= CHUNK_SIZE
      modifies `clock, `chunks, `locked, `open
      ensures open == old(open) - 1 && locked == old(locked) - {id}
      ensures chunks.Keys == old(chunks).Keys && Kept(old(chunks), chunks, id)
      ensures RefsFollow(old(chunks), chunks, id, -1)
      ensures status == STATUS_OK ==>
                && chunks[id].data == Truncated(old(chunks)[id].data, length) && chunks[id].blocks == BlocksFor(length)
                && chunks[id].version == old(chunks)[id].version
                && chunks[id].crcs == TruncatedCrcs(crc, old(chunks)[id].data, old(chunks)[id].blocks, old(chunks)[id].crcs, length)
      ensures status == STATUS_OK && TableOk(crc, old(chunks)[id].data, old(chunks)[id].blocks, old(chunks)[id].crcs) ==>
                TableOk(crc, chunks[id].data, chunks[id].blocks, chunks[id].crcs)
      ensures clock >= old(clock) && status == if NoFault(old(clock), clock) then STATUS_OK else ERROR_IO
    {
      hide TableOk, Truncated, TruncatedCrcs, BlocksFor;
      ghost var c := chunks[id];
      chunks := chunks[id := chunks[id].(changed := true)];
      var ok := TruncateContent(id, length);
      if !ok {
        GiveUp(id);
        return ERROR_IO;
      }
      chunks := chunks[id := chunks[id].(blocks := BlocksFor(length))];
      status := IoEnd(id);
      Release(id);
      if TableOk(crc, c.data, c.blocks, c.crcs) { TruncatedTable(crc, c.data, c.blocks, c.crcs, length); }
    }

    /** hddInternalTruncate: every exit ends what it began and releases the chunk; on success
        the content is the truncated one and the table matches it again. */
    method Truncate(id: nat, oldVersion: nat, newVersion: nat, length: nat) returns (status: Status)
      requires id !in locked && (id in chunks ==> Whole(id))
      modifies this
      ensures open == old(open) && locked == old(locked)
      ensures chunks.Keys == old(chunks).Keys && Kept(old(chunks), chunks, id)
      ensures id in old(chunks) ==> RefsFollow(old(chunks), chunks, id, 0)
      ensures status == STATUS_OK ==> id in old(chunks) && (oldVersion == 0 || oldVersion == old(chunks)[id].version)
      ensures status == STATUS_OK ==>
                && chunks[id].data == Truncated(old(chunks)[id].data, length) && chunks[id].blocks == BlocksFor(length)
                && chunks[id].version == newVersion
                && length <= CHUNK_SIZE
                && chunks[id].crcs == TruncatedCrcs(crc, old(chunks)[id].data, old(chunks)[id].blocks, old(chunks)[id].crcs, length)
      ensures status == STATUS_OK && TableOk(crc, old(chunks)[id].data, old(chunks)[id].blocks, old(chunks)[id].crcs) ==>
                TableOk(crc, chunks[id].data, chunks[id].blocks, chunks[id].crcs)
      ensures clock >= old(clock) && status == if length > CHUNK_SIZE then ERROR_WRONGSIZE
                                               else if id !in old(chunks) then ERROR_NOCHUNK
                                               else if oldVersion != 0 && oldVersion != old(chunks)[id].version then ERROR_WRONGVERSION
                                               else if old(chunks)[id].created && NoFault(old(clock), clock) then STATUS_OK
                                               else ERROR_IO
      ensures old(Calm()) && length <= CHUNK_SIZE && id in old(chunks) && old(chunks)[id].created && (oldVersion == 0 || oldVersion == old(chunks)[id].version) ==>
                status == STATUS_OK
    {
      if length > CHUNK_SIZE { return ERROR_WRONGSIZE; }
      var found := FindAndLock(id);
      if !found { return ERROR_NOCHUNK; }
      if chunks[id].version != oldVersion && oldVersion > 0 {
        Release(id);
        return ERROR_WRONGVERSION;
      }
      status := ChangeVersion(id, newVersion);
      if status != STATUS_OK { return; }
      status := TruncateOpen(id, length);
    }

    // -------------------------------------------------------------- copies

    /** The loops copying blocks one by one. */
    method CopyBlocks(id: nat, copy: nat, n: nat) returns (ok: bool)
      requires id in chunks && copy in chunks && id != copy && n * BLOCK_SIZE <= |chunks[id].data|
      modifies `clock, `chunks
      ensures copy in chunks && chunks.Keys == old(chunks).Keys && Kept(old(chunks), chunks, copy)
      ensures SameFrame(old(chunks)[copy], chunks[copy]) && chunks[copy].crcs == old(chunks)[copy].crcs
      ensures ok ==> chunks[copy].data == old(chunks)[copy].data + chunks[id].data[..n * BLOCK_SIZE]
      ensures clock >= old(clock) && ok == NoFault(old(clock), clock)
    {
      ghost var was, data := chunks[copy], chunks[id].data;
      assert was.data + data[..0] == was.data;
      for block := 0 to n
        invariant copy in chunks && chunks.Keys == old(chunks).Keys && Kept(old(chunks), chunks, copy)
        invariant chunks[copy] == was.(data := was.data + data[..block * BLOCK_SIZE])
        invariant clock >= old(clock) && NoFault(old(clock), clock)
      {
        var bytes;
        ok, bytes := Pread(id, block * BLOCK_SIZE, BLOCK_SIZE);
        if !ok { return; }
        ok := Append(copy, bytes);
        if !ok { return; }
        CopiedBlock(was.data, data, block, bytes);
      }
      ok := true;
    }

    /** A failed copy: both chunks are ended, the copy is deleted, the original released. */
    method Abandon(id: nat, copy: nat)
      requires id in chunks && copy in chunks && id != copy
      modifies `clock, `chunks, `open, `locked
      ensures open == old(open) - 2 && locked == old(locked) - {id, copy}
      ensures chunks.Keys == old(chunks).Keys - {copy} && Intact(old(chunks), chunks, id, copy)
      ensures RefsFollow(old(chunks), chunks, id, -1) && clock >= old(clock)
    {
      var _ := IoEnd(copy);
      Delete(copy);
      GiveUp(id);
    }

    /** Content and table of the copy made by hddInternalDuplicate. */
    method FillCopy(id: nat, copy: nat) returns (ok: bool)
      requires Whole(id) && copy in chunks && id != copy && chunks[copy].data == []
      modifies `clock, `chunks
      ensures copy in chunks && chunks.Keys == old(chunks).Keys && Kept(old(chunks), chunks, copy)
      ensures SameFrame(old(chunks)[copy], chunks[copy])
      ensures ok ==> chunks[copy].data == chunks[id].data && chunks[copy].crcs == chunks[id].crcs
      ensures clock >= old(clock) && ok == NoFault(old(clock), clock)
    {
      SetCrcs(copy, chunks[id].crcs);
      var failed := Fault();
      if failed { return false; }
      ok := CopyBlocks(id, copy, chunks[id].blocks);
      assert [] + chunks[id].data[..chunks[id].blocks * BLOCK_SIZE] == chunks[id].data;
    }

    /** The copy made by hddInternalDuplicateTruncate. */
    method FillTruncated(id: nat, copy: nat, length: nat) returns (ok: bool)
      requires Whole(id) && copy in chunks && id != copy && chunks[copy].data == [] && length <= CHUNK_SIZE
      modifies `clock, `chunks
      ensures copy in chunks && chunks.Keys == old(chunks).Keys && Kept(old(chunks), chunks, copy)
      ensures SameFrame(old(chunks)[copy], chunks[copy])
      ensures ok ==> chunks[copy].data == Truncated(chunks[id].data, length)
      ensures ok ==> chunks[copy].crcs == CopyCrcs(crc, chunks[id].data, chunks[id].blocks, chunks[id].crcs, length)
      ensures clock >= old(clock) && ok == NoFault(old(clock), clock)
    {
      hide Truncated, CopyCrcs, BlocksFor;
      var table;
      if length % BLOCK_SIZE > 0 && BlocksFor(length) <= chunks[id].blocks {
        ok, table := CopyCut(id, copy, length);
      } else {
        ok, table := CopyWhole(id, copy, length);
      }
      if !ok { return; }
      SetCrcs(copy, table);
      var failed := Fault();
      ok := !failed;
    }

    /** Expanding, or shrinking to whole blocks. */
    method CopyWhole(id: nat, copy: nat, length: nat) returns (ok: bool, table: seq<nat>)
      requires Whole(id) && copy in chunks && id != copy && chunks[copy].data == [] && length <= CHUNK_SIZE
      requires length % BLOCK_SIZE == 0 || BlocksFor(length) > chunks[id].blocks
      modifies `clock, `chunks
      ensures copy in chunks && chunks.Keys == old(chunks).Keys && Kept(old(chunks), chunks, copy)
      ensures SameFrame(old(chunks)[copy], chunks[copy])
      ensures ok ==> chunks[copy].data == Truncated(chunks[id].data, length)
      ensures ok ==> table == CopyCrcs(crc, chunks[id].data, chunks[id].blocks, chunks[id].crcs, length)
      ensures clock >= old(clock) && ok == NoFault(old(clock), clock)
    {
      var c, blocks := chunks[id], BlocksFor(length);
      table := c.crcs;
      if blocks > c.blocks {
        ok := CopyBlocks(id, copy, c.blocks);
        if !ok { return; }
        table := Emptied(crc, table, c.blocks, blocks);
        ok := Ftruncate(copy, blocks * BLOCK_SIZE);
        CopiedAll(c.data, c.blocks, length);
      } else {
        ok := CopyBlocks(id, copy, blocks);
        CopiedSome(c.data, length);
      }
    }

    /** Shrinking to a length inside a block: the rest of that block is zeroed. */
    method CopyCut(id: nat, copy: nat, length: nat) returns (ok: bool, table: seq<nat>)
      requires Whole(id) && copy in chunks && id != copy && chunks[copy].data == [] && length <= CHUNK_SIZE
      requires length % BLOCK_SIZE > 0 && BlocksFor(length) <= chunks[id].blocks
      modifies `clock, `chunks
      ensures copy in chunks && chunks.Keys == old(chunks).Keys && Kept(old(chunks), chunks, copy)
      ensures SameFrame(old(chunks)[copy], chunks[copy])
      ensures ok ==> chunks[copy].data == Truncated(chunks[id].data, length)
      ensures ok ==> table == CopyCrcs(crc, chunks[id].data, chunks[id].blocks, chunks[id].crcs, length)
      ensures clock >= old(clock) && ok == NoFault(old(clock), clock)
    {
      hide NoFault, Truncated, CopyCrcs;
      var c, blocks, rest := chunks[id], BlocksFor(length), length % BLOCK_SIZE;
      table := c.crcs;
      ok := CopyBlocks(id, copy, blocks - 1);
      if !ok { return; }
      ghost var read := clock;
      var bytes;
      ok, bytes := Pread(id, (blocks - 1) * BLOCK_SIZE, BLOCK_SIZE);
      Single(read);
      Joined(old(clock), read, read + 1);
      if !ok { return; }
      CopiedCut(c.data, length, bytes);
      CutTable(crc, c.data, c.blocks, c.crcs, length);
      table := table[blocks - 1 := crc(bytes[..rest] + Zeros(BLOCK_SIZE - rest))];
      ok := Append(copy, bytes[..rest] + Zeros(BLOCK_SIZE - rest));
      Single(read + 1);
      Joined(old(clock), read + 1, read + 2);
    }

    /** The checks both copying operations start with: on success both chunks are locked. */
    method Prepare(id: nat, version: nat, copy: nat, copyVersion: nat, hasDisk: bool) returns (status: Status)
      requires id !in locked && copy !in locked
      modifies `chunks, `locked
      ensures status == STATUS_OK ==>
                && id in old(chunks) && copy !in old(chunks) && (version == 0 || version == old(chunks)[id].version)
                && locked == old(locked) + {id, copy}
                && chunks == old(chunks)[copy := Chunk(copyVersion, 0, 0, false, false, 0, [], NoCrcs())]
      ensures status != STATUS_OK ==> locked == old(locked) && chunks == old(chunks)
      ensures status == if id !in old(chunks) then ERROR_NOCHUNK
                        else if version != 0 && version != old(chunks)[id].version then ERROR_WRONGVERSION
                        else if !hasDisk then ERROR_NOSPACE
                        else if copy in old(chunks) then ERROR_CHUNKEXIST
                        else STATUS_OK
    {
      var found := FindAndLock(id);
      if !found { return ERROR_NOCHUNK; }
      if chunks[id].version != version && version > 0 {
        Release(id);
        return ERROR_WRONGVERSION;
      }
      if !hasDisk {
        Release(id);
        return ERROR_NOSPACE;
      }
      if copy in chunks {
        Release(id);
        return ERROR_CHUNKEXIST;
      }
      var _ := Create(copy, copyVersion);
      status := STATUS_OK;
    }

    /** The original is opened, then the copy created on disk. */
    method OpenBoth(id: nat, copy: nat) returns (status: Status)
      requires id in chunks && copy in chunks && id != copy
      modifies `clock, `chunks, `locked, `open
      ensures status == STATUS_OK ==>
                && open == old(open) + 2 && locked == old(locked)
                && chunks.Keys == old(chunks).Keys && Intact(old(chunks), chunks, id, copy)
                && RefsFollow(old(chunks), chunks, id, 1)
                && chunks[copy] == old(chunks)[copy].(refs := old(chunks)[copy].refs + 1, created := true, crcs := NoCrcs())
      ensures status != STATUS_OK ==>
                && open == old(open) && locked == old(locked) - {id, copy}
                && chunks.Keys == old(chunks).Keys - {copy} && Intact(old(chunks), chunks, id, copy)
                && RefsFollow(old(chunks), chunks, id, 0)
      ensures clock >= old(clock) && status == if NoFault(old(clock), clock) then STATUS_OK else ERROR_IO
    {
      status := IoBegin(id, false);
      if status != STATUS_OK {
        Delete(copy);
        Release(id);
        return;
      }
      status := IoBegin(copy, true);
      if status != STATUS_OK {
        Delete(copy);
        GiveUp(id);
      }
    }

    /** Both chunks are closed; only then is the copy complete. */
    method CloseBoth(id: nat, copy: nat, blocks: nat) returns (status: Status)
      requires id in chunks && copy in chunks && id != copy
      modifies `clock, `chunks, `locked, `open
      ensures open == old(open) - 2 && locked == old(locked) - {id, copy}
      ensures Intact(old(chunks), chunks, id, copy) && RefsFollow(old(chunks), chunks, id, -1)
      ensures status == STATUS_OK ==>
                && chunks.Keys == old(chunks).Keys
                && chunks[copy] == old(chunks)[copy].(refs := old(chunks)[copy].refs - 1, changed := false, blocks := blocks)
      ensures status != STATUS_OK ==> chunks.Keys == old(chunks).Keys - {copy}
      ensures clock >= old(clock) && status == if NoFault(old(clock), clock) then STATUS_OK else ERROR_IO
    {
      status := IoEnd(id);
      if status != STATUS_OK {
        var _ := IoEnd(copy);
        Delete(copy);
        Release(id);
        return;
      }
      status := IoEnd(copy);
      if status != STATUS_OK {
        Delete(copy);
        Release(id);
        return;
      }
      chunks := chunks[copy := chunks[copy].(blocks := blocks)];
      Release(copy);
      Release(id);
    }

    /** hddInternalDuplicate. With a new version it asks to rename the files of the new chunk,
        which do not exist yet, so that it can only succeed with the version unchanged. */
    method Duplicate(id: nat, version: nat, newVersion: nat, copy: nat, copyVersion: nat, hasDisk: bool) returns (status: Status)
      requires id !in locked && copy !in locked && (id in chunks ==> Whole(id))
      modifies this
      ensures open == old(open) && locked == old(locked)
      ensures id in old(chunks) ==> Intact(old(chunks), chunks, id, copy) && RefsFollow(old(chunks), chunks, id, 0)
      ensures status != STATUS_OK ==> chunks.Keys == old(chunks).Keys
      ensures status == STATUS_OK ==>
                && newVersion == version && id in old(chunks) && copy !in old(chunks) && chunks.Keys == old(chunks).Keys + {copy}
                && chunks[copy] == Chunk(if copyVersion == 0 then newVersion else copyVersion, 0, 0, true, false,
                                         chunks[id].blocks, chunks[id].data, chunks[id].crcs)
      ensures clock >= old(clock) && status == if id !in old(chunks) then ERROR_NOCHUNK
                                               else if version != 0 && version != old(chunks)[id].version then ERROR_WRONGVERSION
                                               else if !hasDisk then ERROR_NOSPACE
                                               else if copy in old(chunks) then ERROR_CHUNKEXIST
                                               else if newVersion == version && NoFault(old(clock), clock) then STATUS_OK
                                               else ERROR_IO
      ensures old(Calm()) && id in old(chunks) && (version == 0 || version == old(chunks)[id].version) && hasDisk && copy !in old(chunks) ==>
                (status == STATUS_OK <==> newVersion == version)
    {
      status := Prepare(id, version, copy, if copyVersion == 0 then newVersion else copyVersion, hasDisk);
      if status != STATUS_OK { return; }
      if newVersion != version {
        var renamed := Rename(copy, newVersion);
        assert !renamed;
        Delete(copy);
        Release(id);
        return ERROR_IO;
      }
      status := DuplicateOpen(id, copy);
    }

    /** hddInternalDuplicate once the copy is registered. */
    method DuplicateOpen(id: nat, copy: nat) returns (status: Status)
      requires Whole(id) && copy in chunks && id != copy && chunks[copy].data == []
      modifies `clock, `chunks, `locked, `open
      ensures open == old(open) && locked == old(locked) - {id, copy}
      ensures Intact(old(chunks), chunks, id, copy) && RefsFollow(old(chunks), chunks, id, 0)
      ensures status != STATUS_OK ==> chunks.Keys == old(chunks).Keys - {copy}
      ensures status == STATUS_OK ==>
                && chunks.Keys == old(chunks).Keys
                && chunks[copy] == old(chunks)[copy].(created := true, changed := false, blocks := chunks[id].blocks,
                                                      data := chunks[id].data, crcs := chunks[id].crcs)
      ensures clock >= old(clock) && status == if NoFault(old(clock), clock) then STATUS_OK else ERROR_IO
    {
      status := OpenBoth(id, copy);
      if status != STATUS_OK { return; }
      var ok := FillCopy(id, copy);
      if !ok {
        Abandon(id, copy);
        return ERROR_IO;
      }
      status := CloseBoth(id, copy, chunks[id].blocks);
    }

    /** hddInternalDuplicateTruncate, changing the version of the original. */
    method OpenRenamed(id: nat, copy: nat, newVersion: nat) returns (status: Status)
      requires id in chunks && copy in chunks && id != copy
      modifies `clock, `chunks, `locked, `open
      ensures status == STATUS_OK ==>
                && open == old(open) + 1 && locked == old(locked) && chunks.Keys == old(chunks).Keys
                && chunks == old(chunks)[id := old(chunks)[id].(version := newVersion, refs := old(chunks)[id].refs + 1)]
      ensures status != STATUS_OK ==>
                && open == old(open) && locked == old(locked) - {id, copy} && chunks.Keys == old(chunks).Keys - {copy}
                && Renewed(old(chunks), chunks, id, copy) && RefsFollow(old(chunks), chunks, id, 0)
      ensures clock >= old(clock) && status == if old(chunks)[id].created && NoFault(old(clock), clock) then STATUS_OK else ERROR_IO
    {
      hide NoFault;
      status := ChangeVersion(id, newVersion);
      if status != STATUS_OK { Delete(copy); }
    }

    method OpenOriginal(id: nat, copy: nat, version: nat, newVersion: nat) returns (status: Status)
      requires id in chunks && copy in chunks && id != copy
      modifies `clock, `chunks, `locked, `open
      ensures Renewed(old(chunks), chunks, id, copy)
      ensures status == STATUS_OK ==>
                && open == old(open) + 1 && locked == old(locked) && chunks.Keys == old(chunks).Keys
                && chunks[copy] == old(chunks)[copy] && RefsFollow(old(chunks), chunks, id, 1)
                && chunks[id].created == old(chunks)[id].created
      ensures status != STATUS_OK ==>
                && open == old(open) && locked == old(locked) - {id, copy} && chunks.Keys == old(chunks).Keys - {copy}
                && RefsFollow(old(chunks), chunks, id, 0)
      ensures clock >= old(clock) && status == if (newVersion == version || old(chunks)[id].created) && NoFault(old(clock), clock) then STATUS_OK else ERROR_IO
    {
      if newVersion != version {
        status := OpenRenamed(id, copy, newVersion);
      } else {
        status := IoBegin(id, false);
        if status != STATUS_OK {
          Delete(copy);
          Release(id);
        }
      }
    }

    /** The original is open: the copy is created, filled and closed. */
    method CopyTruncated(id: nat, copy: nat, length: nat) returns (status: Status)
      requires Whole(id) && copy in chunks && id != copy && chunks[copy].data == [] && length <= CHUNK_SIZE
      modifies `clock, `chunks, `locked, `open
      ensures open == old(open) - 1 && locked == old(locked) - {id, copy}
      ensures Intact(old(chunks), chunks, id, copy) && RefsFollow(old(chunks), chunks, id, -1)
      ensures status != STATUS_OK ==> chunks.Keys == old(chunks).Keys - {copy}
      ensures status == STATUS_OK ==>
                && chunks.Keys == old(chunks).Keys
                && chunks[copy] == old(chunks)[copy].(created := true, changed := false, blocks := BlocksFor(length),
                     data := Truncated(old(chunks)[id].data, length),
                     crcs := CopyCrcs(crc, old(chunks)[id].data, old(chunks)[id].blocks, old(chunks)[id].crcs, length))
      ensures clock >= old(clock) && status == if NoFault(old(clock), clock) then STATUS_OK else ERROR_IO
    {
      hide Truncated, CopyCrcs, BlocksFor;
      status := IoBegin(copy, true);
      if status != STATUS_OK {
        Delete(copy);
        GiveUp(id);
        return;
      }
      var ok := FillTruncated(id, copy, length);
      if !ok {
        Abandon(id, copy);
        return ERROR_IO;
      }
      status := CloseBoth(id, copy, BlocksFor(length));
    }

    /** The copy is registered: the original is opened and copied. */
    method CopyRegistered(id: nat, copy: nat, version: nat, newVersion: nat, length: nat) returns (status: Status)
      requires Whole(id) && copy in chunks && id != copy && chunks[copy].data == [] && length <= CHUNK_SIZE
      modifies `clock, `chunks, `locked, `open
      ensures open == old(open) && locked == old(locked) - {id, copy}
      ensures Renewed(old(chunks), chunks, id, copy) && RefsFollow(old(chunks), chunks, id, 0)
      ensures status != STATUS_OK ==> chunks.Keys == old(chunks).Keys - {copy}
      ensures status == STATUS_OK ==>
                && chunks.Keys == old(chunks).Keys && chunks[id].created == old(chunks)[id].created
                && chunks[copy] == old(chunks)[copy].(created := true, changed := false, blocks := BlocksFor(length),
                     data := Truncated(old(chunks)[id].data, length),
                     crcs := CopyCrcs(crc, old(chunks)[id].data, old(chunks)[id].blocks, old(chunks)[id].crcs, length))
      ensures clock >= old(clock) && status == if (newVersion == version || old(chunks)[id].created) && NoFault(old(clock), clock) then STATUS_OK else ERROR_IO
    {
      hide Truncated, CopyCrcs, BlocksFor;
      status := OpenOriginal(id, copy, version, newVersion);
      if status != STATUS_OK { return; }
      status := CopyTruncated(id, copy, length);
    }

    /** hddInternalDuplicateTruncate: every exit ends what it began and releases the original;
        on failure the copy is not registered, on success it holds the truncated content. */
    method DuplicateTruncate(id: nat, version: nat, newVersion: nat, copy: nat, copyVersion: nat, length: nat, hasDisk: bool)
      returns (status: Status)
      requires id !in locked && copy !in locked && (id in chunks ==> Whole(id))
      modifies this
      ensures open == old(open) && locked == old(locked)
      ensures id in old(chunks) ==> Renewed(old(chunks), chunks, id, copy) && RefsFollow(old(chunks), chunks, id, 0)
      ensures status != STATUS_OK ==> chunks.Keys == old(chunks).Keys
      ensures status == STATUS_OK ==>
                && id in old(chunks) && copy !in old(chunks) && chunks.Keys == old(chunks).Keys + {copy} && length <= CHUNK_SIZE
                && chunks[copy].data == Truncated(old(chunks)[id].data, length) && chunks[copy].blocks == BlocksFor(length)
                && chunks[copy].crcs == CopyCrcs(crc, old(chunks)[id].data, old(chunks)[id].blocks, old(chunks)[id].crcs, length)
                && chunks[copy].version == (if copyVersion == 0 then newVersion else copyVersion) && chunks[copy].refs == 0
                && chunks[id].created == old(chunks)[id].created
      ensures status == STATUS_OK && TableOk(crc, old(chunks)[id].data, old(chunks)[id].blocks, old(chunks)[id].crcs) ==>
                TableOk(crc, chunks[copy].data, chunks[copy].blocks, chunks[copy].crcs)
      ensures clock >= old(clock) && status == if length > CHUNK_SIZE then ERROR_WRONGSIZE
                                               else if id !in old(chunks) then ERROR_NOCHUNK
                                               else if version != 0 && version != old(chunks)[id].version then ERROR_WRONGVERSION
                                               else if !hasDisk then ERROR_NOSPACE
                                               else if copy in old(chunks) then ERROR_CHUNKEXIST
                                               else if (newVersion == version || old(chunks)[id].created) && NoFault(old(clock), clock)
                                               then STATUS_OK else ERROR_IO
      ensures old(Calm()) && id in old(chunks) && (version == 0 || version == old(chunks)[id].version) && hasDisk && copy !in old(chunks) ==>
                (length <= CHUNK_SIZE && old(chunks)[id].created ==> status == STATUS_OK)
    {
      hide Truncated, CopyCrcs, BlocksFor, TableOk;
      if length > CHUNK_SIZE { return ERROR_WRONGSIZE; }
      status := Prepare(id, version, copy, if copyVersion == 0 then newVersion else copyVersion, hasDisk);
      if status != STATUS_OK { return; }
      ghost var c := chunks[id];
      status := CopyRegistered(id, copy, version, newVersion, length);
      if status == STATUS_OK && TableOk(crc, c.data, c.blocks, c.crcs) { CopyTable(crc, c.data, c.blocks, c.crcs, length); }
    }
  }

  /** Everything but the copy and the original's references and version is as it was; the
      original may have lost its metadata file. */
  predicate Renewed(was: map<nat, Chunk>, now: map<nat, Chunk>, id: nat, copy: nat) {
    && (forall k :: k in was && k != id && k != copy ==> k in now && now[k] == was[k])
    && id in was && id in now && Moved(was[id], now[id])
  }

  lemma CopiedBlock(before: seq<u8>, data: seq<u8>, block: nat, bytes: seq<u8>)
    requires (block + 1) * BLOCK_SIZE <= |data| && bytes == data[block * BLOCK_SIZE..block * BLOCK_SIZE + BLOCK_SIZE]
    ensures before + data[..block * BLOCK_SIZE] + bytes == before + data[..(block + 1) * BLOCK_SIZE]
  {
    assert data[..(block + 1) * BLOCK_SIZE] == data[..block * BLOCK_SIZE] + bytes;
  }

  lemma CopiedAll(data: seq<u8>, blocks: nat, length: nat)
    requires |data| == blocks * BLOCK_SIZE && BlocksFor(length) > blocks
    ensures Resize([] + data[..blocks * BLOCK_SIZE], BlocksFor(length) * BLOCK_SIZE) == Truncated(data, length)
  {}

  lemma CopiedSome(data: seq<u8>, length: nat)
    requires length <= |data| && length % BLOCK_SIZE == 0
    ensures [] + data[..BlocksFor(length) * BLOCK_SIZE] == Truncated(data, length)
  {}

  lemma CopiedCut(data: seq<u8>, length: nat, bytes: seq<u8>)
    requires length <= |data| && length % BLOCK_SIZE > 0 && BlocksFor(length) * BLOCK_SIZE <= |data|
    requires bytes == data[(BlocksFor(length) - 1) * BLOCK_SIZE..BlocksFor(length) * BLOCK_SIZE]
    ensures var rest := length % BLOCK_SIZE;
            && [] + data[..(BlocksFor(length) - 1) * BLOCK_SIZE] + (bytes[..rest] + Zeros(BLOCK_SIZE - rest)) == Truncated(data, length)
            && bytes[..rest] == data[length / BLOCK_SIZE * BLOCK_SIZE..length]
  {
    var full, rest := length / BLOCK_SIZE, length % BLOCK_SIZE;
    assert BlocksFor(length) == full + 1;
    var first, padding := data[..full * BLOCK_SIZE], Zeros(BLOCK_SIZE - rest);
    assert data[..length] == first + bytes[..rest];
    assert [] + first + (bytes[..rest] + padding) == first + bytes[..rest] + padding;
  }

  /** The table of a copy cut inside a block. */
  lemma CutTable(crc: seq<u8> -> nat, data: seq<u8>, blocks: nat, crcs: seq<nat>, length: nat)
    requires |data| == blocks * BLOCK_SIZE && blocks <= |crcs| == BLOCKS_IN_CHUNK && length <= CHUNK_SIZE
    requires length % BLOCK_SIZE > 0 && BlocksFor(length) <= blocks && length <= |data|
    ensures CopyCrcs(crc, data, blocks, crcs, length) ==
            crcs[BlocksFor(length) - 1 := crc(data[length / BLOCK_SIZE * BLOCK_SIZE..length] + Zeros(BLOCK_SIZE - length % BLOCK_SIZE))]
  {}

  /** Cutting inside a block: the part of the block that stays is what is read back. */
  lemma CutInside(data: seq<u8>, blocks: nat, length: nat)
    requires |data| == blocks * BLOCK_SIZE && length % BLOCK_SIZE > 0 && BlocksFor(length) <= blocks
    ensures var full, rest, now := length / BLOCK_SIZE, length % BLOCK_SIZE, Truncated(data, length);
            && full + 1 == BlocksFor(length) && length == full * BLOCK_SIZE + rest <= |now| && length <= |data|
            && now == Resize(Resize(data, length), BlocksFor(length) * BLOCK_SIZE)
            && now[full * BLOCK_SIZE..full * BLOCK_SIZE + rest] == data[full * BLOCK_SIZE..length]
  {}

  /** Everything but the original's references and the copy is as it was. */
  predicate Intact(was: map<nat, Chunk>, now: map<nat, Chunk>, id: nat, copy: nat) {
    && (forall k :: k in was && k != id && k != copy ==> k in now && now[k] == was[k])
    && id in was && id in now && SameButRefs(was[id], now[id])
  }

  /** Only the references and the names of the files may differ. */
  predicate Moved(was: Chunk, now: Chunk) {
    (now.created ==> was.created) && SameButRefs(was.(version := now.version, created := now.created), now)
  }

  predicate SameButRefs(was: Chunk, now: Chunk) { now == was.(refs := now.refs, leaks := now.leaks, changed := now.changed) }

  /** Only content and table differ. */
  predicate SameFrame(was: Chunk, now: Chunk) { now == was.(data := now.data, crcs := now.crcs) }

  /** All chunks but one are as they were. */
  predicate Kept(was: map<nat, Chunk>, now: map<nat, Chunk>, id: nat) {
    forall k :: k in was && k != id ==> k in now && now[k] == was[k]
  }

  /** The references of a chunk changed by `delta`, but for those a failed end kept. */
  predicate RefsFollow(was: map<nat, Chunk>, now: map<nat, Chunk>, id: nat, delta: int) {
    id in was && id in now && now[id].refs - now[id].leaks == was[id].refs - was[id].leaks + delta
  }
}
