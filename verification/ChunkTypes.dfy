/** Vocabulary shared by the chunkserver models: bytes, statuses, client writes and
    the chunk content a sequence of writes leaves behind. */
module ChunkTypes {

  newtype u8 = x: int | 0 <= x < 256

  /** SFSBLOCKSIZE and kCrcSize. */
  const BLOCK_SIZE: nat := 65536
  const CRC_SIZE: nat := 4
  /** SFSBLOCKSINCHUNK. */
  const BLOCKS_IN_CHUNK: nat := 1024

  /** A SAUNAFS_STATUS_* / SAUNAFS_ERROR_* code. */
  type Status = nat
  const STATUS_OK: Status := 0
  const ERROR_NOCHUNK: Status := 13
  const ERROR_NOTDONE: Status := 16
  const ERROR_WRONGVERSION: Status := 19
  const ERROR_CHUNKEXIST: Status := 20
  const ERROR_NOSPACE: Status := 21
  const ERROR_IO: Status := 22
  const ERROR_BNUMTOOBIG: Status := 23
  const ERROR_WRONGSIZE: Status := 24
  const ERROR_WRONGOFFSET: Status := 25
  const ERROR_CRC: Status := 29

  datatype Option<+T> = None | Some(value: T)

  /** Chunk content before any modelled write. */
  type Content = nat -> u8

  /** The WriteInfo record of one WRITE_DATA packet. */
  datatype Info = Info(blockNum: nat, offset: nat, size: nat, writeId: nat) {
    function Start(): nat { blockNum * BLOCK_SIZE + offset }
    predicate Covers(b: nat) { Start() <= b < Start() + size }
  }

  /** One WRITE_DATA packet: the record together with its payload and CRC. */
  datatype Write = Write(blockNum: nat, offset: nat, data: seq<u8>, writeId: nat, crc: nat) {
    function ToInfo(): Info { Info(blockNum, offset, |data|, writeId) }
    function Start(): nat { blockNum * BLOCK_SIZE + offset }
    predicate Covers(b: nat) { Start() <= b < Start() + |data| }
    /** The offset check made on reception. */
    predicate InBlock() { offset < BLOCK_SIZE && offset + |data| <= BLOCK_SIZE }
  }

  /** Byte b of the chunk after the writes `ws`, applied in order to `init`. */
  function ByteAt(init: Content, ws: seq<Write>, b: nat): u8 {
    if ws == [] then init(b)
    else
      var w := ws[|ws| - 1];
      if w.Covers(b) then w.data[b - w.Start()] else ByteAt(init, ws[..|ws| - 1], b)
  }

  predicate Touches(ws: seq<Write>, b: nat) {
    exists w :: w in ws && w.Covers(b)
  }

  /** A byte touched by the later writes does not depend on what was there before. */
  lemma {:induction false} ByteAtTouched(one: Content, two: Content, xs: seq<Write>, ys: seq<Write>, b: nat)
    requires Touches(ys, b)
    ensures ByteAt(one, xs + ys, b) == ByteAt(two, ys, b)
  {
    var n := |ys| - 1;
    assert (xs + ys)[..|xs| + n] == xs + ys[..n];
    if !ys[n].Covers(b) {
      var v :| v in ys && v.Covers(b);
      assert v in ys[..n];
      ByteAtTouched(one, two, xs, ys[..n], b);
    }
  }

  lemma {:induction false} ByteAtUntouched(init: Content, xs: seq<Write>, ys: seq<Write>, b: nat)
    requires !Touches(ys, b)
    ensures ByteAt(init, xs + ys, b) == ByteAt(init, xs, b)
  {
    if ys == [] {
      assert xs + ys == xs;
    } else {
      var n := |ys| - 1;
      assert (xs + ys)[..|xs| + n] == xs + ys[..n];
      assert ys[n] in ys;
      ByteAtUntouched(init, xs, ys[..n], b);
    }
  }

  /** Re-applying the last writes `ys` before going on with `zs` changes no byte. */
  lemma ByteAtReapply(init: Content, mid: Content, xs: seq<Write>, ys: seq<Write>, zs: seq<Write>, b: nat)
    requires mid(b) == ByteAt(init, xs + ys, b)
    ensures ByteAt(mid, ys + zs, b) == ByteAt(init, xs + ys + zs, b)
  {
    assert xs + (ys + zs) == xs + ys + zs;
    assert [] + (ys + zs) == ys + zs;
    if Touches(ys + zs, b) {
      ByteAtTouched(init, mid, xs, ys + zs, b);
    } else {
      assert forall w :: w in ys ==> w in ys + zs;
      ByteAtUntouched(mid, [], ys + zs, b);
      ByteAtUntouched(init, xs, ys + zs, b);
      ByteAtUntouched(init, xs, ys, b);
    }
  }
}
