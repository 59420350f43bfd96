/** Buffer and OutputBuffer: blocks, CRCs and headers are kept apart and spliced together
    in place on their way to a file descriptor. */
module OutputBuffers {
  import opened ChunkTypes

  // ---------------------------------------------------------------- the wire format

  /** The length of the next block: only the last one may be partial. */
  function Piece(n: nat): nat { if n < BLOCK_SIZE then n else BLOCK_SIZE }

  /** One header and one CRC for each block. */
  predicate Fits(headerSize: nat, headers: nat, crcs: nat, blocks: nat)
    decreases blocks
  {
    if blocks == 0 then headers == 0 && crcs == 0
    else
      headers >= headerSize && crcs >= CRC_SIZE &&
      Fits(headerSize, headers - headerSize, crcs - CRC_SIZE, blocks - Piece(blocks))
  }

  /** header_0 crc_0 block_0 header_1 crc_1 block_1 ... */
  function Interleave(headerSize: nat, headers: seq<u8>, crcs: seq<u8>, blocks: seq<u8>): seq<u8>
    requires Fits(headerSize, |headers|, |crcs|, |blocks|)
    decreases |blocks|
  {
    if blocks == [] then []
    else
      var n := Piece(|blocks|);
      headers[..headerSize] + crcs[..CRC_SIZE] + blocks[..n] +
      Interleave(headerSize, headers[headerSize..], crcs[CRC_SIZE..], blocks[n..])
  }

  lemma {:induction false} InterleaveLength(headerSize: nat, headers: seq<u8>, crcs: seq<u8>, blocks: seq<u8>)
    requires Fits(headerSize, |headers|, |crcs|, |blocks|)
    ensures |Interleave(headerSize, headers, crcs, blocks)| == |headers| + |crcs| + |blocks|
    decreases |blocks|
  {
    if blocks != [] {
      var n := Piece(|blocks|);
      InterleaveLength(headerSize, headers[headerSize..], crcs[CRC_SIZE..], blocks[n..]);
    }
  }

  lemma InterleaveNext(headerSize: nat, headers: seq<u8>, crcs: seq<u8>, blocks: seq<u8>)
    requires Fits(headerSize, |headers|, |crcs|, |blocks|) && blocks != []
    ensures var n := Piece(|blocks|);
            Interleave(headerSize, headers, crcs, blocks) ==
            headers[..headerSize] + crcs[..CRC_SIZE] + blocks[..n] +
            Interleave(headerSize, headers[headerSize..], crcs[CRC_SIZE..], blocks[n..])
  {}

  lemma Assoc(xs: seq<u8>, ys: seq<u8>, zs: seq<u8>)
    ensures xs + (ys + zs) == xs + ys + zs
  {}

  lemma TailOfSum(xs: seq<u8>, ys: seq<u8>, n: nat)
    requires n <= |xs|
    ensures (xs + ys)[n..] == xs[n..] + ys && (xs + ys)[..n] == xs[..n]
  {}

  /** Behind full blocks, one more block goes to the end of the wire. */
  lemma {:induction false} InterleaveSnoc(headerSize: nat, headers: seq<u8>, crcs: seq<u8>, blocks: seq<u8>,
                                          header: seq<u8>, crc: seq<u8>, block: seq<u8>)
    requires Fits(headerSize, |headers|, |crcs|, |blocks|) && |blocks| % BLOCK_SIZE == 0
    requires |header| == headerSize && |crc| == CRC_SIZE && 0 < |block| <= BLOCK_SIZE
    ensures Fits(headerSize, |headers + header|, |crcs + crc|, |blocks + block|)
    ensures Interleave(headerSize, headers + header, crcs + crc, blocks + block)
         == Interleave(headerSize, headers, crcs, blocks) + (header + crc + block)
    decreases |blocks|
  {
    var hs, cs, bs := headers + header, crcs + crc, blocks + block;
    var n := Piece(|bs|);
    if blocks == [] {
      assert hs == header && cs == crc && bs == block;
      assert Fits(headerSize, 0, 0, 0);
      assert header[headerSize..] == [] && crc[CRC_SIZE..] == [] && block[n..] == [];
      assert header[..headerSize] == header && crc[..CRC_SIZE] == crc && block[..n] == block;
    } else {
      assert n == BLOCK_SIZE == Piece(|blocks|);
      InterleaveSnoc(headerSize, headers[headerSize..], crcs[CRC_SIZE..], blocks[n..], header, crc, block);
      TailOfSum(headers, header, headerSize);
      TailOfSum(crcs, crc, CRC_SIZE);
      TailOfSum(blocks, block, n);
      InterleaveNext(headerSize, hs, cs, bs);
      InterleaveNext(headerSize, headers, crcs, blocks);
      hide Interleave, Fits;
      var next := headers[..headerSize] + crcs[..CRC_SIZE] + blocks[..n];
      var rest := Interleave(headerSize, headers[headerSize..], crcs[CRC_SIZE..], blocks[n..]);
      Assoc(next, rest, header + crc + block);
    }
  }

  // ---------------------------------------------------------------- a block on its way

  /** The first `remaining` bytes of `blocks` are the rest of a block already spliced. */
  predicate Ready(headerSize: nat, headers: seq<u8>, crcs: seq<u8>, blocks: seq<u8>, remaining: nat) {
    remaining <= |blocks| && Fits(headerSize, |headers|, |crcs|, |blocks| - remaining)
  }

  function Wire(headerSize: nat, headers: seq<u8>, crcs: seq<u8>, blocks: seq<u8>, remaining: nat): seq<u8>
    requires Ready(headerSize, headers, crcs, blocks, remaining)
  {
    blocks[..remaining] + Interleave(headerSize, headers, crcs, blocks[remaining..])
  }

  lemma WireLength(headerSize: nat, headers: seq<u8>, crcs: seq<u8>, blocks: seq<u8>, remaining: nat)
    requires Ready(headerSize, headers, crcs, blocks, remaining)
    ensures remaining <= |blocks|
    ensures |Wire(headerSize, headers, crcs, blocks, remaining)| == |headers| + |crcs| + |blocks|
  {
    InterleaveLength(headerSize, headers, crcs, blocks[remaining..]);
  }

  function Concat(parts: seq<seq<u8>>): seq<u8> {
    if parts == [] then [] else Concat(parts[..|parts| - 1]) + parts[|parts| - 1]
  }

  lemma ConcatSnoc(parts: seq<seq<u8>>, i: nat)
    requires i < |parts|
    ensures Concat(parts[..i + 1]) == Concat(parts[..i]) + parts[i]
  {
    assert parts[..i + 1][..i] == parts[..i];
  }

  /** How many bytes the first n blocks of `total` bytes have. */
  function Taken(total: nat, n: nat): nat { if n * BLOCK_SIZE < total then n * BLOCK_SIZE else total }

  /** The first n packets of a reply: each header with its CRC and its block. */
  function Packets(headers: seq<seq<u8>>, crcs: seq<seq<u8>>, data: seq<u8>, n: nat): seq<u8>
    requires n <= |headers| && n <= |crcs|
  {
    if n == 0 then []
    else Packets(headers, crcs, data, n - 1) + (headers[n - 1] + crcs[n - 1] + data[Taken(|data|, n - 1)..Taken(|data|, n)])
  }

  lemma TakenStep(total: nat, n: nat)
    requires n > 0 && (n - 1) * BLOCK_SIZE < total
    ensures Taken(total, n - 1) % BLOCK_SIZE == 0 && Taken(total, n - 1) < Taken(total, n) <= total
    ensures Taken(total, n) - Taken(total, n - 1) <= BLOCK_SIZE
  {}

  lemma TakenAll(total: nat)
    ensures var n := (total + BLOCK_SIZE - 1) / BLOCK_SIZE; Taken(total, n) == total && (n > 0 ==> (n - 1) * BLOCK_SIZE < total)
  {}

  /** Headers, CRCs and blocks kept apart make up the packets. */
  lemma {:induction false} FilledWire(headerSize: nat, headers: seq<seq<u8>>, crcs: seq<seq<u8>>, data: seq<u8>, n: nat)
    requires n <= |headers| == |crcs| && (forall h <- headers :: |h| == headerSize) && forall c <- crcs :: |c| == CRC_SIZE
    requires n > 0 ==> (n - 1) * BLOCK_SIZE < |data|
    ensures Fits(headerSize, |Concat(headers[..n])|, |Concat(crcs[..n])|, |data[..Taken(|data|, n)]|)
    ensures Interleave(headerSize, Concat(headers[..n]), Concat(crcs[..n]), data[..Taken(|data|, n)]) == Packets(headers, crcs, data, n)
  {
    if n == 0 {
      assert Concat(headers[..0]) == [] && Concat(crcs[..0]) == [] && data[..0] == [];
    } else {
      hide Interleave, Fits, Concat;
      TakenStep(|data|, n);
      FilledWire(headerSize, headers, crcs, data, n - 1);
      hide Taken;
      FilledStep(headerSize, headers, crcs, data, n, Taken(|data|, n - 1), Taken(|data|, n));
    }
  }

  lemma FilledStep(headerSize: nat, headers: seq<seq<u8>>, crcs: seq<seq<u8>>, data: seq<u8>, n: nat, before: nat, now: nat)
    requires 0 < n <= |headers| == |crcs| && |headers[n - 1]| == headerSize && |crcs[n - 1]| == CRC_SIZE
    requires before < now <= |data| && now - before <= BLOCK_SIZE && before % BLOCK_SIZE == 0
    requires Fits(headerSize, |Concat(headers[..n - 1])|, |Concat(crcs[..n - 1])|, |data[..before]|)
    ensures Fits(headerSize, |Concat(headers[..n])|, |Concat(crcs[..n])|, |data[..now]|)
    ensures Interleave(headerSize, Concat(headers[..n]), Concat(crcs[..n]), data[..now]) ==
            Interleave(headerSize, Concat(headers[..n - 1]), Concat(crcs[..n - 1]), data[..before]) +
            (headers[n - 1] + crcs[n - 1] + data[before..now])
  {
    ConcatSnoc(headers, n - 1);
    ConcatSnoc(crcs, n - 1);
    hide Interleave, Fits, Concat;
    assert data[..before] + data[before..now] == data[..now];
    InterleaveSnoc(headerSize, Concat(headers[..n - 1]), Concat(crcs[..n - 1]), data[..before], headers[n - 1], crcs[n - 1], data[before..now]);
  }

  /** The buffer filled with a whole reply is ready to be sent. */
  lemma FilledReady(headerSize: nat, headers: seq<seq<u8>>, crcs: seq<seq<u8>>, data: seq<u8>)
    requires |headers| == |crcs| == (|data| + BLOCK_SIZE - 1) / BLOCK_SIZE
    requires (forall h <- headers :: |h| == headerSize) && forall c <- crcs :: |c| == CRC_SIZE
    ensures Ready(headerSize, Concat(headers), Concat(crcs), data, 0)
    ensures Wire(headerSize, Concat(headers), Concat(crcs), data, 0) == Packets(headers, crcs, data, |headers|)
  {
    hide Interleave, Fits, Concat, Packets, Taken, Ready, Wire;
    var n := |headers|;
    TakenAll(|data|);
    FilledWire(headerSize, headers, crcs, data, n);
    assert headers[..n] == headers && crcs[..n] == crcs && data[..|data|] == data;
    WireWhole(headerSize, Concat(headers), Concat(crcs), data);
  }

  lemma WireWhole(headerSize: nat, headers: seq<u8>, crcs: seq<u8>, blocks: seq<u8>)
    requires Fits(headerSize, |headers|, |crcs|, |blocks|)
    ensures Ready(headerSize, headers, crcs, blocks, 0)
    ensures Wire(headerSize, headers, crcs, blocks, 0) == Interleave(headerSize, headers, crcs, blocks)
  {
    hide Interleave, Fits;
    var all := Interleave(headerSize, headers, crcs, blocks);
    assert blocks[0..] == blocks && blocks[..0] + all == all;
  }

  /** Header and CRC of the next block put in front of it leave the wire as it is. */
  lemma WireSplice(headerSize: nat, headers: seq<u8>, crcs: seq<u8>, blocks: seq<u8>)
    requires Ready(headerSize, headers, crcs, blocks, 0) && |headers| + |crcs| + |blocks| > 0
    ensures |headers| >= headerSize && |crcs| >= CRC_SIZE && blocks != []
    ensures var spliced := headers[..headerSize] + (crcs[..CRC_SIZE] + blocks);
            var whole, left := BLOCK_SIZE + CRC_SIZE + headerSize, |headers| + |crcs| + |blocks|;
            var remaining := if whole < left then whole else left;
            && Ready(headerSize, headers[headerSize..], crcs[CRC_SIZE..], spliced, remaining)
            && Wire(headerSize, headers[headerSize..], crcs[CRC_SIZE..], spliced, remaining)
               == Wire(headerSize, headers, crcs, blocks, 0)
  {
    InterleaveNext(headerSize, headers, crcs, blocks);
    var n := Piece(|blocks|);
    var spliced := headers[..headerSize] + (crcs[..CRC_SIZE] + blocks);
    assert spliced[..headerSize + CRC_SIZE + n] == headers[..headerSize] + crcs[..CRC_SIZE] + blocks[..n];
    assert spliced[headerSize + CRC_SIZE + n..] == blocks[n..];
    var whole, left := BLOCK_SIZE + CRC_SIZE + headerSize, |headers| + |crcs| + |blocks|;
    if n < BLOCK_SIZE { assert Fits(headerSize, |headers| - headerSize, |crcs| - CRC_SIZE, 0); }
    assert headerSize + CRC_SIZE + n == if whole < left then whole else left;
    assert blocks[0..] == blocks && blocks[..0] == [];
    var all := Interleave(headerSize, headers, crcs, blocks);
    assert [] + all == all;
  }

  lemma WireAdvance(headerSize: nat, headers: seq<u8>, crcs: seq<u8>, blocks: seq<u8>, remaining: nat, n: nat)
    requires Ready(headerSize, headers, crcs, blocks, remaining) && n <= remaining
    ensures Ready(headerSize, headers, crcs, blocks[n..], remaining - n)
    ensures Wire(headerSize, headers, crcs, blocks, remaining)
         == blocks[..n] + Wire(headerSize, headers, crcs, blocks[n..], remaining - n)
  {
    assert blocks[..remaining] == blocks[..n] + blocks[n..][..remaining - n];
    assert blocks[n..][remaining - n..] == blocks[remaining..];
  }

  /** A reply without and with a partial block at its end. */
  lemma LastSplit(crcs: seq<seq<u8>>, data: seq<u8>, full: nat)
    requires |crcs| == (|data| + BLOCK_SIZE - 1) / BLOCK_SIZE && full == |data| / BLOCK_SIZE && forall c <- crcs :: |c| == CRC_SIZE
    ensures var end := full * BLOCK_SIZE;
            if end < |data|
            then |crcs| == full + 1 && |crcs[full]| == CRC_SIZE && Concat(crcs) == [] + Concat(crcs[..full]) + crcs[full] && data == [] + data[..end] + data[end..]
            else |crcs| == full && Concat(crcs) == [] + Concat(crcs[..full]) && data == [] + data[..end]
  {
    if full * BLOCK_SIZE < |data| {
      ConcatSnoc(crcs, full);
      assert crcs[full] in crcs && crcs[..full + 1] == crcs;
    } else {
      assert crcs[..full] == crcs;
    }
  }

  lemma Room(i: nat, n: nat, size: nat)
    requires i < n
    ensures (i + 1) * size <= n * size && (i + 1) * size == i * size + size
  {
    if i + 1 < n { Room(i, n - 1, size); }
  }

  // ---------------------------------------------------------------- the file descriptor

  /** What the kernel answers to one write call. */
  datatype Answer = Accepts(n: nat) | WouldBlock | Fails

  class Descriptor {
    var accepted: seq<u8>
    var script: seq<Answer>
    /** How many writes accepted nothing, and whether the last one failed for good. */
    ghost var refusals: nat
    ghost var broken: bool

    constructor (script: seq<Answer>)
      ensures accepted == [] && this.script == script && refusals == 0 && !broken
    {
      this.accepted := [];
      this.script := script;
      refusals, broken := 0, false;
    }

    /** write(2): a prefix of the bytes is accepted, or none. */
    method Write(data: array<u8>, from: nat, len: nat) returns (ret: int, again: bool)
      requires from + len <= data.Length
      modifies this
      ensures ret <= len && (again ==> ret <= 0)
      ensures accepted == old(accepted) + if ret > 0 then data[from..from + ret] else []
      ensures refusals == old(refusals) + (if ret <= 0 then 1 else 0) && broken == (ret < 0 && !again)
    {
      var answer := if script == [] then WouldBlock else script[0];
      script := if script == [] then [] else script[1..];
      match answer {
        case Accepts(n) =>
          ret := if n < len then n else len;
          again := false;
          accepted := accepted + data[from..from + ret];
        case WouldBlock => ret, again := -1, true;
        case Fails => ret, again := -1, false;
      }
      broken := ret < 0 && !again;
      if ret <= 0 { refusals := refusals + 1; }
    }
  }

  /** What the kernel answers to one read call. */
  datatype Arrival = Bytes(data: seq<u8>) | Nothing

  class Source {
    var taken: seq<u8>
    var script: seq<Arrival>
    /** How many reads found nothing. */
    ghost var misses: nat

    constructor (script: seq<Arrival>)
      ensures taken == [] && this.script == script && misses == 0
    {
      this.taken := [];
      this.script := script;
      misses := 0;
    }

    /** read(2): at most len bytes arrive, or none. */
    method Read(data: array<u8>, at: nat, len: nat) returns (ret: int)
      requires at + len <= data.Length
      modifies this, data
      ensures ret <= len
      ensures forall i :: 0 <= i < data.Length && !(at <= i < at + ret) ==> data[i] == old(data[i])
      ensures taken == old(taken) + if ret > 0 then data[at..at + ret] else []
      ensures misses == old(misses) + if ret <= 0 then 1 else 0
    {
      var arrival := if script == [] then Nothing else script[0];
      script := if script == [] then [] else script[1..];
      if arrival.Nothing? {
        misses := misses + 1;
        return -1;
      }
      ret := if |arrival.data| < len then |arrival.data| else len;
      forall i | 0 <= i < ret { data[at + i] := arrival.data[i]; }
      taken := taken + data[at..at + ret];
      if ret <= 0 { misses := misses + 1; }
    }
  }

  // ---------------------------------------------------------------- buffers

  /** A byte container whose unflushed bytes are data[first..last]. */
  class Buffer {
    const capacity: nat
    const padding: nat
    const data: array<u8>
    var first: nat
    var last: nat

    ghost predicate Valid()
      reads this
    {
      data.Length == padding + capacity && first <= last <= data.Length
    }

    ghost function Unflushed(): seq<u8>
      requires Valid()
      reads this, data
    {
      data[first..last]
    }

    constructor (capacity: nat, padding: nat)
      ensures Valid() && fresh(data) && first == padding && last == padding
      ensures this.capacity == capacity && this.padding == padding
    {
      this.capacity := capacity;
      this.padding := padding;
      data := new u8[padding + capacity];
      first := padding;
      last := padding;
    }

    function BytesInABuffer(): nat
      requires Valid()
      reads this
    {
      last - first
    }

    /** moveUnflushedDataFirstIndex(-len) and copyFromBuffer: the first bytes of src go in
        front of the unflushed ones. */
    method PrependFrom(src: Buffer, len: nat)
      requires Valid() && src.Valid() && src != this && src.data != data
      requires len <= first && len <= src.BytesInABuffer()
      modifies `first, data, src`first
      ensures Valid() && src.Valid() && first == old(first) - len
      ensures Unflushed() == old(src.Unflushed()[..len]) + old(Unflushed())
      ensures src.Unflushed() == old(src.Unflushed()[len..])
    {
      first := first - len;
      forall i | 0 <= i < len { data[first + i] := src.data[src.first + i]; }
      src.first := src.first + len;
    }

    /** copyIntoBuffer. */
    method CopyIntoBuffer(mem: seq<u8>)
      requires Valid() && last + |mem| <= data.Length
      modifies `last, data
      ensures Valid() && last == old(last) + |mem|
      ensures Unflushed() == old(Unflushed()) + mem && data[..old(last)] == old(data[..last])
    {
      forall i | 0 <= i < |mem| { data[last + i] := mem[i]; }
      last := last + |mem|;
    }

    /** readFromFD. */
    method ReadFrom(src: Source, len: nat) returns (ret: int)
      requires Valid() && last + len <= data.Length
      modifies `last, data, src
      ensures Valid() && ret <= len && first == old(first) && last == old(last) + if ret > 0 then ret else 0
      ensures data[..old(last)] == old(data[..last])
      ensures src.taken == old(src.taken) + data[old(last)..last]
      ensures src.misses == old(src.misses) + if ret <= 0 then 1 else 0
    {
      ret := src.Read(data, last, len);
      if ret > 0 { last := last + ret; }
    }

    /** writeToFD. */
    method WriteTo(fd: Descriptor, len: nat) returns (ret: int)
      requires Valid() && first + len <= last
      modifies `first, fd
      ensures Valid() && ret <= len && first == old(first) + if ret > 0 then ret else 0
      ensures fd.accepted == old(fd.accepted) + data[old(first)..first]
      ensures fd.refusals == old(fd.refusals) + if ret <= 0 then 1 else 0
    {
      var again;
      ret, again := fd.Write(data, first, len);
      if ret > 0 { first := first + ret; }
    }

    method Clear()
      requires Valid()
      modifies `first, `last
      ensures Valid() && Unflushed() == [] && first == padding
    {
      first := padding;
      last := padding;
    }
  }

  datatype WriteStatus = Done | Again | Error

  class OutputBuffer {
    const headerSize: nat
    const block: Buffer
    const crcs: Buffer
    const headers: Buffer
    /** currentRemainingBytesForFD_: what is left of the block being sent. */
    var remaining: nat

    ghost const Repr: set<object>

    ghost predicate Apart() {
      && block != crcs && block != headers && crcs != headers
      && block.data != crcs.data && block.data != headers.data && crcs.data != headers.data
      && Repr == {this, block, crcs, headers, block.data, crcs.data, headers.data}
    }

    ghost predicate Valid()
      reads this, Repr
    {
      && Apart()
      && block.Valid() && crcs.Valid() && headers.Valid()
      && headerSize + CRC_SIZE <= block.padding <= block.first + remaining
      && Ready(headerSize, headers.Unflushed(), crcs.Unflushed(), block.Unflushed(), remaining)
    }

    /** The bytes still to be sent. */
    ghost function Unsent(): seq<u8>
      requires Valid()
      reads this, Repr
    {
      Wire(headerSize, headers.Unflushed(), crcs.Unflushed(), block.Unflushed(), remaining)
    }

    constructor (headerSize: nat, numBlocks: nat, padding: nat)
      requires headerSize + CRC_SIZE <= padding
      ensures Valid() && Unsent() == [] && remaining == 0 && fresh(Repr)
      ensures this.headerSize == headerSize && block.capacity == numBlocks * BLOCK_SIZE
      ensures crcs.capacity == numBlocks * CRC_SIZE && headers.capacity == numBlocks * headerSize
    {
      this.headerSize := headerSize;
      var b := new Buffer(numBlocks * BLOCK_SIZE, padding);
      var c := new Buffer(numBlocks * CRC_SIZE, 0);
      var h := new Buffer(numBlocks * headerSize, 0);
      block, crcs, headers, remaining := b, c, h, 0;
      Repr := {this, b, c, h, b.data, c.data, h.data};
    }

    function BytesInABuffer(): nat
      requires Valid()
      reads this, Repr
    {
      block.BytesInABuffer() + crcs.BytesInABuffer() + headers.BytesInABuffer()
    }

    lemma Bounds()
      requires Valid()
      ensures block.first + remaining <= block.data.Length
      ensures {this, block, block.data, crcs, headers} <= Repr
      ensures |Unsent()| == BytesInABuffer()
    {
      WireLength(headerSize, headers.Unflushed(), crcs.Unflushed(), block.Unflushed(), remaining);
    }

    /** One pass over a part of the reply: its pieces are appended one by one. */
    method Append(to: Buffer, parts: seq<seq<u8>>, size: nat)
      requires to.Valid() && (forall p <- parts :: |p| == size) && to.last + |parts| * size <= to.data.Length
      modifies to`last, to.data
      ensures to.Valid() && to.last == old(to.last) + |parts| * size && to.first == old(to.first)
      ensures to.Unflushed() == old(to.Unflushed()) + Concat(parts)
    {
      ghost var was := to.Unflushed();
      var start := to.last;
      assert parts[..0] == [] && was + [] == was;
      for i := 0 to |parts|
        invariant to.Valid() && to.last == start + i * size && to.Unflushed() == was + Concat(parts[..i])
      {
        ConcatSnoc(parts, i);
        assert parts[i] in parts;
        Room(i, |parts|, size);
        to.CopyIntoBuffer(parts[i]);
        Assoc(was, Concat(parts[..i]), parts[i]);
      }
      assert parts[..|parts|] == parts;
    }

    /** A reply as it comes into being: first all headers, then all full blocks with one call
        and their CRCs one by one, last a partial block behind its CRC. The buffer is then
        ready to send each header with its CRC and its block. */
    method Fill(headers: seq<seq<u8>>, crcs: seq<seq<u8>>, data: seq<u8>)
      requires Valid() && BytesInABuffer() == 0
      requires |headers| == |crcs| == (|data| + BLOCK_SIZE - 1) / BLOCK_SIZE
      requires (forall h <- headers :: |h| == headerSize) && forall c <- crcs :: |c| == CRC_SIZE
      requires this.headers.last + |headers| * headerSize <= this.headers.data.Length
      requires this.crcs.last + |crcs| * CRC_SIZE <= this.crcs.data.Length && block.last + |data| <= block.data.Length
      modifies Repr
      ensures Valid() && Unsent() == Packets(headers, crcs, data, |headers|)
    {
      hide Ready, Wire, Concat, Packets;
      EmptyReady();
      Append(this.headers, headers, headerSize);
      FillBlocks(crcs, data);
      FilledReady(headerSize, headers, crcs, data);
      assert [] + Concat(headers) == Concat(headers);
    }

    method FillBlocks(crcs: seq<seq<u8>>, data: seq<u8>)
      requires Apart() && block.Valid() && this.crcs.Valid() && block.Unflushed() == [] && this.crcs.Unflushed() == []
      requires |crcs| == (|data| + BLOCK_SIZE - 1) / BLOCK_SIZE && forall c <- crcs :: |c| == CRC_SIZE
      requires this.crcs.last + |crcs| * CRC_SIZE <= this.crcs.data.Length && block.last + |data| <= block.data.Length
      modifies block`last, block.data, this.crcs`last, this.crcs.data
      ensures block.Valid() && this.crcs.Valid() && block.first == old(block.first)
      ensures block.Unflushed() == data && this.crcs.Unflushed() == Concat(crcs)
    {
      hide Concat;
      var full := |data| / BLOCK_SIZE;
      var end := full * BLOCK_SIZE;
      LastSplit(crcs, data, full);
      block.CopyIntoBuffer(data[..end]);
      Append(this.crcs, crcs[..full], CRC_SIZE);
      if end < |data| {
        this.crcs.CopyIntoBuffer(crcs[full]);
        block.CopyIntoBuffer(data[end..]);
      }
    }

    lemma EmptyReady()
      requires Valid() && BytesInABuffer() == 0
      ensures remaining == 0 && headers.Unflushed() == [] && crcs.Unflushed() == [] && block.Unflushed() == []
    {}

    /** CRC and header of the next block are copied in front of it. */
    method Prepend()
      requires Apart() && block.Valid() && crcs.Valid() && headers.Valid()
      requires headerSize + CRC_SIZE <= block.first
      requires crcs.BytesInABuffer() >= CRC_SIZE && headers.BytesInABuffer() >= headerSize
      modifies block`first, block.data, crcs`first, headers`first
      ensures block.Valid() && crcs.Valid() && headers.Valid()
      ensures block.first == old(block.first) - headerSize - CRC_SIZE
      ensures headers.Unflushed() == old(headers.Unflushed())[headerSize..]
      ensures crcs.Unflushed() == old(crcs.Unflushed())[CRC_SIZE..]
      ensures block.Unflushed() == old(headers.Unflushed())[..headerSize] + (old(crcs.Unflushed())[..CRC_SIZE] + old(block.Unflushed()))
    {
      block.PrependFrom(crcs, CRC_SIZE);
      block.PrependFrom(headers, headerSize);
    }

    /** The next block is made ready in place, over bytes already sent. */
    method Splice()
      requires Valid() && remaining == 0 && BytesInABuffer() > 0
      modifies `remaining, block`first, block.data, crcs`first, headers`first
      ensures Valid() && remaining > 0 && Unsent() == old(Unsent())
    {
      ghost var total := BytesInABuffer();
      WireSplice(headerSize, headers.Unflushed(), crcs.Unflushed(), block.Unflushed());
      hide Ready, Wire;
      Prepend();
      var whole := BLOCK_SIZE + CRC_SIZE + headerSize;
      var left := block.BytesInABuffer() + crcs.BytesInABuffer() + headers.BytesInABuffer();
      assert left == total;
      remaining := if whole < left then whole else left;
    }

    /** The accepted bytes are the first of those unsent. */
    method Advance(n: nat)
      requires Valid() && 0 < n <= remaining
      modifies `remaining, block`first
      ensures Valid() && old(Unsent()) == old(block.data[block.first..block.first + n]) + Unsent()
    {
      ghost var bs := block.Unflushed();
      WireAdvance(headerSize, headers.Unflushed(), crcs.Unflushed(), bs, remaining, n);
      Bounds();
      assert bs[..n] == block.data[block.first..block.first + n];
      hide Ready, Wire;
      remaining := remaining - n;
      block.first := block.first + n;
      assert block.Unflushed() == bs[n..];
    }

    /** writeOutToAFileDescriptor: whatever the descriptor accepts, what was accepted and
        what is left make up the same wire bytes; Done exactly when nothing is left, and
        otherwise only once the descriptor refuses. */
    method WriteOut(fd: Descriptor) returns (status: WriteStatus)
      requires Valid() && fd !in Repr
      modifies Repr, fd
      ensures Valid()
      ensures fd.accepted + Unsent() == old(fd.accepted + Unsent())
      ensures status == Done <==> Unsent() == []
      ensures fd.refusals == old(fd.refusals) + if status == Done then 0 else 1
      ensures status != Done ==> (status == Error <==> fd.broken)
    {
      hide Valid, Unsent, OutputBuffer.BytesInABuffer, Apart;
      ghost var wire := fd.accepted + Unsent();
      Bounds();
      while BytesInABuffer() > 0
        invariant Valid() && fd.accepted + Unsent() == wire
        invariant |Unsent()| == BytesInABuffer() && fd.refusals == old(fd.refusals)
        decreases |Unsent()|
      {
        if remaining == 0 { Splice(); }
        Bounds();
        ghost var sent, unsent := fd.accepted, Unsent();
        var ret, again := fd.Write(block.data, block.first, remaining);
        assert Unsent() == unsent;
        if ret <= 0 {
          return if ret == 0 || again then Again else Error;
        }
        ghost var accepted := block.data[block.first..block.first + ret];
        Advance(ret);
        Assoc(sent, accepted, Unsent());
        Bounds();
      }
      return Done;
    }

    /** Over any number of calls the accepted bytes are a prefix of the wire. */
    method WriteOften(fd: Descriptor, calls: nat) returns (status: WriteStatus)
      requires Valid() && fd !in Repr
      modifies Repr, fd
      ensures Valid() && fd.accepted <= old(fd.accepted + Unsent())
      ensures status == Done ==> fd.accepted == old(fd.accepted + Unsent())
    {
      hide Valid, Unsent;
      ghost var wire := fd.accepted + Unsent();
      status := Again;
      for i := 0 to calls
        invariant Valid() && fd.accepted + Unsent() == wire
        invariant status == Done ==> Unsent() == []
      {
        status := WriteOut(fd);
      }
    }
  }
}
