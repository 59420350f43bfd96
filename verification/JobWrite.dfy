/** InputBuffer::getWriteOperations and the body of job_write: adjacent full-block writes
    are merged, run against the disk, and one status per write is reported. */
module JobWrite {
  import opened ChunkTypes
  import opened WriteOp

  /** A received write as it lies in the block buffer, `at` being its first byte there. */
  datatype Piece = Piece(blockNum: nat, offset: nat, size: nat, crc: nat, at: nat)

  datatype Operation = Operation(startBlock: nat, endBlock: nat, offset: nat, size: nat, buffer: nat, crcs: seq<nat>) {
    predicate Full() { offset == 0 && size == BLOCK_SIZE }
    predicate Valid() { startBlock <= endBlock && |crcs| == endBlock - startBlock + 1 && (!Full() ==> startBlock == endBlock) }
  }

  /** The single writes an operation stands for. */
  function Expand(op: Operation): (r: seq<Piece>)
    requires op.Valid()
    ensures |r| == |op.crcs|
  {
    seq(|op.crcs|, k requires 0 <= k < |op.crcs| =>
      Piece(op.startBlock + k, op.offset, op.size, op.crcs[k], op.buffer + k * BLOCK_SIZE))
  }

  function Flatten(ops: seq<Operation>): seq<Piece>
    requires forall op <- ops :: op.Valid()
  {
    if ops == [] then [] else Flatten(ops[..|ops| - 1]) + Expand(ops[|ops| - 1])
  }

  function Pieces(infos: seq<Info>, crcs: seq<nat>): (r: seq<Piece>)
    requires |infos| <= |crcs|
    ensures |r| == |infos|
  {
    seq(|infos|, i requires 0 <= i < |infos| =>
      Piece(infos[i].blockNum, infos[i].offset, infos[i].size, crcs[i], i * BLOCK_SIZE))
  }

  /** Both are full blocks and the second follows the first on disk. */
  predicate Mergeable(op: Operation, info: Info) {
    op.endBlock + 1 == info.blockNum && op.Full() && info.offset == 0 && info.size == BLOCK_SIZE
  }

  lemma FlattenSnoc(ops: seq<Operation>, op: Operation)
    requires op.Valid() && forall o <- ops :: o.Valid()
    ensures forall o <- ops + [op] :: o.Valid()
    ensures Flatten(ops + [op]) == Flatten(ops) + Expand(op)
  {
    assert (ops + [op])[..|ops|] == ops;
  }

  /** Merging the next write into an operation adds it at the end. */
  lemma MergedExpand(op: Operation, info: Info, crc: nat, at: nat)
    requires op.Valid() && Mergeable(op, info) && at == op.buffer + |op.crcs| * BLOCK_SIZE
    ensures var merged := op.(endBlock := op.endBlock + 1, crcs := op.crcs + [crc]);
            merged.Valid() && Expand(merged) == Expand(op) + [Piece(info.blockNum, info.offset, info.size, crc, at)]
  {}

  /** Two runs of full blocks that lie next to each other on disk. */
  predicate Follows(a: Operation, b: Operation) { a.Full() && b.Full() && a.endBlock + 1 == b.startBlock }

  predicate Unmergeable(ops: seq<Operation>) { forall j :: 0 < j < |ops| ==> !Follows(ops[j - 1], ops[j]) }

  lemma EmptyUnmergeable()
    ensures Unmergeable([])
  {}

  lemma UnmergeableSnoc(ops: seq<Operation>, op: Operation)
    requires Unmergeable(ops) && (ops != [] ==> !Follows(ops[|ops| - 1], op))
    ensures Unmergeable(ops + [op])
  {}

  lemma UnmergeableLast(ops: seq<Operation>, op: Operation)
    requires ops != [] && Unmergeable(ops) && op.Full() == ops[|ops| - 1].Full() && op.startBlock == ops[|ops| - 1].startBlock
    ensures Unmergeable(ops[..|ops| - 1] + [op])
  {}

  /** The operations are the received writes, in order and with their own data and CRCs,
      and no two neighbours could be one. */
  method GetWriteOperations(infos: seq<Info>, crcs: seq<nat>) returns (ops: seq<Operation>)
    requires |infos| <= |crcs|
    ensures forall op <- ops :: op.Valid()
    ensures Flatten(ops) == Pieces(infos, crcs)
    ensures infos != [] ==> ops != []
    ensures Unmergeable(ops)
  {
    ops := [];
    hide Unmergeable;
    EmptyUnmergeable();
    for i := 0 to |infos|
      invariant forall op <- ops :: op.Valid()
      invariant Flatten(ops) == Pieces(infos, crcs)[..i]
      invariant i > 0 ==> ops != []
      invariant Unmergeable(ops)
    {
      var info := infos[i];
      ghost var piece := Pieces(infos, crcs)[i];
      assert Pieces(infos, crcs)[..i + 1] == Pieces(infos, crcs)[..i] + [piece];
      if ops != [] && Mergeable(ops[|ops| - 1], info) {
        var n := |ops| - 1;
        var op := ops[n];
        var merged := op.(endBlock := op.endBlock + 1, crcs := op.crcs + [crcs[i]]);
        ghost var before := ops[..n];
        assert ops == before + [op];
        FlattenSnoc(before, op);
        assert Expand(op)[|op.crcs| - 1] == Flatten(ops)[i - 1];
        MergedExpand(op, info, crcs[i], i * BLOCK_SIZE);
        FlattenSnoc(before, merged);
        assert Flatten(before) + (Expand(op) + [piece]) == Flatten(before) + Expand(op) + [piece];
        UnmergeableLast(ops, merged);
        ops := ops[..n] + [merged];
      } else {
        var op := Operation(info.blockNum, info.blockNum, info.offset, info.size, i * BLOCK_SIZE, [crcs[i]]);
        assert Expand(op) == [piece];
        FlattenSnoc(ops, op);
        UnmergeableSnoc(ops, op);
        ops := ops + [op];
      }
    }
    assert Pieces(infos, crcs)[..|infos|] == Pieces(infos, crcs);
  }

  // ---------------------------------------------------------------- running the operations

  /** What the disk answers: bytes written by a run of full blocks, or a status. */
  datatype Answer = Bytes(n: nat) | Code(status: Status)

  predicate Inside(p: Piece, data: seq<u8>) { p.at + p.size <= |data| }

  function WriteOf(p: Piece, data: seq<u8>): Write
    requires Inside(p, data)
  {
    Write(p.blockNum, p.offset, data[p.at..p.at + p.size], 0, p.crc)
  }

  function WritesOf(ps: seq<Piece>, data: seq<u8>): (r: seq<Write>)
    requires forall p <- ps :: Inside(p, data)
    ensures |r| == |ps|
  {
    seq(|ps|, i requires 0 <= i < |ps| => WriteOf(ps[i], data))
  }

  /** The chunk after `count` bytes of data[from..] were put at `start`. */
  function Stored(disk: Content, start: nat, data: seq<u8>, from: nat, count: nat): Content
    requires from + count <= |data|
  {
    (b: nat) => if start <= b < start + count then data[from + b - start] else disk(b)
  }

  ghost predicate Holds(disk: Content, init: Content, ws: seq<Write>) {
    forall b: nat :: disk(b) == ByteAt(init, ws, b)
  }

  /** Storing the next write. */
  lemma StoredOne(disk: Content, init: Content, ws: seq<Write>, p: Piece, data: seq<u8>)
    requires Holds(disk, init, ws) && Inside(p, data)
    ensures Holds(Stored(disk, p.blockNum * BLOCK_SIZE + p.offset, data, p.at, p.size), init, ws + [WriteOf(p, data)])
  {
    assert (ws + [WriteOf(p, data)])[..|ws|] == ws;
  }

  /** Storing m full blocks at once is storing them one by one. */
  lemma {:induction false} StoredBlocks(disk: Content, init: Content, ws: seq<Write>, op: Operation, data: seq<u8>, m: nat)
    requires op.Valid() && op.Full() && m <= |op.crcs| && Holds(disk, init, ws)
    requires forall p <- Expand(op) :: Inside(p, data)
    requires op.buffer + m * BLOCK_SIZE <= |data|
    ensures Holds(Stored(disk, op.startBlock * BLOCK_SIZE, data, op.buffer, m * BLOCK_SIZE), init,
                  ws + WritesOf(Expand(op), data)[..m])
  {
    var all := WritesOf(Expand(op), data);
    if m == 0 {
      assert ws + all[..0] == ws;
    } else {
      var p := Expand(op)[m - 1];
      assert p in Expand(op);
      StoredBlocks(disk, init, ws, op, data, m - 1);
      var before := Stored(disk, op.startBlock * BLOCK_SIZE, data, op.buffer, (m - 1) * BLOCK_SIZE);
      StoredOne(before, init, ws + all[..m - 1], p, data);
      assert ws + all[..m - 1] + [WriteOf(p, data)] == ws + all[..m];
      forall b: nat
        ensures Stored(disk, op.startBlock * BLOCK_SIZE, data, op.buffer, m * BLOCK_SIZE)(b)
             == Stored(before, p.blockNum * BLOCK_SIZE + p.offset, data, p.at, p.size)(b)
      {}
    }
  }

  function Oks(n: nat): (r: seq<Status>)
    ensures |r| == n
  {
    seq(n, _ => STATUS_OK)
  }

  lemma OksSum(m: nat, n: nat)
    ensures Oks(m) + Oks(n) == Oks(m + n)
  {}

  /** How many writes of an operation reach the disk under the disk's answer. */
  function Reached(op: Operation, answer: Answer): (r: nat)
    requires op.Valid()
  {
    if op.size == 0 then 1
    else
      match answer
      case Code(status) => if status == STATUS_OK then |op.crcs| else 0
      case Bytes(n) => if op.Full() && n < |op.crcs| * BLOCK_SIZE then n / BLOCK_SIZE else |op.crcs|
  }

  /** The writes of the operations from the j-th on that reach the disk: up to the first
      operation that is not written completely. */
  function ReachedFrom(ops: seq<Operation>, answers: nat -> Answer, j: nat): nat
    requires forall op <- ops :: op.Valid()
    decreases |ops| - j
  {
    if j >= |ops| then 0
    else
      var n := Reached(ops[j], answers(j));
      if n < |ops[j].crcs| then n else n + ReachedFrom(ops, answers, j + 1)
  }

  /** One operation: how many of its writes reached the disk, and the statuses pushed. */
  method RunOperation(op: Operation, data: seq<u8>, disk: Content, answer: Answer, ghost init: Content, ghost ws: seq<Write>)
    returns (after: Content, statuses: seq<Status>, done: nat)
    requires op.Valid() && (forall p <- Expand(op) :: Inside(p, data)) && Holds(disk, init, ws)
    ensures done == Reached(op, answer) <= |op.crcs|
    ensures done == if op.size == 0 then 1
                    else if answer.Code? then (if answer.status == STATUS_OK then |op.crcs| else 0)
                    else if op.Full() && answer.n < |op.crcs| * BLOCK_SIZE then answer.n / BLOCK_SIZE
                    else |op.crcs|
    ensures Holds(after, init, ws + WritesOf(Expand(op), data)[..done])
    ensures if done == |op.crcs| then statuses == Oks(done)
            else |statuses| == done + 1 && statuses[..done] == Oks(done) &&
                 statuses[done] == (if answer.Code? then answer.status else ERROR_IO) != STATUS_OK
  {
    ghost var all := WritesOf(Expand(op), data);
    var n := op.endBlock - op.startBlock + 1;
    assert Expand(op)[n - 1] in Expand(op);
    if op.size == 0 {
      after, statuses, done := disk, [STATUS_OK], 1;
      SkipEmpty(disk, init, ws, op, data);
    } else if op.Full() {
      var written := match answer case Bytes(b) => b case Code(_) => 0;
      if answer.Code? && answer.status != STATUS_OK {
        after, statuses, done := disk, [answer.status], 0;
        assert ws + all[..0] == ws;
      } else if written < n * BLOCK_SIZE && answer.Bytes? {
        done := written / BLOCK_SIZE;
        after := Stored(disk, op.startBlock * BLOCK_SIZE, data, op.buffer, done * BLOCK_SIZE);
        StoredBlocks(disk, init, ws, op, data, done);
        statuses := [];
        for i := 0 to done
          invariant statuses == Oks(i)
        {
          statuses := statuses + [STATUS_OK];
        }
        statuses := statuses + [ERROR_IO];
      } else {
        done := n;
        after := Stored(disk, op.startBlock * BLOCK_SIZE, data, op.buffer, n * BLOCK_SIZE);
        StoredBlocks(disk, init, ws, op, data, n);
        statuses := [];
        for i := 0 to n
          invariant statuses == Oks(i)
        {
          statuses := statuses + [STATUS_OK];
        }
      }
    } else {
      var status := match answer case Bytes(_) => STATUS_OK case Code(s) => s;
      statuses := [status];
      if status == STATUS_OK {
        done := 1;
        var p := Piece(op.startBlock, op.offset, op.size, op.crcs[0], op.buffer);
        assert Expand(op)[0] == p;
        after := Stored(disk, op.startBlock * BLOCK_SIZE + op.offset, data, op.buffer, op.size);
        StoredOne(disk, init, ws, p, data);
        assert all[..1] == [WriteOf(p, data)];
      } else {
        after, done := disk, 0;
        assert ws + all[..0] == ws;
      }
    }
  }

  /** A zero-size write is reported written; it changes no byte. */
  lemma SkipEmpty(disk: Content, init: Content, ws: seq<Write>, op: Operation, data: seq<u8>)
    requires op.Valid() && op.size == 0 && (forall p <- Expand(op) :: Inside(p, data)) && Holds(disk, init, ws)
    ensures |op.crcs| == 1 && Holds(disk, init, ws + WritesOf(Expand(op), data)[..1])
  {
    var p := Expand(op)[0];
    assert p in Expand(op);
    StoredOne(disk, init, ws, p, data);
    assert WritesOf(Expand(op), data)[..1] == [WriteOf(p, data)];
  }

  lemma {:induction false} FlattenInside(ops: seq<Operation>, data: seq<u8>, j: nat)
    requires (forall op <- ops :: op.Valid()) && j < |ops| && forall p <- Flatten(ops) :: Inside(p, data)
    ensures forall p <- Expand(ops[j]) :: Inside(p, data)
  {
    var n := |ops| - 1;
    if j < n { FlattenInside(ops[..n], data, j); }
  }

  lemma {:induction false} FlattenTake(ops: seq<Operation>, j: nat)
    requires (forall op <- ops :: op.Valid()) && j < |ops|
    ensures Flatten(ops[..j]) + Expand(ops[j]) <= Flatten(ops)
    ensures Flatten(ops[..j + 1]) == Flatten(ops[..j]) + Expand(ops[j])
  {
    var n := |ops| - 1;
    assert ops[..j + 1] == ops[..j] + [ops[j]];
    FlattenSnoc(ops[..j], ops[j]);
    if j < n {
      FlattenTake(ops[..n], j);
      assert ops[..n][..j] == ops[..j] && ops[..n][..j + 1] == ops[..j + 1];
    } else {
      assert ops[..j + 1] == ops;
    }
  }

  lemma Aligned(ps: seq<Piece>, next: seq<Piece>, data: seq<u8>, done: nat, n: nat)
    requires done + |next| <= |ps| && ps[done..done + |next|] == next && n <= |next|
    requires (forall p <- ps :: Inside(p, data)) && forall p <- next :: Inside(p, data)
    ensures WritesOf(ps, data)[..done] + WritesOf(next, data)[..n] == WritesOf(ps, data)[..done + n]
  {
    assert forall k :: 0 <= k < n ==> ps[done + k] == next[k];
  }

  /** job_write: the chunk holds exactly the first `done` writes, applied one by one in
      order; their statuses are OK and, if a write is missing, the next status is that of the
      operation it belongs to. It goes on as far as the disk lets it. */
  method RunJob(infos: seq<Info>, crcs: seq<nat>, data: seq<u8>, disk: Content, answers: nat -> Answer)
    returns (after: Content, statuses: seq<Status>, status: Status, done: nat, ghost ops: seq<Operation>, ghost stop: nat)
    requires |infos| <= |crcs| && forall p <- Pieces(infos, crcs) :: Inside(p, data)
    ensures (forall op <- ops :: op.Valid()) && Flatten(ops) == Pieces(infos, crcs) && Unmergeable(ops)
    ensures done == ReachedFrom(ops, answers, 0) <= |infos|
    ensures Holds(after, disk, WritesOf(Pieces(infos, crcs), data)[..done])
    ensures if done == |infos| then statuses == Oks(done) && status == STATUS_OK
            else |statuses| == done + 1 && statuses[..done] == Oks(done) && statuses[done] == status != STATUS_OK
    ensures done < |infos| ==>
              && stop < |ops| && |Flatten(ops[..stop])| <= done < |Flatten(ops[..stop])| + |ops[stop].crcs|
              && status == if answers(stop).Code? then answers(stop).status else ERROR_IO
  {
    hide Holds, WritesOf, Flatten, Pieces, Expand, Oks, Inside, Unmergeable, Reached;
    var todo := GetWriteOperations(infos, crcs);
    ops := todo;
    ghost var ps := Pieces(infos, crcs);
    ghost var all := WritesOf(ps, data);
    after, statuses, status, done, stop := disk, [], STATUS_OK, 0, 0;
    ghost var ws := [];
    NoneRun(disk);
    assert all[..0] == ws && ops[..0] == [];
    var j := 0;
    while j < |todo|
      invariant j <= |ops| && done <= |all| && done == |Flatten(ops[..j])|
      invariant done + ReachedFrom(ops, answers, j) == ReachedFrom(ops, answers, 0)
      invariant ws == all[..done] && Holds(after, disk, ws)
      invariant statuses == Oks(done) && status == STATUS_OK
    {
      var op := todo[j];
      ghost var next := Expand(op);
      NextOperation(ops, data, j);
      var more, n;
      after, more, n := RunOperation(op, data, after, answers(j), disk, ws);
      ws := ws + WritesOf(next, data)[..n];
      Aligned(ps, next, data, done, n);
      OksSum(done, n);
      statuses := statuses + more;
      done := done + n;
      if n < |op.crcs| {
        status, stop := more[n], j;
        return;
      }
      j := j + 1;
    }
    assert ops[..j] == ops;
  }

  lemma NoneRun(disk: Content)
    ensures Holds(disk, disk, []) && Oks(0) == [] && Flatten([]) == []
  {}

  lemma NextOperation(ops: seq<Operation>, data: seq<u8>, j: nat)
    requires (forall op <- ops :: op.Valid()) && j < |ops| && forall p <- Flatten(ops) :: Inside(p, data)
    ensures forall p <- Expand(ops[j]) :: Inside(p, data)
    ensures var done, n := |Flatten(ops[..j])|, |ops[j].crcs|;
            && |Expand(ops[j])| == n && done + n <= |Flatten(ops)| && |Flatten(ops[..j + 1])| == done + n
            && Flatten(ops)[done..done + n] == Expand(ops[j])
  {
    FlattenTake(ops, j);
    FlattenInside(ops, data, j);
  }

  /** applyStatuses: what writeFinishedCallback will find on each write. */
  method ApplyStatuses(n: nat, statuses: seq<Status>) returns (applied: seq<Status>)
    ensures |applied| == n
    ensures forall i :: 0 <= i < n ==> applied[i] == if i < |statuses| then statuses[i] else STATUS_OK
  {
    applied := Oks(n);
    var m := if |statuses| > n then n else |statuses|;
    for i := 0 to m
      invariant |applied| == n
      invariant forall k :: 0 <= k < n ==> applied[k] == if k < i then statuses[k] else STATUS_OK
    {
      applied := applied[i := statuses[i]];
    }
  }

  /** The statuses of a finished job are those the write callback is modelled with. */
  method JobStatuses(infos: seq<Info>, crcs: seq<nat>, data: seq<u8>, disk: Content, answers: nat -> Answer)
    returns (after: Content, applied: seq<Status>, status: Status, done: nat)
    requires |infos| <= |crcs| && forall p <- Pieces(infos, crcs) :: Inside(p, data)
    ensures done <= |infos| && (status == STATUS_OK <==> done == |infos|) && |applied| == |infos|
    ensures forall i :: 0 <= i < |infos| ==> applied[i] == StatusOf(done, status, i)
    ensures Holds(after, disk, WritesOf(Pieces(infos, crcs), data)[..done])
  {
    var statuses;
    ghost var ops, stop;
    after, statuses, status, done, ops, stop := RunJob(infos, crcs, data, disk, answers);
    applied := ApplyStatuses(|infos|, statuses);
    forall i | 0 <= i < |infos| ensures applied[i] == StatusOf(done, status, i) {
      if i < done { assert statuses[..done][i] == STATUS_OK; }
    }
  }
}
