/** ReadHighLevelOp as the code has it, and the headers it writes in front of the blocks. */
module ReadHighLevelOps {
  import opened ChunkTypes
  import opened ReadOp
  import opened ReadInv

  // ---------------------------------------------------------------- block headers

  /** The header prepareReadDataPacket writes for the i-th block of a job. */
  function HeaderAt(job: Range, i: nat): Range {
    var within := job.start % BLOCK_SIZE;
    if i == 0 then Range(job.start, if job.len < BLOCK_SIZE - within then job.len else BLOCK_SIZE - within)
    else Range(job.start - within + i * BLOCK_SIZE, BLOCK_SIZE)
  }

  /** The loop of prepareReadDataPacket. */
  method PrepareReadDataPacket(job: Range) returns (headers: seq<Range>)
    ensures |headers| == (job.len + BLOCK_SIZE - 1) / BLOCK_SIZE
    ensures forall i :: 0 <= i < |headers| ==> headers[i] == HeaderAt(job, i)
  {
    var within := job.start % BLOCK_SIZE;
    var numBlocks := (job.len + BLOCK_SIZE - 1) / BLOCK_SIZE;
    var prefix := Range(job.start, if job.len < BLOCK_SIZE - within then job.len else BLOCK_SIZE - within);
    headers := [];
    for i := 0 to numBlocks
      invariant |headers| == i && forall k :: 0 <= k < i ==> headers[k] == HeaderAt(job, k)
      invariant i == 0 ==> prefix == HeaderAt(job, 0)
    {
      if i > 0 { prefix := Range(job.start - within + i * BLOCK_SIZE, BLOCK_SIZE); }
      headers := headers + [prefix];
    }
  }

  /** The parts of a job that lie in one block each. */
  function Pieces(start: nat, len: nat): seq<Range>
    decreases len
  {
    if len == 0 then []
    else
      var room := BLOCK_SIZE - start % BLOCK_SIZE;
      var n := if len < room then len else room;
      [Range(start, n)] + Pieces(start + n, len - n)
  }

  lemma {:induction false} AlignedPieces(start: nat, len: nat, i: nat)
    requires start % BLOCK_SIZE == 0
    ensures |Pieces(start, len)| == (len + BLOCK_SIZE - 1) / BLOCK_SIZE
    ensures i < |Pieces(start, len)| ==>
              Pieces(start, len)[i] == Range(start + i * BLOCK_SIZE, if len - i * BLOCK_SIZE < BLOCK_SIZE then len - i * BLOCK_SIZE else BLOCK_SIZE)
    decreases len
  {
    if len > BLOCK_SIZE { AlignedPieces(start + BLOCK_SIZE, len - BLOCK_SIZE, if i > 0 then i - 1 else 0); }
  }

  /** The first piece fills up its block, the others are block aligned. */
  lemma PiecesForm(start: nat, len: nat, i: nat)
    requires len > 0
    ensures var within := start % BLOCK_SIZE;
            |Pieces(start, len)| == (within + len + BLOCK_SIZE - 1) / BLOCK_SIZE
    ensures var base, end := start - start % BLOCK_SIZE, start + len;
            i < |Pieces(start, len)| ==>
              Pieces(start, len)[i] ==
              if i == 0 then HeaderAt(Range(start, len), 0)
              else Range(base + i * BLOCK_SIZE, if end - base - i * BLOCK_SIZE < BLOCK_SIZE then end - base - i * BLOCK_SIZE else BLOCK_SIZE)
  {
    var room := BLOCK_SIZE - start % BLOCK_SIZE;
    if len > room {
      AlignedPieces(start + room, len - room, if i > 0 then i - 1 else 0);
    }
  }

  ghost predicate HeadersRight(job: Range) {
    && |Pieces(job.start, job.len)| == (job.len + BLOCK_SIZE - 1) / BLOCK_SIZE
    && forall i :: 0 <= i < |Pieces(job.start, job.len)| ==> Pieces(job.start, job.len)[i] == HeaderAt(job, i)
  }

  /** The headers describe the blocks that follow them exactly when the job lies in one
      block or ends at a block boundary. */
  lemma HeadersRightIff(job: Range)
    requires job.len > 0
    ensures HeadersRight(job) <==> job.start % BLOCK_SIZE + job.len <= BLOCK_SIZE || (job.start + job.len) % BLOCK_SIZE == 0
  {
    var n := |Pieces(job.start, job.len)|;
    PiecesForm(job.start, job.len, n - 1);
    if job.start % BLOCK_SIZE + job.len <= BLOCK_SIZE || (job.start + job.len) % BLOCK_SIZE == 0 {
      forall i | 0 <= i < n ensures Pieces(job.start, job.len)[i] == HeaderAt(job, i) { PiecesForm(job.start, job.len, i); }
    } else {
      assert n > 1 && Pieces(job.start, job.len)[n - 1] != HeaderAt(job, n - 1);
    }
  }

  /** The headers of an issued job are right exactly when it is not the last of the request, or
      the request ends at a block boundary, or what is left of it lies in one block. */
  lemma IssuedHeaders(offset: nat, size: nat, maxBlocks: nat)
    requires size > 0 && maxBlocks > 0
    ensures var job := Range(offset, PartSize(offset, size, maxBlocks));
            HeadersRight(job) <==> job.len < size || (offset + size) % BLOCK_SIZE == 0 || offset % BLOCK_SIZE + size <= BLOCK_SIZE
  {
    hide HeadersRight;
    var job := Range(offset, PartSize(offset, size, maxBlocks));
    HeadersRightIff(job);
    if job.len < size { assert (job.start + job.len) % BLOCK_SIZE == 0; }
  }

  /** A request for one block and a byte is issued as one job, whose second header says a full
      block. */
  lemma WrongHeader()
    ensures var job := Range(0, BLOCK_SIZE + 1);
            && Issue(Setup(0, BLOCK_SIZE + 1), 1, 16, 1).pending == [Item(0, job, Waiting, false)]
            && HeaderAt(job, 1) == Range(BLOCK_SIZE, BLOCK_SIZE) && !HeadersRight(job)
  {
    var r := Setup(0, BLOCK_SIZE + 1);
    assert PartSize(0, BLOCK_SIZE + 1, 16) == BLOCK_SIZE + 1;
    assert [] + [Item(0, Range(0, BLOCK_SIZE + 1), Waiting, false)] == [Item(0, Range(0, BLOCK_SIZE + 1), Waiting, false)];
    hide HeadersRight;
    HeadersRightIff(Range(0, BLOCK_SIZE + 1));
  }

  // ---------------------------------------------------------------- the operation

  /** Each packet has the headers of its job. */
  ghost predicate HeadersFor(packets: seq<seq<Range>>, jobs: seq<Item>) {
    && |packets| == |jobs|
    && forall k :: 0 <= k < |packets| ==> HeadersOf(packets[k], jobs[k].range)
  }

  function Issued(r: Read, maxBlocks: nat): Read
    requires maxBlocks > 0
  {
    var n := PartSize(r.offset, r.size, maxBlocks);
    r.(offset := r.offset + n, size := if n <= r.size then r.size - n else 0, nextId := r.nextId + 1,
       pending := r.pending + [Item(r.nextId, Range(r.offset, n), Waiting, false)])
  }

  lemma IssueUnfolds(r: Read, maxJobs: nat, maxBlocks: nat, granted: nat)
    requires maxBlocks > 0
    ensures Issue(r, maxJobs, maxBlocks, granted) ==
            if !(r.size > 0 && |r.pending| < maxJobs) then r
            else if granted == 0
            then r.(nextId := r.nextId + 1,
                    pool := r.pool + [Item(r.nextId, Range(r.offset, PartSize(r.offset, r.size, maxBlocks)), Disabled, false)])
            else Issue(Issued(r, maxBlocks), maxJobs, maxBlocks, granted - 1)
  {}

  lemma NoHeaders()
    ensures HeadersFor([], [])
  {}

  lemma HeadersSnoc(packets: seq<seq<Range>>, jobs: seq<Item>, headers: seq<Range>, job: Item)
    requires HeadersFor(packets, jobs) && HeadersOf(headers, job.range)
    ensures HeadersFor(packets + [headers], jobs + [job])
  {}

  ghost predicate HeadersOf(headers: seq<Range>, job: Range) {
    && |headers| == (job.len + BLOCK_SIZE - 1) / BLOCK_SIZE
    && forall i :: 0 <= i < |headers| ==> headers[i] == HeaderAt(job, i)
  }

  class ReadHighLevelOp {
    var offset: nat
    var size: nat
    var pending: seq<Item>
    var discard: seq<Item>
    var pool: seq<Item>
    var attached: seq<Item>
    var nextId: nat
    var delayed: int
    var phase: Phase

    ghost function View(): Read
      reads this
    {
      Read(offset, size, pending, discard, pool, attached, nextId, delayed, phase)
    }

    constructor (offset: nat, size: nat)
      ensures View() == Setup(offset, size)
    {
      this.offset, this.size := offset, size;
      pending, discard, pool, attached, nextId, delayed, phase := [], [], [], [], 0, 0, Reading;
    }

    /** The attaching loop of readContinue. */
    method AttachFinished()
      modifies `pending, `attached
      ensures View() == Attach(old(View()))
    {
      ghost var end := Attach(View());
      while pending != [] && pending[0].started
        invariant Attach(View()) == end
        decreases |pending|
      {
        attached := attached + [pending[0]];
        pending := pending[1..];
      }
    }

    /** One job is issued, its packet with its headers. */
    method IssueOne(maxBlocks: nat) returns (headers: seq<Range>)
      requires maxBlocks > 0 && size > 0
      modifies `offset, `size, `pending, `nextId
      ensures View() == Issued(old(View()), maxBlocks) && HeadersOf(headers, pending[|pending| - 1].range)
    {
      hide HeaderAt;
      var room := maxBlocks * BLOCK_SIZE - offset % BLOCK_SIZE;
      var thisPartSize := if size < room then size else room;
      headers := PrepareReadDataPacket(Range(offset, thisPartSize));
      pending := pending + [Item(nextId, Range(offset, thisPartSize), Waiting, false)];
      nextId := nextId + 1;
      offset := offset + thisPartSize;
      size := size - thisPartSize;
    }

    /** The issuing loop of readContinue; each job's packet gets its headers. When job_read
        fails the connection is to be closed. */
    method IssueJobs(maxJobs: nat, maxBlocks: nat, granted: nat) returns (packets: seq<seq<Range>>, close: bool)
      requires maxBlocks > 0
      modifies `offset, `size, `pending, `pool, `nextId
      ensures View() == Issue(old(View()), maxJobs, maxBlocks, granted)
      ensures close ==> |packets| == granted && |pool| == |old(pool)| + 1
      ensures !close ==> pool == old(pool) && (size == 0 || |pending| >= maxJobs)
      ensures |pending| == |old(pending)| + |packets| && HeadersFor(packets, pending[|old(pending)|..])
      ensures |pending| <= maxJobs || pending == old(pending)
      ensures forall k :: |old(pending)| <= k < |pending| ==>
                var job := pending[k].range;
                && job.start % BLOCK_SIZE + job.len <= maxBlocks * BLOCK_SIZE
                && (job.start % BLOCK_SIZE + job.len == maxBlocks * BLOCK_SIZE || (k == |pending| - 1 && size == 0))
    {
      hide Issue, HeadersFor, HeadersOf;
      IssueLimits(View(), maxJobs, maxBlocks, granted);
      packets, close := [], false;
      NoHeaders();
      assert pending[|old(pending)|..] == [];
      while size > 0 && |pending| < maxJobs
        invariant |packets| <= granted && Issue(View(), maxJobs, maxBlocks, granted - |packets|) == Issue(old(View()), maxJobs, maxBlocks, granted)
        invariant pool == old(pool) && |pending| == |old(pending)| + |packets| && HeadersFor(packets, pending[|old(pending)|..])
        decreases size
      {
        IssueUnfolds(View(), maxJobs, maxBlocks, granted - |packets|);
        if |packets| == granted {
          pool := pool + [Item(nextId, Range(offset, PartSize(offset, size, maxBlocks)), Disabled, false)];
          nextId := nextId + 1;
          return packets, true;
        }
        ghost var was, n := pending[|old(pending)|..], |pending|;
        var headers := IssueOne(maxBlocks);
        assert pending[|old(pending)|..] == was + [pending[n]];
        HeadersSnoc(packets, was, headers, pending[n]);
        packets := packets + [headers];
      }
      IssueUnfolds(View(), maxJobs, maxBlocks, granted - |packets|);
    }

    /** readContinue. */
    method ReadContinue(maxJobs: nat, maxBlocks: nat, granted: nat)
      requires maxBlocks > 0
      modifies this
      ensures View() == Continue(old(View()), maxJobs, maxBlocks, granted)
    {
      hide Attach, Issue;
      AttachFinished();
      if pending == [] && size == 0 {
        phase := Served;
      } else {
        var _, _ := IssueJobs(maxJobs, maxBlocks, granted);
      }
    }

    /** prepareDiscardReadJobs: jobs no worker has taken are disabled; their buffers and
        those already returned go to the pool, the others are kept until their callback. */
    method PrepareDiscardReadJobs() returns (left: seq<nat>)
      modifies `pending, `discard, `pool
      ensures View() == PrepareDiscard(old(View()))
      ensures left == Sort(DisableAll(old(pending)), DisabledIds(old(pending)), old(discard), old(pool)).0
    {
      ghost var end := Sort(DisableAll(pending), DisabledIds(pending), discard, pool);
      var ids := DisabledIds(pending);
      pending := DisableAll(pending);
      while pending != []
        invariant Sort(pending, ids, discard, pool) == end
        decreases |pending|
      {
        var i := pending[0];
        if !i.started && (ids == [] || ids[0] != i.id) {
          discard := discard + [i];
        } else {
          pool := pool + [i];
          if ids != [] && ids[0] == i.id { ids := ids[1..]; }
        }
        pending := pending[1..];
      }
      left := ids;
    }

    /** The ids of disabled jobs are used up exactly. */
    method DiscardAll()
      requires Inv(View()) && phase == Reading
      modifies this
      ensures View() == PrepareDiscard(old(View()))
    {
      PendingDistinct(View());
      SortSpec(pending, discard, pool);
      var left := PrepareDiscardReadJobs();
      assert left == [];
    }

    /** readFinishedCallback. */
    method ReadFinishedCallback(k: nat, maxJobs: nat, maxBlocks: nat, granted: nat)
      requires MayHappen(View(), Returns(k, maxJobs, maxBlocks, granted))
      modifies this
      ensures View() == Apply(old(View()), Returns(k, maxJobs, maxBlocks, granted))
    {
      hide PrepareDiscard, Continue;
      var ok := pending[k].work.ok;
      pending := pending[k := pending[k].(started := true, work := Returned(ok))];
      if ok {
        ReadContinue(maxJobs, maxBlocks, granted);
      } else {
        var _ := PrepareDiscardReadJobs();
        phase := Failed;
      }
    }

    /** readDiscardCallback. */
    method ReadDiscardCallback(k: nat)
      requires MayHappen(View(), DiscardReturns(k)) && phase != Closing
      modifies `discard, `pool
      ensures View() == Apply(old(View()), DiscardReturns(k))
    {
      hide Sweep, SweptTo;
      discard := discard[k := discard[k].(started := true, work := Returned(discard[k].work.ok))];
      ghost var all, back := discard, pool;
      var n := 0;
      ghost var m := 0;
      SweepBegins(all, back);
      while n < |discard|
        invariant n <= |discard| && SweptTo(all, m, discard, n, back, pool)
        decreases |discard| - n
      {
        SweepNext(all, m, discard, n, back, pool);
        m := m + 1;
        if discard[n].started {
          pool := pool + [discard[n]];
          discard := discard[..n] + discard[n + 1..];
        } else {
          n := n + 1;
        }
      }
      SweepEnds(all, m, discard, back, pool);
    }

    /** delayedCloseCallback. */
    method DelayedCloseCallback(k: nat)
      requires MayHappen(View(), DiscardReturns(k)) && phase == Closing
      modifies `discard, `pool, `delayed
      ensures View() == Apply(old(View()), DiscardReturns(k))
    {
      discard := discard[k := discard[k].(started := true, work := Returned(discard[k].work.ok))];
      ghost var end := SweepFront(View());
      while discard != [] && discard[0].started
        invariant SweepFront(View()) == end && delayed == old(delayed)
        decreases |discard|
      {
        pool := pool + [discard[0]];
        discard := discard[1..];
      }
      SweepFrontAside(View());
      delayed := delayed - 1;
    }
  }

  /** The sweep has dealt with the first m items: n of them are kept in front. */
  ghost predicate SweptTo(all: seq<Item>, m: nat, discard: seq<Item>, n: nat, back: seq<Item>, pool: seq<Item>) {
    && m <= |all| && n <= |discard| && discard[n..] == all[m..]
    && discard[..n] + Sweep(all[m..]).0 == Sweep(all).0 && pool + Sweep(all[m..]).1 == back + Sweep(all).1
  }

  lemma SweepBegins(all: seq<Item>, back: seq<Item>)
    ensures SweptTo(all, 0, all, 0, back, back)
  {
    assert all[0..] == all && all[..0] == [] && [] + Sweep(all).0 == Sweep(all).0;
  }

  lemma SweepEnds(all: seq<Item>, m: nat, discard: seq<Item>, back: seq<Item>, pool: seq<Item>)
    requires SweptTo(all, m, discard, |discard|, back, pool)
    ensures discard == Sweep(all).0 && pool == back + Sweep(all).1
  {
    assert all[m..] == [] && discard[..|discard|] == discard && discard + [] == discard && pool + [] == pool;
  }

  lemma SweepNext(all: seq<Item>, m: nat, discard: seq<Item>, n: nat, back: seq<Item>, pool: seq<Item>)
    requires n < |discard| && SweptTo(all, m, discard, n, back, pool)
    ensures if discard[n].started then SweptTo(all, m + 1, discard[..n] + discard[n + 1..], n, back, pool + [discard[n]])
            else SweptTo(all, m + 1, discard, n + 1, back, pool)
  {
    var i := discard[n];
    assert all[m..][0] == i && all[m..][1..] == all[m + 1..] && discard[n..][1..] == discard[n + 1..];
    var (kept, done) := Sweep(all[m + 1..]);
    if i.started {
      var d := discard[..n] + discard[n + 1..];
      assert d[n..] == discard[n + 1..] && d[..n] == discard[..n];
      assert pool + ([i] + done) == pool + [i] + done;
    } else {
      assert discard[..n + 1] == discard[..n] + [i];
      assert discard[..n] + ([i] + kept) == discard[..n] + [i] + kept;
    }
  }
}
