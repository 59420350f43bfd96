/** ReadHighLevelOp as a state machine: a read is split into jobs that run in parallel,
    delivered in order, and discarded without giving a buffer away that a worker may still
    fill. */
module ReadOp {
  import opened ChunkTypes

  /** A range of the chunk. */
  datatype Range = Range(start: nat, len: nat)

  /** Where a read job is: in the worker queue, taken out of it by disableJobs, with a
      worker, or done with its callback still to run, or returned; `ok` is whether the disk
      was read. */
  datatype Work = Waiting | Disabled | Filling | Filled(ok: bool) | Returned(ok: bool)
  /** A read job with its output buffer. `started` is isCallbackStarted. */
  datatype Item = Item(id: nat, range: Range, work: Work, started: bool)

  datatype Phase = Reading | Served | Failed | Closing
  datatype Read = Read(offset: nat, size: nat, pending: seq<Item>, discard: seq<Item>, pool: seq<Item>,
                       attached: seq<Item>, nextId: nat, delayed: int, phase: Phase)

  function Setup(offset: nat, size: nat): Read { Read(offset, size, [], [], [], [], 0, 0, Reading) }

  // ---------------------------------------------------------------- reading on

  /** The loop attaching finished buffers from the front. */
  function Attach(r: Read): Read
    decreases |r.pending|
  {
    if r.pending != [] && r.pending[0].started
    then Attach(r.(pending := r.pending[1..], attached := r.attached + [r.pending[0]]))
    else r
  }

  function PartSize(offset: nat, size: nat, maxBlocks: nat): nat
    requires maxBlocks > 0
  {
    var room := maxBlocks * BLOCK_SIZE - offset % BLOCK_SIZE;
    if size < room then size else room
  }

  /** The loop issuing read jobs. The first `granted` calls of job_read succeed; if one fails,
      its buffer goes back to the pool and the loop ends. */
  function Issue(r: Read, maxJobs: nat, maxBlocks: nat, granted: nat): Read
    requires maxBlocks > 0
    decreases r.size
  {
    if r.size > 0 && |r.pending| < maxJobs then
      var n := PartSize(r.offset, r.size, maxBlocks);
      if granted == 0 then
        r.(nextId := r.nextId + 1, pool := r.pool + [Item(r.nextId, Range(r.offset, n), Disabled, false)])
      else Issue(r.(offset := r.offset + n, size := r.size - n, nextId := r.nextId + 1,
               pending := r.pending + [Item(r.nextId, Range(r.offset, n), Waiting, false)]), maxJobs, maxBlocks, granted - 1)
    else r
  }

  /** readContinue. */
  function Continue(r: Read, maxJobs: nat, maxBlocks: nat, granted: nat): Read
    requires maxBlocks > 0
  {
    var r1 := Attach(r);
    if r1.pending == [] && r1.size == 0 then r1.(phase := Served) else Issue(r1, maxJobs, maxBlocks, granted)
  }

  // ---------------------------------------------------------------- discarding

  /** disableJobs on a list of items: the waiting ones are taken out of the queue. */
  function Disabled1(i: Item): Item { if i.work == Waiting then i.(work := Disabled) else i }

  function DisableAll(items: seq<Item>): (r: seq<Item>)
    ensures |r| == |items|
  {
    seq(|items|, k requires 0 <= k < |items| => Disabled1(items[k]))
  }

  /** The ids disableJobs reports. */
  function DisabledIds(items: seq<Item>): seq<nat> {
    if items == [] then []
    else (if items[0].work == Waiting then [items[0].id] else []) + DisabledIds(items[1..])
  }

  /** The loop of prepareDiscardReadJobs, with the list of disabled ids. */
  function Sort(items: seq<Item>, ids: seq<nat>, discard: seq<Item>, pool: seq<Item>): (seq<nat>, seq<Item>, seq<Item>)
    decreases |items|
  {
    if items == [] then (ids, discard, pool)
    else
      var i := items[0];
      var mine := ids != [] && ids[0] == i.id;
      if !i.started && !mine then Sort(items[1..], ids, discard + [i], pool)
      else Sort(items[1..], if mine then ids[1..] else ids, discard, pool + [i])
  }

  /** prepareDiscardReadJobs. */
  function PrepareDiscard(r: Read): Read {
    var (_, discard, pool) := Sort(DisableAll(r.pending), DisabledIds(r.pending), r.discard, r.pool);
    r.(pending := [], discard := discard, pool := pool)
  }

  /** The sweep of readDiscardCallback over the whole list. */
  function Sweep(items: seq<Item>): (seq<Item>, seq<Item>) {
    if items == [] then ([], [])
    else
      var (kept, done) := Sweep(items[1..]);
      if items[0].started then (kept, [items[0]] + done) else ([items[0]] + kept, done)
  }

  /** The loop of delayedCloseCallback over the front of the list. */
  function SweepFront(r: Read): Read
    decreases |r.discard|
  {
    if r.discard != [] && r.discard[0].started
    then SweepFront(r.(discard := r.discard[1..], pool := r.pool + [r.discard[0]]))
    else r
  }

  // ---------------------------------------------------------------- steps

  function Started(items: seq<Item>, k: nat): seq<Item>
    requires k < |items| && items[k].work.Filled?
  {
    items[k := items[k].(started := true, work := Returned(items[k].work.ok))]
  }

  datatype Event =
    | Goes(maxJobs: nat, maxBlocks: nat, granted: nat) | Takes(k: nat) | Fills(k: nat, ok: bool)
    | Returns(k: nat, maxJobs: nat, maxBlocks: nat, granted: nat)
    | DiscardTakes(k: nat) | DiscardFills(k: nat, ok: bool) | DiscardReturns(k: nat)
    | Closes

  predicate MayHappen(r: Read, e: Event) {
    match e
    case Goes(_, maxBlocks, _) => r.phase == Reading && maxBlocks > 0
    case Takes(k) => k < |r.pending| && r.pending[k].work == Waiting
    case Fills(k, _) => k < |r.pending| && r.pending[k].work == Filling
    case Returns(k, _, maxBlocks, _) => r.phase == Reading && k < |r.pending| && r.pending[k].work.Filled? && maxBlocks > 0
    case DiscardTakes(k) => k < |r.discard| && r.discard[k].work == Waiting
    case DiscardFills(k, _) => k < |r.discard| && r.discard[k].work == Filling
    case DiscardReturns(k) => k < |r.discard| && r.discard[k].work.Filled?
    case Closes => r.phase == Reading || r.phase == Failed
  }

  function Apply(r: Read, e: Event): Read
    requires MayHappen(r, e)
  {
    match e
    case Goes(maxJobs, maxBlocks, granted) => Continue(r, maxJobs, maxBlocks, granted)
    case Takes(k) => r.(pending := r.pending[k := r.pending[k].(work := Filling)])
    case Fills(k, ok) => r.(pending := r.pending[k := r.pending[k].(work := Filled(ok))])
    case Returns(k, maxJobs, maxBlocks, granted) =>
      var r1 := r.(pending := Started(r.pending, k));
      if r.pending[k].work.ok then Continue(r1, maxJobs, maxBlocks, granted) else PrepareDiscard(r1).(phase := Failed)
    case DiscardTakes(k) => r.(discard := r.discard[k := r.discard[k].(work := Filling)])
    case DiscardFills(k, ok) => r.(discard := r.discard[k := r.discard[k].(work := Filled(ok))])
    case DiscardReturns(k) =>
      var r1 := r.(discard := Started(r.discard, k));
      if r.phase == Closing then SweepFront(r1).(delayed := r.delayed - 1)
      else r1.(discard := Sweep(r1.discard).0, pool := r.pool + Sweep(r1.discard).1)
    case Closes =>
      var r1 := PrepareDiscard(r);
      r1.(phase := Closing, delayed := r.delayed + |r1.discard|)
  }

  function Run(r: Read, events: seq<Event>): Read {
    if events == [] then r
    else
      var before := Run(r, events[..|events| - 1]);
      if MayHappen(before, events[|events| - 1]) then Apply(before, events[|events| - 1]) else before
  }
}
