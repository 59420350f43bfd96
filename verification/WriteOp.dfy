/** The buffered write path as a state machine: the fields of one WriteHighLevelOp, the
    parts of its connection, of the already-replied registry and of the worker pool it
    touches, and one function for each step of the code.

    The History record and `client.oks`, `client.nexts` record the run; no step reads
    them. */
module WriteOp {
  import opened ChunkTypes

  /** An InputBuffer. `blocks` are its completed writes; `updating` stands for one more
      entry whose payload is still being received. */
  datatype RawBuf = Buf(id: nat, capacity: nat, blocks: seq<Write>, replied: nat, updating: bool) {
    /** currentBlocks(): the size of the write-info vector. */
    function Count(): nat { |blocks| + if updating then 1 else 0 }
    predicate Full() { Count() == capacity }
    predicate AllReplied() { replied == Count() }
  }
  type Buf = b: RawBuf | b.replied <= |b.blocks| witness Buf(0, 0, [], 0, false)

  /** An entry of gAlreadyRepliedInputBuffers: a buffer and its write-info snapshot. */
  datatype Entry = Entry(bufId: nat, snapshot: seq<Info>)

  /** The buffers of the operation and the global structures they are entered in. */
  datatype Store = Store(queue: seq<Buf>, input: Option<Buf>, registry: seq<Entry>, pool: set<nat>, available: int) {
    /** The buffers the operation owns, oldest first. */
    function Live(): seq<Buf> { queue + if input.Some? then [input.value] else [] }
  }

  datatype Reply = Reply(status: Status, writeId: nat)

  /** What the client has been told, and what the next server of the chain has told. */
  datatype Client = Client(replies: seq<Reply>, partial: set<nat>, oks: seq<nat>, nexts: seq<nat>)

  datatype JobKind = OpenJob | WriteJob
  datatype Phase =
    | Queued                               // not taken by a worker
    | Running(done: nat)                   // `done` blocks are on disk
    | Finished(done: nat, status: Status)
    | Consumed                             // the callback has run, writeJobId_ is still set
  datatype Callback = Normal | Delayed
  datatype Job = NoJob | Job(kind: JobKind, phase: Phase, callback: Callback)

  /** writeJobId_ and writeJobWriteId_. */
  datatype Task = Task(job: Job, writeId: nat) {
    /** isOpenWriteJobBeingProcessed: recognised by the write id 0. */
    predicate OpenPending() { job != NoJob && writeId == 0 }
  }

  /** ChunkserverEntry::State. */
  datatype Connection =
    | Idle | WriteLast | Connecting | WriteInit | WriteForward | IOFinish | Close | CloseWait | Closed

  datatype Config = Config(locked: bool, standard: bool, chain: bool, maxBlocks: nat)
  /** isChunkOpen_, isSealed_, whether an error was reported, whether cleanup has run. */
  datatype Flags = Flags(open: bool, sealed: bool, errored: bool, cleaned: bool)
  /** inDelayedClose_, and whether delayedClose found the open job still pending. */
  datatype Mode = Serving | ClosingOpen | ClosingWrites
  datatype Link = Link(connection: Connection, pending: int, nextCount: nat)
  datatype Lock = Lock(untold: Status, closeJob: bool, end: Option<Status>)

  /** A block whose buffer has gone through writeFinishedCallback. */
  datatype Done = Done(block: Write, acked: bool, written: bool)
  datatype History = History(greeting: seq<nat>, arrived: seq<Write>, processed: seq<Done>,
                             dropped: seq<Write>, written: seq<Write>)

  datatype Op = Op(cfg: Config, flags: Flags, mode: Mode, task: Task, store: Store, client: Client,
                   link: Link, lock: Lock, hist: History)
  {
    predicate Last() { link.connection == WriteLast }
    predicate Completed() { store.queue == [] && flags.sealed }
  }

  // ---------------------------------------------------------------- the client side

  function Match(c: Client, id: nat): Client {
    if id in c.partial
    then c.(replies := c.replies + [Reply(STATUS_OK, id)], partial := c.partial - {id})
    else c.(partial := c.partial + {id})
  }

  /** updateUsingWriteStatusAndReply with OK from our own worker. */
  function LocalOk(c: Client, last: bool, id: nat): Client {
    var c1 := c.(oks := c.oks + [id]);
    if last then c1.(replies := c1.replies + [Reply(STATUS_OK, id)]) else Match(c1, id)
  }

  function LocalOks(c: Client, last: bool, ids: seq<nat>): Client {
    if ids == [] then c else LocalOk(LocalOks(c, last, ids[..|ids| - 1]), last, ids[|ids| - 1])
  }

  /** updateUsingWriteStatusAndReply with OK from the next server of the chain. */
  function NextOk(c: Client, last: bool, id: nat): Client {
    var c1 := c.(nexts := c.nexts + [id]);
    if last then c1.(replies := c1.replies + [Reply(STATUS_OK, id)]) else Match(c1, id)
  }

  /** updateUsingWriteStatusAndReply with an error: always sent. */
  function Failed(c: Client, r: Reply): Client {
    c.(replies := c.replies + [r])
  }

  // ---------------------------------------------------------------- buffers

  function Ids(ws: seq<Write>): (r: seq<nat>)
    ensures |r| == |ws|
  {
    seq(|ws|, i requires 0 <= i < |ws| => ws[i].writeId)
  }

  function Infos(ws: seq<Write>): (r: seq<Info>)
    ensures |r| == |ws|
  {
    seq(|ws|, i requires 0 <= i < |ws| => ws[i].ToInfo())
  }

  /** BuffersPool::put: the buffer is cleared and kept, or destroyed; both give its
      write-buffering credit back. */
  function Put(st: Store, b: Buf, retain: set<nat>): Store {
    st.(pool := if b.id in retain then st.pool + {b.id} else st.pool, available := st.available + b.replied)
  }

  /** hddRemoveAlreadyRepliedInputBuffer. */
  function Without(r: seq<Entry>, id: nat): seq<Entry> {
    if r == [] then []
    else if r[0].bufId == id then Without(r[1..], id)
    else [r[0]] + Without(r[1..], id)
  }

  /** The later replies of hddInsertAlreadyRepliedInputBuffer: replace the snapshot. */
  function Refresh(r: seq<Entry>, id: nat, snapshot: seq<Info>): seq<Entry> {
    if r == [] then []
    else if r[0].bufId == id then [Entry(id, snapshot)] + r[1..]
    else [r[0]] + Refresh(r[1..], id, snapshot)
  }

  function Unregister(st: Store, b: Buf): Store {
    if b.replied > 0 then st.(registry := Without(st.registry, b.id)) else st
  }

  /** startNextWriteJob: always the first buffer of the queue. */
  function StartNext(queue: seq<Buf>, t: Task): Task {
    if queue == [] || |queue[0].blocks| == 0 || t.job != NoJob then t
    else Task(Job(WriteJob, Queued, Normal), queue[0].blocks[|queue[0].blocks| - 1].writeId)
  }

  /** writeCurrentInputPacket. */
  function PushInput(s: Op): Op
    requires s.store.input.Some?
  {
    var queue := s.store.queue + [s.store.input.value];
    s.(store := s.store.(queue := queue, input := None), task := StartNext(queue, s.task))
  }

  // ---------------------------------------------------------------- instant replies

  function SetLive(st: Store, i: nat, b: Buf): (r: Store)
    requires i < |st.Live()|
    ensures r.Live() == st.Live()[i := b]
  {
    if i < |st.queue| then st.(queue := st.queue[i := b]) else st.(input := Some(b))
  }

  /** bufferLevelInstantReply on the i-th live buffer. */
  function ReplyAt(st: Store, i: nat): (r: Store)
    requires i < |st.Live()|
    ensures |r.Live()| == |st.Live()|
  {
    var b := st.Live()[i];
    var snapshot := Infos(b.blocks);
    SetLive(st, i, b.(replied := |b.blocks|)).(
      registry := if b.replied == 0 then st.registry + [Entry(b.id, snapshot)]
                  else Refresh(st.registry, b.id, snapshot),
      available := st.available - (|b.blocks| - b.replied))
  }

  /** The loop of tryInstantReply from the i-th live buffer on, with the acknowledged ids. */
  function InstantReply(st: Store, i: nat): (Store, seq<nat>)
    decreases |st.Live()| - i
  {
    if i >= |st.Live()| || st.Live()[i].updating then (st, [])
    else
      var b := st.Live()[i];
      if b.AllReplied() then InstantReply(st, i + 1)
      else if st.available + b.replied < |b.blocks| then (st, [])
      else
        var (st', ids) := InstantReply(ReplyAt(st, i), i + 1);
        (st', Ids(b.blocks[b.replied..]) + ids)
  }

  predicate MayReplyEarly(s: Op) {
    !s.flags.sealed && s.mode == Serving && !s.task.OpenPending() && s.cfg.locked && !s.cfg.standard
  }

  function TryInstantReply(s: Op): Op {
    if !MayReplyEarly(s) then s
    else
      var (st, ids) := InstantReply(s.store, 0);
      s.(store := st, client := LocalOks(s.client, s.Last(), ids))
  }

  function ContinueWriting(s: Op): Op {
    var s1 := TryInstantReply(s);
    if s1.store.queue != [] then s1.(task := StartNext(s1.store.queue, s1.task))
    else if s1.store.input.Some? && !s1.store.input.value.updating then PushInput(s1)
    else s1
  }

  // ---------------------------------------------------------------- network events

  /** prepareForNewWriteData; `id` names the buffer the pool hands out. */
  function Begin(s: Op, id: nat): Op {
    var s1 := if s.store.input.Some? && s.store.input.value.Full() then PushInput(s) else s;
    if s1.store.input.Some? then
      s1.(store := s1.store.(input := Some(s1.store.input.value.(updating := true))))
    else
      s1.(store := s1.store.(input := Some(Buf(id, s.link.nextCount, [], 0, true)), pool := s1.store.pool - {id}),
          link := s.link.(nextCount := if 2 * s.link.nextCount <= s.cfg.maxBlocks
                                       then 2 * s.link.nextCount else s.cfg.maxBlocks))
  }

  /** setupLastWriteOperation. */
  function Receive(s: Op, w: Write): Op
    requires s.store.input.Some?
  {
    var b := s.store.input.value;
    s.(store := s.store.(input := Some(b.(blocks := b.blocks + [w], updating := false))),
       hist := s.hist.(arrived := s.hist.arrived + [w]))
  }

  /** processWriteDataBlock. */
  function Complete(s: Op, w: Write): Op
    requires s.store.input.Some?
  {
    var s1 := TryInstantReply(Receive(s, w));
    if s1.store.input.Some? && (s1.task.job == NoJob || s1.store.input.value.Full()) then PushInput(s1) else s1
  }

  predicate AllReplied(bs: seq<Buf>) { forall i :: 0 <= i < |bs| ==> bs[i].AllReplied() }

  /** trySeal: sealed exactly when the second component holds. */
  function TrySeal(s: Op): (Op, bool) {
    if s.store.input.Some? && (s.store.input.value.updating || !s.store.input.value.AllReplied()) then (s, false)
    else if !AllReplied(s.store.queue) then (s, false)
    else
      var s1 := if s.store.input.Some? then PushInput(s) else s;
      var sealed := s.client.partial == {};
      (s1.(flags := s.flags.(sealed := sealed)), sealed)
  }

  // ---------------------------------------------------------------- completions

  /** The status job_write leaves on block i when it stopped after `done` blocks; the
      blocks behind the failing one keep the initial value, which is OK. */
  function StatusOf(done: nat, status: Status, i: nat): Status {
    if i == done then status else STATUS_OK
  }

  /** What writeFinishedCallback makes of the statuses of one buffer. */
  datatype Verdict = Verdict(acks: seq<nat>, untold: Status, outcome: seq<Done>, failure: Option<Reply>)

  /** The loop of writeFinishedCallback over the first n statuses. */
  function Settle(b: Buf, t: Phase, closing: bool, untold: Status, n: nat): Verdict
    requires t.Finished? && n <= |b.blocks|
  {
    if n == 0 then Verdict([], untold, [], None)
    else
      var v := Settle(b, t, closing, untold, n - 1);
      var w := b.blocks[n - 1];
      var st := StatusOf(t.done, t.status, n - 1);
      var written := n - 1 < t.done;
      if v.failure.Some? then v.(outcome := v.outcome + [Done(w, false, written)])
      else if n - 1 < b.replied then
        v.(untold := if v.untold == STATUS_OK then st else v.untold, outcome := v.outcome + [Done(w, true, written)])
      else if closing then v.(outcome := v.outcome + [Done(w, false, written)])
      else if st != STATUS_OK then
        v.(outcome := v.outcome + [Done(w, false, written)], failure := Some(Reply(st, w.writeId)))
      else v.(acks := v.acks + [w.writeId], outcome := v.outcome + [Done(w, true, written)])
  }

  function Decrease(s: Op): Op {
    if s.mode != Serving then s.(link := s.link.(pending := s.link.pending - 1)) else s
  }

  /** The front buffer leaves the registry and the queue; its statuses are consumed. */
  function Retire(s: Op, retain: set<nat>): (Op, bool)
    requires s.task.job.Job? && s.task.job.phase.Finished? && s.store.queue != []
  {
    var b := s.store.queue[0];
    var v := Settle(b, s.task.job.phase, s.mode != Serving, s.lock.untold, |b.blocks|);
    var c := LocalOks(s.client, s.Last(), v.acks);
    (s.(task := s.task.(job := NoJob),
        store := Put(Unregister(s.store, b), b, retain).(queue := s.store.queue[1..]),
        lock := s.lock.(untold := v.untold),
        client := if v.failure.Some? then Failed(c, v.failure.value) else c,
        link := if v.failure.Some? then s.link.(connection := IOFinish) else s.link,
        flags := s.flags.(errored := s.flags.errored || v.failure.Some?),
        hist := s.hist.(processed := s.hist.processed + v.outcome)),
     v.failure.Some?)
  }

  /** writeFinishedCallback. */
  function WriteFinished(s: Op, retain: set<nat>): Op
    requires s.task.job.Job? && s.task.job.phase.Finished?
  {
    if s.store.queue == [] then Decrease(s.(task := s.task.(job := NoJob)))
    else
      var (s1, stopped) := Retire(s, retain);
      if stopped then s1 else Decrease(ContinueWriting(s1))
  }

  /** openWriteFinishedCallback. */
  function OpenFinished(s: Op): Op
    requires s.task.job.Job? && s.task.job.phase.Finished?
  {
    var s1 := s.(task := s.task.(job := NoJob));
    var status := s.task.job.phase.status;
    if status != STATUS_OK then
      s1.(client := Failed(s.client, Reply(status, s.task.writeId)),
          link := s.link.(connection := IOFinish), flags := s.flags.(errored := true))
    else
      ContinueWriting(s1.(client := LocalOk(s.client, s.Last(), s.task.writeId),
                          flags := s.flags.(open := true),
                          hist := s.hist.(greeting := s.hist.greeting + [s.task.writeId])))
  }

  // ---------------------------------------------------------------- closing

  /** Buffers with their dropped blocks. */
  datatype Trimmed = Trimmed(store: Store, dropped: seq<Write>)

  /** The loop dropping unreplied buffers from the back of the queue. */
  function DropUnreplied(t: Trimmed, keep: nat, retain: set<nat>): Trimmed
    decreases |t.store.queue|
  {
    var n := |t.store.queue|;
    if n > keep && t.store.queue[n - 1].replied == 0
    then
      var b := t.store.queue[n - 1];
      DropUnreplied(Trimmed(Put(t.store, b, retain).(queue := t.store.queue[..n - 1]), b.blocks + t.dropped), keep, retain)
    else t
  }

  /** The input-buffer part of delayedClose. */
  function CloseInput(t: Trimmed, retain: set<nat>): Trimmed {
    if t.store.input.None? then t
    else
      var b := t.store.input.value;
      if b.replied > 0
      then t.(store := t.store.(queue := t.store.queue + [b.(updating := false)], input := None))
      else Trimmed(Put(t.store, b, retain).(input := None), b.blocks + t.dropped)
  }

  /** JobPool::disableJob: a job no worker has taken will only report NOTDONE. */
  function Disabled(p: Phase): Phase {
    if p == Queued then Finished(0, ERROR_NOTDONE) else p
  }

  /** disableJob followed by changeCallback. */
  function Redirect(j: Job): Job {
    if j.Job? then Job(j.kind, Disabled(j.phase), Delayed) else j
  }

  function DelayedClose(s: Op, retain: set<nat>): Op {
    if s.task.OpenPending() then
      s.(mode := ClosingOpen,
         task := s.task.(job := Redirect(s.task.job)),
         link := s.link.(pending := s.link.pending + 1))
    else
      var t := DropUnreplied(CloseInput(Trimmed(s.store, s.hist.dropped), retain),
                             if s.task.job != NoJob then 1 else 0, retain);
      s.(mode := ClosingWrites,
         store := t.store,
         hist := s.hist.(dropped := t.dropped),
         task := StartNext(t.store.queue, s.task),
         link := s.link.(pending := s.link.pending + |t.store.queue|))
  }

  /** delayedCloseCallback, which replaced the open job's own callback. */
  function DelayedCloseCallback(s: Op): Op
    requires s.task.job.Job? && s.task.job.phase.Finished?
  {
    var wasOpened := s.task.OpenPending() && s.task.job.phase.status == STATUS_OK;
    s.(flags := s.flags.(open := s.flags.open || wasOpened),
       task := s.task.(job := if wasOpened then NoJob else s.task.job.(phase := Consumed)),
       link := s.link.(pending := s.link.pending - 1))
  }

  function Flat(bs: seq<Buf>): seq<Write> {
    if bs == [] then [] else bs[0].blocks + Flat(bs[1..])
  }

  /** The loops of cleanup: every buffer leaves the registry and goes to the pool. */
  function Discard(st: Store, bs: seq<Buf>, retain: set<nat>): Store
    decreases |bs|
  {
    if bs == [] then st
    else Discard(Put(Unregister(st, bs[0]), bs[0], retain), bs[1..], retain)
  }

  /** cleanup. */
  function Cleanup(s: Op, retain: set<nat>): Op {
    s.(flags := s.flags.(cleaned := true),
       store := Discard(s.store, s.store.Live(), retain).(queue := [], input := None),
       hist := s.hist.(dropped := Flat(s.store.Live()) + s.hist.dropped),
       lock := if s.flags.open then s.lock.(closeJob := true)
               else if s.cfg.locked then s.lock.(end := Some(s.lock.untold))
               else s.lock)
  }

  /** writeEnd: `drained` is outputPackets.empty(), `busy` is isFull() of the job pool. */
  function WriteEnd(s: Op, drained: bool, busy: bool, retain: set<nat>): Op {
    var (s1, ok) := TrySeal(s);
    if !ok || !drained then s1.(link := s1.link.(connection := IOFinish))
    else
      var s2 := if s1.Completed() then Cleanup(s1, retain) else s1;
      s2.(link := s2.link.(connection := if busy then IOFinish else Idle))
  }

  /** jobCloseWriteCallback, or the empty callback when the chunk is not locked. */
  function CloseFinished(s: Op, status: Status): Op {
    s.(lock := s.lock.(
         closeJob := false,
         end := if !s.cfg.locked then s.lock.end
                else if s.lock.untold == STATUS_OK && status != STATUS_OK then Some(status)
                else Some(s.lock.untold)))
  }

  // ---------------------------------------------------------------- runs

  datatype Event =
    | BlockBegins(id: nat) | BlockArrives(w: Write) | EndRequested(drained: bool, busy: bool, retain: set<nat>)
    | LoopTurn | NextServer(status: Status, writeId: nat)
    | WorkerTakes | WorkerWrites(n: nat) | WorkerEnds(status: Status) | JobReturns(retain: set<nat>)
    | CloseRequested(retain: set<nat>) | CleanedUp(retain: set<nat>) | CloseReturns(status: Status)
    | ConnectionMoves(to: Connection) | CreditMoves(delta: int) | PoolMoves(ids: set<nat>)

  /** setup: the open job is in the worker queue. */
  function Setup(cfg: Config, connection: Connection, pool: set<nat>, available: int): Op {
    Op(cfg, Flags(false, false, false, false), Serving, Task(Job(OpenJob, Queued, Normal), 0),
       Store([], None, [], pool, available), Client([], {}, [], []),
       Link(connection, 0, if cfg.maxBlocks < 4 then cfg.maxBlocks else 4), Lock(STATUS_OK, false, None),
       History([], [], [], [], []))
  }

  predicate Receiving(c: Connection) { c == WriteLast || c == WriteForward }
  predicate Leaving(c: Connection) { c == IOFinish || c == Close || c == CloseWait || c == Closed }

  /** Connection changes made outside the operation. A connection being given up stays
      so; otherwise it follows the connect sequence, or serves another operation once
      this one is sealed. */
  predicate MayMove(s: Op, to: Connection) {
    || Leaving(to)
    || (!Leaving(s.link.connection) &&
        (|| s.flags.sealed
         || (s.link.connection == Connecting && to == WriteInit)
         || (s.link.connection == WriteInit && to == WriteForward)))
  }

  /** Which events can happen, including what the peers promise: the client never uses
      the write id 0 or the same id twice, the next server reports an id at most once. */
  predicate Enabled(s: Op, e: Event) {
    match e
    case CreditMoves(_) => true
    case PoolMoves(ids) => forall b <- s.store.Live() :: b.id !in ids
    case ConnectionMoves(to) => MayMove(s, to)
    case CloseReturns(_) => s.lock.closeJob
    case _ => !s.flags.cleaned && EnabledLive(s, e)
  }

  predicate EnabledLive(s: Op, e: Event) {
    match e
    case BlockBegins(id) =>
      s.mode == Serving && !(s.store.input.Some? && s.store.input.value.updating) &&
      (id in s.store.pool || NotAllocated(s.store, id))
    case BlockArrives(w) =>
      Receiving(s.link.connection) && s.mode == Serving && !s.flags.sealed &&
      s.store.input.Some? && s.store.input.value.updating &&
      w.InBlock() && w.writeId != 0 && forall v <- s.hist.arrived :: v.writeId != w.writeId
    case EndRequested(_, _, _) => Receiving(s.link.connection) && s.mode == Serving && !s.flags.sealed
    case LoopTurn => true
    case NextServer(status, id) =>
      s.link.connection == WriteForward && s.cfg.chain && !s.flags.sealed && s.mode == Serving &&
      (status == STATUS_OK ==> id !in s.client.nexts)
    case WorkerTakes => s.task.job.Job? && s.task.job.phase == Queued
    case WorkerWrites(n) =>
      s.task.job.Job? && s.task.job.kind == WriteJob && s.task.job.phase.Running? && s.store.queue != [] &&
      s.task.job.phase.done + n <= |s.store.queue[0].blocks|
    case WorkerEnds(status) =>
      s.task.job.Job? && s.task.job.phase.Running? &&
      (s.task.job.kind == WriteJob ==>
        s.store.queue != [] && (status == STATUS_OK <==> s.task.job.phase.done == |s.store.queue[0].blocks|))
    case JobReturns(_) => s.task.job.Job? && s.task.job.phase.Finished?
    case CloseRequested(_) => s.mode == Serving
    case CleanedUp(_) => s.Completed() || (s.mode != Serving && s.link.pending == 0)
    case _ => false
  }

  /** A new buffer is none of those still referenced. */
  predicate NotAllocated(st: Store, id: nat) {
    (forall b <- st.Live() :: b.id != id) && forall r <- st.registry :: r.bufId != id
  }

  function Apply(s: Op, e: Event): Op
    requires Enabled(s, e)
  {
    match e
    case BlockBegins(id) => Begin(s, id)
    case BlockArrives(w) => Complete(s, w)
    case EndRequested(drained, busy, retain) => WriteEnd(s, drained, busy, retain)
    case LoopTurn => TryInstantReply(s)
    case NextServer(status, id) =>
      if status == STATUS_OK then s.(client := NextOk(s.client, s.Last(), id))
      else s.(client := Failed(s.client, Reply(status, id)), link := s.link.(connection := IOFinish),
              flags := s.flags.(errored := true))
    case WorkerTakes => s.(task := s.task.(job := s.task.job.(phase := Running(0))))
    case WorkerWrites(n) =>
      var done := s.task.job.phase.done;
      s.(task := s.task.(job := s.task.job.(phase := Running(done + n))),
         hist := s.hist.(written := s.hist.written + s.store.queue[0].blocks[done..done + n]))
    case WorkerEnds(status) =>
      s.(task := s.task.(job := s.task.job.(phase := Finished(s.task.job.phase.done, status))))
    case JobReturns(retain) =>
      if s.task.job.callback == Delayed then DelayedCloseCallback(s)
      else if s.task.job.kind == OpenJob then OpenFinished(s)
      else WriteFinished(s, retain)
    case CloseRequested(retain) => DelayedClose(s, retain)
    case CleanedUp(retain) => Cleanup(s, retain)
    case CloseReturns(status) => CloseFinished(s, status)
    case ConnectionMoves(to) => s.(link := s.link.(connection := to))
    case CreditMoves(delta) => s.(store := s.store.(available := s.store.available + delta))
    case PoolMoves(ids) => s.(store := s.store.(pool := ids))
  }

  /** A run: events that cannot happen are skipped. */
  function Run(s: Op, events: seq<Event>): Op {
    if events == [] then s
    else
      var before := Run(s, events[..|events| - 1]);
      var e := events[|events| - 1];
      if Enabled(before, e) then Apply(before, e) else before
  }
}
