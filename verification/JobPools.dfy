/** JobPool and MasterJobPool as a state machine: jobs, their completions, and the chunk
    locks that hold back master jobs while a client writes. Each mutex-protected part of a
    method is one step, so the parts of addJobIfNotLocked, endChunkLock and eraseChunkLock may
    interleave with other calls. The Log records the run; no step reads it. */
module JobPools {
  import opened ChunkTypes

  datatype Ticket = Ticket(listener: nat, id: nat)
  datatype State = Enabled | Disabled | InProgress
  /** What addJob is given: the work, and the callback to run when it is done. */
  datatype Request = Request(listener: nat, work: nat, callback: nat)
  datatype Job = Job(isLock: bool, work: nat, state: State, callback: nat)
  datatype Post = Post(ticket: Ticket, status: Status)

  /** One ListenerInfo: the next job id, the status queue, whether its eventfd is readable,
      and whether its owner is inside processCompletedJobs. */
  datatype Listener = Listener(next: nat, posts: seq<Post>, readable: bool, draining: bool)

  datatype LockData = LockData(ticket: Ticket, enforced: bool, pending: seq<Request>)
  /** A released lock whose deferred jobs are being added; `status` is None for an erasure. */
  datatype Release = Release(chunk: nat, ticket: Ticket, todo: seq<Request>, status: Option<Status>)

  /** A job that found its chunk unlocked and is about to be added. */
  datatype Transit = Transit(chunk: nat, r: Request)

  /** Work given to the worker queue or submitted for a chunk through addJobIfNotLocked. */
  datatype Entry = Entry(chunk: nat, work: nat)
  datatype Log = Log(completed: seq<Post>, locksDone: nat, erased: seq<Ticket>, ran: set<Ticket>,
                     submitted: seq<Entry>, enqueued: seq<Entry>)

  datatype Work = Work(jobs: map<Ticket, Job>, queue: seq<Ticket>, running: seq<Ticket>, listeners: seq<Listener>, counter: int)
  datatype Locks = Locks(held: map<nat, LockData>, releases: seq<Release>)
  datatype Pool = Pool(work: Work, locks: Locks, transit: seq<Transit>, log: Log)

  // ---------------------------------------------------------------- jobs

  function Blank(listeners: nat): Pool {
    Pool(Work(map[], [], [], seq(listeners, _ => Listener(0, [], false, false)), 0), Locks(map[], []), [],
         Log([], 0, [], {}, [], []))
  }

  /** An unknown listener is replaced by the first one. */
  function ListenerOf(w: Work, listener: nat): nat { if listener < |w.listeners| then listener else 0 }

  /** The ticket the next job of a listener gets. */
  function NextTicket(w: Work, listener: nat): Ticket
    requires w.listeners != []
  {
    var l := ListenerOf(w, listener);
    Ticket(l, w.listeners[l].next)
  }

  function Register(w: Work, listener: nat, job: Job): Work
    requires w.listeners != []
  {
    var l := ListenerOf(w, listener);
    w.(jobs := w.jobs[NextTicket(w, listener) := job],
       listeners := w.listeners[l := w.listeners[l].(next := w.listeners[l].next + 1)])
  }

  /** addJob. */
  function AddJob(w: Work, r: Request): Work
    requires w.listeners != []
  {
    Register(w, r.listener, Job(false, r.work, Enabled, r.callback)).(
      queue := w.queue + [NextTicket(w, r.listener)], counter := w.counter + 1)
  }

  /** sendStatus: the eventfd is written when the queue was empty. */
  function SendStatus(w: Work, t: Ticket, status: Status): Work {
    if t.listener >= |w.listeners| then w
    else
      var l := w.listeners[t.listener];
      w.(listeners := w.listeners[t.listener := l.(posts := l.posts + [Post(t, status)], readable := l.readable || l.posts == [])])
  }

  function Disable(w: Work, t: Ticket): Work {
    if t in w.jobs && w.jobs[t].state == Enabled then w.(jobs := w.jobs[t := w.jobs[t].(state := Disabled)]) else w
  }

  function ChangeCallback(w: Work, t: Ticket, callback: nat): Work {
    if t in w.jobs then w.(jobs := w.jobs[t := w.jobs[t].(callback := callback)]) else w
  }

  /** workerThread up to the start of the work: a disabled job is reported at once. */
  function Take(w: Work): Work
    requires w.queue != [] && w.queue[0] in w.jobs
  {
    var t := w.queue[0];
    var w1 := w.(queue := w.queue[1..]);
    if w.jobs[t].state == Disabled then SendStatus(w1, t, ERROR_NOTDONE)
    else w1.(running := w.running + [t], jobs := w.jobs[t := w.jobs[t].(state := InProgress)])
  }

  function Finish(w: Work, i: nat, status: Status): Work
    requires i < |w.running|
  {
    SendStatus(w.(running := w.running[..i] + w.running[i + 1..]), w.running[i], status)
  }

  /** One round of processCompletedJobs: receiveStatus, the callback, and the erasure. */
  function Receive(w: Work, l: nat): Work
    requires l < |w.listeners| && w.listeners[l].posts != []
  {
    var posts := w.listeners[l].posts;
    var t := posts[0].ticket;
    var more := |posts| > 1;
    w.(listeners := w.listeners[l := w.listeners[l].(posts := posts[1..], readable := w.listeners[l].readable && more, draining := more)],
       jobs := w.jobs - {t},
       counter := if t in w.jobs then w.counter - 1 else w.counter)
  }

  // ---------------------------------------------------------------- steps

  datatype Event =
    | Adds(r: Request) | Submits(chunk: nat, r: Request) | AddsChecked(i: nat)
    | LockStarts(chunk: nat, listener: nat, callback: nat) | LockEnforced(chunk: nat)
    | LockEnds(chunk: nat, status: Status) | LockErased(chunk: nat) | ReleaseGoesOn(i: nat)
    | Disables(t: Ticket) | CallbackChanges(t: Ticket, callback: nat)
    | WorkerTakes | WorkerEnds(i: nat, status: Status)
    | DrainStarts(l: nat) | StatusReceived(l: nat)

  predicate Locked(locks: Locks, chunk: nat) { chunk in locks.held && locks.held[chunk].enforced }

  /** Which steps can happen. The work of a submission is its number: works are names only. */
  predicate MayHappen(p: Pool, e: Event) {
    match e
    case Submits(_, r) => r.work == |p.log.submitted|
    case AddsChecked(i) => i < |p.transit|
    case ReleaseGoesOn(i) => i < |p.locks.releases|
    case WorkerTakes => p.work.queue != [] && p.work.queue[0] in p.work.jobs
    case WorkerEnds(i, _) => i < |p.work.running|
    case DrainStarts(l) => l < |p.work.listeners| && p.work.listeners[l].readable && !p.work.listeners[l].draining
    case StatusReceived(l) => l < |p.work.listeners| && p.work.listeners[l].draining && p.work.listeners[l].posts != []
    case _ => true
  }

  /** addJobIfNotLocked under the mutex of the lock map: the job is deferred, or passes. */
  function Submit(p: Pool, chunk: nat, r: Request): Pool {
    var p1 := p.(log := p.log.(submitted := p.log.submitted + [Entry(chunk, r.work)]));
    if Locked(p.locks, chunk) then
      var lock := p.locks.held[chunk];
      p1.(locks := p.locks.(held := p.locks.held[chunk := lock.(pending := lock.pending + [r])]))
    else p1.(transit := p.transit + [Transit(chunk, r)])
  }

  /** The rest of addJobIfNotLocked: a job that passed is added, whatever happened since. */
  function AddChecked(p: Pool, i: nat): Pool
    requires i < |p.transit| && p.work.listeners != []
  {
    var t := p.transit[i];
    p.(work := AddJob(p.work, t.r), transit := p.transit[..i] + p.transit[i + 1..],
       log := p.log.(enqueued := p.log.enqueued + [Entry(t.chunk, t.r.work)]))
  }

  /** startChunkLock: a second request for a locked chunk is ignored. */
  function StartLock(p: Pool, chunk: nat, listener: nat, callback: nat): Pool
    requires p.work.listeners != []
  {
    if chunk in p.locks.held then p
    else
      p.(work := Register(p.work, listener, Job(true, 0, Enabled, callback)),
         locks := p.locks.(held := p.locks.held[chunk := LockData(NextTicket(p.work, listener), false, [])]))
  }

  function Enforce(p: Pool, chunk: nat): Pool {
    if chunk !in p.locks.held then p
    else p.(locks := p.locks.(held := p.locks.held[chunk := p.locks.held[chunk].(enforced := true)]))
  }

  /** releaseChunkLockEntry. */
  function ReleaseLock(p: Pool, chunk: nat, status: Option<Status>): Pool {
    if chunk !in p.locks.held then p
    else
      var lock := p.locks.held[chunk];
      p.(locks := Locks(p.locks.held - {chunk}, p.locks.releases + [Release(chunk, lock.ticket, lock.pending, status)]))
  }

  /** The rest of endChunkLock and eraseChunkLock: the deferred jobs are added one by one,
      then the lock's status is posted or its job erased. */
  function GoOn(p: Pool, i: nat): Pool
    requires i < |p.locks.releases| && p.work.listeners != []
  {
    var r := p.locks.releases[i];
    if r.todo != [] then
      p.(work := AddJob(p.work, r.todo[0]),
         locks := p.locks.(releases := p.locks.releases[i := r.(todo := r.todo[1..])]),
         log := p.log.(enqueued := p.log.enqueued + [Entry(r.chunk, r.todo[0].work)]))
    else
      var locks := p.locks.(releases := p.locks.releases[..i] + p.locks.releases[i + 1..]);
      if r.status.Some? then p.(work := SendStatus(p.work, r.ticket, r.status.value), locks := locks)
      else p.(work := p.work.(jobs := p.work.jobs - {r.ticket}), locks := locks,
              log := p.log.(erased := p.log.erased + [r.ticket]))
  }

  function Apply(p: Pool, e: Event): Pool
    requires MayHappen(p, e) && p.work.listeners != []
  {
    match e
    case Adds(r) => p.(work := AddJob(p.work, r))
    case Submits(chunk, r) => Submit(p, chunk, r)
    case AddsChecked(i) => AddChecked(p, i)
    case LockStarts(chunk, listener, callback) => StartLock(p, chunk, listener, callback)
    case LockEnforced(chunk) => Enforce(p, chunk)
    case LockEnds(chunk, status) => ReleaseLock(p, chunk, Some(status))
    case LockErased(chunk) => ReleaseLock(p, chunk, None)
    case ReleaseGoesOn(i) => GoOn(p, i)
    case Disables(t) => p.(work := Disable(p.work, t))
    case CallbackChanges(t, callback) => p.(work := ChangeCallback(p.work, t, callback))
    case WorkerTakes =>
      var t := p.work.queue[0];
      p.(work := Take(p.work), log := if p.work.jobs[t].state == Disabled then p.log else p.log.(ran := p.log.ran + {t}))
    case WorkerEnds(i, status) => p.(work := Finish(p.work, i, status))
    case DrainStarts(l) => p.(work := p.work.(listeners := p.work.listeners[l := p.work.listeners[l].(draining := true)]))
    case StatusReceived(l) =>
      var post := p.work.listeners[l].posts[0];
      p.(work := Receive(p.work, l),
         log := if post.ticket !in p.work.jobs then p.log
                else p.log.(completed := p.log.completed + [post],
                            locksDone := p.log.locksDone + if p.work.jobs[post.ticket].isLock then 1 else 0))
  }

  function Run(p: Pool, events: seq<Event>): (r: Pool)
    requires p.work.listeners != []
    ensures r.work.listeners != []
  {
    if events == [] then p
    else
      var before := Run(p, events[..|events| - 1]);
      if MayHappen(before, events[|events| - 1]) then Apply(before, events[|events| - 1]) else before
  }
}
