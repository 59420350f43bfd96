/** MasterJobPool as the code has it: an object whose methods update the job table, the
    queues and the lock map, each proved to be the corresponding steps of the state
    machine. Calls run one after the other here. */
module MasterJobPools {
  import opened ChunkTypes
  import opened JobPools
  import opened JobPoolInv
  import opened JobPoolRuns

  /** The listeners have the same statuses queued. */
  ghost predicate SameStatuses(was: seq<Listener>, now: seq<Listener>) {
    |now| == |was| && forall l :: 0 <= l < |was| ==> now[l].posts == was[l].posts
  }

  class MasterJobPool {
    var jobs: map<Ticket, Job>
    var queue: seq<Ticket>
    var running: seq<Ticket>
    var listeners: seq<Listener>
    var counter: int
    var held: map<nat, LockData>
    ghost var releases: seq<Release>
    ghost var transit: seq<Transit>
    ghost var log: Log

    ghost function Jobs(): Work
      reads this
    {
      Work(jobs, queue, running, listeners, counter)
    }

    ghost function View(): Pool
      reads this
    {
      Pool(Jobs(), Locks(held, releases), transit, log)
    }

    constructor (count: nat)
      ensures View() == Blank(count)
    {
      jobs, queue, running, counter, held := map[], [], [], 0, map[];
      listeners := seq(count, _ => Listener(0, [], false, false));
      releases, transit, log := [], [], Log([], 0, [], {}, [], []);
    }

    /** addJob and addLockJob up to the worker queue. */
    method NewJob(listener: nat, job: Job) returns (t: Ticket)
      requires listeners != []
      modifies `jobs, `listeners
      ensures t == NextTicket(old(Jobs()), listener) && Jobs() == Register(old(Jobs()), listener, job)
      ensures t.listener == (if listener < |old(listeners)| then listener else 0) && t.id == old(listeners)[t.listener].next
      ensures jobs == old(jobs)[t := job] && SameStatuses(old(listeners), listeners)
    {
      var l := if listener < |listeners| then listener else 0;
      t := Ticket(l, listeners[l].next);
      listeners := listeners[l := listeners[l].(next := listeners[l].next + 1)];
      jobs := jobs[t := job];
    }

    /** addJob. */
    method AddJob(r: Request) returns (t: Ticket)
      requires listeners != []
      modifies `jobs, `listeners, `queue, `counter
      ensures t == NextTicket(old(Jobs()), r.listener) && Jobs() == JobPools.AddJob(old(Jobs()), r)
      ensures t.listener == (if r.listener < |old(listeners)| then r.listener else 0) && t.id == old(listeners)[t.listener].next
      ensures jobs == old(jobs)[t := Job(false, r.work, Enabled, r.callback)] && queue == old(queue) + [t]
      ensures SameStatuses(old(listeners), listeners)
    {
      t := NewJob(r.listener, Job(false, r.work, Enabled, r.callback));
      queue := queue + [t];
      counter := counter + 1;
    }

    /** addJobIfNotLocked under the mutex of the lock map. */
    method DeferIfLocked(chunk: nat, r: Request) returns (lock: Option<Ticket>)
      modifies `held, `transit, `log
      ensures View() == Submit(old(View()), chunk, r)
      ensures lock == if Locked(old(View()).locks, chunk) then Some(old(held[chunk].ticket)) else None
    {
      log := log.(submitted := log.submitted + [Entry(chunk, r.work)]);
      if chunk in held && held[chunk].enforced {
        held := held[chunk := held[chunk].(pending := held[chunk].pending + [r])];
        return Some(held[chunk].ticket);
      }
      transit := transit + [Transit(chunk, r)];
      return None;
    }

    /** addJobIfNotLocked behind the mutex: the job is added, wherever it is among those that
        passed the check. */
    method AddPassed(r: Request, ghost i: nat) returns (t: Ticket)
      requires listeners != [] && i < |transit| && transit[i].r == r
      modifies `jobs, `listeners, `queue, `counter, `transit, `log
      ensures View() == AddChecked(old(View()), i) && t == NextTicket(old(Jobs()), r.listener)
    {
      t := AddJob(r);
      log := log.(enqueued := log.enqueued + [Entry(transit[i].chunk, r.work)]);
      transit := transit[..i] + transit[i + 1..];
    }

    /** addJobIfNotLocked when no other call comes between its two parts. */
    method AddJobIfNotLocked(chunk: nat, r: Request) returns (t: Ticket)
      requires listeners != []
      modifies this
      ensures View() == if Locked(old(View()).locks, chunk) then Submit(old(View()), chunk, r)
                        else AddChecked(Submit(old(View()), chunk, r), |old(transit)|)
      ensures t == if Locked(old(View()).locks, chunk) then old(held[chunk].ticket) else NextTicket(old(Jobs()), r.listener)
    {
      var lock := DeferIfLocked(chunk, r);
      if lock.Some? { return lock.value; }
      t := AddPassed(r, |old(transit)|);
    }

    /** startChunkLock. */
    method StartChunkLock(chunk: nat, listener: nat, callback: nat) returns (started: bool)
      requires listeners != []
      modifies this
      ensures View() == StartLock(old(View()), chunk, listener, callback) && started == (chunk !in old(held))
    {
      if chunk in held { return false; }
      var t := NewJob(listener, Job(true, 0, Enabled, callback));
      held := held[chunk := LockData(t, false, [])];
      return true;
    }

    /** enforceChunkLock. */
    method EnforceChunkLock(chunk: nat) returns (found: bool)
      modifies `held
      ensures View() == Enforce(old(View()), chunk) && found == (chunk in old(held))
    {
      if chunk !in held { return false; }
      held := held[chunk := held[chunk].(enforced := true)];
      return true;
    }

    /** sendStatus. */
    method PostStatus(t: Ticket, status: Status)
      modifies `listeners
      ensures Jobs() == SendStatus(old(Jobs()), t, status)
    {
      if t.listener >= |listeners| { return; }
      var l := listeners[t.listener];
      if l.posts == [] { l := l.(readable := true); }
      listeners := listeners[t.listener := l.(posts := l.posts + [Post(t, status)])];
    }

    /** The deferred jobs of a released lock, in order. */
    method AddPending(pending: seq<Request>, ghost i: nat)
      requires listeners != [] && i < |releases| && releases[i].todo == pending
      modifies this
      ensures held == old(held) && View() == AddAll(old(View()), i) && i < |releases| && releases[i].todo == []
      ensures releases[i] == old(releases)[i].(todo := []) && listeners != [] && SameStatuses(old(listeners), listeners)
    {
      ghost var end := AddAll(View(), i);
      for k := 0 to |pending|
        invariant listeners != [] && held == old(held) && i < |releases| && releases[i] == old(releases)[i].(todo := pending[k..])
        invariant AddAll(View(), i) == end && SameStatuses(old(listeners), listeners)
      {
        ghost var was := View();
        var _ := AddJob(pending[k]);
        releases := releases[i := releases[i].(todo := releases[i].todo[1..])];
        log := log.(enqueued := log.enqueued + [Entry(releases[i].chunk, pending[k].work)]);
        assert View() == GoOn(was, i);
      }
    }

    /** endChunkLock. */
    method EndChunkLock(chunk: nat, status: Status)
      requires listeners != []
      modifies this
      ensures View() == if chunk in old(held) then Released(ReleaseLock(old(View()), chunk, Some(status)), |old(releases)|)
                        else old(View())
      ensures chunk in old(held) ==> chunk !in held && |listeners| == |old(listeners)|
      ensures chunk in old(held) ==> forall l :: 0 <= l < |listeners| ==>
                listeners[l].posts == old(listeners)[l].posts +
                  if l == old(held)[chunk].ticket.listener then [Post(old(held)[chunk].ticket, status)] else []
    {
      if chunk !in held { return; }
      var lock := held[chunk];
      ghost var i := |releases|;
      held := held - {chunk};
      releases := releases + [Release(chunk, lock.ticket, lock.pending, Some(status))];
      assert View() == ReleaseLock(old(View()), chunk, Some(status));
      hide AddAll;
      AddPending(lock.pending, i);
      PostStatus(lock.ticket, status);
      releases := releases[..i] + releases[i + 1..];
    }

    /** eraseChunkLock: the lock job goes without a status. */
    method EraseChunkLock(chunk: nat)
      requires listeners != []
      modifies this
      ensures View() == if chunk in old(held) then Released(ReleaseLock(old(View()), chunk, None), |old(releases)|)
                        else old(View())
      ensures chunk in old(held) ==> chunk !in held && old(held)[chunk].ticket !in jobs && SameStatuses(old(listeners), listeners)
    {
      if chunk !in held { return; }
      var lock := held[chunk];
      ghost var i := |releases|;
      held := held - {chunk};
      releases := releases + [Release(chunk, lock.ticket, lock.pending, None)];
      assert View() == ReleaseLock(old(View()), chunk, None);
      hide AddAll;
      AddPending(lock.pending, i);
      jobs := jobs - {lock.ticket};
      log := log.(erased := log.erased + [lock.ticket]);
      releases := releases[..i] + releases[i + 1..];
    }

    /** disableJobs: the jobs that were still enabled are disabled and reported. */
    method DisableJobs(ts: seq<Ticket>) returns (disabled: seq<Ticket>)
      modifies `jobs
      ensures Jobs() == DisableAll(old(Jobs()), ts)
      ensures forall t :: t in disabled <==> t in ts && t in old(jobs) && old(jobs)[t].state == Enabled
    {
      disabled := [];
      for k := 0 to |ts|
        invariant Jobs() == DisableAll(old(Jobs()), ts[..k]) && jobs.Keys == old(jobs).Keys
        invariant forall t :: t in disabled <==> t in ts[..k] && t in old(jobs) && old(jobs)[t].state == Enabled
        invariant forall t :: t in jobs ==> jobs[t].state == if t in disabled then Disabled else old(jobs)[t].state
      {
        assert ts[..k + 1] == ts[..k] + [ts[k]] && ts[..k + 1][..k] == ts[..k];
        if ts[k] in jobs && jobs[ts[k]].state == Enabled {
          jobs := jobs[ts[k] := jobs[ts[k]].(state := Disabled)];
          disabled := disabled + [ts[k]];
        }
      }
      assert ts[..|ts|] == ts;
    }

    /** workerThread up to the start of the work. */
    method TakeJob()
      requires queue != [] && queue[0] in jobs && listeners != []
      modifies this
      ensures View() == Apply(old(View()), WorkerTakes) && queue == old(queue)[1..]
      ensures running == old(running) + if old(jobs[queue[0]].state) == Disabled then [] else [old(queue[0])]
    {
      var t := queue[0];
      queue := queue[1..];
      if jobs[t].state == Disabled {
        PostStatus(t, ERROR_NOTDONE);
      } else {
        jobs := jobs[t := jobs[t].(state := InProgress)];
        running := running + [t];
        log := log.(ran := log.ran + {t});
      }
    }

    /** receiveStatus. */
    method ReceiveStatus(l: nat) returns (post: Post, more: bool)
      requires l < |listeners| && listeners[l].posts != []
      modifies `listeners
      ensures post == old(listeners[l].posts[0]) && more == (old(|listeners[l].posts|) > 1)
      ensures listeners == old(listeners)[l := old(listeners[l]).(posts := old(listeners[l].posts[1..]),
                                              readable := old(listeners[l].readable) && more, draining := more)]
    {
      var posts := listeners[l].posts;
      post, more := posts[0], |posts| > 1;
      listeners := listeners[l := listeners[l].(posts := posts[1..], draining := more,
                                                readable := if more then listeners[l].readable else false)];
    }

    /** One round of processCompletedJobs. */
    method CompleteOne(l: nat) returns (more: bool)
      requires l < |listeners| && listeners[l].posts != [] && listeners[l].draining
      modifies this
      ensures View() == Apply(old(View()), StatusReceived(l))
      ensures l < |listeners| && more == (listeners[l].posts != []) && (more ==> listeners[l].draining)
      ensures |listeners[l].posts| < |old(listeners[l].posts)|
    {
      var post;
      post, more := ReceiveStatus(l);
      if post.ticket in jobs {
        log := log.(completed := log.completed + [post], locksDone := log.locksDone + if jobs[post.ticket].isLock then 1 else 0);
        jobs := jobs - {post.ticket};
        counter := counter - 1;
      } else {
        assert jobs - {post.ticket} == jobs;
      }
    }

    /** processCompletedJobs on a readable descriptor: every queued status is consumed. */
    method ProcessCompletedJobs(l: nat)
      requires l < |listeners| && listeners[l].posts != [] && listeners[l].draining
      modifies this
      ensures View() == ReceiveAll(old(View()), l) && l < |listeners| && listeners[l].posts == []
    {
      hide Apply;
      ghost var end := ReceiveAll(View(), l);
      var more := true;
      while more
        invariant l < |listeners| && more == (listeners[l].posts != []) && (more ==> listeners[l].draining)
        invariant ReceiveAll(View(), l) == end
        decreases |listeners[l].posts|
      {
        more := CompleteOne(l);
      }
    }
  }

  /** All deferred jobs of the i-th release are added. */
  function AddAll(p: Pool, i: nat): (r: Pool)
    requires p.work.listeners != [] && i < |p.locks.releases|
    ensures i < |r.locks.releases| && r.locks.releases[i].todo == [] && r.work.listeners != []
    decreases |p.locks.releases[i].todo|
  {
    if p.locks.releases[i].todo == [] then p else AddAll(GoOn(p, i), i)
  }

  /** A release carried through. */
  function Released(p: Pool, i: nat): Pool
    requires p.work.listeners != [] && i < |p.locks.releases|
  {
    GoOn(AddAll(p, i), i)
  }

  function DisableAll(w: Work, ts: seq<Ticket>): Work {
    if ts == [] then w else Disable(DisableAll(w, ts[..|ts| - 1]), ts[|ts| - 1])
  }

  /** Every status queued for a listener is received. */
  function ReceiveAll(p: Pool, l: nat): Pool
    requires l < |p.work.listeners| && (p.work.listeners[l].posts != [] ==> p.work.listeners[l].draining)
    decreases |if l < |p.work.listeners| then p.work.listeners[l].posts else []|
  {
    if p.work.listeners[l].posts == [] then p else ReceiveAll(Apply(p, StatusReceived(l)), l)
  }

  function Entries(chunk: nat, rs: seq<Request>): (r: seq<Entry>)
    ensures |r| == |rs|
  {
    seq(|rs|, k requires 0 <= k < |rs| => Entry(chunk, rs[k].work))
  }

  /** On release every deferred job is enqueued once, in order. */
  lemma {:induction false} AddAllInOrder(p: Pool, i: nat)
    requires p.work.listeners != [] && i < |p.locks.releases|
    ensures var r := p.locks.releases[i];
            && AddAll(p, i).log.enqueued == p.log.enqueued + Entries(r.chunk, r.todo)
            && |AddAll(p, i).work.queue| == |p.work.queue| + |r.todo| && p.work.queue <= AddAll(p, i).work.queue
    decreases |p.locks.releases[i].todo|
  {
    var r := p.locks.releases[i];
    if r.todo != [] {
      AddAllInOrder(GoOn(p, i), i);
      assert Entries(r.chunk, r.todo) == [Entry(r.chunk, r.todo[0].work)] + Entries(r.chunk, r.todo[1..]);
    }
  }

  /** p' has completed the first status queued for the listener, and goes on while there are more. */
  ghost predicate FirstCompleted(p: Pool, p': Pool, l: nat) {
    && l < |p.work.listeners| && l < |p'.work.listeners| && p.work.listeners[l].posts != []
    && p'.log.completed == p.log.completed + [p.work.listeners[l].posts[0]]
    && p'.work.listeners[l].posts == p.work.listeners[l].posts[1..]
    && p'.work.listeners[l].draining == (|p.work.listeners[l].posts| > 1)
  }

  lemma ReceivedOne(p: Pool, l: nat)
    requires Inv(p) && MayHappen(p, StatusReceived(l))
    ensures FirstCompleted(p, Apply(p, StatusReceived(l)), l)
  {
    hide PlaceOk, ListenersOk, LogOk, LocksOk, StateOk;
    FirstPost(p.work, l);
    ReceivePlaces(p.work, p.locks, l);
  }

  /** A drain completes the jobs whose statuses were queued, each once, in order. */
  lemma {:induction false} ReceiveAllInOrder(p: Pool, l: nat)
    requires Inv(p) && l < |p.work.listeners| && (p.work.listeners[l].posts != [] ==> p.work.listeners[l].draining)
    ensures ReceiveAll(p, l).log.completed == p.log.completed + p.work.listeners[l].posts
    decreases |if l < |p.work.listeners| then p.work.listeners[l].posts else []|
  {
    hide Inv;
    var posts := p.work.listeners[l].posts;
    if posts == [] {
      assert p.log.completed + [] == p.log.completed;
    } else {
      assert MayHappen(p, StatusReceived(l));
      ReceivedOne(p, l);
      StepInv(p, StatusReceived(l));
      hide Apply;
      ReceiveAllInOrder(Apply(p, StatusReceived(l)), l);
      assert p.log.completed + [posts[0]] + posts[1..] == p.log.completed + posts;
    }
  }
}
