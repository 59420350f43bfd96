/** What holds of the job pools in every run: completions, disabled jobs, the counter, the
    eventfd, and the chunk-lock protocol. */
module JobPoolTheorems {
  import opened ChunkTypes
  import opened JobPools
  import opened JobPoolInv
  import opened JobPoolRuns

  function Reach(listeners: nat, events: seq<Event>): Pool
    requires listeners > 0
  {
    Run(Blank(listeners), events)
  }

  lemma ReachInv(listeners: nat, events: seq<Event>)
    requires listeners > 0
    ensures Inv(Reach(listeners, events))
  {
    hide Inv;
    BlankInv(listeners);
    RunInv(Blank(listeners), events);
  }

  // ---------------------------------------------------------------- completions

  /** Every job ever added is outstanding in exactly one place, or was completed once, or is
      a lock job that is held or was erased; and only one of these. */
  lemma OneCompletion(listeners: nat, events: seq<Event>, t: Ticket)
    requires listeners > 0 && Issued(Reach(listeners, events).work.listeners, t)
    ensures var p := Reach(listeners, events);
            && (t in p.work.jobs <==> t !in Tickets(p.log.completed) + p.log.erased)
            && (t in p.work.jobs ==> Places(p.work, t) == 1 || (Places(p.work, t) == 0 && Marks(p.locks, t) && p.work.jobs[t].isLock))
            && DistinctTickets(Tickets(p.log.completed) + p.log.erased)
  {
    hide Reach;
    ReachInv(listeners, events);
    MarkedAreLocks(Reach(listeners, events), t);
    hide Places, ListenersOk, StateOk;
  }

  lemma MarkedAreLocks(p: Pool, t: Ticket)
    requires Inv(p)
    ensures Marks(p.locks, t) ==> t in p.work.jobs && p.work.jobs[t].isLock
  {
    hide PlaceOk, ListenersOk, StateOk, LogOk;
  }

  /** The counter of unprocessed jobs is right exactly as long as no lock job completed. */
  lemma CounterLags(listeners: nat, events: seq<Event>)
    requires listeners > 0
    ensures var p := Reach(listeners, events);
            && p.work.counter == |Ordinary(p.work.jobs)| - p.log.locksDone
            && (p.work.counter == |Ordinary(p.work.jobs)| <==> p.log.locksDone == 0)
  {
    hide Reach;
    ReachInv(listeners, events);
  }

  lemma RunSnoc(p: Pool, events: seq<Event>, e: Event)
    requires p.work.listeners != []
    ensures var q := Run(p, events); Run(p, events + [e]) == if MayHappen(q, e) then Apply(q, e) else q
  {
    hide Apply, MayHappen;
    assert (events + [e])[..|events|] == events;
  }

  /** A lock is started and ended at once. */
  function LockEvents(): seq<Event> {
    [LockStarts(7, 0, 0), LockEnds(7, STATUS_OK), ReleaseGoesOn(0), DrainStarts(0), StatusReceived(0)]
  }

  const LOCK_JOB: Ticket := Ticket(0, 0)

  function LockPool(posts: seq<Post>, draining: bool, locks: Locks): Pool {
    Pool(Work(map[LOCK_JOB := Job(true, 0, Enabled, 0)], [], [], [Listener(1, posts, posts != [], draining)], 0),
         locks, [], Log([], 0, [], {}, [], []))
  }

  /** One step of a run from one known state to the next. */
  ghost predicate StepsTo(p: Pool, e: Event, q: Pool) { p.work.listeners != [] && MayHappen(p, e) && Apply(p, e) == q }

  lemma LockStarted()
    ensures StepsTo(Blank(1), LockEvents()[0], LockPool([], false, Locks(map[7 := LockData(LOCK_JOB, false, [])], [])))
  {
    assert Blank(1).work.listeners == [Listener(0, [], false, false)];
  }

  lemma LockEnded()
    ensures StepsTo(LockPool([], false, Locks(map[7 := LockData(LOCK_JOB, false, [])], [])), LockEvents()[1],
                    LockPool([], false, Locks(map[], [Release(7, LOCK_JOB, [], Some(STATUS_OK))])))
  {
    var held: map<nat, LockData> := map[7 := LockData(LOCK_JOB, false, [])];
    assert held - {7} == map[];
  }

  lemma LockPosted()
    ensures StepsTo(LockPool([], false, Locks(map[], [Release(7, LOCK_JOB, [], Some(STATUS_OK))])), LockEvents()[2],
                    LockPool([Post(LOCK_JOB, STATUS_OK)], false, Locks(map[], [])))
  {
    var rs := [Release(7, LOCK_JOB, [], Some(STATUS_OK))];
    assert rs[..0] + rs[1..] == [];
    var w := LockPool([], false, Locks(map[], rs)).work;
    assert [] + [Post(LOCK_JOB, STATUS_OK)] == [Post(LOCK_JOB, STATUS_OK)];
    assert SendStatus(w, LOCK_JOB, STATUS_OK).listeners == [Listener(1, [Post(LOCK_JOB, STATUS_OK)], true, false)];
  }

  lemma LockDrains()
    ensures StepsTo(LockPool([Post(LOCK_JOB, STATUS_OK)], false, Locks(map[], [])), LockEvents()[3],
                    LockPool([Post(LOCK_JOB, STATUS_OK)], true, Locks(map[], [])))
  {}

  lemma LockReceived(q: Pool)
    requires StepsTo(LockPool([Post(LOCK_JOB, STATUS_OK)], true, Locks(map[], [])), LockEvents()[4], q)
    ensures q.work.counter == -1 && q.work.jobs == map[] && q.log.locksDone == 1
  {
    var jobs := map[LOCK_JOB := Job(true, 0, Enabled, 0)];
    assert jobs - {LOCK_JOB} == map[];
  }

  lemma LockReceives() returns (q: Pool)
    ensures StepsTo(LockPool([Post(LOCK_JOB, STATUS_OK)], true, Locks(map[], [])), LockEvents()[4], q)
  {
    q := Apply(LockPool([Post(LOCK_JOB, STATUS_OK)], true, Locks(map[], [])), LockEvents()[4]);
  }

  lemma RunStep(p: Pool, events: seq<Event>, n: nat, q: Pool, r: Pool)
    requires p.work.listeners != [] && n < |events| && Run(p, events[..n]) == q && StepsTo(q, events[n], r)
    ensures Run(p, events[..n + 1]) == r
  {
    hide Run, Apply, MayHappen;
    RunSnoc(p, events[..n], events[n]);
    assert events[..n] + [events[n]] == events[..n + 1];
  }

  lemma RunNothing(p: Pool, events: seq<Event>)
    requires p.work.listeners != []
    ensures Run(p, events[..0]) == p && events[..|events|] == events
  {}

  /** The counter does go wrong: after one lock job it is -1 with nothing outstanding. */
  lemma CounterGoesWrong()
    ensures var p := Reach(1, LockEvents()); p.work.counter == -1 && p.work.jobs == map[] && p.log.locksDone == 1
  {
    hide Run, StepsTo, LockPool;
    var p0, ev := Blank(1), LockEvents();
    RunNothing(p0, ev);
    LockStarted();
    LockEnded();
    LockPosted();
    LockDrains();
    var last := LockReceives();
    LockReceived(last);
    RunStep(p0, ev, 0, p0, LockPool([], false, Locks(map[7 := LockData(LOCK_JOB, false, [])], [])));
    RunStep(p0, ev, 1, LockPool([], false, Locks(map[7 := LockData(LOCK_JOB, false, [])], [])),
            LockPool([], false, Locks(map[], [Release(7, LOCK_JOB, [], Some(STATUS_OK))])));
    RunStep(p0, ev, 2, LockPool([], false, Locks(map[], [Release(7, LOCK_JOB, [], Some(STATUS_OK))])),
            LockPool([Post(LOCK_JOB, STATUS_OK)], false, Locks(map[], [])));
    RunStep(p0, ev, 3, LockPool([Post(LOCK_JOB, STATUS_OK)], false, Locks(map[], [])),
            LockPool([Post(LOCK_JOB, STATUS_OK)], true, Locks(map[], [])));
    RunStep(p0, ev, 4, LockPool([Post(LOCK_JOB, STATUS_OK)], true, Locks(map[], [])), last);
  }

  /** A listener's eventfd is readable exactly when statuses wait for it, so a drain begun on
      a readable descriptor always finds one. */
  lemma DrainFindsStatus(listeners: nat, events: seq<Event>, l: nat)
    requires listeners > 0 && l < |Reach(listeners, events).work.listeners|
    ensures var p := Reach(listeners, events);
            && (p.work.listeners[l].readable <==> p.work.listeners[l].posts != [])
            && (p.work.listeners[l].draining ==> MayHappen(p, StatusReceived(l)))
  {
    hide Reach, Inv;
    ReachInv(listeners, events);
    Drains(Reach(listeners, events), l);
  }

  lemma Drains(p: Pool, l: nat)
    requires Inv(p) && l < |p.work.listeners|
    ensures p.work.listeners[l].readable <==> p.work.listeners[l].posts != []
    ensures p.work.listeners[l].draining ==> p.work.listeners[l].posts != []
  {
    hide PlaceOk, LocksOk, StateOk, LogOk, CounterOk;
  }

  // ---------------------------------------------------------------- disabled jobs

  predicate Resting(w: Work, t: Ticket) {
    Issued(w.listeners, t) && (t in w.jobs ==> !w.jobs[t].isLock && w.jobs[t].state == Disabled)
  }

  predicate Excused(completed: seq<Post>, t: Ticket) {
    forall i :: 0 <= i < |completed| && completed[i].ticket == t ==> completed[i].status == ERROR_NOTDONE
  }

  /** A job that was disabled in time. */
  predicate Spared(p: Pool, t: Ticket) { Resting(p.work, t) && t !in p.log.ran && Excused(p.log.completed, t) }

  lemma AddRests(w: Work, r: Request, t: Ticket)
    requires w.listeners != [] && Resting(w, t)
    ensures Resting(AddJob(w, r), t)
  {}

  lemma StartRests(w: Work, listener: nat, job: Job, t: Ticket)
    requires w.listeners != [] && Resting(w, t)
    ensures Resting(Register(w, listener, job), t)
  {}

  lemma SendRests(w: Work, u: Ticket, status: Status, t: Ticket)
    requires Resting(w, t)
    ensures Resting(SendStatus(w, u, status), t)
  {}

  lemma GoOnSpares(p: Pool, i: nat, t: Ticket)
    requires p.work.listeners != [] && Spared(p, t) && i < |p.locks.releases|
    ensures Spared(GoOn(p, i), t)
  {
    hide AddJob, SendStatus, Excused;
    var r := p.locks.releases[i];
    if r.todo != [] { AddRests(p.work, r.todo[0], t); } else if r.status.Some? { SendRests(p.work, r.ticket, r.status.value, t); }
  }

  lemma SubmitSpares(p: Pool, chunk: nat, r: Request, t: Ticket)
    requires Spared(p, t)
    ensures Spared(Submit(p, chunk, r), t)
  {
    hide Resting, Excused;
  }

  lemma AddCheckedSpares(p: Pool, i: nat, t: Ticket)
    requires p.work.listeners != [] && Spared(p, t) && i < |p.transit|
    ensures Spared(AddChecked(p, i), t)
  {
    hide AddJob, Excused;
    AddRests(p.work, p.transit[i].r, t);
  }

  lemma TakeSpares(p: Pool, t: Ticket)
    requires p.work.listeners != [] && Spared(p, t) && MayHappen(p, WorkerTakes)
    ensures Spared(Apply(p, WorkerTakes), t)
  {
    hide SendStatus, Excused;
    SendRests(p.work.(queue := p.work.queue[1..]), p.work.queue[0], ERROR_NOTDONE, t);
  }

  lemma ReceiveRests(w: Work, l: nat, t: Ticket)
    requires l < |w.listeners| && w.listeners[l].posts != [] && Resting(w, t)
    ensures Resting(Receive(w, l), t)
  {}

  lemma SparedReceive(p: Pool, l: nat, t: Ticket)
    requires Inv(p) && Spared(p, t) && MayHappen(p, StatusReceived(l))
    ensures Spared(Apply(p, StatusReceived(l)), t)
  {
    hide PlaceOk, LocksOk, StateOk, LogOk, CounterOk;
    assert PostOk(p.work.jobs, l, p.work.listeners[l].posts[0]);
    hide ListenersOk, Receive;
    ReceiveRests(p.work, l, t);
  }

  lemma SparedStep(p: Pool, e: Event, t: Ticket)
    requires Inv(p) && Spared(p, t) && MayHappen(p, e)
    ensures Spared(Apply(p, e), t)
  {
    hide Inv, AddJob, SendStatus, Submit, AddChecked, GoOn, Take, Receive, Register;
    SomeListener(p);
    match e
    case Adds(r) => AddRests(p.work, r, t);
    case Submits(chunk, r) => SubmitSpares(p, chunk, r, t);
    case AddsChecked(i) => AddCheckedSpares(p, i, t);
    case LockStarts(chunk, listener, callback) => StartRests(p.work, listener, Job(true, 0, Enabled, callback), t);
    case ReleaseGoesOn(i) => GoOnSpares(p, i, t);
    case WorkerTakes => TakeSpares(p, t);
    case WorkerEnds(i, status) =>
      SendRests(p.work.(running := p.work.running[..i] + p.work.running[i + 1..]), p.work.running[i], status, t);
    case StatusReceived(l) => SparedReceive(p, l, t);
    case _ =>
  }

  lemma {:induction false} SparedRun(p: Pool, events: seq<Event>, t: Ticket)
    requires Inv(p) && Spared(p, t)
    ensures Spared(Run(p, events), t)
  {
    hide Inv, Apply, MayHappen, Spared;
    SomeListener(p);
    RunInv(p, events);
    if events != [] {
      var n := |events| - 1;
      SparedRun(p, events[..n], t);
      RunInv(p, events[..n]);
      if MayHappen(Run(p, events[..n]), events[n]) { SparedStep(Run(p, events[..n]), events[n], t); }
    }
  }

  /** A job disabled before a worker takes it is never run, and completes with NOTDONE. */
  lemma DisabledNeverRuns(listeners: nat, before: seq<Event>, after: seq<Event>, t: Ticket)
    requires listeners > 0
    requires var p := Reach(listeners, before);
             t in p.work.jobs && !p.work.jobs[t].isLock && p.work.jobs[t].state == Enabled
    ensures var p := Run(Apply(Reach(listeners, before), Disables(t)), after);
            && t !in p.log.ran
            && forall i :: 0 <= i < |p.log.completed| && p.log.completed[i].ticket == t ==> p.log.completed[i].status == ERROR_NOTDONE
  {
    hide Reach, Inv;
    var p := Reach(listeners, before);
    ReachInv(listeners, before);
    SomeListener(p);
    StepInv(p, Disables(t));
    DisabledIsSpared(p, t);
    SparedRun(Apply(p, Disables(t)), after, t);
  }

  lemma DisabledIsSpared(p: Pool, t: Ticket)
    requires Inv(p) && t in p.work.jobs && !p.work.jobs[t].isLock && p.work.jobs[t].state == Enabled
    ensures Spared(Apply(p, Disables(t)), t)
  {
    hide PlaceOk, ListenersOk, LocksOk, CounterOk;
    NotCompleted(p.work, p.log, t);
  }

  lemma NotCompleted(w: Work, log: Log, t: Ticket)
    requires LogOk(w, log) && t in w.jobs
    ensures Excused(log.completed, t)
  {
    forall i | 0 <= i < |log.completed| ensures log.completed[i].ticket != t {
      assert Tickets(log.completed)[i] in Tickets(log.completed) + log.erased;
    }
  }
}
