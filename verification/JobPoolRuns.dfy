/** Workers and listeners keep the pool invariant; what it means for every run. */
module JobPoolRuns {
  import opened ChunkTypes
  import opened JobPools
  import opened JobPoolInv

  // ---------------------------------------------------------------- job changes

  lemma ChangedJob(p: Pool, t: Ticket, job: Job)
    requires Inv(p) && t in p.work.jobs && job.isLock == p.work.jobs[t].isLock
    requires job.state == p.work.jobs[t].state || (p.work.jobs[t].state == Enabled && job.state == Disabled)
    ensures Inv(p.(work := p.work.(jobs := p.work.jobs[t := job])))
  {
    hide PlaceOk, ListenersOk, LogOk, LocksOk, StateOk, Marks, Places, Ordinary;
    LocksMore(p.work.jobs, t, job, p.locks);
    ListenersJob(p.work.jobs, p.work.listeners, t, job);
    OrdinarySame(p.work.jobs, t, job);
    ChangedPlaces(p.work, t, job, p.locks);
    ChangedState(p.work, t, job, p.log);
  }

  lemma ChangedPlaces(w: Work, t: Ticket, job: Job, locks: Locks)
    requires PlaceOk(w, locks) && t in w.jobs
    ensures PlaceOk(w.(jobs := w.jobs[t := job]), locks)
  {
    hide Marks;
    forall u ensures Places(w.(jobs := w.jobs[t := job]), u) == if u in w.jobs && !Marks(locks, u) then 1 else 0 {
      assert Places(w.(jobs := w.jobs[t := job]), u) == Places(w, u);
    }
  }

  lemma ChangedState(w: Work, t: Ticket, job: Job, log: Log)
    requires StateOk(w, log.ran) && LogOk(w, log) && t in w.jobs
    requires job.state == w.jobs[t].state || (w.jobs[t].state == Enabled && job.state == Disabled)
    ensures StateOk(w.(jobs := w.jobs[t := job]), log.ran) && LogOk(w.(jobs := w.jobs[t := job]), log)
  {}

  // ---------------------------------------------------------------- workers

  lemma MultisetHead(xs: seq<Ticket>, t: Ticket)
    requires xs != []
    ensures multiset(xs)[t] == multiset(xs[1..])[t] + if t == xs[0] then 1 else 0
  {
    assert xs == [xs[0]] + xs[1..];
  }

  lemma MultisetWithout(xs: seq<Ticket>, i: nat, t: Ticket)
    requires i < |xs|
    ensures multiset(xs)[t] == multiset(xs[..i] + xs[i + 1..])[t] + if t == xs[i] then 1 else 0
  {
    assert xs == xs[..i] + [xs[i]] + xs[i + 1..];
  }

  /** A ticket at two positions would be in two places. */
  lemma OnlyPlace(w: Work, locks: Locks, t: Ticket)
    requires PlaceOk(w, locks)
    ensures Places(w, t) <= 1 && (Places(w, t) == 1 ==> t in w.jobs && !Marks(locks, t))
  {
    hide Places;
  }

  lemma InPlace(w: Work, t: Ticket)
    ensures t in w.queue ==> multiset(w.queue)[t] >= 1 && Places(w, t) >= 1
    ensures t in w.running ==> multiset(w.running)[t] >= 1 && Places(w, t) >= 1
  {
    assert t in w.queue ==> t in multiset(w.queue);
    assert t in w.running ==> t in multiset(w.running);
  }

  lemma TakePlaces(w: Work, locks: Locks)
    requires PlaceOk(w, locks) && w.queue != [] && w.queue[0] in w.jobs && w.queue[0].listener < |w.listeners|
    ensures PlaceOk(Take(w), locks)
  {
    var t := w.queue[0];
    var w1 := w.(queue := w.queue[1..]);
    hide Marks;
    forall u ensures Places(Take(w), u) == if u in Take(w).jobs && !Marks(locks, u) then 1 else 0 {
      MultisetHead(w.queue, u);
      if w.jobs[t].state == Disabled {
        PostedSent(w1, t, ERROR_NOTDONE, u);
      } else {
        assert multiset(w.running + [t])[u] == multiset(w.running)[u] + if u == t then 1 else 0;
      }
    }
  }

  /** The taken job was waiting nowhere else. */
  lemma TakeState(w: Work, locks: Locks, ran: set<Ticket>)
    requires PlaceOk(w, locks) && StateOk(w, ran) && w.queue != [] && w.queue[0] in w.jobs
    ensures var t := w.queue[0];
            StateOk(Take(w), if w.jobs[t].state == Disabled then ran else ran + {t})
  {
    var t := w.queue[0];
    OnlyPlace(w, locks, t);
    InPlace(w, t);
    MultisetHead(w.queue, t);
    assert t !in multiset(w.queue[1..]) && t !in multiset(w.running);
    assert forall u :: u in w.running + [t] ==> u in w.running || u == t;
    assert forall u :: u in w.queue[1..] ==> u in w.queue;
    hide PlaceOk, Places;
  }

  lemma KnownListener(w: Work, log: Log, t: Ticket)
    requires LogOk(w, log) && t in w.jobs
    ensures t.listener < |w.listeners|
  {}

  lemma RunningJob(w: Work, locks: Locks, ran: set<Ticket>, i: nat)
    requires PlaceOk(w, locks) && StateOk(w, ran) && i < |w.running|
    ensures w.running[i] in w.jobs && w.jobs[w.running[i]].state == InProgress
  {
    OnlyPlace(w, locks, w.running[i]);
    InPlace(w, w.running[i]);
  }

  lemma TakeInv(p: Pool)
    requires Inv(p) && MayHappen(p, WorkerTakes)
    ensures Inv(Apply(p, WorkerTakes))
  {
    hide PlaceOk, ListenersOk, LogOk, LocksOk, StateOk, Marks, Places, Ordinary;
    var w, t := p.work, p.work.queue[0];
    KnownListener(w, p.log, t);
    TakePlaces(w, p.locks);
    TakeState(w, p.locks, p.log.ran);
    if w.jobs[t].state == Disabled {
      SentListeners(w.(queue := w.queue[1..]), t, ERROR_NOTDONE);
      TakenLog(w, p.log, t);
      SentLog(w.(queue := w.queue[1..]), t, ERROR_NOTDONE, p.log);
    } else {
      var job := w.jobs[t].(state := InProgress);
      LocksMore(w.jobs, t, job, p.locks);
      ListenersJob(w.jobs, w.listeners, t, job);
      OrdinarySame(w.jobs, t, job);
      TakenLog(w, p.log, t);
    }
  }

  lemma TakenLog(w: Work, log: Log, t: Ticket)
    requires LogOk(w, log) && t in w.jobs && w.queue != []
    ensures LogOk(w.(queue := w.queue[1..]), log)
    ensures LogOk(w.(queue := w.queue[1..], running := w.running + [t], jobs := w.jobs[t := w.jobs[t].(state := InProgress)]),
                  log.(ran := log.ran + {t}))
  {}

  lemma FinishInv(p: Pool, i: nat, status: Status)
    requires Inv(p) && i < |p.work.running|
    ensures Inv(Apply(p, WorkerEnds(i, status)))
  {
    hide PlaceOk, ListenersOk, LogOk, LocksOk, StateOk, Marks, Places, Ordinary;
    var w, t := p.work, p.work.running[i];
    RunningJob(w, p.locks, p.log.ran, i);
    KnownListener(w, p.log, t);
    var w1 := w.(running := w.running[..i] + w.running[i + 1..]);
    SentListeners(w1, t, status);
    FinishPlaces(w, p.locks, i, status);
    FinishState(w, i, p.log);
    SentState(w1, t, status, p.log.ran);
    SentLog(w1, t, status, p.log);
  }

  lemma FinishPlaces(w: Work, locks: Locks, i: nat, status: Status)
    requires PlaceOk(w, locks) && i < |w.running| && w.running[i].listener < |w.listeners|
    ensures PlaceOk(Finish(w, i, status), locks)
  {
    var w1 := w.(running := w.running[..i] + w.running[i + 1..]);
    hide Marks;
    forall u ensures Places(Finish(w, i, status), u) == if u in w.jobs && !Marks(locks, u) then 1 else 0 {
      MultisetWithout(w.running, i, u);
      PostedSent(w1, w.running[i], status, u);
    }
  }

  lemma FinishState(w: Work, i: nat, log: Log)
    requires StateOk(w, log.ran) && LogOk(w, log) && i < |w.running|
    ensures StateOk(w.(running := w.running[..i] + w.running[i + 1..]), log.ran)
    ensures LogOk(w.(running := w.running[..i] + w.running[i + 1..]), log)
  {
    assert forall u :: u in w.running[..i] + w.running[i + 1..] ==> u in w.running;
  }

  // ---------------------------------------------------------------- listeners

  /** The listener's owner enters processCompletedJobs. */
  function Drained(w: Work, l: nat): Work
    requires l < |w.listeners|
  {
    w.(listeners := w.listeners[l := w.listeners[l].(draining := true)])
  }

  lemma DrainPlaces(w: Work, l: nat, locks: Locks)
    requires l < |w.listeners| && PlaceOk(w, locks)
    ensures PlaceOk(Drained(w, l), locks)
  {
    hide Marks;
    forall u ensures Places(Drained(w, l), u) == if u in w.jobs && !Marks(locks, u) then 1 else 0 {
      assert Posted(Drained(w, l).listeners, u) == Posted(w.listeners, u);
    }
  }

  lemma DrainListeners(w: Work, l: nat)
    requires l < |w.listeners| && w.listeners[l].readable && ListenersOk(w.jobs, w.listeners)
    ensures ListenersOk(w.jobs, Drained(w, l).listeners)
  {}

  lemma DrainLog(w: Work, l: nat, log: Log)
    requires l < |w.listeners| && LogOk(w, log)
    ensures LogOk(Drained(w, l), log)
  {
    assert forall t :: Issued(Drained(w, l).listeners, t) == Issued(w.listeners, t);
    hide Issued;
  }

  lemma DrainInv(p: Pool, l: nat)
    requires Inv(p) && MayHappen(p, DrainStarts(l))
    ensures Inv(Apply(p, DrainStarts(l)))
  {
    hide PlaceOk, ListenersOk, LogOk, LocksOk, StateOk, Marks, Places, Ordinary;
    DrainPlaces(p.work, l, p.locks);
    DrainListeners(p.work, l);
    DrainLog(p.work, l, p.log);
    StateAside(p.work, Drained(p.work, l), p.log.ran);
  }

  lemma StateAside(w: Work, w': Work, ran: set<Ticket>)
    requires StateOk(w, ran) && w'.jobs == w.jobs && w'.queue == w.queue && w'.running == w.running
    ensures StateOk(w', ran)
  {}

  lemma ReceivePlaces(w: Work, locks: Locks, l: nat)
    requires PlaceOk(w, locks) && l < |w.listeners| && w.listeners[l].posts != [] && w.listeners[l].posts[0].ticket.listener == l
    ensures PlaceOk(Receive(w, l), locks)
    ensures var t := w.listeners[l].posts[0].ticket;
            t in w.jobs && !Marks(locks, t) && t !in w.queue && t !in w.running
  {
    var t := w.listeners[l].posts[0].ticket;
    PostedMember(w.listeners, l, 0);
    OnlyPlace(w, locks, t);
    assert t in w.queue ==> t in multiset(w.queue);
    assert t in w.running ==> t in multiset(w.running);
    hide Marks;
    forall u ensures Places(Receive(w, l), u) == if u in Receive(w, l).jobs && !Marks(locks, u) then 1 else 0 {
      PostedReceived(w.listeners, l, Receive(w, l).listeners[l], u);
    }
  }

  lemma ReceiveListeners(w: Work, l: nat)
    requires ListenersOk(w.jobs, w.listeners) && l < |w.listeners| && w.listeners[l].posts != []
    ensures ListenersOk(Receive(w, l).jobs, Receive(w, l).listeners)
  {
    var w' := Receive(w, l);
    forall k, i | 0 <= k < |w'.listeners| && 0 <= i < |w'.listeners[k].posts| ensures PostOk(w'.jobs, k, w'.listeners[k].posts[i]) {
      assert PostOk(w.jobs, k, w.listeners[k].posts[if k == l then i + 1 else i]);
    }
  }

  lemma ReceiveLog(w: Work, l: nat, log: Log, locksDone: nat)
    requires LogOk(w, log) && l < |w.listeners| && w.listeners[l].posts != [] && w.listeners[l].posts[0].ticket in w.jobs
    ensures LogOk(Receive(w, l), log.(completed := log.completed + [w.listeners[l].posts[0]], locksDone := locksDone))
  {
    var post := w.listeners[l].posts[0];
    var cs, es := Tickets(log.completed), log.erased;
    assert Tickets(log.completed + [post]) == cs + [post.ticket];
    assert post.ticket !in cs + es;
    var ts := cs + [post.ticket] + es;
    forall i, j | 0 <= i < j < |ts| ensures ts[i] != ts[j] {
      var i', j' := if i < |cs| then i else i - 1, if j < |cs| then j else j - 1;
      assert i != |cs| ==> ts[i] == (cs + es)[i'];
      assert j != |cs| ==> ts[j] == (cs + es)[j'];
    }
    assert forall t :: t in ts ==> t in cs + es || t == post.ticket;
  }

  lemma ReceiveState(w: Work, l: nat, ran: set<Ticket>)
    requires StateOk(w, ran) && l < |w.listeners| && w.listeners[l].posts != []
    ensures StateOk(Receive(w, l), ran)
  {}

  lemma ReceiveLocks(jobs: map<Ticket, Job>, locks: Locks, t: Ticket)
    requires LocksOk(jobs, locks) && !Marks(locks, t)
    ensures LocksOk(jobs - {t}, locks)
  {}

  lemma FirstPost(w: Work, l: nat)
    requires ListenersOk(w.jobs, w.listeners) && l < |w.listeners| && w.listeners[l].posts != []
    ensures w.listeners[l].posts[0].ticket.listener == l
  {
    assert PostOk(w.jobs, l, w.listeners[l].posts[0]);
  }

  lemma ReceiveInv(p: Pool, l: nat)
    requires Inv(p) && MayHappen(p, StatusReceived(l))
    ensures Inv(Apply(p, StatusReceived(l)))
  {
    hide PlaceOk, ListenersOk, LogOk, LocksOk, StateOk, Marks, Places, Ordinary;
    var t := p.work.listeners[l].posts[0].ticket;
    FirstPost(p.work, l);
    ReceivePlaces(p.work, p.locks, l);
    ReceiveListeners(p.work, l);
    ReceiveLog(p.work, l, p.log, p.log.locksDone + if p.work.jobs[t].isLock then 1 else 0);
    ReceiveState(p.work, l, p.log.ran);
    ReceiveLocks(p.work.jobs, p.locks, t);
    OrdinaryDrops(p.work.jobs, t);
  }

  // ---------------------------------------------------------------- every step, every run

  lemma SubmitInv(p: Pool, chunk: nat, r: Request)
    requires Inv(p)
    ensures Inv(Submit(p, chunk, r))
  {
    if Locked(p.locks, chunk) {
      var lock := p.locks.held[chunk];
      HeldInv(p, chunk, lock.(pending := lock.pending + [r]));
      hide Inv;
      RecordsAside(p.(locks := Submit(p, chunk, r).locks), Submit(p, chunk, r).log);
    } else {
      hide Inv;
      TransitAside(p, Submit(p, chunk, r).transit);
      RecordsAside(p.(transit := Submit(p, chunk, r).transit), Submit(p, chunk, r).log);
    }
  }

  lemma AddCheckedInv(p: Pool, i: nat)
    requires Inv(p) && i < |p.transit|
    ensures Inv(AddChecked(p, i))
  {
    hide Inv;
    SomeListener(p);
    var p1 := p.(work := AddJob(p.work, p.transit[i].r));
    AddInv(p, p.transit[i].r);
    TransitAside(p1, AddChecked(p, i).transit);
    RecordsAside(p1.(transit := AddChecked(p, i).transit), AddChecked(p, i).log);
  }

  lemma TransitAside(p: Pool, transit: seq<Transit>)
    requires Inv(p)
    ensures Inv(p.(transit := transit))
  {
    hide PlaceOk, ListenersOk, LocksOk, StateOk, LogOk, CounterOk;
  }

  lemma EnforceInv(p: Pool, chunk: nat)
    requires Inv(p)
    ensures Inv(Enforce(p, chunk))
  {
    if chunk in p.locks.held { HeldInv(p, chunk, p.locks.held[chunk].(enforced := true)); }
  }

  lemma StepInv(p: Pool, e: Event)
    requires Inv(p) && MayHappen(p, e)
    ensures Inv(Apply(p, e))
  {
    hide Inv;
    SomeListener(p);
    match e
    case Adds(r) => AddInv(p, r);
    case Submits(chunk, r) => SubmitInv(p, chunk, r);
    case AddsChecked(i) => AddCheckedInv(p, i);
    case LockStarts(chunk, listener, callback) => StartInv(p, chunk, listener, callback);
    case LockEnforced(chunk) => EnforceInv(p, chunk);
    case LockEnds(chunk, status) => ReleaseInv(p, chunk, Some(status));
    case LockErased(chunk) => ReleaseInv(p, chunk, None);
    case ReleaseGoesOn(i) => GoOnInv(p, i);
    case Disables(t) =>
      if t in p.work.jobs && p.work.jobs[t].state == Enabled { ChangedJob(p, t, p.work.jobs[t].(state := Disabled)); }
    case CallbackChanges(t, callback) =>
      if t in p.work.jobs { ChangedJob(p, t, p.work.jobs[t].(callback := callback)); }
    case WorkerTakes => TakeInv(p);
    case WorkerEnds(i, status) => FinishInv(p, i, status);
    case DrainStarts(l) => DrainInv(p, l);
    case StatusReceived(l) => ReceiveInv(p, l);
  }

  lemma BlankInv(listeners: nat)
    requires listeners > 0
    ensures Inv(Blank(listeners))
  {
    var p := Blank(listeners);
    forall t ensures Places(p.work, t) == 0 {
      if t.listener < listeners { assert p.work.listeners[t.listener].posts == []; }
    }
    assert Ordinary(map[]) == {};
  }

  lemma {:induction false} RunInv(p: Pool, events: seq<Event>)
    requires Inv(p)
    ensures Inv(Run(p, events))
  {
    hide Inv, Apply, MayHappen;
    SomeListener(p);
    if events != [] {
      var n := |events| - 1;
      RunInv(p, events[..n]);
      if MayHappen(Run(p, events[..n]), events[n]) { StepInv(Run(p, events[..n]), events[n]); }
    }
  }
}
