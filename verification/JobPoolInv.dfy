/** What every step of the job pools keeps. */
module JobPoolInv {
  import opened ChunkTypes
  import opened JobPools

  function Tickets(posts: seq<Post>): (r: seq<Ticket>)
    ensures |r| == |posts|
  {
    seq(|posts|, i requires 0 <= i < |posts| => posts[i].ticket)
  }

  /** How often a ticket is posted to its listener. */
  function Posted(listeners: seq<Listener>, t: Ticket): nat {
    if t.listener < |listeners| then multiset(Tickets(listeners[t.listener].posts))[t] else 0
  }

  /** In how many places a job is: the queue, a worker, or a status queue. */
  function Places(w: Work, t: Ticket): nat { multiset(w.queue)[t] + multiset(w.running)[t] + Posted(w.listeners, t) }

  ghost predicate Marks(locks: Locks, t: Ticket) {
    || (exists c :: c in locks.held && locks.held[c].ticket == t)
    || (exists i :: 0 <= i < |locks.releases| && locks.releases[i].ticket == t)
  }

  /** Every job is in exactly one place; a lock job in none until its lock is ended. */
  ghost predicate PlaceOk(w: Work, locks: Locks) {
    forall t :: Places(w, t) == if t in w.jobs && !Marks(locks, t) then 1 else 0
  }

  /** Each held or released lock has a lock job of its own. */
  ghost predicate LocksOk(jobs: map<Ticket, Job>, locks: Locks) {
    && (forall c :: c in locks.held ==> locks.held[c].ticket in jobs && jobs[locks.held[c].ticket].isLock)
    && (forall i :: 0 <= i < |locks.releases| ==> locks.releases[i].ticket in jobs && jobs[locks.releases[i].ticket].isLock)
    && (forall c, d :: c in locks.held && d in locks.held && c != d ==> locks.held[c].ticket != locks.held[d].ticket)
    && (forall i, j :: 0 <= i < j < |locks.releases| ==> locks.releases[i].ticket != locks.releases[j].ticket)
    && (forall c, i :: c in locks.held && 0 <= i < |locks.releases| ==> locks.held[c].ticket != locks.releases[i].ticket)
    && (forall c :: c in locks.held && !locks.held[c].enforced ==> locks.held[c].pending == [])
  }

  /** A disabled job has not been run, and is reported not done. */
  ghost predicate StateOk(w: Work, ran: set<Ticket>) {
    && (forall t :: t in w.running && t in w.jobs ==> w.jobs[t].state == InProgress)
    && (forall t :: t in w.queue && t in w.jobs ==> w.jobs[t].state != InProgress)
    && (forall t :: t in w.jobs && w.jobs[t].state == InProgress ==> t in ran)
    && (forall t :: t in w.jobs && w.jobs[t].state != InProgress ==> t !in ran)
  }

  ghost predicate PostOk(jobs: map<Ticket, Job>, l: nat, post: Post) {
    && post.ticket.listener == l
    && (post.ticket in jobs && !jobs[post.ticket].isLock && jobs[post.ticket].state != InProgress ==> post.status == ERROR_NOTDONE)
  }

  /** An eventfd is readable exactly when statuses are queued; a drain finds one. */
  ghost predicate ListenersOk(jobs: map<Ticket, Job>, listeners: seq<Listener>) {
    forall l :: 0 <= l < |listeners| ==>
      && (listeners[l].readable <==> listeners[l].posts != [])
      && (listeners[l].draining ==> listeners[l].posts != [])
      && (forall i :: 0 <= i < |listeners[l].posts| ==> PostOk(jobs, l, listeners[l].posts[i]))
  }

  predicate Issued(listeners: seq<Listener>, t: Ticket) {
    t.listener < |listeners| && t.id < listeners[t.listener].next
  }

  ghost predicate DistinctTickets(ts: seq<Ticket>) { forall i, j :: 0 <= i < j < |ts| ==> ts[i] != ts[j] }

  /** No ticket is used twice; a job is outstanding, completed or erased, and only one of
      these. */
  ghost predicate LogOk(w: Work, log: Log) {
    && (forall t :: t in w.jobs ==> Issued(w.listeners, t))
    && (forall t :: t in log.ran ==> Issued(w.listeners, t))
    && (forall t :: t in Tickets(log.completed) + log.erased ==> t !in w.jobs && Issued(w.listeners, t))
    && DistinctTickets(Tickets(log.completed) + log.erased)
    && (forall t :: Issued(w.listeners, t) ==> t in w.jobs || t in Tickets(log.completed) + log.erased)
  }

  function Ordinary(jobs: map<Ticket, Job>): set<Ticket> { set t | t in jobs && !jobs[t].isLock }

  /** The counter is the number of outstanding jobs, less the lock jobs completed so far. */
  ghost predicate CounterOk(w: Work, locksDone: nat) { w.counter == |Ordinary(w.jobs)| - locksDone }

  ghost predicate Inv(p: Pool) {
    && p.work.listeners != []
    && PlaceOk(p.work, p.locks) && LocksOk(p.work.jobs, p.locks) && StateOk(p.work, p.log.ran)
    && ListenersOk(p.work.jobs, p.work.listeners) && LogOk(p.work, p.log) && CounterOk(p.work, p.log.locksDone)
  }

  lemma SomeListener(p: Pool)
    requires Inv(p)
    ensures p.work.listeners != []
  {}

  // ---------------------------------------------------------------- posts

  lemma PostedMember(listeners: seq<Listener>, l: nat, i: nat)
    requires l < |listeners| && i < |listeners[l].posts| && listeners[l].posts[i].ticket.listener == l
    ensures Posted(listeners, listeners[l].posts[i].ticket) > 0
  {
    var ts := Tickets(listeners[l].posts);
    assert ts[i] in ts;
  }

  /** A change of one job that no post speaks of, or that keeps what posts depend on. */
  lemma ListenersJob(jobs: map<Ticket, Job>, listeners: seq<Listener>, t: Ticket, job: Job)
    requires ListenersOk(jobs, listeners)
    requires Posted(listeners, t) == 0 || (t in jobs && job.isLock == jobs[t].isLock && (job.state == InProgress || jobs[t].state != InProgress))
    ensures ListenersOk(jobs[t := job], listeners)
  {
    forall l, i | 0 <= l < |listeners| && 0 <= i < |listeners[l].posts|
      ensures PostOk(jobs[t := job], l, listeners[l].posts[i])
    {
      assert PostOk(jobs, l, listeners[l].posts[i]);
      PostedMember(listeners, l, i);
    }
  }

  lemma ListenersLess(jobs: map<Ticket, Job>, jobs': map<Ticket, Job>, listeners: seq<Listener>)
    requires ListenersOk(jobs, listeners) && forall t :: t in jobs' ==> t in jobs && jobs'[t] == jobs[t]
    ensures ListenersOk(jobs', listeners)
  {
    forall l, i | 0 <= l < |listeners| && 0 <= i < |listeners[l].posts|
      ensures PostOk(jobs', l, listeners[l].posts[i])
    {
      assert PostOk(jobs, l, listeners[l].posts[i]);
    }
  }

  lemma PostedSent(w: Work, t: Ticket, status: Status, u: Ticket)
    requires t.listener < |w.listeners|
    ensures Posted(SendStatus(w, t, status).listeners, u) == Posted(w.listeners, u) + if u == t then 1 else 0
  {
    var was, now := w.listeners, SendStatus(w, t, status).listeners;
    var l := t.listener;
    assert Tickets(now[l].posts) == Tickets(was[l].posts) + [t];
  }

  lemma SentListeners(w: Work, t: Ticket, status: Status)
    requires t.listener < |w.listeners| && ListenersOk(w.jobs, w.listeners)
    requires t in w.jobs && !w.jobs[t].isLock && w.jobs[t].state != InProgress ==> status == ERROR_NOTDONE
    ensures ListenersOk(w.jobs, SendStatus(w, t, status).listeners)
  {
    var now := SendStatus(w, t, status).listeners;
    forall l, i | 0 <= l < |now| && 0 <= i < |now[l].posts| ensures PostOk(w.jobs, l, now[l].posts[i]) {
      if i < |w.listeners[l].posts| { assert PostOk(w.jobs, l, w.listeners[l].posts[i]); }
    }
  }

  lemma PostedReceived(listeners: seq<Listener>, l: nat, after: Listener, u: Ticket)
    requires l < |listeners| && listeners[l].posts != [] && after.posts == listeners[l].posts[1..]
    requires listeners[l].posts[0].ticket.listener == l
    ensures Posted(listeners[l := after], u) == Posted(listeners, u) - if u == listeners[l].posts[0].ticket then 1 else 0
  {
    var ts := Tickets(listeners[l].posts);
    assert ts == [ts[0]] + ts[1..] && Tickets(after.posts) == ts[1..];
    assert multiset(ts) == multiset{ts[0]} + multiset(ts[1..]);
  }

  // ---------------------------------------------------------------- adding jobs

  lemma Fresh(p: Pool, listener: nat)
    requires Inv(p)
    ensures var t := NextTicket(p.work, listener);
            && t !in p.work.jobs && Places(p.work, t) == 0 && !Marks(p.locks, t) && t !in p.log.ran
            && !Issued(p.work.listeners, t)
  {
    hide StateOk, ListenersOk, CounterOk, Places;
  }

  lemma RegisterPlaces(w: Work, listener: nat, job: Job, t: Ticket)
    requires w.listeners != []
    ensures Places(Register(w, listener, job), t) == Places(w, t)
  {}

  lemma RegisterListeners(w: Work, listener: nat, job: Job)
    requires w.listeners != [] && ListenersOk(w.jobs, w.listeners) && Places(w, NextTicket(w, listener)) == 0
    ensures ListenersOk(Register(w, listener, job).jobs, Register(w, listener, job).listeners)
  {
    var l := ListenerOf(w, listener);
    ListenersJob(w.jobs, w.listeners, NextTicket(w, listener), job);
  }

  lemma RegisterLog(w: Work, listener: nat, job: Job, log: Log)
    requires w.listeners != [] && LogOk(w, log)
    ensures LogOk(Register(w, listener, job), log)
  {}

  lemma OrdinaryAdds(jobs: map<Ticket, Job>, t: Ticket, job: Job)
    requires t !in jobs
    ensures |Ordinary(jobs[t := job])| == |Ordinary(jobs)| + if job.isLock then 0 else 1
  {
    assert Ordinary(jobs[t := job]) == Ordinary(jobs) + if job.isLock then {} else {t};
  }

  lemma OrdinaryDrops(jobs: map<Ticket, Job>, t: Ticket)
    requires t in jobs
    ensures |Ordinary(jobs - {t})| == |Ordinary(jobs)| - if jobs[t].isLock then 0 else 1
  {
    assert Ordinary(jobs - {t}) == Ordinary(jobs) - if jobs[t].isLock then {} else {t};
  }

  lemma OrdinarySame(jobs: map<Ticket, Job>, t: Ticket, job: Job)
    requires t in jobs && job.isLock == jobs[t].isLock
    ensures Ordinary(jobs[t := job]) == Ordinary(jobs)
  {}

  lemma QueuePlaces(w: Work, t: Ticket, u: Ticket)
    ensures Places(w.(queue := w.queue + [t]), u) == Places(w, u) + if u == t then 1 else 0
  {}

  lemma AddPlaces(w: Work, r: Request, locks: Locks)
    requires w.listeners != [] && PlaceOk(w, locks) && !Marks(locks, NextTicket(w, r.listener))
    requires Places(w, NextTicket(w, r.listener)) == 0
    ensures PlaceOk(AddJob(w, r), locks)
  {
    var t, job := NextTicket(w, r.listener), Job(false, r.work, Enabled, r.callback);
    hide Places, Marks;
    forall u ensures Places(AddJob(w, r), u) == if u in AddJob(w, r).jobs && !Marks(locks, u) then 1 else 0 {
      RegisterPlaces(w, r.listener, job, u);
      QueuePlaces(Register(w, r.listener, job), t, u);
      CounterAside(Register(w, r.listener, job).(queue := w.queue + [t]), w.counter + 1, u);
    }
  }

  lemma CounterAside(w: Work, counter: int, t: Ticket)
    ensures Places(w.(counter := counter), t) == Places(w, t)
  {}

  lemma LocksMore(jobs: map<Ticket, Job>, t: Ticket, job: Job, locks: Locks)
    requires LocksOk(jobs, locks) && (t in jobs ==> job.isLock == jobs[t].isLock)
    ensures LocksOk(jobs[t := job], locks)
  {}

  lemma AddState(w: Work, r: Request, ran: set<Ticket>)
    requires w.listeners != [] && StateOk(w, ran) && NextTicket(w, r.listener) !in ran
    requires Places(w, NextTicket(w, r.listener)) == 0
    ensures StateOk(AddJob(w, r), ran)
  {
    var t := NextTicket(w, r.listener);
    assert t !in multiset(w.running) && t !in multiset(w.queue);
  }

  lemma AddInv(p: Pool, r: Request)
    requires Inv(p)
    ensures Inv(p.(work := AddJob(p.work, r)))
  {
    hide PlaceOk, ListenersOk, LogOk, LocksOk, StateOk, Places, Ordinary;
    var t, job := NextTicket(p.work, r.listener), Job(false, r.work, Enabled, r.callback);
    Fresh(p, r.listener);
    AddPlaces(p.work, r, p.locks);
    LocksMore(p.work.jobs, t, job, p.locks);
    AddState(p.work, r, p.log.ran);
    RegisterListeners(p.work, r.listener, job);
    AddLog(p.work, r, p.log);
    OrdinaryAdds(p.work.jobs, t, job);
  }

  lemma AddLog(w: Work, r: Request, log: Log)
    requires w.listeners != [] && LogOk(w, log)
    ensures LogOk(AddJob(w, r), log)
  {
    RegisterLog(w, r.listener, Job(false, r.work, Enabled, r.callback), log);
  }

  /** The submission and queue records are read by no invariant here. */
  lemma RecordsAside(p: Pool, log: Log)
    requires Inv(p) && log.completed == p.log.completed && log.locksDone == p.log.locksDone
    requires log.erased == p.log.erased && log.ran == p.log.ran
    ensures Inv(p.(log := log))
  {
    hide PlaceOk, ListenersOk, LocksOk, StateOk;
  }

  // ---------------------------------------------------------------- locks

  lemma SameMarks(p: Pool, locks: Locks)
    requires Inv(p) && LocksOk(p.work.jobs, locks) && forall t :: Marks(locks, t) == Marks(p.locks, t)
    ensures Inv(p.(locks := locks))
  {
    hide ListenersOk, LocksOk, StateOk, LogOk, Places, Marks;
  }

  /** A held lock gets another pending list or is enforced. */
  lemma HeldInv(p: Pool, chunk: nat, data: LockData)
    requires Inv(p) && chunk in p.locks.held && data.ticket == p.locks.held[chunk].ticket
    requires !data.enforced ==> data.pending == []
    ensures Inv(p.(locks := p.locks.(held := p.locks.held[chunk := data])))
  {
    hide PlaceOk, ListenersOk, LogOk, LocksOk, StateOk, CounterOk, Marks;
    var locks := p.locks.(held := p.locks.held[chunk := data]);
    HeldLocks(p.work.jobs, p.locks, chunk, data);
    SameMarks(p, locks);
  }

  lemma HeldLocks(jobs: map<Ticket, Job>, locks: Locks, chunk: nat, data: LockData)
    requires LocksOk(jobs, locks) && chunk in locks.held && data.ticket == locks.held[chunk].ticket
    requires !data.enforced ==> data.pending == []
    ensures LocksOk(jobs, locks.(held := locks.held[chunk := data]))
    ensures forall t :: Marks(locks.(held := locks.held[chunk := data]), t) == Marks(locks, t)
  {
    var locks' := locks.(held := locks.held[chunk := data]);
    forall c | c in locks.held ensures locks'.held[c].ticket == locks.held[c].ticket {}
  }

  lemma StartInv(p: Pool, chunk: nat, listener: nat, callback: nat)
    requires Inv(p)
    ensures Inv(StartLock(p, chunk, listener, callback))
  {
    hide PlaceOk, ListenersOk, LogOk, LocksOk, StateOk, Places, Ordinary, Marks;
    if chunk !in p.locks.held {
      var t, job := NextTicket(p.work, listener), Job(true, 0, Enabled, callback);
      Fresh(p, listener);
      StartLocks(p.work.jobs, p.locks, chunk, t, job);
      StartPlaces(p.work, p.locks, listener, chunk, job);
      StartState(p.work, listener, job, p.log.ran);
      RegisterListeners(p.work, listener, job);
      RegisterLog(p.work, listener, job, p.log);
      OrdinaryAdds(p.work.jobs, t, job);
    }
  }

  lemma StartLocks(jobs: map<Ticket, Job>, locks: Locks, chunk: nat, t: Ticket, job: Job)
    requires LocksOk(jobs, locks) && t !in jobs && job.isLock && chunk !in locks.held
    ensures LocksOk(jobs[t := job], locks.(held := locks.held[chunk := LockData(t, false, [])]))
  {}

  lemma StartPlaces(w: Work, locks: Locks, listener: nat, chunk: nat, job: Job)
    requires w.listeners != [] && PlaceOk(w, locks) && chunk !in locks.held && Places(w, NextTicket(w, listener)) == 0
    ensures PlaceOk(Register(w, listener, job), locks.(held := locks.held[chunk := LockData(NextTicket(w, listener), false, [])]))
  {
    var t := NextTicket(w, listener);
    var locks' := locks.(held := locks.held[chunk := LockData(t, false, [])]);
    hide Places;
    forall u ensures Places(Register(w, listener, job), u) ==
                     if u in Register(w, listener, job).jobs && !Marks(locks', u) then 1 else 0
    {
      RegisterPlaces(w, listener, job, u);
      MarksMore(locks, chunk, t, u);
    }
  }

  lemma MarksMore(locks: Locks, chunk: nat, t: Ticket, u: Ticket)
    requires chunk !in locks.held
    ensures Marks(locks.(held := locks.held[chunk := LockData(t, false, [])]), u) <==> (u == t || Marks(locks, u))
  {
    var locks' := locks.(held := locks.held[chunk := LockData(t, false, [])]);
    assert locks'.held[chunk].ticket == t;
    forall c | c in locks.held ensures c in locks'.held && locks'.held[c] == locks.held[c] {}
  }

  lemma StartState(w: Work, listener: nat, job: Job, ran: set<Ticket>)
    requires w.listeners != [] && StateOk(w, ran) && job.state == Enabled && NextTicket(w, listener) !in ran
    requires Places(w, NextTicket(w, listener)) == 0
    ensures StateOk(Register(w, listener, job), ran)
  {
    var t := NextTicket(w, listener);
    assert t !in multiset(w.running) && t !in multiset(w.queue);
  }

  lemma ReleaseInv(p: Pool, chunk: nat, status: Option<Status>)
    requires Inv(p)
    ensures Inv(ReleaseLock(p, chunk, status))
  {
    hide PlaceOk, ListenersOk, LogOk, LocksOk, StateOk, CounterOk, Marks;
    if chunk in p.locks.held {
      var locks := ReleaseLock(p, chunk, status).locks;
      ReleaseLocks(p.work.jobs, p.locks, chunk, status);
      forall t ensures Marks(locks, t) == Marks(p.locks, t) { ReleaseMarks(p.locks, chunk, status, t); }
      SameMarks(p, locks);
    }
  }

  lemma ReleaseLocks(jobs: map<Ticket, Job>, locks: Locks, chunk: nat, status: Option<Status>)
    requires LocksOk(jobs, locks) && chunk in locks.held
    ensures var lock := locks.held[chunk];
            LocksOk(jobs, Locks(locks.held - {chunk}, locks.releases + [Release(chunk, lock.ticket, lock.pending, status)]))
  {}

  lemma ReleaseMarks(locks: Locks, chunk: nat, status: Option<Status>, t: Ticket)
    requires chunk in locks.held
    ensures var lock := locks.held[chunk];
            Marks(Locks(locks.held - {chunk}, locks.releases + [Release(chunk, lock.ticket, lock.pending, status)]), t)
            == Marks(locks, t)
  {
    var lock := locks.held[chunk];
    var locks' := Locks(locks.held - {chunk}, locks.releases + [Release(chunk, lock.ticket, lock.pending, status)]);
    var n := |locks.releases|;
    assert locks'.releases[n].ticket == lock.ticket;
    forall i | 0 <= i < n ensures locks'.releases[i] == locks.releases[i] {}
    forall c | c in locks'.held ensures locks'.held[c] == locks.held[c] {}
    forall c | c in locks.held && c != chunk ensures c in locks'.held {}
  }

  // ---------------------------------------------------------------- the release goes on

  /** The i-th release without its first deferred job. */
  lemma AddedInv(p: Pool, i: nat)
    requires Inv(p) && i < |p.locks.releases| && p.locks.releases[i].todo != []
    ensures Inv(GoOn(p, i))
  {
    hide PlaceOk, ListenersOk, LogOk, LocksOk, StateOk, CounterOk, Marks;
    var r := p.locks.releases[i];
    var p1 := p.(locks := p.locks.(releases := p.locks.releases[i := r.(todo := r.todo[1..])]));
    TodoLocks(p.work.jobs, p.locks, i, r.(todo := r.todo[1..]));
    SameMarks(p, p1.locks);
    AddInv(p1, r.todo[0]);
    RecordsAside(p1.(work := AddJob(p.work, r.todo[0])), GoOn(p, i).log);
  }

  lemma TodoLocks(jobs: map<Ticket, Job>, locks: Locks, i: nat, r: Release)
    requires LocksOk(jobs, locks) && i < |locks.releases| && r.ticket == locks.releases[i].ticket
    ensures LocksOk(jobs, locks.(releases := locks.releases[i := r]))
    ensures forall t :: Marks(locks.(releases := locks.releases[i := r]), t) == Marks(locks, t)
  {
    var locks' := locks.(releases := locks.releases[i := r]);
    forall j | 0 <= j < |locks.releases| ensures locks'.releases[j].ticket == locks.releases[j].ticket {}
  }

  function Done(locks: Locks, i: nat): Locks
    requires i < |locks.releases|
  {
    locks.(releases := locks.releases[..i] + locks.releases[i + 1..])
  }

  lemma DoneLocks(jobs: map<Ticket, Job>, locks: Locks, i: nat)
    requires LocksOk(jobs, locks) && i < |locks.releases|
    ensures LocksOk(jobs, Done(locks, i))
  {
    var rs, rs' := locks.releases, Done(locks, i).releases;
    assert forall j :: 0 <= j < |rs'| ==> rs'[j] == rs[if j < i then j else j + 1];
  }

  lemma DoneMarks(jobs: map<Ticket, Job>, locks: Locks, i: nat, t: Ticket)
    requires LocksOk(jobs, locks) && i < |locks.releases|
    ensures Marks(Done(locks, i), t) <==> Marks(locks, t) && t != locks.releases[i].ticket
  {
    var rs, rs' := locks.releases, Done(locks, i).releases;
    assert forall k :: 0 <= k < |rs'| ==> rs'[k] == rs[if k < i then k else k + 1];
    if c: nat :| c in locks.held && locks.held[c].ticket == t {
      assert locks.held[c].ticket != rs[i].ticket;
    } else if Marks(locks, t) {
      var j :| 0 <= j < |rs| && rs[j].ticket == t;
      if j != i { assert rs'[if j < i then j else j - 1] == rs[j]; }
    }
  }

  lemma SentPlaces(w: Work, t: Ticket, status: Status, u: Ticket)
    requires t.listener < |w.listeners|
    ensures Places(SendStatus(w, t, status), u) == Places(w, u) + if u == t then 1 else 0
  {
    PostedSent(w, t, status, u);
  }

  lemma SentLog(w: Work, t: Ticket, status: Status, log: Log)
    requires LogOk(w, log)
    ensures LogOk(SendStatus(w, t, status), log)
  {}

  lemma EndedInv(p: Pool, i: nat)
    requires Inv(p) && i < |p.locks.releases| && p.locks.releases[i].todo == [] && p.locks.releases[i].status.Some?
    ensures Inv(GoOn(p, i))
  {
    var r := p.locks.releases[i];
    var w' := SendStatus(p.work, r.ticket, r.status.value);
    assert r.ticket in p.work.jobs && p.work.jobs[r.ticket].isLock && r.ticket.listener < |p.work.listeners| && Marks(p.locks, r.ticket);
    hide PlaceOk, ListenersOk, LogOk, LocksOk, StateOk, Marks, Places;
    DoneLocks(p.work.jobs, p.locks, i);
    SentListeners(p.work, r.ticket, r.status.value);
    SentLog(p.work, r.ticket, r.status.value, p.log);
    EndedPlaces(p.work, p.locks, i);
    SentState(p.work, r.ticket, r.status.value, p.log.ran);
  }

  lemma SentState(w: Work, t: Ticket, status: Status, ran: set<Ticket>)
    requires StateOk(w, ran)
    ensures StateOk(SendStatus(w, t, status), ran)
  {}

  lemma EndedPlaces(w: Work, locks: Locks, i: nat)
    requires PlaceOk(w, locks) && LocksOk(w.jobs, locks) && i < |locks.releases| && locks.releases[i].status.Some?
    requires locks.releases[i].ticket.listener < |w.listeners|
    ensures PlaceOk(SendStatus(w, locks.releases[i].ticket, locks.releases[i].status.value), Done(locks, i))
  {
    var r := locks.releases[i];
    var w' := SendStatus(w, r.ticket, r.status.value);
    assert Marks(locks, r.ticket) && r.ticket in w.jobs;
    hide Marks, Places, LocksOk;
    forall u ensures Places(w', u) == if u in w'.jobs && !Marks(Done(locks, i), u) then 1 else 0 {
      SentPlaces(w, r.ticket, r.status.value, u);
      DoneMarks(w.jobs, locks, i, u);
    }
  }

  lemma ErasedInv(p: Pool, i: nat)
    requires Inv(p) && i < |p.locks.releases| && p.locks.releases[i].todo == [] && p.locks.releases[i].status.None?
    ensures Inv(GoOn(p, i))
  {
    var t := p.locks.releases[i].ticket;
    assert t in p.work.jobs && p.work.jobs[t].isLock && Marks(p.locks, t);
    hide PlaceOk, ListenersOk, LogOk, LocksOk, StateOk, Marks, Places;
    ErasedLocks(p.work.jobs, p.locks, i);
    ListenersLess(p.work.jobs, p.work.jobs - {t}, p.work.listeners);
    ErasedLog(p.work, p.log, t);
    OrdinaryDrops(p.work.jobs, t);
    ErasedPlaces(p.work, p.locks, i);
    ErasedState(p.work, t, p.log.ran);
  }

  lemma ErasedLocks(jobs: map<Ticket, Job>, locks: Locks, i: nat)
    requires LocksOk(jobs, locks) && i < |locks.releases|
    ensures LocksOk(jobs - {locks.releases[i].ticket}, Done(locks, i))
  {
    var rs, rs' := locks.releases, Done(locks, i).releases;
    assert forall j :: 0 <= j < |rs'| ==> rs'[j] == rs[if j < i then j else j + 1];
  }

  lemma ErasedState(w: Work, t: Ticket, ran: set<Ticket>)
    requires StateOk(w, ran)
    ensures StateOk(w.(jobs := w.jobs - {t}), ran)
  {}

  lemma ErasedLog(w: Work, log: Log, t: Ticket)
    requires LogOk(w, log) && t in w.jobs
    ensures LogOk(w.(jobs := w.jobs - {t}), log.(erased := log.erased + [t]))
  {
    var ts := Tickets(log.completed) + log.erased;
    var ts' := Tickets(log.completed) + (log.erased + [t]);
    assert ts' == ts + [t];
    assert t !in ts;
  }

  lemma ErasedPlaces(w: Work, locks: Locks, i: nat)
    requires PlaceOk(w, locks) && LocksOk(w.jobs, locks) && i < |locks.releases|
    ensures PlaceOk(w.(jobs := w.jobs - {locks.releases[i].ticket}), Done(locks, i))
  {
    var t := locks.releases[i].ticket;
    assert Marks(locks, t);
    hide Marks, LocksOk;
    forall u ensures Places(w.(jobs := w.jobs - {t}), u) == if u in w.jobs - {t} && !Marks(Done(locks, i), u) then 1 else 0 {
      DoneMarks(w.jobs, locks, i, u);
      assert Places(w.(jobs := w.jobs - {t}), u) == Places(w, u);
    }
  }

  lemma GoOnInv(p: Pool, i: nat)
    requires Inv(p) && i < |p.locks.releases|
    ensures Inv(GoOn(p, i))
  {
    hide Inv;
    var r := p.locks.releases[i];
    if r.todo != [] { AddedInv(p, i); } else if r.status.Some? { EndedInv(p, i); } else { ErasedInv(p, i); }
  }
}
