/** Which status each job is answered with: in every run the statuses posted, completed or about to
    be posted are those the events gave, each to its own job and once. */
module JobPoolAnswers {
  import opened ChunkTypes
  import opened JobPools
  import opened JobPoolInv
  import opened JobPoolRuns
  import opened JobPoolTheorems

  /** The status an event gives to a job: the end of a lock to its lock job, the end of the work to
      the job at work, and NOTDONE to a disabled job a worker comes to. */
  function Gives(p: Pool, e: Event): seq<Post> {
    match e
    case LockEnds(chunk, status) => if chunk in p.locks.held then [Post(p.locks.held[chunk].ticket, status)] else []
    case WorkerEnds(i, status) => if i < |p.work.running| then [Post(p.work.running[i], status)] else []
    case WorkerTakes =>
      if p.work.queue != [] && p.work.queue[0] in p.work.jobs && p.work.jobs[p.work.queue[0]].state == Disabled
      then [Post(p.work.queue[0], ERROR_NOTDONE)] else []
    case _ => []
  }

  /** The statuses the events of a run gave, in their order. */
  function Given(listeners: nat, events: seq<Event>): seq<Post>
    requires listeners > 0
  {
    if events == [] then []
    else
      var n := |events| - 1;
      var p := Reach(listeners, events[..n]);
      Given(listeners, events[..n]) + if MayHappen(p, events[n]) then Gives(p, events[n]) else []
  }

  /** How often a status occurs in a list, in the status queues of the listeners, and among the ended
      locks whose deferred jobs are still being added. */
  function Times(posts: seq<Post>, x: Post): nat { multiset(posts)[x] }

  function Queued(listeners: seq<Listener>, x: Post): nat {
    if listeners == [] then 0
    else Queued(listeners[..|listeners| - 1], x) + Times(listeners[|listeners| - 1].posts, x)
  }

  function EndOf(r: Release, x: Post): nat { if r.status.Some? && Post(r.ticket, r.status.value) == x then 1 else 0 }

  function Ending(releases: seq<Release>, x: Post): nat {
    if releases == [] then 0
    else Ending(releases[..|releases| - 1], x) + EndOf(releases[|releases| - 1], x)
  }

  function Answers(p: Pool, x: Post): nat { Queued(p.work.listeners, x) + Ending(p.locks.releases, x) + Times(p.log.completed, x) }

  lemma TimesConcat(xs: seq<Post>, ys: seq<Post>, x: Post)
    ensures Times(xs + ys, x) == Times(xs, x) + Times(ys, x)
  {}

  lemma TimesOne(y: Post, x: Post)
    ensures Times([y], x) == (if x == y then 1 else 0) && Times([], x) == 0
  {}

  // ---------------------------------------------------------------- status queues

  lemma {:induction false} QueuedUpdate(listeners: seq<Listener>, l: nat, now: Listener, x: Post)
    requires l < |listeners|
    ensures Queued(listeners[l := now], x) == Queued(listeners, x) - Times(listeners[l].posts, x) + Times(now.posts, x)
  {
    hide Times;
    var n := |listeners| - 1;
    if l < n {
      assert listeners[l := now][..n] == listeners[..n][l := now];
      QueuedUpdate(listeners[..n], l, now, x);
    } else {
      assert listeners[l := now][..n] == listeners[..n];
    }
  }

  lemma SentQueued(w: Work, t: Ticket, status: Status, x: Post)
    requires t.listener < |w.listeners|
    ensures Queued(SendStatus(w, t, status).listeners, x) == Queued(w.listeners, x) + Times([Post(t, status)], x)
  {
    hide Queued, Times;
    var l := w.listeners[t.listener];
    TimesConcat(l.posts, [Post(t, status)], x);
    QueuedUpdate(w.listeners, t.listener, SendStatus(w, t, status).listeners[t.listener], x);
  }

  lemma AddedQueued(w: Work, r: Request, x: Post)
    requires w.listeners != []
    ensures Queued(AddJob(w, r).listeners, x) == Queued(w.listeners, x)
  {
    hide Queued, Times;
    var l := ListenerOf(w, r.listener);
    QueuedUpdate(w.listeners, l, w.listeners[l].(next := w.listeners[l].next + 1), x);
  }

  lemma ReceivedQueued(w: Work, l: nat, x: Post)
    requires l < |w.listeners| && w.listeners[l].posts != []
    ensures Queued(Receive(w, l).listeners, x) == Queued(w.listeners, x) - Times([w.listeners[l].posts[0]], x)
  {
    hide Queued, Times;
    var posts := w.listeners[l].posts;
    assert posts == [posts[0]] + posts[1..];
    TimesConcat([posts[0]], posts[1..], x);
    QueuedUpdate(w.listeners, l, Receive(w, l).listeners[l], x);
  }

  lemma {:induction false} NothingQueued(listeners: seq<Listener>, x: Post)
    requires forall l <- listeners :: l.posts == []
    ensures Queued(listeners, x) == 0
  {
    if listeners != [] { NothingQueued(listeners[..|listeners| - 1], x); }
  }

  // ---------------------------------------------------------------- releases

  lemma EndingSnoc(releases: seq<Release>, r: Release, x: Post)
    ensures Ending(releases + [r], x) == Ending(releases, x) + EndOf(r, x)
  {
    assert (releases + [r])[..|releases|] == releases;
  }

  lemma {:induction false} EndingUpdate(releases: seq<Release>, i: nat, r: Release, x: Post)
    requires i < |releases| && EndOf(r, x) == EndOf(releases[i], x)
    ensures Ending(releases[i := r], x) == Ending(releases, x)
  {
    hide EndOf;
    var n := |releases| - 1;
    if i < n {
      assert releases[i := r][..n] == releases[..n][i := r];
      EndingUpdate(releases[..n], i, r, x);
    } else {
      assert releases[i := r][..n] == releases[..n];
    }
  }

  lemma {:induction false} EndingWithout(releases: seq<Release>, i: nat, x: Post)
    requires i < |releases|
    ensures Ending(releases[..i] + releases[i + 1..], x) == Ending(releases, x) - EndOf(releases[i], x)
  {
    hide EndOf;
    var n := |releases| - 1;
    var rest := releases[..i] + releases[i + 1..];
    if i < n {
      assert rest[..n - 1] == releases[..n][..i] + releases[..n][i + 1..] && rest[n - 1] == releases[n];
      EndingWithout(releases[..n], i, x);
    } else {
      assert rest == releases[..n];
    }
  }

  // ---------------------------------------------------------------- every step, every run

  lemma GoOnAnswers(p: Pool, i: nat, x: Post)
    requires Inv(p) && i < |p.locks.releases|
    ensures p.work.listeners != [] && Answers(GoOn(p, i), x) == Answers(p, x)
  {
    hide Inv, Queued, Ending, AddJob, SendStatus, Times;
    SomeListener(p);
    ReleasedKnown(p, i);
    var r := p.locks.releases[i];
    if r.todo != [] {
      AddedQueued(p.work, r.todo[0], x);
      EndingUpdate(p.locks.releases, i, r.(todo := r.todo[1..]), x);
    } else {
      EndingWithout(p.locks.releases, i, x);
      if r.status.Some? {
        SentQueued(p.work, r.ticket, r.status.value, x);
        TimesOne(Post(r.ticket, r.status.value), x);
      }
    }
  }

  lemma ReleasedKnown(p: Pool, i: nat)
    requires Inv(p) && i < |p.locks.releases|
    ensures p.locks.releases[i].ticket.listener < |p.work.listeners|
  {
    hide PlaceOk, StateOk, ListenersOk, CounterOk;
  }

  lemma TakenAnswers(p: Pool, x: Post)
    requires Inv(p) && MayHappen(p, WorkerTakes)
    ensures p.work.listeners != [] && Answers(Apply(p, WorkerTakes), x) == Answers(p, x) + Times(Gives(p, WorkerTakes), x)
  {
    hide Queued, Ending, SendStatus, Times, PlaceOk, StateOk, ListenersOk, LogOk, CounterOk, LocksOk;
    var t := p.work.queue[0];
    KnownListener(p.work, p.log, t);
    SentQueued(p.work.(queue := p.work.queue[1..]), t, ERROR_NOTDONE, x);
    TimesOne(Post(t, ERROR_NOTDONE), x);
    SentLeaves(p.work.(queue := p.work.queue[1..]), t, ERROR_NOTDONE);
  }

  lemma SentLeaves(w: Work, t: Ticket, status: Status)
    ensures SendStatus(w, t, status) == w.(listeners := SendStatus(w, t, status).listeners)
  {}

  lemma EndedAnswers(p: Pool, i: nat, status: Status, x: Post)
    requires Inv(p) && i < |p.work.running|
    ensures p.work.listeners != []
    ensures Answers(Apply(p, WorkerEnds(i, status)), x) == Answers(p, x) + Times(Gives(p, WorkerEnds(i, status)), x)
  {
    hide Queued, Ending, SendStatus, Times, PlaceOk, StateOk, ListenersOk, LogOk, CounterOk, LocksOk;
    var t := p.work.running[i];
    RunningJob(p.work, p.locks, p.log.ran, i);
    KnownListener(p.work, p.log, t);
    SentQueued(p.work.(running := p.work.running[..i] + p.work.running[i + 1..]), t, status, x);
  }

  lemma ReceivedAnswers(p: Pool, l: nat, x: Post)
    requires Inv(p) && MayHappen(p, StatusReceived(l))
    ensures p.work.listeners != [] && Answers(Apply(p, StatusReceived(l)), x) == Answers(p, x)
  {
    hide Queued, Ending, Times, Receive, PlaceOk, StateOk, ListenersOk, LogOk, CounterOk, LocksOk;
    FirstPost(p.work, l);
    ReceivePlaces(p.work, p.locks, l);
    ReceivedQueued(p.work, l, x);
    TimesConcat(p.log.completed, [p.work.listeners[l].posts[0]], x);
  }

  lemma LockAnswers(p: Pool, chunk: nat, status: Option<Status>, x: Post)
    ensures Answers(ReleaseLock(p, chunk, status), x) == Answers(p, x) +
            if chunk in p.locks.held && status == Some(x.status) && p.locks.held[chunk].ticket == x.ticket then 1 else 0
  {
    hide Queued, Ending, Times;
    if chunk in p.locks.held {
      var lock := p.locks.held[chunk];
      EndingSnoc(p.locks.releases, Release(chunk, lock.ticket, lock.pending, status), x);
    }
  }

  /** A step adds to the answers what it gives. */
  lemma StepAnswers(p: Pool, e: Event, x: Post)
    requires Inv(p) && MayHappen(p, e)
    ensures p.work.listeners != [] && Answers(Apply(p, e), x) == Answers(p, x) + Times(Gives(p, e), x)
  {
    hide Inv, Queued, Ending, AddJob, SendStatus, Receive, Times, ReleaseLock, GoOn, Take, Finish;
    SomeListener(p);
    TimesOne(x, x);
    match e
    case Adds(r) => AddedQueued(p.work, r, x);
    case AddsChecked(i) => AddedQueued(p.work, p.transit[i].r, x);
    case LockStarts(chunk, listener, callback) =>
      var l := ListenerOf(p.work, listener);
      QueuedUpdate(p.work.listeners, l, p.work.listeners[l].(next := p.work.listeners[l].next + 1), x);
    case LockEnds(chunk, status) =>
      LockAnswers(p, chunk, Some(status), x);
      if chunk in p.locks.held { TimesOne(Post(p.locks.held[chunk].ticket, status), x); }
    case LockErased(chunk) => LockAnswers(p, chunk, None, x);
    case ReleaseGoesOn(i) => GoOnAnswers(p, i, x);
    case WorkerTakes => TakenAnswers(p, x);
    case WorkerEnds(i, status) => EndedAnswers(p, i, status, x);
    case DrainStarts(l) => QueuedUpdate(p.work.listeners, l, p.work.listeners[l].(draining := true), x);
    case StatusReceived(l) => ReceivedAnswers(p, l, x);
    case _ =>
  }

  /** Conservation of statuses: what waits in the status queues, is completed, or will be posted when
      the deferred jobs of its lock are added, is exactly what the events gave. */
  lemma {:induction false} AnswersAreGiven(listeners: nat, events: seq<Event>, x: Post)
    requires listeners > 0
    ensures Answers(Reach(listeners, events), x) == multiset(Given(listeners, events))[x]
  {
    if events == [] {
      NothingQueued(Blank(listeners).work.listeners, x);
    } else {
      var n := |events| - 1;
      hide Apply, MayHappen, Inv, Answers, Gives;
      AnswersAreGiven(listeners, events[..n], x);
      ReachInv(listeners, events[..n]);
      if MayHappen(Reach(listeners, events[..n]), events[n]) {
        StepAnswers(Reach(listeners, events[..n]), events[n], x);
        TimesConcat(Given(listeners, events[..n]), Gives(Reach(listeners, events[..n]), events[n]), x);
      }
    }
  }

  // ---------------------------------------------------------------- what each job is

  /** What a job was added as. */
  datatype Name = Name(isLock: bool, work: nat, callback: nat)

  /** The ticket of the next job: the next number of its listener, or of the first one. */
  function TicketFor(ls: seq<Listener>, listener: nat): Ticket
    requires ls != []
  {
    if listener < |ls| then Ticket(listener, ls[listener].next) else Ticket(0, ls[0].next)
  }

  /** What an event makes known of a job. */
  function Named(p: Pool, e: Event, m: map<Ticket, Name>): map<Ticket, Name>
    requires MayHappen(p, e) && p.work.listeners != []
  {
    var ls := p.work.listeners;
    match e
    case Adds(r) => m[TicketFor(ls, r.listener) := Name(false, r.work, r.callback)]
    case AddsChecked(i) => var r := p.transit[i].r; m[TicketFor(ls, r.listener) := Name(false, r.work, r.callback)]
    case ReleaseGoesOn(i) =>
      if p.locks.releases[i].todo == [] then m
      else var r := p.locks.releases[i].todo[0]; m[TicketFor(ls, r.listener) := Name(false, r.work, r.callback)]
    case LockStarts(chunk, listener, callback) =>
      if chunk in p.locks.held then m else m[TicketFor(ls, listener) := Name(true, 0, callback)]
    case CallbackChanges(t, callback) => if t in p.work.jobs && t in m then m[t := m[t].(callback := callback)] else m
    case _ => m
  }

  function Names(listeners: nat, events: seq<Event>): map<Ticket, Name>
    requires listeners > 0
  {
    if events == [] then map[]
    else
      var n := |events| - 1;
      var p := Reach(listeners, events[..n]);
      if MayHappen(p, events[n]) then Named(p, events[n], Names(listeners, events[..n])) else Names(listeners, events[..n])
  }

  /** Every job is what it was added as, with the callback set last; no lock job reaches a worker. */
  ghost predicate NamesOk(w: Work, m: map<Ticket, Name>) {
    && (forall t :: t in w.jobs ==> t in m && m[t] == Name(w.jobs[t].isLock, w.jobs[t].work, w.jobs[t].callback))
    && (forall t :: t in m ==> Issued(w.listeners, t))
    && (forall t <- w.queue :: t in m && !m[t].isLock)
    && (forall t <- w.running :: t in m && !m[t].isLock)
  }

  lemma AddNames(w: Work, r: Request, m: map<Ticket, Name>)
    requires w.listeners != [] && NamesOk(w, m) && !Issued(w.listeners, NextTicket(w, r.listener))
    ensures NamesOk(AddJob(w, r), m[TicketFor(w.listeners, r.listener) := Name(false, r.work, r.callback)])
  {
    assert TicketFor(w.listeners, r.listener) == NextTicket(w, r.listener);
  }

  lemma StartNames(w: Work, listener: nat, callback: nat, m: map<Ticket, Name>)
    requires w.listeners != [] && NamesOk(w, m) && !Issued(w.listeners, NextTicket(w, listener))
    ensures NamesOk(Register(w, listener, Job(true, 0, Enabled, callback)), m[TicketFor(w.listeners, listener) := Name(true, 0, callback)])
  {
    assert TicketFor(w.listeners, listener) == NextTicket(w, listener);
  }

  lemma SendNames(w: Work, t: Ticket, status: Status, m: map<Ticket, Name>)
    requires NamesOk(w, m)
    ensures NamesOk(SendStatus(w, t, status), m)
  {}

  lemma TakeNames(w: Work, m: map<Ticket, Name>)
    requires NamesOk(w, m) && w.queue != [] && w.queue[0] in w.jobs
    ensures NamesOk(Take(w), m)
  {
    var w1 := w.(queue := w.queue[1..]);
    assert NamesOk(w1, m);
    hide SendStatus;
    SendNames(w1, w.queue[0], ERROR_NOTDONE, m);
  }

  lemma FinishNames(w: Work, i: nat, status: Status, m: map<Ticket, Name>)
    requires NamesOk(w, m) && i < |w.running|
    ensures NamesOk(Finish(w, i, status), m)
  {
    var w1 := w.(running := w.running[..i] + w.running[i + 1..]);
    assert forall t <- w1.running :: t in w.running;
    assert NamesOk(w1, m);
    hide SendStatus;
    SendNames(w1, w.running[i], status, m);
  }

  lemma ReceiveNames(w: Work, l: nat, m: map<Ticket, Name>)
    requires NamesOk(w, m) && l < |w.listeners| && w.listeners[l].posts != []
    ensures NamesOk(Receive(w, l), m)
  {}

  lemma GoOnNames(p: Pool, i: nat, m: map<Ticket, Name>)
    requires p.work.listeners != [] && i < |p.locks.releases| && NamesOk(p.work, m)
    requires var todo := p.locks.releases[i].todo; todo != [] ==> !Issued(p.work.listeners, NextTicket(p.work, todo[0].listener))
    ensures NamesOk(GoOn(p, i).work, Named(p, ReleaseGoesOn(i), m))
  {
    hide AddJob, SendStatus, NextTicket, TicketFor;
    var r := p.locks.releases[i];
    if r.todo != [] {
      AddNames(p.work, r.todo[0], m);
    } else if r.status.Some? {
      SendNames(p.work, r.ticket, r.status.value, m);
    }
  }

  lemma ChangeNames(w: Work, t: Ticket, callback: nat, m: map<Ticket, Name>)
    requires NamesOk(w, m)
    ensures NamesOk(ChangeCallback(w, t, callback), if t in w.jobs && t in m then m[t := m[t].(callback := callback)] else m)
    ensures NamesOk(Disable(w, t), m)
  {}

  lemma StepNames(p: Pool, e: Event, m: map<Ticket, Name>)
    requires Inv(p) && NamesOk(p.work, m) && MayHappen(p, e)
    ensures p.work.listeners != [] && NamesOk(Apply(p, e).work, Named(p, e, m))
  {
    hide Inv, NamesOk, AddJob, Register, SendStatus, GoOn, Take, Finish, Receive, ChangeCallback, Disable, NextTicket, TicketFor;
    SomeListener(p);
    match e
    case Adds(r) =>
      Fresh(p, r.listener);
      AddNames(p.work, r, m);
    case AddsChecked(i) =>
      Fresh(p, p.transit[i].r.listener);
      AddNames(p.work, p.transit[i].r, m);
    case LockStarts(chunk, listener, callback) =>
      Fresh(p, listener);
      StartNames(p.work, listener, callback, m);
    case ReleaseGoesOn(i) =>
      if p.locks.releases[i].todo != [] { Fresh(p, p.locks.releases[i].todo[0].listener); }
      GoOnNames(p, i, m);
    case Disables(t) => ChangeNames(p.work, t, 0, m);
    case CallbackChanges(t, callback) => ChangeNames(p.work, t, callback, m);
    case WorkerTakes => TakeNames(p.work, m);
    case WorkerEnds(i, status) => FinishNames(p.work, i, status, m);
    case DrainStarts(l) => DrainNames(p.work, l, m);
    case StatusReceived(l) => ReceiveNames(p.work, l, m);
    case _ =>
  }

  lemma DrainNames(w: Work, l: nat, m: map<Ticket, Name>)
    requires NamesOk(w, m) && l < |w.listeners|
    ensures NamesOk(w.(listeners := w.listeners[l := w.listeners[l].(draining := true)]), m)
  {}

  lemma {:induction false} JobsAsNamed(listeners: nat, events: seq<Event>)
    requires listeners > 0
    ensures NamesOk(Reach(listeners, events).work, Names(listeners, events))
  {
    if events != [] {
      var n := |events| - 1;
      hide Apply, MayHappen, Inv, NamesOk, Named;
      JobsAsNamed(listeners, events[..n]);
      ReachInv(listeners, events[..n]);
      if MayHappen(Reach(listeners, events[..n]), events[n]) {
        StepNames(Reach(listeners, events[..n]), events[n], Names(listeners, events[..n]));
      }
    }
  }

  /** A name is never given to another job. */
  lemma NameKept(p: Pool, e: Event, m: map<Ticket, Name>, t: Ticket)
    requires Inv(p) && NamesOk(p.work, m) && MayHappen(p, e) && t in m
    ensures p.work.listeners != [] && t in Named(p, e, m) && Named(p, e, m)[t].isLock == m[t].isLock
  {
    hide Inv, NextTicket;
    SomeListener(p);
    forall l: nat ensures TicketFor(p.work.listeners, l) != t {
      Fresh(p, l);
      NextIs(p.work, l);
    }
  }

  lemma NextIs(w: Work, l: nat)
    requires w.listeners != []
    ensures NextTicket(w, l) == TicketFor(w.listeners, l)
  {}

  lemma {:induction false} NameStays(listeners: nat, events: seq<Event>, k: nat, t: Ticket)
    requires listeners > 0 && k <= |events| && t in Names(listeners, events[..k])
    ensures t in Names(listeners, events) && Names(listeners, events)[t].isLock == Names(listeners, events[..k])[t].isLock
  {
    hide Apply, MayHappen, Inv, NamesOk, Named, Reach;
    if k == |events| {
      assert events[..k] == events;
    } else {
      var n := |events| - 1;
      assert events[..n][..k] == events[..k];
      NameStays(listeners, events[..n], k, t);
      JobsAsNamed(listeners, events[..n]);
      ReachInv(listeners, events[..n]);
      if MayHappen(Reach(listeners, events[..n]), events[n]) {
        NameKept(Reach(listeners, events[..n]), events[n], Names(listeners, events[..n]), t);
      }
    }
  }

  // ---------------------------------------------------------------- the answer of a lock job

  lemma {:induction false} GivenBy(listeners: nat, events: seq<Event>, x: Post) returns (k: nat)
    requires listeners > 0 && x in Given(listeners, events)
    ensures k < |events| && MayHappen(Reach(listeners, events[..k]), events[k])
    ensures Gives(Reach(listeners, events[..k]), events[k]) == [x]
  {
    hide Apply, MayHappen, Reach;
    var n := |events| - 1;
    if x in Given(listeners, events[..n]) {
      k := GivenBy(listeners, events[..n], x);
      assert events[..n][..k] == events[..k];
    } else {
      k := n;
    }
  }

  /** A status is with its listener, or has been handed to its owner. */
  ghost predicate Delivered(p: Pool, x: Post) {
    x in p.log.completed || exists l :: 0 <= l < |p.work.listeners| && x in p.work.listeners[l].posts
  }

  lemma {:induction false} QueuedHas(listeners: seq<Listener>, l: nat, x: Post)
    requires l < |listeners| && x in listeners[l].posts
    ensures Queued(listeners, x) > 0
  {
    if l < |listeners| - 1 { QueuedHas(listeners[..|listeners| - 1], l, x); }
  }

  lemma DeliveredWasGiven(listeners: nat, events: seq<Event>, x: Post)
    requires listeners > 0 && Delivered(Reach(listeners, events), x)
    ensures x in Given(listeners, events)
  {
    hide Reach, Given;
    AnswersAreGiven(listeners, events, x);
    var p := Reach(listeners, events);
    if x !in p.log.completed {
      var l: nat :| l < |p.work.listeners| && x in p.work.listeners[l].posts;
      QueuedHas(p.work.listeners, l, x);
    }
  }

  /** In every run, the status a lock job is answered with is the one its lock was ended with. */
  lemma LockAnswered(listeners: nat, events: seq<Event>, x: Post) returns (k: nat)
    requires listeners > 0 && Delivered(Reach(listeners, events), x)
    requires x.ticket in Names(listeners, events) && Names(listeners, events)[x.ticket].isLock
    ensures k < |events| && events[k].LockEnds? && events[k].status == x.status
    ensures var p := Reach(listeners, events[..k]);
            events[k].chunk in p.locks.held && p.locks.held[events[k].chunk].ticket == x.ticket
  {
    hide Reach, Given, Names, Inv, Delivered;
    DeliveredWasGiven(listeners, events, x);
    k := GivenBy(listeners, events, x);
    JobsAsNamed(listeners, events[..k]);
    if !events[k].LockEnds? {
      WorkersAnswerJobs(Reach(listeners, events[..k]), events[k], Names(listeners, events[..k]), x);
      NameStays(listeners, events, k, x.ticket);
    }
  }

  lemma WorkersAnswerJobs(p: Pool, e: Event, m: map<Ticket, Name>, x: Post)
    requires NamesOk(p.work, m) && !e.LockEnds? && Gives(p, e) == [x]
    ensures x.ticket in m && !m[x.ticket].isLock
  {}

  // ---------------------------------------------------------------- one answer for each job

  /** The job an event answers is outstanding and is answered nowhere yet. */
  lemma GivesOutstanding(p: Pool, e: Event, x: Post)
    requires Inv(p) && MayHappen(p, e) && Gives(p, e) == [x]
    ensures x.ticket in p.work.jobs && Posted(p.work.listeners, x.ticket) == 0
    ensures forall i :: 0 <= i < |p.locks.releases| ==> p.locks.releases[i].ticket != x.ticket
  {
    hide ListenersOk, StateOk, LogOk, CounterOk, Tickets;
    var t := x.ticket;
    OnlyPlace(p.work, p.locks, t);
    InPlace(p.work, t);
    if e.LockEnds? {
      assert Marks(p.locks, t);
    } else {
      assert Places(p.work, t) == 1 && !Marks(p.locks, t);
    }
  }

  lemma {:induction false} NotQueued(jobs: map<Ticket, Job>, listeners: seq<Listener>, n: nat, x: Post)
    requires n <= |listeners| && ListenersOk(jobs, listeners) && Posted(listeners, x.ticket) == 0
    ensures Queued(listeners[..n], x) == 0
  {
    if n > 0 {
      assert listeners[..n][..n - 1] == listeners[..n - 1];
      NotQueued(jobs, listeners, n - 1, x);
      if x in listeners[n - 1].posts {
        var i: nat :| i < |listeners[n - 1].posts| && listeners[n - 1].posts[i] == x;
        assert PostOk(jobs, n - 1, listeners[n - 1].posts[i]);
        PostedMember(listeners, n - 1, i);
        assert false;
      }
    }
  }

  lemma {:induction false} NotEnding(releases: seq<Release>, x: Post)
    requires forall i :: 0 <= i < |releases| ==> releases[i].ticket != x.ticket
    ensures Ending(releases, x) == 0
  {
    if releases != [] { NotEnding(releases[..|releases| - 1], x); }
  }

  lemma NotCompletedYet(w: Work, log: Log, x: Post)
    requires LogOk(w, log) && x.ticket in w.jobs
    ensures Times(log.completed, x) == 0
  {
    forall i | 0 <= i < |log.completed| ensures log.completed[i] != x {
      assert Tickets(log.completed)[i] in Tickets(log.completed) + log.erased;
    }
  }

  lemma Unanswered(p: Pool, e: Event, x: Post, status: Status)
    requires Inv(p) && MayHappen(p, e) && Gives(p, e) == [x]
    ensures Answers(p, Post(x.ticket, status)) == 0
  {
    hide PlaceOk, ListenersOk, LogOk, LocksOk, StateOk, CounterOk, Queued, Ending, Times, Posted;
    var y, ls := Post(x.ticket, status), p.work.listeners;
    GivesOutstanding(p, e, x);
    NotQueued(p.work.jobs, ls, |ls|, y);
    assert ls[..|ls|] == ls;
    NotEnding(p.locks.releases, y);
    NotCompletedYet(p.work, p.log, y);
  }

  lemma GivesOne(p: Pool, e: Event)
    ensures Gives(p, e) == [] || exists x :: Gives(p, e) == [x]
  {
    hide MayHappen;
    if Gives(p, e) != [] { assert Gives(p, e) == [Gives(p, e)[0]]; }
  }

  lemma NewlyGiven(listeners: nat, events: seq<Event>, e: Event, x: Post)
    requires listeners > 0
    requires MayHappen(Reach(listeners, events), e) && Gives(Reach(listeners, events), e) == [x]
    ensures forall y <- Given(listeners, events) :: y.ticket != x.ticket
  {
    hide MayHappen, Inv, Gives, Reach, Given, Answers;
    ReachInv(listeners, events);
    forall y | y in Given(listeners, events) ensures y.ticket != x.ticket {
      AnswersAreGiven(listeners, events, y);
      if y.ticket == x.ticket { Unanswered(Reach(listeners, events), e, x, y.status); }
    }
  }

  ghost predicate OneEach(posts: seq<Post>) { forall i, j :: 0 <= i < j < |posts| ==> posts[i].ticket != posts[j].ticket }

  lemma OneMore(posts: seq<Post>, x: Post)
    requires OneEach(posts) && forall y <- posts :: y.ticket != x.ticket
    ensures OneEach(posts + [x])
  {}

  /** In every run each job is answered at most once. */
  lemma {:induction false} AnsweredOnce(listeners: nat, events: seq<Event>)
    requires listeners > 0
    ensures OneEach(Given(listeners, events))
  {
    hide Apply, MayHappen, Gives, Reach;
    if events != [] {
      var n := |events| - 1;
      var p, e, g := Reach(listeners, events[..n]), events[n], Given(listeners, events[..n]);
      AnsweredOnce(listeners, events[..n]);
      GivesOne(p, e);
      if MayHappen(p, e) && Gives(p, e) != [] {
        var x :| Gives(p, e) == [x];
        NewlyGiven(listeners, events[..n], e, x);
        OneMore(g, x);
      } else {
        assert Given(listeners, events) == g;
      }
    }
  }

  // ---------------------------------------------------------------- the worker queue

  /** The job an event puts into the worker queue. */
  function Puts(p: Pool, e: Event): seq<Ticket>
    requires MayHappen(p, e) && p.work.listeners != []
  {
    match e
    case Adds(r) => [TicketFor(p.work.listeners, r.listener)]
    case AddsChecked(i) => [TicketFor(p.work.listeners, p.transit[i].r.listener)]
    case ReleaseGoesOn(i) =>
      var todo := p.locks.releases[i].todo;
      if todo == [] then [] else [TicketFor(p.work.listeners, todo[0].listener)]
    case _ => []
  }

  /** The jobs put into the queue in a run, and those workers took from it. */
  function AllPut(listeners: nat, events: seq<Event>): seq<Ticket>
    requires listeners > 0
  {
    if events == [] then []
    else
      var n := |events| - 1;
      var p := Reach(listeners, events[..n]);
      AllPut(listeners, events[..n]) + if MayHappen(p, events[n]) then Puts(p, events[n]) else []
  }

  function AllTaken(listeners: nat, events: seq<Event>): seq<Ticket>
    requires listeners > 0
  {
    if events == [] then []
    else
      var n := |events| - 1;
      var p := Reach(listeners, events[..n]);
      AllTaken(listeners, events[..n]) + if MayHappen(p, events[n]) && events[n].WorkerTakes? then [p.work.queue[0]] else []
  }

  lemma AddPuts(w: Work, r: Request)
    requires w.listeners != []
    ensures AddJob(w, r).queue == w.queue + [TicketFor(w.listeners, r.listener)]
  {}

  lemma SendPuts(w: Work, t: Ticket, status: Status)
    ensures SendStatus(w, t, status).queue == w.queue
  {}

  lemma StepQueue(p: Pool, e: Event)
    requires p.work.listeners != [] && MayHappen(p, e)
    ensures var q := Apply(p, e).work.queue;
            if e.WorkerTakes? then p.work.queue == [p.work.queue[0]] + q && Puts(p, e) == [] else q == p.work.queue + Puts(p, e)
  {
    hide AddJob, SendStatus, TicketFor, Register;
    match e
    case Adds(r) => AddPuts(p.work, r);
    case AddsChecked(i) => AddPuts(p.work, p.transit[i].r);
    case ReleaseGoesOn(i) =>
      var r := p.locks.releases[i];
      if r.todo != [] { AddPuts(p.work, r.todo[0]); } else if r.status.Some? { SendPuts(p.work, r.ticket, r.status.value); }
    case LockStarts(chunk, listener, callback) => RegisterPuts(p.work, listener, Job(true, 0, Enabled, callback));
    case WorkerTakes => SendPuts(p.work.(queue := p.work.queue[1..]), p.work.queue[0], ERROR_NOTDONE);
    case WorkerEnds(i, status) =>
      SendPuts(p.work.(running := p.work.running[..i] + p.work.running[i + 1..]), p.work.running[i], status);
    case _ =>
  }

  lemma RegisterPuts(w: Work, listener: nat, job: Job)
    requires w.listeners != []
    ensures Register(w, listener, job).queue == w.queue
  {}

  /** In every run workers take the jobs in the order in which they were put into the queue. */
  lemma {:induction false} FirstInFirstOut(listeners: nat, events: seq<Event>)
    requires listeners > 0
    ensures AllPut(listeners, events) == AllTaken(listeners, events) + Reach(listeners, events).work.queue
  {
    hide Apply, MayHappen, Puts, Reach;
    if events == [] {
      NothingPut(listeners);
    } else {
      var n := |events| - 1;
      var p, taken := Reach(listeners, events[..n]), AllTaken(listeners, events[..n]);
      FirstInFirstOut(listeners, events[..n]);
      ReachSnoc(listeners, events);
      if MayHappen(p, events[n]) {
        StepQueue(p, events[n]);
        if events[n].WorkerTakes? {
          Moves(AllPut(listeners, events[..n]), taken, p.work.queue[0], Reach(listeners, events).work.queue);
        } else {
          Grows(AllPut(listeners, events[..n]), taken, p.work.queue, Puts(p, events[n]));
        }
      } else {
        Grows(AllPut(listeners, events[..n]), taken, p.work.queue, []);
      }
    }
  }

  lemma NothingPut(listeners: nat)
    requires listeners > 0
    ensures Reach(listeners, []).work.queue == []
  {}

  lemma ReachSnoc(listeners: nat, events: seq<Event>)
    requires listeners > 0 && events != []
    ensures var n := |events| - 1;
            var p := Reach(listeners, events[..n]);
            p.work.listeners != [] && Reach(listeners, events) == if MayHappen(p, events[n]) then Apply(p, events[n]) else p
  {
    hide Apply, MayHappen;
  }

  lemma Moves(put: seq<Ticket>, taken: seq<Ticket>, t: Ticket, rest: seq<Ticket>)
    requires put == taken + ([t] + rest)
    ensures put + [] == taken + [t] + rest
  {}

  lemma Grows(put: seq<Ticket>, taken: seq<Ticket>, queue: seq<Ticket>, more: seq<Ticket>)
    requires put == taken + queue
    ensures put + more == taken + [] + (queue + more) && queue + [] == queue
  {}
}
