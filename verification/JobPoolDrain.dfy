/** From every state of the pools there is a run that completes every ordinary job. */
module JobPoolDrain {
  import opened ChunkTypes
  import opened JobPools
  import opened JobPoolInv
  import opened JobPoolRuns
  import opened JobPoolTheorems

  /** From p to q jobs only left the pool, none of them by erasure. */
  ghost predicate Leaves(p: Pool, q: Pool) {
    && q.log.erased == p.log.erased && (forall t :: Issued(p.work.listeners, t) ==> Issued(q.work.listeners, t))
    && forall t :: t in q.work.jobs ==> t in p.work.jobs && q.work.jobs[t].isLock == p.work.jobs[t].isLock
  }

  lemma LeavesTrans(p: Pool, q: Pool, r: Pool)
    requires Leaves(p, q) && Leaves(q, r)
    ensures Leaves(p, r)
  {
    hide Issued;
  }

  /** How many statuses wait, over all listeners. */
  function Total(listeners: seq<Listener>): nat {
    if listeners == [] then 0 else Total(listeners[..|listeners| - 1]) + |listeners[|listeners| - 1].posts|
  }

  lemma {:induction false} TotalUpdate(listeners: seq<Listener>, l: nat, now: Listener)
    requires l < |listeners|
    ensures Total(listeners[l := now]) == Total(listeners) - |listeners[l].posts| + |now.posts|
  {
    var n := |listeners| - 1;
    if l < n {
      assert listeners[l := now][..n] == listeners[..n][l := now];
      TotalUpdate(listeners[..n], l, now);
    } else {
      assert listeners[l := now][..n] == listeners[..n];
    }
  }

  lemma {:induction false} SomePost(listeners: seq<Listener>) returns (l: nat)
    requires Total(listeners) > 0
    ensures l < |listeners| && listeners[l].posts != []
  {
    l := |listeners| - 1;
    if listeners[l].posts == [] { l := SomePost(listeners[..l]); }
  }

  lemma {:induction false} NoPost(listeners: seq<Listener>, l: nat)
    requires Total(listeners) == 0 && l < |listeners|
    ensures listeners[l].posts == []
  {
    if l < |listeners| - 1 { NoPost(listeners[..|listeners| - 1], l); }
  }

  // ---------------------------------------------------------------- one step

  lemma Takes(p: Pool) returns (q: Pool)
    requires Inv(p) && p.work.queue != []
    ensures StepsTo(p, WorkerTakes, q) && Inv(q) && Leaves(p, q) && |q.work.queue| < |p.work.queue|
  {
    hide Inv, SendStatus;
    HeadKnown(p);
    SomeListener(p);
    TakeLeaves(p);
    q := Apply(p, WorkerTakes);
    StepInv(p, WorkerTakes);
  }

  lemma HeadKnown(p: Pool)
    requires Inv(p) && p.work.queue != []
    ensures p.work.queue[0] in p.work.jobs
  {
    hide LocksOk, StateOk, ListenersOk, LogOk, CounterOk;
    OnlyPlace(p.work, p.locks, p.work.queue[0]);
    InPlace(p.work, p.work.queue[0]);
  }

  lemma SendIssues(w: Work, t: Ticket, status: Status)
    ensures forall u :: Issued(w.listeners, u) ==> Issued(SendStatus(w, t, status).listeners, u)
  {}

  lemma TakeLeaves(p: Pool)
    requires p.work.listeners != [] && MayHappen(p, WorkerTakes)
    ensures Leaves(p, Apply(p, WorkerTakes)) && |Apply(p, WorkerTakes).work.queue| < |p.work.queue|
  {
    SendIssues(p.work.(queue := p.work.queue[1..]), p.work.queue[0], ERROR_NOTDONE);
    SendJobs(p.work.(queue := p.work.queue[1..]), p.work.queue[0], ERROR_NOTDONE);
    hide SendStatus, Issued;
  }

  lemma SendJobs(w: Work, t: Ticket, status: Status)
    ensures var w' := SendStatus(w, t, status); w'.jobs == w.jobs && w'.queue == w.queue
  {}

  lemma Finishes(p: Pool) returns (q: Pool)
    requires Inv(p) && p.work.running != []
    ensures StepsTo(p, WorkerEnds(0, STATUS_OK), q) && Inv(q) && Leaves(p, q)
    ensures q.work.queue == p.work.queue && |q.work.running| < |p.work.running|
  {
    hide Inv;
    SomeListener(p);
    q := Apply(p, WorkerEnds(0, STATUS_OK));
    StepInv(p, WorkerEnds(0, STATUS_OK));
  }

  lemma StartsDrain(p: Pool, l: nat) returns (q: Pool)
    requires Inv(p) && l < |p.work.listeners| && p.work.listeners[l].posts != [] && !p.work.listeners[l].draining
    ensures StepsTo(p, DrainStarts(l), q) && Inv(q) && Leaves(p, q)
    ensures q.work.queue == p.work.queue && q.work.running == p.work.running && Total(q.work.listeners) == Total(p.work.listeners)
    ensures l < |q.work.listeners| && q.work.listeners[l].posts != [] && q.work.listeners[l].draining
  {
    hide Inv;
    Readable(p, l);
    SomeListener(p);
    q := Apply(p, DrainStarts(l));
    StepInv(p, DrainStarts(l));
    TotalUpdate(p.work.listeners, l, p.work.listeners[l].(draining := true));
  }

  lemma Readable(p: Pool, l: nat)
    requires Inv(p) && l < |p.work.listeners| && p.work.listeners[l].posts != []
    ensures p.work.listeners[l].readable
  {
    hide PlaceOk, LocksOk, StateOk, LogOk, CounterOk;
  }

  lemma Receives(p: Pool, l: nat) returns (q: Pool)
    requires Inv(p) && l < |p.work.listeners| && p.work.listeners[l].posts != [] && p.work.listeners[l].draining
    ensures StepsTo(p, StatusReceived(l), q) && Inv(q) && Leaves(p, q)
    ensures q.work.queue == p.work.queue && q.work.running == p.work.running && Total(q.work.listeners) < Total(p.work.listeners)
  {
    hide Inv;
    SomeListener(p);
    q := Apply(p, StatusReceived(l));
    StepInv(p, StatusReceived(l));
    TotalUpdate(p.work.listeners, l, q.work.listeners[l]);
  }

  // ---------------------------------------------------------------- to the end

  /** With nothing queued, running or posted only lock jobs are left. */
  lemma NothingLeft(p: Pool)
    requires Inv(p) && p.work.queue == [] && p.work.running == [] && Total(p.work.listeners) == 0
    ensures Ordinary(p.work.jobs) == {}
  {
    hide ListenersOk, StateOk, LogOk, CounterOk;
    forall t | t in p.work.jobs ensures p.work.jobs[t].isLock {
      if t.listener < |p.work.listeners| { NoPost(p.work.listeners, t.listener); }
      assert Places(p.work, t) == 0;
      MarkedAreLocks(p, t);
    }
  }

  lemma RunFirst(p: Pool, e: Event, q: Pool, events: seq<Event>)
    requires StepsTo(p, e, q) && q.work.listeners != []
    ensures Run(p, [e] + events) == Run(q, events)
  {
    hide Apply, MayHappen;
    if events == [] {
      assert [e] + [] == [e] && [e][..0] == [];
    } else {
      var n := |events| - 1;
      assert ([e] + events)[..|[e] + events| - 1] == [e] + events[..n];
      RunFirst(p, e, q, events[..n]);
    }
  }

  lemma {:induction false} Drain(p: Pool) returns (events: seq<Event>)
    requires Inv(p)
    ensures p.work.listeners != []
    ensures var q := Run(p, events); Inv(q) && Leaves(p, q) && Ordinary(q.work.jobs) == {}
    decreases |p.work.queue|, |p.work.running|, Total(p.work.listeners), 0
  {
    hide Inv, Run, StepsTo, Leaves, Ordinary, Total;
    SomeListener(p);
    if p.work.queue != [] {
      var q := Takes(p);
      events := DrainOn(p, WorkerTakes, q);
    } else if p.work.running != [] {
      var q := Finishes(p);
      events := DrainOn(p, WorkerEnds(0, STATUS_OK), q);
    } else if Total(p.work.listeners) > 0 {
      var l := SomePost(p.work.listeners);
      if p.work.listeners[l].draining {
        var q := Receives(p, l);
        events := DrainOn(p, StatusReceived(l), q);
      } else {
        var q := StartsDrain(p, l);
        var r := Receives(q, l);
        var more := DrainOn(q, StatusReceived(l), r);
        events := Before(p, DrainStarts(l), q, more);
      }
    } else {
      NothingLeft(p);
      events := [];
      Stays(p);
    }
  }

  lemma Stays(p: Pool)
    requires p.work.listeners != []
    ensures Run(p, []) == p && Leaves(p, p)
  {}

  lemma Before(p: Pool, e: Event, q: Pool, more: seq<Event>) returns (events: seq<Event>)
    requires StepsTo(p, e, q) && Leaves(p, q) && q.work.listeners != []
    requires var r := Run(q, more); Inv(r) && Leaves(q, r) && Ordinary(r.work.jobs) == {}
    ensures var r := Run(p, events); Inv(r) && Leaves(p, r) && Ordinary(r.work.jobs) == {}
  {
    hide Inv, Run, Leaves, Ordinary, Apply, MayHappen;
    events := [e] + more;
    RunFirst(p, e, q, more);
    LeavesTrans(p, q, Run(q, more));
  }

  lemma DrainOn(p: Pool, e: Event, q: Pool) returns (events: seq<Event>)
    requires StepsTo(p, e, q) && Leaves(p, q) && Inv(q)
    ensures var r := Run(p, events); Inv(r) && Leaves(p, r) && Ordinary(r.work.jobs) == {}
    decreases |q.work.queue|, |q.work.running|, Total(q.work.listeners), 1
  {
    hide Inv, Run, Leaves, Ordinary, Apply, MayHappen;
    var more := Drain(q);
    events := Before(p, e, q, more);
  }

  /** From every reachable state some run completes every ordinary job there is. */
  lemma AllComplete(listeners: nat, before: seq<Event>) returns (events: seq<Event>)
    requires listeners > 0
    ensures var p := Reach(listeners, before);
            var q := Run(p, events);
            && Ordinary(q.work.jobs) == {}
            && forall t :: t in p.work.jobs && !p.work.jobs[t].isLock ==> t in Tickets(q.log.completed)
  {
    hide Reach, Run;
    var p := Reach(listeners, before);
    ReachInv(listeners, before);
    events := Drain(p);
    var q := Run(p, events);
    forall t | t in p.work.jobs && !p.work.jobs[t].isLock ensures t in Tickets(q.log.completed) { Completed(p, q, t); }
  }

  lemma Completed(p: Pool, q: Pool, t: Ticket)
    requires Inv(p) && Inv(q) && Leaves(p, q) && Ordinary(q.work.jobs) == {} && t in p.work.jobs && !p.work.jobs[t].isLock
    ensures t in Tickets(q.log.completed)
  {
    hide PlaceOk, LocksOk, StateOk, ListenersOk, CounterOk, Issued;
    assert t in q.work.jobs ==> t in Ordinary(q.work.jobs);
    assert t !in Tickets(p.log.completed) + p.log.erased;
    assert t !in p.log.erased;
    assert t in Tickets(q.log.completed) + q.log.erased;
  }
}
