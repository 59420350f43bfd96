/** The open job that outlives its operation. writeEnd and the main loop clean a completed
    operation up without looking at its open job, whose callback still refers to it; here the
    callback finds the operation as it was left. */
module WriteLate {
  import opened ChunkTypes
  import opened WriteOp
  import opened StoreInv
  import opened ClientInv
  import opened WriteInv
  import opened WriteRuns
  import opened WriteTheorems
  import opened WriteClosing
  import opened WriteSealed
  import opened WriteWitness

  /** The operation is gone, the open job is not. */
  predicate Orphaned(s: Op) { s.flags.cleaned && Opening(s) && s.task.job.phase != Consumed }

  /** What still happens to an orphaned open job. */
  predicate MayCallLate(s: Op, e: Event) {
    && Orphaned(s)
    && match e
       case WorkerTakes => s.task.job.phase == Queued
       case WorkerEnds(_) => s.task.job.phase.Running?
       case JobReturns(_) => s.task.job.phase.Finished?
       case _ => false
  }

  function CallLate(s: Op, e: Event): Op
    requires MayCallLate(s, e)
  {
    if e.WorkerTakes? then s.(task := s.task.(job := s.task.job.(phase := Running(0))))
    else if e.WorkerEnds? then s.(task := s.task.(job := s.task.job.(phase := Finished(s.task.job.phase.done, e.status))))
    else if s.task.job.callback == Delayed then DelayedCloseCallback(s)
    else OpenFinished(s)
  }

  function LateStep(s: Op, e: Event): Op {
    if Enabled(s, e) then Apply(s, e) else if MayCallLate(s, e) then CallLate(s, e) else s
  }

  function LateRun(s: Op, events: seq<Event>): Op {
    if events == [] then s else LateStep(LateRun(s, events[..|events| - 1]), events[|events| - 1])
  }

  function LateReach(start: Start, events: seq<Event>): Op {
    LateRun(Setup(start.cfg, start.connection, start.pool, start.available), events)
  }

  // ---------------------------------------------------------------- the invariant

  /** What is left of a cleaned operation. */
  ghost predicate Gone(s: Op) {
    s.flags.cleaned && s.store.queue == [] && s.store.input.None? && (s.flags.sealed && Opening(s) ==> s.client.partial == {})
  }

  ghost predicate LateInv(s: Op) { if s.flags.cleaned then Gone(s) else Inv(s) && SealedQuiet(s) }

  lemma JustGone(s: Op)
    requires Inv(s) && SealedQuiet(s) && s.flags.cleaned
    ensures Gone(s)
  {
    hide StoreOk, JobSafe, HistOk, AckOk, TellOk, WrittenOk, ThroughOk, ClientOk;
    assert s.store.Live() == [];
    assert |s.store.Live()| == |s.store.queue| + if s.store.input.Some? then 1 else 0;
  }

  lemma GoneStep(s: Op, e: Event)
    requires Gone(s) && Enabled(s, e)
    ensures Gone(Apply(s, e)) && Apply(s, e).task == s.task && Apply(s, e).client == s.client && Apply(s, e).flags == s.flags
    ensures Leaving(s.link.connection) ==> Leaving(Apply(s, e).link.connection)
  {}

  lemma LateOpened(s: Op)
    requires Gone(s) && Opening(s) && s.task.job.phase.Finished?
    ensures var t := OpenFinished(s);
            && Gone(t) && !Opening(t) && t.flags.sealed == s.flags.sealed
            && (s.flags.sealed && s.task.job.phase.status == STATUS_OK && !s.Last() ==> t.client.replies == s.client.replies)
  {
    if s.task.job.phase.status == STATUS_OK { LateContinue(s); }
  }

  lemma LateContinue(s: Op)
    requires Gone(s)
    ensures var s1 := s.(task := s.task.(job := NoJob), client := LocalOk(s.client, s.Last(), s.task.writeId),
                         flags := s.flags.(open := true), hist := s.hist.(greeting := s.hist.greeting + [s.task.writeId]));
            var t := ContinueWriting(s1);
            t.store.queue == [] && t.store.input.None? && t.task == s1.task && t.flags == s1.flags &&
            (s.flags.sealed ==> t.client == s1.client)
  {}

  lemma LateStepInv(s: Op, e: Event)
    requires LateInv(s)
    ensures LateInv(LateStep(s, e))
  {
    if Enabled(s, e) {
      if s.flags.cleaned {
        GoneStep(s, e);
        hide Gone;
      } else {
        hide Inv, SealedQuiet, Apply, Enabled, Gone;
        StepInv(s, e);
        QuietStep(s, e);
        if Apply(s, e).flags.cleaned { JustGone(Apply(s, e)); }
      }
    } else if MayCallLate(s, e) {
      hide OpenFinished, Enabled, Apply;
      if e.JobReturns? && s.task.job.callback == Normal { LateOpened(s); }
    }
  }

  lemma {:induction false} LateReachInv(start: Start, events: seq<Event>)
    requires start.Valid()
    ensures LateInv(LateReach(start, events))
  {
    hide LateInv, LateStep;
    if events == [] {
      LateBegins(start);
    } else {
      var n := |events| - 1;
      LateReachInv(start, events[..n]);
      LateStepInv(LateReach(start, events[..n]), events[n]);
    }
  }

  lemma LateBegins(start: Start)
    requires start.Valid()
    ensures LateInv(Setup(start.cfg, start.connection, start.pool, start.available))
  {
    hide Inv;
    SetupInv(start.cfg, start.connection, start.pool, start.available);
  }

  // ---------------------------------------------------------------- exactly when it is silent

  /** The open request is still to be answered, and its callback will speak: with an error, or
      with an OK sent while the connection already serves another operation. */
  predicate MaySpeak(s: Op) {
    && Opening(s) && s.task.job.callback == Normal && s.task.job.phase != Consumed
    && (s.task.job.phase.Finished? && s.task.job.phase.status == STATUS_OK ==> s.flags.cleaned && !Leaving(s.link.connection))
  }

  ghost predicate Hushed(s: Op) { LateInv(s) && s.flags.sealed && !MaySpeak(s) }

  lemma HushedLive(s: Op, e: Event)
    requires Hushed(s) && !s.flags.cleaned && Enabled(s, e)
    ensures var t := Apply(s, e); t.client.replies == s.client.replies && t.flags.sealed && !MaySpeak(t)
  {
    NoFailure(s);
    if Opening(s) { EarlyEnd(s); }
    hide Inv;
    SealedStep(s, e);
    if Apply(s, e).flags.cleaned { HushedGone(s, e); }
  }

  lemma NoFailure(s: Op)
    requires Inv(s) && !s.flags.cleaned && !MaySpeak(s)
    ensures !MayFailOpen(s)
  {
    hide Core;
    if MayFailOpen(s) { NotConsumed(s); }
  }

  lemma EarlyEnd(s: Op)
    requires Inv(s) && !s.flags.cleaned && s.flags.sealed && Opening(s)
    ensures Leaving(s.link.connection)
  {
    hide Core;
  }

  /** Only cleanup itself makes a sealed operation go, and it leaves job and connection alone. */
  lemma HushedGone(s: Op, e: Event)
    requires Enabled(s, e) && !s.flags.cleaned && s.flags.sealed && Apply(s, e).flags.cleaned
    ensures Apply(s, e).task == s.task && Apply(s, e).link == s.link
  {
    hide WriteFinished, OpenFinished, Discard;
    if e.JobReturns? { ReturnKeeps(s, e.retain); }
  }

  lemma ReturnKeeps(s: Op, retain: set<nat>)
    requires s.task.job.Job? && s.task.job.phase.Finished?
    ensures WriteFinished(s, retain).flags.cleaned == s.flags.cleaned && OpenFinished(s).flags.cleaned == s.flags.cleaned
  {
    hide Settle, ContinueWriting;
    if s.store.queue != [] { ContinueFrame(Retire(s, retain).0); }
    if s.task.job.phase.status == STATUS_OK {
      ContinueFrame(s.(task := s.task.(job := NoJob), client := LocalOk(s.client, s.Last(), s.task.writeId),
                       flags := s.flags.(open := true), hist := s.hist.(greeting := s.hist.greeting + [s.task.writeId])));
    }
  }

  lemma HushedStep(s: Op, e: Event)
    requires Hushed(s)
    ensures Hushed(LateStep(s, e)) && LateStep(s, e).client.replies == s.client.replies
  {
    LateStepInv(s, e);
    if Enabled(s, e) {
      if s.flags.cleaned {
        GoneStep(s, e);
        hide LateInv, Gone, Apply, Enabled;
      } else {
        HushedLive(s, e);
        hide LateInv, Apply, Enabled;
      }
    } else if MayCallLate(s, e) {
      hide OpenFinished, Enabled, Apply;
      if e.JobReturns? && s.task.job.callback == Normal { LateOpened(s); }
    }
  }

  lemma {:induction false} StaysHushed(s: Op, events: seq<Event>)
    requires Hushed(s)
    ensures Hushed(LateRun(s, events)) && LateRun(s, events).client.replies == s.client.replies
  {
    hide Hushed, LateStep;
    if events != [] {
      var n := |events| - 1;
      StaysHushed(s, events[..n]);
      HushedStep(LateRun(s, events[..n]), events[n]);
    }
  }

  lemma LateSnoc(s: Op, events: seq<Event>, e: Event)
    ensures LateRun(s, events + [e]) == LateStep(LateRun(s, events), e)
  {
    hide LateStep;
    assert (events + [e])[..|events|] == events;
  }

  lemma {:induction false} LateConcat(s: Op, xs: seq<Event>, ys: seq<Event>)
    ensures LateRun(s, xs + ys) == LateRun(LateRun(s, xs), ys)
  {
    hide LateStep;
    if ys == [] {
      assert xs + ys == xs;
    } else {
      var n := |ys| - 1;
      assert xs + ys == (xs + ys[..n]) + [ys[n]];
      LateConcat(s, xs, ys[..n]);
      LateSnoc(s, xs + ys[..n], ys[n]);
    }
  }

  /** The answer of an open job that is about to return. */
  lemma Answers(s: Op)
    requires Opening(s) && s.task.job.callback == Normal && s.task.job.phase.Finished?
    requires s.task.job.phase.status != STATUS_OK || (s.Last() && s.flags.sealed)
    ensures OpenFinished(s).client.replies != s.client.replies
  {
    var r := s.client.replies;
    if s.task.job.phase.status == STATUS_OK { SealedContinue(s); }
    assert r + [Reply(s.task.job.phase.status, s.task.writeId)] != r;
  }

  lemma SealedContinue(s: Op)
    requires s.flags.sealed
    ensures ContinueWriting(s).client == s.client
  {}

  lemma ReturnsNow(s: Op)
    requires Opening(s) && s.task.job.callback == Normal && s.task.job.phase.Finished?
    ensures LateStep(s, JobReturns({})) == OpenFinished(s)
  {
    hide OpenFinished, WriteFinished;
  }

  /** A worker's step on an open job. */
  lemma Proceeds(s: Op, e: Event, phase: Phase)
    requires Opening(s) && s.task.job.callback == Normal
    requires (e == WorkerTakes && s.task.job.phase == Queued && phase == Running(0)) ||
             (e == WorkerEnds(ERROR_IO) && s.task.job.phase.Running? && phase == Finished(s.task.job.phase.done, ERROR_IO))
    ensures LateStep(s, e) == s.(task := s.task.(job := s.task.job.(phase := phase)))
  {}

  lemma OneStep(s: Op, e: Event)
    ensures LateRun(s, [e]) == LateStep(s, e)
  {
    hide LateStep;
    assert [e][..0] == [];
  }

  /** A run in which an outstanding open job speaks. */
  lemma Speaks(s: Op) returns (events: seq<Event>)
    requires MaySpeak(s) && s.flags.sealed
    ensures LateRun(s, events).client.replies != s.client.replies
    decreases Remaining(s.task.job.phase)
  {
    hide OpenFinished, LateStep, LateRun;
    var phase := s.task.job.phase;
    if phase.Queued? {
      events := SpeaksAfter(s, WorkerTakes, Running(0));
    } else if phase.Running? {
      events := SpeaksAfter(s, WorkerEnds(ERROR_IO), Finished(phase.done, ERROR_IO));
    } else if phase.status != STATUS_OK {
      ReturnsNow(s);
      Answers(s);
      OneStep(s, JobReturns({}));
      events := [JobReturns({})];
    } else {
      var t := s.(link := s.link.(connection := WriteLast));
      Returned(s);
      ReturnsNow(t);
      Answers(t);
      OneStep(s, ConnectionMoves(WriteLast));
      LateSnoc(s, [ConnectionMoves(WriteLast)], JobReturns({}));
      events := [ConnectionMoves(WriteLast)] + [JobReturns({})];
    }
  }

  /** The connection of a cleaned operation turns to the next one. */
  lemma Returned(s: Op)
    requires s.flags.sealed && !Leaving(s.link.connection)
    ensures LateStep(s, ConnectionMoves(WriteLast)) == s.(link := s.link.(connection := WriteLast))
  {}

  lemma SpeaksAfter(s: Op, e: Event, phase: Phase) returns (events: seq<Event>)
    requires MaySpeak(s) && s.flags.sealed
    requires (e == WorkerTakes && s.task.job.phase == Queued && phase == Running(0)) ||
             (e == WorkerEnds(ERROR_IO) && s.task.job.phase.Running? && phase == Finished(s.task.job.phase.done, ERROR_IO))
    ensures LateRun(s, events).client.replies != s.client.replies
    decreases Remaining(s.task.job.phase), 0
  {
    hide LateStep, LateRun;
    var t := s.(task := s.task.(job := s.task.job.(phase := phase)));
    Proceeds(s, e, phase);
    var more := Speaks(t);
    OneStep(s, e);
    LateConcat(s, [e], more);
    events := [e] + more;
  }

  ghost predicate Silent(s: Op) {
    forall events: seq<Event> :: LateRun(s, events).client.replies == s.client.replies
  }

  /** A sealed operation, still there or gone, sends nothing more exactly when no open job that
      may speak is outstanding. */
  lemma SealedIsSilent(start: Start, events: seq<Event>)
    requires start.Valid() && LateReach(start, events).flags.sealed
    ensures Silent(LateReach(start, events)) <==> !MaySpeak(LateReach(start, events))
  {
    hide LateReach, LateInv, LateRun;
    var s := LateReach(start, events);
    LateReachInv(start, events);
    if MaySpeak(s) {
      var more := Speaks(s);
      assert LateRun(s, more).client.replies != s.client.replies;
    } else {
      hide MaySpeak;
      forall more: seq<Event> ensures LateRun(s, more).client.replies == s.client.replies { StaysHushed(s, more); }
    }
  }

  // ---------------------------------------------------------------- exactly when a job is orphaned

  /** The open job is known by the write id 0; it is pending unless its redirected callback ran. */
  lemma PendingMeansOpening(s: Op)
    requires Inv(s)
    ensures s.task.OpenPending() <==> Opening(s)
    ensures Opening(s) ==> (s.task.job.phase != Consumed <==> s.mode == Serving || s.link.pending > 0)
  {
    hide StoreOk, HistOk, AckOk, TellOk, WrittenOk, ThroughOk, ClientOk;
  }

  /** Which steps clean an operation up, and that they leave its job alone. */
  lemma CleanedBy(s: Op, e: Event)
    requires Inv(s) && Enabled(s, e) && !s.flags.cleaned && Apply(s, e).flags.cleaned
    ensures Apply(s, e).task == s.task && !(s.task.job.Job? && s.task.job.kind == WriteJob)
  {
    hide Core, WriteFinished, OpenFinished;
    if e.JobReturns? { ReturnKeeps(s, e.retain); }
    NoWriteJob(s);
    CleanedHow(s, e);
  }

  lemma CleanedHow(s: Op, e: Event)
    requires Enabled(s, e) && Apply(s, e).flags.cleaned && !s.flags.cleaned && (e.EndRequested? || e.CleanedUp?)
    ensures Apply(s, e).task == s.task && (s.store.queue == [] || (s.mode != Serving && s.link.pending == 0))
  {
    hide Discard;
  }

  /** In every run, cleanup leaves a job outstanding exactly when the open job is pending and
      not already called back by a close; it never leaves a write job outstanding. */
  lemma OrphanedIff(start: Start, events: seq<Event>, e: Event)
    requires start.Valid() && !LateReach(start, events).flags.cleaned && Enabled(LateReach(start, events), e)
    requires Apply(LateReach(start, events), e).flags.cleaned
    ensures var s, t := LateReach(start, events), Apply(LateReach(start, events), e);
            && (Orphaned(t) <==> s.task.OpenPending() && (s.mode == Serving || s.link.pending > 0))
            && !(t.task.job.Job? && t.task.job.kind == WriteJob)
  {
    hide LateReach;
    var s := LateReach(start, events);
    LateReachInv(start, events);
    CleanedBy(s, e);
    PendingMeansOpening(s);
    hide Inv, Apply, Enabled;
  }

  lemma NoWriteJob(s: Op)
    requires Inv(s) && (s.store.queue == [] || (s.mode != Serving && s.link.pending == 0))
    ensures !(s.task.job.Job? && s.task.job.kind == WriteJob)
  {
    hide StoreOk, HistOk, AckOk, TellOk, WrittenOk, ThroughOk, ClientOk;
  }

  // ---------------------------------------------------------------- runs that show it

  /** The client ends a write it has only begun; nothing waits to be sent. */
  function EmptyWrite(): seq<Event> { [EndRequested(true, false, {})] }

  /** The worker's answer comes afterwards. */
  function LateAnswer(status: Status): seq<Event> { [WorkerTakes, WorkerEnds(status), JobReturns({})] }

  function Leftover(credit: int, task: Task): Op {
    Op(CFG, Flags(false, true, false, true), Serving, task, Store([], None, [], {}, credit), Client([], {}, [], []),
       Link(Idle, 0, 4), Lock(STATUS_OK, false, Some(STATUS_OK)), History([], [], [], [], []))
  }

  lemma EndedAtOnce(credit: int)
    ensures LateReach(StartWith(credit), EmptyWrite()) == Leftover(credit, Task(Job(OpenJob, Queued, Normal), 0))
  {
    var s := Setup(CFG, WriteLast, {}, credit);
    assert s.store.Live() == [];
    OneStep(s, EmptyWrite()[0]);
    hide LateRun;
  }

  lemma AnswersLate(credit: int, status: Status)
    ensures LateRun(Leftover(credit, Task(Job(OpenJob, Queued, Normal), 0)), LateAnswer(status)) ==
            OpenFinished(Leftover(credit, Task(Job(OpenJob, Finished(0, status), Normal), 0)))
  {
    var s, ev := Leftover(credit, Task(Job(OpenJob, Queued, Normal), 0)), LateAnswer(status);
    OneStep(s, ev[0]);
    LateSnoc(s, [ev[0]], ev[1]);
    LateSnoc(s, [ev[0], ev[1]], ev[2]);
    assert [ev[0]] + [ev[1]] == [ev[0], ev[1]] && [ev[0], ev[1]] + [ev[2]] == ev;
    hide LateRun, OpenFinished;
  }

  /** The lock has ended with OK and the operation is gone; then its open job fails and the
      client is sent an error, or it succeeds and the chunk stays open with no job to close it. */
  lemma OrphanedRun(credit: int)
    ensures StartWith(credit).Valid()
    ensures var s := LateReach(StartWith(credit), EmptyWrite());
            && s.flags.sealed && Orphaned(s) && MaySpeak(s) && s.lock.end == Some(STATUS_OK) && s.client.replies == []
            && LateRun(s, LateAnswer(ERROR_IO)).client.replies == [Reply(ERROR_IO, 0)]
            && LateRun(s, LateAnswer(STATUS_OK)).flags.open && !LateRun(s, LateAnswer(STATUS_OK)).lock.closeJob
  {
    hide LateReach, LateRun;
    EndedAtOnce(credit);
    AnswersLate(credit, ERROR_IO);
    AnswersLate(credit, STATUS_OK);
    var done := Leftover(credit, Task(Job(OpenJob, Finished(0, STATUS_OK), Normal), 0));
    assert Gone(done);
    LateContinue(done);
    assert [] + [Reply(ERROR_IO, 0)] == [Reply(ERROR_IO, 0)];
  }

  /** While a status is still being sent the operation is sealed and stays: its open job may speak. */
  lemma SealedMaySpeak(credit: int)
    ensures StartWith(credit).Valid()
    ensures var s := LateReach(StartWith(credit), [EndRequested(false, false, {})]);
            s.flags.sealed && !s.flags.cleaned && MaySpeak(s) && !Silent(s)
  {
    var s0 := Setup(CFG, WriteLast, {}, credit);
    assert s0.store.Live() == [];
    OneStep(s0, EndRequested(false, false, {}));
    hide LateRun;
    var s := LateReach(StartWith(credit), [EndRequested(false, false, {})]);
    hide LateStep;
    SealedIsSilent(StartWith(credit), [EndRequested(false, false, {})]);
  }
}
