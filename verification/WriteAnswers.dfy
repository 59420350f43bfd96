/** What the master and the client are told, by the events of a run: the status the chunk
    lock ends with, the errors reported, and the answer of each callback. */
module WriteAnswers {
  import opened ChunkTypes
  import opened WriteOp
  import opened StoreInv
  import opened ClientInv
  import opened WriteInv
  import opened WriteSteps
  import opened WriteEvents
  import opened WriteTheorems
  import opened WriteStatuses

  // ---------------------------------------------------------------- the end of the chunk lock

  /** The status the close job has returned in a run. */
  function CloseStatus(start: Start, events: seq<Event>): Option<Status> {
    if events == [] then None
    else
      var n := |events| - 1;
      if events[n].CloseReturns? && Enabled(Reach(start, events[..n]), events[n]) then Some(events[n].status)
      else CloseStatus(start, events[..n])
  }

  /** What the lock ends with: an untold failure first, then that of the close job. */
  ghost predicate EndOk(flags: Flags, lock: Lock, locked: bool, closed: Option<Status>) {
    && (lock.closeJob ==> closed.None?)
    && (lock.closeJob || closed.Some? <==> flags.cleaned && flags.open)
    && (lock.end.Some? <==> locked && flags.cleaned && !lock.closeJob)
    && (lock.end.Some? ==>
          lock.end.value == if lock.untold != STATUS_OK then lock.untold
                            else if closed.Some? then closed.value else STATUS_OK)
  }

  lemma CleanupEnds(s: Op, retain: set<nat>, closed: Option<Status>)
    requires !s.flags.cleaned && EndOk(s.flags, s.lock, s.cfg.locked, closed)
    ensures EndOk(Cleanup(s, retain).flags, Cleanup(s, retain).lock, s.cfg.locked, closed)
  {
    hide Discard, Flat;
  }

  lemma SealEnds(s: Op)
    ensures TrySeal(s).0.lock == s.lock && TrySeal(s).0.flags == s.flags.(sealed := TrySeal(s).0.flags.sealed)
    ensures TrySeal(s).0.cfg == s.cfg
  {}

  lemma EndEnds(s: Op, drained: bool, busy: bool, retain: set<nat>, closed: Option<Status>)
    requires !s.flags.cleaned && EndOk(s.flags, s.lock, s.cfg.locked, closed)
    ensures var t := WriteEnd(s, drained, busy, retain); EndOk(t.flags, t.lock, s.cfg.locked, closed)
  {
    SealEnds(s);
    hide TrySeal, Cleanup;
    if TrySeal(s).1 && drained && TrySeal(s).0.Completed() { CleanupEnds(TrySeal(s).0, retain, closed); }
  }

  /** Only cleaning up and the close job touch the lock. */
  ghost predicate LockLeft(s: Op, t: Op) {
    && t.lock.closeJob == s.lock.closeJob && t.lock.end == s.lock.end && t.flags.cleaned == s.flags.cleaned
    && (s.flags.cleaned ==> t.lock == s.lock && t.flags == s.flags)
  }

  lemma ContinueLeaves(s: Op)
    ensures var t := ContinueWriting(s);
            t.lock == s.lock && t.flags == s.flags && t.cfg == s.cfg && t.mode == s.mode && t.hist == s.hist
            && t.link == s.link
  {
    hide InstantReply, LocalOks;
  }

  lemma ReturnLeaves(s: Op, retain: set<nat>)
    requires Enabled(s, JobReturns(retain))
    ensures LockLeft(s, Apply(s, JobReturns(retain)))
  {
    hide ContinueWriting, Settle, LocalOks, LocalOk, Put, Unregister;
    if s.task.job.callback == Delayed {
    } else if s.task.job.kind == OpenJob {
      if s.task.job.phase.status == STATUS_OK {
        ContinueLeaves(s.(task := s.task.(job := NoJob), client := LocalOk(s.client, s.Last(), s.task.writeId),
                          flags := s.flags.(open := true), hist := s.hist.(greeting := s.hist.greeting + [s.task.writeId])));
      }
    } else if s.store.queue != [] {
      ContinueLeaves(Retire(s, retain).0);
    }
  }

  lemma StepLeaves(s: Op, e: Event)
    requires Enabled(s, e) && !e.EndRequested? && !e.CleanedUp? && !e.CloseReturns?
    ensures LockLeft(s, Apply(s, e))
  {
    hide InstantReply, LocalOks, DropUnreplied, CloseInput, ContinueWriting, Settle;
    if e.JobReturns? { ReturnLeaves(s, e.retain); }
  }

  lemma LeftEnds(s: Op, t: Op, closed: Option<Status>)
    requires LockLeft(s, t) && EndOk(s.flags, s.lock, s.cfg.locked, closed)
    ensures EndOk(t.flags, t.lock, s.cfg.locked, closed)
  {}

  lemma CloseEnds(s: Op, status: Status, closed: Option<Status>)
    requires s.lock.closeJob && EndOk(s.flags, s.lock, s.cfg.locked, closed)
    ensures var t := CloseFinished(s, status); EndOk(t.flags, t.lock, s.cfg.locked, Some(status))
  {}

  lemma StepEnds(s: Op, e: Event, closed: Option<Status>)
    requires Enabled(s, e) && EndOk(s.flags, s.lock, s.cfg.locked, closed)
    ensures var t := Apply(s, e);
            EndOk(t.flags, t.lock, s.cfg.locked, if e.CloseReturns? then Some(e.status) else closed)
  {
    if e.EndRequested? {
      EndEnds(s, e.drained, e.busy, e.retain, closed);
    } else if e.CleanedUp? {
      CleanupEnds(s, e.retain, closed);
    } else if e.CloseReturns? {
      CloseEnds(s, e.status, closed);
    } else {
      hide Apply, Enabled, EndOk;
      StepLeaves(s, e);
      LeftEnds(s, Apply(s, e), closed);
    }
  }

  /** In every run the lock has ended exactly when the operation is cleaned up and no close job is
      left, with the failure the client was not told if there is one, and otherwise with the status
      of the close job, which runs exactly for an open chunk. */
  lemma {:induction false} LockEnd(start: Start, events: seq<Event>)
    ensures var s := Reach(start, events);
            EndOk(s.flags, s.lock, start.cfg.locked, CloseStatus(start, events))
  {
    hide Apply, Enabled, EndOk;
    SameConfig(start, events);
    if events == [] {
      SetupEnds(start);
    } else {
      var n := |events| - 1;
      LockEnd(start, events[..n]);
      SameConfig(start, events[..n]);
      if Enabled(Reach(start, events[..n]), events[n]) {
        StepEnds(Reach(start, events[..n]), events[n], CloseStatus(start, events[..n]));
      }
    }
  }

  lemma SetupEnds(start: Start)
    ensures var s := Reach(start, []); EndOk(s.flags, s.lock, start.cfg.locked, None)
  {}

  /** When the close job of a locked chunk returns, the lock ends with OK exactly if neither it nor
      an acknowledged write failed, and otherwise with the status of the write, if one failed, or of
      the close. */
  lemma CloseAnswered(start: Start, events: seq<Event>, st: Status)
    requires start.Valid() && start.cfg.locked && Enabled(Reach(start, events), CloseReturns(st))
    ensures var s, t := Reach(start, events), Reach(start, events + [CloseReturns(st)]);
            && (t.lock.end == Some(STATUS_OK) <==> st == STATUS_OK && s.lock.untold == STATUS_OK)
            && (s.lock.untold != STATUS_OK ==> t.lock.end == Some(s.lock.untold))
            && (s.lock.untold == STATUS_OK ==> t.lock.end == Some(st))
            && !t.lock.closeJob
  {
    SameConfig(start, events);
    assert (events + [CloseReturns(st)])[..|events|] == events;
  }

  /** The close job returns once. */
  lemma {:induction false} ClosedOnce(start: Start, events: seq<Event>, k: nat)
    requires k < |events| && events[k].CloseReturns? && Enabled(Reach(start, events[..k]), events[k])
    ensures CloseStatus(start, events) == Some(events[k].status)
  {
    hide Reach;
    var n := |events| - 1;
    if k < n {
      assert events[..n][..k] == events[..k];
      ClosedOnce(start, events[..n], k);
      LockEnd(start, events[..n]);
    }
  }

  /** A lock that ended with OK had no failed close, in any run. */
  lemma EndedWell(start: Start, events: seq<Event>, k: nat)
    requires start.Valid() && Reach(start, events).lock.end == Some(STATUS_OK)
    requires k < |events| && events[k].CloseReturns? && Enabled(Reach(start, events[..k]), events[k])
    ensures events[k].status == STATUS_OK && Reach(start, events).lock.untold == STATUS_OK
  {
    hide Reach;
    LockEnd(start, events);
    ClosedOnce(start, events, k);
  }

  // ---------------------------------------------------------------- the errors reported

  function ErrorsOf(rs: seq<Reply>): seq<Reply> {
    if rs == [] then []
    else
      var r := rs[|rs| - 1];
      ErrorsOf(rs[..|rs| - 1]) + if r.status != STATUS_OK then [r] else []
  }

  /** The error an event makes known to the client: that of the next server, of the open job, or of
      the first block that was neither written nor replied early. */
  function NewError(s: Op, e: Event): seq<Reply> {
    match e
    case NextServer(status, id) => if status != STATUS_OK then [Reply(status, id)] else []
    case JobReturns(_) =>
      if s.mode != Serving || !s.task.job.Job? || !s.task.job.phase.Finished? || s.task.job.phase.status == STATUS_OK then []
      else
        var p := s.task.job.phase;
        if s.task.job.kind == OpenJob then [Reply(p.status, 0)]
        else if s.store.queue != [] && s.store.queue[0].replied <= p.done < |s.store.queue[0].blocks|
        then [Reply(p.status, s.store.queue[0].blocks[p.done].writeId)]
        else []
    case _ => []
  }

  /** The errors the events of a run have made known. */
  function Errors(start: Start, events: seq<Event>): seq<Reply> {
    if events == [] then []
    else
      var n := |events| - 1;
      var s := Reach(start, events[..n]);
      Errors(start, events[..n]) + if Enabled(s, events[n]) then NewError(s, events[n]) else []
  }

  lemma ErrorsAppend(rs: seq<Reply>, r: Reply)
    ensures ErrorsOf(rs + [r]) == ErrorsOf(rs) + if r.status != STATUS_OK then [r] else []
  {
    assert (rs + [r])[..|rs|] == rs;
  }

  lemma OkSilent(c: Client, last: bool, id: nat)
    ensures ErrorsOf(LocalOk(c, last, id).replies) == ErrorsOf(c.replies)
    ensures ErrorsOf(NextOk(c, last, id).replies) == ErrorsOf(c.replies)
  {
    ErrorsAppend(c.replies, Reply(STATUS_OK, id));
  }

  lemma {:induction false} OksSilent(c: Client, last: bool, ids: seq<nat>)
    ensures ErrorsOf(LocalOks(c, last, ids).replies) == ErrorsOf(c.replies)
  {
    hide ErrorsOf, LocalOk;
    if ids != [] {
      var n := |ids| - 1;
      OksSilent(c, last, ids[..n]);
      OkSilent(LocalOks(c, last, ids[..n]), last, ids[n]);
    }
  }

  lemma TrySilent(s: Op)
    ensures ErrorsOf(TryInstantReply(s).client.replies) == ErrorsOf(s.client.replies)
    ensures TryInstantReply(s).flags == s.flags
  {
    hide InstantReply, LocalOks, ErrorsOf;
    OksSilent(s.client, s.Last(), InstantReply(s.store, 0).1);
  }

  lemma ContinueSilent(s: Op)
    ensures ErrorsOf(ContinueWriting(s).client.replies) == ErrorsOf(s.client.replies)
    ensures ContinueWriting(s).flags == s.flags
  {
    hide TryInstantReply, ErrorsOf;
    TrySilent(s);
  }

  /** Whether a state after an event has reported `more`. */
  ghost predicate Reported(s: Op, t: Op, more: seq<Reply>) {
    && ErrorsOf(t.client.replies) == ErrorsOf(s.client.replies) + more
    && (t.flags.errored <==> s.flags.errored || more != [])
  }

  lemma RetireReports(s: Op, retain: set<nat>)
    requires WriteDone(s)
    ensures Reported(s, Retire(s, retain).0, NewError(s, JobReturns(retain)))
    ensures Retire(s, retain).1 == (NewError(s, JobReturns(retain)) != [])
  {
    VerdictIs(s);
    hide Settle, LocalOks, ErrorsOf, Outcome;
    var v := VerdictOf(s);
    RetireForm(s, retain);
    hide Retire, VerdictOf;
    OksSilent(s.client, s.Last(), v.acks);
    if v.failure.Some? { ErrorsAppend(LocalOks(s.client, s.Last(), v.acks).replies, v.failure.value); }
    Nothing(ErrorsOf(s.client.replies));
  }

  lemma FinishedReports(s: Op, retain: set<nat>)
    requires WriteDone(s)
    ensures Reported(s, WriteFinished(s, retain), NewError(s, JobReturns(retain)))
  {
    hide Retire, ContinueWriting, ErrorsOf, NewError, Outcome;
    RetireReports(s, retain);
    ContinueSilent(Retire(s, retain).0);
  }

  lemma WriteReports(s: Op, retain: set<nat>)
    requires Inv(s) && Enabled(s, JobReturns(retain)) && s.task.job.kind == WriteJob
    ensures Reported(s, Apply(s, JobReturns(retain)), NewError(s, JobReturns(retain)))
  {
    hide Inv, Apply, Enabled, NewError, Reported, WriteFinished;
    WriteReturns(s, retain);
    FinishedReports(s, retain);
  }

  lemma Nothing<T>(xs: seq<T>)
    ensures xs + [] == xs
  {}

  /** What writeFinishedCallback makes of a finished buffer. */
  lemma VerdictIs(s: Op)
    requires WriteDone(s)
    ensures var b, p, v := s.store.queue[0], s.task.job.phase, VerdictOf(s);
            && p.done <= |b.blocks| && (p.status == STATUS_OK <==> p.done == |b.blocks|)
            && v.failure == (if s.mode == Serving && b.replied <= p.done < |b.blocks|
                             then Some(Reply(p.status, b.blocks[p.done].writeId)) else None)
            && v.untold == (if s.lock.untold == STATUS_OK && p.done < b.replied then p.status else s.lock.untold)
            && |v.outcome| == |b.blocks|
            && forall k :: 0 <= k < |b.blocks| ==>
                 v.outcome[k] == Done(b.blocks[k], k < b.replied || (s.mode == Serving && (k < p.done || p.done < b.replied)), k < p.done)
  {
    SettleForm(s.store.queue[0], s.task.job.phase, s.mode != Serving, s.lock.untold, |s.store.queue[0].blocks|);
  }

  lemma OpenReports(s: Op, retain: set<nat>)
    requires Inv(s) && Enabled(s, JobReturns(retain)) && s.task.job.kind == OpenJob
    ensures Reported(s, Apply(s, JobReturns(retain)), NewError(s, JobReturns(retain)))
  {
    OpenIsFirst(s);
    hide Inv, ContinueWriting, LocalOk, ErrorsOf;
    Nothing(ErrorsOf(s.client.replies));
    var status := s.task.job.phase.status;
    if s.task.job.callback != Delayed {
      ErrorsAppend(s.client.replies, Reply(status, 0));
      OkSilent(s.client, s.Last(), 0);
      ContinueSilent(s.(task := s.task.(job := NoJob), client := LocalOk(s.client, s.Last(), s.task.writeId),
                        flags := s.flags.(open := true), hist := s.hist.(greeting := s.hist.greeting + [s.task.writeId])));
    }
  }

  lemma OpenIsFirst(s: Op)
    requires Inv(s) && s.task.job.Job? && s.task.job.kind == OpenJob
    ensures s.task.writeId == 0 && (s.task.job.callback == Delayed <==> s.mode != Serving)
  {}

  lemma StepReports(s: Op, e: Event)
    requires Inv(s) && Enabled(s, e)
    ensures Reported(s, Apply(s, e), NewError(s, e))
  {
    hide Inv, ErrorsOf;
    Nothing(ErrorsOf(s.client.replies));
    if e.JobReturns? {
      hide Apply, Enabled, NewError, Reported;
      if s.task.job.kind == OpenJob { OpenReports(s, e.retain); } else { WriteReports(s, e.retain); }
    } else {
      QuietReports(s, e);
    }
  }

  lemma QuietReports(s: Op, e: Event)
    requires Enabled(s, e) && !e.JobReturns?
    ensures Reported(s, Apply(s, e), NewError(s, e))
  {
    hide ErrorsOf, TryInstantReply, Discard, Flat, DropUnreplied, CloseInput, NotAllocated;
    Nothing(ErrorsOf(s.client.replies));
    match e
    case BlockArrives(w) => TrySilent(Receive(s, w));
    case LoopTurn => TrySilent(s);
    case NextServer(status, id) =>
      ErrorsAppend(s.client.replies, Reply(status, id));
      OkSilent(s.client, s.Last(), id);
    case _ =>
  }

  /** The errors among the replies to the client are exactly those the events made known, in their
      order; the operation counts as failed exactly if there is one. */
  lemma {:induction false} ErrorsTold(start: Start, events: seq<Event>)
    requires start.Valid()
    ensures var s := Reach(start, events);
            ErrorsOf(s.client.replies) == Errors(start, events) && (s.flags.errored <==> Errors(start, events) != [])
  {
    if events != [] {
      var n := |events| - 1;
      hide Apply, Enabled, Inv, ErrorsOf, NewError;
      ErrorsTold(start, events[..n]);
      ReachInv(start, events[..n]);
      Nothing(Errors(start, events[..n]));
      if Enabled(Reach(start, events[..n]), events[n]) { StepReports(Reach(start, events[..n]), events[n]); }
    }
  }

  // ---------------------------------------------------------------- the failure kept for the master

  /** The status of a write job that stopped at a block replied early. */
  function Missed(s: Op, e: Event): Status {
    if e.JobReturns? && s.task.job.Job? && s.task.job.kind == WriteJob && s.task.job.phase.Finished? && s.store.queue != [] &&
       s.task.job.phase.done < s.store.queue[0].replied
    then s.task.job.phase.status else STATUS_OK
  }

  /** The first such status of a run. */
  function FirstMissed(start: Start, events: seq<Event>): Status {
    if events == [] then STATUS_OK
    else
      var n := |events| - 1;
      var s := Reach(start, events[..n]);
      if FirstMissed(start, events[..n]) != STATUS_OK || !Enabled(s, events[n]) then FirstMissed(start, events[..n])
      else Missed(s, events[n])
  }

  ghost predicate AckedUnwritten(ds: seq<Done>) { exists d <- ds :: d.acked && !d.written }

  lemma AckedUnwrittenAt(was: seq<Done>, more: seq<Done>, k: nat)
    requires k < |more| && more[k].acked && !more[k].written
    ensures AckedUnwritten(was + more)
  {
    assert more[k] in was + more;
  }

  lemma AckedUnwrittenStays(was: seq<Done>, more: seq<Done>)
    requires AckedUnwritten(was)
    ensures AckedUnwritten(was + more)
  {
    var d :| d in was && d.acked && !d.written;
    assert d in was + more;
  }

  function JobKindOf(s: Op): Option<JobKind> { if s.task.job.Job? then Some(s.task.job.kind) else None }

  /** What a callback does to the record and to the kept failure. */
  lemma WriteMisses(s: Op, retain: set<nat>)
    requires Inv(s) && Enabled(s, JobReturns(retain)) && JobKindOf(s) == Some(WriteJob)
    ensures s.task.job.phase.Finished? && s.store.queue != []
    ensures var t := Apply(s, JobReturns(retain));
            && t.lock.untold == (if s.lock.untold != STATUS_OK then s.lock.untold else Missed(s, JobReturns(retain)))
            && t.hist.processed == s.hist.processed + VerdictOf(s).outcome
            && (t.lock.untold != s.lock.untold ==> AckedUnwritten(t.hist.processed))
  {
    WriteReturns(s, retain);
    hide Inv, Apply, Enabled, Settle, ContinueWriting, Outcome, AckedUnwritten;
    VerdictIs(s);
    RetireForm(s, retain);
    ContinueLeaves(Retire(s, retain).0);
    hide Retire, VerdictOf;
    if s.task.job.phase.done < s.store.queue[0].replied {
      AckedUnwrittenAt(s.hist.processed, VerdictOf(s).outcome, s.task.job.phase.done);
    }
  }

  lemma QuietMisses(s: Op, e: Event)
    requires Inv(s) && Enabled(s, e) && (e.JobReturns? ==> JobKindOf(s) != Some(WriteJob))
    ensures Apply(s, e).lock.untold == s.lock.untold && Apply(s, e).hist.processed == s.hist.processed
  {
    hide Inv, InstantReply, LocalOks, DropUnreplied, CloseInput, ContinueWriting, Discard, Flat, NotAllocated;
    if e.JobReturns? && s.task.job.phase.status == STATUS_OK {
      ContinueLeaves(s.(task := s.task.(job := NoJob), client := LocalOk(s.client, s.Last(), s.task.writeId),
                        flags := s.flags.(open := true), hist := s.hist.(greeting := s.hist.greeting + [s.task.writeId])));
    }
  }

  /** The failure kept for the master after a step. */
  lemma StepMisses(s: Op, e: Event)
    requires Inv(s) && Enabled(s, e) && (s.lock.untold != STATUS_OK ==> AckedUnwritten(s.hist.processed))
    ensures var t := Apply(s, e);
            && t.lock.untold == (if s.lock.untold != STATUS_OK then s.lock.untold else Missed(s, e))
            && (t.lock.untold != STATUS_OK ==> AckedUnwritten(t.hist.processed))
  {
    hide Apply, Enabled, Inv, Missed, AckedUnwritten, VerdictOf;
    if e.JobReturns? && JobKindOf(s) == Some(WriteJob) {
      WriteMisses(s, e.retain);
      if s.lock.untold != STATUS_OK { AckedUnwrittenStays(s.hist.processed, VerdictOf(s).outcome); }
    } else {
      QuietMisses(s, e);
      OpenMissesNot(s, e);
    }
  }

  lemma {:induction false} MissedRuns(start: Start, events: seq<Event>)
    requires start.Valid()
    ensures var s := Reach(start, events);
            s.lock.untold == FirstMissed(start, events) && (s.lock.untold != STATUS_OK ==> AckedUnwritten(s.hist.processed))
  {
    if events != [] {
      var n := |events| - 1;
      hide Apply, Enabled, Inv, Missed, AckedUnwritten;
      MissedRuns(start, events[..n]);
      ReachInv(start, events[..n]);
      if Enabled(Reach(start, events[..n]), events[n]) { StepMisses(Reach(start, events[..n]), events[n]); }
    }
  }

  /** The failure the master is told is that of the first job that stopped at a block replied early;
      there is one exactly if an acknowledged block was not written. */
  lemma UntoldIs(start: Start, events: seq<Event>)
    requires start.Valid()
    ensures var s := Reach(start, events);
            && s.lock.untold == FirstMissed(start, events)
            && (s.lock.untold != STATUS_OK <==> exists d <- s.hist.processed :: d.acked && !d.written)
  {
    hide Reach, Inv, FirstMissed;
    MissedRuns(start, events);
    ReachInv(start, events);
    Unwritten(Reach(start, events));
  }

  lemma OpenMissesNot(s: Op, e: Event)
    requires e.JobReturns? ==> JobKindOf(s) != Some(WriteJob)
    ensures Missed(s, e) == STATUS_OK
  {}

  lemma Unwritten(s: Op)
    requires Inv(s)
    ensures AckedUnwritten(s.hist.processed) ==> s.lock.untold != STATUS_OK
  {
    hide StoreOk, JobSafe, HistOk, AckOk, WrittenOk, ThroughOk, ClientOk;
  }

  /** A lock that has ended ended with OK exactly if every acknowledged block whose buffer was
      written or given up is on disk and the close job, if the chunk was open, succeeded. */
  lemma EndedOkIff(start: Start, events: seq<Event>)
    requires start.Valid() && Reach(start, events).lock.end.Some?
    ensures var s := Reach(start, events);
            s.lock.end == Some(STATUS_OK) <==>
            (forall d <- s.hist.processed :: d.acked ==> d.written) && (s.flags.open ==> CloseStatus(start, events) == Some(STATUS_OK))
  {
    hide Reach;
    LockEnd(start, events);
    UntoldIs(start, events);
  }
}
