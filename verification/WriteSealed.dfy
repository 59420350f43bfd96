/** What a sealed operation still says, and the agreement of buffers, registry and pool. */
module WriteSealed {
  import opened ChunkTypes
  import opened WriteOp
  import opened StoreInv
  import opened ClientInv
  import opened WriteInv
  import opened WriteEvents
  import opened WriteRuns
  import opened WriteTheorems

  // ---------------------------------------------------------------- sealing

  predicate Opening(s: Op) { s.task.job.Job? && s.task.job.kind == OpenJob }

  /** The open request is still to be answered and may be answered with an error. */
  predicate MayFailOpen(s: Op) {
    && !s.flags.cleaned && Opening(s) && s.task.job.callback == Normal
    && !(s.task.job.phase.Finished? && s.task.job.phase.status == STATUS_OK)
  }

  /** Sealing while the open job is pending leaves no half-completed write. */
  ghost predicate SealedQuiet(s: Op) {
    s.flags.sealed && Opening(s) ==> s.client.partial == {}
  }

  ghost predicate Sealed(s: Op) { Inv(s) && s.flags.sealed && SealedQuiet(s) }

  lemma SealedWrote(s: Op, retain: set<nat>)
    requires Core(s) && s.flags.sealed && s.task.job.Job? && s.task.job.kind == WriteJob && s.task.job.phase.Finished?
    ensures WriteFinished(s, retain).client == s.client && WriteFinished(s, retain).flags == s.flags
    ensures !Opening(WriteFinished(s, retain))
  {
    JobDone(s);
    SealedFront(s);
    VerdictQuiet(s);
    hide Core, Settle;
  }

  lemma SealedOpened(s: Op)
    requires Inv(s) && s.flags.sealed && Opening(s) && s.task.job.phase.Finished? && !s.flags.cleaned
    requires s.mode == Serving && s.task.job.phase.status == STATUS_OK && s.client.partial == {}
    ensures OpenFinished(s).client.replies == s.client.replies && OpenFinished(s).flags.sealed
    ensures !Opening(OpenFinished(s))
  {
    hide StoreOk, HistOk, AckOk, ClientOk, TellOk, WrittenOk, ThroughOk;
    assert !s.Last();
  }

  lemma SealedReturns(s: Op, retain: set<nat>)
    requires Sealed(s) && !MayFailOpen(s) && Enabled(s, JobReturns(retain))
    ensures var s' := Apply(s, JobReturns(retain));
            && s'.client.replies == s.client.replies && s'.flags.sealed && !MayFailOpen(s') && SealedQuiet(s')
  {
    if s.task.job.callback == Normal {
      ReturnKind(s);
      hide Core;
      if s.task.job.kind == OpenJob { SealedOpened(s); } else { SealedWrote(s, retain); }
    }
  }

  lemma SealedStep(s: Op, e: Event)
    requires Sealed(s) && !MayFailOpen(s) && Enabled(s, e)
    ensures var s' := Apply(s, e);
            && s'.client.replies == s.client.replies && s'.flags.sealed && !MayFailOpen(s') && SealedQuiet(s')
  {
    if e.JobReturns? { SealedReturns(s, e.retain); }
    hide Core;
  }

  // ---------------------------------------------------------------- half-completed writes

  lemma ContinueFrame(s: Op)
    requires s.task.job == NoJob
    ensures ContinueWriting(s).flags == s.flags && !Opening(ContinueWriting(s))
  {}

  lemma WriteFinishedFrame(s: Op, retain: set<nat>)
    requires s.task.job.Job? && s.task.job.phase.Finished?
    ensures WriteFinished(s, retain).flags.sealed == s.flags.sealed && !Opening(WriteFinished(s, retain))
  {
    hide ContinueWriting, Settle, Opening;
    if s.store.queue != [] { ContinueFrame(Retire(s, retain).0); }
    assert !Opening(s.(task := s.task.(job := NoJob))) by { NotOpening(s.(task := s.task.(job := NoJob))); }
    if s.store.queue == [] || Retire(s, retain).1 {
      NotOpening(WriteFinished(s, retain));
    } else {
      SameTask(ContinueWriting(Retire(s, retain).0), WriteFinished(s, retain));
    }
  }

  lemma NotOpening(s: Op)
    requires s.task.job == NoJob
    ensures !Opening(s)
  {}

  lemma SameTask(s: Op, s': Op)
    requires s'.task == s.task
    ensures Opening(s') == Opening(s)
  {}

  lemma OpenFinishedFrame(s: Op)
    requires s.task.job.Job? && s.task.job.phase.Finished?
    ensures OpenFinished(s).flags.sealed == s.flags.sealed && !Opening(OpenFinished(s))
  {
    hide ContinueWriting;
    if s.task.job.phase.status == STATUS_OK {
      ContinueFrame(s.(task := s.task.(job := NoJob), client := LocalOk(s.client, s.Last(), s.task.writeId),
                       flags := s.flags.(open := true),
                       hist := s.hist.(greeting := s.hist.greeting + [s.task.writeId])));
    }
  }

  lemma QuietReturn(s: Op, retain: set<nat>)
    requires SealedQuiet(s) && Enabled(s, JobReturns(retain))
    ensures SealedQuiet(Apply(s, JobReturns(retain)))
  {
    hide WriteFinished, OpenFinished;
    WriteFinishedFrame(s, retain);
    OpenFinishedFrame(s);
  }

  lemma QuietEnd(s: Op, drained: bool, busy: bool, retain: set<nat>)
    requires !s.flags.sealed
    ensures SealedQuiet(WriteEnd(s, drained, busy, retain))
  {}

  lemma QuietArrival(s: Op, w: Write)
    requires !s.flags.sealed && s.store.input.Some?
    ensures SealedQuiet(Complete(s, w))
  {}

  lemma QuietStep(s: Op, e: Event)
    requires SealedQuiet(s) && Enabled(s, e)
    ensures SealedQuiet(Apply(s, e))
  {
    hide Complete, WriteEnd;
    match e
    case JobReturns(retain) => QuietReturn(s, retain);
    case EndRequested(drained, busy, retain) => QuietEnd(s, drained, busy, retain);
    case BlockArrives(w) => QuietArrival(s, w);
    case _ =>
  }

  lemma {:induction false} QuietRun(start: Start, events: seq<Event>)
    requires start.Valid()
    ensures SealedQuiet(Reach(start, events)) && Inv(Reach(start, events))
  {
    hide Inv, Apply, Enabled, SealedQuiet;
    ReachInv(start, events);
    if events == [] {
      assert SealedQuiet(Reach(start, [])) by { QuietSetup(start); }
    } else {
      var n := |events| - 1;
      QuietRun(start, events[..n]);
      var before := Reach(start, events[..n]);
      if Enabled(before, events[n]) { QuietStep(before, events[n]); }
    }
  }

  lemma QuietSetup(start: Start)
    ensures SealedQuiet(Reach(start, []))
  {}

  lemma NotConsumed(s: Op)
    requires Core(s) && MayFailOpen(s)
    ensures s.task.job.phase != Consumed
  {}

  // ---------------------------------------------------------------- registry and pool

  ghost predicate Registered(st: Store, id: nat) { exists e :: e in st.registry && e.bufId == id }

  lemma {:induction false} RegistryHas(bs: seq<Buf>, i: nat)
    requires BufsOk(bs) && i < |bs| && bs[i].replied > 0
    ensures EntryOf(bs[i]) in RegistryOf(bs)
  {
    if i > 0 {
      assert BufOk(bs[0]) && bs[0].AllReplied();
      TailBufsOk(bs);
      RegistryHas(bs[1..], i - 1);
    }
  }

  /** In every reachable state a buffer of the operation is registered exactly when some of
      its blocks are acknowledged; its snapshot describes exactly those blocks; and neither
      a live nor a registered buffer is in the pool. */
  lemma NoAliasing(start: Start, events: seq<Event>, i: nat)
    requires start.Valid() && i < |Reach(start, events).store.Live()|
    ensures var st := Reach(start, events).store;
            var b := st.Live()[i];
            && (Registered(st, b.id) <==> b.replied > 0)
            && (forall e <- st.registry :: e.bufId == b.id ==> e.snapshot == Infos(b.blocks[..b.replied]))
            && b.id !in st.pool
  {
    hide Reach;
    ReachInv(start, events);
    var st := Reach(start, events).store;
    assert StoreOk(st);
    hide Inv;
    RegisteredIff(st, i);
  }

  lemma RegisteredIff(st: Store, i: nat)
    requires StoreOk(st) && i < |st.Live()|
    ensures var b := st.Live()[i];
            && (Registered(st, b.id) <==> b.replied > 0)
            && (forall e <- st.registry :: e.bufId == b.id ==> e.snapshot == Infos(b.blocks[..b.replied]))
  {
    var b := st.Live()[i];
    forall e | e in st.registry && e.bufId == b.id ensures e == EntryOf(b) && b.replied > 0 {
      EntryOwner(st.Live(), e, i);
    }
    if b.replied > 0 { RegistryHas(st.Live(), i); }
  }

  lemma EntryOwner(bs: seq<Buf>, e: Entry, i: nat)
    requires BufsOk(bs) && e in RegistryOf(bs) && i < |bs| && e.bufId == bs[i].id
    ensures e == EntryOf(bs[i]) && bs[i].replied > 0
  {
    RegistryMembers(bs, e);
    var j :| 0 <= j < |bs| && e == EntryOf(bs[j]) && bs[j].replied > 0;
    assert i == j;
  }

  /** Every registered buffer is one of the operation's own. */
  lemma RegistryOwned(start: Start, events: seq<Event>, e: Entry)
    requires start.Valid() && e in Reach(start, events).store.registry
    ensures var st := Reach(start, events).store;
            e.bufId !in st.pool && exists i :: 0 <= i < |st.Live()| && st.Live()[i].id == e.bufId
  {
    hide Reach;
    ReachInv(start, events);
    var st := Reach(start, events).store;
    assert StoreOk(st);
    hide Inv;
    RegistryMembers(st.Live(), e);
  }

  /** The buffer a write job works on is the oldest of the operation's own, and not in the pool. */
  lemma RunningJobOwned(start: Start, events: seq<Event>)
    requires start.Valid()
    ensures var s := Reach(start, events);
            s.task.job.Job? && s.task.job.kind == WriteJob && (s.task.job.phase == Queued || s.task.job.phase.Running?) ==>
              s.store.queue != [] && s.store.queue[0].blocks != [] && s.store.queue[0].id !in s.store.pool
  {
    hide Reach;
    ReachInv(start, events);
    JobOwned(Reach(start, events));
  }

  lemma JobOwned(s: Op)
    requires Core(s)
    ensures s.task.job.Job? && s.task.job.kind == WriteJob && (s.task.job.phase == Queued || s.task.job.phase.Running?) ==>
              s.store.queue != [] && s.store.queue[0].blocks != [] && s.store.queue[0].id !in s.store.pool
  {
    hide HistOk, AckOk, TellOk, WrittenOk, ThroughOk, ClientOk, RegistryOf;
    if s.store.queue != [] { assert s.store.Live()[0] == s.store.queue[0]; }
  }

  /** A buffer has replied blocks only if all earlier buffers are fully replied. */
  lemma RepliedInBufferOrder(start: Start, events: seq<Event>, i: nat, j: nat)
    requires start.Valid() && i < j < |Reach(start, events).store.Live()|
    ensures var bs := Reach(start, events).store.Live(); bs[j].replied > 0 ==> bs[i].AllReplied()
  {
    hide Reach;
    ReachInv(start, events);
    var st := Reach(start, events).store;
    assert StoreOk(st);
    hide Inv;
    assert Ordered(st.Live());
  }
}
