/** What each call into a write operation does in any state it can be in: the answer of its
    callbacks, when it is sealed, what a close keeps, and how buffers are filled and handed on. */
module WriteTurns {
  import opened ChunkTypes
  import opened WriteOp
  import opened StoreInv
  import opened WriteInv
  import opened WriteSteps
  import opened WriteEvents
  import opened WriteRuns
  import opened WriteTheorems
  import opened WriteStatuses
  import opened WriteAnswers

  // ---------------------------------------------------------------- callbacks

  /** The blocks of the finished buffer go on record: the first `done` are on disk, and those replied
      early, those written, and those behind a failed block that was replied early count as
      acknowledged. The operation fails exactly if the job stopped at a block not replied; then it
      tells the client that block's id and starts no further job. */
  lemma WriteAnswered(s: Op, retain: set<nat>)
    requires Inv(s) && Enabled(s, JobReturns(retain)) && s.task.job.kind == WriteJob
    ensures s.store.queue != [] && s.task.job.phase.done <= |s.store.queue[0].blocks|
    ensures var t, b, p, n := Apply(s, JobReturns(retain)), s.store.queue[0], s.task.job.phase, |s.hist.processed|;
            && |t.hist.processed| == n + |b.blocks| && t.hist.processed[..n] == s.hist.processed
            && (forall k :: 0 <= k < |b.blocks| ==>
                  t.hist.processed[n + k] ==
                  Done(b.blocks[k], k < b.replied || (s.mode == Serving && (k < p.done || p.done < b.replied)), k < p.done))
            && t.store.pool == (if b.id in retain then s.store.pool + {b.id} else s.store.pool)
            && (if s.mode == Serving && b.replied <= p.done < |b.blocks|
                then && t.client.replies != [] && t.client.replies[|t.client.replies| - 1] == Reply(p.status, b.blocks[p.done].writeId)
                     && t.link == s.link.(connection := IOFinish) && t.task.job == NoJob && t.store.queue == s.store.queue[1..]
                else t.link.connection == s.link.connection)
  {
    WriteReturns(s, retain);
    hide Inv, Apply, Enabled, Settle, Outcome;
    FinishedAnswers(s, retain);
  }

  lemma FinishedAnswers(s: Op, retain: set<nat>)
    requires WriteDone(s)
    ensures var t, b, p, n := WriteFinished(s, retain), s.store.queue[0], s.task.job.phase, |s.hist.processed|;
            && p.done <= |b.blocks| && |t.hist.processed| == n + |b.blocks| && t.hist.processed[..n] == s.hist.processed
            && (forall k :: 0 <= k < |b.blocks| ==>
                  t.hist.processed[n + k] ==
                  Done(b.blocks[k], k < b.replied || (s.mode == Serving && (k < p.done || p.done < b.replied)), k < p.done))
            && t.store.pool == (if b.id in retain then s.store.pool + {b.id} else s.store.pool)
            && (if s.mode == Serving && b.replied <= p.done < |b.blocks|
                then && t.client.replies != [] && t.client.replies[|t.client.replies| - 1] == Reply(p.status, b.blocks[p.done].writeId)
                     && t.link == s.link.(connection := IOFinish) && t.task.job == NoJob && t.store.queue == s.store.queue[1..]
                else t.link.connection == s.link.connection)
  {
    VerdictIs(s);
    hide Settle, ContinueWriting, LocalOks, Outcome;
    RetireForm(s, retain);
    ContinueLeaves(Retire(s, retain).0);
    ContinuePool(Retire(s, retain).0);
    hide Retire, VerdictOf;
  }

  lemma {:induction false} InstantPool(st: Store, i: nat)
    ensures InstantReply(st, i).0.pool == st.pool
    decreases |st.Live()| - i
  {
    if i < |st.Live()| && !st.Live()[i].updating {
      InstantPool(st, i + 1);
      InstantPool(ReplyAt(st, i), i + 1);
    }
  }

  lemma ContinuePool(s: Op)
    ensures ContinueWriting(s).store.pool == s.store.pool
  {
    hide InstantReply, LocalOks;
    InstantPool(s.store, 0);
  }

  /** The answer to the open job. A failure is told and gives the connection up, a success is told
      under the write id 0; once the operation is closing nothing is told and the chunk is open
      exactly if the job succeeded. */
  lemma OpenAnswered(s: Op, retain: set<nat>)
    requires Inv(s) && Enabled(s, JobReturns(retain)) && s.task.job.kind == OpenJob
    ensures var t, st := Apply(s, JobReturns(retain)), s.task.job.phase.status;
            && (t.flags.open <==> st == STATUS_OK)
            && (s.mode == Serving && st != STATUS_OK ==>
                  && t.client == s.client.(replies := s.client.replies + [Reply(st, 0)])
                  && t.link == s.link.(connection := IOFinish) && t.task.job == NoJob && t.store == s.store)
            && (s.mode == Serving && st == STATUS_OK ==> t.link == s.link && t.hist.greeting == [0] && 0 in t.client.oks)
            && (s.mode != Serving ==> t.client == s.client && t.store == s.store && t.link == s.link.(pending := s.link.pending - 1))
  {
    hide Inv, ContinueWriting, LocalOk;
    OpenIsFirst(s);
    OpenNothing(s);
    if s.task.job.callback != Delayed && s.task.job.phase.status == STATUS_OK {
      var s1 := s.(task := s.task.(job := NoJob), client := LocalOk(s.client, s.Last(), s.task.writeId),
                   flags := s.flags.(open := true), hist := s.hist.(greeting := s.hist.greeting + [s.task.writeId]));
      ContinueLeaves(s1);
      assert 0 in s1.client.oks by { Greeted(s.client, s.Last()); }
      ContinueOks(s1);
    }
  }

  lemma OpenNothing(s: Op)
    requires Inv(s) && s.task.job.Job? && s.task.job.kind == OpenJob
    ensures !s.flags.open && s.hist.greeting == []
  {}

  lemma Greeted(c: Client, last: bool)
    ensures 0 in LocalOk(c, last, 0).oks
  {}

  lemma ContinueOks(s: Op)
    ensures s.client.oks <= ContinueWriting(s).client.oks
  {
    hide InstantReply, LocalOks;
    LocalOksOks(s.client, s.Last(), InstantReply(s.store, 0).1);
  }

  /** A status from the next server of the chain: an error is passed on and gives the connection up,
      an OK is passed on exactly if our own worker had reported the block. */
  lemma NextAnswered(s: Op, status: Status, id: nat)
    requires Enabled(s, NextServer(status, id))
    ensures var t := Apply(s, NextServer(status, id));
            && t.link == (if status != STATUS_OK then s.link.(connection := IOFinish) else s.link)
            && t.client.replies == s.client.replies + (if status != STATUS_OK || id in s.client.partial then [Reply(status, id)] else [])
            && t.client.partial == (if status != STATUS_OK then s.client.partial
                                    else if id in s.client.partial then s.client.partial - {id} else s.client.partial + {id})
            && t.store == s.store && t.task == s.task && t.lock == s.lock
  {}

  // ---------------------------------------------------------------- sealing

  /** A WriteEnd seals the operation exactly if every block it holds is received and acknowledged and
      no acknowledgement waits for the next server. The connection becomes free exactly if it is
      sealed, all output is sent and the job pool has room; the operation goes at once exactly if it
      holds no buffer. */
  lemma EndAnswered(s: Op, drained: bool, busy: bool, retain: set<nat>)
    requires Enabled(s, EndRequested(drained, busy, retain))
    ensures var t := Apply(s, EndRequested(drained, busy, retain));
            && (t.flags.sealed <==> s.client.partial == {} && forall b <- s.store.Live() :: !b.updating && b.replied == |b.blocks|)
            && t.link == s.link.(connection := if t.flags.sealed && drained && !busy then Idle else IOFinish)
            && (t.flags.cleaned <==> t.flags.sealed && drained && s.store.Live() == [])
            && t.client == s.client
  {
    hide Discard, Flat;
    EndSeals(s);
    hide AllReplied;
  }

  lemma EndSeals(s: Op)
    requires !s.flags.sealed
    ensures var t := TrySeal(s).0;
            && (t.flags.sealed <==> s.client.partial == {} && forall b <- s.store.Live() :: !b.updating && b.replied == |b.blocks|)
            && TrySeal(s).1 == t.flags.sealed && t.link == s.link && t.client == s.client && t.flags.cleaned == s.flags.cleaned
            && (t.flags.sealed ==> t.store.queue == s.store.Live())
  {
  }

  // ---------------------------------------------------------------- closing

  /** The loop of delayedClose gives up exactly unreplied buffers, from the back, down to `keep`. */
  lemma {:induction false} DropsUnreplied(t: Trimmed, keep: nat, retain: set<nat>)
    ensures var q, q' := t.store.queue, DropUnreplied(t, keep, retain).store.queue;
            && q' <= q && (forall k :: |q'| <= k < |q| ==> q[k].replied == 0)
            && (|q'| > keep ==> q'[|q'| - 1].replied > 0)
            && (|q'| < keep ==> q' == q)
    decreases |t.store.queue|
  {
    var n := |t.store.queue|;
    if n > keep && t.store.queue[n - 1].replied == 0 {
      var b := t.store.queue[n - 1];
      DropsUnreplied(Trimmed(Put(t.store, b, retain).(queue := t.store.queue[..n - 1]), b.blocks + t.dropped), keep, retain);
    }
  }

  lemma AllRepliedSome(st: Store)
    requires StoreOk(st) && st.input.None? && st.queue != [] && st.queue[|st.queue| - 1].replied > 0
    ensures forall b <- st.queue :: b.replied > 0
  {
    assert st.Live() == st.queue;
    RepliedTail(st);
    if |st.queue| > 1 { assert BufOk(st.Live()[0]) && st.Live()[0].AllReplied(); }
  }

  /** The buffers a close could keep. */
  function Keepable(st: Store): seq<Buf> {
    st.queue + if st.input.Some? && st.input.value.replied > 0 then [st.input.value.(updating := false)] else []
  }

  /** A close before the open job returned leaves all as it is and redirects the callback; a job no
      worker has taken will report NOTDONE. Later, a buffer is given up exactly if none of its blocks
      is acknowledged and no job works on it; a job is under way exactly if a buffer is left. */
  lemma CloseTurns(s: Op, retain: set<nat>)
    requires Inv(s) && Enabled(s, CloseRequested(retain))
    ensures var t := Apply(s, CloseRequested(retain));
            if s.task.job.Job? && s.task.job.kind == OpenJob then
              && t.mode == ClosingOpen && t.store == s.store && t.link == s.link.(pending := s.link.pending + 1)
              && t.task.job == Job(OpenJob, if s.task.job.phase == Queued then Finished(0, ERROR_NOTDONE) else s.task.job.phase, Delayed)
            else
              var all, kept := Keepable(s.store), t.store.queue;
              && t.mode == ClosingWrites && t.store.input.None? && t.link == s.link.(pending := s.link.pending + |kept|)
              && kept <= all && (forall k :: |kept| <= k < |all| ==> all[k].replied == 0)
              && (forall b <- kept :: b.replied > 0 || (s.task.job.Job? && b == s.store.queue[0]))
              && (t.task.job.Job? <==> kept != []) && (s.task.job.Job? ==> t.task == s.task)
  {
    hide Inv, StoreOk, DropUnreplied, CloseInput;
    CloseKind(s);
    CloseStore(s);
    if !s.task.OpenPending() {
      hide DelayedClose;
      KeptIs(s, retain);
    }
  }

  lemma KeptIs(s: Op, retain: set<nat>)
    requires StoreOk(s.store) && !s.task.OpenPending() && (s.task.job != NoJob ==> s.store.queue != [])
    ensures var t, all := DelayedClose(s, retain), Keepable(s.store);
            var kept := t.store.queue;
            && t.mode == ClosingWrites && t.store.input.None? && t.link == s.link.(pending := s.link.pending + |kept|)
            && kept <= all && (forall k :: |kept| <= k < |all| ==> all[k].replied == 0)
            && (forall b <- kept :: b.replied > 0 || (s.task.job.Job? && b == s.store.queue[0]))
            && (t.task.job.Job? <==> kept != []) && (s.task.job.Job? ==> t.task == s.task)
  {
    var t0 := Trimmed(s.store, s.hist.dropped);
    DropsUnreplied(CloseInput(t0, retain), if s.task.job != NoJob then 1 else 0, retain);
    assert CloseInput(t0, retain).store.queue == Keepable(s.store);
    hide StoreOk, DropUnreplied, CloseInput, Keepable, Trims;
    KeptOk(s, retain);
    KeptReplied(s, retain);
    KeptFilled(s, retain);
    assert Kept(s, retain).store.input.None? by { KeptInput(s, retain); }
    DelayedCloseForm(s, retain);
    hide DelayedClose;
  }

  lemma KeptInput(s: Op, retain: set<nat>)
    requires StoreOk(s.store) && (s.task.job != NoJob ==> s.store.queue != [])
    ensures Kept(s, retain).store.input.None?
  {
    hide StoreOk, DropUnreplied, CloseInput;
    KeptOk(s, retain);
  }

  lemma CloseKind(s: Op)
    requires Inv(s) && s.mode == Serving
    ensures s.task.OpenPending() <==> s.task.job.Job? && s.task.job.kind == OpenJob
    ensures s.task.job.Job? && s.task.job.kind == WriteJob ==> s.store.queue != []
  {}

  lemma CloseStore(s: Op)
    requires Inv(s)
    ensures StoreOk(s.store)
  {}

  lemma KeptReplied(s: Op, retain: set<nat>)
    requires StoreOk(s.store) && (s.task.job != NoJob ==> s.store.queue != [])
    ensures forall b <- Kept(s, retain).store.queue :: b.replied > 0 || (s.task.job.Job? && b == s.store.queue[0])
  {
    hide DropUnreplied, CloseInput, StoreOk;
    var q := Kept(s, retain).store.queue;
    KeptOk(s, retain);
    if s.task.job == NoJob && q != [] {
      DropsUnreplied(CloseInput(Trimmed(s.store, s.hist.dropped), retain), 0, retain);
      AllRepliedSome(Kept(s, retain).store);
    }
  }

  /** A kept buffer has blocks to write. */
  lemma KeptFilled(s: Op, retain: set<nat>)
    requires StoreOk(s.store) && (s.task.job != NoJob ==> s.store.queue != [])
    ensures var q := Kept(s, retain).store.queue; q != [] ==> |q[0].blocks| > 0
  {
    hide DropUnreplied, CloseInput;
    KeptOk(s, retain);
    var st := Kept(s, retain).store;
    if st.queue != [] { assert st.Live()[0] == st.queue[0] && BufOk(st.Live()[0]); }
  }

  // ---------------------------------------------------------------- filling buffers

  /** A new buffer is taken exactly if there is none or the last one is full; it holds twice as many
      blocks as the one before, up to the limit, and the full one goes to the end of the queue. */
  lemma BeginTurns(s: Op, id: nat)
    requires Enabled(s, BlockBegins(id))
    ensures var t, input := Apply(s, BlockBegins(id)), s.store.input;
            if input.None? || |input.value.blocks| == input.value.capacity then
              && t.store.input == Some(Buf(id, s.link.nextCount, [], 0, true)) && t.store.queue == s.store.Live()
              && t.store.pool == s.store.pool - {id}
              && t.link == s.link.(nextCount := if 2 * s.link.nextCount <= s.cfg.maxBlocks then 2 * s.link.nextCount else s.cfg.maxBlocks)
            else
              && t.store == s.store.(input := Some(input.value.(updating := true))) && t.link == s.link && t.task == s.task
  {}

  /** A received block goes to the last buffer, which is handed on exactly if it is full or no job is
      under way. */
  lemma ArriveTurns(s: Op, w: Write)
    requires Inv(s) && Enabled(s, BlockArrives(w))
    ensures var t, b := Apply(s, BlockArrives(w)), s.store.input.value;
            if s.task.job == NoJob || |b.blocks| + 1 == b.capacity then
              && t.store.input.None? && |t.store.queue| == |s.store.queue| + 1
              && t.store.queue[|s.store.queue|].blocks == b.blocks + [w]
            else
              && t.store.input.Some? && !t.store.input.value.updating && t.store.input.value.blocks == b.blocks + [w]
              && |t.store.queue| == |s.store.queue| && t.task == s.task
  {
    hide Inv, StoreOk, TryInstantReply;
    CloseStore(s);
    ReceiveOk(s.store, w);
    TryKeeps(Receive(s, w));
  }

  lemma TryKeeps(s: Op)
    requires StoreOk(s.store) && s.store.input.Some?
    ensures var t, b := TryInstantReply(s), s.store.input.value;
            && |t.store.queue| == |s.store.queue| && t.task == s.task && t.store.input.Some?
            && t.store.input.value == b.(replied := t.store.input.value.replied)
  {
    hide StoreOk;
    if MayReplyEarly(s) {
      InstantReplyOk(s.store, 0);
      var (st, ids) := InstantReply(s.store, 0);
      hide InstantReply;
      ExtendedFront(s.store, st, ids);
      assert s.store.Live()[|s.store.queue|] == s.store.input.value && st.Live()[|st.queue|] == st.input.value;
    }
  }

  // ---------------------------------------------------------------- buffer sizes

  /** The event makes the operation take a buffer. */
  predicate TakesBuffer(s: Op, e: Event) {
    e.BlockBegins? && (s.store.input.None? || |s.store.input.value.blocks| == s.store.input.value.capacity)
  }

  /** The buffers an operation has taken in a run. */
  function Taken(start: Start, events: seq<Event>): nat {
    if events == [] then 0
    else
      var n := |events| - 1;
      var s := Reach(start, events[..n]);
      Taken(start, events[..n]) + if Enabled(s, events[n]) && TakesBuffer(s, events[n]) then 1 else 0
  }

  function Doubled(n: nat): nat {
    if n == 0 then 4 else 2 * Doubled(n - 1)
  }

  lemma OtherCount(s: Op, e: Event)
    requires Enabled(s, e) && !e.BlockBegins?
    ensures Apply(s, e).link.nextCount == s.link.nextCount
  {
    hide InstantReply, LocalOks, DropUnreplied, CloseInput, ContinueWriting, Discard, Flat, NotAllocated, Settle, Put, Unregister;
    if e.JobReturns? { ReturnCount(s, e.retain); }
  }

  lemma ReturnCount(s: Op, retain: set<nat>)
    requires Enabled(s, JobReturns(retain))
    ensures Apply(s, JobReturns(retain)).link.nextCount == s.link.nextCount
  {
    hide ContinueWriting, Settle, LocalOks, LocalOk, Put, Unregister;
    if s.task.job.callback == Delayed {
    } else if s.task.job.kind == OpenJob {
      if s.task.job.phase.status == STATUS_OK {
        ContinueLeaves(s.(task := s.task.(job := NoJob), client := LocalOk(s.client, s.Last(), s.task.writeId),
                          flags := s.flags.(open := true), hist := s.hist.(greeting := s.hist.greeting + [s.task.writeId])));
      }
    } else if s.store.queue != [] {
      ContinueLeaves(Retire(s, retain).0);
    }
  }

  lemma StepCount(s: Op, e: Event)
    requires Enabled(s, e)
    ensures Apply(s, e).link.nextCount ==
            if !TakesBuffer(s, e) then s.link.nextCount
            else if 2 * s.link.nextCount <= s.cfg.maxBlocks then 2 * s.link.nextCount else s.cfg.maxBlocks
  {
    if e.BlockBegins? {
      BeginTurns(s, e.id);
    } else {
      hide Apply, Enabled;
      OtherCount(s, e);
    }
  }

  /** The next buffer will hold four blocks doubled for every buffer taken, up to the limit. */
  lemma {:induction false} SizeDoubles(start: Start, events: seq<Event>)
    requires start.Valid()
    ensures var max, n := start.cfg.maxBlocks, Doubled(Taken(start, events));
            Reach(start, events).link.nextCount == if n <= max then n else max
  {
    if events != [] {
      var n := |events| - 1;
      hide Apply, Enabled, TakesBuffer;
      SizeDoubles(start, events[..n]);
      SameConfig(start, events[..n]);
      if Enabled(Reach(start, events[..n]), events[n]) { StepCount(Reach(start, events[..n]), events[n]); }
    }
  }

  // ---------------------------------------------------------------- credit

  lemma {:induction false} InstantCredit(st: Store, i: nat)
    ensures var r := InstantReply(st, i).0; r.available >= 0 || r.available == st.available
    decreases |st.Live()| - i
  {
    if i < |st.Live()| && !st.Live()[i].updating {
      InstantCredit(st, i + 1);
      InstantCredit(ReplyAt(st, i), i + 1);
    }
  }

  /** No buffer that could be replied is left: the first one with unreplied blocks is being received
      or needs more credit than there is. */
  ghost predicate RepliedAsFar(bs: seq<Buf>, available: int) {
    forall j :: 0 <= j < |bs| && bs[j].replied < |bs[j].blocks| && (forall k :: 0 <= k < j ==> !bs[k].updating && bs[k].replied == |bs[k].blocks|) ==>
      bs[j].updating || available < |bs[j].blocks| - bs[j].replied
  }

  lemma {:induction false} InstantStops(st: Store, i: nat)
    requires i <= |st.Live()| && forall k :: 0 <= k < i ==> !st.Live()[k].updating && st.Live()[k].replied == |st.Live()[k].blocks|
    ensures var r := InstantReply(st, i).0; RepliedAsFar(r.Live(), r.available)
    decreases |st.Live()| - i
  {
    if i < |st.Live()| && !st.Live()[i].updating {
      if st.Live()[i].AllReplied() {
        InstantStops(st, i + 1);
      } else if st.available + st.Live()[i].replied >= |st.Live()[i].blocks| {
        InstantStops(ReplyAt(st, i), i + 1);
      }
    }
  }

  lemma TryTurns(s: Op)
    ensures var t := TryInstantReply(s);
            if !s.flags.sealed && s.mode == Serving && s.cfg.locked && !s.cfg.standard && !(s.task.job != NoJob && s.task.writeId == 0)
            then RepliedAsFar(t.store.Live(), t.store.available) && (t.store.available >= 0 || t.store.available == s.store.available)
            else t == s
  {
    hide InstantReply, LocalOks;
    InstantStops(s.store, 0);
    InstantCredit(s.store, 0);
  }

  lemma ContinueTurns(s: Op)
    ensures ContinueWriting(s).store.available == TryInstantReply(s).store.available
    ensures ContinueWriting(s).store.Live() == TryInstantReply(s).store.Live()
  {
    hide TryInstantReply;
  }

  /** Blocks are acknowledged early exactly while the operation serves a locked, non-standard chunk
      that is open and is not sealed: then every step that looks for such blocks acknowledges them, oldest
      first, up to one that is being received or that the credit does not cover. */
  lemma RepliesAsFar(s: Op, e: Event)
    requires Inv(s) && Enabled(s, e) && (e.LoopTurn? || e.BlockArrives? || (e.JobReturns? && NewError(s, e) == []))
    ensures var t := Apply(s, e);
            if s.mode == Serving && !s.flags.sealed && s.cfg.locked && !s.cfg.standard &&
               (e.JobReturns? || !(s.task.job.Job? && s.task.job.kind == OpenJob))
            then RepliedAsFar(t.store.Live(), t.store.available)
            else e.LoopTurn? ==> t == s
  {
    hide Inv, RepliedAsFar, TryInstantReply, ContinueWriting;
    match e
    case LoopTurn =>
      if s.mode == Serving { CloseKind(s); }
      TryTurns(s);
    case BlockArrives(w) =>
      CloseKind(s);
      TryTurns(Receive(s, w));
      PushedLive(TryInstantReply(Receive(s, w)));
    case JobReturns(retain) =>
      if s.mode == Serving && !s.flags.sealed && s.cfg.locked && !s.cfg.standard { ReturnReplies(s, retain); }
    case _ =>
  }

  lemma PushedLive(s: Op)
    ensures s.store.input.Some? ==> PushInput(s).store.Live() == s.store.Live() && PushInput(s).store.available == s.store.available
  {}

  lemma ReturnReplies(s: Op, retain: set<nat>)
    requires Inv(s) && Enabled(s, JobReturns(retain)) && NewError(s, JobReturns(retain)) == [] && s.mode == Serving
    requires !s.flags.sealed && s.cfg.locked && !s.cfg.standard
    ensures var t := Apply(s, JobReturns(retain)); RepliedAsFar(t.store.Live(), t.store.available)
  {
    hide Inv, RepliedAsFar, TryInstantReply, ContinueWriting, Settle, LocalOk;
    if s.task.job.kind == OpenJob {
      OpenIsFirst(s);
      var s1 := s.(task := s.task.(job := NoJob), client := LocalOk(s.client, s.Last(), s.task.writeId),
                   flags := s.flags.(open := true), hist := s.hist.(greeting := s.hist.greeting + [s.task.writeId]));
      TryTurns(s1);
      ContinueTurns(s1);
    } else {
      WriteReturns(s, retain);
      hide Apply, Enabled, Outcome;
      RetireReports(s, retain);
      RetireForm(s, retain);
      TryTurns(Retire(s, retain).0);
      ContinueTurns(Retire(s, retain).0);
    }
  }

  lemma {:induction false} DiscardCredit(st: Store, bs: seq<Buf>, retain: set<nat>)
    ensures Discard(st, bs, retain).available >= st.available
    decreases |bs|
  {
    if bs != [] { DiscardCredit(Put(Unregister(st, bs[0]), bs[0], retain), bs[1..], retain); }
  }

  lemma {:induction false} DropCredit(t: Trimmed, keep: nat, retain: set<nat>)
    ensures DropUnreplied(t, keep, retain).store.available >= t.store.available
    decreases |t.store.queue|
  {
    var n := |t.store.queue|;
    if n > keep && t.store.queue[n - 1].replied == 0 {
      var b := t.store.queue[n - 1];
      DropCredit(Trimmed(Put(t.store, b, retain).(queue := t.store.queue[..n - 1]), b.blocks + t.dropped), keep, retain);
    }
  }

  lemma ReturnCredit(s: Op, retain: set<nat>)
    requires Enabled(s, JobReturns(retain))
    ensures var a := Apply(s, JobReturns(retain)).store.available; a >= 0 || a >= s.store.available
  {
    hide ContinueWriting, TryInstantReply, Settle, LocalOks, LocalOk, RepliedAsFar;
    if s.task.job.callback == Delayed {
    } else if s.task.job.kind == OpenJob {
      if s.task.job.phase.status == STATUS_OK {
        var s1 := s.(task := s.task.(job := NoJob), client := LocalOk(s.client, s.Last(), s.task.writeId),
                     flags := s.flags.(open := true), hist := s.hist.(greeting := s.hist.greeting + [s.task.writeId]));
        TryTurns(s1);
        ContinueTurns(s1);
      }
    } else if s.store.queue != [] {
      TryTurns(Retire(s, retain).0);
      ContinueTurns(Retire(s, retain).0);
    }
  }

  /** The operation itself never overdraws the write-buffering credit. */
  lemma CreditKept(s: Op, e: Event)
    requires Enabled(s, e) && !e.CreditMoves?
    ensures var a := Apply(s, e).store.available; a >= 0 || a >= s.store.available
  {
    hide TryInstantReply, RepliedAsFar, LocalOks, Discard, Flat, DropUnreplied, NotAllocated;
    match e
    case LoopTurn => TryTurns(s);
    case BlockArrives(w) => TryTurns(Receive(s, w));
    case JobReturns(retain) => ReturnCredit(s, retain);
    case CloseRequested(retain) =>
      DropCredit(CloseInput(Trimmed(s.store, s.hist.dropped), retain), if s.task.job != NoJob then 1 else 0, retain);
    case CleanedUp(retain) => DiscardCredit(s.store, s.store.Live(), retain);
    case EndRequested(drained, busy, retain) =>
      DiscardCredit(TrySeal(s).0.store, TrySeal(s).0.store.Live(), retain);
    case _ =>
  }
}
