/** Which buffers an operation owns and which it gives to the pool of input buffers. */
module WritePool {
  import opened ChunkTypes
  import opened WriteOp

  function LiveIds(st: Store): set<nat> { set b <- st.Live() :: b.id }

  /** The step takes no buffer and gives to the pool only its own. */
  predicate Gives(st: Store, st': Store) { LiveIds(st') <= LiveIds(st) && st'.pool <= st.pool + LiveIds(st) }

  lemma GivesTrans(a: Store, b: Store, c: Store)
    requires Gives(a, b) && Gives(b, c)
    ensures Gives(a, c)
  {}

  lemma SameLive(st: Store, st': Store)
    requires |st'.Live()| == |st.Live()| && st'.pool == st.pool
    requires forall k :: 0 <= k < |st.Live()| ==> st'.Live()[k].id == st.Live()[k].id
    ensures Gives(st, st')
  {
    forall x | x in LiveIds(st') ensures x in LiveIds(st) {
      var k :| 0 <= k < |st'.Live()| && st'.Live()[k].id == x;
      assert st.Live()[k] in st.Live();
    }
  }

  lemma PushGives(s: Op)
    requires s.store.input.Some?
    ensures Gives(s.store, PushInput(s).store)
  {
    assert PushInput(s).store.Live() == s.store.Live();
  }

  lemma {:induction false} InstantReplyIds(st: Store, i: nat)
    ensures var st' := InstantReply(st, i).0;
            && |st'.Live()| == |st.Live()| && st'.pool == st.pool
            && forall k :: 0 <= k < |st.Live()| ==> st'.Live()[k].id == st.Live()[k].id
    decreases |st.Live()| - i
  {
    if i < |st.Live()| && !st.Live()[i].updating {
      var b := st.Live()[i];
      if b.AllReplied() {
        InstantReplyIds(st, i + 1);
      } else if st.available + b.replied >= |b.blocks| {
        ReplyIds(st, i);
        InstantReplyIds(ReplyAt(st, i), i + 1);
        hide ReplyAt;
      }
    }
  }

  lemma ReplyIds(st: Store, i: nat)
    requires i < |st.Live()|
    ensures var st' := ReplyAt(st, i);
            && |st'.Live()| == |st.Live()| && st'.pool == st.pool
            && forall k :: 0 <= k < |st.Live()| ==> st'.Live()[k].id == st.Live()[k].id
  {
    var b := st.Live()[i];
    assert ReplyAt(st, i).Live() == SetLive(st, i, b.(replied := |b.blocks|)).Live();
  }

  lemma ReplyGives(s: Op)
    ensures Gives(s.store, TryInstantReply(s).store)
  {
    InstantReplyIds(s.store, 0);
    hide InstantReply;
    SameLive(s.store, TryInstantReply(s).store);
  }

  lemma ContinueGives(s: Op)
    ensures Gives(s.store, ContinueWriting(s).store)
  {
    ReplyGives(s);
    hide TryInstantReply, Gives, PushInput;
    var s1 := TryInstantReply(s);
    if s1.store.queue == [] && s1.store.input.Some? && !s1.store.input.value.updating {
      PushGives(s1);
      GivesTrans(s.store, s1.store, PushInput(s1).store);
    }
  }

  /** A new block may take the buffer named, and no other. */
  lemma BeginGives(s: Op, id: nat)
    ensures var st := Begin(s, id).store; LiveIds(st) <= LiveIds(s.store) + {id} && st.pool <= s.store.pool
  {
    var st := Begin(s, id).store;
    forall x | x in LiveIds(st) && x != id ensures x in LiveIds(s.store) {
      var b :| b in st.Live() && b.id == x;
      if b in s.store.queue {
        assert b in s.store.Live();
      } else {
        assert s.store.input.Some? && s.store.input.value.id == x && s.store.input.value in s.store.Live();
      }
    }
  }

  lemma CompleteGives(s: Op, w: Write)
    requires s.store.input.Some?
    ensures Gives(s.store, Complete(s, w).store)
  {
    var s0 := Receive(s, w);
    SameLive(s.store, s0.store);
    hide TryInstantReply, Gives, PushInput;
    var s1 := TryInstantReply(s0);
    ReplyGives(s0);
    GivesTrans(s.store, s0.store, s1.store);
    if s1.store.input.Some? && (s1.task.job == NoJob || s1.store.input.value.Full()) {
      PushGives(s1);
      GivesTrans(s.store, s1.store, PushInput(s1).store);
    }
  }

  lemma {:induction false} DiscardPool(st: Store, bs: seq<Buf>, retain: set<nat>)
    ensures Discard(st, bs, retain).pool <= st.pool + set b <- bs :: b.id
    decreases |bs|
  {
    if bs != [] {
      DiscardPool(Put(Unregister(st, bs[0]), bs[0], retain), bs[1..], retain);
      assert bs[0] in bs;
      assert forall b :: b in bs[1..] ==> b in bs;
    }
  }

  lemma CleanupGives(s: Op, retain: set<nat>)
    ensures Gives(s.store, Cleanup(s, retain).store)
  {
    DiscardPool(s.store, s.store.Live(), retain);
    hide Discard;
    assert Cleanup(s, retain).store.Live() == [];
  }

  lemma EndGives(s: Op, drained: bool, busy: bool, retain: set<nat>)
    ensures Gives(s.store, WriteEnd(s, drained, busy, retain).store)
  {
    hide PushInput, Cleanup, Gives;
    var s1 := TrySeal(s).0;
    assert Gives(s.store, s1.store) by {
      if s.store.input.Some? { PushGives(s); }
      SameLive(s.store, s.store);
    }
    CleanupGives(s1, retain);
    GivesTrans(s.store, s1.store, Cleanup(s1, retain).store);
  }

  lemma RetireGives(s: Op, retain: set<nat>)
    requires s.task.job.Job? && s.task.job.phase.Finished? && s.store.queue != []
    ensures Gives(s.store, Retire(s, retain).0.store)
  {
    var st, st' := s.store, Retire(s, retain).0.store;
    assert st.Live()[0] == st.queue[0];
    assert st'.Live() == st.Live()[1..];
  }

  lemma WriteFinishedGives(s: Op, retain: set<nat>)
    requires s.task.job.Job? && s.task.job.phase.Finished?
    ensures Gives(s.store, WriteFinished(s, retain).store)
  {
    hide ContinueWriting, Settle;
    if s.store.queue == [] {
      SameLive(s.store, s.store);
    } else {
      RetireGives(s, retain);
      var s1 := Retire(s, retain).0;
      hide Retire;
      ContinueGives(s1);
      hide Gives;
      GivesTrans(s.store, s1.store, ContinueWriting(s1).store);
    }
  }

  lemma OpenFinishedGives(s: Op)
    requires s.task.job.Job? && s.task.job.phase.Finished?
    ensures Gives(s.store, OpenFinished(s).store)
  {
    SameLive(s.store, s.store);
    hide ContinueWriting, Gives;
    if s.task.job.phase.status == STATUS_OK {
      ContinueGives(s.(task := s.task.(job := NoJob), client := LocalOk(s.client, s.Last(), s.task.writeId),
                       flags := s.flags.(open := true),
                       hist := s.hist.(greeting := s.hist.greeting + [s.task.writeId])));
    }
  }

  lemma CloseInputGives(t: Trimmed, retain: set<nat>)
    ensures Gives(t.store, CloseInput(t, retain).store)
  {
    var st, st' := t.store, CloseInput(t, retain).store;
    if st.input.Some? {
      assert st.Live()[|st.queue|] == st.input.value;
      forall x | x in LiveIds(st') ensures x in LiveIds(st) {
        var b :| b in st'.Live() && b.id == x;
        if b in st.queue { assert b in st.Live(); }
      }
    }
  }

  lemma DropOneGives(t: Trimmed, retain: set<nat>)
    requires t.store.queue != []
    ensures var n := |t.store.queue|;
            Gives(t.store, Put(t.store, t.store.queue[n - 1], retain).(queue := t.store.queue[..n - 1]))
  {
    var n := |t.store.queue|;
    var st' := Put(t.store, t.store.queue[n - 1], retain).(queue := t.store.queue[..n - 1]);
    assert t.store.Live()[n - 1] == t.store.queue[n - 1];
    forall x | x in LiveIds(st') ensures x in LiveIds(t.store) {
      var b :| b in st'.Live() && b.id == x;
      assert b in t.store.Live();
    }
  }

  lemma {:induction false} DropGives(t: Trimmed, keep: nat, retain: set<nat>)
    ensures Gives(t.store, DropUnreplied(t, keep, retain).store)
    decreases |t.store.queue|
  {
    SameLive(t.store, t.store);
    hide Gives;
    var n := |t.store.queue|;
    if n > keep && t.store.queue[n - 1].replied == 0 {
      var b := t.store.queue[n - 1];
      var t1 := Trimmed(Put(t.store, b, retain).(queue := t.store.queue[..n - 1]), b.blocks + t.dropped);
      DropOneGives(t, retain);
      DropGives(t1, keep, retain);
      GivesTrans(t.store, t1.store, DropUnreplied(t1, keep, retain).store);
    }
  }

  lemma CloseGives(s: Op, retain: set<nat>)
    ensures Gives(s.store, DelayedClose(s, retain).store)
  {
    SameLive(s.store, s.store);
    var t := Trimmed(s.store, s.hist.dropped);
    CloseInputGives(t, retain);
    hide Gives, CloseInput, DropUnreplied;
    var t1, keep := CloseInput(t, retain), if s.task.job != NoJob then 1 else 0;
    DropGives(t1, keep, retain);
    GivesTrans(s.store, t1.store, DropUnreplied(t1, keep, retain).store);
  }

  /** Every step gives to the pool only buffers of its own operation, and takes at most the
      buffer a new block was given. */
  lemma StepGives(s: Op, e: Event)
    requires Enabled(s, e) && !e.PoolMoves?
    ensures var st := Apply(s, e).store;
            && LiveIds(st) <= LiveIds(s.store) + (if e.BlockBegins? then {e.id} else {})
            && st.pool <= s.store.pool + LiveIds(s.store)
  {
    SameLive(s.store, s.store);
    hide Begin, Complete, WriteEnd, TryInstantReply, WriteFinished, OpenFinished, DelayedClose, Cleanup, MayMove, LiveIds;
    match e
    case BlockBegins(id) => BeginGives(s, id);
    case BlockArrives(w) => CompleteGives(s, w);
    case EndRequested(drained, busy, retain) => EndGives(s, drained, busy, retain);
    case LoopTurn => ReplyGives(s);
    case JobReturns(retain) =>
      WriteFinishedGives(s, retain);
      OpenFinishedGives(s);
    case CloseRequested(retain) => CloseGives(s, retain);
    case CleanedUp(retain) => CleanupGives(s, retain);
    case CreditMoves(delta) => SameLive(s.store, s.store.(available := s.store.available + delta));
    case _ =>
  }
}
