/** WriteHighLevelOp as the code has it: an object whose methods update its fields in
    loops, each method proved to be the corresponding step of the state machine. */
module WriteHighLevelOps {
  import opened ChunkTypes
  import opened WriteOp
  import opened StoreInv

  class WriteHighLevelOp {
    const cfg: Config
    var flags: Flags
    var mode: Mode
    var task: Task
    var queue: seq<Buf>
    var input: Option<Buf>
    var registry: seq<Entry>
    var pool: set<nat>
    var available: int
    var client: Client
    var link: Link
    var lock: Lock
    ghost var hist: History

    ghost function Buffers(): Store
      reads this
    {
      Store(queue, input, registry, pool, available)
    }

    ghost function View(): Op
      reads this
    {
      Op(cfg, flags, mode, task, Buffers(), client, link, lock, hist)
    }

    /** setup. */
    constructor (cfg: Config, connection: Connection, pool: set<nat>, available: int)
      ensures View() == Setup(cfg, connection, pool, available)
    {
      this.cfg := cfg;
      flags, mode := Flags(false, false, false, false), Serving;
      task := Task(Job(OpenJob, Queued, Normal), 0);
      queue, input, registry, this.pool, this.available := [], None, [], pool, available;
      client := Client([], {}, [], []);
      link := Link(connection, 0, if cfg.maxBlocks < 4 then cfg.maxBlocks else 4);
      lock := Lock(STATUS_OK, false, None);
      hist := History([], [], [], [], []);
    }

    predicate IsLast()
      reads this
    {
      link.connection == WriteLast
    }

    // -------------------------------------------------------------- replies

    /** updateUsingWriteStatusAndReply. */
    method UpdateUsingWriteStatusAndReply(status: Status, writeId: nat)
      modifies `client, `link, `flags
      ensures if status == STATUS_OK
              then client == LocalOk(old(client), old(IsLast()), writeId) && link == old(link) && flags == old(flags)
              else client == Failed(old(client), Reply(status, writeId)) && link == old(link).(connection := IOFinish)
                   && flags == old(flags).(errored := true)
    {
      if status != STATUS_OK {
        client := client.(replies := client.replies + [Reply(status, writeId)]);
        link := link.(connection := IOFinish);
        flags := flags.(errored := true);
        return;
      }
      client := client.(oks := client.oks + [writeId]);
      if IsLast() {
        client := client.(replies := client.replies + [Reply(status, writeId)]);
      } else if writeId in client.partial {
        client := client.(replies := client.replies + [Reply(status, writeId)], partial := client.partial - {writeId});
      } else {
        client := client.(partial := client.partial + {writeId});
      }
    }

    /** The inner loop of bufferLevelInstantReply: OK for each block not yet replied. */
    method ReplyRest(b: Buf) returns (r: Buf)
      modifies `client, `link, `flags
      ensures r == b.(replied := |b.blocks|) && link == old(link) && flags == old(flags)
      ensures client == LocalOks(old(client), old(IsLast()), Ids(b.blocks[b.replied..]))
    {
      r := b;
      ghost var ids := Ids(b.blocks[b.replied..]);
      while r.replied < |r.blocks|
        invariant b.replied <= r.replied <= |b.blocks| && r == b.(replied := r.replied)
        invariant link == old(link) && flags == old(flags)
        invariant client == LocalOks(old(client), old(IsLast()), ids[..r.replied - b.replied])
      {
        ghost var n := r.replied - b.replied;
        assert ids[..n + 1][..n] == ids[..n] && ids[n] == r.blocks[r.replied].writeId;
        UpdateUsingWriteStatusAndReply(STATUS_OK, r.blocks[r.replied].writeId);
        r := r.(replied := r.replied + 1);
      }
      assert ids[..|ids|] == ids;
    }

    /** hddInsertAlreadyRepliedInputBuffer. */
    method InsertReplied(id: nat, snapshot: seq<Info>, first: bool)
      modifies `registry
      ensures registry == if first then old(registry) + [Entry(id, snapshot)] else Refresh(old(registry), id, snapshot)
    {
      hide Refresh;
      if first {
        registry := registry + [Entry(id, snapshot)];
        return;
      }
      var i := 0;
      while i < |registry|
        invariant i <= |registry| && registry == old(registry)
        invariant forall k :: 0 <= k < i ==> registry[k].bufId != id
      {
        if registry[i].bufId == id {
          RefreshAt(registry, i, snapshot);
          registry := registry[i := Entry(id, snapshot)];
          return;
        }
        i := i + 1;
      }
      RefreshAbsent(registry, id, snapshot);
    }

    /** hddRemoveAlreadyRepliedInputBuffer. */
    method RemoveReplied(id: nat)
      modifies `registry
      ensures registry == Without(old(registry), id)
    {
      var kept := [];
      for i := 0 to |registry|
        invariant registry == old(registry) && kept == Without(registry[..i], id)
      {
        assert registry[..i + 1] == registry[..i] + [registry[i]];
        WithoutSnoc(registry[..i], registry[i], id);
        if registry[i].bufId != id { kept := kept + [registry[i]]; }
      }
      assert registry[..|registry|] == registry;
      registry := kept;
    }

    /** bufferLevelInstantReply. */
    method BufferLevelInstantReply(b: Buf) returns (r: Buf)
      modifies `client, `link, `flags, `registry, `available
      ensures r == b.(replied := |b.blocks|) && link == old(link) && flags == old(flags)
      ensures client == LocalOks(old(client), old(IsLast()), Ids(b.blocks[b.replied..]))
      ensures registry == if b.replied == 0 then old(registry) + [Entry(b.id, Infos(b.blocks))]
                          else Refresh(old(registry), b.id, Infos(b.blocks))
      ensures available == old(available) - (|b.blocks| - b.replied)
    {
      InsertReplied(b.id, Infos(b.blocks), b.replied == 0);
      available := available - (|b.blocks| - b.replied);
      r := ReplyRest(b);
    }

    /** bufferLevelInstantReply on a buffer in its place. */
    method ReplyInPlace(i: nat)
      requires i < |Buffers().Live()|
      modifies `queue, `input, `client, `link, `flags, `registry, `available
      ensures Buffers() == ReplyAt(old(Buffers()), i) && link == old(link) && flags == old(flags)
      ensures client == LocalOks(old(client), old(IsLast()), Unreplied(old(Buffers()), i))
      ensures |queue| == |old(queue)|
      ensures (forall b <- old(queue) :: !b.updating) ==> forall b <- queue :: !b.updating
    {
      if i < |queue| {
        var r := BufferLevelInstantReply(queue[i]);
        queue := queue[i := r];
      } else {
        var r := BufferLevelInstantReply(input.value);
        input := Some(r);
      }
    }

    /** `begun` is what a run of instant replies ends with; it has come to the i-th live
        buffer and has acknowledged `ids`. */
    ghost predicate Onward(i: nat, begun: (Store, seq<nat>), ids: seq<nat>, before: Client)
      reads this
    {
      && begun == (InstantReply(Buffers(), i).0, ids + InstantReply(Buffers(), i).1)
      && client == LocalOks(before, IsLast(), ids)
    }

    lemma OnwardSkips(i: nat, begun: (Store, seq<nat>), ids: seq<nat>, before: Client)
      requires Onward(i, begun, ids, before) && i < |Buffers().Live()|
      requires !Buffers().Live()[i].updating && Buffers().Live()[i].AllReplied()
      ensures Onward(i + 1, begun, ids, before)
    {}

    lemma OnwardStops(i: nat, begun: (Store, seq<nat>), ids: seq<nat>, before: Client)
      requires Onward(i, begun, ids, before)
      requires i < |Buffers().Live()| && !Buffers().Live()[i].updating ==>
                 !Buffers().Live()[i].AllReplied() && available + Buffers().Live()[i].replied < |Buffers().Live()[i].blocks|
      ensures Buffers() == begun.0 && client == LocalOks(before, IsLast(), begun.1)
    {
      assert ids + [] == ids;
    }

    /** Replying the i-th live buffer is the next step of the run. */
    method ReplyOnward(i: nat, ghost begun: (Store, seq<nat>), ghost ids: seq<nat>, ghost before: Client)
      returns (ghost more: seq<nat>)
      requires Onward(i, begun, ids, before) && i < |Buffers().Live()|
      requires !Buffers().Live()[i].updating && !Buffers().Live()[i].AllReplied()
      requires available + Buffers().Live()[i].replied >= |Buffers().Live()[i].blocks|
      modifies `queue, `input, `client, `link, `flags, `registry, `available
      ensures Onward(i + 1, begun, ids + more, before) && link == old(link) && flags == old(flags) && pool == old(pool)
      ensures |queue| == |old(queue)| && |Buffers().Live()| == old(|Buffers().Live()|)
      ensures (forall b <- old(queue) :: !b.updating) ==> forall b <- queue :: !b.updating
    {
      hide InstantReply, ReplyAt, LocalOks, Unreplied;
      ghost var was := Buffers();
      more := Unreplied(was, i);
      ReplyUnfolds(was, i);
      ReplyInPlace(i);
      LocalOksConcat(before, IsLast(), ids, more);
      assert ids + (more + InstantReply(Buffers(), i + 1).1) == ids + more + InstantReply(Buffers(), i + 1).1;
    }

    /** tryInstantReply. */
    method TryInstantReply()
      requires forall b <- queue :: !b.updating
      modifies `queue, `input, `client, `link, `flags, `registry, `available
      ensures View() == WriteOp.TryInstantReply(old(View()))
      ensures |queue| == |old(queue)| && forall b <- queue :: !b.updating
    {
      if flags.sealed || mode != Serving || task.OpenPending() || !cfg.locked || cfg.standard { return; }
      ghost var begun, before := InstantReply(Buffers(), 0), client;
      assert [] + begun.1 == begun.1;
      assert Onward(0, begun, [], before);
      hide Onward, InstantReply, LocalOks;
      ReplyBuffers(begun, before);
    }

    /** The buffers in their order, up to one that is being received or that the credit does
        not cover. */
    method ReplyBuffers(ghost begun: (Store, seq<nat>), ghost before: Client)
      requires Onward(0, begun, [], before) && forall b <- queue :: !b.updating
      modifies `queue, `input, `client, `link, `flags, `registry, `available
      ensures Buffers() == begun.0 && client == LocalOks(before, IsLast(), begun.1)
      ensures link == old(link) && flags == old(flags) && |queue| == |old(queue)| && forall b <- queue :: !b.updating
    {
      hide Onward, InstantReply, LocalOks;
      ghost var ids := [];
      var i := 0;
      while i < |queue|
        invariant i <= |queue| == |old(queue)| && forall b <- queue :: !b.updating
        invariant Onward(i, begun, ids, before) && link == old(link) && flags == old(flags)
      {
        var b := queue[i];
        assert Buffers().Live()[i] == b && b in queue;
        if b.replied == |b.blocks| {
          OnwardSkips(i, begun, ids, before);
        } else if available + b.replied < |b.blocks| {
          OnwardStops(i, begun, ids, before);
          return;
        } else {
          ghost var more := ReplyOnward(i, begun, ids, before);
          ids := ids + more;
        }
        i := i + 1;
      }
      TryReplyInput(begun, ids, before);
    }

    /** The input buffer, last in the order of reply. */
    method TryReplyInput(ghost begun: (Store, seq<nat>), ghost ids: seq<nat>, ghost before: Client)
      requires Onward(|queue|, begun, ids, before) && forall b <- queue :: !b.updating
      modifies `queue, `input, `client, `link, `flags, `registry, `available
      ensures Buffers() == begun.0 && client == LocalOks(before, IsLast(), begun.1)
      ensures link == old(link) && flags == old(flags) && |queue| == |old(queue)| && forall b <- queue :: !b.updating
    {
      hide Onward, InstantReply, LocalOks;
      ghost var i, more := |queue|, [];
      assert input.Some? ==> Buffers().Live()[i] == input.value;
      if input.None? || input.value.updating {
        OnwardStops(i, begun, ids, before);
      } else if input.value.replied == |input.value.blocks| {
        OnwardSkips(i, begun, ids, before);
        OnwardStops(i + 1, begun, ids, before);
      } else if available + input.value.replied < |input.value.blocks| {
        OnwardStops(i, begun, ids, before);
      } else {
        more := ReplyOnward(|queue|, begun, ids, before);
        OnwardStops(i + 1, begun, ids + more, before);
      }
    }

    // -------------------------------------------------------------- jobs

    /** startNextWriteJob. */
    method StartNextWriteJob()
      modifies `task
      ensures task == StartNext(queue, old(task))
    {
      if queue == [] { return; }
      if |queue[0].blocks| == 0 { return; }
      if task.job != NoJob { return; }
      task := Task(Job(WriteJob, Queued, Normal), queue[0].blocks[|queue[0].blocks| - 1].writeId);
    }

    /** writeCurrentInputPacket. */
    method WriteCurrentInputPacket()
      requires input.Some?
      modifies `queue, `input, `task
      ensures View() == PushInput(old(View()))
    {
      queue := queue + [input.value];
      input := None;
      if task.job == NoJob { StartNextWriteJob(); }
    }

    /** continueWritingIfPossible. */
    method ContinueWritingIfPossible()
      requires forall b <- queue :: !b.updating
      modifies this
      ensures View() == ContinueWriting(old(View()))
    {
      TryInstantReply();
      hide WriteOp.TryInstantReply;
      if queue != [] {
        StartNextWriteJob();
        return;
      }
      if input.Some? && !input.value.updating { WriteCurrentInputPacket(); }
    }

    /** prepareForNewWriteData; the pool hands out the buffer `id`. */
    method PrepareForNewWriteData(id: nat)
      modifies this
      ensures View() == Begin(old(View()), id)
    {
      if input.Some? && input.value.Full() { WriteCurrentInputPacket(); }
      if input.None? {
        input := Some(Buf(id, link.nextCount, [], 0, false));
        pool := pool - {id};
        link := link.(nextCount := if 2 * link.nextCount <= cfg.maxBlocks then 2 * link.nextCount else cfg.maxBlocks);
      }
      input := Some(input.value.(updating := true));
    }

    /** processWriteDataBlock. */
    method ProcessWriteDataBlock(w: Write)
      requires input.Some? && forall b <- queue :: !b.updating
      modifies this
      ensures View() == Complete(old(View()), w)
    {
      input := Some(input.value.(blocks := input.value.blocks + [w], updating := false));
      hist := hist.(arrived := hist.arrived + [w]);
      assert View() == Receive(old(View()), w);
      TryInstantReply();
      hide WriteOp.TryInstantReply;
      if input.Some? && (task.job == NoJob || input.value.Full()) { WriteCurrentInputPacket(); }
    }

    /** trySeal. */
    method TrySeal() returns (sealed: bool)
      modifies this
      ensures (View(), sealed) == WriteOp.TrySeal(old(View()))
    {
      if input.Some? && (input.value.updating || !input.value.AllReplied()) { return false; }
      for i := 0 to |queue|
        invariant View() == old(View()) && forall k :: 0 <= k < i ==> queue[k].AllReplied()
      {
        if !queue[i].AllReplied() { return false; }
      }
      if input.Some? { WriteCurrentInputPacket(); }
      flags := flags.(sealed := client.partial == {});
      return flags.sealed;
    }

    // -------------------------------------------------------------- completions

    /** BuffersPool::put. */
    method PutBack(b: Buf, retain: set<nat>)
      modifies `pool, `available
      ensures Buffers() == Put(old(Buffers()), b, retain)
    {
      if b.id in retain { pool := pool + {b.id}; }
      available := available + b.replied;
    }

    /** The loop over the statuses of a finished buffer. */
    method ConsumeStatuses(b: Buf, t: Phase) returns (stopped: bool, ghost outcome: seq<Done>)
      requires t.Finished?
      modifies `client, `link, `flags, `lock
      ensures var v := Settle(b, t, mode != Serving, old(lock.untold), |b.blocks|);
              var c := LocalOks(old(client), old(IsLast()), v.acks);
              && outcome == v.outcome && lock == old(lock).(untold := v.untold) && stopped == v.failure.Some?
              && client == (if stopped then Failed(c, v.failure.value) else c)
              && link == (if stopped then old(link).(connection := IOFinish) else old(link))
              && flags == old(flags).(errored := old(flags.errored) || stopped)
    {
      hide LocalOks, LocalOk;
      NoOks(client, IsLast());
      var replied := b.replied;
      ghost var closing := mode != Serving;
      var n := 0;
      while n < |b.blocks|
        invariant n <= |b.blocks| && replied == (if n < b.replied then b.replied - n else 0)
        invariant closing == (mode != Serving) && link == old(link) && flags == old(flags)
        invariant var v := Settle(b, t, closing, old(lock.untold), n);
                  && v.failure.None? && lock == old(lock).(untold := v.untold)
                  && client == LocalOks(old(client), old(IsLast()), v.acks)
      {
        var status := StatusOf(t.done, t.status, n);
        ghost var v := Settle(b, t, closing, old(lock.untold), n);
        var writeId := b.blocks[n].writeId;
        if replied == 0 {
          if mode == Serving {
            UpdateUsingWriteStatusAndReply(status, writeId);
            if status != STATUS_OK {
              SettleStops(b, t, closing, old(lock.untold), n + 1);
              return true, Settle(b, t, closing, old(lock.untold), |b.blocks|).outcome;
            }
            LocalOksSnoc(old(client), old(IsLast()), v.acks, writeId);
          }
        } else {
          if lock.untold == STATUS_OK && status != STATUS_OK { lock := lock.(untold := status); }
          replied := replied - 1;
        }
        n := n + 1;
      }
      return false, Settle(b, t, closing, old(lock.untold), |b.blocks|).outcome;
    }

    /** The front buffer leaves registry and queue for the pool. */
    method DropFront(retain: set<nat>)
      requires queue != []
      modifies `queue, `registry, `pool, `available
      ensures Buffers() == PopFront(old(Buffers()), retain)
    {
      var b := queue[0];
      if b.replied > 0 { RemoveReplied(b.id); }
      PutBack(b, retain);
      queue := queue[1..];
    }

    /** writeFinishedCallback. */
    method WriteFinishedCallback(retain: set<nat>)
      requires task.job.Job? && task.job.phase.Finished? && forall b <- queue :: !b.updating
      modifies this
      ensures View() == WriteFinished(old(View()), retain)
    {
      hide Settle, LocalOks, Failed, ContinueWriting, Put, Unregister;
      var t := task.job.phase;
      task := task.(job := NoJob);
      if queue == [] {
        if mode != Serving { link := link.(pending := link.pending - 1); }
        return;
      }
      var b := queue[0];
      DropFront(retain);
      ghost var outcome;
      var stopped;
      stopped, outcome := ConsumeStatuses(b, t);
      hist := hist.(processed := hist.processed + outcome);
      assert (View(), stopped) == Retire(old(View()), retain);
      if stopped { return; }
      hide Retire;
      ContinueWritingIfPossible();
      if mode != Serving { link := link.(pending := link.pending - 1); }
    }

    /** openWriteFinishedCallback. */
    method OpenWriteFinishedCallback()
      requires task.job.Job? && task.job.phase.Finished? && forall b <- queue :: !b.updating
      modifies this
      ensures View() == OpenFinished(old(View()))
    {
      hide ContinueWriting, LocalOk, Failed;
      var status := task.job.phase.status;
      task := task.(job := NoJob);
      UpdateUsingWriteStatusAndReply(status, task.writeId);
      if status != STATUS_OK { return; }
      flags := flags.(open := true);
      hist := hist.(greeting := hist.greeting + [task.writeId]);
      ContinueWritingIfPossible();
    }

    // -------------------------------------------------------------- closing

    /** The input-buffer part of delayedClose. */
    method CloseInputBuffer(retain: set<nat>, ghost dropped: seq<Write>) returns (ghost dropped': seq<Write>)
      modifies `queue, `input, `pool, `available
      ensures Trimmed(Buffers(), dropped') == CloseInput(Trimmed(old(Buffers()), dropped), retain)
    {
      dropped' := dropped;
      if input.Some? {
        var b := input.value;
        if b.replied > 0 {
          queue := queue + [b.(updating := false)];
        } else {
          PutBack(b, retain);
          dropped' := b.blocks + dropped;
        }
        input := None;
      }
    }

    /** The loop of delayedClose dropping buffers without replied blocks. */
    method DropUnrepliedBuffers(keep: nat, retain: set<nat>, ghost dropped: seq<Write>) returns (ghost dropped': seq<Write>)
      modifies `queue, `pool, `available
      ensures Trimmed(Buffers(), dropped') == DropUnreplied(Trimmed(old(Buffers()), dropped), keep, retain)
    {
      dropped' := dropped;
      ghost var end := DropUnreplied(Trimmed(Buffers(), dropped), keep, retain);
      while |queue| > keep && queue[|queue| - 1].replied == 0
        invariant DropUnreplied(Trimmed(Buffers(), dropped'), keep, retain) == end
        decreases |queue|
      {
        dropped' := queue[|queue| - 1].blocks + dropped';
        PutBack(queue[|queue| - 1], retain);
        queue := queue[..|queue| - 1];
      }
    }

    /** The buffers delayedClose keeps. */
    method TrimBuffers(retain: set<nat>)
      modifies `queue, `input, `pool, `available, `hist
      ensures var t := DropUnreplied(CloseInput(Trimmed(old(Buffers()), old(hist.dropped)), retain),
                                     if task.job != NoJob then 1 else 0, retain);
              Buffers() == t.store && hist == old(hist).(dropped := t.dropped)
    {
      hide DropUnreplied, CloseInput;
      ghost var dropped := CloseInputBuffer(retain, hist.dropped);
      dropped := DropUnrepliedBuffers(if task.job != NoJob then 1 else 0, retain, dropped);
      hist := hist.(dropped := dropped);
    }

    /** delayedClose. */
    method DelayedClose(retain: set<nat>)
      modifies this
      ensures View() == WriteOp.DelayedClose(old(View()), retain)
    {
      hide DropUnreplied, CloseInput;
      if task.OpenPending() {
        mode := ClosingOpen;
        task := task.(job := Redirect(task.job));
        link := link.(pending := link.pending + 1);
        return;
      }
      mode := ClosingWrites;
      TrimBuffers(retain);
      if task.job == NoJob && queue != [] { StartNextWriteJob(); }
      link := link.(pending := link.pending + |queue|);
    }

    /** delayedCloseCallback. */
    method DelayedCloseCallback()
      requires task.job.Job? && task.job.phase.Finished?
      modifies this
      ensures View() == WriteOp.DelayedCloseCallback(old(View()))
    {
      if task.OpenPending() && task.job.phase.status == STATUS_OK {
        flags := flags.(open := true);
        task := task.(job := NoJob);
      } else {
        task := task.(job := task.job.(phase := Consumed));
      }
      link := link.(pending := link.pending - 1);
    }

    /** The loops of cleanup over the buffers. */
    method DropBuffers(retain: set<nat>)
      modifies `queue, `input, `registry, `pool, `available
      ensures Buffers() == Discard(old(Buffers()), old(Buffers()).Live(), retain).(queue := [], input := None)
    {
      ghost var end := Emptied(Discard(Buffers(), Buffers().Live(), retain));
      while queue != []
        invariant Emptied(Discard(Buffers(), Buffers().Live(), retain)) == end
        decreases |queue|
      {
        ghost var was := Buffers();
        DropFront(retain);
        assert was.Live()[0] == was.queue[0];
        DiscardFrame(Put(Unregister(was, was.queue[0]), was.queue[0], retain), was.queue[1..], was.input, was.Live()[1..], retain);
      }
      if input.Some? {
        var b := input.value;
        assert Buffers().Live() == [b] && [b][1..] == [];
        if b.replied > 0 { RemoveReplied(b.id); }
        PutBack(b, retain);
        input := None;
      }
    }

    /** cleanup. */
    method CleanUp(retain: set<nat>)
      modifies this
      ensures View() == Cleanup(old(View()), retain)
    {
      ghost var live := Buffers().Live();
      DropBuffers(retain);
      hide Discard;
      flags := flags.(cleaned := true);
      hist := hist.(dropped := Flat(live) + hist.dropped);
      if flags.open {
        lock := lock.(closeJob := true);
      } else if cfg.locked {
        lock := lock.(end := Some(lock.untold));
      }
    }

    /** jobCloseWriteCallback. */
    method CloseWriteCallback(status: Status)
      modifies `lock
      ensures View() == CloseFinished(old(View()), status) && !lock.closeJob
      ensures cfg.locked ==> lock.end == Some(if old(lock.untold) != STATUS_OK then old(lock.untold) else status)
      ensures !cfg.locked ==> lock.end == old(lock.end)
    {
      lock := lock.(closeJob := false);
      if !cfg.locked { return; }
      if lock.untold == STATUS_OK && status != STATUS_OK {
        lock := lock.(end := Some(status));
      } else {
        lock := lock.(end := Some(lock.untold));
      }
    }
  }

  function Emptied(st: Store): Store { st.(queue := [], input := None) }

  /** Discarding buffers does not depend on the queue they were taken from. */
  lemma {:induction false} DiscardFrame(st: Store, queue: seq<Buf>, input: Option<Buf>, bs: seq<Buf>, retain: set<nat>)
    ensures Discard(st.(queue := queue, input := input), bs, retain) == Discard(st, bs, retain).(queue := queue, input := input)
    decreases |bs|
  {
    if bs != [] { DiscardFrame(Put(Unregister(st, bs[0]), bs[0], retain), queue, input, bs[1..], retain); }
  }

  /** After a failure was reported the remaining statuses only go on record. */
  lemma {:induction false} SettleStops(b: Buf, t: Phase, closing: bool, untold: Status, n: nat)
    requires t.Finished? && n <= |b.blocks| && Settle(b, t, closing, untold, n).failure.Some?
    ensures var v, u := Settle(b, t, closing, untold, |b.blocks|), Settle(b, t, closing, untold, n);
            v.failure == u.failure && v.acks == u.acks && v.untold == u.untold
    decreases |b.blocks| - n
  {
    if n < |b.blocks| { SettleStops(b, t, closing, untold, n + 1); }
  }

  function Unreplied(st: Store, i: nat): seq<nat>
    requires i < |st.Live()|
  {
    Ids(st.Live()[i].blocks[st.Live()[i].replied..])
  }

  lemma LocalOksSnoc(c: Client, last: bool, ids: seq<nat>, id: nat)
    ensures LocalOks(c, last, ids + [id]) == LocalOk(LocalOks(c, last, ids), last, id)
  {
    assert (ids + [id])[..|ids|] == ids;
  }

  lemma NoOks(c: Client, last: bool)
    ensures LocalOks(c, last, []) == c
  {}

  lemma {:induction false} LocalOksConcat(c: Client, last: bool, xs: seq<nat>, ys: seq<nat>)
    ensures LocalOks(LocalOks(c, last, xs), last, ys) == LocalOks(c, last, xs + ys)
  {
    if ys == [] {
      assert xs + ys == xs;
    } else {
      var n := |ys| - 1;
      LocalOksConcat(c, last, xs, ys[..n]);
      assert (xs + ys)[..|xs| + n] == xs + ys[..n];
    }
  }

  lemma ReplyUnfolds(st: Store, i: nat)
    requires i < |st.Live()| && !st.Live()[i].updating && !st.Live()[i].AllReplied()
    requires st.available + st.Live()[i].replied >= |st.Live()[i].blocks|
    ensures InstantReply(st, i) ==
            (InstantReply(ReplyAt(st, i), i + 1).0, Unreplied(st, i) + InstantReply(ReplyAt(st, i), i + 1).1)
  {
    hide ReplyAt;
  }
}
