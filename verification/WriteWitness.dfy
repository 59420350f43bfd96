/** Concrete runs of a write operation: the beginnings they share. */
module WriteWitness {
  import opened ChunkTypes
  import opened WriteOp
  import opened WriteTheorems
  import opened WriteClosing

  const CFG: Config := Config(true, false, false, 4)

  /** A locked write of a slice that is not standard, without a chain. */
  function StartWith(credit: int): Start { Start(CFG, WriteLast, {}, credit) }

  /** One step of a run from one known state to the next. */
  ghost predicate StepsTo(s: Op, e: Event, t: Op) { Enabled(s, e) && Apply(s, e) == t }

  lemma ReachNothing(start: Start, events: seq<Event>)
    ensures Reach(start, events[..0]) == Setup(start.cfg, start.connection, start.pool, start.available) && events[..|events|] == events
  {}

  lemma ReachStep(start: Start, events: seq<Event>, n: nat, s: Op, t: Op)
    requires n < |events| && Reach(start, events[..n]) == s && StepsTo(s, events[n], t)
    ensures Reach(start, events[..n + 1]) == t
  {
    hide Apply, Enabled, Run;
    RunSnoc(Setup(start.cfg, start.connection, start.pool, start.available), events[..n], events[n]);
    assert events[..n] + [events[n]] == events[..n + 1];
  }

  /** An open operation that serves its client, with this store and job. */
  ghost predicate At(s: Op, st: Store, task: Task, arrived: seq<Write>) {
    && s.cfg == CFG && s.flags == Flags(true, false, false, false) && s.mode == Serving
    && s.link == Link(WriteLast, 0, 4) && s.lock == Lock(STATUS_OK, false, None)
    && s.store == st && s.task == task && s.hist.arrived == arrived
  }

  const IDLE: Task := Task(NoJob, 0)

  /** The open job is taken and ends well. */
  function OpenEvents(): seq<Event> { [WorkerTakes, WorkerEnds(STATUS_OK), JobReturns({})] }

  lemma Taken(credit: int) returns (s: Op)
    ensures StepsTo(Setup(CFG, WriteLast, {}, credit), WorkerTakes, s)
    ensures s == Setup(CFG, WriteLast, {}, credit).(task := Task(Job(OpenJob, Running(0), Normal), 0))
  {
    s := Apply(Setup(CFG, WriteLast, {}, credit), WorkerTakes);
  }

  lemma Ended(credit: int, s: Op) returns (t: Op)
    requires s == Setup(CFG, WriteLast, {}, credit).(task := Task(Job(OpenJob, Running(0), Normal), 0))
    ensures StepsTo(s, WorkerEnds(STATUS_OK), t)
    ensures t == Setup(CFG, WriteLast, {}, credit).(task := Task(Job(OpenJob, Finished(0, STATUS_OK), Normal), 0))
  {
    t := Apply(s, WorkerEnds(STATUS_OK));
  }

  lemma Opened(credit: int, s: Op) returns (t: Op)
    requires s == Setup(CFG, WriteLast, {}, credit).(task := Task(Job(OpenJob, Finished(0, STATUS_OK), Normal), 0))
    ensures StepsTo(s, JobReturns({}), t) && At(t, Store([], None, [], {}, credit), IDLE, [])
  {
    t := Apply(s, JobReturns({}));
    assert s.store.Live() == [];
  }

  /** After the open job has returned. */
  lemma ReachOpened(credit: int, events: seq<Event>) returns (s: Op)
    requires OpenEvents() <= events
    ensures Reach(StartWith(credit), events[..3]) == s && At(s, Store([], None, [], {}, credit), IDLE, [])
  {
    hide StepsTo, Reach, At, Setup;
    ReachNothing(StartWith(credit), events);
    var s1 := Taken(credit);
    var s2 := Ended(credit, s1);
    s := Opened(credit, s2);
    assert events[0] == WorkerTakes && events[1] == WorkerEnds(STATUS_OK) && events[2] == JobReturns({});
    ReachStep(StartWith(credit), events, 0, Setup(CFG, WriteLast, {}, credit), s1);
    ReachStep(StartWith(credit), events, 1, s1, s2);
    ReachStep(StartWith(credit), events, 2, s2, s);
  }

  /** A block begins: in a new buffer if there is none. */
  lemma Begun(s: Op, st: Store, task: Task, arrived: seq<Write>, id: nat) returns (t: Op)
    requires At(s, st, task, arrived) && NotAllocated(st, id)
    requires st.input.Some? ==> !st.input.value.updating && !st.input.value.Full()
    ensures StepsTo(s, BlockBegins(id), t)
    ensures At(t, st.(input := Some(if st.input.Some? then st.input.value.(updating := true) else Buf(id, 4, [], 0, true)),
                      pool := if st.input.Some? then st.pool else st.pool - {id}), task, arrived)
  {
    hide NotAllocated;
    t := Apply(s, BlockBegins(id));
  }

  predicate Welcome(w: Write, arrived: seq<Write>) {
    w.InBlock() && w.writeId != 0 && forall v <- arrived :: v.writeId != w.writeId
  }

  /** The store once the block has arrived and before any reply. */
  function WithBlock(st: Store, w: Write): Store
    requires st.input.Some?
  {
    var b := st.input.value;
    st.(input := Some(b.(blocks := b.blocks + [w], updating := false)))
  }

  /** A block arrives while a job is under way and the buffer has room. */
  lemma Arrived(s: Op, st: Store, task: Task, arrived: seq<Write>, w: Write, now: Store) returns (t: Op)
    requires At(s, st, task, arrived) && st.input.Some? && st.input.value.updating && Welcome(w, arrived)
    requires !task.OpenPending() && now == InstantReply(WithBlock(st, w), 0).0
    requires task.job != NoJob && now.input.Some? && !now.input.value.Full()
    ensures StepsTo(s, BlockArrives(w), t) && At(t, now, task, arrived + [w])
  {
    hide InstantReply, LocalOks;
    t := Apply(s, BlockArrives(w));
  }

  /** A block arrives while no job is under way: its buffer is written at once. */
  lemma ArrivedIdle(s: Op, st: Store, arrived: seq<Write>, w: Write, now: Store) returns (t: Op)
    requires At(s, st, IDLE, arrived) && st.input.Some? && st.input.value.updating && Welcome(w, arrived)
    requires now == InstantReply(WithBlock(st, w), 0).0 && now.input.Some? && now.queue == [] && now.input.value.blocks != []
    ensures StepsTo(s, BlockArrives(w), t)
    ensures var b := now.input.value;
            At(t, now.(queue := [b], input := None), Task(Job(WriteJob, Queued, Normal), b.blocks[|b.blocks| - 1].writeId), arrived + [w])
  {
    hide InstantReply, LocalOks;
    t := Apply(s, BlockArrives(w));
    assert [] + [now.input.value] == [now.input.value];
  }

  /** The worker's steps on a write job. */
  lemma Works(s: Op, st: Store, task: Task, arrived: seq<Write>, e: Event, phase: Phase) returns (t: Op)
    requires At(s, st, task, arrived) && task.job.Job? && task.job.kind == WriteJob && st.queue != []
    requires match e
             case WorkerTakes => task.job.phase == Queued && phase == Running(0)
             case WorkerWrites(n) => task.job.phase == Running(0) && n <= |st.queue[0].blocks| && phase == Running(n)
             case WorkerEnds(status) =>
               && task.job.phase.Running? && phase == Finished(task.job.phase.done, status)
               && (status == STATUS_OK <==> task.job.phase.done == |st.queue[0].blocks|)
             case _ => false
    ensures StepsTo(s, e, t) && At(t, st, task.(job := task.job.(phase := phase)), arrived)
  {
    t := Apply(s, e);
  }
}
