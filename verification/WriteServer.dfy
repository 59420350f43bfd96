/** All write operations of a chunkserver: they share one credit counter and one pool of input
    buffers. */
module WriteServer {
  import opened WriteOp
  import opened StoreInv
  import opened WriteInv
  import opened WriteRuns
  import opened WriteTheorems
  import opened WritePool
  import opened WriteCredit

  const BLOCKS_PER_MB: nat := 16

  /** The operations and the configured buffering size in MiB. */
  datatype Server = Server(ops: seq<Op>, sizeMb: nat, available: int, pool: set<nat>)

  datatype ServerEvent =
    | Accepts(cfg: Config, connection: Connection)
    | Acts(i: nat, e: Event)
    | Releases(ids: set<nat>)
    | Reloads(sizeMb: nat)

  /** The counter and the pool as an operation sees them. */
  function Seen(s: Op, available: int, pool: set<nat>): Op { s.(store := s.store.(available := available, pool := pool)) }

  function Shown(ops: seq<Op>, available: int, pool: set<nat>): (r: seq<Op>)
    ensures |r| == |ops| && forall k :: 0 <= k < |r| ==> r[k] == Seen(ops[k], available, pool)
  {
    seq(|ops|, k requires 0 <= k < |ops| => Seen(ops[k], available, pool))
  }

  /** A buffer the pool hands out is one of its own or a new one. */
  predicate MayTake(sv: Server, e: Event) {
    e.BlockBegins? ==> e.id in sv.pool || forall s <- sv.ops :: NotAllocated(s.store, e.id)
  }

  /** Event e of the i-th operation can happen; the counter and the pool are moved by the
      operations and by the server alone. */
  predicate MayAct(sv: Server, i: nat, e: Event) {
    i < |sv.ops| && !e.CreditMoves? && !e.PoolMoves? && MayTake(sv, e) && Enabled(sv.ops[i], e)
  }

  function Blank(): Server { Server([], 0, 0, {}) }

  function ServerStep(sv: Server, e: ServerEvent): Server {
    match e
    case Accepts(cfg, connection) =>
      if Starts(cfg, connection) then sv.(ops := sv.ops + [Setup(cfg, connection, sv.pool, sv.available)]) else sv
    case Acts(i, e) =>
      if MayAct(sv, i, e) then
        var s := Apply(sv.ops[i], e);
        Server(Shown(sv.ops[i := s], s.store.available, s.store.pool), sv.sizeMb, s.store.available, s.store.pool)
      else sv
    case Releases(ids) => sv.(ops := Shown(sv.ops, sv.available, sv.pool - ids), pool := sv.pool - ids)
    case Reloads(sizeMb) =>
      var available := sv.available + (sizeMb - sv.sizeMb) * BLOCKS_PER_MB;
      sv.(ops := Shown(sv.ops, available, sv.pool), sizeMb := sizeMb, available := available)
  }

  function ServerRun(events: seq<ServerEvent>): Server {
    if events == [] then Blank()
    else ServerStep(ServerRun(events[..|events| - 1]), events[|events| - 1])
  }

  function HeldBy(ops: seq<Op>): nat {
    if ops == [] then 0 else HeldBy(ops[..|ops| - 1]) + Held(ops[|ops| - 1].store.Live())
  }

  // ---------------------------------------------------------------- the operations apart

  /** The state can be reached by one operation alone, whatever others do to the counter and
      the pool. */
  ghost predicate Reachable(s: Op) {
    exists start: Start, events: seq<Event> :: start.Valid() && s == Reach(start, events)
  }

  lemma ReachableStep(s: Op, e: Event)
    requires Reachable(s) && Enabled(s, e)
    ensures Reachable(Apply(s, e))
  {
    hide Apply, Enabled;
    var start: Start, events: seq<Event> :| start.Valid() && s == Reach(start, events);
    assert (events + [e])[..|events|] == events;
    assert Apply(s, e) == Reach(start, events + [e]);
  }

  lemma ReachableSetup(start: Start)
    requires start.Valid()
    ensures Reachable(Setup(start.cfg, start.connection, start.pool, start.available))
  {
    assert Setup(start.cfg, start.connection, start.pool, start.available) == Reach(start, []);
  }

  lemma ReachableInv(s: Op)
    requires Reachable(s)
    ensures Inv(s) && LiveIds(s.store) !! s.store.pool
  {
    var start: Start, events: seq<Event> :| start.Valid() && s == Reach(start, events);
    hide Reach;
    ReachInv(start, events);
    LiveNotPooled(s);
  }

  lemma LiveNotPooled(s: Op)
    requires Inv(s)
    ensures LiveIds(s.store) !! s.store.pool
  {
    assert StoreOk(s.store);
    hide Inv;
    forall x | x in LiveIds(s.store) ensures x !in s.store.pool {
      var k :| 0 <= k < |s.store.Live()| && s.store.Live()[k].id == x;
    }
  }

  /** What the others do is something that can happen to the operation alone. */
  lemma SeenReachable(s: Op, available: int, pool: set<nat>)
    requires Reachable(s) && LiveIds(s.store) !! pool
    ensures Reachable(Seen(s, available, pool))
  {
    var ids, delta := PoolMoves(pool), CreditMoves(available - s.store.available);
    PoolMovesApply(s, pool);
    ReachableStep(s, ids);
    var s1 := Apply(s, ids);
    CreditMovesApply(s1, available - s.store.available);
    ReachableStep(s1, delta);
    hide Reachable, Apply, Enabled;
    assert Apply(s1, delta) == Seen(s, available, pool);
  }

  lemma PoolMovesApply(s: Op, pool: set<nat>)
    requires LiveIds(s.store) !! pool
    ensures Enabled(s, PoolMoves(pool)) && Apply(s, PoolMoves(pool)) == s.(store := s.store.(pool := pool))
  {
    forall b | b in s.store.Live() ensures b.id !in pool { assert b.id in LiveIds(s.store); }
  }

  lemma CreditMovesApply(s: Op, delta: int)
    ensures Enabled(s, CreditMoves(delta))
    ensures Apply(s, CreditMoves(delta)) == s.(store := s.store.(available := s.store.available + delta))
  {}

  // ---------------------------------------------------------------- the invariant

  ghost predicate ServerOk(sv: Server) {
    && (forall k :: 0 <= k < |sv.ops| ==> Alike(sv, sv.ops[k]))
    && (forall j, k :: 0 <= j < k < |sv.ops| ==> LiveIds(sv.ops[j].store) !! LiveIds(sv.ops[k].store))
    && sv.available + HeldBy(sv.ops) == sv.sizeMb * BLOCKS_PER_MB
  }

  /** An operation sees the counter and the pool of the server. */
  ghost predicate Alike(sv: Server, s: Op) { Reachable(s) && s.store.available == sv.available && s.store.pool == sv.pool }

  lemma {:induction false} HeldByUpdate(ops: seq<Op>, i: nat, op: Op)
    requires i < |ops|
    ensures HeldBy(ops[i := op]) == HeldBy(ops) - Held(ops[i].store.Live()) + Held(op.store.Live())
  {
    var n := |ops| - 1;
    if i < n {
      assert ops[i := op][..n] == ops[..n][i := op];
      HeldByUpdate(ops[..n], i, op);
    } else {
      assert ops[i := op][..n] == ops[..n];
    }
  }

  lemma {:induction false} HeldByShown(ops: seq<Op>, available: int, pool: set<nat>)
    ensures HeldBy(Shown(ops, available, pool)) == HeldBy(ops)
  {
    if ops != [] {
      var n := |ops| - 1;
      assert Shown(ops, available, pool)[..n] == Shown(ops[..n], available, pool);
      HeldByShown(ops[..n], available, pool);
      assert Shown(ops, available, pool)[n].store.Live() == ops[n].store.Live();
    }
  }

  lemma SeenIds(s: Op, available: int, pool: set<nat>)
    ensures LiveIds(Seen(s, available, pool).store) == LiveIds(s.store)
  {
    assert Seen(s, available, pool).store.Live() == s.store.Live();
  }

  /** Showing a new counter and a pool without live buffers keeps everything else. */
  lemma ShownOk(ops: seq<Op>, sizeMb: nat, available: int, pool: set<nat>)
    requires forall k :: 0 <= k < |ops| ==> Reachable(ops[k]) && LiveIds(ops[k].store) !! pool
    requires forall j, k :: 0 <= j < k < |ops| ==> LiveIds(ops[j].store) !! LiveIds(ops[k].store)
    requires available + HeldBy(ops) == sizeMb * BLOCKS_PER_MB
    ensures ServerOk(Server(Shown(ops, available, pool), sizeMb, available, pool))
  {
    var now := Shown(ops, available, pool);
    HeldByShown(ops, available, pool);
    hide Reachable, HeldBy, LiveIds;
    forall k | 0 <= k < |ops| ensures Alike(Server(now, sizeMb, available, pool), now[k]) && LiveIds(now[k].store) == LiveIds(ops[k].store) {
      SeenReachable(ops[k], available, pool);
      SeenIds(ops[k], available, pool);
    }
  }

  /** No buffer of one operation is given to the pool, or taken, by another. */
  lemma OthersKept(sv: Server, i: nat, e: Event, k: nat)
    requires ServerOk(sv) && MayAct(sv, i, e) && k < |sv.ops| && k != i
    ensures var st := Apply(sv.ops[i], e).store;
            LiveIds(sv.ops[k].store) !! st.pool && LiveIds(sv.ops[k].store) !! LiveIds(st)
  {
    hide Apply, Enabled, HeldBy;
    StepGives(sv.ops[i], e);
    assert Alike(sv, sv.ops[k]) && Alike(sv, sv.ops[i]);
    ReachableInv(sv.ops[k]);
    assert LiveIds(sv.ops[k].store) !! LiveIds(sv.ops[i].store);
    if e.BlockBegins? && e.id !in sv.pool { NotLive(sv.ops[k].store, e.id); }
  }

  lemma NotLive(st: Store, id: nat)
    requires NotAllocated(st, id)
    ensures id !in LiveIds(st)
  {}

  /** The acting operation itself. */
  lemma ActorOk(s: Op, e: Event)
    requires Reachable(s) && Enabled(s, e) && !e.CreditMoves?
    ensures var s' := Apply(s, e);
            && Reachable(s') && LiveIds(s'.store) !! s'.store.pool
            && s'.store.available + Held(s'.store.Live()) == s.store.available + Held(s.store.Live())
  {
    hide Apply, Enabled, Inv, Held, LiveIds, Reachable;
    ReachableInv(s);
    ReachableStep(s, e);
    ReachableInv(Apply(s, e));
    StepBalance(s, e);
  }

  lemma ActsOk(sv: Server, i: nat, e: Event)
    requires ServerOk(sv) && MayAct(sv, i, e)
    ensures ServerOk(ServerStep(sv, Acts(i, e)))
  {
    hide Apply, Enabled, HeldBy, Held, Reachable, LiveIds;
    var s := Apply(sv.ops[i], e);
    var ops := sv.ops[i := s];
    assert Alike(sv, sv.ops[i]);
    ActorOk(sv.ops[i], e);
    HeldByUpdate(sv.ops, i, s);
    forall k | 0 <= k < |ops|
      ensures Reachable(ops[k]) && LiveIds(ops[k].store) !! s.store.pool && (k != i ==> LiveIds(ops[k].store) !! LiveIds(s.store))
    {
      if k != i {
        assert Alike(sv, sv.ops[k]);
        OthersKept(sv, i, e, k);
      }
    }
    ShownOk(ops, sv.sizeMb, s.store.available, s.store.pool);
  }

  lemma AcceptsOk(sv: Server, cfg: Config, connection: Connection)
    requires ServerOk(sv) && Starts(cfg, connection)
    ensures ServerOk(ServerStep(sv, Accepts(cfg, connection)))
  {
    var s := Setup(cfg, connection, sv.pool, sv.available);
    ReachableSetup(Start(cfg, connection, sv.pool, sv.available));
    assert s.store.Live() == [];
    assert LiveIds(s.store) == {};
    hide Reachable, LiveIds;
    assert (sv.ops + [s])[..|sv.ops|] == sv.ops;
  }

  lemma AllApart(sv: Server)
    requires ServerOk(sv)
    ensures forall k :: 0 <= k < |sv.ops| ==> Reachable(sv.ops[k]) && LiveIds(sv.ops[k].store) !! sv.pool
  {
    hide HeldBy, Reachable, LiveIds, Inv;
    forall k | 0 <= k < |sv.ops| ensures Reachable(sv.ops[k]) && LiveIds(sv.ops[k].store) !! sv.pool {
      assert Alike(sv, sv.ops[k]);
      ReachableInv(sv.ops[k]);
    }
  }

  lemma OutsideOk(sv: Server, sizeMb: nat, ids: set<nat>)
    requires ServerOk(sv)
    ensures ServerOk(ServerStep(sv, Reloads(sizeMb))) && ServerOk(ServerStep(sv, Releases(ids)))
  {
    hide HeldBy, Reachable, LiveIds;
    AllApart(sv);
    ShownOk(sv.ops, sizeMb, sv.available + (sizeMb - sv.sizeMb) * BLOCKS_PER_MB, sv.pool);
    ShownOk(sv.ops, sv.sizeMb, sv.available, sv.pool - ids);
  }

  lemma ServerStepOk(sv: Server, e: ServerEvent)
    requires ServerOk(sv)
    ensures ServerOk(ServerStep(sv, e))
  {
    hide ServerOk, Apply, MayAct, Setup;
    match e
    case Accepts(cfg, connection) =>
      if Starts(cfg, connection) { AcceptsOk(sv, cfg, connection); }
    case Acts(i, e) =>
      if MayAct(sv, i, e) { ActsOk(sv, i, e); }
    case Releases(ids) => OutsideOk(sv, 0, ids);
    case Reloads(sizeMb) => OutsideOk(sv, sizeMb, {});
  }

  lemma {:induction false} ServerRunOk(events: seq<ServerEvent>)
    ensures ServerOk(ServerRun(events))
  {
    if events == [] {
      BlankOk();
    } else {
      hide ServerStep, ServerOk;
      ServerRunOk(events[..|events| - 1]);
      ServerStepOk(ServerRun(events[..|events| - 1]), events[|events| - 1]);
    }
  }

  lemma BlankOk()
    ensures ServerOk(Blank())
  {}

  /** Over all operations, replies, buffer clears, pool returns and reloads, the available
      credit plus the credit held by live buffers is the configured capacity. */
  lemma CreditConserved(events: seq<ServerEvent>)
    ensures var sv := ServerRun(events); sv.available + HeldBy(sv.ops) == sv.sizeMb * BLOCKS_PER_MB
  {
    hide ServerRun, HeldBy;
    ServerRunOk(events);
  }

  /** A buffer of any operation is neither in the shared pool nor a buffer of another. */
  lemma PoolShared(events: seq<ServerEvent>, j: nat, k: nat)
    requires j < |ServerRun(events).ops| && k < |ServerRun(events).ops|
    ensures var sv := ServerRun(events);
            && LiveIds(sv.ops[j].store) !! sv.pool
            && (j != k ==> LiveIds(sv.ops[j].store) !! LiveIds(sv.ops[k].store))
  {
    hide ServerRun, HeldBy;
    var sv := ServerRun(events);
    ServerRunOk(events);
    assert Alike(sv, sv.ops[j]);
    ReachableInv(sv.ops[j]);
  }

  /** Every operation of a server is in a state it can reach alone, so that what holds over
      all runs of one operation holds for all operations of a server. */
  lemma EachAlone(events: seq<ServerEvent>, k: nat)
    requires k < |ServerRun(events).ops|
    ensures exists start: Start, own: seq<Event> :: start.Valid() && ServerRun(events).ops[k] == Reach(start, own)
  {
    hide ServerRun, HeldBy;
    var sv := ServerRun(events);
    ServerRunOk(events);
    assert Alike(sv, sv.ops[k]);
  }
}
