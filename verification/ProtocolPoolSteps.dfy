/** Every step inside the pool manager and the pool keeps the invariant. */
module ProtocolPoolSteps {
  import opened Options
  import opened PoolRules
  import opened Endpoint
  import opened HandleState
  import opened Protocol
  import opened ProtocolInvariant
  import opened ProtocolFrame

  // The executor task t may change: the one it holds, or the one in the handle it works on.
  function Mine(s: Sys, t: Id): set<Id>
    requires t in s.tasks
  {
    var pc := s.tasks[t];
    if Holds(pc).Some? then {Holds(pc).value}
    else if Uses(pc).Some? && Uses(pc).value in s.handles && s.handles[Uses(pc).value].exec.Some?
    then {s.handles[Uses(pc).value].exec.value} else {}
  }

  function MyHandle(pc: Pc): set<Id> {
    if Uses(pc).Some? then {Uses(pc).value} else {}
  }

  // What task t may change, with the pools and executors of ps and more besides its own.
  function Reach(s: Sys, t: Id, ps: set<Id>, more: set<Id>): Touched
    requires t in s.tasks
  {
    Touched({t}, Mine(s, t) + more, ps, MyHandle(s.tasks[t]), {})
  }

  // The part of the invariant a step of t relies on.
  ghost predicate View(s: Sys, t: Id) {
    t in s.tasks && s.now < U64 && TaskOk(s, t)
    && (Uses(s.tasks[t]).Some? ==> HandleOk(s, Uses(s.tasks[t]).value))
    && (forall e {:trigger ExecOk(s, e)} :: e in Mine(s, t) ==> e in s.execs && ExecOk(s, e))
    && (Works(s.tasks[t]).Some? ==> PoolOk(s, Works(s.tasks[t]).value))
  }

  lemma HasView(s: Sys, t: Id)
    requires Inv(s) && t in s.tasks
    ensures View(s, t)
  {
    assert TaskOk(s, t);
    if Uses(s.tasks[t]).Some? {
      assert HandleOk(s, Uses(s.tasks[t]).value);
    }
    forall e | e in Mine(s, t)
      ensures e in s.execs && ExecOk(s, e)
    {
    }
  }

  lemma ReachClosed(s: Sys, t: Id, ps: set<Id>, more: set<Id>)
    requires Inv(s) && t in s.tasks
    requires forall p :: p in ps && p in s.pools ==> Registered(s, p) || s.pools[p].maker == t
    requires s.tasks[t].Insert? ==> s.tasks[t].own in ps
    requires s.tasks[t].Load? || s.tasks[t].Push? ==> s.tasks[t].pool in ps
    requires forall e :: e in more && e in s.execs ==> s.execs[e].owner.InShard? && s.execs[e].owner.pool in ps
    ensures ClosedUnderHolding(s, Reach(s, t, ps, more))
  {
    HasView(s, t);
  }

  // Everything of PoolOk that a change inside shard k leaves alone.
  lemma PoolStays(s: Sys, s': Sys, w: Touched, p: Id)
    requires p in s.pools && p in s'.pools
    requires s'.pools[p].shards == s.pools[p].shards && |s'.pools[p].locks| == |s.pools[p].locks|
    requires s'.pools[p].deletions == s.pools[p].deletions
    requires forall e :: e in w.execs && e in s.execs ==> !s.execs[e].owner.InShard?
    ensures Registered(s, p) && Grows(s, s') && SameOutside(s, s', w) && PoolOk(s, p) && LocksOk(s', p)
            ==> PoolOk(s', p)
  {
    if Registered(s, p) && Grows(s, s') && SameOutside(s, s', w) && PoolOk(s, p) && LocksOk(s', p) {
      StaysRegistered(s, s', p);
      ShardsStay(s, s', w, p);
    }
  }

  // No lock changes hands, and t keeps guarding what it guards.
  lemma LocksStay(s: Sys, s': Sys, t: Id, p: Id)
    requires p in s.pools && p in s'.pools && s'.pools[p].locks == s.pools[p].locks
    requires t in s.tasks && forall t' :: t' != t && t' in s.tasks ==> t' in s'.tasks && s'.tasks[t'] == s.tasks[t']
    requires s.tasks[t].Load? || s.tasks[t].Push? ==>
               t in s'.tasks && Guards(s'.tasks[t], s.tasks[t].pool, s.tasks[t].shard)
    ensures LocksOk(s, p) ==> LocksOk(s', p)
  {
    if LocksOk(s, p) {
      forall k | 0 <= k < |s.pools[p].locks|
        ensures LockOk(s', p, k)
      {
        assert LockOk(s, p, k);
      }
    }
  }

  lemma ShardsStay(s: Sys, s': Sys, w: Touched, p: Id)
    requires Grows(s, s') && SameOutside(s, s', w) && p in s.pools && PoolOk(s, p)
    requires s'.pools[p].shards == s.pools[p].shards
    requires forall e :: e in w.execs && e in s.execs ==> !s.execs[e].owner.InShard?
    ensures forall k {:trigger ShardOk(s', p, k)} :: 0 <= k < |s.pools[p].shards| ==> ShardOk(s', p, k)
  {
    forall k | 0 <= k < |s.pools[p].shards|
      ensures ShardOk(s', p, k)
    {
      assert ShardOk(s, p, k);
      OutsideShard(s, w, p, k);
      ShardKeeps(s, s', w, p, k);
    }
  }

  lemma OutsideShard(s: Sys, w: Touched, p: Id, k: nat)
    requires p in s.pools && k < |s.pools[p].shards| && ShardOk(s, p, k)
    requires forall e :: e in w.execs && e in s.execs ==> s.execs[e].owner != InShard(p, k)
    ensures forall e :: e in s.pools[p].shards[k] ==> e !in w.execs
  {
    forall e | e in s.pools[p].shards[k]
      ensures e !in w.execs
    {
      var i :| 0 <= i < |s.pools[p].shards[k]| && s.pools[p].shards[k][i] == e;
      assert Pooled(s, p, k, s.pools[p].shards[k][i]);
    }
  }

  // A step of t outside the locked section that changes neither shards nor locks of p.
  lemma QuietPoolOk(s: Sys, s': Sys, w: Touched, t: Id, p: Id)
    requires p in s.pools && PoolOk(s, p) && t in s.tasks && !s.tasks[t].Load? && !s.tasks[t].Push?
    requires p in s'.pools && s'.pools[p].shards == s.pools[p].shards
    requires s'.pools[p].locks == s.pools[p].locks && s'.pools[p].deletions == s.pools[p].deletions
    requires w.tasks == {t} && forall e :: e in w.execs && e in s.execs ==> !s.execs[e].owner.InShard?
    ensures Registered(s, p) && Grows(s, s') && SameOutside(s, s', w) ==> PoolOk(s', p)
  {
    if Registered(s, p) && Grows(s, s') && SameOutside(s, s', w) {
      LocksStay(s, s', t, p);
      PoolStays(s, s', w, p);
    }
  }

  lemma PoolChanges(s: Sys, s': Sys, w: Touched, p: Id, k: nat, e: Id)
    requires p in s.pools && p in s'.pools
    requires w.execs <= {e} && (e in s.execs && s.execs[e].owner.InShard? ==> s.execs[e].owner.shard == k)
    requires k < |s.pools[p].shards| == |s'.pools[p].shards| && |s'.pools[p].locks| == |s.pools[p].locks|
    requires s'.pools[p].shards == s.pools[p].shards[k := s'.pools[p].shards[k]]
    requires s'.pools[p].deletions == s.pools[p].deletions
    ensures Registered(s, p) && Shape(s, s', w) && PoolOk(s, p) && ShardOk(s', p, k) && LocksOk(s', p)
            ==> PoolOk(s', p)
  {
    if Registered(s, p) && Shape(s, s', w) && PoolOk(s, p) && ShardOk(s', p, k) && LocksOk(s', p) {
      StaysRegistered(s, s', p);
      OtherShardsStay(s, s', w, p, k, e);
    }
  }

  lemma OtherShardsStay(s: Sys, s': Sys, w: Touched, p: Id, k: nat, e: Id)
    requires Grows(s, s') && SameOutside(s, s', w) && p in s.pools && PoolOk(s, p)
    requires w.execs <= {e} && (e in s.execs && s.execs[e].owner.InShard? ==> s.execs[e].owner.shard == k)
    requires k < |s.pools[p].shards| == |s'.pools[p].shards|
    requires s'.pools[p].shards == s.pools[p].shards[k := s'.pools[p].shards[k]]
    ensures forall j {:trigger ShardOk(s', p, j)} :: 0 <= j < |s.pools[p].shards| && j != k ==> ShardOk(s', p, j)
  {
    forall j | 0 <= j < |s.pools[p].shards| && j != k
      ensures ShardOk(s', p, j)
    {
      assert ShardOk(s, p, j);
      OutsideShard(s, w, p, j);
      ShardKeeps(s, s', w, p, j);
    }
  }

  // An executor whose log stays as it was.
  lemma ExecRevised(s: Sys, s': Sys, e: Id)
    requires Grows(s, s') && e in s.execs && ExecOk(s, e)
    requires s'.execs[e].log == s.execs[e].log && s'.execs[e].rank <= s'.pools[s.execs[e].pool].incs
    requires OwnerOk(s', e)
    requires s'.execs[e].openTx.Some? ==>
               s'.execs[e].connected && s'.execs[e].openTx == s.execs[e].openTx
               && (s'.execs[e].openTx.value in s'.refused || OpenHolder(s', e, s'.execs[e].openTx.value))
    ensures ExecOk(s', e)
  {
    StaysRegistered(s, s', s.execs[e].pool);
    LogStaysInBlocks(s, s', e);
  }

  // Blocks only grow, so what lay in one still does.
  lemma LogStaysInBlocks(s: Sys, s': Sys, e: Id)
    requires Grows(s, s') && e in s.execs && ExecOk(s, e)
    ensures forall i :: 0 <= i < |s.execs[e].log| ==> InBlock(s', e, i, s.execs[e].log[i].via)
  {
    forall i | 0 <= i < |s.execs[e].log|
      ensures InBlock(s', e, i, s.execs[e].log[i].via)
    {
      assert InBlock(s, e, i, s.execs[e].log[i].via);
    }
  }

  lemma NextUnused(s: Sys)
    requires Inv(s)
    ensures s.next !in s.pools && s.next !in s.execs && s.next !in s.txs && s.next !in s.handles && s.next !in s.tasks
  {
    forall p | p in s.pools ensures p < s.next { assert PoolOk(s, p); }
    forall e | e in s.execs ensures e < s.next { assert ExecOk(s, e); }
    forall x | x in s.txs ensures x < s.next { assert TxOk(s, x); }
    forall h | h in s.handles ensures h < s.next { assert HandleOk(s, h); }
    forall t | t in s.tasks ensures t < s.next { assert TaskOk(s, t); }
  }

  // ---------- putting the touched objects together ----------

  lemma TouchedExecTask(s: Sys, t: Id, e: Id)
    ensures (e in s.execs ==> ExecOk(s, e)) && (t in s.tasks ==> TaskOk(s, t))
            ==> TouchedOk(s, Touched({t}, {e}, {}, {}, {}))
  {
  }

  lemma TouchedThree(s: Sys, t: Id, p: Id, e: Id)
    ensures (p in s.pools ==> PoolOk(s, p)) && (e in s.execs ==> ExecOk(s, e)) && (t in s.tasks ==> TaskOk(s, t))
            ==> TouchedOk(s, Touched({t}, {e}, {p}, {}, {}))
  {
  }

  lemma TouchedPoolTask(s: Sys, t: Id, p: Id)
    ensures (p in s.pools ==> PoolOk(s, p)) && (t in s.tasks ==> TaskOk(s, t))
            ==> TouchedOk(s, Touched({t}, {}, {p}, {}, {}))
  {
  }

  lemma ReachOne(s: Sys, t: Id, ps: set<Id>, more: set<Id>, e: Id)
    requires t in s.tasks && Mine(s, t) + more == {e}
    ensures Reach(s, t, ps, more) == Touched({t}, {e}, ps, MyHandle(s.tasks[t]), {})
  {
  }

  lemma ReachNone(s: Sys, t: Id, ps: set<Id>)
    requires t in s.tasks && Mine(s, t) == {}
    ensures Reach(s, t, ps, {}) == Touched({t}, {}, ps, MyHandle(s.tasks[t]), {})
  {
  }

  // ---------- Find ----------

  /** EndTransaction's Get finds the pool the executor came from. */
  lemma EndFindsOrigin(s: Sys, t: Id)
    requires Inv(s) && t in s.tasks && s.tasks[t].Find? && s.tasks[t].job.End?
    ensures JobRefs(s, s.tasks[t].job)
    ensures var e := s.handles[s.tasks[t].job.handle].exec.value;
            var key := EndpointKey(s.tasks[t].addr);
            e in s.execs && key in s.registry && s.registry[key] == s.execs[e].pool
  {
    HasView(s, t);
    assert ExecOk(s, s.handles[s.tasks[t].job.handle].exec.value);
  }

  lemma EndFoundTouched(s: Sys, t: Id, addr: NodeAddr, job: Job, e: Id)
    requires View(s, t) && s.tasks[t] == Find(addr, job) && JobRefs(s, job)
    requires job.End? && s.handles[job.handle].exec == Some(e) && ExecOk(s, e)
    requires EndpointKey(addr) in s.registry && s.registry[EndpointKey(addr)] == s.execs[e].pool
    requires Shape(s, StepFind(s, t, addr, job), Reach(s, t, {}, {}))
    ensures TouchedOk(StepFind(s, t, addr, job), Reach(s, t, {}, {}))
  {
    var s' := StepFind(s, t, addr, job);
    ExecRevised(s, s', e);
    assert TaskOk(s', t);
  }

  lemma EndFoundKeeps(s: Sys, t: Id, addr: NodeAddr, job: Job)
    requires Inv(s) && t in s.tasks && s.tasks[t] == Find(addr, job) && JobRefs(s, job) && job.End?
    ensures Inv(StepFind(s, t, addr, job))
  {
    HasView(s, t);
    EndFindsOrigin(s, t);
    var e := s.handles[job.handle].exec.value;
    assert ExecOk(s, e);
    MoveShape(s, t, Lock(s.execs[e].pool, e, job));
    EndFoundTouched(s, t, addr, job, e);
    ReachClosed(s, t, {}, {});
    ShapeKeeps(s, StepFind(s, t, addr, job), Reach(s, t, {}, {}));
  }

  lemma FoundTouched(s: Sys, t: Id, addr: NodeAddr, job: Job)
    requires View(s, t) && s.tasks[t] == Find(addr, job) && !job.End?
    requires EndpointKey(addr) in s.registry && RegistryOk(s, EndpointKey(addr))
    requires Shape(s, StepFind(s, t, addr, job), Reach(s, t, {}, {}))
    ensures TouchedOk(StepFind(s, t, addr, job), Reach(s, t, {}, {}))
  {
    assert TaskOk(StepFind(s, t, addr, job), t);
  }

  lemma FoundKeeps(s: Sys, t: Id, addr: NodeAddr, job: Job)
    requires Inv(s) && t in s.tasks && s.tasks[t] == Find(addr, job) && !job.End?
    requires EndpointKey(addr) in s.registry
    ensures Inv(StepFind(s, t, addr, job))
  {
    HasView(s, t);
    assert RegistryOk(s, EndpointKey(addr));
    MoveShape(s, t, StepFind(s, t, addr, job).tasks[t]);
    FoundTouched(s, t, addr, job);
    ReachClosed(s, t, {}, {});
    ShapeKeeps(s, StepFind(s, t, addr, job), Reach(s, t, {}, {}));
  }

  // A step that only moves the program counter.
  lemma MoveShape(s: Sys, t: Id, pc: Pc)
    requires s.now < U64 && t in s.tasks
    ensures Shape(s, At(s, t, pc), Reach(s, t, {}, {}))
  {
  }

  // q' may stand in for q: same endpoint, a counter that did not go back.
  predicate Succeeds(q: Pool, q': Pool) {
    q'.target == q.target && q'.key == q.key && q'.maker == q.maker && q.incs <= q'.incs
  }

  predicate Evolves(x: Exec, x': Exec) {
    x'.pool == x.pool && x'.addr == x.addr && x'.eid == x.eid && x'.rank == x.rank && x.log <= x'.log
  }

  // A step that changes pool p.
  lemma PoolShape(s: Sys, t: Id, p: Id, q: Pool, pc: Pc)
    requires s.now < U64 && t in s.tasks && p in s.pools && Succeeds(s.pools[p], q)
    requires PoolTouchedGently(s.pools[p], q, Reach(s, t, {p}, {}))
    ensures Shape(s, At(WithPool(s, p, q), t, pc), Reach(s, t, {p}, {}))
  {
  }

  // A step that changes pool p and moves executor e in or out of one of its shards.
  lemma PoolExecShape(s: Sys, t: Id, p: Id, q: Pool, e: Id, x: Exec, pc: Pc)
    requires s.now < U64 && t in s.tasks && p in s.pools && Succeeds(s.pools[p], q)
    requires e in s.execs && Evolves(s.execs[e], x)
    requires PoolTouchedGently(s.pools[p], q, Reach(s, t, {p}, {e}))
    ensures Shape(s, At(WithExec(WithPool(s, p, q), e, x), t, pc), Reach(s, t, {p}, {e}))
  {
  }

  // A step that changes the executor the task holds.
  lemma OwnExecShape(s: Sys, t: Id, e: Id, x: Exec, pc: Pc)
    requires s.now < U64 && t in s.tasks && e in s.execs && Mine(s, t) == {e}
    requires Evolves(s.execs[e], x)
    ensures Shape(s, At(WithExec(s, e, x), t, pc), Reach(s, t, {}, {}))
  {
  }

  lemma MissingShape(s: Sys, t: Id, addr: NodeAddr, job: Job)
    requires s.now < U64 && t in s.tasks && !job.End?
    requires EndpointKey(addr) !in s.registry && s.next !in s.pools
    ensures Shape(s, StepFind(s, t, addr, job), Reach(s, t, {s.next}, {}))
  {
  }

  lemma MissingTouched(s: Sys, t: Id, addr: NodeAddr, job: Job)
    requires View(s, t) && s.tasks[t] == Find(addr, job) && !job.End?
    requires EndpointKey(addr) !in s.registry && s.next !in s.pools
    ensures TouchedOk(StepFind(s, t, addr, job), Reach(s, t, {s.next}, {}))
  {
    var s' := StepFind(s, t, addr, job);
    assert PoolOk(s', s.next);
    assert TaskOk(s', t);
  }

  lemma MissingKeeps(s: Sys, t: Id, addr: NodeAddr, job: Job)
    requires Inv(s) && t in s.tasks && s.tasks[t] == Find(addr, job) && !job.End?
    requires EndpointKey(addr) !in s.registry
    ensures Inv(StepFind(s, t, addr, job))
  {
    HasView(s, t);
    NextUnused(s);
    MissingShape(s, t, addr, job);
    MissingTouched(s, t, addr, job);
    ReachClosed(s, t, {s.next}, {});
    ShapeKeeps(s, StepFind(s, t, addr, job), Reach(s, t, {s.next}, {}));
  }

  // ---------- Insert ----------

  lemma LoserShape(s: Sys, t: Id, addr: NodeAddr, own: Id, job: Job)
    requires s.now < U64 && t in s.tasks && own in s.pools && !job.End? && EndpointKey(addr) in s.registry
    ensures Shape(s, StepInsert(s, t, addr, own, job), Reach(s, t, {own}, {}))
  {
  }

  lemma LoserPoolOk(s: Sys, t: Id, addr: NodeAddr, own: Id, job: Job)
    requires View(s, t) && s.tasks[t] == Insert(addr, own, job)
    requires EndpointKey(addr) in s.registry && RegistryOk(s, EndpointKey(addr)) && PoolOk(s, own)
    requires Shape(s, StepInsert(s, t, addr, own, job), Reach(s, t, {own}, {}))
    ensures PoolOk(StepInsert(s, t, addr, own, job), own)
  {
    var s' := StepInsert(s, t, addr, own, job);
    ShardsStay(s, s', Reach(s, t, {own}, {}), own);
    LocksStay(s, s', t, own);
  }

  lemma LoserTouched(s: Sys, t: Id, addr: NodeAddr, own: Id, job: Job)
    requires View(s, t) && s.tasks[t] == Insert(addr, own, job)
    requires EndpointKey(addr) in s.registry && RegistryOk(s, EndpointKey(addr)) && PoolOk(s, own)
    requires Shape(s, StepInsert(s, t, addr, own, job), Reach(s, t, {own}, {}))
    ensures TouchedOk(StepInsert(s, t, addr, own, job), Reach(s, t, {own}, {}))
  {
    LoserPoolOk(s, t, addr, own, job);
    ReachNone(s, t, {own});
    TouchedPoolTask(StepInsert(s, t, addr, own, job), t, own);
  }

  lemma LoserKeeps(s: Sys, t: Id, addr: NodeAddr, own: Id, job: Job)
    requires Inv(s) && t in s.tasks && s.tasks[t] == Insert(addr, own, job)
    requires own in s.pools && !job.End? && EndpointKey(addr) in s.registry
    ensures Inv(StepInsert(s, t, addr, own, job))
  {
    HasView(s, t);
    assert RegistryOk(s, EndpointKey(addr)) && PoolOk(s, own);
    LoserShape(s, t, addr, own, job);
    LoserTouched(s, t, addr, own, job);
    ReachClosed(s, t, {own}, {});
    ShapeKeeps(s, StepInsert(s, t, addr, own, job), Reach(s, t, {own}, {}));
  }

  lemma WinnerLocal(s: Sys, t: Id, addr: NodeAddr, own: Id, job: Job)
    requires View(s, t) && s.tasks[t] == Insert(addr, own, job) && PoolOk(s, own)
    requires EndpointKey(addr) !in s.registry
    ensures Grows(s, StepInsert(s, t, addr, own, job))
    ensures SameOutside(s, StepInsert(s, t, addr, own, job), Reach(s, t, {own}, {}))
    ensures Gentle(s, StepInsert(s, t, addr, own, job), Reach(s, t, {own}, {}))
    ensures SameRanks(s, StepInsert(s, t, addr, own, job))
    ensures NewKeysOk(s, StepInsert(s, t, addr, own, job))
  {
  }

  lemma WinnerTouched(s: Sys, t: Id, addr: NodeAddr, own: Id, job: Job)
    requires View(s, t) && s.tasks[t] == Insert(addr, own, job) && PoolOk(s, own)
    requires EndpointKey(addr) !in s.registry
    requires Grows(s, StepInsert(s, t, addr, own, job))
    requires SameOutside(s, StepInsert(s, t, addr, own, job), Reach(s, t, {own}, {}))
    ensures TouchedOk(StepInsert(s, t, addr, own, job), Reach(s, t, {own}, {}))
  {
    var s' := StepInsert(s, t, addr, own, job);
    ShardsStay(s, s', Reach(s, t, {own}, {}), own);
    LocksStay(s, s', t, own);
    assert PoolOk(s', own);
    assert TaskOk(s', t);
  }

  lemma WinnerKeeps(s: Sys, t: Id, addr: NodeAddr, own: Id, job: Job)
    requires Inv(s) && t in s.tasks && s.tasks[t] == Insert(addr, own, job)
    requires own in s.pools && !job.End? && EndpointKey(addr) !in s.registry
    ensures Inv(StepInsert(s, t, addr, own, job))
  {
    HasView(s, t);
    assert PoolOk(s, own);
    WinnerLocal(s, t, addr, own, job);
    WinnerTouched(s, t, addr, own, job);
    ReachClosed(s, t, {own}, {});
    RanksKeep(s, StepInsert(s, t, addr, own, job));
    LocalKeeps(s, StepInsert(s, t, addr, own, job), Reach(s, t, {own}, {}));
  }

  // ---------- Ticket ----------

  lemma TicketTouched(s: Sys, t: Id, p: Id, job: Job)
    requires View(s, t) && s.tasks[t] == Ticket(p, job) && PoolRefs(s, p)
    ensures Shape(s, StepTicket(s, t, p, job), Reach(s, t, {p}, {})) ==>
              TouchedOk(StepTicket(s, t, p, job), Reach(s, t, {p}, {}))
  {
    var s' := StepTicket(s, t, p, job);
    ReachNone(s, t, {p});
    QuietPoolOk(s, s', Reach(s, t, {p}, {}), t, p);
    assert TaskOk(s', t);
    TouchedPoolTask(s', t, p);
  }

  lemma TicketKeeps(s: Sys, t: Id, p: Id, job: Job)
    requires Inv(s) && t in s.tasks && s.tasks[t] == Ticket(p, job) && PoolRefs(s, p)
    ensures Inv(StepTicket(s, t, p, job))
  {
    HasView(s, t);
    PoolShape(s, t, p, StepTicket(s, t, p, job).pools[p], StepTicket(s, t, p, job).tasks[t]);
    TicketTouched(s, t, p, job);
    ReachClosed(s, t, {p}, {});
    ShapeKeeps(s, StepTicket(s, t, p, job), Reach(s, t, {p}, {}));
  }

  // ---------- Scan ----------

  lemma EmptyTouched(s: Sys, t: Id, pc: Pc)
    requires View(s, t) && s.tasks[t] == pc && pc.Scan?
    requires Shape(s, At(s, t, Make(pc.pool, pc.sid, pc.job)), Reach(s, t, {}, {}))
    ensures TouchedOk(At(s, t, Make(pc.pool, pc.sid, pc.job)), Reach(s, t, {}, {}))
  {
    assert TaskOk(At(s, t, Make(pc.pool, pc.sid, pc.job)), t);
  }

  lemma EmptyKeeps(s: Sys, t: Id, pc: Pc, ping: bool)
    requires Inv(s) && t in s.tasks && s.tasks[t] == pc && pc.Scan? && Refs(s, pc)
    requires s.pools[pc.pool].shards[pc.sid % s.cfg.numShardGroup] == []
    ensures Inv(StepScan(s, t, pc, ping))
  {
    HasView(s, t);
    MoveShape(s, t, Make(pc.pool, pc.sid, pc.job));
    EmptyTouched(s, t, pc);
    ReachClosed(s, t, {}, {});
    ShapeKeeps(s, StepScan(s, t, pc, ping), Reach(s, t, {}, {}));
  }

  // The executor at the back of the shard that pc scans.
  function Back(s: Sys, pc: Pc): Id
    requires pc.Scan? && PoolRefs(s, pc.pool)
    requires s.pools[pc.pool].shards[pc.sid % s.cfg.numShardGroup] != []
  {
    var shard := s.pools[pc.pool].shards[pc.sid % s.cfg.numShardGroup];
    shard[|shard| - 1]
  }

  lemma PopGently(s: Sys, t: Id, pc: Pc, ping: bool)
    requires t in s.tasks && s.tasks[t] == pc && pc.Scan? && Refs(s, pc) && LockFree(s, pc)
    requires s.pools[pc.pool].shards[pc.sid % s.cfg.numShardGroup] != []
    ensures PoolTouchedGently(s.pools[pc.pool], StepScan(s, t, pc, ping).pools[pc.pool],
                              Reach(s, t, {pc.pool}, {Back(s, pc)}))
  {
  }

  lemma PopShardOk(s: Sys, t: Id, pc: Pc, ping: bool)
    requires t in s.tasks && s.tasks[t] == pc && pc.Scan? && Refs(s, pc)
    requires s.pools[pc.pool].shards[pc.sid % s.cfg.numShardGroup] != []
    requires ShardOk(s, pc.pool, pc.sid % s.cfg.numShardGroup)
    ensures ShardOk(StepScan(s, t, pc, ping), pc.pool, pc.sid % s.cfg.numShardGroup)
  {
    var s' := StepScan(s, t, pc, ping);
    var k := pc.sid % s.cfg.numShardGroup;
    var shard := s'.pools[pc.pool].shards[k];
    forall i | 0 <= i < |shard|
      ensures Pooled(s', pc.pool, k, shard[i]) && s'.execs[shard[i]] == s.execs[shard[i]]
    {
      assert Pooled(s, pc.pool, k, s.pools[pc.pool].shards[k][i]);
    }
  }

  // Between s and s' task t, at pc, took e out of its shard and looked at it.
  predicate Popped(s: Sys, s': Sys, t: Id, pc: Pc, e: Id)
    requires pc.Scan?
  {
    t in s'.tasks && e in s.execs && e in s'.execs
    && (s'.tasks[t] == Discard(pc.pool, pc.sid, pc.retry, e, pc.job)
        || (s'.tasks[t] == Got(pc.pool, e, pc.job) && s'.execs[e].connected))
    && (s'.execs[e] == s.execs[e].(owner := ByTask(t))
        || s'.execs[e] == Disconnected(s.execs[e]).(owner := ByTask(t)))
    && s'.next == s.next && s'.handles == s.handles && s'.txs == s.txs && s'.refused == s.refused
  }

  lemma PopsBack(s: Sys, t: Id, pc: Pc, ping: bool)
    requires t in s.tasks && s.tasks[t] == pc && pc.Scan? && Refs(s, pc)
    requires s.pools[pc.pool].shards[pc.sid % s.cfg.numShardGroup] != []
    ensures Popped(s, StepScan(s, t, pc, ping), t, pc, Back(s, pc))
  {
  }

  lemma PopExecOk(s: Sys, s': Sys, t: Id, pc: Pc, e: Id)
    requires pc.Scan? && Popped(s, s', t, pc, e) && ExecOk(s, e) && s.execs[e].owner.InShard? && Grows(s, s')
    ensures ExecOk(s', e)
  {
    ExecRevised(s, s', e);
  }

  lemma PopTaskOk(s: Sys, s': Sys, t: Id, pc: Pc, e: Id)
    requires pc.Scan? && Popped(s, s', t, pc, e) && t in s.tasks && s.tasks[t] == pc && TaskOk(s, t) && Grows(s, s')
    requires s.execs[e].pool == pc.pool && s.execs[e].rank >= 1
    ensures TaskOk(s', t)
  {
    StaysRegistered(s, s', pc.pool);
  }

  lemma PopShape(s: Sys, t: Id, pc: Pc, ping: bool)
    requires s.now < U64 && t in s.tasks && s.tasks[t] == pc && pc.Scan? && Refs(s, pc) && LockFree(s, pc)
    requires s.pools[pc.pool].shards[pc.sid % s.cfg.numShardGroup] != []
    ensures Shape(s, StepScan(s, t, pc, ping), Reach(s, t, {pc.pool}, {Back(s, pc)}))
  {
    var s' := StepScan(s, t, pc, ping);
    PopGently(s, t, pc, ping);
    PoolExecShape(s, t, pc.pool, s'.pools[pc.pool], Back(s, pc), s'.execs[Back(s, pc)], s'.tasks[t]);
  }

  lemma PopLocksOk(s: Sys, t: Id, pc: Pc, ping: bool)
    requires t in s.tasks && s.tasks[t] == pc && pc.Scan? && Refs(s, pc) && LocksOk(s, pc.pool)
    requires s.pools[pc.pool].shards[pc.sid % s.cfg.numShardGroup] != []
    ensures LocksOk(StepScan(s, t, pc, ping), pc.pool)
  {
    LocksStay(s, StepScan(s, t, pc, ping), t, pc.pool);
  }

  lemma PopFrame(s: Sys, t: Id, pc: Pc, ping: bool)
    requires t in s.tasks && pc.Scan? && Refs(s, pc)
    requires s.pools[pc.pool].shards[pc.sid % s.cfg.numShardGroup] != []
    ensures var k, q, s' := pc.sid % s.cfg.numShardGroup, s.pools[pc.pool], StepScan(s, t, pc, ping);
            pc.pool in s'.pools
            && var q' := s'.pools[pc.pool];
            k < |q.shards| == |q'.shards| && |q'.locks| == |q.locks| && q'.deletions == q.deletions
            && q'.shards == q.shards[k := q'.shards[k]]
  {
  }

  lemma PopPoolOk(s: Sys, t: Id, pc: Pc, ping: bool)
    requires t in s.tasks && s.tasks[t] == pc && pc.Scan? && Refs(s, pc) && TaskOk(s, t) && PoolOk(s, pc.pool)
    requires s.pools[pc.pool].shards[pc.sid % s.cfg.numShardGroup] != []
    ensures Shape(s, StepScan(s, t, pc, ping), Reach(s, t, {pc.pool}, {Back(s, pc)}))
            ==> PoolOk(StepScan(s, t, pc, ping), pc.pool)
  {
    if Shape(s, StepScan(s, t, pc, ping), Reach(s, t, {pc.pool}, {Back(s, pc)})) {
      BackPooled(s, t, pc);
      PopShardOk(s, t, pc, ping);
      PopLocksOk(s, t, pc, ping);
      PopFrame(s, t, pc, ping);
      PoolChanges(s, StepScan(s, t, pc, ping), Reach(s, t, {pc.pool}, {Back(s, pc)}), pc.pool,
                  pc.sid % s.cfg.numShardGroup, Back(s, pc));
    }
  }

  lemma BackPooled(s: Sys, t: Id, pc: Pc)
    requires t in s.tasks && s.tasks[t] == pc && pc.Scan? && Refs(s, pc) && TaskOk(s, t) && PoolOk(s, pc.pool)
    requires s.pools[pc.pool].shards[pc.sid % s.cfg.numShardGroup] != []
    ensures Registered(s, pc.pool)
    ensures ShardOk(s, pc.pool, pc.sid % s.cfg.numShardGroup)
    ensures Pooled(s, pc.pool, pc.sid % s.cfg.numShardGroup, Back(s, pc))
  {
    assert ShardOk(s, pc.pool, pc.sid % s.cfg.numShardGroup);
  }

  lemma PopOthersOk(s: Sys, t: Id, pc: Pc, ping: bool)
    requires t in s.tasks && s.tasks[t] == pc && pc.Scan? && Refs(s, pc) && TaskOk(s, t) && PoolOk(s, pc.pool)
    requires s.pools[pc.pool].shards[pc.sid % s.cfg.numShardGroup] != [] && ExecOk(s, Back(s, pc))
    ensures Shape(s, StepScan(s, t, pc, ping), Reach(s, t, {pc.pool}, {Back(s, pc)}))
            ==> ExecOk(StepScan(s, t, pc, ping), Back(s, pc)) && TaskOk(StepScan(s, t, pc, ping), t)
  {
    if Shape(s, StepScan(s, t, pc, ping), Reach(s, t, {pc.pool}, {Back(s, pc)})) {
      BackPooled(s, t, pc);
      PopsBack(s, t, pc, ping);
      PopExecOk(s, StepScan(s, t, pc, ping), t, pc, Back(s, pc));
      PopTaskOk(s, StepScan(s, t, pc, ping), t, pc, Back(s, pc));
    }
  }

  lemma PopTouched(s: Sys, t: Id, pc: Pc, ping: bool)
    requires Inv(s) && t in s.tasks && s.tasks[t] == pc && pc.Scan? && Refs(s, pc)
    requires s.pools[pc.pool].shards[pc.sid % s.cfg.numShardGroup] != []
    requires Shape(s, StepScan(s, t, pc, ping), Reach(s, t, {pc.pool}, {Back(s, pc)}))
    ensures TouchedOk(StepScan(s, t, pc, ping), Reach(s, t, {pc.pool}, {Back(s, pc)}))
  {
    HasView(s, t);
    assert ExecOk(s, Back(s, pc));
    PopPoolOk(s, t, pc, ping);
    PopOthersOk(s, t, pc, ping);
    TouchedThree(StepScan(s, t, pc, ping), t, pc.pool, Back(s, pc));
  }

  lemma PopKeeps(s: Sys, t: Id, pc: Pc, ping: bool)
    requires Inv(s) && t in s.tasks && s.tasks[t] == pc && pc.Scan? && Refs(s, pc) && LockFree(s, pc)
    requires s.pools[pc.pool].shards[pc.sid % s.cfg.numShardGroup] != []
    ensures Inv(StepScan(s, t, pc, ping))
  {
    PopShape(s, t, pc, ping);
    PopTouched(s, t, pc, ping);
    PopClosed(s, t, pc);
    ShapeKeeps(s, StepScan(s, t, pc, ping), Reach(s, t, {pc.pool}, {Back(s, pc)}));
  }

  lemma PopClosed(s: Sys, t: Id, pc: Pc)
    requires Inv(s) && t in s.tasks && s.tasks[t] == pc && pc.Scan? && Refs(s, pc)
    requires s.pools[pc.pool].shards[pc.sid % s.cfg.numShardGroup] != []
    ensures ClosedUnderHolding(s, Reach(s, t, {pc.pool}, {Back(s, pc)}))
    ensures Mine(s, t) == {} && MyHandle(pc) == {}
  {
    HasView(s, t);
    BackPooled(s, t, pc);
    ReachClosed(s, t, {pc.pool}, {Back(s, pc)});
  }

  // ---------- Discard, Make, Dial, Count ----------

  lemma DiscardTouched(s: Sys, t: Id, pc: Pc)
    requires Inv(s) && t in s.tasks && s.tasks[t] == pc && pc.Discard? && Refs(s, pc)
    requires Grows(s, StepDiscard(s, t, pc))
    ensures TouchedOk(StepDiscard(s, t, pc), Reach(s, t, {}, {}))
  {
    assert TaskOk(s, t) && ExecOk(s, pc.e);
    DiscardObjectsOk(s, t, pc);
    ReachOne(s, t, {}, {}, pc.e);
    TouchedExecTask(StepDiscard(s, t, pc), t, pc.e);
  }

  lemma DiscardObjectsOk(s: Sys, t: Id, pc: Pc)
    requires t in s.tasks && s.tasks[t] == pc && pc.Discard? && Refs(s, pc) && TaskOk(s, t) && ExecOk(s, pc.e)
    requires Grows(s, StepDiscard(s, t, pc))
    ensures ExecOk(StepDiscard(s, t, pc), pc.e)
    ensures TaskOk(StepDiscard(s, t, pc), t)
  {
    ExecRevised(s, StepDiscard(s, t, pc), pc.e);
  }

  lemma DiscardKeeps(s: Sys, t: Id, pc: Pc)
    requires Inv(s) && t in s.tasks && s.tasks[t] == pc && pc.Discard? && Refs(s, pc)
    ensures Inv(StepDiscard(s, t, pc))
  {
    HasView(s, t);
    OwnExecShape(s, t, pc.e, Disconnected(s.execs[pc.e]).(owner := Closed), StepDiscard(s, t, pc).tasks[t]);
    DiscardTouched(s, t, pc);
    ReachClosed(s, t, {}, {});
    ShapeKeeps(s, StepDiscard(s, t, pc), Reach(s, t, {}, {}));
  }

  lemma MakeShape(s: Sys, t: Id, p: Id, sid: nat, job: Job)
    requires s.now < U64 && t in s.tasks && PoolRefs(s, p) && s.next !in s.execs
    ensures Shape(s, StepMake(s, t, p, sid, job), Reach(s, t, {p}, {s.next}))
  {
  }

  lemma MakeObjectsOk(s: Sys, t: Id, p: Id, sid: nat, job: Job)
    requires t in s.tasks && s.tasks[t] == Make(p, sid, job) && PoolRefs(s, p) && s.next !in s.execs && TaskOk(s, t)
    requires s.pools[p].key == EndpointKey(s.pools[p].target)
    ensures ExecOk(StepMake(s, t, p, sid, job), s.next)
    ensures TaskOk(StepMake(s, t, p, sid, job), t)
  {
  }

  lemma MakeTouched(s: Sys, t: Id, p: Id, sid: nat, job: Job)
    requires View(s, t) && s.tasks[t] == Make(p, sid, job) && PoolRefs(s, p) && s.next !in s.execs
    ensures Shape(s, StepMake(s, t, p, sid, job), Reach(s, t, {p}, {s.next})) ==>
              TouchedOk(StepMake(s, t, p, sid, job), Reach(s, t, {p}, {s.next}))
  {
    var s' := StepMake(s, t, p, sid, job);
    ReachOne(s, t, {p}, {s.next}, s.next);
    QuietPoolOk(s, s', Reach(s, t, {p}, {s.next}), t, p);
    MakeObjectsOk(s, t, p, sid, job);
    TouchedThree(s', t, p, s.next);
  }

  lemma MakeKeeps(s: Sys, t: Id, p: Id, sid: nat, job: Job)
    requires Inv(s) && t in s.tasks && s.tasks[t] == Make(p, sid, job) && PoolRefs(s, p)
    ensures Inv(StepMake(s, t, p, sid, job))
  {
    HasView(s, t);
    NextUnused(s);
    MakeShape(s, t, p, sid, job);
    MakeTouched(s, t, p, sid, job);
    ReachClosed(s, t, {p}, {s.next});
    ShapeKeeps(s, StepMake(s, t, p, sid, job), Reach(s, t, {p}, {s.next}));
  }

  lemma DialExecOk(s: Sys, t: Id, p: Id, e: Id, job: Job, ok: bool)
    requires t in s.tasks && s.tasks[t] == Dial(p, e, job) && e in s.execs && ExecOk(s, e)
    requires Holds(s.tasks[t]) == Some(e) && s.execs[e].owner == ByTask(t)
    requires Grows(s, StepDial(s, t, p, e, job, ok))
    ensures ExecOk(StepDial(s, t, p, e, job, ok), e)
  {
    ExecRevised(s, StepDial(s, t, p, e, job, ok), e);
  }

  lemma DialTouched(s: Sys, t: Id, p: Id, e: Id, job: Job, ok: bool)
    requires View(s, t) && s.tasks[t] == Dial(p, e, job) && e in s.execs
    requires ExecOk(StepDial(s, t, p, e, job, ok), e)
    ensures TouchedOk(StepDial(s, t, p, e, job, ok), Reach(s, t, {}, {}))
  {
    assert TaskOk(StepDial(s, t, p, e, job, ok), t);
  }

  lemma DialKeeps(s: Sys, t: Id, p: Id, e: Id, job: Job, ok: bool)
    requires Inv(s) && t in s.tasks && s.tasks[t] == Dial(p, e, job) && e in s.execs
    ensures Inv(StepDial(s, t, p, e, job, ok))
  {
    HasView(s, t);
    OwnExecShape(s, t, e, if ok then Dialled(s.execs[e]) else Disconnected(s.execs[e]),
                 if ok then Count(p, e, job) else Got(p, e, job));
    assert ExecOk(s, e);
    DialExecOk(s, t, p, e, job, ok);
    DialTouched(s, t, p, e, job, ok);
    ReachClosed(s, t, {}, {});
    ShapeKeeps(s, StepDial(s, t, p, e, job, ok), Reach(s, t, {}, {}));
  }

  lemma CountLocal(s: Sys, t: Id, p: Id, e: Id, job: Job)
    requires s.now < U64 && t in s.tasks && s.tasks[t] == Count(p, e, job) && PoolRefs(s, p) && e in s.execs
    ensures Grows(s, StepCount(s, t, p, e, job))
    ensures SameOutside(s, StepCount(s, t, p, e, job), Reach(s, t, {p}, {}))
    ensures Gentle(s, StepCount(s, t, p, e, job), Reach(s, t, {p}, {}))
    ensures NewKeysOk(s, StepCount(s, t, p, e, job))
  {
  }

  // The new rank is above every rank given before.
  lemma CountRanks(s: Sys, t: Id, p: Id, e: Id, job: Job)
    requires Inv(s) && t in s.tasks && s.tasks[t] == Count(p, e, job) && PoolRefs(s, p) && e in s.execs
    requires s.execs[e].pool == p
    ensures RanksDistinct(StepCount(s, t, p, e, job))
  {
    forall d | d in s.execs && s.execs[d].pool == p
      ensures s.execs[d].rank <= s.pools[p].incs
    {
      assert ExecOk(s, d);
    }
  }

  lemma CountObjectsOk(s: Sys, t: Id, p: Id, e: Id, job: Job)
    requires t in s.tasks && s.tasks[t] == Count(p, e, job) && PoolRefs(s, p) && e in s.execs
    requires TaskOk(s, t) && ExecOk(s, e) && Grows(s, StepCount(s, t, p, e, job))
    ensures ExecOk(StepCount(s, t, p, e, job), e)
    ensures TaskOk(StepCount(s, t, p, e, job), t)
  {
    ExecRevised(s, StepCount(s, t, p, e, job), e);
  }

  lemma CountPoolOk(s: Sys, t: Id, p: Id, e: Id, job: Job)
    requires View(s, t) && s.tasks[t] == Count(p, e, job) && PoolRefs(s, p) && e in s.execs
    ensures Grows(s, StepCount(s, t, p, e, job)) && SameOutside(s, StepCount(s, t, p, e, job), Reach(s, t, {p}, {}))
            ==> PoolOk(StepCount(s, t, p, e, job), p)
  {
    QuietPoolOk(s, StepCount(s, t, p, e, job), Reach(s, t, {p}, {}), t, p);
  }

  lemma CountTouched(s: Sys, t: Id, p: Id, e: Id, job: Job)
    requires View(s, t) && s.tasks[t] == Count(p, e, job) && PoolRefs(s, p) && e in s.execs
    requires Grows(s, StepCount(s, t, p, e, job))
    requires SameOutside(s, StepCount(s, t, p, e, job), Reach(s, t, {p}, {}))
    ensures TouchedOk(StepCount(s, t, p, e, job), Reach(s, t, {p}, {}))
  {
    CountPoolOk(s, t, p, e, job);
    CountObjectsOk(s, t, p, e, job);
    ReachOne(s, t, {p}, {}, e);
    TouchedThree(StepCount(s, t, p, e, job), t, p, e);
  }

  lemma CountKeeps(s: Sys, t: Id, p: Id, e: Id, job: Job)
    requires Inv(s) && t in s.tasks && s.tasks[t] == Count(p, e, job) && PoolRefs(s, p) && e in s.execs
    ensures Inv(StepCount(s, t, p, e, job))
  {
    HasView(s, t);
    CountLocal(s, t, p, e, job);
    CountRanks(s, t, p, e, job);
    CountTouched(s, t, p, e, job);
    ReachClosed(s, t, {p}, {});
    LocalKeeps(s, StepCount(s, t, p, e, job), Reach(s, t, {p}, {}));
  }
}
