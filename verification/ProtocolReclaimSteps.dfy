/** Every step of Reclaim keeps the invariant, for a plain query and for a transaction's end. */
module ProtocolReclaimSteps {
  import opened Options
  import opened PoolRules
  import opened Endpoint
  import opened HandleState
  import opened Protocol
  import opened ProtocolInvariant
  import opened ProtocolFrame
  import opened ProtocolPoolSteps

  // Where Reclaim is after a step of it.
  predicate StillReclaims(s: Sys, s': Sys, t: Id, p: Id, e: Id, job: Job) {
    t in s.tasks && Reclaiming(s.tasks[t]) && s.tasks[t].pool == p && s.tasks[t].e == e && s.tasks[t].job == job
    && t in s'.tasks && Reclaiming(s'.tasks[t]) && s'.tasks[t].pool == p && s'.tasks[t].e == e && s'.tasks[t].job == job
  }

  function ReclaimOwner(s: Sys, t: Id): Owner
    requires t in s.tasks && Reclaiming(s.tasks[t])
  {
    if s.tasks[t].job.End? then ByHandle(s.tasks[t].job.handle) else ByTask(t)
  }

  lemma ReclaimMine(s: Sys, t: Id)
    requires View(s, t) && Reclaiming(s.tasks[t])
    ensures Mine(s, t) == {s.tasks[t].e}
    ensures s.tasks[t].e in s.execs && s.execs[s.tasks[t].e].owner == ReclaimOwner(s, t)
    ensures s.execs[s.tasks[t].e].pool == s.tasks[t].pool && Registered(s, s.tasks[t].pool)
    ensures !s.tasks[t].job.Open?
  {
  }

  lemma ReclaimExecOk(s: Sys, s': Sys, t: Id, p: Id, e: Id, job: Job)
    requires StillReclaims(s, s', t, p, e, job) && Grows(s, s')
    requires TaskOk(s, t) && ExecOk(s, e) && s'.execs[e] == s.execs[e] && s.execs[e].owner == ReclaimOwner(s, t)
    requires s'.handles == s.handles
    ensures ExecOk(s', e)
  {
    ExecRevised(s, s', e);
  }

  lemma ReclaimHandleOk(s: Sys, s': Sys, t: Id, p: Id, e: Id, job: Job)
    requires StillReclaims(s, s', t, p, e, job) && Grows(s, s')
    requires TaskOk(s, t) && s'.execs == s.execs && s'.handles == s.handles && s'.txs == s.txs
    requires job.End? && HandleOk(s, job.handle)
    ensures HandleOk(s', job.handle)
  {
  }

  lemma ReclaimTouched(s: Sys, s': Sys, t: Id, ps: set<Id>)
    requires View(s, t) && Reclaiming(s.tasks[t])
    requires StillReclaims(s, s', t, s.tasks[t].pool, s.tasks[t].e, s.tasks[t].job)
    requires s'.execs == s.execs && s'.handles == s.handles && s'.txs == s.txs
    ensures Grows(s, s') && TouchedPools(s', Reach(s, t, ps, {})) && TaskOk(s', t)
            ==> TouchedOk(s', Reach(s, t, ps, {}))
  {
    if Grows(s, s') && TouchedPools(s', Reach(s, t, ps, {})) && TaskOk(s', t) {
      ReclaimMine(s, t);
      var pc := s.tasks[t];
      assert TaskOk(s, t) && ExecOk(s, pc.e);
      ReclaimExecOk(s, s', t, pc.pool, pc.e, pc.job);
      if pc.job.End? {
        assert HandleOk(s, pc.job.handle);
        ReclaimHandleOk(s, s', t, pc.pool, pc.e, pc.job);
      }
    }
  }

  // ---------- Lock ----------

  lemma FullTaskOk(s: Sys, t: Id, p: Id, e: Id, job: Job)
    requires View(s, t) && s.tasks[t] == Lock(p, e, job)
    ensures TaskOk(At(s, t, Bump(p, e, job)), t)
  {
    assert TaskOk(s, t);
  }

  lemma FullKeeps(s: Sys, t: Id, p: Id, e: Id, job: Job)
    requires Inv(s) && t in s.tasks && s.tasks[t] == Lock(p, e, job)
    ensures Inv(At(s, t, Bump(p, e, job)))
  {
    HasView(s, t);
    FullTaskOk(s, t, p, e, job);
    MoveShape(s, t, Bump(p, e, job));
    ReclaimTouched(s, At(s, t, Bump(p, e, job)), t, {});
    ReachClosed(s, t, {}, {});
    ShapeKeeps(s, At(s, t, Bump(p, e, job)), Reach(s, t, {}, {}));
  }

  lemma RoomTaskOk(s: Sys, t: Id, p: Id, e: Id, job: Job)
    requires View(s, t) && s.tasks[t] == Lock(p, e, job) && PoolRefs(s, p) && e in s.execs
    requires HasRoom(s.cfg, |s.pools[p].shards[ShardIndex(s.cfg, s.execs[e].eid)]|)
    ensures TaskOk(StepLock(s, t, p, e, job), t)
  {
    assert TaskOk(s, t);
  }

  lemma RoomLocksOk(s: Sys, t: Id, p: Id, e: Id, job: Job)
    requires t in s.tasks && s.tasks[t] == Lock(p, e, job) && PoolRefs(s, p) && e in s.execs && LocksOk(s, p)
    requires HasRoom(s.cfg, |s.pools[p].shards[ShardIndex(s.cfg, s.execs[e].eid)]|)
    ensures LocksOk(StepLock(s, t, p, e, job), p)
  {
    forall k | 0 <= k < |s.pools[p].locks|
      ensures LockOk(StepLock(s, t, p, e, job), p, k)
    {
      assert LockOk(s, p, k);
    }
  }

  lemma RoomPoolOk(s: Sys, t: Id, p: Id, e: Id, job: Job)
    requires View(s, t) && s.tasks[t] == Lock(p, e, job) && PoolRefs(s, p) && e in s.execs
    requires HasRoom(s.cfg, |s.pools[p].shards[ShardIndex(s.cfg, s.execs[e].eid)]|)
    ensures Shape(s, StepLock(s, t, p, e, job), Reach(s, t, {p}, {})) ==> PoolOk(StepLock(s, t, p, e, job), p)
  {
    if Shape(s, StepLock(s, t, p, e, job), Reach(s, t, {p}, {})) {
      ReclaimMine(s, t);
      assert PoolOk(s, p);
      RoomLocksOk(s, t, p, e, job);
      PoolStays(s, StepLock(s, t, p, e, job), Reach(s, t, {p}, {}), p);
    }
  }

  lemma RoomTouched(s: Sys, t: Id, p: Id, e: Id, job: Job)
    requires View(s, t) && s.tasks[t] == Lock(p, e, job) && PoolRefs(s, p) && e in s.execs
    requires HasRoom(s.cfg, |s.pools[p].shards[ShardIndex(s.cfg, s.execs[e].eid)]|)
    ensures Shape(s, StepLock(s, t, p, e, job), Reach(s, t, {p}, {})) ==>
              TouchedOk(StepLock(s, t, p, e, job), Reach(s, t, {p}, {}))
  {
    if Shape(s, StepLock(s, t, p, e, job), Reach(s, t, {p}, {})) {
      RoomTaskOk(s, t, p, e, job);
      RoomPoolOk(s, t, p, e, job);
      ReclaimTouched(s, StepLock(s, t, p, e, job), t, {p});
    }
  }

  lemma RoomKeeps(s: Sys, t: Id, p: Id, e: Id, job: Job)
    requires Inv(s) && t in s.tasks && s.tasks[t] == Lock(p, e, job) && PoolRefs(s, p) && e in s.execs
    requires Refs(s, s.tasks[t]) && LockFree(s, s.tasks[t])
    requires HasRoom(s.cfg, |s.pools[p].shards[ShardIndex(s.cfg, s.execs[e].eid)]|)
    ensures Inv(StepLock(s, t, p, e, job))
  {
    HasView(s, t);
    var s' := StepLock(s, t, p, e, job);
    PoolShape(s, t, p, s'.pools[p], s'.tasks[t]);
    RoomTouched(s, t, p, e, job);
    ReclaimClosed(s, t);
    ShapeKeeps(s, s', Reach(s, t, {p}, {}));
  }

  // ---------- Load ----------

  lemma UnderTaskOk(s: Sys, t: Id, p: Id, k: nat, e: Id, job: Job)
    requires View(s, t) && s.tasks[t] == Load(p, k, e, job) && p in s.pools
    requires UnderLimit(s.cfg, s.pools[p].incs % U32)
    ensures TaskOk(At(s, t, Push(p, k, e, job)), t)
  {
    assert TaskOk(s, t) && ExecOk(s, e);
  }

  lemma UnderPoolOk(s: Sys, t: Id, p: Id, k: nat, e: Id, job: Job)
    requires View(s, t) && s.tasks[t] == Load(p, k, e, job) && p in s.pools
    ensures Shape(s, At(s, t, Push(p, k, e, job)), Reach(s, t, {p}, {})) ==> PoolOk(At(s, t, Push(p, k, e, job)), p)
  {
    if Shape(s, At(s, t, Push(p, k, e, job)), Reach(s, t, {p}, {})) {
      ReclaimMine(s, t);
      assert PoolOk(s, p);
      LocksStay(s, At(s, t, Push(p, k, e, job)), t, p);
      PoolStays(s, At(s, t, Push(p, k, e, job)), Reach(s, t, {p}, {}), p);
    }
  }

  lemma UnderTouched(s: Sys, t: Id, p: Id, k: nat, e: Id, job: Job)
    requires View(s, t) && s.tasks[t] == Load(p, k, e, job) && p in s.pools
    requires UnderLimit(s.cfg, s.pools[p].incs % U32)
    requires Shape(s, At(s, t, Push(p, k, e, job)), Reach(s, t, {p}, {}))
    ensures TouchedOk(At(s, t, Push(p, k, e, job)), Reach(s, t, {p}, {}))
  {
    UnderTaskOk(s, t, p, k, e, job);
    UnderPoolOk(s, t, p, k, e, job);
    ReclaimTouched(s, At(s, t, Push(p, k, e, job)), t, {p});
  }

  lemma UnderShape(s: Sys, t: Id, p: Id, pc: Pc)
    requires s.now < U64 && t in s.tasks && p in s.pools
    ensures Shape(s, At(s, t, pc), Reach(s, t, {p}, {}))
  {
    assert WithPool(s, p, s.pools[p]) == s;
    PoolShape(s, t, p, s.pools[p], pc);
  }

  lemma UnderKeeps(s: Sys, t: Id, p: Id, k: nat, e: Id, job: Job)
    requires Inv(s) && t in s.tasks && s.tasks[t] == Load(p, k, e, job) && p in s.pools
    requires UnderLimit(s.cfg, s.pools[p].incs % U32)
    ensures Inv(At(s, t, Push(p, k, e, job)))
  {
    HasView(s, t);
    var s' := At(s, t, Push(p, k, e, job));
    UnderShape(s, t, p, Push(p, k, e, job));
    UnderTouched(s, t, p, k, e, job);
    ReclaimClosed(s, t);
    ShapeKeeps(s, s', Reach(s, t, {p}, {}));
  }

  lemma OverTaskOk(s: Sys, t: Id, p: Id, k: nat, e: Id, job: Job)
    requires View(s, t) && s.tasks[t] == Load(p, k, e, job)
    requires PoolRefs(s, p) && k < s.cfg.numShardGroup && !UnderLimit(s.cfg, s.pools[p].incs % U32)
    ensures TaskOk(StepLoad(s, t, p, k, e, job), t)
    ensures s.pools[p].locks[k] == Some(t)
  {
    assert TaskOk(s, t);
  }

  lemma OverLocksOk(s: Sys, t: Id, p: Id, k: nat, e: Id, job: Job)
    requires t in s.tasks && s.tasks[t] == Load(p, k, e, job) && PoolRefs(s, p) && k < s.cfg.numShardGroup
    requires LocksOk(s, p) && !UnderLimit(s.cfg, s.pools[p].incs % U32)
    ensures LocksOk(StepLoad(s, t, p, k, e, job), p)
  {
    forall j | 0 <= j < |s.pools[p].locks|
      ensures LockOk(StepLoad(s, t, p, k, e, job), p, j)
    {
      assert LockOk(s, p, j);
    }
  }

  lemma OverPoolOk(s: Sys, t: Id, p: Id, k: nat, e: Id, job: Job)
    requires View(s, t) && s.tasks[t] == Load(p, k, e, job)
    requires PoolRefs(s, p) && k < s.cfg.numShardGroup && !UnderLimit(s.cfg, s.pools[p].incs % U32)
    ensures Shape(s, StepLoad(s, t, p, k, e, job), Reach(s, t, {p}, {})) ==> PoolOk(StepLoad(s, t, p, k, e, job), p)
  {
    if Shape(s, StepLoad(s, t, p, k, e, job), Reach(s, t, {p}, {})) {
      ReclaimMine(s, t);
      assert PoolOk(s, p);
      OverLocksOk(s, t, p, k, e, job);
      PoolStays(s, StepLoad(s, t, p, k, e, job), Reach(s, t, {p}, {}), p);
    }
  }

  lemma OverTouched(s: Sys, t: Id, p: Id, k: nat, e: Id, job: Job)
    requires View(s, t) && s.tasks[t] == Load(p, k, e, job)
    requires PoolRefs(s, p) && k < s.cfg.numShardGroup && !UnderLimit(s.cfg, s.pools[p].incs % U32)
    requires Shape(s, StepLoad(s, t, p, k, e, job), Reach(s, t, {p}, {}))
    ensures TouchedOk(StepLoad(s, t, p, k, e, job), Reach(s, t, {p}, {}))
  {
    OverTaskOk(s, t, p, k, e, job);
    OverPoolOk(s, t, p, k, e, job);
    ReclaimTouched(s, StepLoad(s, t, p, k, e, job), t, {p});
  }

  lemma OverKeeps(s: Sys, t: Id, p: Id, k: nat, e: Id, job: Job)
    requires Inv(s) && t in s.tasks && s.tasks[t] == Load(p, k, e, job)
    requires PoolRefs(s, p) && k < s.cfg.numShardGroup && !UnderLimit(s.cfg, s.pools[p].incs % U32)
    ensures Inv(StepLoad(s, t, p, k, e, job))
  {
    HasView(s, t);
    var s' := StepLoad(s, t, p, k, e, job);
    OverTaskOk(s, t, p, k, e, job);
    PoolShape(s, t, p, s'.pools[p], s'.tasks[t]);
    OverTouched(s, t, p, k, e, job);
    ReclaimClosed(s, t);
    ShapeKeeps(s, s', Reach(s, t, {p}, {}));
  }

  // ---------- Bump ----------

  lemma BumpTaskOk(s: Sys, t: Id, p: Id, e: Id, job: Job)
    requires View(s, t) && s.tasks[t] == Bump(p, e, job) && PoolRefs(s, p)
    ensures TaskOk(StepBump(s, t, p, e, job), t)
  {
    assert TaskOk(s, t);
  }

  lemma BumpPoolOk(s: Sys, t: Id, p: Id, e: Id, job: Job)
    requires View(s, t) && s.tasks[t] == Bump(p, e, job) && PoolRefs(s, p)
    ensures Shape(s, StepBump(s, t, p, e, job), Reach(s, t, {p}, {})) ==> PoolOk(StepBump(s, t, p, e, job), p)
  {
    ReclaimMine(s, t);
    QuietPoolOk(s, StepBump(s, t, p, e, job), Reach(s, t, {p}, {}), t, p);
  }

  lemma BumpTouched(s: Sys, t: Id, p: Id, e: Id, job: Job)
    requires View(s, t) && s.tasks[t] == Bump(p, e, job) && PoolRefs(s, p)
    ensures Shape(s, StepBump(s, t, p, e, job), Reach(s, t, {p}, {})) ==>
              TouchedOk(StepBump(s, t, p, e, job), Reach(s, t, {p}, {}))
  {
    if Shape(s, StepBump(s, t, p, e, job), Reach(s, t, {p}, {})) {
      BumpTaskOk(s, t, p, e, job);
      BumpPoolOk(s, t, p, e, job);
      ReclaimTouched(s, StepBump(s, t, p, e, job), t, {p});
    }
  }

  lemma BumpKeeps(s: Sys, t: Id, p: Id, e: Id, job: Job)
    requires Inv(s) && t in s.tasks && s.tasks[t] == Bump(p, e, job) && PoolRefs(s, p)
    ensures Inv(StepBump(s, t, p, e, job))
  {
    HasView(s, t);
    var s' := StepBump(s, t, p, e, job);
    PoolShape(s, t, p, s'.pools[p], s'.tasks[t]);
    BumpTouched(s, t, p, e, job);
    ReclaimClosed(s, t);
    ShapeKeeps(s, s', Reach(s, t, {p}, {}));
  }

  // ---------- Push ----------

  lemma PushFacts(s: Sys, t: Id, p: Id, k: nat, e: Id, job: Job)
    requires View(s, t) && s.tasks[t] == Push(p, k, e, job)
    ensures Registered(s, p) && e in s.execs && s.execs[e].pool == p && s.execs[e].owner == ReclaimOwner(s, t)
    ensures k < |s.pools[p].shards| && k < |s.pools[p].locks| && s.pools[p].locks[k] == Some(t)
    ensures k == ShardIndex(s.cfg, s.execs[e].eid) && HasRoom(s.cfg, |s.pools[p].shards[k]|)
    ensures WithinLimit(s, p, s.execs[e].rank)
    ensures s.execs[e].openTx.Some? ==> s.execs[e].openTx.value in s.refused
    ensures !job.Open?
  {
    ReclaimMine(s, t);
    assert TaskOk(s, t);
  }

  lemma PushShardOk(s: Sys, t: Id, p: Id, k: nat, e: Id, job: Job)
    requires View(s, t) && s.tasks[t] == Push(p, k, e, job) && Refs(s, s.tasks[t])
    ensures ShardOk(StepPush(s, t, p, k, e, job), p, k)
  {
    var s' := StepPush(s, t, p, k, e, job);
    PushFacts(s, t, p, k, e, job);
    assert PoolOk(s, p);
    assert ShardOk(s, p, k);
    var shard, shard' := s.pools[p].shards[k], s'.pools[p].shards[k];
    assert shard' == shard + [e];
    forall i | 0 <= i < |shard|
      ensures Pooled(s', p, k, shard[i]) && s'.execs[shard[i]] == s.execs[shard[i]] && shard[i] != e
    {
      assert Pooled(s, p, k, shard[i]);
    }
    assert Pooled(s', p, k, e);
  }

  lemma PushGently(s: Sys, t: Id, p: Id, k: nat, e: Id, job: Job)
    requires t in s.tasks && s.tasks[t] == Push(p, k, e, job) && Refs(s, s.tasks[t])
    requires s.pools[p].locks[k] == Some(t)
    ensures PoolTouchedGently(s.pools[p], StepPush(s, t, p, k, e, job).pools[p], Reach(s, t, {p}, {}))
  {
  }

  // A step that changes pool p, the executor the task works on, and the handle it came from.
  lemma PoolExecHandleShape(s: Sys, s': Sys, t: Id, p: Id)
    requires s.now < U64 && t in s.tasks && p in s.pools && p in s'.pools && Succeeds(s.pools[p], s'.pools[p])
    requires s'.(tasks := s.tasks, pools := s.pools, execs := s.execs, handles := s.handles) == s
    requires s'.tasks - {t} == s.tasks - {t} && s'.pools == s.pools[p := s'.pools[p]]
    requires forall h :: h !in MyHandle(s.tasks[t]) ==>
               (h in s.handles <==> h in s'.handles) && (h in s.handles ==> s'.handles[h] == s.handles[h])
    requires s'.execs.Keys == s.execs.Keys
    requires forall e :: e in s.execs ==>
               (e !in Mine(s, t) ==> s'.execs[e] == s.execs[e]) && Evolves(s.execs[e], s'.execs[e])
    requires PoolTouchedGently(s.pools[p], s'.pools[p], Reach(s, t, {p}, {}))
    ensures Shape(s, s', Reach(s, t, {p}, {}))
  {
    forall t' | t' != t
      ensures (t' in s.tasks <==> t' in s'.tasks) && (t' in s.tasks ==> s'.tasks[t'] == s.tasks[t'])
    {
      assert t' in s.tasks <==> t' in s.tasks - {t};
      assert t' in s'.tasks <==> t' in s'.tasks - {t};
      assert t' in s.tasks ==> (s.tasks - {t})[t'] == s.tasks[t'];
      assert t' in s'.tasks ==> (s'.tasks - {t})[t'] == s'.tasks[t'];
    }
  }

  lemma PushShape(s: Sys, t: Id, p: Id, k: nat, e: Id, job: Job)
    requires View(s, t) && s.tasks[t] == Push(p, k, e, job) && Refs(s, s.tasks[t])
    ensures Shape(s, StepPush(s, t, p, k, e, job), Reach(s, t, {p}, {}))
  {
    PushFacts(s, t, p, k, e, job);
    ReclaimMine(s, t);
    PushGently(s, t, p, k, e, job);
    PoolExecHandleShape(s, StepPush(s, t, p, k, e, job), t, p);
  }

  lemma PushLocksOk(s: Sys, t: Id, p: Id, k: nat, e: Id, job: Job)
    requires View(s, t) && s.tasks[t] == Push(p, k, e, job) && Refs(s, s.tasks[t])
    ensures LocksOk(StepPush(s, t, p, k, e, job), p)
  {
    assert PoolOk(s, p);
    forall j | 0 <= j < |s.pools[p].locks|
      ensures LockOk(StepPush(s, t, p, k, e, job), p, j)
    {
      assert LockOk(s, p, j);
    }
  }

  lemma PushFrame(s: Sys, t: Id, p: Id, k: nat, e: Id, job: Job)
    requires Refs(s, Push(p, k, e, job))
    ensures var q, s' := s.pools[p], StepPush(s, t, p, k, e, job);
            p in s'.pools
            && var q' := s'.pools[p];
            k < |q.shards| == |q'.shards| && |q'.locks| == |q.locks| && q'.deletions == q.deletions
            && q'.shards == q.shards[k := q'.shards[k]]
  {
  }

  lemma PushPoolOk(s: Sys, t: Id, p: Id, k: nat, e: Id, job: Job)
    requires View(s, t) && s.tasks[t] == Push(p, k, e, job) && Refs(s, s.tasks[t])
    ensures Shape(s, StepPush(s, t, p, k, e, job), Reach(s, t, {p}, {})) ==> PoolOk(StepPush(s, t, p, k, e, job), p)
  {
    if Shape(s, StepPush(s, t, p, k, e, job), Reach(s, t, {p}, {})) {
      PushFacts(s, t, p, k, e, job);
      ReclaimMine(s, t);
      PushShardOk(s, t, p, k, e, job);
      PushLocksOk(s, t, p, k, e, job);
      PushFrame(s, t, p, k, e, job);
      PoolChanges(s, StepPush(s, t, p, k, e, job), Reach(s, t, {p}, {}), p, k, e);
    }
  }

  lemma PushExecOk(s: Sys, t: Id, p: Id, k: nat, e: Id, job: Job)
    requires View(s, t) && s.tasks[t] == Push(p, k, e, job) && Refs(s, s.tasks[t])
    ensures Shape(s, StepPush(s, t, p, k, e, job), Reach(s, t, {p}, {})) ==> ExecOk(StepPush(s, t, p, k, e, job), e)
  {
    if Shape(s, StepPush(s, t, p, k, e, job), Reach(s, t, {p}, {})) {
      PushFacts(s, t, p, k, e, job);
      assert ExecOk(s, e);
      ExecRevised(s, StepPush(s, t, p, k, e, job), e);
    }
  }

  lemma PushHandleOk(s: Sys, t: Id, p: Id, k: nat, e: Id, job: Job)
    requires View(s, t) && s.tasks[t] == Push(p, k, e, job) && Refs(s, s.tasks[t]) && job.End?
    ensures HandleOk(StepPush(s, t, p, k, e, job), job.handle)
    ensures TaskOk(StepPush(s, t, p, k, e, job), t)
  {
    assert TaskOk(s, t);
    assert HandleOk(s, job.handle);
  }

  lemma TouchedFour(s: Sys, t: Id, p: Id, e: Id, hs: set<Id>)
    ensures (p in s.pools ==> PoolOk(s, p)) && (e in s.execs ==> ExecOk(s, e)) && (t in s.tasks ==> TaskOk(s, t))
            && (forall h {:trigger HandleOk(s, h)} :: h in hs && h in s.handles ==> HandleOk(s, h))
            ==> TouchedOk(s, Touched({t}, {e}, {p}, hs, {}))
  {
  }

  // The objects of a task in Reclaim, all in order.
  lemma TouchedReclaim(s: Sys, s': Sys, t: Id, p: Id, e: Id)
    requires View(s, t) && Reclaiming(s.tasks[t]) && s.tasks[t].e == e
    ensures (p in s'.pools ==> PoolOk(s', p)) && (e in s'.execs ==> ExecOk(s', e)) && (t in s'.tasks ==> TaskOk(s', t))
            && (forall h {:trigger HandleOk(s', h)} :: h in MyHandle(s.tasks[t]) && h in s'.handles ==> HandleOk(s', h))
            ==> TouchedOk(s', Reach(s, t, {p}, {}))
  {
    ReclaimMine(s, t);
    ReachOne(s, t, {p}, {}, e);
    TouchedFour(s', t, p, e, MyHandle(s.tasks[t]));
  }

  lemma PushOthersOk(s: Sys, t: Id, p: Id, k: nat, e: Id, job: Job)
    requires View(s, t) && s.tasks[t] == Push(p, k, e, job) && Refs(s, s.tasks[t])
    ensures t in StepPush(s, t, p, k, e, job).tasks ==> TaskOk(StepPush(s, t, p, k, e, job), t)
    ensures forall h {:trigger HandleOk(StepPush(s, t, p, k, e, job), h)} ::
              h in MyHandle(s.tasks[t]) && h in StepPush(s, t, p, k, e, job).handles ==>
                HandleOk(StepPush(s, t, p, k, e, job), h)
  {
    if job.End? {
      PushHandleOk(s, t, p, k, e, job);
    }
  }

  lemma PushObjectsOk(s: Sys, t: Id, p: Id, k: nat, e: Id, job: Job)
    requires View(s, t) && s.tasks[t] == Push(p, k, e, job) && Refs(s, s.tasks[t])
    ensures Shape(s, StepPush(s, t, p, k, e, job), Reach(s, t, {p}, {})) ==>
              PoolOk(StepPush(s, t, p, k, e, job), p) && ExecOk(StepPush(s, t, p, k, e, job), e)
  {
    PushPoolOk(s, t, p, k, e, job);
    PushExecOk(s, t, p, k, e, job);
  }

  lemma PushTouched(s: Sys, t: Id, p: Id, k: nat, e: Id, job: Job)
    requires View(s, t) && s.tasks[t] == Push(p, k, e, job) && Refs(s, s.tasks[t])
    ensures Shape(s, StepPush(s, t, p, k, e, job), Reach(s, t, {p}, {}))
            ==> TouchedOk(StepPush(s, t, p, k, e, job), Reach(s, t, {p}, {}))
  {
    if Shape(s, StepPush(s, t, p, k, e, job), Reach(s, t, {p}, {})) {
      PushObjectsOk(s, t, p, k, e, job);
      PushOthersOk(s, t, p, k, e, job);
      TouchedReclaim(s, StepPush(s, t, p, k, e, job), t, p, e);
    }
  }

  lemma PushKeeps(s: Sys, t: Id, p: Id, k: nat, e: Id, job: Job)
    requires Inv(s) && t in s.tasks && s.tasks[t] == Push(p, k, e, job) && Refs(s, s.tasks[t])
    ensures Inv(StepPush(s, t, p, k, e, job))
  {
    HasView(s, t);
    PushShape(s, t, p, k, e, job);
    PushTouched(s, t, p, k, e, job);
    ReclaimClosed(s, t);
    ShapeKeeps(s, StepPush(s, t, p, k, e, job), Reach(s, t, {p}, {}));
  }

  lemma ReclaimClosed(s: Sys, t: Id)
    requires Inv(s) && t in s.tasks && Reclaiming(s.tasks[t])
    ensures ClosedUnderHolding(s, Reach(s, t, {s.tasks[t].pool}, {}))
  {
    HasView(s, t);
    ReclaimMine(s, t);
    ReachClosed(s, t, {s.tasks[t].pool}, {});
  }

  // ---------- Shut ----------

  lemma ShutShape(s: Sys, t: Id, p: Id, e: Id, job: Job)
    requires View(s, t) && s.tasks[t] == Shut(p, e, job) && Refs(s, s.tasks[t])
    ensures Shape(s, StepShut(s, t, e, job), Reach(s, t, {p}, {}))
  {
    ReclaimMine(s, t);
    PoolExecHandleShape(s, StepShut(s, t, e, job), t, p);
  }

  lemma ShutExecOk(s: Sys, t: Id, p: Id, e: Id, job: Job)
    requires View(s, t) && s.tasks[t] == Shut(p, e, job) && Refs(s, s.tasks[t])
    ensures Shape(s, StepShut(s, t, e, job), Reach(s, t, {p}, {})) ==> ExecOk(StepShut(s, t, e, job), e)
  {
    if Shape(s, StepShut(s, t, e, job), Reach(s, t, {p}, {})) {
      ReclaimMine(s, t);
      assert ExecOk(s, e);
      ExecRevised(s, StepShut(s, t, e, job), e);
    }
  }

  lemma ShutHandleOk(s: Sys, t: Id, p: Id, e: Id, job: Job)
    requires View(s, t) && s.tasks[t] == Shut(p, e, job) && Refs(s, s.tasks[t]) && job.End?
    ensures HandleOk(StepShut(s, t, e, job), job.handle)
    ensures TaskOk(StepShut(s, t, e, job), t)
  {
    assert TaskOk(s, t);
    assert HandleOk(s, job.handle);
  }

  lemma ShutOthersOk(s: Sys, t: Id, p: Id, e: Id, job: Job)
    requires View(s, t) && s.tasks[t] == Shut(p, e, job) && Refs(s, s.tasks[t])
    ensures t in StepShut(s, t, e, job).tasks ==> TaskOk(StepShut(s, t, e, job), t)
    ensures forall h {:trigger HandleOk(StepShut(s, t, e, job), h)} ::
              h in MyHandle(s.tasks[t]) && h in StepShut(s, t, e, job).handles ==> HandleOk(StepShut(s, t, e, job), h)
  {
    if job.End? {
      ShutHandleOk(s, t, p, e, job);
    }
  }

  lemma ShutObjectsOk(s: Sys, t: Id, p: Id, e: Id, job: Job)
    requires View(s, t) && s.tasks[t] == Shut(p, e, job) && Refs(s, s.tasks[t])
    ensures Shape(s, StepShut(s, t, e, job), Reach(s, t, {p}, {})) ==>
              PoolOk(StepShut(s, t, e, job), p) && ExecOk(StepShut(s, t, e, job), e)
  {
    ShutExecOk(s, t, p, e, job);
    ReclaimMine(s, t);
    QuietPoolOk(s, StepShut(s, t, e, job), Reach(s, t, {p}, {}), t, p);
  }

  lemma ShutTouched(s: Sys, t: Id, p: Id, e: Id, job: Job)
    requires View(s, t) && s.tasks[t] == Shut(p, e, job) && Refs(s, s.tasks[t])
    ensures Shape(s, StepShut(s, t, e, job), Reach(s, t, {p}, {}))
            ==> TouchedOk(StepShut(s, t, e, job), Reach(s, t, {p}, {}))
  {
    if Shape(s, StepShut(s, t, e, job), Reach(s, t, {p}, {})) {
      ShutObjectsOk(s, t, p, e, job);
      ShutOthersOk(s, t, p, e, job);
      TouchedReclaim(s, StepShut(s, t, e, job), t, p, e);
    }
  }

  lemma ShutKeeps(s: Sys, t: Id, p: Id, e: Id, job: Job)
    requires Inv(s) && t in s.tasks && s.tasks[t] == Shut(p, e, job) && Refs(s, s.tasks[t])
    ensures Inv(StepShut(s, t, e, job))
  {
    HasView(s, t);
    ShutShape(s, t, p, e, job);
    ShutTouched(s, t, p, e, job);
    ReclaimClosed(s, t);
    ShapeKeeps(s, StepShut(s, t, e, job), Reach(s, t, {p}, {}));
  }
}
