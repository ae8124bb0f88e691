/** What a plain query does with its executor at the end, and when a pooled executor is handed out again. */
module PoolReturns {
  import opened Options
  import opened PoolRules
  import opened Endpoint
  import opened Protocol
  import opened ProtocolInvariant
  import opened ProtocolEffects
  import opened ProtocolPoolSteps
  import opened ProtocolReclaimSteps
  import opened ProtocolRuns
  import opened PoolTheorems

  // Everything goes well.
  const FINE := Env(true, true, Steady, true, false, true)

  // The shard of an executor.
  function Shard(s: Sys, e: Id): nat
    requires e in s.execs
  {
    s.execs[e].eid / U32 % U32 % s.cfg.numShardGroup
  }

  // The executor's shard and the counter of its pool leave room for it.
  predicate RoomFor(s: Sys, e: Id, p: Id)
    requires e in s.execs
  {
    PoolRefs(s, p)
    && |s.pools[p].shards[Shard(s, e)]| <= s.cfg.maxSize / s.cfg.numShardGroup
    && s.pools[p].incs % U32 <= s.cfg.maxSize
  }

  predicate Unlocked(s: Sys, e: Id, p: Id)
    requires e in s.execs && PoolRefs(s, p)
  {
    s.pools[p].locks[Shard(s, e)] == None
  }

  // ---------- a plain query, run alone ----------

  // The next step of thread t, if it can be taken.
  function Next(s: Sys, t: Id, env: Env): Sys {
    if Enabled(s, Step(t, env)) then Apply(s, Step(t, env)) else s
  }

  // Five steps of t and of nobody else; a call that is over takes none.
  function Finished(s: Sys, t: Id, env: Env): Sys {
    Next(Next(Next(Next(Next(s, t, env), t, env), t, env), t, env), t, env)
  }

  lemma StepsOn(s: Sys, t: Id, env: Env)
    requires Reachable(s) && t in s.tasks && LockFreeAt(s, t)
    ensures Refs(s, s.tasks[t])
    ensures Next(s, t, env) == StepTask(s, t, env) && Reachable(Next(s, t, env))
  {
    OnlyLocksBlock(s, t, env);
    ReachableStep(s, Step(t, env));
  }

  lemma Over(s: Sys, t: Id, env: Env)
    requires t !in s.tasks
    ensures Next(s, t, env) == s
  {
  }

  predicate LockFreeAt(s: Sys, t: Id)
    requires t in s.tasks
  {
    Refs(s, s.tasks[t]) ==> LockFree(s, s.tasks[t])
  }

  // The query over a connected executor: one statement, and then Reclaim.
  lemma QueryRuns(s: Sys, t: Id, p: Id, e: Id, env: Env)
    requires Reachable(s) && t in s.tasks && s.tasks[t] == Got(p, e, Query) && e in s.execs && s.execs[e].connected
    ensures var s' := At(WithExec(s, e, Ran(s.execs[e], Plain, env.net, env.ok)), t, Lock(p, e, Query));
            Reachable(s') && Next(s, t, env) == s'
  {
    StepsOn(s, t, env);
  }

  lemma HasRoomRuns(s: Sys, t: Id, p: Id, e: Id, env: Env)
    requires Reachable(s) && t in s.tasks && s.tasks[t] == Lock(p, e, Query) && e in s.execs
    requires PoolRefs(s, p) && Unlocked(s, e, p)
    requires |s.pools[p].shards[Shard(s, e)]| <= s.cfg.maxSize / s.cfg.numShardGroup
    ensures var q, k := s.pools[p], Shard(s, e);
            var s' := At(WithPool(s, p, q.(locks := q.locks[k := Some(t)])), t, Load(p, k, e, Query));
            Reachable(s') && Next(s, t, env) == s'
  {
    StepsOn(s, t, env);
  }

  lemma UnderRuns(s: Sys, t: Id, p: Id, k: nat, e: Id, env: Env)
    requires Reachable(s) && t in s.tasks && s.tasks[t] == Load(p, k, e, Query) && p in s.pools
    requires s.pools[p].incs % U32 <= s.cfg.maxSize
    ensures var s' := At(s, t, Push(p, k, e, Query));
            Reachable(s') && Next(s, t, env) == s'
  {
    StepsOn(s, t, env);
  }

  lemma PushRuns(s: Sys, t: Id, p: Id, k: nat, e: Id, env: Env)
    requires Reachable(s) && t in s.tasks && s.tasks[t] == Push(p, k, e, Query)
    ensures Refs(s, s.tasks[t])
    ensures var q := s.pools[p];
            Next(s, t, env)
            == Done(WithExec(
                      WithPool(s, p, q.(shards := q.shards[k := q.shards[k] + [e]], locks := q.locks[k := None])),
                      e, s.execs[e].(aliveTime := s.now, owner := InShard(p, k))), t)
    ensures Reachable(Next(s, t, env))
  {
    StepsOn(s, t, env);
  }

  lemma FullRuns(s: Sys, t: Id, p: Id, e: Id, env: Env)
    requires Reachable(s) && t in s.tasks && s.tasks[t] == Lock(p, e, Query) && e in s.execs
    requires PoolRefs(s, p) && Unlocked(s, e, p)
    requires |s.pools[p].shards[Shard(s, e)]| > s.cfg.maxSize / s.cfg.numShardGroup
    ensures Reachable(At(s, t, Bump(p, e, Query))) && Next(s, t, env) == At(s, t, Bump(p, e, Query))
  {
    StepsOn(s, t, env);
  }

  lemma LoadedOver(s: Sys, t: Id, p: Id, k: nat, e: Id, env: Env)
    requires Reachable(s) && t in s.tasks && s.tasks[t] == Load(p, k, e, Query) && Refs(s, s.tasks[t])
    requires s.pools[p].incs % U32 > s.cfg.maxSize
    ensures var s' := At(WithPool(s, p, s.pools[p].(locks := s.pools[p].locks[k := None])), t, Bump(p, e, Query));
            Reachable(s') && Next(s, t, env) == s'
  {
    StepsOn(s, t, env);
  }

  lemma BumpRuns(s: Sys, t: Id, p: Id, e: Id, env: Env)
    requires Reachable(s) && t in s.tasks && s.tasks[t] == Bump(p, e, Query) && PoolRefs(s, p)
    ensures var s' := At(WithPool(s, p, s.pools[p].(incs := s.pools[p].incs + 1)), t, Shut(p, e, Query));
            Reachable(s') && Next(s, t, env) == s'
  {
    StepsOn(s, t, env);
  }

  lemma ShutRuns(s: Sys, t: Id, p: Id, e: Id, env: Env)
    requires Reachable(s) && t in s.tasks && s.tasks[t] == Shut(p, e, Query) && e in s.execs
    ensures Next(s, t, env) == Done(WithExec(s, e, Disconnected(s.execs[e]).(owner := Closed)), t)
    ensures Reachable(Next(s, t, env))
  {
    StepsOn(s, t, env);
  }

  // Reclaim put e at the back of its shard just now.
  predicate PutBack(s: Sys, s': Sys, p: Id, e: Id) {
    p in s.pools && p in s'.pools && e in s.execs && e in s'.execs && s.cfg.numShardGroup > Shard(s, e)
    && Shard(s, e) < |s.pools[p].shards|
    && s'.pools[p].shards == s.pools[p].shards[Shard(s, e) := s.pools[p].shards[Shard(s, e)] + [e]]
    && s'.pools[p].incs == s.pools[p].incs && s'.pools[p].locks == s.pools[p].locks
    && s'.execs[e].aliveTime == s.now && s'.execs[e].eid == s.execs[e].eid && s'.execs[e].pool == s.execs[e].pool
  }

  // Reclaim closed e and counted.
  predicate ShutDown(s: Sys, s': Sys, p: Id, e: Id) {
    p in s.pools && p in s'.pools && e in s'.execs
    && s'.pools[p].shards == s.pools[p].shards && s'.pools[p].incs == s.pools[p].incs + 1
    && !s'.execs[e].connected && s'.execs[e].owner == Closed
  }

  // Nothing else changed.
  predicate OnlyThese(s: Sys, s': Sys, t: Id, p: Id, e: Id) {
    s'.cfg == s.cfg && s'.now == s.now && s'.next == s.next && s'.registry == s.registry
    && s'.handles == s.handles && s'.tasks == s.tasks - {t}
    && s'.pools - {p} == s.pools - {p} && s'.execs - {e} == s.execs - {e}
  }

  // The state after Reclaim with room.
  function AfterReturn(s: Sys, t: Id, p: Id, e: Id): Sys
    requires e in s.execs && PoolRefs(s, p)
  {
    var q, k := s.pools[p], Shard(s, e);
    Done(WithExec(WithPool(s, p, q.(shards := q.shards[k := q.shards[k] + [e]])),
                  e, s.execs[e].(aliveTime := s.now, owner := InShard(p, k))), t)
  }

  // The state after Reclaim without.
  function AfterShut(s: Sys, t: Id, p: Id, e: Id): Sys
    requires e in s.execs && PoolRefs(s, p)
  {
    Done(WithExec(WithPool(s, p, s.pools[p].(incs := s.pools[p].incs + 1)), e,
                  Disconnected(s.execs[e]).(owner := Closed)), t)
  }

  lemma ReturnsAlone(s: Sys, t: Id, p: Id, e: Id, env: Env)
    requires Reachable(s) && t in s.tasks && s.tasks[t] == Lock(p, e, Query) && e in s.execs
    requires RoomFor(s, e, p) && Unlocked(s, e, p)
    ensures Reachable(AfterReturn(s, t, p, e))
    ensures Next(Next(Next(s, t, env), t, env), t, env) == AfterReturn(s, t, p, e)
  {
    var q, k := s.pools[p], Shard(s, e);
    HasRoomRuns(s, t, p, e, env);
    var s1 := At(WithPool(s, p, q.(locks := q.locks[k := Some(t)])), t, Load(p, k, e, Query));
    UnderRuns(s1, t, p, k, e, env);
    PushRuns(At(s1, t, Push(p, k, e, Query)), t, p, k, e, env);
    assert q.locks[k := Some(t)][k := None] == q.locks;
  }

  lemma BumpsAlone(s: Sys, t: Id, p: Id, e: Id, env: Env)
    requires Reachable(s) && t in s.tasks && s.tasks[t] == Bump(p, e, Query) && PoolRefs(s, p) && e in s.execs
    ensures Reachable(AfterShut(s, t, p, e))
    ensures Next(Next(s, t, env), t, env) == AfterShut(s, t, p, e)
  {
    BumpRuns(s, t, p, e, env);
    ShutRuns(At(WithPool(s, p, s.pools[p].(incs := s.pools[p].incs + 1)), t, Shut(p, e, Query)), t, p, e, env);
  }

  lemma FullAlone(s: Sys, t: Id, p: Id, e: Id, env: Env)
    requires Reachable(s) && t in s.tasks && s.tasks[t] == Lock(p, e, Query) && e in s.execs
    requires PoolRefs(s, p) && Unlocked(s, e, p)
    requires |s.pools[p].shards[Shard(s, e)]| > s.cfg.maxSize / s.cfg.numShardGroup
    ensures Reachable(AfterShut(s, t, p, e))
    ensures Next(Next(Next(s, t, env), t, env), t, env) == AfterShut(s, t, p, e)
  {
    FullRuns(s, t, p, e, env);
    BumpsAlone(At(s, t, Bump(p, e, Query)), t, p, e, env);
    assert AfterShut(At(s, t, Bump(p, e, Query)), t, p, e) == AfterShut(s, t, p, e);
  }

  lemma OverRuns(s: Sys, t: Id, p: Id, e: Id, env: Env)
    requires Reachable(s) && t in s.tasks && s.tasks[t] == Lock(p, e, Query) && e in s.execs
    requires PoolRefs(s, p) && Unlocked(s, e, p)
    requires |s.pools[p].shards[Shard(s, e)]| <= s.cfg.maxSize / s.cfg.numShardGroup
    requires s.pools[p].incs % U32 > s.cfg.maxSize
    ensures Reachable(At(s, t, Bump(p, e, Query)))
    ensures Next(Next(s, t, env), t, env) == At(s, t, Bump(p, e, Query))
  {
    var q, k := s.pools[p], Shard(s, e);
    HasRoomRuns(s, t, p, e, env);
    LoadedOver(At(WithPool(s, p, q.(locks := q.locks[k := Some(t)])), t, Load(p, k, e, Query)), t, p, k, e, env);
    assert q.locks[k := Some(t)][k := None] == q.locks;
  }

  lemma OverAlone(s: Sys, t: Id, p: Id, e: Id, env: Env)
    requires Reachable(s) && t in s.tasks && s.tasks[t] == Lock(p, e, Query) && e in s.execs
    requires PoolRefs(s, p) && Unlocked(s, e, p)
    requires |s.pools[p].shards[Shard(s, e)]| <= s.cfg.maxSize / s.cfg.numShardGroup
    requires s.pools[p].incs % U32 > s.cfg.maxSize
    ensures Reachable(AfterShut(s, t, p, e))
    ensures Next(Next(Next(Next(s, t, env), t, env), t, env), t, env) == AfterShut(s, t, p, e)
  {
    OverRuns(s, t, p, e, env);
    BumpsAlone(At(s, t, Bump(p, e, Query)), t, p, e, env);
    assert AfterShut(At(s, t, Bump(p, e, Query)), t, p, e) == AfterShut(s, t, p, e);
  }

  // Reclaim seen from before the statement, which turned the executor into y.
  lemma ReturnEffect(s: Sys, t: Id, p: Id, e: Id, y: Exec, pc: Pc)
    requires e in s.execs && PoolRefs(s, p) && y.eid == s.execs[e].eid && y.pool == s.execs[e].pool
    ensures var s' := AfterReturn(At(WithExec(s, e, y), t, pc), t, p, e);
            PutBack(s, s', p, e) && OnlyThese(s, s', t, p, e)
            && s'.execs[e].log == y.log && s'.execs[e].connected == y.connected
  {
  }

  lemma ShutEffect(s: Sys, t: Id, p: Id, e: Id, y: Exec, pc: Pc)
    requires e in s.execs && PoolRefs(s, p)
    ensures var s' := AfterShut(At(WithExec(s, e, y), t, pc), t, p, e);
            ShutDown(s, s', p, e) && OnlyThese(s, s', t, p, e) && s'.execs[e].log == y.log
  {
  }

  // Four steps of Reclaim are enough, and the rest is idle.
  lemma ReclaimAlone(s: Sys, t: Id, p: Id, e: Id, env: Env)
    requires Reachable(s) && t in s.tasks && s.tasks[t] == Lock(p, e, Query) && e in s.execs
    requires PoolRefs(s, p) && Unlocked(s, e, p)
    ensures var s' := Next(Next(Next(Next(s, t, env), t, env), t, env), t, env);
            Reachable(s') && s' == if RoomFor(s, e, p) then AfterReturn(s, t, p, e) else AfterShut(s, t, p, e)
  {
    if RoomFor(s, e, p) {
      ReturnsAlone(s, t, p, e, env);
      Over(AfterReturn(s, t, p, e), t, env);
    } else if |s.pools[p].shards[Shard(s, e)]| > s.cfg.maxSize / s.cfg.numShardGroup {
      FullAlone(s, t, p, e, env);
      Over(AfterShut(s, t, p, e), t, env);
    } else {
      OverAlone(s, t, p, e, env);
    }
  }

  lemma RanEffect(x: Exec, net: Net, ok: bool)
    requires x.connected
    ensures var y := Ran(x, Plain, net, ok);
            y.connected == !net.Lost? && y.eid == x.eid && y.pool == x.pool
            && y.log == x.log + if net.Lost? then []
                                else [Entry(User, Plain, ok, x.session + if net.Redial? then 1 else 0, false)]
  {
  }

  function AfterQuery(s: Sys, t: Id, p: Id, e: Id, env: Env): Sys
    requires e in s.execs && PoolRefs(s, p)
  {
    var s1 := At(WithExec(s, e, Ran(s.execs[e], Plain, env.net, env.ok)), t, Lock(p, e, Query));
    if RoomFor(s, e, p) then AfterReturn(s1, t, p, e) else AfterShut(s1, t, p, e)
  }

  lemma QueryReclaims(s: Sys, t: Id, p: Id, e: Id, env: Env)
    requires Reachable(s) && t in s.tasks && s.tasks[t] == Got(p, e, Query) && e in s.execs && s.execs[e].connected
    requires PoolRefs(s, p) && Unlocked(s, e, p)
    ensures Finished(s, t, env) == AfterQuery(s, t, p, e, env) && Reachable(AfterQuery(s, t, p, e, env))
  {
    QueryRuns(s, t, p, e, env);
    RanEffect(s.execs[e], env.net, env.ok);
    ReclaimAlone(At(WithExec(s, e, Ran(s.execs[e], Plain, env.net, env.ok)), t, Lock(p, e, Query)), t, p, e, env);
  }

  // The statement is sent once; with room the executor goes back, without it is closed.
  predicate QueryDone(s: Sys, s': Sys, t: Id, p: Id, e: Id, env: Env)
    requires e in s.execs
  {
    OnlyThese(s, s', t, p, e) && e in s'.execs
    && (if RoomFor(s, e, p) then PutBack(s, s', p, e) && s'.execs[e].connected == !env.net.Lost?
        else ShutDown(s, s', p, e))
    && s'.execs[e].log
       == s.execs[e].log
          + if env.net.Lost? then []
            else [Entry(User, Plain, env.ok, s.execs[e].session + if env.net.Redial? then 1 else 0, false)]
  }

  lemma QueryOutcome(s: Sys, t: Id, p: Id, e: Id, env: Env)
    requires e in s.execs && s.execs[e].connected && PoolRefs(s, p)
    ensures QueryDone(s, AfterQuery(s, t, p, e, env), t, p, e, env)
  {
    RanEffect(s.execs[e], env.net, env.ok);
    var y := Ran(s.execs[e], Plain, env.net, env.ok);
    ReturnEffect(s, t, p, e, y, Lock(p, e, Query));
    ShutEffect(s, t, p, e, y, Lock(p, e, Query));
  }

  /** A plain query that runs alone, over a connected executor whose shard is not locked: it sends its one
      statement, and then its executor is at the back of its own shard, used just now, if that shard
      held at most floor(max_size / num_shard_group) executors and the counter was at most max_size;
      otherwise it is closed and the counter one higher. The task is over and nothing else has changed. */
  lemma QueryAlone(s: Sys, t: Id, p: Id, e: Id, env: Env)
    requires Reachable(s) && t in s.tasks && s.tasks[t] == Got(p, e, Query) && e in s.execs && s.execs[e].connected
    requires PoolRefs(s, p) && Unlocked(s, e, p)
    ensures Reachable(Finished(s, t, env)) && QueryDone(s, Finished(s, t, env), t, p, e, env)
  {
    QueryReclaims(s, t, p, e, env);
    QueryOutcome(s, t, p, e, env);
  }

  // ---------- a plain query, in any run ----------

  // t is inside the Reclaim of its query over e: not turned away so far, or turned away.
  predicate OnItsWay(pc: Pc, p: Id, e: Id) {
    (pc.Lock? || pc.Load? || pc.Push?) && pc.pool == p && pc.e == e && pc.job == Query
  }

  predicate TurnedAway(pc: Pc, p: Id, e: Id) {
    (pc.Bump? || pc.Shut?) && pc.pool == p && pc.e == e && pc.job == Query
  }

  // In this action t finds its executor's shard too long, or the counter too high.
  predicate MeetsLimit(s: Sys, a: Action, t: Id) {
    a.Step? && a.t == t && t in s.tasks
    && match s.tasks[t]
       case Lock(p, e, _) =>
         p in s.pools && e in s.execs && Shard(s, e) < |s.pools[p].shards|
         && |s.pools[p].shards[Shard(s, e)]| > s.cfg.maxSize / s.cfg.numShardGroup
       case Load(p, _, _, _) => p in s.pools && s.pools[p].incs % U32 > s.cfg.maxSize
       case _ => false
  }

  lemma LockTurns(s: Sys, t: Id, p: Id, e: Id, env: Env)
    requires t in s.tasks && s.tasks[t] == Lock(p, e, Query) && Refs(s, s.tasks[t])
    ensures var s' := StepLock(s, t, p, e, Query);
            t in s'.tasks
            && if MeetsLimit(s, Step(t, env), t) then TurnedAway(s'.tasks[t], p, e) else OnItsWay(s'.tasks[t], p, e)
  {
  }

  lemma LoadTurns(s: Sys, t: Id, p: Id, k: nat, e: Id, env: Env)
    requires t in s.tasks && s.tasks[t] == Load(p, k, e, Query) && Refs(s, s.tasks[t])
    ensures var s' := StepLoad(s, t, p, k, e, Query);
            t in s'.tasks
            && if MeetsLimit(s, Step(t, env), t) then TurnedAway(s'.tasks[t], p, e) else OnItsWay(s'.tasks[t], p, e)
  {
  }

  // e is at the back of its own shard, used just now.
  predicate AtBack(s: Sys, p: Id, e: Id) {
    p in s.pools && e in s.execs && s.execs[e].pool == p && Shard(s, e) < |s.pools[p].shards|
    && s.pools[p].shards[Shard(s, e)] != []
    && s.pools[p].shards[Shard(s, e)][|s.pools[p].shards[Shard(s, e)]| - 1] == e
    && s.execs[e].aliveTime == s.now
  }

  lemma PushTurns(s: Sys, t: Id, p: Id, k: nat, e: Id)
    requires t in s.tasks && s.tasks[t] == Push(p, k, e, Query) && Refs(s, s.tasks[t]) && TaskOk(s, t)
    ensures t !in StepPush(s, t, p, k, e, Query).tasks && AtBack(StepPush(s, t, p, k, e, Query), p, e)
  {
  }

  lemma BumpTurns(s: Sys, t: Id, p: Id, e: Id)
    requires t in s.tasks && s.tasks[t] == Bump(p, e, Query) && Refs(s, s.tasks[t])
    ensures t in StepBump(s, t, p, e, Query).tasks && TurnedAway(StepBump(s, t, p, e, Query).tasks[t], p, e)
  {
  }

  lemma ShutTurns(s: Sys, t: Id, p: Id, e: Id)
    requires t in s.tasks && s.tasks[t] == Shut(p, e, Query) && Refs(s, s.tasks[t])
    ensures t !in StepShut(s, t, e, Query).tasks && e in StepShut(s, t, e, Query).execs
    ensures !StepShut(s, t, e, Query).execs[e].connected && StepShut(s, t, e, Query).execs[e].owner == Closed
  {
  }

  // Where t's call is after an action: on its way, turned away, or over with e pooled or closed.
  predicate Stage(s': Sys, t: Id, p: Id, e: Id, turned: bool) {
    if t in s'.tasks then (if turned then TurnedAway(s'.tasks[t], p, e) else OnItsWay(s'.tasks[t], p, e))
    else if turned then e in s'.execs && !s'.execs[e].connected && s'.execs[e].owner == Closed
    else AtBack(s', p, e)
  }

  lemma OwnTurn(s: Sys, t: Id, p: Id, e: Id, env: Env, turned: bool)
    requires Inv(s) && Enabled(s, Step(t, env))
    requires if turned then TurnedAway(s.tasks[t], p, e) else OnItsWay(s.tasks[t], p, e)
    ensures Stage(Apply(s, Step(t, env)), t, p, e, turned || MeetsLimit(s, Step(t, env), t))
  {
    assert TaskOk(s, t);
    match s.tasks[t]
    case Lock(_, _, _) => LockTurns(s, t, p, e, env);
    case Load(_, k, _, _) => LoadTurns(s, t, p, k, e, env);
    case Push(_, k, _, _) => PushTurns(s, t, p, k, e);
    case Bump(_, _, _) => BumpTurns(s, t, p, e);
    case Shut(_, _, _) => ShutTurns(s, t, p, e);
  }

  // Other threads leave t where it is.
  lemma OthersTurn(s: Sys, a: Action, t: Id)
    requires Inv(s) && Enabled(s, a) && t in s.tasks && !(a.Step? && a.t == t)
    ensures t in Apply(s, a).tasks && Apply(s, a).tasks[t] == s.tasks[t] && !MeetsLimit(s, a, t)
  {
    if a.Step? {
      StepAdvances(s, a.t, a.env);
    } else {
      CallsStart(s, a);
    }
    assert TaskOk(s, t);
  }

  // In this action t sends its query over e, which is connected.
  predicate SendsQuery(s: Sys, a: Action, t: Id, p: Id, e: Id) {
    a.Step? && a.t == t && t in s.tasks && s.tasks[t] == Got(p, e, Query) && e in s.execs && s.execs[e].connected
  }

  // Between actions i and m, t met the limit.
  ghost predicate Turned(states: seq<Sys>, acts: seq<Action>, i: nat, m: nat, t: Id)
    requires m <= |acts| < |states|
  {
    exists j :: i < j < m && MeetsLimit(states[j], acts[j], t)
  }

  lemma QuerySent(s: Sys, a: Action, t: Id, p: Id, e: Id)
    requires Enabled(s, a) && SendsQuery(s, a, t, p, e)
    ensures t in Apply(s, a).tasks && OnItsWay(Apply(s, a).tasks[t], p, e)
  {
  }

  lemma NextStage(s: Sys, a: Action, s': Sys, t: Id, p: Id, e: Id, turned: bool)
    requires Inv(s) && Follows(s, a, s') && t in s.tasks
    ensures Stage(s, t, p, e, turned) ==> Stage(s', t, p, e, turned || MeetsLimit(s, a, t))
  {
    if Stage(s, t, p, e, turned) {
      if a.Step? && a.t == t {
        OwnTurn(s, t, p, e, a.env, turned);
      } else {
        OthersTurn(s, a, t);
      }
    }
  }

  lemma TurnedNow(states: seq<Sys>, acts: seq<Action>, i: nat, m: nat, t: Id)
    requires |states| == |acts| + 1 && i + 1 < m < |states|
    ensures Turned(states, acts, i, m, t)
       <==> Turned(states, acts, i, m - 1, t) || MeetsLimit(states[m - 1], acts[m - 1], t)
  {
  }

  lemma {:induction false} StageAt(states: seq<Sys>, acts: seq<Action>, i: nat, m: nat, t: Id, p: Id, e: Id)
    requires Run(states, acts) && i < m < |states| && SendsQuery(states[i], acts[i], t, p, e)
    requires forall j :: i <= j < m ==> t in states[j].tasks
    ensures Stage(states[m], t, p, e, Turned(states, acts, i, m, t))
  {
    assert StepAt(states, acts, m - 1);
    if m == i + 1 {
      QuerySent(states[i], acts[i], t, p, e);
    } else {
      StageAt(states, acts, i, m - 1, t, p, e);
      RunHolds(states, acts, m - 1);
      NextStage(states[m - 1], acts[m - 1], states[m], t, p, e, Turned(states, acts, i, m - 1, t));
      TurnedNow(states, acts, i, m, t);
    }
  }

  /** In every run, whatever the other threads do, a plain query that was sent over a connected executor
      ends with that executor at the back of its own shard, used just now, if and only if none of its own
      steps met a shard of more than floor(max_size / num_shard_group) executors or a counter above
      max_size. Otherwise it ends with the executor closed. */
  lemma QueryPooledIff(states: seq<Sys>, acts: seq<Action>, i: nat, n: nat, t: Id, p: Id, e: Id)
    requires Run(states, acts) && i < n < |states| && SendsQuery(states[i], acts[i], t, p, e)
    requires t !in states[n].tasks && forall j :: i <= j < n ==> t in states[j].tasks
    ensures AtBack(states[n], p, e) <==> !exists j :: i < j < n && MeetsLimit(states[j], acts[j], t)
    ensures (exists j :: i < j < n && MeetsLimit(states[j], acts[j], t)) ==>
              e in states[n].execs && !states[n].execs[e].connected && states[n].execs[e].owner == Closed
  {
    StageAt(states, acts, i, n, t, p, e);
    RunHolds(states, acts, n);
    if AtBack(states[n], p, e) {
      var k := Shard(states[n], e);
      OccupantOwned(states[n], e, Slot(p, k, |states[n].pools[p].shards[k]| - 1));
    }
  }

  // ---------- the next one who looks ----------

  // The scan at pc decides about e, the back of the shard it looks at.
  predicate Decides(s: Sys, s': Sys, t: Id, pc: Pc, e: Id, ping: bool)
    requires pc.Scan?
  {
    e in s.execs && s.execs[e].aliveTime <= s.now && t in s'.tasks
    && s'.tasks[t] == if s.execs[e].connected && ping
                         && (s.cfg.maxIdleTime == 0 || s.now - s.execs[e].aliveTime < s.cfg.maxIdleTime)
                      then Got(pc.pool, e, pc.job)
                      else Discard(pc.pool, pc.sid, pc.retry, e, pc.job)
  }

  lemma ScanDecides(s: Sys, t: Id, pc: Pc, ping: bool)
    requires pc.Scan? && Refs(s, pc) && s.now < U64
    requires s.pools[pc.pool].shards[pc.sid % s.cfg.numShardGroup] != []
    requires s.execs[Back(s, pc)].aliveTime <= s.now
    ensures Decides(s, StepScan(s, t, pc, ping), t, pc, Back(s, pc), ping)
  {
    var x := s.execs[Back(s, pc)];
    OlderTimesOutToo(s.cfg, x.aliveTime, x.aliveTime, s.now);
  }

  // The back of a shard was used in the past.
  lemma BackIsPast(s: Sys, t: Id)
    requires Reachable(s) && t in s.tasks && s.tasks[t].Scan? && Refs(s, s.tasks[t])
    requires s.pools[s.tasks[t].pool].shards[s.tasks[t].sid % s.cfg.numShardGroup] != []
    ensures s.now < U64 && s.execs[Back(s, s.tasks[t])].aliveTime <= s.now
  {
    ReachableHolds(s);
    HasView(s, t);
    BackPooled(s, t, s.tasks[t]);
  }

  /** The scan of a nonempty shard hands out the executor at its back if and only if that is connected,
      answers the ping, and there is no idle limit or its true age is below it; otherwise it is to be
      discarded. */
  lemma ScanHandsOut(s: Sys, t: Id, env: Env)
    requires Reachable(s) && Enabled(s, Step(t, env)) && s.tasks[t].Scan?
    requires s.pools[s.tasks[t].pool].shards[s.tasks[t].sid % s.cfg.numShardGroup] != []
    ensures Decides(s, Apply(s, Step(t, env)), t, s.tasks[t], Back(s, s.tasks[t]), env.ping)
  {
    BackIsPast(s, t);
    ScanDecides(s, t, s.tasks[t], env.ping);
    assert Apply(s, Step(t, env)) == StepScan(s, t, s.tasks[t], env.ping);
  }

  /** Round trip: the executor a query gives back is the one the next scan of that shard gets, ms
      milliseconds later, if and only if it is connected, answers, and there is no idle limit or ms is
      below it. */
  lemma ReturnedComesBack(s: Sys, t: Id, p: Id, k: nat, e: Id, ms: nat, u: Id, env: Env)
    requires Reachable(s) && t in s.tasks && s.tasks[t] == Push(p, k, e, Query) && s.now + ms < U64
    requires u in s.tasks && u != t && s.tasks[u].Scan? && s.tasks[u].pool == p
    requires s.tasks[u].sid % s.cfg.numShardGroup == k
    ensures Enabled(s, Step(t, FINE)) && Enabled(Apply(s, Step(t, FINE)), Tick(ms))
    ensures var s2 := Apply(Apply(s, Step(t, FINE)), Tick(ms));
            e in s.execs && Enabled(s2, Step(u, env)) && u in Apply(s2, Step(u, env)).tasks
            && (Apply(s2, Step(u, env)).tasks[u] == Got(p, e, s.tasks[u].job)
                <==> s.execs[e].connected && env.ping && (s.cfg.maxIdleTime == 0 || ms < s.cfg.maxIdleTime))
  {
    StepsOn(s, t, FINE);
    PushRuns(s, t, p, k, e, FINE);
    var s1 := Apply(s, Step(t, FINE));
    ReachableStep(s1, Tick(ms));
    var s2 := Apply(s1, Tick(ms));
    OnlyLocksBlock(s2, u, env);
    ScanHandsOut(s2, u, env);
  }
}
