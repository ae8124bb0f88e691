/** What the pool guarantees in every reachable state, for any number of threads. */
module PoolTheorems {
  import opened Options
  import opened PoolRules
  import opened Endpoint
  import opened HandleState
  import opened Protocol
  import opened ProtocolInvariant
  import opened ProtocolPoolSteps
  import opened ProtocolReclaimSteps
  import opened ProtocolRuns
  import opened ProtocolEffects
  import opened TicketBalance

  // s can come about by some run.
  ghost predicate Reachable(s: Sys) {
    exists states, acts :: Run(states, acts) && states[|acts|] == s
  }

  lemma ReachableHolds(s: Sys)
    requires Reachable(s)
    ensures Inv(s)
  {
    var states, acts :| Run(states, acts) && states[|acts|] == s;
    RunHolds(states, acts, |acts|);
  }

  lemma RunReaches(states: seq<Sys>, acts: seq<Action>, i: nat)
    requires Run(states, acts) && i < |states|
    ensures Reachable(states[i])
  {
    var states', acts' := states[..i + 1], acts[..i];
    forall j {:trigger StepAt(states', acts', j)} | 0 <= j < i
      ensures StepAt(states', acts', j)
    {
      assert StepAt(states, acts, j);
    }
    assert Run(states', acts') && states'[|acts'|] == states[i];
  }

  lemma ReachableStep(s: Sys, a: Action)
    requires Reachable(s) && Enabled(s, a)
    ensures Reachable(Apply(s, a))
  {
    var states, acts :| Run(states, acts) && states[|acts|] == s;
    var states', acts' := states + [Apply(s, a)], acts + [a];
    forall i | 0 <= i < |acts'|
      ensures StepAt(states', acts', i)
    {
      if i < |acts| {
        assert StepAt(states, acts, i);
      }
    }
    assert Run(states', acts') && states'[|acts'|] == Apply(s, a);
  }

  // ---------- progress ----------

  lemma RefsHold(s: Sys, t: Id)
    requires Inv(s) && t in s.tasks
    ensures Refs(s, s.tasks[t])
  {
    HasView(s, t);
    var pc := s.tasks[t];
    if pc.Scan? {
      var k := pc.sid % s.cfg.numShardGroup;
      var shard := s.pools[pc.pool].shards[k];
      assert ShardOk(s, pc.pool, k);
      if shard != [] {
        assert Pooled(s, pc.pool, k, shard[|shard| - 1]);
      }
    }
  }

  /** No step ever follows a bad pointer: the only thing a thread can wait for is a shard lock. */
  lemma OnlyLocksBlock(s: Sys, t: Id, env: Env)
    requires Reachable(s) && t in s.tasks
    ensures Refs(s, s.tasks[t])
    ensures Enabled(s, Step(t, env)) <==> LockFree(s, s.tasks[t])
  {
    ReachableHolds(s);
    RefsHold(s, t);
  }

  /** No deadlock: while any call is in progress, some thread can move. */
  lemma SomeThreadCanMove(s: Sys, t: Id, env: Env)
    requires Reachable(s) && t in s.tasks
    ensures exists u :: u in s.tasks && Enabled(s, Step(u, env))
  {
    ReachableHolds(s);
    RefsHold(s, t);
    if LockFree(s, s.tasks[t]) {
      assert Enabled(s, Step(t, env));
    } else {
      var (p, k) := Needs(s, s.tasks[t]).value;
      HasView(s, t);
      assert LockOk(s, p, k);
      var u := s.pools[p].locks[k].value;
      RefsHold(s, u);
      assert Enabled(s, Step(u, env));
    }
  }

  // How many of the first n actions are steps of task t.
  function StepsOf(acts: seq<Action>, n: nat, t: Id): nat
    requires n <= |acts|
  {
    if n == 0 then 0 else StepsOf(acts, n - 1, t) + if acts[n - 1].Step? && acts[n - 1].t == t then 1 else 0
  }

  function Left(s: Sys, t: Id): nat {
    if t in s.tasks then StepsLeft(s.tasks[t]) else 0
  }

  // Task names are never used again.
  predicate Budget(s: Sys, taken: nat, t: Id) {
    taken + Left(s, t) <= CALL_STEPS && (t >= s.next ==> taken == 0 && t !in s.tasks)
  }

  lemma BudgetKeeps(s: Sys, a: Action, s': Sys, taken: nat, taken': nat, t: Id)
    requires taken' == taken + if a.Step? && a.t == t then 1 else 0
    ensures Inv(s) && Follows(s, a, s') && Budget(s, taken, t) ==> Budget(s', taken', t)
  {
    if Inv(s) && Follows(s, a, s') && Budget(s, taken, t) {
      NextUnused(s);
      if a.Step? {
        StepAdvances(s, a.t, a.env);
        assert TaskOk(s, a.t);
      } else {
        CallsStart(s, a);
      }
    }
  }

  lemma FreshBudget(s: Sys, t: Id)
    requires Fresh(s)
    ensures Budget(s, 0, t)
  {
  }

  lemma BudgetStep(states: seq<Sys>, acts: seq<Action>, n: nat, t: Id)
    requires Run(states, acts) && 0 < n <= |acts|
    ensures Budget(states[n - 1], StepsOf(acts, n - 1, t), t) ==> Budget(states[n], StepsOf(acts, n, t), t)
  {
    RunHolds(states, acts, n - 1);
    assert StepAt(states, acts, n - 1);
    BudgetKeeps(states[n - 1], acts[n - 1], states[n], StepsOf(acts, n - 1, t), StepsOf(acts, n, t), t);
  }

  lemma {:induction false} RunBudget(states: seq<Sys>, acts: seq<Action>, n: nat, t: Id)
    requires Run(states, acts) && n <= |acts|
    ensures Budget(states[n], StepsOf(acts, n, t), t)
  {
    if n == 0 {
      FreshBudget(states[0], t);
    } else {
      RunBudget(states, acts, n - 1, t);
      BudgetStep(states, acts, n, t);
    }
  }

  /** No call loops: in every run, whatever the other threads do, a call takes at most 21 steps. With
      SomeThreadCanMove, calls that get to run always finish. */
  lemma EveryCallEnds(states: seq<Sys>, acts: seq<Action>, t: Id)
    requires Run(states, acts)
    ensures StepsOf(acts, |acts|, t) <= CALL_STEPS
  {
    RunBudget(states, acts, |acts|, t);
  }

  // ---------- exclusive ownership ----------

  datatype Place = Slot(pool: Id, shard: nat, index: nat) | InHandle(handle: Id) | InTask(task: Id)

  predicate Occupies(s: Sys, e: Id, place: Place) {
    match place
    case Slot(p, k, i) =>
      p in s.pools && k < |s.pools[p].shards| && i < |s.pools[p].shards[k]| && s.pools[p].shards[k][i] == e
    case InHandle(h) => h in s.handles && s.handles[h].exec == Some(e)
    case InTask(t) => t in s.tasks && Holds(s.tasks[t]) == Some(e)
  }

  lemma OccupantOwned(s: Sys, e: Id, place: Place)
    requires Inv(s) && Occupies(s, e, place)
    ensures e in s.execs
    ensures s.execs[e].owner == match place
                                case Slot(p, k, _) => InShard(p, k)
                                case InHandle(h) => ByHandle(h)
                                case InTask(t) => ByTask(t)
  {
    match place
    case Slot(p, k, i) =>
      assert PoolOk(s, p);
      assert ShardOk(s, p, k);
      assert Pooled(s, p, k, s.pools[p].shards[k][i]);
    case InHandle(h) => assert HandleOk(s, h);
    case InTask(t) => assert TaskOk(s, t);
  }

  /** An executor is in at most one place: one position of one shard, one handle, or one thread. */
  lemma OnePlace(s: Sys, e: Id, a: Place, b: Place)
    requires Reachable(s) && Occupies(s, e, a) && Occupies(s, e, b)
    ensures a == b
  {
    ReachableHolds(s);
    OccupantOwned(s, e, a);
    OccupantOwned(s, e, b);
    if a.Slot? {
      assert PoolOk(s, a.pool);
      assert ShardOk(s, a.pool, a.shard);
    }
  }

  // ---------- the bound on idle executors ----------

  // All the pooled executors, shard after shard.
  function Idlers(shards: seq<seq<Id>>): seq<Id> {
    if shards == [] then [] else shards[0] + Idlers(shards[1..])
  }

  // Position i of Idlers is some position of some shard.
  lemma {:induction false} IdlerSlot(shards: seq<seq<Id>>, i: nat) returns (k: nat, j: nat)
    requires i < |Idlers(shards)|
    ensures k < |shards| && j < |shards[k]| && shards[k][j] == Idlers(shards)[i]
    ensures i == |Idlers(shards[..k])| + j
  {
    if i < |shards[0]| {
      k, j := 0, i;
      assert shards[..0] == [];
    } else {
      var k', j' := IdlerSlot(shards[1..], i - |shards[0]|);
      k, j := k' + 1, j';
      assert shards[..k][1..] == shards[1..][..k'];
    }
  }

  /** Pigeonhole: distinct numbers between 1 and n are at most n many. */
  lemma {:induction false} AtMost(ranks: seq<nat>, n: nat)
    requires forall i :: 0 <= i < |ranks| ==> 1 <= ranks[i] <= n
    requires forall i, j :: 0 <= i < j < |ranks| ==> ranks[i] != ranks[j]
    ensures |ranks| <= n
  {
    if ranks != [] {
      assert 1 <= ranks[0] <= n;
      if n in ranks {
        var i :| 0 <= i < |ranks| && ranks[i] == n;
        AtMost(ranks[..i] + ranks[i + 1..], n - 1);
      } else {
        AtMost(ranks, n - 1);
      }
    }
  }

  /** However the threads interleave, and although no lock covers more than one shard, the idle
      executors of a pool are never more than max_size (until the 32-bit counter wraps). */
  lemma IdleBound(s: Sys, p: Id)
    requires Reachable(s) && p in s.pools && s.pools[p].incs < U32
    ensures |Idlers(s.pools[p].shards)| <= s.cfg.maxSize
  {
    ReachableHolds(s);
    var shards := s.pools[p].shards;
    var all := Idlers(shards);
    forall i: nat | i < |all|
      ensures all[i] in s.execs && s.execs[all[i]].pool == p && 1 <= s.execs[all[i]].rank <= s.cfg.maxSize
    {
      var k, j := IdlerSlot(shards, i);
      assert PoolOk(s, p);
      assert ShardOk(s, p, k);
      assert Pooled(s, p, k, shards[k][j]);
    }
    forall i: nat, j: nat | i < j < |all|
      ensures all[i] != all[j]
    {
      var k, m := IdlerSlot(shards, i);
      var k', m' := IdlerSlot(shards, j);
      if all[i] == all[j] {
        OnePlace(s, all[i], Slot(p, k, m), Slot(p, k', m'));
      }
    }
    var ranks := seq(|all|, i requires 0 <= i < |all| => s.execs[all[i]].rank);
    AtMost(ranks, s.cfg.maxSize);
  }

  /** One shard holds at most one executor more than the floor of max_size / num_shard_group. */
  lemma ShardBound(s: Sys, p: Id, k: nat)
    requires Reachable(s) && p in s.pools && k < |s.pools[p].shards|
    ensures |s.pools[p].shards[k]| <= s.cfg.maxSize / s.cfg.numShardGroup + 1
  {
    ReachableHolds(s);
    assert PoolOk(s, p);
    assert ShardOk(s, p, k);
  }

  lemma {:induction false} IdlersAtMost(shards: seq<seq<Id>>, n: nat)
    requires forall k :: 0 <= k < |shards| ==> |shards[k]| <= n
    ensures |Idlers(shards)| <= |shards| * n
  {
    if shards != [] {
      IdlersAtMost(shards[1..], n);
    }
  }

  lemma ShardsAtMost(s: Sys, p: Id, n: nat)
    requires Reachable(s) && p in s.pools && n == s.cfg.maxSize / s.cfg.numShardGroup + 1
    ensures |s.pools[p].shards| == s.cfg.numShardGroup
    ensures forall k :: 0 <= k < |s.pools[p].shards| ==> |s.pools[p].shards[k]| <= n
  {
    ReachableHolds(s);
    assert PoolOk(s, p);
    forall k | 0 <= k < |s.pools[p].shards|
      ensures |s.pools[p].shards[k]| <= n
    {
      ShardBound(s, p, k);
    }
  }

  lemma RoundedUp(m: nat, g: nat)
    requires g > 0
    ensures g * (m / g + 1) <= m + g
  {
  }

  /** Whatever the counter has done, wraps included, the idle executors of a pool are at most one per
      shard more than max_size allows. */
  lemma IdleBoundAlways(s: Sys, p: Id)
    requires Reachable(s) && p in s.pools
    ensures |Idlers(s.pools[p].shards)| <= s.cfg.numShardGroup * (s.cfg.maxSize / s.cfg.numShardGroup + 1)
    ensures |Idlers(s.pools[p].shards)| <= s.cfg.maxSize + s.cfg.numShardGroup
  {
    var n := s.cfg.maxSize / s.cfg.numShardGroup + 1;
    ShardsAtMost(s, p, n);
    IdlersAtMost(s.pools[p].shards, n);
    RoundedUp(s.cfg.maxSize, s.cfg.numShardGroup);
  }

  // ---------- order by last use ----------

  /** Every shard is sorted by last use, the age of a pooled executor is its true age (the
      unsigned subtraction does not wrap), and if the back one is too old then all are. */
  lemma ShardSorted(s: Sys, p: Id, k: nat, i: nat, j: nat)
    requires Reachable(s) && p in s.pools && k < |s.pools[p].shards|
    requires i <= j < |s.pools[p].shards[k]|
    ensures s.pools[p].shards[k][i] in s.execs && s.pools[p].shards[k][j] in s.execs
    ensures var first, second := s.execs[s.pools[p].shards[k][i]].aliveTime, s.execs[s.pools[p].shards[k][j]].aliveTime;
            first <= second <= s.now
            && AliveTime(first, s.now) == s.now - first
            && (IsIdleTimeout(s.cfg, second, s.now) ==> IsIdleTimeout(s.cfg, first, s.now))
  {
    ReachableHolds(s);
    assert PoolOk(s, p);
    assert ShardOk(s, p, k);
    var d, e := s.pools[p].shards[k][i], s.pools[p].shards[k][j];
    assert Pooled(s, p, k, d) && Pooled(s, p, k, e);
    assert s.execs[d].aliveTime <= s.execs[e].aliveTime;
    OlderTimesOutToo(s.cfg, s.execs[d].aliveTime, s.execs[e].aliveTime, s.now);
  }

  // ---------- shard affinity ----------

  /** An executor is made for its caller's ticket, and whenever it is pooled it is in that shard. */
  lemma MadeForTicket(s: Sys, t: Id, env: Env)
    requires Reachable(s) && t in s.tasks && s.tasks[t].Make?
    ensures Enabled(s, Step(t, env))
    ensures var s' := Apply(s, Step(t, env));
            s.next in s'.execs && ShardIndex(s.cfg, s'.execs[s.next].eid) == s.tasks[t].sid % s.cfg.numShardGroup
            && s'.execs[s.next].eid / U32 == s.tasks[t].sid
  {
    ReachableHolds(s);
    RefsHold(s, t);
    assert TaskOk(s, t);
    var pc := s.tasks[t];
    PackedIdKeepsTicket(s.cfg, pc.sid, s.pools[pc.pool].made % U32);
  }

  // In this step a call draws a ticket of pool p and heads for shard k.
  predicate StartsIn(s: Sys, a: Action, s': Sys, p: Id, k: nat) {
    a.Step? && a.t in s.tasks && s.tasks[a.t].Ticket? && s.tasks[a.t].pool == p
    && a.t in s'.tasks && s'.tasks[a.t].Scan? && s'.tasks[a.t].sid % s'.cfg.numShardGroup == k
  }

  // How many of the first n actions do so.
  function Starts(states: seq<Sys>, acts: seq<Action>, n: nat, p: Id, k: nat): nat
    requires n <= |acts| < |states|
  {
    if n == 0 then 0
    else Starts(states, acts, n - 1, p, k) + if StartsIn(states[n - 1], acts[n - 1], states[n], p, k) then 1 else 0
  }

  lemma DrawStarts(s: Sys, a: Action, p: Id, k: nat)
    requires Enabled(s, a)
    ensures StartsIn(s, a, Apply(s, a), p, k) <==> Draws(s, a, p) == 1 && StartShard(s.cfg, Tickets(s, p)) == k
  {
    if Draws(s, a, p) == 1 {
      assert Apply(s, a) == StepTicket(s, a.t, p, s.tasks[a.t].job);
    }
  }

  lemma OneAction(s: Sys, a: Action, s': Sys, p: Id, k: nat)
    requires Inv(s) && Follows(s, a, s')
    ensures s'.cfg == s.cfg
            && (StartsIn(s, a, s', p, k) ==> StartShard(s.cfg, Tickets(s, p)) == k)
            && Tickets(s', p) == Tickets(s, p) + Draws(s, a, p)
            && (Draws(s, a, p) == 1 && StartShard(s.cfg, Tickets(s, p)) == k ==> StartsIn(s, a, s', p, k))
  {
    NextUnused(s);
    TicketsDrawn(s, a, p);
    DrawStarts(s, a, p, k);
    ConfigStays(s, a);
  }

  lemma {:induction false} StartsAreVisits(states: seq<Sys>, acts: seq<Action>, n: nat, p: Id, k: nat)
    requires Run(states, acts) && n <= |acts|
    ensures states[n].cfg == states[0].cfg
    ensures Starts(states, acts, n, p, k) == Visits(states[0].cfg, 0, Tickets(states[n], p), k)
  {
    if n > 0 {
      StartsAreVisits(states, acts, n - 1, p, k);
      RunHolds(states, acts, n - 1);
      assert StepAt(states, acts, n - 1);
      OneAction(states[n - 1], acts[n - 1], states[n], p, k);
    }
  }

  /** In every run, however the callers interleave, the calls to one pool's GetOrCreate start in each
      of its shards equally often, give or take one, as long as the ticket counter has not wrapped. */
  lemma StartsBalanced(states: seq<Sys>, acts: seq<Action>, p: Id, j: nat, k: nat)
    requires Run(states, acts) && Tickets(states[|acts|], p) <= U32
    requires j < states[0].cfg.numShardGroup && k < states[0].cfg.numShardGroup
    ensures Starts(states, acts, |acts|, p, j) <= Starts(states, acts, |acts|, p, k) + 1
  {
    StartsAreVisits(states, acts, |acts|, p, j);
    StartsAreVisits(states, acts, |acts|, p, k);
    BalancedBeforeWrap(states[0].cfg, 0, Tickets(states[|acts|], p), j, k);
  }

  /** Every pooled executor is in the pool that made it and in the shard that its id names. */
  lemma ShardAffinity(s: Sys, p: Id, k: nat, i: nat)
    requires Reachable(s) && p in s.pools && k < |s.pools[p].shards| && i < |s.pools[p].shards[k]|
    ensures s.pools[p].shards[k][i] in s.execs
    ensures var x := s.execs[s.pools[p].shards[k][i]]; x.pool == p && ShardIndex(s.cfg, x.eid) == k
  {
    ReachableHolds(s);
    assert PoolOk(s, p);
    assert ShardOk(s, p, k);
    assert Pooled(s, p, k, s.pools[p].shards[k][i]);
  }

  // ---------- one pool per endpoint ----------

  // In this step task t learns that p is the pool for addr.
  predicate Resolves(s: Sys, t: Id, s': Sys, addr: NodeAddr, p: Id) {
    t in s.tasks && (s.tasks[t].Find? || s.tasks[t].Insert?) && s.tasks[t].addr == addr
    && t in s'.tasks && (s'.tasks[t].Ticket? || s'.tasks[t].Lock?) && s'.tasks[t].pool == p
  }

  // The registry only grows, and an entry never changes.
  lemma RegistryGrows(s: Sys, a: Action)
    requires Enabled(s, a)
    ensures forall key :: key in s.registry ==>
              key in Apply(s, a).registry && Apply(s, a).registry[key] == s.registry[key]
  {
    if a.Step? {
      StepsSteady(s, a.t, a.env);
      if s.tasks[a.t].Insert? {
        assert Apply(s, a) == StepInsert(s, a.t, s.tasks[a.t].addr, s.tasks[a.t].own, s.tasks[a.t].job);
      }
    } else {
      CallsSteady(s, a);
    }
  }

  lemma {:induction false} RegistryStays(states: seq<Sys>, acts: seq<Action>, i: nat, j: nat, key: string)
    requires Run(states, acts) && i <= j < |states| && key in states[i].registry
    ensures key in states[j].registry && states[j].registry[key] == states[i].registry[key]
    decreases j - i
  {
    if i < j {
      assert StepAt(states, acts, i);
      RegistryGrows(states[i], acts[i]);
      RegistryStays(states, acts, i + 1, j, key);
    }
  }

  lemma ResolvedIsRegistered(s: Sys, t: Id, env: Env, addr: NodeAddr, p: Id)
    requires t in s.tasks && Enabled(s, Step(t, env)) && Resolves(s, t, Apply(s, Step(t, env)), addr, p)
    ensures EndpointKey(addr) in Apply(s, Step(t, env)).registry
    ensures Apply(s, Step(t, env)).registry[EndpointKey(addr)] == p
  {
    assert s.tasks[t].Find? ==> Apply(s, Step(t, env)) == StepFind(s, t, addr, s.tasks[t].job);
    assert s.tasks[t].Insert? ==> Apply(s, Step(t, env)) == StepInsert(s, t, addr, s.tasks[t].own, s.tasks[t].job);
  }

  predicate RegisteredAs(s: Sys, key: string, p: Id) {
    key in s.registry && s.registry[key] == p
  }

  lemma SamePool(states: seq<Sys>, acts: seq<Action>, i: nat, j: nat, key: string, p: Id, q: Id)
    requires Run(states, acts) && i <= j < |states|
    ensures RegisteredAs(states[i], key, p) && RegisteredAs(states[j], key, q) ==> p == q
  {
    if RegisteredAs(states[i], key, p) {
      RegistryStays(states, acts, i, j, key);
    }
  }

  // Action i is a step in which task t learns that p is the pool for addr.
  predicate ResolvedBy(states: seq<Sys>, acts: seq<Action>, i: nat, t: Id, addr: NodeAddr, p: Id) {
    i < |acts| < |states| && acts[i].Step? && acts[i].t == t && Resolves(states[i], t, states[i + 1], addr, p)
  }

  lemma ResolvedAt(states: seq<Sys>, acts: seq<Action>, i: nat, t: Id, addr: NodeAddr, p: Id, key: string)
    requires Run(states, acts) && key == EndpointKey(addr) && i < |acts|
    ensures ResolvedBy(states, acts, i, t, addr, p) ==> RegisteredAs(states[i + 1], key, p)
  {
    if ResolvedBy(states, acts, i, t, addr, p) {
      assert StepAt(states, acts, i);
      ResolvedIsRegistered(states[i], t, acts[i].env, addr, p);
    }
  }

  /** Callers that ask for the same endpoint get the same pool, however their Gets race. */
  lemma OnePoolPerEndpoint(states: seq<Sys>, acts: seq<Action>, i: nat, j: nat,
                           t: Id, u: Id, a: NodeAddr, b: NodeAddr, p: Id, q: Id)
    requires Run(states, acts) && i <= j
    requires ResolvedBy(states, acts, i, t, a, p) && ResolvedBy(states, acts, j, u, b, q)
    requires EndpointKey(a) == EndpointKey(b)
    ensures p == q
  {
    var key := EndpointKey(a);
    ResolvedAt(states, acts, i, t, a, p, key);
    ResolvedAt(states, acts, j, u, b, q, key);
    SamePool(states, acts, i + 1, j + 1, key, p, q);
  }

  /** A caller's pool was made for an endpoint with the caller's key; for endpoints whose text fits
      the key that is the caller's own endpoint. */
  lemma PoolServesOneEndpoint(s: Sys, t: Id, env: Env, a: NodeAddr, p: Id)
    requires Reachable(s) && t in s.tasks && Enabled(s, Step(t, env)) && Resolves(s, t, Apply(s, Step(t, env)), a, p)
    ensures p in Apply(s, Step(t, env)).pools
    ensures var target := Apply(s, Step(t, env)).pools[p].target;
            EndpointKey(target) == EndpointKey(a)
            && (NulFree(a.ip) && NulFree(target.ip) && |EndpointText(a)| < KEY_LEN && |EndpointText(target)| < KEY_LEN
                ==> target == a)
  {
    var s' := Apply(s, Step(t, env));
    ReachableHolds(s);
    ActionKeeps(s, Step(t, env));
    ResolvedIsRegistered(s, t, env, a, p);
    assert RegistryOk(s', EndpointKey(a));
    assert PoolOk(s', p);
    var target := s'.pools[p].target;
    if NulFree(a.ip) && NulFree(target.ip) && |EndpointText(a)| < KEY_LEN && |EndpointText(target)| < KEY_LEN {
      KeyInjective(a, target);
    }
  }

  /** A pool is deleted at most once, never while it is registered or in use, and a pool that is
      neither registered nor deleted is still private to the thread that created it. */
  lemma PoolLifetime(s: Sys, p: Id)
    requires Reachable(s) && p in s.pools
    ensures s.pools[p].deletions <= 1
    ensures Registered(s, p) ==> s.pools[p].deletions == 0
    ensures s.pools[p].deletions == 0 && !Registered(s, p) ==>
              exists t, addr, job :: t in s.tasks && s.tasks[t] == Insert(addr, p, job)
    ensures forall t :: t in s.tasks && Works(s.tasks[t]) == Some(p) ==> Registered(s, p)
    ensures forall e :: e in s.execs && s.execs[e].pool == p ==> Registered(s, p)
  {
    ReachableHolds(s);
    assert PoolOk(s, p);
    if s.pools[p].deletions == 0 && !Registered(s, p) {
      var pc := s.tasks[s.pools[p].maker];
      assert pc == Insert(pc.addr, p, pc.job);
    }
    forall t | t in s.tasks && Works(s.tasks[t]) == Some(p)
      ensures Registered(s, p)
    {
      assert TaskOk(s, t);
    }
    forall e | e in s.execs && s.execs[e].pool == p
      ensures Registered(s, p)
    {
      assert ExecOk(s, e);
    }
  }

  /** EndTransaction hands the executor back to the pool that made it. */
  lemma EndReturnsToOrigin(s: Sys, t: Id, env: Env)
    requires Reachable(s) && t in s.tasks && s.tasks[t].Find? && s.tasks[t].job.End?
    ensures Enabled(s, Step(t, env))
    ensures var pc' := Apply(s, Step(t, env)).tasks[t];
            pc'.Lock? && pc'.job == s.tasks[t].job
            && s.handles[pc'.job.handle].exec == Some(pc'.e) && pc'.e in s.execs && s.execs[pc'.e].pool == pc'.pool
  {
    ReachableHolds(s);
    RefsHold(s, t);
    EndFindsOrigin(s, t);
  }
}
