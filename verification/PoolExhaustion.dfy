/** The counter of executors only grows: once it has passed max_size, the pool takes nothing back. */
module PoolExhaustion {
  import opened Options
  import opened PoolRules
  import opened Endpoint
  import opened Protocol
  import opened ProtocolInvariant
  import opened ProtocolPoolSteps
  import opened ProtocolRuns
  import opened ProtocolEffects
  import opened PoolTheorems

  // The counter is past max_size and has not wrapped.
  predicate Exhausted(s: Sys, p: Id) {
    p in s.pools && s.cfg.maxSize < s.pools[p].incs < U32
  }

  predicate PushesInto(pc: Pc, p: Id, k: nat, e: Id) {
    pc.Push? && pc.pool == p && pc.shard == k && pc.e == e
  }

  predicate Idles(s: Sys, p: Id, k: nat, e: Id) {
    p in s.pools && k < |s.pools[p].shards| && e in s.pools[p].shards[k]
  }

  // e is in shard k of p, or past both tests of Reclaim on the way to it.
  ghost predicate Admitted(s: Sys, p: Id, k: nat, e: Id) {
    Idles(s, p, k, e) || exists t :: t in s.tasks && PushesInto(s.tasks[t], p, k, e)
  }

  // Nothing is admitted to p between s and s', and its counter does not fall.
  ghost predicate Closes(s: Sys, s': Sys, p: Id) {
    p in s.pools && p in s'.pools && s.pools[p].incs <= s'.pools[p].incs
    && |s'.pools[p].shards| == |s.pools[p].shards|
    && (forall k, e :: 0 <= k < |s.pools[p].shards| && e in s'.pools[p].shards[k] ==> e in s.pools[p].shards[k])
    && (forall t :: t in s'.tasks && s'.tasks[t].Push? && s'.tasks[t].pool == p ==>
          t in s.tasks && s'.tasks[t] == s.tasks[t])
  }

  lemma ClosesKeeps(s: Sys, s': Sys, p: Id, k: nat, e: Id)
    requires Closes(s, s', p) && Admitted(s', p, k, e)
    ensures Admitted(s, p, k, e)
  {
  }

  // ---------- one action ----------

  // A step of t that leaves the shards of p alone and does not lead to a push into p.
  lemma ElsewhereCloses(s: Sys, s': Sys, t: Id, p: Id)
    requires p in s.pools && p in s'.pools && s'.pools[p].shards == s.pools[p].shards
    requires s.pools[p].incs <= s'.pools[p].incs
    requires (t in s'.tasks && !(s'.tasks[t].Push? && s'.tasks[t].pool == p) && s'.tasks == s.tasks[t := s'.tasks[t]])
             || s'.tasks == s.tasks - {t}
    ensures Closes(s, s', p)
  {
  }

  lemma FindCloses(s: Sys, t: Id, addr: NodeAddr, job: Job, p: Id)
    requires JobRefs(s, job) && p in s.pools && s.next !in s.pools
    ensures Closes(s, StepFind(s, t, addr, job), p)
  {
    ElsewhereCloses(s, StepFind(s, t, addr, job), t, p);
  }

  lemma InsertCloses(s: Sys, t: Id, addr: NodeAddr, own: Id, job: Job, p: Id)
    requires JobRefs(s, job) && p in s.pools && own in s.pools
    ensures Closes(s, StepInsert(s, t, addr, own, job), p)
  {
    ElsewhereCloses(s, StepInsert(s, t, addr, own, job), t, p);
  }

  lemma ScanCloses(s: Sys, t: Id, pc: Pc, ping: bool, p: Id)
    requires pc.Scan? && Refs(s, pc) && p in s.pools
    ensures Closes(s, StepScan(s, t, pc, ping), p)
  {
    var k := pc.sid % s.cfg.numShardGroup;
    var shard := s.pools[pc.pool].shards[k];
    assert shard != [] ==> forall e :: e in shard[..|shard| - 1] ==> e in shard;
  }

  lemma OtherFetchCloses(s: Sys, t: Id, env: Env, p: Id)
    requires t in s.tasks && Refs(s, s.tasks[t]) && !Reclaiming(s.tasks[t]) && !Calling(s.tasks[t])
    requires !s.tasks[t].Find? && !s.tasks[t].Insert? && !s.tasks[t].Scan? && p in s.pools
    ensures Closes(s, StepFetch(s, t, env), p)
  {
    match s.tasks[t]
    case Ticket(q, job) => ElsewhereCloses(s, StepTicket(s, t, q, job), t, p);
    case Discard(_, _, _, _, _) => ElsewhereCloses(s, StepDiscard(s, t, s.tasks[t]), t, p);
    case Make(q, sid, job) => ElsewhereCloses(s, StepMake(s, t, q, sid, job), t, p);
    case Dial(q, e, job) => ElsewhereCloses(s, StepDial(s, t, q, e, job, env.dial), t, p);
    case Count(q, e, job) => ElsewhereCloses(s, StepCount(s, t, q, e, job), t, p);
  }

  lemma FetchCloses(s: Sys, t: Id, env: Env, p: Id)
    requires t in s.tasks && Refs(s, s.tasks[t]) && !Reclaiming(s.tasks[t]) && !Calling(s.tasks[t])
    requires p in s.pools && s.next !in s.pools
    ensures Closes(s, StepFetch(s, t, env), p)
  {
    match s.tasks[t]
    case Find(addr, job) => FindCloses(s, t, addr, job, p);
    case Insert(addr, own, job) => InsertCloses(s, t, addr, own, job, p);
    case Scan(_, _, _, _) => ScanCloses(s, t, s.tasks[t], env.ping, p);
    case _ => OtherFetchCloses(s, t, env, p);
  }

  lemma LoadCloses(s: Sys, t: Id, q: Id, k: nat, e: Id, job: Job, p: Id)
    requires PoolRefs(s, q) && k < s.cfg.numShardGroup && p in s.pools
    ensures Exhausted(s, p) ==> Closes(s, StepLoad(s, t, q, k, e, job), p)
    ensures p in StepLoad(s, t, q, k, e, job).pools && s.pools[p].incs <= StepLoad(s, t, q, k, e, job).pools[p].incs
  {
    if UnderLimit(s.cfg, s.pools[q].incs % U32) {
      assert Exhausted(s, p) ==> p != q;
      if p != q {
        ElsewhereCloses(s, At(s, t, Push(q, k, e, job)), t, p);
      }
    } else {
      ElsewhereCloses(s, StepLoad(s, t, q, k, e, job), t, p);
    }
  }

  lemma ReclaimCloses(s: Sys, t: Id, p: Id)
    requires t in s.tasks && Refs(s, s.tasks[t]) && Reclaiming(s.tasks[t]) && !s.tasks[t].Push? && p in s.pools
    ensures Exhausted(s, p) ==> Closes(s, StepReclaim(s, t), p)
    ensures p in StepReclaim(s, t).pools && s.pools[p].incs <= StepReclaim(s, t).pools[p].incs
  {
    match s.tasks[t]
    case Load(q, k, e, job) => LoadCloses(s, t, q, k, e, job, p);
    case Lock(_, _, _) => ElsewhereCloses(s, StepReclaim(s, t), t, p);
    case Bump(_, _, _) => ElsewhereCloses(s, StepReclaim(s, t), t, p);
    case Shut(_, _, _) => ElsewhereCloses(s, StepReclaim(s, t), t, p);
  }

  lemma CallCloses(s: Sys, t: Id, env: Env, p: Id)
    requires t in s.tasks && Refs(s, s.tasks[t]) && Calling(s.tasks[t]) && p in s.pools
    ensures Closes(s, StepCall(s, t, env), p)
  {
    CallSteady(s, t, env);
    match s.tasks[t]
    case Got(_, _, _) =>
    case Began(_, _, _) =>
    case Issue(_, _, _) =>
    case Settle(_, _, _) =>
    case Return(_, _, _) =>
  }

  lemma ApiCloses(s: Sys, a: Action, p: Id)
    requires Enabled(s, a) && !a.Step? && p in s.pools
    ensures Closes(s, Apply(s, a), p)
  {
    CallsSteady(s, a);
    CallsStart(s, a);
  }

  lemma PushAdmits(s: Sys, t: Id, p: Id, k: nat, e: Id)
    requires t in s.tasks && s.tasks[t].Push? && Refs(s, s.tasks[t]) && p in s.pools
    ensures Admitted(StepReclaim(s, t), p, k, e) ==> Admitted(s, p, k, e)
    ensures p in StepReclaim(s, t).pools && s.pools[p].incs <= StepReclaim(s, t).pools[p].incs
  {
    var pc := s.tasks[t];
    assert StepReclaim(s, t) == StepPush(s, t, pc.pool, pc.shard, pc.e, pc.job);
    assert PushesInto(pc, pc.pool, pc.shard, pc.e);
  }

  // An action admits nothing to an exhausted pool.
  lemma ActionCloses(s: Sys, a: Action, p: Id, k: nat, e: Id)
    requires Inv(s) && Enabled(s, a) && p in s.pools
    ensures p in Apply(s, a).pools && s.pools[p].incs <= Apply(s, a).pools[p].incs
    ensures Exhausted(s, p) && Admitted(Apply(s, a), p, k, e) ==> Admitted(s, p, k, e)
  {
    if !a.Step? {
      ApiCloses(s, a, p);
    } else if Calling(s.tasks[a.t]) {
      CallCloses(s, a.t, a.env, p);
    } else if !Reclaiming(s.tasks[a.t]) {
      NextUnused(s);
      FetchCloses(s, a.t, a.env, p);
    } else if s.tasks[a.t].Push? {
      PushAdmits(s, a.t, p, k, e);
    } else {
      ReclaimCloses(s, a.t, p);
    }
    if Closes(s, Apply(s, a), p) && Admitted(Apply(s, a), p, k, e) {
      ClosesKeeps(s, Apply(s, a), p, k, e);
    }
  }

  // ---------- runs ----------

  lemma {:induction false} CounterGrows(states: seq<Sys>, acts: seq<Action>, m: nat, n: nat, p: Id)
    requires Run(states, acts) && m <= n < |states| && p in states[m].pools
    ensures p in states[n].pools && states[m].pools[p].incs <= states[n].pools[p].incs
    ensures states[n].cfg == states[m].cfg
    decreases n - m
  {
    if m < n {
      RunHolds(states, acts, m);
      assert StepAt(states, acts, m);
      ActionCloses(states[m], acts[m], p, 0, 0);
      ConfigStays(states[m], acts[m]);
      CounterGrows(states, acts, m + 1, n, p);
    }
  }

  /** Once the counter of a pool is past max_size, and until it wraps, its shards only lose executors,
      except to the calls of Reclaim that had passed both tests by then: an executor that is pooled
      later was pooled already or was on its way in, however few connections are alive. */
  lemma {:induction false} ExhaustedOnlyDrains(states: seq<Sys>, acts: seq<Action>, m: nat, n: nat,
                                               p: Id, k: nat, e: Id)
    requires Run(states, acts) && m <= n < |states| && p in states[m].pools
    requires states[m].cfg.maxSize < states[m].pools[p].incs
    requires p in states[n].pools && states[n].pools[p].incs < U32
    ensures Admitted(states[n], p, k, e) ==> Admitted(states[m], p, k, e)
    decreases n - m
  {
    if m < n {
      RunHolds(states, acts, m);
      assert StepAt(states, acts, m);
      CounterGrows(states, acts, m, n, p);
      ActionCloses(states[m], acts[m], p, k, e);
      ConfigStays(states[m], acts[m]);
      ExhaustedOnlyDrains(states, acts, m + 1, n, p, k, e);
    }
  }
}
