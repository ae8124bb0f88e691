/** Executors that nobody has any more and that are still connected: which actions leave one behind. */
module LostExecutors {
  import opened Options
  import opened Protocol
  import opened ProtocolInvariant
  import opened ProtocolPoolSteps
  import opened ProtocolReclaimSteps
  import opened ProtocolRuns
  import opened PoolTheorems

  predicate Lost(s: Sys, e: Id) {
    e in s.execs && s.execs[e].owner == Dropped
  }

  // Begin gives up a connected executor because its statement was refused, or because the statement or
  // the context failed; or a handle that has one is assigned over.
  predicate LetsGo(s: Sys, a: Action, e: Id) {
    e in s.execs && s.execs[e].connected
    && match a
       case Step(t, env) => t in s.tasks && GivesUp(s.tasks[t], env, e)
       case MoveAssign(dst, _) => dst in s.handles && s.handles[dst].exec == Some(e)
       case _ => false
  }

  predicate GivesUp(pc: Pc, env: Env, e: Id) {
    match pc
    case Got(_, d, job) => d == e && job.Open? && env.refused
    case Began(_, d, ok) => d == e && !(ok && env.contextOk)
    case _ => false
  }

  // ---------- one action ----------

  lemma ScanLoses(s: Sys, t: Id, env: Env, e: Id)
    requires Inv(s) && Enabled(s, Step(t, env)) && s.tasks[t].Scan?
    ensures Lost(StepFetch(s, t, env), e) <==> Lost(s, e)
  {
    var p, k := s.tasks[t].pool, s.tasks[t].sid % s.cfg.numShardGroup;
    var shard := s.pools[p].shards[k];
    if shard != [] {
      OccupantOwned(s, shard[|shard| - 1], Slot(p, k, |shard| - 1));
    }
  }

  lemma FetchLoses(s: Sys, t: Id, env: Env, e: Id)
    requires t in s.tasks && Refs(s, s.tasks[t]) && !Reclaiming(s.tasks[t]) && !Calling(s.tasks[t])
    requires !s.tasks[t].Scan? && TaskOk(s, t) && s.next !in s.execs
    ensures Lost(StepFetch(s, t, env), e) <==> Lost(s, e)
  {
    match s.tasks[t]
    case Find(addr, job) => assert StepFetch(s, t, env) == StepFind(s, t, addr, job);
    case Insert(addr, own, job) => assert StepFetch(s, t, env) == StepInsert(s, t, addr, own, job);
    case Ticket(_, _) =>
    case Discard(_, _, _, _, _) =>
    case Make(_, _, _) =>
    case Dial(_, _, _) =>
    case Count(_, _, _) =>
  }

  lemma ReclaimLoses(s: Sys, t: Id, e: Id)
    requires t in s.tasks && Refs(s, s.tasks[t]) && Reclaiming(s.tasks[t])
    requires s.execs[s.tasks[t].e].owner != Dropped
    ensures Lost(StepReclaim(s, t), e) <==> Lost(s, e)
  {
    match s.tasks[t]
    case Lock(_, _, _) =>
    case Load(_, _, _, _) =>
    case Push(_, _, _, _) =>
    case Bump(_, _, _) =>
    case Shut(_, _, _) =>
  }

  lemma GotLoses(s: Sys, t: Id, p: Id, d: Id, job: Job, env: Env, e: Id)
    requires t in s.tasks && s.tasks[t] == Got(p, d, job) && TaskOk(s, t)
    ensures Lost(StepGot(s, t, p, d, job, env), e) <==> Lost(s, e) || LetsGo(s, Step(t, env), e)
  {
  }

  lemma BeganLoses(s: Sys, t: Id, p: Id, d: Id, ok: bool, env: Env, e: Id)
    requires t in s.tasks && s.tasks[t] == Began(p, d, ok) && TaskOk(s, t)
    ensures Lost(StepBegan(s, t, d, ok, env.contextOk), e) <==> Lost(s, e) || LetsGo(s, Step(t, env), e)
  {
  }

  lemma OtherCallLoses(s: Sys, t: Id, env: Env, e: Id)
    requires t in s.tasks && Refs(s, s.tasks[t]) && Calling(s.tasks[t]) && !s.tasks[t].Got? && !s.tasks[t].Began?
    ensures Lost(StepCall(s, t, env), e) <==> Lost(s, e)
  {
    match s.tasks[t]
    case Issue(_, _, _) =>
    case Settle(_, _, _) =>
    case Return(_, _, _) =>
  }

  lemma CallLoses(s: Sys, t: Id, env: Env, e: Id)
    requires Inv(s) && Enabled(s, Step(t, env)) && Calling(s.tasks[t])
    ensures Lost(StepCall(s, t, env), e) <==> Lost(s, e) || LetsGo(s, Step(t, env), e)
  {
    assert TaskOk(s, t);
    match s.tasks[t]
    case Got(p, d, job) => GotLoses(s, t, p, d, job, env, e);
    case Began(p, d, ok) => BeganLoses(s, t, p, d, ok, env, e);
    case _ => OtherCallLoses(s, t, env, e);
  }

  lemma SelfLoses(s: Sys, h: Id, e: Id)
    requires Idle(s, h) && HandleOk(s, h)
    ensures Lost(SelfAssignStep(s, h), e) <==> Lost(s, e) || LetsGo(s, MoveAssign(h, h), e)
  {
  }

  lemma MoveLoses(s: Sys, dst: Id, src: Id, e: Id)
    requires Idle(s, dst) && Idle(s, src) && dst != src && HandleOk(s, dst) && HandleOk(s, src)
    ensures Lost(MoveAssignStep(s, dst, src), e) <==> Lost(s, e) || LetsGo(s, MoveAssign(dst, src), e)
  {
  }

  lemma GateLoses(s: Sys, h: Id, gate: Gate, e: Id)
    requires Idle(s, h)
    ensures Lost(AfterGate(s, h, gate), e) <==> Lost(s, e)
  {
  }

  lemma HandleLoses(s: Sys, h: Id, e: Id)
    requires Idle(s, h) && HandleOk(s, h)
    ensures Lost(MoveConstructStep(s, h), e) <==> Lost(s, e)
    ensures Lost(DestroyStep(s, h), e) <==> Lost(s, e)
  {
  }

  lemma ApiLoses(s: Sys, a: Action, e: Id)
    requires Enabled(s, a) && !a.Step? && HandlesOk(s)
    ensures Lost(Apply(s, a), e) <==> Lost(s, e) || LetsGo(s, a, e)
  {
    match a
    case StartUser(h, gate) => GateLoses(s, h, gate, e);
    case StartEnd(h, _, _, gate) => GateLoses(s, h, gate, e);
    case MoveConstruct(src) =>
      assert HandleOk(s, src);
      HandleLoses(s, src, e);
    case Destroy(h) =>
      assert HandleOk(s, h);
      HandleLoses(s, h, e);
    case MoveAssign(dst, src) =>
      assert HandleOk(s, dst) && HandleOk(s, src);
      if dst == src {
        SelfLoses(s, src, e);
      } else {
        MoveLoses(s, dst, src, e);
      }
    case _ =>
  }

  lemma ActionLoses(s: Sys, a: Action, e: Id)
    requires Inv(s) && Enabled(s, a)
    ensures Lost(Apply(s, a), e) <==> Lost(s, e) || LetsGo(s, a, e)
  {
    if !a.Step? {
      ApiLoses(s, a, e);
    } else if Reclaiming(s.tasks[a.t]) {
      HasView(s, a.t);
      ReclaimMine(s, a.t);
      ReclaimLoses(s, a.t, e);
    } else if Calling(s.tasks[a.t]) {
      CallLoses(s, a.t, a.env, e);
    } else if s.tasks[a.t].Scan? {
      ScanLoses(s, a.t, a.env, e);
    } else {
      NextUnused(s);
      assert TaskOk(s, a.t);
      FetchLoses(s, a.t, a.env, e);
    }
  }

  // ---------- runs ----------

  // e is in no shard, no handle and no thread.
  ghost predicate Unplaced(s: Sys, e: Id) {
    e in s.execs && forall place :: !Occupies(s, e, place)
  }

  /** An executor in no place is either closed or lost, and a lost one is in no place and connected. */
  lemma LostIffUnplaced(s: Sys, e: Id)
    requires Inv(s) && e in s.execs
    ensures Lost(s, e) <==> Unplaced(s, e) && s.execs[e].connected
  {
    assert ExecOk(s, e);
    forall place | Lost(s, e)
      ensures !Occupies(s, e, place)
    {
      if Occupies(s, e, place) {
        OccupantOwned(s, e, place);
      }
    }
    match s.execs[e].owner
    case InShard(p, k) =>
      var i :| 0 <= i < |s.pools[p].shards[k]| && s.pools[p].shards[k][i] == e;
      assert Occupies(s, e, Slot(p, k, i));
    case ByTask(t) => assert Occupies(s, e, InTask(t));
    case ByHandle(h) => assert Occupies(s, e, InHandle(h));
    case _ =>
  }

  /** One action leaves a connected executor without a place exactly if it had one and the action lets
      go of it, or if it had none before. */
  lemma LetsGoIff(s: Sys, a: Action, e: Id)
    requires Reachable(s) && Enabled(s, a) && e in s.execs
    ensures var s' := Apply(s, a);
            (Unplaced(s', e) && s'.execs[e].connected)
            <==> (Unplaced(s, e) && s.execs[e].connected) || LetsGo(s, a, e)
  {
    ReachableHolds(s);
    ActionKeeps(s, a);
    ActionLoses(s, a, e);
    LostIffUnplaced(s, e);
    if e in Apply(s, a).execs {
      LostIffUnplaced(Apply(s, a), e);
    }
  }

  lemma {:induction false} RunLoses(states: seq<Sys>, acts: seq<Action>, n: nat, e: Id)
    requires Run(states, acts) && n < |states|
    ensures Lost(states[n], e) <==> exists i :: 0 <= i < n && LetsGo(states[i], acts[i], e)
  {
    if n > 0 {
      RunLoses(states, acts, n - 1, e);
      RunHolds(states, acts, n - 1);
      assert StepAt(states, acts, n - 1);
      ActionLoses(states[n - 1], acts[n - 1], e);
    }
  }

  /** In every run, a connected executor is in no shard, no handle and no thread if and only if an
      action of that run let go of it: every other executor that is given up is closed. */
  lemma UnplacedIsClosed(states: seq<Sys>, acts: seq<Action>, n: nat, e: Id)
    requires Run(states, acts) && n < |states| && e in states[n].execs
    ensures Unplaced(states[n], e) ==>
              (states[n].execs[e].connected <==> exists i :: 0 <= i < n && LetsGo(states[i], acts[i], e))
    ensures (exists i :: 0 <= i < n && LetsGo(states[i], acts[i], e)) ==> Unplaced(states[n], e)
  {
    RunHolds(states, acts, n);
    RunLoses(states, acts, n, e);
    LostIffUnplaced(states[n], e);
  }
}
