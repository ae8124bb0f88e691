/** The invariant holds in every state of every run. */
module ProtocolRuns {
  import opened Options
  import opened PoolRules
  import opened Endpoint
  import opened HandleState
  import opened Protocol
  import opened ProtocolInvariant
  import opened ProtocolFrame
  import opened ProtocolPoolSteps
  import opened ProtocolReclaimSteps
  import opened ProtocolTxSteps
  import opened ProtocolHandleSteps

  lemma FetchTaskKeeps(s: Sys, t: Id, env: Env)
    requires Inv(s) && t in s.tasks && Refs(s, s.tasks[t]) && LockFree(s, s.tasks[t])
    requires !Reclaiming(s.tasks[t]) && !Calling(s.tasks[t])
    ensures Inv(StepFetch(s, t, env))
  {
    var pc := s.tasks[t];
    match pc
    case Find(addr, job) =>
      if job.End? {
        EndFoundKeeps(s, t, addr, job);
      } else if EndpointKey(addr) in s.registry {
        FoundKeeps(s, t, addr, job);
      } else {
        MissingKeeps(s, t, addr, job);
      }
    case Insert(addr, own, job) =>
      assert TaskOk(s, t);
      if EndpointKey(addr) in s.registry {
        LoserKeeps(s, t, addr, own, job);
      } else {
        WinnerKeeps(s, t, addr, own, job);
      }
    case Ticket(p, job) => TicketKeeps(s, t, p, job);
    case Scan(p, sid, _, _) =>
      if s.pools[p].shards[sid % s.cfg.numShardGroup] == [] {
        EmptyKeeps(s, t, pc, env.ping);
      } else {
        PopKeeps(s, t, pc, env.ping);
      }
    case Discard(_, _, _, _, _) => DiscardKeeps(s, t, pc);
    case Make(p, sid, job) => MakeKeeps(s, t, p, sid, job);
    case Dial(p, e, job) => DialKeeps(s, t, p, e, job, env.dial);
    case Count(p, e, job) => CountKeeps(s, t, p, e, job);
  }

  lemma ReclaimTaskKeeps(s: Sys, t: Id)
    requires Inv(s) && t in s.tasks && Refs(s, s.tasks[t]) && LockFree(s, s.tasks[t])
    requires Reclaiming(s.tasks[t])
    ensures Inv(StepReclaim(s, t))
  {
    match s.tasks[t]
    case Lock(p, e, job) =>
      if HasRoom(s.cfg, |s.pools[p].shards[ShardIndex(s.cfg, s.execs[e].eid)]|) {
        RoomKeeps(s, t, p, e, job);
      } else {
        FullKeeps(s, t, p, e, job);
      }
    case Load(p, k, e, job) =>
      if UnderLimit(s.cfg, s.pools[p].incs % U32) {
        UnderKeeps(s, t, p, k, e, job);
      } else {
        OverKeeps(s, t, p, k, e, job);
      }
    case Push(p, k, e, job) => PushKeeps(s, t, p, k, e, job);
    case Bump(p, e, job) => BumpKeeps(s, t, p, e, job);
    case Shut(p, e, job) => ShutKeeps(s, t, p, e, job);
  }

  lemma CallTaskKeeps(s: Sys, t: Id, env: Env)
    requires Inv(s) && t in s.tasks && Refs(s, s.tasks[t])
    requires Calling(s.tasks[t])
    ensures Inv(StepCall(s, t, env))
  {
    match s.tasks[t]
    case Got(p, e, job) =>
      assert TaskOk(s, t);
      if !s.execs[e].connected || (job.Open? && env.refused) {
        DropKeeps(s, t, p, e, job);
      } else if job.Open? {
        BeginKeeps(s, t, p, e, env.ok);
      } else {
        QueryKeeps(s, t, p, e, env.net, env.ok);
      }
    case Began(p, e, ok) =>
      if ok && env.contextOk {
        OpenedKeeps(s, t, p, e);
      } else {
        FailedKeeps(s, t, p, e, ok);
      }
    case Issue(h, e, op) =>
      if s.execs[e].connected {
        SendKeeps(s, t, h, e, op, env);
      } else {
        UnsentKeeps(s, t, h, e, op);
      }
    case Settle(h, rollback, ok) => SettleKeeps(s, t, h, rollback, ok);
    case Return(h, rollback, ok) => ReturnKeeps(s, t, h, rollback, ok);
  }

  /** Every action of every caller keeps the invariant. */
  lemma ActionKeeps(s: Sys, a: Action)
    requires Inv(s) && Enabled(s, a)
    ensures Inv(Apply(s, a))
  {
    match a
    case Tick(ms) => TickKeeps(s, ms);
    case StartQuery(addr) => StartKeeps(s, addr, Query);
    case StartBegin(addr) => StartKeeps(s, addr, Open);
    case NewHandle => NewHandleKeeps(s);
    case StartUser(h, gate) => StartUserKeeps(s, h, gate);
    case StartEnd(h, rollback, sync, gate) => StartEndKeeps(s, h, rollback, sync, gate);
    case MoveConstruct(src) => MoveConstructKeeps(s, src);
    case MoveAssign(dst, src) =>
      if dst == src {
        SelfAssignKeeps(s, src);
      } else {
        MoveAssignKeeps(s, dst, src);
      }
    case Destroy(h) => DestroyKeeps(s, h);
    case Step(t, env) =>
      if Reclaiming(s.tasks[t]) {
        ReclaimTaskKeeps(s, t);
      } else if Calling(s.tasks[t]) {
        CallTaskKeeps(s, t, env);
      } else {
        FetchTaskKeeps(s, t, env);
      }
  }

  lemma FollowKeeps(s: Sys, a: Action, s': Sys)
    requires Inv(s) && Follows(s, a, s')
    ensures Inv(s')
  {
    ActionKeeps(s, a);
  }

  lemma NextHolds(states: seq<Sys>, acts: seq<Action>, i: nat)
    requires Run(states, acts) && i < |acts|
    ensures Inv(states[i]) ==> Inv(states[i + 1])
  {
    assert StepAt(states, acts, i);
    if Inv(states[i]) {
      FollowKeeps(states[i], acts[i], states[i + 1]);
    }
  }

  /** In every run, every state satisfies the invariant. */
  lemma {:induction false} RunHolds(states: seq<Sys>, acts: seq<Action>, i: nat)
    requires Run(states, acts) && i < |states|
    ensures Inv(states[i])
  {
    if i == 0 {
      FreshHolds(states[0]);
    } else {
      RunHolds(states, acts, i - 1);
      NextHolds(states, acts, i - 1);
    }
  }
}
