/** What a step can change: the logs, the registry, the ticket counters and the refused set. */
module ProtocolEffects {
  import opened Options
  import opened PoolRules
  import opened Endpoint
  import opened HandleState
  import opened Protocol

  // ---------- the registry and the refused set ----------

  predicate Steady(s: Sys, s': Sys) {
    s'.cfg == s.cfg && s'.refused == s.refused && s'.registry == s.registry
  }

  lemma FindSteady(s: Sys, t: Id, addr: NodeAddr, job: Job)
    requires JobRefs(s, job)
    ensures Steady(s, StepFind(s, t, addr, job))
  {
  }

  lemma InsertSteady(s: Sys, t: Id, addr: NodeAddr, own: Id, job: Job)
    requires own in s.pools && JobRefs(s, job)
    ensures var s' := StepInsert(s, t, addr, own, job);
            s'.cfg == s.cfg && s'.refused == s.refused
            && s'.registry == if EndpointKey(addr) in s.registry then s.registry
                             else s.registry[EndpointKey(addr) := own]
  {
  }

  lemma ScanSteady(s: Sys, t: Id, pc: Pc, ping: bool)
    requires pc.Scan? && Refs(s, pc)
    ensures Steady(s, StepScan(s, t, pc, ping))
  {
  }

  lemma FetchSteady(s: Sys, t: Id, env: Env)
    requires t in s.tasks && Refs(s, s.tasks[t]) && !Reclaiming(s.tasks[t]) && !Calling(s.tasks[t])
    requires !s.tasks[t].Find? && !s.tasks[t].Insert? && !s.tasks[t].Scan?
    ensures Steady(s, StepFetch(s, t, env))
  {
    match s.tasks[t]
    case Ticket(_, _) =>
    case Discard(_, _, _, _, _) =>
    case Make(_, _, _) =>
    case Dial(_, _, _) =>
    case Count(_, _, _) =>
  }

  lemma ReclaimSteady(s: Sys, t: Id)
    requires t in s.tasks && Refs(s, s.tasks[t]) && Reclaiming(s.tasks[t])
    ensures Steady(s, StepReclaim(s, t))
  {
    match s.tasks[t]
    case Lock(_, _, _) =>
    case Load(_, _, _, _) =>
    case Push(_, _, _, _) =>
    case Bump(_, _, _) =>
    case Shut(_, _, _) =>
  }

  lemma GotSteady(s: Sys, t: Id, p: Id, e: Id, job: Job, env: Env)
    requires e in s.execs
    ensures Steady(s, StepGot(s, t, p, e, job, env)) && StepGot(s, t, p, e, job, env).pools == s.pools
  {
  }

  lemma IssueSteady(s: Sys, t: Id, h: Id, e: Id, op: Op, env: Env)
    requires Refs(s, Issue(h, e, op))
    ensures Steady(s, StepIssue(s, t, h, e, op, env)) && StepIssue(s, t, h, e, op, env).pools == s.pools
  {
  }

  lemma CallSteady(s: Sys, t: Id, env: Env)
    requires t in s.tasks && Refs(s, s.tasks[t]) && Calling(s.tasks[t])
    ensures Steady(s, StepCall(s, t, env)) && StepCall(s, t, env).pools == s.pools
  {
    match s.tasks[t]
    case Got(p, e, job) => GotSteady(s, t, p, e, job, env);
    case Issue(h, e, op) => IssueSteady(s, t, h, e, op, env);
    case Began(_, _, _) =>
    case Settle(_, _, _) =>
    case Return(_, _, _) =>
  }

  // Only the step that registers a new pool changes the registry; no step refuses a transaction.
  lemma StepsSteady(s: Sys, t: Id, env: Env)
    requires t in s.tasks && Refs(s, s.tasks[t])
    ensures StepTask(s, t, env).refused == s.refused && StepTask(s, t, env).cfg == s.cfg
    ensures !s.tasks[t].Insert? ==> StepTask(s, t, env).registry == s.registry
  {
    if Reclaiming(s.tasks[t]) {
      ReclaimSteady(s, t);
    } else if Calling(s.tasks[t]) {
      CallSteady(s, t, env);
    } else {
      match s.tasks[t]
      case Find(addr, job) => FindSteady(s, t, addr, job);
      case Insert(addr, own, job) => InsertSteady(s, t, addr, own, job);
      case Scan(_, _, _, _) => ScanSteady(s, t, s.tasks[t], env.ping);
      case _ => FetchSteady(s, t, env);
    }
  }

  lemma GateSteady(s: Sys, h: Id, gate: Gate)
    requires Idle(s, h)
    ensures Steady(s, AfterGate(s, h, gate)) && AfterGate(s, h, gate).pools == s.pools
  {
  }

  lemma MoveSteady(s: Sys, dst: Id, src: Id)
    requires Idle(s, src) && Idle(s, dst)
    ensures var s' := if dst == src then SelfAssignStep(s, src) else MoveAssignStep(s, dst, src);
            Steady(s, s') && s'.pools == s.pools
  {
  }

  lemma CallsSteady(s: Sys, a: Action)
    requires Enabled(s, a) && !a.Step?
    ensures Apply(s, a).cfg == s.cfg && Apply(s, a).registry == s.registry && Apply(s, a).pools == s.pools
    ensures !a.StartEnd? ==> Apply(s, a).refused == s.refused
  {
    match a
    case StartUser(h, gate) => GateSteady(s, h, gate);
    case StartEnd(h, _, _, gate) => GateSteady(s, h, gate);
    case MoveAssign(dst, src) => MoveSteady(s, dst, src);
    case _ =>
  }

  lemma ConfigStays(s: Sys, a: Action)
    requires Enabled(s, a)
    ensures Apply(s, a).cfg == s.cfg
  {
    if a.Step? {
      StepsSteady(s, a.t, a.env);
    } else {
      CallsSteady(s, a);
    }
  }

  // ---------- the logs ----------

  predicate SameLog(s: Sys, s': Sys, e: Id)
    requires e in s.execs
  {
    e in s'.execs && s'.execs[e].log == s.execs[e].log
  }

  lemma ManagerSendsNothing(s: Sys, t: Id, addr: NodeAddr, own: Id, job: Job)
    requires JobRefs(s, job)
    ensures StepFind(s, t, addr, job).execs == s.execs
    ensures own in s.pools ==> StepInsert(s, t, addr, own, job).execs == s.execs
  {
  }

  lemma FetchSendsNothing(s: Sys, t: Id, env: Env, e: Id)
    requires t in s.tasks && Refs(s, s.tasks[t]) && !Reclaiming(s.tasks[t]) && !Calling(s.tasks[t])
    requires e in s.execs && e != s.next
    ensures SameLog(s, StepFetch(s, t, env), e)
  {
    match s.tasks[t]
    case Find(addr, job) => ManagerSendsNothing(s, t, addr, 0, job);
    case Insert(addr, own, job) => ManagerSendsNothing(s, t, addr, own, job);
    case Ticket(_, _) =>
    case Scan(_, _, _, _) =>
    case Discard(_, _, _, _, _) =>
    case Make(_, _, _) =>
    case Dial(_, _, _) =>
    case Count(_, _, _) =>
  }

  lemma ReclaimSendsNothing(s: Sys, t: Id, e: Id)
    requires t in s.tasks && Refs(s, s.tasks[t]) && Reclaiming(s.tasks[t]) && e in s.execs
    ensures SameLog(s, StepReclaim(s, t), e)
  {
    match s.tasks[t]
    case Lock(_, _, _) =>
    case Load(_, _, _, _) =>
    case Push(_, _, _, _) =>
    case Bump(_, _, _) =>
    case Shut(_, _, _) =>
  }

  lemma SettlingSendsNothing(s: Sys, t: Id, env: Env, e: Id)
    requires t in s.tasks && Refs(s, s.tasks[t]) && Calling(s.tasks[t]) && e in s.execs
    requires !s.tasks[t].Got? && !s.tasks[t].Issue?
    ensures SameLog(s, StepCall(s, t, env), e)
  {
    match s.tasks[t]
    case Began(_, _, _) =>
    case Settle(_, _, _) =>
    case Return(_, _, _) =>
  }

  // A step that is not Got or Issue leaves every log alone.
  lemma LogsUntouched(s: Sys, t: Id, env: Env, e: Id)
    requires t in s.tasks && Refs(s, s.tasks[t]) && !s.tasks[t].Got? && !s.tasks[t].Issue?
    requires e in s.execs && e != s.next
    ensures SameLog(s, StepTask(s, t, env), e)
  {
    if Reclaiming(s.tasks[t]) {
      ReclaimSendsNothing(s, t, e);
    } else if Calling(s.tasks[t]) {
      SettlingSendsNothing(s, t, env, e);
    } else {
      FetchSendsNothing(s, t, env, e);
    }
  }

  lemma GateSendsNothing(s: Sys, h: Id, gate: Gate, e: Id)
    requires Idle(s, h) && e in s.execs
    ensures SameLog(s, AfterGate(s, h, gate), e)
  {
  }

  lemma MoveSendsNothing(s: Sys, dst: Id, src: Id, e: Id)
    requires Idle(s, src) && Idle(s, dst) && e in s.execs
    ensures SameLog(s, MoveConstructStep(s, src), e)
    ensures if dst == src then SameLog(s, SelfAssignStep(s, src), e) else SameLog(s, MoveAssignStep(s, dst, src), e)
  {
  }

  lemma CallsSendNothing(s: Sys, a: Action, e: Id)
    requires Enabled(s, a) && !a.Step? && e in s.execs
    ensures SameLog(s, Apply(s, a), e)
  {
    match a
    case StartUser(h, gate) => GateSendsNothing(s, h, gate, e);
    case StartEnd(h, _, _, gate) => GateSendsNothing(s, h, gate, e);
    case MoveConstruct(src) => MoveSendsNothing(s, src, src, e);
    case MoveAssign(dst, src) => MoveSendsNothing(s, dst, src, e);
    case _ =>
  }

  // ---------- the handles ----------

  predicate SameHandles(s: Sys, s': Sys) {
    s'.txs == s.txs && s'.handles == s.handles
  }

  lemma ManagerHandles(s: Sys, t: Id, addr: NodeAddr, own: Id, job: Job)
    requires JobRefs(s, job)
    ensures SameHandles(s, StepFind(s, t, addr, job))
    ensures own in s.pools ==> SameHandles(s, StepInsert(s, t, addr, own, job))
  {
  }

  lemma ScanHandles(s: Sys, t: Id, pc: Pc, ping: bool)
    requires pc.Scan? && Refs(s, pc)
    ensures SameHandles(s, StepScan(s, t, pc, ping))
  {
  }

  lemma FetchHandles(s: Sys, t: Id, env: Env)
    requires t in s.tasks && Refs(s, s.tasks[t]) && !Reclaiming(s.tasks[t]) && !Calling(s.tasks[t])
    ensures SameHandles(s, StepFetch(s, t, env))
  {
    match s.tasks[t]
    case Find(addr, job) => ManagerHandles(s, t, addr, 0, job);
    case Insert(addr, own, job) => ManagerHandles(s, t, addr, own, job);
    case Scan(_, _, _, _) => ScanHandles(s, t, s.tasks[t], env.ping);
    case Ticket(_, _) =>
    case Discard(_, _, _, _, _) =>
    case Make(_, _, _) =>
    case Dial(_, _, _) =>
    case Count(_, _, _) =>
  }

  // A step of Reclaim changes at most the pointer of the handle it closes.
  lemma ReclaimHandles(s: Sys, t: Id)
    requires t in s.tasks && Refs(s, s.tasks[t]) && Reclaiming(s.tasks[t])
    ensures var s', job := StepReclaim(s, t), s.tasks[t].job;
            s'.txs == s.txs
            && s'.handles == if s.tasks[t].Push? && job.End?
                             then s.handles[job.handle := s.handles[job.handle].(exec := None)] else s.handles
  {
    match s.tasks[t]
    case Lock(_, _, _) =>
    case Load(_, _, _, _) =>
    case Push(_, _, _, _) =>
    case Bump(_, _, _) =>
    case Shut(_, _, _) =>
  }

  // A step of a call changes at most the handle it works on, or makes the task's own.
  lemma CallHandles(s: Sys, t: Id, env: Env)
    requires t in s.tasks && Refs(s, s.tasks[t]) && Calling(s.tasks[t])
    ensures var h := if s.tasks[t].Got? || s.tasks[t].Began? then t else s.tasks[t].handle;
            forall g :: g in s.handles && g != h ==>
              g in StepCall(s, t, env).handles && StepCall(s, t, env).handles[g] == s.handles[g]
  {
    match s.tasks[t]
    case Got(p, e, job) => GotHandles(s, t, p, e, job, env);
    case Began(_, _, _) =>
    case Issue(_, _, _) =>
    case Settle(_, _, _) =>
    case Return(_, _, _) =>
  }

  lemma GotHandles(s: Sys, t: Id, p: Id, e: Id, job: Job, env: Env)
    requires e in s.execs
    ensures StepGot(s, t, p, e, job, env).handles == s.handles
  {
  }

  // ---------- the ticket counters ----------

  function Tickets(s: Sys, p: Id): nat {
    if p in s.pools then s.pools[p].tickets else 0
  }

  // 1 if the action draws a ticket from pool p.
  function Draws(s: Sys, a: Action, p: Id): nat {
    if a.Step? && a.t in s.tasks && s.tasks[a.t].Ticket? && s.tasks[a.t].pool == p then 1 else 0
  }

  lemma ManagerTickets(s: Sys, t: Id, env: Env, p: Id)
    requires t in s.tasks && Refs(s, s.tasks[t]) && (s.tasks[t].Find? || s.tasks[t].Insert?)
    requires s.next !in s.pools
    ensures Tickets(StepFetch(s, t, env), p) == Tickets(s, p)
  {
    match s.tasks[t]
    case Find(addr, job) => assert StepFetch(s, t, env) == StepFind(s, t, addr, job);
    case Insert(addr, own, job) => assert StepFetch(s, t, env) == StepInsert(s, t, addr, own, job);
  }

  lemma FetchTickets(s: Sys, t: Id, env: Env, p: Id)
    requires t in s.tasks && Refs(s, s.tasks[t]) && !Reclaiming(s.tasks[t]) && !Calling(s.tasks[t])
    requires !s.tasks[t].Find? && !s.tasks[t].Insert? && !s.tasks[t].Ticket?
    ensures Tickets(StepFetch(s, t, env), p) == Tickets(s, p)
  {
    match s.tasks[t]
    case Scan(_, _, _, _) =>
    case Discard(_, _, _, _, _) =>
    case Make(_, _, _) =>
    case Dial(_, _, _) =>
    case Count(_, _, _) =>
  }

  lemma TicketTickets(s: Sys, t: Id, env: Env, p: Id)
    requires t in s.tasks && Refs(s, s.tasks[t]) && s.tasks[t].Ticket?
    ensures Tickets(StepFetch(s, t, env), p) == Tickets(s, p) + Draws(s, Step(t, env), p)
  {
    assert StepFetch(s, t, env) == StepTicket(s, t, s.tasks[t].pool, s.tasks[t].job);
  }

  lemma ReclaimTickets(s: Sys, t: Id, p: Id)
    requires t in s.tasks && Refs(s, s.tasks[t]) && Reclaiming(s.tasks[t])
    ensures Tickets(StepReclaim(s, t), p) == Tickets(s, p)
  {
    match s.tasks[t]
    case Lock(_, _, _) =>
    case Load(_, _, _, _) =>
    case Push(_, _, _, _) =>
    case Bump(_, _, _) =>
    case Shut(_, _, _) =>
  }

  lemma TicketsDrawn(s: Sys, a: Action, p: Id)
    requires Enabled(s, a) && s.next !in s.pools
    ensures Tickets(Apply(s, a), p) == Tickets(s, p) + Draws(s, a, p)
  {
    if !a.Step? {
      CallsSteady(s, a);
    } else if Reclaiming(s.tasks[a.t]) {
      ReclaimTickets(s, a.t, p);
    } else if Calling(s.tasks[a.t]) {
      CallSteady(s, a.t, a.env);
    } else if s.tasks[a.t].Find? || s.tasks[a.t].Insert? {
      ManagerTickets(s, a.t, a.env, p);
    } else if s.tasks[a.t].Ticket? {
      TicketTickets(s, a.t, a.env, p);
    } else {
      FetchTickets(s, a.t, a.env, p);
    }
  }

  // ---------- how far a call has come ----------

  const CALL_STEPS: nat := 21

  // An upper bound on the steps a call at pc still takes.
  function StepsLeft(pc: Pc): nat {
    match pc
    case Issue(_, _, _) => CALL_STEPS
    case Settle(_, _, _) => 20
    case Find(_, _) => 19
    case Insert(_, _, _) => 18
    case Ticket(_, _) => 17
    case Scan(_, _, retry, _) => 10 + 2 * retry
    case Discard(_, _, retry, _, _) => 9 + 2 * retry
    case Make(_, _, _) => 9
    case Dial(_, _, _) => 8
    case Count(_, _, _) => 7
    case Got(_, _, _) => 6
    case Lock(_, _, _) => 5
    case Load(_, _, _, _) => 4
    case Bump(_, _, _) => 3
    case Push(_, _, _, _) => 2
    case Shut(_, _, _) => 2
    case Began(_, _, _) => 1
    case Return(_, _, _) => 1
  }

  // s' differs from s in the task t only, and t has come further.
  predicate Advanced(s: Sys, s': Sys, t: Id) {
    t in s.tasks && s'.next >= s.next
    && (s'.tasks == s.tasks - {t}
        || (t in s'.tasks && s'.tasks == s.tasks[t := s'.tasks[t]] && StepsLeft(s'.tasks[t]) < StepsLeft(s.tasks[t])))
  }

  lemma ManagerAdvances(s: Sys, t: Id, env: Env)
    requires t in s.tasks && Refs(s, s.tasks[t]) && (s.tasks[t].Find? || s.tasks[t].Insert?)
    ensures Advanced(s, StepFetch(s, t, env), t)
  {
    match s.tasks[t]
    case Find(addr, job) => assert StepFetch(s, t, env) == StepFind(s, t, addr, job);
    case Insert(addr, own, job) => assert StepFetch(s, t, env) == StepInsert(s, t, addr, own, job);
  }

  lemma ScanAdvances(s: Sys, t: Id, pc: Pc, ping: bool)
    requires t in s.tasks && s.tasks[t] == pc && pc.Scan? && Refs(s, pc)
    ensures Advanced(s, StepScan(s, t, pc, ping), t)
  {
  }

  lemma FetchAdvances(s: Sys, t: Id, env: Env)
    requires t in s.tasks && Refs(s, s.tasks[t]) && !Reclaiming(s.tasks[t]) && !Calling(s.tasks[t])
    requires !s.tasks[t].Find? && !s.tasks[t].Insert? && !s.tasks[t].Scan?
    ensures Advanced(s, StepFetch(s, t, env), t)
  {
    match s.tasks[t]
    case Ticket(_, _) =>
    case Discard(_, _, _, _, _) =>
    case Make(_, _, _) =>
    case Dial(_, _, _) =>
    case Count(_, _, _) =>
  }

  lemma PushAdvances(s: Sys, t: Id, p: Id, k: nat, e: Id, job: Job)
    requires t in s.tasks && s.tasks[t] == Push(p, k, e, job) && Refs(s, s.tasks[t])
    ensures Advanced(s, StepPush(s, t, p, k, e, job), t)
  {
  }

  lemma LoadAdvances(s: Sys, t: Id, p: Id, k: nat, e: Id, job: Job)
    requires t in s.tasks && s.tasks[t] == Load(p, k, e, job) && Refs(s, s.tasks[t])
    ensures Advanced(s, StepLoad(s, t, p, k, e, job), t)
  {
  }

  lemma ReclaimAdvances(s: Sys, t: Id)
    requires t in s.tasks && Refs(s, s.tasks[t]) && Reclaiming(s.tasks[t]) && !s.tasks[t].Push? && !s.tasks[t].Load?
    ensures Advanced(s, StepReclaim(s, t), t)
  {
    match s.tasks[t]
    case Lock(_, _, _) =>
    case Bump(_, _, _) =>
    case Shut(_, _, _) =>
  }

  lemma GotAdvances(s: Sys, t: Id, p: Id, e: Id, job: Job, env: Env)
    requires t in s.tasks && s.tasks[t] == Got(p, e, job) && Refs(s, s.tasks[t])
    ensures Advanced(s, StepGot(s, t, p, e, job, env), t)
  {
  }

  lemma IssueAdvances(s: Sys, t: Id, h: Id, e: Id, op: Op, env: Env)
    requires t in s.tasks && s.tasks[t] == Issue(h, e, op) && Refs(s, s.tasks[t])
    ensures Advanced(s, StepIssue(s, t, h, e, op, env), t)
  {
  }

  lemma CallAdvances(s: Sys, t: Id, env: Env)
    requires t in s.tasks && Refs(s, s.tasks[t]) && Calling(s.tasks[t]) && !s.tasks[t].Issue? && !s.tasks[t].Got?
    ensures Advanced(s, StepCall(s, t, env), t)
  {
    match s.tasks[t]
    case Began(_, _, _) =>
    case Settle(_, _, _) =>
    case Return(_, _, _) =>
  }

  lemma AllReclaimAdvances(s: Sys, t: Id)
    requires t in s.tasks && Refs(s, s.tasks[t]) && Reclaiming(s.tasks[t])
    ensures Advanced(s, StepReclaim(s, t), t)
  {
    match s.tasks[t]
    case Load(p, k, e, job) => LoadAdvances(s, t, p, k, e, job);
    case Push(p, k, e, job) => PushAdvances(s, t, p, k, e, job);
    case _ => ReclaimAdvances(s, t);
  }

  lemma AllCallAdvances(s: Sys, t: Id, env: Env)
    requires t in s.tasks && Refs(s, s.tasks[t]) && Calling(s.tasks[t])
    ensures Advanced(s, StepCall(s, t, env), t)
  {
    match s.tasks[t]
    case Got(p, e, job) => GotAdvances(s, t, p, e, job, env);
    case Issue(h, e, op) => IssueAdvances(s, t, h, e, op, env);
    case _ => CallAdvances(s, t, env);
  }

  lemma AllFetchAdvances(s: Sys, t: Id, env: Env)
    requires t in s.tasks && Refs(s, s.tasks[t]) && !Reclaiming(s.tasks[t]) && !Calling(s.tasks[t])
    ensures Advanced(s, StepFetch(s, t, env), t)
  {
    match s.tasks[t]
    case Find(_, _) => ManagerAdvances(s, t, env);
    case Insert(_, _, _) => ManagerAdvances(s, t, env);
    case Scan(_, _, _, _) => ScanAdvances(s, t, s.tasks[t], env.ping);
    case _ => FetchAdvances(s, t, env);
  }

  // Every step of a task brings its call nearer to the end and leaves the other tasks alone.
  lemma StepAdvances(s: Sys, t: Id, env: Env)
    requires t in s.tasks && Refs(s, s.tasks[t])
    ensures Advanced(s, StepTask(s, t, env), t)
  {
    if Reclaiming(s.tasks[t]) {
      AllReclaimAdvances(s, t);
    } else if Calling(s.tasks[t]) {
      AllCallAdvances(s, t, env);
    } else {
      AllFetchAdvances(s, t, env);
    }
  }

  // Other actions start at most one call, under a new name, with some steps ahead.
  predicate Started(s: Sys, s': Sys) {
    s'.next >= s.next
    && (s'.tasks == s.tasks
        || (s.next in s'.tasks && s'.tasks == s.tasks[s.next := s'.tasks[s.next]] && s'.next > s.next
            && 1 < StepsLeft(s'.tasks[s.next]) <= CALL_STEPS))
  }

  lemma OneStarts(s: Sys, s': Sys, pc: Pc)
    requires s'.tasks == s.tasks[s.next := pc] && s'.next == s.next + 1 && 1 < StepsLeft(pc) <= CALL_STEPS
    ensures Started(s, s')
  {
  }

  lemma EndStarts(s: Sys, h: Id, rollback: bool, sync: bool, gate: Gate)
    requires Idle(s, h)
    ensures Started(s, StartEndStep(s, h, rollback, sync, gate))
  {
    var s' := StartEndStep(s, h, rollback, sync, gate);
    assert AfterGate(s, h, gate).tasks == s.tasks && AfterGate(s, h, gate).next == s.next;
    if Passes(s, h, gate) {
      OneStarts(s, s', Issue(h, s.handles[h].exec.value, EndOp(rollback, sync)));
    } else if sync {
      OneStarts(s, s', Settle(h, rollback, false));
    }
  }

  lemma CallsStart(s: Sys, a: Action)
    requires Enabled(s, a) && !a.Step?
    ensures Started(s, Apply(s, a))
  {
    match a
    case StartUser(h, gate) => assert AfterGate(s, h, gate).tasks == s.tasks;
    case StartEnd(h, rollback, sync, gate) => EndStarts(s, h, rollback, sync, gate);
    case _ =>
  }
}
