/** Commit and Rollback followed to their return: the cases in which they report or record something that
    the server has not done, and where the executor goes. */
module TransactionEndings {
  import opened Options
  import opened PoolRules
  import opened Endpoint
  import opened HandleState
  import opened Protocol
  import opened ProtocolInvariant
  import opened ProtocolEffects
  import opened ProtocolHandleSteps
  import opened ProtocolPoolSteps
  import opened ProtocolRuns
  import opened PoolReturns
  import opened PoolTheorems
  import opened TransactionTheorems

  // Task t is at pc; handle h holds e, whose pool is p, with the given transaction open on its session.
  predicate EndingAt(s: Sys, t: Id, pc: Pc, h: Id, e: Id, open: Option<Id>, p: Id) {
    t in s.tasks && s.tasks[t] == pc
    && h in s.handles && s.handles[h].exec == Some(e)
    && e in s.execs && s.execs[e].pool == p && s.execs[e].openTx == open
    && RoomFor(s, e, p)
  }

  // ---------- from EndTransaction to the return ----------

  lemma Settles(s: Sys, t: Id, h: Id, e: Id, open: Option<Id>, p: Id, rollback: bool, ok: bool)
    requires Reachable(s) && EndingAt(s, t, Settle(h, rollback, ok), h, e, open, p)
    ensures Enabled(s, Step(t, FINE))
    ensures var s' := Apply(s, Step(t, FINE));
            Reachable(s') && EndingAt(s', t, Find(s.execs[e].addr, End(h, rollback, ok)), h, e, open, p)
            && s'.pools == s.pools && s'.execs == s.execs
            && s'.handles[h].state == if rollback then RolledBack else Committed
  {
    ReachableHolds(s);
    RefsHold(s, t);
    ReachableStep(s, Step(t, FINE));
  }

  lemma Finds(s: Sys, t: Id, h: Id, e: Id, open: Option<Id>, p: Id, addr: NodeAddr, job: Job)
    requires Reachable(s) && job.End? && job.handle == h && EndingAt(s, t, Find(addr, job), h, e, open, p)
    ensures Enabled(s, Step(t, FINE))
    ensures var s' := Apply(s, Step(t, FINE));
            Reachable(s') && EndingAt(s', t, Lock(p, e, job), h, e, open, p) && s'.pools == s.pools
            && s'.execs == s.execs && s'.handles == s.handles
  {
    EndReturnsToOrigin(s, t, FINE);
    ReachableStep(s, Step(t, FINE));
  }

  lemma Locks(s: Sys, t: Id, h: Id, e: Id, open: Option<Id>, p: Id, job: Job)
    requires Reachable(s) && job.End? && job.handle == h && EndingAt(s, t, Lock(p, e, job), h, e, open, p)
    requires Unlocked(s, e, p)
    ensures Enabled(s, Step(t, FINE))
    ensures var s' := Apply(s, Step(t, FINE));
            Reachable(s') && EndingAt(s', t, Load(p, ShardIndex(s.cfg, s.execs[e].eid), e, job), h, e, open, p)
            && s'.handles == s.handles && s'.execs == s.execs && s'.cfg == s.cfg
  {
    OnlyLocksBlock(s, t, FINE);
    ReachableStep(s, Step(t, FINE));
  }

  lemma Loads(s: Sys, t: Id, h: Id, e: Id, open: Option<Id>, p: Id, k: nat, job: Job)
    requires Reachable(s) && job.End? && job.handle == h && EndingAt(s, t, Load(p, k, e, job), h, e, open, p)
    ensures Enabled(s, Step(t, FINE))
    ensures var s' := Apply(s, Step(t, FINE));
            Reachable(s') && EndingAt(s', t, Push(p, k, e, job), h, e, open, p) && s'.handles == s.handles
            && s'.execs == s.execs
  {
    OnlyLocksBlock(s, t, FINE);
    ReachableStep(s, Step(t, FINE));
  }

  lemma Pushes(s: Sys, t: Id, h: Id, e: Id, open: Option<Id>, p: Id, k: nat, job: Job)
    requires Reachable(s) && job.End? && job.handle == h && EndingAt(s, t, Push(p, k, e, job), h, e, open, p)
    ensures Enabled(s, Step(t, FINE))
    ensures var s' := Apply(s, Step(t, FINE));
            Reachable(s') && e in s'.execs && s'.execs[e].owner == InShard(p, k) && s'.execs[e].openTx == open
            && s'.execs[e].log == s.execs[e].log
            && h in s'.handles && s'.handles[h].state == s.handles[h].state
            && t in s'.tasks && s'.tasks[t] == Return(h, job.rollback, job.ok)
  {
    OnlyLocksBlock(s, t, FINE);
    ReachableStep(s, Step(t, FINE));
  }

  // EndTransaction marks the handle finished and pools the executor with whatever is open on it.
  lemma Returns(s: Sys, t: Id, h: Id, e: Id, open: Option<Id>, p: Id, rollback: bool, ok: bool) returns (s': Sys)
    requires Reachable(s) && EndingAt(s, t, Settle(h, rollback, ok), h, e, open, p) && Unlocked(s, e, p)
    ensures Reachable(s') && e in s'.execs && s'.execs[e].owner.InShard? && s'.execs[e].openTx == open
    ensures s'.execs[e].log == s.execs[e].log
    ensures h in s'.handles && s'.handles[h].state == if rollback then RolledBack else Committed
    ensures t in s'.tasks && s'.tasks[t] == Return(h, rollback, ok)
  {
    var k, job := ShardIndex(s.cfg, s.execs[e].eid), End(h, rollback, ok);
    Settles(s, t, h, e, open, p, rollback, ok);
    var s2 := Apply(s, Step(t, FINE));
    Finds(s2, t, h, e, open, p, s.execs[e].addr, job);
    var s3 := Apply(s2, Step(t, FINE));
    Locks(s3, t, h, e, open, p, job);
    var s4 := Apply(s3, Step(t, FINE));
    Loads(s4, t, h, e, open, p, k, job);
    var s5 := Apply(s4, Step(t, FINE));
    Pushes(s5, t, h, e, open, p, k, job);
    s' := Apply(s5, Step(t, FINE));
  }

  // ---------- a call that is stopped ----------

  lemma StoppedStarts(s: Sys, h: Id, rollback: bool, gate: Gate, e: Id, p: Id)
    requires Reachable(s) && Idle(s, h) && s.handles[h].state.Started? && s.handles[h].exec == Some(e)
    requires e in s.execs && s.execs[e].pool == p && RoomFor(s, e, p) && Stops(s, e, gate)
    ensures Enabled(s, StartEnd(h, rollback, true, gate))
    ensures var s' := Apply(s, StartEnd(h, rollback, true, gate));
            Reachable(s') && EndingAt(s', s.next, Settle(h, rollback, false), h, e, s.execs[e].openTx, p)
            && s'.pools == s.pools && s'.execs == s.execs && s'.cfg == s.cfg
  {
    ReachableStep(s, StartEnd(h, rollback, true, gate));
  }

  /** Whenever a synchronous Commit or Rollback is stopped, an open transaction does get into the pool:
      left to run, the call marks the handle finished and pools its executor, transaction and all, if
      the shard and the counter have room. */
  lemma RefusedEndPoolsOpenTransaction(s: Sys, h: Id, rollback: bool, gate: Gate, e: Id, x: Id, p: Id)
    returns (s': Sys)
    requires Reachable(s) && Idle(s, h) && s.handles[h].exec == Some(e) && e in s.execs && s.execs[e].pool == p
    requires s.execs[e].openTx == Some(x) && Refuses(s, StartEnd(h, rollback, true, gate), x)
    requires RoomFor(s, e, p) && Unlocked(s, e, p)
    ensures Reachable(s') && e in s'.execs && s'.execs[e].owner.InShard? && s'.execs[e].openTx == Some(x)
    ensures h in s'.handles && s'.handles[h].state == if rollback then RolledBack else Committed
  {
    StoppedStarts(s, h, rollback, gate, e, p);
    s' := Returns(Apply(s, StartEnd(h, rollback, true, gate)), s.next, h, e, Some(x), p, rollback, false);
  }

  // ---------- a call that goes through ----------

  // The entry an ending leaves in the log.
  function Ending(x: Exec, tx: Id, rollback: bool): Entry {
    Entry(if rollback then Rollback else Commit, Tx(tx), true, x.session, x.openTx == Some(tx))
  }

  lemma EndQueues(s: Sys, h: Id, rollback: bool, e: Id, p: Id)
    requires Reachable(s) && Idle(s, h) && s.handles[h].state.Started? && s.handles[h].exec == Some(e)
    requires e in s.execs && s.execs[e].pool == p && s.execs[e].connected && RoomFor(s, e, p)
    ensures Enabled(s, StartEnd(h, rollback, true, Checked(true, false)))
    ensures var s' := Apply(s, StartEnd(h, rollback, true, Checked(true, false)));
            Reachable(s') && EndingAt(s', s.next, Issue(h, e, EndOp(rollback, true)), h, e, s.execs[e].openTx, p)
            && s'.pools == s.pools && s'.execs == s.execs && s'.cfg == s.cfg && s'.handles[h].tx == s.handles[h].tx
  {
    ReachableStep(s, StartEnd(h, rollback, true, Checked(true, false)));
  }

  lemma EndSends(s: Sys, t: Id, h: Id, rollback: bool, e: Id, tx: Id, p: Id)
    requires Reachable(s) && e in s.execs
    requires EndingAt(s, t, Issue(h, e, EndOp(rollback, true)), h, e, s.execs[e].openTx, p)
    requires s.handles[h].tx == Some(tx) && s.execs[e].connected
    ensures Enabled(s, Step(t, FINE))
    ensures var s' := Apply(s, Step(t, FINE));
            Reachable(s') && EndingAt(s', t, Settle(h, rollback, true), h, e, None, p) && s'.pools == s.pools
            && s'.execs[e].log == s.execs[e].log + [Ending(s.execs[e], tx, rollback)]
            && s'.execs[e].eid == s.execs[e].eid && s'.cfg == s.cfg
  {
    ReachableHolds(s);
    RefsHold(s, t);
    ReachableStep(s, Step(t, FINE));
  }

  /** From every started handle whose connection is up, Commit and Rollback can report success. Their
      statement is then the last on the connection, and it ran inside the transaction exactly if the
      transaction was still open on the server: success alone says nothing about that. */
  lemma EndReportsSuccess(s: Sys, h: Id, rollback: bool, e: Id, tx: Id, p: Id) returns (s': Sys)
    requires Reachable(s) && Idle(s, h) && s.handles[h].state.Started? && s.handles[h].exec == Some(e)
    requires s.handles[h].tx == Some(tx)
    requires e in s.execs && s.execs[e].pool == p && s.execs[e].connected && RoomFor(s, e, p) && Unlocked(s, e, p)
    ensures Reachable(s') && s.next in s'.tasks && s'.tasks[s.next] == Return(h, rollback, true)
    ensures e in s'.execs && s'.execs[e].log == s.execs[e].log + [Ending(s.execs[e], tx, rollback)]
    ensures s'.execs[e].log[|s.execs[e].log|].inTx <==> s.execs[e].openTx == Some(tx)
    ensures s'.execs[e].owner.InShard? && s'.execs[e].openTx == None
  {
    EndQueues(s, h, rollback, e, p);
    var s1 := Apply(s, StartEnd(h, rollback, true, Checked(true, false)));
    EndSends(s1, s.next, h, rollback, e, tx, p);
    var s2 := Apply(s1, Step(s.next, FINE));
    s' := Returns(s2, s.next, h, e, None, p, rollback, true);
  }

  lemma RedialLeaves(s: Sys, t: Id, h: Id, e: Id, tx: Id, ok: bool)
    requires Reachable(s) && t in s.tasks && s.tasks[t] == Issue(h, e, UserOp) && e in s.execs && s.execs[e].connected
    requires h in s.handles && s.handles[h].tx == Some(tx)
    ensures s.handles[h].state.Started? && s.handles[h].exec == Some(e)
    ensures Enabled(s, Step(t, Env(true, true, Redial, ok, false, true)))
    ensures var s' := Apply(s, Step(t, Env(true, true, Redial, ok, false, true)));
            Reachable(s') && Idle(s', h) && s'.execs[e].connected && s'.execs[e].openTx == None
            && s'.pools == s.pools && s'.cfg == s.cfg && s'.next == s.next
            && s'.handles[h] == s.handles[h].(busy := None) && s'.execs[e].pool == s.execs[e].pool
            && s'.execs[e].eid == s.execs[e].eid
            && s'.execs[e].log == s.execs[e].log + [Entry(User, Tx(tx), ok, s.execs[e].session + 1, false)]
  {
    RedialEscapes(s, t, h, e, ok);
    ReachableStep(s, Step(t, Env(true, true, Redial, ok, false, true)));
    ReachableHolds(s);
    RefsHold(s, t);
    IssueFacts(s, t, h, e, UserOp);
  }

  /** A transaction that lost its session goes unnoticed to the end: from every started handle with a
      prepared statement queued, a lost connection, a redial and a Commit can follow. Whether or not
      the prepared statement fails, Commit reports success, and neither of the two ran inside the
      transaction. */
  lemma EscapedEndReportsSuccess(s: Sys, t: Id, h: Id, e: Id, p: Id, ok: bool, rollback: bool) returns (s': Sys)
    requires Reachable(s) && t in s.tasks && s.tasks[t] == Issue(h, e, UserOp)
    requires e in s.execs && s.execs[e].pool == p && s.execs[e].connected && RoomFor(s, e, p) && Unlocked(s, e, p)
    ensures Reachable(s') && s.next in s'.tasks && s'.tasks[s.next] == Return(h, rollback, true)
    ensures e in s'.execs && |s'.execs[e].log| == |s.execs[e].log| + 2
    ensures s'.execs[e].log[..|s.execs[e].log|] == s.execs[e].log
    ensures var first, last := s'.execs[e].log[|s.execs[e].log|], s'.execs[e].log[|s.execs[e].log| + 1];
            first.stmt == User && first.ok == ok && !first.inTx
            && last.stmt == (if rollback then Rollback else Commit) && last.ok && !last.inTx && last.via == first.via
  {
    ReachableHolds(s);
    RefsHold(s, t);
    var tx := s.handles[h].tx.value;
    RedialLeaves(s, t, h, e, tx, ok);
    s' := EndReportsSuccess(Apply(s, Step(t, Env(true, true, Redial, ok, false, true))), h, rollback, e, tx, p);
  }

  // ---------- where the executor of a finished transaction goes ----------

  // Task t is about to push e back for the handle h.
  predicate Pushing(s: Sys, t: Id, h: Id, rollback: bool, e: Id) {
    t in s.tasks && s.tasks[t].Push? && s.tasks[t].job == End(h, rollback, true) && s.tasks[t].e == e
  }

  /** The push of a successful ending puts the executor of the transaction to the back of its own shard
      of its own pool, and takes the handle's pointer. */
  lemma PushHandsBack(s: Sys, t: Id, env: Env, h: Id, rollback: bool, e: Id)
    requires Reachable(s) && Pushing(s, t, h, rollback, e)
    ensures Enabled(s, Step(t, env)) && h in s.handles && s.handles[h].tx.Some? && s.handles[h].tx.value in s.txs
    ensures s.txs[s.handles[h].tx.value].exec == e && e in s.execs
    ensures var s' := Apply(s, Step(t, env));
            var p, k := s.execs[e].pool, ShardIndex(s.cfg, s.execs[e].eid);
            p in s.pools && k < |s.pools[p].shards| && p in s'.pools && k < |s'.pools[p].shards|
            && s'.pools[p].shards[k] == s.pools[p].shards[k] + [e]
            && h in s'.handles && s'.handles[h].exec == None
  {
    ReachableHolds(s);
    OnlyLocksBlock(s, t, env);
    assert TaskOk(s, t) && HandleOk(s, h);
    var pc := s.tasks[t];
    assert Apply(s, Step(t, env)) == StepPush(s, t, pc.pool, pc.shard, e, pc.job);
  }

  predicate SameOne(s: Sys, s': Sys, h: Id) {
    h in s.handles && h in s'.handles && s'.handles[h] == s.handles[h]
  }

  lemma GateUntouched(s: Sys, g: Id, gate: Gate, h: Id)
    requires Idle(s, g) && h in s.handles && h != g
    ensures SameOne(s, AfterGate(s, g, gate), h)
  {
  }

  lemma MoveUntouched(s: Sys, dst: Id, src: Id, h: Id)
    requires Idle(s, dst) && Idle(s, src) && h in s.handles && h != dst && h != src && h != s.next
    ensures SameOne(s, MoveConstructStep(s, src), h)
    ensures SameOne(s, if dst == src then SelfAssignStep(s, src) else MoveAssignStep(s, dst, src), h)
  {
  }

  lemma ApiUntouched(s: Sys, a: Action, t: Id, h: Id)
    requires Enabled(s, a) && !a.Step? && h in s.handles && s.handles[h].busy == Some(t) && h < s.next
    ensures SameOne(s, Apply(s, a), h)
  {
    match a
    case StartUser(g, gate) => GateUntouched(s, g, gate, h);
    case StartEnd(g, _, _, gate) => GateUntouched(s, g, gate, h);
    case MoveConstruct(src) => MoveUntouched(s, src, src, h);
    case MoveAssign(dst, src) => MoveUntouched(s, dst, src, h);
    case _ =>
  }

  lemma StepUntouched(s: Sys, u: Id, env: Env, t: Id, h: Id)
    requires u in s.tasks && Refs(s, s.tasks[u]) && TaskOk(s, u) && u != t
    requires h in s.handles && s.handles[h].busy == Some(t)
    ensures h in StepTask(s, u, env).handles && StepTask(s, u, env).handles[h] == s.handles[h]
  {
    if Reclaiming(s.tasks[u]) {
      ReclaimHandles(s, u);
    } else if Calling(s.tasks[u]) {
      CallHandles(s, u, env);
    } else {
      FetchHandles(s, u, env);
    }
  }

  // The handle that task t works on, and t itself, are left alone by everybody else.
  lemma OthersLeaveAlone(s: Sys, a: Action, t: Id, h: Id)
    requires Inv(s) && Enabled(s, a) && t in s.tasks && Uses(s.tasks[t]) == Some(h) && !(a.Step? && a.t == t)
    ensures h in s.handles && h in Apply(s, a).handles && Apply(s, a).handles[h] == s.handles[h]
    ensures t in Apply(s, a).tasks && Apply(s, a).tasks[t] == s.tasks[t]
  {
    assert TaskOk(s, t) && HandleOk(s, h);
    if a.Step? {
      assert TaskOk(s, a.t);
      StepUntouched(s, a.t, a.env, t, h);
      StepAdvances(s, a.t, a.env);
    } else {
      ApiUntouched(s, a, t, h);
      CallsStart(s, a);
    }
  }

  predicate Returned(s: Sys, t: Id, h: Id, rollback: bool) {
    t in s.tasks && s.tasks[t] == Return(h, rollback, true) && h in s.handles && s.handles[h].exec == None
  }

  lemma ManagerReturnsNot(s: Sys, t: Id, addr: NodeAddr, own: Id, job: Job, h: Id, rollback: bool)
    requires JobRefs(s, job)
    ensures !Returned(StepFind(s, t, addr, job), t, h, rollback)
    ensures own in s.pools ==> !Returned(StepInsert(s, t, addr, own, job), t, h, rollback)
  {
  }

  lemma FetchReturnsNot(s: Sys, t: Id, env: Env, h: Id, rollback: bool)
    requires t in s.tasks && Refs(s, s.tasks[t]) && !Reclaiming(s.tasks[t]) && !Calling(s.tasks[t])
    ensures !Returned(StepFetch(s, t, env), t, h, rollback)
  {
    match s.tasks[t]
    case Find(addr, job) => ManagerReturnsNot(s, t, addr, 0, job, h, rollback);
    case Insert(addr, own, job) => ManagerReturnsNot(s, t, addr, own, job, h, rollback);
    case Ticket(_, _) =>
    case Scan(_, _, _, _) =>
    case Discard(_, _, _, _, _) =>
    case Make(_, _, _) =>
    case Dial(_, _, _) =>
    case Count(_, _, _) =>
  }

  lemma CallReturnsNot(s: Sys, t: Id, env: Env, h: Id, rollback: bool)
    requires t in s.tasks && Refs(s, s.tasks[t]) && Calling(s.tasks[t]) && TaskOk(s, t)
    ensures !Returned(StepCall(s, t, env), t, h, rollback)
  {
    match s.tasks[t]
    case Got(_, _, _) =>
    case Began(_, _, _) =>
    case Issue(_, _, _) =>
    case Settle(_, _, _) =>
    case Return(_, _, _) =>
  }

  lemma ReclaimReturns(s: Sys, t: Id, h: Id, rollback: bool)
    requires t in s.tasks && Refs(s, s.tasks[t]) && Reclaiming(s.tasks[t]) && TaskOk(s, t)
    requires Returned(StepReclaim(s, t), t, h, rollback)
    ensures h in s.handles && StepReclaim(s, t).handles[h].tx == s.handles[h].tx
    ensures Pushing(s, t, h, rollback, s.tasks[t].e)
  {
    match s.tasks[t]
    case Lock(_, _, _) =>
    case Load(_, _, _, _) =>
    case Push(_, _, _, _) =>
    case Bump(_, _, _) =>
    case Shut(_, _, _) =>
  }

  // In action j task t hands back e, the executor of the transaction x, for h.
  predicate HandsBack(states: seq<Sys>, acts: seq<Action>, j: nat, t: Id, h: Id, rollback: bool, x: Option<Id>)
    requires j < |acts| < |states|
  {
    acts[j].Step? && acts[j].t == t && t in states[j].tasks && states[j].tasks[t].Push?
    && Pushing(states[j], t, h, rollback, states[j].tasks[t].e)
    && h in states[j].handles && states[j].handles[h].tx == x
  }

  lemma OneMoreReturned(states: seq<Sys>, acts: seq<Action>, n: nat, t: Id, h: Id, rollback: bool)
    requires Run(states, acts) && n < |acts| && Returned(states[n + 1], t, h, rollback)
    ensures HandsBack(states, acts, n, t, h, rollback, states[n + 1].handles[h].tx)
            || (Returned(states[n], t, h, rollback) && states[n].handles[h].tx == states[n + 1].handles[h].tx)
  {
    RunHolds(states, acts, n);
    var s, a := states[n], acts[n];
    assert StepAt(states, acts, n);
    if a.Step? && a.t == t {
      assert TaskOk(s, t);
      if Reclaiming(s.tasks[t]) {
        ReclaimReturns(s, t, h, rollback);
      } else if Calling(s.tasks[t]) {
        CallReturnsNot(s, t, a.env, h, rollback);
      } else {
        FetchReturnsNot(s, t, a.env, h, rollback);
      }
    } else {
      ReturnedBefore(s, a, t, h, rollback);
    }
  }

  lemma ReturnedBefore(s: Sys, a: Action, t: Id, h: Id, rollback: bool)
    requires Inv(s) && Enabled(s, a) && !(a.Step? && a.t == t) && Returned(Apply(s, a), t, h, rollback)
    ensures Returned(s, t, h, rollback) && s.handles[h].tx == Apply(s, a).handles[h].tx
  {
    if a.Step? {
      StepAdvances(s, a.t, a.env);
    } else {
      CallsStart(s, a);
    }
    assert TaskOk(s, t);
    OthersLeaveAlone(s, a, t, h);
  }

  /** In every run, a Commit or Rollback that returns success without its pointer has pushed the
      executor of its transaction back into its shard (PushHandsBack). */
  lemma {:induction false} PointerGoneMeansPooled(states: seq<Sys>, acts: seq<Action>, n: nat, t: Id, h: Id,
                                                  rollback: bool)
    requires Run(states, acts) && n < |states| && Returned(states[n], t, h, rollback)
    ensures exists j :: 0 <= j < n && HandsBack(states, acts, j, t, h, rollback, states[n].handles[h].tx)
  {
    if n > 0 {
      OneMoreReturned(states, acts, n - 1, t, h, rollback);
      if !HandsBack(states, acts, n - 1, t, h, rollback, states[n].handles[h].tx) {
        PointerGoneMeansPooled(states, acts, n - 1, t, h, rollback);
      }
    }
  }
}
