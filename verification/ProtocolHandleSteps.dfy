/** Every step on a transaction handle keeps the invariant. */
module ProtocolHandleSteps {
  import opened Options
  import opened PoolRules
  import opened Endpoint
  import opened HandleState
  import opened Protocol
  import opened ProtocolInvariant
  import opened ProtocolFrame
  import opened ProtocolPoolSteps
  import opened ProtocolTxSteps

  // ---------- Issue ----------

  predicate AtIssue(s: Sys, t: Id, h: Id, e: Id, op: Op) {
    t in s.tasks && s.tasks[t] == Issue(h, e, op) && Refs(s, s.tasks[t])
  }

  function TxOf(s: Sys, h: Id): Id
    requires h in s.handles && s.handles[h].tx.Some?
  {
    s.handles[h].tx.value
  }

  // What the task of a handle's statement knows.
  lemma IssueFacts(s: Sys, t: Id, h: Id, e: Id, op: Op)
    requires Inv(s) && AtIssue(s, t, h, e, op)
    ensures Mine(s, t) == {e} && MyHandle(s.tasks[t]) == {h}
    ensures s.handles[h].state.Started? && s.handles[h].exec == Some(e) && s.handles[h].busy == Some(t)
    ensures s.execs[e].owner == ByHandle(h)
    ensures var b := s.txs[TxOf(s, h)]; b.exec == e && b.last == |s.execs[e].log| && b.holder == ByHandle(h)
  {
    HasView(s, t);
  }

  lemma IssueClosed(s: Sys, t: Id, h: Id, e: Id, op: Op)
    requires Inv(s) && AtIssue(s, t, h, e, op)
    ensures ClosedUnderHolding(s, ReachTx(s, t, {}, TxOf(s, h)))
  {
    HasView(s, t);
  }

  predicate AtSend(s: Sys, t: Id, h: Id, e: Id, op: Op) {
    AtIssue(s, t, h, e, op) && s.execs[e].connected
  }

  lemma IssuedEvolves(x: Exec, op: Op, tx: Id, env: Env)
    ensures Evolves(x, Issued(x, op, tx, env))
  {
  }

  lemma SendShape(s: Sys, t: Id, h: Id, e: Id, op: Op, env: Env)
    requires AtSend(s, t, h, e, op) && s.now < U64 && Mine(s, t) == {e} && MyHandle(s.tasks[t]) == {h}
    requires s.txs[TxOf(s, h)].last <= |s.execs[e].log|
    ensures Shape(s, StepSend(s, t, h, e, op, env), ReachTx(s, t, {}, TxOf(s, h)))
  {
    IssuedEvolves(s.execs[e], op, TxOf(s, h), env);
    TxShape(s, StepSend(s, t, h, e, op, env), t, {}, TxOf(s, h));
  }

  // A handle's statement that goes out adds one entry of its transaction to the log.
  lemma IssuedAppends(x: Exec, op: Op, tx: Id, env: Env)
    requires x.connected && !(op.UserOp? && env.net.Lost?)
    ensures var y := Issued(x, op, tx, env);
            |y.log| == |x.log| + 1 && y.log[|x.log|].via == Tx(tx)
            && y == x.(session := y.session, log := y.log, openTx := y.openTx)
            && (y.openTx == x.openTx || y.openTx == None)
  {
  }

  lemma SendAppends(s: Sys, t: Id, h: Id, e: Id, op: Op, env: Env)
    requires Inv(s) && AtSend(s, t, h, e, op) && Grows(s, StepSend(s, t, h, e, op, env))
    requires !(op.UserOp? && env.net.Lost?)
    ensures ExecOk(StepSend(s, t, h, e, op, env), e)
  {
    IssueFacts(s, t, h, e, op);
    assert ExecOk(s, e) && HandleOk(s, h);
    IssuedAppends(s.execs[e], op, TxOf(s, h), env);
    ExecAppended(s, StepSend(s, t, h, e, op, env), e);
  }

  lemma SendExecOk(s: Sys, t: Id, h: Id, e: Id, op: Op, env: Env)
    requires Inv(s) && AtSend(s, t, h, e, op) && Grows(s, StepSend(s, t, h, e, op, env))
    ensures ExecOk(StepSend(s, t, h, e, op, env), e)
  {
    if op.UserOp? && env.net.Lost? {
      IssueFacts(s, t, h, e, op);
      assert ExecOk(s, e);
      ExecRevised(s, StepSend(s, t, h, e, op, env), e);
    } else {
      SendAppends(s, t, h, e, op, env);
    }
  }

  // The next statement of the transaction in block b.
  predicate NextInBlock(log: seq<Entry>, b: TxInfo, x: Id, entry: Entry)
    requires b.first < |log|
  {
    entry.via == Tx(x) && entry.stmt != Begin && (entry.inTx <==> entry.session == log[b.first].session)
  }

  // A transaction's block grows by its own next statement, or not at all.
  lemma TxAppended(s: Sys, s': Sys, x: Id)
    requires x in s.txs && TxOk(s, x) && x in s'.txs && s.txs[x].exec in s'.execs && s'.next == s.next
    requires var b := s.txs[x];
             var log, log' := s.execs[b.exec].log, s'.execs[b.exec].log;
             b.last == |log| && log[b.first].ok && !EndsTx(log[b.last - 1])
             && s'.txs[x] == b.(last := |log'|)
             && (log' == log
                 || (log' != [] && log' == log + [log'[|log'| - 1]] && NextInBlock(log, b, x, log'[|log'| - 1])))
    ensures TxOk(s', x)
  {
  }

  lemma SendTxOk(s: Sys, t: Id, h: Id, e: Id, op: Op, env: Env)
    requires AtSend(s, t, h, e, op) && TaskOk(s, t) && HandleOk(s, h) && TxOk(s, TxOf(s, h))
    requires s.txs[TxOf(s, h)].exec == e
    ensures TxOf(s, h) in StepSend(s, t, h, e, op, env).txs
    ensures TxOk(StepSend(s, t, h, e, op, env), TxOf(s, h))
  {
    var log, log' := s.execs[e].log, Issued(s.execs[e], op, TxOf(s, h), env).log;
    if log' != log {
      assert log' == log + [log'[|log'| - 1]];
    }
    TxAppended(s, StepSend(s, t, h, e, op, env), TxOf(s, h));
  }

  lemma SendHandleOk(s: Sys, t: Id, h: Id, e: Id, op: Op, env: Env)
    requires AtSend(s, t, h, e, op) && TaskOk(s, t) && HandleOk(s, h)
    ensures HandleOk(StepSend(s, t, h, e, op, env), h)
  {
  }

  lemma SendTaskOk(s: Sys, t: Id, h: Id, e: Id, op: Op, env: Env)
    requires Inv(s) && AtSend(s, t, h, e, op)
    ensures t in StepSend(s, t, h, e, op, env).tasks ==> TaskOk(StepSend(s, t, h, e, op, env), t)
  {
    assert TaskOk(s, t);
    assert HandleOk(s, h);
  }

  lemma SendObjectsOk(s: Sys, t: Id, h: Id, e: Id, op: Op, env: Env)
    requires Inv(s) && AtSend(s, t, h, e, op)
    ensures t in StepSend(s, t, h, e, op, env).tasks ==> TaskOk(StepSend(s, t, h, e, op, env), t)
    ensures HandleOk(StepSend(s, t, h, e, op, env), h)
    ensures TxOf(s, h) in StepSend(s, t, h, e, op, env).txs
    ensures TxOk(StepSend(s, t, h, e, op, env), TxOf(s, h))
  {
    IssueFacts(s, t, h, e, op);
    assert TaskOk(s, t) && HandleOk(s, h) && TxOk(s, TxOf(s, h));
    SendTxOk(s, t, h, e, op, env);
    SendHandleOk(s, t, h, e, op, env);
    SendTaskOk(s, t, h, e, op, env);
  }

  lemma SendTouched(s: Sys, t: Id, h: Id, e: Id, op: Op, env: Env)
    requires Inv(s) && AtSend(s, t, h, e, op)
    ensures Grows(s, StepSend(s, t, h, e, op, env)) ==>
              TouchedOk(StepSend(s, t, h, e, op, env), ReachTx(s, t, {}, TxOf(s, h)))
  {
    if Grows(s, StepSend(s, t, h, e, op, env)) {
      IssueFacts(s, t, h, e, op);
      SendExecOk(s, t, h, e, op, env);
      SendObjectsOk(s, t, h, e, op, env);
      TouchedTxFour(StepSend(s, t, h, e, op, env), t, e, MyHandle(s.tasks[t]) + {}, TxOf(s, h));
    }
  }

  lemma SendKeeps(s: Sys, t: Id, h: Id, e: Id, op: Op, env: Env)
    requires Inv(s) && AtSend(s, t, h, e, op)
    ensures Inv(StepSend(s, t, h, e, op, env))
  {
    IssueFacts(s, t, h, e, op);
    SendShape(s, t, h, e, op, env);
    SendTouched(s, t, h, e, op, env);
    IssueClosed(s, t, h, e, op);
    ShapeKeeps(s, StepSend(s, t, h, e, op, env), ReachTx(s, t, {}, TxOf(s, h)));
  }

  // ---------- steps on one handle and its executor ----------

  // What an operation on handle h may change: the handle, its executor, and the tasks ts.
  function OneHandle(s: Sys, h: Id, ts: set<Id>): Touched
    requires h in s.handles
  {
    Touched(ts, if s.handles[h].exec.Some? then {s.handles[h].exec.value} else {}, {}, {h}, {})
  }

  // A step that changes one handle, its executor, the tasks ts, and adds to the refused ones.
  lemma OneHandleShape(s: Sys, s': Sys, h: Id, ts: set<Id>)
    requires s.now < U64 && h in s.handles && s.next <= s'.next && s.refused <= s'.refused
    requires s'.(next := s.next, refused := s.refused, tasks := s.tasks, execs := s.execs, handles := s.handles) == s
    requires s'.tasks - ts == s.tasks - ts
    requires s'.handles - {h} == s.handles - {h}
    requires s'.execs.Keys == s.execs.Keys
    requires forall e :: e in s.execs ==>
               (s.handles[h].exec != Some(e) ==> s'.execs[e] == s.execs[e]) && Evolves(s.execs[e], s'.execs[e])
    ensures Shape(s, s', OneHandle(s, h, ts))
  {
    forall t | t !in ts
      ensures (t in s.tasks <==> t in s'.tasks) && (t in s.tasks ==> s'.tasks[t] == s.tasks[t])
    {
      assert t in s.tasks <==> t in s.tasks - ts;
      assert t in s'.tasks <==> t in s'.tasks - ts;
      assert t in s.tasks ==> (s.tasks - ts)[t] == s.tasks[t];
      assert t in s'.tasks ==> (s'.tasks - ts)[t] == s'.tasks[t];
    }
    forall g | g != h
      ensures (g in s.handles <==> g in s'.handles) && (g in s.handles ==> s'.handles[g] == s.handles[g])
    {
      assert g in s.handles <==> g in s.handles - {h};
      assert g in s'.handles <==> g in s'.handles - {h};
      assert g in s.handles ==> (s.handles - {h})[g] == s.handles[g];
      assert g in s'.handles ==> (s'.handles - {h})[g] == s'.handles[g];
    }
  }

  lemma OneHandleClosed(s: Sys, h: Id, ts: set<Id>)
    requires Inv(s) && h in s.handles
    requires s.handles[h].busy.Some? ==> s.handles[h].busy.value in ts
    requires forall t :: t in ts && t in s.tasks ==>
               s.handles[h].busy == Some(t) && (s.tasks[t].Issue? || s.tasks[t].Settle? || s.tasks[t].Return?)
    ensures ClosedUnderHolding(s, OneHandle(s, h, ts))
  {
    assert HandleOk(s, h);
    forall t | t in ts && t in s.tasks
      ensures Holds(s.tasks[t]) == None && !s.tasks[t].Insert? && Uses(s.tasks[t]) == Some(h)
    {
      assert TaskOk(s, t);
    }
  }

  lemma TouchedHandle(s: Sys, s': Sys, h: Id, ts: set<Id>)
    requires h in s.handles
    ensures (h in s'.handles ==> HandleOk(s', h))
            && (s.handles[h].exec.Some? && s.handles[h].exec.value in s'.execs ==> ExecOk(s', s.handles[h].exec.value))
            && (forall t {:trigger TaskOk(s', t)} :: t in ts && t in s'.tasks ==> TaskOk(s', t))
            ==> TouchedOk(s', OneHandle(s, h, ts))
  {
  }

  lemma UnsentObjectsOk(s: Sys, t: Id, h: Id, e: Id, op: Op)
    requires AtIssue(s, t, h, e, op) && !s.execs[e].connected && Grows(s, StepUnsent(s, t, h, op))
    requires TaskOk(s, t) && HandleOk(s, h) && ExecOk(s, e)
    ensures HandleOk(StepUnsent(s, t, h, op), h) && ExecOk(StepUnsent(s, t, h, op), e)
    ensures t in StepUnsent(s, t, h, op).tasks ==> TaskOk(StepUnsent(s, t, h, op), t)
  {
    ExecRevised(s, StepUnsent(s, t, h, op), e);
  }

  lemma UnsentTouched(s: Sys, t: Id, h: Id, e: Id, op: Op)
    requires Inv(s) && AtIssue(s, t, h, e, op) && !s.execs[e].connected && Grows(s, StepUnsent(s, t, h, op))
    ensures TouchedOk(StepUnsent(s, t, h, op), OneHandle(s, h, {t}))
  {
    IssueFacts(s, t, h, e, op);
    assert TaskOk(s, t) && HandleOk(s, h) && ExecOk(s, e);
    UnsentObjectsOk(s, t, h, e, op);
    TouchedHandle(s, StepUnsent(s, t, h, op), h, {t});
  }

  lemma UnsentKeeps(s: Sys, t: Id, h: Id, e: Id, op: Op)
    requires Inv(s) && AtIssue(s, t, h, e, op) && !s.execs[e].connected
    ensures Inv(StepUnsent(s, t, h, op))
  {
    IssueFacts(s, t, h, e, op);
    OneHandleShape(s, StepUnsent(s, t, h, op), h, {t});
    UnsentTouched(s, t, h, e, op);
    OneHandleClosed(s, h, {t});
    ShapeKeeps(s, StepUnsent(s, t, h, op), OneHandle(s, h, {t}));
  }

  // ---------- Settle and Return ----------

  lemma SettleHandleOk(s: Sys, t: Id, h: Id, rollback: bool, ok: bool)
    requires Inv(s) && t in s.tasks && s.tasks[t] == Settle(h, rollback, ok) && Refs(s, s.tasks[t])
    ensures HandleOk(StepSettle(s, t, h, rollback, ok), h)
  {
    assert TaskOk(s, t);
    assert HandleOk(s, h);
  }

  lemma SettleTaskOk(s: Sys, t: Id, h: Id, rollback: bool, ok: bool)
    requires Inv(s) && t in s.tasks && s.tasks[t] == Settle(h, rollback, ok) && Refs(s, s.tasks[t])
    ensures TaskOk(StepSettle(s, t, h, rollback, ok), t)
  {
    if s.handles[h].exec.Some? {
      SettleToFind(s, t, h, rollback, ok, s.handles[h].exec.value);
    } else {
      assert TaskOk(s, t);
      assert HandleOk(s, h);
    }
  }

  lemma SettleToFind(s: Sys, t: Id, h: Id, rollback: bool, ok: bool, e: Id)
    requires Inv(s) && t in s.tasks && s.tasks[t] == Settle(h, rollback, ok) && Refs(s, s.tasks[t])
    requires s.handles[h].exec == Some(e)
    ensures TaskOk(StepSettle(s, t, h, rollback, ok), t)
  {
    assert TaskOk(s, t);
    assert ExecOk(s, e);
  }

  lemma SettleExecOk(s: Sys, t: Id, h: Id, rollback: bool, ok: bool, e: Id)
    requires Inv(s) && t in s.tasks && s.tasks[t] == Settle(h, rollback, ok) && Refs(s, s.tasks[t])
    requires s.handles[h].exec == Some(e) && Grows(s, StepSettle(s, t, h, rollback, ok))
    ensures ExecOk(StepSettle(s, t, h, rollback, ok), e)
  {
    assert TaskOk(s, t);
    assert HandleOk(s, h) && ExecOk(s, e);
    ExecRevised(s, StepSettle(s, t, h, rollback, ok), e);
  }

  lemma SettleTouched(s: Sys, t: Id, h: Id, rollback: bool, ok: bool)
    requires Inv(s) && t in s.tasks && s.tasks[t] == Settle(h, rollback, ok) && Refs(s, s.tasks[t])
    requires Grows(s, StepSettle(s, t, h, rollback, ok))
    ensures TouchedOk(StepSettle(s, t, h, rollback, ok), OneHandle(s, h, {t}))
  {
    if s.handles[h].exec.Some? {
      SettleExecOk(s, t, h, rollback, ok, s.handles[h].exec.value);
    }
    SettleHandleOk(s, t, h, rollback, ok);
    SettleTaskOk(s, t, h, rollback, ok);
    TouchedHandle(s, StepSettle(s, t, h, rollback, ok), h, {t});
  }

  lemma SettleKeeps(s: Sys, t: Id, h: Id, rollback: bool, ok: bool)
    requires Inv(s) && t in s.tasks && s.tasks[t] == Settle(h, rollback, ok) && Refs(s, s.tasks[t])
    ensures Inv(StepSettle(s, t, h, rollback, ok))
  {
    var s' := StepSettle(s, t, h, rollback, ok);
    Working(s, t, h);
    OneHandleShape(s, s', h, {t});
    SettleTouched(s, t, h, rollback, ok);
    OneHandleClosed(s, h, {t});
    ShapeKeeps(s, s', OneHandle(s, h, {t}));
  }

  lemma Working(s: Sys, t: Id, h: Id)
    requires Inv(s) && t in s.tasks && Uses(s.tasks[t]) == Some(h)
    ensures h in s.handles && s.handles[h].busy == Some(t)
  {
    assert TaskOk(s, t);
  }

  lemma ReturnObjectsOk(s: Sys, t: Id, h: Id, rollback: bool, ok: bool)
    requires Inv(s) && t in s.tasks && s.tasks[t] == Return(h, rollback, ok) && h in s.handles
    requires Grows(s, Done(Free(s, h), t))
    ensures HandleOk(Done(Free(s, h), t), h)
    ensures s.handles[h].exec.Some? ==>
              s.handles[h].exec.value in s.execs && ExecOk(Done(Free(s, h), t), s.handles[h].exec.value)
  {
    assert TaskOk(s, t);
    assert HandleOk(s, h);
    if s.handles[h].exec.Some? {
      assert ExecOk(s, s.handles[h].exec.value);
      ExecRevised(s, Done(Free(s, h), t), s.handles[h].exec.value);
    }
  }

  lemma ReturnKeeps(s: Sys, t: Id, h: Id, rollback: bool, ok: bool)
    requires Inv(s) && t in s.tasks && s.tasks[t] == Return(h, rollback, ok) && h in s.handles
    ensures Inv(Done(Free(s, h), t))
  {
    var s' := Done(Free(s, h), t);
    Working(s, t, h);
    OneHandleShape(s, s', h, {t});
    ReturnObjectsOk(s, t, h, rollback, ok);
    TouchedHandle(s, s', h, {t});
    OneHandleClosed(s, h, {t});
    ShapeKeeps(s, s', OneHandle(s, h, {t}));
  }

  // ---------- calls on a handle ----------

  lemma IdleFacts(s: Sys, h: Id)
    requires Inv(s) && Idle(s, h)
    ensures HandleOk(s, h)
    ensures s.handles[h].exec.Some? ==> ExecOk(s, s.handles[h].exec.value)
  {
    assert HandleOk(s, h);
    if s.handles[h].exec.Some? {
      assert ExecOk(s, s.handles[h].exec.value);
    }
  }

  lemma IdleClosed(s: Sys, h: Id, ts: set<Id>)
    requires Inv(s) && Idle(s, h) && ts <= {s.next}
    ensures ClosedUnderHolding(s, OneHandle(s, h, ts))
  {
    NextUnused(s);
    OneHandleClosed(s, h, ts);
  }

  function Queued(s: Sys, h: Id, op: Op): Sys
    requires h in s.handles && s.handles[h].exec.Some?
  {
    Start(Claimed(s, h), Issue(h, s.handles[h].exec.value, op))
  }

  lemma QueuedObjectsOk(s: Sys, h: Id, op: Op)
    requires Inv(s) && Idle(s, h) && s.handles[h].state.Started? && Grows(s, Queued(s, h, op))
    ensures HandleOk(Queued(s, h, op), h)
    ensures ExecOk(Queued(s, h, op), s.handles[h].exec.value)
    ensures TaskOk(Queued(s, h, op), s.next)
  {
    IdleFacts(s, h);
    ExecRevised(s, Queued(s, h, op), s.handles[h].exec.value);
  }

  lemma QueuedKeeps(s: Sys, h: Id, op: Op)
    requires Inv(s) && Idle(s, h) && s.handles[h].state.Started?
    ensures Inv(Queued(s, h, op))
  {
    var s' := Queued(s, h, op);
    OneHandleShape(s, s', h, {s.next});
    QueuedObjectsOk(s, h, op);
    TouchedHandle(s, s', h, {s.next});
    IdleClosed(s, h, {s.next});
    ShapeKeeps(s, s', OneHandle(s, h, {s.next}));
  }

  lemma GateObjectsOk(s: Sys, h: Id, gate: Gate)
    requires Inv(s) && Idle(s, h) && LosesConnection(s, h, gate) && Grows(s, AfterGate(s, h, gate))
    ensures HandleOk(AfterGate(s, h, gate), h)
    ensures ExecOk(AfterGate(s, h, gate), s.handles[h].exec.value)
  {
    IdleFacts(s, h);
    ExecRevised(s, AfterGate(s, h, gate), s.handles[h].exec.value);
  }

  lemma GateKeeps(s: Sys, h: Id, gate: Gate)
    requires Inv(s) && Idle(s, h)
    ensures Inv(AfterGate(s, h, gate))
  {
    if LosesConnection(s, h, gate) {
      var s' := AfterGate(s, h, gate);
      OneHandleShape(s, s', h, {});
      GateObjectsOk(s, h, gate);
      TouchedHandle(s, s', h, {});
      IdleClosed(s, h, {});
      ShapeKeeps(s, s', OneHandle(s, h, {}));
    }
  }

  // The refused synchronous end: on to EndTransaction.
  function Refused(s: Sys, h: Id, rollback: bool, open: bool): Sys
    requires h in s.handles
  {
    Start(Claimed(s, h), Settle(h, rollback, false))
      .(refused := if open && s.handles[h].tx.Some? then s.refused + {s.handles[h].tx.value} else s.refused)
  }

  lemma RefusedObjectsOk(s: Sys, h: Id, rollback: bool, open: bool)
    requires Idle(s, h) && HandleOk(s, h) && Grows(s, Refused(s, h, rollback, open))
    requires s.handles[h].exec.Some? ==> ExecOk(s, s.handles[h].exec.value)
    requires s.handles[h].state.Started? ==> open
    ensures HandleOk(Refused(s, h, rollback, open), h)
    ensures s.handles[h].exec.Some? ==> ExecOk(Refused(s, h, rollback, open), s.handles[h].exec.value)
    ensures TaskOk(Refused(s, h, rollback, open), s.next)
  {
    if s.handles[h].exec.Some? {
      ExecRevised(s, Refused(s, h, rollback, open), s.handles[h].exec.value);
    }
  }

  lemma RefusedTouched(s: Sys, h: Id, rollback: bool, open: bool)
    requires Inv(s) && Idle(s, h) && Grows(s, Refused(s, h, rollback, open))
    requires s.handles[h].state.Started? ==> open
    ensures TouchedOk(Refused(s, h, rollback, open), OneHandle(s, h, {s.next}))
  {
    IdleFacts(s, h);
    RefusedObjectsOk(s, h, rollback, open);
    TouchedHandle(s, Refused(s, h, rollback, open), h, {s.next});
  }

  lemma RefusedKeeps(s: Sys, h: Id, rollback: bool, open: bool)
    requires Inv(s) && Idle(s, h) && (s.handles[h].state.Started? ==> open)
    ensures Inv(Refused(s, h, rollback, open))
  {
    var s' := Refused(s, h, rollback, open);
    OneHandleShape(s, s', h, {s.next});
    RefusedTouched(s, h, rollback, open);
    IdleClosed(s, h, {s.next});
    ShapeKeeps(s, s', OneHandle(s, h, {s.next}));
  }

  lemma StartUserKeeps(s: Sys, h: Id, gate: Gate)
    requires Inv(s) && Idle(s, h)
    ensures Inv(StartUserStep(s, h, gate))
  {
    if Passes(s, h, gate) {
      QueuedKeeps(s, h, UserOp);
    } else {
      GateKeeps(s, h, gate);
    }
  }

  lemma StartEndKeeps(s: Sys, h: Id, rollback: bool, sync: bool, gate: Gate)
    requires Inv(s) && Idle(s, h)
    ensures Inv(StartEndStep(s, h, rollback, sync, gate))
  {
    if Passes(s, h, gate) {
      QueuedKeeps(s, h, EndOp(rollback, sync));
    } else {
      GateKeeps(s, h, gate);
      if sync {
        var g := AfterGate(s, h, gate);
        var open := s.handles[h].state.Started? && !LosesConnection(s, h, gate);
        RefusedKeeps(g, h, rollback, open);
        assert StartEndStep(s, h, rollback, sync, gate) == Refused(g, h, rollback, open);
      }
    }
  }

  // ---------- handle objects ----------

  lemma DestroyObjectsOk(s: Sys, h: Id)
    requires Inv(s) && Idle(s, h) && Grows(s, DestroyStep(s, h))
    ensures s.handles[h].exec.Some? ==> ExecOk(DestroyStep(s, h), s.handles[h].exec.value)
  {
    IdleFacts(s, h);
    if s.handles[h].exec.Some? {
      ExecRevised(s, DestroyStep(s, h), s.handles[h].exec.value);
    }
  }

  lemma DestroyKeeps(s: Sys, h: Id)
    requires Inv(s) && Idle(s, h)
    ensures Inv(DestroyStep(s, h))
  {
    var s' := DestroyStep(s, h);
    OneHandleShape(s, s', h, {});
    DestroyObjectsOk(s, h);
    TouchedHandle(s, s', h, {});
    IdleClosed(s, h, {});
    ShapeKeeps(s, s', OneHandle(s, h, {}));
  }

  function ExecOf(s: Sys, h: Id): set<Id> {
    if h in s.handles && s.handles[h].exec.Some? then {s.handles[h].exec.value} else {}
  }

  // What moving src into dst may change. dst may be new.
  function TwoHandles(s: Sys, dst: Id, src: Id): Touched
    requires src in s.handles
  {
    Touched({}, ExecOf(s, dst) + ExecOf(s, src), {}, {dst, src},
            if s.handles[src].tx.Some? then {s.handles[src].tx.value} else {})
  }

  lemma MoveClosed(s: Sys, dst: Id, src: Id)
    requires Inv(s) && Idle(s, src) && (dst == s.next || Idle(s, dst))
    ensures ClosedUnderHolding(s, TwoHandles(s, dst, src))
  {
    NextUnused(s);
    assert HandleOk(s, src);
    assert dst in s.handles ==> HandleOk(s, dst);
  }

  lemma MoveTouchedOk(s: Sys, s': Sys, dst: Id, src: Id)
    requires src in s.handles
    ensures (src in s'.handles ==> HandleOk(s', src)) && (dst in s'.handles ==> HandleOk(s', dst))
            && (forall e {:trigger ExecOk(s', e)} ::
                  e in ExecOf(s, dst) + ExecOf(s, src) && e in s'.execs ==> ExecOk(s', e))
            && (s.handles[src].tx.Some? && s.handles[src].tx.value in s'.txs ==> TxOk(s', s.handles[src].tx.value))
            ==> TouchedOk(s', TwoHandles(s, dst, src))
  {
  }

  // The source of a move is left empty.
  lemma EmptiedOk(s: Sys, h: Id)
    requires h in s.handles && s.handles[h] == Handle(InValid, None, None, None) && h < s.next
    ensures HandleOk(s, h)
  {
  }

  lemma TwoHandlesGrow(s: Sys, s': Sys, dst: Id, src: Id)
    requires s.now < U64 && src in s.handles && s.next <= s'.next
    requires s'.(next := s.next, execs := s.execs, handles := s.handles, txs := s.txs) == s
    requires s'.execs.Keys == s.execs.Keys
    requires forall e :: e in s.execs ==> Evolves(s.execs[e], s'.execs[e])
    requires s'.txs == Handed(s, s.handles[src].tx, ByHandle(dst)).txs
    ensures Grows(s, s') && SameRanks(s, s')
  {
  }

  // A step that moves src into dst.
  lemma TwoHandlesShape(s: Sys, s': Sys, dst: Id, src: Id)
    requires s.now < U64 && src in s.handles && s.next <= s'.next
    requires s'.(next := s.next, execs := s.execs, handles := s.handles, txs := s.txs) == s
    requires dst in s'.handles && src in s'.handles
    requires s'.handles == s.handles[dst := s'.handles[dst]][src := s'.handles[src]]
    requires s'.execs.Keys == s.execs.Keys
    requires forall e :: e in s.execs ==>
               (e !in ExecOf(s, dst) + ExecOf(s, src) ==> s'.execs[e] == s.execs[e]) && Evolves(s.execs[e], s'.execs[e])
    requires s'.txs == Handed(s, s.handles[src].tx, ByHandle(dst)).txs
    ensures Shape(s, s', TwoHandles(s, dst, src))
  {
    TwoHandlesGrow(s, s', dst, src);
  }

  lemma MoveConstructShape(s: Sys, src: Id)
    requires s.now < U64 && Idle(s, src)
    ensures Shape(s, MoveConstructStep(s, src), TwoHandles(s, s.next, src))
  {
    TwoHandlesShape(s, MoveConstructStep(s, src), s.next, src);
  }

  lemma MoveConstructObjectsOk(s: Sys, src: Id)
    requires Inv(s) && Idle(s, src) && Grows(s, MoveConstructStep(s, src))
    ensures HandleOk(MoveConstructStep(s, src), s.next)
    ensures forall e :: e in ExecOf(s, src) ==> ExecOk(MoveConstructStep(s, src), e)
    ensures HandleOk(MoveConstructStep(s, src), src)
  {
    NextUnused(s);
    IdleFacts(s, src);
    if s.handles[src].exec.Some? {
      ExecRevised(s, MoveConstructStep(s, src), s.handles[src].exec.value);
    }
    EmptiedOk(MoveConstructStep(s, src), src);
  }

  lemma MovedTxOk(s: Sys, s': Sys, src: Id)
    requires Inv(s) && src in s.handles && s.handles[src].tx.Some? && Grows(s, s')
    requires s.handles[src].tx.value in s.txs ==>
               s'.txs[s.handles[src].tx.value].last == s.txs[s.handles[src].tx.value].last
    ensures s.handles[src].tx.value in s'.txs && TxOk(s', s.handles[src].tx.value)
  {
    assert HandleOk(s, src);
    assert TxOk(s, s.handles[src].tx.value);
    TxKeeps(s, s', s.handles[src].tx.value);
  }

  lemma MoveConstructKeeps(s: Sys, src: Id)
    requires Inv(s) && Idle(s, src)
    ensures Inv(MoveConstructStep(s, src))
  {
    var s' := MoveConstructStep(s, src);
    NextUnused(s);
    MoveConstructShape(s, src);
    MoveConstructObjectsOk(s, src);
    if s.handles[src].tx.Some? {
      MovedTxOk(s, s', src);
    }
    MoveTouchedOk(s, s', s.next, src);
    MoveClosed(s, s.next, src);
    ShapeKeeps(s, s', TwoHandles(s, s.next, src));
  }

  lemma MoveAssignShape(s: Sys, dst: Id, src: Id)
    requires s.now < U64 && Idle(s, dst) && Idle(s, src) && dst != src
    ensures Shape(s, MoveAssignStep(s, dst, src), TwoHandles(s, dst, src))
  {
    TwoHandlesShape(s, MoveAssignStep(s, dst, src), dst, src);
  }

  lemma MoveAssignHandleOk(s: Sys, dst: Id, src: Id)
    requires Idle(s, dst) && Idle(s, src) && dst != src && Grows(s, MoveAssignStep(s, dst, src))
    requires HandleOk(s, src) && HandleOk(s, dst)
    ensures HandleOk(MoveAssignStep(s, dst, src), dst)
  {
  }

  lemma MoveAssignExecOk(s: Sys, dst: Id, src: Id, e: Id)
    requires Idle(s, dst) && Idle(s, src) && dst != src && Grows(s, MoveAssignStep(s, dst, src))
    requires HandleOk(s, src) && HandleOk(s, dst)
    requires e in ExecOf(s, dst) + ExecOf(s, src) && ExecOk(s, e)
    ensures ExecOk(MoveAssignStep(s, dst, src), e)
  {
    ExecRevised(s, MoveAssignStep(s, dst, src), e);
  }

  lemma MoveAssignHandlesOk(s: Sys, dst: Id, src: Id)
    requires Inv(s) && Idle(s, dst) && Idle(s, src) && dst != src && Grows(s, MoveAssignStep(s, dst, src))
    ensures HandleOk(MoveAssignStep(s, dst, src), src)
    ensures HandleOk(MoveAssignStep(s, dst, src), dst)
  {
    assert HandleOk(s, src) && HandleOk(s, dst);
    EmptiedOk(MoveAssignStep(s, dst, src), src);
    MoveAssignHandleOk(s, dst, src);
  }

  lemma MoveAssignExecsOk(s: Sys, dst: Id, src: Id)
    requires Inv(s) && Idle(s, dst) && Idle(s, src) && dst != src && Grows(s, MoveAssignStep(s, dst, src))
    ensures forall e {:trigger ExecOk(MoveAssignStep(s, dst, src), e)} ::
              e in ExecOf(s, dst) + ExecOf(s, src) ==> ExecOk(MoveAssignStep(s, dst, src), e)
  {
    assert HandleOk(s, src) && HandleOk(s, dst);
    forall e | e in ExecOf(s, dst) + ExecOf(s, src)
      ensures ExecOk(MoveAssignStep(s, dst, src), e)
    {
      assert ExecOk(s, e);
      MoveAssignExecOk(s, dst, src, e);
    }
  }

  lemma MoveAssignKeeps(s: Sys, dst: Id, src: Id)
    requires Inv(s) && Idle(s, dst) && Idle(s, src) && dst != src
    ensures Inv(MoveAssignStep(s, dst, src))
  {
    var s' := MoveAssignStep(s, dst, src);
    MoveAssignShape(s, dst, src);
    MoveAssignHandlesOk(s, dst, src);
    MoveAssignExecsOk(s, dst, src);
    if s.handles[src].tx.Some? {
      MovedTxOk(s, s', src);
    }
    MoveTouchedOk(s, s', dst, src);
    MoveClosed(s, dst, src);
    ShapeKeeps(s, s', TwoHandles(s, dst, src));
  }

  lemma SelfAssignObjectsOk(s: Sys, h: Id)
    requires Inv(s) && Idle(s, h) && Grows(s, SelfAssignStep(s, h))
    ensures HandleOk(SelfAssignStep(s, h), h)
    ensures s.handles[h].exec.Some? ==> ExecOk(SelfAssignStep(s, h), s.handles[h].exec.value)
  {
    IdleFacts(s, h);
    if s.handles[h].exec.Some? {
      ExecRevised(s, SelfAssignStep(s, h), s.handles[h].exec.value);
    }
    EmptiedOk(SelfAssignStep(s, h), h);
  }

  lemma SelfAssignKeeps(s: Sys, h: Id)
    requires Inv(s) && Idle(s, h)
    ensures Inv(SelfAssignStep(s, h))
  {
    var s' := SelfAssignStep(s, h);
    OneHandleShape(s, s', h, {});
    SelfAssignObjectsOk(s, h);
    TouchedHandle(s, s', h, {});
    IdleClosed(s, h, {});
    ShapeKeeps(s, s', OneHandle(s, h, {}));
  }

  // ---------- calls on the proxy ----------

  // Only new objects are touched.
  lemma FreshClosed(s: Sys, ts: set<Id>, hs: set<Id>)
    requires ts <= {s.next} && hs <= {s.next} && s.next !in s.tasks && s.next !in s.handles
    ensures ClosedUnderHolding(s, Touched(ts, {}, {}, hs, {}))
  {
  }

  lemma FreshShape(s: Sys, s': Sys, ts: set<Id>, hs: set<Id>)
    requires s.now <= s'.now < U64 && s.next <= s'.next
    requires s'.(now := s.now, next := s.next, tasks := s.tasks, handles := s.handles) == s
    requires forall t :: t !in ts ==> (t in s.tasks <==> t in s'.tasks) && (t in s.tasks ==> s'.tasks[t] == s.tasks[t])
    requires forall h :: h !in hs ==>
               (h in s.handles <==> h in s'.handles) && (h in s.handles ==> s'.handles[h] == s.handles[h])
    ensures Shape(s, s', Touched(ts, {}, {}, hs, {}))
  {
  }

  lemma FreshTouched(s: Sys, ts: set<Id>, hs: set<Id>)
    ensures (forall t {:trigger TaskOk(s, t)} :: t in ts && t in s.tasks ==> TaskOk(s, t))
            && (forall h {:trigger HandleOk(s, h)} :: h in hs && h in s.handles ==> HandleOk(s, h))
            ==> TouchedOk(s, Touched(ts, {}, {}, hs, {}))
  {
  }

  lemma NewHandleOk(s: Sys)
    ensures HandleOk(Apply(s, NewHandle), s.next)
  {
  }

  lemma NewHandleKeeps(s: Sys)
    requires Inv(s)
    ensures Inv(Apply(s, NewHandle))
  {
    var s' := Apply(s, NewHandle);
    NextUnused(s);
    NewHandleOk(s);
    FreshTouched(s', {}, {s.next});
    FreshShape(s, s', {}, {s.next});
    FreshClosed(s, {}, {s.next});
    ShapeKeeps(s, s', Touched({}, {}, {}, {s.next}, {}));
  }

  lemma NewTaskOk(s: Sys, addr: NodeAddr, job: Job)
    requires !job.End? && s.next !in s.txs && s.next !in s.handles
    ensures TaskOk(Start(s, Find(addr, job)), s.next)
  {
  }

  lemma StartKeeps(s: Sys, addr: NodeAddr, job: Job)
    requires Inv(s) && !job.End?
    ensures Inv(Start(s, Find(addr, job)))
  {
    var s' := Start(s, Find(addr, job));
    NextUnused(s);
    NewTaskOk(s, addr, job);
    FreshTouched(s', {s.next}, {});
    FreshShape(s, s', {s.next}, {});
    FreshClosed(s, {s.next}, {});
    ShapeKeeps(s, s', Touched({s.next}, {}, {}, {}, {}));
  }

  lemma TickKeeps(s: Sys, ms: nat)
    requires Inv(s) && s.now + ms < U64
    ensures Inv(s.(now := s.now + ms))
  {
    var s' := s.(now := s.now + ms);
    NextUnused(s);
    FreshTouched(s', {}, {});
    FreshShape(s, s', {}, {});
    FreshClosed(s, {}, {});
    ShapeKeeps(s, s', Touched({}, {}, {}, {}, {}));
  }
}
