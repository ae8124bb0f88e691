/** What a transaction is guaranteed in every reachable state, and where the guarantees end. */
module TransactionTheorems {
  import opened Options
  import opened PoolRules
  import opened Endpoint
  import opened HandleState
  import opened Protocol
  import opened ProtocolInvariant
  import opened ProtocolPoolSteps
  import opened ProtocolHandleSteps
  import opened ProtocolRuns
  import opened ProtocolEffects
  import opened PoolTheorems

  // ---------- handle states ----------

  /** Between calls, a started handle has an executor, a finished one has none or a disconnected
      one, and an empty or moved-from one has none. */
  lemma HandleStates(s: Sys, h: Id)
    requires Reachable(s) && h in s.handles && s.handles[h].busy == None
    ensures var x := s.handles[h];
            (x.state.Started? ==> x.exec.Some?)
            && (x.exec.Some? ==> x.exec.value in s.execs)
            && (x.state.Committed? || x.state.RolledBack? ==> x.exec.Some? ==> !s.execs[x.exec.value].connected)
            && (x.state.NotInited? || x.state.InValid? ==> x.exec == None)
  {
    ReachableHolds(s);
    assert HandleOk(s, h);
  }

  // ---------- isolation ----------

  /** The statements of a transaction are one contiguous stretch of the log of one connection,
      nothing of anybody else lies in between, and the stretch begins with its begin. */
  lemma TransactionIsOneBlock(s: Sys, x: Id, e: Id, i: nat)
    requires Reachable(s) && x in s.txs && e in s.execs && i < |s.execs[e].log|
    ensures s.execs[e].log[i].via == Tx(x) <==> e == s.txs[x].exec && s.txs[x].first <= i < s.txs[x].last
    ensures e == s.txs[x].exec && s.txs[x].first <= i < s.txs[x].last ==>
              (s.execs[e].log[i].stmt == Begin <==> i == s.txs[x].first)
  {
    ReachableHolds(s);
    assert TxOk(s, x) && ExecOk(s, e);
    assert InBlock(s, e, i, s.execs[e].log[i].via);
  }

  /** While a handle is started, every statement on its connection since its begin is its own. */
  lemma StartedHandleIsIsolated(s: Sys, h: Id)
    requires Reachable(s) && h in s.handles && s.handles[h].state.Started?
    ensures s.handles[h].exec.Some? && s.handles[h].tx.Some?
    ensures var e, x := s.handles[h].exec.value, s.handles[h].tx.value;
            e in s.execs && x in s.txs && s.txs[x].exec == e && s.txs[x].first < |s.execs[e].log|
            && s.execs[e].log[s.txs[x].first].stmt == Begin && s.execs[e].log[s.txs[x].first].ok
            && forall i :: s.txs[x].first <= i < |s.execs[e].log| ==> s.execs[e].log[i].via == Tx(x)
  {
    ReachableHolds(s);
    assert HandleOk(s, h);
    assert TxOk(s, s.handles[h].tx.value);
  }

  // Between s and s' a statement was sent over e in the name of transaction x.
  predicate SentFor(s: Sys, s': Sys, e: Id, x: Id) {
    e in s.execs && e in s'.execs && |s'.execs[e].log| > |s.execs[e].log|
    && s'.execs[e].log[|s.execs[e].log|].via == Tx(x)
  }

  predicate SentBegin(s: Sys, s': Sys, e: Id, x: Id)
    requires SentFor(s, s', e, x)
  {
    s'.execs[e].log[|s.execs[e].log|].stmt == Begin
  }

  lemma GotSends(s: Sys, t: Id, p: Id, d: Id, job: Job, env: Env, e: Id, x: Id)
    requires d in s.execs && SentFor(s, StepGot(s, t, p, d, job, env), e, x)
    ensures SentBegin(s, StepGot(s, t, p, d, job, env), e, x) && t == x
  {
  }

  lemma IssueSends(s: Sys, t: Id, h: Id, d: Id, op: Op, env: Env, e: Id, x: Id)
    requires Refs(s, Issue(h, d, op)) && SentFor(s, StepIssue(s, t, h, d, op, env), e, x)
    ensures !SentBegin(s, StepIssue(s, t, h, d, op, env), e, x) && e == d && s.handles[h].tx == Some(x)
  {
  }

  lemma HolderSends(s: Sys, t: Id, h: Id, d: Id, op: Op, env: Env, e: Id, x: Id)
    requires Inv(s) && AtIssue(s, t, h, d, op) && SentFor(s, StepIssue(s, t, h, d, op, env), e, x)
    ensures !SentBegin(s, StepIssue(s, t, h, d, op, env), e, x)
    ensures exists g :: g in s.handles && s.handles[g].state.Started? && s.handles[g].tx == Some(x)
                        && s.handles[g].exec == Some(e) && s.handles[g].busy == Some(t)
  {
    IssueFacts(s, t, h, d, op);
    IssueSends(s, t, h, d, op, env, e, x);
    assert s.handles[h].state.Started?;
  }

  /** A statement goes out in the name of a transaction only as its begin, or through the started
      handle that holds the transaction, over the handle's own connection. */
  lemma OnlyTheHandleSends(s: Sys, a: Action, e: Id, x: Id)
    requires Reachable(s) && Enabled(s, a) && SentFor(s, Apply(s, a), e, x)
    ensures a.Step?
    ensures if SentBegin(s, Apply(s, a), e, x) then a.t == x
            else exists h :: h in s.handles && s.handles[h].state.Started? && s.handles[h].tx == Some(x)
                             && s.handles[h].exec == Some(e) && s.handles[h].busy == Some(a.t)
  {
    ReachableHolds(s);
    if !a.Step? {
      CallsSendNothing(s, a, e);
    } else {
      match s.tasks[a.t]
      case Got(p, d, job) => GotSends(s, a.t, p, d, job, a.env, e, x);
      case Issue(h, d, op) => HolderSends(s, a.t, h, d, op, a.env, e, x);
      case _ =>
        NextUnused(s);
        LogsUntouched(s, a.t, a.env, e);
    }
  }

  // ---------- commit and rollback ----------

  /** If Commit or Rollback reports success, then the statement ran successfully as the last one of
      the transaction that this handle began, the handle is in the matching state, and if it still has
      an executor, that is the one of the transaction, closed. If not, TransactionEndings says where
      the executor went; TransactionSessions says when the statement ran inside the transaction. */
  lemma EndIsSound(s: Sys, t: Id, h: Id, rollback: bool)
    requires Reachable(s) && t in s.tasks && s.tasks[t] == Return(h, rollback, true)
    ensures h in s.handles && s.handles[h].state == (if rollback then RolledBack else Committed)
    ensures s.handles[h].exec.Some? ==>
              s.handles[h].exec.value in s.execs && !s.execs[s.handles[h].exec.value].connected
    ensures s.handles[h].tx.Some? && s.handles[h].tx.value in s.txs
    ensures var x := s.handles[h].tx.value;
            var b := s.txs[x];
            (s.handles[h].exec.Some? ==> s.handles[h].exec.value == b.exec)
            && b.exec in s.execs && b.first + 1 < b.last <= |s.execs[b.exec].log|
            && var log := s.execs[b.exec].log;
            log[b.first].stmt == Begin && log[b.first].ok
            && log[b.last - 1].stmt == (if rollback then Rollback else Commit) && log[b.last - 1].ok
            && (forall i :: b.first <= i < b.last ==> log[i].via == Tx(x))
            && (forall i :: b.first <= i < b.last - 1 ==> !EndsTx(log[i]))
  {
    ReachableHolds(s);
    assert TaskOk(s, t);
    assert HandleOk(s, h) && TxOk(s, s.handles[h].tx.value);
  }

  /** Each statement of a transaction, its commit included, runs inside the transaction on the
      server exactly when the connection is still the one begin used: a prepared statement that
      finds it lost dials again and goes on, and the handle does not notice. */
  lemma InsideIffSameSession(s: Sys, x: Id, i: nat)
    requires Reachable(s) && x in s.txs
    requires s.txs[x].first < i < s.txs[x].last
    ensures s.txs[x].exec in s.execs && i < |s.execs[s.txs[x].exec].log|
    ensures var log := s.execs[s.txs[x].exec].log;
            log[i].inTx <==> log[i].session == log[s.txs[x].first].session
  {
    ReachableHolds(s);
    assert TxOk(s, x);
  }

  /** Such a redial happens: from any started handle whose statement is queued, a lost connection
      leaves the handle started with nothing open on the server. */
  lemma RedialEscapes(s: Sys, t: Id, h: Id, e: Id, ok: bool)
    requires Reachable(s) && t in s.tasks && s.tasks[t] == Issue(h, e, UserOp) && e in s.execs && s.execs[e].connected
    ensures var a := Step(t, Env(true, true, Redial, ok, false, true));
            Enabled(s, a)
            && var s' := Apply(s, a);
            s'.handles[h].state.Started? && s'.handles[h].busy == None
            && s'.execs[e].connected && s'.execs[e].openTx == None
            && !s'.execs[e].log[|s'.execs[e].log| - 1].inTx
  {
    ReachableHolds(s);
    RefsHold(s, t);
    IssueFacts(s, t, h, e, UserOp);
  }

  // ---------- open transactions in the pool ----------

  /** A pooled executor has a transaction open only if that transaction's synchronous Commit or
      Rollback was refused before its statement was sent. */
  lemma PooledOpenWasRefused(s: Sys, p: Id, k: nat, i: nat)
    requires Reachable(s) && p in s.pools && k < |s.pools[p].shards| && i < |s.pools[p].shards[k]|
    ensures s.pools[p].shards[k][i] in s.execs
    ensures var x := s.execs[s.pools[p].shards[k][i]]; x.openTx.Some? ==> x.openTx.value in s.refused
  {
    ReachableHolds(s);
    assert PoolOk(s, p);
    assert ShardOk(s, p, k);
    assert Pooled(s, p, k, s.pools[p].shards[k][i]);
    assert ExecOk(s, s.pools[p].shards[k][i]);
  }

  // The filter rejects the call, or the timeout check or the pre-send filter stops it although the
  // connection answers.
  predicate Stops(s: Sys, e: Id, gate: Gate)
    requires e in s.execs
  {
    gate.Rejected? || (gate.late && gate.ping && s.execs[e].connected)
  }

  // A synchronous Commit or Rollback on the started handle of transaction x is stopped.
  predicate Refuses(s: Sys, a: Action, x: Id) {
    a.StartEnd? && a.sync && a.h in s.handles && s.handles[a.h].state.Started? && s.handles[a.h].tx == Some(x)
    && s.handles[a.h].exec.Some? && s.handles[a.h].exec.value in s.execs
    && Stops(s, s.handles[a.h].exec.value, a.gate)
  }

  lemma EndRefuses(s: Sys, h: Id, rollback: bool, sync: bool, gate: Gate, x: Id)
    requires Idle(s, h)
    ensures x in StartEndStep(s, h, rollback, sync, gate).refused
            <==> x in s.refused || Refuses(s, StartEnd(h, rollback, sync, gate), x)
  {
    GateSteady(s, h, gate);
  }

  /** A transaction is refused by one kind of action and by every action of that kind: a synchronous
      Commit or Rollback on its started handle that the filter rejects, or that times out or is
      filtered just before sending while the connection is alive. */
  lemma WhatRefusedMeans(s: Sys, a: Action, x: Id)
    requires Enabled(s, a)
    ensures x in Apply(s, a).refused <==> x in s.refused || Refuses(s, a, x)
  {
    if a.Step? {
      StepsSteady(s, a.t, a.env);
    } else if a.StartEnd? {
      EndRefuses(s, a.h, a.rollback, a.sync, a.gate, x);
    } else {
      CallsSteady(s, a);
    }
  }

  // The action gets past the filter and the timeout check, or is asynchronous, or is no ending.
  predicate Undisturbed(a: Action) {
    a.StartEnd? && a.sync ==> a.gate.Checked? && !a.gate.late
  }

  lemma {:induction false} NothingRefused(states: seq<Sys>, acts: seq<Action>, i: nat)
    requires Run(states, acts) && i < |states|
    requires forall j :: 0 <= j < i ==> Undisturbed(acts[j])
    ensures states[i].refused == {}
  {
    if i > 0 {
      NothingRefused(states, acts, i - 1);
      assert StepAt(states, acts, i - 1);
      assert Undisturbed(acts[i - 1]);
      forall x | x in states[i].refused
        ensures false
      {
        WhatRefusedMeans(states[i - 1], acts[i - 1], x);
      }
    }
  }

  /** In every run in which no synchronous Commit or Rollback is stopped by a filter or a timeout, no
      pooled executor ever has an open transaction: lost connections, asynchronous endings, dead
      handles and double endings never put one there. */
  lemma CleanRunsPoolNothingOpen(states: seq<Sys>, acts: seq<Action>, i: nat, p: Id, k: nat, j: nat)
    requires Run(states, acts) && i < |states|
    requires forall n :: 0 <= n < i ==> Undisturbed(acts[n])
    requires p in states[i].pools && k < |states[i].pools[p].shards| && j < |states[i].pools[p].shards[k]|
    ensures var e := states[i].pools[p].shards[k][j];
            e in states[i].execs && states[i].execs[e].openTx == None
  {
    NothingRefused(states, acts, i);
    RunReaches(states, acts, i);
    PooledOpenWasRefused(states[i], p, k, j);
  }
}
