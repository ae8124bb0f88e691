/** Every step that sends a statement, opens or ends a transaction keeps the invariant. */
module ProtocolTxSteps {
  import opened Options
  import opened PoolRules
  import opened Endpoint
  import opened HandleState
  import opened Protocol
  import opened ProtocolInvariant
  import opened ProtocolFrame
  import opened ProtocolPoolSteps

  // ---------- building blocks ----------

  // What a step of t on transaction x may change, with the handles hs that it creates.
  function ReachTx(s: Sys, t: Id, hs: set<Id>, x: Id): Touched
    requires t in s.tasks
  {
    Touched({t}, Mine(s, t), {}, MyHandle(s.tasks[t]) + hs, {x})
  }

  lemma ReachTxClosed(s: Sys, t: Id, hs: set<Id>, x: Id)
    requires Inv(s) && t in s.tasks && (s.tasks[t].Got? || s.tasks[t].Began?)
    requires hs <= {t} && t !in s.handles
    requires if x in s.txs then s.txs[x].holder == ByTask(t) else x == t
    ensures ClosedUnderHolding(s, ReachTx(s, t, hs, x))
  {
    HasView(s, t);
  }

  // The executor of a task that is about to use it in a plain query or a begin.
  lemma FreshlyGot(s: Sys, t: Id)
    requires Inv(s) && t in s.tasks && (s.tasks[t].Got? || s.tasks[t].Began?)
    ensures var e := s.tasks[t].e;
            Mine(s, t) == {e} && MyHandle(s.tasks[t]) == {} && e in s.execs
            && s.execs[e].owner == ByTask(t) && s.execs[e].pool == s.tasks[t].pool
    ensures s.tasks[t].Got? ==>
              var x := s.execs[s.tasks[t].e]; x.openTx.Some? ==> x.openTx.value in s.refused
  {
    HasView(s, t);
    assert ExecOk(s, s.tasks[t].e);
  }

  // A statement was appended to the log.
  lemma ExecAppended(s: Sys, s': Sys, e: Id)
    requires Grows(s, s') && e in s.execs && ExecOk(s, e)
    requires |s'.execs[e].log| == |s.execs[e].log| + 1
    requires InBlock(s', e, |s.execs[e].log|, s'.execs[e].log[|s.execs[e].log|].via)
    requires s'.execs[e].rank == s.execs[e].rank && s'.execs[e].connected
    requires OwnerOk(s', e)
    requires s'.execs[e].openTx.Some? ==>
               var x := s'.execs[e].openTx.value;
               x in s'.txs && s'.txs[x].exec == e && (x in s'.refused || OpenHolder(s', e, x))
    ensures ExecOk(s', e)
  {
    StaysRegistered(s, s', s.execs[e].pool);
    LogStaysInBlocks(s, s', e);
    var log, log' := s.execs[e].log, s'.execs[e].log;
    forall i | 0 <= i < |log'|
      ensures InBlock(s', e, i, log'[i].via)
    {
      if i < |log| {
        assert log'[i] == log[i];
      }
    }
  }

  lemma OwnExecDoneShape(s: Sys, t: Id, e: Id, x: Exec)
    requires s.now < U64 && t in s.tasks && e in s.execs && Mine(s, t) == {e}
    requires Evolves(s.execs[e], x)
    ensures Shape(s, Done(WithExec(s, e, x), t), Reach(s, t, {}, {}))
  {
  }

  // A step of t on its executor and transaction x that may also create the handles hs.
  lemma TxShape(s: Sys, s': Sys, t: Id, hs: set<Id>, x: Id)
    requires s.now < U64 && t in s.tasks
    requires s'.(tasks := s.tasks, execs := s.execs, handles := s.handles, txs := s.txs) == s
    requires s'.tasks - {t} == s.tasks - {t}
    requires forall h :: h !in MyHandle(s.tasks[t]) + hs ==>
               (h in s.handles <==> h in s'.handles) && (h in s.handles ==> s'.handles[h] == s.handles[h])
    requires s'.execs.Keys == s.execs.Keys
    requires forall e :: e in s.execs ==>
               (e !in Mine(s, t) ==> s'.execs[e] == s.execs[e]) && Evolves(s.execs[e], s'.execs[e])
    requires x in s'.txs && s'.txs == s.txs[x := s'.txs[x]]
    requires x in s.txs ==>
               s'.txs[x].exec == s.txs[x].exec && s'.txs[x].first == s.txs[x].first && s.txs[x].last <= s'.txs[x].last
    ensures Shape(s, s', ReachTx(s, t, hs, x))
  {
    forall t' | t' != t
      ensures (t' in s.tasks <==> t' in s'.tasks) && (t' in s.tasks ==> s'.tasks[t'] == s.tasks[t'])
    {
      assert t' in s.tasks <==> t' in s.tasks - {t};
      assert t' in s'.tasks <==> t' in s'.tasks - {t};
      assert t' in s.tasks ==> (s.tasks - {t})[t'] == s.tasks[t'];
      assert t' in s'.tasks ==> (s'.tasks - {t})[t'] == s'.tasks[t'];
    }
  }

  lemma TouchedTxFour(s: Sys, t: Id, e: Id, hs: set<Id>, x: Id)
    ensures (e in s.execs ==> ExecOk(s, e)) && (t in s.tasks ==> TaskOk(s, t)) && (x in s.txs ==> TxOk(s, x))
            && (forall h {:trigger HandleOk(s, h)} :: h in hs && h in s.handles ==> HandleOk(s, h))
            ==> TouchedOk(s, Touched({t}, {e}, {}, hs, {x}))
  {
  }

  // ---------- Got ----------

  lemma DropTouched(s: Sys, t: Id, p: Id, e: Id, job: Job)
    requires Inv(s) && t in s.tasks && s.tasks[t] == Got(p, e, job) && e in s.execs
    requires Grows(s, Done(WithExec(s, e, LetGo(s.execs[e])), t))
    ensures TouchedOk(Done(WithExec(s, e, LetGo(s.execs[e])), t), Reach(s, t, {}, {}))
  {
    var s' := Done(WithExec(s, e, LetGo(s.execs[e])), t);
    FreshlyGot(s, t);
    assert ExecOk(s, e);
    ExecRevised(s, s', e);
    TouchedExecTask(s', t, e);
  }

  lemma DropKeeps(s: Sys, t: Id, p: Id, e: Id, job: Job)
    requires Inv(s) && t in s.tasks && s.tasks[t] == Got(p, e, job) && e in s.execs
    ensures Inv(Done(WithExec(s, e, LetGo(s.execs[e])), t))
  {
    FreshlyGot(s, t);
    OwnExecDoneShape(s, t, e, LetGo(s.execs[e]));
    DropTouched(s, t, p, e, job);
    ReachClosed(s, t, {}, {});
    ShapeKeeps(s, Done(WithExec(s, e, LetGo(s.execs[e])), t), Reach(s, t, {}, {}));
  }

  lemma QueryExecOk(s: Sys, t: Id, p: Id, e: Id, net: Net, ok: bool)
    requires t in s.tasks && s.tasks[t] == Got(p, e, Query) && e in s.execs && s.execs[e].connected
    requires TaskOk(s, t) && ExecOk(s, e) && (s.execs[e].openTx.Some? ==> s.execs[e].openTx.value in s.refused)
    requires Grows(s, At(WithExec(s, e, Ran(s.execs[e], Plain, net, ok)), t, Lock(p, e, Query)))
    ensures ExecOk(At(WithExec(s, e, Ran(s.execs[e], Plain, net, ok)), t, Lock(p, e, Query)), e)
  {
    var s' := At(WithExec(s, e, Ran(s.execs[e], Plain, net, ok)), t, Lock(p, e, Query));
    if net.Lost? {
      ExecRevised(s, s', e);
    } else {
      ExecAppended(s, s', e);
    }
  }

  lemma QueryTaskOk(s: Sys, t: Id, p: Id, e: Id, net: Net, ok: bool)
    requires Inv(s) && t in s.tasks && s.tasks[t] == Got(p, e, Query) && e in s.execs && s.execs[e].connected
    ensures TaskOk(At(WithExec(s, e, Ran(s.execs[e], Plain, net, ok)), t, Lock(p, e, Query)), t)
  {
    FreshlyGot(s, t);
    assert TaskOk(s, t);
  }

  lemma QueryTouched(s: Sys, t: Id, p: Id, e: Id, net: Net, ok: bool)
    requires Inv(s) && t in s.tasks && s.tasks[t] == Got(p, e, Query) && e in s.execs && s.execs[e].connected
    requires Grows(s, At(WithExec(s, e, Ran(s.execs[e], Plain, net, ok)), t, Lock(p, e, Query)))
    ensures TouchedOk(At(WithExec(s, e, Ran(s.execs[e], Plain, net, ok)), t, Lock(p, e, Query)),
                      Reach(s, t, {}, {}))
  {
    FreshlyGot(s, t);
    assert TaskOk(s, t) && ExecOk(s, e);
    QueryExecOk(s, t, p, e, net, ok);
    QueryTaskOk(s, t, p, e, net, ok);
    TouchedExecTask(At(WithExec(s, e, Ran(s.execs[e], Plain, net, ok)), t, Lock(p, e, Query)), t, e);
  }

  lemma QueryKeeps(s: Sys, t: Id, p: Id, e: Id, net: Net, ok: bool)
    requires Inv(s) && t in s.tasks && s.tasks[t] == Got(p, e, Query) && e in s.execs && s.execs[e].connected
    ensures Inv(At(WithExec(s, e, Ran(s.execs[e], Plain, net, ok)), t, Lock(p, e, Query)))
  {
    var s' := At(WithExec(s, e, Ran(s.execs[e], Plain, net, ok)), t, Lock(p, e, Query));
    FreshlyGot(s, t);
    OwnExecShape(s, t, e, Ran(s.execs[e], Plain, net, ok), Lock(p, e, Query));
    QueryTouched(s, t, p, e, net, ok);
    ReachClosed(s, t, {}, {});
    ShapeKeeps(s, s', Reach(s, t, {}, {}));
  }

  function AfterBegin(s: Sys, t: Id, p: Id, e: Id, ok: bool): Sys
    requires e in s.execs
  {
    At(WithExec(s, e, Sent(s.execs[e], Begin, Tx(t), ok)), t, Began(p, e, ok))
      .(txs := s.txs[t := TxInfo(e, |s.execs[e].log|, |s.execs[e].log| + 1, ByTask(t))])
  }

  lemma BeginShape(s: Sys, t: Id, p: Id, e: Id, ok: bool)
    requires s.now < U64 && t in s.tasks && e in s.execs && Mine(s, t) == {e} && t !in s.txs
    ensures Shape(s, AfterBegin(s, t, p, e, ok), ReachTx(s, t, {}, t))
  {
    TxShape(s, AfterBegin(s, t, p, e, ok), t, {}, t);
  }

  lemma BeginExecOk(s: Sys, t: Id, p: Id, e: Id, ok: bool)
    requires t in s.tasks && s.tasks[t] == Got(p, e, Open) && e in s.execs && s.execs[e].connected
    requires TaskOk(s, t) && ExecOk(s, e) && (s.execs[e].openTx.Some? ==> s.execs[e].openTx.value in s.refused)
    ensures Grows(s, AfterBegin(s, t, p, e, ok)) ==> ExecOk(AfterBegin(s, t, p, e, ok), e)
  {
    if Grows(s, AfterBegin(s, t, p, e, ok)) {
      ExecAppended(s, AfterBegin(s, t, p, e, ok), e);
    }
  }

  lemma BeginTxOk(s: Sys, t: Id, p: Id, e: Id, ok: bool)
    requires t in s.tasks && t < s.next && e in s.execs
    ensures TxOk(AfterBegin(s, t, p, e, ok), t)
  {
  }

  lemma BeginObjectsOk(s: Sys, t: Id, p: Id, e: Id, ok: bool)
    requires Inv(s) && t in s.tasks && s.tasks[t] == Got(p, e, Open) && e in s.execs && s.execs[e].connected
    ensures Grows(s, AfterBegin(s, t, p, e, ok)) ==>
              ExecOk(AfterBegin(s, t, p, e, ok), e) && TxOk(AfterBegin(s, t, p, e, ok), t)
  {
    FreshlyGot(s, t);
    assert TaskOk(s, t) && ExecOk(s, e);
    BeginExecOk(s, t, p, e, ok);
    BeginTxOk(s, t, p, e, ok);
  }

  lemma BeginTaskOk(s: Sys, t: Id, p: Id, e: Id, ok: bool)
    requires Inv(s) && t in s.tasks && s.tasks[t] == Got(p, e, Open) && e in s.execs && s.execs[e].connected
    ensures TaskOk(AfterBegin(s, t, p, e, ok), t)
  {
    FreshlyGot(s, t);
    assert TaskOk(s, t);
  }

  lemma BeginTouched(s: Sys, t: Id, p: Id, e: Id, ok: bool)
    requires Inv(s) && t in s.tasks && s.tasks[t] == Got(p, e, Open) && e in s.execs && s.execs[e].connected
    requires Grows(s, AfterBegin(s, t, p, e, ok))
    ensures TouchedOk(AfterBegin(s, t, p, e, ok), ReachTx(s, t, {}, t))
  {
    FreshlyGot(s, t);
    BeginObjectsOk(s, t, p, e, ok);
    BeginTaskOk(s, t, p, e, ok);
    TouchedTxFour(AfterBegin(s, t, p, e, ok), t, e, {}, t);
  }

  lemma BeginKeeps(s: Sys, t: Id, p: Id, e: Id, ok: bool)
    requires Inv(s) && t in s.tasks && s.tasks[t] == Got(p, e, Open) && e in s.execs && s.execs[e].connected
    ensures Inv(AfterBegin(s, t, p, e, ok))
  {
    FreshlyGot(s, t);
    NotYetOpen(s, t);
    BeginShape(s, t, p, e, ok);
    BeginTouched(s, t, p, e, ok);
    ReachTxClosed(s, t, {}, t);
    ShapeKeeps(s, AfterBegin(s, t, p, e, ok), ReachTx(s, t, {}, t));
  }

  lemma NotYetOpen(s: Sys, t: Id)
    requires Inv(s) && t in s.tasks && (Opening(s.tasks[t]) || s.tasks[t].Began?)
    ensures t !in s.handles
    ensures Opening(s.tasks[t]) ==> t !in s.txs
    ensures s.tasks[t].Began? ==> t in s.txs && s.txs[t].holder == ByTask(t)
  {
    assert TaskOk(s, t);
  }

  // ---------- Began ----------

  function AfterOpened(s: Sys, t: Id, e: Id): Sys
    requires e in s.execs
  {
    Done(Handed(WithHandle(WithExec(s, e, s.execs[e].(owner := ByHandle(t))), t,
                           Handle(Started, Some(e), Some(t), None)), Some(t), ByHandle(t)), t)
  }

  lemma OpenedShape(s: Sys, t: Id, e: Id)
    requires s.now < U64 && t in s.tasks && e in s.execs && Mine(s, t) == {e} && t in s.txs
    ensures Shape(s, AfterOpened(s, t, e), ReachTx(s, t, {t}, t))
  {
    TxShape(s, AfterOpened(s, t, e), t, {t}, t);
  }

  lemma OpenedExecOk(s: Sys, t: Id, p: Id, e: Id)
    requires Inv(s) && t in s.tasks && s.tasks[t] == Began(p, e, true) && e in s.execs
    requires Grows(s, AfterOpened(s, t, e))
    ensures ExecOk(AfterOpened(s, t, e), e)
  {
    FreshlyGot(s, t);
    assert ExecOk(s, e);
    ExecRevised(s, AfterOpened(s, t, e), e);
  }

  lemma OpenedHandleOk(s: Sys, t: Id, p: Id, e: Id)
    requires t in s.tasks && s.tasks[t] == Began(p, e, true) && e in s.execs && TaskOk(s, t) && TxOk(s, t)
    ensures HandleOk(AfterOpened(s, t, e), t)
  {
  }

  lemma OpenedTxOk(s: Sys, t: Id, e: Id)
    requires t in s.tasks && e in s.execs && t in s.txs && TxOk(s, t)
    ensures Grows(s, AfterOpened(s, t, e)) ==> TxOk(AfterOpened(s, t, e), t)
  {
    if Grows(s, AfterOpened(s, t, e)) {
      TxKeeps(s, AfterOpened(s, t, e), t);
    }
  }

  lemma OpenedTouched(s: Sys, t: Id, p: Id, e: Id)
    requires Inv(s) && t in s.tasks && s.tasks[t] == Began(p, e, true) && e in s.execs
    requires Grows(s, AfterOpened(s, t, e))
    ensures TouchedOk(AfterOpened(s, t, e), ReachTx(s, t, {t}, t))
  {
    FreshlyGot(s, t);
    OpenedExecOk(s, t, p, e);
    assert TaskOk(s, t) && TxOk(s, t);
    OpenedHandleOk(s, t, p, e);
    OpenedTxOk(s, t, e);
    TouchedTxFour(AfterOpened(s, t, e), t, e, {t}, t);
  }

  lemma OpenedKeeps(s: Sys, t: Id, p: Id, e: Id)
    requires Inv(s) && t in s.tasks && s.tasks[t] == Began(p, e, true) && e in s.execs
    ensures Inv(AfterOpened(s, t, e))
  {
    FreshlyGot(s, t);
    NotYetOpen(s, t);
    OpenedShape(s, t, e);
    OpenedTouched(s, t, p, e);
    ReachTxClosed(s, t, {t}, t);
    ShapeKeeps(s, AfterOpened(s, t, e), ReachTx(s, t, {t}, t));
  }

  function AfterFailed(s: Sys, t: Id, e: Id): Sys
    requires e in s.execs
  {
    Done(Handed(WithExec(s, e, LetGo(s.execs[e])), Some(t), Dropped), t)
  }

  lemma FailedShape(s: Sys, t: Id, e: Id)
    requires s.now < U64 && t in s.tasks && e in s.execs && Mine(s, t) == {e} && t in s.txs
    ensures Shape(s, AfterFailed(s, t, e), ReachTx(s, t, {}, t))
  {
    TxShape(s, AfterFailed(s, t, e), t, {}, t);
  }

  lemma FailedObjectsOk(s: Sys, t: Id, p: Id, e: Id, ok: bool)
    requires Inv(s) && t in s.tasks && s.tasks[t] == Began(p, e, ok) && e in s.execs
    requires Grows(s, AfterFailed(s, t, e))
    ensures ExecOk(AfterFailed(s, t, e), e)
    ensures t in AfterFailed(s, t, e).txs && TxOk(AfterFailed(s, t, e), t)
  {
    FreshlyGot(s, t);
    NotYetOpen(s, t);
    assert TxOk(s, t) && ExecOk(s, e);
    ExecRevised(s, AfterFailed(s, t, e), e);
    TxKeeps(s, AfterFailed(s, t, e), t);
  }

  lemma FailedTouched(s: Sys, t: Id, p: Id, e: Id, ok: bool)
    requires Inv(s) && t in s.tasks && s.tasks[t] == Began(p, e, ok) && e in s.execs
    requires Grows(s, AfterFailed(s, t, e))
    ensures TouchedOk(AfterFailed(s, t, e), ReachTx(s, t, {}, t))
  {
    FreshlyGot(s, t);
    FailedObjectsOk(s, t, p, e, ok);
    TouchedTxFour(AfterFailed(s, t, e), t, e, {}, t);
  }

  lemma FailedKeeps(s: Sys, t: Id, p: Id, e: Id, ok: bool)
    requires Inv(s) && t in s.tasks && s.tasks[t] == Began(p, e, ok) && e in s.execs
    ensures Inv(AfterFailed(s, t, e))
  {
    FreshlyGot(s, t);
    NotYetOpen(s, t);
    FailedShape(s, t, e);
    FailedTouched(s, t, p, e, ok);
    ReachTxClosed(s, t, {}, t);
    ShapeKeeps(s, AfterFailed(s, t, e), ReachTx(s, t, {}, t));
  }
}
