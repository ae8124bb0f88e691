/** Runs that show the cases of LostExecutors and TransactionEndings to occur: one thread opens a
    transaction in a fresh system whose pool keeps one executor. */
module ExampleRuns {
  import opened Options
  import opened PoolRules
  import opened Endpoint
  import opened HandleState
  import opened Protocol
  import opened ProtocolInvariant
  import opened PoolReturns
  import opened PoolTheorems
  import opened TransactionTheorems
  import opened TransactionEndings
  import opened LostExecutors

  const SMALL: PoolOption := PoolOption(1, 0, 1)

  // Task 0 is at pc, in the empty pool 1.
  ghost predicate InPool(s: Sys, pc: Pc) {
    Reachable(s) && s.cfg == SMALL && s.next == 2 && 0 in s.tasks && s.tasks[0] == pc
    && 1 in s.pools && s.pools[1].shards == [[]] && s.pools[1].locks == [None]
    && s.pools[1].incs == 0 && s.pools[1].made == 0 && s.execs == map[]
  }

  // Task 0 is at pc, with executor 2 of pool 1.
  ghost predicate WithExecutor(s: Sys, pc: Pc, incs: nat) {
    Reachable(s) && s.cfg == SMALL && 0 in s.tasks && s.tasks[0] == pc
    && 1 in s.pools && s.pools[1].shards == [[]] && s.pools[1].locks == [None] && s.pools[1].incs == incs
    && 2 in s.execs && s.execs[2].pool == 1
  }

  lemma FirstInsert(addr: NodeAddr) returns (s: Sys)
    ensures Reachable(s) && s.cfg == SMALL && s.next == 2 && 0 in s.tasks && s.tasks[0] == Insert(addr, 1, Open)
    ensures s.registry == map[] && s.execs == map[] && s.pools == map[1 := NewPool(SMALL, addr, 0)]
  {
    var s0 := Sys(SMALL, 0, 0, map[], map[], map[], map[], map[], map[], {});
    var acts: seq<Action> := [];
    assert Run([s0], acts) && [s0][|acts|] == s0;
    ReachableStep(s0, StartBegin(addr));
    var s1 := Apply(s0, StartBegin(addr));
    ReachableStep(s1, Step(0, FINE));
    s := Apply(s1, Step(0, FINE));
  }

  lemma FirstPool(addr: NodeAddr) returns (s: Sys)
    ensures InPool(s, Ticket(1, Open))
  {
    var s1 := FirstInsert(addr);
    s := StepInsert(s1, 0, addr, 1, Open);
    assert Enabled(s1, Step(0, FINE)) && s == Apply(s1, Step(0, FINE));
    ReachableStep(s1, Step(0, FINE));
  }

  lemma FirstMake(addr: NodeAddr) returns (s: Sys, sid: nat)
    ensures InPool(s, Make(1, sid, Open))
  {
    var s1 := FirstPool(addr);
    ReachableStep(s1, Step(0, FINE));
    var s2 := Apply(s1, Step(0, FINE));
    sid := s2.tasks[0].sid;
    assert InPool(s2, Scan(1, sid, RETRY_NUM, Open));
    ReachableStep(s2, Step(0, FINE));
    s := Apply(s2, Step(0, FINE));
  }

  lemma FirstDialled(addr: NodeAddr) returns (s: Sys)
    ensures WithExecutor(s, Count(1, 2, Open), 0) && s.execs[2].connected
  {
    var s1, sid := FirstMake(addr);
    ReachableStep(s1, Step(0, FINE));
    var s2 := Apply(s1, Step(0, FINE));
    assert WithExecutor(s2, Dial(1, 2, Open), 0);
    ReachableStep(s2, Step(0, FINE));
    s := Apply(s2, Step(0, FINE));
  }

  lemma FirstGot(addr: NodeAddr) returns (s: Sys)
    ensures WithExecutor(s, Got(1, 2, Open), 1) && s.execs[2].connected
  {
    var s1 := FirstDialled(addr);
    ReachableStep(s1, Step(0, FINE));
    s := Apply(s1, Step(0, FINE));
  }

  lemma FirstBegun(addr: NodeAddr) returns (s: Sys)
    ensures WithExecutor(s, Began(1, 2, true), 1) && s.execs[2].connected && s.execs[2].openTx == Some(0)
  {
    var s1 := FirstGot(addr);
    ReachableStep(s1, Step(0, FINE));
    s := Apply(s1, Step(0, FINE));
  }

  /** A started handle with an open transaction, a live connection and room in its shard is reachable. */
  lemma FirstHandle(addr: NodeAddr) returns (s: Sys)
    ensures Reachable(s) && Idle(s, 0) && s.handles[0] == Handle(Started, Some(2), Some(0), None)
    ensures 2 in s.execs && s.execs[2].pool == 1 && s.execs[2].connected && s.execs[2].openTx == Some(0)
    ensures RoomFor(s, 2, 1) && Unlocked(s, 2, 1)
  {
    var s1 := FirstBegun(addr);
    ReachableStep(s1, Step(0, FINE));
    s := Apply(s1, Step(0, FINE));
  }

  /** For both endings and every gate that stops the call, some run ends with an open transaction in the pool. */
  lemma RefusalOccurs(addr: NodeAddr, rollback: bool, gate: Gate) returns (s: Sys)
    requires gate.Rejected? || (gate.late && gate.ping)
    ensures Reachable(s) && 2 in s.execs && s.execs[2].owner.InShard? && s.execs[2].openTx == Some(0)
    ensures 0 in s.handles && s.handles[0].state == if rollback then RolledBack else Committed
  {
    var s1 := FirstHandle(addr);
    s := RefusedEndPoolsOpenTransaction(s1, 0, rollback, gate, 2, 0, 1);
  }

  /** For both endings, some run ends with a reported success of an ending outside its transaction. */
  lemma EscapeOccurs(addr: NodeAddr, ok: bool, rollback: bool) returns (s: Sys, t: Id)
    ensures Reachable(s) && t in s.tasks && s.tasks[t] == Return(0, rollback, true)
    ensures 2 in s.execs && s.execs[2].log != []
    ensures var last := s.execs[2].log[|s.execs[2].log| - 1];
            last.stmt == (if rollback then Rollback else Commit) && last.ok && !last.inTx
  {
    var s1 := FirstHandle(addr);
    var a := StartUser(0, Checked(true, false));
    ReachableStep(s1, a);
    var s2 := Apply(s1, a);
    assert s2.tasks[s1.next] == Issue(0, 2, UserOp);
    t := s2.next;
    s := EscapedEndReportsSuccess(s2, s1.next, 0, 2, 1, ok, rollback);
  }

  lemma LossFollows(before: Sys, a: Action) returns (s: Sys)
    requires Reachable(before) && Enabled(before, a) && LetsGo(before, a, 2)
    ensures Reachable(s) && Unplaced(s, 2) && s.execs[2].connected
  {
    LetsGoIff(before, a, 2);
    ReachableStep(before, a);
    s := Apply(before, a);
  }

  // The ways to lose an executor.
  datatype Cause = BeginRefused | BeginFailed | ContextFailed | AssignedOver | AssignedToItself

  lemma LossByAssignment(addr: NodeAddr, itself: bool) returns (s: Sys)
    ensures Reachable(s) && Unplaced(s, 2) && s.execs[2].connected
  {
    var before := FirstHandle(addr);
    var src := 0;
    if !itself {
      ReachableHolds(before);
      assert HandleOk(before, 0);
      src := before.next;
      ReachableStep(before, NewHandle);
      before := Apply(before, NewHandle);
    }
    s := LossFollows(before, MoveAssign(0, src));
  }

  lemma LossByBegin(addr: NodeAddr, ok: bool) returns (s: Sys)
    ensures Reachable(s) && Unplaced(s, 2) && s.execs[2].connected
  {
    var got := FirstGot(addr);
    var sent := Step(0, FINE.(ok := ok));
    ReachableStep(got, sent);
    s := LossFollows(Apply(got, sent), Step(0, FINE.(contextOk := !ok)));
  }

  /** In each of these ways, some run leaves a connected executor without a place. */
  lemma LossOccurs(addr: NodeAddr, cause: Cause) returns (s: Sys)
    ensures Reachable(s) && Unplaced(s, 2) && s.execs[2].connected
  {
    match cause
    case BeginRefused =>
      var got := FirstGot(addr);
      s := LossFollows(got, Step(0, FINE.(refused := true)));
    case BeginFailed => s := LossByBegin(addr, false);
    case ContextFailed => s := LossByBegin(addr, true);
    case AssignedOver => s := LossByAssignment(addr, false);
    case AssignedToItself => s := LossByAssignment(addr, true);
  }
}
