/**
  GetOrCreate run by one thread without interruption: the step system then computes exactly what
  the sequential pool (module ExecutorPool) is specified to do.
 */
module PoolSequential {
  import opened Options
  import opened PoolRules
  import opened Endpoint
  import opened HandleState
  import opened Protocol
  import opened ProtocolInvariant
  import opened ProtocolPoolSteps
  import opened ProtocolRuns
  import opened ProtocolEffects
  import opened PoolTheorems

  // The next ping is answered by pings[0]; a new connection is dialled with success or not.
  function NextEnv(pings: seq<bool>, dial: bool): Env {
    Env(if pings == [] then true else pings[0], dial, Steady, true, false, true)
  }

  // Thread t takes one step after the other until GetOrCreate returns, or a step cannot be taken.
  function Alone(s: Sys, t: Id, pings: seq<bool>, dial: bool): Sys
    decreases if t in s.tasks then StepsLeft(s.tasks[t]) else 0
  {
    var a := Step(t, NextEnv(pings, dial));
    if t !in s.tasks || s.tasks[t].Got? || !Enabled(s, a) then s
    else
      StepAdvances(s, t, NextEnv(pings, dial));
      Alone(Apply(s, a), t, if s.tasks[t].Scan? && pings != [] then pings[1..] else pings, dial)
  }

  // ---------- the sequential specification ----------

  predicate Usable(s: Sys, e: Id, ping: bool) {
    e in s.execs && s.execs[e].connected && ping
    && (s.cfg.maxIdleTime == 0 || (s.now - s.execs[e].aliveTime) % U64 < s.cfg.maxIdleTime)
  }

  // How many of the last |pings| executors of list come before the first usable one.
  function Discarded(s: Sys, list: seq<Id>, pings: seq<bool>): (d: nat)
    ensures d <= |pings| && d <= |list|
  {
    if pings == [] || list == [] || Usable(s, list[|list| - 1], pings[0]) then 0
    else 1 + Discarded(s, list[..|list| - 1], pings[1..])
  }

  /** Discarded is the depth of the first usable executor from the back. */
  lemma {:induction false} FirstUsable(s: Sys, list: seq<Id>, pings: seq<bool>, m: nat)
    requires m < |pings| && m < |list|
    ensures m < Discarded(s, list, pings) ==> !Usable(s, list[|list| - 1 - m], pings[m])
    ensures m == Discarded(s, list, pings) ==> Usable(s, list[|list| - 1 - m], pings[m])
  {
    if m > 0 && !Usable(s, list[|list| - 1], pings[0]) {
      FirstUsable(s, list[..|list| - 1], pings[1..], m - 1);
    }
  }

  function ShardOf(s: Sys, pc: Pc): seq<Id>
    requires pc.Scan? && PoolRefs(s, pc.pool)
  {
    s.pools[pc.pool].shards[pc.sid % s.cfg.numShardGroup]
  }

  // The pool with the last n executors of the scanned shard gone.
  function Shortened(s: Sys, pc: Pc, n: nat): Pool
    requires pc.Scan? && PoolRefs(s, pc.pool) && n <= |ShardOf(s, pc)|
  {
    var q, list := s.pools[pc.pool], ShardOf(s, pc);
    q.(shards := q.shards[pc.sid % s.cfg.numShardGroup := list[..|list| - n]])
  }

  // The usable executor at depth d was taken.
  predicate TookIdle(s: Sys, s': Sys, t: Id, pc: Pc, d: nat)
    requires pc.Scan? && PoolRefs(s, pc.pool) && d < |ShardOf(s, pc)|
  {
    var list := ShardOf(s, pc);
    var e := list[|list| - 1 - d];
    t in s'.tasks && s'.tasks[t] == Got(pc.pool, e, pc.job)
    && e in s.execs && e in s'.execs && s'.execs[e] == s.execs[e].(owner := ByTask(t))
    && s'.pools == s.pools[pc.pool := Shortened(s, pc, d + 1)] && s'.next == s.next
  }

  // A new executor was made after d were discarded.
  predicate MadeNew(s: Sys, s': Sys, t: Id, pc: Pc, d: nat, dial: bool)
    requires pc.Scan? && PoolRefs(s, pc.pool) && d <= |ShardOf(s, pc)|
  {
    var e, q := s.next, Shortened(s, pc, d);
    t in s'.tasks && s'.tasks[t] == Got(pc.pool, e, pc.job)
    && e in s'.execs && s'.execs[e].connected == dial && s'.execs[e].pool == pc.pool
    && s'.execs[e].eid == PackId(pc.sid, q.made % U32)
    && s'.pools == s.pools[pc.pool := q.(made := q.made + 1, incs := q.incs + if dial then 1 else 0)]
  }

  // What became of every executor there was: the discarded ones are closed, the others untouched.
  predicate ClosedLast(s: Sys, s': Sys, list: seq<Id>, d: nat, taken: set<Id>)
    requires d <= |list|
  {
    forall e :: e in s.execs && e !in taken ==>
      e in s'.execs
      && (if e in list[|list| - d..] then !s'.execs[e].connected && s'.execs[e].owner == Closed
          else s'.execs[e] == s.execs[e])
  }

  // The call looked at up to n executors and discarded d.
  predicate Outcome(s: Sys, s': Sys, t: Id, pc: Pc, n: nat, d: nat, dial: bool)
    requires pc.Scan? && PoolRefs(s, pc.pool) && d <= |ShardOf(s, pc)|
  {
    var list := ShardOf(s, pc);
    if d < n && d < |list|
    then TookIdle(s, s', t, pc, d) && ClosedLast(s, s', list, d, {list[|list| - 1 - d]})
    else MadeNew(s, s', t, pc, d, dial) && ClosedLast(s, s', list, d, {})
  }

  predicate AsSpecified(s: Sys, s': Sys, t: Id, pc: Pc, pings: seq<bool>, dial: bool)
    requires pc.Scan? && PoolRefs(s, pc.pool)
  {
    Outcome(s, s', t, pc, |pings|, Discarded(s, ShardOf(s, pc), pings), dial)
  }

  // ---------- the steps ----------

  predicate AtScan(s: Sys, t: Id, pc: Pc) {
    t in s.tasks && s.tasks[t] == pc && pc.Scan? && PoolRefs(s, pc.pool)
    && s.pools[pc.pool].locks[pc.sid % s.cfg.numShardGroup] == None
  }

  lemma ScanRuns(s: Sys, t: Id, pc: Pc, pings: seq<bool>, dial: bool)
    requires Inv(s) && AtScan(s, t, pc) && pings != []
    ensures Refs(s, pc)
    ensures Alone(s, t, pings, dial) == Alone(StepScan(s, t, pc, pings[0]), t, pings[1..], dial)
    ensures Inv(StepScan(s, t, pc, pings[0]))
  {
    RefsHold(s, t);
    var a := Step(t, NextEnv(pings, dial));
    assert Enabled(s, a) && Apply(s, a) == StepScan(s, t, pc, pings[0]);
    ActionKeeps(s, a);
  }

  lemma DiscardRuns(s: Sys, t: Id, pc: Pc, pings: seq<bool>, dial: bool)
    requires Inv(s) && t in s.tasks && s.tasks[t] == pc && pc.Discard?
    ensures Refs(s, pc)
    ensures Alone(s, t, pings, dial) == Alone(StepDiscard(s, t, pc), t, pings, dial)
    ensures Inv(StepDiscard(s, t, pc))
  {
    RefsHold(s, t);
    var a := Step(t, NextEnv(pings, dial));
    assert Enabled(s, a) && Apply(s, a) == StepDiscard(s, t, pc);
    ActionKeeps(s, a);
  }

  lemma MakeRuns(s: Sys, t: Id, p: Id, sid: nat, job: Job, pings: seq<bool>, dial: bool)
    requires Inv(s) && t in s.tasks && s.tasks[t] == Make(p, sid, job)
    ensures PoolRefs(s, p)
    ensures Alone(s, t, pings, dial) == Alone(StepMake(s, t, p, sid, job), t, pings, dial)
    ensures Inv(StepMake(s, t, p, sid, job))
  {
    RefsHold(s, t);
    var a := Step(t, NextEnv(pings, dial));
    assert Enabled(s, a) && Apply(s, a) == StepMake(s, t, p, sid, job);
    ActionKeeps(s, a);
  }

  lemma DialRuns(s: Sys, t: Id, p: Id, e: Id, job: Job, pings: seq<bool>, dial: bool)
    requires Inv(s) && t in s.tasks && s.tasks[t] == Dial(p, e, job)
    ensures e in s.execs
    ensures Alone(s, t, pings, dial) == Alone(StepDial(s, t, p, e, job, dial), t, pings, dial)
    ensures Inv(StepDial(s, t, p, e, job, dial))
  {
    RefsHold(s, t);
    var a := Step(t, NextEnv(pings, dial));
    assert Enabled(s, a) && Apply(s, a) == StepDial(s, t, p, e, job, dial);
    ActionKeeps(s, a);
  }

  lemma CountRuns(s: Sys, t: Id, p: Id, e: Id, job: Job, pings: seq<bool>, dial: bool)
    requires Inv(s) && t in s.tasks && s.tasks[t] == Count(p, e, job)
    ensures PoolRefs(s, p) && e in s.execs
    ensures Alone(s, t, pings, dial) == StepCount(s, t, p, e, job)
  {
    RefsHold(s, t);
    var a := Step(t, NextEnv(pings, dial));
    assert Enabled(s, a) && Apply(s, a) == StepCount(s, t, p, e, job);
  }

  // From Make to the return.
  function AfterMake(s: Sys, t: Id, p: Id, sid: nat, job: Job, dial: bool): Sys
    requires PoolRefs(s, p)
  {
    var s2 := StepDial(StepMake(s, t, p, sid, job), t, p, s.next, job, dial);
    if dial then StepCount(s2, t, p, s.next, job) else s2
  }

  lemma MakesOne(s: Sys, t: Id, p: Id, sid: nat, job: Job, pings: seq<bool>, dial: bool)
    requires Inv(s) && t in s.tasks && s.tasks[t] == Make(p, sid, job)
    ensures PoolRefs(s, p)
    ensures Alone(s, t, pings, dial) == AfterMake(s, t, p, sid, job, dial)
  {
    MakeRuns(s, t, p, sid, job, pings, dial);
    var s1 := StepMake(s, t, p, sid, job);
    DialRuns(s1, t, p, s.next, job, pings, dial);
    if dial {
      CountRuns(StepDial(s1, t, p, s.next, job, dial), t, p, s.next, job, pings, dial);
    }
  }

  // One new executor, counted if it connects.
  lemma MakeEffect(s: Sys, t: Id, p: Id, sid: nat, job: Job, dial: bool)
    requires PoolRefs(s, p) && s.next !in s.execs
    ensures var s', q, e := AfterMake(s, t, p, sid, job, dial), s.pools[p], s.next;
            t in s'.tasks && s'.tasks[t] == Got(p, e, job)
            && e in s'.execs && s'.execs[e].connected == dial && s'.execs[e].pool == p
            && s'.execs[e].eid == PackId(sid, q.made % U32)
            && s'.pools == s.pools[p := q.(made := q.made + 1, incs := q.incs + if dial then 1 else 0)]
            && (forall x :: x in s.execs ==> x in s'.execs && s'.execs[x] == s.execs[x])
  {
  }

  // ---------- the induction ----------

  // The scan and the discarding of an unusable executor, together.
  function AfterDiscard(s: Sys, t: Id, pc: Pc, ping: bool): Sys
    requires AtScan(s, t, pc) && Refs(s, pc) && ShardOf(s, pc) != [] && pc.retry > 0
    requires !Usable(s, Back(s, pc), ping)
  {
    StepDiscard(StepScan(s, t, pc, ping), t, Discard(pc.pool, pc.sid, pc.retry, Back(s, pc), pc.job))
  }

  lemma DiscardsOne(s: Sys, t: Id, pc: Pc, pings: seq<bool>, dial: bool)
    requires Inv(s) && AtScan(s, t, pc) && pings != [] && pc.retry == |pings|
    requires ShardOf(s, pc) != [] && !Usable(s, Back(s, pc), pings[0])
    ensures Refs(s, pc)
    ensures var s' := AfterDiscard(s, t, pc, pings[0]);
            Alone(s, t, pings, dial) == Alone(s', t, pings[1..], dial) && Inv(s')
  {
    ScanRuns(s, t, pc, pings, dial);
    var s1 := StepScan(s, t, pc, pings[0]);
    DiscardRuns(s1, t, s1.tasks[t], pings[1..], dial);
  }

  lemma DiscardEffect(s: Sys, t: Id, pc: Pc, ping: bool)
    requires Inv(s) && AtScan(s, t, pc) && Refs(s, pc) && ShardOf(s, pc) != [] && pc.retry > 0
    requires !Usable(s, Back(s, pc), ping)
    ensures var s' := AfterDiscard(s, t, pc, ping);
            t in s'.tasks && s'.cfg == s.cfg && s'.now == s.now && s'.next == s.next
            && s'.pools == s.pools[pc.pool := Shortened(s, pc, 1)]
            && s'.tasks[t] == (if pc.retry == 1 then Make(pc.pool, pc.sid, pc.job)
                               else Scan(pc.pool, pc.sid, pc.retry - 1, pc.job))
            && ClosedLast(s, s', ShardOf(s, pc), 1, {})
  {
    var list := ShardOf(s, pc);
    assert list[|list| - 1..] == [Back(s, pc)];
  }

  // Executors further front are not affected by what happens to the back.
  lemma {:induction false} DiscardedSame(s: Sys, s': Sys, list: seq<Id>, pings: seq<bool>)
    requires s'.cfg == s.cfg && s'.now == s.now
    requires forall e :: e in list ==> e in s.execs && e in s'.execs && s'.execs[e] == s.execs[e]
    ensures Discarded(s', list, pings) == Discarded(s, list, pings)
  {
    if pings != [] && list != [] && !Usable(s, list[|list| - 1], pings[0]) {
      DiscardedSame(s, s', list[..|list| - 1], pings[1..]);
    }
  }

  // The executors of list exist, and the back one is in no other position.
  predicate BackOnce(s: Sys, list: seq<Id>) {
    list != [] && (forall e :: e in list ==> e in s.execs) && list[|list| - 1] !in list[..|list| - 1]
  }

  lemma ShardDistinct(s: Sys, t: Id, pc: Pc)
    requires Inv(s) && AtScan(s, t, pc)
    ensures ShardOf(s, pc) != [] ==> BackOnce(s, ShardOf(s, pc))
  {
    var k := pc.sid % s.cfg.numShardGroup;
    assert PoolOk(s, pc.pool);
    assert ShardOk(s, pc.pool, k);
    var list := ShardOf(s, pc);
    forall e | e in list
      ensures e in s.execs
    {
      var i :| 0 <= i < |list| && list[i] == e;
      assert Pooled(s, pc.pool, k, list[i]);
    }
  }

  lemma ShortenedNone(s: Sys, pc: Pc)
    requires pc.Scan? && PoolRefs(s, pc.pool)
    ensures Shortened(s, pc, 0) == s.pools[pc.pool]
  {
    var q, list := s.pools[pc.pool], ShardOf(s, pc);
    assert list[..|list| - 0] == list;
  }

  lemma ShortenedMore(s: Sys, s1: Sys, pc: Pc, pc1: Pc, n: nat)
    requires pc.Scan? && pc1.Scan? && pc1.pool == pc.pool && pc1.sid == pc.sid && PoolRefs(s, pc.pool)
    requires ShardOf(s, pc) != [] && n < |ShardOf(s, pc)| && s1.cfg == s.cfg
    requires s1.pools == s.pools[pc.pool := Shortened(s, pc, 1)]
    ensures PoolRefs(s1, pc.pool) && ShardOf(s1, pc1) == ShardOf(s, pc)[..|ShardOf(s, pc)| - 1]
    ensures Shortened(s1, pc1, n) == Shortened(s, pc, n + 1)
  {
    var list := ShardOf(s, pc);
    assert list[..|list| - 1][..|list| - 1 - n] == list[..|list| - (n + 1)];
  }

  lemma ClosedMore(s: Sys, s1: Sys, s': Sys, list: seq<Id>, d: nat, taken: set<Id>)
    requires BackOnce(s, list) && d < |list| && list[|list| - 1] !in taken
    ensures ClosedLast(s, s1, list, 1, {}) && ClosedLast(s1, s', list[..|list| - 1], d, taken)
            ==> ClosedLast(s, s', list, d + 1, taken)
  {
    var front := list[..|list| - 1];
    assert list[|list| - (d + 1)..] == front[|front| - d..] + [list[|list| - 1]];
    assert list[|list| - 1..] == [list[|list| - 1]];
  }

  // The shard is empty: nothing is discarded.
  lemma EmptySpecified(s: Sys, t: Id, pc: Pc, pings: seq<bool>, dial: bool)
    requires Inv(s) && AtScan(s, t, pc) && Refs(s, pc) && ShardOf(s, pc) == [] && pings != []
    ensures AsSpecified(s, AfterMake(At(s, t, Make(pc.pool, pc.sid, pc.job)), t, pc.pool, pc.sid, pc.job, dial),
                        t, pc, pings, dial)
  {
    NextUnused(s);
    ShortenedNone(s, pc);
    MakeEffect(At(s, t, Make(pc.pool, pc.sid, pc.job)), t, pc.pool, pc.sid, pc.job, dial);
  }

  // The back executor is usable.
  lemma IdleSpecified(s: Sys, t: Id, pc: Pc, pings: seq<bool>, dial: bool)
    requires Inv(s) && AtScan(s, t, pc) && Refs(s, pc) && ShardOf(s, pc) != [] && pings != []
    requires Usable(s, Back(s, pc), pings[0])
    ensures AsSpecified(s, StepScan(s, t, pc, pings[0]), t, pc, pings, dial)
  {
  }

  // The back executor was the last one the call may discard.
  lemma LastSpecified(s: Sys, s1: Sys, t: Id, pc: Pc, pings: seq<bool>, dial: bool)
    requires AtScan(s, t, pc) && ShardOf(s, pc) != [] && |pings| == 1 && !Usable(s, Back(s, pc), pings[0])
    requires s1.cfg == s.cfg && s1.next == s.next && s.next !in s.execs && s1.next !in s1.execs
    requires s1.pools == s.pools[pc.pool := Shortened(s, pc, 1)] && PoolRefs(s1, pc.pool)
    requires ClosedLast(s, s1, ShardOf(s, pc), 1, {})
    ensures AsSpecified(s, AfterMake(s1, t, pc.pool, pc.sid, pc.job, dial), t, pc, pings, dial)
  {
    MakeEffect(s1, t, pc.pool, pc.sid, pc.job, dial);
    assert Discarded(s, ShardOf(s, pc), pings) == 1 + Discarded(s, ShardOf(s, pc)[..|ShardOf(s, pc)| - 1], []);
  }

  // s1 is s after the back of the scanned shard was discarded; pc1 is where the call goes on.
  predicate OneGone(s: Sys, s1: Sys, pc: Pc, pc1: Pc)
    requires pc.Scan? && PoolRefs(s, pc.pool)
  {
    ShardOf(s, pc) != []
    && pc1.Scan? && pc1.pool == pc.pool && pc1.sid == pc.sid && pc1.job == pc.job
    && s1.cfg == s.cfg && s1.now == s.now && s1.next == s.next
    && s1.pools == s.pools[pc.pool := Shortened(s, pc, 1)]
  }

  lemma MadeMore(s: Sys, s1: Sys, s': Sys, t: Id, pc: Pc, pc1: Pc, d: nat, dial: bool)
    requires pc.Scan? && PoolRefs(s, pc.pool) && OneGone(s, s1, pc, pc1) && d < |ShardOf(s, pc)|
    ensures PoolRefs(s1, pc.pool) && d <= |ShardOf(s1, pc1)|
    ensures MadeNew(s1, s', t, pc1, d, dial) ==> MadeNew(s, s', t, pc, d + 1, dial)
  {
    ShortenedMore(s, s1, pc, pc1, d);
  }

  lemma TookMore(s: Sys, s1: Sys, s': Sys, t: Id, pc: Pc, pc1: Pc, d: nat)
    requires pc.Scan? && PoolRefs(s, pc.pool) && OneGone(s, s1, pc, pc1) && d + 1 < |ShardOf(s, pc)|
    requires var e := ShardOf(s, pc)[|ShardOf(s, pc)| - 2 - d];
             e in s.execs && e in s1.execs && s1.execs[e] == s.execs[e]
    ensures PoolRefs(s1, pc.pool) && d < |ShardOf(s1, pc1)|
    ensures TookIdle(s1, s', t, pc1, d) ==> TookIdle(s, s', t, pc, d + 1)
  {
    ShortenedMore(s, s1, pc, pc1, d + 1);
  }

  // What the rest of the call does to the shortened shard, seen from before the discarding.
  lemma OutcomeMore(s: Sys, s1: Sys, s': Sys, t: Id, pc: Pc, pc1: Pc, n: nat, n': nat, d: nat, d': nat, dial: bool)
    requires n' == n + 1 && d' == d + 1
    requires AtScan(s, t, pc) && OneGone(s, s1, pc, pc1) && d < |ShardOf(s, pc)|
    ensures PoolRefs(s1, pc.pool) && d <= |ShardOf(s1, pc1)|
    ensures BackOnce(s, ShardOf(s, pc)) && ClosedLast(s, s1, ShardOf(s, pc), 1, {})
            && Outcome(s1, s', t, pc1, n, d, dial)
            ==> Outcome(s, s', t, pc, n', d', dial)
  {
    var list := ShardOf(s, pc);
    assert list[|list| - 1..] == [list[|list| - 1]];
    ShortenedMore(s, s1, pc, pc1, d);
    if !BackOnce(s, list) || !ClosedLast(s, s1, list, 1, {}) {
    } else if d < n && d + 1 < |list| {
      TookMore(s, s1, s', t, pc, pc1, d);
      ClosedMore(s, s1, s', list, d, {list[|list| - 2 - d]});
    } else {
      MadeMore(s, s1, s', t, pc, pc1, d, dial);
      ClosedMore(s, s1, s', list, d, {});
    }
  }

  lemma DiscardedMore(s: Sys, s1: Sys, list: seq<Id>, pings: seq<bool>)
    requires list != [] && pings != [] && !Usable(s, list[|list| - 1], pings[0])
    requires s1.cfg == s.cfg && s1.now == s.now && ClosedLast(s, s1, list, 1, {})
    requires BackOnce(s, list)
    ensures Discarded(s, list, pings) == 1 + Discarded(s1, list[..|list| - 1], pings[1..])
  {
    assert list[|list| - 1..] == [list[|list| - 1]];
    DiscardedSame(s, s1, list[..|list| - 1], pings[1..]);
  }

  lemma SpecifiedAfterDiscard(s: Sys, s1: Sys, s': Sys, t: Id, pc: Pc, pc1: Pc, pings: seq<bool>, dial: bool)
    requires AtScan(s, t, pc) && OneGone(s, s1, pc, pc1) && pings != [] && !Usable(s, Back(s, pc), pings[0])
    requires BackOnce(s, ShardOf(s, pc))
    requires ClosedLast(s, s1, ShardOf(s, pc), 1, {})
    ensures PoolRefs(s1, pc.pool)
    ensures AsSpecified(s1, s', t, pc1, pings[1..], dial) ==> AsSpecified(s, s', t, pc, pings, dial)
  {
    ShortenedMore(s, s1, pc, pc1, 0);
    DiscardedMore(s, s1, ShardOf(s, pc), pings);
    OutcomeMore(s, s1, s', t, pc, pc1, |pings[1..]|, |pings|,
                Discarded(s1, ShardOf(s1, pc1), pings[1..]), Discarded(s, ShardOf(s, pc), pings), dial);
  }

  /** A thread that runs GetOrCreate alone from its scan to its return gets the executor at the depth
      of the first usable one from the back of its shard, those behind it are closed and gone; or, if
      three were discarded or the shard ran out, a new executor that is counted if it connected. Every
      other executor, shard and pool is as before. */
  lemma {:induction false} AloneAsSpecified(s: Sys, t: Id, pc: Pc, pings: seq<bool>, dial: bool)
    requires Inv(s) && AtScan(s, t, pc) && pc.retry == |pings| > 0
    ensures AsSpecified(s, Alone(s, t, pings, dial), t, pc, pings, dial)
    decreases |pings|, 1
  {
    if ShardOf(s, pc) == [] {
      ScanRuns(s, t, pc, pings, dial);
      MakesOne(StepScan(s, t, pc, pings[0]), t, pc.pool, pc.sid, pc.job, pings[1..], dial);
      EmptySpecified(s, t, pc, pings, dial);
    } else if Usable(s, Back(s, pc), pings[0]) {
      ScanRuns(s, t, pc, pings, dial);
      IdleSpecified(s, t, pc, pings, dial);
    } else {
      UnusableAsSpecified(s, t, pc, pings, dial);
    }
  }

  lemma {:induction false} UnusableAsSpecified(s: Sys, t: Id, pc: Pc, pings: seq<bool>, dial: bool)
    requires Inv(s) && AtScan(s, t, pc) && pc.retry == |pings| > 0
    requires ShardOf(s, pc) != [] && !Usable(s, Back(s, pc), pings[0])
    ensures AsSpecified(s, Alone(s, t, pings, dial), t, pc, pings, dial)
    decreases |pings|, 0
  {
    DiscardsOne(s, t, pc, pings, dial);
    DiscardEffect(s, t, pc, pings[0]);
    var s1 := AfterDiscard(s, t, pc, pings[0]);
    if pc.retry == 1 {
      MakesOne(s1, t, pc.pool, pc.sid, pc.job, pings[1..], dial);
      NextUnused(s);
      NextUnused(s1);
      LastSpecified(s, s1, t, pc, pings, dial);
    } else {
      ShardDistinct(s, t, pc);
      AloneAsSpecified(s1, t, s1.tasks[t], pings[1..], dial);
      SpecifiedAfterDiscard(s, s1, Alone(s1, t, pings[1..], dial), t, pc, s1.tasks[t], pings, dial);
    }
  }

  predicate AtTicket(s: Sys, t: Id, p: Id, job: Job) {
    t in s.tasks && s.tasks[t] == Ticket(p, job) && PoolRefs(s, p)
  }

  lemma TicketRuns(s: Sys, t: Id, p: Id, job: Job, pings: seq<bool>, dial: bool)
    requires Inv(s) && AtTicket(s, t, p, job)
    ensures Refs(s, Ticket(p, job)) && Inv(StepTicket(s, t, p, job))
    ensures Alone(s, t, pings, dial) == Alone(StepTicket(s, t, p, job), t, pings, dial)
  {
    RefsHold(s, t);
    var a := Step(t, NextEnv(pings, dial));
    assert Enabled(s, a) && Apply(s, a) == StepTicket(s, t, p, job);
    ActionKeeps(s, a);
  }

  function Drawn(s: Sys, t: Id, p: Id, job: Job): Sys
    requires PoolRefs(s, p)
  {
    var q := s.pools[p];
    At(WithPool(s, p, q.(tickets := q.tickets + 1)), t, Scan(p, q.tickets % U32, 3, job))
  }

  lemma DrawnAtScan(s: Sys, t: Id, p: Id, job: Job)
    requires AtTicket(s, t, p, job) && s.pools[p].locks[s.pools[p].tickets % U32 % s.cfg.numShardGroup] == None
    ensures Drawn(s, t, p, job) == StepTicket(s, t, p, job)
    ensures AtScan(Drawn(s, t, p, job), t, Scan(p, s.pools[p].tickets % U32, 3, job))
  {
  }

  /** From its ticket on, a thread alone looks at up to three executors of the shard the ticket leads to. */
  lemma ThreeLooks(s: Sys, t: Id, p: Id, job: Job, pings: seq<bool>, dial: bool)
    requires Inv(s) && AtTicket(s, t, p, job) && |pings| == 3
    requires s.pools[p].locks[s.pools[p].tickets % U32 % s.cfg.numShardGroup] == None
    ensures PoolRefs(Drawn(s, t, p, job), p)
    ensures AsSpecified(Drawn(s, t, p, job), Alone(s, t, pings, dial),
                        t, Scan(p, s.pools[p].tickets % U32, 3, job), pings, dial)
  {
    DrawnAtScan(s, t, p, job);
    TicketRuns(s, t, p, job, pings, dial);
    AloneAsSpecified(Drawn(s, t, p, job), t, Scan(p, s.pools[p].tickets % U32, 3, job), pings, dial);
  }
}
