/**
  Locality: a step that changes only what the acting task holds keeps the invariant of
  everything else.
 */
module ProtocolFrame {
  import opened Options
  import opened PoolRules
  import opened Endpoint
  import opened HandleState
  import opened Protocol
  import opened ProtocolInvariant

  // What no step ever takes back.
  ghost predicate Grows(s: Sys, s': Sys) {
    s'.cfg == s.cfg && s.now <= s'.now < U64 && s.next <= s'.next && s.refused <= s'.refused
    && (forall key :: key in s.registry ==> key in s'.registry && s'.registry[key] == s.registry[key])
    && (forall p :: p in s.pools ==>
          p in s'.pools && s'.pools[p].target == s.pools[p].target && s'.pools[p].key == s.pools[p].key
          && s'.pools[p].maker == s.pools[p].maker
          && s.pools[p].incs <= s'.pools[p].incs)
    && (forall e :: e in s.execs ==>
          e in s'.execs && s'.execs[e].pool == s.execs[e].pool && s'.execs[e].eid == s.execs[e].eid
          && s'.execs[e].addr == s.execs[e].addr && s.execs[e].log <= s'.execs[e].log)
    && (forall x :: x in s.txs ==>
          x in s'.txs && s'.txs[x].exec == s.txs[x].exec && s'.txs[x].first == s.txs[x].first
          && s.txs[x].last <= s'.txs[x].last)
  }

  // The objects a step may change.
  datatype Touched = Touched(tasks: set<Id>, execs: set<Id>, pools: set<Id>, handles: set<Id>, txs: set<Id>)

  // Nothing outside w changes.
  ghost predicate SameOutside(s: Sys, s': Sys, w: Touched) {
    (forall t :: t !in w.tasks ==> (t in s.tasks <==> t in s'.tasks) && (t in s.tasks ==> s'.tasks[t] == s.tasks[t]))
    && (forall e :: e !in w.execs ==> (e in s.execs <==> e in s'.execs) && (e in s.execs ==> s'.execs[e] == s.execs[e]))
    && (forall p :: p !in w.pools ==> (p in s.pools <==> p in s'.pools) && (p in s.pools ==> s'.pools[p] == s.pools[p]))
    && (forall h :: h !in w.handles ==>
          (h in s.handles <==> h in s'.handles) && (h in s.handles ==> s'.handles[h] == s.handles[h]))
    && (forall x :: x !in w.txs ==> (x in s.txs <==> x in s'.txs) && (x in s.txs ==> s'.txs[x] == s.txs[x]))
    && (forall key :: key in s'.registry && key !in s.registry ==> s'.registry[key] in w.pools)
  }

  predicate HeldIn(o: Owner, w: Touched) {
    match o
    case InShard(p, _) => p in w.pools
    case ByTask(t) => t in w.tasks
    case ByHandle(h) => h in w.handles
    case Closed => true
    case Dropped => true
  }

  // Everything in w is held by something in w, and whatever a member of w holds is in w.
  ghost predicate ClosedUnderHolding(s: Sys, w: Touched) {
    (forall e :: e in w.execs && e in s.execs ==> HeldIn(s.execs[e].owner, w))
    && (forall x :: x in w.txs && x in s.txs ==> HeldIn(s.txs[x].holder, w))
    && (forall x :: x in w.txs && x !in s.txs ==> x in w.tasks)
    && (forall h :: h in w.handles && h in s.handles && s.handles[h].busy.Some? ==> s.handles[h].busy.value in w.tasks)
    && (forall h :: h in w.handles && h !in s.handles ==> h in w.tasks || s.next <= h)
    && (forall t :: t in w.tasks && t in s.tasks ==>
          (Holds(s.tasks[t]).Some? ==> Holds(s.tasks[t]).value in w.execs)
          && (Uses(s.tasks[t]).Some? ==> Uses(s.tasks[t]).value in w.handles)
          && (s.tasks[t].Insert? ==> s.tasks[t].own in w.pools)
          && (s.tasks[t].Load? || s.tasks[t].Push? ==> s.tasks[t].pool in w.pools))
    && (forall h :: h in w.handles && h in s.handles && s.handles[h].exec.Some? ==> s.handles[h].exec.value in w.execs)
    && (forall p :: p in w.pools && p in s.pools ==> Registered(s, p) || s.pools[p].maker in w.tasks)
  }

  // In a touched pool, a shard locked by another task keeps its lock and its size, and executors
  // outside w stay where they are.
  ghost predicate PoolTouchedGently(q: Pool, q': Pool, w: Touched) {
    |q'.shards| == |q.shards| && |q'.locks| == |q.locks|
    && (forall k :: 0 <= k < |q.locks| && k < |q.shards| && q.locks[k].Some? && q.locks[k].value !in w.tasks ==>
          q'.locks[k] == q.locks[k] && |q'.shards[k]| == |q.shards[k]|)
    && (forall k, e :: 0 <= k < |q.shards| && e in q.shards[k] && e !in w.execs ==> e in q'.shards[k])
  }

  ghost predicate Gentle(s: Sys, s': Sys, w: Touched) {
    forall p :: p in w.pools && p in s.pools && p in s'.pools ==> PoolTouchedGently(s.pools[p], s'.pools[p], w)
  }

  ghost predicate Local(s: Sys, s': Sys, w: Touched) {
    Grows(s, s') && SameOutside(s, s', w) && ClosedUnderHolding(s, w) && Gentle(s, s', w)
  }

  // Ranks are given once, when the executor is counted.
  ghost predicate SameRanks(s: Sys, s': Sys) {
    forall e :: e in s'.execs ==>
      s'.execs[e].rank == 0
      || (e in s.execs && s'.execs[e].rank == s.execs[e].rank && s'.execs[e].pool == s.execs[e].pool)
  }

  ghost predicate NewKeysOk(s: Sys, s': Sys) {
    forall key {:trigger RegistryOk(s', key)} :: key in s'.registry && key !in s.registry ==> RegistryOk(s', key)
  }

  // The shape of every step except the ones that register a pool or count an executor.
  ghost predicate Shape(s: Sys, s': Sys, w: Touched) {
    Grows(s, s') && SameOutside(s, s', w) && Gentle(s, s', w) && SameRanks(s, s') && s'.registry == s.registry
  }

  // The touched objects are in order after the step.
  ghost predicate TouchedPools(s: Sys, w: Touched) {
    forall p {:trigger PoolOk(s, p)} :: p in w.pools && p in s.pools ==> PoolOk(s, p)
  }

  ghost predicate TouchedExecs(s: Sys, w: Touched) {
    forall e {:trigger ExecOk(s, e)} :: e in w.execs && e in s.execs ==> ExecOk(s, e)
  }

  ghost predicate TouchedTxs(s: Sys, w: Touched) {
    forall x {:trigger TxOk(s, x)} :: x in w.txs && x in s.txs ==> TxOk(s, x)
  }

  ghost predicate TouchedHandles(s: Sys, w: Touched) {
    forall h {:trigger HandleOk(s, h)} :: h in w.handles && h in s.handles ==> HandleOk(s, h)
  }

  ghost predicate TouchedTasks(s: Sys, w: Touched) {
    forall t {:trigger TaskOk(s, t)} :: t in w.tasks && t in s.tasks ==> TaskOk(s, t)
  }

  ghost predicate TouchedOk(s: Sys, w: Touched) {
    TouchedPools(s, w) && TouchedExecs(s, w) && TouchedTxs(s, w) && TouchedHandles(s, w) && TouchedTasks(s, w)
  }

  lemma StaysRegistered(s: Sys, s': Sys, p: Id)
    requires Grows(s, s') && Registered(s, p)
    ensures Registered(s', p)
  {
  }

  lemma OthersUnregistered(s: Sys, s': Sys, w: Touched, p: Id)
    requires Local(s, s', w) && p in s.pools && p !in w.pools && !Registered(s, p)
    ensures !Registered(s', p)
  {
  }

  lemma RegistryKeeps(s: Sys, s': Sys, w: Touched, key: string)
    requires Local(s, s', w)
    requires key in s.registry && RegistryOk(s, key)
    ensures key in s'.registry && RegistryOk(s', key)
  {
  }

  lemma TxKeeps(s: Sys, s': Sys, x: Id)
    requires Grows(s, s') && x in s.txs && TxOk(s, x)
    requires s'.txs[x].last == s.txs[x].last
    ensures TxOk(s', x)
  {
    var e := s.txs[x].exec;
    assert forall i :: 0 <= i < |s.execs[e].log| ==> s'.execs[e].log[i] == s.execs[e].log[i];
  }

  lemma HandleKeeps(s: Sys, s': Sys, w: Touched, h: Id)
    requires Local(s, s', w)
    requires h in s.handles && h !in w.handles && HandleOk(s, h)
    ensures h in s'.handles && HandleOk(s', h)
  {
    var x := s.handles[h];
    assert s'.handles[h] == x;
    assert x.busy.Some? ==> s'.tasks[x.busy.value] == s.tasks[x.busy.value];
    assert x.exec.Some? ==> s'.execs[x.exec.value] == s.execs[x.exec.value];
    assert x.tx.Some? ==> s'.txs[x.tx.value] == s.txs[x.tx.value];
    assert x.state.Started? ==> StartedOk(s', h);
  }

  lemma ExecKeeps(s: Sys, s': Sys, w: Touched, e: Id)
    requires Local(s, s', w)
    requires e in s.execs && e !in w.execs && ExecOk(s, e)
    ensures e in s'.execs && ExecOk(s', e)
  {
    var x := s.execs[e];
    assert s'.execs[e] == x;
    StaysRegistered(s, s', x.pool);
    OwnerKeeps(s, s', w, e);
    forall i | 0 <= i < |x.log|
      ensures InBlock(s', e, i, x.log[i].via)
    {
      assert InBlock(s, e, i, x.log[i].via);
    }
  }

  lemma OwnerKeeps(s: Sys, s': Sys, w: Touched, e: Id)
    requires Local(s, s', w)
    requires e in s.execs && e !in w.execs && OwnerOk(s, e)
    ensures OwnerOk(s', e)
    ensures forall x :: OpenHolder(s, e, x) ==> OpenHolder(s', e, x)
  {
    assert s'.execs[e] == s.execs[e];
    match s.execs[e].owner
    case InShard(p, k) =>
    case ByTask(t) => assert t !in w.tasks;
    case ByHandle(h) => assert h !in w.handles;
    case Closed =>
    case Dropped =>
  }

  lemma ShardKeeps(s: Sys, s': Sys, w: Touched, p: Id, k: nat)
    requires Grows(s, s') && SameOutside(s, s', w)
    requires p in s.pools && k < |s.pools[p].shards| == |s'.pools[p].shards|
    requires s'.pools[p].shards[k] == s.pools[p].shards[k]
    requires forall e :: e in s.pools[p].shards[k] ==> e !in w.execs
    requires ShardOk(s, p, k)
    ensures ShardOk(s', p, k)
  {
    var shard := s.pools[p].shards[k];
    forall i | 0 <= i < |shard|
      ensures Pooled(s', p, k, shard[i]) && s'.execs[shard[i]] == s.execs[shard[i]]
    {
      assert Pooled(s, p, k, shard[i]);
    }
  }

  lemma PoolKeeps(s: Sys, s': Sys, w: Touched, p: Id)
    requires Local(s, s', w)
    requires p in s.pools && p !in w.pools && PoolOk(s, p)
    ensures PoolOk(s', p)
  {
    forall k | 0 <= k < |s.pools[p].shards|
      ensures ShardOk(s', p, k)
    {
      assert ShardOk(s, p, k);
      forall e | e in s.pools[p].shards[k]
        ensures e !in w.execs
      {
        var i :| 0 <= i < |s.pools[p].shards[k]| && s.pools[p].shards[k][i] == e;
        assert Pooled(s, p, k, s.pools[p].shards[k][i]);
      }
      ShardKeeps(s, s', w, p, k);
    }
    forall k | 0 <= k < |s.pools[p].locks|
      ensures LockOk(s', p, k)
    {
      assert LockOk(s, p, k);
    }
    if Registered(s, p) {
      StaysRegistered(s, s', p);
    } else {
      OthersUnregistered(s, s', w, p);
    }
  }

  // The handle another task works on, its executor and its transaction stay as they are.
  ghost predicate SameHandle(s: Sys, s': Sys, h: Id) {
    h in s.handles && h in s'.handles && s'.handles[h] == s.handles[h]
    && (s.handles[h].exec.Some? ==>
          s.handles[h].exec.value in s.execs && s.handles[h].exec.value in s'.execs
          && s'.execs[s.handles[h].exec.value] == s.execs[s.handles[h].exec.value])
    && (forall rollback :: EndedWell(s, s.handles[h].tx, rollback) ==> EndedWell(s', s.handles[h].tx, rollback))
  }

  lemma UsedKeeps(s: Sys, s': Sys, w: Touched, t: Id, h: Id)
    requires Local(s, s', w)
    requires h in s.handles && HandleOk(s, h) && s.handles[h].busy == Some(t) && t !in w.tasks
    ensures SameHandle(s, s', h)
  {
    var x := s.handles[h];
    assert s'.handles[h] == x;
    assert x.exec.Some? ==> s'.execs[x.exec.value] == s.execs[x.exec.value];
    if x.tx.Some? {
      assert s'.txs[x.tx.value] == s.txs[x.tx.value];
      EndKeeps(s, s', x.tx.value);
    }
  }

  lemma EndKeeps(s: Sys, s': Sys, x: Id)
    requires Grows(s, s') && x in s.txs && s'.txs[x] == s.txs[x]
    ensures forall rollback :: EndedWell(s, Some(x), rollback) ==> EndedWell(s', Some(x), rollback)
  {
    var b := s.txs[x];
    assert b.exec in s.execs && b.last <= |s.execs[b.exec].log| ==>
        forall i :: 0 <= i < |s.execs[b.exec].log| ==> s'.execs[b.exec].log[i] == s.execs[b.exec].log[i];
  }

  lemma TaskKeeps(s: Sys, s': Sys, w: Touched, t: Id)
    requires Local(s, s', w)
    requires t in s.tasks && t !in w.tasks && TaskOk(s, t)
    requires Uses(s.tasks[t]).Some? ==> HandleOk(s, Uses(s.tasks[t]).value)
    ensures t in s'.tasks && TaskOk(s', t)
  {
    HoldingKeeps(s, s', w, t, s.tasks[t]);
    PcKeeps(s, s', w, t, s.tasks[t]);
  }

  lemma PcKeeps(s: Sys, s': Sys, w: Touched, t: Id, pc: Pc)
    requires Local(s, s', w)
    requires t in s.tasks && t !in w.tasks && s.tasks[t] == pc && t < s.next
    requires Uses(pc).Some? ==> SameHandle(s, s', Uses(pc).value)
    requires SameHeld(s, s', pc)
    ensures PcOk(s, t, pc) ==> PcOk(s', t, pc)
  {
    if Closing(pc) || Reclaiming(pc) {
      GuardKeeps(s, s', w, t, pc);
      if Closing(pc) {
        EndJobKeepsPc(s, s', t, pc);
      } else {
        QueryKeepsPc(s, s', t, pc);
      }
    } else {
      OtherKeepsPc(s, s', w, t, pc);
    }
  }

  ghost predicate SameHeld(s: Sys, s': Sys, pc: Pc) {
    Holds(pc).Some? ==>
      Holds(pc).value in s.execs && Holds(pc).value in s'.execs
      && s'.execs[Holds(pc).value] == s.execs[Holds(pc).value]
  }

  lemma HoldingKeeps(s: Sys, s': Sys, w: Touched, t: Id, pc: Pc)
    requires Local(s, s', w)
    requires t in s.tasks && t !in w.tasks && s.tasks[t] == pc
    requires Works(pc).Some? ==> Registered(s, Works(pc).value)
    requires Holds(pc).Some? ==> Holds(pc).value in s.execs && s.execs[Holds(pc).value].owner == ByTask(t)
    requires Uses(pc).Some? ==>
               Uses(pc).value in s.handles && HandleOk(s, Uses(pc).value) && s.handles[Uses(pc).value].busy == Some(t)
    ensures t in s'.tasks && s'.tasks[t] == pc
    ensures Works(pc).Some? ==> Registered(s', Works(pc).value)
    ensures SameHeld(s, s', pc)
    ensures Uses(pc).Some? ==> SameHandle(s, s', Uses(pc).value)
  {
    if Uses(pc).Some? {
      UsedKeeps(s, s', w, t, Uses(pc).value);
    }
    if Holds(pc).Some? {
      assert Holds(pc).value !in w.execs;
    }
    if Works(pc).Some? {
      StaysRegistered(s, s', Works(pc).value);
    }
  }

  // A shard that the task has locked keeps its lock and its size.
  predicate StillGuards(s: Sys, s': Sys, t: Id, pc: Pc) {
    (pc.Load? || pc.Push?) && pc.pool in s.pools && pc.shard < |s.pools[pc.pool].shards|
    && pc.shard < |s.pools[pc.pool].locks| && s.pools[pc.pool].locks[pc.shard] == Some(t)
    ==> pc.pool in s'.pools && pc.shard < |s'.pools[pc.pool].shards| && pc.shard < |s'.pools[pc.pool].locks|
        && s'.pools[pc.pool].locks[pc.shard] == Some(t)
        && |s'.pools[pc.pool].shards[pc.shard]| == |s.pools[pc.pool].shards[pc.shard]|
  }

  lemma GuardKeeps(s: Sys, s': Sys, w: Touched, t: Id, pc: Pc)
    requires Local(s, s', w) && t !in w.tasks
    ensures StillGuards(s, s', t, pc)
  {
  }

  lemma EndJobKeepsPc(s: Sys, s': Sys, t: Id, pc: Pc)
    requires Grows(s, s') && StillGuards(s, s', t, pc)
    requires Closing(pc) && SameHandle(s, s', pc.job.handle)
    ensures PcOk(s, t, pc) ==> PcOk(s', t, pc)
  {
    if PcOk(s, t, pc) && pc.Find? {
      StaysRegistered(s, s', s.execs[s.handles[pc.job.handle].exec.value].pool);
    }
  }

  lemma QueryKeepsPc(s: Sys, s': Sys, t: Id, pc: Pc)
    requires Grows(s, s') && StillGuards(s, s', t, pc)
    requires Reclaiming(pc) && !pc.job.End? && SameHeld(s, s', pc)
    ensures PcOk(s, t, pc) ==> PcOk(s', t, pc)
  {
  }

  lemma OtherKeepsPc(s: Sys, s': Sys, w: Touched, t: Id, pc: Pc)
    requires Local(s, s', w)
    requires t in s.tasks && t !in w.tasks && s.tasks[t] == pc
    requires !Closing(pc) && !Reclaiming(pc)
    requires Uses(pc).Some? ==> SameHandle(s, s', Uses(pc).value)
    requires SameHeld(s, s', pc) && t < s.next
    ensures PcOk(s, t, pc) ==> PcOk(s', t, pc)
  {
    if PcOk(s, t, pc) {
      if pc.Insert? {
        assert pc.own !in w.pools;
        OthersUnregistered(s, s', w, pc.own);
      }
      if pc.Began? {
        assert t !in w.txs;
        assert !Opening(pc);
        assert t !in s'.handles;
      }
    }
  }

  lemma RegistriesKeep(s: Sys, s': Sys, w: Touched)
    requires RegistriesOk(s) && Local(s, s', w) && NewKeysOk(s, s')
    ensures RegistriesOk(s')
  {
    forall key | key in s'.registry
      ensures RegistryOk(s', key)
    {
      if key in s.registry {
        RegistryKeeps(s, s', w, key);
      }
    }
  }

  lemma PoolsKeep(s: Sys, s': Sys, w: Touched)
    requires PoolsOk(s) && Local(s, s', w) && TouchedPools(s', w)
    ensures PoolsOk(s')
  {
    forall p | p in s'.pools
      ensures PoolOk(s', p)
    {
      if p !in w.pools {
        PoolKeeps(s, s', w, p);
      }
    }
  }

  lemma ExecsKeep(s: Sys, s': Sys, w: Touched)
    requires ExecsOk(s) && Local(s, s', w) && TouchedExecs(s', w)
    ensures ExecsOk(s')
  {
    forall e | e in s'.execs
      ensures ExecOk(s', e)
    {
      if e !in w.execs {
        ExecKeeps(s, s', w, e);
      }
    }
  }

  lemma TxsKeep(s: Sys, s': Sys, w: Touched)
    requires TxsOk(s) && Local(s, s', w) && TouchedTxs(s', w)
    ensures TxsOk(s')
  {
    forall x | x in s'.txs
      ensures TxOk(s', x)
    {
      if x !in w.txs {
        TxKeeps(s, s', x);
      }
    }
  }

  lemma HandlesKeep(s: Sys, s': Sys, w: Touched)
    requires HandlesOk(s) && Local(s, s', w) && TouchedHandles(s', w)
    ensures HandlesOk(s')
  {
    forall h | h in s'.handles
      ensures HandleOk(s', h)
    {
      if h !in w.handles {
        HandleKeeps(s, s', w, h);
      }
    }
  }

  lemma TasksKeep(s: Sys, s': Sys, w: Touched)
    requires TasksOk(s) && HandlesOk(s) && Local(s, s', w) && TouchedTasks(s', w)
    ensures TasksOk(s')
  {
    forall t | t in s'.tasks
      ensures TaskOk(s', t)
    {
      if t !in w.tasks {
        assert TaskOk(s, t);
        TaskKeeps(s, s', w, t);
      }
    }
  }

  /** A local step that leaves its own objects in order leaves everything in order. */
  lemma LocalKeeps(s: Sys, s': Sys, w: Touched)
    ensures Inv(s) && Local(s, s', w) && TouchedOk(s', w) && RanksDistinct(s') && NewKeysOk(s, s') ==> Inv(s')
  {
    if Inv(s) && Local(s, s', w) && TouchedOk(s', w) && RanksDistinct(s') && NewKeysOk(s, s') {
      RegistriesKeep(s, s', w);
      PoolsKeep(s, s', w);
      ExecsKeep(s, s', w);
      TxsKeep(s, s', w);
      HandlesKeep(s, s', w);
      TasksKeep(s, s', w);
    }
  }

  lemma ShapeKeeps(s: Sys, s': Sys, w: Touched)
    ensures Inv(s) && Shape(s, s', w) && ClosedUnderHolding(s, w) && TouchedOk(s', w) ==> Inv(s')
  {
    if Inv(s) && Shape(s, s', w) && ClosedUnderHolding(s, w) && TouchedOk(s', w) {
      RanksKeep(s, s');
      LocalKeeps(s, s', w);
    }
  }

  lemma RanksKeep(s: Sys, s': Sys)
    ensures RanksDistinct(s) && SameRanks(s, s') ==> RanksDistinct(s')
  {
  }
}
