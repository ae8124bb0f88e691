/** What every reachable state of the protocol satisfies, object by object. */
module ProtocolInvariant {
  import opened Options
  import opened PoolRules
  import opened Endpoint
  import opened HandleState
  import opened Protocol

  // ---------- what a program counter holds ----------

  // The executor in the task's local variable.
  function Holds(pc: Pc): Option<Id> {
    match pc
    case Discard(_, _, _, e, _) => Some(e)
    case Dial(_, e, _) => Some(e)
    case Count(_, e, _) => Some(e)
    case Got(_, e, _) => Some(e)
    case Began(_, e, _) => Some(e)
    case Lock(_, e, job) => if job.End? then None else Some(e)
    case Load(_, _, e, job) => if job.End? then None else Some(e)
    case Push(_, _, e, job) => if job.End? then None else Some(e)
    case Bump(_, e, job) => if job.End? then None else Some(e)
    case Shut(_, e, job) => if job.End? then None else Some(e)
    case _ => None
  }

  // The handle the task has an operation on.
  function Uses(pc: Pc): Option<Id> {
    match pc
    case Issue(h, _, _) => Some(h)
    case Settle(h, _, _) => Some(h)
    case Return(h, _, _) => Some(h)
    case _ => if Closing(pc) then Some(pc.job.handle) else None
  }

  // Inside EndTransaction, after the state was set and before the executor is disposed of.
  predicate Closing(pc: Pc) {
    (pc.Find? || pc.Insert? || pc.Lock? || pc.Load? || pc.Push? || pc.Bump? || pc.Shut?) && pc.job.End?
  }

  // The pool the task works in.
  function Works(pc: Pc): Option<Id> {
    if pc.Find? || pc.Insert? || pc.Issue? || pc.Settle? || pc.Return? then None else Some(pc.pool)
  }

  // The job of a task that has not sent anything yet.
  predicate Opening(pc: Pc) {
    (pc.Find? || pc.Insert? || pc.Ticket? || pc.Scan? || pc.Discard? || pc.Make? || pc.Dial? || pc.Count? || pc.Got?)
    && pc.job.Open?
  }

  // ---------- pools ----------

  predicate Registered(s: Sys, p: Id) {
    p in s.pools
    && s.pools[p].key in s.registry
    && s.registry[s.pools[p].key] == p
  }

  predicate RegistryOk(s: Sys, key: string)
    requires key in s.registry
  {
    s.registry[key] in s.pools && s.pools[s.registry[key]].key == key
  }

  predicate WithinLimit(s: Sys, p: Id, rank: nat)
    requires p in s.pools
  {
    1 <= rank && (s.pools[p].incs < U32 ==> rank <= s.cfg.maxSize)
  }

  predicate Pooled(s: Sys, p: Id, k: nat, e: Id)
    requires p in s.pools
  {
    e in s.execs
    && s.execs[e].owner == InShard(p, k)
    && s.execs[e].pool == p
    && ShardIndex(s.cfg, s.execs[e].eid) == k
    && s.execs[e].aliveTime <= s.now
    && WithinLimit(s, p, s.execs[e].rank)
  }

  ghost predicate ShardOk(s: Sys, p: Id, k: nat)
    requires p in s.pools && k < |s.pools[p].shards|
  {
    var shard := s.pools[p].shards[k];
    |shard| <= MaxNumPerShard(s.cfg) + 1
    && (forall i :: 0 <= i < |shard| ==> Pooled(s, p, k, shard[i]))
    && (forall i, j :: 0 <= i < j < |shard| ==>
          shard[i] != shard[j] && s.execs[shard[i]].aliveTime <= s.execs[shard[j]].aliveTime)
  }

  // A lock is held by a task inside Reclaim's locked section.
  predicate LockOk(s: Sys, p: Id, k: nat)
    requires p in s.pools && k < |s.pools[p].locks|
  {
    s.pools[p].locks[k].Some? ==>
      s.pools[p].locks[k].value in s.tasks && Guards(s.tasks[s.pools[p].locks[k].value], p, k)
  }

  predicate Guards(pc: Pc, p: Id, k: nat) {
    (pc.Load? || pc.Push?) && pc.pool == p && pc.shard == k
  }

  ghost predicate LocksOk(s: Sys, p: Id)
    requires p in s.pools
  {
    forall k {:trigger LockOk(s, p, k)} :: 0 <= k < |s.pools[p].locks| ==> LockOk(s, p, k)
  }

  ghost predicate PoolOk(s: Sys, p: Id)
    requires p in s.pools
  {
    var q := s.pools[p];
    p < s.next
    && q.key == EndpointKey(q.target)
    && |q.shards| == |q.locks| == s.cfg.numShardGroup
    && (forall k {:trigger ShardOk(s, p, k)} :: 0 <= k < |q.shards| ==> ShardOk(s, p, k))
    && LocksOk(s, p)
    && q.deletions <= 1
    && (Registered(s, p) ==> q.deletions == 0)
    && (!Registered(s, p) && q.deletions == 0 ==>
          q.maker in s.tasks && s.tasks[q.maker].Insert? && s.tasks[q.maker].own == p)
  }

  // ---------- executors ----------

  predicate OwnerOk(s: Sys, e: Id)
    requires e in s.execs
  {
    match s.execs[e].owner
    case InShard(p, k) => p in s.pools && k < |s.pools[p].shards| && e in s.pools[p].shards[k]
    case ByTask(t) => t in s.tasks && Holds(s.tasks[t]) == Some(e)
    case ByHandle(h) => h in s.handles && s.handles[h].exec == Some(e)
    case Closed => !s.execs[e].connected
    case Dropped => s.execs[e].connected
  }

  // Who may still end the transaction open on e.
  predicate OpenHolder(s: Sys, e: Id, x: Id)
    requires e in s.execs
  {
    match s.execs[e].owner
    case InShard(_, _) => false
    case ByTask(t) => t == x && t in s.tasks && s.tasks[t].Began? && s.tasks[t].ok
    case ByHandle(h) => h in s.handles && s.handles[h].state.Started? && s.handles[h].tx == Some(x)
    case Closed => false
    case Dropped => true
  }

  predicate InBlock(s: Sys, e: Id, i: int, via: Via) {
    via.Tx? ==> via.tx in s.txs && s.txs[via.tx].exec == e && s.txs[via.tx].first <= i < s.txs[via.tx].last
  }

  ghost predicate ExecOk(s: Sys, e: Id)
    requires e in s.execs
  {
    var x := s.execs[e];
    e < s.next
    && Registered(s, x.pool) && x.addr == s.pools[x.pool].target
    && s.pools[x.pool].key == EndpointKey(x.addr)
    && x.rank <= s.pools[x.pool].incs
    && OwnerOk(s, e)
    && (!x.connected ==> x.openTx == None)
    && (x.openTx.Some? ==>
          x.openTx.value in s.txs && s.txs[x.openTx.value].exec == e
          && (x.openTx.value in s.refused || OpenHolder(s, e, x.openTx.value)))
    && (forall i :: 0 <= i < |x.log| ==> InBlock(s, e, i, x.log[i].via))
  }

  ghost predicate RanksDistinct(s: Sys) {
    forall d, e :: d in s.execs && e in s.execs && d != e
      && s.execs[d].pool == s.execs[e].pool && s.execs[d].rank >= 1
      ==> s.execs[d].rank != s.execs[e].rank
  }

  // ---------- transactions ----------

  predicate EndsTx(entry: Entry) {
    entry.ok && (entry.stmt.Commit? || entry.stmt.Rollback?)
  }

  ghost predicate TxOk(s: Sys, x: Id)
    requires x in s.txs
  {
    var b := s.txs[x];
    x < s.next
    && b.exec in s.execs
    && var log := s.execs[b.exec].log;
    b.first < b.last <= |log|
    && (forall i :: b.first <= i < b.last ==> log[i].via == Tx(x))
    && log[b.first].stmt == Begin
    && (b.first + 1 < b.last ==> log[b.first].ok)
    && (forall i :: b.first < i < b.last ==> log[i].stmt != Begin)
    && (forall i :: b.first <= i < b.last - 1 ==> !EndsTx(log[i]))
    && (forall i :: b.first < i < b.last ==> (log[i].inTx <==> log[i].session == log[b.first].session))
  }

  // x ran to its end: its last statement is the successful commit or rollback.
  predicate EndedWell(s: Sys, x: Option<Id>, rollback: bool) {
    x.Some? && x.value in s.txs
    && var b := s.txs[x.value];
    b.exec in s.execs && b.first < b.last - 1 < |s.execs[b.exec].log|
    && s.execs[b.exec].log[b.last - 1].ok
    && s.execs[b.exec].log[b.last - 1].stmt == if rollback then Rollback else Commit
  }

  // ---------- handles ----------

  // The transaction is open on the server exactly while the connection it began on is up.
  predicate StillOpenOk(s: Sys, b: TxInfo, x: Id)
    requires b.exec in s.execs && b.first < |s.execs[b.exec].log|
  {
    var e := s.execs[b.exec];
    e.log[b.first].session <= e.session
    && (e.openTx == Some(x) <==> e.connected && e.session == e.log[b.first].session)
  }

  predicate StartedOk(s: Sys, h: Id)
    requires h in s.handles
  {
    var x := s.handles[h];
    x.exec.Some? && x.tx.Some? && x.tx.value in s.txs
    && var b := s.txs[x.tx.value];
    b.exec == x.exec.value && b.exec in s.execs
    && b.first < b.last == |s.execs[b.exec].log|
    && s.execs[b.exec].log[b.first].ok
    && ((x.busy.Some? ==> x.busy.value in s.tasks && s.tasks[x.busy.value].Issue?) ==>
          !EndsTx(s.execs[b.exec].log[b.last - 1]) && StillOpenOk(s, b, x.tx.value))
  }

  predicate HandleOk(s: Sys, h: Id)
    requires h in s.handles
  {
    var x := s.handles[h];
    h < s.next
    && (x.busy.Some? ==> x.busy.value in s.tasks && Uses(s.tasks[x.busy.value]) == Some(h))
    && (x.exec.Some? ==>
          x.exec.value in s.execs && s.execs[x.exec.value].owner == ByHandle(h) && s.execs[x.exec.value].rank >= 1)
    && (x.tx.Some? ==>
          x.tx.value in s.txs && s.txs[x.tx.value].holder == ByHandle(h)
          && (x.exec.Some? ==> s.txs[x.tx.value].exec == x.exec.value))
    && (x.state.Started? ==> StartedOk(s, h))
    && (x.state.NotInited? || x.state.InValid? ==> x.exec == None)
    && (x.state.Committed? || x.state.RolledBack? ==>
          x.exec == None || !s.execs[x.exec.value].connected
          || (x.busy.Some? && Closing(s.tasks[x.busy.value])))
  }

  // ---------- tasks ----------

  // EndTransaction has set the state and knows the call's outcome.
  predicate SettledOk(s: Sys, h: Id, rollback: bool, ok: bool)
    requires h in s.handles
  {
    s.handles[h].state == (if rollback then RolledBack else Committed)
    && (ok ==> EndedWell(s, s.handles[h].tx, rollback))
  }

  predicate JobOk(s: Sys, job: Job) {
    job.End? ==>
      job.handle in s.handles && SettledOk(s, job.handle, job.rollback, job.ok)
      && s.handles[job.handle].exec.Some? && s.handles[job.handle].exec.value in s.execs
      && var x := s.execs[s.handles[job.handle].exec.value];
      (x.openTx.Some? ==> x.openTx.value in s.refused)
  }

  predicate ReclaimOk(s: Sys, p: Id, e: Id, job: Job) {
    !job.Open? && JobOk(s, job)
    && (job.End? ==> s.handles[job.handle].exec == Some(e))
    && e in s.execs && s.execs[e].pool == p && s.execs[e].rank >= 1
    && (s.execs[e].openTx.Some? ==> s.execs[e].openTx.value in s.refused)
  }

  predicate LockedOk(s: Sys, t: Id, p: Id, k: nat, e: Id)
    requires p in s.pools && e in s.execs
  {
    k == ShardIndex(s.cfg, s.execs[e].eid)
    && k < |s.pools[p].shards| && k < |s.pools[p].locks|
    && s.pools[p].locks[k] == Some(t)
    && HasRoom(s.cfg, |s.pools[p].shards[k]|)
  }

  predicate PcOk(s: Sys, t: Id, pc: Pc) {
    match pc
    case Find(addr, job) =>
      JobOk(s, job)
      && (job.End? ==>
            var x := s.execs[s.handles[job.handle].exec.value];
            Registered(s, x.pool) && s.pools[x.pool].target == addr)
    case Insert(addr, own, job) =>
      !job.End? && own in s.pools && s.pools[own].maker == t && s.pools[own].target == addr
      && s.pools[own].deletions == 0 && !Registered(s, own)
    case Ticket(_, job) => !job.End?
    case Scan(_, sid, retry, job) => !job.End? && retry > 0 && sid < U32
    case Discard(_, sid, retry, _, job) => !job.End? && retry > 0 && sid < U32
    case Make(_, sid, job) => !job.End? && sid < U32
    case Dial(_, e, job) => !job.End? && e in s.execs && s.execs[e].rank == 0 && !s.execs[e].connected
    case Count(_, e, job) => !job.End? && e in s.execs && s.execs[e].rank == 0 && s.execs[e].openTx == None
    case Got(_, e, job) => !job.End? && e in s.execs && (s.execs[e].connected ==> s.execs[e].rank >= 1)
    case Began(_, e, ok) =>
      t in s.txs && t !in s.handles && s.txs[t].exec == e && e in s.execs && s.execs[e].rank >= 1
      && s.txs[t].holder == ByTask(t) && s.txs[t].first + 1 == s.txs[t].last == |s.execs[e].log|
      && s.execs[e].log[s.txs[t].first].ok == ok && s.execs[e].connected
      && s.execs[e].log[s.txs[t].first].session == s.execs[e].session
      && (ok ==> s.execs[e].openTx == Some(t))
    case Issue(h, e, _) =>
      h in s.handles && s.handles[h].state.Started? && s.handles[h].exec == Some(e)
    case Settle(h, rollback, ok) =>
      h in s.handles && (ok ==> s.handles[h].exec.Some? && EndedWell(s, s.handles[h].tx, rollback))
      && (s.handles[h].exec.Some? && s.handles[h].exec.value in s.execs ==>
            var x := s.execs[s.handles[h].exec.value];
            x.openTx.Some? ==> x.openTx.value in s.refused)
    case Lock(p, e, job) => ReclaimOk(s, p, e, job)
    case Load(p, k, e, job) => ReclaimOk(s, p, e, job) && p in s.pools && LockedOk(s, t, p, k, e)
    case Push(p, k, e, job) =>
      ReclaimOk(s, p, e, job) && p in s.pools && LockedOk(s, t, p, k, e)
      && WithinLimit(s, p, s.execs[e].rank)
    case Bump(p, e, job) => ReclaimOk(s, p, e, job)
    case Shut(p, e, job) => ReclaimOk(s, p, e, job)
    case Return(h, rollback, ok) =>
      h in s.handles && SettledOk(s, h, rollback, ok)
  }

  predicate TaskOk(s: Sys, t: Id)
    requires t in s.tasks
  {
    var pc := s.tasks[t];
    t < s.next
    && (Works(pc).Some? ==> Registered(s, Works(pc).value))
    && (Holds(pc).Some? ==>
          Holds(pc).value in s.execs && s.execs[Holds(pc).value].owner == ByTask(t)
          && Works(pc) == Some(s.execs[Holds(pc).value].pool))
    && (Uses(pc).Some? ==> Uses(pc).value in s.handles && s.handles[Uses(pc).value].busy == Some(t))
    && (Opening(pc) ==> t !in s.txs && t !in s.handles)
    && PcOk(s, t, pc)
  }

  // ---------- the invariant ----------

  ghost predicate RegistriesOk(s: Sys) {
    forall key {:trigger RegistryOk(s, key)} :: key in s.registry ==> RegistryOk(s, key)
  }

  ghost predicate PoolsOk(s: Sys) {
    forall p {:trigger PoolOk(s, p)} :: p in s.pools ==> PoolOk(s, p)
  }

  ghost predicate ExecsOk(s: Sys) {
    forall e {:trigger ExecOk(s, e)} :: e in s.execs ==> ExecOk(s, e)
  }

  ghost predicate TxsOk(s: Sys) {
    forall x {:trigger TxOk(s, x)} :: x in s.txs ==> TxOk(s, x)
  }

  ghost predicate HandlesOk(s: Sys) {
    forall h {:trigger HandleOk(s, h)} :: h in s.handles ==> HandleOk(s, h)
  }

  ghost predicate TasksOk(s: Sys) {
    forall t {:trigger TaskOk(s, t)} :: t in s.tasks ==> TaskOk(s, t)
  }

  ghost predicate Inv(s: Sys) {
    s.now < U64 && RegistriesOk(s) && PoolsOk(s) && ExecsOk(s) && RanksDistinct(s)
    && TxsOk(s) && HandlesOk(s) && TasksOk(s)
  }

  lemma FreshHolds(s: Sys)
    requires Fresh(s)
    ensures Inv(s)
  {
  }
}
