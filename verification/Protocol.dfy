/**
  The sharded connection pool and the transaction protocol as a step system.

  Threads are tasks; each task has a program counter (datatype Pc) that holds its local
  variables. Every section under a shard lock and every atomic counter operation is one step,
  and steps of different tasks interleave freely. What a thread does to data only it can reach
  (its own executor, its own handle) is folded into the neighbouring step.

  History, which no step branches on: session, rank, log, openTx and owner of an executor; maker
  and deletions of a pool; tx of a handle; txs and refused of the system. The counters incs,
  tickets and made do not wrap; the steps look at them modulo 2^32, as the source does. busy
  states the rule that a handle has one operation in flight at a time.
 */
module Protocol {
  import opened Options
  import opened PoolRules
  import opened Endpoint
  import opened HandleState

  type Id = nat

  datatype Statement = Begin | Commit | Rollback | User

  // Who issued a statement: a plain query, or the transaction begun by task tx.
  datatype Via = Plain | Tx(tx: Id)

  // inTx: the server had the sender's transaction open when the statement was sent.
  datatype Entry = Entry(stmt: Statement, via: Via, ok: bool, session: nat, inTx: bool)

  // Closed: let go of, disconnected. Dropped: let go of while still connected.
  datatype Owner = InShard(pool: Id, shard: nat) | ByTask(task: Id) | ByHandle(handle: Id) | Closed | Dropped

  datatype Exec = Exec(
    pool: Id,             // the pool that made it
    addr: NodeAddr,       // its connection option
    eid: nat,             // executor_id_
    connected: bool,      // is_connected
    aliveTime: nat,       // m_alivetime
    session: nat,         // how many times it connected
    rank: nat,            // value of executor_num_ after its own increment, 0 before
    log: seq<Entry>,      // the statements sent over it
    openTx: Option<Id>,   // the transaction open on its session
    owner: Owner)

  datatype Pool = Pool(
    target: NodeAddr,
    key: string,                 // the endpoint key of target
    shards: seq<seq<Id>>,        // front to back
    locks: seq<Option<Id>>,
    incs: nat,                   // increments of executor_num_
    tickets: nat,                // increments of shard_id_gen_
    made: nat,                   // increments of executor_id_gen_
    maker: Id,                    // the task that created it
    deletions: nat)

  // busy: the task that has an operation on the handle in flight.
  datatype Handle = Handle(state: TxState, exec: Option<Id>, tx: Option<Id>, busy: Option<Id>)

  // A transaction's statements are log[first..last] of one executor; holder has it now.
  datatype TxInfo = TxInfo(exec: Id, first: nat, last: nat, holder: Owner)

  // Why a task is in the pool manager or in the pool.
  datatype Job = Query | Open | End(handle: Id, rollback: bool, ok: bool)

  datatype Op = UserOp | EndOp(rollback: bool, sync: bool)

  datatype Pc =
    | Find(addr: NodeAddr, job: Job)                           // before executor_pools_.Get
    | Insert(addr: NodeAddr, own: Id, job: Job)                // before executor_pools_.GetOrInsert
    | Ticket(pool: Id, job: Job)                               // before shard_id_gen_.fetch_add
    | Scan(pool: Id, sid: nat, retry: nat, job: Job)           // before the locked pop
    | Discard(pool: Id, sid: nat, retry: nat, e: Id, job: Job) // before idle_executor->Close
    | Make(pool: Id, sid: nat, job: Job)                       // before executor_id_gen_.fetch_add
    | Dial(pool: Id, e: Id, job: Job)                          // before Connect
    | Count(pool: Id, e: Id, job: Job)                         // before executor_num_.fetch_add
    | Got(pool: Id, e: Id, job: Job)                           // GetOrCreate returned e
    | Began(pool: Id, e: Id, ok: bool)                         // "begin" was sent
    | Issue(handle: Id, e: Id, op: Op)                         // a handle's statement is queued
    | Settle(handle: Id, rollback: bool, ok: bool)             // before EndTransaction
    | Lock(pool: Id, e: Id, job: Job)                          // Reclaim, before the shard lock
    | Load(pool: Id, shard: nat, e: Id, job: Job)              // lock held, size test passed
    | Push(pool: Id, shard: nat, e: Id, job: Job)              // lock held, counter test passed
    | Bump(pool: Id, e: Id, job: Job)                          // before executor_num_.fetch_add
    | Shut(pool: Id, e: Id, job: Job)                          // before executor->Close
    | Return(handle: Id, rollback: bool, ok: bool)             // Commit or Rollback returns

  datatype Sys = Sys(
    cfg: PoolOption,
    now: nat,
    next: Id,
    registry: map<string, Id>,
    pools: map<Id, Pool>,
    execs: map<Id, Exec>,
    handles: map<Id, Handle>,
    tasks: map<Id, Pc>,
    txs: map<Id, TxInfo>,
    refused: set<Id>)

  // What happens to the connection under a prepared statement: it is alive, or it is lost and
  // StartReconnect dials again with or without success. An unprepared statement has no such check;
  // if its connection is lost, it just fails.
  datatype Net = Steady | Redial | Lost

  // Outcomes the source does not decide. contextOk: no earlier failure sits in the context.
  datatype Env = Env(ping: bool, dial: bool, net: Net, ok: bool, refused: bool, contextOk: bool)

  // How far a call on a handle gets before its statement is queued. late: the timeout check or
  // the pre-send filter refuses it.
  datatype Gate = Rejected | Checked(ping: bool, late: bool)

  datatype Action =
    | Tick(ms: nat)
    | StartQuery(addr: NodeAddr)
    | StartBegin(addr: NodeAddr)
    | NewHandle
    | StartUser(h: Id, gate: Gate)
    | StartEnd(h: Id, rollback: bool, sync: bool, gate: Gate)
    | MoveConstruct(src: Id)
    | MoveAssign(dst: Id, src: Id)
    | Destroy(h: Id)
    | Step(t: Id, env: Env)

  // ---------- executors ----------

  function NewExec(p: Id, addr: NodeAddr, eid: nat, t: Id): Exec {
    Exec(p, addr, eid, false, 0, 0, 0, [], None, ByTask(t))
  }

  // Close, or a lost connection: the server rolls an open transaction back.
  function Disconnected(x: Exec): Exec {
    x.(connected := false, openTx := None)
  }

  function CheckAlive(x: Exec, ping: bool): Exec {
    if x.connected && ping then x else Disconnected(x)
  }

  function Dialled(x: Exec): Exec {
    x.(connected := true, openTx := None, session := x.session + 1)
  }

  function OpenAfter(open: Option<Id>, stmt: Statement, via: Via, ok: bool): Option<Id> {
    if !ok then open
    else match stmt
      case Begin => if via.Tx? then Some(via.tx) else open
      case Commit => None
      case Rollback => None
      case User => open
  }

  function Sent(x: Exec, stmt: Statement, via: Via, ok: bool): Exec {
    x.(log := x.log + [Entry(stmt, via, ok, x.session, via.Tx? && x.openTx == Some(via.tx))],
       openTx := OpenAfter(x.openTx, stmt, via, ok))
  }

  // A user statement, prepared or not. The texts begin, commit and rollback are never prepared.
  function Ran(x: Exec, via: Via, net: Net, ok: bool): Exec {
    match net
    case Steady => Sent(x, User, via, ok)
    case Redial => Sent(Dialled(x), User, via, ok)
    case Lost => Disconnected(x)
  }

  // The last reference is let go.
  function LetGo(x: Exec): Exec {
    x.(owner := if x.connected then Dropped else Closed)
  }

  // ---------- state updates ----------

  function At(s: Sys, t: Id, pc: Pc): Sys {
    s.(tasks := s.tasks[t := pc])
  }

  function Done(s: Sys, t: Id): Sys {
    s.(tasks := s.tasks - {t})
  }

  function WithExec(s: Sys, e: Id, x: Exec): Sys {
    s.(execs := s.execs[e := x])
  }

  function WithPool(s: Sys, p: Id, q: Pool): Sys {
    s.(pools := s.pools[p := q])
  }

  function WithHandle(s: Sys, h: Id, x: Handle): Sys {
    s.(handles := s.handles[h := x])
  }

  // The transaction x, if any, changes hands.
  function Handed(s: Sys, x: Option<Id>, holder: Owner): Sys {
    if x.Some? && x.value in s.txs then s.(txs := s.txs[x.value := s.txs[x.value].(holder := holder)]) else s
  }

  function Free(s: Sys, h: Id): Sys
    requires h in s.handles
  {
    WithHandle(s, h, s.handles[h].(busy := None))
  }

  function NewPool(cfg: PoolOption, addr: NodeAddr, t: Id): Pool {
    Pool(addr, EndpointKey(addr), seq(cfg.numShardGroup, _ => []), seq(cfg.numShardGroup, _ => None), 0, 0, 0, t, 0)
  }

  function Start(s: Sys, pc: Pc): Sys {
    s.(tasks := s.tasks[s.next := pc], next := s.next + 1)
  }

  // ---------- references a step follows ----------

  predicate JobRefs(s: Sys, job: Job) {
    job.End? ==> job.handle in s.handles && s.handles[job.handle].exec.Some?
  }

  predicate PoolRefs(s: Sys, p: Id) {
    p in s.pools
    && |s.pools[p].shards| == |s.pools[p].locks| == s.cfg.numShardGroup
  }

  // Every pointer the step at pc follows is valid. In reachable states this always holds
  // (PoolTheorems.OnlyLocksBlock), so it hides no failure.
  predicate Refs(s: Sys, pc: Pc) {
    match pc
    case Find(_, job) => JobRefs(s, job)
    case Insert(_, own, job) => own in s.pools && JobRefs(s, job)
    case Ticket(p, _) => PoolRefs(s, p)
    case Scan(p, sid, _, _) =>
      PoolRefs(s, p)
      && var shard := s.pools[p].shards[sid % s.cfg.numShardGroup];
      (shard != [] ==> shard[|shard| - 1] in s.execs)
    case Discard(p, _, retry, e, _) => PoolRefs(s, p) && e in s.execs && retry > 0
    case Make(p, _, _) => PoolRefs(s, p)
    case Dial(p, e, _) => PoolRefs(s, p) && e in s.execs
    case Count(p, e, _) => PoolRefs(s, p) && e in s.execs
    case Got(p, e, _) => PoolRefs(s, p) && e in s.execs
    case Began(p, e, _) => PoolRefs(s, p) && e in s.execs
    case Issue(h, e, _) =>
      h in s.handles && e in s.execs && s.handles[h].tx.Some? && s.handles[h].tx.value in s.txs
    case Settle(h, _, _) =>
      h in s.handles && (s.handles[h].exec.Some? ==> s.handles[h].exec.value in s.execs)
    case Lock(p, e, job) => PoolRefs(s, p) && e in s.execs && JobRefs(s, job)
    case Load(p, k, e, job) => PoolRefs(s, p) && k < s.cfg.numShardGroup && e in s.execs && JobRefs(s, job)
    case Push(p, k, e, job) => PoolRefs(s, p) && k < s.cfg.numShardGroup && e in s.execs && JobRefs(s, job)
    case Bump(p, e, job) => PoolRefs(s, p) && e in s.execs && JobRefs(s, job)
    case Shut(p, e, job) => PoolRefs(s, p) && e in s.execs && JobRefs(s, job)
    case Return(h, _, _) => h in s.handles
  }

  // The shard lock the step at pc has to take.
  function Needs(s: Sys, pc: Pc): Option<(Id, nat)>
    requires Refs(s, pc)
  {
    match pc
    case Scan(p, sid, _, _) => Some((p, sid % s.cfg.numShardGroup))
    case Lock(p, e, _) => Some((p, ShardIndex(s.cfg, s.execs[e].eid)))
    case _ => None
  }

  predicate LockFree(s: Sys, pc: Pc)
    requires Refs(s, pc)
  {
    match pc
    case Scan(p, sid, _, _) => s.pools[p].locks[sid % s.cfg.numShardGroup] == None
    case Lock(p, e, _) => s.pools[p].locks[ShardIndex(s.cfg, s.execs[e].eid)] == None
    case _ => true
  }

  // ---------- MysqlExecutorPoolManager::Get ----------

  function Enter(s: Sys, t: Id, p: Id, job: Job): Sys
    requires JobRefs(s, job)
  {
    At(s, t, if job.End? then Lock(p, s.handles[job.handle].exec.value, job) else Ticket(p, job))
  }

  function StepFind(s: Sys, t: Id, addr: NodeAddr, job: Job): Sys
    requires JobRefs(s, job)
  {
    var key := EndpointKey(addr);
    if key in s.registry then Enter(s, t, s.registry[key], job)
    else
      At(WithPool(s, s.next, NewPool(s.cfg, addr, t)), t, Insert(addr, s.next, job)).(next := s.next + 1)
  }

  function StepInsert(s: Sys, t: Id, addr: NodeAddr, own: Id, job: Job): Sys
    requires own in s.pools && JobRefs(s, job)
  {
    var key := EndpointKey(addr);
    if key in s.registry then
      Enter(WithPool(s, own, s.pools[own].(deletions := s.pools[own].deletions + 1)), t, s.registry[key], job)
    else
      Enter(s.(registry := s.registry[key := own]), t, own, job)
  }

  // ---------- MysqlExecutorPool::GetOrCreate ----------

  function StepTicket(s: Sys, t: Id, p: Id, job: Job): Sys
    requires PoolRefs(s, p)
  {
    var q := s.pools[p];
    At(WithPool(s, p, q.(tickets := q.tickets + 1)), t, Scan(p, q.tickets % U32, RETRY_NUM, job))
  }

  function StepScan(s: Sys, t: Id, pc: Pc, ping: bool): Sys
    requires pc.Scan? && Refs(s, pc)
  {
    var q := s.pools[pc.pool];
    var k := pc.sid % s.cfg.numShardGroup;
    var shard := q.shards[k];
    if shard == [] then At(s, t, Make(pc.pool, pc.sid, pc.job))
    else
      var e := shard[|shard| - 1];
      var x := CheckAlive(s.execs[e], ping);
      var popped := WithExec(WithPool(s, pc.pool, q.(shards := q.shards[k := shard[..|shard| - 1]])),
                             e, x.(owner := ByTask(t)));
      if x.connected && !IsIdleTimeout(s.cfg, x.aliveTime, s.now)
      then At(popped, t, Got(pc.pool, e, pc.job))
      else At(popped, t, Discard(pc.pool, pc.sid, pc.retry, e, pc.job))
  }

  function StepDiscard(s: Sys, t: Id, pc: Pc): Sys
    requires pc.Discard? && Refs(s, pc)
  {
    At(WithExec(s, pc.e, Disconnected(s.execs[pc.e]).(owner := Closed)), t,
       if pc.retry - 1 == 0 then Make(pc.pool, pc.sid, pc.job) else Scan(pc.pool, pc.sid, pc.retry - 1, pc.job))
  }

  function StepMake(s: Sys, t: Id, p: Id, sid: nat, job: Job): Sys
    requires PoolRefs(s, p)
  {
    var q := s.pools[p];
    At(WithExec(WithPool(s, p, q.(made := q.made + 1)), s.next,
                NewExec(p, q.target, PackId(sid, q.made % U32), t)),
       t, Dial(p, s.next, job)).(next := s.next + 1)
  }

  function StepDial(s: Sys, t: Id, p: Id, e: Id, job: Job, ok: bool): Sys
    requires e in s.execs
  {
    if ok then At(WithExec(s, e, Dialled(s.execs[e])), t, Count(p, e, job))
    else At(WithExec(s, e, Disconnected(s.execs[e])), t, Got(p, e, job))
  }

  function StepCount(s: Sys, t: Id, p: Id, e: Id, job: Job): Sys
    requires PoolRefs(s, p) && e in s.execs
  {
    var q := s.pools[p];
    At(WithExec(WithPool(s, p, q.(incs := q.incs + 1)), e, s.execs[e].(rank := q.incs + 1)), t, Got(p, e, job))
  }

  // ---------- UnaryInvoke, AsyncUnaryInvoke, Begin, AsyncBegin ----------

  function StepGot(s: Sys, t: Id, p: Id, e: Id, job: Job, env: Env): Sys
    requires e in s.execs
  {
    var x := s.execs[e];
    if !x.connected || (job.Open? && env.refused) then
      Done(WithExec(s, e, LetGo(x)), t)
    else if job.Open? then
      At(WithExec(s, e, Sent(x, Begin, Tx(t), env.ok)), t, Began(p, e, env.ok))
        .(txs := s.txs[t := TxInfo(e, |x.log|, |x.log| + 1, ByTask(t))])
    else
      At(WithExec(s, e, Ran(x, Plain, env.net, env.ok)), t, Lock(p, e, Query))
  }

  function StepBegan(s: Sys, t: Id, e: Id, ok: bool, contextOk: bool): Sys
    requires e in s.execs
  {
    if ok && contextOk then
      Done(Handed(WithHandle(WithExec(s, e, s.execs[e].(owner := ByHandle(t))), t,
                         Handle(Started, Some(e), Some(t), None)),
                  Some(t), ByHandle(t)), t)
    else
      Done(Handed(WithExec(s, e, LetGo(s.execs[e])), Some(t), Dropped), t)
  }

  // ---------- calls on a handle ----------

  // The checks of Query and AsyncQuery on a handle. The filter rejects first; then the state is
  // tested; then the connection is pinged, and a lost one rolls the handle back.
  predicate LosesConnection(s: Sys, h: Id, gate: Gate)
    requires h in s.handles
    requires s.handles[h].state.Started? ==> s.handles[h].exec.Some? && s.handles[h].exec.value in s.execs
  {
    gate.Checked? && s.handles[h].state.Started?
    && !CheckAlive(s.execs[s.handles[h].exec.value], gate.ping).connected
  }

  predicate Passes(s: Sys, h: Id, gate: Gate)
    requires h in s.handles
    requires s.handles[h].state.Started? ==> s.handles[h].exec.Some? && s.handles[h].exec.value in s.execs
  {
    gate.Checked? && s.handles[h].state.Started? && !gate.late && !LosesConnection(s, h, gate)
  }

  function AfterGate(s: Sys, h: Id, gate: Gate): Sys
    requires h in s.handles
    requires s.handles[h].state.Started? ==> s.handles[h].exec.Some? && s.handles[h].exec.value in s.execs
  {
    if LosesConnection(s, h, gate) then
      WithHandle(WithExec(s, s.handles[h].exec.value, Disconnected(s.execs[s.handles[h].exec.value])),
                 h, s.handles[h].(state := RolledBack))
    else s
  }

  function Claimed(s: Sys, h: Id): Sys
    requires h in s.handles
  {
    WithHandle(s, h, s.handles[h].(busy := Some(s.next)))
  }

  function StartUserStep(s: Sys, h: Id, gate: Gate): Sys
    requires h in s.handles
    requires s.handles[h].state.Started? ==> s.handles[h].exec.Some? && s.handles[h].exec.value in s.execs
  {
    if Passes(s, h, gate) then Start(Claimed(s, h), Issue(h, s.handles[h].exec.value, UserOp))
    else AfterGate(s, h, gate)
  }

  // A refused synchronous Commit or Rollback goes on to EndTransaction, because the results it
  // looks at carry no error; a refused asynchronous one stops.
  function StartEndStep(s: Sys, h: Id, rollback: bool, sync: bool, gate: Gate): Sys
    requires h in s.handles
    requires s.handles[h].state.Started? ==> s.handles[h].exec.Some? && s.handles[h].exec.value in s.execs
  {
    if Passes(s, h, gate) then
      Start(Claimed(s, h), Issue(h, s.handles[h].exec.value, EndOp(rollback, sync)))
    else if !sync then
      AfterGate(s, h, gate)
    else
      var g := AfterGate(s, h, gate);
      var open := s.handles[h].state.Started? && !LosesConnection(s, h, gate) && s.handles[h].tx.Some?;
      Start(Claimed(g, h), Settle(h, rollback, false))
        .(refused := if open then s.refused + {s.handles[h].tx.value} else s.refused)
  }

  // The executor after a handle's statement.
  function Issued(x: Exec, op: Op, tx: Id, env: Env): Exec {
    if op.UserOp? then Ran(x, Tx(tx), env.net, env.ok)
    else Sent(x, if op.rollback then Rollback else Commit, Tx(tx), env.ok)
  }

  function StepIssue(s: Sys, t: Id, h: Id, e: Id, op: Op, env: Env): Sys
    requires Refs(s, Issue(h, e, op))
  {
    if s.execs[e].connected then StepSend(s, t, h, e, op, env) else StepUnsent(s, t, h, op)
  }

  // The task finds its connection lost and only fills in the status.
  function StepUnsent(s: Sys, t: Id, h: Id, op: Op): Sys
    requires h in s.handles
  {
    if op.EndOp? && op.sync then At(s, t, Settle(h, op.rollback, false)) else Done(Free(s, h), t)
  }

  function StepSend(s: Sys, t: Id, h: Id, e: Id, op: Op, env: Env): Sys
    requires Refs(s, Issue(h, e, op))
  {
    var tx := s.handles[h].tx.value;
    var y := Issued(s.execs[e], op, tx, env);
    var s1 := WithExec(s, e, y).(txs := s.txs[tx := s.txs[tx].(last := |y.log|)]);
    if op.EndOp? && env.ok
    then At(s1, t, Settle(h, op.rollback, env.contextOk || !op.sync))
    else Done(Free(s1, h), t)
  }

  // ---------- EndTransaction ----------

  function StepSettle(s: Sys, t: Id, h: Id, rollback: bool, ok: bool): Sys
    requires Refs(s, Settle(h, rollback, ok))
  {
    var x := s.handles[h].(state := if rollback then RolledBack else Committed);
    At(WithHandle(s, h, x), t,
       if x.exec == None then Return(h, rollback, ok)
       else Find(s.execs[x.exec.value].addr, End(h, rollback, ok)))
  }

  // ---------- MysqlExecutorPool::Reclaim ----------

  function StepLock(s: Sys, t: Id, p: Id, e: Id, job: Job): Sys
    requires PoolRefs(s, p) && e in s.execs
  {
    var q := s.pools[p];
    var k := ShardIndex(s.cfg, s.execs[e].eid);
    if HasRoom(s.cfg, |q.shards[k]|)
    then At(WithPool(s, p, q.(locks := q.locks[k := Some(t)])), t, Load(p, k, e, job))
    else At(s, t, Bump(p, e, job))
  }

  function StepLoad(s: Sys, t: Id, p: Id, k: nat, e: Id, job: Job): Sys
    requires PoolRefs(s, p) && k < s.cfg.numShardGroup
  {
    var q := s.pools[p];
    if UnderLimit(s.cfg, q.incs % U32)
    then At(s, t, Push(p, k, e, job))
    else At(WithPool(s, p, q.(locks := q.locks[k := None])), t, Bump(p, e, job))
  }

  function StepPush(s: Sys, t: Id, p: Id, k: nat, e: Id, job: Job): Sys
    requires Refs(s, Push(p, k, e, job))
  {
    var q := s.pools[p];
    var s1 := WithExec(WithPool(s, p, q.(shards := q.shards[k := q.shards[k] + [e]], locks := q.locks[k := None])),
                       e, s.execs[e].(aliveTime := s.now, owner := InShard(p, k)));
    if job.End? then
      At(WithHandle(s1, job.handle, s.handles[job.handle].(exec := None)), t, Return(job.handle, job.rollback, job.ok))
    else Done(s1, t)
  }

  function StepBump(s: Sys, t: Id, p: Id, e: Id, job: Job): Sys
    requires PoolRefs(s, p)
  {
    At(WithPool(s, p, s.pools[p].(incs := s.pools[p].incs + 1)), t, Shut(p, e, job))
  }

  // The caller's pointer is not nulled on this path: the handle keeps the closed executor.
  function StepShut(s: Sys, t: Id, e: Id, job: Job): Sys
    requires e in s.execs
  {
    var x := Disconnected(s.execs[e]);
    if job.End? then At(WithExec(s, e, x), t, Return(job.handle, job.rollback, job.ok))
    else Done(WithExec(s, e, x.(owner := Closed)), t)
  }

  // ---------- handle objects ----------

  // The executor e, if any, changes hands.
  function OwnedBy(execs: map<Id, Exec>, e: Option<Id>, owner: Owner): map<Id, Exec> {
    if e.Some? && e.value in execs then execs[e.value := execs[e.value].(owner := owner)] else execs
  }

  // The last reference to the executor e, if any, is let go.
  function LetGoOf(execs: map<Id, Exec>, e: Option<Id>): map<Id, Exec> {
    if e.Some? && e.value in execs then execs[e.value := LetGo(execs[e.value])] else execs
  }

  function MoveConstructStep(s: Sys, src: Id): Sys
    requires src in s.handles
  {
    var x := s.handles[src];
    s.(next := s.next + 1,
       execs := OwnedBy(s.execs, x.exec, ByHandle(s.next)),
       handles := s.handles[s.next := x][src := Handle(InValid, None, None, None)],
       txs := Handed(s, x.tx, ByHandle(s.next)).txs)
  }

  // The target's old executor is overwritten without being closed.
  function MoveAssignStep(s: Sys, dst: Id, src: Id): Sys
    requires dst in s.handles && src in s.handles && dst != src
  {
    var x := s.handles[src];
    s.(execs := OwnedBy(LetGoOf(s.execs, s.handles[dst].exec), x.exec, ByHandle(dst)),
       handles := s.handles[dst := x][src := Handle(InValid, None, None, None)],
       txs := Handed(s, x.tx, ByHandle(dst)).txs)
  }

  // Assigning a handle to itself empties it: the source's fields are reset last.
  function SelfAssignStep(s: Sys, h: Id): Sys
    requires h in s.handles
  {
    s.(execs := LetGoOf(s.execs, s.handles[h].exec), handles := s.handles[h := Handle(InValid, None, None, None)])
  }

  function DestroyStep(s: Sys, h: Id): Sys
    requires h in s.handles && (s.handles[h].exec.Some? ==> s.handles[h].exec.value in s.execs)
  {
    var x := s.handles[h].exec;
    var s1 := if x.Some? then WithExec(s, x.value, Disconnected(s.execs[x.value]).(owner := Closed)) else s;
    s1.(handles := s.handles - {h})
  }

  // ---------- the transition system ----------

  predicate Idle(s: Sys, h: Id) {
    h in s.handles && s.handles[h].busy == None
    && (s.handles[h].exec.Some? ==> s.handles[h].exec.value in s.execs)
    && (s.handles[h].state.Started? ==> s.handles[h].exec.Some?)
  }

  predicate Enabled(s: Sys, a: Action) {
    match a
    case Tick(ms) => s.now + ms < U64
    case StartQuery(_) => true
    case StartBegin(_) => true
    case NewHandle => true
    case StartUser(h, _) => Idle(s, h)
    case StartEnd(h, _, _, _) => Idle(s, h)
    case MoveConstruct(src) => Idle(s, src)
    case MoveAssign(dst, src) => Idle(s, dst) && Idle(s, src)
    case Destroy(h) => Idle(s, h)
    case Step(t, _) => t in s.tasks && Refs(s, s.tasks[t]) && LockFree(s, s.tasks[t])
  }

  // GetOrCreate and what leads to it; Reclaim; everything that sends or settles.
  predicate Reclaiming(pc: Pc) {
    pc.Lock? || pc.Load? || pc.Push? || pc.Bump? || pc.Shut?
  }

  predicate Calling(pc: Pc) {
    pc.Got? || pc.Began? || pc.Issue? || pc.Settle? || pc.Return?
  }

  function StepFetch(s: Sys, t: Id, env: Env): Sys
    requires t in s.tasks && Refs(s, s.tasks[t]) && !Reclaiming(s.tasks[t]) && !Calling(s.tasks[t])
  {
    var pc := s.tasks[t];
    match pc
    case Find(addr, job) => StepFind(s, t, addr, job)
    case Insert(addr, own, job) => StepInsert(s, t, addr, own, job)
    case Ticket(p, job) => StepTicket(s, t, p, job)
    case Scan(_, _, _, _) => StepScan(s, t, pc, env.ping)
    case Discard(_, _, _, _, _) => StepDiscard(s, t, pc)
    case Make(p, sid, job) => StepMake(s, t, p, sid, job)
    case Dial(p, e, job) => StepDial(s, t, p, e, job, env.dial)
    case Count(p, e, job) => StepCount(s, t, p, e, job)
  }

  function StepReclaim(s: Sys, t: Id): Sys
    requires t in s.tasks && Refs(s, s.tasks[t]) && Reclaiming(s.tasks[t])
  {
    match s.tasks[t]
    case Lock(p, e, job) => StepLock(s, t, p, e, job)
    case Load(p, k, e, job) => StepLoad(s, t, p, k, e, job)
    case Push(p, k, e, job) => StepPush(s, t, p, k, e, job)
    case Bump(p, e, job) => StepBump(s, t, p, e, job)
    case Shut(_, e, job) => StepShut(s, t, e, job)
  }

  function StepCall(s: Sys, t: Id, env: Env): Sys
    requires t in s.tasks && Refs(s, s.tasks[t]) && Calling(s.tasks[t])
  {
    match s.tasks[t]
    case Got(p, e, job) => StepGot(s, t, p, e, job, env)
    case Began(_, e, ok) => StepBegan(s, t, e, ok, env.contextOk)
    case Issue(h, e, op) => StepIssue(s, t, h, e, op, env)
    case Settle(h, rollback, ok) => StepSettle(s, t, h, rollback, ok)
    case Return(h, _, _) => Done(Free(s, h), t)
  }

  function StepTask(s: Sys, t: Id, env: Env): Sys
    requires t in s.tasks && Refs(s, s.tasks[t])
  {
    if Reclaiming(s.tasks[t]) then StepReclaim(s, t)
    else if Calling(s.tasks[t]) then StepCall(s, t, env)
    else StepFetch(s, t, env)
  }

  function Apply(s: Sys, a: Action): Sys
    requires Enabled(s, a)
  {
    match a
    case Tick(ms) => s.(now := s.now + ms)
    case StartQuery(addr) => Start(s, Find(addr, Query))
    case StartBegin(addr) => Start(s, Find(addr, Open))
    case NewHandle => WithHandle(s, s.next, Handle(NotInited, None, None, None)).(next := s.next + 1)
    case StartUser(h, gate) => StartUserStep(s, h, gate)
    case StartEnd(h, rollback, sync, gate) => StartEndStep(s, h, rollback, sync, gate)
    case MoveConstruct(src) => MoveConstructStep(s, src)
    case MoveAssign(dst, src) => if dst == src then SelfAssignStep(s, src) else MoveAssignStep(s, dst, src)
    case Destroy(h) => DestroyStep(s, h)
    case Step(t, env) => StepTask(s, t, env)
  }

  // Nothing has happened yet.
  predicate Fresh(s: Sys) {
    s == Sys(s.cfg, 0, 0, map[], map[], map[], map[], map[], map[], {})
  }

  // A run: any number of tasks, any interleaving, any outcomes.
  ghost predicate Run(states: seq<Sys>, acts: seq<Action>) {
    |states| == |acts| + 1
    && Fresh(states[0])
    && forall i {:trigger StepAt(states, acts, i)} :: 0 <= i < |acts| ==> StepAt(states, acts, i)
  }

  ghost predicate StepAt(states: seq<Sys>, acts: seq<Action>, i: nat)
    requires i < |acts| < |states|
  {
    Follows(states[i], acts[i], states[i + 1])
  }

  ghost predicate Follows(s: Sys, a: Action, s': Sys) {
    Enabled(s, a) && s' == Apply(s, a)
  }
}
