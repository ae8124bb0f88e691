/** Which statements of a transaction run inside it on the server: the redials of a run decide. */
module TransactionSessions {
  import opened Options
  import opened Endpoint
  import opened HandleState
  import opened Protocol
  import opened ProtocolInvariant
  import opened ProtocolPoolSteps
  import opened ProtocolHandleSteps
  import opened ProtocolRuns
  import opened ProtocolEffects
  import opened PoolTheorems
  import opened TransactionTheorems

  // A queued prepared statement of a handle finds the connection e lost and dials again.
  predicate Redials(s: Sys, a: Action, e: Id) {
    a.Step? && a.t in s.tasks && s.tasks[a.t].Issue? && s.tasks[a.t].op.UserOp? && s.tasks[a.t].e == e
    && a.env.net.Redial? && e in s.execs && s.execs[e].connected
  }

  // The same, for a statement of transaction x.
  predicate RedialsFor(s: Sys, a: Action, x: Id) {
    a.Step? && a.t in s.tasks && s.tasks[a.t].Issue? && Redials(s, a, s.tasks[a.t].e)
    && s.tasks[a.t].handle in s.handles && s.handles[s.tasks[a.t].handle].tx == Some(x)
  }

  // ---------- sessions ----------

  predicate SameSession(s: Sys, s': Sys, e: Id) {
    e in s.execs && e in s'.execs && s'.execs[e].session == s.execs[e].session
  }

  lemma ManagerSession(s: Sys, t: Id, addr: NodeAddr, own: Id, job: Job, e: Id)
    requires JobRefs(s, job) && e in s.execs
    ensures SameSession(s, StepFind(s, t, addr, job), e)
    ensures own in s.pools ==> SameSession(s, StepInsert(s, t, addr, own, job), e)
  {
    ManagerSendsNothing(s, t, addr, own, job);
  }

  lemma FetchSession(s: Sys, t: Id, env: Env, e: Id)
    requires t in s.tasks && Refs(s, s.tasks[t]) && !Reclaiming(s.tasks[t]) && !Calling(s.tasks[t])
    requires TaskOk(s, t) && e in s.execs && e != s.next && s.execs[e].owner.ByHandle?
    ensures SameSession(s, StepFetch(s, t, env), e)
  {
    match s.tasks[t]
    case Find(addr, job) => ManagerSession(s, t, addr, 0, job, e);
    case Insert(addr, own, job) => ManagerSession(s, t, addr, own, job, e);
    case Ticket(_, _) =>
    case Scan(_, _, _, _) =>
    case Discard(_, _, _, _, _) =>
    case Make(_, _, _) =>
    case Dial(_, _, _) =>
    case Count(_, _, _) =>
  }

  lemma ReclaimSession(s: Sys, t: Id, e: Id)
    requires t in s.tasks && Refs(s, s.tasks[t]) && Reclaiming(s.tasks[t]) && e in s.execs
    ensures SameSession(s, StepReclaim(s, t), e)
  {
    match s.tasks[t]
    case Lock(_, _, _) =>
    case Load(_, _, _, _) =>
    case Push(_, _, _, _) =>
    case Bump(_, _, _) =>
    case Shut(_, _, _) =>
  }

  lemma IssueSession(s: Sys, t: Id, h: Id, d: Id, op: Op, env: Env, e: Id)
    requires t in s.tasks && s.tasks[t] == Issue(h, d, op) && Refs(s, s.tasks[t]) && e in s.execs
    ensures SameSession(s, StepIssue(s, t, h, d, op, env), e) <==> !Redials(s, Step(t, env), e)
  {
  }

  lemma CallSession(s: Sys, t: Id, env: Env, e: Id)
    requires t in s.tasks && Refs(s, s.tasks[t]) && Calling(s.tasks[t]) && !s.tasks[t].Issue?
    requires TaskOk(s, t) && e in s.execs && s.execs[e].owner.ByHandle?
    ensures SameSession(s, StepCall(s, t, env), e)
  {
    match s.tasks[t]
    case Got(_, _, _) =>
    case Began(_, _, _) =>
    case Settle(_, _, _) =>
    case Return(_, _, _) =>
  }

  lemma GateSession(s: Sys, h: Id, gate: Gate, e: Id)
    requires Idle(s, h) && e in s.execs
    ensures SameSession(s, AfterGate(s, h, gate), e)
  {
  }

  lemma MoveSession(s: Sys, dst: Id, src: Id, e: Id)
    requires Idle(s, src) && Idle(s, dst) && e in s.execs
    ensures SameSession(s, MoveConstructStep(s, src), e)
    ensures SameSession(s, if dst == src then SelfAssignStep(s, src) else MoveAssignStep(s, dst, src), e)
  {
  }

  lemma ApiSession(s: Sys, a: Action, e: Id)
    requires Enabled(s, a) && !a.Step? && e in s.execs
    ensures SameSession(s, Apply(s, a), e)
  {
    match a
    case StartUser(h, gate) => GateSession(s, h, gate, e);
    case StartEnd(h, _, _, gate) => GateSession(s, h, gate, e);
    case MoveConstruct(src) => MoveSession(s, src, src, e);
    case MoveAssign(dst, src) => MoveSession(s, dst, src, e);
    case _ =>
  }

  /** The connection of a handle gets a new session by one kind of action only, and by each of that
      kind: a queued prepared statement of the handle dials again. */
  lemma SessionChangesIff(s: Sys, a: Action, e: Id)
    requires Inv(s) && Enabled(s, a) && e in s.execs && s.execs[e].owner.ByHandle?
    ensures e in Apply(s, a).execs
    ensures Apply(s, a).execs[e].session != s.execs[e].session <==> Redials(s, a, e)
  {
    assert ExecOk(s, e);
    if !a.Step? {
      ApiSession(s, a, e);
    } else {
      assert TaskOk(s, a.t);
      if Reclaiming(s.tasks[a.t]) {
        ReclaimSession(s, a.t, e);
      } else if s.tasks[a.t].Issue? {
        IssueSession(s, a.t, s.tasks[a.t].handle, s.tasks[a.t].e, s.tasks[a.t].op, a.env, e);
      } else if Calling(s.tasks[a.t]) {
        CallSession(s, a.t, a.env, e);
      } else {
        FetchSession(s, a.t, a.env, e);
      }
    }
  }

  // ---------- a transaction along a run ----------

  // A started handle has transaction x.
  predicate HeldOpen(s: Sys, x: Id) {
    x in s.txs && s.txs[x].holder.ByHandle? && s.txs[x].holder.handle in s.handles
    && s.handles[s.txs[x].holder.handle].state.Started? && s.handles[s.txs[x].holder.handle].tx == Some(x)
  }

  // How far the log of the connection had come when transaction x was first redialled, if it was.
  function NextCut(cut: Option<nat>, s: Sys, a: Action, x: Id): Option<nat> {
    if cut.None? && RedialsFor(s, a, x) then Some(|s.execs[s.tasks[a.t].e].log|) else cut
  }

  function Cut(states: seq<Sys>, acts: seq<Action>, n: nat, x: Id): Option<nat>
    requires n <= |acts| < |states|
  {
    if n == 0 then None else NextCut(Cut(states, acts, n - 1, x), states[n - 1], acts[n - 1], x)
  }

  // The block of transaction x is inside it up to the cut and outside from there on, and as long as
  // its handle is started, the connection is in the session of the begin exactly if there is no cut.
  ghost predicate Tracks(s: Sys, x: Id, cut: Option<nat>) {
    if x !in s.txs then cut == None
    else
      var b := s.txs[x];
      b.exec in s.execs && b.first < b.last <= |s.execs[b.exec].log|
      && var log := s.execs[b.exec].log;
      (cut.Some? ==> b.first < cut.value < b.last)
      && (forall i :: b.first < i < b.last ==> (log[i].inTx <==> cut.None? || i < cut.value))
      && (b.holder.ByTask? ==> cut == None)
      && (HeldOpen(s, x) ==> (s.execs[b.exec].session == log[b.first].session <==> cut == None))
  }

  // Nothing of the block changes but, perhaps, who holds it.
  predicate SameBlock(s: Sys, s': Sys, x: Id) {
    x in s.txs && x in s'.txs && s'.txs[x] == s.txs[x].(holder := s'.txs[x].holder)
    && (s'.txs[x].holder.ByTask? ==> s.txs[x].holder.ByTask?)
  }

  lemma TracksKept(s: Sys, s': Sys, x: Id, cut: Option<nat>)
    requires Tracks(s, x, cut) && SameBlock(s, s', x)
    requires s.txs[x].exec in s'.execs && s.execs[s.txs[x].exec].log <= s'.execs[s.txs[x].exec].log
    requires HeldOpen(s', x) ==> HeldOpen(s, x) && SameSession(s, s', s.txs[x].exec)
    ensures Tracks(s', x, cut)
  {
    var b := s.txs[x];
    assert forall i :: b.first <= i < b.last ==> s'.execs[b.exec].log[i] == s.execs[b.exec].log[i];
  }

  // ---------- what a step does to the block of x ----------

  predicate BlockStays(s: Sys, s': Sys, x: Id) {
    if x in s.txs then SameBlock(s, s', x) && (HeldOpen(s', x) ==> HeldOpen(s, x)) else x !in s'.txs
  }

  lemma GotBlock(s: Sys, t: Id, env: Env, x: Id)
    requires t in s.tasks && Refs(s, s.tasks[t]) && s.tasks[t].Got? && !(s.tasks[t].job.Open? && x == t)
    ensures BlockStays(s, StepCall(s, t, env), x)
  {
    var pc := s.tasks[t];
    assert StepCall(s, t, env) == StepGot(s, t, pc.pool, pc.e, pc.job, env);
  }

  lemma SettleBlock(s: Sys, t: Id, env: Env, x: Id)
    requires t in s.tasks && Refs(s, s.tasks[t]) && (s.tasks[t].Settle? || s.tasks[t].Return?)
    ensures BlockStays(s, StepCall(s, t, env), x)
  {
  }

  lemma OtherBeganBlock(s: Sys, t: Id, env: Env, x: Id)
    requires t in s.tasks && Refs(s, s.tasks[t]) && s.tasks[t].Began? && TaskOk(s, t) && x != t
    ensures BlockStays(s, StepCall(s, t, env), x)
  {
    var pc := s.tasks[t];
    assert StepCall(s, t, env) == StepBegan(s, t, pc.e, pc.ok, env.contextOk);
  }

  lemma GateBlock(s: Sys, h: Id, gate: Gate, x: Id)
    requires Idle(s, h)
    ensures BlockStays(s, AfterGate(s, h, gate), x)
  {
  }

  lemma MoveBlock(s: Sys, dst: Id, src: Id, x: Id)
    requires Idle(s, src) && Idle(s, dst) && HandleOk(s, src)
    ensures BlockStays(s, if dst == src then SelfAssignStep(s, src) else MoveAssignStep(s, dst, src), x)
  {
  }

  lemma ConstructBlock(s: Sys, src: Id, x: Id)
    requires Idle(s, src) && HandleOk(s, src)
    ensures BlockStays(s, MoveConstructStep(s, src), x)
  {
  }

  lemma DestroyBlock(s: Sys, h: Id, x: Id)
    requires Idle(s, h)
    ensures BlockStays(s, DestroyStep(s, h), x)
  {
  }

  lemma MovesBlock(s: Sys, a: Action, x: Id)
    requires Enabled(s, a) && HandlesOk(s) && (a.MoveConstruct? || a.MoveAssign? || a.Destroy?)
    ensures BlockStays(s, Apply(s, a), x)
  {
    match a
    case MoveConstruct(src) =>
      assert HandleOk(s, src);
      ConstructBlock(s, src, x);
    case MoveAssign(dst, src) =>
      assert HandleOk(s, src);
      MoveBlock(s, dst, src, x);
    case Destroy(h) => DestroyBlock(s, h, x);
  }

  lemma ApiBlock(s: Sys, a: Action, x: Id)
    requires Enabled(s, a) && HandlesOk(s) && !a.Step?
    ensures BlockStays(s, Apply(s, a), x)
  {
    match a
    case StartUser(h, gate) => GateBlock(s, h, gate, x);
    case StartEnd(h, _, _, gate) => GateBlock(s, h, gate, x);
    case MoveConstruct(_) => MovesBlock(s, a, x);
    case MoveAssign(_, _) => MovesBlock(s, a, x);
    case Destroy(_) => MovesBlock(s, a, x);
    case _ =>
  }

  predicate Begins(pc: Pc) {
    (pc.Got? && pc.job.Open?) || pc.Began?
  }

  // Steps other than a handle's statement and x's own Begin.
  lemma StepBlock(s: Sys, t: Id, env: Env, x: Id)
    requires t in s.tasks && Refs(s, s.tasks[t]) && TaskOk(s, t)
    requires !s.tasks[t].Issue? && !(Begins(s.tasks[t]) && x == t)
    ensures BlockStays(s, StepTask(s, t, env), x)
  {
    if Reclaiming(s.tasks[t]) {
      ReclaimHandles(s, t);
    } else if Calling(s.tasks[t]) {
      match s.tasks[t]
      case Got(_, _, _) => GotBlock(s, t, env, x);
      case Began(_, _, _) => OtherBeganBlock(s, t, env, x);
      case _ => SettleBlock(s, t, env, x);
    } else {
      FetchHandles(s, t, env);
    }
  }

  // ---------- logs only grow ----------

  predicate LogGrows(s: Sys, s': Sys, e: Id) {
    e in s.execs && e in s'.execs && s.execs[e].log <= s'.execs[e].log
  }

  lemma RanGrows(x: Exec, via: Via, net: Net, ok: bool)
    ensures x.log <= Ran(x, via, net, ok).log
  {
  }

  lemma GotGrows(s: Sys, t: Id, p: Id, d: Id, job: Job, env: Env, e: Id)
    requires d in s.execs && e in s.execs
    ensures LogGrows(s, StepGot(s, t, p, d, job, env), e)
  {
    var x := s.execs[d];
    if x.connected && !job.Open? {
      RanGrows(x, Plain, env.net, env.ok);
    }
  }

  lemma IssueGrows(s: Sys, t: Id, h: Id, d: Id, op: Op, env: Env, e: Id)
    requires Refs(s, Issue(h, d, op)) && e in s.execs
    ensures LogGrows(s, StepIssue(s, t, h, d, op, env), e)
  {
    RanGrows(s.execs[d], Tx(s.handles[h].tx.value), env.net, env.ok);
  }

  lemma LogsGrow(s: Sys, a: Action, e: Id)
    requires Enabled(s, a) && e in s.execs && e != s.next
    ensures LogGrows(s, Apply(s, a), e)
  {
    if !a.Step? {
      CallsSendNothing(s, a, e);
    } else {
      match s.tasks[a.t]
      case Got(p, d, job) => GotGrows(s, a.t, p, d, job, a.env, e);
      case Issue(h, d, op) => IssueGrows(s, a.t, h, d, op, a.env, e);
      case _ => LogsUntouched(s, a.t, a.env, e);
    }
  }

  // ---------- one action ----------

  // A connection that a started handle has for x is redialled for x or not at all.
  lemma HeldSession(s: Sys, a: Action, x: Id)
    requires Inv(s) && Enabled(s, a) && HeldOpen(s, x)
    ensures SameSession(s, Apply(s, a), s.txs[x].exec) <==> !RedialsFor(s, a, x)
  {
    var h, e := s.txs[x].holder.handle, s.txs[x].exec;
    assert HandleOk(s, h);
    SessionChangesIff(s, a, e);
    if a.Step? && s.tasks[a.t].Issue? {
      IssueFacts(s, a.t, s.tasks[a.t].handle, s.tasks[a.t].e, s.tasks[a.t].op);
      assert HandleOk(s, s.tasks[a.t].handle);
    }
  }

  lemma QuietTracks(s: Sys, a: Action, x: Id, cut: Option<nat>)
    requires Inv(s) && Enabled(s, a) && Tracks(s, x, cut)
    requires BlockStays(s, Apply(s, a), x) && !RedialsFor(s, a, x)
    ensures Tracks(Apply(s, a), x, cut)
  {
    if x in s.txs {
      assert TxOk(s, x) && ExecOk(s, s.txs[x].exec);
      LogsGrow(s, a, s.txs[x].exec);
      if HeldOpen(Apply(s, a), x) {
        HeldSession(s, a, x);
      }
      TracksKept(s, Apply(s, a), x, cut);
    }
  }

  // Begin is sent: the block of t is its first statement.
  lemma GotTracks(s: Sys, t: Id, env: Env, cut: Option<nat>)
    requires t in s.tasks && s.tasks[t].Got? && s.tasks[t].job.Open? && Refs(s, s.tasks[t])
    requires TaskOk(s, t) && Tracks(s, t, cut)
    ensures Tracks(StepCall(s, t, env), t, cut)
  {
    var pc := s.tasks[t];
    assert StepCall(s, t, env) == StepGot(s, t, pc.pool, pc.e, pc.job, env);
  }

  lemma BeganTracks(s: Sys, t: Id, env: Env, cut: Option<nat>)
    requires t in s.tasks && s.tasks[t].Began? && Refs(s, s.tasks[t]) && TaskOk(s, t) && Tracks(s, t, cut)
    ensures Tracks(StepCall(s, t, env), t, cut)
  {
    var pc := s.tasks[t];
    assert StepCall(s, t, env) == StepBegan(s, t, pc.e, pc.ok, env.contextOk);
  }

  // A statement of another handle.
  lemma OtherIssueBlock(s: Sys, t: Id, env: Env, x: Id)
    requires t in s.tasks && s.tasks[t].Issue? && Refs(s, s.tasks[t])
    requires s.handles[s.tasks[t].handle].tx != Some(x)
    ensures BlockStays(s, StepCall(s, t, env), x)
  {
    var pc := s.tasks[t];
    assert StepCall(s, t, env) == StepIssue(s, t, pc.handle, pc.e, pc.op, env);
  }

  // A statement of x goes out over e and becomes e'.
  lemma SentTracks(s: Sys, s': Sys, x: Id, cut: Option<nat>, cut': Option<nat>)
    requires Tracks(s, x, cut) && HeldOpen(s, x)
    requires s.txs[x].exec in s'.execs && x in s'.txs && !s'.txs[x].holder.ByTask?
    requires var b := s.txs[x];
             var log, log' := s.execs[b.exec].log, s'.execs[b.exec].log;
             b.last == |log| && |log'| == |log| + 1 && log' == log + [log'[|log|]]
             && s'.txs[x] == b.(last := |log'|)
             && (log'[|log|].inTx <==> cut'.None?)
             && cut' == (if cut.Some? then cut else if cut'.None? then None else Some(|log|))
             && (HeldOpen(s', x) ==> (s'.execs[b.exec].session == log[b.first].session <==> cut'.None?))
    ensures Tracks(s', x, cut')
  {
    var b := s.txs[x];
    var log, log' := s.execs[b.exec].log, s'.execs[b.exec].log;
    forall i | b.first < i < |log'|
      ensures log'[i].inTx <==> cut'.None? || i < cut'.value
    {
      assert i < |log| ==> log'[i] == log[i];
    }
  }

  lemma IssueTracks(s: Sys, t: Id, h: Id, e: Id, op: Op, env: Env, x: Id, cut: Option<nat>)
    requires t in s.tasks && s.tasks[t] == Issue(h, e, op) && Refs(s, s.tasks[t]) && Tracks(s, x, cut)
    requires s.handles[h].tx == Some(x) && s.execs[e].connected && !(op.UserOp? && env.net.Lost?)
    requires HeldOpen(s, x) && s.txs[x].exec == e && s.txs[x].last == |s.execs[e].log|
    requires StillOpenOk(s, s.txs[x], x)
    ensures Tracks(StepSend(s, t, h, e, op, env), x, NextCut(cut, s, Step(t, env), x))
  {
    SentTracks(s, StepSend(s, t, h, e, op, env), x, cut, NextCut(cut, s, Step(t, env), x));
  }

  lemma UnsentBlock(s: Sys, t: Id, env: Env, x: Id)
    requires Inv(s) && t in s.tasks && s.tasks[t].Issue? && Refs(s, s.tasks[t]) && x in s.txs
    requires s.handles[s.tasks[t].handle].tx == Some(x)
    requires !s.execs[s.tasks[t].e].connected || (s.tasks[t].op.UserOp? && env.net.Lost?)
    ensures BlockStays(s, StepCall(s, t, env), x)
  {
    var pc := s.tasks[t];
    IssueFacts(s, t, pc.handle, pc.e, pc.op);
    assert StepCall(s, t, env) == StepIssue(s, t, pc.handle, pc.e, pc.op, env);
  }

  lemma HandleStepTracks(s: Sys, t: Id, env: Env, x: Id, cut: Option<nat>)
    requires Inv(s) && Enabled(s, Step(t, env)) && s.tasks[t].Issue? && Tracks(s, x, cut)
    ensures Tracks(Apply(s, Step(t, env)), x, NextCut(cut, s, Step(t, env), x))
  {
    var pc := s.tasks[t];
    assert Apply(s, Step(t, env)) == StepCall(s, t, env);
    if s.handles[pc.handle].tx != Some(x) {
      OtherIssueBlock(s, t, env, x);
      QuietTracks(s, Step(t, env), x, cut);
    } else if !s.execs[pc.e].connected || (pc.op.UserOp? && env.net.Lost?) {
      UnsentBlock(s, t, env, x);
      QuietTracks(s, Step(t, env), x, cut);
    } else {
      OwnIssueTracks(s, t, env, x, cut);
    }
  }

  lemma OwnIssueTracks(s: Sys, t: Id, env: Env, x: Id, cut: Option<nat>)
    requires Inv(s) && t in s.tasks && s.tasks[t].Issue? && Refs(s, s.tasks[t]) && Tracks(s, x, cut)
    requires s.handles[s.tasks[t].handle].tx == Some(x) && s.execs[s.tasks[t].e].connected
    requires !(s.tasks[t].op.UserOp? && env.net.Lost?)
    ensures Tracks(StepCall(s, t, env), x, NextCut(cut, s, Step(t, env), x))
  {
    var pc := s.tasks[t];
    IssueFacts(s, t, pc.handle, pc.e, pc.op);
    assert HandleOk(s, pc.handle) && TxOk(s, x);
    IssueTracks(s, t, pc.handle, pc.e, pc.op, env, x, cut);
    assert StepCall(s, t, env) == StepSend(s, t, pc.handle, pc.e, pc.op, env);
  }

  lemma OpenTracks(s: Sys, t: Id, env: Env, cut: Option<nat>)
    requires t in s.tasks && Begins(s.tasks[t]) && Refs(s, s.tasks[t]) && TaskOk(s, t) && Tracks(s, t, cut)
    ensures Tracks(StepCall(s, t, env), t, cut)
  {
    if s.tasks[t].Got? {
      GotTracks(s, t, env, cut);
    } else {
      BeganTracks(s, t, env, cut);
    }
  }

  lemma TaskTracks(s: Sys, t: Id, env: Env, x: Id, cut: Option<nat>)
    requires Inv(s) && Enabled(s, Step(t, env)) && !s.tasks[t].Issue? && Tracks(s, x, cut)
    ensures Tracks(Apply(s, Step(t, env)), x, cut)
  {
    assert TaskOk(s, t);
    if Begins(s.tasks[t]) && x == t {
      OpenTracks(s, t, env, cut);
    } else {
      StepBlock(s, t, env, x);
      QuietTracks(s, Step(t, env), x, cut);
    }
  }

  lemma ActionTracks(s: Sys, a: Action, x: Id, cut: Option<nat>)
    requires Inv(s) && Enabled(s, a) && Tracks(s, x, cut)
    ensures Tracks(Apply(s, a), x, NextCut(cut, s, a, x))
  {
    if !a.Step? {
      ApiBlock(s, a, x);
      QuietTracks(s, a, x, cut);
    } else if s.tasks[a.t].Issue? {
      HandleStepTracks(s, a.t, a.env, x, cut);
    } else {
      TaskTracks(s, a.t, a.env, x, cut);
    }
  }

  lemma FollowTracks(s: Sys, a: Action, s': Sys, x: Id, cut: Option<nat>)
    requires Inv(s) && Follows(s, a, s')
    ensures Tracks(s, x, cut) ==> Tracks(s', x, NextCut(cut, s, a, x))
  {
    if Tracks(s, x, cut) {
      ActionTracks(s, a, x, cut);
    }
  }

  lemma NextTracks(states: seq<Sys>, acts: seq<Action>, n: nat, x: Id)
    requires Run(states, acts) && 0 < n < |states|
    ensures Tracks(states[n - 1], x, Cut(states, acts, n - 1, x)) ==> Tracks(states[n], x, Cut(states, acts, n, x))
  {
    RunHolds(states, acts, n - 1);
    assert StepAt(states, acts, n - 1);
    FollowTracks(states[n - 1], acts[n - 1], states[n], x, Cut(states, acts, n - 1, x));
  }

  lemma {:induction false} RunTracks(states: seq<Sys>, acts: seq<Action>, n: nat, x: Id)
    requires Run(states, acts) && n < |states|
    ensures Tracks(states[n], x, Cut(states, acts, n, x))
  {
    if n > 0 {
      RunTracks(states, acts, n - 1, x);
      NextTracks(states, acts, n, x);
    }
  }

  // ---------- the results ----------

  // Action j redials for x, at the latest under statement i of its connection.
  predicate RedialledBy(states: seq<Sys>, acts: seq<Action>, j: nat, x: Id, i: nat)
    requires j < |acts| < |states|
  {
    RedialsFor(states[j], acts[j], x) && |states[j].execs[states[j].tasks[acts[j].t].e].log| <= i
  }

  lemma {:induction false} CutIff(states: seq<Sys>, acts: seq<Action>, n: nat, x: Id, i: nat)
    requires Run(states, acts) && n < |states|
    ensures Cut(states, acts, n, x).Some? && Cut(states, acts, n, x).value <= i
            <==> exists j :: 0 <= j < n && RedialledBy(states, acts, j, x, i)
  {
    if n > 0 {
      CutIff(states, acts, n - 1, x, i);
      RunTracks(states, acts, n - 1, x);
      RunHolds(states, acts, n - 1);
      var cut := Cut(states, acts, n - 1, x);
      CutFirst(states[n - 1], acts[n - 1], x, cut);
      assert RedialledBy(states, acts, n - 1, x, i) ==>
          Cut(states, acts, n, x).Some? && Cut(states, acts, n, x).value <= i;
      assert cut.Some? ==> Cut(states, acts, n, x) == cut;
    }
  }

  // A later redial comes under a later statement.
  lemma CutFirst(s: Sys, a: Action, x: Id, cut: Option<nat>)
    requires Inv(s) && Tracks(s, x, cut)
    ensures RedialsFor(s, a, x) && cut.Some? ==> cut.value < |s.execs[s.tasks[a.t].e].log|
  {
    if RedialsFor(s, a, x) && cut.Some? {
      assert TaskOk(s, a.t) && HandleOk(s, s.tasks[a.t].handle);
    }
  }

  /** In every run, a statement of a transaction runs outside it on the server if and only if some
      prepared statement of that transaction, this one or an earlier one, dialled again. */
  lemma OutsideIffRedialled(states: seq<Sys>, acts: seq<Action>, n: nat, x: Id, i: nat)
    requires Run(states, acts) && n < |states| && x in states[n].txs
    requires states[n].txs[x].first < i < states[n].txs[x].last
    ensures states[n].txs[x].exec in states[n].execs && i < |states[n].execs[states[n].txs[x].exec].log|
    ensures !states[n].execs[states[n].txs[x].exec].log[i].inTx
            <==> exists j :: 0 <= j < n && RedialledBy(states, acts, j, x, i)
  {
    RunTracks(states, acts, n, x);
    CutIff(states, acts, n, x, i);
  }

  // Action j redials for x.
  predicate RedialledAt(states: seq<Sys>, acts: seq<Action>, j: nat, x: Id)
    requires j < |acts| < |states|
  {
    RedialsFor(states[j], acts[j], x)
  }

  lemma CutIfRedialled(states: seq<Sys>, acts: seq<Action>, n: nat, x: Id)
    requires Run(states, acts) && n < |states|
    ensures Cut(states, acts, n, x).Some? <==> exists j :: 0 <= j < n && RedialledAt(states, acts, j, x)
  {
    if j :| 0 <= j < n && RedialledAt(states, acts, j, x) {
      var i := |states[j].execs[states[j].tasks[acts[j].t].e].log|;
      assert RedialledBy(states, acts, j, x, i);
      CutIff(states, acts, n, x, i);
    }
    if Cut(states, acts, n, x).Some? {
      var i := Cut(states, acts, n, x).value;
      CutIff(states, acts, n, x, i);
      var j :| 0 <= j < n && RedialledBy(states, acts, j, x, i);
      assert RedialledAt(states, acts, j, x);
    }
  }

  /** A transaction is whole on the server, from its second statement to its last, if and only if no
      action of the run redialled for it. */
  lemma InsideIffNeverRedialled(states: seq<Sys>, acts: seq<Action>, n: nat, x: Id)
    requires Run(states, acts) && n < |states| && x in states[n].txs
    ensures states[n].txs[x].exec in states[n].execs
    ensures var b := states[n].txs[x];
            b.last <= |states[n].execs[b.exec].log|
            && ((forall i :: b.first < i < b.last ==> states[n].execs[b.exec].log[i].inTx)
                <==> !exists j :: 0 <= j < n && RedialledAt(states, acts, j, x))
  {
    RunTracks(states, acts, n, x);
    CutIfRedialled(states, acts, n, x);
    var b := states[n].txs[x];
    var cut := Cut(states, acts, n, x);
    assert cut.Some? ==> !states[n].execs[b.exec].log[cut.value].inTx;
  }

  /** A Commit or Rollback that reports success ran inside its transaction on the server if and only
      if no action of the run redialled for it. */
  lemma EndInsideIffNeverRedialled(states: seq<Sys>, acts: seq<Action>, n: nat, t: Id, h: Id, rollback: bool)
    requires Run(states, acts) && n < |states| && t in states[n].tasks
    requires states[n].tasks[t] == Return(h, rollback, true)
    ensures h in states[n].handles && states[n].handles[h].tx.Some? && states[n].handles[h].tx.value in states[n].txs
    ensures var x := states[n].handles[h].tx.value;
            var b := states[n].txs[x];
            b.exec in states[n].execs && 0 < b.last <= |states[n].execs[b.exec].log|
            && var entry := states[n].execs[b.exec].log[b.last - 1];
            entry.stmt == (if rollback then Rollback else Commit) && entry.ok
            && (entry.inTx <==> !exists j :: 0 <= j < n && RedialledAt(states, acts, j, x))
  {
    RunReaches(states, acts, n);
    EndIsSound(states[n], t, h, rollback);
    var x := states[n].handles[h].tx.value;
    RunTracks(states, acts, n, x);
    CutIfRedialled(states, acts, n, x);
  }
}
