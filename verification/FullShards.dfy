/** Runs in which a shard becomes as long as it can: one executor more than floor(max_size / num_shard_group). */
module FullShards {
  import opened Options
  import opened PoolRules
  import opened Endpoint
  import opened Protocol
  import opened ProtocolInvariant
  import opened ProtocolPoolSteps
  import opened PoolTheorems
  import opened PoolReturns
  import opened TicketBalance

  // Pool 1 serves addr; its shards are free, and shard 0 is this long.
  ghost predicate Serving(s: Sys, addr: NodeAddr, first: seq<Id>) {
    Reachable(s) && EndpointKey(addr) in s.registry && s.registry[EndpointKey(addr)] == 1
    && PoolRefs(s, 1) && s.pools[1].locks == seq(s.cfg.numShardGroup, _ => None) && s.pools[1].shards[0] == first
  }

  lemma FirstLookup(cfg: PoolOption, addr: NodeAddr) returns (s: Sys)
    ensures Reachable(s) && s.cfg == cfg && s.tasks == map[0 := Insert(addr, 1, Query)]
    ensures EndpointKey(addr) !in s.registry && 1 in s.pools && s.pools[1] == NewPool(cfg, addr, 0)
  {
    var s0 := Sys(cfg, 0, 0, map[], map[], map[], map[], map[], map[], {});
    var acts: seq<Action> := [];
    assert Run([s0], acts) && [s0][|acts|] == s0;
    ReachableStep(s0, StartQuery(addr));
    var s1 := Apply(s0, StartQuery(addr));
    ReachableStep(s1, Step(0, FINE));
    s := Apply(s1, Step(0, FINE));
  }

  lemma FirstQuery(cfg: PoolOption, addr: NodeAddr) returns (s: Sys)
    ensures Serving(s, addr, []) && s.cfg == cfg && 0 in s.tasks && s.tasks[0] == Ticket(1, Query)
    ensures s.pools[1].tickets == 0 && s.pools[1].incs == 0
  {
    var s2 := FirstLookup(cfg, addr);
    s := StepInsert(s2, 0, addr, 1, Query);
    assert Enabled(s2, Step(0, FINE)) && s == Apply(s2, Step(0, FINE));
    ReachableStep(s2, Step(0, FINE));
  }

  // Another thread asks the same pool.
  lemma NextQuery(s: Sys, addr: NodeAddr) returns (s': Sys)
    requires Serving(s, addr, [])
    ensures Serving(s', addr, []) && s'.next == s.next + 1
    ensures s'.tasks == s.tasks[s.next := Ticket(1, Query)] && s'.cfg == s.cfg
    ensures s'.pools == s.pools && s'.execs == s.execs
  {
    var s1 := Apply(s, StartQuery(addr));
    ReachableStep(s, StartQuery(addr));
    OnlyLocksBlock(s1, s.next, FINE);
    ReachableStep(s1, Step(s.next, FINE));
    s' := Apply(s1, Step(s.next, FINE));
  }

  // t draws its ticket.
  lemma DrawsTicket(s: Sys, addr: NodeAddr, t: Id) returns (s': Sys)
    requires Serving(s, addr, []) && t in s.tasks && s.tasks[t] == Ticket(1, Query) && s.pools[1].tickets < U32
    ensures Serving(s', addr, []) && s'.next == s.next && s'.cfg == s.cfg && s'.execs == s.execs
    ensures s'.tasks == s.tasks[t := Scan(1, s.pools[1].tickets, RETRY_NUM, Query)]
    ensures s'.pools[1] == s.pools[1].(tickets := s.pools[1].tickets + 1)
  {
    StepsOn(s, t, FINE);
    s' := Next(s, t, FINE);
  }

  // t finds shard 0 empty.
  lemma FindsNone(s: Sys, addr: NodeAddr, t: Id, sid: nat) returns (s': Sys)
    requires Serving(s, addr, []) && t in s.tasks && s.tasks[t] == Scan(1, sid, RETRY_NUM, Query)
    requires sid % s.cfg.numShardGroup == 0
    ensures Serving(s', addr, []) && s' == At(s, t, Make(1, sid, Query))
  {
    StepsOn(s, t, FINE);
    s' := Next(s, t, FINE);
  }

  // t makes an executor.
  lemma MakesOne(s: Sys, addr: NodeAddr, t: Id, sid: nat) returns (s': Sys)
    requires Serving(s, addr, []) && t in s.tasks && s.tasks[t] == Make(1, sid, Query)
    ensures Serving(s', addr, []) && s'.next == s.next + 1 && s'.cfg == s.cfg
    ensures s'.tasks == s.tasks[t := Dial(1, s.next, Query)]
    ensures s'.pools[1] == s.pools[1].(made := s.pools[1].made + 1)
    ensures s.next !in s.execs && s.next in s'.execs && s'.execs == s.execs[s.next := s'.execs[s.next]]
    ensures s'.execs[s.next].pool == 1 && s'.execs[s.next].eid == PackId(sid, s.pools[1].made % U32)
  {
    ReachableHolds(s);
    NextUnused(s);
    StepsOn(s, t, FINE);
    s' := Next(s, t, FINE);
  }

  // The dial succeeds.
  lemma DialsOne(s: Sys, addr: NodeAddr, t: Id, e: Id) returns (s': Sys)
    requires Serving(s, addr, []) && t in s.tasks && s.tasks[t] == Dial(1, e, Query)
    ensures e in s.execs && Serving(s', addr, [])
    ensures s' == At(WithExec(s, e, Dialled(s.execs[e])), t, Count(1, e, Query))
  {
    StepsOn(s, t, FINE);
    s' := Next(s, t, FINE);
  }

  // It is counted.
  lemma CountsOne(s: Sys, addr: NodeAddr, t: Id, e: Id) returns (s': Sys)
    requires Serving(s, addr, []) && t in s.tasks && s.tasks[t] == Count(1, e, Query)
    ensures Serving(s', addr, []) && s'.next == s.next && s'.cfg == s.cfg
    ensures s'.tasks == s.tasks[t := Got(1, e, Query)]
    ensures s'.pools[1] == s.pools[1].(incs := s.pools[1].incs + 1)
    ensures e in s.execs && e in s'.execs && s'.execs == s.execs[e := s'.execs[e]]
    ensures s'.execs[e] == s.execs[e].(rank := s'.execs[e].rank)
  {
    StepsOn(s, t, FINE);
    s' := Next(s, t, FINE);
  }

  // From the ticket to the new executor, if the ticket leads to shard 0.
  lemma GetsNew(s: Sys, addr: NodeAddr, t: Id) returns (s': Sys)
    requires Serving(s, addr, []) && t in s.tasks && s.tasks[t] == Ticket(1, Query)
    requires s.pools[1].tickets < U32 && s.pools[1].tickets % s.cfg.numShardGroup == 0
    ensures Serving(s', addr, []) && s'.next == s.next + 1 && s'.cfg == s.cfg
    ensures s'.tasks == s.tasks[t := Got(1, s.next, Query)]
    ensures s'.pools[1].tickets == s.pools[1].tickets + 1 && s'.pools[1].incs == s.pools[1].incs + 1
    ensures s.next !in s.execs && s.next in s'.execs && s'.execs == s.execs[s.next := s'.execs[s.next]]
    ensures s'.execs[s.next].connected && Shard(s', s.next) == 0
  {
    var s1 := DrawsTicket(s, addr, t);
    var s2 := FindsNone(s1, addr, t, s.pools[1].tickets);
    var s3 := MakesOne(s2, addr, t, s.pools[1].tickets);
    var s4 := DialsOne(s3, addr, t, s.next);
    s' := CountsOne(s4, addr, t, s.next);
    PackedIdKeepsTicket(s.cfg, s.pools[1].tickets, s1.pools[1].made % U32);
  }

  // ---------- many executors of shard 0 ----------

  datatype Holding = Holding(t: Id, e: Id)

  // Thread h.t has connected executor h.e of shard 0.
  predicate HoldsFirst(s: Sys, h: Holding) {
    h.t in s.tasks && s.tasks[h.t] == Got(1, h.e, Query)
    && h.e in s.execs && s.execs[h.e].connected && Shard(s, h.e) == 0
  }

  // All different, and known to the system.
  predicate AllHold(s: Sys, held: seq<Holding>) {
    (forall i :: 0 <= i < |held| ==> HoldsFirst(s, held[i]))
    && (forall i, j :: 0 <= i < j < |held| ==> held[i].t != held[j].t && held[i].e != held[j].e)
  }

  // What was there stays there.
  predicate Grows(s: Sys, s': Sys) {
    s'.cfg == s.cfg
    && (forall t :: t in s.tasks ==> t in s'.tasks && s'.tasks[t] == s.tasks[t])
    && (forall e :: e in s.execs ==> e in s'.execs && s'.execs[e] == s.execs[e])
  }

  lemma StillHeld(s: Sys, s': Sys, held: seq<Holding>)
    requires AllHold(s, held) && Grows(s, s')
    ensures AllHold(s', held)
  {
    forall i | 0 <= i < |held|
      ensures HoldsFirst(s', held[i])
    {
      assert HoldsFirst(s, held[i]);
    }
  }

  // A new thread asks and draws a ticket.
  lemma OneMoreTicket(s: Sys, addr: NodeAddr) returns (s': Sys)
    requires Serving(s, addr, []) && s.pools[1].tickets < U32
    ensures Serving(s', addr, []) && Grows(s, s')
    ensures s'.pools[1] == s.pools[1].(tickets := s.pools[1].tickets + 1)
  {
    ReachableHolds(s);
    NextUnused(s);
    var s1 := NextQuery(s, addr);
    s' := DrawsTicket(s1, addr, s.next);
  }

  lemma {:induction false} MoreTickets(s: Sys, addr: NodeAddr, n: nat) returns (s': Sys)
    requires Serving(s, addr, []) && s.pools[1].tickets + n <= U32
    ensures Serving(s', addr, []) && Grows(s, s')
    ensures s'.pools[1] == s.pools[1].(tickets := s.pools[1].tickets + n)
  {
    s' := s;
    if n > 0 {
      var s1 := MoreTickets(s, addr, n - 1);
      s' := OneMoreTicket(s1, addr);
    }
  }

  // A new thread gets a new executor of shard 0.
  lemma OneMoreHeld(s: Sys, addr: NodeAddr, held: seq<Holding>) returns (s': Sys, h: Holding)
    requires Serving(s, addr, []) && AllHold(s, held)
    requires s.pools[1].tickets < U32 && s.pools[1].tickets % s.cfg.numShardGroup == 0
    ensures Serving(s', addr, []) && s'.cfg == s.cfg && AllHold(s', held + [h])
    ensures s'.pools[1].tickets == s.pools[1].tickets + 1 && s'.pools[1].incs == s.pools[1].incs + 1
  {
    ReachableHolds(s);
    NextUnused(s);
    var s1 := NextQuery(s, addr);
    s' := GetsNew(s1, addr, s.next);
    h := Holding(s.next, s1.next);
    assert Grows(s, s');
    StillHeld(s, s', held);
    forall i | 0 <= i < |held|
      ensures held[i].t != h.t && held[i].e != h.e
    {
      assert HoldsFirst(s, held[i]);
    }
  }

  lemma TurnsOf(g: nat, n: nat)
    requires g > 0
    ensures n * g % g == 0 && (n + 1) * g == n * g + g
  {
    Quotient(n * g, g, n, 0);
  }

  // n turns of the tickets, and one executor more.
  lemma {:induction false} ManyHeld(cfg: PoolOption, addr: NodeAddr, n: nat) returns (s: Sys, held: seq<Holding>)
    requires n * cfg.numShardGroup < U32
    ensures Serving(s, addr, []) && s.cfg == cfg && AllHold(s, held) && |held| == n + 1
    ensures s.pools[1].tickets == n * cfg.numShardGroup + 1 && s.pools[1].incs == n + 1
  {
    if n == 0 {
      var s0 := FirstQuery(cfg, addr);
      var h;
      s, h := OneMoreHeld(s0, addr, []);
      held := [h];
      assert [] + [h] == held;
    } else {
      TurnsOf(cfg.numShardGroup, n - 1);
      TurnsOf(cfg.numShardGroup, n);
      var s1, held1 := ManyHeld(cfg, addr, n - 1);
      var s2 := MoreTickets(s1, addr, cfg.numShardGroup - 1);
      StillHeld(s1, s2, held1);
      var h;
      s, h := OneMoreHeld(s2, addr, held1);
      held := held1 + [h];
    }
  }

  // ---------- all of them come back ----------

  lemma GoesBack(s: Sys, h: Holding) returns (s': Sys)
    requires Reachable(s) && HoldsFirst(s, h) && RoomFor(s, h.e, 1) && Unlocked(s, h.e, 1)
    ensures Reachable(s') && OnlyThese(s, s', h.t, 1, h.e) && PutBack(s, s', 1, h.e)
  {
    QueryAlone(s, h.t, 1, h.e, FINE);
    s' := Finished(s, h.t, FINE);
  }

  // h finishes its query.
  lemma OneReturns(s: Sys, addr: NodeAddr, first: seq<Id>, h: Holding) returns (s': Sys)
    requires Serving(s, addr, first) && HoldsFirst(s, h)
    requires |first| <= s.cfg.maxSize / s.cfg.numShardGroup && s.pools[1].incs <= s.cfg.maxSize
    ensures Serving(s', addr, first + [h.e]) && s'.cfg == s.cfg
    ensures s'.tasks == s.tasks - {h.t} && s'.execs - {h.e} == s.execs - {h.e}
    ensures s'.pools[1].incs == s.pools[1].incs
  {
    s' := GoesBack(s, h);
    ServesOn(s, s', addr, first, h);
  }

  lemma ServesOn(s: Sys, s': Sys, addr: NodeAddr, first: seq<Id>, h: Holding)
    requires Serving(s, addr, first) && HoldsFirst(s, h) && Reachable(s')
    requires OnlyThese(s, s', h.t, 1, h.e) && PutBack(s, s', 1, h.e)
    ensures Serving(s', addr, first + [h.e])
  {
  }

  lemma OthersHold(s: Sys, s': Sys, held: seq<Holding>)
    requires held != [] && AllHold(s, held) && s'.cfg == s.cfg
    requires s'.tasks == s.tasks - {held[0].t} && s'.execs - {held[0].e} == s.execs - {held[0].e}
    ensures AllHold(s', held[1..])
  {
    forall i | 1 <= i < |held|
      ensures HoldsFirst(s', held[i])
    {
      assert HoldsFirst(s, held[i]);
      assert held[i].t in s.tasks - {held[0].t} && held[i].e in s.execs - {held[0].e};
      assert (s'.execs - {held[0].e})[held[i].e] == s'.execs[held[i].e];
    }
  }

  lemma {:induction false} AllBack(s: Sys, addr: NodeAddr, first: seq<Id>, held: seq<Holding>) returns (s': Sys)
    requires Serving(s, addr, first) && AllHold(s, held)
    requires |first| + |held| <= s.cfg.maxSize / s.cfg.numShardGroup + 1 && s.pools[1].incs <= s.cfg.maxSize
    ensures Reachable(s') && s'.cfg == s.cfg && PoolRefs(s', 1) && s'.pools[1].incs == s.pools[1].incs
    ensures |s'.pools[1].shards[0]| == |first| + |held|
    decreases |held|
  {
    s' := s;
    if held != [] {
      assert HoldsFirst(s, held[0]);
      var s1 := OneReturns(s, addr, first, held[0]);
      OthersHold(s, s1, held);
      s' := AllBack(s1, addr, first + [held[0].e], held[1..]);
    }
  }

  // In some run of this configuration a shard holds floor + 1 executors, and the counter has not wrapped.
  ghost predicate BoundMet(cfg: PoolOption) {
    exists s: Sys, p: Id, k: nat :: FullAt(s, cfg, p, k)
  }

  ghost predicate FullAt(s: Sys, cfg: PoolOption, p: Id, k: nat) {
    Reachable(s) && s.cfg == cfg && p in s.pools && k < |s.pools[p].shards| && s.pools[p].incs < U32
    && |s.pools[p].shards[k]| == cfg.maxSize / cfg.numShardGroup + 1
  }

  lemma {:induction false} ShardAmongIdlers(shards: seq<seq<Id>>, k: nat)
    requires k < |shards|
    ensures |shards[k]| <= |Idlers(shards)|
  {
    if k > 0 {
      ShardAmongIdlers(shards[1..], k - 1);
    }
  }

  lemma TwiceAtMost(g: nat, q: nat)
    requires g >= 2
    ensures 2 * q <= g * q
  {
    if q > 0 {
      TwiceAtMost(g, q - 1);
      assert g * q == g * (q - 1) + g;
    }
  }

  lemma FloorBelow(m: nat, g: nat)
    requires g > 0
    ensures m / g * g <= m
    ensures m / g + 1 <= m <==> g >= 2 && m >= 1
  {
    var q := m / g;
    assert m == g * q + m % g;
    if g >= 2 {
      TwiceAtMost(g, q);
    } else {
      assert g == 1;
    }
  }

  /** The bound on a shard is attained, before the counter wraps, exactly when there are at least two shards
      and a connection is allowed. */
  lemma BoundMetIff(cfg: PoolOption, addr: NodeAddr)
    ensures BoundMet(cfg) <==> cfg.numShardGroup >= 2 && cfg.maxSize >= 1
  {
    var n := cfg.maxSize / cfg.numShardGroup;
    FloorBelow(cfg.maxSize, cfg.numShardGroup);
    if n + 1 <= cfg.maxSize {
      var s, held := ManyHeld(cfg, addr, n);
      var s' := AllBack(s, addr, [], held);
      assert FullAt(s', cfg, 1, 0);
    }
    if s: Sys, p: Id, k: nat :| FullAt(s, cfg, p, k) {
      IdleBound(s, p);
      ShardAmongIdlers(s.pools[p].shards, k);
    }
  }
}
