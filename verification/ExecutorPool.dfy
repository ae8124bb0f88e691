/**
  The sharded pool as one caller sees it. How calls of several threads interleave is the subject of
  module Protocol; both use the rules of module PoolRules.
 */
module ExecutorPool {
  import opened PoolRules
  import opened Endpoint
  import opened Executor

  ghost predicate Distinct(shards: seq<seq<MysqlExecutor>>) {
    forall k, i, l, j ::
      (0 <= k < |shards| && 0 <= i < |shards[k]| && 0 <= l < |shards| && 0 <= j < |shards[l]|
       && shards[k][i] == shards[l][j]) ==> k == l && i == j
  }

  lemma DistinctPrefix(shards: seq<seq<MysqlExecutor>>, k: nat, n: nat)
    requires Distinct(shards) && k < |shards| && n <= |shards[k]|
    ensures Distinct(shards[k := shards[k][..n]])
    ensures forall i, j :: 0 <= i < j < |shards[k]| ==> shards[k][i] != shards[k][j]
  {
  }

  class MysqlExecutorPool {
    const poolOption: PoolOption
    const target: NodeAddr
    const maxNumPerShard: nat
    var executorNum: nat
    var shards: seq<seq<MysqlExecutor>>
    var shardIdGen: nat
    var executorIdGen: nat

    // The counters are 32-bit, and no executor is in two positions.
    ghost predicate Valid()
      reads this
    {
      |shards| == poolOption.numShardGroup && maxNumPerShard == MaxNumPerShard(poolOption)
      && executorNum < U32 && shardIdGen < U32 && executorIdGen < U32
      && Distinct(shards)
    }

    constructor (option: PoolOption, nodeAddr: NodeAddr)
      ensures Valid() && poolOption == option && target == nodeAddr
      ensures executorNum == 0 && shardIdGen == 0 && executorIdGen == 0
      ensures Pooled() == {} && forall k :: 0 <= k < |shards| ==> shards[k] == []
    {
      poolOption, target := option, nodeAddr;
      maxNumPerShard := option.maxSize / option.numShardGroup;
      shards := seq(option.numShardGroup, _ => []);
      executorNum, shardIdGen, executorIdGen := 0, 0, 0;
    }

    // ---------- GetOrCreate ----------

    // x would be handed out if it were looked at now.
    predicate Usable(x: MysqlExecutor, ping: bool, now: nat)
      reads x
    {
      x.isConnected && x.mysql != Null && ping
      && (poolOption.maxIdleTime == 0 || (now - x.aliveTime) % U64 < poolOption.maxIdleTime)
    }

    // How many of the at most n executors at the back of list are unusable before the first usable
    // one. The i-th look, counted from the start of the call, pings with pings[i] at clock[i].
    function Discards(list: seq<MysqlExecutor>, n: nat, pings: seq<bool>, clock: seq<nat>): (d: nat)
      requires n <= |pings| == |clock| == RETRY_NUM
      reads list
      ensures d <= n && d <= |list|
    {
      var i := RETRY_NUM - n;
      if n == 0 || list == [] || Usable(list[|list| - 1], pings[i], clock[i]) then 0
      else 1 + Discards(list[..|list| - 1], n - 1, pings, clock)
    }

    // The executor at depth m below the back, at the time it would be looked at.
    predicate UsableAt(list: seq<MysqlExecutor>, n: nat, m: nat, pings: seq<bool>, clock: seq<nat>)
      requires m < n <= |pings| == |clock| == RETRY_NUM && m < |list|
      reads list
    {
      Usable(list[|list| - 1 - m], pings[RETRY_NUM - n + m], clock[RETRY_NUM - n + m])
    }

    /** Discards is the depth of the first usable executor from the back: none before it is usable. */
    lemma {:induction false} FirstUsable(list: seq<MysqlExecutor>, n: nat, m: nat, pings: seq<bool>, clock: seq<nat>)
      requires m < n <= |pings| == |clock| == RETRY_NUM && m < |list|
      ensures m < Discards(list, n, pings, clock) ==> !UsableAt(list, n, m, pings, clock)
      ensures m == Discards(list, n, pings, clock) ==> UsableAt(list, n, m, pings, clock)
    {
      if m > 0 && !UsableAt(list, n, 0, pings, clock) {
        FirstUsable(list[..|list| - 1], n - 1, m - 1, pings, clock);
      }
    }

    // x answers when it is looked at.
    predicate Answers(x: MysqlExecutor, ping: bool)
      reads x
    {
      x.isConnected && x.mysql != Null && ping
    }

    // One look: the back of shard k is popped, and closed unless it is usable. Close frees the handle
    // only of an executor that is still connected, so one that did not answer keeps its handle.
    method PopBack(k: nat, ping: bool, now: nat) returns (executor: MysqlExecutor, usable: bool)
      requires k < |shards| && shards[k] != []
      modifies this`shards, shards[k][|shards[k]| - 1]
      ensures executor == old(shards)[k][|old(shards)[k]| - 1]
      ensures shards == old(shards)[k := old(shards)[k][..|old(shards)[k]| - 1]]
      ensures usable == old(Usable(executor, ping, now)) == executor.isConnected
      ensures executor.mysql == if !usable && old(Answers(executor, ping)) then Null else old(executor.mysql)
    {
      executor := shards[k][|shards[k]| - 1];
      shards := shards[k := shards[k][..|shards[k]| - 1]];
      var alive := executor.CheckAlive(ping);
      if alive && !IsIdleTimeout(poolOption, executor.aliveTime, now) {
        return executor, true;
      }
      executor.Close();
      usable := false;
    }

    // The loop of GetOrCreate: pop the back of shard k until a usable executor comes up, the shard is
    // empty, or three were discarded. Null means a new executor has to be dialled.
    method PopUsable(k: nat, pings: seq<bool>, clock: seq<nat>) returns (executor: MysqlExecutor?)
      requires k < |shards| && |pings| == |clock| == RETRY_NUM
      requires forall i, j :: 0 <= i < j < |shards[k]| ==> shards[k][i] != shards[k][j]
      modifies this`shards, shards[k]
      ensures var list := old(shards)[k];
              var d := old(Discards(list, RETRY_NUM, pings, clock));
              (forall j :: |list| - d <= j < |list| ==> !list[j].isConnected)
              && (forall j :: 0 <= j < |list| - d ==> list[j].isConnected == old(list[j].isConnected))
              && (if d < RETRY_NUM && d < |list|
                  then executor == list[|list| - 1 - d] && executor.isConnected
                       && shards == old(shards)[k := list[..|list| - 1 - d]]
                  else executor == null && shards == old(shards)[k := list[..|list| - d]])
    {
      var retryNum := RETRY_NUM;
      ghost var list, left := shards[k], |shards[k]|;
      assert list[..left] == list;
      while retryNum > 0
        invariant 0 <= retryNum <= RETRY_NUM && 0 <= left <= |list| && left + RETRY_NUM == |list| + retryNum
        invariant shards == old(shards)[k := list[..left]]
        invariant old(Discards(list, RETRY_NUM, pings, clock))
               == |list| - left + old(Discards(list[..left], retryNum, pings, clock))
        invariant forall j :: left <= j < |list| ==> !list[j].isConnected
        invariant forall j :: 0 <= j < left ==> unchanged(list[j])
      {
        if shards[k] == [] {
          break;
        }
        var usable;
        executor, usable := PopBack(k, pings[RETRY_NUM - retryNum], clock[RETRY_NUM - retryNum]);
        assert list[..left][..left - 1] == list[..left - 1] && executor == list[left - 1];
        if usable {
          return executor;
        }
        left, retryNum := left - 1, retryNum - 1;
      }
      executor := null;
    }

    // The executor is at the depth, d < 3, of the first usable one from the back of the caller's
    // shard, the d behind it are closed and gone with it; or, if the last three are unusable or
    // there are fewer, those are closed and gone and a new executor is dialled.
    method GetOrCreate(pings: seq<bool>, clock: seq<nat>, dial: bool) returns (executor: MysqlExecutor)
      requires Valid() && |pings| == |clock| == 3
      modifies this`shards, this`executorNum, this`shardIdGen, this`executorIdGen
      modifies shards[shardIdGen % poolOption.numShardGroup]
      ensures Valid() && shardIdGen == (old(shardIdGen) + 1) % U32
      ensures var k := old(shardIdGen) % poolOption.numShardGroup;
              var list := old(shards)[k];
              var d := old(Discards(list, 3, pings, clock));
              (forall j :: |list| - d <= j < |list| ==> !list[j].isConnected)
              && (forall j :: 0 <= j < |list| - d ==> list[j].isConnected == old(list[j].isConnected))
              && (if d < 3 && d < |list|
                  then executor == list[|list| - 1 - d] && executor.isConnected
                       && shards == old(shards)[k := list[..|list| - 1 - d]]
                       && executorNum == old(executorNum) && executorIdGen == old(executorIdGen)
                  else fresh(executor) && shards == old(shards)[k := list[..|list| - d]]
                       && executor.option == target && executor.isConnected == dial
                       && executor.mysql == (if dial then Initialised else Stale)
                       && executor.executorId == PackId(old(shardIdGen), old(executorIdGen))
                       && executorNum == (if dial then (old(executorNum) + 1) % U32 else old(executorNum))
                       && executorIdGen == (old(executorIdGen) + 1) % U32)
    {
      var shardId := shardIdGen;
      shardIdGen := (shardIdGen + 1) % U32;
      var k := shardId % poolOption.numShardGroup;
      ghost var was := shards;
      assert forall i, j :: 0 <= i < j < |was[k]| ==> was[k][i] != was[k][j] by {
        DistinctPrefix(was, k, |was[k]|);
      }
      var idle := PopUsable(k, pings, clock);
      assert Distinct(shards) by {
        DistinctPrefix(was, k, |shards[k]|);
      }
      if idle != null {
        return idle;
      }
      executor := Dial(shardId, dial);
    }

    // The end of GetOrCreate. An executor that could not connect is returned all the same, with a
    // closed handle from which its callers then read the error.
    method Dial(shardId: nat, dial: bool) returns (executor: MysqlExecutor)
      requires shardId < U32 && executorIdGen < U32
      modifies this`executorNum, this`executorIdGen
      ensures fresh(executor) && executor.option == target && executor.isConnected == dial
      ensures executor.mysql == if dial then Initialised else Stale
      ensures executor.executorId == PackId(shardId, old(executorIdGen))
      ensures executorNum == if dial then (old(executorNum) + 1) % U32 else old(executorNum)
      ensures executorIdGen == (old(executorIdGen) + 1) % U32
    {
      executor := CreateExecutor(shardId);
      var connected, _ := executor.Connect(dial);
      if connected {
        executorNum := (executorNum + 1) % U32;
      }
    }

    method CreateExecutor(shardId: nat) returns (executor: MysqlExecutor)
      requires shardId < U32 && executorIdGen < U32
      modifies this`executorIdGen
      ensures fresh(executor) && !executor.isConnected && executor.option == target && executor.mysql == Initialised
      ensures executor.executorId == PackId(shardId, old(executorIdGen))
      ensures executorIdGen == (old(executorIdGen) + 1) % U32
    {
      var executorId := shardId * U32 + executorIdGen;
      executorIdGen := (executorIdGen + 1) % U32;
      executor := new MysqlExecutor(target, executorId);
    }

    // ---------- Reclaim ----------

    // moved: the caller's pointer was taken over; otherwise it still points to the closed executor.
    method Reclaim(ret: int, executor: MysqlExecutor, now: nat) returns (moved: bool)
      requires Valid() && executor !in Pooled()
      modifies this`shards, this`executorNum, executor
      ensures Valid()
      ensures var k := ShardIndex(poolOption, executor.executorId);
              moved == (ret == 0 && |old(shards)[k]| <= poolOption.maxSize / poolOption.numShardGroup
                        && old(executorNum) <= poolOption.maxSize)
              && if moved
                 then shards == old(shards)[k := old(shards)[k] + [executor]] && executor.aliveTime == now
                      && executor.isConnected == old(executor.isConnected) && executorNum == old(executorNum)
                 else shards == old(shards) && !executor.isConnected && executorNum == (old(executorNum) + 1) % U32
    {
      if ret == 0 {
        var shardId := executor.executorId / U32 % U32;
        var k := shardId % poolOption.numShardGroup;
        if |shards[k]| <= maxNumPerShard && executorNum <= poolOption.maxSize {
          executor.RefreshAliveTime(now);
          shards := shards[k := shards[k] + [executor]];
          return true;
        }
      }
      executorNum := (executorNum + 1) % U32;
      executor.Close();
      moved := false;
    }

    // ---------- Stop and Destroy ----------

    // Every pooled executor, as a frame.
    function Pooled(): set<MysqlExecutor>
      reads this
    {
      set k, i | 0 <= k < |shards| && 0 <= i < |shards[k]| :: shards[k][i]
    }

    method Stop()
      modifies Pooled()
      ensures forall x :: x in Pooled() ==> !x.isConnected
    {
      for k := 0 to |shards|
        invariant forall l, j :: 0 <= l < k && 0 <= j < |shards[l]| ==> !shards[l][j].isConnected
      {
        for i := 0 to |shards[k]|
          invariant forall l, j :: 0 <= l < k && 0 <= j < |shards[l]| ==> !shards[l][j].isConnected
          invariant forall j :: 0 <= j < i ==> !shards[k][j].isConnected
        {
          shards[k][i].Close();
        }
      }
    }

    method Destroy()
      modifies this`shards
      ensures Pooled() == {} && |shards| == old(|shards|)
    {
      for k := 0 to |shards|
        invariant |shards| == old(|shards|)
        invariant forall l :: 0 <= l < k ==> shards[l] == []
      {
        shards := shards[k := []];
      }
    }
  }
}
