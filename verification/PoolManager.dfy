/** The pool manager: one pool for each endpoint key. */
module PoolManager {
  import opened PoolRules
  import opened Endpoint
  import opened Executor
  import opened ExecutorPool

  class MysqlExecutorPoolManager {
    const option: PoolOption
    var executorPools: map<string, MysqlExecutorPool>
    var poolsToDestroy: map<string, MysqlExecutorPool>
    var deleted: seq<MysqlExecutorPool>  // the pools deleted so far

    // Every entry's pool is alive and serves an endpoint with the entry's key.
    ghost predicate Valid()
      reads this
    {
      forall key :: key in executorPools ==>
        EndpointKey(executorPools[key].target) == key && executorPools[key] !in deleted
    }

    constructor (option: PoolOption)
      ensures Valid() && this.option == option
      ensures executorPools == map[] && poolsToDestroy == map[] && deleted == []
    {
      this.option := option;
      executorPools, poolsToDestroy, deleted := map[], map[], [];
    }

    // rival: a pool that another thread's Get inserts under the same key after this one's lookup
    // failed; null if there is none. The loser's own pool is deleted and nobody ever gets it.
    method Get(nodeAddr: NodeAddr, rival: MysqlExecutorPool?) returns (pool: MysqlExecutorPool)
      requires Valid()
      requires rival != null ==> EndpointKey(rival.target) == EndpointKey(nodeAddr) && rival !in deleted
      modifies this`executorPools, this`deleted
      ensures Valid()
      ensures var key := EndpointKey(nodeAddr);
              key in executorPools && pool == executorPools[key] && pool !in deleted
              && EndpointKey(pool.target) == key
              && (if key in old(executorPools) then executorPools == old(executorPools) && deleted == old(deleted)
                  else executorPools == old(executorPools)[key := pool]
                       && (if rival != null
                           then pool == rival && exists lost :: fresh(lost) && deleted == old(deleted) + [lost]
                           else fresh(pool) && pool.target == nodeAddr && pool.poolOption == option && pool.Valid()
                                && pool.Pooled() == {} && pool.executorNum == 0
                                && (forall k :: 0 <= k < |pool.shards| ==> pool.shards[k] == [])
                                && deleted == old(deleted)))
    {
      var endpoint := EndpointKey(nodeAddr);
      if endpoint in executorPools {
        return executorPools[endpoint];
      }
      pool := new MysqlExecutorPool(option, nodeAddr);
      if rival != null {
        executorPools := executorPools[endpoint := rival];
      }
      // GetOrInsert
      if endpoint !in executorPools {
        executorPools := executorPools[endpoint := pool];
        return pool;
      }
      deleted := deleted + [pool];
      pool := executorPools[endpoint];
    }

    // ---------- Stop and Destroy ----------

    // The executors pooled anywhere, as a frame.
    ghost function AllPooled(): set<MysqlExecutor>
      reads this, executorPools.Values
    {
      set key, x | key in executorPools && x in executorPools[key].Pooled() :: x
    }

    method Stop()
      modifies this`poolsToDestroy, AllPooled()
      ensures poolsToDestroy == executorPools
      ensures forall key, x :: key in executorPools && x in executorPools[key].Pooled() ==> !x.isConnected
    {
      poolsToDestroy := executorPools;
      var keys := poolsToDestroy.Keys;
      while keys != {}
        invariant keys <= executorPools.Keys && poolsToDestroy == executorPools
        invariant forall key, x :: key in executorPools && key !in keys && x in executorPools[key].Pooled() ==>
                    !x.isConnected
        decreases |keys|
      {
        var key :| key in keys;
        assert forall x :: x in executorPools[key].Pooled() ==> x in AllPooled();
        executorPools[key].Stop();
        keys := keys - {key};
      }
    }

    // Only the pools that the last Stop saw are emptied and deleted; what executor_pools_.Reclaim()
    // leaves in the map is not part of this model.
    method Destroy()
      requires forall key :: key in poolsToDestroy ==> poolsToDestroy[key] !in deleted
      requires forall key, other :: key in poolsToDestroy && other in poolsToDestroy && key != other ==>
                 poolsToDestroy[key] != poolsToDestroy[other]
      modifies this`poolsToDestroy, this`deleted, poolsToDestroy.Values
      ensures poolsToDestroy == map[]
      ensures forall key :: key in old(poolsToDestroy) ==> old(poolsToDestroy)[key].Pooled() == {}
      ensures forall key :: key in old(poolsToDestroy) ==> old(poolsToDestroy)[key] in deleted
      ensures old(deleted) <= deleted && |deleted| == |old(deleted)| + |old(poolsToDestroy)|
    {
      var keys := poolsToDestroy.Keys;
      while keys != {}
        invariant keys <= poolsToDestroy.Keys && poolsToDestroy == old(poolsToDestroy)
        invariant forall key :: key in poolsToDestroy && key !in keys ==> poolsToDestroy[key].Pooled() == {}
        invariant old(deleted) <= deleted && |deleted| + |keys| == |old(deleted)| + |poolsToDestroy|
        invariant forall key :: key in poolsToDestroy && key !in keys ==> poolsToDestroy[key] in deleted
        decreases |keys|
      {
        var key :| key in keys;
        poolsToDestroy[key].Destroy();
        deleted := deleted + [poolsToDestroy[key]];
        keys := keys - {key};
      }
      poolsToDestroy := map[];
    }
  }
}
