/** The transaction handle and the calls on it, as one caller sees them. */
module TransactionHandle {
  import opened PoolRules
  import opened Endpoint
  import opened Executor
  import opened ExecutorPool
  import opened PoolManager
  import opened HandleState

  class TransactionHandle {
    var executor: MysqlExecutor?
    var state: TxState

    constructor (executor: MysqlExecutor?)
      ensures this.executor == executor && state == NotInited
    {
      this.executor, state := executor, NotInited;
    }

    constructor MoveFrom(other: TransactionHandle)
      modifies other
      ensures state == old(other.state) && executor == old(other.executor)
      ensures other.state == InValid && other.executor == null
    {
      state, executor := other.state, other.executor;
      new;
      other.state, other.executor := InValid, null;
    }

    // The executor held before is neither closed nor returned. Assigning a handle to itself empties it.
    method MoveAssign(other: TransactionHandle)
      modifies this, other
      ensures other != this ==> state == old(other.state) && executor == old(other.executor)
      ensures other.state == InValid && other.executor == null
    {
      state, executor := other.state, other.executor;
      other.state, other.executor := InValid, null;
    }

    method Destroy()
      modifies this, if executor != null then {executor} else {}
      ensures state == InValid && executor == old(executor) && (executor != null ==> !executor.isConnected)
    {
      if executor != null {
        executor.Close();
      }
      state := InValid;
    }

    method SetState(s: TxState)
      modifies this`state
      ensures state == s
    {
      state := s;
    }

    method SetExecutor(e: MysqlExecutor) returns (ok: bool)
      modifies this`executor
      ensures ok == (old(executor) == null) && executor == if ok then e else old(executor)
    {
      if executor != null {
        return false;
      }
      executor := e;
      ok := true;
    }
  }

  // What happens to one call on a handle: the pre-invoke filter rejects it; the connection answers
  // the ping; the timeout check or the pre-send filter stops it; and the error number that ends up in
  // the results.
  datatype Fate = Fate(rejected: bool, ping: bool, late: bool, number: int)

  // What a queued statement does with its connection: nothing but send it, or, if it is prepared and
  // gets as far as its execution, ping again and dial if there is no answer.
  datatype Sending = Bare | Prepared(answers: bool, dials: seq<bool>)

  class MysqlServiceProxy {
    const poolManager: MysqlExecutorPoolManager

    constructor (poolManager: MysqlExecutorPoolManager)
      ensures this.poolManager == poolManager
    {
      this.poolManager := poolManager;
    }

    predicate Alive(handle: TransactionHandle, fate: Fate)
      reads handle, handle.executor
    {
      handle.executor != null && handle.executor.isConnected && handle.executor.mysql != Null && fate.ping
    }

    // The statement goes out.
    predicate Sends(handle: TransactionHandle, fate: Fate)
      reads handle, handle.executor
    {
      !fate.rejected && handle.state == Started && Alive(handle, fate) && !fate.late
    }

    // The connection is lost under the statement.
    predicate Breaks(handle: TransactionHandle, fate: Fate, sending: Sending)
      reads handle, handle.executor
    {
      Sends(handle, fate) && sending.Prepared? && !sending.answers
    }

    // Query on a handle, with UnaryInvoke. number: the error number in the caller's fresh results.
    method Query(handle: TransactionHandle, fate: Fate, sending: Sending) returns (ok: bool, number: int)
      requires handle.state == Started ==> handle.executor != null
      requires sending.Prepared? ==> |sending.dials| == RECONNECT_MAX_RETRY
      modifies handle`state, if handle.executor != null then {handle.executor} else {}
      ensures ok == (old(Sends(handle, fate)) && fate.number == 0)
      ensures number == if old(Sends(handle, fate)) then fate.number else 0
      ensures if !fate.rejected && old(handle.state) == Started && !old(Alive(handle, fate))
              then handle.state == RolledBack && !handle.executor.isConnected
              else handle.state == old(handle.state)
                   && (handle.executor != null ==>
                         handle.executor.isConnected
                         == if old(Breaks(handle, fate, sending)) then true in sending.dials
                            else old(handle.executor.isConnected))
    {
      ok, number := false, 0;
      if fate.rejected {
        return;
      }
      if handle.state != Started {
        return;
      }
      var alive := handle.executor.CheckAlive(fate.ping);
      if !alive {
        handle.SetState(RolledBack);
        return;
      }
      if fate.late {
        return;
      }
      // the queued task
      if handle.executor.isConnected {
        if sending.Prepared? {
          ExecuteStatement(handle.executor, sending.answers, sending.dials);
        }
        number := fate.number;
      }
      ok := number == 0;
    }

    // ExecuteStatement, up to the execution itself.
    method ExecuteStatement(executor: MysqlExecutor, answers: bool, dials: seq<bool>)
      requires |dials| == RECONNECT_MAX_RETRY
      modifies executor
      ensures executor.isConnected
           == ((old(executor.isConnected) && old(executor.mysql) != Null && answers) || true in dials)
    {
      var alive := executor.CheckAlive(answers);
      if !alive {
        var _, _, _ := executor.StartReconnect(dials);
      }
    }

    // The manager's pools are in order and none of them holds the executor.
    ghost predicate Ready(e: MysqlExecutor)
      reads poolManager, poolManager.executorPools.Values
    {
      poolManager.Valid()
      && forall key :: key in poolManager.executorPools ==>
           poolManager.executorPools[key].Valid() && e !in poolManager.executorPools[key].Pooled()
    }

    // The handle's executor is at the back of its own shard of the pool for its own endpoint.
    ghost predicate Returned(e: MysqlExecutor, now: nat)
      reads poolManager, poolManager.executorPools.Values, e
    {
      EndpointKey(e.option) in poolManager.executorPools
      && var pool := poolManager.executorPools[EndpointKey(e.option)];
      var k := ShardIndex(pool.poolOption, e.executorId);
      k < |pool.shards| && pool.shards[k] != [] && pool.shards[k][|pool.shards[k]| - 1] == e && e.aliveTime == now
    }

    // A pool for the executor's endpoint would take it back: there is none yet, or it has room.
    ghost predicate HasPlace(e: MysqlExecutor)
      requires Ready(e)
      reads poolManager, poolManager.executorPools.Values, e
    {
      EndpointKey(e.option) in poolManager.executorPools ==>
        var pool := poolManager.executorPools[EndpointKey(e.option)];
        var k := ShardIndex(pool.poolOption, e.executorId);
        |pool.shards[k]| <= pool.poolOption.maxSize / pool.poolOption.numShardGroup
        && pool.executorNum <= pool.poolOption.maxSize
    }

    method EndTransaction(handle: TransactionHandle, rollback: bool, now: nat)
      requires handle.executor != null ==> Ready(handle.executor)
      modifies handle, poolManager, poolManager.executorPools.Values
      modifies if handle.executor != null then {handle.executor} else {}
      ensures handle.state == if rollback then RolledBack else Committed
      ensures old(handle.executor) == null ==> handle.executor == null
      ensures old(handle.executor) != null ==>
                if old(HasPlace(handle.executor))
                then handle.executor == null && Returned(old(handle.executor), now)
                     && old(handle.executor).isConnected == old(handle.executor.isConnected)
                else handle.executor == old(handle.executor) && !handle.executor.isConnected
    {
      handle.SetState(if rollback then RolledBack else Committed);
      var executor := handle.executor;
      if executor != null {
        var pool := poolManager.Get(executor.option, null);
        var moved := pool.Reclaim(0, executor, now);
        if moved {
          handle.executor := null;
        }
      }
    }

    // Commit and Rollback, whose statement is never prepared. The executor goes back whenever the fresh
    // results carry no error, so a statement that was stopped before it was sent ends the transaction as
    // a sent one does.
    method End(handle: TransactionHandle, rollback: bool, fate: Fate, now: nat) returns (ok: bool)
      requires handle.state == Started ==> handle.executor != null
      requires handle.executor != null ==> Ready(handle.executor)
      modifies handle, poolManager, poolManager.executorPools.Values
      modifies if handle.executor != null then {handle.executor} else {}
      ensures ok == (old(Sends(handle, fate)) && fate.number == 0)
      ensures if old(Sends(handle, fate)) && fate.number != 0
              then handle.state == Started
                   && handle.executor == old(handle.executor) && handle.executor.isConnected
              else handle.state == (if rollback then RolledBack else Committed)
                   && (if old(handle.executor) == null || old(HasPlace(handle.executor)) then handle.executor == null
                       else handle.executor == old(handle.executor) && !handle.executor.isConnected)
    {
      var number;
      ok, number := Query(handle, fate, Bare);
      if number == 0 {
        EndTransaction(handle, rollback, now);
      }
    }

    // AsyncCommit and AsyncRollback: only a successful statement ends the transaction.
    method AsyncEnd(handle: TransactionHandle, rollback: bool, fate: Fate, now: nat) returns (ok: bool)
      requires handle.state == Started ==> handle.executor != null
      requires handle.executor != null ==> Ready(handle.executor)
      modifies handle, poolManager, poolManager.executorPools.Values
      modifies if handle.executor != null then {handle.executor} else {}
      ensures ok == (old(Sends(handle, fate)) && fate.number == 0)
      ensures if ok then handle.state == (if rollback then RolledBack else Committed)
                         && (if old(HasPlace(handle.executor)) then handle.executor == null
                             else handle.executor == old(handle.executor) && !handle.executor.isConnected)
              else handle.executor == old(handle.executor)
                   && handle.state == if !fate.rejected && old(handle.state) == Started && !old(Alive(handle, fate))
                                      then RolledBack else old(handle.state)
    {
      var number;
      ok, number := Query(handle, fate, Bare);
      if ok {
        EndTransaction(handle, rollback, now);
      }
    }
  }
}
