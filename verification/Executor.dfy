/**
  One database connection. What the client library answers (does the dial succeed, does the ping)
  and what the steady clock shows are parameters.
 */
module Executor {
  import opened PoolRules
  import opened Endpoint

  const RECONNECT_INIT_RETRY_INTERVAL: nat := 100
  const RECONNECT_MAX_RETRY: nat := 5
  const RECONNECT_MAX_INTERVAL: nat := 3000

  // MYSQL*: after a failed dial it is closed but not nulled.
  datatype Link = Null | Initialised | Stale

  // The interval slept after the i-th failed attempt.
  function Interval(i: nat): nat {
    if i == 0 then RECONNECT_INIT_RETRY_INTERVAL else NextInterval(Interval(i - 1))
  }

  // The interval doubles up to its cap.
  function NextInterval(ms: nat): nat {
    if ms * 2 < RECONNECT_MAX_INTERVAL then ms * 2 else RECONNECT_MAX_INTERVAL
  }

  function Sum(s: seq<nat>): nat {
    if s == [] then 0 else Sum(s[..|s| - 1]) + s[|s| - 1]
  }

  class MysqlExecutor {
    const option: NodeAddr
    const executorId: nat
    var isConnected: bool
    var mysql: Link
    var aliveTime: nat

    constructor (option: NodeAddr, executorId: nat)
      ensures this.option == option && this.executorId == executorId
      ensures !isConnected && mysql == Initialised && aliveTime == 0
    {
      this.option, this.executorId := option, executorId;
      isConnected, mysql, aliveTime := false, Initialised, 0;
    }

    // dial: what mysql_real_connect says if it is asked. stale: it was asked on a closed handle, and
    // then the library promises nothing.
    method Connect(dial: bool) returns (ok: bool, stale: bool)
      modifies this`isConnected, this`mysql
      ensures ok == isConnected == (old(isConnected) || dial)
      ensures stale <==> !old(isConnected) && old(mysql) == Stale
      ensures mysql == if old(isConnected) then old(mysql)
                       else if !dial then Stale
                       else if old(mysql) == Null then Initialised
                       else old(mysql)
    {
      if isConnected {
        return true, false;
      }
      if mysql == Null {
        mysql := Initialised;
      }
      stale := mysql == Stale;
      if !dial {
        mysql := Stale;
        isConnected := false;
        return false, stale;
      }
      isConnected := true;
      ok := true;
    }

    method Close()
      modifies this`isConnected, this`mysql
      ensures !isConnected && mysql == if old(isConnected) then Null else old(mysql)
    {
      if mysql != Null && isConnected {
        mysql := Null;
      }
      isConnected := false;
    }

    method CheckAlive(ping: bool) returns (ok: bool)
      modifies this`isConnected
      ensures ok == isConnected == (old(isConnected) && mysql != Null && ping)
    {
      if !isConnected {
        return false;
      }
      if mysql != Null && ping {
        return true;
      }
      isConnected := false;
      ok := false;
    }

    method RefreshAliveTime(now: nat)
      modifies this`aliveTime
      ensures aliveTime == now
    {
      aliveTime := now;
    }

    function GetAliveTime(now: nat): nat
      reads this
    {
      AliveTime(aliveTime, now)
    }

    // dials: the answers to the attempts. slept: the pauses, one after each failed attempt. stale: some
    // attempt dialled a closed handle, which happens exactly when the executor is not connected and
    // its handle was closed before or the first attempt fails and closes it. When all fail, the caller
    // reads the error of a closed handle.
    method StartReconnect(dials: seq<bool>) returns (reconnected: bool, slept: seq<nat>, stale: bool)
      requires |dials| == RECONNECT_MAX_RETRY
      modifies this`isConnected, this`mysql
      ensures reconnected == isConnected == (old(isConnected) || true in dials)
      ensures reconnected ==> if old(isConnected) then slept == [] else |slept| < |dials| && dials[|slept|]
      ensures stale <==> !old(isConnected) && (old(mysql) == Stale || !dials[0])
      ensures !reconnected ==> mysql == Stale
      ensures |slept| <= RECONNECT_MAX_RETRY && (!reconnected ==> |slept| == RECONNECT_MAX_RETRY)
      ensures forall i :: 0 <= i < |slept| ==> !dials[i] && slept[i] == Interval(i)
    {
      var retryInterval := RECONNECT_INIT_RETRY_INTERVAL;
      reconnected, slept, stale := false, [], false;
      for i := 0 to RECONNECT_MAX_RETRY
        invariant !reconnected && |slept| == i && retryInterval == Interval(i)
        invariant isConnected == (i == 0 && old(isConnected)) && (i > 0 ==> !old(isConnected))
        invariant forall j :: 0 <= j < i ==> !dials[j] && slept[j] == Interval(j)
        invariant mysql == if i == 0 then old(mysql) else Stale
        invariant stale <==> i > 1 || (i == 1 && old(mysql) == Stale)
      {
        var ok, closed := Connect(dials[i]);
        stale := stale || closed;
        if ok {
          reconnected := true;
          break;
        }
        slept := slept + [retryInterval];
        retryInterval := NextInterval(retryInterval);
      }
    }
  }

  /** The pauses are 100, 200, 400, 800 and 1600 ms; their cap of 3000 ms is never reached, and a
      reconnection that fails altogether has paused for 3.1 s. */
  lemma ReconnectPauses(slept: seq<nat>)
    requires |slept| <= RECONNECT_MAX_RETRY && forall i :: 0 <= i < |slept| ==> slept[i] == Interval(i)
    ensures forall i :: 0 <= i < |slept| ==> slept[i] < RECONNECT_MAX_INTERVAL
    ensures |slept| == RECONNECT_MAX_RETRY ==> Sum(slept) == 3100
  {
    assert Interval(0) == 100 && Interval(1) == 200 && Interval(2) == 400;
    assert Interval(3) == 800 && Interval(4) == 1600;
    SumOfPauses(slept);
  }

  lemma {:induction false} SumOfPauses(slept: seq<nat>)
    requires |slept| <= RECONNECT_MAX_RETRY && forall i :: 0 <= i < |slept| ==> slept[i] == Interval(i)
    ensures Sum(slept) + 100 == if slept == [] then 100 else 2 * slept[|slept| - 1]
  {
    if slept != [] {
      SumOfPauses(slept[..|slept| - 1]);
      assert Interval(0) == 100 && Interval(1) == 200 && Interval(2) == 400;
      assert Interval(3) == 800 && Interval(4) == 1600;
    }
  }
}
