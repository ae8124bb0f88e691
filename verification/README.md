# tRPC MySQL client: a verified model

This project models the MySQL client of tRPC-Cpp and proves what it guarantees: a sharded pool of
connections, transactions that pin one connection from `begin` to `commit` or `rollback`, the
fetching of results, and three text algorithms (placeholder rewriting, time stamps, endpoint keys).

## The concurrent protocol

`Protocol.dfy` is a step system. Any number of threads run plain queries, open transactions, use
and end them, and create, move and destroy handles. Each section under a shard lock and each atomic
counter operation is a step of its own, so the load of `executor_num_` in `Reclaim` and the
`push_back` after it are two steps, and the lookup and the insertion of a pool are two steps. What
the client library answers, what filters decide and how far the clock moves are chosen freely by
each step. The state also keeps a history that no step looks at: the statement log of each
connection, the transaction open on its server session, a rank (the value of `executor_num_` right
after the executor's own increment), and who holds each executor.

`ProtocolInvariant.dfy` says what every reachable state satisfies, object by object;
`ProtocolFrame.dfy` proves once that a step keeps the invariant of everything it does not touch; the
files `Protocol...Steps.dfy` prove each step; `ProtocolRuns.dfy` concludes for all runs.
`PoolTheorems.dfy` and `TransactionTheorems.dfy` hold the results. `LostExecutors.dfy` says which
actions leave a connected executor to nobody, `TransactionSessions.dfy` which statements run inside
their transaction, `TransactionEndings.dfy` follows a `Commit` or `Rollback` to its return and the
executor back to its shard, `TransactionMoves.dfy` follows a handle through its moves,
`PoolReturns.dfy` says when a plain query gives its executor back and when the next scan gets it,
`PoolExhaustion.dfy` says what a pool does once its counter has passed max_size, `FullShards.dfy` builds
the longest shard there can be, and `ExampleRuns.dfy` builds runs from a fresh system in which these
cases occur. `PoolSequential.dfy` connects the step system with the sequential pool: a thread that runs
`GetOrCreate` without interruption gets what the sequential specification says.

The client library is trusted to do the following, and nothing more: a closed or lost connection has
no open transaction on the server; a successful `begin` opens one, a successful `commit` or
`rollback` ends it; other statements contain no transaction control. The caller keeps to the rules of
the API: one operation at a time on a handle, and no reconfiguration while handles are alive.

## The objects

`Executor.dfy`, `ExecutorPool.dfy`, `PoolManager.dfy` and `TransactionHandle.dfy` model the classes
with their fields and methods as one caller sees them; `HandleState.dfy` holds the states of a
transaction handle. `Results.dfy` models `MysqlResults` with the raw results of the client library,
and any number of such objects. `Fetch.dfy` models the buffers of a prepared query, the copy of their
addresses that the library takes when they are registered, and the loop over the rows. `Formatter.dfy`,
`MysqlTime.dfy`, `Decimal.dfy` and `Endpoint.dfy` model the text algorithms, and `SqlLiterals.dfy` reads
the formatted SQL as the server does (section 9.1.1 of the MySQL 8.0 Reference Manual). `PoolRules.dfy` holds the
arithmetic that the classes and the protocol share, and `TicketBalance.dfy` the arithmetic of the shard
tickets.

## Where the code does less than its documentation suggests

Each of these is stated exactly, with the condition under which the promise holds.

- The destructor of an executor asserts that it is disconnected. In every run, an executor that is in
  no shard, no handle and no thread is still connected exactly if the run had a begin that was refused
  or failed over it, or a handle holding it that was assigned over (`UnplacedIsClosed`, `LetsGoIff`);
  each of these happens (`LossOccurs`).
- A synchronous `Commit` or `Rollback` that a filter or the timeout check stops on a started handle
  still marks the handle finished and pools its executor with the transaction open
  (`RefusedEndPoolsOpenTransaction`, `RefusalOccurs`); nothing else ever pools an open transaction
  (`CleanRunsPoolNothingOpen`, `PooledOpenWasRefused`, `WhatRefusedMeans`).
- A prepared statement inside a transaction that finds its connection lost dials again and goes on
  outside the transaction, and the handle stays started. In every run, a statement of a transaction
  runs outside it if and only if this or an earlier statement of the transaction dialled again
  (`OutsideIffRedialled`), and a `Commit`, which is never prepared itself, that reports success was
  inside if and only if none did (`EndInsideIffNeverRedialled`, `SessionChangesIff`). It does happen
  (`RedialEscapes`, `EscapedEndReportsSuccess`, `EscapeOccurs`).
- After a failed dial an executor keeps a closed handle of the client library. `StartReconnect` dials
  such a handle exactly if the executor is not connected and its handle was closed before or the first
  attempt fails, and whenever it gives up, and whenever `GetOrCreate` returns an executor that is not
  connected, the error that the caller reads is asked of a closed handle (`StartReconnect`, `Dial`,
  `GetOrCreate`). An executor that does not answer the ping is discarded without its handle ever being
  freed (`PopBack`).
- The counter of executors is never decremented. Once it has passed max_size, and until it wraps, no
  executor gets into a shard except through calls of `Reclaim` that had passed both tests by then,
  however few connections are alive (`ExhaustedOnlyDrains`).
- `FormatQuery` is direct substitution exactly for SQL without braces (`DirectIffBraceFree`). Its text
  arguments are quoted and not escaped: one reads back as its own characters, and the SQL behind it goes
  on where it should, exactly if no quote follows and the characters hold no quote and no backslash, the
  pairs `\%` and `\_` aside, which MySQL keeps (`ArgumentMeant`, `TextReadsBackIff`).
- The bound of a shard is floor(max_size / num_shard_group) and a shard can hold one more: before the
  counter wraps, it does so in some run exactly if there are at least two shards and max_size is not 0
  (`BoundMetIff`).
- Endpoint keys distinguish endpoints exactly by the first 63 characters of their text
  (`KeysEqualIff`, `LongHostsCollide`).
- The shard tickets stay balanced across a wrap of their counter exactly when the number of shards
  divides 2^32 (`BalancedForeverIff`).
- The error number of a `MysqlResults` survives later successful queries (`ErrorSticks`), and a move takes
  the message but not the number (`ErrorStaysBehind`, `HolderTells`). A moved-from object still says that
  it has a value (`ResultTravels`). A move assignment onto an object that holds a raw result loses it
  (`LostIff`).
- `FetchResults` does not look at the result of `FetchTruncatedResults`. With no empty string or blob
  buffer, which is how they are bound, every column is then read in bounds exactly if that result was
  success (`ReadableIffCompleted`): a column that was grown but not filled is read past its end unless
  it was empty (`ExtendedReadableIff`).
- A buffer that grows for a long value moves, but the binds are registered only once, so the library
  keeps the old address (`CurrentIffUntouched`). All the rows of a prepared query arrive exactly if
  every value longer than its bound buffer is completed and only NULLs follow it in its column
  (`QueryRows`, `FetchResults`); two rows are enough to miss that (`SecondTextIsLost`).
- The window given to `mysql_stmt_fetch_column` is too long by the bytes already there, so for a
  column as it is bound it never fits the buffer (`WindowFitsIff`, `BoundIsReady`).

## Model

| member | source | states |
|---|---|---|
| PoolTheorems.OnePlace | trpc/client/mysql/mysql_executor_pool.cc:26-108 | in every reachable state an executor is at one position of one shard, in one handle, or with one thread, never in two places; so ending a transaction twice, even after a closing Reclaim left the pointer set, never pools an executor twice |
| LostExecutors.UnplacedIsClosed | trpc/client/mysql/executor/mysql_executor.cc:59-63 | in every run, an executor in no shard, no handle and no thread is disconnected unless an earlier action let go of it while connected: a begin refused or failed over it, or an assignment over the handle that held it; and every such action leaves it in no place |
| LostExecutors.LetsGoIff | trpc/client/mysql/mysql_service_proxy.cc:113-123 | one action leaves an executor connected and in no place if and only if it was so before or the action is one of these |
| LostExecutors.LostIffUnplaced | trpc/client/mysql/mysql_executor_pool.cc:57-62 | the executors that the history records as dropped are exactly those that are connected and in no place |
| ExampleRuns.LossOccurs | trpc/client/mysql/transaction.h:29-35 | each of the five ways to lose a connected executor occurs in a run from a fresh system |
| PoolTheorems.IdleBound | trpc/client/mysql/mysql_executor_pool.cc:66-106 | the idle executors summed over all shards never exceed max_size, in any interleaving and with no common lock, until the counter has been incremented 2^32 times |
| PoolTheorems.IdleBoundAlways | trpc/client/mysql/mysql_executor_pool.cc:92-108 | without any condition on the counter the idle executors never exceed num_shard_group * (floor(max_size / num_shard_group) + 1), so never max_size + num_shard_group |
| PoolExhaustion.ExhaustedOnlyDrains | trpc/client/mysql/mysql_executor_pool.cc:92-108 | in every run, once the counter of a pool is past max_size and until it wraps, an executor in a shard was there already or was at the push_back of Reclaim when the counter passed |
| PoolTheorems.ShardBound | trpc/client/mysql/mysql_executor_pool.cc:98-99 | a shard holds at most floor(max_size / num_shard_group) + 1 executors |
| FullShards.BoundMetIff | trpc/client/mysql/mysql_executor_pool.cc:92-102 | some shard of some run holds exactly floor(max_size / num_shard_group) + 1 executors, before the counter wraps, if and only if there are at least two shards and max_size is at least 1; so the test for room admits an executor to a shard that holds the floor |
| PoolReturns.QueryAlone | trpc/client/mysql/mysql_service_proxy.h:348-371 | run alone over a connected executor, a plain query sends its statement once and ends with the executor at the back of its own shard, used just now, if that shard held at most floor(max_size / num_shard_group) executors and the counter was at most max_size; otherwise with the executor closed and the counter one higher; nothing else has changed |
| PoolReturns.QueryPooledIff | trpc/client/mysql/mysql_executor_pool.cc:92-108 | in every run, a plain query over a connected executor ends with it at the back of its own shard, used just now, if and only if none of the query's steps met a shard longer than the floor or a counter above max_size; otherwise with the executor closed |
| PoolReturns.ScanHandsOut | trpc/client/mysql/mysql_executor_pool.cc:36-51 | in every reachable state the scan of a nonempty shard hands out the executor at its back if and only if that is connected, answers the ping, and max_idle_time is 0 or above its true age |
| PoolReturns.ReturnedComesBack | trpc/client/mysql/mysql_executor_pool.cc:97-151 | the executor that a query puts back is handed out by the next scan of the shard, after any time, if and only if it is connected and answers and max_idle_time is 0 or above that time |
| PoolTheorems.ShardSorted | trpc/client/mysql/mysql_executor_pool.cc:97-151 | every shard is sorted by last use from front to back, the age of a pooled executor does not underflow, and if one is idle too long then so is every one before it |
| PoolTheorems.MadeForTicket | trpc/client/mysql/mysql_executor_pool.cc:75-77 | the executor made for a ticket carries it in the upper half of its id and so belongs to the shard the caller scanned |
| PoolTheorems.ShardAffinity | trpc/client/mysql/mysql_executor_pool.cc:92-101 | every executor in shard k has (id >> 32) % N == k and was made by that very pool |
| PoolTheorems.StartsBalanced | trpc/client/mysql/mysql_executor_pool.cc:30-34 | over any run and any interleaving, the numbers of GetOrCreate calls that start in any two shards differ by at most one until the ticket counter wraps |
| PoolTheorems.StartsAreVisits | trpc/client/mysql/mysql_executor_pool.cc:30-34 | the starts counted along a run are those of consecutive tickets from 0 |
| PoolTheorems.OnePoolPerEndpoint | trpc/client/mysql/mysql_executor_pool_manager.cc:20-42 | all callers that ask for the same key get the same pool, however their calls of Get race |
| PoolTheorems.PoolServesOneEndpoint | trpc/client/mysql/mysql_executor_pool_manager.cc:20-48 | the pool a caller gets was made for an endpoint with the caller's key, and for the caller's own endpoint if the texts fit the key |
| PoolTheorems.PoolLifetime | trpc/client/mysql/mysql_executor_pool_manager.cc:32-41 | a pool is deleted at most once, never while registered, and no thread or executor ever belongs to an unregistered pool |
| PoolTheorems.EndReturnsToOrigin | trpc/client/mysql/mysql_service_proxy.cc:243-248 | EndTransaction finds the pool that made the executor and starts Reclaim there |
| PoolTheorems.OnlyLocksBlock | trpc/client/mysql/mysql_executor_pool.cc:36-104 | no step follows an invalid pointer; a thread can only ever wait for a shard lock |
| PoolTheorems.SomeThreadCanMove | trpc/client/mysql/mysql_executor_pool.cc:36-104 | no deadlock: while any call is in progress some thread can take its next step |
| PoolTheorems.EveryCallEnds | trpc/client/mysql/mysql_executor_pool.cc:31-62 | in every run a call takes at most 21 steps of its own, whatever the other threads do |
| TransactionTheorems.HandleStates | trpc/client/mysql/transaction.h:20-74 | between calls: kStarted implies an executor, kCommitted and kRollBacked imply none or a disconnected one, kNotInited and kInValid imply none |
| TransactionMoves.HandleTravels | trpc/client/mysql/transaction.h:29-42 | in every run, after any chain of moves the last handle has the state, executor and transaction of the first, on the same connection with the same log, and all the others are kInValid and empty |
| TransactionTheorems.TransactionIsOneBlock | trpc/client/mysql/mysql_service_proxy.cc:101-120 | the statements of a transaction are one contiguous stretch of the log of one connection, starting with its only begin; no other handle and no plain query has a statement in it |
| TransactionTheorems.StartedHandleIsIsolated | trpc/client/mysql/mysql_service_proxy.h:237-260 | while a handle is started, every statement on its connection since its successful begin came through it |
| TransactionTheorems.OnlyTheHandleSends | trpc/client/mysql/mysql_service_proxy.h:244-371 | a statement of a transaction is its begin, or goes through the started handle that holds the transaction, over the handle's own connection |
| TransactionTheorems.EndIsSound | trpc/client/mysql/mysql_service_proxy.cc:184-251 | if Commit or Rollback succeeds, the statement ran successfully as the last one of the transaction whose begin succeeded on the same connection, the handle is in the matching state, and an executor still in it is that connection, closed |
| TransactionEndings.PointerGoneMeansPooled | trpc/client/mysql/mysql_service_proxy.cc:240-249 | in every run, a success that returns without the pointer went through the push of Reclaim with that handle and transaction |
| TransactionEndings.PushHandsBack | trpc/client/mysql/mysql_executor_pool.cc:97-102 | that push puts the executor of the transaction to the back of its own shard of its own pool and takes the handle's pointer |
| TransactionTheorems.InsideIffSameSession | trpc/client/mysql/executor/mysql_executor.cc:73-138 | a statement of a transaction runs inside it on the server if and only if the connection is still in the session that begin used; which actions change the session is the next row |
| TransactionSessions.SessionChangesIff | trpc/client/mysql/executor/mysql_executor.cc:73-108 | one action gives the connection of a handle a new session if and only if it is a queued prepared statement of that handle, not a Commit or Rollback, that finds the connection lost and dials again |
| TransactionSessions.OutsideIffRedialled | trpc/client/mysql/executor/mysql_executor.cc:73-115 | in every run, each statement of a transaction after its begin runs outside it if and only if this or an earlier statement of the transaction dialled again |
| TransactionSessions.InsideIffNeverRedialled | trpc/client/mysql/executor/mysql_executor.cc:73-115 | all statements of a transaction ran inside it if and only if no action of the run redialled for it |
| TransactionSessions.EndInsideIffNeverRedialled | trpc/client/mysql/mysql_service_proxy.cc:184-212 | a Commit or Rollback that returns success ran inside its transaction if and only if no action of the run redialled for it |
| TransactionTheorems.RedialEscapes | trpc/client/mysql/executor/mysql_executor.cc:99-115 | a queued prepared statement that finds the connection lost and dials again is executed outside any transaction, and the handle stays started |
| TransactionEndings.EscapedEndReportsSuccess | trpc/client/mysql/mysql_service_proxy.cc:184-212 | from every started handle with a queued prepared statement, a redial, whether or not that statement then fails, can be followed by a Commit or Rollback that returns success although neither statement ran inside the transaction |
| TransactionEndings.EndReportsSuccess | trpc/client/mysql/mysql_service_proxy.cc:184-251 | from every started handle with a live connection an ending can return success; its statement ran inside the transaction if and only if the server still had it open |
| ExampleRuns.FirstHandle | trpc/client/mysql/mysql_service_proxy.cc:101-120 | a fresh system reaches a started handle with an open transaction, a live connection and room in its shard |
| ExampleRuns.EscapeOccurs | trpc/client/mysql/executor/mysql_executor.cc:73-83 | some run ends in such a success outside the transaction |
| TransactionTheorems.PooledOpenWasRefused | trpc/client/mysql/mysql_service_proxy.cc:184-251 | a pooled executor has a transaction open only if a synchronous ending of that transaction was refused before it was sent |
| TransactionTheorems.WhatRefusedMeans | trpc/client/mysql/mysql_service_proxy.h:333-341 | a transaction counts as refused if and only if it did before or the action is a synchronous Commit or Rollback on its started handle that the first filter rejects, or that the timeout check or the pre-send filter stops while the connection is alive |
| TransactionTheorems.CleanRunsPoolNothingOpen | trpc/client/mysql/mysql_service_proxy.cc:184-238 | in every run without such a refusal no pooled executor has an open transaction, lost connections, asynchronous endings and dead handles included |
| TransactionEndings.RefusedEndPoolsOpenTransaction | trpc/client/mysql/mysql_service_proxy.cc:186-194 | from every state with room in the shard, every refused synchronous ending, however it was stopped, can be run to its end and leaves a pooled executor with the transaction open |
| ExampleRuns.RefusalOccurs | trpc/client/mysql/mysql_service_proxy.cc:186-194 | for both endings and every way to stop them, some run from a fresh system ends like that |
| ProtocolRuns.ActionKeeps | trpc/client/mysql/mysql_service_proxy.h:177-465 | every action of every caller keeps the whole invariant |
| ProtocolRuns.RunHolds | trpc/client/mysql/mysql_service_proxy.h:177-465 | every state of every run satisfies the invariant |
| ProtocolPoolSteps.EndFindsOrigin | trpc/client/mysql/mysql_service_proxy.cc:244-247 | the address an executor was made with leads back to the pool that made it |
| ProtocolPoolSteps.FoundKeeps | trpc/client/mysql/mysql_executor_pool_manager.cc:26-30 | a lookup that finds the pool keeps the invariant, whatever other threads do before the next step |
| ProtocolPoolSteps.MissingKeeps | trpc/client/mysql/mysql_executor_pool_manager.cc:32-32 | a lookup that fails makes a pool that is still private to the thread, and the invariant holds |
| ProtocolPoolSteps.WinnerKeeps | trpc/client/mysql/mysql_executor_pool_manager.cc:33-36 | registering the new pool under its own key keeps the invariant |
| ProtocolPoolSteps.LoserKeeps | trpc/client/mysql/mysql_executor_pool_manager.cc:33-41 | the thread that loses the insertion deletes its own pool and goes on with the registered one, and the invariant holds |
| ProtocolPoolSteps.TicketKeeps | trpc/client/mysql/mysql_executor_pool.cc:30-31 | drawing a ticket keeps the invariant |
| ProtocolPoolSteps.EmptyKeeps | trpc/client/mysql/mysql_executor_pool.cc:52-54 | an empty shard sends the caller on to a new executor, and the invariant holds |
| ProtocolPoolSteps.PopKeeps | trpc/client/mysql/mysql_executor_pool.cc:36-55 | popping the back executor of the locked shard, alive or not, keeps the invariant |
| ProtocolPoolSteps.DiscardKeeps | trpc/client/mysql/mysql_executor_pool.cc:57-62 | closing a popped executor outside the lock and trying again keeps the invariant |
| ProtocolPoolSteps.MakeKeeps | trpc/client/mysql/mysql_executor_pool.cc:75-90 | making an executor with a packed id keeps the invariant |
| ProtocolPoolSteps.DialKeeps | trpc/client/mysql/mysql_executor_pool.cc:66-72 | a dial that succeeds but is not yet counted, or that fails, keeps the invariant |
| ProtocolPoolSteps.CountKeeps | trpc/client/mysql/mysql_executor_pool.cc:66-68 | counting a connected executor gives it a rank above all others of its pool and keeps the invariant |
| ProtocolTxSteps.DropKeeps | trpc/client/mysql/mysql_service_proxy.cc:104-111 | letting an unconnected executor go, or one whose begin was refused, keeps the invariant |
| ProtocolTxSteps.QueryKeeps | trpc/client/mysql/mysql_service_proxy.h:348-371 | a plain query over a pooled or new executor keeps the invariant; what it does with its executor is PoolReturns.QueryAlone |
| ProtocolTxSteps.BeginKeeps | trpc/client/mysql/mysql_service_proxy.cc:113-113 | sending begin over the thread's executor keeps the invariant |
| ProtocolTxSteps.OpenedKeeps | trpc/client/mysql/mysql_service_proxy.cc:116-120 | handing the executor to a new started handle keeps the invariant |
| ProtocolTxSteps.FailedKeeps | trpc/client/mysql/mysql_service_proxy.cc:116-123 | a begin that failed leaves no handle and lets the executor go, and the invariant holds |
| ProtocolHandleSteps.StartUserKeeps | trpc/client/mysql/mysql_service_proxy.h:237-260 | the checks before a handle's statement keep the invariant, whichever of them fails |
| ProtocolHandleSteps.SendKeeps | trpc/client/mysql/mysql_service_proxy.h:344-374 | a handle's statement, with any outcome of the connection check, keeps the invariant |
| ProtocolHandleSteps.UnsentKeeps | trpc/client/mysql/mysql_service_proxy.h:357-364 | a queued statement that finds its connection lost keeps the invariant |
| ProtocolHandleSteps.StartEndKeeps | trpc/client/mysql/mysql_service_proxy.cc:184-238 | the checks of Commit, Rollback and their asynchronous forms keep the invariant, whichever of them fails |
| ProtocolHandleSteps.SettleKeeps | trpc/client/mysql/mysql_service_proxy.cc:240-243 | EndTransaction's change of state keeps the invariant for handles in any state |
| ProtocolHandleSteps.ReturnKeeps | trpc/client/mysql/mysql_service_proxy.cc:196-196 | the return of Commit or Rollback keeps the invariant |
| ProtocolHandleSteps.MoveConstructKeeps | trpc/client/mysql/transaction.h:37-42 | move construction of a handle keeps the invariant |
| ProtocolHandleSteps.SelfAssignKeeps | trpc/client/mysql/transaction.h:29-35 | a handle assigned to itself loses its executor, and the invariant holds |
| ProtocolHandleSteps.DestroyKeeps | trpc/client/mysql/transaction.h:48-55 | destroying a handle closes its executor and keeps the invariant |
| ProtocolHandleSteps.MoveAssignKeeps | trpc/client/mysql/transaction.h:29-35 | move assignment between handles keeps the invariant, although it drops the target's executor unclosed |
| ProtocolReclaimSteps.RoomKeeps | trpc/client/mysql/mysql_executor_pool.cc:94-98 | taking the shard lock and passing the size test keeps the invariant |
| ProtocolReclaimSteps.FullKeeps | trpc/client/mysql/mysql_executor_pool.cc:94-98 | failing the size test keeps the invariant |
| ProtocolReclaimSteps.UnderKeeps | trpc/client/mysql/mysql_executor_pool.cc:99-99 | passing the counter test keeps the invariant, which from now on says that the executor's own rank is at most max_size |
| ProtocolReclaimSteps.OverKeeps | trpc/client/mysql/mysql_executor_pool.cc:99-104 | a counter above max_size releases the lock and leads to the closing Reclaim, and the invariant holds |
| ProtocolReclaimSteps.PushKeeps | trpc/client/mysql/mysql_executor_pool.cc:100-102 | pooling an executor after both tests, with other threads counting in between, keeps the invariant |
| ProtocolReclaimSteps.BumpKeeps | trpc/client/mysql/mysql_executor_pool.cc:106-106 | the increment of a closing Reclaim keeps the invariant |
| ProtocolReclaimSteps.ShutKeeps | trpc/client/mysql/mysql_executor_pool.cc:106-107 | the closing Reclaim, which leaves the handle's pointer set, keeps the invariant |
| PoolSequential.AloneAsSpecified | trpc/client/mysql/mysql_executor_pool.cc:33-72 | run alone, the steps of GetOrCreate refine the list specification: the first usable executor from the back at depth d < 3 with the d behind it closed, or a new counted one after min(3, size) were closed; every other executor, shard and pool unchanged |
| PoolSequential.ThreeLooks | trpc/client/mysql/mysql_executor_pool.cc:30-34 | the same from the ticket on: the shard is that of the ticket, and the looks at it are three |
| PoolSequential.FirstUsable | trpc/client/mysql/mysql_executor_pool.cc:37-51 | the number discarded is the depth of the first executor that is connected, answers the ping and is not idle too long |
| PoolRules.PackedIdKeepsTicket | trpc/client/mysql/mysql_executor_pool.cc:76-77 | packing ticket and generation into 64 bits loses neither |
| PoolRules.OlderTimesOutToo | trpc/client/mysql/mysql_executor_pool.cc:143-151 | an executor is idle too long exactly if max_idle_time is above 0 and its age has reached it, so of two executors the one used earlier times out no later, with the unsigned age written out |
| TicketBalance.BalancedBeforeWrap | trpc/client/mysql/mysql_executor_pool.cc:30-34 | any run of consecutive tickets before the wrap spreads over the shards evenly, give or take one |
| TicketBalance.BalancedForeverIff | trpc/client/mysql/mysql_executor_pool.cc:30-34 | with wraps included this holds if and only if the number of shards divides 2^32 |
| ExecutorPool.MysqlExecutorPool.GetOrCreate | trpc/client/mysql/mysql_executor_pool.cc:26-73 | returns the first usable executor from the back at depth d < 3 and removes exactly the d+1 last ones, the discarded ones closed; otherwise removes and closes min(3, size) and returns a new executor with the packed id, counted if it connected and with a closed handle if not; other shards, counters and executors unchanged |
| ExecutorPool.MysqlExecutorPool.FirstUsable | trpc/client/mysql/mysql_executor_pool.cc:37-62 | the depth used above is that of the first executor from the back that is connected, answers the ping and is not idle too long |
| ExecutorPool.MysqlExecutorPool.Dial | trpc/client/mysql/mysql_executor_pool.cc:64-72 | the executor is returned whether it connected or not; the counter counts the connected ones; one that did not connect has a closed handle, from which its callers read the error |
| ExecutorPool.MysqlExecutorPool.PopBack | trpc/client/mysql/mysql_executor_pool.cc:41-60 | the back of the shard is popped and, unless usable, closed; its handle is freed if and only if it was discarded although it answered |
| ExecutorPool.MysqlExecutorPool.Reclaim | trpc/client/mysql/mysql_executor_pool.cc:92-108 | the executor goes to the back of the shard of its id exactly if ret is 0, the shard has at most floor(max_size / num_shard_group) executors and the counter is at most max_size; otherwise it is closed, the counter grows and the caller keeps the pointer |
| ExecutorPool.MysqlExecutorPool.Stop | trpc/client/mysql/mysql_executor_pool.cc:110-125 | every pooled executor is closed and stays in its place |
| ExecutorPool.MysqlExecutorPool.Destroy | trpc/client/mysql/mysql_executor_pool.cc:127-139 | every shard is emptied |
| ExecutorPool.MysqlExecutorPool.constructor | trpc/client/mysql/mysql_executor_pool.cc:20-24 | empty shards, zero counters, and the floor of max_size / num_shard_group as the limit of a shard |
| Executor.MysqlExecutor.Connect | trpc/client/mysql/executor/mysql_executor.cc:38-57 | a connected executor is left alone; otherwise the dial decides, and a failed one leaves the handle closed but not null; tells whether the dial was made on a handle closed like that |
| Executor.MysqlExecutor.Close | trpc/client/mysql/executor/mysql_executor.cc:65-71 | the executor is disconnected, and the handle nulled if it was connected |
| Executor.MysqlExecutor.CheckAlive | trpc/client/mysql/executor/mysql_executor.cc:142-151 | true exactly for a connected executor that answers the ping, and the flag follows |
| Executor.MysqlExecutor.StartReconnect | trpc/client/mysql/executor/mysql_executor.cc:126-138 | at most five attempts, stopping at the first success, with the given pause after each failure; an attempt dials a closed handle if and only if the executor is not connected and its handle was closed before or the first attempt fails; if all fail the handle is closed |
| Executor.ReconnectPauses | trpc/client/mysql/executor/mysql_executor.cc:127-136 | the pauses never reach their cap of 3000 ms and add up to 3.1 s when all attempts fail |
| PoolManager.MysqlExecutorPoolManager.Get | trpc/client/mysql/mysql_executor_pool_manager.cc:20-48 | the returned pool is the one registered under the endpoint's key and not deleted; when another thread inserted first, exactly the caller's own new pool is deleted |
| PoolManager.MysqlExecutorPoolManager.Stop | trpc/client/mysql/mysql_executor_pool_manager.cc:50-54 | every executor pooled anywhere is closed and the pools are remembered |
| PoolManager.MysqlExecutorPoolManager.Destroy | trpc/client/mysql/mysql_executor_pool_manager.cc:56-65 | the remembered pools are emptied and deleted, each once |
| TransactionHandle.TransactionHandle.MoveFrom | trpc/client/mysql/transaction.h:37-42 | the new handle has the state and the executor, the source is kInValid and empty |
| TransactionHandle.TransactionHandle.MoveAssign | trpc/client/mysql/transaction.h:29-35 | the same for assignment; a handle assigned to itself ends up empty |
| TransactionHandle.TransactionHandle.SetExecutor | trpc/client/mysql/transaction.h:61-65 | an executor is only taken by an empty handle |
| TransactionHandle.TransactionHandle.Destroy | trpc/client/mysql/transaction.h:48-55 | an executor that was never returned is closed |
| TransactionHandle.MysqlServiceProxy.Query | trpc/client/mysql/mysql_service_proxy.h:233-389 | the statement is sent exactly if the filter passes, the handle is started, its connection answers and nothing stops it late; a connection lost at the check rolls the handle back, one lost under a prepared statement is dialled again and the handle keeps its state; the fresh results carry an error only if the statement was sent |
| TransactionHandle.MysqlServiceProxy.ExecuteStatement | trpc/client/mysql/executor/mysql_executor.cc:99-108 | the connection is up afterwards exactly if it answered or one of the dials succeeded |
| TransactionHandle.MysqlServiceProxy.EndTransaction | trpc/client/mysql/mysql_service_proxy.cc:240-251 | the state is set in any case; if its own endpoint has no pool yet, or that pool's shard and counter leave room, the executor is at the back of its shard and the handle empty, and otherwise it is closed and still in the handle |
| TransactionHandle.MysqlServiceProxy.End | trpc/client/mysql/mysql_service_proxy.cc:184-212 | success exactly if the statement was sent without error; the transaction is ended, with the executor gone exactly if its pool has room, unless the statement was sent and failed, and then the executor is still there and connected, since this statement is never dialled under |
| TransactionHandle.MysqlServiceProxy.AsyncEnd | trpc/client/mysql/mysql_service_proxy.cc:214-238 | the asynchronous form ends the transaction exactly if the statement was sent without error, with the executor gone exactly if its pool has room |
| Endpoint.KeyInjective | trpc/client/mysql/mysql_executor_pool_manager.cc:21-23 | for NUL-free hosts, colons allowed, whose text is at most 63 characters, the key is host, colon and port before NULs, and keys are equal if and only if host and port are |
| Endpoint.KeysEqualIff | trpc/client/mysql/mysql_executor_pool_manager.cc:21-23 | in general keys are equal if and only if the first 63 characters of the texts are |
| Endpoint.LongHostsCollide | trpc/client/mysql/mysql_executor_pool_manager.cc:21-23 | a host of 63 or more characters has one key for all ports |
| Decimal.ValueOfDigits | trpc/client/mysql/mysql_executor_pool_manager.cc:23-23 | decimal printing of a number is undone by reading it |
| Fetch.QueryHandle.constructor | trpc/client/mysql/executor/mysql_executor.h:265-291 | the string and blob columns get the configured buffer size and are listed in order |
| Fetch.QueryHandle.BindOutputs | trpc/client/mysql/executor/mysql_binder.h:142-184 | every column is bound to the front of its buffer |
| Fetch.BoundIsReady | trpc/client/mysql/executor/mysql_binder.h:145-177 | a bound string or blob buffer is never empty, even when the configured size is 0 |
| Fetch.QueryHandle.Register | trpc/client/mysql/executor/mysql_executor.cc:84-88 | the library's copy of every bind is the bind as it is now |
| Fetch.RegisteredIsCurrent | trpc/client/mysql/executor/mysql_executor.cc:84-88 | freshly bound and registered columns are ready for a first row, and the library's copies show them |
| Fetch.FetchFills | trpc/client/mysql/executor/mysql_executor.h:443-444 | a fetch fills a ready column whose copy is good, and a NULL is fetched whatever the copy |
| Fetch.Reassembled | trpc/client/mysql/executor/mysql_executor.h:463-477 | completing a truncated column puts the whole value into the grown buffer and leaves the bind at its base; other columns are untouched. This rests on the library copying from the given offset no more than the bytes that remain |
| Fetch.WindowFitsIff | trpc/client/mysql/executor/mysql_executor.h:470-474 | the window given to fetch_column lies in the buffer if and only if the buffer was empty before; the remaining bytes alone end exactly at the end of the buffer |
| Fetch.CurrentIffUntouched | trpc/client/mysql/executor/mysql_executor.h:470-477 | a good copy of a bind stays good if and only if its column was not completed |
| Fetch.QueryHandle.FetchTruncatedResults | trpc/client/mysql/executor/mysql_executor.h:461-479 | succeeds if and only if fetch_column does on every truncated column; then every truncated column was completed and every other one left alone; failure stops at the first column whose fetch fails, which is grown but not filled |
| Fetch.ReadableIffCompleted | trpc/client/mysql/executor/mysql_executor.h:446-452 | after it, and with no empty string or blob buffer before, all columns are read in bounds if and only if it succeeded |
| Fetch.TupleGetsValue | trpc/client/mysql/executor/mysql_binder.h:216-229 | the tuple gets the full value, read inside the buffer; a NULL string or blob leaves it empty |
| Fetch.ExtendedReadableIff | trpc/client/mysql/executor/mysql_executor.h:446-452 | a column that was grown but not filled is read in bounds if and only if its buffer was empty before |
| Fetch.QueryHandle.StoreRow | trpc/client/mysql/executor/mysql_executor.h:446-454 | what follows a fetch adds exactly the server's row and its NULL flags and leaves every column ready, if and only if fetch_column succeeds on every truncated column; a truncated status from a fixed-size column does no harm |
| Fetch.QueryHandle.FetchResults | trpc/client/mysql/executor/mysql_executor.h:435-459 | fails without rows if the result cannot be stored; otherwise the loop returns exactly the server's rows and NULL flags, if and only if every value longer than its buffer is completed and only NULLs follow it in its column; if not, a tuple is read past a buffer or the library writes through an old address |
| Fetch.TurnTaken | trpc/client/mysql/executor/mysql_executor.h:442-455 | after each row a column has grown, and its copy is out of date, if and only if some value so far was longer than its first buffer |
| Fetch.QueryRows | trpc/client/mysql/executor/mysql_executor.h:367-385 | from the handle's construction to the last row: the same in terms of the configured buffer size, with 32 bytes in place of 0, and no rows if the statement was not executed |
| Fetch.SecondTextIsLost | trpc/client/mysql/executor/mysql_executor.h:442-450 | a text longer than 32 bytes followed by any other text, with no size configured, has no defined result |
| Formatter.ConvertPlaceHolder | trpc/client/mysql/executor/mysql_executor.h:47-60 | the loop replaces exactly the question marks not preceded by a backslash |
| Formatter.TwoStages | trpc/client/mysql/executor/mysql_executor.h:47-71 | for SQL without braces the two stages substitute the i-th argument for the i-th unescaped question mark and keep everything else, whatever the arguments contain, and fail exactly when arguments are missing |
| Formatter.DirectIffBraceFree | trpc/client/mysql/executor/mysql_executor.h:47-71 | the two stages are direct substitution for all argument lists if and only if the SQL has no braces |
| SqlLiterals.ArgumentMeant | trpc/client/mysql/executor/mysql_executor.h:62-71 | for SQL without braces, the placeholder gives way to a literal that the server reads as the argument: a text as its own characters, with the SQL resuming behind it, if and only if it is plain and no quote follows; a null pointer as NULL; a time as what it prints; a number is inserted as it is |
| SqlLiterals.TextReadsBackIff | trpc/client/mysql/executor/mysql_executor.h:62-64 | quoted characters read back as themselves, with the rest of the SQL behind them, if and only if they hold no quote, each backslash stands before % or _, and no quote follows; without such pairs: no quote and no backslash |
| SqlLiterals.OnlyNullIsNull | trpc/client/mysql/executor/mysql_executor.h:62-66 | the null pointer is the only argument that reads as NULL, and a string and a C string of the same characters convert alike |
| Formatter.ConversionLength | trpc/client/mysql/executor/mysql_executor.h:47-60 | the rewriting adds one character per unescaped question mark |
| Formatter.RestoreUndoesIff | trpc/client/mysql/executor/mysql_executor.h:47-60 | replacing "{}" by "?" undoes the rewriting if and only if the SQL contains no "{}" |
| MysqlTime.RoundTrip | trpc/client/mysql/executor/mysql_type.cc:109-119 | FromString after ToString restores year through second for all 32-bit values and leaves the receiver's other fields alone |
| MysqlTime.StampRoundTrip | trpc/client/mysql/executor/mysql_type.cc:109-119 | FromString sets the six fields to the numbers of a zero-padded "YYYY-MM-DD HH:MM:SS" digit string, and ToString then gives it back |
| MysqlTime.DateAlone | trpc/client/mysql/executor/mysql_type.cc:114-119 | a date without a time of day leaves the time of day as it was |
| MysqlTime.TextInjective | trpc/client/mysql/executor/mysql_type.cc:109-112 | times that print alike agree from year to second |
| MysqlTime.MysqlTime.FromString | trpc/client/mysql/executor/mysql_type.cc:114-119 | the chain of extractions computes the parse that the round trips are about |
| MysqlTime.MysqlTime.ToString | trpc/client/mysql/executor/mysql_type.cc:109-112 | the printed text is the one that the round trips are about |
| MysqlTime.MysqlTime.SetMonth | trpc/client/mysql/executor/mysql_type.cc:42-49 | a month outside 1..12 is dropped, so the setters keep the fields in range |
| Results.NativeRowsAgree | trpc/client/mysql/executor/mysql_executor.h:412-433 | rows and null flags have the shape of the server's table, the field names are the server's, cells show exactly the bytes sent or nothing, and IsValueNull is true exactly for the NULL cells and false out of range; a refused query leaves its number and message and nothing else |
| Results.MysqlResults.FetchRows | trpc/client/mysql/executor/mysql_executor.h:412-428 | the two nested loops compute those rows and flags |
| Results.MysqlResults.QueryAll | trpc/client/mysql/executor/mysql_executor.h:391-433 | what a native query leaves in the object and in the library, and that no raw result is overwritten or freed twice |
| Results.MysqlResults.IsValueNull | trpc/client/mysql/executor/mysql_results.h:313-320 | never reads outside the flags, and tells whether the cell exists and is NULL |
| Results.MysqlResults.GetResultSet | trpc/client/mysql/executor/mysql_results.h:273-290 | a native result can be read again and again, any other only once |
| Results.MysqlResults.Clear | trpc/client/mysql/executor/mysql_results.h:327-340 | everything but the error number is reset and the raw result freed |
| Results.MysqlResults.MoveFrom | trpc/client/mysql/executor/mysql_results.h:199-210 | the new object gets everything but the error number, the source gives up its raw result |
| Results.MysqlResults.MoveAssign | trpc/client/mysql/executor/mysql_results.h:182-197 | the same for assignment, without freeing what the target held |
| Results.HolderTells | trpc/client/mysql/executor/mysql_results.h:182-210 | in every run, the object to which the moves have taken the result of a query shows the server's table, every text, every NULL and the field names, or the message of the refusal |
| Results.HolderOwns | trpc/client/mysql/executor/mysql_results.h:182-224 | in every run, the owner of a raw result is the object to which the moves have taken it, and there is none once that object was queried, cleared, destroyed or moved onto |
| Results.ResultTravels | trpc/client/mysql/executor/mysql_results.h:182-210 | after a query and any chain of moves the last object shows exactly the server's table, and all the others show no row, no name and no NULL but still say that they have a value |
| Results.ErrorStaysBehind | trpc/client/mysql/executor/mysql_results.h:182-210 | in every run, an object's error number is that of its own last refused query since it was constructed, or 0, whatever is moved into or out of it |
| Results.ErrorSticks | trpc/client/mysql/executor/mysql_results.h:322-340 | after any sequence of queries the error number is that of the last refused one, however many succeeded since |
| Results.SingleOwnership | trpc/client/mysql/executor/mysql_results.h:182-224 | over any sequence of operations on any number of objects no raw result has two owners, is freed twice, or is owned after being freed |
| Results.ViewsAreValid | trpc/client/mysql/executor/mysql_results.h:182-224 | every string view in a result set points into an unfreed raw result of the same object |
| Results.Conservation | trpc/client/mysql/executor/mysql_results.h:182-340 | every raw result is owned, or freed once, or lost, and exactly one of the three |
| Results.LostIff | trpc/client/mysql/executor/mysql_results.h:182-197 | an operation loses a raw result if and only if it is a move assignment from another object onto the one that owns it |

## Left out

- The client library itself: connecting, pinging, preparing, storing and fetching are choices with the small contracts given above. What the library writes into a buffer besides the bytes of a value, and what it does with a handle that a failed dial closed, is not part of this model.
- Fetch.QueryHandle.FetchResults: a turn in which the library would write through an old address, or a tuple would be read past a buffer, ends the model's loop without results; what the original does then is undefined.
- Formatter.DirectIffBraceFree: replacement fields with an index or a format specification have the value OtherField, whose text is not described; the direction from substitution to no braces counts that value as different.
- PoolTheorems.IdleBound: speaks of pools whose counter has been incremented fewer than 2^32 times; IdleBoundAlways gives the bound that survives a wrap.
- PoolManager.MysqlExecutorPoolManager.Destroy: what executor_pools_.Reclaim() leaves in the map is not part of this model.
- TransactionHandle.MysqlServiceProxy.Query: takes a rejecting filter to leave a failed status, and no filter to turn a failed status into a good one.
- AsyncRollback reads the value of its failed future before it stops; the model stops without reading it.
- The framework: filters, selector, contexts, futures, the thread pool and the concurrent map appear only through their outcomes and as atomic steps; memory ordering is interleaving.
- SetMysqlConfig with live handles, Stop and Destroy beside running calls, calls by the user on a handle's executor, and two operations at once on one handle.
- Statements that commit implicitly, and transaction control inside plain SQL.
- Input binding, CheckFieldsOutputArgs and the type tables: they would only add easy members.
- SqlLiterals.ArgumentMeant: the reader knows single-quoted strings, NULL and words; a number is only said to be inserted as it is, and the SQL mode NO_BACKSLASH_ESCAPES is off.
- Configuration, the codec, the plugin, logging and the examples.
