/**
  The arithmetic rules of the executor pool, shared by the pool class (module ExecutorPool)
  and by the concurrent protocol (module Protocol). Unsigned 32- and 64-bit wrap-around is
  written out.
 */
module PoolRules {
  const U32: nat := 0x1_0000_0000
  const U64: nat := 0x1_0000_0000_0000_0000

  // How many pooled executors one GetOrCreate call may discard before it dials a new one.
  const RETRY_NUM: nat := 3

  datatype PoolOptionRaw = PoolOption(maxSize: nat, maxIdleTime: nat, numShardGroup: nat)

  type PoolOption = o: PoolOptionRaw |
    o.maxSize < U32 && o.maxIdleTime < U64 && 0 < o.numShardGroup < U32
    witness PoolOption(0, 0, 4)

  // The integer division happens before the ceil, so this is the floor of the quotient.
  function MaxNumPerShard(o: PoolOption): nat {
    o.maxSize / o.numShardGroup
  }

  // static_cast<uint64_t>(shard_id) << 32 | executor_id_gen, on arithmetic.
  function PackId(shardId: nat, gen: nat): nat {
    shardId * U32 + gen
  }

  // uint32_t shard_id = executor_id >> 32, then modulo the number of shards.
  function ShardIndex(o: PoolOption, executorId: nat): (k: nat)
    ensures k < o.numShardGroup
  {
    executorId / U32 % U32 % o.numShardGroup
  }

  // now - m_alivetime in uint64_t.
  function AliveTime(refreshed: nat, now: nat): nat {
    (now - refreshed) % U64
  }

  predicate IsIdleTimeout(o: PoolOption, refreshed: nat, now: nat) {
    !(o.maxIdleTime == 0 || AliveTime(refreshed, now) < o.maxIdleTime)
  }

  // The two tests of Reclaim.
  predicate HasRoom(o: PoolOption, size: nat) {
    size <= MaxNumPerShard(o)
  }

  predicate UnderLimit(o: PoolOption, executorNum: nat) {
    executorNum <= o.maxSize
  }

  /** The 64-bit packing loses nothing: the upper half gives the shard ticket back. */
  lemma PackedIdKeepsTicket(o: PoolOption, shardId: nat, gen: nat)
    requires shardId < U32 && gen < U32
    ensures PackId(shardId, gen) < U64
    ensures PackId(shardId, gen) / U32 == shardId && PackId(shardId, gen) % U32 == gen
    ensures ShardIndex(o, PackId(shardId, gen)) == shardId % o.numShardGroup
  {
    assert PackId(shardId, gen) / U32 == shardId;
  }

  /** Among executors refreshed no later than now, the older one times out first; and an executor times
      out exactly if there is a limit and its true age has reached it. */
  lemma OlderTimesOutToo(o: PoolOption, first: nat, second: nat, now: nat)
    requires first <= second <= now < U64
    ensures AliveTime(first, now) == now - first
    ensures IsIdleTimeout(o, first, now) <==> o.maxIdleTime > 0 && now - first >= o.maxIdleTime
    ensures IsIdleTimeout(o, second, now) ==> IsIdleTimeout(o, first, now)
  {
  }
}
