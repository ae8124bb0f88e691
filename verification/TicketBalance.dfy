/**
  How evenly the shard tickets spread the GetOrCreate calls over the shards. The ticket is a
  32-bit counter taken modulo the number of shards.
 */
module TicketBalance {
  import opened PoolRules

  // The shard the call with the i-th ticket starts in.
  function StartShard(o: PoolOption, i: nat): (k: nat)
    ensures k < o.numShardGroup
  {
    i % U32 % o.numShardGroup
  }

  // Of the n calls that draw the tickets numbered from.., how many start in shard k.
  function Visits(o: PoolOption, from: nat, n: nat, k: nat): nat {
    if n == 0 then 0
    else Visits(o, from, n - 1, k) + if StartShard(o, from + n - 1) == k then 1 else 0
  }

  // Of the numbers below x, how many leave remainder k.
  function Below(x: nat, modulus: nat, k: nat): nat
    requires 0 < modulus
  {
    x / modulus + if k < x % modulus then 1 else 0
  }

  lemma DivStep(x: nat, m: nat)
    requires 0 < m
    ensures if x % m == m - 1 then (x + 1) / m == x / m + 1 && (x + 1) % m == 0
            else (x + 1) / m == x / m && (x + 1) % m == x % m + 1
  {
    var q, r := x / m, x % m;
    assert x == m * q + r;
    if r == m - 1 {
      assert x + 1 == m * (q + 1);
      Quotient(x + 1, m, q + 1, 0);
    } else {
      Quotient(x + 1, m, q, r + 1);
    }
  }

  // Division with remainder has one answer.
  lemma Quotient(x: nat, m: nat, q: nat, r: nat)
    requires r < m && x == m * q + r
    ensures x / m == q && x % m == r
  {
    SameQuotient(m, q, r, x / m, x % m);
  }

  lemma SameQuotient(m: nat, q: int, r: nat, q': int, r': nat)
    requires r < m && r' < m && m * q + r == m * q' + r'
    ensures q == q' && r == r'
  {
    var d := q - q';
    assert m * d == r' - r;
    if d > 0 {
      MulAtLeast(m, d);
    } else if d < 0 {
      MulAtLeast(m, -d);
    }
  }

  lemma MulAtLeast(m: nat, d: int)
    requires d >= 1
    ensures m * d >= m
  {
    assert m * d == m + m * (d - 1);
  }

  // Between two wraps, or when the wrap does not show, the count has a closed form.
  lemma {:induction false} VisitsClosed(o: PoolOption, from: nat, n: nat, k: nat)
    requires k < o.numShardGroup
    requires forall i :: from <= i < from + n ==> StartShard(o, i) == i % o.numShardGroup
    ensures Visits(o, from, n, k) == Below(from + n, o.numShardGroup, k) - Below(from, o.numShardGroup, k)
  {
    if n > 0 {
      VisitsClosed(o, from, n - 1, k);
      DivStep(from + n - 1, o.numShardGroup);
      assert StartShard(o, from + n - 1) == (from + n - 1) % o.numShardGroup;
    }
  }

  lemma ClosedIsBalanced(o: PoolOption, from: nat, n: nat, j: nat, k: nat)
    requires j < o.numShardGroup && k < o.numShardGroup
    requires forall i :: from <= i < from + n ==> StartShard(o, i) == i % o.numShardGroup
    ensures Visits(o, from, n, j) <= Visits(o, from, n, k) + 1
  {
    VisitsClosed(o, from, n, j);
    VisitsClosed(o, from, n, k);
  }

  /** Before the counter wraps, the start shards of any run of calls differ by at most one. */
  lemma BalancedBeforeWrap(o: PoolOption, from: nat, n: nat, j: nat, k: nat)
    requires j < o.numShardGroup && k < o.numShardGroup && from + n <= U32
    ensures Visits(o, from, n, j) <= Visits(o, from, n, k) + 1
  {
    forall i | from <= i < from + n
      ensures StartShard(o, i) == i % o.numShardGroup
    {
      assert i % U32 == i;
    }
    ClosedIsBalanced(o, from, n, j, k);
  }

  ghost predicate AlwaysBalanced(o: PoolOption) {
    forall from: nat, n: nat, j: nat, k: nat :: j < o.numShardGroup && k < o.numShardGroup ==>
      Visits(o, from, n, j) <= Visits(o, from, n, k) + 1
  }

  lemma WrapDoesNotShow(o: PoolOption, i: nat)
    requires U32 % o.numShardGroup == 0
    ensures StartShard(o, i) == i % o.numShardGroup
  {
    var m := o.numShardGroup;
    var c, q, r := U32 / m, i / U32, i % U32;
    assert U32 == m * c && i == U32 * q + r;
    assert i == m * (c * q + r / m) + r % m by {
      assert r == m * (r / m) + r % m;
      assert U32 * q == m * (c * q);
      assert m * (c * q + r / m) == m * (c * q) + m * (r / m);
    }
    Quotient(i, m, c * q + r / m, r % m);
  }

  // The r tickets before the wrap, and the first after it.
  lemma TicketsAtWrap(o: PoolOption, i: nat)
    requires var r := U32 % o.numShardGroup; r > 0 && U32 - r <= i <= U32
    ensures StartShard(o, i) == if i < U32 then i - (U32 - U32 % o.numShardGroup) else 0
  {
    var m := o.numShardGroup;
    if i < U32 {
      Quotient(i, m, U32 / m, i - (U32 - U32 % m));
      assert i % U32 == i;
    }
  }

  // When the number of shards does not divide 2^32, the wrap serves the first shard twice.
  lemma WrapSkips(o: PoolOption)
    requires U32 % o.numShardGroup != 0
    ensures var r := U32 % o.numShardGroup;
            Visits(o, U32 - r, r + 1, 0) == 2 && Visits(o, U32 - r, r + 1, r) == 0
  {
    var r := U32 % o.numShardGroup;
    forall i | U32 - r <= i < U32
      ensures StartShard(o, i) == i - (U32 - r)
    {
      TicketsAtWrap(o, i);
    }
    VisitsOnce(o, U32 - r, r, 0);
    VisitsOnce(o, U32 - r, r, r);
    TicketsAtWrap(o, U32);
  }

  lemma {:induction false} VisitsOnce(o: PoolOption, from: nat, n: nat, k: nat)
    requires forall i :: from <= i < from + n ==> StartShard(o, i) == i - from
    ensures Visits(o, from, n, k) == if k < n then 1 else 0
  {
    if n > 0 {
      VisitsOnce(o, from, n - 1, k);
      assert StartShard(o, from + n - 1) == n - 1;
    }
  }

  /** Wraps included, every run of calls is balanced exactly when the number of shards divides 2^32. */
  lemma BalancedForeverIff(o: PoolOption)
    ensures AlwaysBalanced(o) <==> U32 % o.numShardGroup == 0
  {
    if U32 % o.numShardGroup == 0 {
      forall from: nat, n: nat, j: nat, k: nat | j < o.numShardGroup && k < o.numShardGroup
        ensures Visits(o, from, n, j) <= Visits(o, from, n, k) + 1
      {
        forall i | from <= i < from + n
          ensures StartShard(o, i) == i % o.numShardGroup
        {
          WrapDoesNotShow(o, i);
        }
        ClosedIsBalanced(o, from, n, j, k);
      }
    } else {
      WrapSkips(o);
    }
  }
}
