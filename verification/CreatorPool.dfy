/** Sharing the monthly creator pool by listening minutes. */
module CreatorPool {

  const PLUS_PRICE_CENTS: nat := 799
  const MAX_CREATOR_MINUTES: nat := 14400

  /** One row of the listening query: a creator with more than zero minutes. */
  datatype Listening = Listening(creator: nat, minutes: nat)
  datatype Allocation = Allocation(creator: nat, minutes: nat, earnings: int)

  function Capped(minutes: nat): nat {
    if minutes > MAX_CREATOR_MINUTES then MAX_CREATOR_MINUTES else minutes
  }

  function TotalMinutes(rows: seq<Listening>): nat {
    if rows == [] then 0 else TotalMinutes(rows[..|rows|-1]) + Capped(rows[|rows|-1].minutes)
  }

  /** int(pool * minutes / total), read as an exact quotient; FloatShareIsExact says why the
      program's float64 arithmetic agrees. */
  function Share(pool: nat, minutes: nat, total: nat): nat {
    if total > 0 then pool * minutes / total else 0
  }

  /** The handler's clamp: percentages outside 1..100 mean 40. */
  function EffectivePct(pct: int): (p: nat)
    ensures 1 <= p <= 100
    ensures 1 <= pct <= 100 ==> p == pct
    ensures !(1 <= pct <= 100) ==> p == 40
  {
    if pct <= 0 || pct > 100 then 40 else pct
  }

  function Earned(allocs: seq<Allocation>): int {
    if allocs == [] then 0 else Earned(allocs[..|allocs|-1]) + allocs[|allocs|-1].earnings
  }

  function Kept(allocs: seq<Allocation>): nat
    requires forall a <- allocs :: a.minutes >= 0
  {
    if allocs == [] then 0 else Kept(allocs[..|allocs|-1]) + allocs[|allocs|-1].minutes
  }

  /** Reads the rows, capping each creator's minutes. */
  method CapMinutes(rows: seq<Listening>) returns (creators: seq<Listening>, total: nat)
    requires forall r <- rows :: r.minutes > 0
    ensures |creators| == |rows|
    ensures forall k | 0 <= k < |rows| ::
              creators[k] == Listening(rows[k].creator, if rows[k].minutes > 14400 then 14400 else rows[k].minutes)
    ensures forall k | 0 <= k < |rows| :: creators[k].minutes == Capped(rows[k].minutes)
    ensures total == TotalMinutes(rows) && (rows != [] ==> total > 0)
  {
    creators, total := [], 0;
    for i := 0 to |rows|
      invariant |creators| == i
      invariant forall k | 0 <= k < i :: creators[k] == Listening(rows[k].creator, Capped(rows[k].minutes))
      invariant total == TotalMinutes(rows[..i]) && (i > 0 ==> total > 0)
    {
      var cm := rows[i];
      if cm.minutes > MAX_CREATOR_MINUTES {
        cm := cm.(minutes := MAX_CREATOR_MINUTES);
      }
      creators := creators + [cm];
      total := total + cm.minutes;
      assert rows[..i+1][..i] == rows[..i];
    }
    assert rows[..|rows|] == rows;
  }

  /** One allocation per creator, in order. */
  method Allocate(pool: nat, total: nat, creators: seq<Listening>) returns (allocs: seq<Allocation>)
    ensures |allocs| == |creators|
    // the floor of pool * minutes / total
    ensures total > 0 ==> forall k | 0 <= k < |creators| ::
              total * allocs[k].earnings <= pool * creators[k].minutes < total * allocs[k].earnings + total
    ensures forall k | 0 <= k < |creators| ::
              allocs[k] == Allocation(creators[k].creator, creators[k].minutes, Share(pool, creators[k].minutes, total))
  {
    allocs := [];
    for i := 0 to |creators|
      invariant |allocs| == i
      invariant forall k | 0 <= k < i ::
                  allocs[k] == Allocation(creators[k].creator, creators[k].minutes, Share(pool, creators[k].minutes, total))
      invariant total > 0 ==> forall k | 0 <= k < i ::
                  total * allocs[k].earnings <= pool * creators[k].minutes < total * allocs[k].earnings + total
    {
      var earnings := 0;
      if total > 0 {
        earnings := pool * creators[i].minutes / total;
        Quotient(pool * creators[i].minutes, total);
      }
      allocs := allocs + [Allocation(creators[i].creator, creators[i].minutes, earnings)];
    }
  }

  /** The handler and ComputeCreatorPool: one allocation per row, in row order. */
  method ComputeCreatorPool(subscribers: nat, poolPct: int, rows: seq<Listening>)
    returns (revenue: nat, pool: nat, total: nat, allocs: seq<Allocation>)
    requires forall r <- rows :: r.minutes > 0
    ensures revenue == subscribers * 799 && pool <= revenue
    ensures pool == if 1 <= poolPct <= 100 then revenue * poolPct / 100 else revenue * 40 / 100
    ensures pool == revenue * EffectivePct(poolPct) / 100
    ensures total == TotalMinutes(rows) && |allocs| == |rows|
    ensures forall i | 0 <= i < |rows| ::
              allocs[i] == Allocation(rows[i].creator, Capped(rows[i].minutes), Share(pool, Capped(rows[i].minutes), total))
    ensures Earned(allocs) <= pool
    ensures rows != [] ==> pool - Earned(allocs) < |rows|
  {
    revenue := subscribers * PLUS_PRICE_CENTS;
    var pct := if poolPct <= 0 || poolPct > 100 then 40 else poolPct;
    pool := revenue * pct / 100;
    PoolWithinRevenue(revenue, pct);
    var creators: seq<Listening>;
    creators, total := CapMinutes(rows);
    allocs := Allocate(pool, total, creators);
    SharesFillPool(pool, total, rows, allocs);
  }

  /** Shares of the whole never exceed the pool and miss it by fewer cents than there are rows. */
  lemma {:induction false} SharesFillPool(pool: nat, total: nat, rows: seq<Listening>, allocs: seq<Allocation>)
    requires total == TotalMinutes(rows) && |allocs| == |rows| && (rows != [] ==> total > 0)
    requires forall i | 0 <= i < |rows| ::
               allocs[i] == Allocation(rows[i].creator, Capped(rows[i].minutes), Share(pool, Capped(rows[i].minutes), total))
    ensures Earned(allocs) <= pool
    ensures rows != [] ==> pool - Earned(allocs) < |rows|
  {
    KeptIsTotal(rows, allocs);
    if rows != [] {
      SumOfShares(pool, total, allocs);
      Cancel(total, Earned(allocs), pool);
      CancelStrict(total, pool, Earned(allocs) + |rows|);
    }
  }

  lemma PoolWithinRevenue(revenue: nat, pct: nat)
    requires pct <= 100
    ensures revenue * pct / 100 <= revenue
  {
    assert revenue * pct <= revenue * 100;
  }

  lemma {:induction false} KeptIsTotal(rows: seq<Listening>, allocs: seq<Allocation>)
    requires |rows| == |allocs| && forall i | 0 <= i < |rows| :: allocs[i].minutes == Capped(rows[i].minutes)
    ensures Kept(allocs) == TotalMinutes(rows)
  {
    if rows != [] {
      KeptIsTotal(rows[..|rows|-1], allocs[..|rows|-1]);
    }
  }

  /** A quotient pins the dividend between two neighbouring multiples. */
  lemma Quotient(a: nat, b: nat)
    requires b > 0
    ensures b * (a / b) <= a < b * (a / b) + b
  {
    assert a == b * (a / b) + a % b;
  }

  lemma Distribute(k: int, x: int, y: int)
    ensures k * (x + y) == k * x + k * y
  {
  }

  lemma CancelStrict(k: nat, x: int, y: int)
    requires k > 0 && k * x < k * y
    ensures x < y
  {
  }

  lemma Cancel(k: nat, x: int, y: int)
    requires k > 0 && k * x <= k * y
    ensures x <= y
  {
    Distribute(k, y, 1);
    CancelStrict(k, x, y + 1);
  }

  /** Scaled by the total, the earnings stay within the pool's worth of minutes and miss it by
      less than one total per creator. */
  lemma {:induction false} SumOfShares(pool: nat, total: nat, allocs: seq<Allocation>)
    requires forall a <- allocs :: a.earnings == Share(pool, a.minutes, total)
    requires total > 0
    ensures total * Earned(allocs) <= pool * Kept(allocs)
    ensures if allocs == [] then total * Earned(allocs) == pool * Kept(allocs)
            else pool * Kept(allocs) < total * (Earned(allocs) + |allocs|)
  {
    if allocs == [] {
    } else {
      var n := |allocs| - 1;
      var front, last := allocs[..n], allocs[n];
      SumOfShares(pool, total, front);
      assert last in allocs;
      Distribute(total, Earned(front), last.earnings);
      Distribute(pool, Kept(front), last.minutes);
      Distribute(total, Earned(front), n);
      Distribute(total, Earned(allocs), |allocs|);
      Distribute(total, n, 1);
      Quotient(pool * last.minutes, total);
    }
  }

  /** More capped minutes never earn less. */
  lemma MoreMinutesNeverEarnLess(pool: nat, total: nat, a: nat, b: nat)
    requires a <= b
    ensures Share(pool, Capped(a), total) <= Share(pool, Capped(b), total)
  {
    var x, y := Capped(a), Capped(b);
    if total > 0 {
      assert pool * x <= pool * y;
      Quotient(pool * x, total);
      Quotient(pool * y, total);
      Distribute(total, pool * y / total, 1);
      CancelStrict(total, pool * x / total, pool * y / total + 1);
    }
  }

  /** r is x correctly rounded to float64: within half a unit in the last place, and never
      across an integer, integers of this size being representable. */
  ghost predicate Rounds(x: real, r: real) {
    && x >= 0.0
    && (if r >= x then r - x else x - r) * 9007199254740992.0 <= x
    && forall n: int :: SameSide(n, x, r)
  }

  predicate SameSide(n: int, x: real, r: real) {
    (n as real <= x ==> n as real <= r) && (x <= n as real ==> r <= n as real)
  }

  /** As long as pool times minutes fits in 53 bits, truncating the rounded quotient gives the
      exact floor. */
  lemma FloatShareIsExact(product: nat, total: nat, r: real)
    requires total > 0 && product < 9007199254740992
    requires Rounds(product as real / total as real, r)
    ensures r.Floor == product / total
  {
    var x, t, q := product as real / total as real, total as real, product / total;
    Quotient(product, total);
    RealQuotient(product, total);
    Between(product, total, q);
    assert SameSide(q, x, r);
    if r >= (q + 1) as real {
      var gap := (q + 1) as real - x;
      assert gap <= r - x;
      ScaleReal(9007199254740992.0, gap, r - x);
      assert x * t == product as real;
      NoCarry(gap, x, t, 9007199254740992.0);
    }
  }

  lemma RealQuotient(product: nat, total: nat)
    requires total > 0
    ensures product as real / total as real * total as real == product as real
  {
  }

  /** The quotient lies between the floor q and q + 1, at least 1/total below the latter. */
  lemma Between(product: nat, total: nat, q: nat)
    requires total > 0 && total * q <= product < total * q + total
    ensures q as real <= product as real / total as real
    ensures ((q + 1) as real - product as real / total as real) * total as real >= 1.0
  {
    var x, t := product as real / total as real, total as real;
    RealQuotient(product, total);
    assert (total * q) as real == t * q as real;
    MulCommutes(t, x);
    CancelReal(t, q as real, x);
    Subtract((q + 1) as real, x, t);
    assert (q + 1) as real * t == t * q as real + t;
  }

  lemma MulCommutes(a: real, b: real)
    ensures a * b == b * a
  {
  }

  lemma Subtract(a: real, b: real, k: real)
    ensures (a - b) * k == a * k - b * k
  {
  }

  lemma CancelReal(k: real, a: real, b: real)
    requires k > 0.0 && k * a <= k * b
    ensures a <= b
  {
  }

  lemma ScaleReal(k: real, a: real, b: real)
    requires k > 0.0 && a <= b
    ensures k * a <= k * b
  {
  }

  /** A rounding error reaching over the gap to the next integer needs a large dividend. */
  lemma NoCarry(gap: real, x: real, t: real, ulps: real)
    requires t > 0.0 && ulps > 0.0 && gap * t >= 1.0 && ulps * gap <= x
    ensures x * t >= ulps
  {
    ScaleReal(t, ulps * gap, x);
    assert t * (ulps * gap) == ulps * (gap * t);
    ScaleReal(ulps, 1.0, gap * t);
  }

  /** With minutes capped at 14400 and the pool an INT column, the product always fits. */
  lemma ShareAlwaysFits(pool: nat, minutes: nat)
    requires pool <= 0x7fff_ffff
    ensures pool * Capped(minutes) < 9007199254740992
  {
    assert pool * Capped(minutes) <= pool * MAX_CREATOR_MINUTES;
  }
}
