/** Counting finite sets by injections. */
module Counting {

  /** An injection between sets bounds their sizes. */
  lemma {:induction false} Injection(xs: set<nat>, ys: set<nat>, f: map<nat, nat>)
    requires forall x <- xs :: x in f && f[x] in ys
    requires forall x, y | x in xs && y in xs && f[x] == f[y] :: x == y
    ensures |xs| <= |ys|
    decreases xs
  {
    if xs != {} {
      var x :| x in xs;
      Injection(xs - {x}, ys - {f[x]}, f);
    }
  }

  function UpTo(n: nat): (s: set<nat>)
    ensures forall k :: k in s <==> 1 <= k <= n
    ensures |s| == n
  {
    if n == 0 then {} else UpTo(n - 1) + {n}
  }
}
