// Sums over the natural numbers below a bound.
module Sums {
  ghost function SumTo(n: nat, f: nat -> nat): nat {
    if n == 0 then 0 else SumTo(n - 1, f) + f(n - 1)
  }

  lemma {:induction false} SumAtMost(n: nat, f: nat -> nat, g: nat -> nat)
    requires forall i: nat :: i < n ==> f(i) <= g(i)
    ensures SumTo(n, f) <= SumTo(n, g)
  {
    if n > 0 {
      SumAtMost(n - 1, f, g);
    }
  }

  // Pointwise at most, and by d less at k.
  lemma {:induction false} SumLess(n: nat, f: nat -> nat, g: nat -> nat, k: nat, d: nat)
    requires k < n && f(k) + d <= g(k) && forall i: nat :: i < n ==> f(i) <= g(i)
    ensures SumTo(n, f) + d <= SumTo(n, g)
  {
    if k == n - 1 {
      SumAtMost(n - 1, f, g);
    } else {
      SumLess(n - 1, f, g, k, d);
    }
  }

  lemma {:induction false} SumZero(n: nat, f: nat -> nat)
    requires SumTo(n, f) == 0
    ensures forall i: nat :: i < n ==> f(i) == 0
  {
    if n > 0 {
      SumZero(n - 1, f);
    }
  }

  lemma {:induction false} SumSame(n: nat, f: nat -> nat, g: nat -> nat)
    requires forall i: nat :: i < n ==> f(i) == g(i)
    ensures SumTo(n, f) == SumTo(n, g)
  {
    if n > 0 {
      SumSame(n - 1, f, g);
    }
  }

  // Two functions that differ only at k.
  lemma {:induction false} SumSplit(n: nat, f: nat -> nat, g: nat -> nat, k: nat)
    requires k < n && g(k) == 0 && forall i: nat :: i < n && i != k ==> f(i) == g(i)
    ensures SumTo(n, f) == SumTo(n, g) + f(k)
  {
    if k == n - 1 {
      SumSame(n - 1, f, g);
    } else {
      SumSplit(n - 1, f, g, k);
    }
  }
}
