// Finite distributions over token ids, as sequences of reals.
module Distributions {
  function Prob(d: seq<real>, t: nat): real {
    if t < |d| then d[t] else 0.0
  }

  function Sum(d: seq<real>): real {
    if d == [] then 0.0 else Sum(d[..|d| - 1]) + d[|d| - 1]
  }

  function Divide(d: seq<real>, s: real): (r: seq<real>)
    requires s != 0.0
    ensures |r| == |d|
  {
    seq(|d|, t requires 0 <= t < |d| => d[t] / s)
  }

  ghost predicate NonNegative(d: seq<real>) {
    forall t :: 0 <= t < |d| ==> d[t] >= 0.0
  }

  ghost predicate Distribution(d: seq<real>) {
    NonNegative(d) && Sum(d) == 1.0
  }

  function OneHot(size: nat, hot: nat): (d: seq<real>)
    ensures |d| == size
  {
    seq(size, t => if t == hot then 1.0 else 0.0)
  }

  lemma {:induction false} OneHotSum(size: nat, hot: nat)
    ensures Sum(OneHot(size, hot)) == if hot < size then 1.0 else 0.0
  {
    if size > 0 {
      assert OneHot(size, hot)[..size - 1] == OneHot(size - 1, hot);
      OneHotSum(size - 1, hot);
    }
  }

  lemma {:induction false} SumConcat(d: seq<real>, e: seq<real>)
    ensures Sum(d + e) == Sum(d) + Sum(e)
  {
    if e == [] {
      assert d + e == d;
    } else {
      assert (d + e)[..|d + e| - 1] == d + e[..|e| - 1];
      SumConcat(d, e[..|e| - 1]);
    }
  }

  lemma {:induction false} SumNonNegative(d: seq<real>)
    requires NonNegative(d)
    ensures Sum(d) >= 0.0
    ensures forall t :: 0 <= t < |d| ==> d[t] <= Sum(d)
  {
    if d != [] {
      SumNonNegative(d[..|d| - 1]);
    }
  }

  lemma {:induction false} SumScaled(d: seq<real>, e: seq<real>, c: real)
    requires |d| == |e| && forall t :: 0 <= t < |d| ==> e[t] == d[t] * c
    ensures Sum(e) == Sum(d) * c
  {
    if d != [] {
      SumScaled(d[..|d| - 1], e[..|e| - 1], c);
    }
  }

  lemma DivideSums(d: seq<real>)
    requires Sum(d) > 0.0
    ensures Sum(Divide(d, Sum(d))) == 1.0
    ensures NonNegative(d) ==> Distribution(Divide(d, Sum(d)))
  {
    var total, e := Sum(d), Divide(d, Sum(d));
    assert forall t :: 0 <= t < |d| ==> d[t] == e[t] * total;
    SumScaled(e, d, total);
    UnitFactor(Sum(e), Sum(d), total);
  }

  lemma UnitFactor(x: real, y: real, s: real)
    requires s > 0.0 && y == x * s && y == s
    ensures x == 1.0
  {
    assert (x - 1.0) * s == 0.0;
  }
}
