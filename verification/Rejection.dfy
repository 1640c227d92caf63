// Speculative verification by rejection sampling, and the source of randomness it consumes.
module Rejection {
  import opened Wrappers
  import opened Distributions
  import opened Chance

  class Generator {
    const oracle: Oracle
    var used: nat

    constructor (oracle: Oracle)
      ensures this.oracle == oracle && used == 0
    {
      this.oracle, used := oracle, 0;
    }

    method Rand() returns (r: real)
      modifies this
      ensures r == oracle.coin(old(used)) && used == old(used) + 1
    {
      r := oracle.coin(used);
      used := used + 1;
    }

    method Multinomial(probs: seq<real>) returns (i: nat)
      modifies this
      ensures i == oracle.pick(old(used), probs) && used == old(used) + 1
    {
      i := oracle.pick(used, probs);
      used := used + 1;
    }
  }

  // ---------- the acceptance test ----------

  // The probability with which a token drafted from q is accepted.
  function Ratio(q: real, p: real): real {
    if q <= 0.0 then 1.0 else if p / q < 1.0 then p / q else 1.0
  }

  function Excess(p: seq<real>, q: seq<real>): (r: seq<real>)
    requires |p| == |q|
    ensures |r| == |p|
  {
    seq(|p|, t requires 0 <= t < |p| => if p[t] - q[t] > 0.0 then p[t] - q[t] else 0.0)
  }

  // What the correction token is drawn from.
  function Residual(p: seq<real>, q: seq<real>): (r: seq<real>)
    requires |p| == |q|
    ensures |r| == |p|
  {
    var e := Excess(p, q);
    if Sum(e) > 0.0 then Divide(e, Sum(e)) else p
  }

  // Row i of the verification: the drafted token with both models' distributions at its position.
  ghost predicate RowsOk(draft: seq<nat>, q: seq<seq<real>>, p: seq<seq<real>>, bonus: seq<real>) {
    && |draft| == |q| == |p| && HasMass(bonus)
    && forall i :: 0 <= i < |p| ==> |p[i]| == |q[i]| && HasMass(p[i])
  }

  // The accepted tokens and the one drawn after them.
  datatype Emission = Emission(kept: seq<nat>, last: nat) {
    function Tokens(): seq<nat> {
      kept + [last]
    }
  }

  function Drawn(probs: seq<real>, kept: seq<nat>): Prog<Emission> {
    Draw(probs, seq(|probs|, t requires 0 <= t < |probs| => Return(Emission(kept, t))))
  }

  /** `rejection_sample` as a program, from row i on: the draft is accepted up to the first coin that is
      not below its ratio, and one token more is drawn. */
  function Verifying(draft: seq<nat>, q: seq<seq<real>>, p: seq<seq<real>>, bonus: seq<real>, i: nat): Prog<Emission>
    requires |draft| == |q| == |p| && (forall i :: 0 <= i < |p| ==> |p[i]| == |q[i]|) && i <= |draft|
    decreases |draft| - i
  {
    if i == |draft| then Drawn(bonus, draft)
    else
      Toss(Ratio(Prob(q[i], draft[i]), Prob(p[i], draft[i])),
           Verifying(draft, q, p, bonus, i + 1),
           Drawn(Residual(p[i], q[i]), draft[..i]))
  }

  lemma ResidualHasMass(p: seq<real>, q: seq<real>)
    requires |p| == |q| && HasMass(p)
    ensures HasMass(Residual(p, q))
  {
    var e := Excess(p, q);
    if Sum(e) > 0.0 {
      SumHasMass(e);
      var i :| 0 <= i < |e| && e[i] > 0.0;
      assert Residual(p, q)[i] > 0.0;
    }
  }

  lemma {:induction false} VerifyingPlayable(draft: seq<nat>, q: seq<seq<real>>, p: seq<seq<real>>, bonus: seq<real>,
                                             i: nat)
    requires RowsOk(draft, q, p, bonus) && i <= |draft|
    ensures Playable(Verifying(draft, q, p, bonus, i))
    decreases |draft| - i
  {
    if i < |draft| {
      ResidualHasMass(p[i], q[i]);
      VerifyingPlayable(draft, q, p, bonus, i + 1);
    }
  }

  lemma DrawnRun(o: Oracle, n: nat, probs: seq<real>, kept: seq<nat>)
    requires Fair(o) && HasMass(probs)
    ensures Playable(Drawn(probs, kept)) && o.pick(n, probs) < |probs|
    ensures Run(o, n, Drawn(probs, kept)) == (Emission(kept, o.pick(n, probs)), n + 1)
  {
  }

  // One row of a run.
  lemma VerifyingStep(o: Oracle, n: nat, draft: seq<nat>, q: seq<seq<real>>, p: seq<seq<real>>, bonus: seq<real>,
                      i: nat)
    requires Fair(o) && RowsOk(draft, q, p, bonus) && i < |draft|
    ensures Playable(Verifying(draft, q, p, bonus, i)) && Playable(Verifying(draft, q, p, bonus, i + 1))
    ensures var r := Run(o, n, Verifying(draft, q, p, bonus, i));
      if o.coin(n) < Ratio(Prob(q[i], draft[i]), Prob(p[i], draft[i]))
        then r == Run(o, n + 1, Verifying(draft, q, p, bonus, i + 1))
      else r == (Emission(draft[..i], o.pick(n + 1, Residual(p[i], q[i]))), n + 2)
  {
    hide Ratio, Residual, HasMass, Drawn;
    VerifyingPlayable(draft, q, p, bonus, i);
    VerifyingPlayable(draft, q, p, bonus, i + 1);
    ResidualHasMass(p[i], q[i]);
    DrawnRun(o, n + 1, Residual(p[i], q[i]), draft[..i]);
  }

  lemma VerifyingEnd(o: Oracle, n: nat, draft: seq<nat>, q: seq<seq<real>>, p: seq<seq<real>>, bonus: seq<real>)
    requires Fair(o) && RowsOk(draft, q, p, bonus)
    ensures Playable(Verifying(draft, q, p, bonus, |draft|)) && o.pick(n, bonus) < |bonus|
    ensures Run(o, n, Verifying(draft, q, p, bonus, |draft|)) == (Emission(draft, o.pick(n, bonus)), n + 1)
  {
    hide Ratio, Residual, HasMass;
  }

  method RejectionSample(draft: seq<nat>, q: seq<seq<real>>, p: seq<seq<real>>, bonus: seq<real>, gen: Generator)
      returns (out: seq<nat>, accepted: nat)
    requires RowsOk(draft, q, p, bonus) && Fair(gen.oracle)
    modifies gen
    ensures |out| == accepted + 1 && accepted <= |draft| && out[..accepted] == draft[..accepted]
    ensures Playable(Verifying(draft, q, p, bonus, 0))
    ensures (Emission(out[..accepted], out[accepted]), gen.used)
         == Run(gen.oracle, old(gen.used), Verifying(draft, q, p, bonus, 0))
  {
    hide Ratio, Residual, HasMass, Verifying, Run, Playable, Fair;
    out := [];
    VerifyingPlayable(draft, q, p, bonus, 0);
    for i := 0 to |draft|
      invariant out == draft[..i] && Playable(Verifying(draft, q, p, bonus, i))
      invariant Run(gen.oracle, old(gen.used), Verifying(draft, q, p, bonus, 0))
             == Run(gen.oracle, gen.used, Verifying(draft, q, p, bonus, i))
    {
      VerifyingStep(gen.oracle, gen.used, draft, q, p, bonus, i);
      var t := draft[i];
      var ratio := Ratio(Prob(q[i], t), Prob(p[i], t));
      var r := gen.Rand();
      if r < ratio {
        out := out + [t];
      } else {
        var correction := gen.Multinomial(Residual(p[i], q[i]));
        out, accepted := out + [correction], i;
        assert out[..accepted] == draft[..i];
        return;
      }
    }
    VerifyingEnd(gen.oracle, gen.used, draft, q, p, bonus);
    assert draft[..|draft|] == draft;
    var last := gen.Multinomial(bonus);
    out, accepted := out + [last], |draft|;
    assert out[..accepted] == draft;
  }

  // ---------- what one draft is worth ----------

  function Least(q: real, p: real): real {
    if q <= p then q else p
  }

  function Leasts(q: seq<real>, p: seq<real>): (r: seq<real>)
    requires |p| == |q|
    ensures |r| == |p|
  {
    seq(|p|, t requires 0 <= t < |p| => Least(q[t], p[t]))
  }

  lemma AcceptedMass(q: real, p: real)
    requires q >= 0.0 && p >= 0.0
    ensures Times(q, Ratio(q, p)) == Least(q, p)
  {
    if q > 0.0 {
      var r := p / q;
      assert Times(q, r) == p;
      Stretch(q, r);
      assert Ratio(q, p) == if r < 1.0 then r else 1.0;
    }
  }

  lemma Stretch(x: real, r: real)
    requires x > 0.0
    ensures r < 1.0 ==> Times(x, r) < x
    ensures r >= 1.0 ==> Times(x, r) >= x
  {
    assert x * r - x == x * (r - 1.0);
  }

  lemma {:induction false} LeastsAndExcess(q: seq<real>, p: seq<real>)
    requires |p| == |q|
    ensures Sum(p) == Sum(Leasts(q, p)) + Sum(Excess(p, q))
  {
    if p != [] {
      var n := |p| - 1;
      LeastsAndExcess(q[..n], p[..n]);
      assert Leasts(q, p)[..n] == Leasts(q[..n], p[..n]);
      assert Excess(p, q)[..n] == Excess(p[..n], q[..n]);
    }
  }

  // If no mass is in excess the two distributions are the same.
  lemma {:induction false} NoExcess(q: seq<real>, p: seq<real>)
    requires |p| == |q| && Sum(q) <= Sum(p) && Sum(Excess(p, q)) <= 0.0
    ensures p == q
  {
    SumNonNegative(Excess(p, q));
    forall t | 0 <= t < |p|
      ensures p[t] <= q[t]
    {
      assert Excess(p, q)[t] <= 0.0;
    }
    NoExcessBelow(q, p);
  }

  lemma {:induction false} NoExcessBelow(q: seq<real>, p: seq<real>)
    requires |p| == |q| && forall t :: 0 <= t < |p| ==> p[t] <= q[t]
    ensures Sum(p) <= Sum(q)
    ensures Sum(q) <= Sum(p) ==> p == q
  {
    if p != [] {
      var n := |p| - 1;
      NoExcessBelow(q[..n], p[..n]);
      assert p == p[..n] + [p[n]] && q == q[..n] + [q[n]];
    }
  }

  /** The fallback of the correction step, taken when the residual has no mass, carries no probability:
      there every token the draft can propose is accepted for certain. */
  lemma FallbackHasNoChance(q: seq<real>, p: seq<real>, t: nat)
    requires |p| == |q| && Distribution(p) && Distribution(q) && Sum(Excess(p, q)) <= 0.0
    ensures Ratio(Prob(q, t), Prob(p, t)) == 1.0
  {
    NoExcess(q, p);
    var x := Prob(q, t);
    assert x > 0.0 ==> x / x == 1.0;
  }

  // With chance a the outcome is worth v, otherwise c.
  function Mixed(a: real, v: real, c: real): real {
    a * v + (1.0 - a) * c
  }

  // What each drafted token is worth when a rejection is worth c.
  ghost predicate Mixes(q: seq<real>, p: seq<real>, values: seq<real>, mixed: seq<real>, c: real)
    requires |p| == |q| == |values|
  {
    |mixed| == |q| && forall t :: 0 <= t < |q| ==> mixed[t] == Mixed(Ratio(q[t], p[t]), values[t], c)
  }

  /** One drafted token, tested and if need be corrected, is as good as one token of the target: for
      whatever is at stake (`values`), expectation over draft, coin and correction is expectation under p. */
  lemma OneTokenLossless(q: seq<real>, p: seq<real>, values: seq<real>, mixed: seq<real>)
    requires |p| == |q| == |values| && Distribution(p) && Distribution(q)
    requires Mixes(q, p, values, mixed, Weighted(Residual(p, q), values))
    ensures Weighted(q, mixed) == Weighted(p, values)
  {
    hide *;
    var c := Weighted(Residual(p, q), values);
    BothSum(q, p);
    MixedSum(q, p, values, mixed, c);
    TargetSum(q, p, values);
    LeastsAndExcess(q, p);
    ResidualMass(p, q, values);
    MinusSum(q, Leasts(q, p));
  }

  lemma BothSum(q: seq<real>, p: seq<real>)
    requires Distribution(q) && Distribution(p)
    ensures NonNegative(q) && NonNegative(p) && Sum(q) == Sum(p)
  {
  }

  // What is accepted has the mass the two distributions share; the rest is worth c.
  lemma MixedSum(q: seq<real>, p: seq<real>, values: seq<real>, mixed: seq<real>, c: real)
    requires |p| == |q| == |values| && NonNegative(p) && NonNegative(q) && Mixes(q, p, values, mixed, c)
    ensures Weighted(q, mixed) == Weighted(Leasts(q, p), values) + Times(c, Sum(Minus(q, Leasts(q, p))))
  {
    hide *;
    var low := Leasts(q, p);
    MixedTerms(q, p, values, mixed, c);
    WeightedSplit(q, mixed, low, values, Minus(q, low), Constant(|q|, c));
    ConstantWeighted(Minus(q, low), c);
  }

  lemma MixedTerms(q: seq<real>, p: seq<real>, values: seq<real>, mixed: seq<real>, c: real)
    requires |p| == |q| == |values| && NonNegative(p) && NonNegative(q) && Mixes(q, p, values, mixed, c)
    ensures |mixed| == |q|
    ensures var low := Leasts(q, p); var rest, all := Minus(q, low), Constant(|q|, c);
      forall t :: 0 <= t < |q| ==> Times(q[t], mixed[t]) == Times(low[t], values[t]) + Times(rest[t], all[t])
  {
    hide Ratio, Least, Mixed, Times;
    var low := Leasts(q, p);
    forall t | 0 <= t < |q|
      ensures Times(q[t], mixed[t]) == Times(low[t], values[t]) + Times(Minus(q, low)[t], Constant(|q|, c)[t])
    {
      AcceptedMass(q[t], p[t]);
      MixedTerm(q[t], Ratio(q[t], p[t]), values[t], c, low[t]);
    }
  }

  lemma TargetSum(q: seq<real>, p: seq<real>, values: seq<real>)
    requires |p| == |q| == |values|
    ensures Weighted(p, values) == Weighted(Leasts(q, p), values) + Weighted(Excess(p, q), values)
  {
    hide Weighted;
    var e, low := Excess(p, q), Leasts(q, p);
    forall t | 0 <= t < |p|
      ensures Times(p[t], values[t]) == Times(low[t], values[t]) + Times(e[t], values[t])
    {
      assert p[t] == low[t] + e[t];
    }
    WeightedSplit(p, values, low, values, e, values);
  }

  lemma MixedTerm(q: real, a: real, v: real, c: real, low: real)
    requires Times(q, a) == low
    ensures Times(q, Mixed(a, v, c)) == Times(low, v) + Times(q - low, c)
  {
    assert q * (a * v) == low * v;
    assert q * ((1.0 - a) * c) == (q - low) * c;
  }

  function Constant(n: nat, c: real): (all: seq<real>)
    ensures |all| == n
  {
    seq(n, t => c)
  }

  lemma ConstantWeighted(probs: seq<real>, c: real)
    ensures Weighted(probs, Constant(|probs|, c)) == Times(c, Sum(probs))
  {
    WeightedAffine(probs, Constant(|probs|, c), Constant(|probs|, 0.0), 0.0, c);
  }

  function Minus(q: seq<real>, low: seq<real>): (rest: seq<real>)
    requires |q| == |low|
    ensures |rest| == |q|
  {
    seq(|q|, t requires 0 <= t < |q| => q[t] - low[t])
  }

  lemma {:induction false} MinusSum(q: seq<real>, low: seq<real>)
    requires |q| == |low|
    ensures Sum(Minus(q, low)) == Sum(q) - Sum(low)
  {
    if q != [] {
      var n := |q| - 1;
      MinusSum(q[..n], low[..n]);
      assert Minus(q, low)[..n] == Minus(q[..n], low[..n]);
    }
  }

  // What is drawn after a rejection, times the chance of one, is the target's excess.
  lemma ResidualMass(p: seq<real>, q: seq<real>, values: seq<real>)
    requires |p| == |q| == |values|
    ensures Times(Weighted(Residual(p, q), values), Sum(Excess(p, q))) == Weighted(Excess(p, q), values)
  {
    hide Weighted;
    var e := Excess(p, q);
    var s := Sum(e);
    if s > 0.0 {
      DivideScales(e, s);
      WeightedScaled(Residual(p, q), e, values, s);
    } else {
      SumNonNegative(e);
      WeightedScaled(e, e, values, 0.0);
    }
  }

  lemma DivideScales(d: seq<real>, s: real)
    requires s > 0.0
    ensures forall t :: 0 <= t < |d| ==> d[t] == Divide(d, s)[t] * s
  {
  }

  lemma {:induction false} WeightedScaled(d: seq<real>, e: seq<real>, values: seq<real>, s: real)
    requires |d| == |e| == |values| && forall t :: 0 <= t < |d| ==> e[t] == d[t] * s
    ensures Weighted(e, values) == Weighted(d, values) * s
  {
    if d != [] {
      var n := |d| - 1;
      WeightedScaled(d[..n], e[..n], values[..n], s);
      ScaledTerm(Weighted(d[..n], values[..n]), d[n], values[n], s);
    }
  }

  lemma ScaledTerm(w: real, x: real, v: real, s: real)
    ensures w * s + (x * s) * v == (w + x * v) * s
  {
  }

  // ---------- a one-hot target ----------

  // A drafted token is accepted exactly when it is the target's one possible token, and a rejected one
  // leaves only that token to be drawn.
  lemma OneHotRow(o: Oracle, n: nat, size: nat, hot: nat, q: seq<real>, t: nat)
    requires Fair(o) && hot < size && |q| == size && Distribution(q) && t < size && q[t] > 0.0
    ensures o.coin(n) < Ratio(q[t], Prob(OneHot(size, hot), t)) <==> t == hot
    ensures t != hot ==> o.pick(n, Residual(OneHot(size, hot), q)) == hot
  {
    assert 0.0 <= o.coin(n) < 1.0;
    SumNonNegative(q);
    if t == hot {
      assert 1.0 / q[t] >= 1.0;
    } else {
      var p := OneHot(size, hot);
      assert q[hot] < 1.0 by {
        PairBelowSum(q, hot, t);
      }
      OneHotSum(size, hot);
      ResidualHasMass(p, q) by {
        assert p[hot] > 0.0;
      }
      ResidualOnExcess(p, q);
      assert forall i :: 0 <= i < size && i != hot ==> Excess(p, q)[i] == 0.0;
    }
  }

  lemma {:induction false} PairBelowSum(d: seq<real>, i: nat, j: nat)
    requires NonNegative(d) && i < |d| && j < |d| && i != j
    ensures d[i] + d[j] <= Sum(d)
  {
    var n := |d| - 1;
    SumNonNegative(d[..n]);
    if i < n && j < n {
      PairBelowSum(d[..n], i, j);
    }
  }

  lemma ResidualOnExcess(p: seq<real>, q: seq<real>)
    requires |p| == |q| && Distribution(p) && Distribution(q) && p != q
    ensures forall i :: 0 <= i < |p| && Residual(p, q)[i] > 0.0 ==> Excess(p, q)[i] > 0.0
  {
    if Sum(Excess(p, q)) <= 0.0 {
      NoExcess(q, p);
    }
  }

  /** With a one-hot target every emitted token is the target's choice at its position, whatever the draft
      distributions and the coins. */
  lemma {:induction false} GreedyVerifying(o: Oracle, n: nat, draft: seq<nat>, q: seq<seq<real>>, p: seq<seq<real>>,
                                           bonus: seq<real>,
                                           i: nat, size: nat, choice: seq<nat>)
    requires Fair(o) && RowsOk(draft, q, p, bonus) && |choice| == |draft| + 1 && i <= |draft|
    requires forall j :: 0 <= j < |choice| ==> choice[j] < size
    requires forall j :: 0 <= j < |draft| ==> p[j] == OneHot(size, choice[j]) && Distribution(q[j])
                                              && draft[j] < size && q[j][draft[j]] > 0.0
    requires bonus == OneHot(size, choice[|draft|]) && draft[..i] == choice[..i]
    ensures Playable(Verifying(draft, q, p, bonus, i))
    ensures var e := Run(o, n, Verifying(draft, q, p, bonus, i)).0;
      && |e.kept| <= |draft| && e.kept == draft[..|e.kept|] && e.Tokens() == choice[..|e.kept| + 1]
    decreases |draft| - i
  {
    hide Ratio, Residual, HasMass, Verifying, Run, Playable;
    assert choice[..i + 1] == choice[..i] + [choice[i]];
    if i == |draft| {
      VerifyingEnd(o, n, draft, q, p, bonus);
      PickOneHot(o, n, size, choice[i]);
      assert draft[..i] == draft;
    } else {
      VerifyingStep(o, n, draft, q, p, bonus, i);
      OneHotRow(o, n, size, choice[i], q[i], draft[i]);
      OneHotRow(o, n + 1, size, choice[i], q[i], draft[i]);
      if draft[i] == choice[i] {
        assert draft[..i + 1] == draft[..i] + [draft[i]];
        GreedyVerifying(o, n + 1, draft, q, p, bonus, i + 1, size, choice);
      }
    }
  }

  lemma PickOneHot(o: Oracle, n: nat, size: nat, hot: nat)
    requires Fair(o) && hot < size
    ensures o.pick(n, OneHot(size, hot)) == hot
  {
    assert OneHot(size, hot)[hot] > 0.0;
    assert HasMass(OneHot(size, hot));
  }
}
