// Speculative decoding as a program over random choices, and its law: the output has exactly the
// distribution of sampling token by token from the target.
module SpeculativeLaw {
  import opened Wrappers
  import opened Reference
  import opened Distributions
  import opened Chance
  import opened Rejection

  // A model as what it says about the token after a history.
  type Conditional = seq<int> -> seq<real>

  ghost predicate OverVocab(p: Conditional, vocab: nat) {
    forall h :: |p(h)| == vocab && Distribution(p(h))
  }

  // The model's distributions along the drafted tokens.
  function RowsAlong(p: Conditional, h: seq<int>, draft: seq<nat>): (rows: seq<seq<real>>)
    ensures |rows| == |draft|
  {
    seq(|draft|, i requires 0 <= i < |draft| => p(h + draft[..i]))
  }

  lemma RowsAlongOk(p: Conditional, q: Conditional, vocab: nat, h: seq<int>, d: seq<nat>)
    requires OverVocab(p, vocab) && OverVocab(q, vocab)
    ensures RowsOk(d, RowsAlong(q, h, d), RowsAlong(p, h, d), p(h + d))
  {
    SumHasMass(p(h + d));
    forall i | 0 <= i < |d|
      ensures |RowsAlong(p, h, d)[i]| == |RowsAlong(q, h, d)[i]| && HasMass(RowsAlong(p, h, d)[i])
    {
      SumHasMass(p(h + d[..i]));
    }
  }

  /** One iteration after history h: q drafts up to k tokens, the first of them `d` already; then p
      verifies them. */
  ghost function Drafting(p: Conditional, q: Conditional, vocab: nat, h: seq<int>, k: nat, d: seq<nat>): Prog<Emission>
    requires OverVocab(p, vocab) && OverVocab(q, vocab)
    decreases k - |d|
  {
    if |d| >= k then
      RowsAlongOk(p, q, vocab, h, d);
      Verifying(d, RowsAlong(q, h, d), RowsAlong(p, h, d), p(h + d), 0)
    else Draw(q(h + d), seq(vocab, t requires 0 <= t < vocab => Drafting(p, q, vocab, h, k, d + [t])))
  }

  // Appends tokens until the limit or the end-of-sequence token.
  function EmitAll(out: seq<int>, tokens: seq<int>, maxNew: int, eos: Option<int>): (r: seq<int>)
  {
    if tokens == [] then out
    else
      var r := EmitAll(out, tokens[..|tokens| - 1], maxNew, eos);
      if Stops(r, maxNew, eos) then r else r + [tokens[|tokens| - 1]]
  }

  lemma {:induction false} EmitAllGrows(out: seq<int>, tokens: seq<int>, maxNew: int, eos: Option<int>)
    ensures |out| <= |EmitAll(out, tokens, maxNew, eos)|
    ensures EmitAll(out, tokens, maxNew, eos) <= out + tokens
    ensures !Stops(EmitAll(out, tokens, maxNew, eos), maxNew, eos) ==> EmitAll(out, tokens, maxNew, eos) == out + tokens
    ensures tokens != [] && !Stops(out, maxNew, eos) ==> |out| < |EmitAll(out, tokens, maxNew, eos)|
  {
    if tokens != [] {
      var n := |tokens| - 1;
      EmitAllGrows(out, tokens[..n], maxNew, eos);
      assert out + tokens == out + tokens[..n] + [tokens[n]];
      var r := EmitAll(out, tokens[..n], maxNew, eos);
      assert n == 0 ==> r == out;
    }
  }

  /** `SpeculativeEngine.generate` after the prompt: iterations until the output stops. */
  ghost function Speculating(p: Conditional, q: Conditional, vocab: nat, k: nat, prompt: seq<int>, out: seq<int>,
                             maxNew: int, eos: Option<int>): Prog<seq<int>>
    requires OverVocab(p, vocab) && OverVocab(q, vocab)
    decreases maxNew - |out|, 2
  {
    if Stops(out, maxNew, eos) then Return(out)
    else Bind(Drafting(p, q, vocab, prompt + out, k, []), AfterEmitting(p, q, vocab, k, prompt, out, maxNew, eos))
  }

  ghost function AfterEmitting(p: Conditional, q: Conditional, vocab: nat, k: nat, prompt: seq<int>, out: seq<int>,
                               maxNew: int, eos: Option<int>): Emission -> Prog<seq<int>>
    requires OverVocab(p, vocab) && OverVocab(q, vocab) && !Stops(out, maxNew, eos)
    decreases maxNew - |out|, 1
  {
    (e: Emission) => Continuing(p, q, vocab, k, prompt, out, maxNew, eos, e)
  }

  ghost function Continuing(p: Conditional, q: Conditional, vocab: nat, k: nat, prompt: seq<int>, out: seq<int>,
                            maxNew: int, eos: Option<int>, e: Emission): Prog<seq<int>>
    requires OverVocab(p, vocab) && OverVocab(q, vocab) && !Stops(out, maxNew, eos)
    decreases maxNew - |out|, 0
  {
    EmitAllGrows(out, e.Tokens(), maxNew, eos);
    Speculating(p, q, vocab, k, prompt, EmitAll(out, e.Tokens(), maxNew, eos), maxNew, eos)
  }

  // What it is compared with: one token at a time from the target.
  ghost function Sampling(p: Conditional, vocab: nat, prompt: seq<int>, out: seq<int>, maxNew: int,
                          eos: Option<int>): Prog<seq<int>>
    requires OverVocab(p, vocab)
    decreases maxNew - |out|
  {
    if Stops(out, maxNew, eos) then Return(out)
    else Draw(p(prompt + out),
      seq(vocab, t requires 0 <= t < vocab => Sampling(p, vocab, prompt, out + [t], maxNew, eos)))
  }

  // ---------- one iteration in expectation ----------

  function AtStake(stake: seq<nat> -> real): Emission -> real {
    (e: Emission) => stake(e.Tokens())
  }

  function Stakes(vocab: nat, stake: seq<nat> -> real, s: seq<nat>): (v: seq<real>)
    ensures |v| == vocab
  {
    seq(vocab, t requires 0 <= t < vocab => stake(s + [t]))
  }

  // What is at stake after a string of emitted tokens is the mean of what is at stake one token later.
  ghost predicate Harmonic(p: Conditional, vocab: nat, h: seq<int>, stake: seq<nat> -> real)
    requires OverVocab(p, vocab)
  {
    forall s: seq<nat> :: stake(s) == Weighted(p(h + s), Stakes(vocab, stake, s))
  }

  // The mean over the drafts that continue d.
  ghost function DraftMean(q: Conditional, vocab: nat, h: seq<int>, k: nat, d: seq<nat>, g: seq<nat> -> real): real
    requires OverVocab(q, vocab)
    decreases k - |d|
  {
    if |d| >= k then g(d)
    else Weighted(q(h + d), seq(vocab, t requires 0 <= t < vocab => DraftMean(q, vocab, h, k, d + [t], g)))
  }

  // The verification of a complete draft in expectation, its first i tokens being accepted.
  ghost function VerifiedFrom(p: Conditional, q: Conditional, vocab: nat, h: seq<int>, stake: seq<nat> -> real,
                              i: nat): seq<nat> -> real
    requires OverVocab(p, vocab) && OverVocab(q, vocab)
  {
    (d: seq<nat>) =>
      if i > |d| then 0.0
      else
        RowsAlongOk(p, q, vocab, h, d);
        Expect(Verifying(d, RowsAlong(q, h, d), RowsAlong(p, h, d), p(h + d), i), AtStake(stake))
  }

  lemma {:induction false} DraftingMean(p: Conditional, q: Conditional, vocab: nat, h: seq<int>, k: nat, d: seq<nat>,
                                        stake: seq<nat> -> real)
    requires OverVocab(p, vocab) && OverVocab(q, vocab)
    ensures Expect(Drafting(p, q, vocab, h, k, d), AtStake(stake))
         == DraftMean(q, vocab, h, k, d, VerifiedFrom(p, q, vocab, h, stake, 0))
    decreases k - |d|
  {
    if |d| < k {
      var f := AtStake(stake);
      var next := seq(vocab, t requires 0 <= t < vocab => Drafting(p, q, vocab, h, k, d + [t]));
      var g := VerifiedFrom(p, q, vocab, h, stake, 0);
      forall t | 0 <= t < vocab
        ensures Expect(next[t], f) == DraftMean(q, vocab, h, k, d + [t], g)
      {
        DraftingMean(p, q, vocab, h, k, d + [t], stake);
      }
      assert seq(|next|, t requires 0 <= t < |next| => Expect(next[t], f))
          == seq(vocab, t requires 0 <= t < vocab => DraftMean(q, vocab, h, k, d + [t], g));
    }
  }

  lemma {:induction false} DraftMixed(q: Conditional, vocab: nat, h: seq<int>, k: nat, d: seq<nat>,
                                      f: seq<nat> -> real, g: seq<nat> -> real, a: real, c: real)
    requires OverVocab(q, vocab) && |d| <= k
    requires forall x: seq<nat> :: |x| == k && d <= x ==> f(x) == Mixed(a, g(x), c)
    ensures DraftMean(q, vocab, h, k, d, f) == Mixed(a, DraftMean(q, vocab, h, k, d, g), c)
    decreases k - |d|
  {
    hide Mixed, Weighted;
    if |d| < k {
      var u := seq(vocab, t requires 0 <= t < vocab => DraftMean(q, vocab, h, k, d + [t], f));
      var v := seq(vocab, t requires 0 <= t < vocab => DraftMean(q, vocab, h, k, d + [t], g));
      forall t: nat | t < vocab
        ensures u[t] == Mixed(a, v[t], c)
      {
        assert forall x: seq<nat> :: |x| == k && d + [t] <= x ==> d <= x;
        DraftMixed(q, vocab, h, k, d + [t], f, g, a, c);
      }
      assert |q(h + d)| == vocab && Sum(q(h + d)) == 1.0;
      WeightedMixed(q(h + d), u, v, a, c);
    }
  }

  lemma WeightedMixed(probs: seq<real>, u: seq<real>, v: seq<real>, a: real, c: real)
    requires |probs| == |u| == |v| && Sum(probs) == 1.0 && forall t :: 0 <= t < |u| ==> u[t] == Mixed(a, v[t], c)
    ensures Weighted(probs, u) == Mixed(a, Weighted(probs, v), c)
  {
    hide Weighted, Sum, Affine, Mixed;
    var b := (1.0 - a) * c;
    MixedIs(a, c, b);
    WeightedAffine(probs, u, v, a, b);
    UnitTotal(a, Weighted(probs, v), b, Sum(probs));
  }

  lemma MixedIs(a: real, c: real, b: real)
    requires b == (1.0 - a) * c
    ensures forall v :: Mixed(a, v, c) == Affine(a, v, b)
  {
  }

  lemma UnitTotal(a: real, w: real, b: real, s: real)
    requires s == 1.0
    ensures a * w + b * s == Affine(a, w, b)
  {
  }

  // The test of the drafted token t after d, in a complete draft x.
  lemma VerifiedRow(p: Conditional, q: Conditional, vocab: nat, h: seq<int>, stake: seq<nat> -> real, d: seq<nat>,
                    t: nat, x: seq<nat>)
    requires OverVocab(p, vocab) && OverVocab(q, vocab) && t < vocab && d + [t] <= x
    ensures VerifiedFrom(p, q, vocab, h, stake, |d|)(x)
         == Mixed(Ratio(q(h + d)[t], p(h + d)[t]), VerifiedFrom(p, q, vocab, h, stake, |d| + 1)(x),
                  Weighted(Residual(p(h + d), q(h + d)), Stakes(vocab, stake, d)))
  {
    hide Ratio, Residual, Weighted, OverVocab, HasMass, Drawn, Stakes, AtStake, Verifying;
    var m := |d|;
    assert x[..m] == d && x[m] == t;
    RowsAlongOk(p, q, vocab, h, x);
    SameLength(p, q, vocab, h + d);
    DrawnMean(Residual(p(h + d), q(h + d)), d, stake);
    TossRow(p, q, vocab, h, d, t, x);
  }

  lemma SameLength(p: Conditional, q: Conditional, vocab: nat, h: seq<int>)
    requires OverVocab(p, vocab) && OverVocab(q, vocab)
    ensures |p(h)| == |q(h)| == vocab
  {
  }

  // The program's next test, when x continues d with t.
  lemma TossRow(p: Conditional, q: Conditional, vocab: nat, h: seq<int>, d: seq<nat>, t: nat, x: seq<nat>)
    requires RowsOk(x, RowsAlong(q, h, x), RowsAlong(p, h, x), p(h + x)) && |p(h + d)| == |q(h + d)| == vocab
    requires t < vocab && |d| < |x| && x[..|d|] == d && x[|d|] == t
    ensures Verifying(x, RowsAlong(q, h, x), RowsAlong(p, h, x), p(h + x), |d|)
         == Toss(Ratio(q(h + d)[t], p(h + d)[t]),
                 Verifying(x, RowsAlong(q, h, x), RowsAlong(p, h, x), p(h + x), |d| + 1),
                 Drawn(Residual(p(h + d), q(h + d)), d))
  {
    hide Ratio, Residual, HasMass, Drawn;
  }

  lemma DrawnMean(probs: seq<real>, kept: seq<nat>, stake: seq<nat> -> real)
    ensures Expect(Drawn(probs, kept), AtStake(stake)) == Weighted(probs, Stakes(|probs|, stake, kept))
  {
    var f := AtStake(stake);
    var next: seq<Prog<Emission>> := seq(|probs|, t requires 0 <= t < |probs| => Return(Emission(kept, t)));
    var values := seq(|next|, t requires 0 <= t < |next| => Expect(next[t], f));
    forall t | 0 <= t < |next|
      ensures values[t] == Stakes(|probs|, stake, kept)[t]
    {
      assert next[t] == Return(Emission(kept, t));
      assert Emission(kept, t).Tokens() == kept + [t];
    }
    assert values == Stakes(|probs|, stake, kept);
  }

  // Once the drafted tokens d are accepted, the rest of the iteration is worth what is at stake after d.
  lemma {:induction false} AcceptedKeepsStake(p: Conditional, q: Conditional, vocab: nat, h: seq<int>, k: nat,
                                              d: seq<nat>, stake: seq<nat> -> real)
    requires OverVocab(p, vocab) && OverVocab(q, vocab) && Harmonic(p, vocab, h, stake) && |d| <= k
    ensures DraftMean(q, vocab, h, k, d, VerifiedFrom(p, q, vocab, h, stake, |d|)) == stake(d)
    decreases k - |d|
  {
    hide Ratio, Residual, Weighted, Mixed, Verifying;
    var m := |d|;
    var f := VerifiedFrom(p, q, vocab, h, stake, m);
    if m == k {
      RowsAlongOk(p, q, vocab, h, d);
      DrawnMean(p(h + d), d, stake);
      assert Verifying(d, RowsAlong(q, h, d), RowsAlong(p, h, d), p(h + d), m) == Drawn(p(h + d), d) by {
        LastRow(d, RowsAlong(q, h, d), RowsAlong(p, h, d), p(h + d));
      }
    } else {
      var pd, qd, values := p(h + d), q(h + d), Stakes(vocab, stake, d);
      var c := Weighted(Residual(pd, qd), values);
      var mixed := seq(vocab, t requires 0 <= t < vocab => DraftMean(q, vocab, h, k, d + [t], f));
      forall t: nat | t < vocab
        ensures mixed[t] == Mixed(Ratio(qd[t], pd[t]), values[t], c)
      {
        AcceptedKeepsStake(p, q, vocab, h, k, d + [t], stake);
        forall x: seq<nat> | |x| == k && d + [t] <= x
          ensures f(x) == Mixed(Ratio(qd[t], pd[t]), VerifiedFrom(p, q, vocab, h, stake, m + 1)(x), c)
        {
          VerifiedRow(p, q, vocab, h, stake, d, t, x);
        }
        DraftMixed(q, vocab, h, k, d + [t], f, VerifiedFrom(p, q, vocab, h, stake, m + 1), Ratio(qd[t], pd[t]), c);
      }
      assert Mixes(qd, pd, values, mixed, c);
      OneTokenLossless(qd, pd, values, mixed);
    }
  }

  lemma LastRow(d: seq<nat>, q: seq<seq<real>>, p: seq<seq<real>>, bonus: seq<real>)
    requires RowsOk(d, q, p, bonus)
    ensures Verifying(d, q, p, bonus, |d|) == Drawn(bonus, d)
  {
  }

  /** One whole iteration, over all drafts and all outcomes of the tests, neither gains nor loses: whatever
      is at stake over the target's continuations has the same mean after the emitted tokens. */
  lemma IterationIsFair(p: Conditional, q: Conditional, vocab: nat, h: seq<int>, k: nat, stake: seq<nat> -> real)
    requires OverVocab(p, vocab) && OverVocab(q, vocab) && Harmonic(p, vocab, h, stake)
    ensures Expect(Drafting(p, q, vocab, h, k, []), AtStake(stake)) == stake([])
  {
    DraftingMean(p, q, vocab, h, k, [], stake);
    AcceptedKeepsStake(p, q, vocab, h, k, [], stake);
  }

  // ---------- whole generations ----------

  // The expected value of target sampling after some more tokens have been emitted.
  ghost function SampledFrom(p: Conditional, vocab: nat, prompt: seq<int>, out: seq<int>, maxNew: int, eos: Option<int>,
                             f: seq<int> -> real): seq<nat> -> real
    requires OverVocab(p, vocab)
  {
    (s: seq<nat>) => Expect(Sampling(p, vocab, prompt, EmitAll(out, s, maxNew, eos), maxNew, eos), f)
  }

  // Once the output has stopped nothing is at stake any more.
  lemma StoppedStakes(p: Conditional, vocab: nat, prompt: seq<int>, out: seq<int>, maxNew: int, eos: Option<int>,
                      f: seq<int> -> real, s: seq<nat>)
    requires OverVocab(p, vocab) && Stops(EmitAll(out, s, maxNew, eos), maxNew, eos)
    ensures var stake := SampledFrom(p, vocab, prompt, out, maxNew, eos, f);
      stake(s) == Weighted(p(prompt + out + s), Stakes(vocab, stake, s))
  {
    hide Weighted, Stops, Sampling, Expect, Sum;
    var stake, d := SampledFrom(p, vocab, prompt, out, maxNew, eos, f), p(prompt + out + s);
    assert |d| == vocab && Distribution(d);
    forall t | 0 <= t < vocab
      ensures Stakes(vocab, stake, s)[t] == stake(s)
    {
      assert (s + [t])[..|s|] == s;
    }
    assert Stakes(vocab, stake, s) == Constant(vocab, stake(s));
    ConstantWeighted(d, stake(s));
    assert Times(stake(s), 1.0) == stake(s);
  }

  lemma RunningStakes(p: Conditional, vocab: nat, prompt: seq<int>, out: seq<int>, maxNew: int, eos: Option<int>,
                      f: seq<int> -> real, s: seq<nat>)
    requires OverVocab(p, vocab) && !Stops(EmitAll(out, s, maxNew, eos), maxNew, eos)
    ensures var stake := SampledFrom(p, vocab, prompt, out, maxNew, eos, f);
      stake(s) == Weighted(p(prompt + out + s), Stakes(vocab, stake, s))
  {
    hide Weighted, Stops, Distribution;
    var stake, r := SampledFrom(p, vocab, prompt, out, maxNew, eos, f), EmitAll(out, s, maxNew, eos);
    EmitAllGrows(out, s, maxNew, eos);
    assert prompt + out + s == prompt + r;
    var next := seq(vocab, t requires 0 <= t < vocab => Sampling(p, vocab, prompt, r + [t], maxNew, eos));
    var values := seq(|next|, t requires 0 <= t < |next| => Expect(next[t], f));
    forall t | 0 <= t < vocab
      ensures values[t] == Stakes(vocab, stake, s)[t]
    {
      assert (s + [t])[..|s|] == s;
    }
    assert values == Stakes(vocab, stake, s);
  }

  lemma SampledIsHarmonic(p: Conditional, vocab: nat, prompt: seq<int>, out: seq<int>, maxNew: int, eos: Option<int>,
                          f: seq<int> -> real)
    requires OverVocab(p, vocab)
    ensures Harmonic(p, vocab, prompt + out, SampledFrom(p, vocab, prompt, out, maxNew, eos, f))
  {
    hide Weighted, Stakes, SampledFrom, EmitAll, Stops, OverVocab;
    var stake := SampledFrom(p, vocab, prompt, out, maxNew, eos, f);
    forall s: seq<nat>
      ensures stake(s) == Weighted(p(prompt + out + s), Stakes(vocab, stake, s))
    {
      if Stops(EmitAll(out, s, maxNew, eos), maxNew, eos) {
        StoppedStakes(p, vocab, prompt, out, maxNew, eos, f, s);
      } else {
        RunningStakes(p, vocab, prompt, out, maxNew, eos, f, s);
      }
    }
  }

  // If what follows an iteration is worth what target sampling is, so is the iteration and what follows.
  lemma IterationThenSampling(p: Conditional, q: Conditional, vocab: nat, k: nat, prompt: seq<int>, out: seq<int>,
                              maxNew: int, eos: Option<int>, f: seq<int> -> real)
    requires OverVocab(p, vocab) && OverVocab(q, vocab) && !Stops(out, maxNew, eos)
    requires forall e: Emission :: Expect(AfterEmitting(p, q, vocab, k, prompt, out, maxNew, eos)(e), f)
                                == SampledFrom(p, vocab, prompt, out, maxNew, eos, f)(e.Tokens())
    ensures Expect(Bind(Drafting(p, q, vocab, prompt + out, k, []),
      AfterEmitting(p, q, vocab, k, prompt, out, maxNew, eos)), f)
         == SampledFrom(p, vocab, prompt, out, maxNew, eos, f)([])
  {
    hide Expect, Bind, Drafting, Sampling, SampledFrom, EmitAll, OverVocab, AfterEmitting, Harmonic;
    var stake := SampledFrom(p, vocab, prompt, out, maxNew, eos, f);
    var iteration := Drafting(p, q, vocab, prompt + out, k, []);
    var rest := AfterEmitting(p, q, vocab, k, prompt, out, maxNew, eos);
    ExpectBind(iteration, rest, f);
    ExpectSame(iteration, Worth(rest, f), AtStake(stake));
    SampledIsHarmonic(p, vocab, prompt, out, maxNew, eos, f);
    IterationIsFair(p, q, vocab, prompt + out, k, stake);
  }

  /** Sampled speculation is lossless in law: for any target, any draft model over the same vocabulary, any
      number k of drafted tokens, any limit and end-of-sequence token, every function of the output has the
      same expectation as under token-by-token sampling from the target. */
  lemma {:induction false} SpeculationIsLossless(p: Conditional, q: Conditional, vocab: nat, k: nat, prompt: seq<int>,
                                                 out: seq<int>,
                                                 maxNew: int, eos: Option<int>, f: seq<int> -> real)
    requires OverVocab(p, vocab) && OverVocab(q, vocab)
    ensures Expect(Speculating(p, q, vocab, k, prompt, out, maxNew, eos), f)
         == Expect(Sampling(p, vocab, prompt, out, maxNew, eos), f)
    decreases maxNew - |out|
  {
    hide Expect, Bind, Drafting, Sampling, OverVocab;
    if Stops(out, maxNew, eos) {
      StoppedSame(p, q, vocab, k, prompt, out, maxNew, eos);
    } else {
      forall e: Emission
        ensures Expect(AfterEmitting(p, q, vocab, k, prompt, out, maxNew, eos)(e), f)
             == SampledFrom(p, vocab, prompt, out, maxNew, eos, f)(e.Tokens())
      {
        EmitAllGrows(out, e.Tokens(), maxNew, eos);
        SpeculationIsLossless(p, q, vocab, k, prompt, EmitAll(out, e.Tokens(), maxNew, eos), maxNew, eos, f);
      }
      IterationThenSampling(p, q, vocab, k, prompt, out, maxNew, eos, f);
    }
  }

  lemma StoppedSame(p: Conditional, q: Conditional, vocab: nat, k: nat, prompt: seq<int>, out: seq<int>, maxNew: int,
                    eos: Option<int>)
    requires OverVocab(p, vocab) && OverVocab(q, vocab) && Stops(out, maxNew, eos)
    ensures Speculating(p, q, vocab, k, prompt, out, maxNew, eos) == Return(out) ==
      Sampling(p, vocab, prompt, out, maxNew, eos)
  {
  }

  // ---------- the probability of one output ----------

  // The product of the target's conditionals along y.
  function Chain(p: Conditional, h: seq<int>, y: seq<nat>): real
    decreases |y|
  {
    if y == [] then 1.0 else Prob(p(h), y[0]) * Chain(p, h + [y[0]], y[1..])
  }

  function Exactly(y: seq<int>): seq<int> -> real {
    (out: seq<int>) => if out == y then 1.0 else 0.0
  }

  lemma {:induction false} OnlyTerm(probs: seq<real>, values: seq<real>, t: nat)
    requires |probs| == |values| && forall i :: 0 <= i < |values| && i != t ==> values[i] == 0.0
    ensures Weighted(probs, values) == if t < |values| then probs[t] * values[t] else 0.0
  {
    if probs != [] {
      var n := |probs| - 1;
      OnlyTerm(probs[..n], values[..n], t);
    }
  }

  lemma {:induction false} NeverReached(p: Conditional, vocab: nat, prompt: seq<int>, out: seq<int>, maxNew: int,
                                        eos: Option<int>, y: seq<int>)
    requires OverVocab(p, vocab) && !(out <= y)
    ensures Expect(Sampling(p, vocab, prompt, out, maxNew, eos), Exactly(y)) == 0.0
    decreases maxNew - |out|
  {
    hide Weighted, Distribution;
    if !Stops(out, maxNew, eos) {
      var next := seq(vocab, t requires 0 <= t < vocab => Sampling(p, vocab, prompt, out + [t], maxNew, eos));
      var values := seq(|next|, t requires 0 <= t < |next| => Expect(next[t], Exactly(y)));
      forall t | 0 <= t < vocab
        ensures values[t] == 0.0
      {
        assert out + [t] <= y ==> out <= y;
        NeverReached(p, vocab, prompt, out + [t], maxNew, eos, y);
      }
      assert |p(prompt + out)| == vocab;
      OnlyTerm(p(prompt + out), values, vocab);
    }
  }

  // Decoding that has got to `out` can stop at z, if it draws z's tokens.
  ghost predicate StopsAt(out: seq<int>, z: seq<int>, maxNew: int, eos: Option<int>) {
    Stops(z, maxNew, eos) && forall i :: |out| <= i < |z| ==> !Stops(z[..i], maxNew, eos)
  }

  // From the start it stops at the whole outputs.
  lemma StopsAtWhole(z: seq<int>, maxNew: int, eos: Option<int>)
    requires maxNew > 0
    ensures StopsAt([], z, maxNew, eos) <==> WholeOutput(z, maxNew, eos)
  {
    if StopsAt([], z, maxNew, eos) {
      assert !Stops(z[..|z| - 1], maxNew, eos);
      forall i | 0 <= i < |z| - 1
        ensures eos != Some(z[i])
      {
        assert !Stops(z[..i + 1], maxNew, eos);
      }
    }
  }

  lemma StopsAtNext(out: seq<int>, t: int, z: seq<int>, maxNew: int, eos: Option<int>)
    requires out + [t] <= z && !Stops(out, maxNew, eos)
    ensures StopsAt(out, z, maxNew, eos) <==> StopsAt(out + [t], z, maxNew, eos)
  {
    assert z[..|out|] == out;
  }

  // The probability of going on with y and stopping there.
  lemma {:induction false} SamplingIsChain(p: Conditional, vocab: nat, prompt: seq<int>, out: seq<int>, y: seq<nat>,
                                           maxNew: int, eos: Option<int>)
    requires OverVocab(p, vocab)
    ensures Expect(Sampling(p, vocab, prompt, out, maxNew, eos), Exactly(out + y))
         == if StopsAt(out, out + y, maxNew, eos) then Chain(p, prompt + out, y) else 0.0
    decreases |y|
  {
    hide Weighted, Distribution, StopsAt;
    var z := out + y;
    assert z[..|out|] == out && (y == [] ==> z == out);
    if Stops(out, maxNew, eos) {
      assert StopsAt(out, z, maxNew, eos) <==> y == [] by { StoppedAlready(out, y, maxNew, eos); }
    } else {
      var next := seq(vocab, t requires 0 <= t < vocab => Sampling(p, vocab, prompt, out + [t], maxNew, eos));
      var values := seq(|next|, t requires 0 <= t < |next| => Expect(next[t], Exactly(z)));
      assert |p(prompt + out)| == vocab;
      if y == [] {
        assert !StopsAt(out, z, maxNew, eos) by { StillRunning(out, maxNew, eos); }
        forall t | 0 <= t < vocab
          ensures values[t] == 0.0
        {
          NeverReached(p, vocab, prompt, out + [t], maxNew, eos, z);
        }
        OnlyTerm(p(prompt + out), values, vocab);
      } else {
        var rest := Expect(Sampling(p, vocab, prompt, out + [y[0]], maxNew, eos), Exactly(z));
        forall t | 0 <= t < vocab
          ensures values[t] == if t == y[0] then rest else 0.0
        {
          if t != y[0] {
            assert (out + [t])[|out|] != z[|out|];
            NeverReached(p, vocab, prompt, out + [t], maxNew, eos, z);
          }
        }
        OnlyTerm(p(prompt + out), values, y[0]);
        assert z == (out + [y[0]]) + y[1..] && prompt + (out + [y[0]]) == prompt + out + [y[0]];
        StopsAtNext(out, y[0], z, maxNew, eos);
        SamplingIsChain(p, vocab, prompt, out + [y[0]], y[1..], maxNew, eos);
      }
    }
  }

  lemma StoppedAlready(out: seq<int>, y: seq<nat>, maxNew: int, eos: Option<int>)
    requires Stops(out, maxNew, eos)
    ensures StopsAt(out, out + y, maxNew, eos) <==> y == []
  {
    assert (out + y)[..|out|] == out;
    assert y == [] ==> out + y == out;
  }

  lemma StillRunning(out: seq<int>, maxNew: int, eos: Option<int>)
    requires !Stops(out, maxNew, eos)
    ensures !StopsAt(out, out, maxNew, eos)
  {
  }

  /** The probability that the output is y: the product of the target's conditionals along y if y ends where an
      output should, and otherwise none. */
  lemma SpeculationProbability(p: Conditional, q: Conditional, vocab: nat, k: nat, prompt: seq<int>, maxNew: int,
                               eos: Option<int>, y: seq<nat>)
    requires OverVocab(p, vocab) && OverVocab(q, vocab) && maxNew > 0
    ensures Expect(Speculating(p, q, vocab, k, prompt, [], maxNew, eos), Exactly(y))
         == if WholeOutput(y, maxNew, eos) then Chain(p, prompt, y) else 0.0
  {
    SpeculationIsLossless(p, q, vocab, k, prompt, [], maxNew, eos, Exactly(y));
    SamplingIsChain(p, vocab, prompt, [], y, maxNew, eos);
    StopsAtWhole(y, maxNew, eos);
    assert [] + y == y && prompt + [] == prompt;
  }

  // ---------- runs ----------

  lemma {:induction false} DraftingPlayable(p: Conditional, q: Conditional, vocab: nat, h: seq<int>, k: nat,
                                            d: seq<nat>)
    requires OverVocab(p, vocab) && OverVocab(q, vocab)
    ensures Playable(Drafting(p, q, vocab, h, k, d))
    decreases k - |d|
  {
    hide Verifying;
    if |d| >= k {
      RowsAlongOk(p, q, vocab, h, d);
      VerifyingPlayable(d, RowsAlong(q, h, d), RowsAlong(p, h, d), p(h + d), 0);
    } else {
      assert |q(h + d)| == vocab && Sum(q(h + d)) == 1.0;
      SumHasMass(q(h + d));
      forall t: nat | t < vocab
        ensures Playable(Drafting(p, q, vocab, h, k, d + [t]))
      {
        DraftingPlayable(p, q, vocab, h, k, d + [t]);
      }
    }
  }

  // Drafting one more token is one draw.
  lemma DraftOne(o: Oracle, n: nat, p: Conditional, q: Conditional, vocab: nat, h: seq<int>, k: nat, d: seq<nat>)
    requires Fair(o) && OverVocab(p, vocab) && OverVocab(q, vocab) && |d| < k
    ensures Playable(Drafting(p, q, vocab, h, k, d))
    ensures var t := o.pick(n, q(h + d));
      && t < vocab == |q(h + d)| && q(h + d)[t] == Prob(q(h + d), t) > 0.0
      && Playable(Drafting(p, q, vocab, h, k, d + [t]))
      && Run(o, n, Drafting(p, q, vocab, h, k, d)) == Run(o, n + 1, Drafting(p, q, vocab, h, k, d + [t]))
  {
    hide Verifying;
    DraftingPlayable(p, q, vocab, h, k, d);
    assert |q(h + d)| == vocab && Sum(q(h + d)) == 1.0;
    SumHasMass(q(h + d));
    DraftingPlayable(p, q, vocab, h, k, d + [o.pick(n, q(h + d))]);
  }

  lemma {:induction false} SpeculatingPlayable(p: Conditional, q: Conditional, vocab: nat, k: nat, prompt: seq<int>,
                                               out: seq<int>,
                                               maxNew: int, eos: Option<int>, o: Oracle)
    requires Fair(o) && OverVocab(p, vocab) && OverVocab(q, vocab)
    ensures Playable(Speculating(p, q, vocab, k, prompt, out, maxNew, eos))
    ensures !Stops(out, maxNew, eos) ==>
      Playable(Drafting(p, q, vocab, prompt + out, k, []))
      && forall e :: Playable(AfterEmitting(p, q, vocab, k, prompt, out, maxNew, eos)(e))
    decreases maxNew - |out|
  {
    hide Drafting, OverVocab, Fair;
    if !Stops(out, maxNew, eos) {
      DraftingPlayable(p, q, vocab, prompt + out, k, []);
      forall e: Emission
        ensures Playable(AfterEmitting(p, q, vocab, k, prompt, out, maxNew, eos)(e))
      {
        EmitAllGrows(out, e.Tokens(), maxNew, eos);
        SpeculatingPlayable(p, q, vocab, k, prompt, EmitAll(out, e.Tokens(), maxNew, eos), maxNew, eos, o);
      }
      RunBind(o, 0, Drafting(p, q, vocab, prompt + out, k, []),
        AfterEmitting(p, q, vocab, k, prompt, out, maxNew, eos));
    }
  }

  // One iteration of a run, and what it goes on with.
  lemma SpeculateOne(o: Oracle, n: nat, p: Conditional, q: Conditional, vocab: nat, k: nat, prompt: seq<int>,
                     out: seq<int>,
                     maxNew: int, eos: Option<int>)
    requires Fair(o) && OverVocab(p, vocab) && OverVocab(q, vocab) && !Stops(out, maxNew, eos)
    ensures Playable(Speculating(p, q, vocab, k, prompt, out, maxNew, eos))
    ensures Playable(Drafting(p, q, vocab, prompt + out, k, []))
    ensures var (e, m) := Run(o, n, Drafting(p, q, vocab, prompt + out, k, []));
      var next := Speculating(p, q, vocab, k, prompt, EmitAll(out, e.Tokens(), maxNew, eos), maxNew, eos);
      Playable(next) && Run(o, n, Speculating(p, q, vocab, k, prompt, out, maxNew, eos)) == Run(o, m, next)
  {
    hide Drafting, OverVocab, Fair, Run;
    SpeculatingPlayable(p, q, vocab, k, prompt, out, maxNew, eos, o);
    RunBind(o, n, Drafting(p, q, vocab, prompt + out, k, []), AfterEmitting(p, q, vocab, k, prompt, out, maxNew, eos));
    var (e, m) := Run(o, n, Drafting(p, q, vocab, prompt + out, k, []));
    assert Playable(AfterEmitting(p, q, vocab, k, prompt, out, maxNew, eos)(e));
  }

  // Emitting keeps an output within its limits.
  lemma {:induction false} EmitAllWithin(out: seq<int>, tokens: seq<int>, maxNew: int, eos: Option<int>)
    requires WithinLimits(out, maxNew, eos) && (out != [] || maxNew > 0)
    ensures WithinLimits(EmitAll(out, tokens, maxNew, eos), maxNew, eos)
  {
    hide WithinLimits, Stops;
    if tokens != [] {
      var n := |tokens| - 1;
      EmitAllWithin(out, tokens[..n], maxNew, eos);
      var r := EmitAll(out, tokens[..n], maxNew, eos);
      if !Stops(r, maxNew, eos) {
        OneMoreWithin(r, tokens[n], maxNew, eos);
      }
    }
  }

  /** Every run of speculative decoding, at any sampling parameters, ends where an output should. */
  lemma {:induction false} SpeculationIsWhole(o: Oracle, n: nat, p: Conditional, q: Conditional, vocab: nat, k: nat,
                                              prompt: seq<int>, out: seq<int>, maxNew: int, eos: Option<int>)
    requires Fair(o) && OverVocab(p, vocab) && OverVocab(q, vocab)
    requires WithinLimits(out, maxNew, eos) && (out != [] || maxNew > 0)
    ensures Playable(Speculating(p, q, vocab, k, prompt, out, maxNew, eos))
    ensures WholeOutput(Run(o, n, Speculating(p, q, vocab, k, prompt, out, maxNew, eos)).0, maxNew, eos)
    decreases maxNew - |out|
  {
    hide WithinLimits, WholeOutput, Fair, OverVocab, Drafting;
    if Stops(out, maxNew, eos) {
      StopsWhenWhole(out, maxNew, eos);
    } else {
      SpeculateOne(o, n, p, q, vocab, k, prompt, out, maxNew, eos);
      var (e, m) := Run(o, n, Drafting(p, q, vocab, prompt + out, k, []));
      EmitAllGrows(out, e.Tokens(), maxNew, eos);
      EmitAllWithin(out, e.Tokens(), maxNew, eos);
      SpeculationIsWhole(o, m, p, q, vocab, k, prompt, EmitAll(out, e.Tokens(), maxNew, eos), maxNew, eos);
    }
  }

  // ---------- runs with a greedy target ----------

  // The model puts all its weight on the token the network chooses greedily.
  ghost predicate Picks(p: Conditional, vocab: nat, net: Net) {
    forall h :: |h| > 0 ==> 0 <= Next(net, h) < vocab && p(h) == OneHot(vocab, Next(net, h))
  }

  ghost predicate GreedyRun(net: Net, h: seq<int>, tokens: seq<nat>)
    requires |h| > 0
  {
    forall i :: 0 <= i < |tokens| ==> tokens[i] == Next(net, h + tokens[..i])
  }

  // The drafted tokens were possible under the draft model.
  ghost predicate Drafted(q: Conditional, vocab: nat, h: seq<int>, d: seq<nat>)
    requires OverVocab(q, vocab)
  {
    forall i :: 0 <= i < |d| ==> d[i] < vocab && Prob(q(h + d[..i]), d[i]) > 0.0
  }

  // The greedy tokens along a draft, and after it.
  function ChoicesAlong(net: Net, h: seq<int>, d: seq<nat>): (choice: seq<nat>)
    requires |h| > 0
    ensures |choice| == |d| + 1
  {
    seq<nat>(|d| + 1, i requires 0 <= i <= |d| => Next(net, h + d[..i]))
  }

  // The rows of a possible draft against those of a greedy target.
  lemma DraftedRows(p: Conditional, q: Conditional, vocab: nat, h: seq<int>, d: seq<nat>, net: Net)
    requires OverVocab(p, vocab) && OverVocab(q, vocab) && Picks(p, vocab, net) && |h| > 0
    requires Drafted(q, vocab, h, d)
    ensures RowsOk(d, RowsAlong(q, h, d), RowsAlong(p, h, d), p(h + d))
    ensures var choice := ChoicesAlong(net, h, d);
      && (forall j :: 0 <= j <= |d| ==> choice[j] < vocab)
      && (forall j :: 0 <= j < |d| ==>
            && RowsAlong(p, h, d)[j] == OneHot(vocab, choice[j]) && Distribution(RowsAlong(q, h, d)[j])
            && d[j] < vocab && |RowsAlong(q, h, d)[j]| == vocab && RowsAlong(q, h, d)[j][d[j]] > 0.0)
      && p(h + d) == OneHot(vocab, choice[|d|])
  {
    hide Next, Sum, RowsOk;
    RowsAlongOk(p, q, vocab, h, d);
    assert d[..|d|] == d;
    forall j | 0 <= j < |d|
      ensures RowsAlong(q, h, d)[j][d[j]] > 0.0
    {
      assert |q(h + d[..j])| == vocab && Prob(q(h + d[..j]), d[j]) > 0.0;
    }
  }

  lemma DraftedGreedy(o: Oracle, n: nat, p: Conditional, q: Conditional, vocab: nat, h: seq<int>, d: seq<nat>, net: Net)
    requires Fair(o) && OverVocab(p, vocab) && OverVocab(q, vocab) && Picks(p, vocab, net) && |h| > 0
    requires Drafted(q, vocab, h, d)
    ensures RowsOk(d, RowsAlong(q, h, d), RowsAlong(p, h, d), p(h + d))
    ensures Playable(Verifying(d, RowsAlong(q, h, d), RowsAlong(p, h, d), p(h + d), 0))
    ensures GreedyRun(net, h, Run(o, n, Verifying(d, RowsAlong(q, h, d), RowsAlong(p, h, d), p(h + d), 0)).0.Tokens())
  {
    hide Next, Verifying, Run, Playable, Fair, Sum, OverVocab, Picks, Drafted, RowsOk, RowsAlong, Distribution, OneHot;
    DraftedRows(p, q, vocab, h, d, net);
    var choice := ChoicesAlong(net, h, d);
    GreedyVerifying(o, n, d, RowsAlong(q, h, d), RowsAlong(p, h, d), p(h + d), 0, vocab, choice);
    var e := Run(o, n, Verifying(d, RowsAlong(q, h, d), RowsAlong(p, h, d), p(h + d), 0)).0;
    forall i | 0 <= i < |e.Tokens()|
      ensures e.Tokens()[i] == Next(net, h + e.Tokens()[..i])
    {
      assert e.Tokens()[..i] == e.kept[..i] == d[..i];
    }
  }

  lemma DraftedMore(q: Conditional, vocab: nat, h: seq<int>, d: seq<nat>, t: nat)
    requires OverVocab(q, vocab) && Drafted(q, vocab, h, d) && t < vocab && Prob(q(h + d), t) > 0.0
    ensures Drafted(q, vocab, h, d + [t])
  {
    hide Prob, OverVocab;
    forall i | 0 <= i <= |d|
      ensures (d + [t])[..i] == d[..i]
    {
    }
    assert d[..|d|] == d;
  }

  // Whatever the draft model and the random choices, an iteration emits greedy tokens only.
  lemma {:induction false} GreedyDrafting(o: Oracle, n: nat, p: Conditional, q: Conditional, vocab: nat, h: seq<int>,
                                          k: nat, d: seq<nat>, net: Net)
    requires Fair(o) && OverVocab(p, vocab) && OverVocab(q, vocab) && Picks(p, vocab, net) && |h| > 0
    requires Drafted(q, vocab, h, d)
    ensures Playable(Drafting(p, q, vocab, h, k, d))
    ensures GreedyRun(net, h, Run(o, n, Drafting(p, q, vocab, h, k, d)).0.Tokens())
    decreases k - |d|
  {
    hide GreedyRun, Verifying, Run, Playable, Fair, OverVocab, Picks, Drafted, RowsOk;
    if |d| >= k {
      DraftedGreedy(o, n, p, q, vocab, h, d, net);
    } else {
      DraftOne(o, n, p, q, vocab, h, k, d);
      var t := o.pick(n, q(h + d));
      DraftedMore(q, vocab, h, d, t);
      GreedyDrafting(o, n + 1, p, q, vocab, h, k, d + [t], net);
    }
  }

  // Emitting greedy tokens moves along the greedy generation.
  lemma {:induction false} EmitAllExtends(net: Net, prompt: seq<int>, out: seq<int>, tokens: seq<nat>, maxNew: int,
                                          eos: Option<int>)
    requires |prompt| > 0 && GreedyRun(net, prompt + out, tokens)
    ensures Extend(net, prompt, EmitAll(out, tokens, maxNew, eos), maxNew, eos) == Extend(net, prompt, out, maxNew, eos)
  {
    hide Next, Stops;
    if tokens != [] {
      var n := |tokens| - 1;
      forall i | 0 <= i < n
        ensures tokens[..n][i] == Next(net, prompt + out + tokens[..n][..i])
      {
        assert tokens[..n][..i] == tokens[..i];
      }
      EmitAllExtends(net, prompt, out, tokens[..n], maxNew, eos);
      EmitAllGrows(out, tokens[..n], maxNew, eos);
      assert prompt + out + tokens[..n] == prompt + (out + tokens[..n]);
    }
  }

  /** With a greedy target, every run of speculative decoding is the target's own greedy generation. */
  lemma {:induction false} GreedySpeculation(o: Oracle, n: nat, p: Conditional, q: Conditional, vocab: nat, k: nat,
                                             prompt: seq<int>, out: seq<int>, maxNew: int, eos: Option<int>, net: Net)
    requires Fair(o) && OverVocab(p, vocab) && OverVocab(q, vocab) && Picks(p, vocab, net) && |prompt| > 0
    ensures Playable(Speculating(p, q, vocab, k, prompt, out, maxNew, eos))
    ensures Run(o, n, Speculating(p, q, vocab, k, prompt, out, maxNew, eos)).0 == Extend(net, prompt, out, maxNew, eos)
    decreases maxNew - |out|
  {
    hide GreedyRun, Drafting, Fair, OverVocab, Picks, Bind;
    if !Stops(out, maxNew, eos) {
      SpeculateOne(o, n, p, q, vocab, k, prompt, out, maxNew, eos);
      GreedyDrafting(o, n, p, q, vocab, prompt + out, k, [], net) by {
        assert Drafted(q, vocab, prompt + out, []);
      }
      var (e, m) := Run(o, n, Drafting(p, q, vocab, prompt + out, k, []));
      EmitAllExtends(net, prompt, out, e.Tokens(), maxNew, eos);
      EmitAllGrows(out, e.Tokens(), maxNew, eos);
      GreedySpeculation(o, m, p, q, vocab, k, prompt, EmitAll(out, e.Tokens(), maxNew, eos), maxNew, eos, net);
    }
  }
}
