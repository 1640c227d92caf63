// Textbook softmax attention over the reals, with grouped-query heads.
module Softmax {
  import opened Wrappers
  import opened Reference
  import opened Distributions

  /** The exponential is a parameter; all that is used of it is that it is positive and turns sums into
      products.  `groups` query heads share one KV head. */
  datatype Attn = Attn(exp: real -> real, scale: real, numHeads: nat, groups: pos, headDim: nat)

  ghost predicate ExpLaws(exp: real -> real) {
    && (forall a {:trigger Consider(a, a)} :: exp(a) > 0.0)
    && (forall a, b {:trigger Consider(a, b)} :: exp(a + b) == exp(a) * exp(b))
  }

  // Names the arguments at which the laws are used.
  ghost predicate Consider(a: real, b: real) {
    true
  }

  lemma ExpPositive(exp: real -> real, a: real)
    requires ExpLaws(exp)
    ensures exp(a) > 0.0
  {
    assert Consider(a, a);
  }

  lemma ExpShift(exp: real -> real, s: real, m: real)
    requires ExpLaws(exp)
    ensures exp(s - m) * exp(m) == exp(s)
  {
    assert Consider(s - m, m);
    assert s - m + m == s;
  }

  // A score, or the minus infinity of a masked one.
  datatype Score = NegInf | Fin(value: real)

  // A component of a tensor row; reading outside its shape gives 0.
  function At(v: Vec, d: nat): real {
    if d < |v| then v[d] else 0.0
  }

  function Head(heads: Heads, h: nat): Vec {
    if h < |heads| then heads[h] else []
  }

  function Dot(q: Vec, k: Vec, dim: nat): real {
    if dim == 0 then 0.0 else Dot(q, k, dim - 1) + At(q, dim - 1) * At(k, dim - 1)
  }

  function ExpSum(exp: real -> real, scores: seq<real>): real {
    if scores == [] then 0.0 else ExpSum(exp, scores[..|scores| - 1]) + exp(scores[|scores| - 1])
  }

  function Weights(exp: real -> real, scores: seq<real>): (w: seq<real>)
    requires scores != [] ==> ExpSum(exp, scores) != 0.0
    ensures |w| == |scores|
  {
    seq(|scores|, j requires 0 <= j < |scores| => exp(scores[j]) / ExpSum(exp, scores))
  }

  // The weighted sum of component d of the vectors `vs`.
  function Mix(w: seq<real>, vs: seq<Vec>, d: nat): real
    requires |w| == |vs|
  {
    if w == [] then 0.0
    else Mix(w[..|w| - 1], vs[..|vs| - 1], d) + w[|w| - 1] * At(vs[|vs| - 1], d)
  }

  function Scores(a: Attn, q: Vec, keys: seq<Vec>): (s: seq<real>)
    ensures |s| == |keys|
  {
    seq(|keys|, j requires 0 <= j < |keys| => a.scale * Dot(q, keys[j], a.headDim))
  }

  function Keys(kvs: seq<KV>, h: nat): (ks: seq<Vec>)
    ensures |ks| == |kvs|
  {
    seq(|kvs|, j requires 0 <= j < |kvs| => Head(kvs[j].key, h))
  }

  function Values(kvs: seq<KV>, h: nat): (vs: seq<Vec>)
    ensures |vs| == |kvs|
  {
    seq(|kvs|, j requires 0 <= j < |kvs| => Head(kvs[j].value, h))
  }

  function AttendHead(a: Attn, q: Vec, keys: seq<Vec>, values: seq<Vec>): (out: Vec)
    requires |keys| == |values| && |keys| > 0 && ExpLaws(a.exp)
    ensures |out| == a.headDim
  {
    ExpSumPositive(a.exp, Scores(a, q, keys));
    var w := Weights(a.exp, Scores(a, q, keys));
    seq(a.headDim, d requires d >= 0 => Mix(w, values, d))
  }

  function SoftmaxAttend(a: Attn, q: Heads, kvs: seq<KV>): (out: Heads)
    requires |kvs| > 0 && ExpLaws(a.exp)
    ensures |out| == a.numHeads
  {
    seq(a.numHeads, h requires h >= 0 => AttendHead(a, Head(q, h), Keys(kvs, h / a.groups), Values(kvs, h / a.groups)))
  }

  // Every layer of the network attends by softmax.
  ghost predicate SoftmaxNet(net: Net, a: Attn) {
    && ExpLaws(a.exp)
    && (forall l, q, kvs :: 0 <= l < |net.layers| && |kvs| > 0 ==>
          net.layers[l].attend(q, kvs) == SoftmaxAttend(a, q, kvs))
  }

  // ---------- sums ----------

  // The unnormalised weighted sum.
  function ExpMix(exp: real -> real, scores: seq<real>, vs: seq<Vec>, d: nat): real
    requires |scores| == |vs|
  {
    if scores == [] then 0.0
    else ExpMix(exp, scores[..|scores| - 1], vs[..|vs| - 1], d) + exp(scores[|scores| - 1]) * At(vs[|vs| - 1], d)
  }

  lemma {:induction false} ExpSumPositive(exp: real -> real, scores: seq<real>)
    requires ExpLaws(exp)
    ensures ExpSum(exp, scores) >= 0.0
    ensures scores != [] ==> ExpSum(exp, scores) > 0.0
  {
    if scores != [] {
      ExpSumPositive(exp, scores[..|scores| - 1]);
      ExpPositive(exp, scores[|scores| - 1]);
    }
  }

  lemma {:induction false} ExpSumConcat(exp: real -> real, s: seq<real>, t: seq<real>)
    ensures ExpSum(exp, s + t) == ExpSum(exp, s) + ExpSum(exp, t)
  {
    if t == [] {
      assert s + t == s;
    } else {
      assert (s + t)[..|s + t| - 1] == s + t[..|t| - 1];
      ExpSumConcat(exp, s, t[..|t| - 1]);
    }
  }

  lemma {:induction false} ExpMixConcat(exp: real -> real, s: seq<real>, vs: seq<Vec>, t: seq<real>, ws: seq<Vec>,
                                        d: nat)
    requires |s| == |vs| && |t| == |ws|
    ensures ExpMix(exp, s + t, vs + ws, d) == ExpMix(exp, s, vs, d) + ExpMix(exp, t, ws, d)
  {
    if t == [] {
      assert s + t == s && vs + ws == vs;
    } else {
      assert (s + t)[..|s + t| - 1] == s + t[..|t| - 1];
      assert (vs + ws)[..|vs + ws| - 1] == vs + ws[..|ws| - 1];
      ExpMixConcat(exp, s, vs, t[..|t| - 1], ws[..|ws| - 1], d);
    }
  }

  lemma {:induction false} ScaledMix(w: seq<real>, u: seq<real>, vs: seq<Vec>, d: nat, c: real)
    requires |w| == |u| == |vs| && forall j :: 0 <= j < |w| ==> w[j] * c == u[j]
    ensures Mix(w, vs, d) * c == Mix(u, vs, d)
  {
    if w != [] {
      var n := |w| - 1;
      ScaledMix(w[..n], u[..n], vs[..n], d, c);
      assert Mix(w, vs, d) * c == Mix(w[..n], vs[..n], d) * c + (w[n] * At(vs[n], d)) * c;
      assert (w[n] * At(vs[n], d)) * c == (w[n] * c) * At(vs[n], d);
    }
  }

  lemma {:induction false} ExpMixIsMix(exp: real -> real, scores: seq<real>, vs: seq<Vec>, d: nat)
    requires |scores| == |vs|
    ensures ExpMix(exp, scores, vs, d) == Mix(seq(|scores|, j requires 0 <= j < |scores| => exp(scores[j])), vs, d)
  {
    if scores != [] {
      var n := |scores| - 1;
      ExpMixIsMix(exp, scores[..n], vs[..n], d);
      assert seq(|scores|, j requires 0 <= j < |scores| => exp(scores[j]))[..n]
          == seq(n, j requires 0 <= j < n => exp(scores[..n][j]));
    }
  }

  // Normalising each weight, or the sum once at the end, is the same.
  lemma MixIsQuotient(exp: real -> real, scores: seq<real>, vs: seq<Vec>, d: nat)
    requires |scores| == |vs| && scores != [] && ExpLaws(exp)
    ensures ExpSum(exp, scores) > 0.0
    ensures Mix(Weights(exp, scores), vs, d) == ExpMix(exp, scores, vs, d) / ExpSum(exp, scores)
  {
    ExpSumPositive(exp, scores);
    var z := ExpSum(exp, scores);
    var raw := seq(|scores|, j requires 0 <= j < |scores| => exp(scores[j]));
    ScaledMix(Weights(exp, scores), raw, vs, d, z);
    ExpMixIsMix(exp, scores, vs, d);
  }

  lemma {:induction false} DotScaled(q: Vec, k: Vec, dim: nat, scale: real, qs: Vec)
    requires forall d: nat :: d < dim ==> At(qs, d) == At(q, d) * scale
    ensures Dot(qs, k, dim) == scale * Dot(q, k, dim)
  {
    if dim > 0 {
      DotScaled(q, k, dim - 1, scale, qs);
      assert (At(q, dim - 1) * scale) * At(k, dim - 1) == scale * (At(q, dim - 1) * At(k, dim - 1));
    }
  }

  // ---------- what determines softmax attention ----------

  // Weights that add up to one and have the odds of the exponentials of the scores.
  ghost predicate InOdds(exp: real -> real, scores: seq<real>, w: seq<real>) {
    && |w| == |scores| && Sum(w) == 1.0
    && forall i, j :: 0 <= i < |w| && 0 <= j < |w| ==> w[i] * exp(scores[j]) == w[j] * exp(scores[i])
  }

  lemma {:induction false} OddsScaled(exp: real -> real, scores: seq<real>, w: seq<real>, i: nat, n: nat)
    requires InOdds(exp, scores, w) && i < |w| && n <= |w|
    ensures w[i] * ExpSum(exp, scores[..n]) == Sum(w[..n]) * exp(scores[i])
  {
    if n > 0 {
      assert scores[..n][..n - 1] == scores[..n - 1] && w[..n][..n - 1] == w[..n - 1];
      OddsScaled(exp, scores, w, i, n - 1);
      Distribute(w[i], ExpSum(exp, scores[..n - 1]), exp(scores[n - 1]));
      Distribute(exp(scores[i]), Sum(w[..n - 1]), w[n - 1]);
    }
  }

  lemma Distribute(x: real, y: real, z: real)
    ensures x * (y + z) == x * y + x * z
  {
  }

  lemma QuotientIs(x: real, z: real, y: real)
    requires z > 0.0 && x * z == y
    ensures x == y / z
  {
    assert (x - y / z) * z == 0.0;
  }

  // There are no other such weights than the softmax weights.
  lemma OddsAreWeights(exp: real -> real, scores: seq<real>, w: seq<real>)
    requires ExpLaws(exp) && InOdds(exp, scores, w) && scores != []
    ensures ExpSum(exp, scores) > 0.0 && w == Weights(exp, scores)
  {
    hide ExpLaws, ExpSum, Sum;
    ExpSumPositive(exp, scores);
    assert scores[..|scores|] == scores && w[..|w|] == w;
    forall i | 0 <= i < |w|
      ensures w[i] == Weights(exp, scores)[i]
    {
      hide InOdds;
      OddsScaled(exp, scores, w, i, |w|);
      QuotientIs(w[i], ExpSum(exp, scores), exp(scores[i]));
    }
  }

  lemma {:induction false} MixIsDot(w: seq<real>, vs: seq<Vec>, d: nat, column: Vec)
    requires |w| == |vs| == |column| && forall j :: 0 <= j < |vs| ==> column[j] == At(vs[j], d)
    ensures Mix(w, vs, d) == Dot(w, column, |w|)
  {
    if w != [] {
      var n := |w| - 1;
      MixIsDot(w[..n], vs[..n], d, column[..n]);
      DotPrefix(w, column, n, n);
    }
  }

  lemma {:induction false} DotPrefix(w: Vec, c: Vec, m: nat, n: nat)
    requires n <= m <= |w| && m <= |c|
    ensures Dot(w[..m], c[..m], n) == Dot(w, c, n)
  {
    if n > 0 {
      DotPrefix(w, c, m, n - 1);
    }
  }

  lemma HeadIsMean(a: Attn, q: Vec, keys: seq<Vec>, values: seq<Vec>, d: nat, w: seq<real>, column: Vec)
    requires ExpLaws(a.exp) && keys != [] && d < a.headDim && |column| == |keys| == |values|
    requires InOdds(a.exp, Scores(a, q, keys), w) && forall j :: 0 <= j < |values| ==> column[j] == At(values[j], d)
    ensures AttendHead(a, q, keys, values)[d] == Dot(w, column, |w|)
  {
    hide InOdds, ExpLaws, Dot, Mix, Weights, ExpSum, Scores;
    OddsAreWeights(a.exp, Scores(a, q, keys), w);
    OddsLength(a.exp, Scores(a, q, keys), w);
    MixIsDot(w, values, d, column);
  }

  /** Component d of query head h is the mean of component d of the values of its KV head, which serves `groups` query
      heads one after the other, under the only weights that add up to one and have the odds of the exponentials of
      the scaled products of query and keys. */
  lemma AttentionIsMean(a: Attn, q: Heads, kvs: seq<KV>, h: nat, d: nat, scores: seq<real>, w: seq<real>, column: Vec)
    requires ExpLaws(a.exp) && kvs != [] && h < a.numHeads && d < a.headDim && |scores| == |column| == |kvs|
    requires forall j :: 0 <= j < |kvs| ==>
      scores[j] == a.scale * Dot(Head(q, h), Head(kvs[j].key, h / a.groups), a.headDim)
    requires InOdds(a.exp, scores, w)
    requires forall j :: 0 <= j < |kvs| ==> column[j] == At(Head(kvs[j].value, h / a.groups), d)
    ensures SoftmaxAttend(a, q, kvs)[h][d] == Dot(w, column, |w|)
  {
    hide InOdds, ExpLaws, Dot, AttendHead, Head, Keys, Values, Scores;
    var g := h / a.groups;
    ScoresAre(a, Head(q, h), kvs, g, scores);
    HeadIsMean(a, Head(q, h), Keys(kvs, g), Values(kvs, g), d, w, column);
  }

  lemma ScoresAre(a: Attn, q: Vec, kvs: seq<KV>, g: nat, scores: seq<real>)
    requires |scores| == |kvs|
    requires forall j :: 0 <= j < |kvs| ==> scores[j] == a.scale * Dot(q, Head(kvs[j].key, g), a.headDim)
    ensures Scores(a, q, Keys(kvs, g)) == scores
    ensures forall j :: 0 <= j < |kvs| ==> Values(kvs, g)[j] == Head(kvs[j].value, g)
  {
    hide Dot;
    forall j | 0 <= j < |kvs|
      ensures Scores(a, q, Keys(kvs, g))[j] == scores[j]
    {
      assert Keys(kvs, g)[j] == Head(kvs[j].key, g);
    }
  }

  lemma OddsLength(exp: real -> real, scores: seq<real>, w: seq<real>)
    requires InOdds(exp, scores, w)
    ensures |w| == |scores|
  {
  }
}
