// What the sampling distribution is, said of the logits alone: which tokens can be drawn, and with what odds.
module SamplingLaw {
  import opened Wrappers
  import opened Reference
  import opened Distributions
  import opened Softmax
  import opened Sampling

  // The tokens with larger logits.
  ghost function Above(logits: Vec, t: nat): set<nat>
    requires t < |logits|
  {
    set s: nat | s < |logits| && logits[s] > logits[t]
  }

  // The k largest logits, with all that equal the least of them; everything when top-k is off.
  ghost function Largest(logits: Vec, topK: int): set<nat> {
    set t: nat | t < |logits| && (topK <= 0 || |Above(logits, t)| < topK)
  }

  // Those of a set that come before t, from the largest logit down, equal ones by their ids.
  ghost function Ahead(logits: Vec, among: set<nat>, t: nat): set<nat>
    requires t < |logits|
  {
    set s | s in among && s < |logits| && (logits[s] > logits[t] || (logits[s] == logits[t] && s < t))
  }

  // The weight of a set of tokens before normalisation.
  ghost function MassOf(exp: real -> real, logits: Vec, temperature: real, tokens: set<nat>): real
    requires temperature != 0.0
  {
    Sum(seq(|logits|, t requires 0 <= t < |logits| => if t in tokens then exp(logits[t] / temperature) else 0.0))
  }

  /** Of the largest logits, those with at most a share top_p of the weight before them, and always the first. */
  ghost function Nucleus(exp: real -> real, logits: Vec, params: SamplingParams): set<nat>
    requires params.temperature != 0.0
  {
    var all := Largest(logits, params.topK);
    set t | t in all && t < |logits| &&
      (params.topP >= 1.0 || Ahead(logits, all, t) == {}
       || MassOf(exp, logits, params.temperature, Ahead(logits, all, t))
          <= params.topP * MassOf(exp, logits, params.temperature, all))
  }

  // ---------- sums over sets of tokens ----------

  lemma {:induction false} SumUpdate(d: seq<real>, k: nat, x: real)
    requires k < |d|
    ensures Sum(d[k := x]) == Sum(d) - d[k] + x
  {
    var n := |d| - 1;
    if k == n {
      assert d[k := x][..n] == d[..n];
    } else {
      SumUpdate(d[..n], k, x);
      assert d[k := x][..n] == d[..n][k := x];
    }
  }

  lemma {:induction false} SumZeros(d: seq<real>)
    requires forall t :: 0 <= t < |d| ==> d[t] == 0.0
    ensures Sum(d) == 0.0
  {
    if d != [] {
      SumZeros(d[..|d| - 1]);
    }
  }

  // The entries whose index is in the set, and 0 elsewhere.
  ghost function Only(d: seq<real>, chosen: set<nat>): (e: seq<real>)
    ensures |e| == |d|
  {
    seq(|d|, t requires 0 <= t < |d| => if t in chosen then d[t] else 0.0)
  }

  // A sum along distinct indices is the sum over the set of them.
  lemma {:induction false} SumAlong(d: seq<real>, order: seq<nat>, e: seq<real>)
    requires NoDup(order) && |e| == |order|
    requires forall j :: 0 <= j < |order| ==> order[j] < |d| && e[j] == d[order[j]]
    ensures Sum(e) == Sum(Only(d, Elems(order)))
  {
    if order == [] {
      SumZeros(Only(d, Elems(order)));
    } else {
      var n := |order| - 1;
      var before, k := order[..n], order[n];
      SumAlong(d, before, e[..n]);
      PopLast(order);
      assert k !in Elems(before);
      SumUpdate(Only(d, Elems(before)), k, d[k]);
      assert Only(d, Elems(before))[k := d[k]] == Only(d, Elems(order));
    }
  }

  // ---------- top-k ----------

  lemma QuotientOrder(a: real, b: real, t: real)
    requires t > 0.0
    ensures a / t <= b / t <==> a <= b
  {
    assert a == (a / t) * t && b == (b / t) * t;
    if a / t <= b / t {
      assert (b / t - a / t) * t >= 0.0;
    } else {
      assert (a / t - b / t) * t > 0.0;
    }
  }

  lemma ScoresOrder(logits: Vec, temperature: real, s: nat, t: nat)
    requires temperature > 0.0 && s < |logits| && t < |logits|
    ensures AtMost(Sampling.Scores(logits, temperature)[s], Sampling.Scores(logits, temperature)[t]) <==>
      logits[s] <= logits[t]
  {
    QuotientOrder(logits[s], logits[t], temperature);
  }

  lemma SubsetCount(a: set<nat>, b: set<nat>)
    requires a <= b
    ensures |a| <= |b|
  {
    assert b == a + (b - a);
  }

  // In a descending order, what is at least the k-th has fewer than k above it, and the rest has at least k.
  lemma AboveCount(logits: Vec, temperature: real, order: seq<nat>, k: nat, t: nat)
    requires temperature > 0.0 && SortOrder(Sampling.Scores(logits, temperature), order)
    requires 0 < k <= |logits| && t < |logits|
    ensures logits[order[k - 1]] <= logits[t] ==> |Above(logits, t)| < k
    ensures logits[order[k - 1]] > logits[t] ==> |Above(logits, t)| >= k && k < |logits|
  {
    var scores := Sampling.Scores(logits, temperature);
    forall i, j | 0 <= i < j < |order|
      ensures logits[order[j]] <= logits[order[i]]
    {
      assert AtMost(scores[order[j]], scores[order[i]]);
      ScoresOrder(logits, temperature, order[j], order[i]);
    }
    if logits[order[k - 1]] <= logits[t] {
      AboveFew(logits, order, k, t);
    } else {
      AboveMany(logits, order, k, t);
    }
  }

  lemma AboveFew(logits: Vec, order: seq<nat>, k: nat, t: nat)
    requires |order| == |logits| && NoDup(order) && (forall s: nat :: s < |logits| ==> s in order)
    requires forall j :: 0 <= j < |order| ==> order[j] < |logits|
    requires forall i, j :: 0 <= i < j < |order| ==> logits[order[j]] <= logits[order[i]]
    requires 0 < k <= |logits| && t < |logits| && logits[order[k - 1]] <= logits[t]
    ensures |Above(logits, t)| < k
  {
    forall s | s in Above(logits, t)
      ensures s in Elems(order[..k - 1])
    {
      assert s in order;
      var j :| 0 <= j < |order| && order[j] == s;
      assert j < k - 1;
      assert order[..k - 1][j] == s;
    }
    ElemsCount(order[..k - 1]);
    SubsetCount(Above(logits, t), Elems(order[..k - 1]));
  }

  lemma AboveMany(logits: Vec, order: seq<nat>, k: nat, t: nat)
    requires |order| == |logits| && NoDup(order) && (forall s: nat :: s < |logits| ==> s in order)
    requires forall j :: 0 <= j < |order| ==> order[j] < |logits|
    requires forall i, j :: 0 <= i < j < |order| ==> logits[order[j]] <= logits[order[i]]
    requires 0 < k <= |logits| && t < |logits| && logits[order[k - 1]] > logits[t]
    ensures |Above(logits, t)| >= k && k < |logits|
  {
    forall s | s in Elems(order[..k])
      ensures s in Above(logits, t)
    {
      var j :| 0 <= j < k && order[..k][j] == s;
      assert order[j] == s;
    }
    ElemsCount(order[..k]);
    SubsetCount(Elems(order[..k]), Above(logits, t));
    assert t in order;
    var j :| 0 <= j < |order| && order[j] == t;
    assert j > k - 1;
  }

  // The scores that top-k leaves are those of the largest logits.
  lemma TopKIsLargest(logits: Vec, temperature: real, topK: int, t: nat)
    requires temperature > 0.0 && t < |logits|
    ensures TopK(Sampling.Scores(logits, temperature), topK)[t] ==
      if t in Largest(logits, topK) then Fin(logits[t] / temperature) else NegInf
  {
    hide Above, TopK;
    var scores := Sampling.Scores(logits, temperature);
    if topK > 0 {
      TopKKeepsLargest(scores, topK);
      var order, k := SortIndices(scores), if topK < |scores| then topK else |scores|;
      AboveCount(logits, temperature, order, k, t);
      ScoresOrder(logits, temperature, order[k - 1], t);
    } else {
      assert TopK(scores, topK) == scores by { NoTopK(scores, topK); }
    }
  }

  lemma NoTopK(scores: seq<Score>, topK: int)
    requires topK <= 0
    ensures TopK(scores, topK) == scores
  {
  }

  // ---------- top-p ----------

  // What top-k leaves, of a non-empty vocabulary.
  ghost predicate Left(logits: Vec, temperature: real, all: set<nat>, kept: seq<Score>) {
    && temperature > 0.0 && |kept| == |logits|
    && forall t: nat :: t < |logits| ==> kept[t] == if t in all then Fin(logits[t] / temperature) else NegInf
  }

  // The tokens sorted before t are those ahead of it.
  lemma SortedAhead(logits: Vec, temperature: real, all: set<nat>, kept: seq<Score>, j: nat)
    requires Left(logits, temperature, all, kept) && j < |SortIndices(kept)|
    ensures SortOrder(kept, SortIndices(kept))
    ensures var order := SortIndices(kept);
      order[j] in all ==> Elems(order[..j]) == Ahead(logits, all, order[j])
  {
    hide SortIndices, SortOrder;
    var order := SortIndices(kept);
    SortIndicesOrders(kept);
    OrderFacts(kept, order);
    SortIndicesSorted(kept);
    var t := order[j];
    if t in all {
      forall s | s in Elems(order[..j])
        ensures s in Ahead(logits, all, t)
      {
        var i :| 0 <= i < j && order[..j][i] == s;
        assert order[i] == s && Descending(kept)(s, t) && s != t;
        QuotientOrder(logits[t], logits[s], temperature);
        QuotientOrder(logits[s], logits[t], temperature);
      }
      forall s | s in Ahead(logits, all, t)
        ensures s in Elems(order[..j])
      {
        assert s in order;
        var i :| 0 <= i < |order| && order[i] == s;
        QuotientOrder(logits[s], logits[t], temperature);
        QuotientOrder(logits[t], logits[s], temperature);
        assert i < j;
        assert order[..j][i] == s;
      }
    }
  }

  lemma OrderFacts(kept: seq<Score>, order: seq<nat>)
    requires SortOrder(kept, order)
    ensures |order| == |kept| && NoDup(order)
    ensures forall j :: 0 <= j < |order| ==> order[j] < |kept|
    ensures forall t: nat :: t < |kept| ==> t in order
  {
  }

  lemma SortIndicesSorted(kept: seq<Score>)
    ensures SortedBy(SortIndices(kept), Descending(kept))
  {
    assert Ordering(Descending(kept));
    SortBySorts(Upto(|kept|), Descending(kept));
  }

  // The weight along the first j sorted tokens.
  lemma MassAlong(exp: real -> real, logits: Vec, temperature: real, all: set<nat>, kept: seq<Score>, order: seq<nat>,
                  j: nat)
    requires Left(logits, temperature, all, kept) && SortOrder(kept, order) && j <= |order|
    ensures Sum(Masses(exp, Sorted(kept, order))[..j])
         == MassOf(exp, logits, temperature, all * Elems(order[..j]))
  {
    hide SortOrder, Elems;
    OrderFacts(kept, order);
    var d, some := Masses(exp, kept), Elems(order[..j]);
    SumAlong(d, order[..j], Masses(exp, Sorted(kept, order))[..j]);
    OnlyMasses(exp, logits, temperature, all, kept, some);
  }

  lemma OnlyMasses(exp: real -> real, logits: Vec, temperature: real, all: set<nat>, kept: seq<Score>, some: set<nat>)
    requires Left(logits, temperature, all, kept)
    ensures Sum(Only(Masses(exp, kept), some)) == MassOf(exp, logits, temperature, all * some)
  {
    var tokens := all * some;
    assert Only(Masses(exp, kept), some) ==
      seq(|logits|, t requires 0 <= t < |logits| => if t in tokens then exp(logits[t] / temperature) else 0.0);
  }

  lemma SharePrefix(d: seq<real>, z: real, j: nat)
    requires z > 0.0 && j <= |d|
    ensures Sum(Divide(d, z)[..j]) * z == Sum(d[..j])
  {
    forall t | 0 <= t < j
      ensures d[..j][t] == Divide(d, z)[..j][t] * z
    {
    }
    SumScaled(Divide(d, z)[..j], d[..j], z);
  }

  lemma ShareAtMost(share: real, z: real, mass: real, p: real)
    requires z > 0.0 && share * z == mass
    ensures share <= p <==> mass <= p * z
  {
    if share <= p {
      assert (p - share) * z >= 0.0;
    } else {
      assert (share - p) * z > 0.0;
    }
  }

  // The share of the weight before sorted position j.
  lemma ShareAhead(exp: real -> real, logits: Vec, temperature: real, all: set<nat>, kept: seq<Score>, topP: real,
                   j: nat)
    requires ExpLaws(exp) && Left(logits, temperature, all, kept) && SomeFinite(kept)
    requires j < |SortIndices(kept)| && SortOrder(kept, SortIndices(kept)) && SortIndices(kept)[j] in all
    ensures SomeFinite(Sorted(kept, SortIndices(kept))) && Sum(Masses(exp, Sorted(kept, SortIndices(kept)))) > 0.0
    ensures var order := SortIndices(kept); var d := Masses(exp, Sorted(kept, order));
      var ahead := Ahead(logits, all, order[j]);
      && (Sum(Divide(d, Sum(d))[..j]) <= topP <==>
            MassOf(exp, logits, temperature, ahead) <= topP * MassOf(exp, logits, temperature, all))
      && (j == 0 <==> ahead == {})
  {
    hide SortIndices, Ahead, ExpLaws, MassOf, SomeFinite, Masses, Divide, Elems;
    var order := SortIndices(kept);
    OrderFacts(kept, order);
    hide SortOrder;
    SortedAhead(logits, temperature, all, kept, j);
    SortedSomeFinite(kept, order);
    var d, t := Masses(exp, Sorted(kept, order)), order[j];
    MassesPositive(exp, Sorted(kept, order));
    MassAlong(exp, logits, temperature, all, kept, order, j);
    MassAlong(exp, logits, temperature, all, kept, order, |order|);
    assert order[..|order|] == order && d[..|d|] == d;
    AheadWithin(logits, all, t);
    assert all * Elems(order[..j]) == Ahead(logits, all, t);
    SameMass(exp, logits, temperature, all, order);
    SharePrefix(d, Sum(d), j);
    ShareAtMost(Sum(Divide(d, Sum(d))[..j]), Sum(d), Sum(d[..j]), topP);
    EmptyPrefix(order, j);
  }

  /** Top-p leaves a token exactly when it is the first, or the tokens ahead of it have at most a share top_p of the
      weight. */
  lemma TopPIsNucleus(exp: real -> real, logits: Vec, temperature: real, all: set<nat>, kept: seq<Score>, topP: real,
                      t: nat)
    requires ExpLaws(exp) && Left(logits, temperature, all, kept) && SomeFinite(kept) && t in all && t < |logits|
    ensures SortOrder(kept, SortIndices(kept))
    ensures TopPWith(exp, kept, topP, SortIndices(kept))[t] ==
      if Ahead(logits, all, t) == {}
         || MassOf(exp, logits, temperature, Ahead(logits, all, t)) <= topP * MassOf(exp, logits, temperature, all)
      then Fin(logits[t] / temperature) else NegInf
  {
    hide SortIndices, SortOrder, Ahead, ExpLaws, MassOf, SomeFinite, TopPWith, Masses, Sorted, Divide;
    SortIndicesOrders(kept);
    var order := SortIndices(kept);
    OrderFacts(kept, order);
    assert t in order;
    var j :| 0 <= j < |order| && order[j] == t;
    ShareAhead(exp, logits, temperature, all, kept, topP, j);
    TopPAt(exp, kept, topP, order, j);
  }

  lemma EmptyPrefix(order: seq<nat>, j: nat)
    requires j <= |order|
    ensures j == 0 <==> Elems(order[..j]) == {}
  {
    if j > 0 {
      assert order[..j][0] in Elems(order[..j]);
    }
  }

  lemma AheadWithin(logits: Vec, all: set<nat>, t: nat)
    requires t < |logits|
    ensures Ahead(logits, all, t) <= all
  {
  }

  lemma SameMass(exp: real -> real, logits: Vec, temperature: real, all: set<nat>, order: seq<nat>)
    requires temperature != 0.0 && forall t: nat :: t < |logits| ==> t in order
    ensures MassOf(exp, logits, temperature, all * Elems(order)) == MassOf(exp, logits, temperature, all)
  {
    var tokens := all * Elems(order);
    forall t: nat | t < |logits|
      ensures t in tokens <==> t in all
    {
    }
    assert seq(|logits|, t requires 0 <= t < |logits| => if t in tokens then exp(logits[t] / temperature) else 0.0) ==
      seq(|logits|, t requires 0 <= t < |logits| => if t in all then exp(logits[t] / temperature) else 0.0);
  }

  // The token at sorted position j goes exactly when it is not the first and more than top_p comes before it.
  lemma TopPAt(exp: real -> real, kept: seq<Score>, topP: real, order: seq<nat>, j: nat)
    requires ExpLaws(exp) && SomeFinite(kept) && SortOrder(kept, order) && j < |order|
    ensures SomeFinite(Sorted(kept, order)) && Sum(Masses(exp, Sorted(kept, order))) > 0.0
    ensures var d := Masses(exp, Sorted(kept, order));
      TopPWith(exp, kept, topP, order)[order[j]] ==
        if j == 0 || Sum(Divide(d, Sum(d))[..j]) <= topP then kept[order[j]] else NegInf
  {
    hide ExpLaws, SomeFinite;
    SortedSomeFinite(kept, order);
    MassesPositive(exp, Sorted(kept, order));
    var probs := SoftmaxOf(exp, Sorted(kept, order));
    ScatterFlagsAt(Removed(probs, topP), order, Removed(probs, topP), |order|);
    CumulativeBefore(probs, j);
  }

  // ---------- the distribution ----------

  // After both filters exactly the nucleus is left.
  lemma FilterIsNucleus(exp: real -> real, logits: Vec, params: SamplingParams, t: nat)
    requires ExpLaws(exp) && params.temperature > 0.0 && t < |logits|
    ensures Filter(exp, Sampling.Scores(logits, params.temperature), params.topK, params.topP)[t] ==
      if t in Nucleus(exp, logits, params) then Fin(logits[t] / params.temperature) else NegInf
  {
    hide Largest, Ahead, MassOf, TopK, TopPWith, SortIndices, SortOrder;
    var scores, all := Sampling.Scores(logits, params.temperature), Largest(logits, params.topK);
    var kept := TopK(scores, params.topK);
    TopKSomeFinite(scores, params.topK);
    forall s: nat | s < |logits|
      ensures kept[s] == if s in all then Fin(logits[s] / params.temperature) else NegInf
    {
      TopKIsLargest(logits, params.temperature, params.topK, s);
    }
    if params.topP < 1.0 {
      SortIndicesOrders(kept);
      if t in all {
        TopPIsNucleus(exp, logits, params.temperature, all, kept, params.topP, t);
      } else {
        StaysOut(exp, kept, params.topP, SortIndices(kept), t);
      }
    }
  }

  lemma StaysOut(exp: real -> real, kept: seq<Score>, topP: real, order: seq<nat>, t: nat)
    requires ExpLaws(exp) && SomeFinite(kept) && SortOrder(kept, order) && t < |kept| && kept[t].NegInf?
    ensures TopPWith(exp, kept, topP, order)[t].NegInf?
  {
  }

  /** The sampling distribution, for every temperature above zero, top-k and top-p: a token of the nucleus has the
      probability that its exponential of logit over temperature has among the nucleus, and no other has any. */
  lemma ProbsAre(exp: real -> real, logits: Vec, params: SamplingParams, t: nat)
    requires ExpLaws(exp) && params.temperature > 0.0 && t < |logits|
    ensures var nucleus := Nucleus(exp, logits, params);
      var mass := MassOf(exp, logits, params.temperature, nucleus);
      && mass > 0.0
      && LogitsToProbs(exp, logits, params)[t] ==
        (if t in nucleus then exp(logits[t] / params.temperature) / mass else 0.0)
  {
    hide Nucleus, Filter, ExpLaws, SomeFinite;
    var scores, nucleus := Sampling.Scores(logits, params.temperature), Nucleus(exp, logits, params);
    FilterSomeFinite(exp, scores, params.topK, params.topP);
    var filtered := Filter(exp, scores, params.topK, params.topP);
    forall s: nat | s < |logits|
      ensures filtered[s] == if s in nucleus then Fin(logits[s] / params.temperature) else NegInf
    {
      FilterIsNucleus(exp, logits, params, s);
    }
    MassesPositive(exp, filtered);
    assert Masses(exp, filtered) == seq(|logits|, s requires 0 <= s < |logits| =>
      if s in nucleus then exp(logits[s] / params.temperature) else 0.0);
  }

  /** A token can be drawn exactly when it is in the nucleus of the largest logits; and two that can be drawn have the
      odds of their exponentials. */
  lemma DrawnFromNucleus(exp: real -> real, logits: Vec, params: SamplingParams, s: nat, t: nat)
    requires ExpLaws(exp) && params.temperature > 0.0 && s < |logits| && t < |logits|
    ensures var probs, nucleus := LogitsToProbs(exp, logits, params), Nucleus(exp, logits, params);
      && (probs[t] > 0.0 <==> t in nucleus)
      && (s in nucleus && t in nucleus ==>
            probs[s] * exp(logits[t] / params.temperature) == probs[t] * exp(logits[s] / params.temperature))
  {
    hide Nucleus, LogitsToProbs, MassOf;
    ProbsAre(exp, logits, params, s);
    ProbsAre(exp, logits, params, t);
    var mass := MassOf(exp, logits, params.temperature, Nucleus(exp, logits, params));
    var x, y := exp(logits[s] / params.temperature), exp(logits[t] / params.temperature);
    ExpPositive(exp, logits[t] / params.temperature);
    assert y / mass > 0.0;
    assert (x / mass) * y == (y / mass) * x by { SwapQuotient(x, y, mass); }
  }

  // Greedy sampling is certain of the first of the largest logits.
  lemma GreedyIsCertain(exp: real -> real, logits: Vec, params: SamplingParams, t: nat)
    requires params.temperature <= 0.0 && t < |logits|
    ensures LogitsToProbs(exp, logits, params)[t] ==
      if Above(logits, t) == {} && (forall s :: 0 <= s < t ==> logits[s] < logits[t]) then 1.0 else 0.0
  {
    ArgMaxIsFirstMaximum(logits);
    var k := ArgMax(logits);
    if t == k {
      assert Above(logits, t) == {};
    } else if t < k {
      assert k in Above(logits, t);
    }
  }

  lemma SwapQuotient(x: real, y: real, z: real)
    requires z > 0.0
    ensures (x / z) * y == (y / z) * x
  {
    assert (x / z) * y == (x * y) / z;
    assert (y / z) * x == (y * x) / z;
  }
}
