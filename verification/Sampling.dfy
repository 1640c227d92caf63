// From logits to the distribution tokens are drawn from: top-k and top-p filtering, then softmax.
module Sampling {
  import opened Wrappers
  import opened Reference
  import opened Distributions
  import opened Softmax

  datatype SamplingParams = SamplingParams(temperature: real, topP: real, topK: int) {
    predicate Greedy() {
      temperature <= 0.0
    }
  }

  predicate AtMost(a: Score, b: Score) {
    a.NegInf? || (b.Fin? && a.value <= b.value)
  }

  function ScoreAt(logits: seq<Score>, i: nat): Score {
    if i < |logits| then logits[i] else NegInf
  }

  // ---------- a descending order of the vocabulary ----------

  // Larger first; equal ones in the order of their ids.
  function Descending(logits: seq<Score>): (nat, nat) -> bool {
    (i: nat, j: nat) =>
      AtMost(ScoreAt(logits, j), ScoreAt(logits, i)) && (AtMost(ScoreAt(logits, i), ScoreAt(logits, j)) ==> i <= j)
  }

  // Any permutation of the vocabulary that lists the logits from largest to smallest.
  ghost predicate SortOrder(logits: seq<Score>, order: seq<nat>) {
    && |order| == |logits| && NoDup(order)
    && (forall j :: 0 <= j < |order| ==> order[j] < |logits|)
    && (forall t: nat :: t < |logits| ==> t in order)
    && (forall i, j :: 0 <= i < j < |order| ==> AtMost(logits[order[j]], logits[order[i]]))
  }

  function Upto(n: nat): (s: seq<nat>)
    ensures |s| == n
  {
    seq(n, i requires i >= 0 => i)
  }

  function SortIndices(logits: seq<Score>): seq<nat> {
    SortBy(Upto(|logits|), Descending(logits))
  }

  lemma SortIndicesOrders(logits: seq<Score>)
    ensures SortOrder(logits, SortIndices(logits))
  {
    var all := Upto(|logits|);
    var le := Descending(logits);
    var order := SortIndices(logits);
    assert Ordering(le);
    SortBySorts(all, le);
    NoDupMultiset(all);
    NoDupMultiset(order);
    forall t: nat
      ensures t in order <==> t < |logits|
    {
      assert t < |logits| ==> all[t] == t;
      assert t in order <==> t in multiset(order);
      assert t in all <==> t in multiset(all);
    }
    forall j | 0 <= j < |order|
      ensures order[j] < |logits|
    {
      assert order[j] in order;
    }
    forall i, j | 0 <= i < j < |order|
      ensures AtMost(logits[order[j]], logits[order[i]])
    {
      assert le(order[i], order[j]);
    }
  }

  // ---------- softmax over scores ----------

  function Mass(exp: real -> real, s: Score): real {
    if s.NegInf? then 0.0 else exp(s.value)
  }

  function Masses(exp: real -> real, scores: seq<Score>): (m: seq<real>)
    ensures |m| == |scores|
  {
    seq(|scores|, t requires 0 <= t < |scores| => Mass(exp, scores[t]))
  }

  ghost predicate SomeFinite(scores: seq<Score>) {
    exists t :: 0 <= t < |scores| && scores[t].Fin?
  }

  lemma MassesPositive(exp: real -> real, scores: seq<Score>)
    requires ExpLaws(exp)
    ensures NonNegative(Masses(exp, scores))
    ensures SomeFinite(scores) ==> Sum(Masses(exp, scores)) > 0.0
  {
    forall t | 0 <= t < |scores|
      ensures Masses(exp, scores)[t] >= 0.0
      ensures scores[t].Fin? ==> Masses(exp, scores)[t] > 0.0
    {
      if scores[t].Fin? {
        ExpPositive(exp, scores[t].value);
      }
    }
    SumNonNegative(Masses(exp, scores));
  }

  function SoftmaxOf(exp: real -> real, scores: seq<Score>): (probs: seq<real>)
    requires ExpLaws(exp) && SomeFinite(scores)
    ensures |probs| == |scores|
  {
    MassesPositive(exp, scores);
    Divide(Masses(exp, scores), Sum(Masses(exp, scores)))
  }

  lemma SoftmaxIsDistribution(exp: real -> real, scores: seq<Score>)
    requires ExpLaws(exp) && SomeFinite(scores)
    ensures Distribution(SoftmaxOf(exp, scores))
    ensures forall t :: 0 <= t < |scores| ==> (SoftmaxOf(exp, scores)[t] > 0.0 <==> scores[t].Fin?)
  {
    MassesPositive(exp, scores);
    DivideSums(Masses(exp, scores));
    var z := Sum(Masses(exp, scores));
    forall t | 0 <= t < |scores|
      ensures SoftmaxOf(exp, scores)[t] > 0.0 <==> scores[t].Fin?
    {
      if scores[t].Fin? {
        ExpPositive(exp, scores[t].value);
      }
    }
  }

  // ---------- filtering ----------

  function MaskFill(scores: seq<Score>, mask: seq<bool>): (out: seq<Score>)
    requires |mask| == |scores|
    ensures |out| == |scores|
  {
    seq(|scores|, t requires 0 <= t < |scores| => if mask[t] then NegInf else scores[t])
  }

  // Everything strictly below the k-th largest logit goes; ties with it stay.
  function TopK(logits: seq<Score>, topK: int): (out: seq<Score>)
    ensures |out| == |logits|
  {
    if topK <= 0 || logits == [] then logits
    else
      var k := if topK < |logits| then topK else |logits|;
      var order := SortIndices(logits);
      var kth := ScoreAt(logits, if k - 1 < |order| then order[k - 1] else 0);
      MaskFill(logits, seq(|logits|, t requires 0 <= t < |logits| => !AtMost(kth, logits[t])))
  }

  function Sorted(logits: seq<Score>, order: seq<nat>): (out: seq<Score>)
    requires forall j :: 0 <= j < |order| ==> order[j] < |logits|
    ensures |out| == |order|
  {
    seq(|order|, j requires 0 <= j < |order| => logits[order[j]])
  }

  // Cumulative sums, the entry itself included.
  function Cumulative(d: seq<real>): (c: seq<real>)
    ensures |c| == |d|
  {
    seq(|d|, j requires 0 <= j < |d| => Sum(d[..j + 1]))
  }

  // Which sorted positions go: those already past top_p before their own mass, never the first.
  function Removed(probs: seq<real>, topP: real): (remove: seq<bool>)
    ensures |remove| == |probs|
  {
    seq(|probs|, j requires 0 <= j < |probs| => j > 0 && Cumulative(probs)[j] - probs[j] > topP)
  }

  // remove.scatter(order, remove): position order[j] receives flag j; later writes win.
  function ScatterFlags(flags: seq<bool>, order: seq<nat>, values: seq<bool>, n: nat): (out: seq<bool>)
    requires n <= |order| && |order| == |values| && forall j :: 0 <= j < |order| ==> order[j] < |flags|
    ensures |out| == |flags|
  {
    if n == 0 then flags else ScatterFlags(flags, order, values, n - 1)[order[n - 1] := values[n - 1]]
  }

  function TopPWith(exp: real -> real, logits: seq<Score>, topP: real, order: seq<nat>): (out: seq<Score>)
    requires ExpLaws(exp) && SomeFinite(logits) && SortOrder(logits, order)
    ensures |out| == |logits|
  {
    SortedSomeFinite(logits, order);
    var probs := SoftmaxOf(exp, Sorted(logits, order));
    var remove := Removed(probs, topP);
    MaskFill(logits, ScatterFlags(remove, order, remove, |order|))
  }

  lemma SortedSomeFinite(logits: seq<Score>, order: seq<nat>)
    requires SomeFinite(logits) && SortOrder(logits, order)
    ensures SomeFinite(Sorted(logits, order))
  {
    var t: nat :| t < |logits| && logits[t].Fin?;
    assert t in order;
    var j :| 0 <= j < |order| && order[j] == t;
    assert Sorted(logits, order)[j].Fin?;
  }

  // ---------- what the filters keep ----------

  lemma {:induction false} ScatterFlagsAt(flags: seq<bool>, order: seq<nat>, values: seq<bool>, n: nat)
    requires n <= |order| && |order| == |values| && forall j :: 0 <= j < |order| ==> order[j] < |flags|
    requires NoDup(order)
    ensures forall j :: 0 <= j < n ==> ScatterFlags(flags, order, values, n)[order[j]] == values[j]
  {
    if n > 0 {
      ScatterFlagsAt(flags, order, values, n - 1);
    }
  }

  lemma CumulativeBefore(probs: seq<real>, j: nat)
    requires j < |probs|
    ensures Cumulative(probs)[j] - probs[j] == Sum(probs[..j])
  {
    assert probs[..j + 1][..j] == probs[..j];
  }

  lemma {:induction false} PrefixSumsGrow(probs: seq<real>, i: nat, j: nat)
    requires NonNegative(probs) && i <= j <= |probs|
    ensures Sum(probs[..i]) <= Sum(probs[..j])
    decreases j - i
  {
    if i < j {
      PrefixSumsGrow(probs, i, j - 1);
      assert probs[..j][..j - 1] == probs[..j - 1];
    }
  }

  /** How many sorted positions top-p keeps: a non-empty prefix whose mass reaches top_p, and would not
      exceed it without its last member. */
  lemma {:induction false} RemovedIsSuffix(probs: seq<real>, topP: real) returns (n: nat)
    requires Distribution(probs) && 0.0 < topP <= 1.0
    ensures 0 < n <= |probs|
    ensures forall j :: 0 <= j < |probs| ==> (Removed(probs, topP)[j] <==> j >= n)
    ensures Sum(probs[..n]) >= topP
    ensures Sum(probs[..n - 1]) <= topP
  {
    assert probs != [];
    n := 1;
    assert probs[..0] == [];
    while n < |probs| && Sum(probs[..n]) <= topP
      invariant 0 < n <= |probs|
      invariant Sum(probs[..n - 1]) <= topP
    {
      n := n + 1;
    }
    assert n == |probs| ==> probs[..n] == probs;
    forall j | 0 <= j < |probs|
      ensures Removed(probs, topP)[j] <==> j >= n
    {
      CumulativeBefore(probs, j);
      if j < n {
        PrefixSumsGrow(probs, j, n - 1);
      } else {
        PrefixSumsGrow(probs, n, j);
      }
    }
  }

  /** Top-p filtering, for any descending order of the vocabulary: exactly the tokens of a non-empty prefix
      of the order survive, each flag having reached its own token; that prefix has mass at least top_p
      before filtering, and at most top_p without its last member. */
  lemma TopPKeepsNucleus(exp: real -> real, logits: seq<Score>, topP: real, order: seq<nat>) returns (n: nat)
    requires ExpLaws(exp) && SomeFinite(logits) && SortOrder(logits, order) && 0.0 < topP <= 1.0
    ensures 0 < n <= |order|
    ensures forall j :: 0 <= j < |order| ==>
      TopPWith(exp, logits, topP, order)[order[j]] == if j < n then logits[order[j]] else NegInf
    ensures SomeFinite(Sorted(logits, order))
    ensures Sum(SoftmaxOf(exp, Sorted(logits, order))[..n]) >= topP
    ensures Sum(SoftmaxOf(exp, Sorted(logits, order))[..n - 1]) <= topP
  {
    SortedSomeFinite(logits, order);
    var sorted := Sorted(logits, order);
    var probs := SoftmaxOf(exp, sorted);
    SoftmaxIsDistribution(exp, sorted);
    n := RemovedIsSuffix(probs, topP);
    var remove := Removed(probs, topP);
    ScatterFlagsAt(remove, order, remove, |order|);
  }

  lemma TopIsFinite(logits: seq<Score>, order: seq<nat>)
    requires SomeFinite(logits) && SortOrder(logits, order)
    ensures |order| > 0 && logits[order[0]].Fin?
  {
    var t: nat :| t < |logits| && logits[t].Fin?;
    assert t in order;
    var j :| 0 <= j < |order| && order[j] == t;
    assert j > 0 ==> AtMost(logits[order[j]], logits[order[0]]);
  }

  // Whatever top_p is, the largest logit stays.
  lemma TopPKeepsTop(exp: real -> real, logits: seq<Score>, topP: real, order: seq<nat>)
    requires ExpLaws(exp) && SomeFinite(logits) && SortOrder(logits, order)
    ensures |order| > 0 && TopPWith(exp, logits, topP, order)[order[0]] == logits[order[0]]
    ensures SomeFinite(TopPWith(exp, logits, topP, order))
  {
    SortedSomeFinite(logits, order);
    TopIsFinite(logits, order);
    var remove := Removed(SoftmaxOf(exp, Sorted(logits, order)), topP);
    ScatterFlagsAt(remove, order, remove, |order|);
    assert TopPWith(exp, logits, topP, order)[order[0]].Fin?;
  }

  // Top-k keeps at least the k largest, and nothing below the k-th.
  lemma TopKKeepsLargest(logits: seq<Score>, topK: int)
    requires topK > 0 && logits != []
    ensures var order, k := SortIndices(logits), if topK < |logits| then topK else |logits|;
      && SortOrder(logits, order)
      && (forall j :: 0 <= j < k ==> TopK(logits, topK)[order[j]] == logits[order[j]])
      && (forall t :: 0 <= t < |logits| ==>
            TopK(logits, topK)[t] == if AtMost(logits[order[k - 1]], logits[t]) then logits[t] else NegInf)
  {
    SortIndicesOrders(logits);
    var order, k := SortIndices(logits), if topK < |logits| then topK else |logits|;
    forall j | 0 <= j < k
      ensures AtMost(logits[order[k - 1]], logits[order[j]])
    {
      assert j < k - 1 ==> AtMost(logits[order[k - 1]], logits[order[j]]);
    }
  }

  lemma TopKSomeFinite(logits: seq<Score>, topK: int)
    requires SomeFinite(logits)
    ensures SomeFinite(TopK(logits, topK))
  {
    if topK > 0 {
      TopKKeepsLargest(logits, topK);
      TopIsFinite(logits, SortIndices(logits));
      assert TopK(logits, topK)[SortIndices(logits)[0]].Fin?;
    }
  }

  // Masking keeps the relative odds of the tokens it leaves.
  lemma OddsKept(exp: real -> real, scores: seq<Score>, filtered: seq<Score>, s: nat, t: nat)
    requires ExpLaws(exp) && SomeFinite(scores) && SomeFinite(filtered) && |filtered| == |scores|
    requires s < |scores| && t < |scores| && filtered[s] == scores[s] && filtered[t] == scores[t]
    ensures SoftmaxOf(exp, filtered)[s] * SoftmaxOf(exp, scores)[t] ==
      SoftmaxOf(exp, filtered)[t] * SoftmaxOf(exp, scores)[s]
  {
    MassesPositive(exp, scores);
    MassesPositive(exp, filtered);
    var x, y := Mass(exp, scores[s]), Mass(exp, scores[t]);
    var z, z' := Sum(Masses(exp, scores)), Sum(Masses(exp, filtered));
    CrossQuotient(x, y, z, z');
  }

  lemma CrossQuotient(x: real, y: real, z: real, z': real)
    requires z > 0.0 && z' > 0.0
    ensures (x / z') * (y / z) == (y / z') * (x / z)
  {
    assert (x / z') * (y / z) == (x * y) / (z' * z);
    assert (y / z') * (x / z) == (y * x) / (z' * z);
  }

  // ---------- the sampling distribution ----------

  function Filter(exp: real -> real, logits: seq<Score>, topK: int, topP: real): (out: seq<Score>)
    requires ExpLaws(exp) && SomeFinite(logits)
    ensures |out| == |logits|
  {
    TopKSomeFinite(logits, topK);
    var kept := TopK(logits, topK);
    if topP < 1.0 then SortIndicesOrders(kept); TopPWith(exp, kept, topP, SortIndices(kept))
    else kept
  }

  function Scores(logits: Vec, temperature: real): (scores: seq<Score>)
    requires temperature != 0.0
    ensures |scores| == |logits|
    ensures logits != [] ==> SomeFinite(scores)
  {
    var scores := seq(|logits|, t requires 0 <= t < |logits| => Fin(logits[t] / temperature));
    assert logits != [] ==> scores[0].Fin?;
    scores
  }

  lemma FilterSomeFinite(exp: real -> real, logits: seq<Score>, topK: int, topP: real)
    requires ExpLaws(exp) && SomeFinite(logits)
    ensures SomeFinite(Filter(exp, logits, topK, topP))
  {
    TopKSomeFinite(logits, topK);
    var kept := TopK(logits, topK);
    if topP < 1.0 {
      SortIndicesOrders(kept);
      TopPKeepsTop(exp, kept, topP, SortIndices(kept));
    }
  }

  /** The distribution tokens are drawn from: one-hot at the argmax when greedy, otherwise the softmax of
      the filtered, temperature-scaled logits. */
  function LogitsToProbs(exp: real -> real, logits: Vec, params: SamplingParams): (probs: seq<real>)
    requires logits != [] && (params.Greedy() || ExpLaws(exp))
    ensures |probs| == |logits|
  {
    if params.Greedy() then OneHot(|logits|, ArgMax(logits))
    else
      var scores := Scores(logits, params.temperature);
      FilterSomeFinite(exp, scores, params.topK, params.topP);
      SoftmaxOf(exp, Filter(exp, scores, params.topK, params.topP))
  }

  lemma LogitsToProbsIsDistribution(exp: real -> real, logits: Vec, params: SamplingParams)
    requires logits != [] && (params.Greedy() || ExpLaws(exp))
    ensures Distribution(LogitsToProbs(exp, logits, params))
  {
    if params.Greedy() {
      OneHotSum(|logits|, ArgMax(logits));
    } else {
      var scores := Scores(logits, params.temperature);
      FilterSomeFinite(exp, scores, params.topK, params.topP);
      SoftmaxIsDistribution(exp, Filter(exp, scores, params.topK, params.topP));
    }
  }
}
