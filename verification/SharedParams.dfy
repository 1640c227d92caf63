// The whole batch is sampled with the parameters of its first request: what that means for a greedy
// request further back.
module SharedParams {
  import opened Wrappers
  import opened Reference
  import opened Softmax
  import opened Distributions
  import opened Sampling
  import opened Chance
  import opened Decoding
  import opened RaggedForward
  import opened SchedulerState
  import opened SchedulerInvariant
  import opened SchedulerStep
  import opened SchedulerBatch
  import opened SchedulerRuns
  import opened SchedulerBudget

  // ---------- top_p of at most zero leaves one token ----------

  // Whichever way ties are ordered, the first of the order stays and nothing else.
  lemma OnlyTopStays(exp: real -> real, logits: seq<Score>, topP: real, order: seq<nat>)
    requires ExpLaws(exp) && SomeFinite(logits) && SortOrder(logits, order) && topP <= 0.0
    ensures |order| > 0
    ensures forall t :: 0 <= t < |logits| ==>
      (TopPWith(exp, logits, topP, order)[t].Fin? <==> t == order[0])
  {
    SortedSomeFinite(logits, order);
    TopIsFinite(logits, order);
    var probs := SoftmaxOf(exp, Sampling.Sorted(logits, order));
    SoftmaxIsDistribution(exp, Sampling.Sorted(logits, order));
    var remove := Removed(probs, topP);
    ScatterFlagsAt(remove, order, remove, |order|);
    forall t: nat | t < |logits|
      ensures TopPWith(exp, logits, topP, order)[t].Fin? <==> t == order[0]
    {
      assert t in order;
      var j :| 0 <= j < |order| && order[j] == t;
      if j > 0 {
        CumulativeBefore(probs, j);
        PrefixSumsGrow(probs, 1, j);
        assert probs[..1] == [probs[0]] && probs[..1][..0] == [];
      }
    }
  }

  lemma {:induction false} FirstOfInsert(s: seq<nat>, x: nat, le: (nat, nat) -> bool)
    requires Ordering(le) && SortedBy(s, le)
    ensures InsertBy(s, x, le)[0] == if s == [] || !le(s[0], x) then x else s[0]
  {
    if s != [] && !le(s[|s| - 1], x) {
      FirstOfInsert(s[..|s| - 1], x, le);
    }
  }

  // The first of the largest of the first n scores.
  ghost predicate FirstMax(scores: seq<Score>, n: nat, k: nat)
    requires n <= |scores|
  {
    && k < n
    && (forall t :: 0 <= t < n ==> AtMost(scores[t], scores[k]))
    && (forall t :: 0 <= t < k ==> !AtMost(scores[k], scores[t]))
  }

  // The sort keeps ties in place.
  lemma {:induction false} FirstOfOrder(scores: seq<Score>, n: nat)
    requires 0 < n <= |scores|
    ensures FirstMax(scores, n, SortBy<nat>(Upto(n), Descending(scores))[0])
  {
    var le: (nat, nat) -> bool := Descending(scores);
    assert Ordering(le);
    assert Upto(n)[..n - 1] == Upto(n - 1);
    var s := SortBy<nat>(Upto(n - 1), le);
    SortBySorts(Upto(n - 1), le);
    FirstOfInsert(s, n - 1, le);
    assert SortBy<nat>(Upto(n), le) == InsertBy<nat>(s, n - 1, le);
    if n > 1 {
      FirstOfOrder(scores, n - 1);
      assert le(s[0], n - 1) <==> AtMost(scores[n - 1], scores[s[0]]);
    }
  }

  lemma FirstMaxUnique(scores: seq<Score>, k: nat, m: nat)
    requires FirstMax(scores, |scores|, k) && FirstMax(scores, |scores|, m)
    ensures k == m
  {
    assert AtMost(scores[m], scores[k]) && AtMost(scores[k], scores[m]);
  }

  lemma ScoresFirstMax(logits: Vec, temperature: real)
    requires logits != [] && temperature > 0.0
    ensures FirstMax(Sampling.Scores(logits, temperature), |logits|, ArgMax(logits))
  {
    var scores, m := Sampling.Scores(logits, temperature), ArgMax(logits);
    ArgMaxIsFirstMaximum(logits);
    forall t | 0 <= t < |logits|
      ensures AtMost(scores[t], scores[m])
      ensures t < m ==> !AtMost(scores[m], scores[t])
    {
      Scaled(logits[t], logits[m], temperature);
      Scaled(logits[m], logits[t], temperature);
    }
  }

  lemma TopKFirstMax(scores: seq<Score>, topK: int, m: nat)
    requires FirstMax(scores, |scores|, m) && scores[m].Fin?
    ensures FirstMax(TopK(scores, topK), |scores|, m)
  {
    if topK > 0 {
      TopKKeepsLargest(scores, topK);
    }
  }

  lemma KeptIsArgMax(logits: Vec, temperature: real, topK: int)
    requires logits != [] && temperature > 0.0
    ensures SortIndices(TopK(Sampling.Scores(logits, temperature), topK))[0] == ArgMax(logits)
  {
    hide ArgMax, FirstMax, TopK;
    var scores := Sampling.Scores(logits, temperature);
    var kept, m := TopK(scores, topK), ArgMax(logits);
    ScoresFirstMax(logits, temperature);
    TopKFirstMax(scores, topK, m);
    FirstOfOrder(kept, |kept|);
    FirstMaxUnique(kept, SortIndices(kept)[0], m);
  }

  lemma Scaled(x: real, y: real, t: real)
    requires t > 0.0
    ensures x <= y <==> x / t <= y / t
  {
    assert x == (x / t) * t && y == (y / t) * t;
    if x / t <= y / t {
      assert (y / t - x / t) * t >= 0.0;
    } else {
      assert (x / t - y / t) * t > 0.0;
    }
  }

  // So such a draw is the greedy choice.
  lemma OneTokenDraw(cfg: Config, a: SamplingParams, draw: nat, logits: Vec)
    requires ExpLaws(cfg.exp) && Fair(cfg.oracle) && logits != [] && !a.Greedy() && a.topP <= 0.0
    ensures SampleRow(cfg, a, draw, logits) == ArgMax(logits)
  {
    var scores := Sampling.Scores(logits, a.temperature);
    TopKSomeFinite(scores, a.topK);
    var kept := TopK(scores, a.topK);
    SortIndicesOrders(kept);
    OnlyTopStays(cfg.exp, kept, a.topP, SortIndices(kept));
    KeptIsArgMax(logits, a.temperature, a.topK);
    FilterSomeFinite(cfg.exp, scores, a.topK, a.topP);
    SoftmaxIsDistribution(cfg.exp, Filter(cfg.exp, scores, a.topK, a.topP));
    var probs := LogitsToProbs(cfg.exp, logits, a);
    assert probs[ArgMax(logits)] > 0.0;
  }

  // ---------- ties that survive every other filter ----------

  function Ties(n: nat): (logits: Vec)
    ensures |logits| == n
  {
    seq(n, i => 0.0)
  }

  lemma {:induction false} ConstantSum(d: seq<real>, c: real)
    requires forall t :: 0 <= t < |d| ==> d[t] == c
    ensures Sum(d) == |d| as real * c
  {
    if d != [] {
      ConstantSum(d[..|d| - 1], c);
    }
  }

  // Of n equal scores each has an n-th of the mass.
  lemma EqualShares(exp: real -> real, scores: seq<Score>)
    requires ExpLaws(exp) && scores != [] && forall t :: 0 <= t < |scores| ==> scores[t] == Fin(0.0)
    ensures SomeFinite(scores)
    ensures SoftmaxOf(exp, scores)[0] * (|scores| as real) == 1.0
  {
    assert scores[0].Fin?;
    var masses, n := Masses(exp, scores), |scores| as real;
    MassesPositive(exp, scores);
    ExpPositive(exp, 0.0);
    assert forall t :: 0 <= t < |masses| ==> masses[t] == exp(0.0);
    ConstantSum(masses, exp(0.0));
    Share(exp(0.0), n, SoftmaxOf(exp, scores)[0]);
  }

  // So the second is reached before an n-th is passed.
  lemma SecondStays(exp: real -> real, scores: seq<Score>, topP: real, order: seq<nat>)
    requires ExpLaws(exp) && |scores| > 1 && SortOrder(scores, order)
    requires forall t :: 0 <= t < |scores| ==> scores[t] == Fin(0.0)
    requires 1.0 <= |scores| as real * topP
    ensures SomeFinite(scores)
    ensures TopPWith(exp, scores, topP, order)[order[1]] == Fin(0.0)
  {
    hide ExpLaws, SoftmaxOf;
    assert scores[0].Fin?;
    var sorted := Sampling.Sorted(scores, order);
    EqualShares(exp, sorted);
    var probs := SoftmaxOf(exp, sorted);
    ShareBelow(probs[0], |scores| as real, topP);
    CumulativeBefore(probs, 1);
    assert probs[..1] == [probs[0]] && probs[..1][..0] == [];
    var remove := Removed(probs, topP);
    ScatterFlagsAt(remove, order, remove, |order|);
  }

  lemma Share(e: real, n: real, p: real)
    requires e > 0.0 && n > 0.0 && p == e / (n * e)
    ensures p * n == 1.0
  {
    var d := n * e;
    assert d > 0.0;
    Quotient(e, d, p);
    Cancel(p, n, e, d);
  }

  lemma Cancel(p: real, n: real, e: real, d: real)
    requires e > 0.0 && d == n * e && p * d == e
    ensures p * n == 1.0
  {
    var x := p * n;
    assert x * e == p * (n * e);
    assert (x - 1.0) * e == 0.0;
  }

  lemma Quotient(e: real, d: real, p: real)
    requires e > 0.0 && d != 0.0 && p == e / d
    ensures p * d == e
  {
  }

  lemma ShareBelow(p: real, n: real, topP: real)
    requires n > 0.0 && p * n == 1.0 && 1.0 <= n * topP
    ensures p <= topP
  {
    if p > topP {
      ProductPositive(p - topP, n);
    }
  }

  lemma ProductPositive(x: real, y: real)
    requires x > 0.0 && y > 0.0
    ensures x * y > 0.0
  {
  }

  lemma TiesKept(n: nat, temperature: real, topK: int)
    requires temperature > 0.0 && n > 0
    ensures var kept := TopK(Sampling.Scores(Ties(n), temperature), topK);
      |kept| == n && forall t :: 0 <= t < n ==> kept[t] == Fin(0.0)
  {
    var scores := Sampling.Scores(Ties(n), temperature);
    assert forall t :: 0 <= t < n ==> scores[t] == Fin(0.0);
    if topK > 0 {
      TopKKeepsLargest(scores, topK);
    }
  }

  // A fair choice that prefers any index to the first.
  ghost function NotFirst(probs: seq<real>): (i: nat)
    ensures HasMass(probs) ==> i < |probs| && probs[i] > 0.0
    ensures (exists t :: 0 < t < |probs| && probs[t] > 0.0) ==> i > 0
  {
    if exists t :: 0 < t < |probs| && probs[t] > 0.0 then var t :| 0 < t < |probs| && probs[t] > 0.0; t else 0
  }

  ghost function OtherOracle(): (o: Oracle)
    ensures Fair(o)
  {
    Oracle((n: nat) => 0.0, (n: nat, probs: seq<real>) => NotFirst(probs))
  }

  // Some score other than the first one stays.
  lemma TiesFiltered(exp: real -> real, scores: seq<Score>, topP: real) returns (t: nat)
    requires ExpLaws(exp) && |scores| > 1 && 1.0 <= |scores| as real * topP
    requires forall i :: 0 <= i < |scores| ==> scores[i] == Fin(0.0)
    ensures SomeFinite(scores)
    ensures 0 < t < |scores|
    ensures SortOrder(scores, SortIndices(scores))
    ensures topP < 1.0 ==> TopPWith(exp, scores, topP, SortIndices(scores))[t].Fin?
  {
    hide TopPWith, SortIndices, ExpLaws;
    assert scores[0].Fin?;
    var order := SortIndices(scores);
    SortIndicesOrders(scores);
    SecondStays(exp, scores, topP, order);
    TopPKeepsTop(exp, scores, topP, order);
    t := if order[0] != 0 then order[0] else order[1];
  }

  // Enough equal logits: greedy takes the first, a draw may take another, whatever top-k and top-p.
  lemma TiedDraw(cfg: Config, a: SamplingParams, draw: nat, n: nat)
    requires ExpLaws(cfg.exp) && cfg.oracle == OtherOracle() && !a.Greedy() && n > 1 && 1.0 <= n as real * a.topP
    ensures SampleRow(cfg, a, draw, Ties(n)) > 0
  {
    hide TopPWith, TopK, SortIndices, ExpLaws, SoftmaxOf, Sampling.Scores;
    var logits := Ties(n);
    var scores := Sampling.Scores(logits, a.temperature);
    TiesKept(n, a.temperature, a.topK);
    var kept := TopK(scores, a.topK);
    FilterSomeFinite(cfg.exp, scores, a.topK, a.topP);
    var filtered := Filter(cfg.exp, scores, a.topK, a.topP);
    SoftmaxIsDistribution(cfg.exp, filtered);
    var t := TiesFiltered(cfg.exp, kept, a.topP);
    assert filtered[t].Fin?;
    var probs := LogitsToProbs(cfg.exp, logits, a);
    assert probs[t] > 0.0;
  }

  lemma {:induction false} TiesAreGreedilyFirst(n: nat)
    ensures ArgMax(Ties(n)) == 0
  {
    if n > 1 {
      assert Ties(n)[..n - 1] == Ties(n - 1);
      TiesAreGreedilyFirst(n - 1);
    }
  }

  // ---------- one step ----------

  // The first request that this step samples from has parameters `a`.
  ghost predicate LedBy(cfg: Config, s: Sched, a: SamplingParams) {
    && Steppable(s) && Step(cfg, s).Ok?
    && var flat := Build(cfg, s).value.flat;
      && |flat.ids| == |flat.sampled|
      && var batch := Picked(flat.ids, flat.sampled);
        batch != [] && batch[0] in s.requests && s.requests[batch[0]].params == a
  }

  // What a request gets in a step is nothing, or its own next greedy token.
  ghost predicate OwnNext(net: Net, req: Request, req': Request) {
    && |req.prompt| > 0
    && (req'.outputs == req.outputs || req'.outputs == req.outputs + [Next(net, Context(req))])
  }

  // In every step led by `a`, from any settled state, the greedy requests get what is theirs.
  ghost predicate KeepsGreedy(cfg: Config, a: SamplingParams) {
    forall s, id :: Settled(cfg, s, true) && LedBy(cfg, s, a) && id in s.requests && s.requests[id].params.Greedy() ==>
      id in Step(cfg, s).value.requests && OwnNext(cfg.net, s.requests[id], Step(cfg, s).value.requests[id])
  }

  // Whoever gets a token in a step is in its batch.
  lemma GivenInBatch(cfg: Config, s: Sched, id: nat) returns (j: nat)
    requires Settled(cfg, s, true) && Steppable(s) && Step(cfg, s).Ok? && id in s.requests
    ensures |s.requests[id].prompt| > 0 && id in Step(cfg, s).value.requests
    ensures var flat := Build(cfg, s).value.flat; |flat.ids| == |flat.sampled|
    ensures var flat, req, req' := Build(cfg, s).value.flat, s.requests[id], Step(cfg, s).value.requests[id];
      var batch := Picked(flat.ids, flat.sampled);
      req'.outputs != req.outputs ==> j < |batch| && batch[j] == id
  {
    hide MidOk, Settled, RowsMatch, Picked, Sampled, MovesOn, WithToken, Choosable, Brought;
    j := 0;
    var ps := StepOk(cfg, s, true);
    var m, s' := Build(cfg, s).value, Step(cfg, s).value;
    BatchSampled(cfg, m, ps, true);
    StepKeys(s, m.s, s');
    SameKeys(s, m.s);
    SettledSane(cfg, s, id, true);
    MovedOutputs(s.requests[id], m.s.requests[id]) by { assert MovesOn(s.requests[id], m.s.requests[id]); }
    if m.s.requests[id].status == Running {
      var batch := Picked(m.flat.ids, m.flat.sampled);
      assert id in batch;
      j :| 0 <= j < |batch| && batch[j] == id;
    }
  }

  // A first request that is greedy, or whose top_p leaves one token, or that is alone, does no harm.
  lemma HarmlessLeader(cfg: Config, a: SamplingParams, s: Sched, id: nat)
    requires Settled(cfg, s, true) && LedBy(cfg, s, a) && id in s.requests && s.requests[id].params.Greedy()
    requires ExpLaws(cfg.exp) && Fair(cfg.oracle) && (a.Greedy() || a.topP <= 0.0 || cfg.maxBatch == 1)
    ensures id in Step(cfg, s).value.requests && OwnNext(cfg.net, s.requests[id], Step(cfg, s).value.requests[id])
  {
    hide MidOk, Settled, RowsMatch, Picked, Sampled, Context, Next, Logits, SampleRow, TokensOf, Choosable, Build,
      Step, Steppable;
    LedSteps(cfg, s, a);
    var ps := StepOk(cfg, s, true);
    var j := GivenInBatch(cfg, s, id);
    StepChooses(cfg, s);
    var m, s' := Build(cfg, s).value, Step(cfg, s).value;
    var batch, tokens := Picked(m.flat.ids, m.flat.sampled), TokensOf(cfg, m.s, m.flat);
    if s'.requests[id].outputs != s.requests[id].outputs {
      assert a == m.s.requests[batch[0]].params;
      LeaderChoosable(cfg, s, batch[0]);
      if cfg.maxBatch == 1 {
        AloneInBatch(cfg, s);
      }
      OwnDraw(cfg, a, m.s.drawn + j, Context(s.requests[id]));
    }
  }

  lemma LeaderChoosable(cfg: Config, s: Sched, id: nat)
    requires Settled(cfg, s, true) && id in s.requests
    ensures Choosable(cfg.net, cfg.exp, s.requests[id].params)
  {
    assert Sane(cfg, s.requests[id], true);
  }

  lemma AloneInBatch(cfg: Config, s: Sched)
    requires Settled(cfg, s, true) && Steppable(s) && Step(cfg, s).Ok? && cfg.maxBatch == 1
    ensures var flat := Build(cfg, s).value.flat; |flat.ids| == |flat.sampled| && |Picked(flat.ids, flat.sampled)| <= 1
  {
    hide MidOk, Settled, RowsMatch, Sampled, Picked;
    var ps := StepOk(cfg, s, true);
    BatchWithinBudget(cfg, Build(cfg, s).value, ps, true);
    BatchSampled(cfg, Build(cfg, s).value, ps, true);
    PickedCount(Build(cfg, s).value.flat.ids, Build(cfg, s).value.flat.sampled);
  }

  lemma {:induction false} PickedCount(ids: seq<nat>, sampled: seq<bool>)
    requires |ids| == |sampled|
    ensures |Picked(ids, sampled)| <= |ids|
  {
    if ids != [] {
      PickedCount(ids[..|ids| - 1], sampled[..|ids| - 1]);
    }
  }

  lemma OwnDraw(cfg: Config, a: SamplingParams, draw: nat, toks: seq<int>)
    requires ExpLaws(cfg.exp) && Fair(cfg.oracle) && (a.Greedy() || a.topP <= 0.0) && |toks| > 0 &&
      Choosable(cfg.net, cfg.exp, a)
    ensures SampleRow(cfg, a, draw, Logits(cfg.net, toks)) == Next(cfg.net, toks)
  {
    hide Rows;
    LogitsCovered(cfg.net, cfg.exp, a, toks);
    if !a.Greedy() {
      OneTokenDraw(cfg, a, draw, Logits(cfg.net, toks));
    }
  }

  // A network that has no preference among n tokens.
  function TiedNet(n: nat): Net {
    Net((t: int) => [], [], (x: Vec) => x, (x: Vec) => Ties(n))
  }

  lemma SecondChoice(cfg: Config, s: Sched, batch: seq<nat>, tokens: seq<int>)
    requires |tokens| == |batch| > 1 && (forall id :: id in batch ==> id in s.requests) &&
      OwnChoices(cfg, s, batch, tokens)
    ensures |Context(s.requests[batch[1]])| > 0
    ensures tokens[1] ==
      SampleRow(cfg, s.requests[batch[0]].params, s.drawn + 1, Logits(cfg.net, Context(s.requests[batch[1]])))
  {
    hide SampleRow, Logits, Context;
  }

  // The tokens of the step that samples from both.
  lemma SecondToken(cfg: Config, a: SamplingParams, b: SamplingParams, s: Sched)
    requires Together(cfg, [0], a, [0], b) && s == TwoWaiting(cfg, [0], a, [0], b)
    ensures Settled(cfg, s, true) && LedBy(cfg, s, a)
    ensures s.requests == map[0 := NewRequest([0], a), 1 := NewRequest([0], b)]
    ensures 1 in Step(cfg, s).value.requests
    ensures Step(cfg, s).value.requests[1].outputs == [SampleRow(cfg, a, 1, Logits(cfg.net, [0]))]
  {
    hide Settled, TokensOf, SampleRow, Steppable, Step, Build, TwoWaiting, Logits, Together, OwnChoices, Picked;
    hide PrefillTokens;
    BatchedTogether(cfg, [0], a, [0], b, true);
    StepChooses(cfg, s);
    PickedBoth();
    var m := Build(cfg, s).value;
    var tokens := TokensOf(cfg, m.s, m.flat);
    var batch: seq<nat> := [0, 1];
    assert Picked(m.flat.ids, m.flat.sampled) == batch;
    SecondChoice(cfg, m.s, batch, tokens);
    assert Context(s.requests[1]) == [0];
    assert s.requests[1].outputs == [];
  }

  /** A greedy request that arrives just behind a sampled one and finishes with another token than its own. */
  lemma GreedyBehindSampled(cfg: Config, a: SamplingParams, n: nat) returns (s: Sched)
    requires ExpLaws(cfg.exp) && cfg.oracle == OtherOracle() && cfg.net == TiedNet(n) && cfg.maxBatch > 1
    requires !a.Greedy() && n > 1 && 1.0 <= n as real * a.topP
    ensures s == TwoWaiting(cfg, [0], a, [0], SamplingParams(0.0, 1.0, 0))
    ensures Settled(cfg, s, true) && LedBy(cfg, s, a) && 1 in s.requests && s.requests[1].params.Greedy()
    ensures 1 in Step(cfg, s).value.requests
    ensures var req' := Step(cfg, s).value.requests[1];
      && !OwnNext(cfg.net, s.requests[1], req')
      && req'.status == Finished && req'.outputs != Generate(cfg.net, [0], 1, None)
  {
    hide Settled, SampleRow, Steppable, Step, TwoWaiting, Ties, LedBy;
    var b := SamplingParams(0.0, 1.0, 0);
    s := TwoWaiting(cfg, [0], a, [0], b);
    SecondToken(cfg, a, b, s);
    TiedDraw(cfg, a, 1, n);
    TiesAreGreedilyFirst(n);
    assert Logits(cfg.net, [0]) == Ties(n);
    assert Context(s.requests[1]) == [0];
    LedSteps(cfg, s, a);
    AfterStep(cfg, s);
    var own := s.requests[1].outputs + [Next(cfg.net, [0])];
    assert own[0] == 0 && |own| == 1;
    assert Generate(cfg.net, [0], 1, None) == [0];
  }

  lemma AfterStep(cfg: Config, s: Sched)
    requires Settled(cfg, s, true) && Steppable(s) && Step(cfg, s).Ok? && 1 in s.requests && s.requests[1].maxNew == 1
    requires 1 in Step(cfg, s).value.requests && |Step(cfg, s).value.requests[1].outputs| == 1
    ensures Step(cfg, s).value.requests[1].status == Finished
  {
    hide Settled, Steppable, Step, Build;
    StepServes(cfg, s, true);
    var ps := StepOk(cfg, s, true);
    FinishedAtLimit(cfg, Step(cfg, s).value, 1);
  }

  lemma LedSteps(cfg: Config, s: Sched, a: SamplingParams)
    requires LedBy(cfg, s, a)
    ensures Steppable(s) && Step(cfg, s).Ok?
  {
  }

  lemma FinishedAtLimit(cfg: Config, s: Sched, id: nat)
    requires Settled(cfg, s, true) && id in s.requests && s.requests[id].outputs != []
    requires |s.requests[id].outputs| >= s.requests[id].maxNew
    ensures s.requests[id].status == Finished
  {
    assert Sane(cfg, s.requests[id], true);
  }

  /** The first request's parameters leave every greedy request of the batch its own choice, whatever the
      network, the random choices and the engine's settled state, if and only if they are greedy too, or their
      top_p is not positive, or a step has room for one token only.  (A top_p that is not positive keeps the
      first token of the sorted order; that this is the argmax under ties is the sort's doing.) */
  lemma FirstParamsDecide(cfg: Config, a: SamplingParams)
    requires ExpLaws(cfg.exp)
    ensures (forall net: Net, o: Oracle :: Fair(o) ==> KeepsGreedy(cfg.(net := net, oracle := o), a))
       <==> a.Greedy() || a.topP <= 0.0 || cfg.maxBatch == 1
  {
    hide Settled, LedBy, OwnNext, Steppable, Step;
    if a.Greedy() || a.topP <= 0.0 || cfg.maxBatch == 1 {
      forall net: Net, o: Oracle | Fair(o)
        ensures KeepsGreedy(cfg.(net := net, oracle := o), a)
      {
        var c := cfg.(net := net, oracle := o);
        forall s, id | Settled(c, s, true) && LedBy(c, s, a) && id in s.requests && s.requests[id].params.Greedy()
          ensures Steppable(s) && Step(c, s).Ok?
          ensures id in Step(c, s).value.requests && OwnNext(c.net, s.requests[id], Step(c, s).value.requests[id])
        {
          LedSteps(c, s, a);
          HarmlessLeader(c, a, s, id);
        }
      }
    } else {
      var n := EnoughTies(a.topP);
      var c := cfg.(net := TiedNet(n), oracle := OtherOracle());
      var s := GreedyBehindSampled(c, a, n);
      assert !KeepsGreedy(c, a);
    }
  }

  lemma EnoughTies(topP: real) returns (n: nat)
    requires topP > 0.0
    ensures n > 1 && 1.0 <= n as real * topP
  {
    n := (1.0 / topP).Floor + 2;
    assert n as real > 1.0 / topP;
    assert (n as real - 1.0 / topP) * topP > 0.0;
    assert (1.0 / topP) * topP == 1.0;
  }
}
