// Decoding one token at a time with any sampling parameters: what the single-sequence engine and the
// disaggregated workers are compared with.
module Decoding {
  import opened Wrappers
  import opened Reference
  import opened Softmax
  import opened Sampling
  import opened SamplingLaw
  import opened Chance
  import opened Rejection

  /** How tokens are chosen: the parameters, and the random choices there will be. */
  datatype Sampler = Sampler(exp: real -> real, params: SamplingParams, oracle: Oracle)

  // `sample`: greedy takes the largest logit, otherwise the n-th random choice decides.
  ghost function Choose(s: Sampler, n: nat, logits: Vec): nat {
    if s.params.Greedy() then ArgMax(logits)
    else if logits != [] && ExpLaws(s.exp) then s.oracle.pick(n, LogitsToProbs(s.exp, logits, s.params))
    else 0
  }

  // How many random choices n tokens use up: greedy sampling draws nothing at random.
  function Draws(params: SamplingParams, n: nat): nat {
    if params.Greedy() then 0 else n
  }

  // The output that extends `out` when the next random choice is the n-th.
  ghost function Continue(net: Net, s: Sampler, n: nat, prompt: seq<int>, out: seq<int>, maxNew: int,
                          eos: Option<int>): seq<int>
    requires |prompt| > 0
    decreases maxNew - |out|
  {
    if Stops(out, maxNew, eos) then out
    else Continue(net, s, n + Draws(s.params, 1), prompt, out + [Choose(s, n, Logits(net, prompt + out))], maxNew, eos)
  }

  ghost function Decode(net: Net, s: Sampler, n: nat, prompt: seq<int>, maxNew: int, eos: Option<int>): seq<int>
    requires |prompt| > 0
  {
    Continue(net, s, n + Draws(s.params, 1), prompt, [Choose(s, n, Logits(net, prompt))], maxNew, eos)
  }

  // What the vocabulary and the parameters need for there to be something to choose.
  ghost predicate Choosable(net: Net, exp: real -> real, params: SamplingParams) {
    params.Greedy() || (ExpLaws(exp) && forall h :: net.lmHead(h) != [])
  }

  lemma LogitsCovered(net: Net, exp: real -> real, params: SamplingParams, toks: seq<int>)
    requires Choosable(net, exp, params) && |toks| > 0
    ensures params.Greedy() || (ExpLaws(exp) && Logits(net, toks) != [])
  {
    hide Rows;
  }

  // What is chosen is the first of the largest logits or, above temperature zero, a token of their nucleus.
  lemma ChoiceIsDrawn(s: Sampler, n: nat, logits: Vec)
    requires logits != [] && (s.params.Greedy() || (ExpLaws(s.exp) && Fair(s.oracle)))
    ensures var t := Choose(s, n, logits);
      && t < |logits|
      && (s.params.temperature <= 0.0 ==> Above(logits, t) == {} && forall i :: 0 <= i < t ==> logits[i] < logits[t])
      && (s.params.temperature > 0.0 ==> t in Nucleus(s.exp, logits, s.params))
  {
    hide Nucleus, LogitsToProbs;
    if s.params.Greedy() {
      ArgMaxIsFirstMaximum(logits);
      assert Above(logits, ArgMax(logits)) == {};
    } else {
      var probs := LogitsToProbs(s.exp, logits, s.params);
      LogitsToProbsIsDistribution(s.exp, logits, s.params);
      SumHasMass(probs);
      var t := s.oracle.pick(n, probs);
      DrawnFromNucleus(s.exp, logits, s.params, t, t);
    }
  }

  method SampleToken(exp: real -> real, params: SamplingParams, logits: Vec, gen: Generator) returns (token: nat)
    requires params.Greedy() || (ExpLaws(exp) && logits != [])
    modifies gen
    ensures token == Choose(Sampler(exp, params, gen.oracle), old(gen.used), logits)
    ensures gen.used == old(gen.used) + Draws(params, 1)
    ensures Fair(gen.oracle) && logits != [] ==>
      if params.temperature <= 0.0 then token < |logits| && Above(logits, token) == {}
      else token in Nucleus(exp, logits, params)
  {
    hide Nucleus, LogitsToProbs, Above;
    if logits != [] && Fair(gen.oracle) {
      ChoiceIsDrawn(Sampler(exp, params, gen.oracle), gen.used, logits);
    }
    if params.Greedy() {
      token := ArgMax(logits);
    } else {
      token := gen.Multinomial(LogitsToProbs(exp, logits, params));
    }
  }

  lemma ContinueOne(net: Net, s: Sampler, n: nat, prompt: seq<int>, out: seq<int>, maxNew: int, eos: Option<int>)
    requires |prompt| > 0 && !Stops(out, maxNew, eos)
    ensures Continue(net, s, n, prompt, out, maxNew, eos)
         == Continue(net, s, n + Draws(s.params, 1), prompt, out + [Choose(s, n, Logits(net, prompt + out))], maxNew,
           eos)
  {
  }

  lemma ContinueEnd(net: Net, s: Sampler, n: nat, prompt: seq<int>, out: seq<int>, maxNew: int, eos: Option<int>)
    requires |prompt| > 0 && Stops(out, maxNew, eos)
    ensures Continue(net, s, n, prompt, out, maxNew, eos) == out
  {
  }

  lemma {:induction false} ContinueIsWhole(net: Net, s: Sampler, n: nat, prompt: seq<int>, out: seq<int>, maxNew: int,
                                           eos: Option<int>)
    requires |prompt| > 0 && out != [] && WithinLimits(out, maxNew, eos)
    ensures out <= Continue(net, s, n, prompt, out, maxNew, eos)
    ensures WholeOutput(Continue(net, s, n, prompt, out, maxNew, eos), maxNew, eos)
    decreases maxNew - |out|
  {
    hide Choose, Logits, WithinLimits, WholeOutput;
    StopsWhenWhole(out, maxNew, eos);
    if !Stops(out, maxNew, eos) {
      var t := Choose(s, n, Logits(net, prompt + out));
      OneMoreWithin(out, t, maxNew, eos);
      ContinueIsWhole(net, s, n + Draws(s.params, 1), prompt, out + [t], maxNew, eos);
    }
  }

  /** Whatever the sampling parameters and the random choices: at most the limit of tokens, fewer only if the last
      is the end-of-sequence token, which comes nowhere before. */
  lemma DecodeIsWhole(net: Net, s: Sampler, n: nat, prompt: seq<int>, maxNew: int, eos: Option<int>)
    requires |prompt| > 0
    ensures WholeOutput(Decode(net, s, n, prompt, maxNew, eos), maxNew, eos)
  {
    ContinueIsWhole(net, s, n + Draws(s.params, 1), prompt, [Choose(s, n, Logits(net, prompt))], maxNew, eos);
  }

  // Every token after the first `from` is a choice the filters allow.
  ghost predicate FromNucleus(net: Net, s: Sampler, prompt: seq<int>, out: seq<int>, from: nat)
    requires |prompt| > 0 && s.params.temperature != 0.0
  {
    forall i {:trigger out[..i]} :: from <= i < |out| ==>
      out[i] >= 0 && out[i] in Nucleus(s.exp, Logits(net, prompt + out[..i]), s.params)
  }

  /** Whatever the random choices, decoding never gives a token that top-k or top-p excludes at its position. */
  lemma {:induction false} ContinueFromNucleus(net: Net, s: Sampler, n: nat, prompt: seq<int>, out: seq<int>,
                                               maxNew: int, eos: Option<int>, from: nat)
    requires |prompt| > 0 && s.params.temperature > 0.0 && Choosable(net, s.exp, s.params) && Fair(s.oracle)
    requires FromNucleus(net, s, prompt, out, from)
    ensures FromNucleus(net, s, prompt, Continue(net, s, n, prompt, out, maxNew, eos), from)
    decreases maxNew - |out|
  {
    hide Choose, Logits, Nucleus, Choosable, Fair;
    if !Stops(out, maxNew, eos) {
      var t := Choose(s, n, Logits(net, prompt + out));
      LogitsCovered(net, s.exp, s.params, prompt + out);
      ChoiceIsDrawn(s, n, Logits(net, prompt + out));
      var longer := out + [t];
      forall i | from <= i < |longer|
        ensures longer[i] >= 0 && longer[i] in Nucleus(s.exp, Logits(net, prompt + longer[..i]), s.params)
      {
        assert longer[..i] == out[..i];
        assert i == |out| ==> out[..i] == out;
      }
      ContinueFromNucleus(net, s, n + Draws(s.params, 1), prompt, longer, maxNew, eos, from);
    }
  }

  lemma DecodeFromNucleus(net: Net, s: Sampler, n: nat, prompt: seq<int>, maxNew: int, eos: Option<int>)
    requires |prompt| > 0 && s.params.temperature > 0.0 && Choosable(net, s.exp, s.params) && Fair(s.oracle)
    ensures FromNucleus(net, s, prompt, Decode(net, s, n, prompt, maxNew, eos), 0)
  {
    hide Choose, Logits, Nucleus, Fair;
    LogitsCovered(net, s.exp, s.params, prompt);
    ChoiceIsDrawn(s, n, Logits(net, prompt));
    var first := [Choose(s, n, Logits(net, prompt))];
    assert prompt + first[..0] == prompt;
    ContinueFromNucleus(net, s, n + Draws(s.params, 1), prompt, first, maxNew, eos, 0);
  }

  lemma {:induction false} GreedyContinue(net: Net, s: Sampler, n: nat, prompt: seq<int>, out: seq<int>, maxNew: int,
                                          eos: Option<int>)
    requires |prompt| > 0 && s.params.Greedy()
    ensures Continue(net, s, n, prompt, out, maxNew, eos) == Extend(net, prompt, out, maxNew, eos)
    decreases maxNew - |out|
  {
    hide Logits;
    if !Stops(out, maxNew, eos) {
      GreedyContinue(net, s, n, prompt, out + [Next(net, prompt + out)], maxNew, eos);
    }
  }

  /** With greedy parameters decoding is the reference's greedy generation, whatever the random choices. */
  lemma GreedyDecode(net: Net, s: Sampler, n: nat, prompt: seq<int>, maxNew: int, eos: Option<int>)
    requires |prompt| > 0 && s.params.Greedy()
    ensures Decode(net, s, n, prompt, maxNew, eos) == Generate(net, prompt, maxNew, eos)
  {
    GreedyContinue(net, s, n, prompt, [Next(net, prompt)], maxNew, eos);
  }
}
