// Sampled decoding and speculation have the same law.
module DecodingLaw {
  import opened Wrappers
  import opened Reference
  import opened Softmax
  import opened Distributions
  import opened Chance
  import opened SpeculativeLaw
  import opened Decoding
  import Speculative

  // The model's logits cover exactly the vocabulary.
  ghost predicate ExactVocab(net: Net, vocab: pos) {
    forall h :: |net.lmHead(h)| == vocab
  }

  ghost function Law(net: Net, vocab: pos, s: Sampler): Conditional
    requires ExactVocab(net, vocab) && ExpLaws(s.exp)
    ensures OverVocab(Law(net, vocab, s), vocab)
  {
    Speculative.LawOfOverVocab(net, vocab, s.exp, s.params);
    Speculative.LawOf(net, vocab, s.exp, s.params)
  }

  // What the law draws from after some tokens is what the sampler draws from.
  lemma LawChooses(net: Net, vocab: pos, s: Sampler, n: nat, toks: seq<int>)
    requires ExactVocab(net, vocab) && ExpLaws(s.exp) && !s.params.Greedy() && |toks| > 0
    ensures Choose(s, n, Logits(net, toks)) == s.oracle.pick(n, Law(net, vocab, s)(toks))
  {
    hide Rows;
    var logits := Logits(net, toks);
    assert |logits| == vocab;
    assert Speculative.Take(logits, vocab) == logits;
  }

  /** Decoding with given random choices is a run of the program that samples from the model's law. */
  lemma {:induction false} ContinueIsSampling(net: Net, vocab: pos, s: Sampler, n: nat, prompt: seq<int>,
                                              out: seq<int>, maxNew: int, eos: Option<int>)
    requires ExactVocab(net, vocab) && ExpLaws(s.exp) && !s.params.Greedy() && Fair(s.oracle) && |prompt| > 0
    ensures Playable(SpeculativeLaw.Sampling(Law(net, vocab, s), vocab, prompt, out, maxNew, eos))
    ensures Run(s.oracle, n, SpeculativeLaw.Sampling(Law(net, vocab, s), vocab, prompt, out, maxNew, eos)).0
         == Continue(net, s, n, prompt, out, maxNew, eos)
    decreases maxNew - |out|
  {
    hide Law, Choose, Logits, Continue, SpeculativeLaw.Sampling, Run, Playable;
    var p := Law(net, vocab, s);
    if Stops(out, maxNew, eos) {
      ContinueEnd(net, s, n, prompt, out, maxNew, eos);
      SamplingEnds(p, vocab, s.oracle, n, prompt, out, maxNew, eos);
    } else {
      var t := s.oracle.pick(n, p(prompt + out));
      forall t: nat | t < vocab
        ensures Playable(SpeculativeLaw.Sampling(p, vocab, prompt, out + [t], maxNew, eos))
      {
        ContinueIsSampling(net, vocab, s, n, prompt, out + [t], maxNew, eos);
      }
      SamplingDraws(p, vocab, s.oracle, n, prompt, out, maxNew, eos);
      LawChooses(net, vocab, s, n, prompt + out);
      ContinueOne(net, s, n, prompt, out, maxNew, eos);
      ContinueIsSampling(net, vocab, s, n + 1, prompt, out + [t], maxNew, eos);
    }
  }

  lemma SamplingEnds(p: Conditional, vocab: nat, o: Oracle, n: nat, prompt: seq<int>, out: seq<int>, maxNew: int,
                     eos: Option<int>)
    requires OverVocab(p, vocab) && Fair(o) && Stops(out, maxNew, eos)
    ensures var prog := SpeculativeLaw.Sampling(p, vocab, prompt, out, maxNew, eos);
      Playable(prog) && Run(o, n, prog) == (out, n)
  {
  }

  // The oracle's n-th choice is the next token.
  lemma SamplingDraws(p: Conditional, vocab: nat, o: Oracle, n: nat, prompt: seq<int>, out: seq<int>, maxNew: int,
                      eos: Option<int>)
    requires OverVocab(p, vocab) && Fair(o) && !Stops(out, maxNew, eos)
    requires forall t: nat :: t < vocab ==>
      Playable(SpeculativeLaw.Sampling(p, vocab, prompt, out + [t], maxNew, eos))
    ensures o.pick(n, p(prompt + out)) < vocab
    ensures var prog := SpeculativeLaw.Sampling(p, vocab, prompt, out, maxNew, eos);
      var t := o.pick(n, p(prompt + out));
      && Playable(prog)
      && Run(o, n, prog) == Run(o, n + 1, SpeculativeLaw.Sampling(p, vocab, prompt, out + [t], maxNew, eos))
  {
    SumHasMass(p(prompt + out));
  }

  /** Sampled decoding is a run of a program whose results have exactly the probabilities that speculation with
      any draft model gives them. */
  lemma SpeculationHasDecodingLaw(tgt: Net, q: Conditional, vocab: pos, k: nat, s: Sampler, n: nat, prompt: seq<int>,
                                  maxNew: int, eos: Option<int>, f: seq<int> -> real)
    requires ExactVocab(tgt, vocab) && ExpLaws(s.exp) && !s.params.Greedy() && Fair(s.oracle) && OverVocab(q, vocab)
    requires |prompt| > 0 && maxNew > 0
    ensures var p := Law(tgt, vocab, s); var sampling := SpeculativeLaw.Sampling(p, vocab, prompt, [], maxNew, eos);
      && Playable(sampling) && Decode(tgt, s, n, prompt, maxNew, eos) == Run(s.oracle, n, sampling).0
      && Expect(Speculating(p, q, vocab, k, prompt, [], maxNew, eos), f) == Expect(sampling, f)
  {
    hide Law, Choose, Logits;
    ContinueIsSampling(tgt, vocab, s, n, prompt, [], maxNew, eos);
    assert prompt + [] == prompt && [] + [Choose(s, n, Logits(tgt, prompt))] == [Choose(s, n, Logits(tgt, prompt))];
    SpeculationIsLossless(Law(tgt, vocab, s), q, vocab, k, prompt, [], maxNew, eos, f);
  }
}
