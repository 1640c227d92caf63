// Sequential speculative decoding with two paged caches that advance and roll back together.
module Speculative {
  import opened Wrappers
  import opened Reference
  import opened BlockPool
  import opened PagedStore
  import opened RaggedForward
  import opened SingleSequence
  import opened Softmax
  import opened KVCache
  import opened ModelRunner
  import opened Seating
  import opened Distributions
  import opened Sampling
  import opened Chance
  import opened Rejection
  import opened SpeculativeLaw

  // ---------- one cache, one sequence ----------

  /** The pool serves sequence `id` alone, with exactly the blocks its tokens need, and the cache holds
      those tokens. */
  ghost predicate Alone(net: Net, store: Store, p: Pool, id: nat, toks: seq<int>) {
    && Sound(net, store, p, NoPins)
    && Only(p, id, |toks|)
    && Holds(net, store, p.blockSize, p.tables[id].blockIds, toks)
    && SoleFrom(p, id, 0)
  }

  // As `Alone`, except that the table may not have room yet for the tokens from `start` on.
  ghost predicate Growing(net: Net, store: Store, p: Pool, id: nat, toks: seq<int>, start: nat) {
    && Sound(net, store, p, NoPins)
    && p.tables.Keys == {id}
    && start <= p.tables[id].numTokens <= |toks| && start < |toks|
    && |p.tables[id].blockIds| == BlocksNeeded(p.blockSize, p.tables[id].numTokens)
    && Holds(net, store, p.blockSize, p.tables[id].blockIds, toks[..start])
    && SoleFrom(p, id, 0)
  }

  // Splitting the blocks for m tokens into those for the first n and the rest.
  lemma BlocksNeededSplit(bs: pos, n: nat, m: nat)
    requires BlocksNeeded(bs, n) * bs <= m
    ensures BlocksNeeded(bs, m) == BlocksNeeded(bs, n) + BlocksNeeded(bs, m - BlocksNeeded(bs, n) * bs)
  {
    var k := BlocksNeeded(bs, n);
    var rest := m - k * bs;
    BlocksNeededBounds(bs, n);
    var q, r := rest / bs, rest % bs;
    assert rest == q * bs + r;
    BlocksNeededIs(bs, q, r, rest);
    assert m == (k + q) * bs + r by {
      assert (k + q) * bs == k * bs + q * bs;
    }
    BlocksNeededIs(bs, k + q, r, m);
  }

  // The pool's size is what is free plus what the one sequence holds.
  lemma CountAlone(p: Pool, id: nat)
    requires Accounted(p, multiset{}) && p.tables.Keys == {id} && SoleFrom(p, id, 0)
    ensures |p.free| + |p.tables[id].blockIds| == p.numBlocks
  {
    var ids := p.tables[id].blockIds;
    SoleDistinct(p, multiset{}, id, 0);
    HoldersSplit(p.tables, id);
    assert p.tables - {id} == map[];
    forall b
      ensures b in p.refCount <==> b in Elems(ids)
    {
      if b in p.refCount {
        assert Refs(p.refCount, b) == (Holders(p.tables) + multiset{})[b];
        assert multiset(ids)[b] > 0;
      } else if b in ids {
        TableReleasable(p, id, multiset{});
      }
    }
    PartitionCount(p, ids);
  }

  // Reserving room for the new tokens readies them for the forward pass.
  lemma ReserveReadies(net: Net, store: Store, p: Pool, id: nat, toks: seq<int>, start: nat)
    requires Growing(net, store, p, id, toks, start)
    ensures var r := Reserve(p, id, |toks| - p.tables[id].numTokens);
      && (r.Err? ==> r.error == OutOfBlocks && p.numBlocks < BlocksNeeded(p.blockSize, |toks|))
      && (r.Ok? ==>
            && id in r.value.tables
            && r.value.blockSize == p.blockSize && r.value.numBlocks == p.numBlocks
            && Sound(net, store, SetLength(r.value, id, |toks|), NoPins)
            && Ready(net, store, SetLength(r.value, id, |toks|), id, toks, start)
            && SoleFrom(SetLength(r.value, id, |toks|), id, 0))
  {
    hide Accounted, SoleFrom, Holds, Shape;
    var bs, t, n := p.blockSize, p.tables[id], |toks|;
    ReserveCount(p, id, n);
    SoleBelow(p, id, start);
    var more := ReserveExtra(p, id, n);
    if more <= |p.free| {
      GrowSole(p, id, more, n);
      var (q, ids) := TakeBlocks(p, more);
      HoldsMoreBlocks(net, store, bs, t.blockIds, ids, toks[..start]);
      var r := q.(tables := q.tables[id := BlockTable(t.blockIds + ids, n)]);
      SoleBelow(r, id, start);
      assert SetLength(Reserve(p, id, n - t.numTokens).value, id, n) == r;
    }
  }

  lemma SoleBelow(p: Pool, id: nat, n: nat)
    requires id in p.tables && SoleFrom(p, id, 0)
    ensures SoleFrom(p, id, BlockIndex(p.blockSize, n))
  {
  }

  // How many blocks `reserve` takes to make room for n tokens in all.
  function ReserveExtra(p: Pool, id: nat, n: nat): (k: nat)
    requires id in p.tables && p.tables[id].numTokens <= n
  {
    var t := p.tables[id];
    var have := |t.blockIds| * p.blockSize - t.numTokens;
    if n - t.numTokens > have then
      BlocksNeededBounds(p.blockSize, n - t.numTokens - have);
      BlocksNeeded(p.blockSize, n - t.numTokens - have)
    else 0
  }

  lemma ReserveCount(p: Pool, id: nat, n: nat)
    requires Accounted(p, multiset{}) && p.tables.Keys == {id} && SoleFrom(p, id, 0)
    requires p.tables[id].numTokens <= n && |p.tables[id].blockIds| == BlocksNeeded(p.blockSize, p.tables[id].numTokens)
    ensures |p.tables[id].blockIds| + ReserveExtra(p, id, n) == BlocksNeeded(p.blockSize, n)
    ensures var r := Reserve(p, id, n - p.tables[id].numTokens); var k := ReserveExtra(p, id, n);
      && (r.Err? <==> k > |p.free|)
      && (r.Err? ==> r.error == OutOfBlocks && p.numBlocks < BlocksNeeded(p.blockSize, n))
      && (r.Ok? ==> var (q, ids) := TakeBlocks(p, k);
            r.value == q.(tables := q.tables[id := p.tables[id].(blockIds := p.tables[id].blockIds + ids)]))
  {
    hide Accounted, SoleFrom;
    var t := p.tables[id];
    var have := |t.blockIds| * p.blockSize - t.numTokens;
    BlocksNeededBounds(p.blockSize, t.numTokens);
    CountAlone(p, id);
    if n - t.numTokens > have {
      BlocksNeededSplit(p.blockSize, t.numTokens, n);
    } else {
      BlocksNeededLeast(p.blockSize, n, |t.blockIds|);
      BlocksNeededMonotone(p.blockSize, t.numTokens, n);
      assert TakeBlocks(p, 0) == (p, []);
      assert t.(blockIds := t.blockIds + []) == t;
      assert p.tables[id := t] == p.tables;
    }
  }

  // Blocks taken from the pool come to the table with a single reference.
  lemma GrowSole(p: Pool, id: nat, n: nat, numTokens: nat)
    requires Accounted(p, multiset{}) && id in p.tables && SoleFrom(p, id, 0) && n <= |p.free|
    ensures var (q, ids) := TakeBlocks(p, n);
      var r := q.(tables := q.tables[id := BlockTable(p.tables[id].blockIds + ids, numTokens)]);
      Accounted(r, multiset{}) && SoleFrom(r, id, 0)
  {
    GrowAccounted(p, id, n, numTokens, multiset{});
    var (q, ids) := TakeBlocks(p, n);
    var old_ids := p.tables[id].blockIds;
    TableReleasable(p, id, multiset{});
    TakeBlocksDistinct(p, n);
    forall i | 0 <= i < |old_ids + ids|
      ensures Refs(q.refCount, (old_ids + ids)[i]) == 1
    {
      TakeBlocksRefs(p, n, (old_ids + ids)[i]);
      if i < |old_ids| {
        assert old_ids[i] in old_ids;
      } else {
        assert ids[i - |old_ids|] in Elems(ids);
      }
    }
  }

  // Rolling back keeps the leading tokens cached and gives the other blocks back.
  lemma TruncateAlone(net: Net, store: Store, p: Pool, id: nat, toks: seq<int>, n: nat)
    requires Alone(net, store, p, id, toks) && n <= |toks|
    ensures Releasable(p, Dropped(p, id, n))
    ensures Alone(net, store, Truncate(p, id, n), id, toks[..n])
  {
    hide Accounted, Holds, Shape, DistinctFrom, BlocksNeeded, ReleaseAll;
    var bs, ids, keep := p.blockSize, p.tables[id].blockIds, BlocksNeeded(p.blockSize, n);
    BlocksNeededMonotone(bs, n, |toks|);
    BlocksNeededBounds(bs, n);
    TruncateAccounted(p, id, n, multiset{});
    SoleDistinct(p, multiset{}, id, 0);
    HoldsPrefix(net, store, bs, ids, toks, n);
    HoldsFewerBlocks(net, store, bs, ids, keep, toks[..n]);
    TruncateSole(p, id, n, keep);
  }

  // The blocks that are kept keep their one reference.
  lemma TruncateSole(p: Pool, id: nat, n: nat, keep: nat)
    requires id in p.tables && Releasable(p, Dropped(p, id, n)) && SoleFrom(p, id, 0)
    requires keep == Kept(p, n) <= |p.tables[id].blockIds| && DistinctFrom(p.tables[id].blockIds, 0)
    ensures SoleFrom(Truncate(p, id, n), id, 0)
    ensures Truncate(p, id, n).tables == p.tables[id := BlockTable(p.tables[id].blockIds[..keep], n)]
  {
    var ids, q := p.tables[id].blockIds, Truncate(p, id, n);
    forall i | 0 <= i < keep
      ensures Refs(q.refCount, ids[i]) == 1
    {
      ReleaseAllOthers(p, ids[keep..], ids[i]);
    }
  }

  // A forward over the reserved tokens, as `Seating.ForwardSeats` has it.
  lemma ForwardAlone(net: Net, store: Store, p: Pool, id: nat, toks: seq<int>, start: nat)
    requires Sound(net, store, p, NoPins) && Ready(net, store, p, id, toks, start) && SoleFrom(p, id, 0)
    ensures Forwardable(net, store, p, id, toks, start)
    ensures var r := OneForward(net, store, p.blockSize, p.numBlocks * p.blockSize, p.tables[id].blockIds, toks, start);
      Alone(net, r.1, p, id, toks) && RowsAre(net, toks, start, r.0)
  {
    ForwardSeats(net, store, p, NoPins, id, toks, start);
    OneForwardIsRef(net, store, p.blockSize, p.numBlocks * p.blockSize, p.tables[id].blockIds, toks, start);
  }

  // ---------- distributions over the common vocabulary ----------

  function Take(v: Vec, n: nat): Vec {
    if n <= |v| then v[..n] else v
  }

  // The model restricted to the first `vocab` token ids.
  function Clip(net: Net, vocab: nat): Net {
    net.(lmHead := h => Take(net.lmHead(h), vocab))
  }

  lemma {:induction false} ClipRows(net: Net, vocab: nat, toks: seq<int>, l: nat)
    requires l <= |net.layers|
    ensures Rows(Clip(net, vocab), toks, l) == Rows(net, toks, l)
  {
    if l > 0 {
      ClipRows(net, vocab, toks, l - 1);
    }
  }

  // The restricted model's logits are the model's own for the common token ids.
  lemma ClipLogits(net: Net, vocab: nat, toks: seq<int>)
    requires |toks| > 0
    ensures Logits(Clip(net, vocab), toks) == Take(Logits(net, toks), vocab)
    ensures vocab <= |Logits(net, toks)| ==>
      && |Logits(Clip(net, vocab), toks)| == vocab
      && forall t :: 0 <= t < vocab ==> Logits(Clip(net, vocab), toks)[t] == Logits(net, toks)[t]
  {
    ClipRows(net, vocab, toks, |net.layers|);
  }

  ghost predicate Covers(net: Net, vocab: pos) {
    forall h :: |net.lmHead(h)| >= vocab
  }

  ghost predicate Sampleable(exp: real -> real, params: SamplingParams) {
    params.Greedy() || ExpLaws(exp)
  }

  /** What the model says about the next token: the sampling distribution of its logits over the common
      vocabulary. */
  ghost function LawOf(net: Net, vocab: pos, exp: real -> real, params: SamplingParams): Conditional
    requires Covers(net, vocab) && Sampleable(exp, params)
  {
    (h: seq<int>) => if h == [] then OneHot(vocab, 0) else LogitsToProbs(exp, Take(Logits(net, h), vocab), params)
  }

  /** The law is the sampling distribution of any vector that has the model's own logits as its entries, one for each
      common token id. */
  lemma LawOfEntries(net: Net, vocab: pos, exp: real -> real, params: SamplingParams, toks: seq<int>, v: Vec)
    requires Covers(net, vocab) && Sampleable(exp, params) && toks != []
    requires |v| == vocab <= |Logits(net, toks)| && forall t :: 0 <= t < vocab ==> v[t] == Logits(net, toks)[t]
    ensures LawOf(net, vocab, exp, params)(toks) == LogitsToProbs(exp, v, params)
  {
    hide LogitsToProbs, Rows;
    assert Take(Logits(net, toks), vocab) == v;
  }

  lemma LawOfOverVocab(net: Net, vocab: pos, exp: real -> real, params: SamplingParams)
    requires Covers(net, vocab) && Sampleable(exp, params)
    ensures OverVocab(LawOf(net, vocab, exp, params), vocab)
  {
    hide LogitsToProbs, Distribution, Rows;
    forall h: seq<int>
      ensures |LawOf(net, vocab, exp, params)(h)| == vocab && Distribution(LawOf(net, vocab, exp, params)(h))
    {
      if h == [] {
        OneHotDistribution(vocab, 0);
      } else {
        LogitsToProbsIsDistribution(exp, Take(Logits(net, h), vocab), params);
      }
    }
  }

  lemma OneHotDistribution(size: nat, hot: nat)
    requires hot < size
    ensures Distribution(OneHot(size, hot))
  {
    OneHotSum(size, hot);
  }

  lemma GreedyLawPicks(net: Net, vocab: pos, exp: real -> real, params: SamplingParams)
    requires Covers(net, vocab) && params.Greedy()
    ensures Picks(LawOf(net, vocab, exp, params), vocab, Clip(net, vocab))
  {
    forall h: seq<int> | |h| > 0
      ensures 0 <= Next(Clip(net, vocab), h) < vocab
      ensures LawOf(net, vocab, exp, params)(h) == OneHot(vocab, Next(Clip(net, vocab), h))
    {
      ClipLogits(net, vocab, h);
    }
  }

  // ---------- greedy generation over the common vocabulary ----------

  // The restricted model's greedy token: the first of the model's own largest logits among the common ids.
  lemma ClippedNext(net: Net, vocab: pos, h: seq<int>)
    requires Covers(net, vocab) && h != []
    ensures vocab <= |Logits(net, h)| && 0 <= Next(Clip(net, vocab), h) < vocab
    ensures var t := Next(Clip(net, vocab), h);
      && (forall j :: 0 <= j < vocab ==> Logits(net, h)[j] <= Logits(net, h)[t])
      && (forall j :: 0 <= j < t ==> Logits(net, h)[j] < Logits(net, h)[t])
    ensures Next(Clip(net, vocab), h) == Next(net, h) <==> Next(net, h) < vocab
  {
    hide Rows;
    ClipLogits(net, vocab, h);
    ArgMaxIsFirstMaximum(Logits(Clip(net, vocab), h));
    ArgMaxIsFirstMaximum(Logits(net, h));
  }

  lemma {:induction false} ClippedExtend(net: Net, vocab: pos, prompt: seq<int>, out: seq<int>, maxNew: int,
                                         eos: Option<int>)
    requires Covers(net, vocab) && prompt != []
    requires forall i :: |out| <= i < |Extend(net, prompt, out, maxNew, eos)| ==>
      Extend(net, prompt, out, maxNew, eos)[i] < vocab
    ensures Extend(Clip(net, vocab), prompt, out, maxNew, eos) == Extend(net, prompt, out, maxNew, eos)
    decreases maxNew - |out|
  {
    hide Next, Covers;
    if !Stops(out, maxNew, eos) {
      var longer := out + [Next(net, prompt + out)];
      ExtendIsPrefix(net, prompt, longer, maxNew, eos);
      assert Extend(net, prompt, out, maxNew, eos)[|out|] == Next(net, prompt + out);
      ClippedNext(net, vocab, prompt + out);
      ClippedExtend(net, vocab, prompt, longer, maxNew, eos);
    }
  }

  /** Restricting the target to the common vocabulary leaves its greedy generation as it is if and only if that has
      common tokens only: the padding at the end of the larger vocabulary never wins. */
  lemma ClippingHarmlessIff(net: Net, vocab: pos, prompt: seq<int>, maxNew: int, eos: Option<int>)
    requires Covers(net, vocab) && prompt != []
    ensures Reference.Generate(Clip(net, vocab), prompt, maxNew, eos) == Reference.Generate(net, prompt, maxNew, eos)
       <==> forall t :: t in Reference.Generate(net, prompt, maxNew, eos) ==> t < vocab
  {
    hide Next, Covers, Extend;
    var own, clipped := Reference.Generate(net, prompt, maxNew, eos),
      Reference.Generate(Clip(net, vocab), prompt, maxNew, eos);
    if forall t :: t in own ==> t < vocab {
      ExtendIsPrefix(net, prompt, [Next(net, prompt)], maxNew, eos);
      assert own[0] in own && own[0] == Next(net, prompt);
      ClippedNext(net, vocab, prompt);
      assert forall i :: 0 <= i < |own| ==> own[i] in own;
      ClippedExtend(net, vocab, prompt, [Next(net, prompt)], maxNew, eos);
    }
    ClippedTokens(net, vocab, prompt, maxNew, eos);
  }

  // The tokens generated over the common vocabulary, said of the model's own logits.
  lemma ClippedTokens(net: Net, vocab: pos, prompt: seq<int>, maxNew: int, eos: Option<int>)
    requires Covers(net, vocab) && prompt != []
    ensures var out := Reference.Generate(Clip(net, vocab), prompt, maxNew, eos);
      forall i {:trigger out[..i]} :: 0 <= i < |out| ==>
        && 0 <= out[i] < vocab <= |Logits(net, prompt + out[..i])|
        && (forall j :: 0 <= j < vocab ==> Logits(net, prompt + out[..i])[j] <= Logits(net, prompt + out[..i])[out[i]])
        && (forall j :: 0 <= j < out[i] ==> Logits(net, prompt + out[..i])[j] < Logits(net, prompt + out[..i])[out[i]])
    ensures forall t :: t in Reference.Generate(Clip(net, vocab), prompt, maxNew, eos) ==> t < vocab
  {
    hide Next, Covers, Extend, Logits, Stops;
    var clip := Clip(net, vocab);
    var out, first := Reference.Generate(clip, prompt, maxNew, eos), [Next(clip, prompt)];
    assert prompt + first[..0] == prompt;
    ExtendIsOnPath(clip, prompt, first, maxNew, eos);
    forall i | 0 <= i < |out|
      ensures out[i] == Next(clip, prompt + out[..i]) && 0 <= out[i] < vocab <= |Logits(net, prompt + out[..i])|
      ensures forall j :: 0 <= j < vocab ==>
        Logits(net, prompt + out[..i])[j] <= Logits(net, prompt + out[..i])[out[i]]
      ensures forall j :: 0 <= j < out[i] ==>
        Logits(net, prompt + out[..i])[j] < Logits(net, prompt + out[..i])[out[i]]
    {
      assert out[..i] == out[..i];
      ClippedNext(net, vocab, prompt + out[..i]);
    }
  }

  lemma AloneGrowing(net: Net, store: Store, p: Pool, id: nat, toks: seq<int>, more: seq<int>)
    requires Alone(net, store, p, id, toks) && more != []
    ensures Growing(net, store, p, id, toks + more, |toks|)
    ensures (toks + more)[|toks|..] == more
  {
    assert (toks + more)[..|toks|] == toks;
  }

  lemma AllocateGrowing(net: Net, store: Store, p: Pool, id: nat, prompt: seq<int>)
    requires Sound(net, store, p, NoPins) && p.tables == map[] && |prompt| > 0
    ensures var r := Allocate(p, id, |prompt|, []);
      && (r.Err? <==> p.numBlocks < BlocksNeeded(p.blockSize, |prompt|))
      && (r.Err? ==> r.error == OutOfBlocks)
      && (r.Ok? ==> Growing(net, store, r.value, id, prompt, 0))
  {
    AllFree(p);
    BlocksNeededBounds(p.blockSize, |prompt|);
    NothingAdoptable(net, store, p, prompt);
    AllocateReadies(net, store, p, NoPins, id, prompt, []);
    AllocateSeats(p, multiset{}, id, |prompt|, []);
    assert prompt[..0] == [];
  }

  lemma FreeAlone(net: Net, store: Store, p: Pool, id: nat)
    requires Sound(net, store, p, NoPins) && p.tables.Keys == {id}
    ensures Releasable(p, p.tables[id].blockIds)
    ensures Sound(net, store, Free(p, id), NoPins) && Free(p, id).tables == map[]
    ensures |Free(p, id).free| == p.numBlocks
  {
    FreeSound(net, store, p, NoPins, id);
    AllFree(Free(p, id));
  }

  // ---------- the engine ----------

  datatype Stats = Stats(iters: nat, proposed: nat, accepted: nat, emitted: nat)

  // At most one iteration per output token, k tokens drafted in each, no more accepted than drafted; the output is the
  // accepted tokens and one more for each iteration, short of the at most k that the limit or end-of-sequence cuts off.
  ghost predicate Tallied(k: pos, s: Stats, outputs: nat) {
    && s.emitted == outputs && s.iters <= outputs && s.proposed == k * s.iters && s.accepted <= s.proposed
    && s.emitted <= s.accepted + s.iters <= s.emitted + k
  }

  // Nothing has been cut off.
  ghost predicate Uncut(s: Stats) {
    s.accepted + s.iters == s.emitted
  }

  function Counted(s: Stats, k: pos, accepted: nat, outputs: nat): Stats {
    Stats(s.iters + 1, s.proposed + k, s.accepted + accepted, outputs)
  }

  lemma NothingTallied(k: pos)
    ensures Tallied(k, Stats(0, 0, 0, 0), 0) && Uncut(Stats(0, 0, 0, 0))
  {
    assert k * 0 == 0;
  }

  lemma CountedTallied(k: pos, s: Stats, before: nat, accepted: nat, outputs: nat)
    requires Tallied(k, s, before) && Uncut(s) && before < outputs <= before + accepted + 1 && accepted <= k
    ensures Tallied(k, Counted(s, k, accepted, outputs), outputs)
    ensures outputs == before + accepted + 1 ==> Uncut(Counted(s, k, accepted, outputs))
  {
    assert k * (s.iters + 1) == k * s.iters + k;
  }

  // One iteration's results: the emitted tokens and both models' next distributions.
  datatype Iteration = Iteration(emitted: seq<nat>, accepted: nat, pNext: seq<real>, qNext: seq<real>)

  ghost predicate Fitted(runner: Runner, cache: PagedKVCache) {
    && cache.Valid()
    && cache.numLayers == |runner.net.layers|
    && (runner.triton ==> SoftmaxNet(runner.net, runner.attn))
  }

  ghost predicate Stored(runner: Runner, cache: PagedKVCache, id: nat, toks: seq<int>)
    reads cache.manager, cache.kv
  {
    Fitted(runner, cache) && Alone(runner.net, cache.Contents(), cache.manager.State(), id, toks)
  }

  // The sequence's blocks can be given back whatever happened.
  ghost predicate Releasing(runner: Runner, cache: PagedKVCache, id: nat)
    reads cache.manager, cache.kv
  {
    && Fitted(runner, cache)
    && Sound(runner.net, cache.Contents(), cache.manager.State(), NoPins)
    && cache.manager.tables.Keys == {id}
  }

  ghost predicate Idle(runner: Runner, cache: PagedKVCache)
    reads cache.manager, cache.kv
  {
    && Fitted(runner, cache)
    && Sound(runner.net, cache.Contents(), cache.manager.State(), NoPins)
    && cache.manager.tables == map[]
  }

  function LogitRows(net: Net, hidden: seq<Vec>): (rows: seq<Vec>)
    ensures |rows| == |hidden|
  {
    seq(|hidden|, i requires 0 <= i < |hidden| => net.lmHead(hidden[i]))
  }

  ghost predicate LogitsFrom(net: Net, toks: seq<int>, start: nat, rows: seq<Vec>) {
    start + |rows| == |toks| && forall i :: 0 <= i < |rows| ==> rows[i] == Logits(net, toks[..start + i + 1])
  }

  lemma RowsAreLogits(net: Net, toks: seq<int>, start: nat, hidden: seq<Vec>)
    requires RowsAre(net, toks, start, hidden)
    ensures LogitsFrom(net, toks, start, LogitRows(net, hidden))
  {
  }

  // `_forward`: the tokens at positions from `startPos` on, into the cache; their logits.
  method ForwardTokens(runner: Runner, cache: PagedKVCache, id: nat, tokens: seq<int>, startPos: nat,
                       ghost toks: seq<int>)
      returns (r: Result<seq<Vec>>)
    requires Fitted(runner, cache)
    requires Growing(runner.net, cache.Contents(), cache.manager.State(), id, toks, startPos)
    requires tokens == toks[startPos..]
    modifies cache.manager, cache.kv
    ensures Releasing(runner, cache, id)
    ensures r.Ok? ==> Stored(runner, cache, id, toks) && LogitsFrom(runner.net, toks, startPos, r.value)
    ensures r.Err? ==> r.error == OutOfBlocks && cache.numBlocks < BlocksNeeded(cache.blockSize, |toks|)
  {
    hide Accounted, SoleFrom, Holds, Shape, OneForward, Forward;
    var n := |tokens|;
    ReserveReadies(runner.net, cache.Contents(), cache.manager.State(), id, toks, startPos);
    var reserved := cache.manager.Reserve(id, startPos + n - cache.manager.tables[id].numTokens);
    if reserved.Err? {
      return Err(reserved.error);
    }
    cache.manager.SetNumTokens(id, startPos + n);
    ForwardAlone(runner.net, cache.Contents(), cache.manager.State(), id, toks, startPos);
    var hidden := ForwardOne(runner, cache, cache.manager.tables[id].blockIds, tokens, startPos, toks);
    RowsAreLogits(runner.net, toks, startPos, hidden);
    r := Ok(LogitRows(runner.net, hidden));
  }

  method Rollback(runner: Runner, cache: PagedKVCache, id: nat, n: nat, ghost toks: seq<int>)
    requires Stored(runner, cache, id, toks) && n <= |toks|
    modifies cache.manager
    ensures Stored(runner, cache, id, toks[..n])
  {
    hide Accounted, SoleFrom, Holds, Shape;
    TruncateAlone(runner.net, cache.Contents(), cache.manager.State(), id, toks, n);
    cache.manager.Truncate(id, n);
  }

  // Forwards tokens right after what the cache holds.
  method ForwardNext(runner: Runner, cache: PagedKVCache, id: nat, tokens: seq<int>,
                     ghost toks: seq<int>) returns (r: Result<seq<Vec>>)
    requires Stored(runner, cache, id, toks) && tokens != []
    modifies cache.manager, cache.kv
    ensures Releasing(runner, cache, id)
    ensures r.Ok? ==> Stored(runner, cache, id, toks + tokens) && LogitsFrom(runner.net, toks + tokens, |toks|, r.value)
    ensures r.Err? ==> r.error == OutOfBlocks && cache.numBlocks < BlocksNeeded(cache.blockSize, |toks| + |tokens|)
  {
    hide Sound, SoleFrom, Holds;
    AloneGrowing(runner.net, cache.Contents(), cache.manager.State(), id, toks, tokens);
    r := ForwardTokens(runner, cache, id, tokens, cache.manager.tables[id].numTokens, toks + tokens);
  }

  // ---------- following the run of the program ----------

  // The draws so far have drafted `draft`.
  ghost predicate Drew(o: Oracle, n0: nat, n: nat, p: Conditional, q: Conditional, vocab: nat, toks: seq<int>, k: nat,
                       draft: seq<nat>) {
    && Fair(o) && OverVocab(p, vocab) && OverVocab(q, vocab) && |draft| <= k
    && Playable(Drafting(p, q, vocab, toks, k, [])) && Playable(Drafting(p, q, vocab, toks, k, draft))
    && Run(o, n0, Drafting(p, q, vocab, toks, k, [])) == Run(o, n, Drafting(p, q, vocab, toks, k, draft))
  }

  lemma DrewNothing(o: Oracle, n: nat, p: Conditional, q: Conditional, vocab: nat, toks: seq<int>, k: nat)
    requires Fair(o) && OverVocab(p, vocab) && OverVocab(q, vocab)
    ensures Drew(o, n, n, p, q, vocab, toks, k, [])
  {
    DraftingPlayable(p, q, vocab, toks, k, []);
  }

  lemma DrewOne(o: Oracle, n0: nat, n: nat, p: Conditional, q: Conditional, vocab: nat, toks: seq<int>, k: nat,
                draft: seq<nat>)
    requires Drew(o, n0, n, p, q, vocab, toks, k, draft) && |draft| < k
    ensures Drew(o, n0, n + 1, p, q, vocab, toks, k, draft + [o.pick(n, q(toks + draft))])
  {
    hide Fair, Drafting, Playable, Run, OverVocab;
    DraftOne(o, n, p, q, vocab, toks, k, draft);
  }

  // The iteration that starts at the n0-th choice emits `e` and ends at the n-th.
  ghost predicate Iterated(o: Oracle, n0: nat, n: nat, p: Conditional, q: Conditional, vocab: nat, toks: seq<int>,
                           k: nat, e: Emission) {
    && Fair(o) && OverVocab(p, vocab) && OverVocab(q, vocab)
    && Playable(Drafting(p, q, vocab, toks, k, []))
    && Run(o, n0, Drafting(p, q, vocab, toks, k, [])) == (e, n)
  }

  lemma DrewAll(o: Oracle, n0: nat, n: nat, p: Conditional, q: Conditional, vocab: nat, toks: seq<int>, k: nat,
                draft: seq<nat>)
    requires Drew(o, n0, n, p, q, vocab, toks, k, draft) && |draft| == k
    ensures RowsOk(draft, RowsAlong(q, toks, draft), RowsAlong(p, toks, draft), p(toks + draft))
    ensures var verifying := Verifying(draft, RowsAlong(q, toks, draft), RowsAlong(p, toks, draft), p(toks + draft), 0);
      Playable(verifying) && var (e, m) := Run(o, n, verifying); Iterated(o, n0, m, p, q, vocab, toks, k, e)
  {
    hide Fair, Verifying, Playable, Run, OverVocab;
    RowsAlongOk(p, q, vocab, toks, draft);
  }

  // The whole generation that starts at the n0-th choice has come to `out` at the n-th.
  ghost predicate Followed(o: Oracle, n0: nat, n: nat, p: Conditional, q: Conditional, vocab: nat, k: nat,
                           prompt: seq<int>, out: seq<int>,
                          maxNew: int, eos: Option<int>) {
    && Fair(o) && OverVocab(p, vocab) && OverVocab(q, vocab)
    && Playable(Speculating(p, q, vocab, k, prompt, [], maxNew, eos))
    && Playable(Speculating(p, q, vocab, k, prompt, out, maxNew, eos))
    && Run(o, n0, Speculating(p, q, vocab, k, prompt, [], maxNew, eos)) ==
      Run(o, n, Speculating(p, q, vocab, k, prompt, out, maxNew, eos))
  }

  lemma FollowedNothing(o: Oracle, n: nat, p: Conditional, q: Conditional, vocab: nat, k: nat, prompt: seq<int>,
                        maxNew: int, eos: Option<int>)
    requires Fair(o) && OverVocab(p, vocab) && OverVocab(q, vocab)
    ensures Followed(o, n, n, p, q, vocab, k, prompt, [], maxNew, eos)
  {
    hide Fair, OverVocab, Playable, Run;
    SpeculatingPlayable(p, q, vocab, k, prompt, [], maxNew, eos, o);
  }

  lemma FollowedMore(o: Oracle, n0: nat, n: nat, m: nat, p: Conditional, q: Conditional, vocab: nat, k: nat,
                     prompt: seq<int>, out: seq<int>,
                    maxNew: int, eos: Option<int>, e: Emission)
    requires Followed(o, n0, n, p, q, vocab, k, prompt, out, maxNew, eos) && !Stops(out, maxNew, eos)
    requires Iterated(o, n, m, p, q, vocab, prompt + out, k, e)
    ensures Followed(o, n0, m, p, q, vocab, k, prompt, EmitAll(out, e.Tokens(), maxNew, eos), maxNew, eos)
  {
    hide Fair, OverVocab, Playable, Run, Drafting, Speculating, EmitAll, Stops;
    SpeculateOne(o, n, p, q, vocab, k, prompt, out, maxNew, eos);
  }

  /** The output is that of the program run on the oracle's choices from the n0-th on. */
  ghost predicate OutputOf(o: Oracle, n0: nat, p: Conditional, q: Conditional, vocab: nat, k: nat, prompt: seq<int>,
                           maxNew: int, eos: Option<int>,
                           out: seq<int>) {
    && Fair(o) && OverVocab(p, vocab) && OverVocab(q, vocab)
    && Playable(Speculating(p, q, vocab, k, prompt, [], maxNew, eos))
    && out == Run(o, n0, Speculating(p, q, vocab, k, prompt, [], maxNew, eos)).0
  }

  lemma FollowedEnd(o: Oracle, n0: nat, n: nat, p: Conditional, q: Conditional, vocab: nat, k: nat, prompt: seq<int>,
                    out: seq<int>,
                   maxNew: int, eos: Option<int>)
    requires Followed(o, n0, n, p, q, vocab, k, prompt, out, maxNew, eos) && Stops(out, maxNew, eos)
    ensures OutputOf(o, n0, p, q, vocab, k, prompt, maxNew, eos, out)
  {
    hide Fair, OverVocab, Stops;
  }

  // With a greedy target that output is the target's own greedy generation.
  lemma GreedyOutput(o: Oracle, n0: nat, tgt: Net, q: Conditional, vocab: pos, exp: real -> real,
                     params: SamplingParams, k: nat,
                     prompt: seq<int>, maxNew: int, eos: Option<int>, out: seq<int>)
    requires Covers(tgt, vocab) && params.Greedy() && |prompt| > 0
    requires OutputOf(o, n0, LawOf(tgt, vocab, exp, params), q, vocab, k, prompt, maxNew, eos, out)
    ensures out == if maxNew <= 0 then [] else Reference.Generate(Clip(tgt, vocab), prompt, maxNew, eos)
  {
    hide Fair, OverVocab, Run, Speculating, Next, Picks;
    GreedyLawPicks(tgt, vocab, exp, params);
    GreedySpeculation(o, n0, LawOf(tgt, vocab, exp, params), q, vocab, k, prompt, [], maxNew, eos, Clip(tgt, vocab));
    assert prompt + [] == prompt;
    assert [] + [Next(Clip(tgt, vocab), prompt)] == [Next(Clip(tgt, vocab), prompt)];
  }

  lemma OutputIsWhole(o: Oracle, n0: nat, p: Conditional, q: Conditional, vocab: nat, k: nat, prompt: seq<int>,
                      maxNew: int, eos: Option<int>, out: seq<int>)
    requires OutputOf(o, n0, p, q, vocab, k, prompt, maxNew, eos, out)
    ensures if maxNew <= 0 then out == [] else WholeOutput(out, maxNew, eos)
  {
    hide WholeOutput, Fair, OverVocab;
    if maxNew > 0 {
      SpeculationIsWhole(o, n0, p, q, vocab, k, prompt, [], maxNew, eos);
    }
  }

  class SpeculativeEngine {
    const tgt: Runner
    const drf: Runner
    const tgtCache: PagedKVCache
    const drfCache: PagedKVCache
    const k: pos
    const vocab: pos
    const exp: real -> real
    var ids: nat

    // Two runners over two separate caches of the same size; both models cover the common vocabulary.
    ghost predicate Wired() {
      && tgtCache != drfCache && tgtCache.manager != drfCache.manager && tgtCache.kv != drfCache.kv
      && tgtCache.numBlocks == drfCache.numBlocks && tgtCache.blockSize == drfCache.blockSize
      && Covers(tgt.net, vocab) && Covers(drf.net, vocab)
    }

    ghost function TargetLaw(params: SamplingParams): Conditional
      requires Wired() && Sampleable(exp, params)
    {
      LawOf(tgt.net, vocab, exp, params)
    }

    ghost function DraftLaw(params: SamplingParams): Conditional
      requires Wired() && Sampleable(exp, params)
    {
      LawOf(drf.net, vocab, exp, params)
    }

    lemma LawsOverVocab(params: SamplingParams)
      requires Wired() && Sampleable(exp, params)
      ensures OverVocab(TargetLaw(params), vocab) && OverVocab(DraftLaw(params), vocab)
    {
      LawOfOverVocab(tgt.net, vocab, exp, params);
      LawOfOverVocab(drf.net, vocab, exp, params);
    }

    ghost predicate Valid()
      reads tgtCache.manager, tgtCache.kv, drfCache.manager, drfCache.kv
    {
      Wired() && Idle(tgt, tgtCache) && Idle(drf, drfCache)
    }

    // Both caches hold exactly `toks`.
    ghost predicate InStep(id: nat, toks: seq<int>)
      reads tgtCache.manager, tgtCache.kv, drfCache.manager, drfCache.kv
    {
      Wired() && Stored(tgt, tgtCache, id, toks) && Stored(drf, drfCache, id, toks)
    }

    ghost predicate BothReleasing(id: nat)
      reads tgtCache.manager, tgtCache.kv, drfCache.manager, drfCache.kv
    {
      Wired() && Releasing(tgt, tgtCache, id) && Releasing(drf, drfCache, id)
    }

    // The common vocabulary is the smaller one.
    constructor (tgt: Runner, drf: Runner, tgtCache: PagedKVCache, drfCache: PagedKVCache, k: pos, tgtVocab: pos,
                 drfVocab: pos, exp: real -> real)
      requires tgtCache != drfCache && tgtCache.manager != drfCache.manager && tgtCache.kv != drfCache.kv
      requires tgtCache.numBlocks == drfCache.numBlocks && tgtCache.blockSize == drfCache.blockSize
      requires Covers(tgt.net, tgtVocab) && Covers(drf.net, drfVocab)
      requires Fitted(tgt, tgtCache) && Fitted(drf, drfCache)
      requires tgtCache.manager.State() == EmptyPool(tgtCache.numBlocks, tgtCache.blockSize)
      requires drfCache.manager.State() == EmptyPool(drfCache.numBlocks, drfCache.blockSize)
      ensures Valid() && this.tgt == tgt && this.drf == drf && this.tgtCache == tgtCache && this.drfCache == drfCache
      ensures this.k == k && this.exp == exp
      ensures vocab <= tgtVocab && vocab <= drfVocab && (vocab == tgtVocab || vocab == drfVocab)
    {
      this.tgt, this.drf, this.tgtCache, this.drfCache := tgt, drf, tgtCache, drfCache;
      this.k, this.exp := k, exp;
      vocab := if tgtVocab <= drfVocab then tgtVocab else drfVocab;
      ids := 1;
      EmptyAccounted(tgtCache.numBlocks, tgtCache.blockSize);
    }

    // The sampling distribution over the common vocabulary.
    method Probs(logits: Vec, params: SamplingParams, ghost net: Net, ghost toks: seq<int>) returns (d: seq<real>)
      requires Covers(net, vocab) && Sampleable(exp, params) && |toks| > 0 && logits == Logits(net, toks)
      ensures d == LawOf(net, vocab, exp, params)(toks)
    {
      d := LogitsToProbs(exp, Take(logits, vocab), params);
    }

    // 1) The draft model proposes k tokens, caching all but the last.
    method Propose(id: nat, qNext: seq<real>, params: SamplingParams, gen: Generator, ghost toks: seq<int>)
        returns (r: Result<(seq<nat>, seq<seq<real>>)>)
      requires Sampleable(exp, params) && Fair(gen.oracle) && Wired() && |toks| > 0
      requires Stored(drf, drfCache, id, toks) && qNext == DraftLaw(params)(toks)
      modifies drfCache.manager, drfCache.kv, gen
      ensures Releasing(drf, drfCache, id)
      ensures r.Ok? ==> var (draft, q) := r.value;
        && |draft| == k && q == RowsAlong(DraftLaw(params), toks, draft)
        && Drew(gen.oracle, old(gen.used), gen.used, TargetLaw(params), DraftLaw(params), vocab, toks, k, draft)
        && Stored(drf, drfCache, id, toks + draft[..k - 1])
      ensures r.Err? ==> r.error == OutOfBlocks && drfCache.numBlocks < BlocksNeeded(drfCache.blockSize, |toks| + k)
    {
      hide Alone, LogitsFrom, Covers, Sampleable, Fair, LawOf, Logits, Sound, SoftmaxNet, Drew, RowsAlong, OverVocab;
      StoredReleasing(drf, drfCache, id, toks);
      LawsOverVocab(params);
      ghost var p, q' := TargetLaw(params), DraftLaw(params);
      DrewNothing(gen.oracle, gen.used, p, q', vocab, toks, k);
      assert toks + [] == toks;
      DrewOne(gen.oracle, gen.used, gen.used, p, q', vocab, toks, k, []);
      var tok := gen.Multinomial(qNext);
      var draft: seq<nat>, q := [tok], [qNext];
      FirstRow(q', toks, tok);
      assert toks + draft[..0] == toks && [] + [tok] == draft;
      for i := 0 to k - 1
        invariant |draft| == i + 1 && tok == draft[i] && q == RowsAlong(q', toks, draft)
        invariant Drew(gen.oracle, old(gen.used), gen.used, p, q', vocab, toks, k, draft)
        invariant Stored(drf, drfCache, id, toks + draft[..i]) && Wired()
      {
        ghost var cached := toks + draft[..i];
        assert draft[..i + 1] == draft && cached + [tok] == toks + draft;
        BlocksNeededMonotone(drfCache.blockSize, |cached| + 1, |toks| + k);
        var dl := ForwardNext(drf, drfCache, id, [tok], cached);
        if dl.Err? {
          return Err(dl.error);
        }
        LastLogits(drf.net, cached + [tok], |cached|, dl.value);
        var qd := Probs(dl.value[|dl.value| - 1], params, drf.net, toks + draft);
        DrewOne(gen.oracle, old(gen.used), gen.used, p, q', vocab, toks, k, draft);
        tok := gen.Multinomial(qd);
        NextRow(q', toks, draft, tok);
        q := q + [qd];
        assert (draft + [tok])[..i + 1] == draft;
        draft := draft + [tok];
      }
      StoredReleasing(drf, drfCache, id, toks + draft[..k - 1]);
      r := Ok((draft, q));
    }

    // 2) The target verifies all drafted tokens in one forward.
    method Verify(id: nat, draft: seq<nat>, pNext: seq<real>, params: SamplingParams, ghost toks: seq<int>)
        returns (r: Result<(seq<seq<real>>, seq<real>)>)
      requires Sampleable(exp, params) && Wired() && |toks| > 0 && |draft| == k
      requires Stored(tgt, tgtCache, id, toks) && pNext == TargetLaw(params)(toks)
      modifies tgtCache.manager, tgtCache.kv
      ensures Releasing(tgt, tgtCache, id)
      ensures r.Ok? ==> var (p, bonus) := r.value;
        && p == RowsAlong(TargetLaw(params), toks, draft) && bonus == TargetLaw(params)(toks + draft)
        && Stored(tgt, tgtCache, id, toks + draft)
      ensures r.Err? ==> r.error == OutOfBlocks && tgtCache.numBlocks < BlocksNeeded(tgtCache.blockSize, |toks| + k)
    {
      hide Alone, Covers, Sampleable, LawOf, Logits, Sound, SoftmaxNet;
      var tl := ForwardNext(tgt, tgtCache, id, draft, toks);
      if tl.Err? {
        return Err(tl.error);
      }
      var p := [pNext];
      assert toks + draft[..0] == toks;
      for j := 0 to k - 1
        invariant |p| == j + 1 && forall i :: 0 <= i <= j ==> p[i] == TargetLaw(params)(toks + draft[..i])
        invariant Stored(tgt, tgtCache, id, toks + draft) && Releasing(tgt, tgtCache, id)
      {
        assert (toks + draft)[..|toks| + j + 1] == toks + draft[..j + 1];
        var pj := Probs(tl.value[j], params, tgt.net, toks + draft[..j + 1]);
        p := p + [pj];
      }
      assert p == RowsAlong(TargetLaw(params), toks, draft);
      assert (toks + draft)[..|toks| + (k - 1) + 1] == toks + draft;
      var bonus := Probs(tl.value[k - 1], params, tgt.net, toks + draft);
      r := Ok((p, bonus));
    }

    // 4) Target: keep the accepted tokens, forward only the correction token.
    method ResyncTarget(id: nat, start: nat, accepted: nat, emitted: seq<nat>, params: SamplingParams,
                        ghost toks: seq<int>, ghost draft: seq<nat>) returns (r: Result<seq<real>>)
      requires Sampleable(exp, params) && Wired() && |toks| > 0 && start == |toks| && accepted <= |draft|
      requires |emitted| == accepted + 1 && emitted[..accepted] == draft[..accepted]
      requires Stored(tgt, tgtCache, id, toks + draft)
      modifies tgtCache.manager, tgtCache.kv
      ensures Releasing(tgt, tgtCache, id)
      ensures r.Ok? ==> Stored(tgt, tgtCache, id, toks + emitted) && r.value == TargetLaw(params)(toks + emitted)
      ensures r.Err? ==>
        r.error == OutOfBlocks && tgtCache.numBlocks < BlocksNeeded(tgtCache.blockSize, |toks| + |emitted|)
    {
      hide Alone, Covers, Sampleable, LawOf, Logits, Sound, SoftmaxNet, LogitsFrom;
      Rollback(tgt, tgtCache, id, start + accepted, toks + draft);
      ghost var kept := toks + draft[..accepted];
      assert (toks + draft)[..start + accepted] == kept;
      assert kept + [emitted[accepted]] == toks + emitted;
      var tl := ForwardNext(tgt, tgtCache, id, [emitted[|emitted| - 1]], kept);
      if tl.Err? {
        return Err(tl.error);
      }
      LastLogits(tgt.net, toks + emitted, |kept|, tl.value);
      var pNext := Probs(tl.value[|tl.value| - 1], params, tgt.net, toks + emitted);
      r := Ok(pNext);
    }

    // Draft: the accepted tokens are cached already, except the last one when all were accepted.
    method ResyncDraft(id: nat, base: nat, accepted: nat, emitted: seq<nat>, draft: seq<nat>, params: SamplingParams,
                       ghost toks: seq<int>) returns (r: Result<seq<real>>)
      requires Sampleable(exp, params) && Wired() && |toks| > 0 && base == |toks| && accepted <= |draft| == k
      requires |emitted| == accepted + 1 && emitted[..accepted] == draft[..accepted]
      requires Stored(drf, drfCache, id, toks + draft[..k - 1])
      modifies drfCache.manager, drfCache.kv
      ensures Releasing(drf, drfCache, id)
      ensures r.Ok? ==> Stored(drf, drfCache, id, toks + emitted) && r.value == DraftLaw(params)(toks + emitted)
      ensures r.Err? ==>
        r.error == OutOfBlocks && drfCache.numBlocks < BlocksNeeded(drfCache.blockSize, |toks| + |emitted|)
    {
      hide Alone, Covers, Sampleable, LawOf, Logits, Sound, SoftmaxNet, LogitsFrom;
      ghost var cached := toks + draft[..k - 1];
      ghost var kept;
      var toForward: seq<nat>;
      if accepted <= k - 1 {
        Rollback(drf, drfCache, id, base + accepted, cached);
        kept := toks + draft[..accepted];
        assert cached[..base + accepted] == kept;
        toForward := [emitted[|emitted| - 1]];
      } else {
        Rollback(drf, drfCache, id, base + k - 1, cached);
        kept := cached;
        assert cached[..base + k - 1] == cached;
        toForward := [draft[k - 1], emitted[|emitted| - 1]];
        assert draft[..k] == draft && emitted[..k] == draft;
      }
      assert kept + toForward == toks + emitted;
      var dl := ForwardNext(drf, drfCache, id, toForward, kept);
      if dl.Err? {
        return Err(dl.error);
      }
      LastLogits(drf.net, toks + emitted, |kept|, dl.value);
      var qNext := Probs(dl.value[|dl.value| - 1], params, drf.net, toks + emitted);
      r := Ok(qNext);
    }

    /** One iteration: draft, verify, roll back, resync.  Both caches go from holding `toks` to holding
        `toks` and the emitted tokens, which are those the program emits on the same random choices. */
    method Iterate(id: nat, pNext: seq<real>, qNext: seq<real>, params: SamplingParams, gen: Generator,
                   ghost toks: seq<int>)
        returns (r: Result<Iteration>)
      requires Fair(gen.oracle) && |toks| > 0 && InStep(id, toks) && Sampleable(exp, params)
      requires pNext == TargetLaw(params)(toks) && qNext == DraftLaw(params)(toks)
      modifies tgtCache.manager, tgtCache.kv, drfCache.manager, drfCache.kv, gen
      ensures BothReleasing(id)
      ensures r.Ok? ==> var it := r.value;
        && InStep(id, toks + it.emitted)
        && it.accepted <= k && |it.emitted| == it.accepted + 1
        && Iterated(gen.oracle, old(gen.used), gen.used, TargetLaw(params), DraftLaw(params), vocab, toks, k,
                    Emission(it.emitted[..it.accepted], it.emitted[it.accepted]))
        && it.pNext == TargetLaw(params)(toks + it.emitted) && it.qNext == DraftLaw(params)(toks + it.emitted)
      ensures r.Err? ==> r.error == OutOfBlocks && tgtCache.numBlocks < BlocksNeeded(tgtCache.blockSize, |toks| + k + 1)
    {
      hide Alone, Covers, Sampleable, LawOf, Logits, Sound, SoftmaxNet, LogitsFrom, Fair, Drew, Iterated, Verifying,
        Run, Playable, RowsOk,
        RowsAlong, BlocksNeeded, Fitted, OneHot, Shape;
      StoredReleasing(tgt, tgtCache, id, toks);
      StoredReleasing(drf, drfCache, id, toks);
      BlocksNeededMonotone(tgtCache.blockSize, |toks| + k, |toks| + k + 1);
      var proposed := Propose(id, qNext, params, gen, toks);
      if proposed.Err? {
        return Err(proposed.error);
      }
      var (draft, q) := proposed.value;
      var start := tgtCache.manager.tables[id].numTokens;
      assert start == |toks| by { AloneLength(tgt.net, tgtCache.Contents(), tgtCache.manager.State(), id, toks); }
      var verified := Verify(id, draft, pNext, params, toks);
      if verified.Err? {
        return Err(verified.error);
      }
      var (p, bonus) := verified.value;
      DrewAll(gen.oracle, old(gen.used), gen.used, TargetLaw(params), DraftLaw(params), vocab, toks, k, draft);
      var emitted, accepted := RejectionSample(draft, q, p, bonus, gen);
      BlocksNeededMonotone(tgtCache.blockSize, |toks| + |emitted|, |toks| + k + 1);
      var pNext' := ResyncTarget(id, start, accepted, emitted, params, toks, draft);
      if pNext'.Err? {
        return Err(pNext'.error);
      }
      var qNext' := ResyncDraft(id, start, accepted, emitted, draft, params, toks);
      if qNext'.Err? {
        return Err(qNext'.error);
      }
      r := Ok(Iteration(emitted, accepted, pNext'.value, qNext'.value));
    }

    // 5) Emits tokens until the limit or the end-of-sequence token.
    method Emit(before: seq<int>, emitted: seq<nat>, maxNew: int, eos: Option<int>) returns (out: seq<int>, stop: bool)
      requires !Stops(before, maxNew, eos)
      ensures out == EmitAll(before, emitted, maxNew, eos)
      ensures stop <==> Stops(out, maxNew, eos)
      ensures WithinLimits(before, maxNew, eos) ==>
        WithinLimits(out, maxNew, eos) && (stop <==> WholeOutput(out, maxNew, eos))
    {
      if WithinLimits(before, maxNew, eos) {
        EmitAllWithin(before, emitted, maxNew, eos);
      }
      out, stop := before, false;
      for i := 0 to |emitted|
        invariant out == EmitAll(before, emitted[..i], maxNew, eos) && !Stops(out, maxNew, eos)
      {
        assert emitted[..i + 1][..i] == emitted[..i];
        out := out + [emitted[i]];
        if |out| >= maxNew || Some(emitted[i]) == eos {
          StoppedStays(before, emitted, i + 1, maxNew, eos);
          return out, true;
        }
      }
      assert emitted[..|emitted|] == emitted;
    }

    // Allocates in both pools and prefills the prompt into both caches.
    method Start(id: nat, prompt: seq<int>, params: SamplingParams) returns (r: Result<(seq<real>, seq<real>)>)
      requires Valid() && |prompt| > 0 && Sampleable(exp, params)
      modifies tgtCache.manager, tgtCache.kv, drfCache.manager, drfCache.kv
      ensures r.Ok? ==> InStep(id, prompt)
      ensures r.Ok? ==> r.value == (TargetLaw(params)(prompt), DraftLaw(params)(prompt))
      ensures r.Err? ==>
        r.error == OutOfBlocks && Valid() && tgtCache.numBlocks < BlocksNeeded(tgtCache.blockSize, |prompt|)
    {
      hide Accounted, Holds, SoleFrom, Shape, Covers, Sampleable, LawOf, Logits, SoftmaxNet, LogitsFrom, BlocksNeeded,
        Growing, Sound, Alone;
      AllocateGrowing(tgt.net, tgtCache.Contents(), tgtCache.manager.State(), id, prompt);
      AllocateGrowing(drf.net, drfCache.Contents(), drfCache.manager.State(), id, prompt);
      var tt := tgtCache.manager.Allocate(id, |prompt|, []);
      if tt.Err? {
        return Err(tt.error);
      }
      var dt := drfCache.manager.Allocate(id, |prompt|, []);
      assert dt.Ok?;
      assert prompt[0..] == prompt;
      var tl := ForwardTokens(tgt, tgtCache, id, prompt, 0, prompt);
      assert tl.Ok?;
      var dl := ForwardTokens(drf, drfCache, id, prompt, 0, prompt);
      assert dl.Ok?;
      LastLogits(tgt.net, prompt, 0, tl.value);
      LastLogits(drf.net, prompt, 0, dl.value);
      var pNext := Probs(tl.value[|tl.value| - 1], params, tgt.net, prompt);
      var qNext := Probs(dl.value[|dl.value| - 1], params, drf.net, prompt);
      r := Ok((pNext, qNext));
    }

    method Loop(id: nat, prompt: seq<int>, p0: seq<real>, q0: seq<real>, maxNew: int, params: SamplingParams,
                eos: Option<int>, gen: Generator)
        returns (r: Result<(seq<int>, Stats)>)
      requires |prompt| > 0 && Fair(gen.oracle) && InStep(id, prompt) && Sampleable(exp, params)
      requires p0 == TargetLaw(params)(prompt) && q0 == DraftLaw(params)(prompt)
      modifies tgtCache.manager, tgtCache.kv, drfCache.manager, drfCache.kv, gen
      ensures BothReleasing(id)
      ensures r.Ok? ==> Tallied(k, r.value.1, |r.value.0|)
      ensures r.Ok? ==>
        OutputOf(gen.oracle, old(gen.used), TargetLaw(params), DraftLaw(params), vocab, k, prompt, maxNew, eos,
          r.value.0)
      ensures r.Err? ==> r.error == OutOfBlocks && maxNew > 0
      ensures r.Err? ==> tgtCache.numBlocks < BlocksNeeded(tgtCache.blockSize, |prompt| + maxNew + k)
    {
      hide *;
      InStepReleasing(id, prompt);
      AtLimitStops([], maxNew, eos);
      var pNext, qNext := p0, q0;
      var out: seq<int>, stats := [], Stats(0, 0, 0, 0);
      LawsOverVocab(params);
      ghost var p, q := TargetLaw(params), DraftLaw(params);
      FollowedNothing(gen.oracle, gen.used, p, q, vocab, k, prompt, maxNew, eos);
      NothingTallied(k);
      assert prompt + out == prompt;
      while |out| < maxNew
        invariant |out| < maxNew <==> !Stops(out, maxNew, eos)
        invariant Followed(gen.oracle, old(gen.used), gen.used, p, q, vocab, k, prompt, out, maxNew, eos)
        invariant InStep(id, prompt + out) && BothReleasing(id)
        invariant pNext == p(prompt + out) && qNext == q(prompt + out)
        invariant Tallied(k, stats, |out|) && Uncut(stats)
        decreases maxNew - |out|
      {
        BlocksNeededMonotone(tgtCache.blockSize, |prompt + out| + k + 1, |prompt| + maxNew + k);
        ghost var n := gen.used;
        var step := Iterate(id, pNext, qNext, params, gen, prompt + out);
        if step.Err? {
          return Err(step.error);
        }
        var it := step.value;
        pNext, qNext := it.pNext, it.qNext;
        ghost var before := out;
        ghost var e := Emission(it.emitted[..it.accepted], it.emitted[it.accepted]);
        EmissionTokens(it.emitted);
        FollowedMore(gen.oracle, old(gen.used), n, gen.used, p, q, vocab, k, prompt, out, maxNew, eos, e);
        EmitAllGrows(out, it.emitted, maxNew, eos);
        var stop;
        out, stop := Emit(out, it.emitted, maxNew, eos);
        AtLimitStops(out, maxNew, eos);
        CountedTallied(k, stats, |before|, it.accepted, |out|);
        stats := Counted(stats, k, it.accepted, |out|);
        InStepReleasing(id, prompt + before + it.emitted);
        if stop {
          FollowedEnd(gen.oracle, old(gen.used), gen.used, p, q, vocab, k, prompt, out, maxNew, eos);
          return Ok((out, stats));
        }
        assert prompt + before + it.emitted == prompt + out;
      }
      FollowedEnd(gen.oracle, old(gen.used), gen.used, p, q, vocab, k, prompt, out, maxNew, eos);
      r := Ok((out, stats));
    }

    lemma InStepReleasing(id: nat, toks: seq<int>)
      requires InStep(id, toks)
      ensures BothReleasing(id) && Wired()
    {
    }

    /** Speculative generation.  For any sampling parameters the output is that of the speculative program on
        the same random choices, whose law is the target's own; with greedy parameters it is, whatever the
        draft model proposes and however the coins fall, the target's own greedy generation over the common
        vocabulary.  At most one iteration is run per output token; blocks run out only if the pools do not
        cover the prompt, the new tokens and one draft; and on every exit both pools are entirely free. */
    method Generate(prompt: seq<int>, maxNew: int, params: SamplingParams, eos: Option<int>, gen: Generator)
        returns (r: Result<(seq<int>, Stats)>)
      requires Valid() && |prompt| > 0 && Sampleable(exp, params) && Fair(gen.oracle)
      modifies this, tgtCache.manager, tgtCache.kv, drfCache.manager, drfCache.kv, gen
      ensures Valid()
      ensures r.Ok? ==>
        OutputOf(gen.oracle, old(gen.used), TargetLaw(params), DraftLaw(params), vocab, k, prompt, maxNew, eos,
          r.value.0)
      ensures r.Ok? && params.Greedy() ==>
        r.value.0 == if maxNew <= 0 then [] else Reference.Generate(Clip(tgt.net, vocab), prompt, maxNew, eos)
      ensures r.Ok? ==> if maxNew <= 0 then r.value.0 == [] else WholeOutput(r.value.0, maxNew, eos)
      ensures r.Ok? ==> Tallied(k, r.value.1, |r.value.0|)
      ensures r.Err? ==> r.error == OutOfBlocks
      ensures r.Err? ==>
        tgtCache.numBlocks < BlocksNeeded(tgtCache.blockSize, |prompt| + (if maxNew > 0 then maxNew else 0) + k)
      ensures |tgtCache.manager.free| == tgtCache.numBlocks && |drfCache.manager.free| == drfCache.numBlocks
    {
      hide *;
      ValidWired();
      var id := ids;
      ids := ids + 1;
      BlocksNeededMonotone(tgtCache.blockSize, |prompt|, |prompt| + (if maxNew > 0 then maxNew else 0) + k);
      var first := Start(id, prompt, params);
      if first.Err? {
        ValidFree();
        return Err(first.error);
      }
      ghost var n := gen.used;
      r := Loop(id, prompt, first.value.0, first.value.1, maxNew, params, eos, gen);
      if r.Ok? {
        OutputIsWhole(gen.oracle, n, TargetLaw(params), DraftLaw(params), vocab, k, prompt, maxNew, eos, r.value.0);
      }
      if r.Ok? && params.Greedy() {
        WiredCovers(params);
        GreedyOutput(gen.oracle, n, tgt.net, DraftLaw(params), vocab, exp, params, k, prompt, maxNew, eos, r.value.0);
      }
      Finish(id);
    }

    lemma ValidWired()
      requires Valid()
      ensures Wired()
    {
    }

    lemma ValidFree()
      requires Valid()
      ensures |tgtCache.manager.free| == tgtCache.numBlocks && |drfCache.manager.free| == drfCache.numBlocks
    {
      IdleFree(tgt, tgtCache);
      IdleFree(drf, drfCache);
    }

    lemma WiredCovers(params: SamplingParams)
      requires Wired() && Sampleable(exp, params)
      ensures Covers(tgt.net, vocab) && TargetLaw(params) == LawOf(tgt.net, vocab, exp, params)
    {
    }

    // On every exit both tables are freed.
    method Finish(id: nat)
      requires BothReleasing(id)
      modifies tgtCache.manager, drfCache.manager
      ensures Valid()
      ensures |tgtCache.manager.free| == tgtCache.numBlocks && |drfCache.manager.free| == drfCache.numBlocks
    {
      hide Accounted, Shape, SoftmaxNet, Covers;
      FreeAlone(tgt.net, tgtCache.Contents(), tgtCache.manager.State(), id);
      FreeAlone(drf.net, drfCache.Contents(), drfCache.manager.State(), id);
      tgtCache.manager.Free(id);
      drfCache.manager.Free(id);
    }
  }

  lemma IdleFree(runner: Runner, cache: PagedKVCache)
    requires Idle(runner, cache)
    ensures |cache.manager.free| == cache.numBlocks
  {
    AllFree(cache.manager.State());
  }

  lemma EmissionTokens(tokens: seq<nat>)
    requires tokens != []
    ensures Emission(tokens[..|tokens| - 1], tokens[|tokens| - 1]).Tokens() == tokens
  {
  }

  lemma AtLimitStops(out: seq<int>, maxNew: int, eos: Option<int>)
    ensures |out| >= maxNew ==> Stops(out, maxNew, eos)
    ensures out == [] && Stops(out, maxNew, eos) ==> |out| >= maxNew
  {
  }

  lemma FirstRow(q: Conditional, toks: seq<int>, t: nat)
    ensures RowsAlong(q, toks, [t]) == [q(toks)]
  {
    assert toks + [t][..0] == toks;
  }

  lemma NextRow(q: Conditional, toks: seq<int>, draft: seq<nat>, t: nat)
    ensures RowsAlong(q, toks, draft + [t]) == RowsAlong(q, toks, draft) + [q(toks + draft)]
  {
    forall i | 0 <= i <= |draft|
      ensures (draft + [t])[..i] == draft[..i]
    {
    }
    assert draft[..|draft|] == draft;
  }

  // Once the output has stopped, the remaining tokens are not emitted.
  lemma {:induction false} StoppedStays(before: seq<int>, tokens: seq<int>, i: nat, maxNew: int, eos: Option<int>)
    requires i <= |tokens| && Stops(EmitAll(before, tokens[..i], maxNew, eos), maxNew, eos)
    ensures EmitAll(before, tokens, maxNew, eos) == EmitAll(before, tokens[..i], maxNew, eos)
  {
    var n := |tokens| - 1;
    if i == |tokens| {
      assert tokens[..i] == tokens;
    } else {
      assert tokens[..n][..i] == tokens[..i];
      StoppedStays(before, tokens[..n], i, maxNew, eos);
    }
  }

  lemma AloneLength(net: Net, store: Store, p: Pool, id: nat, toks: seq<int>)
    requires Alone(net, store, p, id, toks)
    ensures id in p.tables && p.tables[id].numTokens == |toks|
    ensures |p.tables[id].blockIds| == BlocksNeeded(p.blockSize, |toks|)
  {
  }

  lemma StoredReleasing(runner: Runner, cache: PagedKVCache, id: nat, toks: seq<int>)
    requires Stored(runner, cache, id, toks)
    ensures Releasing(runner, cache, id)
  {
  }

  lemma LastLogits(net: Net, toks: seq<int>, start: nat, rows: seq<Vec>)
    requires LogitsFrom(net, toks, start, rows) && start < |toks|
    ensures |rows| > 0 && rows[|rows| - 1] == Logits(net, toks)
  {
    assert toks[..start + (|rows| - 1) + 1] == toks;
  }
}
