// The single-sequence engine: prefix adoption, prefill, and the decode loop, with an optional prefix
// cache and an optional graph decoder.
module SingleEngine {
  import opened Wrappers
  import opened Reference
  import opened BlockPool
  import opened PagedStore
  import opened RaggedForward
  import opened SingleSequence
  import opened Softmax
  import opened KVCache
  import opened ModelRunner
  import opened PrefixCaching
  import opened CudaGraph
  import opened Sampling
  import opened Seating
  import opened Chance
  import opened Rejection
  import opened Decoding

  class LLMEngine {
    const runner: Runner
    const cache: PagedKVCache
    const prefix: PrefixCache?
    const graph: CudaGraphDecoder?
    const exp: real -> real
    var seqCounter: nat
    var lastPrefillTokens: nat

    ghost function Pinning(): Pinning
      reads prefix
    {
      if prefix == null then NoPins else PinnedBy(prefix.hash, prefix.nodes, prefix.prefixes)
    }

    // How the parts are wired together.
    ghost predicate Wired()
      reads graph
    {
      && cache.Valid()
      && cache.numLayers == |runner.net.layers|
      && (runner.triton || graph != null ==> SoftmaxNet(runner.net, runner.attn))
      && (graph != null ==> graph.Valid() && graph.runner == runner && graph.cache == cache)
      && (prefix != null ==> prefix.mgr == cache.manager && prefix.bs == cache.blockSize)
    }

    // What holds at all times, also while a sequence is being generated.
    ghost predicate Base()
      reads cache.manager, cache.kv, prefix, graph
    {
      Wired() && Sound(runner.net, cache.Contents(), cache.manager.State(), Pinning())
    }

    // What holds between calls.
    ghost predicate Valid()
      reads cache.manager, cache.kv, prefix, graph
    {
      Base() && cache.manager.tables == map[]
    }

    ghost predicate InFlight(id: nat, toks: seq<int>)
      reads cache.manager, cache.kv, prefix, graph
    {
      Base() && Seated(runner.net, cache.Contents(), cache.manager.State(), id, toks)
    }

    // Blocks that are free or held by the sequence being generated.
    ghost function Room(id: nat): nat
      requires id in cache.manager.tables
      reads cache.manager
    {
      |cache.manager.free| + |cache.manager.tables[id].blockIds|
    }

    // How many cached blocks a prompt adopts.
    ghost function Adopted(prompt: seq<int>): nat
      requires |prompt| > 0
      reads prefix
    {
      if prefix == null then 0 else Reusable(prefix.nodes, prefix.hash, prefix.bs, prompt, prefix.clock + 1)
    }

    constructor (runner: Runner, cache: PagedKVCache, prefix: PrefixCache?, graph: CudaGraphDecoder?, exp: real -> real)
      requires cache.Valid() && cache.numLayers == |runner.net.layers|
      requires cache.manager.State() == EmptyPool(cache.numBlocks, cache.blockSize)
      requires runner.triton || graph != null ==> SoftmaxNet(runner.net, runner.attn)
      requires graph != null ==> graph.Valid() && graph.runner == runner && graph.cache == cache
      requires prefix != null ==> prefix.mgr == cache.manager && prefix.bs == cache.blockSize
                                  && CollisionFree(prefix.hash, prefix.bs) && prefix.nodes == []
      ensures Valid()
      ensures this.runner == runner && this.cache == cache && this.prefix == prefix && this.graph == graph
      ensures this.exp == exp
    {
      this.runner, this.cache, this.prefix, this.graph, this.exp := runner, cache, prefix, graph, exp;
      seqCounter, lastPrefillTokens := 0, 0;
      EmptyAccounted(cache.numBlocks, cache.blockSize);
    }

    // The longest run of cached blocks that leaves at least the prompt's last token to prefill.
    method Adopt(prompt: seq<int>) returns (reuse: seq<nat>)
      requires Valid() && |prompt| > 0
      modifies prefix
      ensures Valid()
      ensures Adoptable(runner.net, cache.Contents(), cache.manager.State(), reuse, prompt)
      ensures |reuse| * cache.blockSize < |prompt|
      ensures |reuse| == old(Adopted(prompt)) && (prefix != null ==> SameEntries(old(prefix.nodes), prefix.nodes))
    {
      hide Sound, Holds, SoleFrom, MatchRun, BlockHashes;
      reuse := [];
      NothingAdoptable(runner.net, cache.Contents(), cache.manager.State(), prompt);
      if prefix != null {
        MatchedAdoptable(runner.net, cache.Contents(), cache.manager.State(), Pinning(), prompt, prefix.clock + 1);
        reuse := prefix.Match(prompt);
      }
      ghost var run := reuse;
      reuse := LeaveLastToken(reuse, prompt, cache.blockSize, runner.net, cache.Contents(), cache.manager.State());
      LastTokenLeft(cache.blockSize, |prompt|, |run|, |reuse|);
    }

    // Forwards the part of the prompt that was not adopted, then offers its full blocks to the cache.
    method Prefill(id: nat, prompt: seq<int>, start: nat) returns (logits: Vec)
      requires Base() && Ready(runner.net, cache.Contents(), cache.manager.State(), id, prompt, start)
      modifies cache.kv, cache.manager, prefix
      ensures InFlight(id, prompt) && Room(id) == old(Room(id)) && logits == Logits(runner.net, prompt)
      ensures prefix != null ==> Known(prefix.nodes, prefix.hash, prefix.bs, prompt)
    {
      hide Sound, Holds, SoleFrom, DistinctFrom, InsertTo, PrefixesTo, OneForward, Logits, OneOk, Known;
      ForwardSeats(runner.net, cache.Contents(), cache.manager.State(), Pinning(), id, prompt, start);
      var ids := cache.manager.tables[id].blockIds;
      var hidden := ForwardOne(runner, cache, ids, prompt[start..], start, prompt);
      if prefix != null {
        InsertSeats(runner.net, cache.Contents(), cache.manager.State(), Pinning(), id, prompt, prefix.misses,
          prefix.clock + 1);
        InsertedKnown(prefix.nodes, cache.manager.State(), prefix.misses, prefix.hash, prefix.bs, prompt, ids,
          prefix.clock + 1);
        prefix.Insert(prompt, ids);
      }
      logits := runner.net.lmHead(hidden[|hidden| - 1]);
    }

    /** One decode step: reserves a slot for `token`, forwards it through the graph when the context fits
        a bucket and eagerly otherwise, and returns the next logits. */
    method DecodeStep(id: nat, token: int, ghost cached: seq<int>) returns (r: Result<Vec>)
      requires InFlight(id, cached)
      modifies cache.manager, cache.kv, graph
      ensures Base() && cache.manager.tables.Keys == {id}
      ensures r.Ok? ==>
        InFlight(id, cached + [token]) && Room(id) == old(Room(id)) && r.value == Logits(runner.net, cached + [token])
      ensures r.Err? ==> r.error == OutOfBlocks && |cached| % cache.blockSize == 0 && old(cache.manager.free) == []
    {
      hide Sound, Holds, SoleFrom, DistinctFrom;
      AppendReadies(runner.net, cache.Contents(), cache.manager.State(), Pinning(), id, cached, token);
      BlocksNeededSucc(cache.blockSize, |cached|);
      var slot := cache.manager.AppendToken(id);
      if slot.Err? {
        return Err(slot.error);
      }
      var logits := ForwardToken(id, token, slot.value.0 * cache.blockSize + slot.value.1, cached + [token]);
      r := Ok(logits);
    }

    // Forwards the reserved token, by graph replay or eagerly.
    method ForwardToken(id: nat, token: int, wslot: nat, ghost toks: seq<int>) returns (logits: Vec)
      requires Base() && |toks| > 0 && token == toks[|toks| - 1]
      requires Ready(runner.net, cache.Contents(), cache.manager.State(), id, toks, |toks| - 1)
      requires BlockIndex(cache.blockSize, |toks| - 1) < |cache.manager.tables[id].blockIds|
      requires wslot == Slot(cache.blockSize, cache.manager.tables[id].blockIds, |toks| - 1)
      modifies cache.kv, graph
      ensures InFlight(id, toks) && logits == Logits(runner.net, toks)
    {
      hide Sound, Holds, SoleFrom, DistinctFrom, OneForward, Forward, Logits;
      var ids, ctx := cache.manager.tables[id].blockIds, cache.manager.tables[id].numTokens;
      ForwardSeats(runner.net, cache.Contents(), cache.manager.State(), Pinning(), id, toks, |toks| - 1);
      OneForwardIsEager(runner.net, cache.Contents(), cache.blockSize, cache.kv.Length1, ids, toks);
      if graph != null && graph.CanHandle(ctx) {
        logits := graph.Decode(token, ctx - 1, wslot, ContextSlots(cache.blockSize, ids, ctx), ids);
      } else {
        DecodeTotal([SeqMeta(ids, 1, ctx)]);
        var hidden := runner.Forward([token], [ctx - 1], [wslot], [SeqMeta(ids, 1, ctx)], cache);
        logits := runner.net.lmHead(hidden[0]);
      }
    }

    method DecodeLoop(id: nat, prompt: seq<int>, first: nat, maxNew: int, params: SamplingParams, eos: Option<int>,
                      gen: Generator)
        returns (r: Result<seq<int>>)
      requires |prompt| > 0 && InFlight(id, prompt) && Choosable(runner.net, exp, params)
      modifies cache.manager, cache.kv, graph, gen
      ensures Base() && cache.manager.tables.Keys == {id}
      ensures r.Ok? ==>
        r.value == Continue(runner.net, Sampler(exp, params, gen.oracle), old(gen.used), prompt, [first], maxNew, eos)
      ensures r.Err? ==> r.error == OutOfBlocks && old(Room(id)) < Peak(cache.blockSize, |prompt|, maxNew)
    {
      hide Sound, Holds, SoleFrom, DistinctFrom, Logits, Continue, Choose;
      ghost var net, s := runner.net, Sampler(exp, params, gen.oracle);
      var nextId := first;
      var out: seq<int> := [nextId];
      ghost var cached := prompt;
      while |out| < maxNew && Some(nextId) != eos
        invariant |out| > 0 && nextId == out[|out| - 1] && cached + [nextId] == prompt + out
        invariant Continue(net, s, gen.used, prompt, out, maxNew, eos) ==
          Continue(net, s, old(gen.used), prompt, [first], maxNew, eos)
        invariant InFlight(id, cached) && Room(id) == old(Room(id))
        decreases maxNew - |out|
      {
        PeakCovers(cache.blockSize, |prompt|, |out|, maxNew);
        ContinueOne(net, s, gen.used, prompt, out, maxNew, eos);
        var logits := DecodeStep(id, nextId, cached);
        if logits.Err? {
          return Err(logits.error);
        }
        cached := cached + [nextId];
        LogitsCovered(net, exp, params, cached);
        nextId := SampleToken(exp, params, logits.value, gen);
        out := out + [nextId];
      }
      ContinueEnd(net, s, gen.used, prompt, out, maxNew, eos);
      r := Ok(out);
    }

    // What happens while the sequence has its table: prefill, first token, decode loop.
    method Produce(id: nat, prompt: seq<int>, start: nat, maxNew: int, params: SamplingParams, eos: Option<int>,
                   gen: Generator)
        returns (r: Result<seq<int>>)
      requires Base() && Ready(runner.net, cache.Contents(), cache.manager.State(), id, prompt, start) && |prompt| > 0
      requires Choosable(runner.net, exp, params)
      modifies cache.manager, cache.kv, prefix, graph, gen
      ensures Base() && cache.manager.tables.Keys == {id}
      ensures r.Ok? ==>
        r.value == Decode(runner.net, Sampler(exp, params, gen.oracle), old(gen.used), prompt, maxNew, eos)
      ensures r.Ok? && params.Greedy() ==> r.value == Reference.Generate(runner.net, prompt, maxNew, eos)
      ensures r.Ok? ==> WholeOutput(r.value, maxNew, eos)
      ensures r.Err? ==> r.error == OutOfBlocks && old(Room(id)) < Peak(cache.blockSize, |prompt|, maxNew)
      ensures prefix != null ==> Known(prefix.nodes, prefix.hash, prefix.bs, prompt)
    {
      hide Sound, Holds, SoleFrom, DistinctFrom, Known, Continue, Choose, Logits, WholeOutput;
      DecodeIsWhole(runner.net, Sampler(exp, params, gen.oracle), gen.used, prompt, maxNew, eos);
      if params.Greedy() {
        GreedyDecode(runner.net, Sampler(exp, params, gen.oracle), gen.used, prompt, maxNew, eos);
      }
      var logits := Prefill(id, prompt, start);
      LogitsCovered(runner.net, exp, params, prompt);
      var first := SampleToken(exp, params, logits, gen);
      r := DecodeLoop(id, prompt, first, maxNew, params, eos, gen);
    }

    /** Whatever has been generated or evicted before, and whichever of the prefix cache, the graph decoder
        and the fused kernel are in use, the output is what decoding with full recomputation gives for the
        same random choices; blocks run out only if the free ones do not cover the longest possible context. */
    method Generate(prompt: seq<int>, maxNew: int, params: SamplingParams, eos: Option<int>,
                    gen: Generator) returns (r: Result<seq<int>>)
      requires Valid() && |prompt| > 0 && Choosable(runner.net, exp, params)
      modifies this, cache.manager, cache.kv, prefix, graph, gen
      ensures Valid()
      ensures r.Ok? ==>
        r.value == Decode(runner.net, Sampler(exp, params, gen.oracle), old(gen.used), prompt, maxNew, eos)
      ensures r.Ok? && params.Greedy() ==> r.value == Reference.Generate(runner.net, prompt, maxNew, eos)
      ensures r.Ok? ==> WholeOutput(r.value, maxNew, eos)
      ensures r.Err? ==> r.error == OutOfBlocks && old(|cache.manager.free|) < Peak(cache.blockSize, |prompt|, maxNew)
      ensures r.Ok? ==> lastPrefillTokens == |prompt| - old(Adopted(prompt)) * cache.blockSize
      ensures r.Ok? && prefix != null ==> Known(prefix.nodes, prefix.hash, prefix.bs, prompt)
    {
      hide Sound, Holds, SoleFrom, DistinctFrom, Reusable, Known, Decode, WholeOutput;
      var id, n := seqCounter, |prompt|;
      seqCounter := seqCounter + 1;
      var reuse := Adopt(prompt);
      var start := |reuse| * cache.blockSize;
      AllocateReadies(runner.net, cache.Contents(), cache.manager.State(), Pinning(), id, prompt, reuse);
      PeakCoversPrompt(cache.blockSize, n, maxNew);
      var table := cache.manager.Allocate(id, n, reuse);
      if table.Err? {
        return Err(table.error);
      }
      lastPrefillTokens := n - start;
      r := Produce(id, prompt, start, maxNew, params, eos, gen);
      FreeSound(runner.net, cache.Contents(), cache.manager.State(), Pinning(), id);
      cache.manager.Free(id);
    }

    // Memory pressure: drops the least recently used cached blocks.
    method Evict(numBlocks: nat) returns (count: nat)
      requires Valid() && prefix != null
      modifies cache.manager, prefix
      ensures Valid()
      ensures prefix.nodes == DropAll(old(prefix.nodes), Victims(old(prefix.nodes), numBlocks))
    {
      count := prefix.Evict(numBlocks, runner.net, cache.Contents());
    }
  }
}
