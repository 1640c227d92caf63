// Prefill and decode in different processes: the two stages, each over its own cache.
module Disaggregated {
  import opened Wrappers
  import opened Reference
  import opened BlockPool
  import opened PagedStore
  import opened RaggedForward
  import opened SingleSequence
  import opened Softmax
  import opened KVCache
  import opened ModelRunner
  import opened Sampling
  import opened Portable
  import opened Seating
  import opened Chance
  import opened Rejection
  import opened Decoding
  import Pipeline

  // Importing a prompt's exact keys and values seats it, in whatever blocks it was given.
  lemma ImportSeated(net: Net, store: Store, p: Pool, id: nat, prompt: seq<int>)
    requires Sound(net, store, p, NoPins) && Ready(net, store, p, id, prompt, 0)
    ensures SlotsExist(store, p.blockSize, p.tables[id].blockIds, |prompt|)
    ensures Covered(PortableOf(net, prompt)) == |prompt| ==>
      var store' := Import(store, p.blockSize, p.tables[id].blockIds, PortableOf(net, prompt));
      Sound(net, store', p, NoPins) && Seated(net, store', p, id, prompt)
  {
    var bs, ids, width := p.blockSize, p.tables[id].blockIds, p.numBlocks * p.blockSize;
    ReadyForwardable(net, store, p, NoPins, id, prompt, 0);
    assert BlockIndex(bs, 0) == 0;
    ImportSlots(net, store, bs, width, ids, prompt);
    if Covered(PortableOf(net, prompt)) == |prompt| {
      ImportHolds(net, store, bs, width, ids, prompt);
    }
  }

  lemma ImportSlots(net: Net, store: Store, bs: pos, width: nat, ids: seq<nat>, toks: seq<int>)
    requires OneOk(net, store, bs, width, ids, toks, 0)
    ensures SlotsExist(store, bs, ids, |toks|)
  {
    forall l | 0 <= l < |store|
      ensures Within(ContextSlots(bs, ids, |toks|), |store[l]|)
    {
    }
  }

  // What a seated prompt exports.
  lemma ExportSeated(net: Net, store: Store, p: Pool, id: nat, prompt: seq<int>)
    requires Seated(net, store, p, id, prompt)
    ensures SlotsExist(store, p.blockSize, p.tables[id].blockIds, |prompt|)
    ensures Export(store, p.blockSize, p.tables[id].blockIds, |prompt|) == PortableOf(net, prompt)
  {
    ExportIsRef(net, store, p.blockSize, p.tables[id].blockIds, prompt);
  }

  // One stage's runner and cache.
  class Stage {
    const runner: Runner
    const cache: PagedKVCache
    const exp: real -> real

    ghost predicate Wired() {
      && cache.Valid()
      && cache.numLayers == |runner.net.layers| > 0
      && (runner.triton ==> SoftmaxNet(runner.net, runner.attn))
    }

    ghost predicate Base()
      reads cache.manager, cache.kv
    {
      Wired() && Sound(runner.net, cache.Contents(), cache.manager.State(), NoPins)
    }

    // Between requests no sequence is in the cache.
    ghost predicate Valid()
      reads cache.manager, cache.kv
    {
      Base() && cache.manager.tables == map[]
    }

    ghost predicate InFlight(id: nat, toks: seq<int>)
      reads cache.manager, cache.kv
    {
      Base() && Seated(runner.net, cache.Contents(), cache.manager.State(), id, toks)
    }

    ghost function Room(id: nat): nat
      requires id in cache.manager.tables
      reads cache.manager
    {
      |cache.manager.free| + |cache.manager.tables[id].blockIds|
    }

    constructor (runner: Runner, cache: PagedKVCache, exp: real -> real)
      requires cache.Valid() && cache.numLayers == |runner.net.layers| > 0
      requires cache.manager.State() == EmptyPool(cache.numBlocks, cache.blockSize)
      requires runner.triton ==> SoftmaxNet(runner.net, runner.attn)
      ensures Valid() && this.runner == runner && this.cache == cache && this.exp == exp
    {
      this.runner, this.cache, this.exp := runner, cache, exp;
      EmptyAccounted(cache.numBlocks, cache.blockSize);
    }

    method Allocate(sid: nat, prompt: seq<int>) returns (r: Result<()>)
      requires Valid() && |prompt| > 0
      modifies cache.manager
      ensures r.Ok? ==> Base() && Ready(runner.net, cache.Contents(), cache.manager.State(), sid, prompt, 0)
      ensures r.Ok? ==> Room(sid) == old(|cache.manager.free|)
      ensures r.Err? ==> r.error == OutOfBlocks && Valid() && cache.manager.State() == old(cache.manager.State())
      ensures r.Err? ==> |cache.manager.free| < BlocksNeeded(cache.blockSize, |prompt|)
    {
      hide Sound, SoleFrom;
      AllocateNothingAdopted(runner.net, cache.Contents(), cache.manager.State(), sid, prompt);
      var table := cache.manager.Allocate(sid, |prompt|, []);
      r := if table.Err? then Err(table.error) else Ok(());
    }

    /** `prefill_export`: the prompt's keys and values in every layer, and its first token; the blocks are
        given back. */
    method PrefillExport(sid: nat, prompt: seq<int>, params: SamplingParams,
                         gen: Generator) returns (r: Result<(PortableKv, nat)>)
      requires Valid() && |prompt| > 0 && Choosable(runner.net, exp, params)
      modifies cache.manager, cache.kv, gen
      ensures Valid()
      ensures r.Ok? ==>
        && r.value == (PortableOf(runner.net, prompt),
          Choose(Sampler(exp, params, gen.oracle), old(gen.used), Logits(runner.net, prompt)))
        && gen.used == old(gen.used) + Draws(params, 1)
      ensures r.Err? ==> r.error == OutOfBlocks && old(|cache.manager.free|) < BlocksNeeded(cache.blockSize, |prompt|)
    {
      hide Sound, Holds, SoleFrom, DistinctFrom, OneForward, Logits, OneOk, Choose;
      var table := Allocate(sid, prompt);
      if table.Err? {
        return Err(table.error);
      }
      ForwardSeats(runner.net, cache.Contents(), cache.manager.State(), NoPins, sid, prompt, 0);
      var ids := cache.manager.tables[sid].blockIds;
      assert prompt[0..] == prompt;
      var hidden := ForwardOne(runner, cache, ids, prompt, 0, prompt);
      LogitsCovered(runner.net, exp, params, prompt);
      var first := SampleToken(exp, params, runner.net.lmHead(hidden[|hidden| - 1]), gen);
      ExportSeated(runner.net, cache.Contents(), cache.manager.State(), sid, prompt);
      var kv := cache.ExportContiguous(ids, |prompt|);
      FreeSound(runner.net, cache.Contents(), cache.manager.State(), NoPins, sid);
      cache.manager.Free(sid);
      r := Ok((kv, first));
    }

    // One decode step on the imported sequence.
    method DecodeStep(sid: nat, token: int, cur: nat, ghost cached: seq<int>) returns (r: Result<Vec>)
      requires InFlight(sid, cached) && cur == |cached|
      modifies cache.manager, cache.kv
      ensures r.Ok? ==>
        InFlight(sid, cached + [token]) && Room(sid) == old(Room(sid)) &&
        r.value == Logits(runner.net, cached + [token])
      ensures r.Err? ==> r.error == OutOfBlocks && |cached| % cache.blockSize == 0 && old(cache.manager.free) == []
    {
      hide Sound, Holds, SoleFrom, DistinctFrom, OneForward, Forward, Logits, OneOk;
      ghost var toks := cached + [token];
      AppendReadies(runner.net, cache.Contents(), cache.manager.State(), NoPins, sid, cached, token);
      BlocksNeededSucc(cache.blockSize, |cached|);
      var slot := cache.manager.AppendToken(sid);
      if slot.Err? {
        return Err(slot.error);
      }
      var ids := cache.manager.tables[sid].blockIds;
      ForwardSeats(runner.net, cache.Contents(), cache.manager.State(), NoPins, sid, toks, cur);
      OneForwardIsEager(runner.net, cache.Contents(), cache.blockSize, cache.kv.Length1, ids, toks);
      EagerRow(runner.net, cache.Contents(), cache.blockSize, cache.kv.Length1, ids, toks);
      var hidden := runner.Forward([token], [cur], [slot.value.0 * cache.blockSize + slot.value.1],
        [SeqMeta(ids, 1, cur + 1)], cache);
      r := Ok(runner.net.lmHead(hidden[|hidden| - 1]));
    }

    /** `decode_from_kv`: given a prompt's exact keys and values and any first token, decoding goes on as with
        full recomputation, without ever prefilling the prompt here. */
    method DecodeFromKv(sid: nat, prompt: seq<int>, kv: PortableKv, first: nat, maxNew: int, params: SamplingParams,
                        eos: Option<int>,
                        gen: Generator)
        returns (r: Result<seq<int>>)
      requires Valid() && |prompt| > 0 && Choosable(runner.net, exp, params) && kv == PortableOf(runner.net, prompt)
      modifies cache.manager, cache.kv, gen
      ensures r.Ok? ==>
        && Valid()
        && r.value == Continue(runner.net, Sampler(exp, params, gen.oracle), old(gen.used), prompt, [first], maxNew,
          eos)
      ensures r.Ok? ==> |r.value| > 0 && gen.used == old(gen.used) + Draws(params, |r.value| - 1)
      ensures r.Ok? ==> WholeOutput(r.value, maxNew, eos)
      ensures r.Err? ==> r.error == OutOfBlocks && old(|cache.manager.free|) < Peak(cache.blockSize, |prompt|, maxNew)
    {
      hide Sound, Holds, SoleFrom, DistinctFrom, Continue, Choose, Logits, PortableOf, WholeOutput;
      ContinueIsWhole(runner.net, Sampler(exp, params, gen.oracle), gen.used, prompt, [first], maxNew, eos);
      PeakCoversPrompt(cache.blockSize, |prompt|, maxNew);
      var table := Allocate(sid, prompt);
      if table.Err? {
        return Err(table.error);
      }
      CoversPrompt(runner.net, prompt);
      ImportSeated(runner.net, cache.Contents(), cache.manager.State(), sid, prompt);
      cache.ImportContiguous(cache.manager.tables[sid].blockIds, kv);
      var out := DecodeImported(sid, prompt, first, maxNew, params, eos, gen);
      if out.Err? {
        return Err(out.error);
      }
      FreeSound(runner.net, cache.Contents(), cache.manager.State(), NoPins, sid);
      cache.manager.Free(sid);
      r := out;
    }

    // The decode loop.
    method DecodeImported(sid: nat, prompt: seq<int>, first: nat, maxNew: int, params: SamplingParams,
                          eos: Option<int>, gen: Generator)
        returns (r: Result<seq<int>>)
      requires |prompt| > 0 && Choosable(runner.net, exp, params) && InFlight(sid, prompt)
      modifies cache.manager, cache.kv, gen
      ensures r.Ok? ==> Base() && cache.manager.tables.Keys == {sid}
      ensures r.Ok? ==>
        r.value == Continue(runner.net, Sampler(exp, params, gen.oracle), old(gen.used), prompt, [first], maxNew, eos)
      ensures r.Ok? ==> |r.value| > 0 && gen.used == old(gen.used) + Draws(params, |r.value| - 1)
      ensures r.Err? ==> r.error == OutOfBlocks && old(Room(sid)) < Peak(cache.blockSize, |prompt|, maxNew)
    {
      hide Sound, Holds, SoleFrom, DistinctFrom, Continue, Choose, Logits;
      ghost var net, s := runner.net, Sampler(exp, params, gen.oracle);
      var out: seq<int>, nxt, cur := [first], first, |prompt|;
      ghost var cached := prompt;
      while |out| < maxNew && Some(nxt) != eos
        invariant |out| > 0 && nxt == out[|out| - 1] && cached + [nxt] == prompt + out && cur == |cached|
        invariant Continue(net, s, gen.used, prompt, out, maxNew, eos) ==
          Continue(net, s, old(gen.used), prompt, [first], maxNew, eos)
        invariant gen.used == old(gen.used) + Draws(params, |out| - 1)
        invariant InFlight(sid, cached) && Room(sid) == old(Room(sid))
        decreases maxNew - |out|
      {
        PeakCovers(cache.blockSize, |prompt|, |out|, maxNew);
        ContinueOne(net, s, gen.used, prompt, out, maxNew, eos);
        var logits := DecodeStep(sid, nxt, cur, cached);
        if logits.Err? {
          return Err(logits.error);
        }
        cached := cached + [nxt];
        LogitsCovered(net, exp, params, cached);
        nxt := SampleToken(exp, params, logits.value, gen);
        out := out + [nxt];
        cur := cur + 1;
      }
      ContinueEnd(net, s, gen.used, prompt, out, maxNew, eos);
      r := Ok(out);
    }

    /** The two stages one after the other are the single-sequence engine: the same tokens from the same random
        choices. */
    method PrefillThenDecode(decoder: Stage, sid: nat, prompt: seq<int>, maxNew: int, params: SamplingParams,
                             eos: Option<int>, gen: Generator)
        returns (r: Result<seq<int>>)
      requires Valid() && decoder.Valid() && decoder != this && decoder.cache.manager != cache.manager
      requires decoder.cache.kv != cache.kv
      requires decoder.runner.net == runner.net && decoder.exp == exp
      requires |prompt| > 0 && Choosable(runner.net, exp, params)
      modifies cache.manager, cache.kv, decoder.cache.manager, decoder.cache.kv, gen
      ensures r.Ok? ==> Valid() && decoder.Valid()
      ensures r.Ok? ==>
        r.value == Decode(runner.net, Sampler(exp, params, gen.oracle), old(gen.used), prompt, maxNew, eos)
      ensures r.Ok? && params.Greedy() ==> r.value == Reference.Generate(runner.net, prompt, maxNew, eos)
      ensures r.Ok? ==> WholeOutput(r.value, maxNew, eos)
    {
      hide Sound, Continue, Choose, Logits;
      var exported := PrefillExport(sid, prompt, params, gen);
      if exported.Err? {
        return Err(exported.error);
      }
      r := decoder.DecodeFromKv(sid, prompt, exported.value.0, exported.value.1, maxNew, params, eos, gen);
      if params.Greedy() {
        GreedyDecode(runner.net, Sampler(exp, params, gen.oracle), old(gen.used), prompt, maxNew, eos);
      }
    }

    // ---------- the bodies of the worker loops ----------

    // This stage runs one of the pipeline's workers.
    ghost predicate Serves(setup: Pipeline.Setup, params: SamplingParams)
    {
      && setup.net == runner.net && setup.exp == exp && setup.params == params && Choosable(runner.net, exp, params)
      && setup.blockSize == cache.blockSize && setup.numBlocks == cache.numBlocks
    }

    lemma NothingHeld()
      requires Valid()
      ensures |cache.manager.free| == cache.numBlocks
    {
      BlockPool.AllFree(cache.manager.State());
    }

    /** One turn of the prefill worker, when it has served `i` jobs: what the pipeline says it sends, or an exception
        that the pipeline allows. */
    method PrefillJob(ghost setup: Pipeline.Setup, ghost i: nat, sid: nat, job: Pipeline.Job, params: SamplingParams,
                      gen: Generator)
        returns (r: Result<Pipeline.Payload>)
      requires Valid() && Serves(setup, params) && |job.prompt| > 0
      requires gen.oracle == setup.prefillOracle && gen.used == Draws(params, i)
      modifies cache.manager, cache.kv, gen
      ensures Valid()
      ensures r.Ok? ==> r.value == Pipeline.Prefilled(setup, i, job) && gen.used == Draws(params, i + 1)
      ensures r.Err? ==> Pipeline.PrefillTooLong(setup, job)
      ensures forall s: Pipeline.State :: s.prefillHand == Some(job) && !s.prefillExited && Pipeline.Sent(s) == i ==>
        match r
        case Ok(p) =>
          Pipeline.Step(setup, s, Pipeline.SendPayload,
            s.(prefillHand := None, payloads := s.payloads + [Pipeline.Item(p)]))
        case Err(_) => Pipeline.Step(setup, s, Pipeline.PrefillFails, s.(prefillExited := true, prefillFailed := true))
    {
      hide Sound, Logits, PortableOf, Choose, Pipeline.Sent;
      NothingHeld();
      var exported := PrefillExport(sid, job.prompt, params, gen);
      r := match exported
           case Err(e) => Err(e)
           case Ok(kvFirst) => Ok(Pipeline.Payload(job.rid, job.prompt, kvFirst.0, kvFirst.1));
    }

    /** One turn of the decode worker, when it has given `answers`: on exact keys and values, as all payloads have
        (`Pipeline.PipelineConserves`), and whatever first token. */
    method DecodePayload(ghost setup: Pipeline.Setup, ghost answers: seq<Pipeline.Answer>, sid: nat,
                         p: Pipeline.Payload,
                         params: SamplingParams, maxNew: int, eos: Option<int>, gen: Generator)
        returns (r: Result<Pipeline.Answer>)
      requires Valid() && Serves(setup, params) && setup.maxNew == maxNew && setup.eos == eos
      requires |p.prompt| > 0 && p.kv == PortableOf(runner.net, p.prompt) && p.first >= 0
      requires gen.oracle == setup.decodeOracle && gen.used == Pipeline.Drawn(params, answers)
      modifies cache.manager, cache.kv, gen
      ensures r.Ok? ==>
        && Valid() && r.value == Pipeline.Generated(setup, Pipeline.Drawn(params, answers), p)
        && gen.used == Pipeline.Drawn(params, answers + [r.value])
      ensures r.Err? ==> Pipeline.DecodeTooLong(setup, Pipeline.JobOf(p))
      ensures forall s: Pipeline.State :: s.decodeHand == Some(p) && !s.decodeExited && s.answers == answers ==>
        match r
        case Ok(a) => Pipeline.Step(setup, s, Pipeline.PutAnswer(a), s.(decodeHand := None, answers := s.answers + [a]))
        case Err(_) => Pipeline.Step(setup, s, Pipeline.DecodeFails, s.(decodeExited := true, decodeFailed := true))
    {
      hide Sound, Logits, PortableOf, Continue;
      NothingHeld();
      var out := DecodeFromKv(sid, p.prompt, p.kv, p.first, maxNew, params, eos, gen);
      if out.Err? {
        return Err(out.error);
      }
      r := Ok(Pipeline.Answer(p.rid, out.value));
      assert (answers + [r.value])[..|answers|] == answers;
    }
  }

  lemma CoversPrompt(net: Net, toks: seq<int>)
    requires |net.layers| > 0
    ensures Covered(PortableOf(net, toks)) == |toks| && Rectangular(PortableOf(net, toks), |net.layers|, |toks|)
  {
  }

  lemma AllocateNothingAdopted(net: Net, store: Store, p: Pool, id: nat, prompt: seq<int>)
    requires Sound(net, store, p, NoPins) && p.tables == map[] && |prompt| > 0
    ensures var r := Allocate(p, id, |prompt|, []);
      && (r.Err? ==> r.error == OutOfBlocks && |p.free| < BlocksNeeded(p.blockSize, |prompt|))
      && (r.Ok? ==>
            && Sound(net, store, r.value, NoPins) && Ready(net, store, r.value, id, prompt, 0)
            && |r.value.free| + |r.value.tables[id].blockIds| == |p.free|)
  {
    NothingAdoptable(net, store, p, prompt);
    AllocateReadies(net, store, p, NoPins, id, prompt, []);
  }

  // A forward of one decode row has the arguments of a well-formed batch.
  lemma EagerRow(net: Net, store: Store, bs: pos, width: nat, ids: seq<nat>, toks: seq<int>)
    requires |toks| > 0 && OneOk(net, store, bs, width, ids, toks, |toks| - 1)
    ensures BlockIndex(bs, |toks| - 1) < |ids|
    ensures var n := |toks| - 1; var metas, slots := [SeqMeta(ids, 1, |toks|)], [Slot(bs, ids, n)];
      && BatchOk(net, store, bs, width, metas, [toks[n]], [n], slots)
      && Aligned(bs, metas, slots, width)
      && OneForward(net, store, bs, width, ids, toks, n) == Forward(net, store, bs, width, metas, [toks[n]], [n], slots)
  {
    hide Forward, OneForward;
    OneBatchOk(net, store, bs, width, ids, toks, |toks| - 1);
    var n := |toks| - 1;
    assert toks[n..] == [toks[n]];
    assert seq<nat>(1, i requires i >= 0 => n + i) == [n];
    assert SlotsFor(bs, ids, n, n + 1) == [Slot(bs, ids, n)];
  }
}
