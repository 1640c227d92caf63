// The continuous-batching engine itself; every method is tied to the step functions of SchedulerState.dfy.
module Scheduler {
  import opened Wrappers
  import opened Reference
  import opened BlockPool
  import opened PagedStore
  import opened RaggedForward
  import opened SingleSequence
  import opened Portable
  import opened Softmax
  import opened KVCache
  import opened ModelRunner
  import opened Sampling
  import opened Chance
  import opened Rejection
  import opened Decoding
  import opened SchedulerState
  import opened SchedulerInvariant
  import opened SchedulerStep
  import opened SchedulerBatch
  import opened SchedulerRaise
  import opened SchedulerRuns
  import opened SchedulerLiveness

  class ContinuousBatchingEngine {
    const runner: Runner
    const cache: PagedKVCache
    const maxBatch: pos
    const chunk: pos
    const exp: real -> real
    const gen: Generator
    var requests: map<nat, Request>
    var waiting: seq<nat>
    var prefilling: seq<nat>
    var running: seq<nat>
    var finished: seq<nat>
    var nextId: nat
    ghost var collected: set<nat>

    ghost function Cfg(): Config {
      Config(runner.net, maxBatch, chunk, exp, gen.oracle)
    }

    ghost function State(): Sched
      reads this, cache.manager, cache.kv, gen
    {
      Sched(cache.manager.State(), cache.Contents(), requests, waiting, prefilling, running, finished, nextId,
        gen.used, collected)
    }

    ghost predicate Wired() {
      && cache.Valid()
      && cache.numLayers == |runner.net.layers|
      && (runner.triton ==> SoftmaxNet(runner.net, runner.attn))
    }

    ghost predicate Valid()
      reads this, cache.manager, cache.kv, gen
    {
      Wired() && Settled(Cfg(), State(), false)
    }

    // Settled, or wedged by a step that raised.
    ghost predicate Usable()
      reads this, cache.manager, cache.kv, gen
    {
      Wired() && Standing(Cfg(), State(), false)
    }

    constructor (runner: Runner, cache: PagedKVCache, maxBatch: pos, chunkSize: nat, exp: real -> real, gen: Generator)
      requires cache.Valid() && cache.numLayers == |runner.net.layers|
      requires cache.manager.State() == EmptyPool(cache.numBlocks, cache.blockSize)
      requires runner.triton ==> SoftmaxNet(runner.net, runner.attn)
      ensures Valid() && State() == EmptySched(cache.numBlocks, cache.blockSize, cache.Contents()).(drawn := gen.used)
      ensures this.runner == runner && this.cache == cache && this.maxBatch == maxBatch && this.gen == gen
      ensures chunk == if chunkSize > 0 then chunkSize else maxBatch
    {
      this.runner, this.cache, this.maxBatch, this.exp, this.gen := runner, cache, maxBatch, exp, gen;
      chunk := if chunkSize > 0 then chunkSize else maxBatch;
      requests, waiting, prefilling, running, finished, nextId := map[], [], [], [], [], 0;
      collected := {};
      EmptyAccounted(cache.numBlocks, cache.blockSize);
    }

    method AddRequest(prompt: seq<int>, maxNew: int, params: SamplingParams, eos: Option<int>, priority: int,
                      prefixKv: Option<PortableKv>) returns (r: Result<nat>)
      requires Wired()
      modifies this
      ensures match Add(Cfg(), old(State()), prompt, maxNew, params, eos, priority, prefixKv)
              case Ok(s) => State() == s && r == Ok(old(nextId))
              case Err(e) => State() == old(State()) && r == Err(e)
      ensures r.Ok? <==> Accepted(Cfg(), Arrive(prompt, maxNew, params, eos, priority, prefixKv))
      ensures r.Ok? ==>
        && r.value in requests && requests[r.value].status == Waiting && r.value in waiting
        && AsGiven(requests[r.value], Arrive(prompt, maxNew, params, eos, priority, prefixKv))
        && forall id :: id != r.value && id in old(requests) ==> id in requests && requests[id] == old(requests)[id]
      ensures old(Valid()) && |prompt| > 0 && Choosable(runner.net, exp, params) ==> Valid()
    {
      hide Settled;
      if Valid() && |prompt| > 0 && Choosable(runner.net, exp, params) {
        AddOk(Cfg(), State(), Arrive(prompt, maxNew, params, eos, priority, prefixKv), false);
      }
      if prefixKv.Some? && !PrefixFits(cache.numLayers, prefixKv.value, |prompt|) {
        return Err(BadPrefixKv);
      }
      requests := requests[nextId := Request(prompt, params, maxNew, eos, priority, prefixKv, [], Waiting, 0)];
      waiting := waiting + [nextId];
      nextId := nextId + 1;
      r := Ok(nextId - 1);
    }

    // The server resets the finished list once it has read it.
    method TakeFinished() returns (ids: seq<nat>)
      modifies this
      ensures ids == old(finished) && State() == Drain(old(State()))
      ensures old(Valid()) ==> Valid()
    {
      hide Settled;
      if Valid() {
        DrainOk(Cfg(), State(), false);
      }
      ids := finished;
      collected := collected + Elems(finished);
      finished := [];
    }

    // ---------- 1) decode ----------

    method DecodeRequest(id: nat, flat0: Flat, ghost budget0: int) returns (r: Result<Flat>)
      requires Wired() && AllRunning(State(), [id]) && Roomy(cache.manager.State(), [id])
      modifies cache.manager
      ensures match DecodeOne(Mid(old(State()), flat0, budget0), id)
              case Ok(m) => State() == m.s && r == Ok(m.flat) && m.budget == budget0 - 1
              case Err(e) => State() == old(State()) && r == Err(e)
    {
      hide AppendToken;
      assert id in [id];
      DecodeRoom(cache.manager.State(), id);
      var pos := cache.manager.tables[id].numTokens;
      var slot := cache.manager.AppendToken(id);
      if slot.Err? {
        return Err(slot.error);
      }
      var (blk, off) := slot.value;
      var table := cache.manager.tables[id];
      r := Ok(Flat(flat0.ids + [id],
                   flat0.tokens + [requests[id].outputs[|requests[id].outputs| - 1]],
                   flat0.positions + [pos],
                   flat0.slots + [Cell(cache.blockSize, blk, off)],
                   flat0.metas + [SeqMeta(table.blockIds, 1, table.numTokens)],
                   flat0.lastIdx + [|flat0.tokens|],
                   flat0.sampled + [true]));
    }

    // When a request finds no block, the rows of those before it stay reserved.
    method DecodePhase() returns (r: Result<(Flat, int)>)
      requires Wired() && AllRunning(State(), running)
      requires Accounted(cache.manager.State(), multiset{}) && Roomy(cache.manager.State(), running)
      modifies cache.manager
      ensures State() == DecodeSome(Mid(old(State()), NO_BATCH, maxBatch), running).s
      ensures match DecodeAll(Mid(old(State()), NO_BATCH, maxBatch), running)
              case Ok(m) => State() == m.s && r == Ok((m.flat, m.budget))
              case Err(e) => r == Err(e)
    {
      hide DecodeOne, Accounted, Roomy;
      var flat, budget: int := NO_BATCH, maxBatch;
      ghost var start := Mid(State(), flat, budget);
      var i := 0;
      assert running[0..] == running;
      while i < |running| && budget >= 1
        invariant 0 <= i <= |running| && Wired()
        invariant Accounted(cache.manager.State(), multiset{}) && Roomy(cache.manager.State(), running)
        invariant AllRunning(State(), running[i..])
        invariant DecodeAll(Mid(State(), flat, budget), running[i..]) == DecodeAll(start, running)
        invariant DecodeSome(Mid(State(), flat, budget), running[i..]) == DecodeSome(start, running)
      {
        var id := running[i];
        ghost var m := Mid(State(), flat, budget);
        assert running[i..][0] == id && running[i..][1..] == running[i + 1..];
        DecodeReady(m, running, i);
        var row := DecodeRequest(id, flat, budget);
        if row.Err? {
          return Err(row.error);
        }
        flat, budget, i := row.value, budget - 1, i + 1;
      }
      r := Ok((flat, budget));
    }

    // ---------- 2) prefill ----------

    // Imports the prefix a request brings; how many tokens it covers.
    method ImportGiven(ids: seq<nat>, prefixKv: Option<PortableKv>) returns (n: nat)
      requires Wired() && (prefixKv.Some? ==> Importable(cache.Contents(), cache.blockSize, ids, prefixKv.value))
      modifies cache.kv
      ensures cache.Contents() == ImportPrefix(old(cache.Contents()), cache.blockSize, ids, prefixKv)
      ensures n == if prefixKv.Some? then Covered(prefixKv.value) else 0
    {
      n := 0;
      if prefixKv.Some? {
        n := Covered(prefixKv.value);
        cache.ImportContiguous(ids, prefixKv.value);
      }
    }

    // Allocates for a waiting request.
    method AdmitRequest(id: nat) returns (ok: bool)
      requires Wired() && Base(Cfg(), State(), false) && id in requests && requests[id].status == Waiting
      modifies this, cache.manager, cache.kv
      ensures match Admit(old(State()), id)
              case Ok(s) => ok && State() == s
              case Err(_) => !ok && State() == old(State())
    {
      hide Base, ImportPrefix, Remove, Importable, Admit;
      var req := requests[id];
      ghost var s0 := State();
      WaitingUnplaced(Cfg(), s0, id, false);
      AdmitErr(s0, id);
      var table := cache.manager.Allocate(id, |req.prompt|, []);
      if table.Err? {
        return false;
      }
      AdmitIs(s0, id);
      if req.prefixKv.Some? {
        PrefixImportable(Cfg(), s0, id, false);
      }
      var n := ImportGiven(table.value.blockIds, req.prefixKv);
      cache.manager.SetNumTokens(id, n);
      requests := requests[id := req.(prefixKv := None, prefillPos := n, status := Prefilling)];
      waiting := Remove(waiting, id);
      prefilling := prefilling + [id];
      ok := true;
    }

    // The next chunk of an admitted prompt.
    method ChunkRequest(id: nat, flat0: Flat, budget0: int) returns (flat: Flat, budget: int)
      requires Wired() && id in requests && id in cache.manager.tables
      requires requests[id].prefillPos < |requests[id].prompt| && budget0 >= 1
      modifies this, cache.manager
      ensures Mid(State(), flat, budget) == Chunk(Cfg(), Mid(old(State()), flat0, budget0), id)
    {
      hide Chunk, Remove, SetLength;
      ghost var m := Mid(State(), flat0, budget0);
      ChunkIs(Cfg(), m, id);
      var req, ids := requests[id], cache.manager.tables[id].blockIds;
      var n := SmallerOf(SmallerOf(|req.prompt| - req.prefillPos, chunk), budget0);
      assert n == Chunk(Cfg(), m, id).s.requests[id].prefillPos - req.prefillPos by { ChunkSize(Cfg(), m, id); }
      var end := req.prefillPos + n;
      flat := Flat(flat0.ids + [id],
                   flat0.tokens + req.prompt[req.prefillPos..end],
                   flat0.positions + seq<nat>(n, i requires i >= 0 => req.prefillPos + i),
                   flat0.slots + ChunkSlots(cache.blockSize, ids, req.prefillPos, n),
                   flat0.metas + [SeqMeta(ids, n, end)],
                   if end >= |req.prompt| then flat0.lastIdx + [|flat0.tokens| + n - 1] else flat0.lastIdx,
                   flat0.sampled + [end >= |req.prompt|]);
      requests := requests[id := req.(prefillPos := end, status := if end >= |req.prompt| then Running
        else req.status)];
      SetLengthIs(cache.manager.State(), id, end);
      cache.manager.SetNumTokens(id, end);
      budget := budget0 - n;
      if end >= |req.prompt| {
        prefilling := Remove(prefilling, id);
        running := running + [id];
      }
    }

    // One request in line; false when the pool is too full to admit it.
    method PrefillRequest(id: nat, flat0: Flat, budget0: int, ghost ps: seq<Piece>) returns (ok: bool, flat: Flat,
                          budget: int)
      requires Wired() && MidOk(Cfg(), Mid(State(), flat0, budget0), ps, false) && budget0 >= 1
      requires id in requests && requests[id].status in {Waiting, Prefilling} && id !in flat0.ids
      modifies this, cache.manager, cache.kv
      ensures InLine(old(State()), [id])
      ensures match PrefillOne(Cfg(), Mid(old(State()), flat0, budget0), id)
              case Some(m) => ok && Mid(State(), flat, budget) == m
              case None => !ok && Mid(State(), flat, budget) == Mid(old(State()), flat0, budget0)
    {
      hide MidOk, Chunk, Admit, Base;
      ghost var m := Mid(State(), flat0, budget0);
      ghost var p := PrefillOneOk(Cfg(), m, ps, id, false);
      MidBase(Cfg(), m, ps, false);
      flat, budget := flat0, budget0;
      if requests[id].status == Waiting {
        ok := AdmitRequest(id);
        if !ok {
          return;
        }
        AdmitOk(Cfg(), m.s, id, false);
      }
      SanePrefilling(Cfg(), State(), id, false);
      flat, budget := ChunkRequest(id, flat0, budget0);
      ok := true;
    }

    method PrefillPhase(flat0: Flat, budget0: int, ghost ps0: seq<Piece>) returns (flat: Flat, budget: int,
                        ghost ps: seq<Piece>)
      requires Wired() && MidOk(Cfg(), Mid(State(), flat0, budget0), ps0, false) && flat0.ids == running
      modifies this, cache.manager, cache.kv
      ensures InLine(old(State()), old(prefilling)) && InLine(old(State()), old(waiting))
      ensures Mid(State(), flat, budget) == Prefill(Cfg(), Mid(old(State()), flat0, budget0))
      ensures MidOk(Cfg(), Mid(State(), flat, budget), ps, false)
    {
      hide MidOk, PrefillOne, SortBy, AdmissionOrder, Lined, InLine;
      ghost var m0 := Mid(State(), flat0, budget0);
      MidQueues(Cfg(), m0, ps0, false);
      LineOk(Cfg(), m0, ps0, prefilling, false);
      LineOk(Cfg(), m0, ps0, waiting, false);
      SortByElements(waiting, AdmissionOrder(requests));
      SortedOk(Cfg(), m0, ps0, SortBy(waiting, AdmissionOrder(requests)), false);
      waiting := SortBy(waiting, AdmissionOrder(requests));
      QueueDistinct(m0.s, waiting);
      var queue := prefilling + waiting;
      flat, budget, ps := flat0, budget0, ps0;
      ghost var m1 := Mid(State(), flat, budget);
      LineOk(Cfg(), m1, ps, queue, false);
      LinedStart(m1.s, flat.ids, queue);
      var i := 0;
      assert queue[0..] == queue;
      while i < |queue| && budget >= 1
        invariant 0 <= i <= |queue| && Wired()
        invariant MidOk(Cfg(), Mid(State(), flat, budget), ps, false)
        invariant Lined(State(), flat.ids, queue[i..])
        invariant InLine(State(), queue[i..])
        invariant PrefillAll(Cfg(), Mid(State(), flat, budget), queue[i..]) == PrefillAll(Cfg(), m1, queue)
      {
        var id := queue[i];
        ghost var m := Mid(State(), flat, budget);
        assert queue[i..][0] == id && queue[i..][1..] == queue[i + 1..];
        LinedFirst(m.s, flat.ids, queue[i..]);
        ghost var p := PrefillOneOk(Cfg(), m, ps, id, false);
        var ok;
        ok, flat, budget := PrefillRequest(id, flat, budget, ps);
        if !ok {
          break;
        }
        ps := ps + [p];
        LinedRest(queue, i, m.s, m.flat.ids, State(), flat.ids);
        LinedLine(Cfg(), Mid(State(), flat, budget), ps, queue[i + 1..], false);
        i := i + 1;
      }
    }

    // ---------- 3) forward, 4) sample, 5) append and retire ----------

    method ForwardFlat(flat: Flat, ghost budget: int, ghost ps: seq<Piece>) returns (hidden: seq<Vec>)
      requires Wired() && MidOk(Cfg(), Mid(State(), flat, budget), ps, false)
      modifies cache.kv
      ensures State() == old(State()).(store := ForwardBatch(Cfg(), old(State()), flat).1)
      ensures hidden == ForwardBatch(Cfg(), old(State()), flat).0
    {
      hide MidOk, Forward, AllDecode, Aligned, SoftmaxNet;
      FlatForwardable(Cfg(), Mid(State(), flat, budget), ps, false);
      hidden := runner.Forward(flat.tokens, flat.positions, flat.slots, flat.metas, cache);
    }

    // One token per row; the first request's parameters serve the whole batch.
    method SampleRows(params: SamplingParams, hidden: seq<Vec>, lastIdx: seq<nat>) returns (tokens: seq<int>)
      requires params.Greedy() ||
        (ExpLaws(exp) && forall j :: 0 <= j < |lastIdx| ==> runner.net.lmHead(RowAt(hidden, lastIdx[j])) != [])
      modifies gen
      ensures tokens == SampleAll(Cfg(), params, old(gen.used), hidden, lastIdx)
      ensures gen.used == old(gen.used) + Draws(params, |lastIdx|)
    {
      tokens := [];
      for j := 0 to |lastIdx|
        invariant gen.used == old(gen.used) + Draws(params, j)
        invariant tokens == SampleAll(Cfg(), params, old(gen.used), hidden, lastIdx)[..j]
      {
        var logits := runner.net.lmHead(RowAt(hidden, lastIdx[j]));
        var token;
        if params.Greedy() {
          token := ArgMax(logits);
        } else {
          token := gen.Multinomial(LogitsToProbs(exp, logits, params));
        }
        assert token == SampleAll(Cfg(), params, old(gen.used), hidden, lastIdx)[j];
        tokens := tokens + [token];
      }
    }

    // Appends each token to its request; the requests that are done.
    method AppendTokens(batch: seq<nat>, tokens: seq<int>) returns (done: seq<nat>)
      requires |batch| == |tokens| && NoDup(batch)
      requires forall id :: id in batch ==> id in requests && requests[id].status == Running
      modifies this`requests
      ensures requests == Appended(old(requests), batch, tokens)
      ensures done == DoneOf(requests, batch)
    {
      done := [];
      for j := 0 to |batch|
        invariant forall id :: id in batch ==> id in requests
        invariant forall k :: j <= k < |batch| ==> requests[batch[k]].status == Running
        invariant requests == Appended(old(requests), batch[..j], tokens[..j])
        invariant done == DoneOf(requests, batch[..j])
      {
        assert batch[..j + 1][..j] == batch[..j] && tokens[..j + 1][..j] == tokens[..j];
        assert batch[j] in batch;
        var req := requests[batch[j]].(outputs := requests[batch[j]].outputs + [tokens[j]]);
        if req.Done() {
          req := req.(status := Finished);
        }
        DoneOfSame(requests, requests[batch[j] := req], batch[..j]);
        requests := requests[batch[j] := req];
        if req.Done() {
          done := done + [batch[j]];
        }
      }
      assert batch[..|batch|] == batch && tokens[..|batch|] == tokens;
    }

    method RetireDone(done: seq<nat>)
      requires Pending(Cfg(), State(), done, false)
      modifies this, cache.manager
      ensures State() == RetireAll(old(State()), done)
    {
      hide Pending, Remove;
      ghost var s0 := State();
      for j := 0 to |done|
        invariant State() == RetireAll(s0, done[..j])
      {
        assert done[..j + 1][..j] == done[..j];
        RetireAllOk(Cfg(), s0, done, j, false);
        PendingReleasable(Cfg(), State(), done[j..], false);
        running := Remove(running, done[j]);
        finished := finished + [done[j]];
        cache.manager.Free(done[j]);
      }
      assert done[..|done|] == done;
    }

    // Everything after the batch is built.
    method Finish(flat: Flat, ghost budget: int, ghost ps: seq<Piece>)
      requires Wired() && MidOk(Cfg(), Mid(State(), flat, budget), ps, false)
      requires RunningBatched(Mid(State(), flat, budget))
      modifies this, cache.manager, cache.kv, gen
      ensures State() == Conclude(Cfg(), old(State()), flat)
    {
      hide MidOk, ForwardBatch, SampleAll, Pending, Context, Appended, RetireAll, DoneOf, TokensGiven, Picked,
        RowsMatch;
      ghost var m := Mid(State(), flat, budget);
      BatchSampled(Cfg(), m, ps, false);
      ConcludePending(Cfg(), m, ps, false);
      var hidden := ForwardFlat(flat, budget, ps);
      if flat.lastIdx == [] {
        return;
      }
      var batch := Picked(flat.ids, flat.sampled);
      assert batch[0] in batch;
      BatchChoosable(Cfg(), m, ps, batch[0], false);
      var tokens := SampleRows(requests[batch[0]].params, hidden, flat.lastIdx);
      var done := AppendTokens(batch, tokens);
      RetireDone(done);
    }

    /** One scheduling iteration.  It may be called again after it has raised. */
    method Step() returns (r: Result<()>)
      requires Usable()
      modifies this, cache.manager, cache.kv, gen
      ensures Usable() && Steppable(old(State()))
      ensures match SchedulerState.Step(Cfg(), old(State()))
              case Ok(s) => r == Ok(()) && State() == s && Valid()
              case Err(e) => r == Err(e) && State() == Interrupted(Cfg(), old(State())) && Wedged(Cfg(), State())
    {
      hide MidOk, Settled, Wedged, Conclude, DecodeAll, DecodeSome, Prefill, Accounted, Roomy, AllRunning;
      ghost var s0 := State();
      StandingRoomy(Cfg(), s0, false);
      var decoded := DecodePhase();
      if decoded.Err? {
        return Err(decoded.error);
      }
      ghost var ps := DecodedOk(Cfg(), s0, false);
      var flat, budget := decoded.value.0, decoded.value.1;
      flat, budget, ps := PrefillPhase(flat, budget, ps);
      ghost var more := StepOk(Cfg(), s0, false);
      if flat.ids != [] {
        Finish(flat, budget, ps);
      }
      r := Ok(());
    }

    method Run(maxSteps: nat) returns (r: Result<()>)
      requires Valid()
      modifies this, cache.manager, cache.kv, gen
      ensures match RunUntilDone(Cfg(), old(State()), maxSteps)
              case Ok(s) => r == Ok(()) && State() == s && Valid()
              case Err(e) => r == Err(e) && Usable()
      ensures Capacity(old(State())) && Measure(old(State())) <= maxSteps ==> r.Ok? && !HasWork(State())
    {
      hide Settled, SchedulerState.Step, Capacity, Measure, RunUntilDone, Steppable, HasWork;
      ghost var s0 := State();
      ValidSettled();
      if Capacity(s0) && Measure(s0) <= maxSteps {
        RunUntilDoneDrains(Cfg(), s0, maxSteps, false);
      }
      var steps := 0;
      while (waiting != [] || prefilling != [] || running != []) && steps < maxSteps
        invariant steps <= maxSteps && Valid()
        invariant RunUntilDone(Cfg(), State(), maxSteps - steps) == RunUntilDone(Cfg(), s0, maxSteps)
      {
        RunUnfolds(Cfg(), State(), maxSteps - steps);
        r := Step();
        if r.Err? {
          return;
        }
        steps := steps + 1;
      }
      RunUnfolds(Cfg(), State(), maxSteps - steps);
      r := Ok(());
    }

    lemma ValidSettled()
      requires Valid()
      ensures Settled(Cfg(), State(), false)
    {
    }
  }

  lemma RunUnfolds(cfg: Config, s: Sched, n: nat)
    ensures HasWork(s) <==> s.waiting != [] || s.prefilling != [] || s.running != []
    ensures !HasWork(s) || n == 0 ==> RunUntilDone(cfg, s, n) == Ok(s)
    ensures HasWork(s) && n > 0 && Steppable(s) ==>
      RunUntilDone(cfg, s, n) ==
        match SchedulerState.Step(cfg, s) case Err(e) => Err(e) case Ok(s') => RunUntilDone(cfg, s', n - 1)
  {
    hide SchedulerState.Step, Steppable;
  }

  // The requests still in line: waiting or being prefilled, and not in the batch.
  ghost predicate Lined(s: Sched, ids: seq<nat>, queue: seq<nat>) {
    NoDup(queue) && forall id :: id in queue ==>
      id in s.requests && s.requests[id].status in {Waiting, Prefilling} && id !in ids
  }

  lemma LinedStart(s: Sched, ids: seq<nat>, queue: seq<nat>)
    requires NoDup(queue) && forall id :: id in queue ==>
      id in s.requests && s.requests[id].status in {Waiting, Prefilling}
    requires forall id :: id in ids ==> id in s.requests && s.requests[id].status == Running
    ensures Lined(s, ids, queue)
  {
  }

  lemma LinedFirst(s: Sched, ids: seq<nat>, queue: seq<nat>)
    requires Lined(s, ids, queue) && queue != []
    ensures queue[0] in s.requests && s.requests[queue[0]].status in {Waiting, Prefilling} && queue[0] !in ids
  {
    assert queue[0] in queue;
  }

  lemma LinedLine(cfg: Config, m: Mid, ps: seq<Piece>, queue: seq<nat>, exact: bool)
    requires MidOk(cfg, m, ps, exact) && Lined(m.s, m.flat.ids, queue)
    ensures InLine(m.s, queue)
  {
    hide MidOk;
    LineOk(cfg, m, ps, queue, exact);
  }

  lemma LinedRest(queue: seq<nat>, i: nat, s: Sched, ids: seq<nat>, s': Sched, ids': seq<nat>)
    requires i < |queue| && Lined(s, ids, queue[i..]) && ids' == ids + [queue[i]]
    requires forall id :: id in s.requests && id != queue[i] ==> id in s'.requests && s'.requests[id] == s.requests[id]
    ensures Lined(s', ids', queue[i + 1..])
  {
    assert queue[i..] == [queue[i]] + queue[i + 1..];
    forall id | id in queue[i + 1..]
      ensures id in s'.requests && s'.requests[id].status in {Waiting, Prefilling} && id !in ids'
    {
      assert id in queue[i..];
      var k :| 0 <= k < |queue| - (i + 1) && queue[i + 1..][k] == id;
      assert queue[i..][k + 1] == id && queue[i..][0] == queue[i];
    }
  }

  lemma MidBase(cfg: Config, m: Mid, ps: seq<Piece>, exact: bool)
    requires MidOk(cfg, m, ps, exact)
    ensures Base(cfg, m.s, exact)
  {
  }

  lemma ChunkSize(cfg: Config, m: Mid, id: nat)
    requires id in m.s.requests && id in m.s.pool.tables && m.s.requests[id].prefillPos < |m.s.requests[id].prompt|
    requires m.budget >= 1
    ensures var req := m.s.requests[id];
      Chunk(cfg, m, id).s.requests[id].prefillPos == req.prefillPos +
        SmallerOf(SmallerOf(|req.prompt| - req.prefillPos, cfg.chunk), m.budget)
  {
  }

  // The prefix a waiting request brings fits the model and the table allocated for it.
  lemma PrefixImportable(cfg: Config, s: Sched, id: nat, exact: bool)
    requires Base(cfg, s, exact) && id in s.requests && s.requests[id].status == Waiting
    requires s.requests[id].prefixKv.Some?
    requires Allocate(s.pool, id, |s.requests[id].prompt|, []).Ok? && id !in s.pool.tables
    ensures id in Allocate(s.pool, id, |s.requests[id].prompt|, []).value.tables
    ensures var q, kv := Allocate(s.pool, id, |s.requests[id].prompt|, []).value, s.requests[id].prefixKv.value;
      Importable(s.store, s.pool.blockSize, q.tables[id].blockIds, kv)
  {
    hide Accounted, SoleFrom, Queues, Choosable;
    var req := s.requests[id];
    assert Sane(cfg, req, exact);
    var n, bs := Covered(req.prefixKv.value), s.pool.blockSize;
    SeatAdmitted(s.pool, id, |req.prompt|, n);
    var q := SetLength(Allocate(s.pool, id, |req.prompt|, []).value, id, n);
    var ids := q.tables[id].blockIds;
    BlocksNeededBounds(bs, |req.prompt|);
    FitsIff(bs, ids, n);
    TablesBelow(q, multiset{}, id);
    SlotsInPool(bs, ids, n, q.numBlocks);
    assert forall j :: 0 <= j < n ==> ContextSlots(bs, ids, n)[j] == Slot(bs, ids, j);
  }

  ghost predicate Importable(store: Store, bs: pos, ids: seq<nat>, kv: PortableKv) {
    Rectangular(kv, |store|, Covered(kv)) && SlotsExist(store, bs, ids, Covered(kv))
  }

  lemma WaitingUnplaced(cfg: Config, s: Sched, id: nat, exact: bool)
    requires Base(cfg, s, exact) && id in s.requests && s.requests[id].status == Waiting
    ensures id !in s.pool.tables
  {
    assert !Live(s, id);
  }

  // A table within its blocks has the slot its next token goes to, once a block is found for it.
  lemma DecodeRoom(p: Pool, id: nat)
    requires id in p.tables && p.tables[id].numTokens <= |p.tables[id].blockIds| * p.blockSize
    ensures p.tables[id].numTokens % p.blockSize == 0 || p.tables[id].numTokens < |p.tables[id].blockIds| * p.blockSize
    ensures AppendToken(p, id).Ok? ==>
      && id in AppendToken(p, id).value.tables
      && BlockIndex(p.blockSize, p.tables[id].numTokens) < |AppendToken(p, id).value.tables[id].blockIds|
  {
    var t, bs := p.tables[id], p.blockSize;
    if t.numTokens % bs != 0 {
      NotMultiple(t.numTokens, |t.blockIds|, bs);
    }
    assert t.numTokens < (|t.blockIds| + 1) * bs;
    DivBound(bs, |t.blockIds|, t.numTokens);
    DivBound(bs, |t.blockIds| + 1, t.numTokens);
  }

  // The next running request can be given a row, whatever comes of it.
  lemma DecodeReady(m: Mid, queue: seq<nat>, i: nat)
    requires i < |queue| && AllRunning(m.s, queue[i..]) && Accounted(m.s.pool, multiset{}) && Roomy(m.s.pool, queue)
    ensures AllRunning(m.s, [queue[i]]) && Roomy(m.s.pool, [queue[i]])
    ensures DecodeOne(m, queue[i]).Ok? ==> var m' := DecodeOne(m, queue[i]).value;
      && Accounted(m'.s.pool, multiset{}) && Roomy(m'.s.pool, queue)
      && AllRunning(m'.s, queue[i + 1..])
  {
    hide Accounted, AppendToken;
    assert queue[i..][0] == queue[i] && queue[i] in queue && queue[i] in queue[i..];
    AppendOne(m.s.pool, queue[i], queue);
    assert forall id :: id in queue[i + 1..] ==> id in queue[i..] by {
      assert queue[i..] == [queue[i]] + queue[i + 1..];
    }
  }

  lemma StandingRoomy(cfg: Config, s: Sched, exact: bool)
    requires Standing(cfg, s, exact)
    ensures Steppable(s) && AllRunning(s, s.running) && Accounted(s.pool, multiset{}) && Roomy(s.pool, s.running)
    ensures match Step(cfg, s)
            case Ok(s') => Settled(cfg, s, exact)
            case Err(_) => Wedged(cfg, Interrupted(cfg, s)) && DecodeAll(Mid(s, NO_BATCH, cfg.maxBatch), s.running).Err?
  {
    hide Settled, Accounted, Roomy, Stuck, DecodeAll, DecodeSome, Prefill, Conclude, AllRunning, InLine;
    if Wedged(cfg, s) {
      WedgedRaises(cfg, s);
    } else {
      SettledRoomy(cfg, s, exact);
      RaiseWedges(cfg, s, exact);
    }
  }

  // ---------- the built batch and the runner's contract ----------

  // Rows that are the last of their sequences are written to their sequences' last slots.
  lemma {:induction false} SingleSlots(bs: pos, ps: seq<Piece>, width: nat)
    requires PiecesOk(bs, ps, width) && forall k :: 0 <= k < |ps| ==> ps[k].start + 1 == |ps[k].toks|
    ensures |WriteSlots(bs, ps, width)| == |ps|
    ensures forall k :: 0 <= k < |ps| ==> WriteSlots(bs, ps, width)[k] == Slot(bs, ps[k].ids, |ps[k].toks| - 1)
  {
    hide PieceOk, Slot, SlotsFor;
    if ps != [] {
      var p := ps[|ps| - 1];
      SingleSlots(bs, ps[..|ps| - 1], width);
      SingleSlot(bs, p, width);
    }
  }

  lemma SingleSlot(bs: pos, p: Piece, width: nat)
    requires PieceOk(bs, p, width) && p.start + 1 == |p.toks|
    ensures Fits(bs, p.ids, |p.toks|) && BlockIndex(bs, p.start) < |p.ids|
    ensures SlotsFor(bs, p.ids, p.start, |p.toks|) == [Slot(bs, p.ids, p.start)]
  {
  }

  lemma FlatForwardable(cfg: Config, m: Mid, ps: seq<Piece>, exact: bool)
    requires MidOk(cfg, m, ps, exact)
    ensures BatchOk(cfg.net, m.s.store, m.s.pool.blockSize, Width(m.s.pool), m.flat.metas, m.flat.tokens,
      m.flat.positions, m.flat.slots)
    ensures AllDecode(m.flat.metas) ==> Aligned(m.s.pool.blockSize, m.flat.metas, m.flat.slots, Width(m.s.pool))
  {
    hide Base, Batched, Resting, WriteSlots, PiecesOk, Positions, Tokens, LastRows;
    var bs, width := m.s.pool.blockSize, Width(m.s.pool);
    BatchLengths(cfg, m, ps, exact);
    MidShape(cfg, m, ps, exact);
    PiecesBatchOk(cfg.net, m.s.store, bs, width, ps);
    BatchOwnsBlocks(cfg, m, ps, exact);
    WriteSlotsDistinct(bs, ps, width);
    if AllDecode(m.flat.metas) {
      forall k | 0 <= k < |ps|
        ensures ps[k].start + 1 == |ps[k].toks|
      {
        assert m.flat.metas[k] in m.flat.metas && m.flat.metas[k] == MetaOf(ps[k]);
      }
      SingleSlots(bs, ps, width);
    }
  }

  lemma MidShape(cfg: Config, m: Mid, ps: seq<Piece>, exact: bool)
    requires MidOk(cfg, m, ps, exact)
    ensures Shape(cfg.net, m.s.store, Width(m.s.pool))
  {
  }

  lemma BatchChoosable(cfg: Config, m: Mid, ps: seq<Piece>, id: nat, exact: bool)
    requires MidOk(cfg, m, ps, exact) && id in m.s.requests
    ensures Choosable(cfg.net, cfg.exp, m.s.requests[id].params)
  {
    assert Sane(cfg, m.s.requests[id], exact);
  }

  lemma {:induction false} DoneOfSame(requests: map<nat, Request>, requests': map<nat, Request>, batch: seq<nat>)
    requires forall id :: id in batch ==> id in requests && id in requests' && requests'[id] == requests[id]
    ensures DoneOf(requests', batch) == DoneOf(requests, batch)
  {
    if batch != [] {
      assert batch[|batch| - 1] in batch;
      DoneOfSame(requests, requests', batch[..|batch| - 1]);
    }
  }

  lemma PendingReleasable(cfg: Config, s: Sched, ids: seq<nat>, exact: bool)
    requires Pending(cfg, s, ids, exact) && ids != []
    ensures ids[0] in s.pool.tables && Releasable(s.pool, s.pool.tables[ids[0]].blockIds)
  {
    hide Accounted, Sane, Resting, Shape;
    assert ids[0] in ids;
    TableReleasable(s.pool, ids[0], multiset{});
  }
}
