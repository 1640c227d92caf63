// How many prompt tokens one step prefills: what `chunk_size` caps, and what it does not.
module SchedulerBudget {
  import opened Wrappers
  import opened Reference
  import opened BlockPool
  import opened PagedStore
  import opened RaggedForward
  import opened SingleSequence
  import opened Sampling
  import opened Decoding
  import opened SchedulerState
  import opened SchedulerInvariant
  import opened SchedulerStep
  import opened SchedulerBatch
  import opened SchedulerRaise
  import opened SchedulerRuns

  // The tokens the prefill phase adds to the batch.
  ghost function PrefillTokens(cfg: Config, s: Sched): int
    requires Steppable(s) && Build(cfg, s).Ok?
  {
    |Build(cfg, s).value.flat.tokens| - |DecodeAll(Mid(s, NO_BATCH, cfg.maxBatch), s.running).value.flat.tokens|
  }

  // ---------- bounds that hold ----------

  lemma {:induction false} DecodeRows(m: Mid, queue: seq<nat>)
    requires AllRunning(m.s, queue) && DecodeAll(m, queue).Ok? && |queue| <= m.budget
    ensures |DecodeAll(m, queue).value.flat.tokens| == |m.flat.tokens| + |queue|
    decreases |queue|
  {
    hide AppendToken;
    if queue != [] {
      assert queue[0] in queue && forall id :: id in queue[1..] ==> id in queue;
      DecodeRows(DecodeOne(m, queue[0]).value, queue[1..]);
    }
  }

  // One prompt advances by at most a chunk.
  lemma PrefillOneBounded(cfg: Config, m: Mid, ps: seq<Piece>, id: nat, exact: bool)
    requires MidOk(cfg, m, ps, exact) && id in m.s.requests && m.s.requests[id].status in {Waiting, Prefilling}
    requires id !in m.flat.ids && m.budget >= 1 && InLine(m.s, [id]) && PrefillOne(cfg, m, id).Some?
    ensures |PrefillOne(cfg, m, id).value.flat.tokens| <= |m.flat.tokens| + cfg.chunk
  {
    hide FlatOk, Resting, Batched, Undisturbed, Chunk, Admit, Base, Live;
    assert id in [id];
    var m1 := if m.s.requests[id].status == Waiting then m.(s := Admit(m.s, id).value) else m;
    if m.s.requests[id].status == Waiting {
      AdmitOk(cfg, m.s, id, exact);
    }
    SanePrefilling(cfg, m1.s, id, exact);
    ChunkIs(cfg, m1, id);
  }

  lemma {:induction false} PrefillBounded(cfg: Config, m: Mid, ps: seq<Piece>, queue: seq<nat>, exact: bool)
    requires MidOk(cfg, m, ps, exact) && NoDup(queue)
    requires forall id :: id in queue ==>
      id in m.s.requests && m.s.requests[id].status in {Waiting, Prefilling} && id !in m.flat.ids
    ensures InLine(m.s, queue)
    ensures var m' := PrefillAll(cfg, m, queue);
      |m'.flat.tokens| - |m.flat.tokens| <= (|m'.flat.ids| - |m.flat.ids|) * cfg.chunk
    decreases |queue|
  {
    hide MidOk, PrefillOne;
    LineOk(cfg, m, ps, queue, exact);
    if queue != [] && m.budget >= 1 {
      assert queue[0] in queue;
      var p := PrefillOneOk(cfg, m, ps, queue[0], exact);
      if PrefillOne(cfg, m, queue[0]).Some? {
        PrefillOneBounded(cfg, m, ps, queue[0], exact);
        var m' := PrefillOne(cfg, m, queue[0]).value;
        forall id | id in queue[1..]
          ensures id in m'.s.requests && m'.s.requests[id].status in {Waiting, Prefilling} && id !in m'.flat.ids
        {
          assert id in queue && id != queue[0];
        }
        PrefillBounded(cfg, m', ps + [p], queue[1..], exact);
        OneMore(|PrefillAll(cfg, m', queue[1..]).flat.ids| - |m'.flat.ids|, cfg.chunk);
      }
    }
  }

  lemma OneMore(k: int, c: int)
    ensures (k + 1) * c == k * c + c
  {
  }

  /** What a step's prefill does respect: the rest of the token budget, and `chunk_size` for each prompt it
      advances. */
  lemma PrefillTokensBounded(cfg: Config, s: Sched, exact: bool)
    requires Settled(cfg, s, exact)
    ensures Steppable(s)
    ensures Build(cfg, s).Ok? ==>
      && PrefillTokens(cfg, s) <= cfg.maxBatch - |s.running|
      && PrefillTokens(cfg, s) <= (|Build(cfg, s).value.flat.ids| - |s.running|) * cfg.chunk
  {
    hide MidOk, Settled, DecodeAll, PrefillAll, SortBy, AdmissionOrder;
    var ps := DecodedOk(cfg, s, exact);
    var all := StepOk(cfg, s, exact);
    var m0 := Mid(s, NO_BATCH, cfg.maxBatch);
    SettledFits(cfg, s, exact);
    if Build(cfg, s).Ok? {
      DecodeRows(m0, s.running);
      BatchWithinBudget(cfg, Build(cfg, s).value, all, exact);
      var m := DecodeAll(m0, s.running).value;
      MidQueues(cfg, m, ps, exact);
      var line := SortBy(m.s.waiting, AdmissionOrder(m.s.requests));
      SortByElements(m.s.waiting, AdmissionOrder(m.s.requests));
      SortedOk(cfg, m, ps, line, exact);
      QueueDistinct(m.s, line);
      var m1 := m.(s := m.s.(waiting := line));
      PrefillBounded(cfg, m1, ps, m.s.prefilling + line, exact);
    }
  }

  // ---------- two prompts that arrive together ----------

  ghost function BlankStore(net: Net, width: nat): (store: Store)
    ensures Shape(net, store, width)
  {
    seq(|net.layers|, l requires 0 <= l < |net.layers| => seq(width, i requires 0 <= i < width => KV([], [])))
  }

  // An engine with one-token blocks.
  ghost function EmptyFor(cfg: Config, n: nat): Sched {
    EmptySched(n, 1, BlankStore(cfg.net, n))
  }

  // Two requests, with blocks for both prompts and some to spare.
  ghost function TwoWaiting(cfg: Config, p: seq<int>, a: SamplingParams, q: seq<int>, b: SamplingParams,
                            maxNew: int := 1, spare: nat := 0): Sched
  {
    PlayAll(cfg, EmptyFor(cfg, |p| + |q| + spare),
            [Arrive(p, maxNew, a, None, 0, None), Arrive(q, maxNew, b, None, 0, None)])
  }

  function NewRequest(prompt: seq<int>, params: SamplingParams, maxNew: int := 1): Request {
    Request(prompt, params, maxNew, None, 0, None, [], Waiting, 0)
  }

  ghost predicate Together(cfg: Config, p: seq<int>, a: SamplingParams, q: seq<int>, b: SamplingParams) {
    && 1 <= |p| <= cfg.chunk && 1 <= |q| <= cfg.chunk && |p| + |q| <= cfg.maxBatch
    && Choosable(cfg.net, cfg.exp, a) && Choosable(cfg.net, cfg.exp, b)
  }

  lemma PlayTwo(cfg: Config, s: Sched, e: Event, f: Event)
    ensures PlayAll(cfg, s, [e, f]) == Play(cfg, Play(cfg, s, e), f)
  {
    hide Play;
    assert [e, f][..1] == [e] && [e][..0] == [];
    assert PlayAll(cfg, s, []) == s;
    assert PlayAll(cfg, s, [e]) == Play(cfg, s, e);
  }

  lemma PlayNew(cfg: Config, s: Sched, prompt: seq<int>, params: SamplingParams, maxNew: int)
    ensures Play(cfg, s, Arrive(prompt, maxNew, params, None, 0, None))
         == s.(requests := s.requests[s.nextId := NewRequest(prompt, params, maxNew)],
           waiting := s.waiting + [s.nextId],
           nextId := s.nextId + 1)
  {
  }

  lemma TwoWaitingIs(cfg: Config, p: seq<int>, a: SamplingParams, q: seq<int>, b: SamplingParams, exact: bool,
                     maxNew: int := 1, spare: nat := 0)
    requires Together(cfg, p, a, q, b)
    ensures var s := TwoWaiting(cfg, p, a, q, b, maxNew, spare);
      && Settled(cfg, s, exact) && s.waiting == [0, 1] && s.prefilling == [] && s.running == []
      && s.requests == map[0 := NewRequest(p, a, maxNew), 1 := NewRequest(q, b, maxNew)] && s.nextId == 2
      && s.pool == EmptyPool(|p| + |q| + spare, 1) && s.drawn == 0
  {
    hide Settled, Choosable, Shape, Play, BlankStore;
    var e, f := Arrive(p, maxNew, a, None, 0, None), Arrive(q, maxNew, b, None, 0, None);
    var n := |p| + |q| + spare;
    var s0 := EmptyFor(cfg, n);
    EmptySettled(cfg, n, 1, BlankStore(cfg.net, n), exact);
    AddOk(cfg, s0, e, exact);
    AddOk(cfg, Play(cfg, s0, e), f, exact);
    PlayTwo(cfg, s0, e, f);
    PlayNew(cfg, s0, p, a, maxNew);
    PlayNew(cfg, Play(cfg, s0, e), q, b, maxNew);
  }

  // A waiting prompt that fits the chunk, the budget and the free blocks is prefilled at once.
  lemma WholePrompt(cfg: Config, m: Mid, ps: seq<Piece>, id: nat, exact: bool)
    requires MidOk(cfg, m, ps, exact) && id in m.s.requests && m.s.requests[id].status == Waiting && id !in m.flat.ids
    requires m.s.requests[id].prefixKv.None? && |m.s.requests[id].prompt| <= cfg.chunk
    requires |m.s.requests[id].prompt| <= m.budget
    requires m.s.pool.blockSize == 1 && |m.s.requests[id].prompt| <= |m.s.pool.free|
    ensures InLine(m.s, [id]) && PrefillOne(cfg, m, id).Some?
    ensures var m', n := PrefillOne(cfg, m, id).value, |m.s.requests[id].prompt|;
      && |m'.flat.tokens| == |m.flat.tokens| + n && m'.flat.sampled == m.flat.sampled + [true]
      && m'.flat.ids == m.flat.ids + [id]
      && m'.budget == m.budget - n && m'.s.pool.blockSize == 1 && |m'.s.pool.free| == |m.s.pool.free| - n
  {
    hide FlatOk, Resting, Batched, Undisturbed, Chunk, Admit, Base, Live, Allocate;
    assert id in [id];
    BaseOf(cfg, m, ps, exact);
    AdmitSucceeds(cfg, m.s, id, exact);
    AdmitOk(cfg, m.s, id, exact);
    var m1 := m.(s := Admit(m.s, id).value);
    SanePrefilling(cfg, m1.s, id, exact);
    ChunkIs(cfg, m1, id);
    SetLengthIs(m1.s.pool, id, Chunk(cfg, m1, id).s.requests[id].prefillPos);
  }

  lemma BaseOf(cfg: Config, m: Mid, ps: seq<Piece>, exact: bool)
    requires MidOk(cfg, m, ps, exact)
    ensures Base(cfg, m.s, exact)
  {
  }

  lemma AdmitSucceeds(cfg: Config, s: Sched, id: nat, exact: bool)
    requires Base(cfg, s, exact) && id in s.requests && s.requests[id].status == Waiting
    requires s.requests[id].prefixKv.None?
    requires s.pool.blockSize == 1 && |s.requests[id].prompt| <= |s.pool.free|
    ensures Admit(s, id).Ok?
    ensures var s', n := Admit(s, id).value, |s.requests[id].prompt|;
      && s'.pool.blockSize == 1 && |s'.pool.free| == |s.pool.free| - n
      && s'.requests == s.requests[id := s.requests[id].(prefillPos := 0, status := Prefilling)]
  {
    hide Accounted, Allocate, Sane, Admit, Shape, SoleFrom;
    assert !Live(s, id);
    AdmitError(s.pool, id, |s.requests[id].prompt|);
    AdmitErr(s, id);
    AdmitIs(s, id);
    SeatAdmitted(s.pool, id, |s.requests[id].prompt|, 0);
  }

  lemma LineOfTwo(requests: map<nat, Request>)
    requires PriorityOf(requests, 0) == PriorityOf(requests, 1)
    ensures SortBy<nat>([0, 1], AdmissionOrder(requests)) == [0, 1]
  {
    var two: seq<nat>, one: seq<nat>, le := [0, 1], [0], AdmissionOrder(requests);
    assert two[..1] == one && one[..0] == [];
    assert SortBy<nat>([], le) == [];
    assert SortBy(one, le) == one;
    assert le(0, 1);
  }

  // The prefill phase over two such prompts.
  lemma PrefilledTogether(cfg: Config, m: Mid, p: seq<int>, a: SamplingParams, q: seq<int>, b: SamplingParams,
                          exact: bool, maxNew: int)
    requires MidOk(cfg, m, [], exact) && Together(cfg, p, a, q, b) && m.flat == NO_BATCH && m.budget == cfg.maxBatch
    requires m.s.requests == map[0 := NewRequest(p, a, maxNew), 1 := NewRequest(q, b, maxNew)]
    requires m.s.pool.blockSize == 1 && |m.s.pool.free| >= |p| + |q|
    ensures InLine(m.s, [0, 1])
    ensures var m' := PrefillAll(cfg, m, [0, 1]);
      m'.flat.ids == [0, 1] && m'.flat.sampled == [true, true] && |m'.flat.tokens| == |p| + |q|
  {
    hide MidOk, PrefillOne, Choosable;
    WholePrompt(cfg, m, [], 0, exact);
    var piece := PrefillOneOk(cfg, m, [], 0, exact);
    var m1, queue: seq<nat> := PrefillOne(cfg, m, 0).value, [0, 1];
    assert m1.s.requests[1] == NewRequest(q, b, maxNew);
    WholePrompt(cfg, m1, [] + [piece], 1, exact);
    assert queue[1..] == [1] && queue[1..][1..] == [];
    LineOk(cfg, m, [], queue, exact);
    var m2 := PrefillOne(cfg, m1, 1).value;
    assert PrefillAll(cfg, m2, []) == m2;
    assert PrefillAll(cfg, m1, queue[1..]) == m2;
  }

  /** Two prompts that arrive together are batched whole, and both are sampled from in the same step. */
  lemma BatchedTogether(cfg: Config, p: seq<int>, a: SamplingParams, q: seq<int>, b: SamplingParams, exact: bool,
                        maxNew: int := 1, spare: nat := 0)
    requires Together(cfg, p, a, q, b)
    ensures var s := TwoWaiting(cfg, p, a, q, b, maxNew, spare);
      && Settled(cfg, s, exact) && Steppable(s) && Step(cfg, s).Ok? && Build(cfg, s).Ok?
      && s.running == [] && s.drawn == 0 && s.nextId == 2 && s.pool == EmptyPool(|p| + |q| + spare, 1)
      && s.requests == map[0 := NewRequest(p, a, maxNew), 1 := NewRequest(q, b, maxNew)]
      && PrefillTokens(cfg, s) == |p| + |q|
      && Build(cfg, s).value.flat.ids == [0, 1] && Build(cfg, s).value.flat.sampled == [true, true]
  {
    hide Settled, MidOk, Together, PrefillAll, TwoWaiting, SortBy, AdmissionOrder;
    TwoWaitingIs(cfg, p, a, q, b, exact, maxNew, spare);
    var s := TwoWaiting(cfg, p, a, q, b, maxNew, spare);
    var all := StepOk(cfg, s, exact);
    SettledStart(cfg, s, exact);
    LineOfTwo(s.requests);
    PrefilledTogether(cfg, Mid(s, NO_BATCH, cfg.maxBatch), p, a, q, b, exact, maxNew);
    assert s.(waiting := [0, 1]) == s && s.prefilling + [0, 1] == [0, 1];
    PrefillIs(cfg, s);
  }

  lemma PrefillIs(cfg: Config, s: Sched)
    requires Steppable(s) && s.running == [] && s.prefilling == []
    requires SortBy(s.waiting, AdmissionOrder(s.requests)) == s.waiting
    ensures Build(cfg, s) == Ok(PrefillAll(cfg, Mid(s, NO_BATCH, cfg.maxBatch), s.waiting))
    ensures DecodeAll(Mid(s, NO_BATCH, cfg.maxBatch), s.running) == Ok(Mid(s, NO_BATCH, cfg.maxBatch))
  {
    hide PrefillAll, SortBy, AdmissionOrder;
    assert [] + s.waiting == s.waiting && s.(waiting := s.waiting) == s;
  }

  lemma PickedBoth()
    ensures Picked([0, 1], [true, true]) == [0, 1]
  {
  }

  // ---------- what the cap is worth ----------

  ghost predicate Capped(cfg: Config, s: Sched) {
    Steppable(s) && Build(cfg, s).Ok? ==> PrefillTokens(cfg, s) <= cfg.chunk
  }

  /** `chunk_size` is meant to cap the prompt tokens of a step, but caps those of each request.  The step is
      capped, whatever the engine's state, exactly when the token budget is no larger than the chunk: as soon
      as it is larger, a whole chunk and a one-token prompt that arrive together exceed it. */
  lemma ChunkCapsStepIff(cfg: Config, exact: bool)
    ensures (forall s :: Settled(cfg, s, exact) ==> Capped(cfg, s)) <==> cfg.maxBatch <= cfg.chunk
  {
    hide Settled, Choosable, Build, Steppable;
    if cfg.maxBatch <= cfg.chunk {
      forall s | Settled(cfg, s, exact)
        ensures Capped(cfg, s)
      {
        PrefillTokensBounded(cfg, s, exact);
      }
    } else {
      var p, a := seq(cfg.chunk, i => 0), SamplingParams(0.0, 1.0, 0);
      assert Choosable(cfg.net, cfg.exp, a) by { GreedyChoosable(cfg, a); }
      BatchedTogether(cfg, p, a, [0], a, exact);
      assert !Capped(cfg, TwoWaiting(cfg, p, a, [0], a));
    }
  }

  lemma GreedyChoosable(cfg: Config, a: SamplingParams)
    requires a.Greedy()
    ensures Choosable(cfg.net, cfg.exp, a)
  {
  }
}
