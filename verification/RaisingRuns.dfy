// Runs of the batching engine in which a step raises.
module RaisingRuns {
  import opened Wrappers
  import opened Reference
  import opened BlockPool
  import opened PagedStore
  import opened RaggedForward
  import opened SingleSequence
  import opened Sampling
  import opened Decoding
  import opened Sums
  import opened SchedulerState
  import opened SchedulerInvariant
  import opened SchedulerStep
  import opened SchedulerBatch
  import opened SchedulerRaise
  import opened SchedulerRuns
  import opened SchedulerLiveness
  import opened SchedulerBudget

  const GREEDY := SamplingParams(0.0, 1.0, 0)

  // Two one-token prompts that ask for two tokens each, and blocks for `spare` of their last tokens.
  const ASKING := Arrive([0], 2, GREEDY, None, 0, None)

  // Their first step gives each a token.
  lemma OneTokenEach(cfg: Config, spare: nat) returns (s: Sched)
    requires cfg.maxBatch > 1
    ensures s == PlayAll(cfg, EmptyFor(cfg, 2 + spare), [ASKING, ASKING, Tick])
    ensures Settled(cfg, s, true) && s.nextId == 2 && s.requests.Keys == {0, 1}
    ensures s.pool.blockSize == 1 && s.pool.numBlocks == 2 + spare
    ensures forall id :: id in {0, 1} ==>
      && id in s.requests && |s.requests[id].outputs| == 1
      && s.requests[id].prompt == [0] && s.requests[id].maxNew == 2 && s.requests[id].eos == None
  {
    hide Settled, RowsMatch, Step, Build, TwoWaiting, Picked, PrefillTokens, Steppable, AdmittedInOrder, AllMoveOn,
      MidOk,
      TokensGiven, RunningBatched, Sampled, PlayAll, Together;
    var s0 := TwoWaiting(cfg, [0], GREEDY, [0], GREEDY, 2, spare);
    assert Together(cfg, [0], GREEDY, [0], GREEDY) by { FitTogether(cfg); }
    BatchedTogether(cfg, [0], GREEDY, [0], GREEDY, true, 2, spare);
    PlayTick(cfg, spare);
    s := Step(cfg, s0).value;
    var ps := StepOk(cfg, s0, true);
    StepServes(cfg, s0, true);
    GivenBoth(cfg, s0);
  }

  lemma FitTogether(cfg: Config)
    requires cfg.maxBatch > 1
    ensures Together(cfg, [0], GREEDY, [0], GREEDY)
  {
  }

  // Both rows of such a batch are sampled from.
  lemma GivenBoth(cfg: Config, s: Sched)
    requires Settled(cfg, s, true) && Steppable(s) && Step(cfg, s).Ok? && 0 in s.requests && 1 in s.requests
    requires s.requests[0].outputs == [] && s.requests[1].outputs == [] && Build(cfg, s).Ok?
    requires Build(cfg, s).value.flat.ids == [0, 1] && Build(cfg, s).value.flat.sampled == [true, true]
    ensures var s' := Step(cfg, s).value;
      0 in s'.requests && 1 in s'.requests && |s'.requests[0].outputs| == 1 && |s'.requests[1].outputs| == 1
  {
    hide Settled, RowsMatch, TokensOf, Step, Build, OwnChoices, Picked, Context, Steppable;
    StepChooses(cfg, s);
    PickedBoth();
    var batch: seq<nat> := Picked(Build(cfg, s).value.flat.ids, Build(cfg, s).value.flat.sampled);
    assert batch == [0, 1] && batch[0] == 0 && batch[1] == 1;
  }

  // Then both run, each with one token in its cache.
  lemma BothRunning(cfg: Config, spare: nat) returns (s: Sched)
    requires cfg.maxBatch > 1
    ensures s == PlayAll(cfg, EmptyFor(cfg, 2 + spare), [ASKING, ASKING, Tick])
    ensures Settled(cfg, s, true) && Elems(s.running) == {0, 1} && NoDup(s.running) && s.nextId == 2
    ensures s.pool.blockSize == 1 && s.pool.numBlocks == 2 + spare
    ensures forall id :: id in {0, 1} ==>
      id in s.requests && |Context(s.requests[id])| == 2 && s.requests[id].status == Running
  {
    hide Settled, PlayAll, EmptyFor;
    s := OneTokenEach(cfg, spare);
    StillRunning(cfg, s, 0);
    StillRunning(cfg, s, 1);
    RunningAre(cfg, s);
  }

  lemma StillRunning(cfg: Config, s: Sched, id: nat)
    requires Settled(cfg, s, true) && id in s.requests
    requires |s.requests[id].outputs| == 1 && s.requests[id].maxNew == 2 && s.requests[id].eos == None
    ensures s.requests[id].status == Running
  {
    assert Sane(cfg, s.requests[id], true);
  }

  lemma RunningAre(cfg: Config, s: Sched)
    requires Settled(cfg, s, true)
    ensures forall id :: id in s.running <==> id in s.requests && s.requests[id].status == Running
    ensures NoDup(s.running)
  {
  }

  lemma PlayTick(cfg: Config, spare: nat)
    ensures var s0 := TwoWaiting(cfg, [0], GREEDY, [0], GREEDY, 2, spare);
      Steppable(s0) && Step(cfg, s0).Ok? ==>
        PlayAll(cfg, EmptyFor(cfg, 2 + spare), [ASKING, ASKING, Tick]) == Step(cfg, s0).value
  {
    hide Step, Steppable;
    assert [ASKING, ASKING, Tick][..2] == [ASKING, ASKING];
  }

  // Where each stands, and what is free.
  lemma AtBoundary(cfg: Config, s: Sched, id: nat)
    requires Settled(cfg, s, true) && s.pool.blockSize == 1
    requires id in s.requests && |Context(s.requests[id])| == 2 && s.requests[id].status == Running
    ensures id in s.pool.tables && s.pool.tables[id].numTokens == 1 && HeldAt(s.pool)(id) == 1
  {
    hide Accounted, Sane, Shape, SoleFrom, Holds, Queues;
    assert Live(s, id);
    RestingSeat(cfg.net, s, id, true);
  }

  lemma SpareFree(cfg: Config, s: Sched)
    requires Settled(cfg, s, true) && s.pool.blockSize == 1 && s.nextId == 2
    requires HeldAt(s.pool)(0) == 1 && HeldAt(s.pool)(1) == 1
    ensures |s.pool.free| == s.pool.numBlocks - 2
  {
    hide Settled, MidOk, HeldAt;
    SettledStart(cfg, s, true);
    HeldBelowPeaks(cfg, Mid(s, NO_BATCH, cfg.maxBatch), [], true);
    var f := HeldAt(s.pool);
    assert SumTo(2, f) == SumTo(1, f) + f(1) && SumTo(1, f) == SumTo(0, f) + f(0);
  }

  lemma {:induction false} AllCross(p: Pool, queue: seq<nat>)
    requires p.blockSize == 1 && forall id :: id in queue ==> id in p.tables
    ensures Crossing(p, queue) == |queue|
  {
    if queue != [] {
      assert queue[0] in queue && forall id :: id in queue[1..] ==> id in queue;
      AllCross(p, queue[1..]);
    }
  }

  /** A step can raise, after three events: both requests then stand at a block boundary and at most one block is
      free.  Without a spare block the first of them fails and the engine is left unchanged; with one the first
      takes it, the second fails, and the first keeps room for a token that is never written. */
  lemma RaisingRun(cfg: Config, spare: nat) returns (s: Sched)
    requires cfg.maxBatch > 1 && spare < 2
    ensures s == PlayAll(cfg, EmptyFor(cfg, 2 + spare), [ASKING, ASKING, Tick])
    ensures Settled(cfg, s, true) && Steppable(s) && Step(cfg, s).Err?
    ensures Wedged(cfg, Interrupted(cfg, s)) && (Interrupted(cfg, s) == s <==> spare == 0)
  {
    hide Settled, PlayAll, EmptyFor, Step, Steppable, Interrupted, Wedged, Context, HeldAt;
    s := BothRunning(cfg, spare);
    AtBoundary(cfg, s, 0);
    AtBoundary(cfg, s, 1);
    SpareFree(cfg, s);
    forall id | id in s.running
      ensures id in s.pool.tables && s.pool.tables[id].numTokens == 1
    {
      assert id in Elems(s.running);
    }
    AllCross(s.pool, s.running);
    ElemsCount(s.running);
    StepRaisesIff(cfg, s, true);
    RaiseWedges(cfg, s, true);
    InterruptedUnchangedIff(cfg, s, true);
    assert s.running[0] in s.running;
  }
}
