// Progress of the continuous-batching engine: if the pool covers the longest contexts of the unfinished
// requests, no step raises, every step with work does some, and running until done drains all requests.
module SchedulerLiveness {
  import opened Wrappers
  import opened Reference
  import opened BlockPool
  import opened PagedStore
  import opened RaggedForward
  import opened SingleSequence
  import opened Seating
  import opened Decoding
  import opened Sums
  import opened SchedulerState
  import opened SchedulerInvariant
  import opened SchedulerStep
  import opened SchedulerBatch
  import opened SchedulerRaise
  import opened SchedulerRuns

  // ---------- counting blocks ----------

  ghost function HeldIn(tables: map<nat, BlockTable>): nat -> nat {
    (i: nat) => if i in tables then |tables[i].blockIds| else 0
  }

  ghost function HeldAt(p: Pool): nat -> nat {
    HeldIn(p.tables)
  }

  lemma SplitCount(tables: map<nat, BlockTable>, id: nat)
    requires id in tables
    ensures |Holders(tables)| == |tables[id].blockIds| + |Holders(tables - {id})|
  {
    hide Holders;
    HoldersSplit(tables, id);
  }

  lemma HeldWithout(tables: map<nat, BlockTable>, k: nat)
    ensures SumTo(k, HeldIn(tables - {k})) == SumTo(k, HeldIn(tables))
    ensures HeldIn(tables)(k) == if k in tables then |tables[k].blockIds| else 0
  {
    SumSame(k, HeldIn(tables), HeldIn(tables - {k}));
  }

  lemma {:induction false} HoldersCount(tables: map<nat, BlockTable>, n: nat)
    requires forall id :: id in tables ==> id < n
    ensures |Holders(tables)| == SumTo(n, HeldIn(tables))
  {
    if n == 0 {
      assert tables == map[];
    } else {
      hide Holders;
      var rest := tables - {n - 1};
      HoldersCount(rest, n - 1);
      HeldWithout(tables, n - 1);
      hide HeldIn;
      if n - 1 in tables {
        SplitCount(tables, n - 1);
      } else {
        assert rest == tables;
      }
    }
  }

  lemma {:induction false} HolderExists(tables: map<nat, BlockTable>, b: nat) returns (id: nat)
    requires Holders(tables)[b] > 0
    ensures id in tables && b in tables[id].blockIds
    decreases |tables|
  {
    id :| id in tables && Holders(tables) == multiset(tables[id].blockIds) + Holders(tables - {id});
    if b !in tables[id].blockIds {
      assert multiset(tables[id].blockIds)[b] == 0;
      id := HolderExists(tables - {id}, b);
    }
  }

  // With no shared block every counted block occurs once.
  lemma SoleHolders(p: Pool)
    requires Accounted(p, multiset{}) && forall id :: id in p.tables ==> SoleFrom(p, id, 0)
    ensures Holders(p.tables) == multiset(p.refCount.Keys)
  {
    hide Holders;
    var holders := Holders(p.tables);
    forall b: nat
      ensures holders[b] == multiset(p.refCount.Keys)[b]
    {
      assert Refs(p.refCount, b) == (holders + multiset{})[b];
      if holders[b] > 0 {
        var id := HolderExists(p.tables, b);
        var i :| 0 <= i < |p.tables[id].blockIds| && p.tables[id].blockIds[i] == b;
        assert Refs(p.refCount, b) == 1;
      }
    }
  }

  // Then the pool's size is what is free plus what the tables hold.
  lemma BlocksTotal(p: Pool, n: nat)
    requires Accounted(p, multiset{}) && forall id :: id in p.tables ==> id < n && SoleFrom(p, id, 0)
    ensures |p.free| + SumTo(n, HeldAt(p)) == p.numBlocks
  {
    hide Holders, Exact, Partitioned, SoleFrom;
    SoleHolders(p);
    HoldersCount(p.tables, n);
    FreeAndCounted(p);
  }

  // ---------- capacity ----------

  lemma PeakNonNegative(bs: pos, n: nat, maxNew: int)
    ensures Peak(bs, n, maxNew) >= 0
  {
    BlocksNeededBounds(bs, n + (if maxNew > 1 then maxNew else 1) - 1);
  }

  // The blocks an unfinished request may come to need.
  ghost function PeakAt(s: Sched): nat -> nat {
    (i: nat) =>
      if i in s.requests && s.requests[i].status != Finished then
        PeakNonNegative(s.pool.blockSize, |s.requests[i].prompt|, s.requests[i].maxNew);
        Peak(s.pool.blockSize, |s.requests[i].prompt|, s.requests[i].maxNew)
      else 0
  }

  /** The pool covers the longest contexts of all unfinished requests together. */
  ghost predicate Capacity(s: Sched) {
    SumTo(s.nextId, PeakAt(s)) <= s.pool.numBlocks
  }

  // No live request holds more than its peak; one about to need a block holds less.
  lemma RestingBelowPeak(cfg: Config, s: Sched, id: nat, exact: bool)
    requires id in s.requests && Resting(cfg.net, s, id, exact) && Sane(cfg, s.requests[id], exact)
    ensures id in s.pool.tables
    ensures |s.pool.tables[id].blockIds| <= PeakAt(s)(id)
    ensures s.requests[id].status == Running && AppendToken(s.pool, id).Err? ==>
      s.pool.free == [] && |s.pool.tables[id].blockIds| < PeakAt(s)(id)
  {
    var req, bs := s.requests[id], s.pool.blockSize;
    hide Placed, BlocksNeeded;
    PeakNonNegative(bs, |req.prompt|, req.maxNew);
    PeakCoversPrompt(bs, |req.prompt|, req.maxNew);
    if req.status == Running {
      RunningLength(cfg, s, id, exact);
      PeakCovers(bs, |req.prompt|, |req.outputs|, req.maxNew);
      BlocksNeededMonotone(bs, |req.prompt| + |req.outputs| - 1, |req.prompt| + |req.outputs|);
    }
  }

  lemma RunningLength(cfg: Config, s: Sched, id: nat, exact: bool)
    requires id in s.requests && Resting(cfg.net, s, id, exact) && s.requests[id].status == Running
    requires Sane(cfg, s.requests[id], exact)
    ensures id in s.pool.tables && s.pool.tables[id].numTokens == |s.requests[id].prompt| + |s.requests[id].outputs| - 1
    ensures 0 < |s.requests[id].outputs| < s.requests[id].maxNew
  {
    RestingSeat(cfg.net, s, id, exact);
  }

  lemma BatchedBelowPeak(cfg: Config, s: Sched, id: nat, piece: Piece, sampled: bool, exact: bool)
    requires id in s.requests && Batched(cfg.net, s, id, piece, sampled, exact) && Sane(cfg, s.requests[id], exact)
    ensures id in s.pool.tables
    ensures |s.pool.tables[id].blockIds| <= PeakAt(s)(id)
  {
    var req, bs := s.requests[id], s.pool.blockSize;
    hide Holds, SoleFrom, BlocksNeeded;
    PeakNonNegative(bs, |req.prompt|, req.maxNew);
    PeakCoversPrompt(bs, |req.prompt|, req.maxNew);
    if req.status == Running && req.outputs != [] {
      PeakCovers(bs, |req.prompt|, |req.outputs|, req.maxNew);
    }
  }

  lemma HeldBelowPeaks(cfg: Config, m: Mid, ps: seq<Piece>, exact: bool)
    requires MidOk(cfg, m, ps, exact)
    ensures forall i: nat :: i < m.s.nextId ==> HeldAt(m.s.pool)(i) <= PeakAt(m.s)(i)
    ensures |m.s.pool.free| + SumTo(m.s.nextId, HeldAt(m.s.pool)) == m.s.pool.numBlocks
  {
    hide Accounted, FlatOk, Holds, Shape, SoleFrom, Batched, Resting, Sane, PeakAt;
    forall i: nat | i < m.s.nextId
      ensures HeldAt(m.s.pool)(i) <= PeakAt(m.s)(i)
    {
      if i in m.s.pool.tables {
        MidBelowPeak(cfg, m, ps, i, exact);
      }
    }
    forall id | id in m.s.pool.tables
      ensures id < m.s.nextId && SoleFrom(m.s.pool, id, 0)
    {
      LiveSole(cfg, m, ps, id, exact);
    }
    BlocksTotal(m.s.pool, m.s.nextId);
  }

  lemma MidBelowPeak(cfg: Config, m: Mid, ps: seq<Piece>, id: nat, exact: bool)
    requires MidOk(cfg, m, ps, exact) && Live(m.s, id)
    ensures id in m.s.pool.tables && |m.s.pool.tables[id].blockIds| <= PeakAt(m.s)(id)
  {
    hide Accounted, FlatOk, Holds, Shape, SoleFrom, Batched, Resting, Sane, PeakAt;
    BatchLengths(cfg, m, ps, exact);
    assert Sane(cfg, m.s.requests[id], exact);
    if id in m.flat.ids {
      var k :| 0 <= k < |m.flat.ids| && m.flat.ids[k] == id;
      BatchedBelowPeak(cfg, m.s, id, ps[k], m.flat.sampled[k], exact);
    } else {
      RestingBelowPeak(cfg, m.s, id, exact);
    }
  }

  // ---------- no step raises ----------

  lemma RoomToDecode(cfg: Config, m: Mid, ps: seq<Piece>, id: nat, exact: bool)
    requires MidOk(cfg, m, ps, exact) && Capacity(m.s) && id in m.s.running && id !in m.flat.ids
    ensures id in m.s.pool.tables && AppendToken(m.s.pool, id).Ok?
  {
    hide Accounted, FlatOk, Holds, Shape, SoleFrom, Batched, Resting, Sane, PeakAt, HeldAt, AppendToken;
    RestingRunning(cfg, m, ps, id, exact);
    assert Sane(cfg, m.s.requests[id], exact);
    RestingBelowPeak(cfg, m.s, id, exact);
    HeldBelowPeaks(cfg, m, ps, exact);
    if AppendToken(m.s.pool, id).Err? {
      HeldIs(m.s.pool, id);
      SumLess(m.s.nextId, HeldAt(m.s.pool), PeakAt(m.s), id, 1);
    }
  }

  lemma HeldIs(p: Pool, id: nat)
    requires id in p.tables
    ensures HeldAt(p)(id) == |p.tables[id].blockIds|
  {
  }

  lemma {:induction false} DecodeAllSucceeds(cfg: Config, m: Mid, ps: seq<Piece>, queue: seq<nat>, exact: bool)
    requires MidOk(cfg, m, ps, exact) && NoDup(queue) && Capacity(m.s)
    requires forall id :: id in queue ==> id in m.s.running && id !in m.flat.ids
    ensures AllRunning(m.s, queue) && DecodeAll(m, queue).Ok?
    decreases |queue|
  {
    hide MidOk, Capacity, AppendToken;
    AllResting(cfg, m, ps, queue, exact);
    if queue != [] && m.budget >= 1 {
      assert queue[0] in queue;
      RoomToDecode(cfg, m, ps, queue[0], exact);
      DecodeOneOk(cfg, m, ps, queue[0], exact);
      var m' := DecodeOne(m, queue[0]).value;
      AppendSizes(m.s.pool, queue[0]);
      CapacitySame(m.s, m'.s);
      forall id | id in queue[1..]
        ensures id in m'.s.running && id !in m'.flat.ids
      {
        assert id in queue && id != queue[0];
      }
      DecodeAllSucceeds(cfg, m', ps + [DecodePiece(m', queue[0])], queue[1..], exact);
    }
  }

  lemma CapacitySame(s: Sched, s': Sched)
    requires Capacity(s) && s'.requests == s.requests && s'.nextId == s.nextId
    requires s'.pool.numBlocks == s.pool.numBlocks && s'.pool.blockSize == s.pool.blockSize
    ensures Capacity(s')
  {
    SumSame(s.nextId, PeakAt(s), PeakAt(s'));
  }

  // ---------- every step with work does some ----------

  predicate HasWork(s: Sched) {
    s.waiting != [] || s.prefilling != [] || s.running != []
  }

  // Prompt tokens to prefill and output tokens to produce, at most.
  function Work(req: Request): nat {
    var outputs := if req.maxNew > 1 then req.maxNew else 1;
    if req.status == Finished then 0
    else (if req.prefillPos < |req.prompt| then |req.prompt| - req.prefillPos else 0)
         + (if |req.outputs| < outputs then outputs - |req.outputs| else 0)
  }

  ghost function WorkAt(s: Sched): nat -> nat {
    (i: nat) => if i in s.requests then Work(s.requests[i]) else 0
  }

  ghost function Measure(s: Sched): nat {
    SumTo(s.nextId, WorkAt(s))
  }

  lemma WorkMoves(cfg: Config, req: Request, mid: Request, req': Request, t: int, exact: bool)
    requires Sane(cfg, req, exact) && MovesOn(req, mid)
    requires req' == if mid.status == Running then WithToken(mid, t) else mid
    ensures Work(req') <= Work(req)
    ensures req.status == Running ==> Work(req') < Work(req)
    ensures req.prefillPos < mid.prefillPos && req.prefillPos < |req.prompt| ==> Work(req') < Work(req)
    ensures req.status == Finished ==> req'.status == Finished
    ensures req'.prompt == req.prompt && req'.maxNew == req.maxNew && req'.eos == req.eos
  {
    hide Choosable, Brought;
  }

  // The step's effect on the work of one request.
  lemma StepWork(cfg: Config, s: Sched, m: Sched, s': Sched, id: nat, exact: bool)
    requires AllMoveOn(s, m) && TokensGiven(m.requests, s'.requests)
    requires id in s.requests && Sane(cfg, s.requests[id], exact)
    ensures id in s'.requests && WorkAt(s')(id) <= WorkAt(s)(id)
    ensures s.requests[id].status == Running ==> WorkAt(s')(id) < WorkAt(s)(id)
    ensures s.requests[id].status in {Waiting, Prefilling} ==>
      s.requests[id].prefillPos < m.requests[id].prefillPos ==> WorkAt(s')(id) < WorkAt(s)(id)
    ensures s.requests[id].status == Finished ==> s'.requests[id].status == Finished
    ensures var req, req' := s.requests[id], s'.requests[id];
      req'.prompt == req.prompt && req'.maxNew == req.maxNew && req'.eos == req.eos
  {
    hide Latest, WithToken, Work;
    KeysSame(m.requests, s'.requests);
    var req, mid := s.requests[id], m.requests[id];
    assert MovesOn(req, mid);
    PrefillBehind(cfg, req, exact);
    if mid.status == Running {
      WorkMoves(cfg, req, mid, s'.requests[id], Latest(s'.requests[id]), exact);
    } else {
      WorkMoves(cfg, req, mid, s'.requests[id], 0, exact);
    }
  }

  lemma PrefillBehind(cfg: Config, req: Request, exact: bool)
    requires Sane(cfg, req, exact)
    ensures req.status in {Waiting, Prefilling} ==> req.prefillPos < |req.prompt|
  {
  }

  // Under the capacity hypothesis whatever waits can be admitted at once.
  lemma RoomToAdmit(cfg: Config, s: Sched, id: nat, exact: bool)
    requires Settled(cfg, s, exact) && Capacity(s) && id in s.waiting
    ensures id in s.requests && BlocksNeeded(s.pool.blockSize, |s.requests[id].prompt|) <= |s.pool.free|
  {
    hide Accounted, Shape, Sane, Resting, HeldAt, BlocksNeeded, Peak;
    SettledStart(cfg, s, exact);
    HeldBelowPeaks(cfg, Mid(s, NO_BATCH, cfg.maxBatch), [], exact);
    var req, bs := s.requests[id], s.pool.blockSize;
    PeakCoversPrompt(bs, |req.prompt|, req.maxNew);
    PeakNonNegative(bs, |req.prompt|, req.maxNew);
    assert !Live(s, id);
    NotHeld(s.pool, id);
    SumLess(s.nextId, HeldAt(s.pool), PeakAt(s), id, PeakAt(s)(id));
  }

  lemma NotHeld(p: Pool, id: nat)
    requires id !in p.tables
    ensures HeldAt(p)(id) == 0
  {
  }

  lemma StepSucceeds(cfg: Config, s: Sched, exact: bool)
    requires Settled(cfg, s, exact) && Capacity(s)
    ensures Steppable(s) && Step(cfg, s).Ok?
  {
    hide Settled, MidOk, Capacity;
    var ps := StepOk(cfg, s, exact);
    SettledStart(cfg, s, exact);
    DecodeAllSucceeds(cfg, Mid(s, NO_BATCH, cfg.maxBatch), [], s.running, exact);
  }

  lemma NotStarved(cfg: Config, s: Sched, line: seq<nat>, exact: bool)
    requires Settled(cfg, s, exact) && Capacity(s) && HasWork(s) && s.running == []
    requires forall x :: x in line <==> x in s.waiting
    ensures !Starved(s, line)
  {
    hide Settled, Capacity, BlocksNeeded;
    NonEmptyHas(s.waiting);
    if line != [] {
      assert line[0] in line;
      RoomToAdmit(cfg, s, line[0], exact);
    }
  }

  // Some request's work shrinks.
  lemma SomeWorkDone(cfg: Config, s: Sched, exact: bool) returns (id: nat)
    requires Settled(cfg, s, exact) && Capacity(s) && HasWork(s)
    ensures Steppable(s) && Step(cfg, s).Ok? && id < s.nextId
    ensures WorkAt(Step(cfg, s).value)(id) < WorkAt(s)(id)
  {
    hide MidOk, TokensGiven, AllMoveOn, Capacity, WorkAt, SortBy, AdmissionOrder, Accounted, Shape, Sane, Resting,
      Step, Build;
    StepSucceeds(cfg, s, exact);
    var ps := StepOk(cfg, s, exact);
    var qs := BuildOk(cfg, s, exact);
    var m, line := Build(cfg, s).value, SortBy(s.waiting, AdmissionOrder(s.requests));
    SortByElements(s.waiting, AdmissionOrder(s.requests));
    if s.running != [] {
      id := s.running[0];
      assert id in s.running;
    } else {
      NotStarved(cfg, s, line, exact);
      var queue := s.prefilling + line;
      id := queue[0];
      assert id in queue;
    }
    assert Sane(cfg, s.requests[id], exact);
    StepWork(cfg, s, m.s, Step(cfg, s).value, id, exact);
  }

  // What stays the same of every request, and that finished ones stay finished.
  ghost predicate SameRequest(req: Request, req': Request) {
    && req'.prompt == req.prompt && req'.maxNew == req.maxNew && req'.eos == req.eos
    && (req.status == Finished ==> req'.status == Finished)
  }

  ghost predicate SameRequests(s: Sched, s': Sched) {
    && (forall id :: id in s'.requests <==> id in s.requests)
    && (forall id :: id in s.requests ==> SameRequest(s.requests[id], s'.requests[id]))
  }

  lemma CapacityKept(cfg: Config, s: Sched, s': Sched)
    requires Capacity(s) && s'.nextId == s.nextId && s'.pool.numBlocks == s.pool.numBlocks
    requires s'.pool.blockSize == s.pool.blockSize
    requires SameRequests(s, s')
    ensures Capacity(s')
  {
    forall i: nat | i < s.nextId
      ensures PeakAt(s')(i) <= PeakAt(s)(i)
    {
      if i in s.requests {
        PeakNonNegative(s.pool.blockSize, |s.requests[i].prompt|, s.requests[i].maxNew);
      }
    }
    SumAtMost(s.nextId, PeakAt(s'), PeakAt(s));
  }

  /** Liveness: while there is work and the pool covers it, a step succeeds, strictly decreases the remaining
      prompt and output tokens, and leaves the pool covering what remains. */
  lemma StepProgresses(cfg: Config, s: Sched, exact: bool)
    requires Settled(cfg, s, exact) && Capacity(s) && HasWork(s)
    ensures Steppable(s) && Step(cfg, s).Ok?
    ensures var s' := Step(cfg, s).value;
      Settled(cfg, s', exact) && Measure(s') < Measure(s) && Capacity(s') && SameRequests(s, s')
  {
    hide MidOk, TokensGiven, AllMoveOn, Capacity, WorkAt, Accounted, Shape, Sane, Resting, Step, Build;
    var k := SomeWorkDone(cfg, s, exact);
    var ps := StepOk(cfg, s, exact);
    var m, s' := Build(cfg, s).value, Step(cfg, s).value;
    StepKeys(s, m.s, s');
    forall id | id in s.requests
      ensures id in s'.requests && WorkAt(s')(id) <= WorkAt(s)(id) && SameRequest(s.requests[id], s'.requests[id])
    {
      assert Sane(cfg, s.requests[id], exact);
      StepWork(cfg, s, m.s, s', id, exact);
    }
    SumLess(s.nextId, WorkAt(s'), WorkAt(s), k, 1);
    CapacityKept(cfg, s, s');
  }

  // ---------- running until done ----------

  ghost function RunUntilDone(cfg: Config, s: Sched, maxSteps: nat): Result<Sched>
    decreases maxSteps
  {
    if !HasWork(s) || maxSteps == 0 then Ok(s)
    else if !Steppable(s) then Err(OutOfBlocks)
    else
      match Step(cfg, s)
      case Err(e) => Err(e)
      case Ok(s') => RunUntilDone(cfg, s', maxSteps - 1)
  }

  lemma AllFinished(cfg: Config, s: Sched, exact: bool)
    requires Settled(cfg, s, exact) && !HasWork(s)
    ensures forall id :: id in s.requests ==> s.requests[id].status == Finished
  {
    hide Accounted, Shape, Sane, Resting;
    forall id | id in s.requests
      ensures s.requests[id].status == Finished
    {
      assert id !in s.waiting && id !in s.prefilling && id !in s.running;
    }
  }

  lemma SameRequestsTrans(s: Sched, s': Sched, s'': Sched)
    requires SameRequests(s, s') && SameRequests(s', s'')
    ensures SameRequests(s, s'')
  {
  }

  lemma {:induction false} RunUntilDoneDrains(cfg: Config, s: Sched, maxSteps: nat, exact: bool)
    requires Settled(cfg, s, exact) && Capacity(s) && Measure(s) <= maxSteps
    ensures var r := RunUntilDone(cfg, s, maxSteps);
      r.Ok? && !HasWork(r.value) && Settled(cfg, r.value, exact) && SameRequests(s, r.value)
    decreases maxSteps
  {
    hide Settled, Capacity, Step, Steppable, SameRequests, Measure;
    if HasWork(s) {
      StepProgresses(cfg, s, exact);
      var s' := Step(cfg, s).value;
      RunUntilDoneDrains(cfg, s', maxSteps - 1, exact);
      SameRequestsTrans(s, s', RunUntilDone(cfg, s', maxSteps - 1).value);
    } else {
      SameRequestsSelf(s);
    }
  }

  lemma SameRequestsSelf(s: Sched)
    ensures SameRequests(s, s)
  {
  }

  lemma GreedyStep(cfg: Config, s: Sched)
    requires Settled(cfg, s, true) && AllGreedy(cfg.net, s)
    ensures Steppable(s)
    ensures Step(cfg, s).Ok? ==> Settled(cfg, Step(cfg, s).value, true) && AllGreedy(cfg.net, Step(cfg, s).value)
  {
    hide *;
    StepStaysGreedy(cfg, s);
    var ps := StepOk(cfg, s, true);
  }

  lemma {:induction false} RunStaysGreedy(cfg: Config, s: Sched, maxSteps: nat)
    requires Settled(cfg, s, true) && AllGreedy(cfg.net, s) && RunUntilDone(cfg, s, maxSteps).Ok?
    ensures AllGreedy(cfg.net, RunUntilDone(cfg, s, maxSteps).value)
    decreases maxSteps
  {
    hide Settled, AllGreedy, Step, Steppable, HasWork;
    if HasWork(s) && maxSteps > 0 {
      GreedyStep(cfg, s);
      RunStaysGreedy(cfg, Step(cfg, s).value, maxSteps - 1);
    }
  }

  /** `run_until_done` with enough steps drains the engine: it raises nothing, no request is left, and, all
      requests being greedy and their prefixes exact, every one has exactly its own solo generation. */
  lemma EveryRequestIsServed(cfg: Config, s: Sched, maxSteps: nat)
    requires Settled(cfg, s, true) && AllGreedy(cfg.net, s) && Capacity(s) && Measure(s) <= maxSteps
    ensures var r := RunUntilDone(cfg, s, maxSteps);
      && r.Ok? && !HasWork(r.value)
      && forall id :: id in s.requests ==>
           && id in r.value.requests && |s.requests[id].prompt| > 0
           && r.value.requests[id].outputs ==
             Generate(cfg.net, s.requests[id].prompt, s.requests[id].maxNew, s.requests[id].eos)
  {
    hide Settled, Capacity, Measure, RunUntilDone, HasWork, Generate, AllGreedy, Wedged;
    RunUntilDoneDrains(cfg, s, maxSteps, true);
    RunStaysGreedy(cfg, s, maxSteps);
    var s' := RunUntilDone(cfg, s, maxSteps).value;
    AllFinished(cfg, s', true);
    StandingFacts(cfg, s', true);
    GreedyIsTransparent(cfg, s');
  }
}
