// The batch of a step and what a step does for each request: running requests never starve, the token budget
// is kept, admission follows the order.
module SchedulerBatch {
  import opened Wrappers
  import opened Reference
  import opened BlockPool
  import opened PagedStore
  import opened RaggedForward
  import opened SingleSequence
  import opened Portable
  import opened Sampling
  import opened SchedulerState
  import opened SchedulerInvariant
  import opened SchedulerStep

  // ---------- what the prefill phase does to requests and queues ----------

  // The prefill phase only moves a request forward through its prompt.
  ghost predicate MovesOn(req: Request, req': Request) {
    && req' == req.(prefillPos := req'.prefillPos, status := req'.status, prefixKv := req'.prefixKv)
    && req.prefillPos <= req'.prefillPos
    && (req.status in {Running, Finished} ==> req' == req)
    && (req.status == Prefilling ==> req'.status in {Prefilling, Running})
    && (req.status == Waiting ==> req' == req || req'.status in {Prefilling, Running})
  }

  lemma MovedOutputs(req: Request, req': Request)
    requires MovesOn(req, req')
    ensures req'.outputs == req.outputs
  {
  }

  ghost predicate AllMoveOn(s: Sched, s': Sched) {
    && s'.requests.Keys == s.requests.Keys && s'.nextId == s.nextId && s'.finished == s.finished && s'.drawn == s.drawn
    && s'.collected == s.collected
    && s'.pool.numBlocks == s.pool.numBlocks && s'.pool.blockSize == s.pool.blockSize
    && forall id :: id in s.requests ==> MovesOn(s.requests[id], s'.requests[id])
  }

  lemma AllMoveOnTrans(s: Sched, s': Sched, s'': Sched)
    requires AllMoveOn(s, s') && AllMoveOn(s', s'')
    ensures AllMoveOn(s, s'')
  {
    forall id | id in s.requests
      ensures MovesOn(s.requests[id], s''.requests[id])
    {
      assert id in s'.requests;
      assert MovesOn(s'.requests[id], s''.requests[id]);
    }
  }

  // A request in line advances by at least one token, or cannot be admitted.
  lemma PrefillOneMoves(cfg: Config, m: Mid, ps: seq<Piece>, id: nat, exact: bool)
    requires MidOk(cfg, m, ps, exact) && id in m.s.requests && m.s.requests[id].status in {Waiting, Prefilling}
    requires id !in m.flat.ids && m.budget >= 1
    ensures InLine(m.s, [id])
    ensures PrefillOne(cfg, m, id).None? <==>
      m.s.requests[id].status == Waiting &&
        BlocksNeeded(m.s.pool.blockSize, |m.s.requests[id].prompt|) > |m.s.pool.free|
    ensures PrefillOne(cfg, m, id).Some? ==> var s' := PrefillOne(cfg, m, id).value.s;
      && AllMoveOn(m.s, s') && m.s.requests[id].prefillPos < s'.requests[id].prefillPos
      && s'.waiting == (if m.s.requests[id].status == Waiting then Remove(m.s.waiting, id) else m.s.waiting)
      && (forall i :: i in s'.running ==> i in m.s.running || i == id)
  {
    hide FlatOk, Resting, Batched, Undisturbed, Chunk, Admit, Accounted, Shape, Remove, AllMoveOn, Sane;
    assert id in [id];
    if m.s.requests[id].status == Waiting {
      assert !Live(m.s, id);
      AdmitError(m.s.pool, id, |m.s.requests[id].prompt|);
      AdmitErr(m.s, id);
      if Admit(m.s, id).Ok? {
        AdmitOk(cfg, m.s, id, exact);
        WaitingStart(cfg, m.s.requests[id], exact);
        AdmitMoves(m.s, id);
        ChunkMoves(cfg, m.(s := Admit(m.s, id).value), id, exact);
        AllMoveOnTrans(m.s, Admit(m.s, id).value, Chunk(cfg, m.(s := Admit(m.s, id).value), id).s);
      }
    } else {
      ChunkMoves(cfg, m, id, exact);
    }
  }

  lemma WaitingStart(cfg: Config, req: Request, exact: bool)
    requires Sane(cfg, req, exact) && req.status == Waiting
    ensures req.prefillPos == 0
  {
  }

  lemma AdmitMoves(s: Sched, id: nat)
    requires id in s.requests && s.requests[id].status == Waiting && s.requests[id].prefillPos == 0 && Admit(s, id).Ok?
    ensures var s' := Admit(s, id).value;
      AllMoveOn(s, s') && s'.waiting == Remove(s.waiting, id) && s'.running == s.running
  {
    hide Admit, Allocate, ImportPrefix, Remove;
    AdmitIs(s, id);
    var q := Allocate(s.pool, id, |s.requests[id].prompt|, []).value;
    AllocateSizes(s.pool, id, |s.requests[id].prompt|);
  }

  lemma AllocateSizes(p: Pool, id: nat, n: nat)
    requires Allocate(p, id, n, []).Ok?
    ensures Allocate(p, id, n, []).value.numBlocks == p.numBlocks
    ensures Allocate(p, id, n, []).value.blockSize == p.blockSize
  {
  }

  lemma ChunkMoves(cfg: Config, m: Mid, id: nat, exact: bool)
    requires Base(cfg, m.s, exact) && id in m.s.requests && m.s.requests[id].status == Prefilling && m.budget >= 1
    ensures id in m.s.pool.tables
    ensures var s' := Chunk(cfg, m, id).s;
      && AllMoveOn(m.s, s') && s'.waiting == m.s.waiting && m.s.requests[id].prefillPos < s'.requests[id].prefillPos
      && (forall i :: i in s'.running ==> i in m.s.running || i == id)
  {
    hide Base, Chunk, Remove;
    SanePrefilling(cfg, m.s, id, exact);
    ChunkIs(cfg, m, id);
    SetLengthIs(m.s.pool, id, Chunk(cfg, m, id).s.requests[id].prefillPos);
  }

  lemma AdmitErr(s: Sched, id: nat)
    requires id in s.requests
    ensures Admit(s, id).Err? <==> Allocate(s.pool, id, |s.requests[id].prompt|, []).Err?
  {
  }

  // The line left over: what has been admitted is a prefix of it.
  ghost predicate PrefixTaken(line: seq<nat>, rest: seq<nat>) {
    |rest| <= |line| && rest == line[|line| - |rest|..]
  }

  // What waits first does not fit into the free blocks.
  ghost predicate Blocked(s: Sched, queue: seq<nat>) {
    && queue != [] && queue[0] in s.requests && s.requests[queue[0]].status == Waiting
    && BlocksNeeded(s.pool.blockSize, |s.requests[queue[0]].prompt|) > |s.pool.free|
  }

  // No prompt could be advanced.
  ghost predicate Starved(s: Sched, line: seq<nat>) {
    s.prefilling == [] && (line == [] || Blocked(s, line))
  }

  // The first prompt in line advanced.
  ghost predicate Progressed(s: Sched, s': Sched, queue: seq<nat>) {
    && queue != [] && queue[0] in s.requests && queue[0] in s'.requests
    && s.requests[queue[0]].prefillPos < s'.requests[queue[0]].prefillPos
  }

  lemma WaitingAre(cfg: Config, m: Mid, ps: seq<Piece>, exact: bool)
    requires MidOk(cfg, m, ps, exact)
    ensures forall id :: id in m.s.waiting <==> id in m.s.requests && m.s.requests[id].status == Waiting
  {
  }

  lemma WaitingAfterFirst(s: Sched, queue: seq<nat>, waiting': seq<nat>, line: seq<nat>)
    requires NoDup(queue) && queue != [] && queue[0] in s.requests
    requires forall id :: id in s.waiting <==> id in s.requests && s.requests[id].status == Waiting
    requires PrefixTaken(line, s.waiting) && PrefixTaken(queue, s.waiting)
    requires waiting' == if s.requests[queue[0]].status == Waiting then Remove(s.waiting, queue[0]) else s.waiting
    ensures PrefixTaken(line, waiting') && PrefixTaken(queue[1..], waiting')
  {
    var k := |queue| - |s.waiting|;
    if s.requests[queue[0]].status == Waiting {
      FirstOfSuffix(queue, s.waiting);
      assert waiting' == queue[1..];
    } else {
      assert queue[0] !in s.waiting;
      assert k == 0 ==> s.waiting == queue;
      assert queue[1..][k - 1..] == queue[k..];
    }
  }

  lemma FirstOfSuffix(queue: seq<nat>, suffix: seq<nat>)
    requires NoDup(queue) && queue != [] && PrefixTaken(queue, suffix) && queue[0] in suffix
    ensures suffix == queue && Remove(suffix, queue[0]) == queue[1..]
  {
    var k := |queue| - |suffix|;
    var j :| 0 <= j < |suffix| && suffix[j] == queue[0];
    assert queue[k + j] == queue[0];
  }

  lemma SameMoves(s: Sched)
    ensures AllMoveOn(s, s)
  {
  }

  lemma ProgressKept(s: Sched, s': Sched, s'': Sched, queue: seq<nat>)
    requires queue != [] && queue[0] in s.requests && queue[0] in s'.requests && AllMoveOn(s', s'')
    requires s.requests[queue[0]].prefillPos < s'.requests[queue[0]].prefillPos
    ensures Progressed(s, s'', queue)
  {
    assert MovesOn(s'.requests[queue[0]], s''.requests[queue[0]]);
  }

  lemma NotAdmitted(s: Sched, queue: seq<nat>)
    requires queue != [] && queue[0] in s.requests && s.requests[queue[0]].status == Waiting
    requires BlocksNeeded(s.pool.blockSize, |s.requests[queue[0]].prompt|) > |s.pool.free|
    ensures Blocked(s, queue)
  {
  }

  lemma {:induction false} PrefillAllMoves(cfg: Config, m: Mid, ps: seq<Piece>, queue: seq<nat>, line: seq<nat>,
                                           exact: bool)
    requires MidOk(cfg, m, ps, exact) && NoDup(queue)
    requires forall id :: id in queue ==>
      id in m.s.requests && m.s.requests[id].status in {Waiting, Prefilling} && id !in m.flat.ids
    requires PrefixTaken(line, m.s.waiting) && PrefixTaken(queue, m.s.waiting)
    ensures InLine(m.s, queue)
    ensures var m' := PrefillAll(cfg, m, queue);
      && AllMoveOn(m.s, m'.s) && m.flat.ids <= m'.flat.ids
      && (forall i :: i in m'.s.running ==> i in m.s.running || i in m'.flat.ids)
      && PrefixTaken(line, m'.s.waiting)
      && (m'.flat.ids != m.flat.ids ==> Progressed(m.s, m'.s, queue))
      && (m'.flat.ids == m.flat.ids ==> queue == [] || m.budget < 1 || Blocked(m.s, queue))
    decreases |queue|
  {
    hide MidOk, PrefillOne, Remove, AllMoveOn, Progressed, Blocked, PrefixTaken;
    LineOk(cfg, m, ps, queue, exact);
    SameMoves(m.s);
    if queue != [] && m.budget >= 1 {
      assert queue[0] in queue;
      PrefillOneMoves(cfg, m, ps, queue[0], exact);
      var p := PrefillOneOk(cfg, m, ps, queue[0], exact);
      if PrefillOne(cfg, m, queue[0]).Some? {
        var m' := PrefillOne(cfg, m, queue[0]).value;
        forall id | id in queue[1..]
          ensures id in m'.s.requests && m'.s.requests[id].status in {Waiting, Prefilling} && id !in m'.flat.ids
        {
          assert id in queue && id != queue[0];
        }
        WaitingAre(cfg, m, ps, exact);
        WaitingAfterFirst(m.s, queue, m'.s.waiting, line);
        PrefillAllMoves(cfg, m', ps + [p], queue[1..], line, exact);
        AllMoveOnTrans(m.s, m'.s, PrefillAll(cfg, m', queue[1..]).s);
        ProgressKept(m.s, m'.s, PrefillAll(cfg, m', queue[1..]).s, queue);
        assert m'.flat.ids[|m.flat.ids|] == queue[0];
      } else {
        NotAdmitted(m.s, queue);
      }
    }
  }

  // ---------- one step ----------

  lemma SettledStart(cfg: Config, s: Sched, exact: bool)
    requires Settled(cfg, s, exact)
    ensures MidOk(cfg, Mid(s, NO_BATCH, cfg.maxBatch), [], exact)
    ensures NoDup(s.running) && forall id :: id in s.running ==> id in s.requests && s.requests[id].status == Running
  {
    hide Accounted, Sane, Resting, Shape;
    assert FlatOk(s.pool.blockSize, Width(s.pool), NO_BATCH, []);
  }

  // Decoding changes only the pool.
  lemma {:induction false} DecodeAllFrame(m: Mid, queue: seq<nat>)
    requires AllRunning(m.s, queue) && DecodeAll(m, queue).Ok?
    ensures var s' := DecodeAll(m, queue).value.s;
      s' == m.s.(pool := s'.pool) && s'.pool.numBlocks == m.s.pool.numBlocks && s'.pool.blockSize == m.s.pool.blockSize
    decreases |queue|
  {
    if queue != [] && m.budget >= 1 {
      assert queue[0] in queue;
      AppendSizes(m.s.pool, queue[0]);
      var m' := DecodeOne(m, queue[0]).value;
      forall id | id in queue[1..]
        ensures id in m'.s.requests && id in m'.s.pool.tables && m'.s.requests[id].outputs != []
      {
        assert id in queue;
      }
      DecodeAllFrame(m', queue[1..]);
    }
  }

  lemma AppendSizes(p: Pool, id: nat)
    requires id in p.tables
    ensures AppendToken(p, id).Ok? ==>
      AppendToken(p, id).value.numBlocks == p.numBlocks && AppendToken(p, id).value.blockSize == p.blockSize
  {
  }

  lemma SamePoolMoves(s: Sched, s': Sched)
    requires s' == s.(pool := s'.pool, waiting := s'.waiting) && s'.pool.numBlocks == s.pool.numBlocks &&
      s'.pool.blockSize == s.pool.blockSize
    ensures AllMoveOn(s, s')
  {
  }

  /** The batch of a step: the running requests come first, one decode row each; the budget is kept; every
      row is where its own sequence's tables say. */
  lemma BuildOk(cfg: Config, s: Sched, exact: bool) returns (ps: seq<Piece>)
    requires Settled(cfg, s, exact)
    ensures Steppable(s)
    ensures Build(cfg, s).Ok? ==>
      var m := Build(cfg, s).value; var line := SortBy(s.waiting, AdmissionOrder(s.requests));
      && MidOk(cfg, m, ps, exact) && RunningBatched(m) && s.running <= m.flat.ids && AllMoveOn(s, m.s)
      && PrefixTaken(line, m.s.waiting)
      && (m.flat.ids == [] ==> s.running == [] && Starved(s, line))
      && (m.flat.ids != [] && s.running == [] ==> Progressed(s, m.s, s.prefilling + line))
  {
    hide MidOk, Prefill, DecodeAll, SortBy, AllMoveOn, AdmissionOrder, Settled, Progressed, Starved, PrefixTaken,
      RunningBatched;
    ps := DecodedOk(cfg, s, exact);
    var m0 := Mid(s, NO_BATCH, cfg.maxBatch);
    if DecodeAll(m0, s.running).Ok? {
      var m := DecodeAll(m0, s.running).value;
      var more := PrefillOk(cfg, m, ps, exact);
      PrefillMoves(cfg, m, ps, exact);
      SamePoolMoves(s, m.s);
      AllMoveOnTrans(s, m.s, Prefill(cfg, m).s);
      ps := ps + more;
    }
  }

  // The decode phase takes all the running requests, and nothing but the pool changes.
  lemma DecodedOk(cfg: Config, s: Sched, exact: bool) returns (ps: seq<Piece>)
    requires Settled(cfg, s, exact)
    ensures Steppable(s)
    ensures var r := DecodeAll(Mid(s, NO_BATCH, cfg.maxBatch), s.running);
      r.Ok? ==> var m := r.value;
        && MidOk(cfg, m, ps, exact) && m.flat.ids == s.running
        && m.s == s.(pool := m.s.pool) && m.s.pool.numBlocks == s.pool.numBlocks &&
          m.s.pool.blockSize == s.pool.blockSize
        && (s.running == [] ==> m == Mid(s, NO_BATCH, cfg.maxBatch))
        && (forall id :: id in m.flat.ids ==> id in m.s.requests && m.s.requests[id].status == Running)
  {
    hide MidOk;
    SettledStart(cfg, s, exact);
    var m0 := Mid(s, NO_BATCH, cfg.maxBatch);
    ps := DecodeAllOk(cfg, m0, [], s.running, exact);
    assert [] + ps == ps;
    QueueStatus(cfg, s, exact);
    LineOk(cfg, m0, [], s.prefilling, exact);
    LineOk(cfg, m0, [], s.waiting, exact);
    SettledFits(cfg, s, exact);
    assert s.running == [] ==> DecodeAll(m0, s.running) == Ok(m0);
    hide Settled, DecodeAll;
    if DecodeAll(m0, s.running).Ok? {
      DecodeAllFrame(m0, s.running);
      assert [] + s.running[..SmallerOf(|s.running|, m0.budget)] == s.running;
    }
  }

  lemma SettledFits(cfg: Config, s: Sched, exact: bool)
    requires Settled(cfg, s, exact)
    ensures |s.running| <= cfg.maxBatch
  {
  }

  lemma QueueStatus(cfg: Config, s: Sched, exact: bool)
    requires Settled(cfg, s, exact)
    ensures forall id :: id in s.prefilling ==> id in s.requests && s.requests[id].status == Prefilling
    ensures forall id :: id in s.waiting ==> id in s.requests && s.requests[id].status == Waiting
  {
  }

  lemma PrefillMoves(cfg: Config, m: Mid, ps: seq<Piece>, exact: bool)
    requires MidOk(cfg, m, ps, exact) && forall id :: id in m.flat.ids <==> id in m.s.running
    ensures InLine(m.s, m.s.prefilling) && InLine(m.s, m.s.waiting)
    ensures var m', line := Prefill(cfg, m), SortBy(m.s.waiting, AdmissionOrder(m.s.requests));
      var queue := m.s.prefilling + line;
      && AllMoveOn(m.s, m'.s) && m.flat.ids <= m'.flat.ids && RunningBatched(m') && PrefixTaken(line, m'.s.waiting)
      && (m'.flat.ids != m.flat.ids ==> Progressed(m.s, m'.s, queue))
      && (m'.flat.ids == m.flat.ids && m.budget >= 1 ==> Starved(m.s, line))
  {
    hide MidOk, SortBy, PrefillAll, AllMoveOn, AdmissionOrder, Progressed, Blocked;
    MidQueues(cfg, m, ps, exact);
    LineOk(cfg, m, ps, m.s.prefilling, exact);
    LineOk(cfg, m, ps, m.s.waiting, exact);
    var line := SortBy(m.s.waiting, AdmissionOrder(m.s.requests));
    SortByElements(m.s.waiting, AdmissionOrder(m.s.requests));
    SortedOk(cfg, m, ps, line, exact);
    var queue, m1 := m.s.prefilling + line, m.(s := m.s.(waiting := line));
    QueueDistinct(m.s, line);
    assert queue[|m.s.prefilling|..] == line;
    SamePoolMoves(m.s, m1.s);
    PrefillAllMoves(cfg, m1, ps, queue, line, exact);
    AllMoveOnTrans(m.s, m1.s, PrefillAll(cfg, m1, queue).s);
    BlockedLine(m.s, m1.s, line);
    ProgressedSame(m.s, m1.s, PrefillAll(cfg, m1, queue).s, queue);
  }

  lemma MidQueues(cfg: Config, m: Mid, ps: seq<Piece>, exact: bool)
    requires MidOk(cfg, m, ps, exact)
    ensures NoDup(m.s.prefilling) && NoDup(m.s.waiting)
    ensures forall id :: id in m.s.prefilling ==> id in m.s.requests && m.s.requests[id].status == Prefilling
    ensures forall id :: id in m.s.waiting ==> id in m.s.requests && m.s.requests[id].status == Waiting
    ensures forall id :: id in m.s.running ==> id in m.s.requests && m.s.requests[id].status == Running
  {
  }

  lemma QueueDistinct(s: Sched, line: seq<nat>)
    requires NoDup(s.prefilling) && NoDup(line)
    requires forall id :: id in s.prefilling ==> id in s.requests && s.requests[id].status == Prefilling
    requires forall id :: id in line ==> id in s.requests && s.requests[id].status == Waiting
    ensures NoDup(s.prefilling + line)
    ensures forall id :: id in s.prefilling + line ==>
      id in s.requests && s.requests[id].status in {Waiting, Prefilling}
  {
    forall i, j | 0 <= i < |s.prefilling| && 0 <= j < |line|
      ensures s.prefilling[i] != line[j]
    {
      assert s.prefilling[i] in s.prefilling && line[j] in line;
    }
    NoDupConcat(s.prefilling, line);
  }

  // Prompts being prefilled come first, and are never blocked.
  lemma BlockedLine(s: Sched, s1: Sched, line: seq<nat>)
    requires s1 == s.(waiting := line) && forall id :: id in s.prefilling ==>
      id in s.requests && s.requests[id].status == Prefilling
    ensures Blocked(s1, s.prefilling + line) ==> s.prefilling == [] && Blocked(s, line)
  {
    if s.prefilling != [] {
      assert s.prefilling[0] in s.prefilling && (s.prefilling + line)[0] == s.prefilling[0];
    } else {
      assert s.prefilling + line == line;
    }
  }

  lemma ProgressedSame(s: Sched, s1: Sched, s': Sched, queue: seq<nat>)
    requires s1.requests == s.requests
    ensures Progressed(s1, s', queue) <==> Progressed(s, s', queue)
  {
  }

  lemma {:induction false} EachPieceHasTokens(ps: seq<Piece>)
    requires forall k :: 0 <= k < |ps| ==> ps[k].start < |ps[k].toks|
    ensures |ps| <= |Tokens(ps)|
  {
    if ps != [] {
      EachPieceHasTokens(ps[..|ps| - 1]);
    }
  }

  lemma BatchWithinBudget(cfg: Config, m: Mid, ps: seq<Piece>, exact: bool)
    requires MidOk(cfg, m, ps, exact)
    ensures |m.flat.ids| <= |m.flat.tokens| <= cfg.maxBatch && NoDup(m.flat.ids)
    ensures RunningBatched(m) ==> |m.s.running| <= |m.flat.ids|
  {
    hide Base, Batched, Resting;
    BatchLengths(cfg, m, ps, exact);
    EachPieceHasTokens(ps);
    if RunningBatched(m) {
      RunningDistinct(cfg, m, ps, exact);
      ElemsCount(m.s.running);
      ElemsCount(m.flat.ids);
      SubsetCount(Elems(m.s.running), Elems(m.flat.ids));
    }
  }

  lemma RunningDistinct(cfg: Config, m: Mid, ps: seq<Piece>, exact: bool)
    requires MidOk(cfg, m, ps, exact)
    ensures NoDup(m.s.running)
  {
  }

  lemma SubsetCount(a: set<nat>, b: set<nat>)
    requires a <= b
    ensures |a| <= |b|
  {
    assert b == a + (b - a);
  }

  lemma NothingRunning(cfg: Config, m: Mid, ps: seq<Piece>, exact: bool)
    requires MidOk(cfg, m, ps, exact) && RunningBatched(m) && m.flat.ids == []
    ensures Settled(cfg, m.s, exact) && TokensGiven(m.s.requests, m.s.requests)
  {
    hide Accounted, FlatOk, Shape, Sane, Resting, Batched;
    NonEmptyHas(m.s.running);
  }

  lemma NonEmptyHas(q: seq<nat>)
    ensures q != [] ==> exists id :: id in q
  {
    if q != [] {
      assert q[0] in q;
    }
  }

  /** A step keeps the engine settled and gives exactly the running requests of its batch one token each. */
  lemma StepOk(cfg: Config, s: Sched, exact: bool) returns (ps: seq<Piece>)
    requires Settled(cfg, s, exact)
    ensures Steppable(s) && (Step(cfg, s).Ok? <==> Build(cfg, s).Ok?)
    ensures Step(cfg, s).Ok? ==> var m, s' := Build(cfg, s).value, Step(cfg, s).value;
      && Settled(cfg, s', exact) && AllMoveOn(s, m.s) && TokensGiven(m.s.requests, s'.requests)
      && MidOk(cfg, m, ps, exact) && RunningBatched(m) && s'.waiting == m.s.waiting && s'.nextId == s.nextId
      && s'.collected == s.collected
      && s'.pool.numBlocks == s.pool.numBlocks && s'.pool.blockSize == s.pool.blockSize
      && RowsMatch(m.s, m.flat) && s'.requests == Sampled(cfg, m.s, m.flat).requests
  {
    hide MidOk, TokensGiven, Pending, Settled, Conclude, RowsMatch, RunningBatched, Sampled;
    ps := BuildOk(cfg, s, exact);
    if Build(cfg, s).Ok? {
      var m := Build(cfg, s).value;
      BatchWithinBudget(cfg, m, ps, exact);
      BatchSampled(cfg, m, ps, exact);
      if m.flat.ids == [] {
        NothingRunning(cfg, m, ps, exact);
        EmptySampled(cfg, m.s, m.flat);
      } else {
        ConcludeOk(cfg, m, ps, exact);
        PendingNone(cfg, Conclude(cfg, m.s, m.flat), exact);
      }
    }
  }

  lemma EmptySampled(cfg: Config, s: Sched, flat: Flat)
    requires RowsMatch(s, flat) && flat.ids == []
    ensures Sampled(cfg, s, flat).requests == s.requests
  {
  }

  // ---------- what a step does for each request ----------

  // Its settings never change; its output grows by at most one token, and by one if it is running.
  ghost predicate StepOf(req: Request, req': Request) {
    && req' == req.(prefillPos := req'.prefillPos, status := req'.status, prefixKv := req'.prefixKv,
      outputs := req'.outputs)
    && (req'.outputs == req.outputs || req'.outputs == req.outputs + [Latest(req')])
    && (req.status == Running ==> req'.outputs == req.outputs + [Latest(req')])
    && (req.status == Finished ==> req' == req)
  }

  lemma StepOfRequest(s: Sched, m: Sched, s': Sched, id: nat)
    requires AllMoveOn(s, m) && TokensGiven(m.requests, s'.requests) && id in s.requests
    ensures id in s'.requests && StepOf(s.requests[id], s'.requests[id])
  {
    assert MovesOn(s.requests[id], m.requests[id]);
    KeysSame(m.requests, s'.requests);
  }

  lemma StepKeys(s: Sched, m: Sched, s': Sched)
    requires AllMoveOn(s, m) && TokensGiven(m.requests, s'.requests)
    ensures s'.requests.Keys == s.requests.Keys
    ensures forall id :: id in s'.requests <==> id in s.requests
  {
    KeysSame(m.requests, s'.requests);
    assert forall id :: id in s.requests <==> id in s.requests.Keys;
    assert forall id :: id in m.requests <==> id in m.requests.Keys;
  }

  /** No decode starvation and ordered admission.  When a step succeeds, every running request is in its batch
      exactly once and gets exactly one token, the batch keeps the token budget, and the requests admitted are
      a prefix of the waiting ones in order of priority, then age. */
  lemma StepServes(cfg: Config, s: Sched, exact: bool)
    requires Settled(cfg, s, exact)
    ensures Steppable(s)
    ensures Step(cfg, s).Ok? ==> var batch, s' := Build(cfg, s).value.flat, Step(cfg, s).value;
      && (forall id :: id in s.requests ==> id in s'.requests && StepOf(s.requests[id], s'.requests[id]))
      && NoDup(batch.ids) && s.running <= batch.ids && |batch.tokens| <= cfg.maxBatch
      && AdmittedInOrder(s, s') && s'.requests.Keys == s.requests.Keys && s'.collected == s.collected
  {
    hide MidOk, TokensGiven, StepOf, AllMoveOn, SortBy, AdmissionOrder;
    var ps := StepOk(cfg, s, exact);
    var qs := BuildOk(cfg, s, exact);
    if Step(cfg, s).Ok? {
      var m, s' := Build(cfg, s).value, Step(cfg, s).value;
      BatchWithinBudget(cfg, m, ps, exact);
      forall id | id in s.requests
        ensures id in s'.requests && StepOf(s.requests[id], s'.requests[id])
      {
        StepOfRequest(s, m.s, s', id);
      }
      StepKeys(s, m.s, s');
      OrderOfAdmission(s);
      AdmittedPrefix(s, s', SortBy(s.waiting, AdmissionOrder(s.requests)));
    }
  }

  // Among the requests that were waiting, all that are still waiting come after all that were admitted.
  ghost predicate AdmittedInOrder(s: Sched, s': Sched) {
    && (forall id :: id in s'.waiting ==> id in s.waiting)
    && (forall i, j :: i in s.waiting && i !in s'.waiting && j in s'.waiting ==>
          PriorityOf(s.requests, i) > PriorityOf(s.requests, j) ||
            (PriorityOf(s.requests, i) == PriorityOf(s.requests, j) && i <= j))
  }

  lemma OrderOfAdmission(s: Sched)
    ensures var line := SortBy(s.waiting, AdmissionOrder(s.requests));
      && SortedBy(line, AdmissionOrder(s.requests))
      && (forall x :: x in line <==> x in s.waiting)
      && (NoDup(s.waiting) ==> NoDup(line))
  {
    var le := AdmissionOrder(s.requests);
    assert Ordering(le);
    SortBySorts(s.waiting, le);
    SortByElements(s.waiting, le);
  }

  lemma AdmittedPrefix(s: Sched, s': Sched, line: seq<nat>)
    requires SortedBy(line, AdmissionOrder(s.requests)) && (forall x :: x in line <==> x in s.waiting)
    requires PrefixTaken(line, s'.waiting)
    ensures AdmittedInOrder(s, s')
  {
    var k, le := |line| - |s'.waiting|, AdmissionOrder(s.requests);
    forall j | j in s'.waiting
      ensures j in s.waiting
    {
      assert j in line[k..];
      assert j in line;
    }
    assert forall x :: k <= x < |line| ==> line[x] == s'.waiting[x - k];
    forall i, j | i in s.waiting && i !in s'.waiting && j in s'.waiting
      ensures le(i, j)
    {
      var x :| 0 <= x < |line| && line[x] == i;
      var y :| 0 <= y < |s'.waiting| && s'.waiting[y] == j;
      assert line[k + y] == j;
    }
  }

  /** Whatever the sampling parameters: where the cache is exact, the tokens of a step are picked, with the
      parameters of the batch's first request, from what the reference says after each request's own context. */
  lemma StepChooses(cfg: Config, s: Sched)
    requires Settled(cfg, s, true)
    ensures Steppable(s)
    ensures Step(cfg, s).Ok? ==> var m, s' := Build(cfg, s).value, Step(cfg, s).value;
      && |m.flat.ids| == |m.flat.sampled| && RowsMatch(m.s, m.flat)
      && var batch, tokens := Picked(m.flat.ids, m.flat.sampled), TokensOf(cfg, m.s, m.flat);
        && OwnChoices(cfg, m.s, batch, tokens) && m.s.drawn == s.drawn
        && forall j :: 0 <= j < |batch| ==>
          && batch[j] in s.requests && batch[j] in s'.requests && batch[j] in m.s.requests
          && m.s.requests[batch[j]].params == s.requests[batch[j]].params
          && Context(m.s.requests[batch[j]]) == Context(s.requests[batch[j]])
          && s'.requests[batch[j]].outputs == s.requests[batch[j]].outputs + [tokens[j]]
  {
    hide MidOk, TokensGiven, RunningBatched, OwnChoices, TokensOf, RowsMatch, Picked, Settled;
    var ps := StepOk(cfg, s, true);
    if Step(cfg, s).Ok? {
      var m, s' := Build(cfg, s).value, Step(cfg, s).value;
      TokensAreOwn(cfg, m, ps);
      BatchSampled(cfg, m, ps, true);
      var batch := Picked(m.flat.ids, m.flat.sampled);
      AppendedGiven(m.s.requests, batch, TokensOf(cfg, m.s, m.flat));
      forall j | 0 <= j < |batch|
        ensures batch[j] in s.requests && batch[j] in s'.requests && batch[j] in m.s.requests
        ensures MovesOn(s.requests[batch[j]], m.s.requests[batch[j]])
      {
        assert batch[j] in batch;
        SameKeys(s, m.s);
      }
    }
  }

  lemma SameKeys(s: Sched, m: Sched)
    requires AllMoveOn(s, m)
    ensures forall id :: id in m.requests <==> id in s.requests
  {
    assert forall id :: id in s.requests <==> id in s.requests.Keys;
    assert forall id :: id in m.requests <==> id in m.requests.Keys;
  }
}
