// When a scheduling step raises, what it leaves behind, and that stepping again raises for ever.
module SchedulerRaise {
  import opened Wrappers
  import opened Reference
  import opened BlockPool
  import opened PagedStore
  import opened RaggedForward
  import opened SingleSequence
  import opened Portable
  import opened Sampling
  import opened Decoding
  import opened SchedulerState
  import opened SchedulerInvariant
  import opened SchedulerStep
  import opened SchedulerBatch

  // ---------- exactly when a step raises ----------

  // How many of the queued requests are at a block boundary, so that their next token needs a block.
  function Crossing(p: Pool, queue: seq<nat>): nat {
    if queue == [] then 0
    else
      var first := if queue[0] in p.tables && p.tables[queue[0]].numTokens % p.blockSize == 0 then 1 else 0;
      first + Crossing(p, queue[1..])
  }

  lemma {:induction false} CrossingSame(p: Pool, q: Pool, queue: seq<nat>)
    requires q.blockSize == p.blockSize
    requires forall id :: id in queue ==>
      (id in q.tables <==> id in p.tables) && (id in p.tables ==> q.tables[id] == p.tables[id])
    ensures Crossing(q, queue) == Crossing(p, queue)
  {
    if queue != [] {
      assert queue[0] in queue && forall id :: id in queue[1..] ==> id in queue;
      CrossingSame(p, q, queue[1..]);
    }
  }

  lemma AppendCrossing(p: Pool, id: nat, rest: seq<nat>)
    requires id in p.tables && id !in rest
    ensures AppendToken(p, id).Err? <==> p.tables[id].numTokens % p.blockSize == 0 && p.free == []
    ensures AppendToken(p, id).Ok? ==> var q := AppendToken(p, id).value;
      && Crossing(q, rest) == Crossing(p, rest)
      && |p.free| == |q.free| + if p.tables[id].numTokens % p.blockSize == 0 then 1 else 0
  {
    if AppendToken(p, id).Ok? {
      CrossingSame(p, AppendToken(p, id).value, rest);
    }
  }

  lemma {:induction false} DecodeRaises(cfg: Config, m: Mid, ps: seq<Piece>, queue: seq<nat>, exact: bool)
    requires MidOk(cfg, m, ps, exact) && NoDup(queue) && |queue| <= m.budget
    requires forall id :: id in queue ==> id in m.s.running && id !in m.flat.ids
    ensures AllRunning(m.s, queue)
    ensures DecodeAll(m, queue).Err? <==> Crossing(m.s.pool, queue) > |m.s.pool.free|
    decreases |queue|
  {
    hide MidOk, AppendToken;
    AllResting(cfg, m, ps, queue, exact);
    if queue != [] {
      assert queue[0] in queue && queue[0] !in queue[1..];
      AppendCrossing(m.s.pool, queue[0], queue[1..]);
      if DecodeOne(m, queue[0]).Ok? {
        DecodeOneOk(cfg, m, ps, queue[0], exact);
        var m' := DecodeOne(m, queue[0]).value;
        forall id | id in queue[1..]
          ensures id in m'.s.running && id !in m'.flat.ids
        {
          assert id in queue && id != queue[0];
        }
        DecodeRaises(cfg, m', ps + [DecodePiece(m', queue[0])], queue[1..], exact);
      }
    }
  }

  /** Admission reserves blocks for the prompt only, and the decode phase does not catch the pool's
      exception: a step raises exactly when more running requests stand at a block boundary than blocks are
      free. */
  lemma StepRaisesIff(cfg: Config, s: Sched, exact: bool)
    requires Settled(cfg, s, exact)
    ensures Steppable(s)
    ensures Step(cfg, s).Err? <==> Crossing(s.pool, s.running) > |s.pool.free|
  {
    hide MidOk, Settled;
    var ps := StepOk(cfg, s, exact);
    SettledStart(cfg, s, exact);
    SettledFits(cfg, s, exact);
    DecodeRaises(cfg, Mid(s, NO_BATCH, cfg.maxBatch), [], s.running, exact);
  }

  // ---------- what a raising step leaves ----------

  // Some queued request stands at a block boundary and there is no block for it.
  ghost predicate Stuck(p: Pool, queue: seq<nat>) {
    p.free == [] && exists id :: id in queue && id in p.tables && p.tables[id].numTokens % p.blockSize == 0
  }

  ghost predicate Roomy(p: Pool, queue: seq<nat>) {
    forall id :: id in queue ==> id in p.tables && p.tables[id].numTokens <= |p.tables[id].blockIds| * p.blockSize
  }

  lemma AppendRoomy(p: Pool, id: nat, queue: seq<nat>)
    requires id in queue && Roomy(p, queue)
    ensures AppendToken(p, id).Ok? ==> Roomy(AppendToken(p, id).value, queue)
  {
    var t, bs := p.tables[id], p.blockSize;
    if AppendToken(p, id).Ok? {
      if t.numTokens % bs == 0 {
        assert (|t.blockIds| + 1) * bs == |t.blockIds| * bs + bs;
      } else {
        NotMultiple(t.numTokens, |t.blockIds|, bs);
      }
    }
  }

  // As far as it gets, the decode phase keeps the counts exact and every table within its blocks; it stops
  // short only at a request that is stuck.
  lemma {:induction false} DecodeStops(m: Mid, queue: seq<nat>)
    requires AllRunning(m.s, queue) && Accounted(m.s.pool, multiset{}) && Roomy(m.s.pool, queue)
    ensures var p, q := m.s.pool, DecodeSome(m, queue).s.pool;
      && Accounted(q, multiset{}) && Roomy(q, queue) && q.blockSize == p.blockSize && q.numBlocks == p.numBlocks
      && q.tables.Keys == p.tables.Keys
      && (forall id :: id in p.tables && id !in queue ==> q.tables[id] == p.tables[id])
      && (DecodeAll(m, queue).Ok? ==> DecodeAll(m, queue).value == DecodeSome(m, queue))
      && (DecodeAll(m, queue).Err? ==> Stuck(q, queue))
    decreases |queue|
  {
    hide Accounted, AppendToken;
    if queue != [] && m.budget >= 1 {
      assert queue[0] in queue && forall id :: id in queue[1..] ==> id in queue;
      AppendOne(m.s.pool, queue[0], queue);
      if DecodeOne(m, queue[0]).Ok? {
        var m' := DecodeOne(m, queue[0]).value;
        DecodeStops(m', queue[1..]);
        KeepRoomy(m'.s.pool, DecodeSome(m', queue[1..]).s.pool, queue);
      }
    }
  }

  lemma KeepRoomy(p: Pool, q: Pool, queue: seq<nat>)
    requires queue != [] && Roomy(p, queue) && Roomy(q, queue[1..]) && q.blockSize == p.blockSize
    requires q.tables.Keys == p.tables.Keys
    requires forall id :: id in p.tables && id !in queue[1..] ==> q.tables[id] == p.tables[id]
    ensures Roomy(q, queue)
  {
    forall id | id in queue
      ensures id in q.tables && q.tables[id].numTokens <= |q.tables[id].blockIds| * q.blockSize
    {
      assert id in p.tables.Keys;
    }
  }

  lemma AppendOne(p: Pool, id: nat, queue: seq<nat>)
    requires id in queue && Accounted(p, multiset{}) && Roomy(p, queue)
    ensures AppendToken(p, id).Err? ==> Stuck(p, queue)
    ensures AppendToken(p, id).Ok? ==> var q := AppendToken(p, id).value;
      && Accounted(q, multiset{}) && Roomy(q, queue) && q.blockSize == p.blockSize && q.numBlocks == p.numBlocks
      && q.tables == p.tables[id := q.tables[id]] && q.tables[id].numTokens == p.tables[id].numTokens + 1
      && (p.free == [] ==> q.free == [] && p.tables[id].numTokens % p.blockSize != 0)
  {
    hide Accounted, Roomy;
    assert Roomy(p, queue) && id in p.tables by { RoomyAt(p, id, queue); }
    AppendTokenAccounted(p, id, multiset{});
    AppendRoomy(p, id, queue);
  }

  lemma RoomyAt(p: Pool, id: nat, queue: seq<nat>)
    requires Roomy(p, queue) && id in queue
    ensures id in p.tables
  {
  }

  // A stuck request stays stuck: with no block free, the requests before it only move within their blocks.
  lemma {:induction false} StuckStays(m: Mid, queue: seq<nat>)
    requires AllRunning(m.s, queue) && Accounted(m.s.pool, multiset{}) && Roomy(m.s.pool, queue)
    requires NoDup(queue) && |queue| <= m.budget && Stuck(m.s.pool, queue)
    ensures DecodeAll(m, queue).Err?
    decreases |queue|
  {
    hide Accounted, AppendToken, Roomy;
    assert queue != [] && queue[0] in queue && forall id :: id in queue[1..] ==> id in queue;
    AppendOne(m.s.pool, queue[0], queue);
    if DecodeOne(m, queue[0]).Ok? {
      var m' := DecodeOne(m, queue[0]).value;
      var id :| id in queue && id in m.s.pool.tables && m.s.pool.tables[id].numTokens % m.s.pool.blockSize == 0;
      assert id != queue[0] && id in queue[1..];
      RoomyPart(m'.s.pool, queue);
      StuckStays(m', queue[1..]);
    }
  }

  lemma RoomyPart(p: Pool, queue: seq<nat>)
    requires queue != [] && Roomy(p, queue)
    ensures Roomy(p, queue[1..])
  {
  }

  /** What a raising step leaves: counts are exact, every request is where it was, but no further step can
      succeed. */
  ghost predicate Wedged(cfg: Config, s: Sched) {
    && Accounted(s.pool, multiset{}) && Queues(s)
    && (forall id :: id in s.requests ==> Sane(cfg, s.requests[id], false))
    && (forall id :: id in s.running ==> s.requests[id].outputs != [])
    && |s.running| <= cfg.maxBatch && Roomy(s.pool, s.running) && Stuck(s.pool, s.running)
  }

  lemma WedgedSteppable(cfg: Config, s: Sched)
    requires Wedged(cfg, s)
    ensures Steppable(s) && NoDup(s.running)
  {
    hide Accounted, Sane, Roomy, Stuck;
    assert forall id :: id in s.running || id in s.prefilling ==> Live(s, id);
  }

  // A step that raises leaves the queues and requests alone and wedges the engine.
  lemma RaiseWedges(cfg: Config, s: Sched, exact: bool)
    requires Settled(cfg, s, exact)
    ensures Steppable(s)
    ensures Step(cfg, s).Err? ==> var s' := Interrupted(cfg, s); Wedged(cfg, s') && s' == s.(pool := s'.pool)
  {
    hide MidOk, Settled, DecodeSome, DecodeAll, Stuck, Roomy, Accounted;
    var ps := StepOk(cfg, s, exact);
    SettledRoomy(cfg, s, exact);
    var m := Mid(s, NO_BATCH, cfg.maxBatch);
    DecodeStops(m, s.running);
    if Step(cfg, s).Err? {
      SettledUnwedged(cfg, s, exact, Interrupted(cfg, s));
    }
  }

  lemma SettledUnwedged(cfg: Config, s: Sched, exact: bool, s': Sched)
    requires Settled(cfg, s, exact) && s' == s.(pool := s'.pool) && s'.pool.tables.Keys == s.pool.tables.Keys
    requires Accounted(s'.pool, multiset{}) && Roomy(s'.pool, s.running) && Stuck(s'.pool, s.running)
    ensures Wedged(cfg, s')
  {
    hide Accounted, Roomy, Stuck, Placed, ExactBlocks, Choosable, Shape;
    assert forall id :: id in s'.pool.tables <==> id in s'.pool.tables.Keys;
    assert forall id :: id in s.pool.tables <==> id in s.pool.tables.Keys;
    forall id | id in s.running
      ensures s.requests[id].outputs != []
    {
      assert Live(s, id);
    }
    forall id | id in s.requests
      ensures Sane(cfg, s.requests[id], false)
    {
      assert Sane(cfg, s.requests[id], exact);
    }
  }

  lemma SettledRoomy(cfg: Config, s: Sched, exact: bool)
    requires Settled(cfg, s, exact)
    ensures Accounted(s.pool, multiset{}) && Roomy(s.pool, s.running)
  {
    hide Accounted, Sane, Shape, ExactBlocks;
    forall id | id in s.running
      ensures id in s.pool.tables && s.pool.tables[id].numTokens <= |s.pool.tables[id].blockIds| * s.pool.blockSize
    {
      assert Live(s, id);
      assert Resting(cfg.net, s, id, exact);
    }
  }

  /** Catching the exception and stepping again raises again, for ever: nothing frees a block. */
  lemma WedgedRaises(cfg: Config, s: Sched)
    requires Wedged(cfg, s)
    ensures Steppable(s) && Step(cfg, s).Err?
    ensures var s' := Interrupted(cfg, s); Wedged(cfg, s') && s' == s.(pool := s'.pool)
  {
    hide Accounted, Sane, Roomy, Stuck, DecodeSome, DecodeAll, Queues;
    WedgedSteppable(cfg, s);
    var m := Mid(s, NO_BATCH, cfg.maxBatch);
    DecodeStops(m, s.running);
    StuckStays(m, s.running);
    SameQueues(s, Interrupted(cfg, s));
  }

  lemma SameQueues(s: Sched, s': Sched)
    requires Queues(s) && s' == s.(pool := s'.pool) && s'.pool.tables.Keys == s.pool.tables.Keys
    ensures Queues(s')
  {
    assert forall id :: id in s'.pool.tables <==> id in s'.pool.tables.Keys;
    assert forall id :: id in s.pool.tables <==> id in s.pool.tables.Keys;
    assert forall id :: Live(s', id) <==> Live(s, id);
  }

  /** A raising step leaves the engine unchanged exactly when the first running request is the one that fails:
      otherwise those before it have a token's room reserved that is never filled. */
  lemma InterruptedUnchangedIff(cfg: Config, s: Sched, exact: bool)
    requires Settled(cfg, s, exact)
    ensures Steppable(s)
    ensures Step(cfg, s).Err? ==>
      && s.running != [] && s.running[0] in s.pool.tables
      && (Interrupted(cfg, s) == s <==>
        s.pool.free == [] && s.pool.tables[s.running[0]].numTokens % s.pool.blockSize == 0)
  {
    hide MidOk, Settled, Roomy, Accounted, Stuck, AppendToken;
    var ps := StepOk(cfg, s, exact);
    SettledRoomy(cfg, s, exact);
    SettledStart(cfg, s, exact);
    if Step(cfg, s).Err? {
      var m, id := Mid(s, NO_BATCH, cfg.maxBatch), s.running[0];
      assert id in s.running;
      AppendCrossing(s.pool, id, []);
      AppendOne(s.pool, id, s.running);
      if DecodeOne(m, id).Ok? {
        var m' := DecodeOne(m, id).value;
        RoomyPart(m'.s.pool, s.running);
        DecodeStops(m', s.running[1..]);
        assert id !in s.running[1..];
        assert DecodeSome(m, s.running) == DecodeSome(m', s.running[1..]);
      }
    }
  }
}
