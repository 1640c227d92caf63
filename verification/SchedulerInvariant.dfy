// What holds of the continuous-batching engine between steps and while a batch is being built, and that
// decoding, admission and chunked prefill keep it.
module SchedulerInvariant {
  import opened Wrappers
  import opened Reference
  import opened BlockPool
  import opened PagedStore
  import opened RaggedForward
  import opened SingleSequence
  import opened Portable
  import opened Decoding
  import opened SchedulerState

  // ---------- requests and queues ----------

  // A transferred prefix is exact: it is what the model itself would have cached.
  ghost predicate ExactPrefix(net: Net, prompt: seq<int>, kv: PortableKv) {
    0 < Covered(kv) < |prompt| && kv == PortableOf(net, prompt[..Covered(kv)])
  }

  /** A request's status says how far it has come, and there is something to sample for it.  (Between the
      chunk that ends its prompt and the sampling of the same step, a running request has no output yet.)
      When `exact`, the prefix it brings is what the model would have cached. */
  ghost predicate Sane(cfg: Config, req: Request, exact: bool) {
    && |req.prompt| > 0 && Choosable(cfg.net, cfg.exp, req.params)
    && match req.status
       case Waiting => req.outputs == [] && req.prefillPos == 0 &&
         (req.prefixKv.Some? ==> Brought(cfg.net, req.prompt, req.prefixKv.value, exact))
       case Prefilling => req.outputs == [] && req.prefillPos < |req.prompt|
       case Running => req.outputs == [] || !req.Done()
       case Finished => req.outputs != [] && req.Done()
  }

  ghost predicate Brought(net: Net, prompt: seq<int>, kv: PortableKv, exact: bool) {
    PrefixFits(|net.layers|, kv, |prompt|) && (exact ==> ExactPrefix(net, prompt, kv))
  }

  ghost predicate Queued(s: Sched, q: seq<nat>, status: Status) {
    NoDup(q) && forall id: nat :: id in q <==> id in s.requests && s.requests[id].status == status
  }

  // The finished list holds the finished requests that have been neither collected nor are still `due`.
  ghost predicate Ended(s: Sched, due: set<nat>) {
    && NoDup(s.finished)
    && (forall id: nat :: id in s.finished <==>
          id in s.requests && s.requests[id].status == Finished && id !in due && id !in s.collected)
    && (forall id :: id in s.collected ==> id in s.requests && s.requests[id].status == Finished && id !in due)
  }

  ghost predicate Live(s: Sched, id: nat) {
    id in s.requests && s.requests[id].status in {Prefilling, Running}
  }

  // Every request is in the queue of its status, and exactly the live ones have block tables.
  ghost predicate Queues(s: Sched) {
    && Queued(s, s.waiting, Waiting) && Queued(s, s.prefilling, Prefilling)
    && Queued(s, s.running, Running) && Ended(s, {})
    && (forall id: nat :: id in s.requests <==> id < s.nextId)
    && (forall id: nat :: id in s.pool.tables <==> Live(s, id))
  }

  ghost predicate Base(cfg: Config, s: Sched, exact: bool) {
    && Shape(cfg.net, s.store, Width(s.pool))
    && Accounted(s.pool, multiset{})
    && Queues(s)
    && forall id :: id in s.requests ==> Sane(cfg, s.requests[id], exact)
  }

  // The number of slots.
  function Width(p: Pool): nat {
    p.numBlocks * p.blockSize
  }

  // ---------- where a sequence's tokens are ----------

  function Context(req: Request): seq<int> {
    req.prompt + req.outputs
  }

  // The tokens a table accounts for: all but the last output, or the prefilled part of the prompt.
  function CachedPart(req: Request): seq<int> {
    if req.status == Running && Context(req) != [] then Context(req)[..|Context(req)| - 1]
    else req.prompt[..SmallerOf(req.prefillPos, |req.prompt|)]
  }

  // The same once the request's rows are in the batch.
  function BatchedPart(req: Request): seq<int> {
    if req.status == Running then Context(req) else req.prompt[..SmallerOf(req.prefillPos, |req.prompt|)]
  }

  /** The table is `toks` long with room for them, its blocks are its own, and, when `exact`, the tokens before
      `start` are cached. */
  ghost predicate Placed(net: Net, s: Sched, id: nat, toks: seq<int>, start: nat, exact: bool) {
    && id in s.pool.tables && start <= |toks|
    && s.pool.tables[id].numTokens == |toks| <= |s.pool.tables[id].blockIds| * s.pool.blockSize
    && (exact ==> Holds(net, s.store, s.pool.blockSize, s.pool.tables[id].blockIds, toks[..start]))
    && SoleFrom(s.pool, id, 0)
  }

  ghost predicate ExactBlocks(s: Sched, id: nat)
    requires id in s.requests && id in s.pool.tables
  {
    var req, t := s.requests[id], s.pool.tables[id];
    |t.blockIds| == BlocksNeeded(s.pool.blockSize, if req.status == Prefilling then |req.prompt| else t.numTokens)
  }

  // A live request that is not in the batch.
  ghost predicate Resting(net: Net, s: Sched, id: nat, exact: bool) {
    && Live(s, id) && (s.requests[id].status == Running ==> s.requests[id].outputs != [])
    && Placed(net, s, id, CachedPart(s.requests[id]), |CachedPart(s.requests[id])|, exact)
    && ExactBlocks(s, id)
  }

  // A live request whose new rows are those of `piece`.
  ghost predicate Batched(net: Net, s: Sched, id: nat, piece: Piece, sampled: bool, exact: bool) {
    && Live(s, id)
    && piece.toks == BatchedPart(s.requests[id]) && piece.start < |piece.toks|
    && Placed(net, s, id, piece.toks, piece.start, exact)
    && piece.ids == s.pool.tables[id].blockIds
    && ExactBlocks(s, id)
    && (sampled <==> s.requests[id].status == Running)
  }

  // ---------- the flat batch ----------

  // The flat index of the last row of every piece that is sampled from.
  ghost function LastRows(ps: seq<Piece>, sampled: seq<bool>): seq<int>
    requires |ps| == |sampled| && forall i :: 0 <= i < |ps| ==> ps[i].start <= |ps[i].toks|
  {
    if ps == [] then []
    else
      var n := |ps| - 1;
      LastRows(ps[..n], sampled[..n]) + (if sampled[n] then [|Tokens(ps)| - 1] else [])
  }

  ghost predicate FlatOk(bs: pos, width: nat, flat: Flat, ps: seq<Piece>) {
    && |ps| == |flat.ids| == |flat.sampled|
    && PiecesOk(bs, ps, width)
    && flat.tokens == Tokens(ps) && flat.positions == Positions(ps)
    && flat.slots == WriteSlots(bs, ps, width) && flat.metas == Metas(bs, ps, width)
    && flat.lastIdx == LastRows(ps, flat.sampled)
  }

  lemma FlatSnoc(bs: pos, width: nat, flat: Flat, ps: seq<Piece>, p: Piece, id: nat, sampled: bool, flat': Flat)
    requires FlatOk(bs, width, flat, ps) && PieceOk(bs, p, width) && p.start < |p.toks|
    requires flat'.ids == flat.ids + [id] && flat'.sampled == flat.sampled + [sampled]
    requires flat'.tokens == flat.tokens + p.toks[p.start..]
    requires flat'.positions == flat.positions + seq<nat>(|p.toks| - p.start, i requires i >= 0 => p.start + i)
    requires flat'.slots == flat.slots + SlotsFor(bs, p.ids, p.start, |p.toks|)
    requires flat'.metas == flat.metas + [MetaOf(p)]
    requires flat'.lastIdx == if sampled then flat.lastIdx + [|flat'.tokens| - 1] else flat.lastIdx
    ensures FlatOk(bs, width, flat', ps + [p])
  {
    var qs := ps + [p];
    assert qs[..|qs| - 1] == ps;
    assert flat'.sampled[..|qs| - 1] == flat.sampled;
    assert Metas(bs, qs, width) == Metas(bs, ps, width) + [MetaOf(p)];
  }

  ghost predicate MidOk(cfg: Config, m: Mid, ps: seq<Piece>, exact: bool) {
    && Base(cfg, m.s, exact)
    && FlatOk(m.s.pool.blockSize, Width(m.s.pool), m.flat, ps)
    && NoDup(m.flat.ids)
    && (forall k :: 0 <= k < |ps| ==> Batched(cfg.net, m.s, m.flat.ids[k], ps[k], m.flat.sampled[k], exact))
    && (forall id :: Live(m.s, id) && id !in m.flat.ids ==> Resting(cfg.net, m.s, id, exact))
    && m.budget >= 0 && |m.flat.tokens| + m.budget == cfg.maxBatch
  }

  // ---------- leaving the others alone ----------

  /** Nothing that concerns this request has changed. */
  ghost predicate Undisturbed(net: Net, s: Sched, s': Sched, id: nat, exact: bool) {
    && id in s.requests && id in s'.requests && s'.requests[id] == s.requests[id]
    && id in s.pool.tables && id in s'.pool.tables && s'.pool.tables[id] == s.pool.tables[id]
    && s'.pool.blockSize == s.pool.blockSize
    && (SoleFrom(s.pool, id, 0) ==> SoleFrom(s'.pool, id, 0))
    && (exact ==> forall toks :: Holds(net, s.store, s.pool.blockSize, s.pool.tables[id].blockIds, toks)
                             ==> Holds(net, s'.store, s.pool.blockSize, s.pool.tables[id].blockIds, toks))
  }

  lemma KeepResting(net: Net, s: Sched, s': Sched, id: nat, exact: bool)
    requires Resting(net, s, id, exact) && Undisturbed(net, s, s', id, exact)
    ensures Resting(net, s', id, exact)
  {
  }

  lemma KeepBatched(net: Net, s: Sched, s': Sched, id: nat, piece: Piece, sampled: bool, exact: bool)
    requires Batched(net, s, id, piece, sampled, exact) && Undisturbed(net, s, s', id, exact)
    ensures Batched(net, s', id, piece, sampled, exact)
  {
  }

  // One more request joins the batch; the others are left alone.
  lemma JoinBatch(cfg: Config, m: Mid, m': Mid, ps: seq<Piece>, id: nat, piece: Piece, sampled: bool, exact: bool)
    requires MidOk(cfg, m, ps, exact) && Base(cfg, m'.s, exact) && id !in m.flat.ids
    requires m'.flat.ids == m.flat.ids + [id] && m'.flat.sampled == m.flat.sampled + [sampled]
    requires FlatOk(m'.s.pool.blockSize, Width(m'.s.pool), m'.flat, ps + [piece])
    requires Batched(cfg.net, m'.s, id, piece, sampled, exact)
    requires forall i :: Live(m'.s, i) && i != id ==> Live(m.s, i)
    requires forall i :: Live(m.s, i) && i != id ==> Undisturbed(cfg.net, m.s, m'.s, i, exact)
    requires m'.budget >= 0 && |m'.flat.tokens| + m'.budget == cfg.maxBatch
    ensures MidOk(cfg, m', ps + [piece], exact)
  {
    hide Base, FlatOk, Resting, Batched, Undisturbed;
    FlatLengths(m.s.pool.blockSize, Width(m.s.pool), m.flat, ps);
    FlatLengths(m'.s.pool.blockSize, Width(m'.s.pool), m'.flat, ps + [piece]);
    forall k | 0 <= k < |ps + [piece]|
      ensures Batched(cfg.net, m'.s, m'.flat.ids[k], (ps + [piece])[k], m'.flat.sampled[k], exact)
    {
      if k < |ps| {
        BatchedLive(cfg.net, m.s, m.flat.ids[k], ps[k], m.flat.sampled[k], exact);
        assert m.flat.ids[k] in m.flat.ids;
        KeepBatched(cfg.net, m.s, m'.s, m.flat.ids[k], ps[k], m.flat.sampled[k], exact);
      }
    }
    forall i | Live(m'.s, i) && i !in m'.flat.ids
      ensures Resting(cfg.net, m'.s, i, exact)
    {
      assert id in m'.flat.ids && forall x :: x in m.flat.ids ==> x in m'.flat.ids;
      KeepResting(cfg.net, m.s, m'.s, i, exact);
    }
    PushLast(m.flat.ids, id);
  }

  lemma BatchedLive(net: Net, s: Sched, id: nat, piece: Piece, sampled: bool, exact: bool)
    requires Batched(net, s, id, piece, sampled, exact)
    ensures Live(s, id)
  {
  }

  lemma FlatLengths(bs: pos, width: nat, flat: Flat, ps: seq<Piece>)
    requires FlatOk(bs, width, flat, ps)
    ensures |ps| == |flat.ids| == |flat.sampled|
  {
  }

  // A sequence whose blocks are its own is a piece of the batch.
  lemma PlacedPiece(cfg: Config, s: Sched, id: nat, toks: seq<int>, start: nat, exact: bool)
    requires Base(cfg, s, exact) && Placed(cfg.net, s, id, toks, start, exact)
    ensures var ids, bs := s.pool.tables[id].blockIds, s.pool.blockSize;
      PieceOk(bs, Piece(ids, toks, start), Width(s.pool))
  {
    var ids, bs := s.pool.tables[id].blockIds, s.pool.blockSize;
    FitsIff(bs, ids, |toks|);
    TablesBelow(s.pool, multiset{}, id);
    SlotsInPool(bs, ids, |toks|, s.pool.numBlocks);
  }

  // ---------- decoding one request ----------

  lemma DecodedSeat(cfg: Config, s: Sched, id: nat, exact: bool)
    requires id in s.requests && s.requests[id].status == Running
    requires Base(cfg, s, exact) && Resting(cfg.net, s, id, exact) && AppendToken(s.pool, id).Ok?
    ensures var s' := s.(pool := AppendToken(s.pool, id).value); var toks := Context(s.requests[id]);
      && s'.pool.blockSize == s.pool.blockSize && s'.pool.numBlocks == s.pool.numBlocks
      && s'.pool.tables.Keys == s.pool.tables.Keys
      && Accounted(s'.pool, multiset{})
      && Placed(cfg.net, s', id, toks, |toks| - 1, exact) && ExactBlocks(s', id)
      && s.pool.tables[id].numTokens == |toks| - 1
  {
    hide Accounted, Queues, Sane, Holds, SoleFrom, BlocksNeeded, AppendToken, Resting;
    RestingSeat(cfg.net, s, id, exact);
    var p, toks := s.pool, Context(s.requests[id]);
    AppendTokenGrows(p, multiset{}, id, 0);
    var q := AppendToken(p, id).value;
    var ids, ids' := p.tables[id].blockIds, q.tables[id].blockIds;
    assert ids' == ids + ids'[|ids|..];
    if exact {
      HoldsMoreBlocks(cfg.net, s.store, p.blockSize, ids, ids'[|ids|..], toks[..|toks| - 1]);
    }
    BlocksNeededBounds(p.blockSize, |toks|);
  }

  lemma RestingSeat(net: Net, s: Sched, id: nat, exact: bool)
    requires id in s.requests && Resting(net, s, id, exact) && s.requests[id].status == Running
    ensures id in s.requests && id in s.pool.tables && |Context(s.requests[id])| > 0
    ensures var toks, t := Context(s.requests[id]), s.pool.tables[id];
      && t.numTokens == |toks| - 1 && |t.blockIds| == BlocksNeeded(s.pool.blockSize, t.numTokens)
      && (exact ==> Holds(net, s.store, s.pool.blockSize, t.blockIds, toks[..|toks| - 1])) && SoleFrom(s.pool, id, 0)
  {
    hide Holds, SoleFrom, BlocksNeeded;
    var b := CachedPart(s.requests[id]);
    assert b[..|b|] == b;
  }

  lemma AppendTokenUndisturbed(cfg: Config, s: Sched, id: nat, i: nat, exact: bool)
    requires Base(cfg, s, exact) && Resting(cfg.net, s, id, exact) && s.requests[id].status == Running
    requires AppendToken(s.pool, id).Ok?
    requires Live(s, i) && i != id
    ensures Undisturbed(cfg.net, s, s.(pool := AppendToken(s.pool, id).value), i, exact)
  {
    hide Accounted, Sane, Holds, Shape;
    AppendTokenGrows(s.pool, multiset{}, id, 0);
    TableReleasable(s.pool, i, multiset{});
    assert forall j :: 0 <= j < |s.pool.tables[i].blockIds| ==>
      s.pool.tables[i].blockIds[j] in s.pool.tables[i].blockIds;
  }

  // The row appended for a decode is that of the request's last output, at its own position and slot.
  lemma DecodeRow(bs: pos, width: nat, flat: Flat, ps: seq<Piece>, id: nat, toks: seq<int>, t: BlockTable)
    requires FlatOk(bs, width, flat, ps) && |toks| > 0 && t.numTokens == |toks|
    requires PieceOk(bs, Piece(t.blockIds, toks, |toks| - 1), width)
    ensures FlatOk(bs, width, AppendRow(bs, flat, id, toks[|toks| - 1], |toks| - 1, t),
      ps + [Piece(t.blockIds, toks, |toks| - 1)])
  {
    var p, pos := Piece(t.blockIds, toks, |toks| - 1), |toks| - 1;
    var flat' := AppendRow(bs, flat, id, toks[pos], pos, t);
    assert p.toks[p.start..] == [toks[pos]];
    assert BlockIndex(bs, pos) < |t.blockIds|;
    assert SlotsFor(bs, p.ids, p.start, |p.toks|) == [Slot(bs, t.blockIds, pos)];
    assert seq<nat>(|p.toks| - p.start, i requires i >= 0 => p.start + i) == [pos];
    FlatSnoc(bs, width, flat, ps, p, id, true, flat');
  }

  ghost function DecodePiece(m': Mid, id: nat): Piece
    requires id in m'.s.requests && id in m'.s.pool.tables && m'.s.requests[id].outputs != []
  {
    var toks := Context(m'.s.requests[id]);
    Piece(m'.s.pool.tables[id].blockIds, toks, |toks| - 1)
  }

  lemma DecodedBatched(cfg: Config, s: Sched, id: nat, exact: bool)
    requires Base(cfg, s, exact) && Resting(cfg.net, s, id, exact) && s.requests[id].status == Running
    requires AppendToken(s.pool, id).Ok?
    ensures var s', toks := s.(pool := AppendToken(s.pool, id).value), Context(s.requests[id]);
      && Base(cfg, s', exact) && |toks| > 0 && id in s'.pool.tables
      && s'.pool.tables[id].numTokens == |toks| && s.pool.tables[id].numTokens == |toks| - 1
      && Batched(cfg.net, s', id, Piece(s'.pool.tables[id].blockIds, toks, |toks| - 1), true, exact)
      && PieceOk(s.pool.blockSize, Piece(s'.pool.tables[id].blockIds, toks, |toks| - 1), Width(s.pool))
      && s'.pool.blockSize == s.pool.blockSize && s'.pool.numBlocks == s.pool.numBlocks
  {
    hide Accounted, Sane, Holds, SoleFrom, Shape, ExactBlocks, PieceOk, AppendToken;
    DecodedSeat(cfg, s, id, exact);
    var s', toks := s.(pool := AppendToken(s.pool, id).value), Context(s.requests[id]);
    assert Base(cfg, s', exact);
    PlacedPiece(cfg, s', id, toks, |toks| - 1, exact);
  }

  lemma DecodeOneOk(cfg: Config, m: Mid, ps: seq<Piece>, id: nat, exact: bool)
    requires MidOk(cfg, m, ps, exact) && id in m.s.running && id !in m.flat.ids && m.budget >= 1
    ensures AllRunning(m.s, [id])
    ensures DecodeOne(m, id).Ok? ==> var m' := DecodeOne(m, id).value;
      MidOk(cfg, m', ps + [DecodePiece(m', id)], exact) && m'.flat.ids == m.flat.ids + [id] && m'.budget == m.budget - 1
  {
    hide Base, FlatOk, Resting, Batched, Undisturbed, PieceOk, AppendToken;
    RestingRunning(cfg, m, ps, id, exact);
    if DecodeOne(m, id).Ok? {
      var m', toks := DecodeOne(m, id).value, Context(m.s.requests[id]);
      DecodedBatched(cfg, m.s, id, exact);
      LastOutput(m.s.requests[id]);
      DecodeRow(m.s.pool.blockSize, Width(m.s.pool), m.flat, ps, id, toks, m'.s.pool.tables[id]);
      forall i | Live(m.s, i) && i != id
        ensures Undisturbed(cfg.net, m.s, m'.s, i, exact)
      {
        AppendTokenUndisturbed(cfg, m.s, id, i, exact);
      }
      JoinBatch(cfg, m, m', ps, id, DecodePiece(m', id), true, exact);
    }
  }

  lemma LastOutput(req: Request)
    requires req.outputs != []
    ensures Context(req)[|Context(req)| - 1] == req.outputs[|req.outputs| - 1]
  {
  }

  lemma RestingRunning(cfg: Config, m: Mid, ps: seq<Piece>, id: nat, exact: bool)
    requires MidOk(cfg, m, ps, exact) && id in m.s.running && id !in m.flat.ids
    ensures Resting(cfg.net, m.s, id, exact) && m.s.requests[id].status == Running && AllRunning(m.s, [id])
  {
    assert Live(m.s, id);
  }

  // The decode phase: running requests join in order, one row each, while the budget lasts.
  lemma {:induction false} DecodeAllOk(cfg: Config, m: Mid, ps: seq<Piece>, queue: seq<nat>,
                                       exact: bool) returns (qs: seq<Piece>)
    requires MidOk(cfg, m, ps, exact) && NoDup(queue)
    requires forall id :: id in queue ==> id in m.s.running && id !in m.flat.ids
    ensures AllRunning(m.s, queue)
    ensures DecodeAll(m, queue).Ok? ==> var m' := DecodeAll(m, queue).value;
      && MidOk(cfg, m', ps + qs, exact)
      && m'.flat.ids == m.flat.ids + queue[..SmallerOf(|queue|, m.budget)]
    decreases |queue|
  {
    hide MidOk, AppendToken;
    qs := [];
    MidBudget(cfg, m, ps, exact);
    AllResting(cfg, m, ps, queue, exact);
    if queue == [] || m.budget < 1 {
      assert ps + qs == ps;
      assert m.flat.ids + queue[..SmallerOf(|queue|, m.budget)] == m.flat.ids;
    } else {
      assert queue[0] in queue;
      DecodeOneOk(cfg, m, ps, queue[0], exact);
      if DecodeOne(m, queue[0]).Ok? {
        var m' := DecodeOne(m, queue[0]).value;
        var p := DecodePiece(m', queue[0]);
        forall id | id in queue[1..]
          ensures id in m'.s.running && id !in m'.flat.ids
        {
          assert id in queue && id != queue[0];
        }
        var rest := DecodeAllOk(cfg, m', ps + [p], queue[1..], exact);
        qs := [p] + rest;
        assert ps + [p] + rest == ps + qs;
        assert m'.flat.ids + queue[1..][..SmallerOf(|queue[1..]|, m'.budget)]
            == m.flat.ids + queue[..SmallerOf(|queue|, m.budget)];
      }
    }
  }

  lemma MidBudget(cfg: Config, m: Mid, ps: seq<Piece>, exact: bool)
    requires MidOk(cfg, m, ps, exact)
    ensures m.budget >= 0 && |m.flat.tokens| + m.budget == cfg.maxBatch
  {
  }

  lemma AllResting(cfg: Config, m: Mid, ps: seq<Piece>, queue: seq<nat>, exact: bool)
    requires MidOk(cfg, m, ps, exact) && forall id :: id in queue ==> id in m.s.running && id !in m.flat.ids
    ensures AllRunning(m.s, queue)
  {
    forall id | id in queue
      ensures AllRunning(m.s, [id])
    {
      RestingRunning(cfg, m, ps, id, exact);
    }
    assert forall id :: id in queue ==> id in [id];
  }

  // ---------- other sequences' slots ----------

  lemma TablesDisjoint(p: Pool, id: nat, i: nat)
    requires Accounted(p, multiset{}) && id in p.tables && i in p.tables && i != id && SoleFrom(p, id, 0)
    ensures forall k, k' :: 0 <= k < |p.tables[id].blockIds| && 0 <= k' < |p.tables[i].blockIds| ==>
      p.tables[id].blockIds[k] != p.tables[i].blockIds[k']
  {
    forall k | 0 <= k < |p.tables[id].blockIds|
      ensures p.tables[id].blockIds[k] !in p.tables[i].blockIds
    {
      SoleReference(p, multiset{}, id, k);
    }
  }

  lemma HoldsElsewhere(net: Net, store: Store, store': Store, bs: pos, ids: seq<nat>, toks: seq<int>, slots: seq<nat>)
    requires Holds(net, store, bs, ids, toks) && Untouched(store, store', slots)
    requires forall j :: 0 <= j < |toks| ==> Slot(bs, ids, j) !in slots
    ensures Holds(net, store', bs, ids, toks)
  {
    forall l, j | 0 <= l < |store| && 0 <= j < |toks|
      ensures Slot(bs, ids, j) < |store'[l]| && store'[l][Slot(bs, ids, j)] == KvRows(net, toks, l)[j]
    {
      assert store'[l][Slot(bs, ids, j)] == store[l][Slot(bs, ids, j)];
    }
  }

  lemma ForeignSlots(bs: pos, ids: seq<nat>, from: nat, to: nat, others: seq<nat>, n: nat)
    requires from <= to && Fits(bs, ids, to) && Fits(bs, others, n)
    requires forall k, k' :: 0 <= k < |ids| && 0 <= k' < |others| ==> ids[k] != others[k']
    ensures forall j :: 0 <= j < n ==> Slot(bs, others, j) !in SlotsFor(bs, ids, from, to)
  {
    forall j | 0 <= j < n
      ensures Slot(bs, others, j) !in SlotsFor(bs, ids, from, to)
    {
      OtherBlockUntouched(bs, ids, from, to, others[BlockIndex(bs, j)], j % bs);
    }
  }

  // Writing to slots of one table leaves every other table's content alone.
  lemma OtherTableHolds(net: Net, store: Store, store': Store, p: Pool, id: nat, n: nat, i: nat)
    requires Accounted(p, multiset{}) && id in p.tables && i in p.tables && i != id && SoleFrom(p, id, 0)
    requires Fits(p.blockSize, p.tables[id].blockIds, n)
    requires Untouched(store, store', ContextSlots(p.blockSize, p.tables[id].blockIds, n))
    ensures forall toks :: Holds(net, store, p.blockSize, p.tables[i].blockIds, toks)
                       ==> Holds(net, store', p.blockSize, p.tables[i].blockIds, toks)
  {
    hide Accounted, SoleFrom, Untouched;
    TablesDisjoint(p, id, i);
    forall toks | Holds(net, store, p.blockSize, p.tables[i].blockIds, toks)
      ensures Holds(net, store', p.blockSize, p.tables[i].blockIds, toks)
    {
      ForeignSlots(p.blockSize, p.tables[id].blockIds, 0, n, p.tables[i].blockIds, |toks|);
      HoldsElsewhere(net, store, store', p.blockSize, p.tables[i].blockIds, toks,
                     ContextSlots(p.blockSize, p.tables[id].blockIds, n));
    }
  }

  // ---------- admitting a request ----------

  lemma {:induction false} RemoveDrops(q: seq<nat>, id: nat)
    requires NoDup(q)
    ensures NoDup(Remove(q, id))
    ensures forall x :: x in Remove(q, id) <==> x in q && x != id
  {
    if q != [] {
      assert q == [q[0]] + q[1..];
      RemoveDrops(q[1..], id);
      assert q[0] !in q[1..];
      var r := Remove(q[1..], id);
      assert forall i :: 0 <= i < |r| ==> r[i] in r;
    }
  }

  lemma AddedLast(q: seq<nat>, id: nat)
    requires NoDup(q) && id !in q
    ensures NoDup(q + [id])
    ensures forall x :: x in q + [id] <==> x in q || x == id
  {
  }

  // A fresh table of the prompt's size, of which n positions are in use.
  lemma SeatAdmitted(p: Pool, id: nat, size: nat, n: nat)
    requires Accounted(p, multiset{}) && id !in p.tables && Allocate(p, id, size, []).Ok? && n <= size
    ensures id in Allocate(p, id, size, []).value.tables
    ensures var q := SetLength(Allocate(p, id, size, []).value, id, n);
      && q.blockSize == p.blockSize && q.numBlocks == p.numBlocks && q.tables == p.tables[id := q.tables[id]]
      && Accounted(q, multiset{}) && SoleFrom(q, id, 0)
      && q.tables[id].numTokens == n && |q.tables[id].blockIds| == BlocksNeeded(p.blockSize, size)
      && (forall i :: i in p.tables && SoleFrom(p, i, 0) ==> i in q.tables && SoleFrom(q, i, 0))
      && |q.free| + |q.tables[id].blockIds| == |p.free|
  {
    hide Accounted;
    BlocksNeededBounds(p.blockSize, size);
    AllocateSeats(p, multiset{}, id, size, []);
    var r := Allocate(p, id, size, []).value;
    forall i | i in p.tables && SoleFrom(p, i, 0)
      ensures i in r.tables && SoleFrom(r, i, 0)
    {
      AllocateOthers(p, multiset{}, id, size, i, 0);
    }
    TableSwap(r, id, r.tables[id].(numTokens := n), multiset{});
  }

  lemma AdmitError(p: Pool, id: nat, size: nat)
    requires Accounted(p, multiset{}) && id !in p.tables
    ensures Allocate(p, id, size, []).Err? <==> BlocksNeeded(p.blockSize, size) > |p.free|
  {
    BlocksNeededBounds(p.blockSize, size);
    AllocateSeats(p, multiset{}, id, size, []);
  }

  // One request moves from one queue to another.
  ghost predicate Moved(s: Sched, s': Sched, id: nat, status: Status) {
    && id in s.requests && id in s'.requests && s'.requests == s.requests[id := s'.requests[id]]
    && s'.requests[id].status == status && s'.nextId == s.nextId
  }

  lemma AdmitQueues(s: Sched, s': Sched, id: nat)
    requires Queues(s) && Moved(s, s', id, Prefilling) && s.requests[id].status == Waiting
    requires s'.waiting == Remove(s.waiting, id) && s'.prefilling == s.prefilling + [id]
    requires s'.running == s.running && s'.finished == s.finished && s'.collected == s.collected
    requires s'.pool.tables.Keys == s.pool.tables.Keys + {id}
    ensures Queues(s')
  {
    RemoveDrops(s.waiting, id);
    AddedLast(s.prefilling, id);
  }

  ghost function ImportPrefix(store: Store, bs: pos, ids: seq<nat>, prefixKv: Option<PortableKv>): Store {
    if prefixKv.Some? && Rectangular(prefixKv.value, |store|, Covered(prefixKv.value)) &&
      SlotsExist(store, bs, ids, Covered(prefixKv.value))
    then Import(store, bs, ids, prefixKv.value) else store
  }

  // Importing a prefix keeps the cache's shape; an exact one is then cached, in blocks no other table has.
  lemma ImportSeats(cfg: Config, store: Store, q: Pool, id: nat, prompt: seq<int>, prefixKv: Option<PortableKv>,
                    exact: bool)
    requires Shape(cfg.net, store, Width(q)) && Accounted(q, multiset{}) && id in q.tables && SoleFrom(q, id, 0)
    requires |prompt| <= |q.tables[id].blockIds| * q.blockSize
    requires prefixKv.Some? ==> Brought(cfg.net, prompt, prefixKv.value, exact)
    ensures var n := if prefixKv.Some? then Covered(prefixKv.value) else 0;
      var store' := ImportPrefix(store, q.blockSize, q.tables[id].blockIds, prefixKv);
      && n <= |prompt| && Shape(cfg.net, store', Width(q))
      && (exact ==> Holds(cfg.net, store', q.blockSize, q.tables[id].blockIds, prompt[..n]))
      && (exact ==>
        forall i, toks :: i in q.tables && i != id && Holds(cfg.net, store, q.blockSize, q.tables[i].blockIds, toks)
                      ==> Holds(cfg.net, store', q.blockSize, q.tables[i].blockIds, toks))
  {
    hide Accounted, SoleFrom;
    if exact {
      ImportSeatsExact(cfg, store, q, id, prompt, prefixKv);
    }
  }

  lemma ImportSeatsExact(cfg: Config, store: Store, q: Pool, id: nat, prompt: seq<int>, prefixKv: Option<PortableKv>)
    requires Shape(cfg.net, store, Width(q)) && Accounted(q, multiset{}) && id in q.tables && SoleFrom(q, id, 0)
    requires |prompt| <= |q.tables[id].blockIds| * q.blockSize
    requires prefixKv.Some? ==> ExactPrefix(cfg.net, prompt, prefixKv.value)
    ensures var n := if prefixKv.Some? then Covered(prefixKv.value) else 0;
      var store' := ImportPrefix(store, q.blockSize, q.tables[id].blockIds, prefixKv);
      && n <= |prompt| && Shape(cfg.net, store', Width(q))
      && Holds(cfg.net, store', q.blockSize, q.tables[id].blockIds, prompt[..n])
      && forall i, toks :: i in q.tables && i != id && Holds(cfg.net, store, q.blockSize, q.tables[i].blockIds, toks)
           ==> Holds(cfg.net, store', q.blockSize, q.tables[i].blockIds, toks)
  {
    hide Accounted, SoleFrom;
    var ids, bs := q.tables[id].blockIds, q.blockSize;
    FitsIff(bs, ids, |prompt|);
    if prefixKv.Some? {
      var n := Covered(prefixKv.value);
      var toks := prompt[..n];
      TablesBelow(q, multiset{}, id);
      FitsIff(bs, ids, n);
      SlotsInPool(bs, ids, n, q.numBlocks);
      SoleDistinct(q, multiset{}, id, 0);
      assert BlockIndex(bs, 0) == 0;
      ImportHolds(cfg.net, store, bs, Width(q), ids, toks);
      forall i, other | i in q.tables && i != id && Holds(cfg.net, store, bs, q.tables[i].blockIds, other)
        ensures Holds(cfg.net, ImportPrefix(store, bs, ids, prefixKv), bs, q.tables[i].blockIds, other)
      {
        OtherTableHolds(cfg.net, store, ImportPrefix(store, bs, ids, prefixKv), q, id, n, i);
      }
    } else {
      assert prompt[..0] == [];
    }
  }

  lemma AdmitIs(s: Sched, id: nat)
    requires id in s.requests && Admit(s, id).Ok?
    ensures var req := s.requests[id];
      var n := if req.prefixKv.Some? then Covered(req.prefixKv.value) else 0;
      var r := Allocate(s.pool, id, |req.prompt|, []);
      && r.Ok? && id in r.value.tables
      && var q := SetLength(r.value, id, n);
      Admit(s, id).value ==
        s.(pool := q, store := ImportPrefix(s.store, q.blockSize, q.tables[id].blockIds, req.prefixKv),
        requests := s.requests[id := req.(prefixKv := None, prefillPos := n, status := Prefilling)],
        waiting := Remove(s.waiting, id), prefilling := s.prefilling + [id])
  {
  }

  // Where an admitted request is, and what admission leaves alone.
  lemma AdmitSeats(cfg: Config, s: Sched, id: nat, exact: bool)
    requires Base(cfg, s, exact) && id in s.requests && s.requests[id].status == Waiting && Admit(s, id).Ok?
    ensures var s' := Admit(s, id).value;
      && Shape(cfg.net, s'.store, Width(s'.pool)) && Accounted(s'.pool, multiset{}) && Queues(s')
      && s'.pool.blockSize == s.pool.blockSize && s'.pool.numBlocks == s.pool.numBlocks
      && id in s'.requests && s'.requests[id].status == Prefilling && Resting(cfg.net, s', id, exact)
      && (forall i :: Live(s, i) ==> i != id && Undisturbed(cfg.net, s, s', i, exact))
      && (forall i :: Live(s', i) && i != id ==> Live(s, i))
  {
    hide Accounted, SoleFrom, Holds, Shape, ImportPrefix, SetLength, Brought, Admit, Remove, Resting, Sane;
    var req, s' := s.requests[id], Admit(s, id).value;
    AdmitIs(s, id);
    assert Sane(cfg, req, exact);
    WaitingBrought(cfg, req, exact);
    var n := if req.prefixKv.Some? then Covered(req.prefixKv.value) else 0;
    SeatAdmitted(s.pool, id, |req.prompt|, n);
    BlocksNeededBounds(s.pool.blockSize, |req.prompt|);
    ImportSeats(cfg, s.store, s'.pool, id, req.prompt, req.prefixKv, exact);
    AdmitQueues(s, s', id);
    AdmittedRests(cfg.net, s', id, n, exact);
  }

  lemma WaitingBrought(cfg: Config, req: Request, exact: bool)
    requires Sane(cfg, req, exact) && req.status == Waiting
    ensures req.prefixKv.Some? ==>
      0 < Covered(req.prefixKv.value) < |req.prompt| && Brought(cfg.net, req.prompt, req.prefixKv.value, exact)
  {
  }

  lemma AdmitOk(cfg: Config, s: Sched, id: nat, exact: bool)
    requires Base(cfg, s, exact) && id in s.requests && s.requests[id].status == Waiting && Admit(s, id).Ok?
    ensures var s' := Admit(s, id).value;
      && Base(cfg, s', exact) && s'.pool.blockSize == s.pool.blockSize && s'.pool.numBlocks == s.pool.numBlocks
      && id in s'.requests && s'.requests[id].status == Prefilling && Resting(cfg.net, s', id, exact)
      && (forall i :: Live(s, i) ==> i != id && Undisturbed(cfg.net, s, s', i, exact))
      && (forall i :: Live(s', i) && i != id ==> Live(s, i))
  {
    hide Accounted, Shape, ImportPrefix, SetLength, Brought, Choosable, Admit, Remove, Resting, Undisturbed, Queues,
      Live;
    AdmitSeats(cfg, s, id, exact);
    AdmitIs(s, id);
    assert Sane(cfg, s.requests[id], exact);
    WaitingBrought(cfg, s.requests[id], exact);
  }

  lemma AdmittedRests(net: Net, s: Sched, id: nat, n: nat, exact: bool)
    requires id in s.requests && id in s.pool.tables && s.requests[id].status == Prefilling
    requires s.requests[id].prefillPos == n
    requires n <= |s.requests[id].prompt| <= |s.pool.tables[id].blockIds| * s.pool.blockSize
    requires |s.pool.tables[id].blockIds| == BlocksNeeded(s.pool.blockSize, |s.requests[id].prompt|)
    requires s.pool.tables[id].numTokens == n && SoleFrom(s.pool, id, 0)
    requires exact ==> Holds(net, s.store, s.pool.blockSize, s.pool.tables[id].blockIds, s.requests[id].prompt[..n])
    ensures Resting(net, s, id, exact)
  {
    hide SoleFrom, Holds, BlocksNeeded;
    var b := CachedPart(s.requests[id]);
    assert b == s.requests[id].prompt[..n] && b[..|b|] == b;
  }

  // A change that leaves the batch's and the resting requests alone, and adds resting ones.
  lemma KeepMid(cfg: Config, m: Mid, s': Sched, ps: seq<Piece>, exact: bool)
    requires MidOk(cfg, m, ps, exact) && Base(cfg, s', exact)
    requires s'.pool.blockSize == m.s.pool.blockSize && s'.pool.numBlocks == m.s.pool.numBlocks
    requires forall i :: Live(m.s, i) ==> Undisturbed(cfg.net, m.s, s', i, exact)
    requires forall i :: Live(s', i) && !Live(m.s, i) ==> Resting(cfg.net, s', i, exact)
    ensures MidOk(cfg, m.(s := s'), ps, exact)
  {
    hide Base, FlatOk, Resting, Batched, Undisturbed;
    FlatLengths(m.s.pool.blockSize, Width(m.s.pool), m.flat, ps);
    forall k | 0 <= k < |ps|
      ensures Batched(cfg.net, s', m.flat.ids[k], ps[k], m.flat.sampled[k], exact)
    {
      BatchedLive(cfg.net, m.s, m.flat.ids[k], ps[k], m.flat.sampled[k], exact);
      KeepBatched(cfg.net, m.s, s', m.flat.ids[k], ps[k], m.flat.sampled[k], exact);
    }
    forall i | Live(s', i) && i !in m.flat.ids
      ensures Resting(cfg.net, s', i, exact)
    {
      if Live(m.s, i) {
        KeepResting(cfg.net, m.s, s', i, exact);
      }
    }
  }

  // ---------- one chunk of a prompt ----------

  // What the chunk is: at least one token, within the prompt, the chunk size and the budget.
  lemma ChunkIs(cfg: Config, m: Mid, id: nat)
    requires id in m.s.requests && id in m.s.pool.tables && m.s.requests[id].prefillPos < |m.s.requests[id].prompt|
    requires m.budget >= 1
    ensures var m', req := Chunk(cfg, m, id), m.s.requests[id];
      var end := m'.s.requests[id].prefillPos; var n := end - req.prefillPos; var ids := m.s.pool.tables[id].blockIds;
      && 1 <= n <= m.budget && n <= cfg.chunk && end <= |req.prompt|
      && (end < |req.prompt| ==> n == cfg.chunk || n == m.budget)
      && m'.s.requests ==
        m.s.requests[id := req.(prefillPos := end, status := if end == |req.prompt| then Running else req.status)]
      && m'.s.pool == SetLength(m.s.pool, id, end) && m'.s.store == m.s.store && m'.budget == m.budget - n
      && m'.s.nextId == m.s.nextId && m'.s.waiting == m.s.waiting && m'.s.finished == m.s.finished
      && m'.s.drawn == m.s.drawn
      && m'.s.collected == m.s.collected
      && (end == |req.prompt| ==> m'.s.prefilling == Remove(m.s.prefilling, id) && m'.s.running == m.s.running + [id])
      && (end < |req.prompt| ==> m'.s.prefilling == m.s.prefilling && m'.s.running == m.s.running)
      && m'.flat == Flat(m.flat.ids + [id], m.flat.tokens + req.prompt[req.prefillPos..end],
                         m.flat.positions + seq<nat>(n, i requires i >= 0 => req.prefillPos + i),
                         m.flat.slots + ChunkSlots(m.s.pool.blockSize, ids, req.prefillPos, n),
                         m.flat.metas + [SeqMeta(ids, n, end)],
                         if end == |req.prompt| then m.flat.lastIdx + [|m.flat.tokens| + n - 1] else m.flat.lastIdx,
                         m.flat.sampled + [end == |req.prompt|])
  {
  }

  ghost function ChunkPiece(s: Sched, s': Sched, id: nat): Piece
    requires id in s.requests && id in s'.requests && id in s.pool.tables
  {
    var req := s.requests[id];
    Piece(s.pool.tables[id].blockIds, req.prompt[..SmallerOf(s'.requests[id].prefillPos, |req.prompt|)], req.prefillPos)
  }

  lemma ChunkQueues(s: Sched, s': Sched, id: nat, last: bool)
    requires Queues(s) && Moved(s, s', id, if last then Running else Prefilling) && s.requests[id].status == Prefilling
    requires s'.waiting == s.waiting && s'.finished == s.finished && s'.collected == s.collected
    requires s'.pool.tables.Keys == s.pool.tables.Keys
    requires if last then s'.prefilling == Remove(s.prefilling, id) && s'.running == s.running + [id]
             else s'.prefilling == s.prefilling && s'.running == s.running
    ensures Queues(s')
  {
    RemoveDrops(s.prefilling, id);
    if last {
      AddedLast(s.running, id);
    }
  }

  lemma SetLengthKeeps(s: Sched, s': Sched, id: nat, n: nat, net: Net, exact: bool)
    requires Accounted(s.pool, multiset{}) && id in s.pool.tables && s'.pool == SetLength(s.pool, id, n)
    requires s'.store == s.store
    requires id in s'.requests && Moved(s, s', id, s'.requests[id].status)
    ensures Accounted(s'.pool, multiset{})
    ensures SoleFrom(s.pool, id, 0) ==> SoleFrom(s'.pool, id, 0)
    ensures forall i :: i in s.requests && i in s.pool.tables && i != id ==> Undisturbed(net, s, s', i, exact)
  {
    hide Accounted, Holds;
    TableSwap(s.pool, id, s.pool.tables[id].(numTokens := n), multiset{});
  }

  // The slots of a chunk, when the table reaches that far.
  lemma ChunkSlotsAre(bs: pos, ids: seq<nat>, from: nat, n: nat)
    requires Fits(bs, ids, from + n)
    ensures ChunkSlots(bs, ids, from, n) == SlotsFor(bs, ids, from, from + n)
  {
    hide Cell, BlockIndex;
    forall i | 0 <= i < n
      ensures ChunkSlots(bs, ids, from, n)[i] == Slot(bs, ids, from + i)
    {
      assert BlockIndex(bs, from + i) < |ids|;
      assert BlockAt(ids, BlockIndex(bs, from + i)) == ids[BlockIndex(bs, from + i)];
    }
  }

  // A prefilling request at rest.
  lemma PrefillingSeat(net: Net, s: Sched, id: nat, exact: bool)
    requires id in s.requests && Resting(net, s, id, exact) && s.requests[id].status == Prefilling
    requires s.requests[id].prefillPos <= |s.requests[id].prompt|
    ensures id in s.pool.tables
    ensures var req, t := s.requests[id], s.pool.tables[id];
      && t.numTokens == req.prefillPos && |t.blockIds| == BlocksNeeded(s.pool.blockSize, |req.prompt|)
      && (exact ==> Holds(net, s.store, s.pool.blockSize, t.blockIds, req.prompt[..req.prefillPos])) &&
        SoleFrom(s.pool, id, 0)
  {
    hide Holds, SoleFrom, BlocksNeeded;
    var b := CachedPart(s.requests[id]);
    assert b[..|b|] == b;
  }

  lemma ChunkBatched(cfg: Config, m: Mid, id: nat, exact: bool)
    requires Base(cfg, m.s, exact) && id in m.s.requests && m.s.requests[id].status == Prefilling
    requires Resting(cfg.net, m.s, id, exact) && m.budget >= 1
    ensures id in m.s.pool.tables
    ensures var m' := Chunk(cfg, m, id);
      && Base(cfg, m'.s, exact) && m'.s.pool.blockSize == m.s.pool.blockSize
      && m'.s.pool.numBlocks == m.s.pool.numBlocks
      && Batched(cfg.net, m'.s, id, ChunkPiece(m.s, m'.s, id), m'.s.requests[id].status == Running, exact)
      && m.s.requests[id].prefillPos < m'.s.requests[id].prefillPos <= |m.s.requests[id].prompt|
      && (forall i :: Live(m.s, i) && i != id ==> Undisturbed(cfg.net, m.s, m'.s, i, exact))
      && (forall i :: Live(m'.s, i) && i != id ==> Live(m.s, i))
      && PieceOk(m.s.pool.blockSize, ChunkPiece(m.s, m'.s, id), Width(m.s.pool))
  {
    hide Accounted, SoleFrom, Holds, Shape, Resting, Chunk, SetLength, Remove, BlocksNeeded, Undisturbed, PieceOk, Base;
    SanePrefilling(cfg, m.s, id, exact);
    PrefillingSeat(cfg.net, m.s, id, exact);
    ChunkIs(cfg, m, id);
    ChunkBase(cfg, m, id, exact);
    var m', req := Chunk(cfg, m, id), m.s.requests[id];
    var end := m'.s.requests[id].prefillPos;
    SetLengthIs(m.s.pool, id, end);
    SetLengthKeeps(m.s, m'.s, id, end, cfg.net, exact);
    LiveTabled(cfg, m.s, exact);
    BlocksNeededBounds(m.s.pool.blockSize, |req.prompt|);
    var toks := req.prompt[..end];
    assert toks[..req.prefillPos] == req.prompt[..req.prefillPos];
    assert end == |req.prompt| ==> toks == Context(m'.s.requests[id]);
    assert Placed(cfg.net, m'.s, id, toks, req.prefillPos, exact);
    PlacedPiece(cfg, m'.s, id, toks, req.prefillPos, exact);
  }

  lemma LiveTabled(cfg: Config, s: Sched, exact: bool)
    requires Base(cfg, s, exact)
    ensures forall i :: Live(s, i) ==> i in s.requests && i in s.pool.tables
  {
  }

  lemma ChunkBase(cfg: Config, m: Mid, id: nat, exact: bool)
    requires Base(cfg, m.s, exact) && id in m.s.requests && m.s.requests[id].status == Prefilling && m.budget >= 1
    ensures id in m.s.pool.tables && Base(cfg, Chunk(cfg, m, id).s, exact) && Accounted(m.s.pool, multiset{})
  {
    hide Accounted, Holds, Shape, Chunk, SetLength, Remove, Queues, ExactPrefix, OnPath;
    SanePrefilling(cfg, m.s, id, exact);
    ChunkIs(cfg, m, id);
    var m', req := Chunk(cfg, m, id), m.s.requests[id];
    var end := m'.s.requests[id].prefillPos;
    SetLengthIs(m.s.pool, id, end);
    ChunkQueues(m.s, m'.s, id, end == |req.prompt|);
    SetLengthKeeps(m.s, m'.s, id, end, cfg.net, exact);
  }

  lemma SetLengthIs(p: Pool, id: nat, n: nat)
    requires id in p.tables
    ensures SetLength(p, id, n) == p.(tables := p.tables[id := BlockTable(p.tables[id].blockIds, n)])
  {
  }

  lemma SanePrefilling(cfg: Config, s: Sched, id: nat, exact: bool)
    requires Base(cfg, s, exact) && id in s.requests && s.requests[id].status == Prefilling
    ensures s.requests[id].prefillPos < |s.requests[id].prompt| && s.requests[id].outputs == [] && id in s.pool.tables
  {
    assert Sane(cfg, s.requests[id], exact);
    assert Live(s, id);
  }

  // The rows of a chunk.
  lemma ChunkRows(cfg: Config, m: Mid, ps: seq<Piece>, id: nat)
    requires FlatOk(m.s.pool.blockSize, Width(m.s.pool), m.flat, ps)
    requires id in m.s.requests && id in m.s.pool.tables && m.s.requests[id].prefillPos < |m.s.requests[id].prompt|
    requires m.budget >= 1
    requires PieceOk(m.s.pool.blockSize, ChunkPiece(m.s, Chunk(cfg, m, id).s, id), Width(m.s.pool))
    ensures var m' := Chunk(cfg, m, id); var last := m'.s.requests[id].prefillPos == |m.s.requests[id].prompt|;
      && FlatOk(m.s.pool.blockSize, Width(m.s.pool), m'.flat, ps + [ChunkPiece(m.s, m'.s, id)])
      && m'.flat.ids == m.flat.ids + [id] && m'.flat.sampled == m.flat.sampled + [last]
      && 0 <= m'.budget < m.budget && |m'.flat.tokens| + m'.budget == |m.flat.tokens| + m.budget
  {
    hide FlatOk, Chunk, PieceOk;
    ChunkIs(cfg, m, id);
    var m', req, bs := Chunk(cfg, m, id), m.s.requests[id], m.s.pool.blockSize;
    var end := m'.s.requests[id].prefillPos;
    var p := ChunkPiece(m.s, m'.s, id);
    assert p.toks[p.start..] == req.prompt[req.prefillPos..end];
    PieceFits(bs, p, Width(m.s.pool));
    ChunkSlotsAre(bs, p.ids, p.start, end - p.start);
    FlatSnoc(bs, Width(m.s.pool), m.flat, ps, p, id, end == |req.prompt|, m'.flat);
  }

  lemma PieceFits(bs: pos, p: Piece, width: nat)
    requires PieceOk(bs, p, width)
    ensures p.start <= |p.toks| && Fits(bs, p.ids, |p.toks|)
  {
  }

  lemma ChunkOk(cfg: Config, m: Mid, ps: seq<Piece>, id: nat, exact: bool)
    requires MidOk(cfg, m, ps, exact) && id in m.s.requests && m.s.requests[id].status == Prefilling
    requires id !in m.flat.ids && m.budget >= 1
    ensures id in m.s.pool.tables
    ensures var m' := Chunk(cfg, m, id);
      MidOk(cfg, m', ps + [ChunkPiece(m.s, m'.s, id)], exact) && m'.flat.ids == m.flat.ids + [id] &&
        m'.budget < m.budget
  {
    hide Base, FlatOk, Resting, Batched, Undisturbed, PieceOk, Chunk;
    assert Live(m.s, id);
    SanePrefilling(cfg, m.s, id, exact);
    ChunkBatched(cfg, m, id, exact);
    ChunkRows(cfg, m, ps, id);
    ChunkIs(cfg, m, id);
    var m' := Chunk(cfg, m, id);
    JoinBatch(cfg, m, m', ps, id, ChunkPiece(m.s, m'.s, id), m'.s.requests[id].status == Running, exact);
  }

  // A waiting request is admitted first.
  lemma PrefillOneOk(cfg: Config, m: Mid, ps: seq<Piece>, id: nat, exact: bool) returns (p: Piece)
    requires MidOk(cfg, m, ps, exact) && id in m.s.requests && m.s.requests[id].status in {Waiting, Prefilling}
    requires id !in m.flat.ids && m.budget >= 1
    ensures InLine(m.s, [id])
    ensures PrefillOne(cfg, m, id).Some? ==> var m' := PrefillOne(cfg, m, id).value;
      MidOk(cfg, m', ps + [p], exact) && m'.flat.ids == m.flat.ids + [id] && m'.budget < m.budget
  {
    hide Base, FlatOk, Resting, Batched, Undisturbed, Chunk, Admit;
    p := Piece([], [], 0);
    if m.s.requests[id].status == Waiting {
      if Admit(m.s, id).Ok? {
        AdmitOk(cfg, m.s, id, exact);
        var s := Admit(m.s, id).value;
        KeepMid(cfg, m, s, ps, exact);
        ChunkOk(cfg, m.(s := s), ps, id, exact);
        p := ChunkPiece(s, Chunk(cfg, m.(s := s), id).s, id);
      }
    } else {
      ChunkOk(cfg, m, ps, id, exact);
      p := ChunkPiece(m.s, Chunk(cfg, m, id).s, id);
    }
  }

  // The prefill phase: requests join in the order of the line, each advancing by at least one token.
  lemma {:induction false} PrefillAllOk(cfg: Config, m: Mid, ps: seq<Piece>, queue: seq<nat>,
                                        exact: bool) returns (qs: seq<Piece>)
    requires MidOk(cfg, m, ps, exact) && NoDup(queue)
    requires forall id :: id in queue ==>
      id in m.s.requests && m.s.requests[id].status in {Waiting, Prefilling} && id !in m.flat.ids
    ensures InLine(m.s, queue)
    ensures MidOk(cfg, PrefillAll(cfg, m, queue), ps + qs, exact)
    decreases |queue|
  {
    hide MidOk, PrefillOne;
    qs := [];
    LineOk(cfg, m, ps, queue, exact);
    if queue == [] || m.budget < 1 {
      assert ps + qs == ps;
    } else {
      assert queue[0] in queue;
      var p := PrefillOneOk(cfg, m, ps, queue[0], exact);
      if PrefillOne(cfg, m, queue[0]).Some? {
        var m' := PrefillOne(cfg, m, queue[0]).value;
        forall id | id in queue[1..]
          ensures id in m'.s.requests && m'.s.requests[id].status in {Waiting, Prefilling} && id !in m'.flat.ids
        {
          assert id in queue && id != queue[0];
        }
        var rest := PrefillAllOk(cfg, m', ps + [p], queue[1..], exact);
        qs := [p] + rest;
        assert ps + [p] + rest == ps + qs;
      } else {
        assert ps + qs == ps;
      }
    }
  }

  lemma LineOk(cfg: Config, m: Mid, ps: seq<Piece>, queue: seq<nat>, exact: bool)
    requires MidOk(cfg, m, ps, exact)
    requires forall id :: id in queue ==> id in m.s.requests && m.s.requests[id].status in {Waiting, Prefilling}
    ensures InLine(m.s, queue)
  {
    forall id | id in queue && m.s.requests[id].status != Waiting
      ensures id in m.s.pool.tables
    {
      assert Live(m.s, id);
    }
  }

  // Ordering the waiting list changes nothing else.
  lemma SortedOk(cfg: Config, m: Mid, ps: seq<Piece>, line: seq<nat>, exact: bool)
    requires MidOk(cfg, m, ps, exact) && NoDup(line) && forall id :: id in line <==> id in m.s.waiting
    ensures MidOk(cfg, m.(s := m.s.(waiting := line)), ps, exact)
  {
    hide FlatOk, Accounted, Sane, Shape, Holds, SoleFrom;
    var s' := m.s.(waiting := line);
    forall i | Live(m.s, i)
      ensures Undisturbed(cfg.net, m.s, s', i, exact)
    {
    }
    KeepMid(cfg, m, s', ps, exact);
  }

  lemma PrefillOk(cfg: Config, m: Mid, ps: seq<Piece>, exact: bool) returns (qs: seq<Piece>)
    requires MidOk(cfg, m, ps, exact)
    requires forall id :: id in m.flat.ids ==> id in m.s.requests && m.s.requests[id].status == Running
    ensures InLine(m.s, m.s.prefilling) && InLine(m.s, m.s.waiting)
    ensures MidOk(cfg, Prefill(cfg, m), ps + qs, exact)
  {
    hide FlatOk, Accounted, Sane, Shape, Resting, Batched, SortBy, PrefillAll;
    LineOk(cfg, m, ps, m.s.prefilling, exact);
    LineOk(cfg, m, ps, m.s.waiting, exact);
    var line := SortBy(m.s.waiting, AdmissionOrder(m.s.requests));
    SortByElements(m.s.waiting, AdmissionOrder(m.s.requests));
    SortedOk(cfg, m, ps, line, exact);
    var queue := m.s.prefilling + line;
    NoDupConcat(m.s.prefilling, line) by {
      forall i, j | 0 <= i < |m.s.prefilling| && 0 <= j < |line|
        ensures m.s.prefilling[i] != line[j]
      {
        assert m.s.prefilling[i] in m.s.prefilling && line[j] in line;
      }
    }
    qs := PrefillAllOk(cfg, m.(s := m.s.(waiting := line)), ps, queue, exact);
  }
}
