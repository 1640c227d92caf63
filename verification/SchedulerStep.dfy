// Forward, sampling and retirement, and with them a whole scheduling step: exactly the running requests get
// one token each, chosen, where the cache is exact, from the logits of their own context.
module SchedulerStep {
  import opened Wrappers
  import opened Reference
  import opened BlockPool
  import opened PagedStore
  import opened RaggedForward
  import opened SingleSequence
  import opened Portable
  import opened Sampling
  import opened Decoding
  import opened SchedulerState
  import opened SchedulerInvariant

  /** Between steps: every live request has room for all but its last token in blocks of its own (which cache
      them, when `exact`), and no more requests run than a step can decode. */
  ghost predicate Settled(cfg: Config, s: Sched, exact: bool) {
    && Base(cfg, s, exact)
    && (forall id :: Live(s, id) ==> Resting(cfg.net, s, id, exact))
    && |s.running| <= cfg.maxBatch
  }

  // ---------- the forward over the batch ----------

  // Distinct requests' own blocks are written by no other request of the batch.
  lemma BatchOwnsBlocks(cfg: Config, m: Mid, ps: seq<Piece>, exact: bool)
    requires MidOk(cfg, m, ps, exact)
    ensures OwnBlocks(m.s.pool.blockSize, ps)
  {
    hide Accounted, Queues, FlatOk, Holds, Shape, Resting, SoleFrom, ExactBlocks;
    var p := m.s.pool;
    BatchLengths(cfg, m, ps, exact);
    forall k | 0 <= k < |ps|
      ensures ps[k].ids == p.tables[m.flat.ids[k]].blockIds
      ensures DistinctFrom(ps[k].ids, BlockIndex(p.blockSize, ps[k].start))
    {
      assert Batched(cfg.net, m.s, m.flat.ids[k], ps[k], m.flat.sampled[k], exact);
      SoleDistinct(p, multiset{}, m.flat.ids[k], 0);
    }
    forall k, k' | 0 <= k < |ps| && 0 <= k' < |ps| && k != k'
      ensures forall i, i' :: BlockIndex(p.blockSize, ps[k].start) <= i < |ps[k].ids| && 0 <= i' < |ps[k'].ids| ==>
        ps[k].ids[i] != ps[k'].ids[i']
    {
      assert Batched(cfg.net, m.s, m.flat.ids[k], ps[k], m.flat.sampled[k], exact);
      assert Batched(cfg.net, m.s, m.flat.ids[k'], ps[k'], m.flat.sampled[k'], exact);
      TablesDisjoint(p, m.flat.ids[k], m.flat.ids[k']);
    }
  }

  lemma BatchLengths(cfg: Config, m: Mid, ps: seq<Piece>, exact: bool)
    requires MidOk(cfg, m, ps, exact)
    ensures |ps| == |m.flat.ids| == |m.flat.sampled| && PiecesOk(m.s.pool.blockSize, ps, Width(m.s.pool))
    ensures forall k :: 0 <= k < |ps| ==> ps[k].start < |ps[k].toks|
  {
  }

  lemma BatchCached(cfg: Config, m: Mid, ps: seq<Piece>, exact: bool)
    requires MidOk(cfg, m, ps, exact)
    ensures forall k :: 0 <= k < |ps| ==> ps[k].start <= |ps[k].toks|
    ensures exact ==> Cached(cfg.net, m.s.store, m.s.pool.blockSize, ps)
  {
    hide Accounted, Queues, FlatOk, Holds, Shape, Resting, SoleFrom, ExactBlocks;
    BatchLengths(cfg, m, ps, exact);
    forall k | 0 <= k < |ps| && exact
      ensures Holds(cfg.net, m.s.store, m.s.pool.blockSize, ps[k].ids, ps[k].toks[..ps[k].start])
    {
      assert Batched(cfg.net, m.s, m.flat.ids[k], ps[k], m.flat.sampled[k], exact);
    }
  }

  lemma BatchForwards(cfg: Config, m: Mid, ps: seq<Piece>, exact: bool)
    requires MidOk(cfg, m, ps, exact)
    ensures Shape(cfg.net, m.s.store, Width(m.s.pool)) && PiecesOk(m.s.pool.blockSize, ps, Width(m.s.pool))
    ensures ForwardBatch(cfg, m.s, m.flat) == ForwardPieces(cfg.net, m.s.store, m.s.pool.blockSize, Width(m.s.pool), ps)
  {
    hide Accounted, Queues, Resting, Batched, Sane, Forward, Shape, PiecesOk;
    var bs := m.s.pool.blockSize;
    BatchLengths(cfg, m, ps, exact);
    PiecesBatchOk(cfg.net, m.s.store, bs, Width(m.s.pool), ps);
  }

  // The forward gives one row per token and keeps the cache's shape.  When `exact`, everything the batch's
  // tables account for is then cached, and all else is as before.
  lemma ForwardSettles(cfg: Config, m: Mid, ps: seq<Piece>, exact: bool)
    requires MidOk(cfg, m, ps, exact)
    ensures var (hidden, store') := ForwardBatch(cfg, m.s, m.flat);
      var bs, width := m.s.pool.blockSize, Width(m.s.pool);
      && Shape(cfg.net, store', width) && PiecesOk(bs, ps, width) && |hidden| == |Tokens(ps)|
      && (forall k :: 0 <= k < |ps| ==> ps[k].start <= |ps[k].toks|)
      && (exact ==> ForwardExact(cfg.net, bs, width, ps, m.s.store, store', hidden))
  {
    hide *;
    BatchForwards(cfg, m, ps, exact);
    BatchCached(cfg, m, ps, exact);
    if exact {
      BatchOwnsBlocks(cfg, m, ps, exact);
      ForwardIsExact(cfg.net, m.s.store, m.s.pool.blockSize, Width(m.s.pool), ps);
    }
  }

  // What a forward over pieces whose older positions are cached has done.
  ghost predicate ForwardExact(net: Net, bs: pos, width: nat, ps: seq<Piece>, store: Store, store': Store,
                               hidden: seq<Vec>)
    requires PiecesOk(bs, ps, width) && forall k :: 0 <= k < |ps| ==> ps[k].start <= |ps[k].toks|
  {
    && (forall k :: 0 <= k < |ps| ==> Holds(net, store', bs, ps[k].ids, ps[k].toks))
    && hidden == Normed(net, RefRows(net, ps, |net.layers|))
    && Untouched(store, store', WriteSlots(bs, ps, width))
  }

  lemma ForwardIsExact(net: Net, store: Store, bs: pos, width: nat, ps: seq<Piece>)
    requires Shape(net, store, width) && PiecesOk(bs, ps, width) && OwnBlocks(bs, ps)
    requires forall k :: 0 <= k < |ps| ==> ps[k].start <= |ps[k].toks|
    requires Cached(net, store, bs, ps)
    ensures var r := ForwardPieces(net, store, bs, width, ps); ForwardExact(net, bs, width, ps, store, r.1, r.0)
  {
    hide Cached, OwnBlocks, Holds, ForwardPieces;
    OwnBlocksNonAliasing(bs, ps, width);
    ForwardIsRef(net, store, bs, width, ps);
  }

  lemma WriteSlotsForeign(bs: pos, ps: seq<Piece>, width: nat, others: seq<nat>, n: nat)
    requires PiecesOk(bs, ps, width) && Fits(bs, others, n)
    requires forall k, i, i' :: 0 <= k < |ps| && 0 <= i < |ps[k].ids| && 0 <= i' < |others| ==>
      ps[k].ids[i] != others[i']
    ensures forall j :: 0 <= j < n ==> Slot(bs, others, j) !in WriteSlots(bs, ps, width)
  {
    forall j, f | 0 <= j < n && 0 <= f < |WriteSlots(bs, ps, width)|
      ensures WriteSlots(bs, ps, width)[f] != Slot(bs, others, j)
    {
      var k, j' := SlotOrigin(bs, ps, width, f);
      assert BlockIndex(bs, j') < |ps[k].ids|;
      SameSlot(bs, ps[k].ids, j', others, j);
    }
  }

  // The batch writes to no slot of a request outside it.
  lemma BatchForeign(cfg: Config, m: Mid, ps: seq<Piece>, id: nat, exact: bool)
    requires MidOk(cfg, m, ps, exact) && Live(m.s, id) && id !in m.flat.ids
    ensures id in m.s.pool.tables && PiecesOk(m.s.pool.blockSize, ps, Width(m.s.pool))
    ensures var ids, n := m.s.pool.tables[id].blockIds, |CachedPart(m.s.requests[id])|;
      && Fits(m.s.pool.blockSize, ids, n)
      && forall j :: 0 <= j < n ==>
        Slot(m.s.pool.blockSize, ids, j) !in WriteSlots(m.s.pool.blockSize, ps, Width(m.s.pool))
  {
    hide Accounted, FlatOk, Holds, Shape, SoleFrom, ExactBlocks, WriteSlots, PiecesOk, Sane, CachedPart;
    var p := m.s.pool;
    assert Resting(cfg.net, m.s, id, exact);
    var ids, n := p.tables[id].blockIds, |CachedPart(m.s.requests[id])|;
    BatchLengths(cfg, m, ps, exact);
    forall k, i, i' | 0 <= k < |ps| && 0 <= i < |ps[k].ids| && 0 <= i' < |ids|
      ensures ps[k].ids[i] != ids[i']
    {
      assert Batched(cfg.net, m.s, m.flat.ids[k], ps[k], m.flat.sampled[k], exact);
      TablesDisjoint(p, m.flat.ids[k], id);
    }
    FitsIff(p.blockSize, ids, n);
    WriteSlotsForeign(p.blockSize, ps, Width(p), ids, n);
  }

  lemma RestingElsewhere(net: Net, s: Sched, store': Store, id: nat, slots: seq<nat>, exact: bool)
    requires Resting(net, s, id, exact) && (exact ==> Untouched(s.store, store', slots))
    requires var ids, n := s.pool.tables[id].blockIds, |CachedPart(s.requests[id])|;
      Fits(s.pool.blockSize, ids, n) && forall j :: 0 <= j < n ==> Slot(s.pool.blockSize, ids, j) !in slots
    ensures Resting(net, s.(store := store'), id, exact)
  {
    hide Holds, SoleFrom, Untouched, CachedPart;
    var toks := CachedPart(s.requests[id]);
    assert toks[..|toks|] == toks;
    if exact {
      HoldsElsewhere(net, s.store, store', s.pool.blockSize, s.pool.tables[id].blockIds, toks, slots);
    }
  }

  // A resting request stays at rest.
  lemma RestingThroughForward(cfg: Config, m: Mid, ps: seq<Piece>, id: nat, exact: bool)
    requires MidOk(cfg, m, ps, exact) && Live(m.s, id) && id !in m.flat.ids
    ensures Resting(cfg.net, m.s.(store := ForwardBatch(cfg, m.s, m.flat).1), id, exact)
  {
    hide Base, FlatOk, Holds, Placed, ExactBlocks, ForwardBatch, WriteSlots, PiecesOk, Untouched, Shape, Live;
    ForwardSettles(cfg, m, ps, exact);
    BatchForeign(cfg, m, ps, id, exact);
    RestingElsewhere(cfg.net, m.s, ForwardBatch(cfg, m.s, m.flat).1, id,
      WriteSlots(m.s.pool.blockSize, ps, Width(m.s.pool)), exact);
  }

  // A batched request has all its tokens cached.
  ghost predicate Advanced(net: Net, s: Sched, id: nat, exact: bool) {
    && Live(s, id)
    && Placed(net, s, id, BatchedPart(s.requests[id]), |BatchedPart(s.requests[id])|, exact)
    && ExactBlocks(s, id)
  }

  lemma CachedAdvances(net: Net, s: Sched, store': Store, id: nat, piece: Piece, sampled: bool, exact: bool)
    requires Batched(net, s, id, piece, sampled, exact) &&
      (exact ==> Holds(net, store', s.pool.blockSize, piece.ids, piece.toks))
    ensures Advanced(net, s.(store := store'), id, exact)
  {
    hide Holds, SoleFrom;
    assert piece.toks[..|piece.toks|] == piece.toks;
  }

  lemma BatchedThroughForward(cfg: Config, m: Mid, ps: seq<Piece>, k: nat, exact: bool)
    requires MidOk(cfg, m, ps, exact) && k < |ps| && k < |m.flat.ids|
    ensures Advanced(cfg.net, m.s.(store := ForwardBatch(cfg, m.s, m.flat).1), m.flat.ids[k], exact)
  {
    hide Base, FlatOk, Holds, Batched, ForwardBatch, WriteSlots, PiecesOk, Untouched, Shape, Advanced;
    BatchLengths(cfg, m, ps, exact);
    ForwardSettles(cfg, m, ps, exact);
    CachedAdvances(cfg.net, m.s, ForwardBatch(cfg, m.s, m.flat).1, m.flat.ids[k], ps[k], m.flat.sampled[k], exact);
  }

  // ---------- sampling ----------

  // What is sampled: the last row of every piece that is sampled from has an index of its own.
  lemma {:induction false} LastRowsCount(ps: seq<Piece>, ids: seq<nat>, sampled: seq<bool>)
    requires |ps| == |sampled| == |ids| && forall i :: 0 <= i < |ps| ==> ps[i].start < |ps[i].toks|
    ensures |LastRows(ps, sampled)| == |Picked(ids, sampled)|
    ensures forall j :: 0 <= j < |LastRows(ps, sampled)| ==> 0 <= LastRows(ps, sampled)[j] < |Tokens(ps)|
  {
    if ps != [] {
      var n := |ps| - 1;
      LastRowsCount(ps[..n], ids[..n], sampled[..n]);
    }
  }

  // Each sampled row is the last row of its own sequence: it gives the reference's logits after it.
  lemma {:induction false} LastRowsLogits(net: Net, requests: map<nat, Request>, ids: seq<nat>, sampled: seq<bool>,
                                          ps: seq<Piece>,
                                          hidden: seq<Vec>)
    requires |ps| == |sampled| == |ids| && forall i :: 0 <= i < |ps| ==> ps[i].start < |ps[i].toks|
    requires forall k :: 0 <= k < |ids| && sampled[k] ==>
      ids[k] in requests && |Context(requests[ids[k]])| > 0 && ps[k].toks == Context(requests[ids[k]])
    requires Normed(net, RefRows(net, ps, |net.layers|)) <= hidden
    ensures |LastRows(ps, sampled)| == |Picked(ids, sampled)|
    ensures forall j :: 0 <= j < |LastRows(ps, sampled)| ==>
      && Picked(ids, sampled)[j] in requests && |Context(requests[Picked(ids, sampled)[j]])| > 0
      && 0 <= LastRows(ps, sampled)[j] < |hidden|
      && net.lmHead(hidden[LastRows(ps, sampled)[j]]) == Logits(net, Context(requests[Picked(ids, sampled)[j]]))
  {
    hide Logits, RefRows, Normed, Tokens, Context;
    if ps != [] {
      var n := |ps| - 1;
      LastPieceRow(net, ps, hidden);
      LastRowsLogits(net, requests, ids[..n], sampled[..n], ps[..n], hidden);
    }
  }

  // The last flat row is that of the last piece; the rows before its piece are those of the other pieces.
  lemma LastPieceRow(net: Net, ps: seq<Piece>, hidden: seq<Vec>)
    requires ps != [] && forall i :: 0 <= i < |ps| ==> ps[i].start < |ps[i].toks|
    requires Normed(net, RefRows(net, ps, |net.layers|)) <= hidden
    ensures 0 <= |Tokens(ps)| - 1 < |hidden|
    ensures net.lmHead(hidden[|Tokens(ps)| - 1]) == Logits(net, ps[|ps| - 1].toks)
    ensures Normed(net, RefRows(net, ps[..|ps| - 1], |net.layers|)) <= hidden
  {
    hide Rows, Logits, RefRows, Tokens;
    var n := |ps| - 1;
    LastRowLogits(net, ps, n);
    assert ps[..n + 1] == ps;
    EarlierRows(net, ps);
  }

  lemma EarlierRows(net: Net, ps: seq<Piece>)
    requires ps != [] && forall i :: 0 <= i < |ps| ==> ps[i].start < |ps[i].toks|
    ensures Normed(net, RefRows(net, ps[..|ps| - 1], |net.layers|)) <= Normed(net, RefRows(net, ps, |net.layers|))
  {
    hide Rows;
    var before, rows := RefRows(net, ps[..|ps| - 1], |net.layers|), RefRows(net, ps, |net.layers|);
    assert rows[..|before|] == before;
    NormedPrefix(net, before, rows);
  }

  lemma NormedPrefix(net: Net, xs: seq<Vec>, ys: seq<Vec>)
    requires |xs| <= |ys| && ys[..|xs|] == xs
    ensures Normed(net, xs) <= Normed(net, ys)
  {
    forall i | 0 <= i < |xs|
      ensures Normed(net, ys)[i] == Normed(net, xs)[i]
    {
      assert ys[i] == ys[..|xs|][i];
    }
    assert Normed(net, ys)[..|xs|] == Normed(net, xs);
  }

  // The requests sampled from are those with a sampled row, each once.
  lemma {:induction false} PickedOnce(ids: seq<nat>, sampled: seq<bool>)
    requires |ids| == |sampled| && NoDup(ids)
    ensures NoDup(Picked(ids, sampled))
    ensures forall id :: id in Picked(ids, sampled) ==> id in ids
    ensures forall k :: 0 <= k < |ids| ==> (ids[k] in Picked(ids, sampled) <==> sampled[k])
  {
    if ids != [] {
      var n := |ids| - 1;
      PickedOnce(ids[..n], sampled[..n]);
      var before := Picked(ids[..n], sampled[..n]);
      assert ids[n] !in ids[..n];
      assert ids[n] !in before;
      PushLast(before, ids[n]);
      forall id | id in Picked(ids, sampled)
        ensures id in ids
      {
        assert id in before || id == ids[n];
        assert id in before ==> id in ids[..n];
      }
      forall k | 0 <= k < |ids|
        ensures ids[k] in Picked(ids, sampled) <==> sampled[k]
      {
        if k < n {
          assert ids[..n][k] == ids[k];
        }
      }
    }
  }

  lemma {:induction false} AppendedAt(requests: map<nat, Request>, batch: seq<nat>, tokens: seq<int>)
    requires |batch| == |tokens| && NoDup(batch) && forall id :: id in batch ==> id in requests
    ensures forall j :: 0 <= j < |batch| ==>
      Appended(requests, batch, tokens)[batch[j]] == WithToken(requests[batch[j]], tokens[j])
    ensures forall id :: id in requests && id !in batch ==> Appended(requests, batch, tokens)[id] == requests[id]
  {
    hide WithToken;
    if batch != [] {
      var n := |batch| - 1;
      AppendedAt(requests, batch[..n], tokens[..n]);
      assert batch[n] !in batch[..n];
    }
  }

  // A running request takes whatever token it is given; it finishes exactly when it must stop.
  lemma TokenSane(cfg: Config, req: Request, t: int, exact: bool)
    requires Sane(cfg, req, exact) && req.status == Running
    ensures var req' := WithToken(req, t);
      && Sane(cfg, req', exact) && req'.outputs == req.outputs + [t] && req'.prompt == req.prompt
      && (req'.status == Running || req'.status == Finished)
      && (req'.status == Finished <==> Stops(req'.outputs, req.maxNew, req.eos))
  {
    hide Choosable, Brought;
  }

  // With the token appended a running request is at rest again.
  lemma TokenRests(net: Net, s: Sched, s': Sched, id: nat, exact: bool)
    requires Advanced(net, s, id, exact) && s.requests[id].status == Running && |Context(s.requests[id])| > 0
    requires s'.pool == s.pool && s'.store == s.store && id in s'.requests
    requires s'.requests[id].prompt == s.requests[id].prompt && s'.requests[id].status == Running
    requires exists t :: s'.requests[id].outputs == s.requests[id].outputs + [t]
    ensures Resting(net, s', id, exact)
  {
    hide Holds, SoleFrom, BlocksNeeded;
    var t :| s'.requests[id].outputs == s.requests[id].outputs + [t];
    assert Context(s'.requests[id]) == Context(s.requests[id]) + [t];
    assert CachedPart(s'.requests[id]) == Context(s.requests[id]);
  }

  // ---------- retiring ----------

  // Freeing one sequence leaves the others' blocks their own.
  lemma FreeKeeps(p: Pool, id: nat)
    requires Accounted(p, multiset{}) && id in p.tables && SoleFrom(p, id, 0)
    ensures Releasable(p, p.tables[id].blockIds)
    ensures var q := Free(p, id);
      && Accounted(q, multiset{}) && q.tables == p.tables - {id} && q.blockSize == p.blockSize
      && q.numBlocks == p.numBlocks
      && (forall i :: i in p.tables && i != id && SoleFrom(p, i, 0) ==> SoleFrom(q, i, 0))
  {
    hide Accounted;
    FreeAccounted(p, id, multiset{});
    var q, ids := Free(p, id), p.tables[id].blockIds;
    forall i | i in p.tables && i != id && SoleFrom(p, i, 0)
      ensures SoleFrom(q, i, 0)
    {
      TablesDisjoint(p, id, i);
      forall k | 0 <= k < |p.tables[i].blockIds|
        ensures Refs(q.refCount, p.tables[i].blockIds[k]) == 1
      {
        var b := p.tables[i].blockIds[k];
        assert b !in ids;
        ReleaseAllOthers(p.(tables := p.tables - {id}), ids, b);
      }
    }
  }

  // The queues and tables when the finished requests `ids` are still to be retired.
  ghost predicate PendingQueues(s: Sched, ids: seq<nat>) {
    && Queued(s, s.waiting, Waiting) && Queued(s, s.prefilling, Prefilling)
    && NoDup(ids) && (forall id :: id in ids ==> id in s.requests && s.requests[id].status == Finished)
    && NoDup(s.running) &&
      (forall id: nat :: id in s.running <==> id in s.requests && (s.requests[id].status == Running || id in ids))
    && Ended(s, Elems(ids))
    && (forall id: nat :: id in s.requests <==> id < s.nextId)
    && (forall id: nat :: id in s.pool.tables <==> Live(s, id) || id in ids)
  }

  // Settled but for those requests.
  ghost predicate Pending(cfg: Config, s: Sched, ids: seq<nat>, exact: bool) {
    && Shape(cfg.net, s.store, Width(s.pool)) && Accounted(s.pool, multiset{})
    && (forall id :: id in s.requests ==> Sane(cfg, s.requests[id], exact))
    && PendingQueues(s, ids)
    && (forall id :: id in s.pool.tables ==> SoleFrom(s.pool, id, 0))
    && (forall id :: Live(s, id) ==> Resting(cfg.net, s, id, exact))
  }

  lemma RetireOne(cfg: Config, s: Sched, ids: seq<nat>, exact: bool)
    requires Pending(cfg, s, ids, exact) && ids != []
    ensures var s' := Retire(s, ids[0]);
      && Pending(cfg, s', ids[1..], exact) && s'.requests == s.requests && s'.store == s.store
      && s'.running == Remove(s.running, ids[0])
  {
    hide Accounted, Sane, Shape, SoleFrom, Holds, Resting, PendingQueues, Remove;
    var id := ids[0];
    PendingFirst(s, ids);
    FreeKeeps(s.pool, id);
    var s' := Retire(s, id);
    RetireQueues(s, s', ids);
    forall i | Live(s', i)
      ensures Resting(cfg.net, s', i, exact)
    {
      assert Undisturbed(cfg.net, s, s', i, exact);
      KeepResting(cfg.net, s, s', i, exact);
    }
  }

  lemma PendingFirst(s: Sched, ids: seq<nat>)
    requires PendingQueues(s, ids) && ids != []
    ensures ids[0] in s.pool.tables && ids[0] in s.requests && s.requests[ids[0]].status == Finished
    ensures forall id :: Live(s, id) ==> id in s.pool.tables
  {
    assert ids[0] in ids;
  }

  lemma RetireQueues(s: Sched, s': Sched, ids: seq<nat>)
    requires PendingQueues(s, ids) && ids != []
    requires s' == s.(running := Remove(s.running, ids[0]), finished := s.finished + [ids[0]], pool := s'.pool)
    requires s'.pool.tables == s.pool.tables - {ids[0]}
    ensures PendingQueues(s', ids[1..])
  {
    hide Remove;
    var id := ids[0];
    assert ids == [id] + ids[1..];
    assert id in ids && id !in ids[1..];
    assert forall x :: x in ids <==> x == id || x in ids[1..];
    RemoveDrops(s.running, id);
    AddedLast(s.finished, id);
    assert forall x :: Live(s', x) <==> Live(s, x);
  }

  lemma {:induction false} RetireAllOk(cfg: Config, s: Sched, ids: seq<nat>, n: nat, exact: bool)
    requires Pending(cfg, s, ids, exact) && n <= |ids|
    ensures var s' := RetireAll(s, ids[..n]);
      && Pending(cfg, s', ids[n..], exact) && s'.requests == s.requests && s'.store == s.store
      && |s'.running| <= |s.running|
  {
    hide Pending;
    if n == 0 {
      assert ids[0..] == ids;
    } else {
      RetireAllOk(cfg, s, ids, n - 1, exact);
      assert ids[..n][..n - 1] == ids[..n - 1];
      var s' := RetireAll(s, ids[..n - 1]);
      RetireOne(cfg, s', ids[n - 1..], exact);
      assert ids[n - 1..][1..] == ids[n..];
      RemoveShortens(s'.running, ids[n - 1]);
    }
  }

  lemma {:induction false} RemoveShortens(q: seq<nat>, id: nat)
    ensures |Remove(q, id)| <= |q|
  {
    if q != [] {
      RemoveShortens(q[1..], id);
    }
  }

  lemma PendingNone(cfg: Config, s: Sched, exact: bool)
    requires Pending(cfg, s, [], exact) && |s.running| <= cfg.maxBatch
    ensures Settled(cfg, s, exact)
  {
  }

  lemma {:induction false} DoneOfAre(requests: map<nat, Request>, batch: seq<nat>)
    requires NoDup(batch)
    ensures NoDup(DoneOf(requests, batch))
    ensures forall id :: id in DoneOf(requests, batch) <==>
      id in batch && id in requests && requests[id].status == Finished
  {
    if batch != [] {
      var n := |batch| - 1;
      DoneOfAre(requests, batch[..n]);
      assert batch == batch[..n] + [batch[n]];
      PushLast(DoneOf(requests, batch[..n]), batch[n]);
      var d := DoneOf(requests, batch[..n]);
      assert forall id :: id in d + [batch[n]] <==> id in d || id == batch[n];
    }
  }

  // ---------- the end of a step ----------

  function Latest(req: Request): int {
    if req.outputs == [] then 0 else req.outputs[|req.outputs| - 1]
  }

  /** Exactly the running requests are given a token, one each. */
  ghost predicate TokensGiven(requests: map<nat, Request>, requests': map<nat, Request>) {
    && requests'.Keys == requests.Keys
    && forall id :: id in requests ==>
      if requests[id].status == Running then requests'[id] == WithToken(requests[id], Latest(requests'[id]))
      else requests'[id] == requests[id]
  }

  /** The j-th request of the batch is given the token that the first one's parameters and the j-th random
      choice pick from the reference's logits after its own context. */
  ghost predicate OwnChoices(cfg: Config, s: Sched, batch: seq<nat>, tokens: seq<int>)
    requires |tokens| == |batch| && forall id :: id in batch ==> id in s.requests
  {
    forall j :: 0 <= j < |batch| ==>
      && |Context(s.requests[batch[j]])| > 0
      && tokens[j] == SampleRow(cfg, s.requests[batch[0]].params, s.drawn + j,
        Logits(cfg.net, Context(s.requests[batch[j]])))
  }

  ghost predicate RunningBatched(m: Mid) {
    forall id :: id in m.s.running ==> id in m.flat.ids
  }

  // The sampled rows are those of the running requests.
  lemma BatchSampled(cfg: Config, m: Mid, ps: seq<Piece>, exact: bool)
    requires MidOk(cfg, m, ps, exact) && RunningBatched(m)
    ensures |m.flat.ids| == |m.flat.sampled| && RowsMatch(m.s, m.flat)
    ensures var batch := Picked(m.flat.ids, m.flat.sampled);
      && NoDup(batch) && |batch| == |m.flat.lastIdx|
      && (forall id :: id in batch <==> id in m.s.requests && m.s.requests[id].status == Running)
  {
    hide Accounted, Holds, SoleFrom, Placed, ExactBlocks, Resting, Shape, PiecesOk, Picked, LastRows, Tokens, Sane,
      BatchedPart;
    BatchLengths(cfg, m, ps, exact);
    LastRowsCount(ps, m.flat.ids, m.flat.sampled);
    PickedOnce(m.flat.ids, m.flat.sampled);
    var batch := Picked(m.flat.ids, m.flat.sampled);
    forall id | id in m.s.requests && m.s.requests[id].status == Running
      ensures id in batch
    {
      assert id in m.s.running;
      var k :| 0 <= k < |m.flat.ids| && m.flat.ids[k] == id;
      assert Batched(cfg.net, m.s, m.flat.ids[k], ps[k], m.flat.sampled[k], exact);
    }
    forall id | id in batch
      ensures id in m.s.requests && m.s.requests[id].status == Running
    {
      var k :| 0 <= k < |m.flat.ids| && m.flat.ids[k] == id;
      assert Batched(cfg.net, m.s, m.flat.ids[k], ps[k], m.flat.sampled[k], exact);
    }
  }

  // A request that is sampled from has its whole context in the batch.
  lemma SampledContexts(cfg: Config, m: Mid, ps: seq<Piece>, exact: bool)
    requires MidOk(cfg, m, ps, exact)
    ensures |ps| == |m.flat.ids| == |m.flat.sampled| && forall i :: 0 <= i < |ps| ==> ps[i].start < |ps[i].toks|
    ensures forall k :: 0 <= k < |m.flat.ids| && m.flat.sampled[k] ==>
      && m.flat.ids[k] in m.s.requests && |Context(m.s.requests[m.flat.ids[k]])| > 0
      && ps[k].toks == Context(m.s.requests[m.flat.ids[k]])
    ensures m.flat.lastIdx == LastRows(ps, m.flat.sampled)
  {
    hide Base, Placed, ExactBlocks, Resting, PiecesOk, LastRows, Tokens, Positions, WriteSlots, Metas;
    BatchLengths(cfg, m, ps, exact);
    forall k | 0 <= k < |ps| && m.flat.sampled[k]
      ensures |Context(m.s.requests[m.flat.ids[k]])| > 0 && ps[k].toks == Context(m.s.requests[m.flat.ids[k]])
    {
      assert Batched(cfg.net, m.s, m.flat.ids[k], ps[k], m.flat.sampled[k], exact);
    }
  }

  /** Where the cache is exact, batching changes nothing about what a token is chosen from. */
  lemma TokensAreOwn(cfg: Config, m: Mid, ps: seq<Piece>)
    requires MidOk(cfg, m, ps, true) && RunningBatched(m)
    ensures |m.flat.ids| == |m.flat.sampled| && RowsMatch(m.s, m.flat)
    ensures OwnChoices(cfg, m.s, Picked(m.flat.ids, m.flat.sampled), TokensOf(cfg, m.s, m.flat))
  {
    hide MidOk, RunningBatched, ForwardBatch, Normed, RefRows, LastRows, Logits, SampleRow, Picked, Context,
      WriteSlots, Tokens, Holds, Shape,
      PiecesOk, Untouched;
    BatchSampled(cfg, m, ps, true);
    SampledContexts(cfg, m, ps, true);
    ForwardSettles(cfg, m, ps, true);
    var hidden := ForwardBatch(cfg, m.s, m.flat).0;
    LastRowsLogits(cfg.net, m.s.requests, m.flat.ids, m.flat.sampled, ps, hidden);
    forall j | 0 <= j < |m.flat.lastIdx|
      ensures cfg.net.lmHead(RowAt(hidden, m.flat.lastIdx[j])) ==
        Logits(cfg.net, Context(m.s.requests[Picked(m.flat.ids, m.flat.sampled)[j]]))
    {
      assert RowAt(hidden, m.flat.lastIdx[j]) == hidden[m.flat.lastIdx[j]];
    }
  }

  lemma AppendedGiven(requests: map<nat, Request>, batch: seq<nat>, tokens: seq<int>)
    requires NoDup(batch) && |batch| == |tokens|
    requires forall id :: id in batch <==> id in requests && requests[id].status == Running
    ensures TokensGiven(requests, Appended(requests, batch, tokens))
    ensures forall j :: 0 <= j < |batch| ==>
      batch[j] in requests && Appended(requests, batch, tokens)[batch[j]].outputs == requests[batch[j]].outputs +
        [tokens[j]]
  {
    hide WithToken, Latest;
    AppendedAt(requests, batch, tokens);
    forall j | 0 <= j < |batch|
      ensures Appended(requests, batch, tokens)[batch[j]].outputs == requests[batch[j]].outputs + [tokens[j]]
      ensures Latest(Appended(requests, batch, tokens)[batch[j]]) == tokens[j]
    {
      assert batch[j] in batch;
      TokenLast(requests[batch[j]], tokens[j]);
    }
    forall id | id in requests && requests[id].status == Running
      ensures Appended(requests, batch, tokens)[id] ==
        WithToken(requests[id], Latest(Appended(requests, batch, tokens)[id]))
    {
      var j :| 0 <= j < |batch| && batch[j] == id;
    }
  }

  lemma TokenLast(req: Request, t: int)
    ensures WithToken(req, t).outputs == req.outputs + [t] && Latest(WithToken(req, t)) == t
  {
  }

  // A prefilling request whose chunk is cached is at rest.
  lemma AdvancedPrefilling(net: Net, s: Sched, id: nat, exact: bool)
    requires Advanced(net, s, id, exact) && s.requests[id].status == Prefilling
    ensures Resting(net, s, id, exact)
  {
  }

  // Only the pool, the store and its own request matter to whether a request rests.
  lemma RestingSame(net: Net, s: Sched, s': Sched, id: nat, exact: bool)
    requires Resting(net, s, id, exact) && s'.pool == s.pool && s'.store == s.store && id in s'.requests
    requires s'.requests[id] == s.requests[id]
    ensures Resting(net, s', id, exact)
  {
  }

  lemma SampledRests(cfg: Config, m: Mid, ps: seq<Piece>, s': Sched, id: nat, exact: bool)
    requires MidOk(cfg, m, ps, exact) && RunningBatched(m) && TokensGiven(m.s.requests, s'.requests)
    requires s'.pool == m.s.pool && s'.store == ForwardBatch(cfg, m.s, m.flat).1 && Live(s', id)
    ensures Resting(cfg.net, s', id, exact)
  {
    hide Accounted, FlatOk, Holds, Shape, SoleFrom, ExactBlocks, ForwardBatch, Batched, Resting, Advanced, Latest, Sane;
    var s1, req := m.s.(store := ForwardBatch(cfg, m.s, m.flat).1), m.s.requests[id];
    assert Sane(cfg, req, exact);
    BatchLengths(cfg, m, ps, exact);
    if req.status == Running {
      assert id in m.s.running;
      var k :| 0 <= k < |m.flat.ids| && m.flat.ids[k] == id;
      BatchedThroughForward(cfg, m, ps, k, exact);
      var t := Latest(s'.requests[id]);
      TokenSane(cfg, req, t, exact);
      assert s'.requests[id].outputs == req.outputs + [t];
      HasPrompt(cfg, req, exact);
      TokenRests(cfg.net, s1, s', id, exact);
    } else {
      assert Live(m.s, id);
      if id in m.flat.ids {
        var k :| 0 <= k < |m.flat.ids| && m.flat.ids[k] == id;
        BatchedThroughForward(cfg, m, ps, k, exact);
        AdvancedPrefilling(cfg.net, s1, id, exact);
      } else {
        RestingThroughForward(cfg, m, ps, id, exact);
      }
      RestingSame(cfg.net, s1, s', id, exact);
    }
  }

  lemma HasPrompt(cfg: Config, req: Request, exact: bool)
    requires Sane(cfg, req, exact)
    ensures |req.prompt| > 0 && |Context(req)| > 0
  {
  }

  lemma GivenStatus(cfg: Config, requests: map<nat, Request>, requests': map<nat, Request>, id: nat, exact: bool)
    requires TokensGiven(requests, requests') && id in requests && Sane(cfg, requests[id], exact)
    ensures id in requests' && Sane(cfg, requests'[id], exact)
    ensures requests[id].status == Running ==> requests'[id].status in {Running, Finished}
    ensures requests[id].status != Running ==> requests'[id] == requests[id]
  {
    KeysSame(requests, requests');
    if requests[id].status == Running {
      TokenSane(cfg, requests[id], Latest(requests'[id]), exact);
    }
  }

  // A live request's blocks are its own.
  lemma LiveSole(cfg: Config, m: Mid, ps: seq<Piece>, id: nat, exact: bool)
    requires MidOk(cfg, m, ps, exact) && Live(m.s, id)
    ensures id in m.s.pool.tables && SoleFrom(m.s.pool, id, 0)
  {
    hide Accounted, FlatOk, Holds, Shape, SoleFrom, ExactBlocks, Sane;
    BatchLengths(cfg, m, ps, exact);
    if id in m.flat.ids {
      var k :| 0 <= k < |m.flat.ids| && m.flat.ids[k] == id;
      assert Batched(cfg.net, m.s, m.flat.ids[k], ps[k], m.flat.sampled[k], exact);
    }
  }

  lemma SampledPending(cfg: Config, m: Mid, ps: seq<Piece>, s': Sched, done: seq<nat>, exact: bool)
    requires MidOk(cfg, m, ps, exact) && RunningBatched(m) && TokensGiven(m.s.requests, s'.requests)
    requires s' == m.s.(store := ForwardBatch(cfg, m.s, m.flat).1, requests := s'.requests, drawn := s'.drawn)
    requires NoDup(done)
    requires forall id :: id in done <==>
      id in s'.requests && m.s.requests[id].status == Running && s'.requests[id].status == Finished
    ensures Pending(cfg, s', done, exact)
  {
    hide Accounted, FlatOk, Holds, Shape, SoleFrom, Batched, Resting, Sane, TokensGiven, ForwardBatch, PendingQueues,
      Queues;
    ForwardSettles(cfg, m, ps, exact);
    forall id | id in m.s.requests
      ensures id in s'.requests && Sane(cfg, s'.requests[id], exact)
      ensures m.s.requests[id].status == Running ==> s'.requests[id].status in {Running, Finished}
      ensures m.s.requests[id].status != Running ==> s'.requests[id] == m.s.requests[id]
    {
      GivenStatus(cfg, m.s.requests, s'.requests, id, exact);
    }
    KeysSame(m.s.requests, s'.requests);
    SampledQueues(m.s, s', done);
    forall id | id in s'.pool.tables
      ensures SoleFrom(s'.pool, id, 0)
    {
      TabledLive(m.s, id);
      LiveSole(cfg, m, ps, id, exact);
    }
    forall id | Live(s', id)
      ensures Resting(cfg.net, s', id, exact)
    {
      SampledRests(cfg, m, ps, s', id, exact);
    }
  }

  lemma TabledLive(s: Sched, id: nat)
    requires Queues(s) && id in s.pool.tables
    ensures Live(s, id)
  {
  }

  lemma SampledQueues(s: Sched, s': Sched, done: seq<nat>)
    requires Queues(s) && s' == s.(store := s'.store, requests := s'.requests, drawn := s'.drawn)
    requires forall id :: id in s'.requests <==> id in s.requests
    requires forall id :: id in s.requests ==>
      if s.requests[id].status == Running then s'.requests[id].status in {Running, Finished}
        else s'.requests[id] == s.requests[id]
    requires NoDup(done)
    requires forall id :: id in done <==>
      id in s'.requests && s.requests[id].status == Running && s'.requests[id].status == Finished
    ensures PendingQueues(s', done)
  {
  }

  lemma KeysSame(requests: map<nat, Request>, requests': map<nat, Request>)
    requires TokensGiven(requests, requests')
    ensures requests'.Keys == requests.Keys
    ensures forall id :: id in requests' <==> id in requests
  {
    assert forall id :: id in requests' <==> id in requests'.Keys;
  }

  // The state after sampling, before anything is retired.
  lemma ConcludePending(cfg: Config, m: Mid, ps: seq<Piece>, exact: bool)
    requires MidOk(cfg, m, ps, exact) && RunningBatched(m)
    ensures |m.flat.ids| == |m.flat.sampled| && RowsMatch(m.s, m.flat)
    ensures var s2 := Sampled(cfg, m.s, m.flat); var done := DoneOf(s2.requests, Picked(m.flat.ids, m.flat.sampled));
      && Pending(cfg, s2, done, exact) && TokensGiven(m.s.requests, s2.requests)
      && Conclude(cfg, m.s, m.flat) == RetireAll(s2, done)
  {
    hide Base, FlatOk, Batched, Resting, ForwardBatch, TokensOf, TokensGiven, Pending, Context, MidOk, Appended,
      RetireAll, DoneOf,
      Conclude, RowsMatch, Picked;
    BatchSampled(cfg, m, ps, exact);
    var batch, s2 := Picked(m.flat.ids, m.flat.sampled), Sampled(cfg, m.s, m.flat);
    AppendedGiven(m.s.requests, batch, TokensOf(cfg, m.s, m.flat));
    DoneOfAre(s2.requests, batch);
    KeysSame(m.s.requests, s2.requests);
    SampledPending(cfg, m, ps, s2, DoneOf(s2.requests, batch), exact);
    ConcludeIs(cfg, m.s, m.flat);
  }

  /** The end of a step: every running request gets exactly one token, those that must stop are retired and
      their blocks freed, and the state is settled again. */
  lemma ConcludeOk(cfg: Config, m: Mid, ps: seq<Piece>, exact: bool)
    requires MidOk(cfg, m, ps, exact) && RunningBatched(m)
    ensures RowsMatch(m.s, m.flat)
    ensures var s' := Conclude(cfg, m.s, m.flat);
      && Pending(cfg, s', [], exact) && TokensGiven(m.s.requests, s'.requests)
      && s'.requests == Sampled(cfg, m.s, m.flat).requests
      && |s'.running| <= |m.s.running| && s'.waiting == m.s.waiting && s'.prefilling == m.s.prefilling
      && s'.nextId == m.s.nextId
      && s'.collected == m.s.collected
      && s'.pool.numBlocks == m.s.pool.numBlocks && s'.pool.blockSize == m.s.pool.blockSize
  {
    hide Base, FlatOk, Batched, Resting, ForwardBatch, TokensOf, TokensGiven, Pending, Context, MidOk, Appended,
      RetireAll, DoneOf,
      Conclude, RowsMatch;
    ConcludePending(cfg, m, ps, exact);
    var s2 := Sampled(cfg, m.s, m.flat);
    var done := DoneOf(s2.requests, Picked(m.flat.ids, m.flat.sampled));
    RetireAllOk(cfg, s2, done, |done|, exact);
    RetireAllFrame(s2, done);
    assert done[..|done|] == done && done[|done|..] == [];
  }

  lemma ConcludeIs(cfg: Config, s: Sched, flat: Flat)
    requires RowsMatch(s, flat)
    ensures var s2 := Sampled(cfg, s, flat);
      Conclude(cfg, s, flat) == RetireAll(s2, DoneOf(s2.requests, Picked(flat.ids, flat.sampled)))
  {
    hide ForwardBatch, SampleAll, Retire, WithToken;
    if flat.lastIdx == [] {
      assert Picked(flat.ids, flat.sampled) == [];
    }
  }

  lemma {:induction false} RetireAllFrame(s: Sched, ids: seq<nat>)
    ensures var s' := RetireAll(s, ids);
      && s'.waiting == s.waiting && s'.prefilling == s.prefilling && s'.nextId == s.nextId
      && s'.collected == s.collected
      && s'.pool.numBlocks == s.pool.numBlocks && s'.pool.blockSize == s.pool.blockSize
  {
    if ids != [] {
      RetireAllFrame(s, ids[..|ids| - 1]);
    }
  }
}
