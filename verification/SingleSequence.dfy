// Facts that tie one sequence's block table to what a forward pass does to the cache.
module SingleSequence {
  import opened Wrappers
  import opened Reference
  import opened BlockPool
  import opened PagedStore
  import opened RaggedForward

  // ---------- block counts ----------

  lemma BlocksNeededBounds(bs: pos, n: nat)
    ensures n <= BlocksNeeded(bs, n) * bs < n + bs
    ensures BlocksNeeded(bs, n) >= 0
  {
    var k := n + bs - 1;
    assert k == (k / bs) * bs + k % bs;
    assert k / bs >= 0;
  }

  // The number of blocks is the least that covers the tokens.
  lemma BlocksNeededLeast(bs: pos, n: nat, k: nat)
    ensures n <= k * bs <==> BlocksNeeded(bs, n) <= k
  {
    hide BlocksNeeded;
    BlocksNeededBounds(bs, n);
    var need := BlocksNeeded(bs, n);
    if need <= k {
      MulMonotone(need, k, bs);
    } else {
      MulMonotone(k + 1, need, bs);
      assert (k + 1) * bs == k * bs + bs;
    }
  }

  lemma MulMonotone(a: int, b: int, m: pos)
    requires a <= b
    ensures a * m <= b * m
  {
    assert (b - a) * m >= 0;
  }

  lemma DivMultiple(bs: pos, n: nat)
    ensures (n * bs) / bs == n && (n * bs) % bs == 0
  {
    DivBound(bs, n + 1, n * bs);
    DivBound(bs, n, n * bs);
    assert n * bs < (n + 1) * bs;
    assert n * bs == ((n * bs) / bs) * bs + (n * bs) % bs;
  }

  lemma BlocksNeededMonotone(bs: pos, n: nat, m: nat)
    requires n <= m
    ensures BlocksNeeded(bs, n) <= BlocksNeeded(bs, m)
  {
    BlocksNeededBounds(bs, m);
    BlocksNeededLeast(bs, n, BlocksNeeded(bs, m));
  }

  lemma BlocksNeededSucc(bs: pos, n: nat)
    ensures BlocksNeeded(bs, n + 1) == BlocksNeeded(bs, n) + if n % bs == 0 then 1 else 0
    ensures n % bs == 0 ==> BlocksNeeded(bs, n) * bs == n
    ensures n % bs != 0 ==> n < BlocksNeeded(bs, n) * bs
  {
    var q, r := n / bs, n % bs;
    assert n == q * bs + r;
    BlocksNeededIs(bs, q, r, n);
    if r + 1 < bs {
      BlocksNeededIs(bs, q, r + 1, n + 1);
    } else {
      assert n + 1 == (q + 1) * bs + 0;
      BlocksNeededIs(bs, q + 1, 0, n + 1);
    }
    assert (q + 1) * bs == q * bs + bs;
  }

  lemma BlocksNeededIs(bs: pos, q: nat, r: nat, n: nat)
    requires r < bs && n == q * bs + r
    ensures BlocksNeeded(bs, n) == if r == 0 then q else q + 1
  {
    var k := if r == 0 then q else q + 1;
    assert (q + 1) * bs == q * bs + bs;
    BlocksNeededLeast(bs, n, k);
    if k > 0 {
      assert (k - 1) * bs + bs == k * bs;
      BlocksNeededLeast(bs, n, k - 1);
    }
  }

  // ---------- a block with one reference ----------

  // A block whose single reference is entry i of a table is in no other entry, no other table and no pin.
  lemma SoleReference(p: Pool, pins: multiset<nat>, id: nat, i: nat)
    requires Accounted(p, pins) && id in p.tables && i < |p.tables[id].blockIds|
    requires Refs(p.refCount, p.tables[id].blockIds[i]) == 1
    ensures var b := p.tables[id].blockIds[i];
      && b !in pins
      && (forall i' :: 0 <= i' < |p.tables[id].blockIds| && i' != i ==> p.tables[id].blockIds[i'] != b)
      && (forall id' :: id' in p.tables && id' != id ==> b !in p.tables[id'].blockIds)
  {
    var ids := p.tables[id].blockIds;
    var b := ids[i];
    HoldersSplit(p.tables, id);
    assert Refs(p.refCount, b) == (Holders(p.tables) + pins)[b];
    assert multiset(ids)[b] >= 1;
    var others := ids[..i] + ids[i + 1..];
    assert ids == ids[..i] + [b] + ids[i + 1..];
    assert multiset(ids)[b] == multiset(others)[b] + 1;
    assert b !in others;
    forall i' | 0 <= i' < |ids| && i' != i
      ensures ids[i'] != b
    {
      assert ids[i'] == if i' < i then others[i'] else others[i' - 1];
    }
    forall id' | id' in p.tables && id' != id
      ensures b !in p.tables[id'].blockIds
    {
      HoldersSplit(p.tables - {id}, id');
      assert multiset(p.tables[id'].blockIds)[b] == 0;
    }
  }

  // From block index k on, every block of the table has one reference.
  ghost predicate SoleFrom(p: Pool, id: nat, k: nat)
    requires id in p.tables
  {
    forall i :: k <= i < |p.tables[id].blockIds| ==> Refs(p.refCount, p.tables[id].blockIds[i]) == 1
  }

  // ---------- one sequence through the forward pass ----------

  ghost predicate DistinctFrom(ids: seq<nat>, k: nat) {
    forall i, i' :: k <= i < |ids| && 0 <= i' < |ids| && i != i' ==> ids[i] != ids[i']
  }

  lemma SoleDistinct(p: Pool, pins: multiset<nat>, id: nat, k: nat)
    requires Accounted(p, pins) && id in p.tables && SoleFrom(p, id, k)
    ensures DistinctFrom(p.tables[id].blockIds, k)
  {
    var ids := p.tables[id].blockIds;
    forall i, i' | k <= i < |ids| && 0 <= i' < |ids| && i != i'
      ensures ids[i] != ids[i']
    {
      SoleReference(p, pins, id, i);
    }
  }

  ghost predicate BlocksBelow(ids: seq<nat>, numBlocks: nat) {
    forall i :: 0 <= i < |ids| ==> ids[i] < numBlocks
  }

  lemma SlotsInPool(bs: pos, ids: seq<nat>, n: nat, numBlocks: nat)
    requires BlocksBelow(ids, numBlocks) && Fits(bs, ids, n)
    ensures forall j :: 0 <= j < n ==> Slot(bs, ids, j) < numBlocks * bs
  {
    forall j | 0 <= j < n
      ensures Slot(bs, ids, j) < numBlocks * bs
    {
      SlotInRange(bs, numBlocks, ids[BlockIndex(bs, j)], j % bs);
    }
  }

  ghost predicate OneOk(net: Net, store: Store, bs: pos, width: nat, ids: seq<nat>, toks: seq<int>, start: nat) {
    && Shape(net, store, width)
    && start <= |toks|
    && Fits(bs, ids, |toks|)
    && (forall j :: 0 <= j < |toks| ==> Slot(bs, ids, j) < width)
  }

  // The batch of one sequence whose tokens from `start` on are new.
  lemma OneBatch(net: Net, store: Store, bs: pos, width: nat, ids: seq<nat>, toks: seq<int>, start: nat)
    requires OneOk(net, store, bs, width, ids, toks, start)
    ensures var ps := [Piece(ids, toks, start)];
      && PiecesOk(bs, ps, width)
      && Metas(bs, ps, width) == [SeqMeta(ids, |toks| - start, |toks|)]
      && Tokens(ps) == toks[start..]
      && Positions(ps) == seq<nat>(|toks| - start, i requires i >= 0 => start + i)
      && WriteSlots(bs, ps, width) == SlotsFor(bs, ids, start, |toks|)
      && RefRows(net, ps, |net.layers|) == Rows(net, toks, |net.layers|)[start..]
  {
    var ps := [Piece(ids, toks, start)];
    assert ps[..0] == [];
    assert Tokens(ps[..0]) == [] && Positions(ps[..0]) == [] && WriteSlots(bs, ps[..0], width) == [];
  }

  ghost function OneForward(net: Net, store: Store, bs: pos, width: nat, ids: seq<nat>, toks: seq<int>, start: nat)
      : (r: (seq<Vec>, Store))
    requires OneOk(net, store, bs, width, ids, toks, start)
    ensures |r.0| == |toks| - start && Shape(net, r.1, width)
  {
    OneBatch(net, store, bs, width, ids, toks, start);
    ForwardPieces(net, store, bs, width, [Piece(ids, toks, start)])
  }

  lemma PrefixLogits(net: Net, toks: seq<int>, k: nat)
    requires 0 < k <= |toks|
    ensures Logits(net, toks[..k]) == net.lmHead(net.norm(Rows(net, toks, |net.layers|)[k - 1]))
  {
    hide Rows;
    Causal(net, toks, k, |net.layers|);
  }

  lemma RowToLogits(net: Net, toks: seq<int>, start: nat, r: nat)
    requires start + r < |toks|
    ensures net.lmHead(Normed(net, Rows(net, toks, |net.layers|)[start..])[r]) == Logits(net, toks[..start + r + 1])
  {
    PrefixLogits(net, toks, start + r + 1);
  }

  // Row i of a forward from `start` gives the reference's logits after token start + i.
  ghost predicate RowsAre(net: Net, toks: seq<int>, start: nat, hidden: seq<Vec>) {
    && start + |hidden| == |toks|
    && forall i :: 0 <= i < |hidden| ==> net.lmHead(hidden[i]) == Logits(net, toks[..start + i + 1])
  }

  lemma RowsToLogits(net: Net, toks: seq<int>, start: nat, rows: seq<Vec>)
    requires start <= |toks| && rows == Rows(net, toks, |net.layers|)
    ensures RowsAre(net, toks, start, Normed(net, rows[start..]))
  {
    var hidden := Normed(net, rows[start..]);
    forall i | 0 <= i < |hidden|
      ensures net.lmHead(hidden[i]) == Logits(net, toks[..start + i + 1])
    {
      RowToLogits(net, toks, start, i);
    }
  }

  /** Forwarding the new tokens of one sequence whose older ones are cached gives the reference's rows,
      caches the sequence through its last token, and touches only the slots of the new positions. */
  lemma OneForwardIsRef(net: Net, store: Store, bs: pos, width: nat, ids: seq<nat>, toks: seq<int>, start: nat)
    requires OneOk(net, store, bs, width, ids, toks, start)
    requires Holds(net, store, bs, ids, toks[..start]) && DistinctFrom(ids, BlockIndex(bs, start))
    ensures var r := OneForward(net, store, bs, width, ids, toks, start);
      && Holds(net, r.1, bs, ids, toks)
      && RowsAre(net, toks, start, r.0)
      && Untouched(store, r.1, SlotsFor(bs, ids, start, |toks|))
  {
    var ps := [Piece(ids, toks, start)];
    OneBatch(net, store, bs, width, ids, toks, start);
    OwnBlocksNonAliasing(bs, ps, width);
    ForwardIsRef(net, store, bs, width, ps);
    assert ps[0] == Piece(ids, toks, start);
    RowsToLogits(net, toks, start, Rows(net, toks, |net.layers|));
  }

  // A slot of a block the table does not write keeps its content.
  lemma OtherBlockUntouched(bs: pos, ids: seq<nat>, from: nat, to: nat, b: nat, o: nat)
    requires from <= to && Fits(bs, ids, to) && o < bs
    requires forall i :: BlockIndex(bs, from) <= i < |ids| ==> ids[i] != b
    ensures Cell(bs, b, o) !in SlotsFor(bs, ids, from, to)
  {
    forall j | from <= j < to
      ensures Slot(bs, ids, j) != Cell(bs, b, o)
    {
      DivBound(bs, BlockIndex(bs, from), j);
      DivBound(bs, BlockIndex(bs, from), from);
      SlotsDiffer(bs, ids[BlockIndex(bs, j)], j % bs, b, o);
    }
  }

  // ---------- growing a table one token at a time ----------

  lemma TablesBelow(p: Pool, pins: multiset<nat>, id: nat)
    requires Accounted(p, pins) && id in p.tables
    ensures BlocksBelow(p.tables[id].blockIds, p.numBlocks)
  {
    TableReleasable(p, id, pins);
    var ids := p.tables[id].blockIds;
    assert forall i :: 0 <= i < |ids| ==> ids[i] in ids;
  }

  lemma NotMultiple(n: nat, k: nat, m: pos)
    requires n % m != 0
    ensures n != k * m
  {
    if n == k * m {
      DivMultiple(m, k);
    }
  }

  lemma AppendTokenGrows(p: Pool, pins: multiset<nat>, id: nat, k: nat)
    requires Accounted(p, pins) && id in p.tables && SoleFrom(p, id, k)
    ensures AppendToken(p, id).Err? <==> p.tables[id].numTokens % p.blockSize == 0 && p.free == []
    ensures AppendToken(p, id).Ok? ==>
      var q := AppendToken(p, id).value;
      var t, t' := p.tables[id], q.tables[id];
      && Accounted(q, pins) && SoleFrom(q, id, k)
      && q == p.(tables := p.tables[id := t'], free := q.free, refCount := q.refCount)
      && t.blockIds <= t'.blockIds && t'.numTokens == t.numTokens + 1
      && |t'.blockIds| == |t.blockIds| + (if t.numTokens % p.blockSize == 0 then 1 else 0)
      && (|t.blockIds| == BlocksNeeded(p.blockSize, t.numTokens) ==>
            |t'.blockIds| == BlocksNeeded(p.blockSize, t'.numTokens))
      && |q.free| + |t'.blockIds| == |p.free| + |t.blockIds|
      && (forall b :: b in p.refCount ==> b in q.refCount && q.refCount[b] == p.refCount[b])
  {
    var t := p.tables[id];
    BlocksNeededSucc(p.blockSize, t.numTokens);
    AppendTokenAccounted(p, id, pins);
    if AppendToken(p, id).Ok? && t.numTokens % p.blockSize == 0 {
      TableReleasable(p, id, pins);
      PopLast(p.free);
      var q := AppendToken(p, id).value;
      assert q.tables[id].blockIds == t.blockIds + [TakeBlock(p).1];
      assert TakeBlock(p).1 in Elems(p.free);
    }
  }

  // ---------- a fresh table ----------

  // A new table shares `reuse` and owns the rest of its blocks alone.
  lemma AllocateSeats(p: Pool, pins: multiset<nat>, id: nat, n: nat, reuse: seq<nat>)
    requires Accounted(p, pins) && id !in p.tables && |reuse| <= BlocksNeeded(p.blockSize, n)
    requires forall b :: b in reuse ==> b in p.refCount
    ensures Allocate(p, id, n, reuse).Err? <==> BlocksNeeded(p.blockSize, n) - |reuse| > |p.free|
    ensures Allocate(p, id, n, reuse).Ok? ==>
      var q := Allocate(p, id, n, reuse).value;
      && Accounted(q, pins) && id in q.tables && SoleFrom(q, id, |reuse|)
      && q == p.(tables := p.tables[id := q.tables[id]], free := q.free, refCount := q.refCount)
      && reuse <= q.tables[id].blockIds && q.tables[id].numTokens == n
      && |q.tables[id].blockIds| == BlocksNeeded(p.blockSize, n)
      && |q.free| + |q.tables[id].blockIds| == |p.free| + |reuse|
  {
    AllocateAccounted(p, id, n, reuse, pins);
    if Allocate(p, id, n, reuse).Ok? {
      var q, k := Allocate(p, id, n, reuse).value, BlocksNeeded(p.blockSize, n) - |reuse|;
      var (r, ids) := TakeBlocks(AddRefs(p, reuse), k);
      assert q.tables[id].blockIds == reuse + ids && q.refCount == r.refCount;
      forall i | |reuse| <= i < |reuse + ids|
        ensures Refs(q.refCount, (reuse + ids)[i]) == 1
      {
        assert (reuse + ids)[i] == ids[i - |reuse|];
        assert ids[i - |reuse|] in Elems(ids);
        TakeBlocksRefs(AddRefs(p, reuse), k, ids[i - |reuse|]);
      }
    }
  }

  // A newly allocated table without reuse leaves all other counts alone.
  lemma AllocateOthers(p: Pool, pins: multiset<nat>, id: nat, n: nat, id': nat, k: nat)
    requires Accounted(p, pins) && id !in p.tables && Allocate(p, id, n, []).Ok? && id' in p.tables
    requires SoleFrom(p, id', k)
    ensures id' in Allocate(p, id, n, []).value.tables && SoleFrom(Allocate(p, id, n, []).value, id', k)
  {
    BlocksNeededBounds(p.blockSize, n);
    var q := Allocate(p, id, n, []).value;
    var ids := p.tables[id'].blockIds;
    TableReleasable(p, id', pins);
    TakeBlocksDistinct(p, BlocksNeeded(p.blockSize, n));
    forall i | k <= i < |ids|
      ensures Refs(q.refCount, ids[i]) == 1
    {
      assert ids[i] in ids;
      TakeBlocksRefs(p, BlocksNeeded(p.blockSize, n), ids[i]);
    }
  }
}
