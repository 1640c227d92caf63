// What a single sequence in flight means for the pool and the cache, and how each step of generation
// keeps it.  All of it is on values: pool, cache contents, cached prefix nodes.
module Seating {
  import opened Wrappers
  import opened Reference
  import opened BlockPool
  import opened PagedStore
  import opened RaggedForward
  import opened SingleSequence
  import opened Softmax
  import opened KVCache
  import opened ModelRunner
  import opened PrefixCaching
  import opened CudaGraph

  // ---------- invariants ----------

  // What the prefix cache, if there is one, holds on to.
  datatype Pinning = NoPins | PinnedBy(hash: Hash, nodes: seq<Node>, prefixes: map<int, seq<int>>)

  ghost function PinsOf(c: Pinning): multiset<nat> {
    if c.NoPins? then multiset{} else Pins(c.nodes)
  }

  // All references are accounted for and every cached node holds its prefix.
  ghost predicate Sound(net: Net, store: Store, p: Pool, c: Pinning) {
    && Shape(net, store, p.numBlocks * p.blockSize)
    && Accounted(p, PinsOf(c))
    && (c.PinnedBy? ==>
          CollisionFree(c.hash, p.blockSize) && DistinctKeys(c.nodes)
          && NodesHold(net, store, p.blockSize, c.hash, c.nodes, c.prefixes))
  }

  // Sequence `id` is the only one and has exactly the blocks its tokens need.
  ghost predicate Only(p: Pool, id: nat, n: nat) {
    && p.tables.Keys == {id}
    && p.tables[id].numTokens == n
    && |p.tables[id].blockIds| == BlocksNeeded(p.blockSize, n)
  }

  /** The cache holds `toks`, and the block of the next position (and later ones) is referenced by
      nothing but this sequence. */
  ghost predicate Seated(net: Net, store: Store, p: Pool, id: nat, toks: seq<int>) {
    && Only(p, id, |toks|)
    && Holds(net, store, p.blockSize, p.tables[id].blockIds, toks)
    && SoleFrom(p, id, BlockIndex(p.blockSize, |toks|))
  }

  // Room is reserved for all of `toks`, of which those before `start` are cached.
  ghost predicate Ready(net: Net, store: Store, p: Pool, id: nat, toks: seq<int>, start: nat) {
    && Only(p, id, |toks|)
    && start < |toks|
    && Holds(net, store, p.blockSize, p.tables[id].blockIds, toks[..start])
    && SoleFrom(p, id, BlockIndex(p.blockSize, start))
  }

  ghost predicate Forwardable(net: Net, store: Store, p: Pool, id: nat, toks: seq<int>, start: nat) {
    && id in p.tables && start < |toks|
    && OneOk(net, store, p.blockSize, p.numBlocks * p.blockSize, p.tables[id].blockIds, toks, start)
    && Holds(net, store, p.blockSize, p.tables[id].blockIds, toks[..start])
    && DistinctFrom(p.tables[id].blockIds, BlockIndex(p.blockSize, start))
  }

  lemma ReadyForwardable(net: Net, store: Store, p: Pool, c: Pinning, id: nat, toks: seq<int>, start: nat)
    requires Sound(net, store, p, c) && Ready(net, store, p, id, toks, start)
    ensures Forwardable(net, store, p, id, toks, start)
  {
    var ids := p.tables[id].blockIds;
    BlocksNeededBounds(p.blockSize, |toks|);
    FitsIff(p.blockSize, ids, |toks|);
    TablesBelow(p, PinsOf(c), id);
    SlotsInPool(p.blockSize, ids, |toks|, p.numBlocks);
    SoleDistinct(p, PinsOf(c), id, BlockIndex(p.blockSize, start));
  }

  // ---------- the steps of generation ----------

  // Forwarding what is reserved seats the whole sequence and leaves every cached node as it was.
  lemma ForwardSeats(net: Net, store: Store, p: Pool, c: Pinning, id: nat, toks: seq<int>, start: nat)
    requires Sound(net, store, p, c) && Ready(net, store, p, id, toks, start)
    ensures Forwardable(net, store, p, id, toks, start)
    ensures var r := OneForward(net, store, p.blockSize, p.numBlocks * p.blockSize, p.tables[id].blockIds, toks, start);
      && Sound(net, r.1, p, c) && Seated(net, r.1, p, id, toks)
      && DistinctFrom(p.tables[id].blockIds, BlockIndex(p.blockSize, |toks|))
      && net.lmHead(r.0[|toks| - start - 1]) == Logits(net, toks)
  {
    var bs, ids, width := p.blockSize, p.tables[id].blockIds, p.numBlocks * p.blockSize;
    ReadyForwardable(net, store, p, c, id, toks, start);
    OneForwardIsRef(net, store, bs, width, ids, toks, start);
    assert toks[..start + (|toks| - start - 1) + 1] == toks;
    BlockIndexMonotone(bs, start, |toks|);
    if c.PinnedBy? {
      PinnedNotWritten(p, PinsOf(c), id, BlockIndex(bs, start));
      var store' := OneForward(net, store, bs, width, ids, toks, start).1;
      NodesUntouched(net, store, store', bs, c.hash, c.nodes, c.prefixes, ids, start, |toks|, width);
    }
  }

  // A block with a single reference, from a table, is not pinned.
  lemma PinnedNotWritten(p: Pool, pins: multiset<nat>, id: nat, k: nat)
    requires Accounted(p, pins) && id in p.tables && SoleFrom(p, id, k)
    ensures forall i :: k <= i < |p.tables[id].blockIds| ==> p.tables[id].blockIds[i] !in pins
  {
    forall i | k <= i < |p.tables[id].blockIds|
      ensures p.tables[id].blockIds[i] !in pins
    {
      SoleReference(p, pins, id, i);
    }
  }

  // Appending a token reserves room for it and moves nothing.
  lemma AppendReadies(net: Net, store: Store, p: Pool, c: Pinning, id: nat, toks: seq<int>, token: int)
    requires Sound(net, store, p, c) && Seated(net, store, p, id, toks)
    ensures AppendToken(p, id).Err? <==> |toks| % p.blockSize == 0 && p.free == []
    ensures AppendToken(p, id).Ok? ==>
      var q := AppendToken(p, id).value;
      && Sound(net, store, q, c) && Ready(net, store, q, id, toks + [token], |toks|)
      && |q.free| + |q.tables[id].blockIds| == |p.free| + |p.tables[id].blockIds|
      && BlockIndex(p.blockSize, |toks|) < |q.tables[id].blockIds|
  {
    hide Accounted, SoleFrom, NodesHold, DistinctKeys, CollisionFree;
    AppendTokenGrows(p, PinsOf(c), id, BlockIndex(p.blockSize, |toks|));
    if AppendToken(p, id).Ok? {
      var q := AppendToken(p, id).value;
      var ids, ids' := p.tables[id].blockIds, q.tables[id].blockIds;
      assert ids' == ids + ids'[|ids|..];
      HoldsMoreBlocks(net, store, p.blockSize, ids, ids'[|ids|..], toks);
      assert (toks + [token])[..|toks|] == toks;
      BlocksNeededBounds(p.blockSize, |toks| + 1);
      FitsIff(p.blockSize, ids', |toks| + 1);
      assert BlockIndex(p.blockSize, |toks|) < |ids'|;
    }
  }

  // Adopting cached blocks and reserving the rest leaves the uncovered part of the prompt to forward.
  lemma AllocateReadies(net: Net, store: Store, p: Pool, c: Pinning, id: nat, prompt: seq<int>, reuse: seq<nat>)
    requires Sound(net, store, p, c) && p.tables == map[]
    requires Adoptable(net, store, p, reuse, prompt) && |reuse| * p.blockSize < |prompt|
    ensures var r := Allocate(p, id, |prompt|, reuse);
      && (r.Err? ==> r.error == OutOfBlocks && |p.free| + |reuse| < BlocksNeeded(p.blockSize, |prompt|))
      && (r.Ok? ==>
            && Sound(net, store, r.value, c)
            && Ready(net, store, r.value, id, prompt, |reuse| * p.blockSize)
            && |r.value.free| + |r.value.tables[id].blockIds| == |p.free| + |reuse|)
  {
    hide Accounted, SoleFrom, NodesHold, DistinctKeys, CollisionFree;
    var bs, start := p.blockSize, |reuse| * p.blockSize;
    BlocksNeededLeast(bs, |prompt|, |reuse|);
    AllocateSeats(p, PinsOf(c), id, |prompt|, reuse);
    var r := Allocate(p, id, |prompt|, reuse);
    if r.Ok? {
      var ids := r.value.tables[id].blockIds;
      assert ids == reuse + ids[|reuse|..];
      HoldsMoreBlocks(net, store, bs, reuse, ids[|reuse|..], prompt[..start]);
      DivMultiple(bs, |reuse|);
    }
  }

  // Offering a seated prompt's full blocks to the cache pins none of the blocks still to be written.
  lemma InsertSeats(net: Net, store: Store, p: Pool, c: Pinning, id: nat, prompt: seq<int>, misses: nat, clock: nat)
    requires Sound(net, store, p, c) && c.PinnedBy? && Seated(net, store, p, id, prompt)
    requires DistinctFrom(p.tables[id].blockIds, BlockIndex(p.blockSize, |prompt|))
    ensures |prompt| / p.blockSize <= |p.tables[id].blockIds|
    ensures forall b :: b in p.tables[id].blockIds ==> b in p.refCount
    ensures
      var ids, keys, n := p.tables[id].blockIds, BlockHashes(c.hash, p.blockSize, prompt), |prompt| / p.blockSize;
      var (ns, q, m) := InsertTo(c.nodes, p, misses, keys, ids, clock, n);
      var c' := PinnedBy(c.hash, ns,
        PrefixesTo(c.prefixes, c.nodes, p, misses, c.hash, p.blockSize, prompt, ids, clock, n));
      Sound(net, store, q, c') && Seated(net, store, q, id, prompt) && q.free == p.free
  {
    var bs, ids := p.blockSize, p.tables[id].blockIds;
    TableReleasable(p, id, Pins(c.nodes));
    InsertToRegistered(net, store, bs, c.hash, c.nodes, p, c.prefixes, misses, prompt, ids, clock);
    var keys := BlockHashes(c.hash, bs, prompt);
    var q := InsertTo(c.nodes, p, misses, keys, ids, clock, |prompt| / bs).1;
    forall i | BlockIndex(bs, |prompt|) <= i < |ids|
      ensures Refs(q.refCount, ids[i]) == 1
    {
      assert ids[i] in ids;
      InsertToCounts(c.nodes, p, misses, keys, ids, clock, |prompt| / bs, ids[i]);
    }
  }

  // Freeing the sequence returns to a pool with no tables.
  lemma FreeSound(net: Net, store: Store, p: Pool, c: Pinning, id: nat)
    requires Sound(net, store, p, c) && p.tables.Keys == {id}
    ensures Releasable(p, p.tables[id].blockIds)
    ensures Sound(net, store, Free(p, id), c) && Free(p, id).tables == map[]
  {
    FreeAccounted(p, id, PinsOf(c));
    assert p.tables - {id} == map[];
  }

  // ---------- prefix adoption ----------

  // Counted blocks that hold the leading part of the prompt they cover.
  ghost predicate Adoptable(net: Net, store: Store, p: Pool, reuse: seq<nat>, prompt: seq<int>) {
    && |reuse| * p.blockSize <= |prompt|
    && Holds(net, store, p.blockSize, reuse, prompt[..|reuse| * p.blockSize])
    && forall b :: b in reuse ==> b in p.refCount
  }

  lemma NothingAdoptable(net: Net, store: Store, p: Pool, prompt: seq<int>)
    requires |store| == |net.layers|
    ensures Adoptable(net, store, p, [], prompt)
  {
    FitsIff(p.blockSize, [], 0);
    assert prompt[..0] == [];
  }

  lemma DropLastAdopted(net: Net, store: Store, p: Pool, reuse: seq<nat>, prompt: seq<int>)
    requires Adoptable(net, store, p, reuse, prompt) && reuse != []
    ensures Adoptable(net, store, p, reuse[..|reuse| - 1], prompt)
  {
    var bs, k := p.blockSize, |reuse| - 1;
    assert k * bs + bs == |reuse| * bs;
    HoldsPrefix(net, store, bs, reuse, prompt[..|reuse| * bs], k * bs);
    assert prompt[..|reuse| * bs][..k * bs] == prompt[..k * bs];
    HoldsFewerBlocks(net, store, bs, reuse, k, prompt[..k * bs]);
  }

  // What a lookup finds can be adopted, and the lookup itself changes no entry.
  lemma MatchedAdoptable(net: Net, store: Store, p: Pool, c: Pinning, prompt: seq<int>, clock: nat)
    requires Sound(net, store, p, c) && c.PinnedBy?
    ensures var (nodes, run) := MatchRun(c.nodes, BlockHashes(c.hash, p.blockSize, prompt), clock);
      Sound(net, store, p, c.(nodes := nodes)) && Adoptable(net, store, p, run, prompt)
  {
    var keys := BlockHashes(c.hash, p.blockSize, prompt);
    var (nodes, run) := MatchRun(c.nodes, keys, clock);
    MatchRunFinds(c.nodes, keys, clock);
    TouchStep(net, store, p.blockSize, c.hash, c.nodes, p, c.prefixes, nodes);
    MatchedHolds(net, store, p.blockSize, c.hash, c.nodes, c.prefixes, prompt, run);
    forall b | b in run
      ensures b in p.refCount
    {
      var i :| 0 <= i < |run| && run[i] == b;
      assert Listed(c.nodes, keys[i], run[i]);
      var n :| 0 <= n < |c.nodes| && c.nodes[n].key == keys[i] && c.nodes[n].block == b;
      Pinned(c.nodes, n);
      assert Refs(p.refCount, b) == (Holders(p.tables) + Pins(c.nodes))[b];
    }
  }

  // Drops blocks until at least one token is left to prefill, and no block more.
  method LeaveLastToken(found: seq<nat>, prompt: seq<int>, bs: pos, ghost net: Net, ghost store: Store, ghost p: Pool)
      returns (reuse: seq<nat>)
    requires |prompt| > 0 && p.blockSize == bs && Adoptable(net, store, p, found, prompt)
    ensures Adoptable(net, store, p, reuse, prompt) && |reuse| * bs < |prompt|
    ensures reuse <= found && (|reuse| < |found| ==> (|reuse| + 1) * bs >= |prompt|)
  {
    reuse := found;
    while reuse != [] && |reuse| * bs >= |prompt|
      invariant reuse <= found && Adoptable(net, store, p, reuse, prompt)
      invariant |reuse| < |found| ==> (|reuse| + 1) * bs >= |prompt|
    {
      DropLastAdopted(net, store, p, reuse, prompt);
      reuse := reuse[..|reuse| - 1];
    }
  }

  // Dropping from the end stops at the longest run that leaves a token.
  lemma LastTokenLeft(bs: pos, n: nat, found: nat, kept: nat)
    requires n > 0 && kept <= found && kept * bs < n && (kept < found ==> (kept + 1) * bs >= n)
    ensures kept == if found < (n - 1) / bs then found else (n - 1) / bs
  {
    var q := (n - 1) / bs;
    assert q * bs <= n - 1 < (q + 1) * bs;
    if kept > q {
      MulMonotone(q + 1, kept, bs);
    } else if kept < q {
      MulMonotone(kept + 1, q, bs);
    }
  }

  // ---------- block counts ----------

  // Blocks for the longest context a request can reach: its last token is never cached.
  function Peak(bs: pos, n: nat, maxNew: int): int {
    BlocksNeeded(bs, n + (if maxNew > 1 then maxNew else 1) - 1)
  }

  lemma PeakCovers(bs: pos, n: nat, outputs: nat, maxNew: int)
    requires 0 < outputs < maxNew
    ensures BlocksNeeded(bs, n + outputs) <= Peak(bs, n, maxNew)
    ensures (n + outputs - 1) % bs == 0 ==> BlocksNeeded(bs, n + outputs - 1) < Peak(bs, n, maxNew)
  {
    BlocksNeededMonotone(bs, n + outputs, n + maxNew - 1);
    BlocksNeededSucc(bs, n + outputs - 1);
  }

  lemma PeakCoversPrompt(bs: pos, n: nat, maxNew: int)
    ensures BlocksNeeded(bs, n) <= Peak(bs, n, maxNew)
  {
    BlocksNeededMonotone(bs, n, n + (if maxNew > 1 then maxNew else 1) - 1);
  }

  lemma BlockIndexMonotone(bs: pos, i: nat, j: nat)
    requires i <= j
    ensures BlockIndex(bs, i) <= BlockIndex(bs, j)
  {
    DivBound(bs, BlockIndex(bs, i), i);
    DivBound(bs, BlockIndex(bs, i), j);
  }

  // ---------- forwarding one sequence through the runner ----------

  // A decode row forwarded alone is what the graph decoder is compared with.
  lemma OneForwardIsEager(net: Net, store: Store, bs: pos, width: nat, ids: seq<nat>, toks: seq<int>)
    requires |toks| > 0 && OneOk(net, store, bs, width, ids, toks, |toks| - 1)
    ensures DecodeOk(net, store, bs, width, ids, |toks|)
    ensures EagerDecode(net, store, bs, width, ids, |toks|, toks[|toks| - 1], |toks| - 1)
         == OneForward(net, store, bs, width, ids, toks, |toks| - 1)
  {
    OneBatch(net, store, bs, width, ids, toks, |toks| - 1);
    var n := |toks| - 1;
    assert toks[n..] == [toks[n]];
    assert seq<nat>(1, i requires i >= 0 => n + i) == [n];
    assert SlotsFor(bs, ids, n, n + 1) == [Slot(bs, ids, n)];
  }

  // The tokens of one sequence from position `start` on.
  method ForwardOne(runner: Runner, cache: PagedKVCache, ids: seq<nat>, news: seq<int>, start: nat,
                    ghost toks: seq<int>)
      returns (hidden: seq<Vec>)
    requires cache.Valid() && (runner.triton ==> SoftmaxNet(runner.net, runner.attn))
    requires OneOk(runner.net, cache.Contents(), cache.blockSize, cache.kv.Length1, ids, toks, start)
    requires news == toks[start..]
    requires DistinctFrom(ids, BlockIndex(cache.blockSize, start))
    modifies cache.kv
    ensures (hidden, cache.Contents()) ==
      OneForward(runner.net, old(cache.Contents()), cache.blockSize, cache.kv.Length1, ids, toks, start)
  {
    hide SoftmaxNet, Holds, OneForward, Forward;
    var q := |news|;
    assert start + q == |toks|;
    var pos := seq<nat>(q, i requires i >= 0 => start + i);
    var slots := SlotsFor(cache.blockSize, ids, start, start + q);
    var metas := [SeqMeta(ids, q, start + q)];
    OneBatchOk(runner.net, cache.Contents(), cache.blockSize, cache.kv.Length1, ids, toks, start);
    hidden := runner.Forward(news, pos, slots, metas, cache);
  }

  // The arguments of a one-sequence forward are a well-formed batch.
  lemma OneBatchOk(net: Net, store: Store, bs: pos, width: nat, ids: seq<nat>, toks: seq<int>, start: nat)
    requires OneOk(net, store, bs, width, ids, toks, start)
    ensures var q := |toks| - start;
      var metas, pos := [SeqMeta(ids, q, |toks|)], seq<nat>(q, i requires i >= 0 => start + i);
      var slots := SlotsFor(bs, ids, start, |toks|);
      && BatchOk(net, store, bs, width, metas, toks[start..], pos, slots)
      && (AllDecode(metas) ==> Aligned(bs, metas, slots, width))
      && OneForward(net, store, bs, width, ids, toks, start) ==
        Forward(net, store, bs, width, metas, toks[start..], pos, slots)
  {
    OneBatch(net, store, bs, width, ids, toks, start);
    PiecesBatchOk(net, store, bs, width, [Piece(ids, toks, start)]);
    var metas := [SeqMeta(ids, |toks| - start, |toks|)];
    assert AllDecode(metas) ==> metas[0].qLen == 1;
  }
}
