// Runs of the block allocator: in whatever order sequences, their forks and the prefix cache take and give
// back blocks, every count is exact and no block is lost.
module PoolRuns {
  import opened Wrappers
  import opened BlockPool
  import opened PagedStore
  import opened SingleSequence

  /** One call to the allocator; the engines also set the length of a table they hold themselves. */
  datatype Call =
    | Allocating(id: nat, numTokens: nat, reuse: seq<nat>)
    | Appending(id: nat)
    | Reserving(id: nat, numNew: int)
    | Forking(parent: nat, child: nat)
    | Truncating(id: nat, numTokens: nat)
    | Resizing(id: nat, numTokens: nat)
    | Freeing(id: nat)
    | Pinning(block: nat)
    | Unpinning(block: nat)

  /** The allocator, with the references that are held outside its tables. */
  datatype Books = Books(pool: Pool, pins: multiset<nat>)

  ghost predicate Balanced(s: Books) {
    Accounted(s.pool, s.pins)
  }

  // The sequence or block a call names exists; a child's id is new; only a reference that is held is given back.
  ghost predicate Proper(s: Books, c: Call) {
    match c
    case Allocating(_, _, reuse) => forall b :: b in reuse ==> b in s.pool.refCount
    case Forking(parent, child) =>
      parent in s.pool.tables && (child !in s.pool.tables || s.pool.tables[child].blockIds == [])
    case Freeing(_) => true
    case Pinning(b) => b in s.pool.refCount
    case Unpinning(b) => b in s.pins
    case _ => c.id in s.pool.tables
  }

  // A call that raises changes nothing.
  function Unless(s: Books, r: Result<Pool>): Books {
    match r case Ok(p) => s.(pool := p) case Err(_) => s
  }

  ghost function Perform(s: Books, c: Call): (s': Books)
    requires Balanced(s) && Proper(s, c)
    ensures Balanced(s')
  {
    hide Accounted;
    match c
    case Allocating(id, n, reuse) =>
      AllocateAccounted(s.pool, id, n, reuse, s.pins);
      Unless(s, Allocate(s.pool, id, n, reuse))
    case Appending(id) =>
      AppendTokenAccounted(s.pool, id, s.pins);
      Unless(s, AppendToken(s.pool, id))
    case Reserving(id, n) =>
      ReserveAccounted(s.pool, id, n, s.pins);
      Unless(s, Reserve(s.pool, id, n))
    case Forking(parent, child) =>
      ForkAccountedIff(s.pool, parent, child, s.pins);
      s.(pool := Fork(s.pool, parent, child))
    case Truncating(id, n) =>
      TruncateAccounted(s.pool, id, n, s.pins);
      s.(pool := Truncate(s.pool, id, n))
    case Resizing(id, n) =>
      var t := s.pool.tables[id].(numTokens := n);
      TableSwap(s.pool, id, t, s.pins);
      s.(pool := s.pool.(tables := s.pool.tables[id := t]))
    case Freeing(id) =>
      FreeAccounted(s.pool, id, s.pins);
      s.(pool := Free(s.pool, id))
    case Pinning(b) =>
      PinAccounted(s.pool, b, s.pins);
      Books(BlockPool.AddRef(s.pool, b), s.pins + multiset{b})
    case Unpinning(b) =>
      UnpinOne(s.pool, b, s.pins);
      Books(BlockPool.Release(s.pool, b), s.pins - multiset{b})
  }

  lemma UnpinOne(p: Pool, b: nat, pins: multiset<nat>)
    requires Accounted(p, pins) && b in pins
    ensures b in p.refCount && p.refCount[b] > 0
    ensures Accounted(BlockPool.Release(p, b), pins - multiset{b})
  {
    assert Refs(p.refCount, b) == (Holders(p.tables) + pins)[b] > 0;
    assert pins - multiset{b} + multiset{b} == pins;
    ReleaseAccounted(p, b, pins - multiset{b});
  }

  ghost predicate ProperRun(s: Books, calls: seq<Call>)
    requires Balanced(s)
    decreases |calls|
  {
    calls != [] ==> Proper(s, calls[0]) && ProperRun(Perform(s, calls[0]), calls[1..])
  }

  ghost function PerformAll(s: Books, calls: seq<Call>): (s': Books)
    requires Balanced(s) && ProperRun(s, calls)
    ensures Balanced(s')
    decreases |calls|
  {
    if calls == [] then s else PerformAll(Perform(s, calls[0]), calls[1..])
  }

  function Opening(numBlocks: nat, blockSize: pos): (s: Books)
    ensures Balanced(s)
  {
    EmptyAccounted(numBlocks, blockSize);
    Books(EmptyPool(numBlocks, blockSize), multiset{})
  }

  lemma PerformKeepsSize(s: Books, c: Call)
    requires Balanced(s) && Proper(s, c)
    ensures Perform(s, c).pool.numBlocks == s.pool.numBlocks
  {
    hide Accounted, Releasable;
  }

  lemma {:induction false} PerformAllKeepsSize(s: Books, calls: seq<Call>)
    requires Balanced(s) && ProperRun(s, calls)
    ensures PerformAll(s, calls).pool.numBlocks == s.pool.numBlocks
    decreases |calls|
  {
    hide Accounted, Perform, Proper;
    if calls != [] {
      PerformKeepsSize(s, calls[0]);
      PerformAllKeepsSize(Perform(s, calls[0]), calls[1..]);
    }
  }

  /** After any calls whatever, a block is either free, once, or counted, with exactly as many references as
      tables and holders outside have; and when nobody holds a block any more, all blocks are free again. */
  lemma EveryRunIsExact(numBlocks: nat, blockSize: pos, calls: seq<Call>)
    requires ProperRun(Opening(numBlocks, blockSize), calls)
    ensures var s := PerformAll(Opening(numBlocks, blockSize), calls); var p, pins := s.pool, s.pins;
      && |p.free| + |p.refCount.Keys| == numBlocks && NoDup(p.free)
      && (forall b: nat :: b < numBlocks <==> b in p.free || b in p.refCount)
      && (forall b :: b in p.refCount ==> b !in p.free && p.refCount[b] == Holders(p.tables)[b] + pins[b] > 0)
      && (p.tables == map[] && pins == multiset{} ==> |p.free| == numBlocks)
  {
    var s := PerformAll(Opening(numBlocks, blockSize), calls);
    PerformAllKeepsSize(Opening(numBlocks, blockSize), calls);
    FreeAndCounted(s.pool);
    forall b | b in s.pool.refCount
      ensures b !in s.pool.free && s.pool.refCount[b] == Holders(s.pool.tables)[b] + s.pins[b] > 0
    {
      assert Refs(s.pool.refCount, b) == (Holders(s.pool.tables) + s.pins)[b];
      assert b !in Elems(s.pool.free);
    }
    forall b: nat
      ensures b < numBlocks <==> b in s.pool.free || b in s.pool.refCount
    {
      assert b in Elems(s.pool.free) <==> b in s.pool.free;
    }
    if s.pool.tables == map[] && s.pins == multiset{} {
      AllFree(s.pool);
    }
  }

  // ---------- forking ----------

  // The block the child's next token goes into, once there is one.
  ghost predicate OwnBlockNext(p: Pool, parent: nat, child: nat)
    requires parent in p.tables && forall b :: b in p.tables[parent].blockIds ==> b in p.refCount
    requires AppendToken(Fork(p, parent, child), child).Ok?
  {
    var ids, k := AppendToken(Fork(p, parent, child), child).value.tables[child].blockIds,
      p.tables[parent].numTokens / p.blockSize;
    k < |ids| && ids[k] !in p.tables[parent].blockIds
  }

  /** `fork` is described as copy-on-write, but nothing is ever copied: the child's next token goes into a block
      that is not the parent's exactly when the parent's blocks end at or before that token. */
  lemma ForkIsolatesIff(p: Pool, pins: multiset<nat>, parent: nat, child: nat)
    requires Accounted(p, pins) && parent in p.tables
    ensures forall b :: b in p.tables[parent].blockIds ==> b in p.refCount
    ensures var q, t := Fork(p, parent, child), p.tables[parent];
      AppendToken(q, child).Ok? && t.numTokens <= |t.blockIds| * p.blockSize ==>
        && t.numTokens / p.blockSize < |AppendToken(q, child).value.tables[child].blockIds|
        && (OwnBlockNext(p, parent, child) <==> |t.blockIds| <= t.numTokens / p.blockSize)
  {
    TableReleasable(p, parent, pins);
    hide Accounted;
    var ids, n, bs := p.tables[parent].blockIds, p.tables[parent].numTokens, p.blockSize;
    if n <= |ids| * bs {
      if n % bs != 0 {
        NotFull(n, |ids|, bs);
      }
      DivBound(bs, |ids| + 1, n);
      assert (|ids| + 1) * bs == |ids| * bs + bs;
    }
  }

  lemma NotFull(n: nat, k: nat, m: pos)
    requires n % m != 0 && n <= k * m
    ensures n / m < k
  {
    NotMultiple(n, k, m);
    DivBound(m, k, n);
  }

  // A parent without blocks to spare is isolated from exactly at a block boundary.
  lemma ForkIsolatesAtBoundary(p: Pool, pins: multiset<nat>, parent: nat, child: nat)
    requires Accounted(p, pins) && parent in p.tables
    requires |p.tables[parent].blockIds| == BlocksNeeded(p.blockSize, p.tables[parent].numTokens)
    ensures forall b :: b in p.tables[parent].blockIds ==> b in p.refCount
    ensures AppendToken(Fork(p, parent, child), child).Ok? ==>
      (OwnBlockNext(p, parent, child) <==> p.tables[parent].numTokens % p.blockSize == 0)
  {
    hide OwnBlockNext;
    var n, bs := p.tables[parent].numTokens, p.blockSize;
    BlocksNeededBounds(bs, n);
    BlocksNeededIs(bs, n / bs, n % bs, n);
    ForkIsolatesIff(p, pins, parent, child);
  }

  /** A parent that has reserved room for its next token, as a speculation tree does, shares it with every
      child: the child's next token goes into the parent's reserved block. */
  lemma ReserveDefeatsFork(p: Pool, pins: multiset<nat>, parent: nat, child: nat, numNew: int)
    requires Accounted(p, pins) && parent in p.tables && numNew > 0
    requires p.tables[parent].numTokens <= |p.tables[parent].blockIds| * p.blockSize
    requires Reserve(p, parent, numNew).Ok?
    ensures var r := Reserve(p, parent, numNew).value;
      && parent in r.tables && (forall b :: b in r.tables[parent].blockIds ==> b in r.refCount)
      && (AppendToken(Fork(r, parent, child), child).Ok? ==> !OwnBlockNext(r, parent, child))
  {
    hide OwnBlockNext, Accounted;
    var r := Reserve(p, parent, numNew).value;
    ReserveAccounted(p, parent, numNew, pins);
    ReserveRoom(p, parent, numNew);
    ForkIsolatesIff(r, pins, parent, child);
    DivBound(p.blockSize, |r.tables[parent].blockIds|, r.tables[parent].numTokens);
  }

  // What a reservation takes: blocks for the tokens the table has no room for.
  function Extra(p: Pool, id: nat, numNew: int): int
    requires id in p.tables
  {
    var have := |p.tables[id].blockIds| * p.blockSize - p.tables[id].numTokens;
    if numNew > have then BlocksNeeded(p.blockSize, numNew - have) else 0
  }

  lemma ReserveRoom(p: Pool, id: nat, numNew: int)
    requires id in p.tables && Reserve(p, id, numNew).Ok?
    ensures var q, t := Reserve(p, id, numNew).value, p.tables[id];
      && q.blockSize == p.blockSize && id in q.tables && q.tables[id].numTokens == t.numTokens
      && |q.tables[id].blockIds| * p.blockSize >= t.numTokens + numNew
      && 0 <= Extra(p, id, numNew) && |q.free| == |p.free| - Extra(p, id, numNew)
  {
    var t := p.tables[id];
    var lacking := numNew - (|t.blockIds| * p.blockSize - t.numTokens);
    if lacking > 0 {
      BlocksNeededBounds(p.blockSize, lacking);
      var extra := BlocksNeeded(p.blockSize, lacking);
      assert (|t.blockIds| + extra) * p.blockSize == |t.blockIds| * p.blockSize + extra * p.blockSize;
    }
  }

  // ---------- reserving, then appending ----------

  function AppendMany(p: Pool, id: nat, k: nat): (r: Result<Pool>)
    requires id in p.tables
    ensures r.Ok? ==> id in r.value.tables
  {
    if k == 0 then Ok(p)
    else
      match AppendMany(p, id, k - 1)
      case Err(e) => Err(e)
      case Ok(q) => AppendToken(q, id)
  }

  // Appending takes a block at every block boundary, whatever the table has reserved.
  lemma {:induction false} AppendManyIff(p: Pool, id: nat, k: nat)
    requires id in p.tables
    ensures var n, bs := p.tables[id].numTokens, p.blockSize;
      var taken := BlocksNeeded(bs, n + k) - BlocksNeeded(bs, n);
      && (AppendMany(p, id, k).Ok? <==> taken <= |p.free|)
      && (AppendMany(p, id, k).Ok? ==>
            var q := AppendMany(p, id, k).value;
            q.tables[id].numTokens == n + k && |q.free| == |p.free| - taken && q.blockSize == bs)
  {
    if k > 0 {
      AppendManyIff(p, id, k - 1);
      BlocksNeededSucc(p.blockSize, p.tables[id].numTokens + k - 1);
    }
  }

  /** `reserve` says that it ensures capacity for so many future tokens, but appending takes new blocks behind the
      reserved ones: after a successful reservation that many appends succeed exactly when the free blocks cover
      both; so reserving never makes an append succeed that would have raised without it. */
  lemma ReservedAppendsIff(p: Pool, id: nat, numNew: nat)
    requires id in p.tables && Reserve(p, id, numNew).Ok?
    ensures id in Reserve(p, id, numNew).value.tables
    ensures var q, n, bs := Reserve(p, id, numNew).value, p.tables[id].numTokens, p.blockSize;
      && (AppendMany(q, id, numNew).Ok? <==>
            Extra(p, id, numNew) + BlocksNeeded(bs, n + numNew) - BlocksNeeded(bs, n) <= |p.free|)
      && (AppendMany(q, id, numNew).Ok? ==> AppendMany(p, id, numNew).Ok?)
  {
    hide Reserve, Extra, AppendMany;
    ReserveRoom(p, id, numNew);
    AppendManyIff(Reserve(p, id, numNew).value, id, numNew);
    AppendManyIff(p, id, numNew);
  }

  // ---------- these happen in runs ----------

  lemma TwoCalls(s: Books, a: Call, b: Call)
    requires Balanced(s) && Proper(s, a) && Proper(Perform(s, a), b)
    ensures ProperRun(s, [a, b]) && PerformAll(s, [a, b]) == Perform(Perform(s, a), b)
  {
    hide Balanced, Proper, Perform;
    var s1 := Perform(s, a);
    assert [a, b][1..] == [b] && [b][1..] == [];
    assert ProperRun(s1, [b]) && PerformAll(s1, [b]) == Perform(s1, b);
  }

  lemma OneBlock(bs: pos)
    ensures BlocksNeeded(bs, 1) == 1
  {
    BlocksNeededIs(bs, if bs == 1 then 1 else 0, if bs == 1 then 0 else 1, 1);
  }

  // A sequence that ends at a block boundary reserves a token's room.
  lemma ReservingRun(numBlocks: nat, blockSize: pos) returns (s: Books)
    requires numBlocks >= 2
    ensures ProperRun(Opening(numBlocks, blockSize), [Allocating(1, blockSize, []), Reserving(1, 1)])
    ensures s == PerformAll(Opening(numBlocks, blockSize), [Allocating(1, blockSize, []), Reserving(1, 1)])
    ensures s.pool.blockSize == blockSize && |s.pool.free| == numBlocks - 2 && s.pool.tables.Keys == {1}
    ensures s.pool.tables[1].numTokens == blockSize && |s.pool.tables[1].blockIds| == 2
  {
    hide Accounted;
    var s0, a, r := Opening(numBlocks, blockSize), Allocating(1, blockSize, []), Reserving(1, 1);
    BlocksNeededIs(blockSize, 1, 0, blockSize);
    OneBlock(blockSize);
    var s1 := Perform(s0, a);
    assert s1.pool.tables.Keys == {1} && |s1.pool.tables[1].blockIds| == 1;
    s := Perform(s1, r);
    TwoCalls(s0, a, r);
  }

  // The first token appended behind a reservation of one raises when the reservation took the last block.
  lemma ReservedAppendRaises(blockSize: pos) returns (s: Books)
    ensures s.pool.tables.Keys == {1} && s.pool.blockSize == blockSize
    ensures ProperRun(Opening(2, blockSize), [Allocating(1, blockSize, []), Reserving(1, 1)])
    ensures s == PerformAll(Opening(2, blockSize), [Allocating(1, blockSize, []), Reserving(1, 1)])
    ensures AppendToken(s.pool, 1).Err?
  {
    s := ReservingRun(2, blockSize);
    BlocksNeededIs(blockSize, 1, 0, blockSize);
    assert blockSize % blockSize == 0;
  }

  // A child forked from it at the block boundary writes into the parent's block.
  lemma ForkSharesReserved(blockSize: pos) returns (s: Books)
    ensures s.pool.tables.Keys == {1} && s.pool.tables[1].numTokens % blockSize == 0 && s.pool.blockSize == blockSize
    ensures ProperRun(Opening(3, blockSize), [Allocating(1, blockSize, []), Reserving(1, 1)])
    ensures s == PerformAll(Opening(3, blockSize), [Allocating(1, blockSize, []), Reserving(1, 1)])
    ensures Proper(s, Forking(1, 2)) && forall b :: b in s.pool.tables[1].blockIds ==> b in s.pool.refCount
    ensures AppendToken(Fork(s.pool, 1, 2), 2).Ok? && !OwnBlockNext(s.pool, 1, 2)
  {
    hide OwnBlockNext;
    s := ReservingRun(3, blockSize);
    BlocksNeededIs(blockSize, 1, 0, blockSize);
    assert blockSize % blockSize == 0;
    ForkIsolatesIff(s.pool, s.pins, 1, 2);
  }

  // Forking onto an id that has a table breaks the accounting.
  lemma ForkOntoTable() returns (s: Books)
    ensures ProperRun(Opening(2, 1), [Allocating(1, 1, []), Allocating(2, 1, [])])
    ensures s == PerformAll(Opening(2, 1), [Allocating(1, 1, []), Allocating(2, 1, [])])
    ensures 1 in s.pool.tables && forall b :: b in s.pool.tables[1].blockIds ==> b in s.pool.refCount
    ensures Accounted(s.pool, s.pins) && !Accounted(Fork(s.pool, 1, 2), s.pins)
  {
    hide Accounted;
    var s0, a, b := Opening(2, 1), Allocating(1, 1, []), Allocating(2, 1, []);
    var s1 := Perform(s0, a);
    assert s1.pool.tables.Keys == {1} && |s1.pool.free| == 1;
    s := Perform(s1, b);
    TwoCalls(s0, a, b);
    assert |s.pool.tables[2].blockIds| == 1;
    ForkAccountedIff(s.pool, 1, 2, s.pins);
  }
}
