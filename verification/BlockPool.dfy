// The paged KV block allocator: a pool of fixed-size blocks with reference counts, and one block table
// per sequence.  `Pool` is the allocator's state as a value, with one specification function per
// operation; the class `BlockManager` (BlockAllocator.dfy) is the allocator itself.
module BlockPool {
  import opened Wrappers

  datatype BlockTable = BlockTable(blockIds: seq<nat>, numTokens: nat)

  datatype Pool = Pool(
    numBlocks: nat,
    blockSize: pos,
    free: seq<nat>,
    refCount: map<nat, nat>,
    tables: map<nat, BlockTable>)

  function BlocksNeeded(blockSize: pos, numTokens: int): int
  {
    (numTokens + blockSize - 1) / blockSize
  }

  function EmptyPool(numBlocks: nat, blockSize: pos): Pool {
    Pool(numBlocks, blockSize, seq(numBlocks, i => i), map[], map[])
  }

  // ---------- operations ----------

  function TakeBlock(p: Pool): (Pool, nat)
    requires p.free != []
  {
    var b := p.free[|p.free| - 1];
    (p.(free := p.free[..|p.free| - 1], refCount := p.refCount[b := 1]), b)
  }

  // Pops `n` blocks off the end of the free list, each with one reference.
  function TakeBlocks(p: Pool, n: nat): (r: (Pool, seq<nat>))
    requires n <= |p.free|
    ensures |r.1| == n
    ensures r.0.free == p.free[..|p.free| - n]
    ensures r.0.numBlocks == p.numBlocks && r.0.blockSize == p.blockSize && r.0.tables == p.tables
  {
    if n == 0 then (p, [])
    else
      var (q, ids) := TakeBlocks(p, n - 1);
      var (r, b) := TakeBlock(q);
      (r, ids + [b])
  }

  function AddRef(p: Pool, b: nat): Pool
    requires b in p.refCount
  {
    p.(refCount := p.refCount[b := p.refCount[b] + 1])
  }

  function AddRefs(p: Pool, bs: seq<nat>): (q: Pool)
    requires forall b :: b in bs ==> b in p.refCount
    ensures q.refCount.Keys == p.refCount.Keys
    ensures q == p.(refCount := q.refCount)
  {
    if bs == [] then p else AddRef(AddRefs(p, bs[..|bs| - 1]), bs[|bs| - 1])
  }

  function Release(p: Pool, b: nat): Pool
    requires b in p.refCount && p.refCount[b] > 0
  {
    if p.refCount[b] == 1 then p.(refCount := p.refCount - {b}, free := p.free + [b])
    else p.(refCount := p.refCount[b := p.refCount[b] - 1])
  }

  // Every reference in `bs` can be given back, one after the other.
  ghost predicate Releasable(p: Pool, bs: seq<nat>) {
    forall b :: b in bs ==> b in p.refCount && p.refCount[b] >= multiset(bs)[b]
  }

  lemma ReleaseFirst(p: Pool, bs: seq<nat>)
    requires Releasable(p, bs) && bs != []
    ensures bs[0] in p.refCount && p.refCount[bs[0]] > 0
    ensures Releasable(Release(p, bs[0]), bs[1..])
  {
    assert bs == [bs[0]] + bs[1..];
    assert bs[0] in bs && multiset(bs)[bs[0]] >= 1;
    forall b | b in bs[1..]
      ensures b in Release(p, bs[0]).refCount && Release(p, bs[0]).refCount[b] >= multiset(bs[1..])[b]
    {
      assert b in bs;
      assert multiset(bs)[b] == multiset(bs[1..])[b] + if b == bs[0] then 1 else 0;
      assert multiset(bs[1..])[b] >= 1;
    }
  }

  function ReleaseAll(p: Pool, bs: seq<nat>): (q: Pool)
    requires Releasable(p, bs)
    ensures q == p.(refCount := q.refCount, free := q.free)
    decreases |bs|
  {
    if bs == [] then p
    else
      ReleaseFirst(p, bs);
      ReleaseAll(Release(p, bs[0]), bs[1..])
  }

  function Allocate(p: Pool, id: nat, numTokens: nat, reuse: seq<nat>): (r: Result<Pool>)
    requires forall b :: b in reuse ==> b in p.refCount
  {
    var lacking := BlocksNeeded(p.blockSize, numTokens) - |reuse|;
    if id in p.tables then Err(AlreadyAllocated)
    else if lacking > |p.free| then Err(OutOfBlocks)
    else
      var (q, ids) := TakeBlocks(AddRefs(p, reuse), if lacking < 0 then 0 else lacking);
      Ok(q.(tables := q.tables[id := BlockTable(reuse + ids, numTokens)]))
  }

  function AppendToken(p: Pool, id: nat): Result<Pool>
    requires id in p.tables
  {
    var t := p.tables[id];
    if t.numTokens % p.blockSize == 0 then
      if p.free == [] then Err(OutOfBlocks)
      else
        var (q, b) := TakeBlock(p);
        Ok(q.(tables := q.tables[id := BlockTable(t.blockIds + [b], t.numTokens + 1)]))
    else
      Ok(p.(tables := p.tables[id := t.(numTokens := t.numTokens + 1)]))
  }

  function Reserve(p: Pool, id: nat, numNew: int): Result<Pool>
    requires id in p.tables
  {
    var t := p.tables[id];
    var have := |t.blockIds| * p.blockSize - t.numTokens;
    if numNew > have then
      var extra := BlocksNeeded(p.blockSize, numNew - have);
      if extra > |p.free| then Err(OutOfBlocks)
      else
        var (q, ids) := TakeBlocks(p, extra);
        Ok(q.(tables := q.tables[id := t.(blockIds := t.blockIds + ids)]))
    else Ok(p)
  }

  function Fork(p: Pool, parent: nat, child: nat): Pool
    requires parent in p.tables
    requires forall b :: b in p.tables[parent].blockIds ==> b in p.refCount
  {
    var q := AddRefs(p, p.tables[parent].blockIds);
    q.(tables := q.tables[child := p.tables[parent]])
  }

  function Kept(p: Pool, numTokens: nat): nat
  {
    BlocksNeeded(p.blockSize, numTokens)
  }

  function Dropped(p: Pool, id: nat, numTokens: nat): seq<nat>
    requires id in p.tables
  {
    var ids := p.tables[id].blockIds;
    if Kept(p, numTokens) <= |ids| then ids[Kept(p, numTokens)..] else []
  }

  function Truncate(p: Pool, id: nat, numTokens: nat): Pool
    requires id in p.tables && Releasable(p, Dropped(p, id, numTokens))
  {
    var ids := p.tables[id].blockIds;
    var q := ReleaseAll(p, Dropped(p, id, numTokens));
    var kept := if Kept(p, numTokens) <= |ids| then ids[..Kept(p, numTokens)] else ids;
    q.(tables := q.tables[id := BlockTable(kept, numTokens)])
  }

  // The engines set the length of a table they hold themselves.
  function SetLength(p: Pool, id: nat, n: nat): Pool
    requires id in p.tables
  {
    p.(tables := p.tables[id := p.tables[id].(numTokens := n)])
  }

  function Free(p: Pool, id: nat): Pool
    requires id in p.tables ==> Releasable(p, p.tables[id].blockIds)
  {
    if id !in p.tables then p
    else ReleaseAll(p.(tables := p.tables - {id}), p.tables[id].blockIds)
  }

  // Releasing touches no other block's count.
  lemma {:induction false} ReleaseAllOthers(p: Pool, bs: seq<nat>, b: nat)
    requires Releasable(p, bs) && b !in bs
    ensures Refs(ReleaseAll(p, bs).refCount, b) == Refs(p.refCount, b)
    decreases |bs|
  {
    if bs != [] {
      ReleaseFirst(p, bs);
      ReleaseAllOthers(Release(p, bs[0]), bs[1..], b);
    }
  }

  // ---------- exact reference accounting ----------

  // All references held by block tables.
  ghost function Holders(tables: map<nat, BlockTable>): multiset<nat>
    decreases |tables|
  {
    if tables == map[] then multiset{}
    else
      var id :| id in tables;
      multiset(tables[id].blockIds) + Holders(tables - {id})
  }

  // The choice made in `Holders` does not matter.
  lemma {:induction false} HoldersSplit(tables: map<nat, BlockTable>, id: nat)
    requires id in tables
    ensures Holders(tables) == multiset(tables[id].blockIds) + Holders(tables - {id})
    decreases |tables|
  {
    var k :| k in tables && Holders(tables) == multiset(tables[k].blockIds) + Holders(tables - {k});
    if k != id {
      var rest := tables - {k} - {id};
      assert rest == tables - {id} - {k};
      HoldersSplit(tables - {k}, id);
      HoldersSplit(tables - {id}, k);
      var mk, mi := multiset(tables[k].blockIds), multiset(tables[id].blockIds);
      assert mk + (mi + Holders(rest)) == mi + (mk + Holders(rest));
    }
  }

  lemma HoldersAdd(tables: map<nat, BlockTable>, id: nat, t: BlockTable)
    requires id !in tables
    ensures Holders(tables[id := t]) == Holders(tables) + multiset(t.blockIds)
  {
    HoldersSplit(tables[id := t], id);
    assert tables[id := t] - {id} == tables;
  }

  lemma HoldersUpdate(tables: map<nat, BlockTable>, id: nat, t: BlockTable)
    requires id in tables
    ensures forall b: nat {:trigger Holders(tables[id := t])[b]} ::
      Holders(tables[id := t])[b] + multiset(tables[id].blockIds)[b] == Holders(tables)[b] + multiset(t.blockIds)[b]
  {
    HoldersSplit(tables, id);
    HoldersSplit(tables[id := t], id);
    assert tables[id := t] - {id} == tables - {id};
  }

  function Refs(refCount: map<nat, nat>, b: nat): nat {
    if b in refCount then refCount[b] else 0
  }

  // Free blocks and counted blocks partition the pool.
  ghost predicate Partitioned(p: Pool) {
    && NoDup(p.free)
    && Elems(p.free) !! p.refCount.Keys
    && (forall b: nat :: b in Elems(p.free) || b in p.refCount <==> b < p.numBlocks)
    && (forall b :: b in p.refCount ==> p.refCount[b] >= 1)
  }

  /** The pool is partitioned and every count is exact: a block has as many references as there are
      occurrences of it in block tables plus `pins`, the references held elsewhere. */
  ghost predicate Accounted(p: Pool, pins: multiset<nat>) {
    && Partitioned(p)
    && Exact(p.refCount, Holders(p.tables) + pins)
  }

  ghost predicate Exact(refCount: map<nat, nat>, references: multiset<nat>) {
    forall b: nat {:trigger Refs(refCount, b)} {:trigger references[b]} :: Refs(refCount, b) == references[b]
  }

  lemma TakeOneAccounted(p: Pool, pins: multiset<nat>)
    requires Accounted(p, pins) && |p.free| > 0
    ensures Accounted(TakeBlock(p).0, pins + multiset{TakeBlock(p).1})
  {
    PopLast(p.free);
    var (q, b) := TakeBlock(p);
    assert q.refCount.Keys == p.refCount.Keys + {b};
    forall c: nat
      ensures Refs(q.refCount, c) == (Holders(q.tables) + (pins + multiset{b}))[c]
    {
      assert Refs(p.refCount, c) == (Holders(p.tables) + pins)[c];
    }
  }

  lemma {:induction false} TakeBlocksAccounted(p: Pool, n: nat, pins: multiset<nat>)
    requires Accounted(p, pins) && n <= |p.free|
    ensures Accounted(TakeBlocks(p, n).0, pins + multiset(TakeBlocks(p, n).1))
  {
    if n == 0 {
      assert pins + multiset([]) == pins;
    } else {
      TakeBlocksAccounted(p, n - 1, pins);
      var (q, ids) := TakeBlocks(p, n - 1);
      var b := q.free[|q.free| - 1];
      TakeOneAccounted(q, pins + multiset(ids));
      assert pins + multiset(ids + [b]) == pins + multiset(ids) + multiset{b};
    }
  }

  // The blocks taken are distinct and were free.
  lemma {:induction false} TakeBlocksDistinct(p: Pool, n: nat)
    requires NoDup(p.free) && n <= |p.free|
    ensures var (q, ids) := TakeBlocks(p, n);
      NoDup(q.free) && NoDup(ids) && Elems(ids) !! Elems(q.free) && Elems(p.free) == Elems(q.free) + Elems(ids)
  {
    if n > 0 {
      TakeBlocksDistinct(p, n - 1);
      var (q, ids) := TakeBlocks(p, n - 1);
      var b := q.free[|q.free| - 1];
      PopLast(q.free);
      PushLast(ids, b);
    }
  }

  // They come out with one reference each; other counts stay.
  lemma {:induction false} TakeBlocksRefs(p: Pool, n: nat, b: nat)
    requires n <= |p.free|
    ensures var (q, ids) := TakeBlocks(p, n);
      Refs(q.refCount, b) == if b in Elems(ids) then 1 else Refs(p.refCount, b)
  {
    if n > 0 {
      TakeBlocksRefs(p, n - 1, b);
      var (q, ids) := TakeBlocks(p, n - 1);
      PushLast(ids, q.free[|q.free| - 1]);
    }
  }

  lemma {:induction false} AddRefsAccounted(p: Pool, bs: seq<nat>, pins: multiset<nat>)
    requires Accounted(p, pins)
    requires forall b :: b in bs ==> b in p.refCount
    ensures Accounted(AddRefs(p, bs), pins + multiset(bs))
  {
    if bs != [] {
      var before: seq<nat>, b: nat := bs[..|bs| - 1], bs[|bs| - 1];
      AddRefsAccounted(p, before, pins);
      var q, r := AddRefs(p, before), AddRefs(p, bs);
      assert bs == before + [b];
      forall c: nat
        ensures Refs(r.refCount, c) == (Holders(r.tables) + (pins + multiset(bs)))[c]
      {
        assert Refs(q.refCount, c) == (Holders(q.tables) + (pins + multiset(before)))[c];
        assert multiset(bs)[c] == multiset(before)[c] + if c == b then 1 else 0;
      }
    }
  }

  lemma PinAccounted(p: Pool, b: nat, pins: multiset<nat>)
    requires Accounted(p, pins) && b in p.refCount
    ensures Accounted(AddRef(p, b), pins + multiset{b})
  {
    AddRefsAccounted(p, [b], pins);
    assert AddRefs(p, [b][..0]) == p;
    assert multiset([b]) == multiset{b};
  }

  lemma ReleaseAccounted(p: Pool, b: nat, pins: multiset<nat>)
    requires Accounted(p, pins + multiset{b})
    ensures b in p.refCount && p.refCount[b] > 0
    ensures Accounted(Release(p, b), pins)
  {
    assert Refs(p.refCount, b) == (Holders(p.tables) + (pins + multiset{b}))[b];
    PushLast(p.free, b);
    var q := Release(p, b);
    forall c: nat
      ensures Refs(q.refCount, c) == (Holders(q.tables) + pins)[c]
    {
      assert Refs(p.refCount, c) == (Holders(p.tables) + (pins + multiset{b}))[c];
    }
  }

  lemma AccountedReleasable(p: Pool, bs: seq<nat>, pins: multiset<nat>)
    requires Accounted(p, pins + multiset(bs))
    ensures Releasable(p, bs)
  {
    forall b | b in bs
      ensures b in p.refCount && p.refCount[b] >= multiset(bs)[b]
    {
      assert multiset(bs)[b] >= 1;
      assert Refs(p.refCount, b) >= multiset(bs)[b];
    }
  }

  lemma {:induction false} ReleaseAllAccounted(p: Pool, bs: seq<nat>, pins: multiset<nat>)
    requires Accounted(p, pins + multiset(bs))
    ensures Releasable(p, bs)
    ensures Accounted(ReleaseAll(p, bs), pins)
    decreases |bs|
  {
    AccountedReleasable(p, bs, pins);
    if bs != [] {
      assert bs == [bs[0]] + bs[1..];
      assert pins + multiset(bs) == pins + multiset(bs[1..]) + multiset{bs[0]};
      ReleaseAccounted(p, bs[0], pins + multiset(bs[1..]));
      ReleaseFirst(p, bs);
      ReleaseAllAccounted(Release(p, bs[0]), bs[1..], pins);
    } else {
      assert pins + multiset(bs) == pins;
    }
  }

  // References in hand become a table's references, and back.
  lemma TableIn(p: Pool, id: nat, t: BlockTable, pins: multiset<nat>)
    requires Accounted(p, pins + multiset(t.blockIds)) && id !in p.tables
    ensures Accounted(p.(tables := p.tables[id := t]), pins)
  {
    HoldersAdd(p.tables, id, t);
  }

  lemma TableOut(p: Pool, id: nat, pins: multiset<nat>)
    requires Accounted(p, pins) && id in p.tables
    ensures Accounted(p.(tables := p.tables - {id}), pins + multiset(p.tables[id].blockIds))
  {
    HoldersSplit(p.tables, id);
  }

  lemma TableSwap(p: Pool, id: nat, t: BlockTable, pins: multiset<nat>)
    requires id in p.tables
    requires Accounted(p, pins) && multiset(t.blockIds) == multiset(p.tables[id].blockIds)
    ensures Accounted(p.(tables := p.tables[id := t]), pins)
  {
    HoldersUpdate(p.tables, id, t);
    Repinned(p, p.(tables := p.tables[id := t]), pins, pins);
  }

  // Changing tables and pins together keeps the accounting when their sum does not change.
  lemma Repinned(p: Pool, q: Pool, pins: multiset<nat>, pins': multiset<nat>)
    requires Accounted(p, pins) && q == p.(tables := q.tables)
    requires forall b: nat :: Holders(p.tables)[b] + pins[b] == Holders(q.tables)[b] + pins'[b]
    ensures Accounted(q, pins')
  {
    forall c: nat
      ensures Refs(q.refCount, c) == (Holders(q.tables) + pins')[c]
    {
      assert Refs(p.refCount, c) == (Holders(p.tables) + pins)[c];
    }
  }

  // ---------- every operation keeps the accounting ----------

  lemma EmptyAccounted(numBlocks: nat, blockSize: pos)
    ensures Accounted(EmptyPool(numBlocks, blockSize), multiset{})
  {
    var p := EmptyPool(numBlocks, blockSize);
    forall b: nat
      ensures b in Elems(p.free) <==> b < numBlocks
    {
      assert b < numBlocks ==> p.free[b] == b;
    }
  }

  lemma AllocateAccounted(p: Pool, id: nat, numTokens: nat, reuse: seq<nat>, pins: multiset<nat>)
    requires Accounted(p, pins)
    requires forall b :: b in reuse ==> b in p.refCount
    ensures var r := Allocate(p, id, numTokens, reuse);
            r.Ok? ==> Accounted(r.value, pins)
  {
    var r := Allocate(p, id, numTokens, reuse);
    if r.Ok? {
      var lacking := BlocksNeeded(p.blockSize, numTokens) - |reuse|;
      AddRefsAccounted(p, reuse, pins);
      var n := if lacking < 0 then 0 else lacking;
      TakeBlocksAccounted(AddRefs(p, reuse), n, pins + multiset(reuse));
      var (q, ids) := TakeBlocks(AddRefs(p, reuse), n);
      assert multiset(reuse + ids) == multiset(reuse) + multiset(ids);
      assert pins + multiset(reuse) + multiset(ids) == pins + multiset(reuse + ids);
      TableIn(q, id, BlockTable(reuse + ids, numTokens), pins);
    }
  }

  // Blocks taken from the pool and appended to a table.
  lemma GrowAccounted(p: Pool, id: nat, n: nat, numTokens: nat, pins: multiset<nat>)
    requires Accounted(p, pins) && id in p.tables && n <= |p.free|
    ensures var (q, ids) := TakeBlocks(p, n);
            Accounted(q.(tables := q.tables[id := BlockTable(p.tables[id].blockIds + ids, numTokens)]), pins)
  {
    TakeBlocksAccounted(p, n, pins);
    var (q, ids) := TakeBlocks(p, n);
    var t := BlockTable(p.tables[id].blockIds + ids, numTokens);
    HoldersUpdate(q.tables, id, t);
    assert multiset(t.blockIds) == multiset(p.tables[id].blockIds) + multiset(ids);
    Repinned(q, q.(tables := q.tables[id := t]), pins + multiset(ids), pins);
  }

  lemma AppendBlockAccounted(p: Pool, id: nat, numTokens: nat, pins: multiset<nat>)
    requires id in p.tables && Accounted(p, pins) && p.free != []
    ensures var (q, b) := TakeBlock(p);
            Accounted(q.(tables := q.tables[id := BlockTable(p.tables[id].blockIds + [b], numTokens)]), pins)
  {
    var (q, b) := TakeBlock(p);
    TakeOneAccounted(p, pins);
    var t := BlockTable(p.tables[id].blockIds + [b], numTokens);
    HoldersUpdate(q.tables, id, t);
    assert multiset(t.blockIds) == multiset(p.tables[id].blockIds) + multiset{b};
    Repinned(q, q.(tables := q.tables[id := t]), pins + multiset{b}, pins);
  }

  lemma AppendTokenAccounted(p: Pool, id: nat, pins: multiset<nat>)
    requires id in p.tables && Accounted(p, pins)
    ensures AppendToken(p, id).Ok? ==> Accounted(AppendToken(p, id).value, pins)
  {
    var t := p.tables[id];
    if t.numTokens % p.blockSize == 0 {
      if p.free != [] {
        AppendBlockAccounted(p, id, t.numTokens + 1, pins);
      }
    } else {
      TableSwap(p, id, t.(numTokens := t.numTokens + 1), pins);
    }
  }

  lemma ReserveAccounted(p: Pool, id: nat, numNew: int, pins: multiset<nat>)
    requires id in p.tables && Accounted(p, pins)
    ensures Reserve(p, id, numNew).Ok? ==> Accounted(Reserve(p, id, numNew).value, pins)
  {
    hide Accounted;
    var t := p.tables[id];
    var have := |t.blockIds| * p.blockSize - t.numTokens;
    if numNew > have {
      var extra := BlocksNeeded(p.blockSize, numNew - have);
      if extra <= |p.free| {
        GrowAccounted(p, id, extra, t.numTokens, pins);
      }
    }
  }

  lemma TableReleasable(p: Pool, id: nat, pins: multiset<nat>)
    requires Accounted(p, pins) && id in p.tables
    ensures Releasable(p, p.tables[id].blockIds)
    ensures forall b :: b in p.tables[id].blockIds ==> b in p.refCount && b !in p.free && b < p.numBlocks
  {
    HoldersSplit(p.tables, id);
    forall b | b in p.tables[id].blockIds
      ensures b in p.refCount && p.refCount[b] >= multiset(p.tables[id].blockIds)[b]
    {
      assert multiset(p.tables[id].blockIds)[b] >= 1;
      assert Refs(p.refCount, b) >= multiset(p.tables[id].blockIds)[b];
    }
  }

  lemma FreeAccounted(p: Pool, id: nat, pins: multiset<nat>)
    requires Accounted(p, pins)
    ensures id in p.tables ==> Releasable(p, p.tables[id].blockIds)
    ensures Accounted(Free(p, id), pins)
  {
    if id in p.tables {
      TableReleasable(p, id, pins);
      TableOut(p, id, pins);
      ReleaseAllAccounted(p.(tables := p.tables - {id}), p.tables[id].blockIds, pins);
    }
  }

  lemma TruncateAccounted(p: Pool, id: nat, numTokens: nat, pins: multiset<nat>)
    requires id in p.tables && Accounted(p, pins)
    ensures Releasable(p, Dropped(p, id, numTokens))
    ensures Accounted(Truncate(p, id, numTokens), pins)
  {
    TableReleasable(p, id, pins);
    var ids := p.tables[id].blockIds;
    var gone := Dropped(p, id, numTokens);
    var kept := if Kept(p, numTokens) <= |ids| then ids[..Kept(p, numTokens)] else ids;
    assert ids == kept + gone;
    assert multiset(ids) == multiset(kept) + multiset(gone);
    var t := BlockTable(kept, numTokens);
    var handed := p.(tables := p.tables[id := t]);
    HoldersUpdate(p.tables, id, t);
    Repinned(p, handed, pins, pins + multiset(gone));
    ReleaseAllAccounted(handed, gone, pins);
    AccountedReleasable(handed, gone, pins);
    ReleaseAllIgnoresTables(p, gone, handed.tables);
  }

  lemma {:induction false} ReleaseAllIgnoresTables(p: Pool, bs: seq<nat>, tables: map<nat, BlockTable>)
    requires Releasable(p, bs)
    ensures Releasable(p.(tables := tables), bs)
    ensures ReleaseAll(p.(tables := tables), bs) == ReleaseAll(p, bs).(tables := tables)
    decreases |bs|
  {
    if bs != [] {
      ReleaseFirst(p, bs);
      ReleaseFirst(p.(tables := tables), bs);
      ReleaseAllIgnoresTables(Release(p, bs[0]), bs[1..], tables);
      assert Release(p.(tables := tables), bs[0]) == Release(p, bs[0]).(tables := tables);
    }
  }

  // `fork` overwrites whatever table the child id had.  The accounting survives exactly when that
  // loses no reference: the child id is lacking, or its old table is empty.
  lemma ForkAccountedIff(p: Pool, parent: nat, child: nat, pins: multiset<nat>)
    requires Accounted(p, pins) && parent in p.tables
    ensures forall b :: b in p.tables[parent].blockIds ==> b in p.refCount
    ensures Accounted(Fork(p, parent, child), pins)
            <==> child !in p.tables || p.tables[child].blockIds == []
  {
    TableReleasable(p, parent, pins);
    var ids := p.tables[parent].blockIds;
    AddRefsAccounted(p, ids, pins);
    var q := AddRefs(p, ids);
    if child !in p.tables {
      TableIn(q, child, p.tables[parent], pins);
    } else {
      var f := Fork(p, parent, child);
      var lost := multiset(p.tables[child].blockIds);
      HoldersUpdate(q.tables, child, p.tables[parent]);
      Repinned(q, f, pins + multiset(ids), pins + lost);
      if p.tables[child].blockIds == [] {
        assert pins + lost == pins;
      } else {
        var b := p.tables[child].blockIds[0];
        assert lost[b] > 0;
        assert Refs(f.refCount, b) == (Holders(f.tables) + (pins + lost))[b];
        assert (Holders(f.tables) + (pins + lost))[b] > (Holders(f.tables) + pins)[b];
      }
    }
  }

  // ---------- what is free ----------

  lemma FreeAndCounted(p: Pool)
    requires Partitioned(p)
    ensures |p.free| + |p.refCount.Keys| == p.numBlocks
  {
    ElemsCount(p.free);
    assert Elems(p.free) + p.refCount.Keys == Below(p.numBlocks);
  }

  lemma PartitionCount(p: Pool, ids: seq<nat>)
    requires Partitioned(p) && NoDup(ids) && forall b :: b in p.refCount <==> b in Elems(ids)
    ensures |p.free| + |ids| == p.numBlocks
  {
    ElemsCount(p.free);
    ElemsCount(ids);
    assert Elems(p.free) + Elems(ids) == Below(p.numBlocks);
    assert Elems(p.free) !! Elems(ids);
  }

  lemma AllFree(p: Pool)
    requires Accounted(p, multiset{}) && p.tables == map[]
    ensures |p.free| == p.numBlocks
  {
    forall b: nat
      ensures b !in p.refCount
    {
      assert Refs(p.refCount, b) == (Holders(p.tables) + multiset{})[b] == 0;
    }
    PartitionCount(p, []);
  }
}
