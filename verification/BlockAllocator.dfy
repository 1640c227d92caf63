// The allocator as an object; every method is tied to its specification function on `Pool`.
module BlockAllocator {
  import opened Wrappers
  import opened BlockPool

  class BlockManager {
    const numBlocks: nat
    const blockSize: pos
    var free: seq<nat>
    var refCount: map<nat, nat>
    var tables: map<nat, BlockTable>

    function State(): Pool
      reads this
    {
      Pool(numBlocks, blockSize, free, refCount, tables)
    }

    constructor (numBlocks: nat, blockSize: pos)
      ensures State() == EmptyPool(numBlocks, blockSize)
    {
      this.numBlocks, this.blockSize := numBlocks, blockSize;
      free := seq(numBlocks, i => i);
      refCount, tables := map[], map[];
    }

    method AllocBlock() returns (b: nat)
      requires free != []
      modifies this
      ensures (State(), b) == TakeBlock(old(State()))
    {
      b := free[|free| - 1];
      free := free[..|free| - 1];
      refCount := refCount[b := 1];
    }

    method AllocBlocks(n: nat) returns (ids: seq<nat>)
      requires n <= |free|
      modifies this
      ensures (State(), ids) == TakeBlocks(old(State()), n)
    {
      ids := [];
      for i := 0 to n
        invariant (State(), ids) == TakeBlocks(old(State()), i)
      {
        var b := AllocBlock();
        ids := ids + [b];
      }
    }

    method Allocate(id: nat, numTokens: nat, reuse: seq<nat>) returns (r: Result<BlockTable>)
      requires forall b :: b in reuse ==> b in refCount
      modifies this
      ensures match BlockPool.Allocate(old(State()), id, numTokens, reuse)
              case Ok(q) => State() == q && r == Ok(q.tables[id])
              case Err(e) => State() == old(State()) && r == Err(e)
    {
      if id in tables {
        return Err(AlreadyAllocated);
      }
      var lacking := BlocksNeeded(blockSize, numTokens) - |reuse|;
      if lacking > |free| {
        return Err(OutOfBlocks);
      }
      for i := 0 to |reuse|
        invariant State() == AddRefs(old(State()), reuse[..i])
      {
        assert reuse[..i + 1][..i] == reuse[..i];
        refCount := refCount[reuse[i] := refCount[reuse[i]] + 1];
      }
      assert reuse[..|reuse|] == reuse;
      var ids := AllocBlocks(if lacking < 0 then 0 else lacking);
      tables := tables[id := BlockTable(reuse + ids, numTokens)];
      r := Ok(tables[id]);
    }

    // ---------- explicit references (the prefix cache pins blocks itself) ----------

    method AddRef(b: nat)
      requires b in refCount
      modifies this
      ensures State() == BlockPool.AddRef(old(State()), b)
    {
      refCount := refCount[b := refCount[b] + 1];
    }

    method Release(b: nat)
      requires b in refCount && refCount[b] > 0
      modifies this
      ensures State() == BlockPool.Release(old(State()), b)
    {
      refCount := refCount[b := refCount[b] - 1];
      if refCount[b] == 0 {
        refCount := refCount - {b};
        assert refCount == old(refCount) - {b};
        free := free + [b];
      }
    }

    method ReleaseEach(bs: seq<nat>)
      requires Releasable(State(), bs)
      modifies this
      ensures State() == ReleaseAll(old(State()), bs)
    {
      var i := 0;
      while i < |bs|
        invariant 0 <= i <= |bs|
        invariant Releasable(State(), bs[i..])
        invariant ReleaseAll(State(), bs[i..]) == ReleaseAll(old(State()), bs)
      {
        ReleaseFirst(State(), bs[i..]);
        assert bs[i..][1..] == bs[i + 1..];
        Release(bs[i]);
        i := i + 1;
      }
    }

    // ---------- growing, rolling back and freeing a sequence ----------

    method AppendToken(id: nat) returns (r: Result<(nat, nat)>)
      requires id in tables
      requires tables[id].numTokens % blockSize == 0 || tables[id].numTokens < |tables[id].blockIds| * blockSize
      requires tables[id].numTokens <= |tables[id].blockIds| * blockSize
      modifies this
      ensures match BlockPool.AppendToken(old(State()), id)
              case Ok(q) =>
                State() == q && r == Ok((q.tables[id].blockIds[old(tables[id].numTokens) / blockSize],
                                         old(tables[id].numTokens) % blockSize))
              case Err(e) => State() == old(State()) && r == Err(e)
    {
      var t := tables[id];
      if t.numTokens % blockSize == 0 {
        if free == [] {
          return Err(OutOfBlocks);
        }
        var b := AllocBlock();
        t := t.(blockIds := t.blockIds + [b]);
      }
      r := Ok((t.blockIds[t.numTokens / blockSize], t.numTokens % blockSize));
      tables := tables[id := t.(numTokens := t.numTokens + 1)];
    }

    method Reserve(id: nat, numNew: int) returns (r: Result<()>)
      requires id in tables
      modifies this
      ensures match BlockPool.Reserve(old(State()), id, numNew)
              case Ok(q) => State() == q && r == Ok(())
              case Err(e) => State() == old(State()) && r == Err(e)
    {
      var t := tables[id];
      var have := |t.blockIds| * blockSize - t.numTokens;
      if numNew > have {
        var extra := BlocksNeeded(blockSize, numNew - have);
        if extra > |free| {
          return Err(OutOfBlocks);
        }
        var ids := AllocBlocks(extra);
        tables := tables[id := t.(blockIds := t.blockIds + ids)];
      }
      r := Ok(());
    }

    method Fork(parent: nat, child: nat)
      requires parent in tables
      requires forall b :: b in tables[parent].blockIds ==> b in refCount
      modifies this
      ensures State() == BlockPool.Fork(old(State()), parent, child)
    {
      var shared := tables[parent].blockIds;
      for i := 0 to |shared|
        invariant State() == AddRefs(old(State()), shared[..i])
      {
        assert shared[..i + 1][..i] == shared[..i];
        AddRef(shared[i]);
      }
      assert shared[..|shared|] == shared;
      tables := tables[child := tables[parent]];
    }

    method Truncate(id: nat, numTokens: nat)
      requires id in tables && Releasable(State(), Dropped(State(), id, numTokens))
      modifies this
      ensures State() == BlockPool.Truncate(old(State()), id, numTokens)
    {
      var ids := tables[id].blockIds;
      var keep := BlocksNeeded(blockSize, numTokens);
      ReleaseEach(if keep <= |ids| then ids[keep..] else []);
      tables := tables[id := BlockTable(if keep <= |ids| then ids[..keep] else ids, numTokens)];
    }

    // Sets the logical length, as the engines do on the table they hold.
    method SetNumTokens(id: nat, numTokens: nat)
      requires id in tables
      modifies this
      ensures State() == old(State()).(tables := old(tables)[id := old(tables)[id].(numTokens := numTokens)])
    {
      tables := tables[id := tables[id].(numTokens := numTokens)];
    }

    method Free(id: nat)
      requires id in tables ==> Releasable(State(), tables[id].blockIds)
      modifies this
      ensures State() == BlockPool.Free(old(State()), id)
    {
      if id !in tables {
        return;
      }
      var ids := tables[id].blockIds;
      var without := tables - {id};
      ReleaseAllIgnoresTables(State(), ids, without);
      tables := without;
      ReleaseEach(ids);
    }
  }
}
