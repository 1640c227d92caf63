// The storage behind the block tables.
module KVCache {
  import opened Wrappers
  import opened Reference
  import opened PagedStore
  import opened Portable
  import opened BlockAllocator
  import BlockPool

  /** The pool tensors of all layers: row l, slot s holds the key and value layer l cached there. */
  class PagedKVCache {
    const numLayers: nat
    const numBlocks: nat
    const blockSize: pos
    const kv: array2<KV>
    const manager: BlockManager

    ghost predicate Valid() {
      && kv.Length0 == numLayers
      && kv.Length1 == numBlocks * blockSize
      && manager.numBlocks == numBlocks
      && manager.blockSize == blockSize
    }

    function Row(l: nat): (row: seq<KV>)
      reads kv
      requires l < kv.Length0
      ensures |row| == kv.Length1
    {
      seq(kv.Length1, s requires 0 <= s < kv.Length1 && l < kv.Length0 reads kv => kv[l, s])
    }

    ghost function Contents(): (store: Store)
      reads kv
      ensures |store| == kv.Length0 && forall l :: 0 <= l < |store| ==> |store[l]| == kv.Length1
    {
      seq(kv.Length0, l requires 0 <= l < kv.Length0 reads kv => Row(l))
    }

    constructor (numLayers: nat, numBlocks: nat, blockSize: pos)
      ensures Valid() && fresh(kv) && fresh(manager)
      ensures this.numLayers == numLayers && this.numBlocks == numBlocks && this.blockSize == blockSize
      ensures manager.State() == BlockPool.EmptyPool(numBlocks, blockSize)
    {
      this.numLayers, this.numBlocks, this.blockSize := numLayers, numBlocks, blockSize;
      kv := new KV[numLayers, numBlocks * blockSize]((l, s) => KV([], []));
      manager := new BlockManager(numBlocks, blockSize);
    }

    method Put(l: nat, s: nat, x: KV)
      requires l < kv.Length0 && s < kv.Length1
      modifies kv
      ensures Contents() == old(Contents())[l := old(Contents())[l][s := x]]
    {
      ghost var before := Contents();
      kv[l, s] := x;
      forall m | 0 <= m < kv.Length0
        ensures Contents()[m] == before[l := before[l][s := x]][m]
      {
        assert Row(m) == if m == l then before[m][s := x] else before[m];
      }
    }

    method Write(l: nat, slots: seq<nat>, kvs: seq<KV>)
      requires l < kv.Length0 && |slots| == |kvs| && Within(slots, kv.Length1)
      modifies kv
      ensures Contents() == old(Contents())[l := Scatter(old(Contents())[l], slots, kvs)]
    {
      ghost var before := Contents();
      for i := 0 to |slots|
        invariant Contents() == before[l := Scatter(before[l], slots[..i], kvs[..i])]
      {
        assert slots[..i + 1][..i] == slots[..i] && kvs[..i + 1][..i] == kvs[..i];
        Put(l, slots[i], kvs[i]);
      }
      assert slots[..|slots|] == slots && kvs[..|kvs|] == kvs;
    }

    // Gathers layer l at the given slots.
    method GatherSlots(l: nat, slots: seq<nat>) returns (out: seq<KV>)
      requires l < kv.Length0 && Within(slots, kv.Length1)
      ensures out == Gather(Contents()[l], slots)
    {
      out := Gather(Row(l), slots);
    }

    // Gathers a sequence's first n tokens, all layers, into contiguous rows.
    method ExportContiguous(ids: seq<nat>, n: nat) returns (out: PortableKv)
      requires SlotsExist(Contents(), blockSize, ids, n)
      ensures out == Export(Contents(), blockSize, ids, n)
    {
      var slots := ContextSlots(blockSize, ids, n);
      out := [];
      for l := 0 to kv.Length0
        invariant out == Export(Contents(), blockSize, ids, n)[..l]
      {
        assert Within(slots, |Contents()[l]|);
        var row := GatherSlots(l, slots);
        out := out + [row];
      }
    }

    // Scatters contiguous rows into the blocks of another sequence.
    method ImportContiguous(ids: seq<nat>, rows: PortableKv)
      requires Rectangular(rows, kv.Length0, Covered(rows)) && SlotsExist(Contents(), blockSize, ids, Covered(rows))
      modifies kv
      ensures Contents() == Import(old(Contents()), blockSize, ids, rows)
    {
      hide Scatter, Within, Fits;
      ghost var before := Contents();
      ghost var after := Import(before, blockSize, ids, rows);
      var slots := ContextSlots(blockSize, ids, Covered(rows));
      for l := 0 to kv.Length0
        invariant Contents() == after[..l] + before[l..]
      {
        assert Within(slots, |before[l]|) && Contents()[l] == before[l];
        ghost var mid := Contents();
        Write(l, slots, rows[l]);
        assert Contents() == mid[l := after[l]];
        NextLayer(after, before, l);
      }
    }
  }

  lemma NextLayer(after: Store, before: Store, l: nat)
    requires l < |before| == |after|
    ensures (after[..l] + before[l..])[l := after[l]] == after[..l + 1] + before[l + 1..]
  {
  }
}
