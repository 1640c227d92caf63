// The paged KV pool as a value: one row of slots per layer.  A token position of a sequence lives in
// slot `block * blockSize + offset` of the block its table names.
module PagedStore {
  import opened Wrappers
  import opened Reference

  type Store = seq<seq<KV>>

  function BlockIndex(bs: pos, j: nat): nat {
    j / bs
  }

  // The block table `ids` has a block for each of the first n token positions.
  ghost predicate Fits(bs: pos, ids: seq<nat>, n: nat) {
    forall j: nat :: j < n ==> BlockIndex(bs, j) < |ids|
  }

  // The flat slot of one offset of one physical block.
  function Cell(bs: pos, block: nat, offset: nat): nat {
    block * bs + offset
  }

  function Slot(bs: pos, ids: seq<nat>, j: nat): nat
    requires BlockIndex(bs, j) < |ids|
  {
    Cell(bs, ids[BlockIndex(bs, j)], j % bs)
  }

  function SlotsFor(bs: pos, ids: seq<nat>, from: nat, to: nat): (slots: seq<nat>)
    requires from <= to && Fits(bs, ids, to)
    ensures |slots| == to - from
  {
    seq<nat>(to - from, i requires 0 <= i < to - from => Slot(bs, ids, from + i))
  }

  function ContextSlots(bs: pos, ids: seq<nat>, n: nat): (slots: seq<nat>)
    requires Fits(bs, ids, n)
    ensures |slots| == n
  {
    SlotsFor(bs, ids, 0, n)
  }

  ghost predicate Within(slots: seq<nat>, width: nat) {
    forall i :: 0 <= i < |slots| ==> slots[i] < width
  }

  function Gather(row: seq<KV>, slots: seq<nat>): (kvs: seq<KV>)
    requires Within(slots, |row|)
    ensures |kvs| == |slots|
  {
    seq(|slots|, i requires 0 <= i < |slots| => row[slots[i]])
  }

  // Writes in order; a later write to the same slot wins.
  function Scatter(row: seq<KV>, slots: seq<nat>, kvs: seq<KV>): (out: seq<KV>)
    requires |slots| == |kvs| && Within(slots, |row|)
    ensures |out| == |row|
  {
    var n := |slots|;
    if n == 0 then row
    else Scatter(row, slots[..n - 1], kvs[..n - 1])[slots[n - 1] := kvs[n - 1]]
  }

  lemma {:induction false} ScatterAt(row: seq<KV>, slots: seq<nat>, kvs: seq<KV>)
    requires |slots| == |kvs| && Within(slots, |row|)
    requires NoDup(slots)
    ensures forall i :: 0 <= i < |slots| ==> Scatter(row, slots, kvs)[slots[i]] == kvs[i]
  {
    if |slots| > 0 {
      ScatterAt(row, slots[..|slots| - 1], kvs[..|slots| - 1]);
    }
  }

  lemma {:induction false} ScatterElsewhere(row: seq<KV>, slots: seq<nat>, kvs: seq<KV>)
    requires |slots| == |kvs| && Within(slots, |row|)
    ensures forall s :: 0 <= s < |row| && s !in slots ==> Scatter(row, slots, kvs)[s] == row[s]
  {
    if |slots| > 0 {
      ScatterElsewhere(row, slots[..|slots| - 1], kvs[..|slots| - 1]);
    }
  }

  // ---------- slot arithmetic ----------

  lemma FitsIff(bs: pos, ids: seq<nat>, n: nat)
    ensures Fits(bs, ids, n) <==> n <= |ids| * bs
  {
    if n > 0 && Fits(bs, ids, n) {
      assert BlockIndex(bs, n - 1) < |ids|;
      DivBound(bs, |ids|, n - 1);
    } else if n <= |ids| * bs {
      forall j: nat | j < n
        ensures BlockIndex(bs, j) < |ids|
      {
        DivBound(bs, |ids|, j);
      }
    }
  }

  lemma DivBound(bs: pos, n: nat, j: nat)
    ensures j / bs < n <==> j < n * bs
  {
    assert j == (j / bs) * bs + j % bs;
    if j / bs < n {
      assert (j / bs + 1) * bs <= n * bs;
    } else {
      assert (j / bs) * bs >= n * bs;
    }
  }

  lemma SlotsDiffer(bs: pos, b: nat, o: nat, b': nat, o': nat)
    requires o < bs && o' < bs
    ensures Cell(bs, b, o) == Cell(bs, b', o') <==> b == b' && o == o'
  {
    if b < b' {
      assert (b + 1) * bs <= b' * bs;
    } else if b' < b {
      assert (b' + 1) * bs <= b * bs;
    }
  }

  lemma SlotInRange(bs: pos, numBlocks: nat, b: nat, o: nat)
    requires b < numBlocks && o < bs
    ensures Cell(bs, b, o) < numBlocks * bs
  {
    assert (b + 1) * bs <= numBlocks * bs;
  }

  // Two positions share a slot only if they sit at the same offset of the same physical block.
  lemma SameSlot(bs: pos, ids: seq<nat>, j: nat, ids': seq<nat>, j': nat)
    requires BlockIndex(bs, j) < |ids| && BlockIndex(bs, j') < |ids'|
    ensures Slot(bs, ids, j) == Slot(bs, ids', j')
            <==> ids[BlockIndex(bs, j)] == ids'[BlockIndex(bs, j')] && j % bs == j' % bs
  {
    SlotsDiffer(bs, ids[BlockIndex(bs, j)], j % bs, ids'[BlockIndex(bs, j')], j' % bs);
  }

  lemma SamePosition(bs: pos, j: nat, j': nat)
    ensures j == j' <==> BlockIndex(bs, j) == BlockIndex(bs, j') && j % bs == j' % bs
  {
    assert j == (j / bs) * bs + j % bs;
    assert j' == (j' / bs) * bs + j' % bs;
  }

  // ---------- what it means for the cache to hold a sequence ----------

  ghost predicate Shape(net: Net, store: Store, width: nat) {
    |store| == |net.layers| && forall l :: 0 <= l < |store| ==> |store[l]| == width
  }

  /** The slots named by block table `ids` hold exactly the keys and values the reference computes for
      `toks`, in every layer. */
  ghost predicate Holds(net: Net, store: Store, bs: pos, ids: seq<nat>, toks: seq<int>) {
    && |store| == |net.layers|
    && Fits(bs, ids, |toks|)
    && (forall l, j :: 0 <= l < |store| && 0 <= j < |toks| ==> Slot(bs, ids, j) < |store[l]|)
    && (forall l, j :: 0 <= l < |store| && 0 <= j < |toks| ==>
          store[l][Slot(bs, ids, j)] == KvRows(net, toks, l)[j])
  }

  lemma HoldsPrefix(net: Net, store: Store, bs: pos, ids: seq<nat>, toks: seq<int>, n: nat)
    requires Holds(net, store, bs, ids, toks) && n <= |toks|
    ensures Holds(net, store, bs, ids, toks[..n])
  {
    forall l, j | 0 <= l < |store| && 0 <= j < n
      ensures store[l][Slot(bs, ids, j)] == KvRows(net, toks[..n], l)[j]
    {
      CausalKv(net, toks, n, l);
    }
  }

  // Growing a block table at its end does not move what it holds.
  lemma HoldsMoreBlocks(net: Net, store: Store, bs: pos, ids: seq<nat>, more: seq<nat>, toks: seq<int>)
    requires Holds(net, store, bs, ids, toks)
    ensures Holds(net, store, bs, ids + more, toks)
  {
    forall j | 0 <= j < |toks|
      ensures BlockIndex(bs, j) < |ids| && Slot(bs, ids + more, j) == Slot(bs, ids, j)
    {
    }
  }

  lemma HoldsFewerBlocks(net: Net, store: Store, bs: pos, ids: seq<nat>, keep: nat, toks: seq<int>)
    requires Holds(net, store, bs, ids, toks) && keep <= |ids| && |toks| <= keep * bs
    ensures Holds(net, store, bs, ids[..keep], toks)
  {
    FitsIff(bs, ids[..keep], |toks|);
    forall j | 0 <= j < |toks|
      ensures BlockIndex(bs, j) < keep && Slot(bs, ids[..keep], j) == Slot(bs, ids, j)
    {
    }
  }
}
