// A sequence's keys and values outside the paged pool: one contiguous row per layer, as exported for
// another process or another engine and imported into whatever blocks are allocated there.
module Portable {
  import opened Wrappers
  import opened Reference
  import opened PagedStore
  import opened RaggedForward
  import opened SingleSequence

  type PortableKv = seq<seq<KV>>

  // How many tokens it covers.
  function Covered(kv: PortableKv): nat {
    if kv == [] then 0 else |kv[0]|
  }

  predicate Rectangular(kv: PortableKv, layers: nat, n: nat) {
    |kv| == layers && forall l :: 0 <= l < |kv| ==> |kv[l]| == n
  }

  // What the reference computes for the tokens.
  function PortableOf(net: Net, toks: seq<int>): (kv: PortableKv)
    ensures Rectangular(kv, |net.layers|, |toks|)
  {
    seq(|net.layers|, l requires 0 <= l < |net.layers| => KvRows(net, toks, l))
  }

  ghost predicate SlotsExist(store: Store, bs: pos, ids: seq<nat>, n: nat) {
    Fits(bs, ids, n) && forall l :: 0 <= l < |store| ==> Within(ContextSlots(bs, ids, n), |store[l]|)
  }

  function Export(store: Store, bs: pos, ids: seq<nat>, n: nat): (kv: PortableKv)
    requires SlotsExist(store, bs, ids, n)
    ensures Rectangular(kv, |store|, n)
  {
    seq(|store|, l requires 0 <= l < |store| => Gather(store[l], ContextSlots(bs, ids, n)))
  }

  function Import(store: Store, bs: pos, ids: seq<nat>, kv: PortableKv): (store': Store)
    requires Rectangular(kv, |store|, Covered(kv)) && SlotsExist(store, bs, ids, Covered(kv))
    ensures |store'| == |store| && forall l :: 0 <= l < |store| ==> |store'[l]| == |store[l]|
  {
    seq(|store|, l requires 0 <= l < |store| => Scatter(store[l], ContextSlots(bs, ids, Covered(kv)), kv[l]))
  }

  // ---------- round trips ----------

  lemma ExportIsRef(net: Net, store: Store, bs: pos, ids: seq<nat>, toks: seq<int>)
    requires Holds(net, store, bs, ids, toks)
    ensures SlotsExist(store, bs, ids, |toks|)
    ensures Export(store, bs, ids, |toks|) == PortableOf(net, toks)
  {
    forall l | 0 <= l < |store|
      ensures Within(ContextSlots(bs, ids, |toks|), |store[l]|)
    {
      forall j | 0 <= j < |toks|
        ensures ContextSlots(bs, ids, |toks|)[j] < |store[l]|
      {
        assert ContextSlots(bs, ids, |toks|)[j] == Slot(bs, ids, j);
      }
    }
    forall l | 0 <= l < |store|
      ensures Export(store, bs, ids, |toks|)[l] == KvRows(net, toks, l)
    {
    }
  }

  // Distinct blocks give distinct slots.
  lemma ContextSlotsDistinct(bs: pos, ids: seq<nat>, n: nat)
    requires Fits(bs, ids, n) && DistinctFrom(ids, 0)
    ensures NoDup(ContextSlots(bs, ids, n))
  {
    forall j, j' | 0 <= j < j' < n
      ensures Slot(bs, ids, j) != Slot(bs, ids, j')
    {
      SameSlot(bs, ids, j, ids, j');
      SamePosition(bs, j, j');
    }
  }

  /** Importing the reference's keys and values into distinct blocks makes them hold the tokens, wherever
      those blocks are, and touches nothing else. */
  lemma ImportHolds(net: Net, store: Store, bs: pos, width: nat, ids: seq<nat>, toks: seq<int>)
    requires Shape(net, store, width) && OneOk(net, store, bs, width, ids, toks, 0) && DistinctFrom(ids, 0)
    requires Covered(PortableOf(net, toks)) == |toks|
    ensures SlotsExist(store, bs, ids, |toks|)
    ensures var store' := Import(store, bs, ids, PortableOf(net, toks));
      Shape(net, store', width) && Holds(net, store', bs, ids, toks) &&
        Untouched(store, store', ContextSlots(bs, ids, |toks|))
  {
    var kv, slots := PortableOf(net, toks), ContextSlots(bs, ids, |toks|);
    forall l | 0 <= l < |store|
      ensures Within(slots, |store[l]|)
    {
    }
    ContextSlotsDistinct(bs, ids, |toks|);
    var store' := Import(store, bs, ids, kv);
    forall l | 0 <= l < |store|
      ensures forall j :: 0 <= j < |toks| ==> store'[l][slots[j]] == KvRows(net, toks, l)[j]
      ensures forall s :: 0 <= s < |store[l]| && s !in slots ==> store'[l][s] == store[l][s]
    {
      ScatterAt(store[l], slots, kv[l]);
      ScatterElsewhere(store[l], slots, kv[l]);
    }
    forall l, j | 0 <= l < |store'| && 0 <= j < |toks|
      ensures store'[l][Slot(bs, ids, j)] == KvRows(net, toks, l)[j]
    {
      assert slots[j] == Slot(bs, ids, j);
    }
  }

  // Any contiguous cache comes back as it was imported.
  lemma ExportOfImport(store: Store, bs: pos, ids: seq<nat>, kv: PortableKv)
    requires Rectangular(kv, |store|, Covered(kv)) && SlotsExist(store, bs, ids, Covered(kv)) && DistinctFrom(ids, 0)
    ensures SlotsExist(Import(store, bs, ids, kv), bs, ids, Covered(kv))
    ensures Export(Import(store, bs, ids, kv), bs, ids, Covered(kv)) == kv
  {
    var n := Covered(kv);
    var store', slots := Import(store, bs, ids, kv), ContextSlots(bs, ids, n);
    ContextSlotsDistinct(bs, ids, n);
    forall l | 0 <= l < |store|
      ensures Within(slots, |store'[l]|) && Export(store', bs, ids, n)[l] == kv[l]
    {
      ScatterAt(store[l], slots, kv[l]);
      assert forall j :: 0 <= j < n ==> Gather(store'[l], slots)[j] == kv[l][j];
    }
  }
}
