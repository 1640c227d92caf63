// Handing a prompt from one model to another: the source's cache is mapped into the target's layout and
// the target is admitted with it.
module Escalation {
  import opened Wrappers
  import opened Reference
  import opened BlockPool
  import opened PagedStore
  import opened SingleSequence
  import opened Softmax
  import opened KVCache
  import opened ModelRunner
  import opened Seating
  import opened Sampling
  import opened Portable
  import opened Transfer
  import opened Disaggregated
  import opened Decoding
  import opened RaggedForward
  import opened SchedulerState
  import opened SchedulerInvariant
  import opened SchedulerStep
  import opened SchedulerBatch
  import opened SchedulerRuns

  datatype CrossMap = CrossMap(keys: seq<LayerMap>, values: seq<LayerMap>, numHeads: nat, headDim: nat,
    gelu: real -> real)

  // What the constructor checks of the geometry.
  ghost predicate Mappable(m: LayerMap, sourceLayers: nat, kvDim: nat) {
    && (forall s :: s in m.sourceLayers ==> s < sourceLayers)
    && |m.bias| == kvDim
    && (match m.weight
        case Dense(w) => |w| == |m.sourceLayers| * kvDim
        case Factors(left, right) =>
          |left| == |m.sourceLayers| * kvDim && forall i :: 0 <= i < |left| ==> |left[i]| == |right|)
  }

  ghost predicate Fits(cm: CrossMap, sourceLayers: nat, targetLayers: nat) {
    && |cm.keys| == |cm.values| == targetLayers
    && (forall l :: 0 <= l < targetLayers ==>
          Mappable(cm.keys[l], sourceLayers, cm.numHeads * cm.headDim) &&
            Mappable(cm.values[l], sourceLayers, cm.numHeads * cm.headDim))
  }

  // ---------- mapping a contiguous cache ----------

  function EachHead(heads: Heads, f: Vec -> Vec): (out: Heads)
    ensures |out| == |heads|
  {
    seq(|heads|, i requires 0 <= i < |heads| => f(heads[i]))
  }

  function Strip(rope: Rope): Vec -> Vec {
    (x: Vec) => StripRope(x, rope)
  }

  function Rotate(rope: Rope): Vec -> Vec {
    (x: Vec) => ApplyRope(x, rope)
  }

  // Position-free keys of one layer.
  function ContentRow(row: seq<KV>, ropes: seq<Rope>): (content: seq<Heads>)
    requires |ropes| == |row|
    ensures |content| == |row|
  {
    seq(|row|, t requires 0 <= t < |row| => EachHead(row[t].key, Strip(ropes[t])))
  }

  function ValueRow(row: seq<KV>): (values: seq<Heads>)
    ensures |values| == |row|
  {
    seq(|row|, t requires 0 <= t < |row| => row[t].value)
  }

  function Selected(rows: seq<seq<Heads>>, layers: seq<nat>, t: nat): (out: seq<Heads>)
    requires (forall s :: s in layers ==> s < |rows|) && forall l :: 0 <= l < |rows| ==> t < |rows[l]|
    ensures |out| == |layers|
  {
    seq(|layers|, i requires 0 <= i < |layers| => assert layers[i] in layers; rows[layers[i]][t])
  }

  function MappedRow(cm: CrossMap, m: LayerMap, rows: seq<seq<Heads>>, n: nat, useResidual: bool): (out: seq<Heads>)
    requires (forall s :: s in m.sourceLayers ==> s < |rows|) && forall l :: 0 <= l < |rows| ==> |rows[l]| == n
    ensures |out| == n
  {
    seq(n, t requires 0 <= t < n =>
      ViewHeads(ApplyMap(m, cm.gelu, Design(Selected(rows, m.sourceLayers, t)), useResidual), cm.numHeads, cm.headDim))
  }

  function Rotated(rows: seq<Heads>, ropes: seq<Rope>): (out: seq<Heads>)
    requires |ropes| == |rows|
    ensures |out| == |rows|
  {
    seq(|rows|, t requires 0 <= t < |rows| => EachHead(rows[t], Rotate(ropes[t])))
  }

  function Paired(keys: seq<Heads>, values: seq<Heads>): (row: seq<KV>)
    requires |keys| == |values|
    ensures |row| == |keys|
  {
    seq(|keys|, t requires 0 <= t < |keys| => KV(keys[t], values[t]))
  }

  function Contents(kv: PortableKv, ropes: seq<Rope>): (content: seq<seq<Heads>>)
    requires forall l :: 0 <= l < |kv| ==> |kv[l]| == |ropes|
    ensures |content| == |kv| && forall l :: 0 <= l < |kv| ==> |content[l]| == |ropes|
  {
    seq(|kv|, l requires 0 <= l < |kv| => ContentRow(kv[l], ropes))
  }

  function ValueRows(kv: PortableKv, ghost n: nat): (values: seq<seq<Heads>>)
    requires forall l :: 0 <= l < |kv| ==> |kv[l]| == n
    ensures |values| == |kv| && forall l :: 0 <= l < |kv| ==> |values[l]| == n
  {
    seq(|kv|, l requires 0 <= l < |kv| => ValueRow(kv[l]))
  }

  function MapKv(cm: CrossMap, kv: PortableKv, source: seq<Rope>, target: seq<Rope>,
                 useResidual: bool): (out: PortableKv)
    requires |source| == |target| && (forall l :: 0 <= l < |kv| ==> |kv[l]| == |source|) && Fits(cm, |kv|, |cm.keys|)
    ensures |out| == |cm.keys| && forall l :: 0 <= l < |out| ==> |out[l]| == |target|
  {
    var n := |source|;
    seq(|cm.keys|, l requires 0 <= l < |cm.keys| =>
      Paired(Rotated(MappedRow(cm, cm.keys[l], Contents(kv, source), n, useResidual), target),
             MappedRow(cm, cm.values[l], ValueRows(kv, n), n, useResidual)))
  }

  // `map`: content layer by layer, then each target layer's keys, then its values.
  method Map(cm: CrossMap, kv: PortableKv, source: seq<Rope>, target: seq<Rope>,
             useResidual: bool) returns (out: PortableKv)
    requires |source| == |target| && (forall l :: 0 <= l < |kv| ==> |kv[l]| == |source|) && Fits(cm, |kv|, |cm.keys|)
    ensures out == MapKv(cm, kv, source, target, useResidual)
  {
    hide ContentRow, MappedRow, ValueRow;
    var n := |source|;
    var content: seq<seq<Heads>>, vals: seq<seq<Heads>> := [], [];
    for l := 0 to |kv|
      invariant content == Contents(kv, source)[..l] && vals == ValueRows(kv, n)[..l]
    {
      content := content + [ContentRow(kv[l], source)];
      vals := vals + [ValueRow(kv[l])];
    }
    assert content == Contents(kv, source) && vals == ValueRows(kv, n);
    var keys: seq<seq<Heads>> := [];
    for l := 0 to |cm.keys|
      invariant |keys| == l && forall i :: 0 <= i < l ==>
        keys[i] == Rotated(MappedRow(cm, cm.keys[i], Contents(kv, source), n, useResidual), target)
    {
      keys := keys + [Rotated(MappedRow(cm, cm.keys[l], content, n, useResidual), target)];
    }
    out := [];
    for l := 0 to |cm.values|
      invariant out == MapKv(cm, kv, source, target, useResidual)[..l]
    {
      out := out + [Paired(keys[l], MappedRow(cm, cm.values[l], vals, n, useResidual))];
    }
  }

  // ---------- whatever the map and the tables ----------

  /** A mapped key with the target's rotation taken out is what the layer's key map makes of the source's keys with the
      source's rotation taken out. */
  lemma MappedKeys(cm: CrossMap, kv: PortableKv, source: seq<Rope>, target: seq<Rope>, useResidual: bool, l: nat,
                   t: nat, i: nat, rows: seq<Heads>)
    requires |source| == |target| && (forall k :: 0 <= k < |kv| ==> |kv[k]| == |source|) && Fits(cm, |kv|, |cm.keys|)
    requires l < |cm.keys| && t < |source| && i < cm.numHeads
    requires Doubled(target[t], cm.headDim) && Orthogonal(target[t], cm.headDim)
    requires |rows| == |cm.keys[l].sourceLayers|
    requires forall k :: 0 <= k < |rows| ==> var s := cm.keys[l].sourceLayers[k];
      && s < |kv| && |rows[k]| == |kv[s][t].key|
      && forall h :: 0 <= h < |rows[k]| ==> rows[k][h] == StripRope(kv[s][t].key[h], source[t])
    ensures var mapped := MapKv(cm, kv, source, target, useResidual)[l][t];
      && |mapped.key| == cm.numHeads
      && StripRope(mapped.key[i], target[t])
         == ViewHeads(ApplyMap(cm.keys[l], cm.gelu, Design(rows), useResidual), cm.numHeads, cm.headDim)[i]
  {
    hide ApplyMap, Design, StripRope, ApplyRope;
    var layers := cm.keys[l].sourceLayers;
    forall k | 0 <= k < |rows|
      ensures Selected(Contents(kv, source), layers, t)[k] == rows[k]
    {
      assert layers[k] in layers && ContentRow(kv[layers[k]], source)[t] == EachHead(kv[layers[k]][t].key,
        Strip(source[t]));
      assert EachHead(kv[layers[k]][t].key, Strip(source[t])) == rows[k];
    }
    assert Selected(Contents(kv, source), layers, t) == rows;
    ApplyStrip(ViewHeads(ApplyMap(cm.keys[l], cm.gelu, Design(rows), useResidual), cm.numHeads, cm.headDim)[i],
      target[t]);
  }

  // A mapped value is what the layer's value map makes of the source's values.
  lemma MappedValues(cm: CrossMap, kv: PortableKv, source: seq<Rope>, target: seq<Rope>, useResidual: bool, l: nat,
                     t: nat, rows: seq<Heads>)
    requires |source| == |target| && (forall k :: 0 <= k < |kv| ==> |kv[k]| == |source|) && Fits(cm, |kv|, |cm.keys|)
    requires l < |cm.values| && t < |source| && |rows| == |cm.values[l].sourceLayers|
    requires forall k :: 0 <= k < |rows| ==>
      cm.values[l].sourceLayers[k] < |kv| && rows[k] == kv[cm.values[l].sourceLayers[k]][t].value
    ensures MapKv(cm, kv, source, target, useResidual)[l][t].value
         == ViewHeads(ApplyMap(cm.values[l], cm.gelu, Design(rows), useResidual), cm.numHeads, cm.headDim)
  {
    hide ApplyMap, Design;
    assert Selected(ValueRows(kv, |source|), cm.values[l].sourceLayers, t) == rows;
  }

  // ---------- the identity transfer ----------

  ghost predicate KvShaped(net: Net, heads: nat, dim: nat) {
    forall l, h, p :: 0 <= l < |net.layers| ==>
      HeadsShaped(net.layers[l].kv(h, p).key, heads, dim) && HeadsShaped(net.layers[l].kv(h, p).value, heads, dim)
  }

  ghost predicate IsIdentity(cm: CrossMap, layers: nat) {
    && |cm.keys| == |cm.values| == layers
    && forall l :: 0 <= l < layers ==>
         cm.keys[l] == cm.values[l] == IdentityMap(l, cm.numHeads * cm.headDim)
  }

  ghost predicate RowsShaped(row: seq<KV>, heads: nat, dim: nat) {
    forall t :: 0 <= t < |row| ==> HeadsShaped(row[t].key, heads, dim) && HeadsShaped(row[t].value, heads, dim)
  }

  ghost predicate RopesInvert(ropes: seq<Rope>, dim: nat) {
    forall t :: 0 <= t < |ropes| ==> Doubled(ropes[t], dim) && Orthogonal(ropes[t], dim)
  }

  // The identity map gives one layer's heads back.
  lemma IdentityRow(cm: CrossMap, l: nat, rows: seq<seq<Heads>>, n: nat, useResidual: bool)
    requires l < |rows| && (forall k :: 0 <= k < |rows| ==> |rows[k]| == n)
    requires forall t :: 0 <= t < n ==> HeadsShaped(rows[l][t], cm.numHeads, cm.headDim)
    ensures MappedRow(cm, IdentityMap(l, cm.numHeads * cm.headDim), rows, n, useResidual) == rows[l]
  {
    var m := IdentityMap(l, cm.numHeads * cm.headDim);
    forall t | 0 <= t < n
      ensures MappedRow(cm, m, rows, n, useResidual)[t] == rows[l][t]
    {
      var heads := rows[l][t];
      var selected := Selected(rows, m.sourceLayers, t);
      assert selected == [heads];
      assert Design(selected) == FlattenHeads(heads) by {
        assert selected[..0] == [];
        assert Design([]) == [];
      }
      FlattenAt(heads, cm.numHeads, cm.headDim);
      IdentityApplies(l, cm.gelu, FlattenHeads(heads), useResidual);
      ViewOfFlatten(heads, cm.numHeads, cm.headDim);
    }
  }

  lemma RotatedBack(row: seq<KV>, ropes: seq<Rope>, heads: nat, dim: nat)
    requires |ropes| == |row| && RowsShaped(row, heads, dim) && RopesInvert(ropes, dim)
    ensures Rotated(ContentRow(row, ropes), ropes) == seq(|row|, t requires 0 <= t < |row| => row[t].key)
  {
    forall t, i | 0 <= t < |row| && 0 <= i < heads
      ensures Rotated(ContentRow(row, ropes), ropes)[t][i] == row[t].key[i]
    {
      ApplyStrip(row[t].key[i], ropes[t]);
    }
    forall t | 0 <= t < |row|
      ensures Rotated(ContentRow(row, ropes), ropes)[t] == row[t].key
    {
    }
  }

  /** With the identity map and the same orthogonal rotary tables on both sides the transfer changes nothing. */
  lemma IdentityTransfer(cm: CrossMap, kv: PortableKv, ropes: seq<Rope>, useResidual: bool)
    requires IsIdentity(cm, |kv|) && RopesInvert(ropes, cm.headDim)
    requires forall l :: 0 <= l < |kv| ==> |kv[l]| == |ropes| && RowsShaped(kv[l], cm.numHeads, cm.headDim)
    ensures Fits(cm, |kv|, |cm.keys|)
    ensures MapKv(cm, kv, ropes, ropes, useResidual) == kv
  {
    hide MappedRow, IdentityMap, Rotated, ContentRow;
    var n := |ropes|;
    IdentityFits(cm, |kv|);
    forall l | 0 <= l < |kv|
      ensures MapKv(cm, kv, ropes, ropes, useResidual)[l] == kv[l]
    {
      ContentShaped(kv[l], ropes, cm.numHeads, cm.headDim);
      IdentityRow(cm, l, Contents(kv, ropes), n, useResidual);
      IdentityRow(cm, l, ValueRows(kv, n), n, useResidual);
      RotatedBack(kv[l], ropes, cm.numHeads, cm.headDim);
    }
  }

  lemma ContentShaped(row: seq<KV>, ropes: seq<Rope>, heads: nat, dim: nat)
    requires |ropes| == |row| && RowsShaped(row, heads, dim)
    ensures forall t :: 0 <= t < |row| ==> HeadsShaped(ContentRow(row, ropes)[t], heads, dim)
  {
  }

  lemma IdentityFits(cm: CrossMap, layers: nat)
    requires IsIdentity(cm, layers)
    ensures Fits(cm, layers, layers)
  {
  }

  lemma PortableShaped(net: Net, toks: seq<int>, heads: nat, dim: nat)
    requires KvShaped(net, heads, dim)
    ensures forall l :: 0 <= l < |net.layers| ==> RowsShaped(PortableOf(net, toks)[l], heads, dim)
  {
  }

  // ---------- escalation ----------

  /** `prefill_and_map`: prefills on the source and maps all but the prompt's last token; the source's blocks
      are given back. */
  method PrefillAndMap(source: Stage, sid: nat, prompt: seq<int>, cm: CrossMap, sourceRopes: seq<Rope>,
                       targetRopes: seq<Rope>,
                       useResidual: bool) returns (r: Result<PortableKv>)
    requires source.Valid() && |prompt| > 0 && |sourceRopes| == |targetRopes| == |prompt| - 1
    requires Fits(cm, |source.runner.net.layers|, |cm.keys|)
    modifies source.cache.manager, source.cache.kv
    ensures source.Valid()
    ensures r.Ok? ==>
      r.value == MapKv(cm, PortableOf(source.runner.net, prompt[..|prompt| - 1]), sourceRopes, targetRopes, useResidual)
    ensures r.Err? ==>
      r.error == OutOfBlocks && old(|source.cache.manager.free|) < BlocksNeeded(source.cache.blockSize, |prompt|)
  {
    hide Sound, Holds, SoleFrom, DistinctFrom, OneForward, OneOk, MapKv, Fits, PortableOf;
    ghost var net := source.runner.net;
    var table := source.Allocate(sid, prompt);
    if table.Err? {
      return Err(table.error);
    }
    ForwardSeats(net, source.cache.Contents(), source.cache.manager.State(), NoPins, sid, prompt, 0);
    var ids := source.cache.manager.tables[sid].blockIds;
    assert prompt[0..] == prompt;
    var hidden := ForwardOne(source.runner, source.cache, ids, prompt, 0, prompt);
    var n := |prompt| - 1;
    HoldsPrefix(net, source.cache.Contents(), source.cache.blockSize, ids, prompt, n);
    ExportIsRef(net, source.cache.Contents(), source.cache.blockSize, ids, prompt[..n]);
    PortableRows(net, prompt[..n]);
    var kv := source.cache.ExportContiguous(ids, n);
    var mapped := Map(cm, kv, sourceRopes, targetRopes, useResidual);
    FreeSound(net, source.cache.Contents(), source.cache.manager.State(), NoPins, sid);
    source.cache.manager.Free(sid);
    r := Ok(mapped);
  }

  lemma PortableRows(net: Net, toks: seq<int>)
    ensures |PortableOf(net, toks)| == |net.layers| && forall l :: 0 <= l < |net.layers| ==>
      |PortableOf(net, toks)[l]| == |toks|
  {
  }

  // What the identity map and equal orthogonal rotary tables hand over is an exact prefix.
  lemma MappedIsExact(net: Net, cm: CrossMap, ropes: seq<Rope>, useResidual: bool, prompt: seq<int>)
    requires |prompt| > 1 && |ropes| == |prompt| - 1 && |net.layers| > 0
    requires IsIdentity(cm, |net.layers|) && RopesInvert(ropes, cm.headDim) && KvShaped(net, cm.numHeads, cm.headDim)
    ensures Fits(cm, |net.layers|, |cm.keys|)
    ensures var own := PortableOf(net, prompt[..|prompt| - 1]);
      |own| == |net.layers| && forall l :: 0 <= l < |own| ==> |own[l]| == |ropes|
    ensures var kv := MapKv(cm, PortableOf(net, prompt[..|prompt| - 1]), ropes, ropes, useResidual);
      ExactPrefix(net, prompt, kv) && Covered(kv) == |prompt| - 1 && PrefixFits(|net.layers|, kv, |prompt|)
  {
    hide MapKv, IsIdentity, KvShaped, RopesInvert, KvRows;
    var toks := prompt[..|prompt| - 1];
    PortableShaped(net, toks, cm.numHeads, cm.headDim);
    PortableRows(net, toks);
    IdentityTransfer(cm, PortableOf(net, toks), ropes, useResidual);
  }

  // ---------- the step that admits it ----------

  // In the batch this request has one row: the last of its n tokens, which is sampled from.
  ghost predicate LastTokenOnly(flat: Flat, id: nat, n: nat) {
    exists k :: 0 <= k < |flat.ids| && k < |flat.metas| && k < |flat.sampled|
      && flat.ids[k] == id && flat.metas[k].qLen == 1 && flat.metas[k].ctxLen == n && flat.sampled[k]
  }

  ghost predicate Extends(flat: Flat, flat': Flat) {
    flat.ids <= flat'.ids && flat.metas <= flat'.metas && flat.sampled <= flat'.sampled
  }

  lemma ExtendsKeeps(flat: Flat, flat': Flat, id: nat, n: nat)
    requires Extends(flat, flat') && LastTokenOnly(flat, id, n)
    ensures LastTokenOnly(flat', id, n)
  {
    var k :| 0 <= k < |flat.ids| && k < |flat.metas| && k < |flat.sampled|
      && flat.ids[k] == id && flat.metas[k].qLen == 1 && flat.metas[k].ctxLen == n && flat.sampled[k];
    assert flat'.ids[k] == id && flat'.metas[k] == flat.metas[k] && flat'.sampled[k];
  }

  lemma {:induction false} PrefillExtends(cfg: Config, m: Mid, queue: seq<nat>)
    requires InLine(m.s, queue)
    ensures Extends(m.flat, PrefillAll(cfg, m, queue).flat)
    decreases |queue|
  {
    hide Admit, Allocate;
    if queue != [] && m.budget >= 1 {
      assert queue[0] in queue && forall id :: id in queue[1..] ==> id in queue;
      assert InLine(m.s, [queue[0]]);
      if PrefillOne(cfg, m, queue[0]).Some? {
        var m' := PrefillOne(cfg, m, queue[0]).value;
        assert Extends(m.flat, m'.flat);
        PrefillExtends(cfg, m', queue[1..]);
      }
    }
  }

  // A waiting request whose prefix covers all but the last prompt token.
  ghost predicate AllButOne(s: Sched, id: nat) {
    && id in s.requests && s.requests[id].status == Waiting
    && s.requests[id].prefixKv.Some? && Covered(s.requests[id].prefixKv.value) + 1 == |s.requests[id].prompt|
  }

  lemma AdmitsLastToken(cfg: Config, m: Mid, ps: seq<Piece>, id: nat, exact: bool)
    requires MidOk(cfg, m, ps, exact) && AllButOne(m.s, id) && id !in m.flat.ids && m.budget >= 1
    ensures InLine(m.s, [id])
    ensures PrefillOne(cfg, m, id).Some? ==> var m' := PrefillOne(cfg, m, id).value;
      LastTokenOnly(m'.flat, id, |m.s.requests[id].prompt|) && m'.s.requests[id].status == Running
  {
    hide FlatOk, Resting, Batched, Undisturbed, Admit, Base, Live, Chunk;
    assert id in [id];
    if Admit(m.s, id).Ok? {
      AdmitOk(cfg, m.s, id, exact);
      AdmitIs(m.s, id);
      var m1 := m.(s := Admit(m.s, id).value);
      SanePrefilling(cfg, m1.s, id, exact);
      ChunkIs(cfg, m1, id);
      var flat' := Chunk(cfg, m1, id).flat;
      FlatCounts(cfg, m, ps, exact);
      assert flat'.ids[|m.flat.ids|] == id && flat'.metas[|m.flat.ids|].qLen == 1 && flat'.sampled[|m.flat.ids|];
    }
  }

  lemma FlatCounts(cfg: Config, m: Mid, ps: seq<Piece>, exact: bool)
    requires MidOk(cfg, m, ps, exact)
    ensures |m.flat.ids| == |m.flat.metas| == |m.flat.sampled|
  {
  }

  lemma {:induction false} PrefillsLastToken(cfg: Config, m: Mid, ps: seq<Piece>, queue: seq<nat>, id: nat, exact: bool)
    requires MidOk(cfg, m, ps, exact) && NoDup(queue) && AllButOne(m.s, id) && id !in m.flat.ids
    requires forall i :: i in queue ==>
      i in m.s.requests && m.s.requests[i].status in {Waiting, Prefilling} && i !in m.flat.ids
    ensures InLine(m.s, queue)
    ensures var m', n := PrefillAll(cfg, m, queue), |m.s.requests[id].prompt|;
      && id in m'.s.requests
      && (if m'.s.requests[id] == m.s.requests[id] then id !in m'.flat.ids
          else LastTokenOnly(m'.flat, id, n) && m'.s.requests[id].status == Running)
    decreases |queue|
  {
    hide MidOk, PrefillOne, LastTokenOnly, Extends;
    LineOk(cfg, m, ps, queue, exact);
    if queue != [] && m.budget >= 1 {
      assert queue[0] in queue;
      var p := PrefillOneOk(cfg, m, ps, queue[0], exact);
      if PrefillOne(cfg, m, queue[0]).Some? {
        var m', rest := PrefillOne(cfg, m, queue[0]).value, queue[1..];
        forall i | i in rest
          ensures i in m'.s.requests && m'.s.requests[i].status in {Waiting, Prefilling} && i !in m'.flat.ids
        {
          assert i in queue && i != queue[0];
        }
        LineOk(cfg, m', ps + [p], rest, exact);
        if queue[0] == id {
          AdmitsLastToken(cfg, m, ps, id, exact);
          PrefillExtends(cfg, m', rest);
          ExtendsKeeps(m'.flat, PrefillAll(cfg, m', rest).flat, id, |m.s.requests[id].prompt|);
          OutOfLine(cfg, m', rest, id);
        } else {
          PrefillsLastToken(cfg, m', ps + [p], rest, id, exact);
        }
      }
    }
  }

  // Who is not in the queue is left alone.
  lemma {:induction false} OutOfLine(cfg: Config, m: Mid, queue: seq<nat>, id: nat)
    requires InLine(m.s, queue) && id in m.s.requests && id !in queue
    ensures id in PrefillAll(cfg, m, queue).s.requests && PrefillAll(cfg, m, queue).s.requests[id] == m.s.requests[id]
    decreases |queue|
  {
    hide PrefillOne;
    if queue != [] && m.budget >= 1 {
      assert queue[0] in queue && forall i :: i in queue[1..] ==> i in queue;
      assert InLine(m.s, [queue[0]]);
      if PrefillOne(cfg, m, queue[0]).Some? {
        OutOfLine(cfg, PrefillOne(cfg, m, queue[0]).value, queue[1..], id);
      }
    }
  }

  /** A step either leaves such a request waiting, or admits it and forwards exactly one of its prompt tokens,
      from which its first output is sampled: nothing of the prompt is left to prefill. */
  lemma LastTokenForwarded(cfg: Config, s: Sched, id: nat, exact: bool)
    requires Settled(cfg, s, exact) && AllButOne(s, id)
    ensures Steppable(s)
    ensures Build(cfg, s).Ok? ==> var m := Build(cfg, s).value;
      && NoDup(m.flat.ids) && id in m.s.requests
      && (if m.s.requests[id] == s.requests[id] then id !in m.flat.ids
          else LastTokenOnly(m.flat, id, |s.requests[id].prompt|) && m.s.requests[id].status == Running)
  {
    hide MidOk, Settled, DecodeAll, PrefillAll, SortBy, AdmissionOrder, LastTokenOnly;
    var ps := DecodedOk(cfg, s, exact);
    if Build(cfg, s).Ok? {
      StepServes(cfg, s, exact);
      var all := StepOk(cfg, s, exact);
      var m := DecodeAll(Mid(s, NO_BATCH, cfg.maxBatch), s.running).value;
      MidQueues(cfg, m, ps, exact);
      var line := SortBy(m.s.waiting, AdmissionOrder(m.s.requests));
      SortByElements(m.s.waiting, AdmissionOrder(m.s.requests));
      SortedOk(cfg, m, ps, line, exact);
      QueueDistinct(m.s, line);
      PrefillsLastToken(cfg, m.(s := m.s.(waiting := line)), ps, m.s.prefilling + line, id, exact);
    }
  }

  // ---------- the whole way ----------

  /** Escalation is transparent, end to end: a greedy request that brings what the identity map and equal
      orthogonal rotary tables hand over is accepted; whatever then happens in the engine, its output is a
      prefix of its solo generation and all of it once finished; and as long as it waits, the step that admits
      it forwards just the last of its prompt tokens. */
  lemma EscalationIsTransparent(cfg: Config, s: Sched, cm: CrossMap, ropes: seq<Rope>, useResidual: bool,
                                prompt: seq<int>, maxNew: int, params: SamplingParams, eos: Option<int>, priority: int,
                                events: seq<Event>)
    requires |prompt| > 1 && |ropes| == |prompt| - 1 && |cfg.net.layers| > 0 && params.Greedy()
    requires IsIdentity(cm, |cfg.net.layers|) && RopesInvert(ropes, cm.headDim)
    requires KvShaped(cfg.net, cm.numHeads, cm.headDim)
    requires Standing(cfg, s, true) && AllGreedy(cfg.net, s)
    requires forall e :: e in events ==> Acceptable(cfg, e, true) && GreedyEvent(e)
    ensures Fits(cm, |cfg.net.layers|, |cm.keys|)
    ensures var own := PortableOf(cfg.net, prompt[..|prompt| - 1]);
      |own| == |cfg.net.layers| && forall l :: 0 <= l < |own| ==> |own[l]| == |ropes|
    ensures var kv := MapKv(cm, PortableOf(cfg.net, prompt[..|prompt| - 1]), ropes, ropes, useResidual);
      var added := SchedulerState.Add(cfg, s, prompt, maxNew, params, eos, priority, Some(kv));
      && added.Ok?
      && var t := PlayAll(cfg, added.value, events);
        && s.nextId in t.requests
        && t.requests[s.nextId].outputs <= Generate(cfg.net, prompt, maxNew, eos)
        && (t.requests[s.nextId].status == Finished ==>
          t.requests[s.nextId].outputs == Generate(cfg.net, prompt, maxNew, eos))
        && (t.requests[s.nextId].status == Waiting ==> AllButOne(t, s.nextId))
  {
    hide MapKv, IsIdentity, KvShaped, RopesInvert, Standing, Generate, AllGreedy, ExactPrefix, PortableOf, PlayAll;
    MappedIsExact(cfg.net, cm, ropes, useResidual, prompt);
    var kv := MapKv(cm, PortableOf(cfg.net, prompt[..|prompt| - 1]), ropes, ropes, useResidual);
    var arrival := Arrive(prompt, maxNew, params, eos, priority, Some(kv));
    var s' := SchedulerState.Add(cfg, s, prompt, maxNew, params, eos, priority, Some(kv)).value;
    assert s' == Play(cfg, s, arrival);
    PlayKeeps(cfg, s, arrival, true);
    PlayStaysGreedy(cfg, s, arrival);
    RunsStayGreedy(cfg, s', events);
    RunKeepsRequest(cfg, s', events, s.nextId, true);
    StandingFacts(cfg, PlayAll(cfg, s', events), true);
    GreedyIsTransparent(cfg, PlayAll(cfg, s', events));
  }

  // A one-token prompt has no prefix to transfer: what would be handed over is refused.
  lemma NothingToTransfer(cfg: Config, s: Sched, kv: PortableKv, prompt: seq<int>, maxNew: int, params: SamplingParams,
                          eos: Option<int>, priority: int)
    requires |prompt| == 1
    ensures SchedulerState.Add(cfg, s, prompt, maxNew, params, eos, priority, Some(kv)) == Err(BadPrefixKv)
  {
  }
}
