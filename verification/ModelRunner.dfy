// The model runner: the forward pass over the paged cache, with its native and fused attention paths.
module ModelRunner {
  import opened Wrappers
  import opened Reference
  import opened PagedStore
  import opened RaggedForward
  import opened Softmax
  import opened KVCache
  import TritonAttn

  // ---------- the all-decode fast path ----------

  predicate AllDecode(metas: seq<SeqMeta>) {
    metas != [] && forall m :: m in metas ==> m.qLen == 1
  }

  /** Each decode row is written to the slot of its sequence's last position, and no slot twice. */
  ghost predicate Aligned(bs: pos, metas: seq<SeqMeta>, slots: seq<nat>, width: nat)
    requires MetasOk(bs, metas, width)
  {
    && |slots| == |metas|
    && NoDup(slots)
    && forall i :: 0 <= i < |metas| && metas[i].ctxLen > 0 ==>
      slots[i] == Slot(bs, metas[i].blockIds, metas[i].ctxLen - 1)
  }

  lemma {:induction false} DecodeTotal(metas: seq<SeqMeta>)
    requires forall m :: m in metas ==> m.qLen == 1
    ensures Total(metas) == |metas|
  {
    if metas != [] {
      DecodeTotal(metas[..|metas| - 1]);
    }
  }

  // With one query row per sequence the i-th result attends over the i-th context.
  lemma {:induction false} DecodeRow(layer: Layer, bs: pos, row: seq<KV>, metas: seq<SeqMeta>,
                                     xs: seq<Vec>, pos: seq<nat>, kvs: seq<KV>, i: nat)
    requires forall m :: m in metas ==> m.qLen == 1
    requires |xs| == |pos| == |kvs| && |metas| <= |xs| && MetasOk(bs, metas, |row|) && i < |metas|
    ensures Total(metas) == |metas|
    ensures AttendBatch(layer, bs, row, metas, xs, pos, kvs)[i]
         == layer.attend(layer.query(xs[i], pos[i]), ContextOf(bs, row, metas[i], kvs[i..i + 1]))
  {
    hide ContextOf;
    DecodeTotal(metas);
    var before := metas[..|metas| - 1];
    DecodeTotal(before);
    if i < |before| {
      DecodeRow(layer, bs, row, before, xs, pos, kvs, i);
    } else {
      assert MetaOk(bs, metas[i], |row|);
      SingleRow(layer, xs[i], pos[i], ContextOf(bs, row, metas[i], kvs[i..i + 1]));
      OneSlice(xs, i);
      OneSlice(pos, i);
    }
  }

  lemma OneSlice<T>(s: seq<T>, i: nat)
    requires i < |s|
    ensures s[i..i + 1] == [s[i]]
  {
  }

  lemma SingleRow(layer: Layer, x: Vec, pos: nat, ctx: seq<KV>)
    requires |ctx| > 0
    ensures AttendSeq(layer, [x], [pos], ctx) == [layer.attend(layer.query(x, pos), ctx)]
  {
    assert ctx[..|ctx| - 1 + 0 + 1] == ctx;
  }

  // In a decode batch even a one-token context can be gathered back: it was just written.
  lemma DecodeContext(bs: pos, row: seq<KV>, metas: seq<SeqMeta>, slots: seq<nat>, kvs: seq<KV>, i: nat)
    requires MetasOk(bs, metas, |row|) && Aligned(bs, metas, slots, |row|) && |kvs| == |slots| && Within(slots, |row|)
    requires i < |metas| && metas[i].qLen == 1
    ensures var written := Scatter(row, slots, kvs);
      ContextOf(bs, written, metas[i], kvs[i..i + 1])
      == Gather(written, ContextSlots(bs, metas[i].blockIds, metas[i].ctxLen))
  {
    hide Slot, Scatter, NoDup;
    assert MetaOk(bs, metas[i], |row|);
    ScatterAt(row, slots, kvs);
    if metas[i].ctxLen == 1 {
      var written, s := Scatter(row, slots, kvs), Slot(bs, metas[i].blockIds, 0);
      assert written[s] == kvs[i];
      OneSlice(kvs, i);
      assert Gather(written, ContextSlots(bs, metas[i].blockIds, 1)) == [written[s]];
    }
  }

  function Padded(slots: seq<nat>, n: nat): (row: seq<nat>)
    requires |slots| <= n
    ensures |row| == n && row[..|slots|] == slots
  {
    slots + seq(n - |slots|, i => 0)
  }

  function Queries(layer: Layer, xs: seq<Vec>, pos: seq<nat>): (q: seq<Heads>)
    requires |xs| == |pos|
    ensures |q| == |xs|
  {
    seq(|xs|, i requires 0 <= i < |xs| => layer.query(xs[i], pos[i]))
  }

  function MaxCtx(metas: seq<SeqMeta>): (n: nat)
    ensures forall i :: 0 <= i < |metas| ==> metas[i].ctxLen <= n
  {
    if metas == [] then 0
    else
      var n := MaxCtx(metas[..|metas| - 1]);
      if metas[|metas| - 1].ctxLen > n then metas[|metas| - 1].ctxLen else n
  }

  class Runner {
    const net: Net
    const attn: Attn
    const triton: bool

    constructor (net: Net, attn: Attn, triton: bool)
      ensures this.net == net && this.attn == attn && this.triton == triton
    {
      this.net, this.attn, this.triton := net, attn, triton;
    }

    // The slot table of an all-decode step, shared by every layer.
    method SlotTable(metas: seq<SeqMeta>, bs: pos, ghost width: nat) returns (table: seq<seq<nat>>, ctxLens: seq<nat>)
      requires MetasOk(bs, metas, width)
      ensures |table| == |ctxLens| == |metas|
      ensures forall i :: 0 <= i < |metas| ==>
        && ctxLens[i] == metas[i].ctxLen <= |table[i]|
        && table[i][..ctxLens[i]] == ContextSlots(bs, metas[i].blockIds, metas[i].ctxLen)
    {
      table, ctxLens := [], [];
      var maxCtx := MaxCtx(metas);
      for i := 0 to |metas|
        invariant |table| == |ctxLens| == i
        invariant forall j :: 0 <= j < i ==>
          && ctxLens[j] == metas[j].ctxLen <= |table[j]|
          && table[j][..ctxLens[j]] == ContextSlots(bs, metas[j].blockIds, metas[j].ctxLen)
      {
        assert MetaOk(bs, metas[i], width);
        table := table + [Padded(ContextSlots(bs, metas[i].blockIds, metas[i].ctxLen), maxCtx)];
        ctxLens := ctxLens + [metas[i].ctxLen];
      }
    }

    // Ragged attention of one layer, sequence by sequence.
    method AttendRagged(layer: Layer, l: nat, metas: seq<SeqMeta>, xs: seq<Vec>, pos: seq<nat>, kvs: seq<KV>,
                        cache: PagedKVCache) returns (out: seq<Heads>)
      requires cache.Valid() && l < cache.kv.Length0
      requires |xs| == |pos| == |kvs| == Total(metas) && MetasOk(cache.blockSize, metas, cache.kv.Length1)
      ensures out == AttendBatch(layer, cache.blockSize, cache.Contents()[l], metas, xs, pos, kvs)
    {
      hide AttendBatch, AttendSeq, Total, ContextOf;
      out := [];
      var offset := 0;
      NoRows(layer, cache.blockSize, cache.Contents()[l], metas, xs, pos, kvs);
      for i := 0 to |metas|
        invariant offset == Total(metas[..i]) <= |xs|
        invariant out == AttendBatch(layer, cache.blockSize, cache.Contents()[l], metas[..i], xs, pos, kvs)
      {
        var meta := metas[i];
        assert MetaOk(cache.blockSize, meta, cache.kv.Length1);
        OneMoreSequence(layer, cache.blockSize, cache.Contents()[l], metas, xs, pos, kvs, i);
        var end := offset + meta.qLen;
        var ctx := kvs[offset..end];
        if meta.ctxLen != meta.qLen {
          ctx := cache.GatherSlots(l, ContextSlots(cache.blockSize, meta.blockIds, meta.ctxLen));
        }
        out := out + AttendSeq(layer, xs[offset..end], pos[offset..end], ctx);
        offset := end;
      }
      assert metas[..|metas|] == metas;
    }

    // All-decode attention of one layer through the fused kernel.
    method AttendDecode(layer: Layer, l: nat, metas: seq<SeqMeta>, xs: seq<Vec>, pos: seq<nat>, ghost kvs: seq<KV>,
                        ghost row: seq<KV>, ghost slots: seq<nat>, table: seq<seq<nat>>, ctxLens: seq<nat>,
                        cache: PagedKVCache) returns (out: seq<Heads>)
      requires cache.Valid() && l < cache.kv.Length0 && AllDecode(metas) && ExpLaws(attn.exp)
      requires forall q, ctx :: |ctx| > 0 ==> layer.attend(q, ctx) == SoftmaxAttend(attn, q, ctx)
      requires |row| == cache.kv.Length1 && MetasOk(cache.blockSize, metas, |row|)
      requires Aligned(cache.blockSize, metas, slots, |row|) && Within(slots, |row|)
      requires |xs| == |pos| == |kvs| == |metas| && cache.Contents()[l] == Scatter(row, slots, kvs)
      requires |table| == |ctxLens| == |metas|
      requires forall i :: 0 <= i < |metas| ==>
        && ctxLens[i] == metas[i].ctxLen <= |table[i]|
        && table[i][..ctxLens[i]] == ContextSlots(cache.blockSize, metas[i].blockIds, metas[i].ctxLen)
      ensures Total(metas) == |metas|
      ensures out == AttendBatch(layer, cache.blockSize, cache.Contents()[l], metas, xs, pos, kvs)
    {
      DecodeTotal(metas);
      forall i | 0 <= i < |metas|
        ensures 0 < ctxLens[i] && Within(table[i][..ctxLens[i]], cache.kv.Length1)
      {
        assert MetaOk(cache.blockSize, metas[i], |row|) && metas[i] in metas;
      }
      out := TritonAttn.BatchedPagedDecode(attn, Queries(layer, xs, pos), cache.Row(l), table, ctxLens);
      forall i | 0 <= i < |metas|
        ensures out[i] == AttendBatch(layer, cache.blockSize, cache.Contents()[l], metas, xs, pos, kvs)[i]
      {
        assert metas[i] in metas;
        DecodeRow(layer, cache.blockSize, cache.Contents()[l], metas, xs, pos, kvs, i);
        DecodeContext(cache.blockSize, row, metas, slots, kvs, i);
      }
    }

    // One layer: project, write the cache, attend, finish the residual rows.
    method ForwardLayer(l: nat, x: seq<Vec>, pos: seq<nat>, slots: seq<nat>, metas: seq<SeqMeta>, fused: bool,
                        table: seq<seq<nat>>, ctxLens: seq<nat>, cache: PagedKVCache) returns (y: seq<Vec>)
      requires cache.Valid() && l < |net.layers| == cache.kv.Length0
      requires |x| == |pos| == |slots| == Total(metas)
      requires MetasOk(cache.blockSize, metas, cache.kv.Length1) && Within(slots, cache.kv.Length1)
      requires fused ==>
        SoftmaxNet(net, attn) && AllDecode(metas) && Aligned(cache.blockSize, metas, slots, cache.kv.Length1)
      requires fused ==> |table| == |ctxLens| == |metas| && forall i :: 0 <= i < |metas| ==>
        && ctxLens[i] == metas[i].ctxLen <= |table[i]|
        && table[i][..ctxLens[i]] == ContextSlots(cache.blockSize, metas[i].blockIds, metas[i].ctxLen)
      modifies cache.kv
      ensures var r := LayerForward(net.layers[l], cache.blockSize, old(cache.Contents()[l]), metas, x, pos, slots);
              y == r.0 && cache.Contents() == old(cache.Contents())[l := r.1]
    {
      ghost var row := cache.Contents()[l];
      var layer := net.layers[l];
      var kvs := ProjectKv(layer, x, pos);
      cache.Write(l, slots, kvs);
      var heads;
      if fused {
        DecodeTotal(metas);
        heads := AttendDecode(layer, l, metas, x, pos, kvs, row, slots, table, ctxLens, cache);
      } else {
        heads := AttendRagged(layer, l, metas, x, pos, kvs, cache);
      }
      y := FinishRows(layer, x, heads);
    }

    /** The forward pass over a ragged batch, by the native path or, for all-decode steps with the fused
        backend, through the kernel: either way it is `RaggedForward.Forward`. */
    method Forward(toks: seq<int>, pos: seq<nat>, slots: seq<nat>, metas: seq<SeqMeta>, cache: PagedKVCache)
        returns (hidden: seq<Vec>)
      requires cache.Valid()
      requires BatchOk(net, cache.Contents(), cache.blockSize, cache.kv.Length1, metas, toks, pos, slots)
      requires triton ==> SoftmaxNet(net, attn)
      requires triton && AllDecode(metas) ==> Aligned(cache.blockSize, metas, slots, cache.kv.Length1)
      modifies cache.kv
      ensures (hidden, cache.Contents()) ==
        RaggedForward.Forward(net, old(cache.Contents()), cache.blockSize, cache.kv.Length1, metas, toks, pos, slots)
    {
      var x := seq(|toks|, i requires 0 <= i < |toks| => net.embed(toks[i]));
      var table, ctxLens := [], [];
      if triton && AllDecode(metas) {
        table, ctxLens := SlotTable(metas, cache.blockSize, cache.kv.Length1);
      }
      x := ForwardLayers(x, toks, pos, slots, metas, triton && AllDecode(metas), table, ctxLens, cache);
      hidden := Normed(net, x);
    }

    method ForwardLayers(x0: seq<Vec>, ghost toks: seq<int>, pos: seq<nat>, slots: seq<nat>, metas: seq<SeqMeta>,
                         fused: bool, table: seq<seq<nat>>, ctxLens: seq<nat>,
                           cache: PagedKVCache) returns (x: seq<Vec>)
      requires cache.Valid()
      requires BatchOk(net, cache.Contents(), cache.blockSize, cache.kv.Length1, metas, toks, pos, slots)
      requires x0 == seq(|toks|, i requires 0 <= i < |toks| => net.embed(toks[i]))
      requires fused ==>
        SoftmaxNet(net, attn) && AllDecode(metas) && Aligned(cache.blockSize, metas, slots, cache.kv.Length1)
      requires fused ==> |table| == |ctxLens| == |metas| && forall i :: 0 <= i < |metas| ==>
        && ctxLens[i] == metas[i].ctxLen <= |table[i]|
        && table[i][..ctxLens[i]] == ContextSlots(cache.blockSize, metas[i].blockIds, metas[i].ctxLen)
      modifies cache.kv
      ensures (x, cache.Contents()) ==
        ForwardTo(net, old(cache.Contents()), cache.blockSize, cache.kv.Length1, metas, toks, pos, slots, |net.layers|)
    {
      hide SoftmaxNet, AllDecode, Aligned, LayerForward, MetasOk, Within;
      x := x0;
      ghost var before := cache.Contents();
      for l := 0 to |net.layers|
        invariant (x, cache.Contents()) ==
          ForwardTo(net, before, cache.blockSize, cache.kv.Length1, metas, toks, pos, slots, l)
      {
        x := ForwardLayer(l, x, pos, slots, metas, fused, table, ctxLens, cache);
      }
    }
  }

  lemma NoRows(layer: Layer, bs: pos, row: seq<KV>, metas: seq<SeqMeta>, xs: seq<Vec>, pos: seq<nat>, kvs: seq<KV>)
    requires |xs| == |pos| == |kvs|
    ensures Total(metas[..0]) == 0 && AttendBatch(layer, bs, row, metas[..0], xs, pos, kvs) == []
  {
  }

  // Attention over one sequence more; a fresh prefill attends over its own rows, others over the cache.
  lemma OneMoreSequence(layer: Layer, bs: pos, row: seq<KV>, metas: seq<SeqMeta>, xs: seq<Vec>, pos: seq<nat>,
                        kvs: seq<KV>, i: nat)
    requires |xs| == |pos| == |kvs| == Total(metas) && MetasOk(bs, metas, |row|) && i < |metas|
    ensures MetaOk(bs, metas[i], |row|) && Total(metas[..i + 1]) == Total(metas[..i]) + metas[i].qLen <= |xs|
    ensures var offset := Total(metas[..i]); var end := offset + metas[i].qLen; var own := kvs[offset..end];
      && ContextOf(bs, row, metas[i], own) ==
         (if metas[i].ctxLen == metas[i].qLen then own
           else Gather(row, ContextSlots(bs, metas[i].blockIds, metas[i].ctxLen)))
      && AttendBatch(layer, bs, row, metas[..i + 1], xs, pos, kvs) ==
         AttendBatch(layer, bs, row, metas[..i], xs, pos, kvs) +
         AttendSeq(layer, xs[offset..end], pos[offset..end], ContextOf(bs, row, metas[i], own))
  {
    hide AttendSeq, AttendBatch, MetaOk, Gather, ContextSlots, Total;
    var all := metas[..i + 1];
    assert all[..i] == metas[..i] && all[i] == metas[i];
    assert MetaOk(bs, metas[i], |row|);
    TotalMonotone(metas, i + 1);
    LastSequence(layer, bs, row, all, xs, pos, kvs);
  }

  lemma LastSequence(layer: Layer, bs: pos, row: seq<KV>, all: seq<SeqMeta>, xs: seq<Vec>, pos: seq<nat>, kvs: seq<KV>)
    requires all != [] && |xs| == |pos| == |kvs| && Total(all) <= |xs| && MetasOk(bs, all, |row|)
    ensures var before, last := all[..|all| - 1], all[|all| - 1];
      && MetaOk(bs, last, |row|) && Total(all) == Total(before) + last.qLen
      && var offset := Total(before); var end := offset + last.qLen;
         AttendBatch(layer, bs, row, all, xs, pos, kvs) ==
         AttendBatch(layer, bs, row, before, xs, pos, kvs) +
         AttendSeq(layer, xs[offset..end], pos[offset..end], ContextOf(bs, row, last, kvs[offset..end]))
  {
    hide AttendSeq, ContextOf, MetaOk;
    assert MetaOk(bs, all[|all| - 1], |row|);
  }

  lemma {:induction false} TotalMonotone(metas: seq<SeqMeta>, k: nat)
    requires k <= |metas|
    ensures Total(metas[..k]) <= Total(metas)
  {
    if k < |metas| {
      TotalMonotone(metas[..|metas| - 1], k);
      assert metas[..|metas| - 1][..k] == metas[..k];
    } else {
      assert metas[..k] == metas;
    }
  }
}
