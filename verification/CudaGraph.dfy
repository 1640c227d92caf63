// Graph decode: one token through a captured forward of fixed shape, over a padded window whose
// unused lanes are masked out.
module CudaGraph {
  import opened Wrappers
  import opened Reference
  import opened PagedStore
  import opened RaggedForward
  import opened Softmax
  import opened KVCache
  import opened ModelRunner

  // ---------- masked attention over a padded window ----------

  function MaskedSum(exp: real -> real, scores: seq<real>, mask: seq<bool>): real
    requires |scores| == |mask|
  {
    if scores == [] then 0.0
    else
      MaskedSum(exp, scores[..|scores| - 1], mask[..|mask| - 1])
      + if mask[|mask| - 1] then exp(scores[|scores| - 1]) else 0.0
  }

  function MaskedWeights(exp: real -> real, scores: seq<real>, mask: seq<bool>): (w: seq<real>)
    requires |scores| == |mask| && MaskedSum(exp, scores, mask) != 0.0
    ensures |w| == |scores|
  {
    seq(|scores|, j requires 0 <= j < |scores| =>
      if mask[j] then exp(scores[j]) / MaskedSum(exp, scores, mask) else 0.0)
  }

  lemma {:induction false} MaskedSumPositive(exp: real -> real, scores: seq<real>, mask: seq<bool>)
    requires ExpLaws(exp) && |scores| == |mask|
    ensures MaskedSum(exp, scores, mask) >= 0.0
    ensures true in mask ==> MaskedSum(exp, scores, mask) > 0.0
  {
    if scores != [] {
      var n := |scores| - 1;
      MaskedSumPositive(exp, scores[..n], mask[..n]);
      ExpPositive(exp, scores[n]);
      assert mask == mask[..n] + [mask[n]];
    }
  }

  function MaskedHead(a: Attn, q: Vec, keys: seq<Vec>, values: seq<Vec>, mask: seq<bool>): (out: Vec)
    requires |keys| == |values| == |mask| && true in mask && ExpLaws(a.exp)
    ensures |out| == a.headDim
  {
    MaskedSumPositive(a.exp, Scores(a, q, keys), mask);
    var w := MaskedWeights(a.exp, Scores(a, q, keys), mask);
    seq(a.headDim, d requires d >= 0 => Mix(w, values, d))
  }

  function MaskedAttend(a: Attn, q: Heads, kvs: seq<KV>, mask: seq<bool>): (out: Heads)
    requires |kvs| == |mask| && true in mask && ExpLaws(a.exp)
    ensures |out| == a.numHeads
  {
    seq(a.numHeads, h requires h >= 0 =>
      MaskedHead(a, Head(q, h), Keys(kvs, h / a.groups), Values(kvs, h / a.groups), mask))
  }

  // The mask of a window whose first n lanes are live.
  ghost predicate LivePrefix(mask: seq<bool>, n: nat) {
    n <= |mask| && forall j :: 0 <= j < |mask| ==> (mask[j] <==> j < n)
  }

  lemma {:induction false} MaskedSumLive(exp: real -> real, scores: seq<real>, mask: seq<bool>, n: nat)
    requires |scores| == |mask| && LivePrefix(mask, n)
    ensures MaskedSum(exp, scores, mask) == ExpSum(exp, scores[..n])
  {
    if scores != [] {
      var m := |scores| - 1;
      if n <= m {
        MaskedSumLive(exp, scores[..m], mask[..m], n);
        assert scores[..m][..n] == scores[..n];
      } else {
        MaskedSumLive(exp, scores[..m], mask[..m], m);
        assert scores[..m][..m] == scores[..m] && scores[..n] == scores;
      }
    }
  }

  lemma {:induction false} MixLive(w: seq<real>, u: seq<real>, vs: seq<Vec>, d: nat)
    requires |u| <= |w| == |vs|
    requires forall j :: 0 <= j < |w| ==> w[j] == if j < |u| then u[j] else 0.0
    ensures Mix(w, vs, d) == Mix(u, vs[..|u|], d)
  {
    if w != [] {
      var m := |w| - 1;
      if |u| <= m {
        MixLive(w[..m], u, vs[..m], d);
        assert vs[..m][..|u|] == vs[..|u|];
      } else {
        MixLive(w[..m], u[..m], vs[..m], d);
        assert vs[..m][..m] == vs[..m] && vs[..|u|] == vs;
      }
    }
  }

  lemma ScoresPrefix(a: Attn, q: Vec, keys: seq<Vec>, n: nat)
    requires n <= |keys|
    ensures Scores(a, q, keys[..n]) == Scores(a, q, keys)[..n]
  {
    var prefix := keys[..n];
    forall j | 0 <= j < n
      ensures Scores(a, q, prefix)[j] == Scores(a, q, keys)[j]
    {
      assert prefix[j] == keys[j];
    }
  }

  // Masked lanes contribute nothing, whatever they hold.
  lemma MaskedHeadIsHead(a: Attn, q: Vec, keys: seq<Vec>, values: seq<Vec>, mask: seq<bool>, n: nat)
    requires |keys| == |values| == |mask| && ExpLaws(a.exp) && LivePrefix(mask, n) && n > 0
    ensures true in mask
    ensures MaskedHead(a, q, keys, values, mask) == AttendHead(a, q, keys[..n], values[..n])
  {
    assert mask[0];
    var scores := Scores(a, q, keys);
    ScoresPrefix(a, q, keys, n);
    MaskedSumLive(a.exp, scores, mask, n);
    MaskedSumPositive(a.exp, scores, mask);
    var w, u := MaskedWeights(a.exp, scores, mask), Weights(a.exp, scores[..n]);
    forall d | 0 <= d < a.headDim
      ensures Mix(w, values, d) == Mix(u, values[..n], d)
    {
      MixLive(w, u, values, d);
    }
  }

  lemma MaskedAttendIsAttend(a: Attn, q: Heads, kvs: seq<KV>, mask: seq<bool>, n: nat)
    requires |kvs| == |mask| && ExpLaws(a.exp) && LivePrefix(mask, n) && n > 0
    ensures true in mask
    ensures MaskedAttend(a, q, kvs, mask) == SoftmaxAttend(a, q, kvs[..n])
  {
    assert mask[0];
    forall h | 0 <= h < a.numHeads
      ensures MaskedAttend(a, q, kvs, mask)[h] == SoftmaxAttend(a, q, kvs[..n])[h]
    {
      var keys, values := Keys(kvs, h / a.groups), Values(kvs, h / a.groups);
      MaskedHeadIsHead(a, Head(q, h), keys, values, mask, n);
      assert Keys(kvs[..n], h / a.groups) == keys[..n] && Values(kvs[..n], h / a.groups) == values[..n];
    }
  }

  // ---------- the decoder ----------

  // The static input buffers of one captured graph.
  datatype Buffers = Buffers(tok: int, pos: nat, wslot: nat, cslots: seq<nat>, mask: seq<bool>)

  ghost predicate DecodeOk(net: Net, store: Store, bs: pos, width: nat, ids: seq<nat>, ctx: nat) {
    && Shape(net, store, width)
    && ctx > 0
    && Fits(bs, ids, ctx)
    && (forall j :: 0 <= j < ctx ==> Slot(bs, ids, j) < width)
  }

  // What the eager runner computes for one new token at the end of a context of `ctx` positions.
  ghost function EagerDecode(net: Net, store: Store, bs: pos, width: nat, ids: seq<nat>, ctx: nat, tok: int, pos: nat)
      : (r: (seq<Vec>, Store))
    requires DecodeOk(net, store, bs, width, ids, ctx)
    ensures |r.0| == 1 && Shape(net, r.1, width)
  {
    DecodeTotal([SeqMeta(ids, 1, ctx)]);
    Forward(net, store, bs, width, [SeqMeta(ids, 1, ctx)], [tok], [pos], [Slot(bs, ids, ctx - 1)])
  }

  ghost function EagerTo(net: Net, store: Store, bs: pos, width: nat, ids: seq<nat>, ctx: nat, tok: int, pos: nat,
                         l: nat)
      : (r: (seq<Vec>, Store))
    requires DecodeOk(net, store, bs, width, ids, ctx) && l <= |net.layers|
    ensures |r.0| == 1 && Shape(net, r.1, width)
  {
    DecodeTotal([SeqMeta(ids, 1, ctx)]);
    ForwardTo(net, store, bs, width, [SeqMeta(ids, 1, ctx)], [tok], [pos], [Slot(bs, ids, ctx - 1)], l)
  }

  // One layer of the eager decode, with the context gathered back from the cache.
  lemma EagerLayer(net: Net, store: Store, bs: pos, width: nat, ids: seq<nat>, ctx: nat, tok: int, pos: nat, l: nat)
    requires DecodeOk(net, store, bs, width, ids, ctx) && l < |net.layers|
    ensures var (xs, st) := EagerTo(net, store, bs, width, ids, ctx, tok, pos, l);
      var layer := net.layers[l];
      var row := st[l][Slot(bs, ids, ctx - 1) := layer.kv(xs[0], pos)];
      var heads := layer.attend(layer.query(xs[0], pos), Gather(row, ContextSlots(bs, ids, ctx)));
      EagerTo(net, store, bs, width, ids, ctx, tok, pos, l + 1) == ([layer.finish(xs[0], heads)], st[l := row])
  {
    var metas, slots := [SeqMeta(ids, 1, ctx)], [Slot(bs, ids, ctx - 1)];
    DecodeTotal(metas);
    var (xs, st) := EagerTo(net, store, bs, width, ids, ctx, tok, pos, l);
    var layer := net.layers[l];
    var kvs := ProjectKv(layer, xs, [pos]);
    assert kvs == [layer.kv(xs[0], pos)];
    var row := st[l][slots[0] := kvs[0]];
    assert Scatter(st[l], slots[..0], kvs[..0]) == st[l];
    assert Scatter(st[l], slots, kvs) == row;
    DecodeRow(layer, bs, row, metas, xs, [pos], kvs, 0);
    DecodeContext(bs, st[l], metas, slots, kvs, 0);
    var heads := AttendBatch(layer, bs, row, metas, xs, [pos], kvs);
    assert FinishRows(layer, xs, heads) == [layer.finish(xs[0], heads[0])];
  }

  // The smallest bucket that fits, if any does.
  function SmallestFit(buckets: seq<nat>, ctx: nat): (r: Option<nat>)
    ensures r.Some? ==> r.value in buckets && r.value >= ctx
    ensures r.None? ==> forall b :: b in buckets ==> b < ctx
  {
    if buckets == [] then None
    else if buckets[0] >= ctx then Some(buckets[0])
    else
      assert buckets == [buckets[0]] + buckets[1..];
      SmallestFit(buckets[1..], ctx)
  }

  lemma {:induction false} SmallestFitIsSmallest(buckets: seq<nat>, ctx: nat)
    requires SortedBy(buckets, (a, b) => a <= b)
    ensures forall b :: b in buckets && b >= ctx ==>
      SmallestFit(buckets, ctx).Some? && SmallestFit(buckets, ctx).value <= b
  {
    if buckets != [] {
      assert buckets == [buckets[0]] + buckets[1..];
      if buckets[0] < ctx {
        SmallestFitIsSmallest(buckets[1..], ctx);
      }
    }
  }

  class CudaGraphDecoder {
    const runner: Runner
    const cache: PagedKVCache
    const buckets: seq<nat>
    const maxCtx: nat
    var buffers: map<nat, Buffers>

    ghost predicate Valid()
      reads this
    {
      && cache.Valid()
      && cache.numLayers == |runner.net.layers|
      && buckets != [] && SortedBy(buckets, (a, b) => a <= b)
      && maxCtx == buckets[|buckets| - 1]
      && (forall b :: b in buckets ==> b in buffers && |buffers[b].cslots| == |buffers[b].mask| == b)
    }

    // Allocates the static buffers of every bucket.
    constructor (runner: Runner, cache: PagedKVCache, sizes: seq<nat>)
      requires sizes != [] && cache.Valid() && cache.numLayers == |runner.net.layers|
      ensures Valid() && this.runner == runner && this.cache == cache
      ensures multiset(buckets) == multiset(sizes)
    {
      this.runner, this.cache := runner, cache;
      SortBySorts(sizes, (a: nat, b: nat) => a <= b);
      var sorted := SortBy(sizes, (a: nat, b: nat) => a <= b);
      buckets, maxCtx := sorted, sorted[|sorted| - 1];
      buffers := map b | b in sorted :: Buffers(0, 0, 0, seq(b, i => 0), seq(b, i => false));
    }

    predicate CanHandle(ctx: nat) {
      ctx <= maxCtx
    }

    // The captured forward: one row, the whole window gathered, unused lanes masked.
    method Replay(b: Buffers, ghost ids: seq<nat>, ghost ctx: nat) returns (logits: Vec)
      requires Valid() && SoftmaxNet(runner.net, runner.attn)
      requires DecodeOk(runner.net, cache.Contents(), cache.blockSize, cache.kv.Length1, ids, ctx)
      requires |b.cslots| == |b.mask| && LivePrefix(b.mask, ctx) && Within(b.cslots, cache.kv.Length1)
      requires b.cslots[..ctx] == ContextSlots(cache.blockSize, ids, ctx)
      requires b.wslot == Slot(cache.blockSize, ids, ctx - 1)
      modifies cache.kv
      ensures var r := EagerDecode(runner.net, old(cache.Contents()), cache.blockSize, cache.kv.Length1, ids, ctx,
        b.tok, b.pos);
              logits == runner.net.lmHead(r.0[0]) && cache.Contents() == r.1
    {
      var net, attn := runner.net, runner.attn;
      ghost var before, bs, width := cache.Contents(), cache.blockSize, cache.kv.Length1;
      var x := net.embed(b.tok);
      assert EagerTo(net, before, bs, width, ids, ctx, b.tok, b.pos, 0).0 == [x];
      for l := 0 to |net.layers|
        invariant ([x], cache.Contents()) == EagerTo(net, before, bs, width, ids, ctx, b.tok, b.pos, l)
      {
        var layer := net.layers[l];
        EagerLayer(net, before, bs, width, ids, ctx, b.tok, b.pos, l);
        var kv := layer.kv(x, b.pos);
        cache.Put(l, b.wslot, kv);
        var window := cache.GatherSlots(l, b.cslots);
        MaskedAttendIsAttend(attn, layer.query(x, b.pos), window, b.mask, ctx);
        assert window[..ctx] == Gather(cache.Contents()[l], b.cslots[..ctx]);
        x := layer.finish(x, MaskedAttend(attn, layer.query(x, b.pos), window, b.mask));
      }
      logits := net.lmHead(net.norm(x));
    }

    /** Decodes one token through the smallest bucket that fits.  What the buffers held before does not
        matter: the result is the eager runner's. */
    method Decode(token: int, position: nat, writeSlot: nat, ctxSlots: seq<nat>,
                  ghost ids: seq<nat>) returns (logits: Vec)
      requires Valid() && SoftmaxNet(runner.net, runner.attn) && CanHandle(|ctxSlots|)
      requires DecodeOk(runner.net, cache.Contents(), cache.blockSize, cache.kv.Length1, ids, |ctxSlots|)
      requires ctxSlots == ContextSlots(cache.blockSize, ids, |ctxSlots|)
      requires writeSlot == Slot(cache.blockSize, ids, |ctxSlots| - 1)
      modifies this, cache.kv
      ensures Valid()
      ensures var mc := SmallestFit(buckets, |ctxSlots|);
        mc.Some? && forall b :: b != mc.value ==>
          (b in buffers <==> b in old(buffers)) && (b in buffers ==> buffers[b] == old(buffers)[b])
      ensures var r := EagerDecode(runner.net, old(cache.Contents()), cache.blockSize, cache.kv.Length1, ids,
        |ctxSlots|, token, position);
              logits == runner.net.lmHead(r.0[0]) && cache.Contents() == r.1
    {
      var ctx := |ctxSlots|;
      assert buckets[|buckets| - 1] in buckets;
      SmallestFitIsSmallest(buckets, ctx);
      var mc := SmallestFit(buckets, ctx).value;
      var b := buffers[mc];
      b := b.(tok := token, pos := position, wslot := writeSlot);
      b := b.(cslots := ctxSlots + seq(mc - ctx, i => 0));
      b := b.(mask := seq(ctx, i => true) + seq(mc - ctx, i => false));
      buffers := buffers[mc := b];
      assert b.cslots[..ctx] == ctxSlots;
      logits := Replay(b, ids, ctx);
    }
  }
}
