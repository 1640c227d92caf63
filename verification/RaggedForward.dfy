// One forward pass over a ragged batch: decode rows, prefill chunks and fresh prefills flattened into
// one list of rows, reading and writing the paged cache.  First the computation as functions, then the
// proof that it gives every row the reference's hidden state.
module RaggedForward {
  import opened Wrappers
  import opened Reference
  import opened PagedStore

  // One sequence's slice of the flat batch: `qLen` new rows at the end of a context of `ctxLen`.
  datatype SeqMeta = SeqMeta(blockIds: seq<nat>, qLen: nat, ctxLen: nat)

  function Total(metas: seq<SeqMeta>): nat {
    if metas == [] then 0 else Total(metas[..|metas| - 1]) + metas[|metas| - 1].qLen
  }

  ghost predicate MetaOk(bs: pos, meta: SeqMeta, width: nat) {
    && meta.qLen <= meta.ctxLen
    && Fits(bs, meta.blockIds, meta.ctxLen)
    && (forall j :: 0 <= j < meta.ctxLen ==> Slot(bs, meta.blockIds, j) < width)
  }

  ghost predicate MetasOk(bs: pos, metas: seq<SeqMeta>, width: nat) {
    forall i :: 0 <= i < |metas| ==> MetaOk(bs, metas[i], width)
  }

  function ProjectKv(layer: Layer, xs: seq<Vec>, pos: seq<nat>): (kvs: seq<KV>)
    requires |xs| == |pos|
    ensures |kvs| == |xs|
  {
    seq(|xs|, i requires 0 <= i < |xs| => layer.kv(xs[i], pos[i]))
  }

  // The new rows are the last ones of the context, so the causal mask is aligned bottom-right.
  function AttendSeq(layer: Layer, xs: seq<Vec>, pos: seq<nat>, ctx: seq<KV>): (heads: seq<Heads>)
    requires |xs| == |pos| && |xs| <= |ctx|
    ensures |heads| == |xs|
  {
    seq(|xs|, r requires 0 <= r < |xs| =>
      layer.attend(layer.query(xs[r], pos[r]), ctx[..|ctx| - |xs| + r + 1]))
  }

  // A fresh prefill attends over the keys and values just projected; anything else gathers its context.
  function ContextOf(bs: pos, row: seq<KV>, meta: SeqMeta, projected: seq<KV>): (ctx: seq<KV>)
    requires MetaOk(bs, meta, |row|) && |projected| == meta.qLen
    ensures |ctx| == meta.ctxLen
  {
    if meta.ctxLen == meta.qLen then projected
    else Gather(row, ContextSlots(bs, meta.blockIds, meta.ctxLen))
  }

  function AttendBatch(layer: Layer, bs: pos, row: seq<KV>, metas: seq<SeqMeta>,
                       xs: seq<Vec>, pos: seq<nat>, kvs: seq<KV>): (heads: seq<Heads>)
    requires |xs| == |pos| == |kvs| && Total(metas) <= |xs| && MetasOk(bs, metas, |row|)
    ensures |heads| == Total(metas)
  {
    if metas == [] then []
    else
      var before, meta := metas[..|metas| - 1], metas[|metas| - 1];
      var offset := Total(before);
      var end := offset + meta.qLen;
      AttendBatch(layer, bs, row, before, xs, pos, kvs)
      + AttendSeq(layer, xs[offset..end], pos[offset..end], ContextOf(bs, row, meta, kvs[offset..end]))
  }

  function FinishRows(layer: Layer, xs: seq<Vec>, heads: seq<Heads>): (out: seq<Vec>)
    requires |xs| == |heads|
    ensures |out| == |xs|
  {
    seq(|xs|, i requires 0 <= i < |xs| => layer.finish(xs[i], heads[i]))
  }

  function LayerForward(layer: Layer, bs: pos, row: seq<KV>, metas: seq<SeqMeta>,
                        xs: seq<Vec>, pos: seq<nat>, slots: seq<nat>): (r: (seq<Vec>, seq<KV>))
    requires |xs| == |pos| == |slots| == Total(metas) && MetasOk(bs, metas, |row|) && Within(slots, |row|)
    ensures |r.0| == |xs| && |r.1| == |row|
  {
    var kvs := ProjectKv(layer, xs, pos);
    var written := Scatter(row, slots, kvs);
    (FinishRows(layer, xs, AttendBatch(layer, bs, written, metas, xs, pos, kvs)), written)
  }

  ghost predicate BatchOk(net: Net, store: Store, bs: pos, width: nat, metas: seq<SeqMeta>,
                          toks: seq<int>, pos: seq<nat>, slots: seq<nat>) {
    && Shape(net, store, width)
    && |toks| == |pos| == |slots| == Total(metas)
    && MetasOk(bs, metas, width)
    && Within(slots, width)
  }

  // Residual rows and cache after the first l layers.
  function ForwardTo(net: Net, store: Store, bs: pos, ghost width: nat, metas: seq<SeqMeta>,
                     toks: seq<int>, pos: seq<nat>, slots: seq<nat>, l: nat): (r: (seq<Vec>, Store))
    requires BatchOk(net, store, bs, width, metas, toks, pos, slots) && l <= |net.layers|
    ensures |r.0| == |toks| && Shape(net, r.1, width)
  {
    if l == 0 then (seq(|toks|, i requires 0 <= i < |toks| => net.embed(toks[i])), store)
    else
      var (xs, st) := ForwardTo(net, store, bs, width, metas, toks, pos, slots, l - 1);
      var (ys, row) := LayerForward(net.layers[l - 1], bs, st[l - 1], metas, xs, pos, slots);
      (ys, st[l - 1 := row])
  }

  function Normed(net: Net, xs: seq<Vec>): (hidden: seq<Vec>)
    ensures |hidden| == |xs|
  {
    seq(|xs|, i requires 0 <= i < |xs| => net.norm(xs[i]))
  }

  function Forward(net: Net, store: Store, bs: pos, ghost width: nat, metas: seq<SeqMeta>,
                   toks: seq<int>, pos: seq<nat>, slots: seq<nat>): (r: (seq<Vec>, Store))
    requires BatchOk(net, store, bs, width, metas, toks, pos, slots)
    ensures |r.0| == |toks| && Shape(net, r.1, width)
  {
    var (xs, st) := ForwardTo(net, store, bs, width, metas, toks, pos, slots, |net.layers|);
    (Normed(net, xs), st)
  }

  // ---------- a batch described by the sequences it came from ----------

  // The sequence `toks` in blocks `ids`, of which positions `start..` are new in this batch.
  datatype Piece = Piece(ids: seq<nat>, toks: seq<int>, start: nat)

  ghost predicate PieceOk(bs: pos, p: Piece, width: nat) {
    && p.start <= |p.toks|
    && Fits(bs, p.ids, |p.toks|)
    && (forall j :: 0 <= j < |p.toks| ==> Slot(bs, p.ids, j) < width)
  }

  ghost predicate PiecesOk(bs: pos, ps: seq<Piece>, width: nat) {
    forall i :: 0 <= i < |ps| ==> PieceOk(bs, ps[i], width)
  }

  function MetaOf(p: Piece): SeqMeta
    requires p.start <= |p.toks|
  {
    SeqMeta(p.ids, |p.toks| - p.start, |p.toks|)
  }

  ghost function Metas(bs: pos, ps: seq<Piece>, width: nat): (metas: seq<SeqMeta>)
    requires PiecesOk(bs, ps, width)
    ensures |metas| == |ps| && MetasOk(bs, metas, width)
  {
    seq(|ps|, i requires 0 <= i < |ps| => MetaOf(ps[i]))
  }

  ghost function Tokens(ps: seq<Piece>): seq<int>
    requires forall i :: 0 <= i < |ps| ==> ps[i].start <= |ps[i].toks|
  {
    if ps == [] then []
    else var p := ps[|ps| - 1]; Tokens(ps[..|ps| - 1]) + p.toks[p.start..]
  }

  ghost function Positions(ps: seq<Piece>): (pos: seq<nat>)
    requires forall i :: 0 <= i < |ps| ==> ps[i].start <= |ps[i].toks|
    ensures |pos| == |Tokens(ps)|
  {
    if ps == [] then []
    else
      var p := ps[|ps| - 1];
      Positions(ps[..|ps| - 1]) + seq<nat>(|p.toks| - p.start, i requires i >= 0 => p.start + i)
  }

  ghost function WriteSlots(bs: pos, ps: seq<Piece>, width: nat): (slots: seq<nat>)
    requires PiecesOk(bs, ps, width)
    ensures |slots| == |Tokens(ps)| && Within(slots, width)
  {
    if ps == [] then []
    else
      var p := ps[|ps| - 1];
      WriteSlots(bs, ps[..|ps| - 1], width) + SlotsFor(bs, p.ids, p.start, |p.toks|)
  }

  // The reference's rows for the new tokens of every piece, flattened.
  ghost function RefRows(net: Net, ps: seq<Piece>, l: nat): (rows: seq<Vec>)
    requires l <= |net.layers| && forall i :: 0 <= i < |ps| ==> ps[i].start <= |ps[i].toks|
    ensures |rows| == |Tokens(ps)|
  {
    if ps == [] then []
    else var p := ps[|ps| - 1]; RefRows(net, ps[..|ps| - 1], l) + Rows(net, p.toks, l)[p.start..]
  }

  ghost function RefKvs(net: Net, ps: seq<Piece>, l: nat): (kvs: seq<KV>)
    requires l < |net.layers| && forall i :: 0 <= i < |ps| ==> ps[i].start <= |ps[i].toks|
    ensures |kvs| == |Tokens(ps)|
  {
    if ps == [] then []
    else var p := ps[|ps| - 1]; RefKvs(net, ps[..|ps| - 1], l) + KvRows(net, p.toks, l)[p.start..]
  }

  lemma {:induction false} TotalIsRows(bs: pos, ps: seq<Piece>, width: nat)
    requires PiecesOk(bs, ps, width)
    ensures Total(Metas(bs, ps, width)) == |Tokens(ps)|
  {
    if ps != [] {
      TotalIsRows(bs, ps[..|ps| - 1], width);
      assert Metas(bs, ps, width)[..|ps| - 1] == Metas(bs, ps[..|ps| - 1], width);
    }
  }

  /** No slot written by the batch is written twice, and none belongs to the part of any piece's context
      that was already cached. */
  ghost predicate NonAliasing(bs: pos, ps: seq<Piece>, width: nat)
    requires PiecesOk(bs, ps, width)
  {
    && NoDup(WriteSlots(bs, ps, width))
    && (forall k, j :: 0 <= k < |ps| && 0 <= j < ps[k].start ==> Slot(bs, ps[k].ids, j) !in WriteSlots(bs, ps, width))
  }

  // Every piece's older positions are already cached.
  ghost predicate Cached(net: Net, store: Store, bs: pos, ps: seq<Piece>)
    requires forall i :: 0 <= i < |ps| ==> ps[i].start <= |ps[i].toks|
  {
    forall k :: 0 <= k < |ps| ==> Holds(net, store, bs, ps[k].ids, ps[k].toks[..ps[k].start])
  }

  // ---------- one layer ----------

  lemma ProjectConcat(layer: Layer, xs: seq<Vec>, ys: seq<Vec>, pos: seq<nat>, pos': seq<nat>)
    requires |xs| == |pos| && |ys| == |pos'|
    ensures ProjectKv(layer, xs + ys, pos + pos') == ProjectKv(layer, xs, pos) + ProjectKv(layer, ys, pos')
  {
  }

  lemma {:induction false} ProjectIsRef(net: Net, ps: seq<Piece>, l: nat)
    requires l < |net.layers| && forall i :: 0 <= i < |ps| ==> ps[i].start <= |ps[i].toks|
    ensures ProjectKv(net.layers[l], RefRows(net, ps, l), Positions(ps)) == RefKvs(net, ps, l)
  {
    if ps != [] {
      var before, p := ps[..|ps| - 1], ps[|ps| - 1];
      ProjectIsRef(net, before, l);
      var own := seq<nat>(|p.toks| - p.start, i requires i >= 0 => p.start + i);
      assert ProjectKv(net.layers[l], Rows(net, p.toks, l)[p.start..], own) == KvRows(net, p.toks, l)[p.start..];
      ProjectConcat(net.layers[l], RefRows(net, before, l), Rows(net, p.toks, l)[p.start..], Positions(before), own);
    }
  }

  // Where new position j of piece k sits in the flat batch.
  lemma {:induction false} FlatIndex(net: Net, bs: pos, ps: seq<Piece>, width: nat, l: nat, k: nat,
                                     j: nat) returns (f: nat)
    requires PiecesOk(bs, ps, width) && l < |net.layers|
    requires k < |ps| && ps[k].start <= j < |ps[k].toks|
    ensures f < |Tokens(ps)|
    ensures WriteSlots(bs, ps, width)[f] == Slot(bs, ps[k].ids, j)
    ensures RefKvs(net, ps, l)[f] == KvRows(net, ps[k].toks, l)[j]
  {
    var before := ps[..|ps| - 1];
    if k < |ps| - 1 {
      f := FlatIndex(net, bs, before, width, l, k, j);
    } else {
      f := |Tokens(before)| + (j - ps[k].start);
    }
  }

  // After the layer's writes the whole context of every piece is in the cache row.
  lemma WrittenIsRef(net: Net, bs: pos, ps: seq<Piece>, width: nat, l: nat, row: seq<KV>)
    requires PiecesOk(bs, ps, width) && l < |net.layers| && |row| == width && NonAliasing(bs, ps, width)
    requires forall k, j :: 0 <= k < |ps| && 0 <= j < ps[k].start ==>
               row[Slot(bs, ps[k].ids, j)] == KvRows(net, ps[k].toks, l)[j]
    ensures var written := Scatter(row, WriteSlots(bs, ps, width), RefKvs(net, ps, l));
            forall k, j :: 0 <= k < |ps| && 0 <= j < |ps[k].toks| ==>
              written[Slot(bs, ps[k].ids, j)] == KvRows(net, ps[k].toks, l)[j]
  {
    var slots, kvs := WriteSlots(bs, ps, width), RefKvs(net, ps, l);
    ScatterAt(row, slots, kvs);
    ScatterElsewhere(row, slots, kvs);
    forall k, j | 0 <= k < |ps| && 0 <= j < |ps[k].toks|
      ensures Scatter(row, slots, kvs)[Slot(bs, ps[k].ids, j)] == KvRows(net, ps[k].toks, l)[j]
    {
      if ps[k].start <= j {
        var f := FlatIndex(net, bs, ps, width, l, k, j);
        assert Scatter(row, slots, kvs)[slots[f]] == kvs[f];
      }
    }
  }

  // The heads the reference computes for the new rows of one piece.
  ghost function RefHeads(net: Net, p: Piece, l: nat): (heads: seq<Heads>)
    requires l < |net.layers| && p.start <= |p.toks|
    ensures |heads| == |p.toks| - p.start
  {
    var rows, kvs := Rows(net, p.toks, l), KvRows(net, p.toks, l);
    seq(|p.toks| - p.start, r requires 0 <= r < |p.toks| - p.start =>
      net.layers[l].attend(net.layers[l].query(rows[p.start + r], p.start + r), kvs[..p.start + r + 1]))
  }

  ghost function AllRefHeads(net: Net, ps: seq<Piece>, l: nat): (heads: seq<Heads>)
    requires l < |net.layers| && forall i :: 0 <= i < |ps| ==> ps[i].start <= |ps[i].toks|
    ensures |heads| == |Tokens(ps)|
  {
    if ps == [] then [] else AllRefHeads(net, ps[..|ps| - 1], l) + RefHeads(net, ps[|ps| - 1], l)
  }

  // Fresh prefill and gather give the same context once the row holds it.
  lemma ContextIsRef(net: Net, bs: pos, row: seq<KV>, p: Piece, l: nat)
    requires l < |net.layers| && PieceOk(bs, p, |row|)
    requires forall j :: 0 <= j < |p.toks| ==> row[Slot(bs, p.ids, j)] == KvRows(net, p.toks, l)[j]
    ensures ContextOf(bs, row, MetaOf(p), KvRows(net, p.toks, l)[p.start..]) == KvRows(net, p.toks, l)
  {
  }

  lemma AttendSeqIsRef(net: Net, bs: pos, row: seq<KV>, p: Piece, l: nat, pos: seq<nat>)
    requires l < |net.layers| && PieceOk(bs, p, |row|)
    requires forall j :: 0 <= j < |p.toks| ==> row[Slot(bs, p.ids, j)] == KvRows(net, p.toks, l)[j]
    requires pos == seq<nat>(|p.toks| - p.start, i requires i >= 0 => p.start + i)
    ensures AttendSeq(net.layers[l], Rows(net, p.toks, l)[p.start..], pos,
                      ContextOf(bs, row, MetaOf(p), KvRows(net, p.toks, l)[p.start..])) == RefHeads(net, p, l)
  {
    ContextIsRef(net, bs, row, p, l);
  }

  lemma {:induction false} AttendIsRef(net: Net, bs: pos, row: seq<KV>, ps: seq<Piece>, l: nat,
                                       xs: seq<Vec>, pos: seq<nat>, kvs: seq<KV>)
    requires l < |net.layers| && PiecesOk(bs, ps, |row|)
    requires forall k, j :: 0 <= k < |ps| && 0 <= j < |ps[k].toks| ==>
               row[Slot(bs, ps[k].ids, j)] == KvRows(net, ps[k].toks, l)[j]
    requires |xs| == |pos| == |kvs|
    requires RefRows(net, ps, l) <= xs && Positions(ps) <= pos && RefKvs(net, ps, l) <= kvs
    ensures Total(Metas(bs, ps, |row|)) <= |xs|
    ensures AttendBatch(net.layers[l], bs, row, Metas(bs, ps, |row|), xs, pos, kvs) == AllRefHeads(net, ps, l)
  {
    TotalIsRows(bs, ps, |row|);
    if ps != [] {
      var before, p := ps[..|ps| - 1], ps[|ps| - 1];
      var offset, end := |Tokens(before)|, |Tokens(ps)|;
      assert RefRows(net, before, l) <= xs && Positions(before) <= pos && RefKvs(net, before, l) <= kvs;
      AttendIsRef(net, bs, row, before, l, xs, pos, kvs);
      TotalIsRows(bs, before, |row|);
      var metas := Metas(bs, ps, |row|);
      assert metas[..|metas| - 1] == Metas(bs, before, |row|);
      assert metas[|metas| - 1] == MetaOf(p);
      SliceIsRef(net, ps, l, xs, pos, kvs);
      AttendSeqIsRef(net, bs, row, p, l, pos[offset..end]);
    }
  }

  lemma SliceIsRef(net: Net, ps: seq<Piece>, l: nat, xs: seq<Vec>, pos: seq<nat>, kvs: seq<KV>)
    requires l < |net.layers| && ps != [] && forall i :: 0 <= i < |ps| ==> ps[i].start <= |ps[i].toks|
    requires RefRows(net, ps, l) <= xs && Positions(ps) <= pos && RefKvs(net, ps, l) <= kvs
    ensures var p := ps[|ps| - 1];
            var offset, end := |Tokens(ps[..|ps| - 1])|, |Tokens(ps)|;
            && xs[offset..end] == Rows(net, p.toks, l)[p.start..]
            && kvs[offset..end] == KvRows(net, p.toks, l)[p.start..]
            && pos[offset..end] == seq<nat>(|p.toks| - p.start, i requires i >= 0 => p.start + i)
  {
    hide Rows, KvRows;
    var before, p := ps[..|ps| - 1], ps[|ps| - 1];
    LastPart(RefRows(net, before, l), Rows(net, p.toks, l)[p.start..], xs);
    LastPart(RefKvs(net, before, l), KvRows(net, p.toks, l)[p.start..], kvs);
    LastPart(Positions(before), seq<nat>(|p.toks| - p.start, i requires i >= 0 => p.start + i), pos);
  }

  lemma LastPart<T>(before: seq<T>, own: seq<T>, all: seq<T>)
    requires before + own <= all
    ensures all[|before|..|before| + |own|] == own
  {
    assert all[..|before + own|] == before + own;
    assert all[|before|..|before| + |own|] == (before + own)[|before|..];
  }

  lemma {:induction false} FinishIsRef(net: Net, ps: seq<Piece>, l: nat)
    requires l < |net.layers| && forall i :: 0 <= i < |ps| ==> ps[i].start <= |ps[i].toks|
    ensures FinishRows(net.layers[l], RefRows(net, ps, l), AllRefHeads(net, ps, l)) == RefRows(net, ps, l + 1)
  {
    hide FinishRows, Rows, RefHeads;
    if ps == [] {
      FinishNone(net.layers[l]);
    } else {
      var before, p := ps[..|ps| - 1], ps[|ps| - 1];
      FinishIsRef(net, before, l);
      FinishPiece(net, p, l);
      FinishConcat(net.layers[l], RefRows(net, before, l), Rows(net, p.toks, l)[p.start..],
        AllRefHeads(net, before, l), RefHeads(net, p, l));
    }
  }

  lemma FinishNone(layer: Layer)
    ensures FinishRows(layer, [], []) == []
  {
  }

  lemma FinishConcat(layer: Layer, xs: seq<Vec>, ys: seq<Vec>, hx: seq<Heads>, hy: seq<Heads>)
    requires |xs| == |hx| && |ys| == |hy|
    ensures FinishRows(layer, xs + ys, hx + hy) == FinishRows(layer, xs, hx) + FinishRows(layer, ys, hy)
  {
  }

  lemma FinishPiece(net: Net, p: Piece, l: nat)
    requires l < |net.layers| && p.start <= |p.toks|
    ensures FinishRows(net.layers[l], Rows(net, p.toks, l)[p.start..], RefHeads(net, p, l)) ==
      Rows(net, p.toks, l + 1)[p.start..]
  {
    var rows := Rows(net, p.toks, l);
    assert Rows(net, p.toks, l + 1) == LayerRows(net.layers[l], rows);
  }

  lemma {:induction false} EmbedIsRef(net: Net, ps: seq<Piece>)
    requires forall i :: 0 <= i < |ps| ==> ps[i].start <= |ps[i].toks|
    ensures seq(|Tokens(ps)|, i requires 0 <= i < |Tokens(ps)| => net.embed(Tokens(ps)[i])) == RefRows(net, ps, 0)
  {
    if ps != [] {
      EmbedIsRef(net, ps[..|ps| - 1]);
      EmbedPiece(net, ps[|ps| - 1], Tokens(ps[..|ps| - 1]));
    }
  }

  lemma EmbedPiece(net: Net, p: Piece, before: seq<int>)
    requires p.start <= |p.toks|
    ensures var all := before + p.toks[p.start..];
      seq(|all|, i requires 0 <= i < |all| => net.embed(all[i]))
      == seq(|before|, i requires 0 <= i < |before| => net.embed(before[i])) + Rows(net, p.toks, 0)[p.start..]
  {
  }

  // ---------- all layers ----------

  lemma PiecesBatchOk(net: Net, store: Store, bs: pos, width: nat, ps: seq<Piece>)
    requires Shape(net, store, width) && PiecesOk(bs, ps, width)
    ensures BatchOk(net, store, bs, width, Metas(bs, ps, width), Tokens(ps), Positions(ps), WriteSlots(bs, ps, width))
  {
    TotalIsRows(bs, ps, width);
  }

  ghost function ForwardPiecesTo(net: Net, store: Store, bs: pos, width: nat, ps: seq<Piece>,
                                 l: nat): (r: (seq<Vec>, Store))
    requires Shape(net, store, width) && PiecesOk(bs, ps, width) && l <= |net.layers|
    ensures |r.0| == |Tokens(ps)| && Shape(net, r.1, width)
  {
    PiecesBatchOk(net, store, bs, width, ps);
    ForwardTo(net, store, bs, width, Metas(bs, ps, width), Tokens(ps), Positions(ps), WriteSlots(bs, ps, width), l)
  }

  ghost function ForwardPieces(net: Net, store: Store, bs: pos, width: nat, ps: seq<Piece>): (r: (seq<Vec>, Store))
    requires Shape(net, store, width) && PiecesOk(bs, ps, width)
    ensures |r.0| == |Tokens(ps)| && Shape(net, r.1, width)
  {
    PiecesBatchOk(net, store, bs, width, ps);
    Forward(net, store, bs, width, Metas(bs, ps, width), Tokens(ps), Positions(ps), WriteSlots(bs, ps, width))
  }

  // Layer l's row of the cache holds the whole context of every piece.
  ghost predicate RowFilled(net: Net, bs: pos, ps: seq<Piece>, row: seq<KV>, l: nat)
    requires l < |net.layers| && PiecesOk(bs, ps, |row|)
  {
    forall k, j :: 0 <= k < |ps| && 0 <= j < |ps[k].toks| ==>
      row[Slot(bs, ps[k].ids, j)] == KvRows(net, ps[k].toks, l)[j]
  }

  ghost predicate Untouched(store: Store, store': Store, slots: seq<nat>) {
    && |store| == |store'|
    && forall l, s :: 0 <= l < |store| && 0 <= s < |store[l]| && s !in slots ==>
         |store[l]| == |store'[l]| && store'[l][s] == store[l][s]
  }

  lemma CachedRow(net: Net, store: Store, bs: pos, ps: seq<Piece>, l: nat)
    requires forall i :: 0 <= i < |ps| ==> ps[i].start <= |ps[i].toks| && Fits(bs, ps[i].ids, |ps[i].toks|)
    requires Cached(net, store, bs, ps) && l < |net.layers| == |store|
    ensures forall k, j :: 0 <= k < |ps| && 0 <= j < ps[k].start ==>
      Slot(bs, ps[k].ids, j) < |store[l]| && store[l][Slot(bs, ps[k].ids, j)] == KvRows(net, ps[k].toks, l)[j]
  {
    forall k, j | 0 <= k < |ps| && 0 <= j < ps[k].start
      ensures Slot(bs, ps[k].ids, j) < |store[l]| && store[l][Slot(bs, ps[k].ids, j)] == KvRows(net, ps[k].toks, l)[j]
    {
      CausalKv(net, ps[k].toks, ps[k].start, l);
      assert Holds(net, store, bs, ps[k].ids, ps[k].toks[..ps[k].start]);
    }
  }

  lemma LayerStep(net: Net, store: Store, bs: pos, width: nat, ps: seq<Piece>, l: nat)
    requires Shape(net, store, width) && PiecesOk(bs, ps, width) && NonAliasing(bs, ps, width) && l < |net.layers|
    requires Cached(net, store, bs, ps)
    requires ForwardPiecesTo(net, store, bs, width, ps, l).0 == RefRows(net, ps, l)
    requires ForwardPiecesTo(net, store, bs, width, ps, l).1[l] == store[l]
    ensures ForwardPiecesTo(net, store, bs, width, ps, l + 1).0 == RefRows(net, ps, l + 1)
    ensures ForwardPiecesTo(net, store, bs, width, ps, l + 1).1 ==
      ForwardPiecesTo(net, store, bs, width, ps,
        l).1[l := Scatter(store[l], WriteSlots(bs, ps, width), RefKvs(net, ps, l))]
    ensures RowFilled(net, bs, ps, ForwardPiecesTo(net, store, bs, width, ps, l + 1).1[l], l)
  {
    PiecesBatchOk(net, store, bs, width, ps);
    ProjectIsRef(net, ps, l);
    CachedRow(net, store, bs, ps, l);
    WrittenIsRef(net, bs, ps, width, l, store[l]);
    var written := Scatter(store[l], WriteSlots(bs, ps, width), RefKvs(net, ps, l));
    AttendIsRef(net, bs, written, ps, l, RefRows(net, ps, l), Positions(ps), RefKvs(net, ps, l));
    FinishIsRef(net, ps, l);
  }

  // What has happened to the cache after l layers.
  ghost predicate Progress(net: Net, store: Store, st: Store, bs: pos, width: nat, ps: seq<Piece>, l: nat)
    requires Shape(net, store, width) && Shape(net, st, width) && PiecesOk(bs, ps, width) && l <= |net.layers|
  {
    && (forall m :: 0 <= m < l ==> RowFilled(net, bs, ps, st[m], m))
    && (forall m :: l <= m < |store| ==> st[m] == store[m])
    && Untouched(store, st, WriteSlots(bs, ps, width))
  }

  lemma ProgressStep(net: Net, store: Store, st: Store, bs: pos, width: nat, ps: seq<Piece>, l: nat, row: seq<KV>)
    requires Shape(net, store, width) && Shape(net, st, width) && PiecesOk(bs, ps, width) && l < |net.layers|
    requires Progress(net, store, st, bs, width, ps, l)
    requires row == Scatter(store[l], WriteSlots(bs, ps, width), RefKvs(net, ps, l)) && RowFilled(net, bs, ps, row, l)
    ensures Progress(net, store, st[l := row], bs, width, ps, l + 1)
  {
    hide RowFilled, KvRows, NoDup;
    var slots := WriteSlots(bs, ps, width);
    ScatterElsewhere(store[l], slots, RefKvs(net, ps, l));
    UntouchedRow(store, st, slots, l, row);
  }

  lemma UntouchedRow(store: Store, st: Store, slots: seq<nat>, l: nat, row: seq<KV>)
    requires Untouched(store, st, slots) && l < |store| == |st| && |row| == |store[l]|
    requires forall s :: 0 <= s < |row| && s !in slots ==> row[s] == store[l][s]
    ensures Untouched(store, st[l := row], slots)
  {
  }

  ghost predicate Reached(net: Net, store: Store, bs: pos, width: nat, ps: seq<Piece>, l: nat)
    requires Shape(net, store, width) && PiecesOk(bs, ps, width) && l <= |net.layers|
  {
    var r := ForwardPiecesTo(net, store, bs, width, ps, l);
    r.0 == RefRows(net, ps, l) && Progress(net, store, r.1, bs, width, ps, l)
  }

  lemma ForwardPiecesBase(net: Net, store: Store, bs: pos, width: nat, ps: seq<Piece>)
    requires Shape(net, store, width) && PiecesOk(bs, ps, width)
    ensures Reached(net, store, bs, width, ps, 0)
  {
    PiecesBatchOk(net, store, bs, width, ps);
    EmbedIsRef(net, ps);
  }

  lemma ForwardPiecesStep(net: Net, store: Store, bs: pos, width: nat, ps: seq<Piece>, l: nat)
    requires Shape(net, store, width) && PiecesOk(bs, ps, width) && NonAliasing(bs, ps, width) && l < |net.layers|
    requires Cached(net, store, bs, ps) && Reached(net, store, bs, width, ps, l)
    ensures Reached(net, store, bs, width, ps, l + 1)
  {
    LayerStep(net, store, bs, width, ps, l);
    var row := Scatter(store[l], WriteSlots(bs, ps, width), RefKvs(net, ps, l));
    ProgressStep(net, store, ForwardPiecesTo(net, store, bs, width, ps, l).1, bs, width, ps, l, row);
  }

  lemma ForwardPiecesToIsRef(net: Net, store: Store, bs: pos, width: nat, ps: seq<Piece>, l: nat)
    requires Shape(net, store, width) && PiecesOk(bs, ps, width) && NonAliasing(bs, ps, width) && l <= |net.layers|
    requires Cached(net, store, bs, ps)
    ensures Reached(net, store, bs, width, ps, l)
  {
    hide *;
    ForwardPiecesBase(net, store, bs, width, ps);
    for m := 0 to l
      invariant Reached(net, store, bs, width, ps, m)
    {
      ForwardPiecesStep(net, store, bs, width, ps, m);
    }
  }

  /** The ragged forward refines the reference: whatever mix of decode rows, chunks and fresh prefills
      is in the batch, every row gets the reference's hidden state, every sequence is cached through its
      last new token, and no slot outside the batch's own write slots changes. */
  lemma ForwardIsRef(net: Net, store: Store, bs: pos, width: nat, ps: seq<Piece>)
    requires Shape(net, store, width) && PiecesOk(bs, ps, width) && NonAliasing(bs, ps, width)
    requires Cached(net, store, bs, ps)
    ensures ForwardPieces(net, store, bs, width, ps).0 == Normed(net, RefRows(net, ps, |net.layers|))
    ensures forall k :: 0 <= k < |ps| ==>
      Holds(net, ForwardPieces(net, store, bs, width, ps).1, bs, ps[k].ids, ps[k].toks)
    ensures Untouched(store, ForwardPieces(net, store, bs, width, ps).1, WriteSlots(bs, ps, width))
  {
    ForwardPiecesToIsRef(net, store, bs, width, ps, |net.layers|);
    var store' := ForwardPieces(net, store, bs, width, ps).1;
    assert store' == ForwardPiecesTo(net, store, bs, width, ps, |net.layers|).1;
    forall k | 0 <= k < |ps|
      ensures Holds(net, store', bs, ps[k].ids, ps[k].toks)
    {
      forall l, j | 0 <= l < |store'| && 0 <= j < |ps[k].toks|
        ensures store'[l][Slot(bs, ps[k].ids, j)] == KvRows(net, ps[k].toks, l)[j]
      {
        assert RowFilled(net, bs, ps, store'[l], l);
      }
    }
  }

  // Row j of piece k in the flat result.
  lemma {:induction false} RowOf(net: Net, ps: seq<Piece>, k: nat, j: nat)
    requires k < |ps| && forall i :: 0 <= i < |ps| ==> ps[i].start <= |ps[i].toks|
    requires ps[k].start <= j < |ps[k].toks|
    ensures |Tokens(ps[..k])| + (j - ps[k].start) < |Tokens(ps)|
    ensures RefRows(net, ps, |net.layers|)[|Tokens(ps[..k])| + (j - ps[k].start)] ==
      Rows(net, ps[k].toks, |net.layers|)[j]
  {
    hide Rows;
    if k < |ps| - 1 {
      RowOf(net, ps[..|ps| - 1], k, j);
      assert ps[..|ps| - 1][..k] == ps[..k];
    }
  }

  // The row a token is sampled from: the last one of a piece gives the reference's next-token logits.
  lemma LastRowLogits(net: Net, ps: seq<Piece>, k: nat)
    requires k < |ps| && forall i :: 0 <= i < |ps| ==> ps[i].start <= |ps[i].toks|
    requires ps[k].start < |ps[k].toks|
    ensures 0 <= |Tokens(ps[..k + 1])| - 1 < |Tokens(ps)|
    ensures net.lmHead(Normed(net, RefRows(net, ps, |net.layers|))[|Tokens(ps[..k + 1])| - 1]) ==
      Logits(net, ps[k].toks)
  {
    RowOf(net, ps, k, |ps[k].toks| - 1);
    assert ps[..k + 1][..k] == ps[..k];
  }

  // ---------- exclusive blocks give distinct slots ----------

  /** Every block the batch writes to (from the block of the first new position on) occurs once in its
      own table and in no other table of the batch. */
  ghost predicate OwnBlocks(bs: pos, ps: seq<Piece>) {
    && (forall k, i, i' | 0 <= k < |ps| ::
          BlockIndex(bs, ps[k].start) <= i < |ps[k].ids| && 0 <= i' < |ps[k].ids| && i != i' ==>
            ps[k].ids[i] != ps[k].ids[i'])
    && (forall k, k', i, i' | 0 <= k < |ps| && 0 <= k' < |ps| && k != k' ::
          BlockIndex(bs, ps[k].start) <= i < |ps[k].ids| && 0 <= i' < |ps[k'].ids| ==>
            ps[k].ids[i] != ps[k'].ids[i'])
  }

  lemma {:induction false} SlotOrigin(bs: pos, ps: seq<Piece>, width: nat, f: nat) returns (k: nat, j: nat)
    requires PiecesOk(bs, ps, width) && f < |WriteSlots(bs, ps, width)|
    ensures k < |ps| && ps[k].start <= j < |ps[k].toks|
    ensures WriteSlots(bs, ps, width)[f] == Slot(bs, ps[k].ids, j)
  {
    var before := ps[..|ps| - 1];
    if f < |WriteSlots(bs, before, width)| {
      k, j := SlotOrigin(bs, before, width, f);
    } else {
      k, j := |ps| - 1, ps[|ps| - 1].start + (f - |WriteSlots(bs, before, width)|);
    }
  }

  // A new position's slot equals no other position's slot in the batch.
  lemma OwnSlot(bs: pos, ps: seq<Piece>, width: nat, k: nat, j: nat, k': nat, j': nat)
    requires PiecesOk(bs, ps, width) && OwnBlocks(bs, ps)
    requires k < |ps| && ps[k].start <= j < |ps[k].toks|
    requires k' < |ps| && j' < |ps[k'].toks|
    ensures Slot(bs, ps[k].ids, j) == Slot(bs, ps[k'].ids, j') <==> k == k' && j == j'
  {
    SameSlot(bs, ps[k].ids, j, ps[k'].ids, j');
    SamePosition(bs, j, j');
    assert BlockIndex(bs, ps[k].start) <= BlockIndex(bs, j) by {
      DivBound(bs, BlockIndex(bs, ps[k].start), j);
      DivBound(bs, BlockIndex(bs, ps[k].start), ps[k].start);
    }
  }

  lemma EarlierSlotDiffers(bs: pos, ps: seq<Piece>, width: nat, f: nat, i: nat)
    requires PiecesOk(bs, ps, width) && OwnBlocks(bs, ps) && ps != []
    requires f < |WriteSlots(bs, ps[..|ps| - 1], width)| && i < |ps[|ps| - 1].toks| - ps[|ps| - 1].start
    ensures WriteSlots(bs, ps[..|ps| - 1], width)[f] != Slot(bs, ps[|ps| - 1].ids, ps[|ps| - 1].start + i)
  {
    var k, j := SlotOrigin(bs, ps[..|ps| - 1], width, f);
    OwnSlot(bs, ps, width, |ps| - 1, ps[|ps| - 1].start + i, k, j);
  }

  lemma OwnSlotsDistinct(bs: pos, ps: seq<Piece>, width: nat, k: nat)
    requires PiecesOk(bs, ps, width) && OwnBlocks(bs, ps) && k < |ps|
    ensures NoDup(SlotsFor(bs, ps[k].ids, ps[k].start, |ps[k].toks|))
  {
    var own := SlotsFor(bs, ps[k].ids, ps[k].start, |ps[k].toks|);
    forall i, i' | 0 <= i < i' < |own|
      ensures own[i] != own[i']
    {
      OwnSlot(bs, ps, width, k, ps[k].start + i, k, ps[k].start + i');
    }
  }

  lemma {:induction false} WriteSlotsDistinct(bs: pos, ps: seq<Piece>, width: nat)
    requires PiecesOk(bs, ps, width) && OwnBlocks(bs, ps)
    ensures NoDup(WriteSlots(bs, ps, width))
  {
    if ps != [] {
      var last := |ps| - 1;
      var earlier, own := WriteSlots(bs, ps[..last], width),
        SlotsFor(bs, ps[last].ids, ps[last].start, |ps[last].toks|);
      WriteSlotsDistinct(bs, ps[..last], width);
      OwnSlotsDistinct(bs, ps, width, last);
      forall f, i | 0 <= f < |earlier| && 0 <= i < |own|
        ensures earlier[f] != own[i]
      {
        EarlierSlotDiffers(bs, ps, width, f, i);
      }
      NoDupConcat(earlier, own);
    }
  }

  lemma OwnBlocksNonAliasing(bs: pos, ps: seq<Piece>, width: nat)
    requires PiecesOk(bs, ps, width) && OwnBlocks(bs, ps)
    ensures NonAliasing(bs, ps, width)
  {
    WriteSlotsDistinct(bs, ps, width);
    forall k, j, f | 0 <= k < |ps| && 0 <= j < ps[k].start && 0 <= f < |WriteSlots(bs, ps, width)|
      ensures Slot(bs, ps[k].ids, j) != WriteSlots(bs, ps, width)[f]
    {
      var k', j' := SlotOrigin(bs, ps, width, f);
      OwnSlot(bs, ps, width, k', j', k, j);
    }
  }
}
