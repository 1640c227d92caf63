// The fused decode kernel: online softmax over tiles of the paged context, one program per batch row
// and query head.
module TritonAttn {
  import opened Wrappers
  import opened Reference
  import opened PagedStore
  import opened Softmax

  function MaxScore(a: Score, b: Score): Score {
    if a.NegInf? then b else if b.NegInf? then a else if a.value < b.value then b else a
  }

  function MaxOf(lanes: seq<Score>): Score {
    if lanes == [] then NegInf else MaxScore(MaxOf(lanes[..|lanes| - 1]), lanes[|lanes| - 1])
  }

  // exp(s - m), where exp of minus infinity is 0.
  function ExpMinus(exp: real -> real, s: Score, m: real): real {
    if s.NegInf? then 0.0 else exp(s.value - m)
  }

  function LaneSum(exp: real -> real, lanes: seq<Score>, m: real): real {
    if lanes == [] then 0.0
    else LaneSum(exp, lanes[..|lanes| - 1], m) + ExpMinus(exp, lanes[|lanes| - 1], m)
  }

  function LaneMix(exp: real -> real, lanes: seq<Score>, m: real, vs: seq<Vec>, d: nat): real
    requires |lanes| == |vs|
  {
    if lanes == [] then 0.0
    else LaneMix(exp, lanes[..|lanes| - 1], m, vs[..|vs| - 1], d)
         + ExpMinus(exp, lanes[|lanes| - 1], m) * At(vs[|vs| - 1], d)
  }

  // Lanes beyond the context are masked, and only those.
  ghost predicate Masked(lanes: seq<Score>, scores: seq<real>) {
    && |scores| <= |lanes|
    && (forall n :: 0 <= n < |scores| ==> lanes[n] == Fin(scores[n]))
    && (forall n :: |scores| <= n < |lanes| ==> lanes[n] == NegInf)
  }

  // The softmax denominator and numerators of `scores`, divided by exp(m).
  function SumMinus(exp: real -> real, scores: seq<real>, m: real): real {
    if scores == [] then 0.0
    else SumMinus(exp, scores[..|scores| - 1], m) + exp(scores[|scores| - 1] - m)
  }

  function MixMinus(exp: real -> real, scores: seq<real>, m: real, vs: seq<Vec>, d: nat): real
    requires |scores| == |vs|
  {
    if scores == [] then 0.0
    else MixMinus(exp, scores[..|scores| - 1], m, vs[..|vs| - 1], d)
         + exp(scores[|scores| - 1] - m) * At(vs[|vs| - 1], d)
  }

  // Masked lanes add nothing.
  lemma {:induction false} LaneSumLive(exp: real -> real, lanes: seq<Score>, scores: seq<real>, m: real)
    requires Masked(lanes, scores)
    ensures LaneSum(exp, lanes, m) == SumMinus(exp, scores, m)
  {
    if |lanes| > |scores| {
      LaneSumLive(exp, lanes[..|lanes| - 1], scores, m);
    } else if lanes != [] {
      LaneSumLive(exp, lanes[..|lanes| - 1], scores[..|scores| - 1], m);
    }
  }

  lemma {:induction false} LaneMixLive(exp: real -> real, lanes: seq<Score>, scores: seq<real>, m: real,
                                       loaded: seq<Vec>, vs: seq<Vec>, d: nat)
    requires Masked(lanes, scores) && |loaded| == |lanes| && |vs| == |scores|
    requires forall n :: 0 <= n < |vs| ==> loaded[n] == vs[n]
    ensures LaneMix(exp, lanes, m, loaded, d) == MixMinus(exp, scores, m, vs, d)
  {
    if |lanes| > |scores| {
      LaneMixLive(exp, lanes[..|lanes| - 1], scores, m, loaded[..|lanes| - 1], vs, d);
    } else if lanes != [] {
      var n := |lanes| - 1;
      LaneMixLive(exp, lanes[..n], scores[..n], m, loaded[..n], vs[..n], d);
    }
  }

  // Changing the base from m to m' multiplies by exp(m - m').
  lemma {:induction false} SumRebase(exp: real -> real, scores: seq<real>, m: real, m': real)
    requires ExpLaws(exp)
    ensures SumMinus(exp, scores, m) * exp(m - m') == SumMinus(exp, scores, m')
  {
    if scores != [] {
      SumRebase(exp, scores[..|scores| - 1], m, m');
      ExpChain(exp, scores[|scores| - 1], m, m');
    }
  }

  lemma {:induction false} MixRebase(exp: real -> real, scores: seq<real>, m: real, m': real, vs: seq<Vec>, d: nat)
    requires ExpLaws(exp) && |scores| == |vs|
    ensures MixMinus(exp, scores, m, vs, d) * exp(m - m') == MixMinus(exp, scores, m', vs, d)
  {
    if scores != [] {
      var n := |scores| - 1;
      MixRebase(exp, scores[..n], m, m', vs[..n], d);
      ExpChain(exp, scores[n], m, m');
      var w, v := exp(scores[n] - m), At(vs[n], d);
      assert (w * v) * exp(m - m') == (w * exp(m - m')) * v;
    }
  }

  lemma ExpChain(exp: real -> real, s: real, m: real, m': real)
    requires ExpLaws(exp)
    ensures exp(s - m) * exp(m - m') == exp(s - m')
  {
    assert Consider(s - m, m - m');
    assert (s - m) + (m - m') == s - m';
  }

  lemma {:induction false} SumConcat(exp: real -> real, s: seq<real>, t: seq<real>, m: real)
    ensures SumMinus(exp, s + t, m) == SumMinus(exp, s, m) + SumMinus(exp, t, m)
  {
    if t == [] {
      assert s + t == s;
    } else {
      assert (s + t)[..|s + t| - 1] == s + t[..|t| - 1];
      SumConcat(exp, s, t[..|t| - 1], m);
    }
  }

  lemma {:induction false} MixConcat(exp: real -> real, s: seq<real>, t: seq<real>, m: real, vs: seq<Vec>,
                                     ws: seq<Vec>, d: nat)
    requires |s| == |vs| && |t| == |ws|
    ensures MixMinus(exp, s + t, m, vs + ws, d) == MixMinus(exp, s, m, vs, d) + MixMinus(exp, t, m, ws, d)
  {
    if t == [] {
      assert s + t == s && vs + ws == vs;
    } else {
      assert (s + t)[..|s + t| - 1] == s + t[..|t| - 1];
      assert (vs + ws)[..|vs + ws| - 1] == vs + ws[..|ws| - 1];
      MixConcat(exp, s, t[..|t| - 1], m, vs, ws[..|ws| - 1], d);
    }
  }

  // The largest score, minus infinity if there is none.
  function Top(scores: seq<real>): (m: Score)
    ensures m.NegInf? <==> scores == []
  {
    if scores == [] then NegInf else MaxScore(Top(scores[..|scores| - 1]), Fin(scores[|scores| - 1]))
  }

  lemma {:induction false} TopIsLargest(scores: seq<real>)
    ensures forall j :: 0 <= j < |scores| ==> scores[j] <= Top(scores).value
    ensures scores != [] ==> Top(scores).value in scores
  {
    if scores != [] {
      TopIsLargest(scores[..|scores| - 1]);
      assert scores == scores[..|scores| - 1] + [scores[|scores| - 1]];
    }
  }

  lemma {:induction false} TopConcat(s: seq<real>, t: seq<real>)
    ensures Top(s + t) == MaxScore(Top(s), Top(t))
  {
    if t == [] {
      assert s + t == s;
    } else {
      assert (s + t)[..|s + t| - 1] == s + t[..|t| - 1];
      TopConcat(s, t[..|t| - 1]);
    }
  }

  lemma {:induction false} MaxOfMasked(lanes: seq<Score>, scores: seq<real>)
    requires Masked(lanes, scores)
    ensures MaxOf(lanes) == Top(scores)
  {
    if |lanes| > |scores| {
      MaxOfMasked(lanes[..|lanes| - 1], scores);
    } else if lanes != [] {
      MaxOfMasked(lanes[..|lanes| - 1], scores[..|scores| - 1]);
    }
  }

  /** What the running state (m, l, acc) means after some prefix of the context: `m` is the largest score
      seen, `l` and `acc` are the softmax denominator and numerators of that prefix divided by exp(m). */
  ghost predicate Running(a: Attn, m: Score, l: real, acc: Vec, scores: seq<real>, vs: seq<Vec>)
    requires |scores| == |vs|
  {
    && |acc| == a.headDim
    && m == Top(scores)
    && l == SumMinus(a.exp, scores, Base(m))
    && forall d :: 0 <= d < a.headDim ==> acc[d] == MixMinus(a.exp, scores, Base(m), vs, d)
  }

  function Base(m: Score): real {
    if m.Fin? then m.value else 0.0
  }

  function Fma(x: real, y: real, z: real): real {
    x * y + z
  }

  // One accumulator across one tile.
  lemma AccStep(a: Attn, m: Score, m': real, scores: seq<real>, vs: seq<Vec>, lanes: seq<Score>, tile: seq<real>,
                loaded: seq<Vec>, tileVs: seq<Vec>, d: nat)
    requires ExpLaws(a.exp) && |scores| == |vs| && (m.NegInf? <==> scores == [])
    requires Masked(lanes, tile) && |loaded| == |lanes| && |tileVs| == |tile|
    requires forall n :: 0 <= n < |tileVs| ==> loaded[n] == tileVs[n]
    ensures Fma(MixMinus(a.exp, scores, Base(m), vs, d), ExpMinus(a.exp, m, m'), LaneMix(a.exp, lanes, m', loaded, d))
         == MixMinus(a.exp, scores + tile, m', vs + tileVs, d)
  {
    LaneMixLive(a.exp, lanes, tile, m', loaded, tileVs, d);
    MixConcat(a.exp, scores, tile, m', vs, tileVs, d);
    RebaseAny(a, m, m', scores, vs, d);
  }

  // The first tile starts from nothing; later ones rescale what is there.
  lemma RebaseAny(a: Attn, m: Score, m': real, scores: seq<real>, vs: seq<Vec>, d: nat)
    requires ExpLaws(a.exp) && |scores| == |vs| && (m.NegInf? <==> scores == [])
    ensures MixMinus(a.exp, scores, Base(m), vs, d) * ExpMinus(a.exp, m, m') == MixMinus(a.exp, scores, m', vs, d)
  {
    if m.Fin? {
      MixRebase(a.exp, scores, m.value, m', vs, d);
    }
  }

  lemma SumStep(a: Attn, m: Score, m': real, scores: seq<real>, lanes: seq<Score>, tile: seq<real>)
    requires ExpLaws(a.exp) && (m.NegInf? <==> scores == []) && Masked(lanes, tile)
    ensures Fma(SumMinus(a.exp, scores, Base(m)), ExpMinus(a.exp, m, m'), LaneSum(a.exp, lanes, m'))
         == SumMinus(a.exp, scores + tile, m')
  {
    LaneSumLive(a.exp, lanes, tile, m');
    SumConcat(a.exp, scores, tile, m');
    if m.Fin? {
      SumRebase(a.exp, scores, m.value, m');
    }
  }

  function NextL(a: Attn, m: Score, l: real, lanes: seq<Score>, m': real): real {
    Fma(l, ExpMinus(a.exp, m, m'), LaneSum(a.exp, lanes, m'))
  }

  function NextAcc(a: Attn, m: Score, acc: Vec, lanes: seq<Score>, m': real, loaded: seq<Vec>): (acc': Vec)
    requires |lanes| == |loaded|
    ensures |acc'| == |acc|
  {
    seq(|acc|, d requires 0 <= d < |acc| =>
      Fma(acc[d], ExpMinus(a.exp, m, m'), LaneMix(a.exp, lanes, m', loaded, d)))
  }

  lemma TileStep(a: Attn, m: Score, l: real, acc: Vec, scores: seq<real>, vs: seq<Vec>,
                 lanes: seq<Score>, tile: seq<real>, loaded: seq<Vec>, tileVs: seq<Vec>)
    requires ExpLaws(a.exp) && |scores| == |vs| && Running(a, m, l, acc, scores, vs)
    requires Masked(lanes, tile) && tile != [] && |loaded| == |lanes| && |tileVs| == |tile|
    requires forall n :: 0 <= n < |tileVs| ==> loaded[n] == tileVs[n]
    ensures var m' := MaxScore(m, MaxOf(lanes));
      && m'.Fin?
      && Running(a, m', NextL(a, m, l, lanes, m'.value), NextAcc(a, m, acc, lanes, m'.value, loaded),
                 scores + tile, vs + tileVs)
  {
    MaxOfMasked(lanes, tile);
    TopConcat(scores, tile);
    var m' := MaxScore(m, MaxOf(lanes)).value;
    SumStep(a, m, m', scores, lanes, tile);
    AccsStep(a, m, m', acc, scores, vs, lanes, tile, loaded, tileVs);
  }

  lemma AccsStep(a: Attn, m: Score, m': real, acc: Vec, scores: seq<real>, vs: seq<Vec>,
                 lanes: seq<Score>, tile: seq<real>, loaded: seq<Vec>, tileVs: seq<Vec>)
    requires ExpLaws(a.exp) && |scores| == |vs| && (m.NegInf? <==> scores == [])
    requires forall d :: 0 <= d < |acc| ==> acc[d] == MixMinus(a.exp, scores, Base(m), vs, d)
    requires Masked(lanes, tile) && |loaded| == |lanes| && |tileVs| == |tile|
    requires forall n :: 0 <= n < |tileVs| ==> loaded[n] == tileVs[n]
    ensures forall d :: 0 <= d < |acc| ==>
      NextAcc(a, m, acc, lanes, m', loaded)[d] == MixMinus(a.exp, scores + tile, m', vs + tileVs, d)
  {
    forall d | 0 <= d < |acc|
      ensures NextAcc(a, m, acc, lanes, m', loaded)[d] == MixMinus(a.exp, scores + tile, m', vs + tileVs, d)
    {
      AccStep(a, m, m', scores, vs, lanes, tile, loaded, tileVs, d);
    }
  }

  lemma {:induction false} SumUnbase(exp: real -> real, scores: seq<real>, m: real)
    requires ExpLaws(exp)
    ensures SumMinus(exp, scores, m) * exp(m) == ExpSum(exp, scores)
  {
    if scores != [] {
      SumUnbase(exp, scores[..|scores| - 1], m);
      ExpShift(exp, scores[|scores| - 1], m);
    }
  }

  lemma {:induction false} MixUnbase(exp: real -> real, scores: seq<real>, m: real, vs: seq<Vec>, d: nat)
    requires ExpLaws(exp) && |scores| == |vs|
    ensures MixMinus(exp, scores, m, vs, d) * exp(m) == ExpMix(exp, scores, vs, d)
  {
    if scores != [] {
      var n := |scores| - 1;
      MixUnbase(exp, scores[..n], m, vs[..n], d);
      ExpShift(exp, scores[n], m);
      var w, v := exp(scores[n] - m), At(vs[n], d);
      assert (w * v) * exp(m) == (w * exp(m)) * v;
    }
  }

  // Dividing at the end gives the normalised attention.
  lemma RunningIsAttention(a: Attn, m: Score, l: real, acc: Vec, q: Vec, keys: seq<Vec>, values: seq<Vec>, d: nat)
    requires ExpLaws(a.exp) && |keys| == |values| && |keys| > 0 && d < a.headDim
    requires Running(a, m, l, acc, Scores(a, q, keys), values) && l > 0.0
    ensures acc[d] / l == AttendHead(a, q, keys, values)[d]
  {
    var scores := Scores(a, q, keys);
    var e := a.exp(m.value);
    MixIsQuotient(a.exp, scores, values, d);
    SumUnbase(a.exp, scores, m.value);
    MixUnbase(a.exp, scores, m.value, values, d);
    ExpPositive(a.exp, m.value);
    QuotientScales(acc[d], l, e, ExpMix(a.exp, scores, values, d), ExpSum(a.exp, scores));
  }

  lemma QuotientScales(x: real, y: real, e: real, u: real, v: real)
    requires e > 0.0 && v > 0.0 && x * e == u && y * e == v
    requires y > 0.0
    ensures x / y == u / v
  {
    assert (x / y) * (y * e) == x * e;
  }

  lemma ProductPositive(x: real, y: real)
    requires x * y > 0.0 && y > 0.0
    ensures x > 0.0
  {
  }

  lemma RunningPositive(a: Attn, m: Score, l: real, acc: Vec, scores: seq<real>, vs: seq<Vec>)
    requires ExpLaws(a.exp) && |scores| == |vs| && scores != [] && Running(a, m, l, acc, scores, vs)
    ensures l > 0.0
  {
    SumUnbase(a.exp, scores, m.value);
    ExpSumPositive(a.exp, scores);
    ExpPositive(a.exp, m.value);
    ProductPositive(l, a.exp(m.value));
  }

  function Quotients(acc: Vec, l: real): (o: Vec)
    requires l != 0.0
    ensures |o| == |acc|
  {
    seq(|acc|, d requires 0 <= d < |acc| => acc[d] / l)
  }

  function Scaled(a: Attn, q: Vec): (qs: Vec)
    ensures |qs| == a.headDim
  {
    seq(a.headDim, d requires d >= 0 => At(q, d) * a.scale)
  }

  // One tile of keys or values; masked lanes load zeros.
  function LoadKeys(row: seq<KV>, slots: seq<nat>, start: nat, live: nat, size: nat, h: nat): (k: seq<Vec>)
    requires start + live <= |slots| && Within(slots[start..start + live], |row|)
    ensures |k| == size
  {
    seq(size, n requires 0 <= n < size => if n < live then Head(row[slots[start..start + live][n]].key, h) else [])
  }

  function LoadValues(row: seq<KV>, slots: seq<nat>, start: nat, live: nat, size: nat, h: nat): (v: seq<Vec>)
    requires start + live <= |slots| && Within(slots[start..start + live], |row|)
    ensures |v| == size
  {
    seq(size, n requires 0 <= n < size => if n < live then Head(row[slots[start..start + live][n]].value, h) else [])
  }

  function ScoreLanes(a: Attn, qs: Vec, k: seq<Vec>, live: nat): (lanes: seq<Score>)
    ensures |lanes| == |k|
  {
    seq(|k|, n requires 0 <= n < |k| => if n < live then Fin(Dot(qs, k[n], a.headDim)) else NegInf)
  }

  // A tile's lanes hold the scores and values of its part of the context.
  lemma TileLoaded(a: Attn, q: Vec, row: seq<KV>, slots: seq<nat>, kvHead: nat, start: nat, live: nat, size: nat)
    requires Within(slots, |row|) && start + live <= |slots| && live <= size
    ensures var kvs := Gather(row, slots);
      && Masked(ScoreLanes(a, Scaled(a, q), LoadKeys(row, slots, start, live, size, kvHead), live),
                Scores(a, q, Keys(kvs, kvHead))[start..start + live])
      && forall n :: 0 <= n < live ==>
           LoadValues(row, slots, start, live, size, kvHead)[n] == Values(kvs, kvHead)[start..start + live][n]
  {
    var keys := Keys(Gather(row, slots), kvHead);
    var k := LoadKeys(row, slots, start, live, size, kvHead);
    forall n | 0 <= n < live
      ensures Dot(Scaled(a, q), k[n], a.headDim) == Scores(a, q, keys)[start + n]
    {
      DotScaled(q, k[n], a.headDim, a.scale, Scaled(a, q));
    }
  }

  // The running state after the first n positions of the context in `slots`.
  ghost predicate Attended(a: Attn, q: Vec, row: seq<KV>, slots: seq<nat>, h: nat, n: nat, m: Score, l: real, acc: Vec)
    requires Within(slots, |row|) && n <= |slots|
  {
    var kvs := Gather(row, slots);
    Running(a, m, l, acc, Scores(a, q, Keys(kvs, h))[..n], Values(kvs, h)[..n])
  }

  lemma TileAttended(a: Attn, q: Vec, row: seq<KV>, slots: seq<nat>, h: nat, start: nat, live: nat, size: nat,
                     m: Score, l: real, acc: Vec)
    requires ExpLaws(a.exp) && Within(slots, |row|) && 0 < live <= size && start + live <= |slots|
    requires Attended(a, q, row, slots, h, start, m, l, acc)
    ensures var lanes := ScoreLanes(a, Scaled(a, q), LoadKeys(row, slots, start, live, size, h), live);
      var m' := MaxScore(m, MaxOf(lanes));
      && m'.Fin?
      && Attended(a, q, row, slots, h, start + live, m', NextL(a, m, l, lanes, m'.value),
                  NextAcc(a, m, acc, lanes, m'.value, LoadValues(row, slots, start, live, size, h)))
  {
    var kvs := Gather(row, slots);
    var scores, values := Scores(a, q, Keys(kvs, h)), Values(kvs, h);
    var lanes := ScoreLanes(a, Scaled(a, q), LoadKeys(row, slots, start, live, size, h), live);
    TileLoaded(a, q, row, slots, h, start, live, size);
    TileStep(a, m, l, acc, scores[..start], values[..start], lanes, scores[start..start + live],
             LoadValues(row, slots, start, live, size, h), values[start..start + live]);
    assert scores[..start] + scores[start..start + live] == scores[..start + live];
    assert values[..start] + values[start..start + live] == values[..start + live];
  }

  lemma AttendedAll(a: Attn, q: Vec, row: seq<KV>, slots: seq<nat>, h: nat, m: Score, l: real, acc: Vec)
    requires ExpLaws(a.exp) && Within(slots, |row|) && slots != []
    requires Attended(a, q, row, slots, h, |slots|, m, l, acc)
    ensures l != 0.0
    ensures var kvs := Gather(row, slots);
            Quotients(acc, l) == AttendHead(a, q, Keys(kvs, h), Values(kvs, h))
  {
    var keys, values := Keys(Gather(row, slots), h), Values(Gather(row, slots), h);
    assert Scores(a, q, keys)[..|slots|] == Scores(a, q, keys) && values[..|slots|] == values;
    RunningPositive(a, m, l, acc, Scores(a, q, keys), values);
    forall d | 0 <= d < a.headDim
      ensures Quotients(acc, l)[d] == AttendHead(a, q, keys, values)[d]
    {
      RunningIsAttention(a, m, l, acc, q, keys, values, d);
    }
  }

  /** One program: one query head against the `ctxLen` slots listed first in `slots` (which may be
      padded), in tiles of `tileSize` lanes. */
  method Program(a: Attn, head: nat, q: Vec, row: seq<KV>, slots: seq<nat>, ctxLen: nat, tileSize: pos)
      returns (o: Vec)
    requires ExpLaws(a.exp) && 0 < ctxLen <= |slots| && Within(slots[..ctxLen], |row|)
    ensures var kvs := Gather(row, slots[..ctxLen]);
            o == AttendHead(a, q, Keys(kvs, head / a.groups), Values(kvs, head / a.groups))
  {
    var kvHead := head / a.groups;
    var ctx := slots[..ctxLen];
    var qs := Scaled(a, q);
    var m, l := NegInf, 0.0;
    var acc := seq(a.headDim, d => 0.0);
    var start := 0;
    while start < ctxLen
      invariant 0 <= start
      invariant Attended(a, q, row, ctx, kvHead, if start < ctxLen then start else ctxLen, m, l, acc)
    {
      var live := if start + tileSize <= ctxLen then tileSize else ctxLen - start;
      TileAttended(a, q, row, ctx, kvHead, start, live, tileSize, m, l, acc);
      var lanes := ScoreLanes(a, qs, LoadKeys(row, ctx, start, live, tileSize, kvHead), live);
      var m' := MaxScore(m, MaxOf(lanes));
      l := NextL(a, m, l, lanes, m'.value);
      acc := NextAcc(a, m, acc, lanes, m'.value, LoadValues(row, ctx, start, live, tileSize, kvHead));
      m := m';
      start := start + tileSize;
    }
    AttendedAll(a, q, row, ctx, kvHead, m, l, acc);
    o := Quotients(acc, l);
  }

  // All programs of one launch; `slotTable` rows are padded to a common length.
  method BatchedPagedDecode(a: Attn, q: seq<Heads>, row: seq<KV>, slotTable: seq<seq<nat>>, ctxLens: seq<nat>)
      returns (o: seq<Heads>)
    requires ExpLaws(a.exp) && |q| == |slotTable| == |ctxLens|
    requires forall b :: 0 <= b < |q| ==>
      0 < ctxLens[b] <= |slotTable[b]| && Within(slotTable[b][..ctxLens[b]], |row|)
    ensures |o| == |q|
    ensures forall b :: 0 <= b < |q| ==>
      o[b] == SoftmaxAttend(a, q[b], Gather(row, slotTable[b][..ctxLens[b]]))
  {
    o := [];
    for b := 0 to |q|
      invariant |o| == b
      invariant forall c :: 0 <= c < b ==> o[c] == SoftmaxAttend(a, q[c], Gather(row, slotTable[c][..ctxLens[c]]))
    {
      ghost var want := SoftmaxAttend(a, q[b], Gather(row, slotTable[b][..ctxLens[b]]));
      var heads := [];
      for head := 0 to a.numHeads
        invariant heads == want[..head]
      {
        var out := Program(a, head, Head(q[b], head), row, slotTable[b], ctxLens[b], 128);
        heads := heads + [out];
      }
      o := o + [heads];
    }
  }
}
