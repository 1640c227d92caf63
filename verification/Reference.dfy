// The naive decoder that every fast path of the engine is compared with: a causal transformer
// that recomputes all rows from scratch, and the greedy loop over it.
module Reference {
  import opened Wrappers

  type Vec = seq<real>

  // One vector per attention head.
  type Heads = seq<Vec>

  // What one layer caches for one token: the rotated keys and the values of its KV heads.
  datatype KV = KV(key: Heads, value: Heads)

  /** One decoder layer with its weights kept abstract.  `query` and `kv` stand for the input norm, the
      projections, the optional head norm and the rotary embedding at an absolute position; `attend` is
      attention of one query row over a context; `finish` adds the output projection and the MLP to the
      residual stream. */
  datatype Layer = Layer(
    query: (Vec, nat) -> Heads,
    kv: (Vec, nat) -> KV,
    attend: (Heads, seq<KV>) -> Heads,
    finish: (Vec, Heads) -> Vec)

  datatype Net = Net(embed: int -> Vec, layers: seq<Layer>, norm: Vec -> Vec, lmHead: Vec -> Vec)

  // ---------- causal forward, recomputing every row ----------

  function Kvs(layer: Layer, rows: seq<Vec>): (kvs: seq<KV>)
    ensures |kvs| == |rows|
  {
    seq(|rows|, i requires 0 <= i < |rows| => layer.kv(rows[i], i))
  }

  // Row i attends to rows 0..i of the same sequence, itself included.
  function LayerRows(layer: Layer, rows: seq<Vec>): (out: seq<Vec>)
    ensures |out| == |rows|
  {
    var kvs := Kvs(layer, rows);
    seq(|rows|, i requires 0 <= i < |rows| =>
      layer.finish(rows[i], layer.attend(layer.query(rows[i], i), kvs[..i + 1])))
  }

  // The residual stream of every row before layer l.
  function Rows(net: Net, toks: seq<int>, l: nat): (rows: seq<Vec>)
    requires l <= |net.layers|
    ensures |rows| == |toks|
  {
    if l == 0 then seq(|toks|, i requires 0 <= i < |toks| => net.embed(toks[i]))
    else LayerRows(net.layers[l - 1], Rows(net, toks, l - 1))
  }

  // The keys and values layer l produces for every row.
  function KvRows(net: Net, toks: seq<int>, l: nat): (kvs: seq<KV>)
    requires l < |net.layers|
    ensures |kvs| == |toks|
  {
    Kvs(net.layers[l], Rows(net, toks, l))
  }

  function Logits(net: Net, toks: seq<int>): Vec
    requires |toks| > 0
  {
    net.lmHead(net.norm(Rows(net, toks, |net.layers|)[|toks| - 1]))
  }

  // A row never depends on tokens to its right.
  lemma {:induction false} Causal(net: Net, toks: seq<int>, n: nat, l: nat)
    requires l <= |net.layers| && n <= |toks|
    ensures Rows(net, toks[..n], l) == Rows(net, toks, l)[..n]
  {
    if l == 0 {
    } else {
      Causal(net, toks, n, l - 1);
      var layer := net.layers[l - 1];
      var short, long := Rows(net, toks[..n], l - 1), Rows(net, toks, l - 1);
      forall i | 0 <= i < n
        ensures LayerRows(layer, short)[i] == LayerRows(layer, long)[i]
      {
        assert Kvs(layer, short)[..i + 1] == Kvs(layer, long)[..i + 1];
      }
    }
  }

  lemma CausalKv(net: Net, toks: seq<int>, n: nat, l: nat)
    requires l < |net.layers| && n <= |toks|
    ensures KvRows(net, toks[..n], l) == KvRows(net, toks, l)[..n]
  {
    Causal(net, toks, n, l);
  }

  // ---------- greedy choice ----------

  // The first index of a largest entry.
  function ArgMax(v: Vec): (k: nat)
    ensures |v| > 0 ==> k < |v|
  {
    if |v| <= 1 then 0
    else
      var k := ArgMax(v[..|v| - 1]);
      if v[|v| - 1] > v[k] then |v| - 1 else k
  }

  lemma {:induction false} ArgMaxIsFirstMaximum(v: Vec)
    requires |v| > 0
    ensures forall j :: 0 <= j < |v| ==> v[j] <= v[ArgMax(v)]
    ensures forall j :: 0 <= j < ArgMax(v) ==> v[j] < v[ArgMax(v)]
  {
    if |v| > 1 {
      var w := v[..|v| - 1];
      ArgMaxIsFirstMaximum(w);
      assert forall j :: 0 <= j < |w| ==> v[j] == w[j];
    }
  }

  function Next(net: Net, toks: seq<int>): int
    requires |toks| > 0
  {
    ArgMax(Logits(net, toks))
  }

  // ---------- greedy generation ----------

  predicate Stops(out: seq<int>, maxNew: int, eos: Option<int>) {
    |out| >= maxNew || (|out| > 0 && eos == Some(out[|out| - 1]))
  }

  // What there can be of an output at any time: at most the limit, but always room for one token, and no
  // end-of-sequence token before the last one.
  ghost predicate WithinLimits(out: seq<int>, maxNew: int, eos: Option<int>) {
    && (|out| <= 1 || |out| <= maxNew)
    && forall i :: 0 <= i < |out| - 1 ==> eos != Some(out[i])
  }

  // All of an output: it has a token, and is short of the limit only because it ends with end-of-sequence.
  ghost predicate WholeOutput(out: seq<int>, maxNew: int, eos: Option<int>) {
    && WithinLimits(out, maxNew, eos) && out != []
    && (|out| < maxNew ==> eos == Some(out[|out| - 1]))
  }

  // Decoding stops exactly when the output is whole.
  lemma StopsWhenWhole(out: seq<int>, maxNew: int, eos: Option<int>)
    requires out != [] && WithinLimits(out, maxNew, eos)
    ensures Stops(out, maxNew, eos) <==> WholeOutput(out, maxNew, eos)
  {
  }

  lemma OneMoreWithin(out: seq<int>, t: int, maxNew: int, eos: Option<int>)
    requires WithinLimits(out, maxNew, eos) && (out == [] || !Stops(out, maxNew, eos))
    ensures WithinLimits(out + [t], maxNew, eos)
  {
    var longer := out + [t];
    forall i | 0 <= i < |longer| - 1
      ensures eos != Some(longer[i])
    {
      assert longer[i] == out[i];
    }
  }

  function Extend(net: Net, prompt: seq<int>, out: seq<int>, maxNew: int, eos: Option<int>): seq<int>
    requires |prompt| > 0
    decreases maxNew - |out|
  {
    if Stops(out, maxNew, eos) then out
    else Extend(net, prompt, out + [Next(net, prompt + out)], maxNew, eos)
  }

  // The first token is always produced, even when no new token was asked for.
  function Generate(net: Net, prompt: seq<int>, maxNew: int, eos: Option<int>): seq<int>
    requires |prompt| > 0
  {
    Extend(net, prompt, [Next(net, prompt)], maxNew, eos)
  }

  lemma {:induction false} ExtendIsWhole(net: Net, prompt: seq<int>, out: seq<int>, maxNew: int, eos: Option<int>)
    requires |prompt| > 0 && out != [] && WithinLimits(out, maxNew, eos)
    ensures WholeOutput(Extend(net, prompt, out, maxNew, eos), maxNew, eos)
    decreases maxNew - |out|
  {
    hide Next, WithinLimits, WholeOutput;
    StopsWhenWhole(out, maxNew, eos);
    if !Stops(out, maxNew, eos) {
      var t := Next(net, prompt + out);
      OneMoreWithin(out, t, maxNew, eos);
      ExtendIsWhole(net, prompt, out + [t], maxNew, eos);
    }
  }

  /** Greedy generation gives at most the limit of tokens, and fewer only if it ends with the end-of-sequence
      token, which comes nowhere before. */
  lemma GenerateIsWhole(net: Net, prompt: seq<int>, maxNew: int, eos: Option<int>)
    requires |prompt| > 0
    ensures WholeOutput(Generate(net, prompt, maxNew, eos), maxNew, eos)
  {
    ExtendIsWhole(net, prompt, [Next(net, prompt)], maxNew, eos);
  }

  // `out` is what greedy decoding has produced so far: every token is the argmax after the tokens
  // before it, and decoding did not have to stop before its last token.
  ghost predicate OnPath(net: Net, prompt: seq<int>, out: seq<int>, maxNew: int, eos: Option<int>)
    requires |prompt| > 0
  {
    forall i {:trigger out[..i]} :: 0 <= i < |out| ==>
      out[i] == Next(net, prompt + out[..i]) && (i > 0 ==> !Stops(out[..i], maxNew, eos))
  }

  lemma OnPathSnoc(net: Net, prompt: seq<int>, out: seq<int>, maxNew: int, eos: Option<int>)
    requires |prompt| > 0 && OnPath(net, prompt, out, maxNew, eos)
    requires out == [] || !Stops(out, maxNew, eos)
    ensures OnPath(net, prompt, out + [Next(net, prompt + out)], maxNew, eos)
  {
    var longer := out + [Next(net, prompt + out)];
    forall i | 0 <= i < |longer|
      ensures longer[i] == Next(net, prompt + longer[..i]) && (i > 0 ==> !Stops(longer[..i], maxNew, eos))
    {
      if i < |out| {
        assert longer[..i] == out[..i];
      } else {
        assert longer[..i] == out;
      }
    }
  }

  lemma {:induction false} ExtendIsPrefix(net: Net, prompt: seq<int>, out: seq<int>, maxNew: int, eos: Option<int>)
    requires |prompt| > 0
    ensures out <= Extend(net, prompt, out, maxNew, eos)
    decreases maxNew - |out|
  {
    if !Stops(out, maxNew, eos) {
      ExtendIsPrefix(net, prompt, out + [Next(net, prompt + out)], maxNew, eos);
    }
  }

  // Whatever is on the greedy path is a prefix of the whole generation, and is all of it once it stops.
  lemma {:induction false} OnPathIsPrefix(net: Net, prompt: seq<int>, out: seq<int>, maxNew: int, eos: Option<int>)
    requires |prompt| > 0 && |out| > 0 && OnPath(net, prompt, out, maxNew, eos)
    ensures Extend(net, prompt, out, maxNew, eos) == Generate(net, prompt, maxNew, eos)
    ensures out <= Generate(net, prompt, maxNew, eos)
    ensures Stops(out, maxNew, eos) ==> out == Generate(net, prompt, maxNew, eos)
  {
    if |out| == 1 {
      assert prompt + out[..0] == prompt;
      assert out == [Next(net, prompt)];
    } else {
      var before := out[..|out| - 1];
      forall i | 0 <= i < |before|
        ensures before[i] == Next(net, prompt + before[..i]) && (i > 0 ==> !Stops(before[..i], maxNew, eos))
      {
        assert before[..i] == out[..i];
      }
      OnPathIsPrefix(net, prompt, before, maxNew, eos);
      assert out == before + [Next(net, prompt + before)];
    }
    ExtendIsPrefix(net, prompt, out, maxNew, eos);
  }

  lemma {:induction false} ExtendIsOnPath(net: Net, prompt: seq<int>, out: seq<int>, maxNew: int, eos: Option<int>)
    requires |prompt| > 0 && |out| > 0 && OnPath(net, prompt, out, maxNew, eos)
    ensures OnPath(net, prompt, Extend(net, prompt, out, maxNew, eos), maxNew, eos)
    ensures Stops(Extend(net, prompt, out, maxNew, eos), maxNew, eos)
    decreases maxNew - |out|
  {
    if !Stops(out, maxNew, eos) {
      OnPathSnoc(net, prompt, out, maxNew, eos);
      ExtendIsOnPath(net, prompt, out + [Next(net, prompt + out)], maxNew, eos);
    }
  }
}
