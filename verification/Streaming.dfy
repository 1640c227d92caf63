// When the pieces of a stream make up its text: for one output, and over all runs of the server.
module Streaming {
  import opened Wrappers
  import opened Reference
  import opened BlockPool
  import opened PagedStore
  import opened SingleSequence
  import opened Seating
  import opened Distributions
  import opened Sampling
  import opened Chance
  import opened Decoding
  import opened Sums
  import opened SchedulerState
  import opened SchedulerInvariant
  import opened SchedulerStep
  import opened SchedulerRuns
  import opened SchedulerLiveness
  import opened SchedulerBudget
  import opened Server

  // More output never changes the text already decoded.
  ghost predicate GrowsOnly(detok: Detokenizer) {
    forall a: seq<nat>, b: seq<nat> :: a != [] && a <= b ==> detok(a) <= detok(b)
  }

  // The pieces pushed for this output make up its text.
  ghost predicate Whole(detok: Detokenizer, outputs: seq<nat>) {
    Text(Streamed(detok, outputs).deltas) == detok(outputs)
  }

  // ---------- one output ----------

  // Each further token of this output has extended the text.
  ghost predicate GrowsAlong(detok: Detokenizer, outputs: seq<nat>) {
    forall k {:trigger outputs[..k]} :: 0 < k < |outputs| ==> detok(outputs[..k]) <= detok(outputs[..k + 1])
  }

  // One more token, when the pieces have made up the text so far.
  lemma OneMorePiece(detok: Detokenizer, outputs: seq<nat>)
    requires outputs != []
    requires var before := outputs[..|outputs| - 1];
      before != [] ==> Whole(detok, before) && Streamed(detok, before).decoded == detok(before)
    ensures var before := outputs[..|outputs| - 1];
      && (Whole(detok, outputs) <==> before == [] || detok(before) <= detok(outputs))
      && (Whole(detok, outputs) ==> Streamed(detok, outputs).decoded == detok(outputs))
  {
    hide PushDelta;
    var before := outputs[..|outputs| - 1];
    PushText(detok, Streamed(detok, before), outputs);
    EmptyPrefix(detok(outputs));
  }

  lemma EmptyPrefix(s: string)
    ensures "" <= s
  {
  }

  lemma LastStep(detok: Detokenizer, outputs: seq<nat>)
    requires |outputs| > 1
    ensures var before := outputs[..|outputs| - 1];
      GrowsAlong(detok, outputs) <==> GrowsAlong(detok, before) && detok(before) <= detok(outputs)
  {
    var n := |outputs| - 1;
    var before := outputs[..n];
    assert outputs[..n + 1] == outputs;
    assert forall k {:trigger before[..k]} :: 0 <= k <= n ==> before[..k] == outputs[..k];
    if GrowsAlong(detok, outputs) {
      forall k | 0 < k < n
        ensures detok(before[..k]) <= detok(before[..k + 1])
      {
        assert detok(outputs[..k]) <= detok(outputs[..k + 1]);
      }
      assert detok(outputs[..n]) <= detok(outputs[..n + 1]);
    }
    if GrowsAlong(detok, before) && detok(before) <= detok(outputs) {
      forall k | 0 < k < |outputs|
        ensures detok(outputs[..k]) <= detok(outputs[..k + 1])
      {
        if k < n {
          assert detok(before[..k]) <= detok(before[..k + 1]);
        }
      }
    }
  }

  /** The pieces make up the text after every token of an output exactly when each further token has extended
      the text. */
  lemma {:induction false} WholeAlongIff(detok: Detokenizer, outputs: seq<nat>)
    requires outputs != []
    ensures (forall k :: 0 < k <= |outputs| ==> Whole(detok, outputs[..k])) <==> GrowsAlong(detok, outputs)
    ensures GrowsAlong(detok, outputs) ==> Streamed(detok, outputs).decoded == detok(outputs)
  {
    hide Whole, Streamed;
    var n := |outputs| - 1;
    var before := outputs[..n];
    assert outputs[..n + 1] == outputs;
    assert forall k :: 0 <= k <= n ==> before[..k] == outputs[..k];
    if n > 0 {
      WholeAlongIff(detok, before);
      LastStep(detok, outputs);
      assert before[..n] == before;
      if GrowsAlong(detok, before) {
        OneMorePiece(detok, outputs);
      } else {
        var k :| 0 < k <= n && !Whole(detok, before[..k]);
        assert !Whole(detok, outputs[..k]);
      }
    } else {
      OneMorePiece(detok, outputs);
    }
  }

  lemma GrowingIsWhole(detok: Detokenizer, out: seq<nat>)
    requires GrowsOnly(detok) && out != []
    ensures Whole(detok, out)
  {
    hide Whole;
    forall k {:trigger out[..k]} | 0 < k < |out|
      ensures detok(out[..k]) <= detok(out[..k + 1])
    {
      assert out[..k] <= out[..k + 1];
    }
    WholeAlongIff(detok, out);
    assert out[..|out|] == out;
  }

  lemma WholeGrows(detok: Detokenizer, a: seq<nat>, b: seq<nat>)
    requires (forall k :: 0 < k <= |b| ==> Whole(detok, b[..k])) && a != [] && a <= b
    ensures detok(a) <= detok(b)
  {
    hide Whole;
    WholeAlongIff(detok, b);
    GrowsFrom(detok, b, |a|, |b|);
    assert b[..|a|] == a && b[..|b|] == b;
  }

  /** The pieces make up the text of every output exactly when more tokens never change earlier text. */
  lemma WholeIff(detok: Detokenizer)
    ensures (forall out: seq<nat> :: out != [] ==> Whole(detok, out)) <==> GrowsOnly(detok)
  {
    hide Whole, GrowsOnly;
    if GrowsOnly(detok) {
      forall out: seq<nat> | out != []
        ensures Whole(detok, out)
      {
        GrowingIsWhole(detok, out);
      }
    }
    if forall out: seq<nat> :: out != [] ==> Whole(detok, out) {
      assert GrowsOnly(detok) by { AllGrow(detok); }
    }
  }

  lemma AllGrow(detok: Detokenizer)
    requires forall out: seq<nat> :: out != [] ==> Whole(detok, out)
    ensures GrowsOnly(detok)
  {
    hide Whole;
    forall a: seq<nat>, b: seq<nat> | a != [] && a <= b
      ensures detok(a) <= detok(b)
    {
      WholeGrows(detok, a, b);
    }
  }

  lemma {:induction false} GrowsFrom(detok: Detokenizer, outputs: seq<nat>, i: nat, j: nat)
    requires GrowsAlong(detok, outputs) && 0 < i <= j <= |outputs|
    ensures detok(outputs[..i]) <= detok(outputs[..j])
    decreases j - i
  {
    if i < j {
      GrowsFrom(detok, outputs, i, j - 1);
      PrefixTrans(detok(outputs[..i]), detok(outputs[..j - 1]), detok(outputs[..j]));
    }
  }

  lemma PrefixTrans(a: string, b: string, c: string)
    requires a <= b <= c
    ensures a <= c
  {
    assert a == b[..|a|] == c[..|b|][..|a|] == c[..|a|];
  }

  // ---------- a network that generates a given output ----------

  // Logits that prefer the token due at this position.
  function Script(out: seq<nat>, x: Vec): Vec {
    if |x| > 0 && 0 <= x[0].Floor < |out| then OneHot(out[x[0].Floor] + 1, out[x[0].Floor]) else [0.0]
  }

  // A row of it is its own position.
  function ScriptedNet(out: seq<nat>): Net {
    Net((t: int) => [],
        [Layer((x: Vec, p: nat) => [[p as real]], (x: Vec, p: nat) => KV([], []), (q: Heads, kvs: seq<KV>) => q,
               (x: Vec, h: Heads) => if |h| > 0 then h[0] else [])],
        (x: Vec) => x, (x: Vec) => Script(out, x))
  }

  lemma ScriptedNext(out: seq<nat>, toks: seq<int>)
    requires 0 < |toks| <= |out|
    ensures Next(ScriptedNet(out), toks) == out[|toks| - 1]
  {
    var net, k := ScriptedNet(out), |toks| - 1;
    assert Rows(net, toks, 1)[k] == [k as real];
    assert Logits(net, toks) == OneHot(out[k] + 1, out[k]);
    HotIsArgMax(out[k]);
  }

  lemma HotIsArgMax(h: nat)
    ensures ArgMax(OneHot(h + 1, h)) == h
  {
    if h > 0 {
      assert OneHot(h + 1, h)[..h] == seq(h, t => 0.0);
    }
  }

  lemma {:induction false} ScriptedExtend(out: seq<nat>, k: nat)
    requires 0 < k <= |out|
    ensures Extend(ScriptedNet(out), [0], out[..k], |out|, None) == out
    decreases |out| - k
  {
    if k < |out| {
      ScriptedNext(out, [0] + out[..k]);
      assert out[..k] + [out[k]] == out[..k + 1];
      ScriptedExtend(out, k + 1);
    }
  }

  lemma ScriptedGenerates(out: seq<nat>)
    requires out != []
    ensures Generate(ScriptedNet(out), [0], |out|, None) == out
  {
    ScriptedNext(out, [0]);
    assert out[..1] == [out[0]];
    ScriptedExtend(out, 1);
  }

  // ---------- runs of the server ----------

  lemma {:induction false} ServeConcat(cfg: Config, detok: Detokenizer, sv: Server, turns: seq<Turn>, more: seq<Turn>)
    ensures ServeAll(cfg, detok, sv, turns + more) == ServeAll(cfg, detok, ServeAll(cfg, detok, sv, turns), more)
  {
    hide Serve;
    if more == [] {
      assert turns + more == turns;
    } else {
      var n := |more| - 1;
      assert (turns + more)[..|turns + more| - 1] == turns + more[..n];
      ServeConcat(cfg, detok, sv, turns, more[..n]);
    }
  }

  // The engine that will generate `out` for one streaming caller.
  ghost function ScriptedConfig(out: seq<nat>): Config {
    Config(ScriptedNet(out), 1, 1, (x: real) => x, Oracle((n: nat) => 0.0, (n: nat, probs: seq<real>) => 0))
  }

  function OneStream(out: seq<nat>): Turn {
    Turn.Request([0], |out|, SamplingParams(0.0, 1.0, 0), None, 0, true)
  }

  ghost function ScriptedStore(out: seq<nat>): Store {
    BlankStore(ScriptedNet(out), |out|)
  }

  // Enough blocks for its whole context.
  ghost function Asked(detok: Detokenizer, out: seq<nat>): Server {
    Serve(ScriptedConfig(out), detok, NewServer(|out|, 1, ScriptedStore(out)), OneStream(out))
  }

  lemma AskedCovered(detok: Detokenizer, out: seq<nat>)
    requires out != []
    ensures var sv := Asked(detok, out);
      && sv.alive && Capacity(sv.engine) && sv.clients.Keys == {0} && sv.clients[0].streaming
      && sv.engine.requests.Keys == {0} && sv.engine.requests[0].prompt == [0] && sv.engine.requests[0].maxNew == |out|
      && sv.engine.requests[0].eos == None
  {
    var s := Asked(detok, out).engine;
    BlocksNeededIs(1, |out|, 0, |out|);
    PeakNonNegative(1, 1, |out|);
    assert s.nextId == 1 && SumTo(1, PeakAt(s)) == SumTo(0, PeakAt(s)) + PeakAt(s)(0);
  }

  /** Whatever the detokenizer, any output may be streamed to a caller: here is the run of the server. */
  lemma StreamedRun(detok: Detokenizer, out: seq<nat>) returns (turns: seq<Turn>)
    requires out != []
    ensures forall t :: t in turns ==> Proper(ScriptedConfig(out), t)
    ensures Shape(ScriptedNet(out), ScriptedStore(out), |out| * 1)
    ensures var sv := ServeAll(ScriptedConfig(out), detok, NewServer(|out|, 1, ScriptedStore(out)), turns);
      && 0 in sv.clients && sv.clients[0] == Streamed(detok, out).(ends := 1)
      && 0 in sv.engine.requests && sv.engine.requests[0].status == Finished && sv.engine.requests[0].outputs == out
  {
    hide Consistent, Capacity, Measure, ServeAll, Transparent, ScriptedNet, Serve, Streamed;
    var cfg, sv0, asked := ScriptedConfig(out), NewServer(|out|, 1, ScriptedStore(out)), Asked(detok, out);
    AskedCovered(detok, out);
    var n := Measure(asked.engine);
    turns := [OneStream(out)] + Loops(n);
    RunsConsistent(cfg, detok, |out|, 1, ScriptedStore(out), [OneStream(out)]);
    RunsConsistent(cfg, detok, |out|, 1, ScriptedStore(out), turns);
    ServeOne(cfg, detok, sv0, OneStream(out));
    LoopsComplete(cfg, detok, asked, n);
    ServeConcat(cfg, detok, sv0, [OneStream(out)], Loops(n));
    ServeAllKeeps(cfg, detok, asked, Loops(n), 0);
    FinishedStream(cfg, detok, ServeAll(cfg, detok, sv0, turns), out);
  }

  lemma FinishedStream(cfg: Config, detok: Detokenizer, sv: Server, out: seq<nat>)
    requires out != [] && cfg.net == ScriptedNet(out)
    requires Consistent(cfg, detok, sv) && Transparent(cfg.net, sv.engine)
    requires 0 in sv.clients && sv.clients[0].streaming
    requires 0 in sv.engine.requests && sv.engine.requests[0].status == Finished
    requires var req := sv.engine.requests[0]; req.prompt == [0] && req.maxNew == |out| && req.eos == None
    ensures sv.engine.requests[0].outputs == out && sv.clients[0] == Streamed(detok, out).(ends := 1)
  {
    hide Generate, Streamed, Settled;
    ScriptedGenerates(out);
    assert Delivered(detok, sv.engine.requests[0], sv.clients[0]);
  }

  lemma ServeOne(cfg: Config, detok: Detokenizer, sv: Server, t: Turn)
    ensures ServeAll(cfg, detok, sv, [t]) == Serve(cfg, detok, sv, t)
  {
    hide Serve;
    assert [t][..0] == [];
    assert ServeAll(cfg, detok, sv, []) == sv;
  }

  // Every finished stream's pieces make up its request's text.
  ghost predicate StreamsWhole(detok: Detokenizer, sv: Server) {
    forall id :: id in sv.clients && FinishedFor(sv, id) ==>
      Text(sv.clients[id].deltas) == detok(sv.engine.requests[id].outputs)
  }

  predicate FinishedFor(sv: Server, id: nat)
    requires id in sv.clients
  {
    sv.clients[id].streaming && id in sv.engine.requests && sv.engine.requests[id].status == Finished
  }

  ghost predicate AlwaysWhole(detok: Detokenizer) {
    forall cfg: Config, numBlocks: nat, blockSize: pos, store: Store, turns: seq<Turn> ::
      Shape(cfg.net, store, numBlocks * blockSize) && (forall t :: t in turns ==> Proper(cfg, t)) ==>
        StreamsWhole(detok, ServeAll(cfg, detok, NewServer(numBlocks, blockSize, store), turns))
  }

  lemma ServedWhole(cfg: Config, detok: Detokenizer, sv: Server)
    requires Consistent(cfg, detok, sv) && GrowsOnly(detok)
    ensures StreamsWhole(detok, sv)
  {
    hide Settled, GrowsOnly;
    forall id | id in sv.clients && FinishedFor(sv, id)
      ensures Text(sv.clients[id].deltas) == detok(sv.engine.requests[id].outputs)
    {
      var out: seq<nat> := sv.engine.requests[id].outputs;
      assert Delivered(detok, sv.engine.requests[id], sv.clients[id]);
      ConsistentShown(cfg, detok, sv);
      GrowingIsWhole(detok, out);
    }
  }

  /** Over all networks, requests and interleavings, the pieces of every finished stream make up its text exactly
      when the detokenizer never changes earlier text as tokens are added. */
  lemma StreamsWholeIff(detok: Detokenizer)
    ensures AlwaysWhole(detok) <==> GrowsOnly(detok)
  {
    hide GrowsOnly, StreamsWhole, Consistent, Shape, Proper, ServeAll;
    if GrowsOnly(detok) {
      forall cfg: Config, numBlocks: nat, blockSize: pos, store: Store, turns: seq<Turn> |
          Shape(cfg.net, store, numBlocks * blockSize) && (forall t :: t in turns ==> Proper(cfg, t))
        ensures StreamsWhole(detok, ServeAll(cfg, detok, NewServer(numBlocks, blockSize, store), turns))
      {
        RunsConsistent(cfg, detok, numBlocks, blockSize, store, turns);
        ServedWhole(cfg, detok, ServeAll(cfg, detok, NewServer(numBlocks, blockSize, store), turns));
      }
    } else {
      WholeIff(detok);
      var out: seq<nat> :| out != [] && !Whole(detok, out);
      BrokenStream(detok, out);
    }
  }

  lemma BrokenStream(detok: Detokenizer, out: seq<nat>)
    requires out != [] && !Whole(detok, out)
    ensures !AlwaysWhole(detok)
  {
    hide ServeAll, Streamed, Shape, Proper, ScriptedNet;
    var turns := StreamedRun(detok, out);
    var cfg, store := ScriptedConfig(out), ScriptedStore(out);
    assert !StreamsWhole(detok, ServeAll(cfg, detok, NewServer(|out|, 1, store), turns));
  }

  // A detokenizer that rewrites the first token's letter when the second one comes: the server sends "a", then
  // "c", for the text "bc".
  lemma RewritingDetokenizer() returns (detok: Detokenizer, turns: seq<Turn>)
    ensures !GrowsOnly(detok)
    ensures forall t :: t in turns ==> Proper(ScriptedConfig([1, 2]), t)
    ensures var sv := ServeAll(ScriptedConfig([1, 2]), detok, NewServer(2, 1, ScriptedStore([1, 2])), turns);
      && 0 in sv.clients && sv.clients[0].deltas == ["a", "c"] && sv.clients[0].ends == 1
      && 0 in sv.engine.requests && detok(sv.engine.requests[0].outputs) == "bc"
  {
    hide ServeAll, Shape, Proper, ScriptedNet;
    detok := (out: seq<int>) => if |out| == 1 then "a" else if |out| == 2 then "bc" else "";
    var one: seq<nat>, two: seq<nat> := [1], [1, 2];
    turns := StreamedRun(detok, two);
    assert two[..1] == one && one[..0] == [];
    assert Streamed(detok, one).deltas == ["a"];
    assert Streamed(detok, two).deltas == ["a", "c"];
    assert one <= two && !(detok(one) <= detok(two)) by {
      assert "a"[0] != "bc"[0];
    }
  }
}
