// Chains in the prefix cache: an entry can be found only while the entries of all shorter prefixes are
// there.  Inserting builds whole chains; eviction looks at the time of use only and can break them.
module PrefixChains {
  import opened Wrappers
  import opened BlockPool
  import opened SingleSequence
  import opened PrefixCaching

  // Every entry's key is that of the block-aligned prefix it stands for.
  ghost predicate Keyed(hash: Hash, bs: pos, nodes: seq<Node>, prefixes: map<int, seq<int>>) {
    forall k :: k in nodes ==> k.key in prefixes && IsKey(hash, bs, prefixes[k.key], k.key)
  }

  // The key of the prefix one block shorter.
  function ParentKey(hash: Hash, bs: pos, prefix: seq<int>): int
    requires bs < |prefix|
  {
    ShorterFits(bs, |prefix|);
    Rolling(hash, bs, prefix, |prefix| / bs - 1)
  }

  lemma ShorterFits(bs: pos, n: nat)
    requires bs < n
    ensures n / bs > 0 && (n / bs - 1) * bs <= n
  {
    assert n == (n / bs) * bs + n % bs;
    assert (n / bs - 1) * bs == (n / bs) * bs - bs;
  }

  // The entry of its first block, or one whose parent has an entry.
  ghost predicate Rooted(hash: Hash, bs: pos, nodes: seq<Node>, prefix: seq<int>) {
    |prefix| <= bs || Find(nodes, ParentKey(hash, bs, prefix)).Some?
  }

  ghost predicate Closed(hash: Hash, bs: pos, nodes: seq<Node>, prefixes: map<int, seq<int>>) {
    forall k :: k in nodes ==> k.key in prefixes && Rooted(hash, bs, nodes, prefixes[k.key])
  }

  // The prefix one block shorter, with its key.
  lemma ParentOf(hash: Hash, bs: pos, prefix: seq<int>, key: int)
    requires IsKey(hash, bs, prefix, key) && bs < |prefix|
    ensures IsKey(hash, bs, prefix[..|prefix| - bs], ParentKey(hash, bs, prefix))
  {
    var n := |prefix| / bs - 1;
    ShorterFits(bs, |prefix|);
    assert n * bs == |prefix| - bs;
    DivMultiple(bs, n);
    RollingPrefix(hash, bs, prefix, n, n * bs);
    assert n > 0;
    MultipleMod(bs, n);
  }

  lemma MultipleMod(bs: pos, n: nat)
    ensures (n * bs) % bs == 0
  {
    DivMultiple(bs, n);
    assert n * bs == ((n * bs) / bs) * bs + (n * bs) % bs;
  }

  // ---------- inserting ----------

  lemma FindIff(nodes: seq<Node>, key: int)
    ensures Find(nodes, key).Some? <==> exists k :: k in nodes && k.key == key
  {
    if Find(nodes, key).Some? {
      assert nodes[Find(nodes, key).value] in nodes;
    }
  }

  // Exactly the inserted keys are new.
  lemma {:induction false} InsertedKeys(nodes: seq<Node>, p: Pool, misses: nat, keys: seq<int>, blocks: seq<nat>,
                                        clock: nat, i: nat, key: int)
    requires i <= |keys| && i <= |blocks| && forall b :: b in blocks ==> b in p.refCount
    ensures Find(InsertTo(nodes, p, misses, keys, blocks, clock, i).0, key).Some? <==>
      Find(nodes, key).Some? || key in keys[..i]
  {
    hide InsertStep;
    if i > 0 {
      InsertedKeys(nodes, p, misses, keys, blocks, clock, i - 1, key);
      var (ns, q, m) := InsertTo(nodes, p, misses, keys, blocks, clock, i - 1);
      StepKeys(ns, q, m, keys[i - 1], blocks[i - 1], clock, key);
      assert keys[..i] == keys[..i - 1] + [keys[i - 1]];
    }
  }

  lemma StepKeys(nodes: seq<Node>, p: Pool, misses: nat, key: int, blk: nat, clock: nat, other: int)
    requires blk in p.refCount
    ensures Find(InsertStep(nodes, p, misses, key, blk, clock).0, other).Some? <==>
      Find(nodes, other).Some? || other == key
  {
    hide BlockPool.AddRef;
    var ns := InsertStep(nodes, p, misses, key, blk, clock).0;
    if Find(nodes, key).Some? {
      SameFound(nodes, ns, other);
    } else {
      assert ns[..|nodes|] == nodes;
    }
  }

  lemma SameFound(nodes: seq<Node>, nodes': seq<Node>, key: int)
    requires SameEntries(nodes, nodes')
    ensures Find(nodes, key).Some? <==> Find(nodes', key).Some?
  {
    if Find(nodes, key).Some? {
      assert nodes'[Find(nodes, key).value].key == key;
    }
    if Find(nodes', key).Some? {
      assert nodes[Find(nodes', key).value].key == key;
    }
  }

  /** An entry without its parent gets it back exactly by an insertion that has the parent's prefix. */
  lemma RootedAfterInsertIff(hash: Hash, bs: pos, nodes: seq<Node>, p: Pool, misses: nat, toks: seq<int>,
                             blocks: seq<nat>,
                             clock: nat, prefix: seq<int>, key: int)
    requires CollisionFree(hash, bs) && IsKey(hash, bs, prefix, key)
    requires |toks| / bs <= |blocks| && forall b :: b in blocks ==> b in p.refCount
    ensures var ns := InsertTo(nodes, p, misses, BlockHashes(hash, bs, toks), blocks, clock, |toks| / bs).0;
      Rooted(hash, bs, ns, prefix) <==> Rooted(hash, bs, nodes, prefix) || prefix[..|prefix| - bs] <= toks
  {
    hide InsertTo, CollisionFree, Rolling, BlockHashes;
    if |prefix| > bs {
      var keys, parent := BlockHashes(hash, bs, toks), ParentKey(hash, bs, prefix);
      InsertedKeys(nodes, p, misses, keys, blocks, clock, |toks| / bs, parent);
      assert keys[..|keys|] == keys;
      ParentOf(hash, bs, prefix, key);
      KeyAmong(hash, bs, toks, prefix[..|prefix| - bs], parent);
    }
  }

  // A prefix's key is among a prompt's keys exactly when the prompt starts with it.
  lemma KeyAmong(hash: Hash, bs: pos, toks: seq<int>, prefix: seq<int>, key: int)
    requires CollisionFree(hash, bs) && IsKey(hash, bs, prefix, key)
    ensures key in BlockHashes(hash, bs, toks) <==> prefix <= toks
  {
    hide CollisionFree, Rolling;
    var keys := BlockHashes(hash, bs, toks);
    if key in keys {
      var i :| 0 <= i < |keys| && keys[i] == key;
      KeyOfBlock(hash, bs, toks, i);
      KeysAgree(hash, bs, toks[..(i + 1) * bs], prefix, key);
    }
    if prefix <= toks {
      var i := |prefix| / bs - 1;
      BlocksWithin(bs, |toks|, |prefix| / bs);
      assert prefix == toks[..|prefix|];
      PositiveBlocks(bs, |prefix|);
      RollingPrefix(hash, bs, toks, i + 1, |prefix|);
      assert keys[i] == key;
    }
  }

  lemma PositiveBlocks(bs: pos, n: nat)
    requires n > 0 && (n / bs) * bs == n
    ensures n / bs > 0
  {
    assert 0 * bs == 0;
  }

  /** Inserting a prompt keeps the chains whole. */
  lemma InsertKeepsClosed(hash: Hash, bs: pos, nodes: seq<Node>, p: Pool, prefixes: map<int, seq<int>>, misses: nat,
                          toks: seq<int>, blocks: seq<nat>, clock: nat)
    requires CollisionFree(hash, bs) && Keyed(hash, bs, nodes, prefixes) && Closed(hash, bs, nodes, prefixes)
    requires |toks| / bs <= |blocks| && forall b :: b in blocks ==> b in p.refCount
    ensures var ns := InsertTo(nodes, p, misses, BlockHashes(hash, bs, toks), blocks, clock, |toks| / bs).0;
      var px := PrefixesTo(prefixes, nodes, p, misses, hash, bs, toks, blocks, clock, |toks| / bs);
      Keyed(hash, bs, ns, px) && Closed(hash, bs, ns, px)
  {
    hide CollisionFree, Rolling, BlockHashes, Rooted, InsertTo, PrefixesTo, IsKey;
    var n, keys := |toks| / bs, BlockHashes(hash, bs, toks);
    var ns := InsertTo(nodes, p, misses, keys, blocks, clock, n).0;
    var px := PrefixesTo(prefixes, nodes, p, misses, hash, bs, toks, blocks, clock, n);
    InsertedPrefixes(hash, bs, nodes, p, prefixes, misses, toks, blocks, clock, n);
    forall k | k in ns
      ensures k.key in px && Rooted(hash, bs, ns, px[k.key])
    {
      var prefix := px[k.key];
      RootedAfterInsertIff(hash, bs, nodes, p, misses, toks, blocks, clock, prefix, k.key);
      if prefix <= toks {
        Shorter(prefix, toks, bs);
        LongEnough(hash, bs, prefix, k.key);
      } else {
        assert KnownOrNew(nodes, prefixes, toks, k, px);
      }
    }
  }

  lemma LongEnough(hash: Hash, bs: pos, prefix: seq<int>, key: int)
    requires IsKey(hash, bs, prefix, key)
    ensures bs <= |prefix|
  {
    PositiveBlocks(bs, |prefix|);
  }

  lemma Shorter(prefix: seq<int>, toks: seq<int>, bs: pos)
    requires prefix <= toks
    ensures |prefix| >= bs ==> prefix[..|prefix| - bs] <= toks
  {
  }

  // An entry stands for what it stood for, or for a prefix of the inserted prompt.
  ghost predicate KnownOrNew(nodes: seq<Node>, prefixes: map<int, seq<int>>, toks: seq<int>, k: Node,
                             px: map<int, seq<int>>) {
    && k.key in px
    && (px[k.key] <= toks
        || (exists k0 :: k0 in nodes && k0.key == k.key && k0.key in prefixes && px[k.key] == prefixes[k0.key]))
  }

  lemma {:induction false} InsertedPrefixes(hash: Hash, bs: pos, nodes: seq<Node>, p: Pool,
                                            prefixes: map<int, seq<int>>, misses: nat,
                                            toks: seq<int>, blocks: seq<nat>, clock: nat, i: nat)
    requires Keyed(hash, bs, nodes, prefixes) && i <= |toks| / bs && i <= |blocks| && forall b :: b in blocks ==>
      b in p.refCount
    ensures var ns := InsertTo(nodes, p, misses, BlockHashes(hash, bs, toks), blocks, clock, i).0;
      var px := PrefixesTo(prefixes, nodes, p, misses, hash, bs, toks, blocks, clock, i);
      && Keyed(hash, bs, ns, px)
      && forall k :: k in ns ==> KnownOrNew(nodes, prefixes, toks, k, px)
  {
    hide IsKey, BlockHashes, Rolling, InsertStep;
    if i > 0 {
      InsertedPrefixes(hash, bs, nodes, p, prefixes, misses, toks, blocks, clock, i - 1);
      KeyOfBlock(hash, bs, toks, i - 1);
      var keys := BlockHashes(hash, bs, toks);
      var (ns, q, m) := InsertTo(nodes, p, misses, keys, blocks, clock, i - 1);
      var px := PrefixesTo(prefixes, nodes, p, misses, hash, bs, toks, blocks, clock, i - 1);
      StepEntries(ns, q, m, keys[i - 1], blocks[i - 1], clock);
      var ns' := InsertStep(ns, q, m, keys[i - 1], blocks[i - 1], clock).0;
      var px' := if Find(ns, keys[i - 1]).Some? then px else px[keys[i - 1] := toks[..i * bs]];
      forall k | k in ns'
        ensures k.key in px' && IsKey(hash, bs, px'[k.key], k.key) && KnownOrNew(nodes, prefixes, toks, k, px')
      {
        if k.key == keys[i - 1] && Find(ns, keys[i - 1]).None? {
          assert px'[k.key] == toks[..i * bs] <= toks;
        } else {
          var k0 :| k0 in ns && k0.key == k.key;
          assert KnownOrNew(nodes, prefixes, toks, k0, px);
        }
      }
    }
  }

  // One insertion adds its key's entry at most.
  lemma StepEntries(nodes: seq<Node>, p: Pool, misses: nat, key: int, blk: nat, clock: nat)
    requires blk in p.refCount
    ensures var ns := InsertStep(nodes, p, misses, key, blk, clock).0;
      forall k :: k in ns ==> (k.key == key && Find(nodes, key).None?) || (exists k0 :: k0 in nodes && k0.key == k.key)
  {
    hide BlockPool.AddRef;
    var ns := InsertStep(nodes, p, misses, key, blk, clock).0;
    forall k | k in ns
      ensures (k.key == key && Find(nodes, key).None?) || (exists k0 :: k0 in nodes && k0.key == k.key)
    {
      var at :| 0 <= at < |ns| && ns[at] == k;
      if at < |nodes| {
        assert nodes[at] in nodes && nodes[at].key == k.key;
      }
    }
  }

  // ---------- evicting ----------

  // `k` stands for a longer prefix that starts with the one `v` stands for.
  ghost predicate Beyond(prefixes: map<int, seq<int>>, v: Node, k: Node) {
    v.key in prefixes && k.key in prefixes && prefixes[v.key] < prefixes[k.key]
  }

  // A surviving entry keeps all shorter prefixes alive in a closed cache.
  lemma {:induction false} AncestorsStay(hash: Hash, bs: pos, nodes: seq<Node>, prefixes: map<int, seq<int>>, v: Node,
                                         k: Node)
    requires CollisionFree(hash, bs) && Keyed(hash, bs, nodes, prefixes) && Closed(hash, bs, nodes, prefixes)
    requires k in nodes && Beyond(prefixes, v, k) && IsKey(hash, bs, prefixes[v.key], v.key)
    ensures Find(nodes, v.key).Some?
    decreases |prefixes[k.key]|
  {
    hide CollisionFree, Rolling;
    var short, long := prefixes[v.key], prefixes[k.key];
    PositiveBlocks(bs, |short|);
    WholeBlocks(bs, |short|, |long|);
    ParentOf(hash, bs, long, k.key);
    var u := nodes[Find(nodes, ParentKey(hash, bs, long)).value];
    assert u in nodes;
    KeysAgree(hash, bs, long[..|long| - bs], prefixes[u.key], u.key);
    if |short| < |long| - bs {
      assert prefixes[u.key][..|short|] == short;
      AncestorsStay(hash, bs, nodes, prefixes, v, u);
    } else {
      assert short == prefixes[u.key];
    }
  }

  lemma WholeBlocks(bs: pos, n: nat, m: nat)
    requires n < m && (n / bs) * bs == n && (m / bs) * bs == m && n / bs > 0
    ensures bs < m && n <= m - bs
  {
    if n / bs >= m / bs {
      MulMonotone(m / bs, n / bs, bs);
    }
    MulMonotone(n / bs + 1, m / bs, bs);
    MulMonotone(1, n / bs, bs);
  }

  // The entries that stay are those that are no victims.
  lemma Survivors(nodes: seq<Node>, n: nat)
    requires DistinctKeys(nodes)
    ensures var rest, victims := DropAll(nodes, Victims(nodes, n)), Victims(nodes, n);
      && DistinctKeys(rest)
      && (forall k :: k in rest <==> k in nodes && k !in victims)
      && (forall v :: v in victims ==> v in nodes && Find(rest, v.key).None?)
  {
    hide DropAll, Victims;
    var rest, victims := DropAll(nodes, Victims(nodes, n)), Victims(nodes, n);
    VictimsOldest(nodes, n);
    AsMultisets(nodes, victims, rest);
    DropAllFacts(nodes, victims, rest);
    DistinctAll(nodes);
    forall v | v in victims
      ensures v in nodes && Find(rest, v.key).None?
    {
      if Find(rest, v.key).Some? {
        var k := rest[Find(rest, v.key).value];
        assert k in rest && k in nodes && k != v;
        OneOfKey(nodes, v, k);
      }
    }
  }

  lemma OneOfKey(nodes: seq<Node>, v: Node, k: Node)
    requires DistinctKeys(nodes) && v in nodes && k in nodes && v.key == k.key
    ensures v == k
  {
  }

  lemma DistinctAll(nodes: seq<Node>)
    requires DistinctKeys(nodes)
    ensures NoDup(nodes)
  {
  }

  lemma AsMultisets(nodes: seq<Node>, victims: seq<Node>, rest: seq<Node>)
    requires DistinctKeys(nodes) && multiset(nodes) == multiset(rest) + multiset(victims)
    ensures multiset(nodes) == multiset(victims) + multiset(rest)
    ensures forall k :: k in rest <==> k in nodes && k !in victims
    ensures forall v :: v in victims ==> v in nodes
  {
    DistinctAll(nodes);
    NoDupMultiset(nodes);
    assert forall k :: k in nodes <==> multiset(nodes)[k] > 0;
    assert forall k :: k in rest <==> multiset(rest)[k] > 0;
    assert forall k :: k in victims <==> multiset(victims)[k] > 0;
  }

  /** Evicting from a cache whose chains are whole leaves them whole exactly when no entry that goes has a
      longer one that stays. */
  lemma EvictionClosedIff(hash: Hash, bs: pos, nodes: seq<Node>, prefixes: map<int, seq<int>>, n: nat)
    requires CollisionFree(hash, bs) && DistinctKeys(nodes)
    requires Keyed(hash, bs, nodes, prefixes) && Closed(hash, bs, nodes, prefixes)
    ensures Closed(hash, bs, DropAll(nodes, Victims(nodes, n)), prefixes)
       <==> !exists v, k :: v in Victims(nodes, n) && k in nodes && k !in Victims(nodes, n) && Beyond(prefixes, v, k)
  {
    hide CollisionFree, Rolling, DropAll, Victims, IsKey;
    var rest, victims := DropAll(nodes, Victims(nodes, n)), Victims(nodes, n);
    Survivors(nodes, n);
    if Closed(hash, bs, rest, prefixes) {
      forall v, k | v in victims && k in nodes && k !in victims
        ensures !Beyond(prefixes, v, k)
      {
        if Beyond(prefixes, v, k) {
          AncestorsStay(hash, bs, rest, prefixes, v, k);
        }
      }
    } else {
      var k :| k in rest && !(k.key in prefixes && Rooted(hash, bs, rest, prefixes[k.key]));
      var long := prefixes[k.key];
      ParentOf(hash, bs, long, k.key);
      var v := nodes[Find(nodes, ParentKey(hash, bs, long)).value];
      assert v in nodes;
      FindIff(rest, v.key);
      assert v in victims;
      KeysAgree(hash, bs, long[..|long| - bs], prefixes[v.key], v.key);
      assert Beyond(prefixes, v, k);
    }
  }

  /** That can happen: a prompt of two blocks gives both entries the same time of use, and the stable sort
      then puts the first one first. */
  lemma EvictingOneOrphans(hash: Hash, bs: pos, toks: seq<int>, p: Pool, blocks: seq<nat>, clock: nat)
    requires CollisionFree(hash, bs) && |toks| == 2 * bs && |blocks| == 2 && forall b :: b in blocks ==> b in p.refCount
    ensures |toks| / bs == 2
    ensures var nodes := InsertTo([], p, 0, BlockHashes(hash, bs, toks), blocks, clock, 2).0;
      var prefixes := PrefixesTo(map[], [], p, 0, hash, bs, toks, blocks, clock, 2);
      && Keyed(hash, bs, nodes, prefixes) && Closed(hash, bs, nodes, prefixes)
      && Keyed(hash, bs, DropAll(nodes, Victims(nodes, 1)), prefixes)
      && !Closed(hash, bs, DropAll(nodes, Victims(nodes, 1)), prefixes)
  {
    hide CollisionFree, Rolling, BlockHashes, InsertTo, PrefixesTo;
    var keys := BlockHashes(hash, bs, toks);
    TwoKeys(hash, bs, toks);
    InsertKeepsClosed(hash, bs, [], p, map[], 0, toks, blocks, clock);
    var a, b := Node(keys[0], blocks[0], clock), Node(keys[1], blocks[1], clock);
    TwoInserted(p, keys, blocks, clock);
    FirstGoes(a, b);
    var prefixes := PrefixesTo(map[], [], p, 0, hash, bs, toks, blocks, clock, 2);
    assert b in [a, b] && b in [b];
    KeysAgree(hash, bs, toks, prefixes[b.key], b.key);
  }

  lemma TwoKeys(hash: Hash, bs: pos, toks: seq<int>)
    requires CollisionFree(hash, bs) && |toks| == 2 * bs
    ensures |toks| / bs == 2
    ensures var keys := BlockHashes(hash, bs, toks);
      keys[0] != keys[1] && IsKey(hash, bs, toks, keys[1]) && ParentKey(hash, bs, toks) == keys[0]
  {
    hide CollisionFree, Rolling;
    DivMultiple(bs, 2);
    var keys := BlockHashes(hash, bs, toks);
    KeyOfBlock(hash, bs, toks, 0);
    KeyOfBlock(hash, bs, toks, 1);
    var first := toks[..1 * bs];
    assert toks[..2 * bs] == toks && |first| == bs;
    if keys[0] == keys[1] {
      KeysAgree(hash, bs, first, toks, keys[0]);
    }
  }

  lemma KeyIs(hash: Hash, bs: pos, prefix: seq<int>, key: int, key': int)
    requires IsKey(hash, bs, prefix, key) && IsKey(hash, bs, prefix, key')
    ensures key == key'
  {
  }

  lemma TwoInserted(p: Pool, keys: seq<int>, blocks: seq<nat>, clock: nat)
    requires |keys| == |blocks| == 2 && keys[0] != keys[1] && forall b :: b in blocks ==> b in p.refCount
    ensures InsertTo([], p, 0, keys, blocks, clock, 2).0 ==
      [Node(keys[0], blocks[0], clock), Node(keys[1], blocks[1], clock)]
  {
    hide BlockPool.AddRef;
    var none, a := InsertTo([], p, 0, keys, blocks, clock, 0), Node(keys[0], blocks[0], clock);
    assert none == ([], p, 0);
    var one := InsertTo([], p, 0, keys, blocks, clock, 1);
    assert one == InsertStep([], p, 0, keys[0], blocks[0], clock);
    assert one.0 == [a];
    FindOther(a, keys[1]);
  }

  lemma FindOther(a: Node, key: int)
    requires a.key != key
    ensures Find([a], key).None?
  {
    assert [a][..0] == [];
  }

  lemma FirstGoes(a: Node, b: Node)
    requires a.key != b.key && a.lastUsed == b.lastUsed
    ensures Victims([a, b], 1) == [a] && DropAll([a, b], Victims([a, b], 1)) == [b]
  {
    assert [a, b][..1] == [a] && [a][..0] == [];
    assert SortBy([], NoLaterUse) == [] && SortBy([a], NoLaterUse) == [a];
    assert SortBy([a, b], NoLaterUse) == [a, b];
    assert [a, b][..1] == [a];
    assert DropAll([a, b], []) == [a, b];
    assert Find([a, b], a.key) == Some(0) by {
      assert [a, b][..1] == [a];
    }
    assert DropAt([a, b], 0) == [b];
  }

  // ---------- what a broken chain means ----------

  // A lookup touches only the entries of the keys it finds.
  lemma {:induction false} MatchRunTouches(nodes: seq<Node>, keys: seq<int>, clock: nat, n: nat)
    requires n < |nodes|
    ensures var (after, run) := MatchRun(nodes, keys, clock);
      after[n] == nodes[n] || exists i :: 0 <= i < |run| && keys[i] == nodes[n].key
    decreases |keys|
  {
    if keys != [] && Find(nodes, keys[0]).Some? {
      var at := Find(nodes, keys[0]).value;
      var touched := Touch(nodes, at, clock);
      MatchRunTouches(touched, keys[1..], clock, n);
      var (after, run) := MatchRun(nodes, keys, clock);
      if n == at {
        assert keys[0] == nodes[n].key;
      } else if after[n] != nodes[n] {
        var i :| 0 <= i < |run| - 1 && keys[1..][i] == touched[n].key;
        assert keys[i + 1] == nodes[n].key;
      }
    }
  }

  /** No lookup, for any prompt, finds or touches an entry whose parent is missing: its block stays pinned and
      is of no use until the parent's prefix is inserted again (`RootedAfterInsertIff`). */
  lemma OrphanUnreached(hash: Hash, bs: pos, nodes: seq<Node>, prefix: seq<int>, n: nat, toks: seq<int>, clock: nat)
    requires CollisionFree(hash, bs) && n < |nodes| && IsKey(hash, bs, prefix, nodes[n].key)
    requires !Rooted(hash, bs, nodes, prefix)
    ensures var (after, run) := MatchRun(nodes, BlockHashes(hash, bs, toks), clock);
      && after[n] == nodes[n] && (forall i :: 0 <= i < |run| ==> BlockHashes(hash, bs, toks)[i] != nodes[n].key)
      && !Rooted(hash, bs, after, prefix)
  {
    hide CollisionFree, Rolling, BlockHashes, MatchRun;
    var keys := BlockHashes(hash, bs, toks);
    var (after, run) := MatchRun(nodes, keys, clock);
    MatchRunFinds(nodes, keys, clock);
    MatchRunTouches(nodes, keys, clock, n);
    forall i | 0 <= i < |run|
      ensures keys[i] != nodes[n].key
    {
      if keys[i] == nodes[n].key {
        ParentBefore(hash, bs, toks, i, prefix);
      }
    }
    SameFound(nodes, after, ParentKey(hash, bs, prefix));
  }

  lemma ParentBefore(hash: Hash, bs: pos, toks: seq<int>, i: nat, prefix: seq<int>)
    requires CollisionFree(hash, bs) && i < |toks| / bs && bs < |prefix|
    requires IsKey(hash, bs, prefix, BlockHashes(hash, bs, toks)[i])
    ensures i > 0 && BlockHashes(hash, bs, toks)[i - 1] == ParentKey(hash, bs, prefix)
  {
    hide CollisionFree, Rolling;
    var keys := BlockHashes(hash, bs, toks);
    KeyOfBlock(hash, bs, toks, i);
    KeysAgree(hash, bs, toks[..(i + 1) * bs], prefix, keys[i]);
    assert i > 0 by { assert 1 * bs == bs; }
    KeyOfBlock(hash, bs, toks, i - 1);
    ParentOf(hash, bs, prefix, keys[i]);
    assert (i + 1) * bs - bs == i * bs;
    assert prefix[..|prefix| - bs] == toks[..i * bs];
    KeyIs(hash, bs, toks[..i * bs], keys[i - 1], ParentKey(hash, bs, prefix));
  }

  // ---------- only ties break chains ----------

  // No entry was used later than its parent, and none later than `clock`.
  ghost predicate Aged(hash: Hash, bs: pos, nodes: seq<Node>, prefixes: map<int, seq<int>>, clock: nat) {
    && (forall k :: k in nodes ==> k.lastUsed <= clock && k.key in prefixes)
    && (forall k, u :: k in nodes && u in nodes && IsParent(hash, bs, prefixes, k, u) ==> k.lastUsed <= u.lastUsed)
  }

  ghost predicate IsParent(hash: Hash, bs: pos, prefixes: map<int, seq<int>>, k: Node, u: Node) {
    k.key in prefixes && bs < |prefixes[k.key]| && u.key == ParentKey(hash, bs, prefixes[k.key])
  }

  // What has just been used, given which keys were.
  ghost predicate Used(nodes: seq<Node>, nodes': seq<Node>, keys: seq<int>, clock: nat) {
    forall k :: k in nodes' ==> if k.key in keys then k.lastUsed == clock else k in nodes
  }

  lemma {:induction false} InsertUses(nodes: seq<Node>, p: Pool, misses: nat, keys: seq<int>, blocks: seq<nat>,
                                      clock: nat, i: nat)
    requires i <= |keys| && i <= |blocks| && forall b :: b in blocks ==> b in p.refCount
    requires DistinctKeys(nodes)
    ensures var ns := InsertTo(nodes, p, misses, keys, blocks, clock, i).0;
      DistinctKeys(ns) && Used(nodes, ns, keys[..i], clock)
  {
    hide InsertStep;
    if i > 0 {
      InsertUses(nodes, p, misses, keys, blocks, clock, i - 1);
      var (ns, q, m) := InsertTo(nodes, p, misses, keys, blocks, clock, i - 1);
      StepUses(ns, q, m, keys[i - 1], blocks[i - 1], clock);
      assert keys[..i] == keys[..i - 1] + [keys[i - 1]];
    }
  }

  lemma StepUses(nodes: seq<Node>, p: Pool, misses: nat, key: int, blk: nat, clock: nat)
    requires blk in p.refCount && DistinctKeys(nodes)
    ensures var ns := InsertStep(nodes, p, misses, key, blk, clock).0; DistinctKeys(ns) && Used(nodes, ns, [key], clock)
  {
    hide BlockPool.AddRef;
    var ns := InsertStep(nodes, p, misses, key, blk, clock).0;
    forall k | k in ns
      ensures if k.key in [key] then k.lastUsed == clock else k in nodes
    {
      var at :| 0 <= at < |ns| && ns[at] == k;
      assert at < |nodes| && k.key != key ==> nodes[at] == k;
    }
  }

  lemma TouchUses(nodes: seq<Node>, i: nat, clock: nat)
    requires i < |nodes| && DistinctKeys(nodes)
    ensures DistinctKeys(Touch(nodes, i, clock)) && Used(nodes, Touch(nodes, i, clock), [nodes[i].key], clock)
  {
  }

  lemma UsedThen(nodes: seq<Node>, mid: seq<Node>, after: seq<Node>, a: seq<int>, b: seq<int>, clock: nat)
    requires Used(nodes, mid, a, clock) && Used(mid, after, b, clock)
    ensures Used(nodes, after, a + b, clock)
  {
  }

  lemma {:induction false} MatchUses(nodes: seq<Node>, keys: seq<int>, clock: nat)
    requires DistinctKeys(nodes)
    ensures var (after, run) := MatchRun(nodes, keys, clock);
      DistinctKeys(after) && Used(nodes, after, keys[..|run|], clock)
    decreases |keys|
  {
    hide Used, DistinctKeys, Touch, MatchRun;
    if keys != [] && Find(nodes, keys[0]).Some? {
      var at := Find(nodes, keys[0]).value;
      hide Find;
      var touched := Touch(nodes, at, clock);
      TouchUses(nodes, at, clock);
      MatchUses(touched, keys[1..], clock);
      FirstMatch(nodes, keys, clock);
      var (after, run) := MatchRun(touched, keys[1..], clock);
      UsedThen(nodes, touched, after, [keys[0]], keys[1..][..|run|], clock);
      assert keys[..|run| + 1] == [keys[0]] + keys[1..][..|run|];
    } else {
      NoMatch(nodes, keys, clock);
      NothingUsed(nodes, clock);
    }
  }

  lemma FirstMatch(nodes: seq<Node>, keys: seq<int>, clock: nat)
    requires keys != [] && Find(nodes, keys[0]).Some?
    ensures var (after, run) := MatchRun(Touch(nodes, Find(nodes, keys[0]).value, clock), keys[1..], clock);
      MatchRun(nodes, keys, clock).0 == after && |MatchRun(nodes, keys, clock).1| == |run| + 1
  {
  }

  lemma NoMatch(nodes: seq<Node>, keys: seq<int>, clock: nat)
    requires keys == [] || Find(nodes, keys[0]).None?
    ensures MatchRun(nodes, keys, clock) == (nodes, [])
  {
  }

  lemma NothingUsed(nodes: seq<Node>, clock: nat)
    ensures Used(nodes, nodes, [], clock)
  {
  }

  // Using leading blocks of a prompt keeps parents at least as recent as their children.
  lemma UseKeepsAged(hash: Hash, bs: pos, nodes: seq<Node>, prefixes: map<int, seq<int>>, nodes': seq<Node>,
                     prefixes': map<int, seq<int>>, toks: seq<int>, n: nat, clock: nat)
    requires CollisionFree(hash, bs) && clock > 0 && Aged(hash, bs, nodes, prefixes, clock - 1) && n <= |toks| / bs
    requires Keyed(hash, bs, nodes', prefixes') && Used(nodes, nodes', BlockHashes(hash, bs, toks)[..n], clock)
    requires forall k :: k in nodes && k.key in prefixes' && k.key !in BlockHashes(hash, bs, toks)[..n] ==>
      prefixes'[k.key] == prefixes[k.key]
    ensures Aged(hash, bs, nodes', prefixes', clock)
  {
    hide CollisionFree, Rolling, BlockHashes, IsKey;
    var keys := BlockHashes(hash, bs, toks)[..n];
    forall k, u | k in nodes' && u in nodes' && IsParent(hash, bs, prefixes', k, u)
      ensures k.lastUsed <= u.lastUsed
    {
      if k.key in keys {
        var i :| 0 <= i < n && keys[i] == k.key;
        ParentBefore(hash, bs, toks, i, prefixes'[k.key]);
        assert keys[i - 1] in keys;
      } else if u.key !in keys {
        assert IsParent(hash, bs, prefixes, k, u);
      }
    }
  }

  lemma MatchKeepsAged(hash: Hash, bs: pos, nodes: seq<Node>, prefixes: map<int, seq<int>>, toks: seq<int>, clock: nat)
    requires CollisionFree(hash, bs) && DistinctKeys(nodes) && Keyed(hash, bs, nodes, prefixes)
    requires clock > 0 && Aged(hash, bs, nodes, prefixes, clock - 1)
    ensures Aged(hash, bs, MatchRun(nodes, BlockHashes(hash, bs, toks), clock).0, prefixes, clock)
  {
    hide CollisionFree, BlockHashes, MatchRun, Used, Aged, IsKey;
    var (after, run) := MatchRun(nodes, BlockHashes(hash, bs, toks), clock);
    MatchUses(nodes, BlockHashes(hash, bs, toks), clock);
    SameKeyed(hash, bs, nodes, after, prefixes);
    UseKeepsAged(hash, bs, nodes, prefixes, after, prefixes, toks, |run|, clock);
  }

  lemma SameKeyed(hash: Hash, bs: pos, nodes: seq<Node>, nodes': seq<Node>, prefixes: map<int, seq<int>>)
    requires Keyed(hash, bs, nodes, prefixes) && SameEntries(nodes, nodes')
    ensures Keyed(hash, bs, nodes', prefixes)
  {
    hide IsKey;
    forall k | k in nodes'
      ensures k.key in prefixes && IsKey(hash, bs, prefixes[k.key], k.key)
    {
      var at :| 0 <= at < |nodes'| && nodes'[at] == k;
      assert nodes[at] in nodes && nodes[at].key == k.key;
    }
  }

  lemma InsertKeepsAged(hash: Hash, bs: pos, nodes: seq<Node>, p: Pool, prefixes: map<int, seq<int>>, misses: nat,
                        toks: seq<int>, blocks: seq<nat>, clock: nat)
    requires CollisionFree(hash, bs) && DistinctKeys(nodes) && Keyed(hash, bs, nodes, prefixes)
    requires clock > 0 && Aged(hash, bs, nodes, prefixes, clock - 1)
    requires |toks| / bs <= |blocks| && forall b :: b in blocks ==> b in p.refCount
    ensures Aged(hash, bs, InsertTo(nodes, p, misses, BlockHashes(hash, bs, toks), blocks, clock, |toks| / bs).0,
                 PrefixesTo(prefixes, nodes, p, misses, hash, bs, toks, blocks, clock, |toks| / bs), clock)
  {
    hide CollisionFree, BlockHashes, InsertTo, PrefixesTo, Used, Aged, IsKey;
    var n, keys := |toks| / bs, BlockHashes(hash, bs, toks);
    var ns := InsertTo(nodes, p, misses, keys, blocks, clock, n).0;
    var px := PrefixesTo(prefixes, nodes, p, misses, hash, bs, toks, blocks, clock, n);
    InsertUses(nodes, p, misses, keys, blocks, clock, n);
    InsertedPrefixes(hash, bs, nodes, p, prefixes, misses, toks, blocks, clock, n);
    PrefixesStay(prefixes, nodes, p, misses, hash, bs, toks, blocks, clock, n);
    UseKeepsAged(hash, bs, nodes, prefixes, ns, px, toks, n, clock);
  }

  lemma {:induction false} PrefixesStay(prefixes: map<int, seq<int>>, nodes: seq<Node>, p: Pool, misses: nat,
                                        hash: Hash, bs: pos, toks: seq<int>, blocks: seq<nat>, clock: nat, i: nat)
    requires i <= |toks| / bs && i <= |blocks| && forall b :: b in blocks ==> b in p.refCount
    ensures var px := PrefixesTo(prefixes, nodes, p, misses, hash, bs, toks, blocks, clock, i);
      forall key :: key !in BlockHashes(hash, bs, toks)[..i] && key in prefixes ==>
        key in px && px[key] == prefixes[key]
  {
    hide BlockHashes, InsertTo;
    if i > 0 {
      PrefixesStay(prefixes, nodes, p, misses, hash, bs, toks, blocks, clock, i - 1);
      var keys := BlockHashes(hash, bs, toks);
      assert keys[..i] == keys[..i - 1] + [keys[i - 1]];
    }
  }

  /** Matching and inserting keep that order, so an eviction breaks a chain only if it stops in the middle of
      entries last used at the same moment: some entry goes whose child, used exactly then too, stays. */
  lemma BrokenOnlyByTies(hash: Hash, bs: pos, nodes: seq<Node>, prefixes: map<int, seq<int>>, clock: nat, n: nat)
    requires CollisionFree(hash, bs) && DistinctKeys(nodes) && Keyed(hash, bs, nodes, prefixes)
    requires Closed(hash, bs, nodes, prefixes) && Aged(hash, bs, nodes, prefixes, clock)
    ensures Closed(hash, bs, DropAll(nodes, Victims(nodes, n)), prefixes)
      || exists v, k :: v in Victims(nodes, n) && k in nodes && k !in Victims(nodes, n)
           && IsParent(hash, bs, prefixes, k, v) && v.lastUsed == k.lastUsed
  {
    hide CollisionFree, Rolling, DropAll, Victims, IsKey;
    var rest, victims := DropAll(nodes, Victims(nodes, n)), Victims(nodes, n);
    Survivors(nodes, n);
    VictimsOldest(nodes, n);
    if !Closed(hash, bs, rest, prefixes) {
      var k :| k in rest && !(k.key in prefixes && Rooted(hash, bs, rest, prefixes[k.key]));
      var v := nodes[Find(nodes, ParentKey(hash, bs, prefixes[k.key])).value];
      assert v in nodes;
      FindIff(rest, v.key);
      assert v in victims && IsParent(hash, bs, prefixes, k, v);
    }
  }
}
