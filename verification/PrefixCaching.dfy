// Automatic prefix caching: full blocks keyed by a rolling hash of all tokens up to and including them.
module PrefixCaching {
  import opened Wrappers
  import opened Reference
  import opened BlockPool
  import opened BlockAllocator
  import opened PagedStore
  import opened RaggedForward
  import opened SingleSequence

  datatype Node = Node(key: int, block: nat, lastUsed: nat)

  // The hash of one block chained to the hash of the blocks before it.
  type Hash = (int, seq<int>) -> int

  lemma BlockEnd(bs: pos, n: nat, i: nat)
    requires i < n / bs
    ensures i * bs + bs == (i + 1) * bs <= n
  {
    assert n == (n / bs) * bs + n % bs;
    assert (i + 1) * bs <= (n / bs) * bs;
  }

  function Rolling(hash: Hash, bs: pos, toks: seq<int>, n: nat): int
    requires n * bs <= |toks|
  {
    if n == 0 then 0
    else
      assert (n - 1) * bs + bs == n * bs;
      hash(Rolling(hash, bs, toks, n - 1), toks[(n - 1) * bs..n * bs])
  }

  lemma {:induction false} RollingPrefix(hash: Hash, bs: pos, toks: seq<int>, n: nat, m: nat)
    requires n * bs <= m <= |toks|
    ensures Rolling(hash, bs, toks[..m], n) == Rolling(hash, bs, toks, n)
  {
    if n > 0 {
      assert (n - 1) * bs + bs == n * bs;
      RollingPrefix(hash, bs, toks, n - 1, m);
      assert toks[..m][(n - 1) * bs..n * bs] == toks[(n - 1) * bs..n * bs];
    }
  }

  // No two block-aligned token prefixes share a key.
  ghost predicate CollisionFree(hash: Hash, bs: pos) {
    forall a: seq<int>, n: nat, b: seq<int>, m: nat {:trigger Rolling(hash, bs, a, n), Rolling(hash, bs, b, m)} ::
      n > 0 && m > 0 && n * bs == |a| && m * bs == |b| && Rolling(hash, bs, a, n) == Rolling(hash, bs, b, m) ==> a == b
  }

  // A hash of pairs that never collides, and never gives the initial value.
  ghost predicate Injective(hash: Hash) {
    && (forall x, y, s, t :: hash(x, s) == hash(y, t) ==> x == y && s == t)
    && forall x, s :: hash(x, s) != 0
  }

  lemma SamePair(hash: Hash, x: int, s: seq<int>, y: int, t: seq<int>)
    requires Injective(hash)
    ensures hash(x, s) != 0
    ensures hash(x, s) == hash(y, t) ==> x == y && s == t
  {
  }

  // Each key stands for all tokens up to its block's end, because the key before is hashed with the block.
  lemma InjectiveIsCollisionFree(hash: Hash, bs: pos)
    requires Injective(hash)
    ensures CollisionFree(hash, bs)
  {
    hide Injective, Rolling;
    forall a: seq<int>, n: nat, b: seq<int>, m: nat
      | n > 0 && m > 0 && n * bs == |a| && m * bs == |b| && Rolling(hash, bs, a, n) == Rolling(hash, bs, b, m)
      ensures a == b
    {
      RollingInjective(hash, bs, a, n, b, m);
    }
  }

  lemma {:induction false} RollingInjective(hash: Hash, bs: pos, a: seq<int>, n: nat, b: seq<int>, m: nat)
    requires Injective(hash)
    requires n * bs == |a| && m * bs == |b| && Rolling(hash, bs, a, n) == Rolling(hash, bs, b, m)
    ensures a == b
  {
    hide Injective, Rolling;
    if n == 0 || m == 0 {
      NoBlocks(hash, bs, a, n);
      NoBlocks(hash, bs, b, m);
    } else {
      LastBlock(hash, bs, a, n);
      LastBlock(hash, bs, b, m);
      var a', b' := a[..|a| - bs], b[..|b| - bs];
      SamePair(hash, Rolling(hash, bs, a', n - 1), a[|a| - bs..], Rolling(hash, bs, b', m - 1), b[|b| - bs..]);
      RollingInjective(hash, bs, a', n - 1, b', m - 1);
      assert a == a' + a[|a| - bs..] && b == b' + b[|b| - bs..];
    }
  }

  lemma NoBlocks(hash: Hash, bs: pos, a: seq<int>, n: nat)
    requires Injective(hash) && n * bs == |a|
    ensures Rolling(hash, bs, a, n) == 0 <==> a == []
    ensures n == 0 ==> a == []
  {
    if n == 0 {
      assert 0 * bs == 0;
    } else {
      LastBlock(hash, bs, a, n);
      SamePair(hash, Rolling(hash, bs, a[..|a| - bs], n - 1), a[|a| - bs..], 0, []);
    }
  }

  lemma LastBlock(hash: Hash, bs: pos, a: seq<int>, n: nat)
    requires n > 0 && n * bs == |a|
    ensures |a| >= bs && (n - 1) * bs == |a| - bs
    ensures Rolling(hash, bs, a, n) == hash(Rolling(hash, bs, a[..|a| - bs], n - 1), a[|a| - bs..])
  {
    assert (n - 1) * bs + bs == n * bs;
    assert (n - 1) * bs >= 0;
    RollingPrefix(hash, bs, a, n - 1, (n - 1) * bs);
    assert a[(n - 1) * bs..n * bs] == a[|a| - bs..];
  }

  function BlockHashes(hash: Hash, bs: pos, toks: seq<int>): (keys: seq<int>)
    ensures |keys| == |toks| / bs
  {
    seq(|toks| / bs, i requires 0 <= i < |toks| / bs => BlockEnd(bs, |toks|, i); Rolling(hash, bs, toks, i + 1))
  }

  // ---------- the nodes, in insertion order ----------

  ghost predicate DistinctKeys(nodes: seq<Node>) {
    forall i, j :: 0 <= i < j < |nodes| ==> nodes[i].key != nodes[j].key
  }

  function Find(nodes: seq<Node>, key: int): (r: Option<nat>)
    ensures r.Some? ==> r.value < |nodes| && nodes[r.value].key == key
    ensures r.None? ==> forall i :: 0 <= i < |nodes| ==> nodes[i].key != key
  {
    if nodes == [] then None
    else if nodes[|nodes| - 1].key == key then Some(|nodes| - 1)
    else Find(nodes[..|nodes| - 1], key)
  }

  function NodeBlocks(nodes: seq<Node>): (bs: seq<nat>)
    ensures |bs| == |nodes|
  {
    seq(|nodes|, i requires 0 <= i < |nodes| => nodes[i].block)
  }

  // The references the cache holds.
  ghost function Pins(nodes: seq<Node>): multiset<nat> {
    multiset(NodeBlocks(nodes))
  }

  lemma Pinned(nodes: seq<Node>, i: nat)
    requires i < |nodes|
    ensures nodes[i].block in Pins(nodes)
  {
    assert NodeBlocks(nodes)[i] in NodeBlocks(nodes);
  }

  lemma PinsSnoc(nodes: seq<Node>, node: Node)
    ensures Pins(nodes + [node]) == Pins(nodes) + multiset{node.block}
  {
    assert NodeBlocks(nodes + [node]) == NodeBlocks(nodes) + [node.block];
  }

  // The same entries, apart from when they were last used.
  ghost predicate SameEntries(nodes: seq<Node>, nodes': seq<Node>) {
    && |nodes| == |nodes'|
    && forall i :: 0 <= i < |nodes| ==> nodes'[i].key == nodes[i].key && nodes'[i].block == nodes[i].block
  }

  lemma SamePins(nodes: seq<Node>, nodes': seq<Node>)
    requires SameEntries(nodes, nodes')
    ensures Pins(nodes) == Pins(nodes')
  {
    assert NodeBlocks(nodes) == NodeBlocks(nodes');
  }

  // ---------- what the cached blocks hold ----------

  /** Block `b` holds, in every layer, the keys and values of the last block of tokens of `prefix`. */
  ghost predicate BlockHolds(net: Net, store: Store, bs: pos, b: nat, prefix: seq<int>) {
    && |store| == |net.layers|
    && |prefix| >= bs
    && (forall l, o {:trigger CellHolds(net, store, bs, b, prefix, l, o)} ::
          0 <= l < |store| && 0 <= o < bs ==> CellHolds(net, store, bs, b, prefix, l, o))
  }

  ghost predicate CellHolds(net: Net, store: Store, bs: pos, b: nat, prefix: seq<int>, l: nat, o: nat)
    requires |store| == |net.layers| && |prefix| >= bs && l < |store| && o < bs
  {
    Cell(bs, b, o) < |store[l]| && store[l][Cell(bs, b, o)] == KvRows(net, prefix, l)[|prefix| - bs + o]
  }

  // Some node carries this key and block.
  ghost predicate Listed(nodes: seq<Node>, key: int, block: nat) {
    exists n :: 0 <= n < |nodes| && nodes[n].key == key && nodes[n].block == block
  }

  /** Every node's key is the rolling hash of some block-aligned prefix (kept here in `prefixes`), and
      its block holds exactly that prefix's last block. */
  ghost predicate NodesHold(net: Net, store: Store, bs: pos, hash: Hash, nodes: seq<Node>,
                            prefixes: map<int, seq<int>>) {
    forall i :: 0 <= i < |nodes| ==> NodeHolds(net, store, bs, hash, nodes[i], prefixes)
  }

  ghost predicate NodeHolds(net: Net, store: Store, bs: pos, hash: Hash, node: Node, prefixes: map<int, seq<int>>) {
    && node.key in prefixes
    && IsKey(hash, bs, prefixes[node.key], node.key)
    && BlockHolds(net, store, bs, node.block, prefixes[node.key])
  }

  ghost predicate IsKey(hash: Hash, bs: pos, prefix: seq<int>, key: int) {
    && |prefix| > 0 && |prefix| % bs == 0
    && (|prefix| / bs) * bs == |prefix|
    && key == Rolling(hash, bs, prefix, |prefix| / bs)
  }

  lemma KeyOfBlock(hash: Hash, bs: pos, toks: seq<int>, i: nat)
    requires i < |toks| / bs
    ensures (i + 1) * bs <= |toks|
    ensures |toks[..(i + 1) * bs]| == (i + 1) * bs
    ensures IsKey(hash, bs, toks[..(i + 1) * bs], BlockHashes(hash, bs, toks)[i])
  {
    BlockEnd(bs, |toks|, i);
    RollingPrefix(hash, bs, toks, i + 1, (i + 1) * bs);
    BlocksNeededIs(bs, i + 1, 0, (i + 1) * bs);
    SamePosition(bs, (i + 1) * bs, (i + 1) * bs);
    DivMultiple(bs, i + 1);
  }

  // Equal keys mean equal prefixes.
  lemma KeysAgree(hash: Hash, bs: pos, a: seq<int>, b: seq<int>, key: int)
    requires CollisionFree(hash, bs) && IsKey(hash, bs, a, key) && IsKey(hash, bs, b, key)
    ensures a == b
  {
    assert |a| / bs > 0 && |b| / bs > 0 by {
      assert 0 * bs == 0;
    }
  }

  /** Blocks matched for the leading full blocks of a prompt hold that part of the prompt. */
  lemma MatchedHolds(net: Net, store: Store, bs: pos, hash: Hash, nodes: seq<Node>, prefixes: map<int, seq<int>>,
                     toks: seq<int>, matched: seq<nat>)
    requires NodesHold(net, store, bs, hash, nodes, prefixes) && CollisionFree(hash, bs)
    requires |matched| <= |toks| / bs && |store| == |net.layers|
    requires forall i :: 0 <= i < |matched| ==> Listed(nodes, BlockHashes(hash, bs, toks)[i], matched[i])
    ensures |matched| * bs <= |toks|
    ensures Holds(net, store, bs, matched, toks[..|matched| * bs])
  {
    var m := |matched| * bs;
    assert (|toks| / bs) * bs <= |toks| by {
      assert |toks| == (|toks| / bs) * bs + |toks| % bs;
    }
    assert m <= (|toks| / bs) * bs;
    FitsIff(bs, matched, m);
    forall l, j | 0 <= l < |store| && 0 <= j < m
      ensures Slot(bs, matched, j) < |store[l]|
      ensures store[l][Slot(bs, matched, j)] == KvRows(net, toks[..m], l)[j]
    {
      assert BlockIndex(bs, j) < |matched|;
      MatchedAt(net, store, bs, hash, nodes, prefixes, toks, matched, l, j);
      CausalKv(net, toks, m, l);
    }
  }

  lemma MatchedAt(net: Net, store: Store, bs: pos, hash: Hash, nodes: seq<Node>, prefixes: map<int, seq<int>>,
                  toks: seq<int>, matched: seq<nat>, l: nat, j: nat)
    requires NodesHold(net, store, bs, hash, nodes, prefixes) && CollisionFree(hash, bs)
    requires |matched| <= |toks| / bs && |store| == |net.layers| && l < |store|
    requires BlockIndex(bs, j) < |matched|
    requires forall i :: 0 <= i < |matched| ==> Listed(nodes, BlockHashes(hash, bs, toks)[i], matched[i])
    ensures j < |toks| && Slot(bs, matched, j) < |store[l]|
    ensures store[l][Slot(bs, matched, j)] == KvRows(net, toks, l)[j]
  {
    var i, o := BlockIndex(bs, j), j % bs;
    var key := BlockHashes(hash, bs, toks)[i];
    assert Listed(nodes, key, matched[i]);
    var n :| 0 <= n < |nodes| && nodes[n].key == key && nodes[n].block == matched[i];
    assert NodeHolds(net, store, bs, hash, nodes[n], prefixes);
    KeyOfBlock(hash, bs, toks, i);
    var prefix := toks[..(i + 1) * bs];
    KeysAgree(hash, bs, prefix, prefixes[key], key);
    assert CellHolds(net, store, bs, matched[i], prefix, l, o);
    PositionInBlock(bs, j);
    CausalKv(net, toks, (i + 1) * bs, l);
  }

  lemma PositionInBlock(bs: pos, j: nat)
    ensures j == (BlockIndex(bs, j) + 1) * bs - bs + j % bs
  {
    assert j == (j / bs) * bs + j % bs;
    assert (j / bs + 1) * bs == (j / bs) * bs + bs;
  }

  // A sequence's full block, once cached, is what a node for it needs.
  lemma FullBlockHolds(net: Net, store: Store, bs: pos, ids: seq<nat>, toks: seq<int>, i: nat)
    requires Holds(net, store, bs, ids, toks) && i < |toks| / bs
    ensures i < |ids| && (i + 1) * bs <= |toks|
    ensures BlockHolds(net, store, bs, ids[i], toks[..(i + 1) * bs])
  {
    BlockEnd(bs, |toks|, i);
    SplitPosition(bs, i, 0);
    assert BlockIndex(bs, i * bs + 0) == i;
    var prefix := toks[..(i + 1) * bs];
    forall l, o {:trigger CellHolds(net, store, bs, ids[i], prefix, l, o)} | 0 <= l < |store| && 0 <= o < bs
      ensures CellHolds(net, store, bs, ids[i], prefix, l, o)
    {
      CellOfFullBlock(net, store, bs, ids, toks, i, l, o);
    }
  }

  lemma CellOfFullBlock(net: Net, store: Store, bs: pos, ids: seq<nat>, toks: seq<int>, i: nat, l: nat, o: nat)
    requires Holds(net, store, bs, ids, toks) && i < |toks| / bs && i < |ids| && l < |store| && o < bs
    ensures bs <= (i + 1) * bs <= |toks|
    ensures CellHolds(net, store, bs, ids[i], toks[..(i + 1) * bs], l, o)
  {
    BlockEnd(bs, |toks|, i);
    SplitPosition(bs, i, o);
    var j := i * bs + o;
    assert Slot(bs, ids, j) == Cell(bs, ids[i], o);
    CausalKv(net, toks, (i + 1) * bs, l);
  }

  lemma SplitPosition(bs: pos, i: nat, o: nat)
    requires o < bs
    ensures BlockIndex(bs, i * bs + o) == i && (i * bs + o) % bs == o
  {
    var j := i * bs + o;
    assert (i + 1) * bs == i * bs + bs;
    DivBound(bs, i + 1, j);
    DivBound(bs, i, j);
    assert j == (j / bs) * bs + j % bs;
  }

  // Writes into blocks the cache does not pin leave every node as it was.
  lemma NodesUntouched(net: Net, store: Store, store': Store, bs: pos, hash: Hash, nodes: seq<Node>,
                       prefixes: map<int, seq<int>>, ids: seq<nat>, from: nat, to: nat, width: nat)
    requires NodesHold(net, store, bs, hash, nodes, prefixes)
    requires Shape(net, store, width) && Shape(net, store', width)
    requires from <= to && Fits(bs, ids, to) && Untouched(store, store', SlotsFor(bs, ids, from, to))
    requires forall i :: BlockIndex(bs, from) <= i < |ids| ==> ids[i] !in Pins(nodes)
    ensures NodesHold(net, store', bs, hash, nodes, prefixes)
  {
    forall n | 0 <= n < |nodes|
      ensures NodeHolds(net, store', bs, hash, nodes[n], prefixes)
    {
      assert NodeHolds(net, store, bs, hash, nodes[n], prefixes);
      Pinned(nodes, n);
      BlockUntouched(net, store, store', bs, nodes[n].block, prefixes[nodes[n].key], ids, from, to, width);
    }
  }

  lemma BlockUntouched(net: Net, store: Store, store': Store, bs: pos, b: nat, prefix: seq<int>,
                       ids: seq<nat>, from: nat, to: nat, width: nat)
    requires BlockHolds(net, store, bs, b, prefix)
    requires Shape(net, store, width) && Shape(net, store', width)
    requires from <= to && Fits(bs, ids, to) && Untouched(store, store', SlotsFor(bs, ids, from, to))
    requires forall i :: BlockIndex(bs, from) <= i < |ids| ==> ids[i] != b
    ensures BlockHolds(net, store', bs, b, prefix)
  {
    forall l, o | 0 <= l < |store'| && 0 <= o < bs
      ensures CellHolds(net, store', bs, b, prefix, l, o)
    {
      assert CellHolds(net, store, bs, b, prefix, l, o);
      OtherBlockUntouched(bs, ids, from, to, b, o);
    }
  }

  // ---------- dropping entries ----------

  function DropAt(nodes: seq<Node>, i: nat): seq<Node>
    requires i < |nodes|
  {
    nodes[..i] + nodes[i + 1..]
  }

  lemma DropAtFacts(nodes: seq<Node>, i: nat)
    requires i < |nodes| && DistinctKeys(nodes)
    ensures DistinctKeys(DropAt(nodes, i))
    ensures multiset(nodes) == multiset(DropAt(nodes, i)) + multiset{nodes[i]}
    ensures Pins(nodes) == Pins(DropAt(nodes, i)) + multiset{nodes[i].block}
    ensures forall n :: n in DropAt(nodes, i) ==> n in nodes && n.key != nodes[i].key
    ensures forall n :: n in nodes && n.key != nodes[i].key ==> n in DropAt(nodes, i)
  {
    assert nodes == nodes[..i] + [nodes[i]] + nodes[i + 1..];
    var blocks := NodeBlocks(nodes);
    assert blocks == blocks[..i] + [blocks[i]] + blocks[i + 1..];
    assert NodeBlocks(DropAt(nodes, i)) == blocks[..i] + blocks[i + 1..];
  }

  lemma NodesHoldSubset(net: Net, store: Store, bs: pos, hash: Hash, nodes: seq<Node>, nodes': seq<Node>,
                        prefixes: map<int, seq<int>>)
    requires NodesHold(net, store, bs, hash, nodes, prefixes) && forall n :: n in nodes' ==> n in nodes
    ensures NodesHold(net, store, bs, hash, nodes', prefixes)
  {
    forall i | 0 <= i < |nodes'|
      ensures NodeHolds(net, store, bs, hash, nodes'[i], prefixes)
    {
      assert nodes'[i] in nodes;
      var j :| 0 <= j < |nodes| && nodes[j] == nodes'[i];
    }
  }

  lemma NodesHoldSame(net: Net, store: Store, bs: pos, hash: Hash, nodes: seq<Node>, nodes': seq<Node>,
                      prefixes: map<int, seq<int>>)
    requires NodesHold(net, store, bs, hash, nodes, prefixes) && SameEntries(nodes, nodes')
    ensures NodesHold(net, store, bs, hash, nodes', prefixes)
  {
    forall i | 0 <= i < |nodes'|
      ensures NodeHolds(net, store, bs, hash, nodes'[i], prefixes)
    {
      assert NodeHolds(net, store, bs, hash, nodes[i], prefixes);
    }
  }

  lemma NodesHoldSnoc(net: Net, store: Store, bs: pos, hash: Hash, nodes: seq<Node>, node: Node,
                      prefixes: map<int, seq<int>>, prefix: seq<int>)
    requires NodesHold(net, store, bs, hash, nodes, prefixes)
    requires forall i :: 0 <= i < |nodes| ==> nodes[i].key != node.key
    requires NodeHolds(net, store, bs, hash, node, prefixes[node.key := prefix])
    ensures NodesHold(net, store, bs, hash, nodes + [node], prefixes[node.key := prefix])
  {
    forall i | 0 <= i < |nodes|
      ensures NodeHolds(net, store, bs, hash, nodes[i], prefixes[node.key := prefix])
    {
      assert NodeHolds(net, store, bs, hash, nodes[i], prefixes);
    }
  }

  // ---------- the cache's invariant, kept by every single change ----------

  /** Keys are distinct, every reference is accounted for with one pin per node, and every node's block
      holds the prefix its key stands for. */
  ghost predicate Registered(net: Net, store: Store, bs: pos, hash: Hash, nodes: seq<Node>, p: Pool,
                             prefixes: map<int, seq<int>>) {
    && DistinctKeys(nodes)
    && Accounted(p, Pins(nodes))
    && NodesHold(net, store, bs, hash, nodes, prefixes)
  }

  function Touch(nodes: seq<Node>, i: nat, clock: nat): (nodes': seq<Node>)
    requires i < |nodes|
    ensures SameEntries(nodes, nodes')
  {
    nodes[i := nodes[i].(lastUsed := clock)]
  }

  lemma TouchStep(net: Net, store: Store, bs: pos, hash: Hash, nodes: seq<Node>, p: Pool,
                  prefixes: map<int, seq<int>>, nodes': seq<Node>)
    requires Registered(net, store, bs, hash, nodes, p, prefixes) && SameEntries(nodes, nodes')
    ensures Registered(net, store, bs, hash, nodes', p, prefixes)
  {
    SamePins(nodes, nodes');
    NodesHoldSame(net, store, bs, hash, nodes, nodes', prefixes);
  }

  lemma PinStep(net: Net, store: Store, bs: pos, hash: Hash, nodes: seq<Node>, p: Pool, prefixes: map<int, seq<int>>,
                node: Node, prefix: seq<int>)
    requires Registered(net, store, bs, hash, nodes, p, prefixes)
    requires Find(nodes, node.key).None? && node.block in p.refCount
    requires IsKey(hash, bs, prefix, node.key) && BlockHolds(net, store, bs, node.block, prefix)
    ensures Registered(net, store, bs, hash, nodes + [node], BlockPool.AddRef(p, node.block),
      prefixes[node.key := prefix])
  {
    PinAccounted(p, node.block, Pins(nodes));
    PinsSnoc(nodes, node);
    NodesHoldSnoc(net, store, bs, hash, nodes, node, prefixes, prefix);
  }

  lemma DropStep(net: Net, store: Store, bs: pos, hash: Hash, nodes: seq<Node>, p: Pool, prefixes: map<int, seq<int>>,
                 i: nat)
    requires Registered(net, store, bs, hash, nodes, p, prefixes) && i < |nodes|
    ensures nodes[i].block in p.refCount && p.refCount[nodes[i].block] > 0
    ensures Registered(net, store, bs, hash, DropAt(nodes, i), BlockPool.Release(p, nodes[i].block), prefixes)
  {
    DropAtFacts(nodes, i);
    ReleaseAccounted(p, nodes[i].block, Pins(DropAt(nodes, i)));
    NodesHoldSubset(net, store, bs, hash, nodes, DropAt(nodes, i), prefixes);
  }

  // ---------- lookup ----------

  // The longest run of nodes for the leading keys, touching each.
  function MatchRun(nodes: seq<Node>, keys: seq<int>, clock: nat): (r: (seq<Node>, seq<nat>))
    ensures SameEntries(nodes, r.0) && |r.1| <= |keys|
    decreases |keys|
  {
    if keys == [] then (nodes, [])
    else
      var found := Find(nodes, keys[0]);
      if found.None? then (nodes, [])
      else
        var (rest, run) := MatchRun(Touch(nodes, found.value, clock), keys[1..], clock);
        (rest, [nodes[found.value].block] + run)
  }

  lemma MatchRunNext(nodes: seq<Node>, keys: seq<int>, clock: nat, before: seq<nat>)
    requires keys != [] && Find(nodes, keys[0]).Some?
    ensures var i := Find(nodes, keys[0]).value;
      && MatchRun(nodes, keys, clock).0 == MatchRun(Touch(nodes, i, clock), keys[1..], clock).0
      && before + MatchRun(nodes, keys, clock).1 == before + [nodes[i].block] +
        MatchRun(Touch(nodes, i, clock), keys[1..], clock).1
  {
  }

  lemma {:induction false} MatchRunFinds(nodes: seq<Node>, keys: seq<int>, clock: nat)
    ensures var (after, run) := MatchRun(nodes, keys, clock);
      && (forall i :: 0 <= i < |run| ==> Listed(nodes, keys[i], run[i]))
      && (|run| < |keys| ==> Find(nodes, keys[|run|]).None?)
    decreases |keys|
  {
    if keys != [] {
      var found := Find(nodes, keys[0]);
      if found.Some? {
        var touched := Touch(nodes, found.value, clock);
        MatchRunFinds(touched, keys[1..], clock);
        var run := MatchRun(nodes, keys, clock).1;
        forall i | 0 <= i < |run|
          ensures Listed(nodes, keys[i], run[i])
        {
          if i == 0 {
            assert nodes[found.value].key == keys[0];
          } else {
            assert Listed(touched, keys[1..][i - 1], run[i]);
            var n :| 0 <= n < |touched| && touched[n].key == keys[i] && touched[n].block == run[i];
            assert nodes[n].key == keys[i];
          }
        }
      }
    }
  }

  // ---------- eviction ----------

  predicate NoLaterUse(a: Node, b: Node) {
    a.lastUsed <= b.lastUsed
  }

  // The least recently used entries; the sort is stable, so ties go in insertion order.
  function Victims(nodes: seq<Node>, n: nat): (victims: seq<Node>)
    ensures |victims| == if n < |nodes| then n else |nodes|
  {
    SortBy(nodes, NoLaterUse)[..if n < |nodes| then n else |nodes|]
  }

  function DropAll(nodes: seq<Node>, victims: seq<Node>): seq<Node> {
    if victims == [] then nodes
    else
      var rest := DropAll(nodes, victims[..|victims| - 1]);
      var at := Find(rest, victims[|victims| - 1].key);
      if at.None? then rest else DropAt(rest, at.value)
  }

  lemma {:induction false} DropAllFacts(nodes: seq<Node>, victims: seq<Node>, others: seq<Node>)
    requires DistinctKeys(nodes) && multiset(nodes) == multiset(victims) + multiset(others)
    ensures DistinctKeys(DropAll(nodes, victims)) && multiset(DropAll(nodes, victims)) == multiset(others)
  {
    if victims != [] {
      var before, v := victims[..|victims| - 1], victims[|victims| - 1];
      assert victims == before + [v];
      assert multiset(before + [v]) == multiset(before) + multiset{v};
      assert multiset([v] + others) == multiset{v} + multiset(others);
      DropAllFacts(nodes, before, [v] + others);
      DropOne(DropAll(nodes, before), v, others);
    }
  }

  lemma DropOne(rest: seq<Node>, v: Node, others: seq<Node>)
    requires DistinctKeys(rest) && multiset(rest) == multiset{v} + multiset(others)
    ensures Find(rest, v.key).Some?
    ensures var left := DropAt(rest, Find(rest, v.key).value); DistinctKeys(left) && multiset(left) == multiset(others)
  {
    FindMember(rest, v);
    var left := DropAt(rest, Find(rest, v.key).value);
    DropAtFacts(rest, Find(rest, v.key).value);
    assert multiset(left) == multiset(left) + multiset{v} - multiset{v};
  }

  lemma FindMember(nodes: seq<Node>, v: Node)
    requires DistinctKeys(nodes) && v in multiset(nodes)
    ensures Find(nodes, v.key).Some? && nodes[Find(nodes, v.key).value] == v
  {
    assert v in nodes;
  }

  // What is evicted was used no later than anything that stays.
  lemma VictimsOldest(nodes: seq<Node>, n: nat)
    requires DistinctKeys(nodes)
    ensures multiset(nodes) == multiset(DropAll(nodes, Victims(nodes, n))) + multiset(Victims(nodes, n))
    ensures forall v, k :: v in Victims(nodes, n) && k in DropAll(nodes, Victims(nodes, n)) ==> v.lastUsed <= k.lastUsed
  {
    hide SortBy, DropAll, DistinctKeys;
    var order, victims := SortBy(nodes, NoLaterUse), Victims(nodes, n);
    assert Ordering(NoLaterUse);
    SortBySorts(nodes, NoLaterUse);
    var rest := order[|victims|..];
    assert order == victims + rest;
    DropAllFacts(nodes, victims, rest);
    SameElements(DropAll(nodes, victims), rest);
    forall v, k | v in victims && k in rest
      ensures v.lastUsed <= k.lastUsed
    {
      SplitSorted(order, |victims|, v, k);
    }
  }

  lemma SameElements(s: seq<Node>, t: seq<Node>)
    requires multiset(s) == multiset(t)
    ensures forall x :: x in s <==> x in t
  {
    assert forall x :: x in s <==> x in multiset(s);
    assert forall x :: x in t <==> x in multiset(t);
  }

  lemma SplitSorted(order: seq<Node>, m: nat, v: Node, k: Node)
    requires SortedBy(order, NoLaterUse) && m <= |order| && v in order[..m] && k in order[m..]
    ensures v.lastUsed <= k.lastUsed
  {
    var i :| 0 <= i < m && order[..m][i] == v;
    var j :| 0 <= j < |order| - m && order[m..][j] == k;
    assert NoLaterUse(order[i], order[m + j]);
  }

  class PrefixCache {
    const mgr: BlockManager
    const bs: pos
    const hash: Hash
    var nodes: seq<Node>
    var clock: nat
    var hits: nat
    var misses: nat
    ghost var prefixes: map<int, seq<int>>

    constructor (mgr: BlockManager, bs: pos, hash: Hash)
      ensures this.mgr == mgr && this.bs == bs && this.hash == hash && nodes == []
    {
      this.mgr, this.bs, this.hash := mgr, bs, hash;
      nodes, clock, hits, misses := [], 0, 0, 0;
      prefixes := map[];
    }

    method HashBlocks(toks: seq<int>) returns (out: seq<int>)
      ensures out == BlockHashes(hash, bs, toks)
    {
      var h := 0;
      out := [];
      for i := 0 to |toks| / bs
        invariant i * bs <= |toks| && h == Rolling(hash, bs, toks, i)
        invariant out == BlockHashes(hash, bs, toks)[..i]
      {
        BlockEnd(bs, |toks|, i);
        h := hash(h, toks[i * bs..(i + 1) * bs]);
        out := out + [h];
      }
    }

    // The longest run of cached blocks for the prompt's leading full blocks; touches what it finds.
    method Match(toks: seq<int>) returns (matched: seq<nat>)
      modifies this
      ensures (nodes, matched) == MatchRun(old(nodes), BlockHashes(hash, bs, toks), clock)
      ensures clock == old(clock) + 1 && hits == old(hits) + |matched|
      ensures misses == old(misses) && prefixes == old(prefixes)
    {
      hide BlockHashes, Touch;
      clock := clock + 1;
      matched := [];
      var keys := HashBlocks(toks);
      var i := 0;
      ghost var want := MatchRun(nodes, keys, clock);
      assert keys[0..] == keys && matched + want.1 == want.1;
      while i < |keys|
        invariant 0 <= i <= |keys|
        invariant want.0 == MatchRun(nodes, keys[i..], clock).0
        invariant want.1 == matched + MatchRun(nodes, keys[i..], clock).1
        invariant prefixes == old(prefixes) && misses == old(misses) && hits == old(hits) && clock == old(clock) + 1
      {
        var found := Find(nodes, keys[i]);
        if found.None? {
          break;
        }
        MatchRunNext(nodes, keys[i..], clock, matched);
        assert keys[i..][1..] == keys[i + 1..];
        matched := matched + [nodes[found.value].block];
        nodes := Touch(nodes, found.value, clock);
        i := i + 1;
      }
      assert MatchRun(nodes, keys[i..], clock) == (nodes, []);
      assert matched + [] == matched;
      hits := hits + |matched|;
    }

    /** Registers a sequence's full blocks.  A key already cached is touched and keeps its block; a new
        one pins the sequence's. */
    method Insert(toks: seq<int>, blockIds: seq<nat>)
      requires |toks| / bs <= |blockIds| && forall b :: b in blockIds ==> b in mgr.refCount
      modifies this, mgr
      ensures (nodes, mgr.State(), misses) ==
        InsertTo(old(nodes), old(mgr.State()), old(misses), BlockHashes(hash, bs, toks), blockIds, clock, |toks| / bs)
      ensures prefixes ==
        PrefixesTo(old(prefixes), old(nodes), old(mgr.State()), old(misses), hash, bs, toks, blockIds, clock,
        |toks| / bs)
      ensures clock == old(clock) + 1 && hits == old(hits)
    {
      clock := clock + 1;
      var keys := HashBlocks(toks);
      ghost var ns0, p0, m0, px0, now := nodes, mgr.State(), misses, prefixes, clock;
      for i := 0 to |keys|
        invariant (nodes, mgr.State(), misses) == InsertTo(ns0, p0, m0, keys, blockIds, now, i)
        invariant clock == now && hits == old(hits) && prefixes == px0
      {
        InsertOne(keys[i], blockIds[i]);
      }
      prefixes := PrefixesTo(px0, ns0, p0, m0, hash, bs, toks, blockIds, now, |toks| / bs);
    }

    method InsertOne(key: int, blk: nat)
      requires blk in mgr.refCount
      modifies this, mgr
      ensures (nodes, mgr.State(), misses) == InsertStep(old(nodes), old(mgr.State()), old(misses), key, blk, clock)
      ensures prefixes == old(prefixes) && clock == old(clock) && hits == old(hits)
    {
      var found := Find(nodes, key);
      if found.None? {
        mgr.AddRef(blk);
        nodes := nodes + [Node(key, blk, clock)];
        misses := misses + 1;
      } else {
        nodes := Touch(nodes, found.value, clock);
      }
    }

    // Releases up to `numBlocks` least recently used entries.
    method Evict(numBlocks: nat, ghost net: Net, ghost store: Store) returns (count: nat)
      requires Registered(net, store, bs, hash, nodes, mgr.State(), prefixes)
      modifies this, mgr
      ensures Registered(net, store, bs, hash, nodes, mgr.State(), prefixes)
      ensures nodes == DropAll(old(nodes), Victims(old(nodes), numBlocks))
      ensures count == |Victims(old(nodes), numBlocks)|
      ensures mgr.tables == old(mgr.tables)
    {
      hide Victims, DropAll, CollisionFree, NodesHold, Accounted;
      var victims := Victims(nodes, numBlocks);
      NothingDropped(nodes, victims);
      VictimsOldest(nodes, numBlocks);
      count := |victims|;
      for i := 0 to count
        invariant Registered(net, store, bs, hash, nodes, mgr.State(), prefixes)
        invariant nodes == DropAll(old(nodes), victims[..i]) && mgr.tables == old(mgr.tables)
      {
        VictimPresent(old(nodes), victims, i, DropAll(old(nodes), victims));
        DropNext(old(nodes), victims, i);
        var at := Find(nodes, victims[i].key).value;
        DropStep(net, store, bs, hash, nodes, mgr.State(), prefixes, at);
        mgr.Release(nodes[at].block);
        nodes := DropAt(nodes, at);
      }
      assert victims[..count] == victims;
    }
  }

  lemma NothingDropped(nodes: seq<Node>, victims: seq<Node>)
    ensures DropAll(nodes, victims[..0]) == nodes
  {
  }

  lemma DropNext(nodes: seq<Node>, victims: seq<Node>, i: nat)
    requires i < |victims| && Find(DropAll(nodes, victims[..i]), victims[i].key).Some?
    ensures var rest := DropAll(nodes, victims[..i]);
      DropAll(nodes, victims[..i + 1]) == DropAt(rest, Find(rest, victims[i].key).value)
  {
    assert victims[..i + 1][..i] == victims[..i];
  }

  lemma VictimPresent(nodes: seq<Node>, victims: seq<Node>, i: nat, others: seq<Node>)
    requires DistinctKeys(nodes) && multiset(nodes) == multiset(others) + multiset(victims) && i < |victims|
    ensures Find(DropAll(nodes, victims[..i]), victims[i].key).Some?
  {
    assert victims == victims[..i] + victims[i..];
    DropAllFacts(nodes, victims[..i], victims[i..] + others);
    assert victims[i] in multiset(victims[i..]);
    FindMember(DropAll(nodes, victims[..i]), victims[i]);
  }

  function InsertStep(nodes: seq<Node>, p: Pool, misses: nat, key: int, blk: nat, clock: nat): (seq<Node>, Pool, nat)
    requires blk in p.refCount
  {
    var found := Find(nodes, key);
    if found.Some? then (Touch(nodes, found.value, clock), p, misses)
    else (nodes + [Node(key, blk, clock)], BlockPool.AddRef(p, blk), misses + 1)
  }

  function InsertTo(nodes: seq<Node>, p: Pool, misses: nat, keys: seq<int>, blocks: seq<nat>, clock: nat,
                    i: nat): (r: (seq<Node>, Pool, nat))
    requires i <= |keys| && i <= |blocks| && forall b :: b in blocks ==> b in p.refCount
    ensures r.1.refCount.Keys == p.refCount.Keys && r.1 == p.(refCount := r.1.refCount)
  {
    if i == 0 then (nodes, p, misses)
    else
      var (ns, q, m) := InsertTo(nodes, p, misses, keys, blocks, clock, i - 1);
      InsertStep(ns, q, m, keys[i - 1], blocks[i - 1], clock)
  }

  ghost function PrefixesTo(prefixes: map<int, seq<int>>, nodes: seq<Node>, p: Pool, misses: nat, hash: Hash, bs: pos,
                            toks: seq<int>, blocks: seq<nat>, clock: nat, i: nat): map<int, seq<int>>
    requires i <= |toks| / bs && i <= |blocks| && forall b :: b in blocks ==> b in p.refCount
  {
    if i == 0 then prefixes
    else
      var before := PrefixesTo(prefixes, nodes, p, misses, hash, bs, toks, blocks, clock, i - 1);
      var keys := BlockHashes(hash, bs, toks);
      KeyOfBlock(hash, bs, toks, i - 1);
      if Find(InsertTo(nodes, p, misses, keys, blocks, clock, i - 1).0, keys[i - 1]).Some? then before
      else before[keys[i - 1] := toks[..i * bs]]
  }

  // Registering a cached sequence's blocks keeps the invariant.
  lemma InsertToRegistered(net: Net, store: Store, bs: pos, hash: Hash, nodes: seq<Node>, p: Pool,
                           prefixes: map<int, seq<int>>,
                           misses: nat, toks: seq<int>, blocks: seq<nat>, clock: nat)
    requires Registered(net, store, bs, hash, nodes, p, prefixes)
    requires Holds(net, store, bs, blocks, toks) && forall b :: b in blocks ==> b in p.refCount
    ensures |toks| / bs <= |blocks|
    ensures var keys := BlockHashes(hash, bs, toks);
      var (ns, q, m) := InsertTo(nodes, p, misses, keys, blocks, clock, |toks| / bs);
      Registered(net, store, bs, hash, ns, q,
        PrefixesTo(prefixes, nodes, p, misses, hash, bs, toks, blocks, clock, |toks| / bs))
  {
    CoversFullBlocks(net, store, bs, blocks, toks);
    var keys := BlockHashes(hash, bs, toks);
    for i := 0 to |toks| / bs
      invariant var (ns, q, m) := InsertTo(nodes, p, misses, keys, blocks, clock, i);
        Registered(net, store, bs, hash, ns, q,
          PrefixesTo(prefixes, nodes, p, misses, hash, bs, toks, blocks, clock, i))
    {
      var (ns, q, m) := InsertTo(nodes, p, misses, keys, blocks, clock, i);
      var ps := PrefixesTo(prefixes, nodes, p, misses, hash, bs, toks, blocks, clock, i);
      var found := Find(ns, keys[i]);
      if found.Some? {
        TouchStep(net, store, bs, hash, ns, q, ps, Touch(ns, found.value, clock));
      } else {
        KeyOfBlock(hash, bs, toks, i);
        FullBlockHolds(net, store, bs, blocks, toks, i);
        PinStep(net, store, bs, hash, ns, q, ps, Node(keys[i], blocks[i], clock), toks[..(i + 1) * bs]);
      }
    }
  }

  // Inserting never moves an entry.
  lemma {:induction false} InsertToKeeps(nodes: seq<Node>, p: Pool, misses: nat, keys: seq<int>, blocks: seq<nat>,
                                         clock: nat, i: nat)
    requires i <= |keys| && i <= |blocks| && forall b :: b in blocks ==> b in p.refCount
    ensures var (ns, q, m) := InsertTo(nodes, p, misses, keys, blocks, clock, i);
      |nodes| <= |ns| && SameEntries(nodes, ns[..|nodes|]) && m - misses == |ns| - |nodes|
  {
    if i > 0 {
      InsertToKeeps(nodes, p, misses, keys, blocks, clock, i - 1);
    }
  }

  // It covers every key.
  lemma {:induction false} InsertToCovers(nodes: seq<Node>, p: Pool, misses: nat, keys: seq<int>, blocks: seq<nat>,
                                          clock: nat, i: nat, j: nat)
    requires j < i <= |keys| && i <= |blocks| && forall b :: b in blocks ==> b in p.refCount
    ensures Find(InsertTo(nodes, p, misses, keys, blocks, clock, i).0, keys[j]).Some?
  {
    var ns := InsertTo(nodes, p, misses, keys, blocks, clock, i - 1).0;
    var ns' := InsertTo(nodes, p, misses, keys, blocks, clock, i).0;
    if j < i - 1 {
      InsertToCovers(nodes, p, misses, keys, blocks, clock, i - 1, j);
      KeyStays(ns, ns', keys[j]);
    } else if Find(ns, keys[j]).Some? {
      KeyStays(ns, ns', keys[j]);
    } else {
      assert ns'[|ns|].key == keys[j];
    }
  }

  lemma KeyStays(ns: seq<Node>, ns': seq<Node>, key: int)
    requires |ns| <= |ns'| && SameEntries(ns, ns'[..|ns|]) && Find(ns, key).Some?
    ensures Find(ns', key).Some?
  {
    var n := Find(ns, key).value;
    assert ns'[..|ns|][n].key == key;
  }

  // Every full block of `toks` has an entry.
  ghost predicate Known(nodes: seq<Node>, hash: Hash, bs: pos, toks: seq<int>) {
    forall j :: 0 <= j < |toks| / bs ==> Find(nodes, BlockHashes(hash, bs, toks)[j]).Some?
  }

  lemma InsertedKnown(nodes: seq<Node>, p: Pool, misses: nat, hash: Hash, bs: pos, toks: seq<int>, blocks: seq<nat>,
                      clock: nat)
    requires |toks| / bs <= |blocks| && forall b :: b in blocks ==> b in p.refCount
    ensures Known(InsertTo(nodes, p, misses, BlockHashes(hash, bs, toks), blocks, clock, |toks| / bs).0, hash, bs, toks)
  {
    hide InsertTo, BlockHashes;
    var keys, n := BlockHashes(hash, bs, toks), |toks| / bs;
    forall j | 0 <= j < n
      ensures Find(InsertTo(nodes, p, misses, keys, blocks, clock, n).0, keys[j]).Some?
    {
      InsertToCovers(nodes, p, misses, keys, blocks, clock, n, j);
    }
  }

  // How many cached blocks a prompt can adopt: the run found, except that its last token must be prefilled.
  function Reusable(nodes: seq<Node>, hash: Hash, bs: pos, prompt: seq<int>, clock: nat): nat
    requires |prompt| > 0
  {
    var run, most := |MatchRun(nodes, BlockHashes(hash, bs, prompt), clock).1|, (|prompt| - 1) / bs;
    if run < most then run else most
  }

  /** A prompt that shares its first k blocks with one already inserted reuses all of them that it can. */
  lemma SharedBlocksReused(nodes: seq<Node>, hash: Hash, bs: pos, known: seq<int>, prompt: seq<int>, k: nat, clock: nat)
    requires Known(nodes, hash, bs, known) && |prompt| > 0
    requires k * bs <= |known| && k * bs <= |prompt| && known[..k * bs] == prompt[..k * bs]
    ensures Reusable(nodes, hash, bs, prompt, clock) >= if k < (|prompt| - 1) / bs then k else (|prompt| - 1) / bs
  {
    hide MatchRun, BlockHashes;
    var run := |MatchRun(nodes, BlockHashes(hash, bs, prompt), clock).1|;
    MatchRunFinds(nodes, BlockHashes(hash, bs, prompt), clock);
    BlocksWithin(bs, |known|, k);
    BlocksWithin(bs, |prompt|, k);
    if run < k {
      SharedKey(hash, bs, known, prompt, k, run);
    }
  }

  lemma SharedKey(hash: Hash, bs: pos, a: seq<int>, b: seq<int>, k: nat, i: nat)
    requires k * bs <= |a| && k * bs <= |b| && a[..k * bs] == b[..k * bs] && i < k <= |a| / bs && k <= |b| / bs
    ensures BlockHashes(hash, bs, a)[i] == BlockHashes(hash, bs, b)[i]
  {
    hide Rolling;
    MulMonotone(i + 1, k, bs);
    RollingPrefix(hash, bs, a, i + 1, k * bs);
    RollingPrefix(hash, bs, b, i + 1, k * bs);
  }

  lemma BlocksWithin(bs: pos, n: nat, k: nat)
    requires k * bs <= n
    ensures k <= n / bs
  {
    DivMultiple(bs, k);
    if n / bs < k {
      MulMonotone(n / bs + 1, k, bs);
    }
  }

  // It touches no count outside the inserted blocks.
  lemma {:induction false} InsertToCounts(nodes: seq<Node>, p: Pool, misses: nat, keys: seq<int>, blocks: seq<nat>,
                                          clock: nat, i: nat, b: nat)
    requires i <= |keys| && i <= |blocks| && forall c :: c in blocks ==> c in p.refCount
    requires b in p.refCount && forall j :: 0 <= j < i ==> blocks[j] != b
    ensures InsertTo(nodes, p, misses, keys, blocks, clock, i).1.refCount[b] == p.refCount[b]
  {
    if i > 0 {
      InsertToCounts(nodes, p, misses, keys, blocks, clock, i - 1, b);
    }
  }

  lemma CoversFullBlocks(net: Net, store: Store, bs: pos, ids: seq<nat>, toks: seq<int>)
    requires Holds(net, store, bs, ids, toks)
    ensures |toks| / bs <= |ids|
  {
    FitsIff(bs, ids, |toks|);
    assert |toks| == (|toks| / bs) * bs + |toks| % bs;
    DivBound(bs, |ids| + 1, |toks|);
    assert (|ids| + 1) * bs == |ids| * bs + bs;
  }
}
