// The continuous-batching engine's state as a value, and one scheduling step as a function on it: decode
// the running requests, continue and admit prefills within the token budget, forward the mixed batch once,
// sample, retire.
module SchedulerState {
  import opened Wrappers
  import opened Reference
  import opened BlockPool
  import opened PagedStore
  import opened RaggedForward
  import opened Portable
  import opened Sampling
  import opened Softmax
  import opened Chance
  import opened Decoding

  datatype Status = Waiting | Prefilling | Running | Finished

  datatype Request = Request(
    prompt: seq<int>,
    params: SamplingParams,
    maxNew: int,
    eos: Option<int>,
    priority: int,
    prefixKv: Option<PortableKv>,
    outputs: seq<int>,
    status: Status,
    prefillPos: nat)
  {
    predicate Done() {
      Stops(outputs, maxNew, eos)
    }
  }

  // What a run of the engine does not change.
  datatype Config = Config(net: Net, maxBatch: pos, chunk: pos, exp: real -> real, oracle: Oracle)

  // Requests are found by id; the queues hold ids.  `collected` is history: the finished requests that have
  // been taken out of the finished list.
  datatype Sched = Sched(
    pool: Pool,
    store: Store,
    requests: map<nat, Request>,
    waiting: seq<nat>,
    prefilling: seq<nat>,
    running: seq<nat>,
    finished: seq<nat>,
    nextId: nat,
    drawn: nat,
    collected: set<nat>)

  // The flattened batch under construction.
  datatype Flat = Flat(
    ids: seq<nat>,
    tokens: seq<int>,
    positions: seq<nat>,
    slots: seq<nat>,
    metas: seq<SeqMeta>,
    lastIdx: seq<nat>,
    sampled: seq<bool>)

  const NO_BATCH := Flat([], [], [], [], [], [], [])

  // A step in progress.
  datatype Mid = Mid(s: Sched, flat: Flat, budget: int)

  // ---------- queues ----------

  // Drops the first occurrence.
  function Remove(q: seq<nat>, id: nat): seq<nat> {
    if q == [] then [] else if q[0] == id then q[1..] else [q[0]] + Remove(q[1..], id)
  }

  function PriorityOf(requests: map<nat, Request>, id: nat): int {
    if id in requests then requests[id].priority else 0
  }

  // Higher priority first, then lower id.
  function AdmissionOrder(requests: map<nat, Request>): (nat, nat) -> bool {
    (i: nat, j: nat) =>
      PriorityOf(requests, i) > PriorityOf(requests, j) ||
        (PriorityOf(requests, i) == PriorityOf(requests, j) && i <= j)
  }

  // ---------- adding a request ----------

  predicate PrefixFits(layers: nat, kv: PortableKv, promptLen: nat) {
    Rectangular(kv, layers, Covered(kv)) && 0 < Covered(kv) < promptLen
  }

  function Add(cfg: Config, s: Sched, prompt: seq<int>, maxNew: int, params: SamplingParams, eos: Option<int>,
               priority: int,
               prefixKv: Option<PortableKv>): Result<Sched>
  {
    if prefixKv.Some? && !PrefixFits(|cfg.net.layers|, prefixKv.value, |prompt|) then Err(BadPrefixKv)
    else
      var req := Request(prompt, params, maxNew, eos, priority, prefixKv, [], Waiting, 0);
      Ok(s.(requests := s.requests[s.nextId := req], waiting := s.waiting + [s.nextId], nextId := s.nextId + 1))
  }

  // The server takes the finished requests away.
  ghost function Drain(s: Sched): Sched {
    s.(finished := [], collected := s.collected + Elems(s.finished))
  }

  // ---------- phase 1: decode ----------

  function BlockAt(ids: seq<nat>, i: nat): nat {
    if i < |ids| then ids[i] else 0
  }

  // Slots of n positions from `from` on.
  function ChunkSlots(bs: pos, ids: seq<nat>, from: nat, n: nat): (slots: seq<nat>)
    ensures |slots| == n
  {
    seq<nat>(n, i requires i >= 0 => Cell(bs, BlockAt(ids, BlockIndex(bs, from + i)), (from + i) % bs))
  }

  function AppendRow(bs: pos, flat: Flat, id: nat, token: int, pos: nat, t: BlockTable): Flat {
    Flat(flat.ids + [id],
         flat.tokens + [token],
         flat.positions + [pos],
         flat.slots + [Cell(bs, BlockAt(t.blockIds, BlockIndex(bs, pos)), pos % bs)],
         flat.metas + [SeqMeta(t.blockIds, 1, t.numTokens)],
         flat.lastIdx + [|flat.tokens|],
         flat.sampled + [true])
  }

  function DecodeOne(m: Mid, id: nat): (r: Result<Mid>)
    requires id in m.s.requests && id in m.s.pool.tables && m.s.requests[id].outputs != []
    ensures r.Ok? ==> r.value.s == m.s.(pool := r.value.s.pool) && r.value.s.pool.tables.Keys == m.s.pool.tables.Keys
  {
    var req, p := m.s.requests[id], m.s.pool;
    match AppendToken(p, id)
    case Err(e) => Err(e)
    case Ok(q) =>
      var flat := AppendRow(p.blockSize, m.flat, id, req.outputs[|req.outputs| - 1], p.tables[id].numTokens,
        q.tables[id]);
      Ok(Mid(m.s.(pool := q), flat, m.budget - 1))
  }

  predicate AllRunning(s: Sched, queue: seq<nat>) {
    forall id :: id in queue ==> id in s.requests && id in s.pool.tables && s.requests[id].outputs != []
  }

  function DecodeAll(m: Mid, queue: seq<nat>): (r: Result<Mid>)
    requires AllRunning(m.s, queue)
    ensures r.Ok? ==> r.value.s == m.s.(pool := r.value.s.pool) && r.value.s.pool.tables.Keys == m.s.pool.tables.Keys
    decreases |queue|
  {
    if queue == [] || m.budget < 1 then Ok(m)
    else
      match DecodeOne(m, queue[0])
      case Err(e) => Err(e)
      case Ok(m') => DecodeAll(m', queue[1..])
  }

  // The decode phase as far as it gets.
  function DecodeSome(m: Mid, queue: seq<nat>): (m': Mid)
    requires AllRunning(m.s, queue)
    ensures m'.s == m.s.(pool := m'.s.pool) && m'.s.pool.tables.Keys == m.s.pool.tables.Keys
    decreases |queue|
  {
    if queue == [] || m.budget < 1 then m
    else
      match DecodeOne(m, queue[0])
      case Err(_) => m
      case Ok(m') => DecodeSome(m', queue[1..])
  }

  // ---------- phase 2: prefill ----------

  // Allocates for the prompt and imports a transferred prefix.
  ghost function Admit(s: Sched, id: nat): (r: Result<Sched>)
    requires id in s.requests
    ensures r.Ok? ==>
      id in r.value.pool.tables && r.value.pool.tables.Keys == s.pool.tables.Keys + {id}
      && r.value.requests.Keys == s.requests.Keys && r.value.requests[id].status == Prefilling
      && (forall i :: i in s.requests && i != id ==> r.value.requests[i] == s.requests[i])
  {
    var req := s.requests[id];
    match Allocate(s.pool, id, |req.prompt|, [])
    case Err(e) => Err(e)
    case Ok(p) =>
      var ids, n := p.tables[id].blockIds, if req.prefixKv.Some? then Covered(req.prefixKv.value) else 0;
      var store :=
        if req.prefixKv.Some? && Rectangular(req.prefixKv.value, |s.store|, n) &&
          SlotsExist(s.store, p.blockSize, ids, n)
        then Import(s.store, p.blockSize, ids, req.prefixKv.value) else s.store;
      var req' := req.(prefixKv := None, prefillPos := n, status := Prefilling);
      Ok(s.(pool := SetLength(p, id, n), store := store, requests := s.requests[id := req'],
            waiting := Remove(s.waiting, id), prefilling := s.prefilling + [id]))
  }

  function SmallerOf(a: int, b: int): int {
    if a <= b then a else b
  }

  // The next chunk of an admitted prompt joins the batch; the one that ends the prompt is sampled from.
  function Chunk(cfg: Config, m: Mid, id: nat): (m': Mid)
    requires id in m.s.requests && id in m.s.pool.tables
    ensures m'.s.pool.tables.Keys == m.s.pool.tables.Keys && m'.s.requests.Keys == m.s.requests.Keys
    ensures forall i :: i in m.s.requests && i != id ==> m'.s.requests[i] == m.s.requests[i]
    ensures m'.s.requests[id].status in {Running, m.s.requests[id].status}
  {
    var s, req, p := m.s, m.s.requests[id], m.s.pool;
    var want := SmallerOf(SmallerOf(|req.prompt| - req.prefillPos, cfg.chunk), m.budget);
    var n: nat := if want < 0 then 0 else want;
    var end := req.prefillPos + n;
    var ids, last := p.tables[id].blockIds, end >= |req.prompt|;
    var flat := Flat(m.flat.ids + [id],
                     m.flat.tokens + req.prompt[SmallerOf(req.prefillPos, |req.prompt|)..SmallerOf(end, |req.prompt|)],
                     m.flat.positions + seq<nat>(n, i requires i >= 0 => req.prefillPos + i),
                     m.flat.slots + ChunkSlots(p.blockSize, ids, req.prefillPos, n),
                     m.flat.metas + [SeqMeta(ids, n, end)],
                     if last && |m.flat.tokens| + n > 0 then m.flat.lastIdx + [|m.flat.tokens| + n - 1]
                       else m.flat.lastIdx,
                     m.flat.sampled + [last]);
    var req' := req.(prefillPos := end, status := if last then Running else req.status);
    var s' := s.(pool := SetLength(p, id, end), requests := s.requests[id := req']);
    Mid(if last then s'.(prefilling := Remove(s.prefilling, id), running := s.running + [id]) else s', flat,
      m.budget - n)
  }

  // What phase 2 needs of the requests in line.
  predicate InLine(s: Sched, queue: seq<nat>) {
    forall id :: id in queue ==> id in s.requests && (s.requests[id].status != Waiting ==> id in s.pool.tables)
  }

  // None when the pool is too full to admit: the queue behind waits too.
  ghost function PrefillOne(cfg: Config, m: Mid, id: nat): (r: Option<Mid>)
    requires InLine(m.s, [id])
    ensures r.Some? ==> var s' := r.value.s;
      && s'.requests.Keys == m.s.requests.Keys && id in s'.pool.tables && m.s.pool.tables.Keys <= s'.pool.tables.Keys
      && (forall i :: i in m.s.requests && i != id ==> s'.requests[i] == m.s.requests[i])
  {
    assert id in [id];
    if m.s.requests[id].status == Waiting then
      match Admit(m.s, id)
      case Err(_) => None
      case Ok(s) => Some(Chunk(cfg, m.(s := s), id))
    else Some(Chunk(cfg, m, id))
  }

  ghost function PrefillAll(cfg: Config, m: Mid, queue: seq<nat>): Mid
    requires InLine(m.s, queue)
    decreases |queue|
  {
    if queue == [] || m.budget < 1 then m
    else
      assert forall id :: id in queue[1..] ==> id in queue;
      match PrefillOne(cfg, m, queue[0])
      case None => m
      case Some(m') => PrefillAll(cfg, m', queue[1..])
  }

  // ---------- phases 3 to 5: forward, sample, retire ----------

  // The requests whose last row is sampled from.
  function Picked(ids: seq<nat>, sampled: seq<bool>): (batch: seq<nat>)
    requires |ids| == |sampled|
  {
    if ids == [] then []
    else
      var n := |ids| - 1;
      Picked(ids[..n], sampled[..n]) + (if sampled[n] then [ids[n]] else [])
  }

  // One token from one row of logits; the whole batch shares one set of parameters.
  ghost function SampleRow(cfg: Config, params: SamplingParams, draw: nat, logits: Vec): nat {
    Choose(Sampler(cfg.exp, params, cfg.oracle), draw, logits)
  }

  function WithToken(req: Request, token: int): Request {
    var longer := req.(outputs := req.outputs + [token]);
    if longer.Done() then longer.(status := Finished) else longer
  }

  function Appended(requests: map<nat, Request>, batch: seq<nat>, tokens: seq<int>): (r: map<nat, Request>)
    requires |batch| == |tokens| && forall id :: id in batch ==> id in requests
    ensures r.Keys == requests.Keys
  {
    if batch == [] then requests
    else
      var n := |batch| - 1;
      var r := Appended(requests, batch[..n], tokens[..n]);
      r[batch[n] := WithToken(r[batch[n]], tokens[n])]
  }

  function DoneOf(requests: map<nat, Request>, batch: seq<nat>): (ids: seq<nat>)
  {
    if batch == [] then []
    else
      var n := |batch| - 1;
      DoneOf(requests, batch[..n])
      + (if batch[n] in requests && requests[batch[n]].status == Finished then [batch[n]] else [])
  }

  ghost function Retire(s: Sched, id: nat): Sched {
    var pool := if id in s.pool.tables ==>
      Releasable(s.pool, s.pool.tables[id].blockIds) then Free(s.pool, id) else s.pool;
    s.(running := Remove(s.running, id), finished := s.finished + [id], pool := pool)
  }

  ghost function RetireAll(s: Sched, ids: seq<nat>): Sched {
    if ids == [] then s else Retire(RetireAll(s, ids[..|ids| - 1]), ids[|ids| - 1])
  }

  // The store after the forward, and the hidden rows.
  ghost function ForwardBatch(cfg: Config, s: Sched, flat: Flat): (seq<Vec>, Store) {
    var bs, width := s.pool.blockSize, s.pool.numBlocks * s.pool.blockSize;
    if BatchOk(cfg.net, s.store, bs, width, flat.metas, flat.tokens, flat.positions, flat.slots)
    then Forward(cfg.net, s.store, bs, width, flat.metas, flat.tokens, flat.positions, flat.slots)
    else ([], s.store)
  }

  function RowAt(hidden: seq<Vec>, i: nat): Vec {
    if i < |hidden| then hidden[i] else []
  }

  ghost function SampleAll(cfg: Config, params: SamplingParams, drawn: nat, hidden: seq<Vec>,
                           lastIdx: seq<nat>): (tokens: seq<int>)
    ensures |tokens| == |lastIdx|
  {
    seq(|lastIdx|, j requires 0 <= j < |lastIdx| => SampleRow(cfg, params, drawn + j,
      cfg.net.lmHead(RowAt(hidden, lastIdx[j]))))
  }

  // Every row to sample from belongs to a request.
  ghost predicate RowsMatch(s: Sched, flat: Flat) {
    |flat.ids| == |flat.sampled|
    && var batch := Picked(flat.ids, flat.sampled);
      |batch| == |flat.lastIdx| && forall id :: id in batch ==> id in s.requests
  }

  // The tokens of a step, one per row that is sampled from.
  ghost function TokensOf(cfg: Config, s: Sched, flat: Flat): (tokens: seq<int>)
    requires RowsMatch(s, flat)
    ensures |tokens| == |flat.lastIdx|
  {
    var batch := Picked(flat.ids, flat.sampled);
    if batch == [] then []
    else
      assert batch[0] in batch;
      SampleAll(cfg, s.requests[batch[0]].params, s.drawn, ForwardBatch(cfg, s, flat).0, flat.lastIdx)
  }

  // Forwarded and sampled, nothing retired yet.
  ghost function Sampled(cfg: Config, s: Sched, flat: Flat): Sched
    requires RowsMatch(s, flat)
  {
    var batch := Picked(flat.ids, flat.sampled);
    var draws := if batch == [] then 0 else assert batch[0] in batch; Draws(s.requests[batch[0]].params, |batch|);
    s.(store := ForwardBatch(cfg, s, flat).1,
       requests := Appended(s.requests, batch, TokensOf(cfg, s, flat)),
       drawn := s.drawn + draws)
  }

  ghost function Conclude(cfg: Config, s: Sched, flat: Flat): Sched
  {
    if flat.lastIdx == [] || !RowsMatch(s, flat) then s.(store := ForwardBatch(cfg, s, flat).1)
    else
      var s2 := Sampled(cfg, s, flat);
      RetireAll(s2, DoneOf(s2.requests, Picked(flat.ids, flat.sampled)))
  }

  // ---------- one step ----------

  ghost predicate Steppable(s: Sched) {
    AllRunning(s, s.running) && InLine(s, s.prefilling) && InLine(s, s.waiting)
  }

  ghost function Prefill(cfg: Config, m: Mid): Mid
    requires InLine(m.s, m.s.prefilling) && InLine(m.s, m.s.waiting)
  {
    var line := SortBy(m.s.waiting, AdmissionOrder(m.s.requests));
    SortByElements(m.s.waiting, AdmissionOrder(m.s.requests));
    PrefillAll(cfg, m.(s := m.s.(waiting := line)), m.s.prefilling + line)
  }

  // The batch of a step.  The decode phase raises when the pool has no block left for a running request.
  ghost function Build(cfg: Config, s: Sched): Result<Mid>
    requires Steppable(s)
  {
    match DecodeAll(Mid(s, NO_BATCH, cfg.maxBatch), s.running)
    case Err(e) => Err(e)
    case Ok(m) => Ok(Prefill(cfg, m))
  }

  /** One scheduling iteration. */
  ghost function Step(cfg: Config, s: Sched): Result<Sched>
    requires Steppable(s)
  {
    match Build(cfg, s)
    case Err(e) => Err(e)
    case Ok(m) => Ok(if m.flat.ids == [] then m.s else Conclude(cfg, m.s, m.flat))
  }

  // What a raising iteration leaves behind: the rows of the requests before the failing one stay reserved.
  ghost function Interrupted(cfg: Config, s: Sched): Sched
    requires Steppable(s)
  {
    DecodeSome(Mid(s, NO_BATCH, cfg.maxBatch), s.running).s
  }
}
