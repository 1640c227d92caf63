// The inference server around the scheduler: handlers submit and wait, one thread steps the engine and reaps,
// and a lock makes each of these atomic.  The state here is what holds at every release of the lock.
module Server {
  import opened Wrappers
  import opened Reference
  import opened BlockPool
  import opened PagedStore
  import opened Sampling
  import opened Decoding
  import opened SchedulerState
  import opened SchedulerInvariant
  import opened SchedulerStep
  import opened SchedulerBatch
  import opened SchedulerRaise
  import opened SchedulerRuns
  import opened SchedulerLiveness
  import opened Sums

  // What one caller has been sent: text pieces and end marks for a stream, results for a future.
  datatype Client = Client(streaming: bool, decoded: string, deltas: seq<string>, ends: nat, results: seq<seq<int>>)

  // An exception in a step ends the thread; handlers go on submitting.
  datatype Server = Server(engine: Sched, pending: set<nat>, clients: map<nat, Client>, alive: bool)

  type Detokenizer = seq<int> -> string

  function Text(deltas: seq<string>): string {
    if deltas == [] then "" else Text(deltas[..|deltas| - 1]) + deltas[|deltas| - 1]
  }

  // ---------- the critical sections ----------

  function Submit(cfg: Config, sv: Server, prompt: seq<int>, maxNew: int, params: SamplingParams, eos: Option<int>,
                  priority: int,
                  streaming: bool): Server
  {
    var id := sv.engine.nextId;
    match Add(cfg, sv.engine, prompt, maxNew, params, eos, priority, None)
    case Err(_) => sv
    case Ok(engine) => Server(engine, sv.pending + {id}, sv.clients[id := Client(streaming, "", [], 0, [])], sv.alive)
  }

  // Pushes the text that is new since the last push.
  function PushDelta(detok: Detokenizer, c: Client, outputs: seq<int>): Client {
    var full := detok(outputs);
    if |full| > |c.decoded| then c.(deltas := c.deltas + [full[|c.decoded|..]], decoded := full) else c
  }

  function Complete(detok: Detokenizer, c: Client, outputs: seq<int>): Client {
    if c.streaming then var d := PushDelta(detok, c, outputs); d.(ends := d.ends + 1)
    else c.(results := c.results + [outputs])
  }

  // What the reaper does for one request.
  function ReapOne(detok: Detokenizer, sv: Server, id: nat): Client
    requires id in sv.clients
  {
    var c := sv.clients[id];
    if id !in sv.pending || id !in sv.engine.requests then c
    else if id in sv.engine.finished then Complete(detok, c, sv.engine.requests[id].outputs)
    else if id in sv.engine.running && sv.engine.requests[id].outputs != [] && c.streaming then
      PushDelta(detok, c, sv.engine.requests[id].outputs)
    else c
  }

  ghost function Reap(detok: Detokenizer, sv: Server): Server {
    sv.(engine := Drain(sv.engine), pending := sv.pending - Elems(sv.engine.finished),
        clients := map id | id in sv.clients :: ReapOne(detok, sv, id))
  }

  ghost function Iterate(cfg: Config, detok: Detokenizer, sv: Server): Server {
    if !sv.alive || (sv.engine.waiting == [] && sv.engine.prefilling == [] && sv.engine.running == []) then sv
    else if !Steppable(sv.engine) then sv.(alive := false)
    else
      match Step(cfg, sv.engine)
      case Err(_) => sv.(engine := Interrupted(cfg, sv.engine), alive := false)
      case Ok(engine) => Reap(detok, sv.(engine := engine))
  }

  // ---------- exactly-once completion ----------

  // A stream to which every non-empty prefix of the output has been pushed.
  function Streamed(detok: Detokenizer, outputs: seq<int>): (c: Client)
    ensures c.streaming && c.ends == 0 && c.results == []
  {
    if outputs == [] then Client(true, "", [], 0, [])
    else PushDelta(detok, Streamed(detok, outputs[..|outputs| - 1]), outputs)
  }

  /** What a caller has received, given its request.  A future has nothing before the request finishes, then
      exactly one result.  A stream has the pieces for every token so far, and an end mark once it has finished. */
  ghost predicate Delivered(detok: Detokenizer, req: Request, c: Client) {
    c == if c.streaming then Streamed(detok, req.outputs).(ends := if req.status == Finished then 1 else 0)
         else Client(false, "", [], 0, if req.status == Finished then [req.outputs] else [])
  }

  // Outputs are token ids.
  ghost predicate Natural(s: Sched) {
    forall id :: id in s.requests ==> TokenIds(s.requests[id].outputs)
  }

  ghost predicate TokenIds(outputs: seq<int>) {
    forall i :: 0 <= i < |outputs| ==> outputs[i] >= 0
  }

  /** At every release of the lock: the engine is settled, or wedged once the thread has ended; the pending ids
      are exactly those waiting, prefilling or running, the finished list has been drained, and every caller
      has what it should have. */
  ghost predicate Consistent(cfg: Config, detok: Detokenizer, sv: Server) {
    && (if sv.alive then Settled(cfg, sv.engine, true) else Wedged(cfg, sv.engine))
    && Delivering(detok, sv) && Natural(sv.engine)
  }

  ghost predicate Delivering(detok: Detokenizer, sv: Server) {
    && sv.engine.finished == []
    && (forall id: nat :: id in sv.pending <==> id in sv.engine.requests && sv.engine.requests[id].status != Finished)
    && (forall id: nat :: id in sv.clients <==> id in sv.engine.requests)
    && (forall id :: id in sv.clients ==> Delivered(detok, sv.engine.requests[id], sv.clients[id]))
  }

  // A second push of the same output adds nothing.
  lemma PushAgain(detok: Detokenizer, outputs: seq<int>)
    requires outputs != []
    ensures PushDelta(detok, Streamed(detok, outputs), outputs) == Streamed(detok, outputs)
  {
  }

  // What has been pushed makes up the new text exactly when the new text extends the old one.
  lemma PushText(detok: Detokenizer, c: Client, outputs: seq<int>)
    requires Text(c.deltas) == c.decoded
    ensures var d := PushDelta(detok, c, outputs);
      && (Text(d.deltas) == detok(outputs) <==> c.decoded <= detok(outputs))
      && (c.decoded <= detok(outputs) ==> d.decoded == detok(outputs))
      && d == c.(deltas := d.deltas, decoded := d.decoded)
  {
    var full, n, d := detok(outputs), |c.decoded|, PushDelta(detok, c, outputs);
    if |full| > n {
      assert d.deltas[..|d.deltas| - 1] == c.deltas;
      assert Text(d.deltas) == c.decoded + full[n..];
      assert full == full[..n] + full[n..];
      assert (c.decoded + full[n..])[..n] == c.decoded;
    }
  }

  lemma SubmitConsistent(cfg: Config, detok: Detokenizer, sv: Server, prompt: seq<int>, maxNew: int,
                         params: SamplingParams, eos: Option<int>, priority: int, streaming: bool)
    requires Consistent(cfg, detok, sv) && |prompt| > 0 && Choosable(cfg.net, cfg.exp, params)
    ensures Consistent(cfg, detok, Submit(cfg, sv, prompt, maxNew, params, eos, priority, streaming))
    ensures Submit(cfg, sv, prompt, maxNew, params, eos, priority, streaming).engine
         == Play(cfg, sv.engine, Arrive(prompt, maxNew, params, eos, priority, None))
  {
    hide Settled, Wedged, Choosable, Delivering, Submit, Play;
    var e := Arrive(prompt, maxNew, params, eos, priority, None);
    ConsistentQueues(cfg, detok, sv);
    if sv.alive {
      AddOk(cfg, sv.engine, e, true);
    } else {
      AddWedged(cfg, sv.engine, e, true);
    }
    QueueIds(sv.engine);
    SubmitDelivering(cfg, detok, sv, prompt, maxNew, params, eos, priority, streaming);
    NaturalAdd(cfg, sv.engine, e);
  }

  lemma NaturalAdd(cfg: Config, s: Sched, e: Event)
    requires Natural(s) && e.Arrive?
    ensures Natural(Play(cfg, s, e))
  {
  }

  lemma SubmitDelivering(cfg: Config, detok: Detokenizer, sv: Server, prompt: seq<int>, maxNew: int,
                         params: SamplingParams, eos: Option<int>, priority: int, streaming: bool)
    requires Delivering(detok, sv) && sv.engine.nextId !in sv.engine.requests
    ensures var sv' := Submit(cfg, sv, prompt, maxNew, params, eos, priority, streaming);
      && Delivering(detok, sv') && sv'.alive == sv.alive
      && sv'.engine == Play(cfg, sv.engine, Arrive(prompt, maxNew, params, eos, priority, None))
  {
  }

  lemma ConsistentQueues(cfg: Config, detok: Detokenizer, sv: Server)
    requires Consistent(cfg, detok, sv)
    ensures Queues(sv.engine)
  {
  }

  lemma QueueIds(s: Sched)
    requires Queues(s)
    ensures s.nextId !in s.requests
    ensures forall id :: id in s.running <==> id in s.requests && s.requests[id].status == Running
    ensures forall id: nat :: id in s.finished <==>
      id in s.requests && s.requests[id].status == Finished && id !in s.collected
    ensures forall id :: id in s.collected ==> id in s.requests && s.requests[id].status == Finished
  {
  }

  // No request has output before it runs, and none finishes without.
  ghost predicate Shown(s: Sched) {
    forall id :: id in s.requests ==> var req := s.requests[id];
      && (req.status in {Waiting, Prefilling} ==> req.outputs == [])
      && (req.status == Finished ==> req.outputs != [])
  }

  // The reaper's work for one request after a step, whatever the detokenizer.
  lemma ReapDelivers(detok: Detokenizer, sv: Server, s: Sched, id: nat)
    requires Delivering(detok, sv) && Queues(sv.engine) && Queues(s) && Shown(s)
    requires id in sv.engine.requests && id in s.requests && StepOf(sv.engine.requests[id], s.requests[id])
    requires s.collected == sv.engine.collected
    ensures id in sv.clients && Delivered(detok, s.requests[id], ReapOne(detok, sv.(engine := s), id))
  {
    hide Queues, PushDelta;
    QueueIds(sv.engine);
    QueueIds(s);
    var req, req', c := sv.engine.requests[id], s.requests[id], sv.clients[id];
    assert Delivered(detok, req, c);
    if req.status != Finished && c.streaming && req'.outputs != [] {
      assert c == Streamed(detok, req.outputs);
      if req'.outputs == req.outputs {
        PushAgain(detok, req.outputs);
      } else {
        assert req'.outputs[..|req'.outputs| - 1] == req.outputs;
      }
      assert PushDelta(detok, c, req'.outputs) == Streamed(detok, req'.outputs);
    }
  }

  // Reaping after a step.
  lemma ReapDelivering(detok: Detokenizer, sv: Server, s: Sched)
    requires Delivering(detok, sv) && Queues(sv.engine) && Queues(s) && Shown(s)
    requires s.collected == sv.engine.collected
    requires forall id :: id in sv.engine.requests ==>
      id in s.requests && StepOf(sv.engine.requests[id], s.requests[id])
    requires forall id :: id in s.requests <==> id in sv.engine.requests
    ensures Delivering(detok, Reap(detok, sv.(engine := s)))
  {
    hide Queues, ReapOne, Delivered, StepOf, Shown;
    StillFinished(sv.engine, s);
    FinishedForGood(sv.engine, s);
    forall id | id in sv.clients
      ensures Delivered(detok, s.requests[id], ReapOne(detok, sv.(engine := s), id))
    {
      ReapDelivers(detok, sv, s, id);
    }
  }

  lemma FinishedForGood(s: Sched, s': Sched)
    requires forall id :: id in s.requests ==> id in s'.requests && StepOf(s.requests[id], s'.requests[id])
    ensures forall id :: id in s.requests && s.requests[id].status == Finished ==> s'.requests[id].status == Finished
  {
  }

  lemma SettledQueues(cfg: Config, s: Sched)
    requires Settled(cfg, s, true)
    ensures Queues(s) && Shown(s)
  {
    hide Accounted, Shape, Queues, Choosable, Brought, Resting;
    forall id | id in s.requests
      ensures Sane(cfg, s.requests[id], true)
    {
    }
  }

  lemma ConsistentShown(cfg: Config, detok: Detokenizer, sv: Server)
    requires Consistent(cfg, detok, sv)
    ensures Shown(sv.engine)
  {
    hide Accounted, Shape, Queues, Choosable, Brought, Resting, Delivering, Natural, Roomy, Stuck;
    forall id | id in sv.engine.requests
      ensures Sane(cfg, sv.engine.requests[id], sv.alive)
    {
    }
  }

  // A step's tokens are token ids.
  lemma StepNatural(cfg: Config, s: Sched)
    requires Settled(cfg, s, true) && Natural(s)
    ensures Steppable(s) && (Step(cfg, s).Ok? ==> Natural(Step(cfg, s).value))
  {
    hide Settled, MidOk, RunningBatched, RowsMatch, Picked, TokensOf, MovesOn, WithToken, Step, Build, Steppable,
      TokenIds;
    var ps := StepOk(cfg, s, true);
    if Step(cfg, s).Ok? {
      var m, s' := Build(cfg, s).value, Step(cfg, s).value;
      BatchSampled(cfg, m, ps, true);
      var batch, tokens := Picked(m.flat.ids, m.flat.sampled), TokensOf(cfg, m.s, m.flat);
      TokensCount(cfg, m.s, m.flat);
      AppendedGiven(m.s.requests, batch, tokens);
      StepKeys(s, m.s, s');
      SameKeys(s, m.s);
      forall id | id in s'.requests
        ensures TokenIds(s'.requests[id].outputs)
      {
        assert MovesOn(s.requests[id], m.s.requests[id]);
        MovedOutputs(s.requests[id], m.s.requests[id]);
        if m.s.requests[id].status == Running {
          var j :| 0 <= j < |batch| && batch[j] == id;
          TokenNatural(cfg, m.s, m.flat, j);
          OneMoreId(s.requests[id].outputs, tokens[j]);
        }
      }
    }
  }

  lemma OneMoreId(outputs: seq<int>, t: int)
    requires TokenIds(outputs) && t >= 0
    ensures TokenIds(outputs + [t])
  {
  }

  lemma TokenNatural(cfg: Config, s: Sched, flat: Flat, j: nat)
    requires RowsMatch(s, flat) && j < |TokensOf(cfg, s, flat)|
    ensures TokensOf(cfg, s, flat)[j] >= 0
  {
    hide ForwardBatch, SampleRow;
    var batch := Picked(flat.ids, flat.sampled);
    assert batch[0] in batch;
    assert TokensOf(cfg, s, flat)[j] == SampleRow(cfg, s.requests[batch[0]].params, s.drawn + j,
      cfg.net.lmHead(RowAt(ForwardBatch(cfg, s, flat).0, flat.lastIdx[j])));
  }

  // An iteration of the thread; one that raises ends it and completes nobody.
  lemma IterateConsistent(cfg: Config, detok: Detokenizer, sv: Server)
    requires Consistent(cfg, detok, sv)
    ensures Consistent(cfg, detok, Iterate(cfg, detok, sv))
  {
    hide Settled, Wedged, Step, Steppable, Interrupted, Reap, StepOf, Build, Delivering, Queues, TokenIds, Shown;
    if sv.alive {
      StepServes(cfg, sv.engine, true);
      RaiseWedges(cfg, sv.engine, true);
      if Step(cfg, sv.engine).Ok? {
        var ps := StepOk(cfg, sv.engine, true);
        var s := Step(cfg, sv.engine).value;
        SameIds(sv.engine, s);
        SettledQueues(cfg, sv.engine);
        SettledQueues(cfg, s);
        StepNatural(cfg, sv.engine);
        ReapDelivering(detok, sv, s);
        DrainOk(cfg, s, true);
        ReapFrame(detok, sv, s);
      } else {
        InterruptedDelivers(detok, sv, Interrupted(cfg, sv.engine));
      }
    }
  }

  lemma ReapFrame(detok: Detokenizer, sv: Server, s: Sched)
    ensures var sv' := Reap(detok, sv.(engine := s)); sv'.engine == Drain(s) && sv'.alive == sv.alive
  {
  }

  lemma InterruptedDelivers(detok: Detokenizer, sv: Server, s: Sched)
    requires Delivering(detok, sv) && s == sv.engine.(pool := s.pool)
    ensures Delivering(detok, sv.(engine := s, alive := false))
  {
    hide Delivered;
  }

  lemma SameIds(s: Sched, s': Sched)
    requires s'.requests.Keys == s.requests.Keys
    ensures forall id :: id in s'.requests <==> id in s.requests
  {
    assert forall id :: id in s.requests <==> id in s.requests.Keys;
    assert forall id :: id in s'.requests <==> id in s'.requests.Keys;
  }

  // After a step the finished list holds exactly the requests that finished in it.
  lemma StillFinished(s: Sched, s': Sched)
    requires Queues(s) && Queues(s') && s.finished == [] && s'.collected == s.collected
    requires forall id :: id in s.requests ==> id in s'.requests && StepOf(s.requests[id], s'.requests[id])
    requires forall id :: id in s'.requests <==> id in s.requests
    ensures forall id: nat :: id in s'.finished <==>
      id in s.requests && s.requests[id].status != Finished && s'.requests[id].status == Finished
  {
    hide Queues;
    QueueIds(s);
    QueueIds(s');
  }

  // ---------- runs ----------

  datatype Turn =
    | Request(prompt: seq<int>, maxNew: int, params: SamplingParams, eos: Option<int>, priority: int, streaming: bool)
    | Loop

  ghost predicate Proper(cfg: Config, t: Turn) {
    t.Request? ==> |t.prompt| > 0 && Choosable(cfg.net, cfg.exp, t.params)
  }

  ghost predicate GreedyTurn(t: Turn) {
    t.Request? ==> t.params.Greedy()
  }

  ghost function Serve(cfg: Config, detok: Detokenizer, sv: Server, t: Turn): Server {
    match t
    case Request(prompt, maxNew, params, eos, priority, streaming) =>
      Submit(cfg, sv, prompt, maxNew, params, eos, priority, streaming)
    case Loop => Iterate(cfg, detok, sv)
  }

  ghost function ServeAll(cfg: Config, detok: Detokenizer, sv: Server, turns: seq<Turn>): Server {
    if turns == [] then sv
    else Serve(cfg, detok, ServeAll(cfg, detok, sv, turns[..|turns| - 1]), turns[|turns| - 1])
  }

  lemma ServeConsistent(cfg: Config, detok: Detokenizer, sv: Server, t: Turn)
    requires Consistent(cfg, detok, sv) && Proper(cfg, t)
    ensures Consistent(cfg, detok, Serve(cfg, detok, sv, t))
    ensures GreedyTurn(t) && AllGreedy(cfg.net, sv.engine) ==> AllGreedy(cfg.net, Serve(cfg, detok, sv, t).engine)
  {
    hide Consistent, Submit, Iterate, Choosable, AllGreedy, Play;
    match t
    case Request(prompt, maxNew, params, eos, priority, streaming) =>
      SubmitConsistent(cfg, detok, sv, prompt, maxNew, params, eos, priority, streaming);
      if GreedyTurn(t) && AllGreedy(cfg.net, sv.engine) {
        ConsistentStands(cfg, detok, sv);
        PlayStaysGreedy(cfg, sv.engine, Arrive(prompt, maxNew, params, eos, priority, None));
      }
    case Loop =>
      IterateConsistent(cfg, detok, sv);
      if AllGreedy(cfg.net, sv.engine) {
        IterateGreedy(cfg, detok, sv);
      }
  }

  lemma ConsistentStands(cfg: Config, detok: Detokenizer, sv: Server)
    requires Consistent(cfg, detok, sv)
    ensures Standing(cfg, sv.engine, true)
  {
    hide Settled, Wedged, Delivering;
  }

  lemma IterateGreedy(cfg: Config, detok: Detokenizer, sv: Server)
    requires Consistent(cfg, detok, sv) && AllGreedy(cfg.net, sv.engine)
    ensures AllGreedy(cfg.net, Iterate(cfg, detok, sv).engine)
  {
    hide Settled, Wedged, Step, Steppable, Interrupted, Delivering, ReapOne, GreedyRequest;
    if sv.alive {
      StepStaysGreedy(cfg, sv.engine);
      RaiseWedges(cfg, sv.engine, true);
    }
  }

  lemma {:induction false} ServeAllConsistent(cfg: Config, detok: Detokenizer, sv: Server, turns: seq<Turn>)
    requires Consistent(cfg, detok, sv) && forall t :: t in turns ==> Proper(cfg, t)
    ensures Consistent(cfg, detok, ServeAll(cfg, detok, sv, turns))
    ensures AllGreedy(cfg.net, sv.engine) && (forall t :: t in turns ==> GreedyTurn(t)) ==>
      AllGreedy(cfg.net, ServeAll(cfg, detok, sv, turns).engine)
  {
    hide Consistent, Proper, Serve, AllGreedy, GreedyTurn;
    if turns != [] {
      var n := |turns| - 1;
      assert turns[n] in turns && forall t :: t in turns[..n] ==> t in turns;
      ServeAllConsistent(cfg, detok, sv, turns[..n]);
      ServeConsistent(cfg, detok, ServeAll(cfg, detok, sv, turns[..n]), turns[n]);
    }
  }

  function NewServer(numBlocks: nat, blockSize: pos, store: Store): Server {
    Server(EmptySched(numBlocks, blockSize, store), {}, map[], true)
  }

  // Over every run callers are served consistently, and greedy requests get their solo generations.
  lemma RunsConsistent(cfg: Config, detok: Detokenizer, numBlocks: nat, blockSize: pos, store: Store, turns: seq<Turn>)
    requires Shape(cfg.net, store, numBlocks * blockSize)
    requires forall t :: t in turns ==> Proper(cfg, t)
    ensures var sv := ServeAll(cfg, detok, NewServer(numBlocks, blockSize, store), turns);
      && Consistent(cfg, detok, sv)
      && ((forall t :: t in turns ==> GreedyTurn(t)) ==> Transparent(cfg.net, sv.engine))
  {
    hide Transparent, Settled, ServeAll, GreedyTurn, Proper, Consistent;
    var sv0 := NewServer(numBlocks, blockSize, store);
    EmptySettled(cfg, numBlocks, blockSize, store, true);
    NobodyGreedy(cfg.net, sv0.engine);
    assert Consistent(cfg, detok, sv0) by { NobodyServed(cfg, detok, sv0); }
    ServeAllConsistent(cfg, detok, sv0, turns);
    var sv := ServeAll(cfg, detok, sv0, turns);
    if forall t :: t in turns ==> GreedyTurn(t) {
      ConsistentStands(cfg, detok, sv);
      StandingFacts(cfg, sv.engine, true);
      GreedyIsTransparent(cfg, sv.engine);
    }
  }

  lemma NobodyServed(cfg: Config, detok: Detokenizer, sv: Server)
    requires Settled(cfg, sv.engine, true) && sv.alive && sv.engine.finished == [] && sv.engine.requests == map[]
    requires sv.pending == {} && sv.clients == map[]
    ensures Consistent(cfg, detok, sv)
  {
    hide Settled;
  }

  // ---------- once the thread has ended ----------

  /** After an exception in a step no caller gets anything any more: whoever was pending stays so. */
  lemma {:induction false} EndedForGood(cfg: Config, detok: Detokenizer, sv: Server, turns: seq<Turn>)
    requires Consistent(cfg, detok, sv) && !sv.alive && forall t :: t in turns ==> Proper(cfg, t)
    ensures var sv' := ServeAll(cfg, detok, sv, turns);
      && !sv'.alive && sv.pending <= sv'.pending
      && forall id :: id in sv.clients ==> id in sv'.clients && sv'.clients[id] == sv.clients[id]
  {
    hide Consistent, Proper, Serve;
    if turns != [] {
      var n := |turns| - 1;
      assert turns[n] in turns && forall t :: t in turns[..n] ==> t in turns;
      EndedForGood(cfg, detok, sv, turns[..n]);
      ServeAllConsistent(cfg, detok, sv, turns[..n]);
      EndedTurn(cfg, detok, ServeAll(cfg, detok, sv, turns[..n]), turns[n]);
    }
  }

  lemma EndedTurn(cfg: Config, detok: Detokenizer, sv: Server, t: Turn)
    requires Consistent(cfg, detok, sv) && !sv.alive
    ensures var sv' := Serve(cfg, detok, sv, t);
      && !sv'.alive && sv.pending <= sv'.pending
      && forall id :: id in sv.clients ==> id in sv'.clients && sv'.clients[id] == sv.clients[id]
  {
    hide Delivered, Step, Steppable, Settled;
    ConsistentQueues(cfg, detok, sv);
    QueueIds(sv.engine);
  }

  // ---------- callers stay known ----------

  // A caller and its request, with the settings they came with.
  ghost predicate SameCaller(sv: Server, sv': Server, id: nat)
    requires id in sv.clients && id in sv.engine.requests
  {
    && id in sv'.clients && sv'.clients[id].streaming == sv.clients[id].streaming
    && id in sv'.engine.requests && Keeps(sv.engine.requests[id], sv'.engine.requests[id])
  }

  lemma ServeKeeps(cfg: Config, detok: Detokenizer, sv: Server, t: Turn, id: nat)
    requires Consistent(cfg, detok, sv) && id in sv.clients && id in sv.engine.requests
    ensures SameCaller(sv, Serve(cfg, detok, sv, t), id)
  {
    hide Settled, Wedged, Step, Steppable, Interrupted, Delivered, Natural;
    ConsistentQueues(cfg, detok, sv);
    QueueIds(sv.engine);
    if t.Loop? && sv.alive {
      RaiseWedges(cfg, sv.engine, true);
      if Step(cfg, sv.engine).Ok? {
        StepKeeps(cfg, sv.engine, id, true);
      }
    }
  }

  lemma {:induction false} ServeAllKeeps(cfg: Config, detok: Detokenizer, sv: Server, turns: seq<Turn>, id: nat)
    requires Consistent(cfg, detok, sv) && id in sv.clients && id in sv.engine.requests
    requires forall t :: t in turns ==> Proper(cfg, t)
    ensures SameCaller(sv, ServeAll(cfg, detok, sv, turns), id)
  {
    hide Consistent, Proper, Serve;
    if turns != [] {
      var n := |turns| - 1;
      assert turns[n] in turns && forall t :: t in turns[..n] ==> t in turns;
      ServeAllKeeps(cfg, detok, sv, turns[..n], id);
      ServeAllConsistent(cfg, detok, sv, turns[..n]);
      ServeKeeps(cfg, detok, ServeAll(cfg, detok, sv, turns[..n]), turns[n], id);
    }
  }

  // ---------- every caller gets what it asked for ----------

  // The turn as the engine sees it.
  function ArrivalOf(t: Turn): Event
    requires t.Request?
  {
    Arrive(t.prompt, t.maxNew, t.params, t.eos, t.priority, None)
  }

  // A submission is registered as it came, under a new id, and nobody else's changes.
  lemma SubmitRegisters(cfg: Config, detok: Detokenizer, sv: Server, t: Turn)
    requires Consistent(cfg, detok, sv) && Proper(cfg, t) && t.Request?
    ensures var sv', id := Serve(cfg, detok, sv, t), sv.engine.nextId;
      && id !in sv.clients && id !in sv.engine.requests && id in sv'.engine.requests && id in sv'.clients
      && AsGiven(sv'.engine.requests[id], ArrivalOf(t)) && sv'.engine.requests[id].status == Waiting
      && sv'.clients[id].streaming == t.streaming && id in sv'.pending
      && forall i :: i in sv.clients ==> i in sv'.clients && sv'.clients[i] == sv.clients[i]
  {
    hide Settled, Wedged, Delivered, Choosable;
    ConsistentQueues(cfg, detok, sv);
    QueueIds(sv.engine);
  }

  // The id the i-th turn's request gets.
  ghost function CallerId(cfg: Config, detok: Detokenizer, sv: Server, turns: seq<Turn>, i: nat): nat
    requires i < |turns|
  {
    ServeAll(cfg, detok, sv, turns[..i]).engine.nextId
  }

  lemma {:induction false} CallersStay(cfg: Config, detok: Detokenizer, sv: Server, turns: seq<Turn>, i: nat)
    requires Consistent(cfg, detok, sv) && forall t :: t in turns ==> Proper(cfg, t)
    requires i < |turns| && turns[i].Request?
    ensures var id, sv' := CallerId(cfg, detok, sv, turns, i), ServeAll(cfg, detok, sv, turns);
      && id in sv'.engine.requests && id in sv'.clients
      && AsGiven(sv'.engine.requests[id], ArrivalOf(turns[i])) && sv'.clients[id].streaming == turns[i].streaming
  {
    hide Consistent, Proper, Serve;
    var n := |turns| - 1;
    assert turns[n] in turns && forall t :: t in turns[..n] ==> t in turns;
    ServeAllConsistent(cfg, detok, sv, turns[..n]);
    if i == n {
      SubmitRegisters(cfg, detok, ServeAll(cfg, detok, sv, turns[..n]), turns[n]);
    } else {
      assert turns[..n][..i] == turns[..i];
      CallersStay(cfg, detok, sv, turns[..n], i);
      ServeKeeps(cfg, detok, ServeAll(cfg, detok, sv, turns[..n]), turns[n], CallerId(cfg, detok, sv, turns, i));
    }
  }

  // What a turn does to the engine is a run of it.
  lemma ServeIsPlay(cfg: Config, detok: Detokenizer, sv: Server, t: Turn) returns (events: seq<Event>)
    requires Consistent(cfg, detok, sv) && Proper(cfg, t)
    ensures forall e :: e in events ==> Acceptable(cfg, e, true)
    ensures Serve(cfg, detok, sv, t).engine == PlayAll(cfg, sv.engine, events)
  {
    hide Settled, Wedged, Step, Interrupted, Delivering, Choosable, Natural;
    ConsistentStands(cfg, detok, sv);
    StandingFacts(cfg, sv.engine, true);
    if t.Request? {
      events := [ArrivalOf(t)];
    } else if !sv.alive || !HasWork(sv.engine) {
      events := [];
    } else {
      events := [Tick];
      assert PlayAll(cfg, sv.engine, [Tick]) == Play(cfg, sv.engine, Tick);
      if Step(cfg, sv.engine).Ok? {
        events := [Tick, Collect];
        assert events[..1] == [Tick];
      }
    }
  }

  lemma {:induction false} ServeAllWithin(cfg: Config, detok: Detokenizer, sv: Server, turns: seq<Turn>)
    requires Consistent(cfg, detok, sv) && AllWithin(sv.engine) && forall t :: t in turns ==> Proper(cfg, t)
    ensures AllWithin(ServeAll(cfg, detok, sv, turns).engine)
  {
    hide Consistent, Proper, Serve, AllWithin, PlayAll, Acceptable;
    if turns != [] {
      var n := |turns| - 1;
      assert turns[n] in turns && forall t :: t in turns[..n] ==> t in turns;
      ServeAllConsistent(cfg, detok, sv, turns[..n]);
      ServeAllWithin(cfg, detok, sv, turns[..n]);
      var before := ServeAll(cfg, detok, sv, turns[..n]);
      ConsistentStands(cfg, detok, before);
      var events := ServeIsPlay(cfg, detok, before, turns[n]);
      RunsStayWithin(cfg, before.engine, events, true);
    }
  }

  // What the caller of this turn has been sent, given its request: text pieces and then one end mark if it asked for
  // a stream, otherwise nothing and then one result.
  ghost predicate Answered(detok: Detokenizer, t: Turn, req: Request, c: Client)
    requires t.Request?
  {
    var done := req.status == Finished;
    if t.streaming then
      c.deltas == Streamed(detok, req.outputs).deltas && c.ends == (if done then 1 else 0) && c.results == []
    else
      c.deltas == [] && c.ends == 0 && c.results == if done then [req.outputs] else []
  }

  // The i-th turn's request is known as it was asked for, its caller has what it should have, and it has finished
  // exactly when its output is whole.
  ghost predicate AnsweredTurn(cfg: Config, detok: Detokenizer, sv0: Server, turns: seq<Turn>, i: nat)
    requires i < |turns| && turns[i].Request?
  {
    var sv, t, id := ServeAll(cfg, detok, sv0, turns), turns[i], CallerId(cfg, detok, sv0, turns, i);
    && id in sv.engine.requests && id in sv.clients
    && var req := sv.engine.requests[id];
      && AsGiven(req, ArrivalOf(t)) && Answered(detok, t, req, sv.clients[id])
      && (req.status == Finished <==> WholeOutput(req.outputs, t.maxNew, t.eos))
  }

  /** Over every serialization of submissions and engine iterations, also when an iteration raises and the thread
      ends, and whatever the detokenizer: each submission's caller whose request has finished has received exactly
      one completion of the kind it asked for, with that request's own whole output, and no other caller has
      received one.  If all requests are greedy, these outputs are their solo generations. */
  lemma CompletedExactlyOnce(cfg: Config, detok: Detokenizer, numBlocks: nat, blockSize: pos, store: Store,
                             turns: seq<Turn>)
    requires Shape(cfg.net, store, numBlocks * blockSize)
    requires forall t :: t in turns ==> Proper(cfg, t)
    ensures var sv0 := NewServer(numBlocks, blockSize, store);
      && Consistent(cfg, detok, ServeAll(cfg, detok, sv0, turns))
      && (forall i: nat :: i < |turns| && turns[i].Request? ==> AnsweredTurn(cfg, detok, sv0, turns, i))
      && ((forall t :: t in turns ==> GreedyTurn(t)) ==> Transparent(cfg.net, ServeAll(cfg, detok, sv0, turns).engine))
  {
    hide Settled, ServeAll, GreedyTurn, Proper, Consistent, WholeOutput, AllWithin, Transparent, AsGiven, Answered;
    var sv0 := NewServer(numBlocks, blockSize, store);
    EmptySettled(cfg, numBlocks, blockSize, store, true);
    assert Consistent(cfg, detok, sv0) by { NobodyServed(cfg, detok, sv0); }
    assert AllWithin(sv0.engine) by { NobodyWithin(sv0.engine); }
    RunsConsistent(cfg, detok, numBlocks, blockSize, store, turns);
    ServeAllWithin(cfg, detok, sv0, turns);
    forall i: nat | i < |turns| && turns[i].Request?
      ensures AnsweredTurn(cfg, detok, sv0, turns, i)
    {
      CallersStay(cfg, detok, sv0, turns, i);
      CallerAnswered(cfg, detok, ServeAll(cfg, detok, sv0, turns), turns[i], CallerId(cfg, detok, sv0, turns, i));
    }
  }

  lemma NobodyWithin(s: Sched)
    requires s.requests == map[]
    ensures AllWithin(s)
  {
  }

  lemma CallerAnswered(cfg: Config, detok: Detokenizer, sv: Server, t: Turn, id: nat)
    requires Consistent(cfg, detok, sv) && AllWithin(sv.engine) && t.Request?
    requires id in sv.engine.requests && id in sv.clients
    requires AsGiven(sv.engine.requests[id], ArrivalOf(t)) && sv.clients[id].streaming == t.streaming
    ensures var req := sv.engine.requests[id];
      && Answered(detok, t, req, sv.clients[id])
      && (req.status == Finished <==> WholeOutput(req.outputs, t.maxNew, t.eos))
  {
    hide Settled, Wedged, WithinLimits, WholeOutput, Sane, Natural;
    ConsistentStands(cfg, detok, sv);
    StandingFacts(cfg, sv.engine, true);
    FinishedIsWhole(cfg, sv.engine.requests[id], false);
    assert Delivered(detok, sv.engine.requests[id], sv.clients[id]);
  }

  // ---------- completion under load ----------

  function Loops(n: nat): (turns: seq<Turn>)
    ensures |turns| == n
  {
    seq(n, i => Loop)
  }

  lemma MeasureSame(s: Sched, s': Sched)
    requires s'.requests == s.requests && s'.nextId == s.nextId
    ensures Measure(s') == Measure(s)
  {
    SumSame(s.nextId, WorkAt(s), WorkAt(s'));
  }

  // One turn of the thread, while there is work and the pool covers it.
  lemma LoopProgresses(cfg: Config, detok: Detokenizer, sv: Server)
    requires Consistent(cfg, detok, sv) && sv.alive && Capacity(sv.engine) && HasWork(sv.engine)
    ensures var sv' := Iterate(cfg, detok, sv);
      sv'.alive && Capacity(sv'.engine) && Measure(sv'.engine) < Measure(sv.engine)
  {
    hide Settled, Delivering, Step, Steppable, Capacity, Measure, Reap, SameRequests, Natural;
    StepProgresses(cfg, sv.engine, true);
    var s := Step(cfg, sv.engine).value;
    ReapFrame(detok, sv, s);
    MeasureSame(s, Drain(s));
    CapacitySame(s, Drain(s));
  }

  lemma {:induction false} LoopsDrain(cfg: Config, detok: Detokenizer, sv: Server, n: nat)
    requires Consistent(cfg, detok, sv) && sv.alive && Capacity(sv.engine)
    ensures var sv' := ServeAll(cfg, detok, sv, Loops(n));
      && Consistent(cfg, detok, sv') && sv'.alive && Capacity(sv'.engine)
      && (HasWork(sv'.engine) ==> Measure(sv'.engine) + n <= Measure(sv.engine))
  {
    hide Consistent, Capacity, Measure, Iterate, HasWork;
    if n > 0 {
      LoopsDrain(cfg, detok, sv, n - 1);
      var before := ServeAll(cfg, detok, sv, Loops(n - 1));
      assert Loops(n)[..n - 1] == Loops(n - 1);
      IterateConsistent(cfg, detok, before);
      if HasWork(before.engine) {
        LoopProgresses(cfg, detok, before);
      } else {
        IdleLoop(cfg, detok, before);
      }
    }
  }

  lemma IdleLoop(cfg: Config, detok: Detokenizer, sv: Server)
    requires !HasWork(sv.engine)
    ensures Iterate(cfg, detok, sv) == sv
  {
    hide Step, Steppable;
  }

  /** While the pool covers the peaks of the unfinished requests, as many turns of the thread as there are prompt
      and output tokens left complete every caller: nobody is pending and every request has finished. */
  lemma LoopsComplete(cfg: Config, detok: Detokenizer, sv: Server, n: nat)
    requires Consistent(cfg, detok, sv) && sv.alive && Capacity(sv.engine) && Measure(sv.engine) <= n
    ensures var sv' := ServeAll(cfg, detok, sv, Loops(n));
      && Consistent(cfg, detok, sv') && sv'.alive && sv'.pending == {}
      && forall id :: id in sv'.engine.requests ==> sv'.engine.requests[id].status == Finished
  {
    hide Settled, Capacity, Measure, ServeAll, Delivered, Wedged, Natural, HasWork;
    LoopsDrain(cfg, detok, sv, n);
    var sv' := ServeAll(cfg, detok, sv, Loops(n));
    if HasWork(sv'.engine) {
      LoopProgresses(cfg, detok, sv');
    } else {
      AllFinished(cfg, sv'.engine, true);
    }
  }

  /** End to end: after any submissions and turns, while the pool covers the peaks, enough turns of the thread give
      every caller its whole answer: the one result it asked for, or all pieces and the end mark. */
  lemma EveryCallerIsAnswered(cfg: Config, detok: Detokenizer, sv: Server, turns: seq<Turn>, i: nat, n: nat)
    requires Consistent(cfg, detok, sv) && AllWithin(sv.engine) && (forall t :: t in turns ==> Proper(cfg, t))
    requires i < |turns| && turns[i].Request?
    requires var sv1 := ServeAll(cfg, detok, sv, turns);
      sv1.alive && Capacity(sv1.engine) && Measure(sv1.engine) <= n
    ensures var sv1, t, id := ServeAll(cfg, detok, sv, turns), turns[i], CallerId(cfg, detok, sv, turns, i);
      var sv2 := ServeAll(cfg, detok, sv1, Loops(n));
      && id in sv2.engine.requests && id in sv2.clients && id !in sv2.pending
      && var req := sv2.engine.requests[id];
        && AsGiven(req, ArrivalOf(t)) && req.status == Finished && WholeOutput(req.outputs, t.maxNew, t.eos)
        && Answered(detok, t, req, sv2.clients[id])
  {
    hide Consistent, AllWithin, Capacity, Measure, ServeAll, Proper, WholeOutput, Answered;
    var sv1, id := ServeAll(cfg, detok, sv, turns), CallerId(cfg, detok, sv, turns, i);
    ServeAllConsistent(cfg, detok, sv, turns);
    ServeAllWithin(cfg, detok, sv, turns);
    CallersStay(cfg, detok, sv, turns, i);
    LoopsComplete(cfg, detok, sv1, n);
    LoopsProper(cfg, n);
    ServeAllWithin(cfg, detok, sv1, Loops(n));
    ServeAllKeeps(cfg, detok, sv1, Loops(n), id);
    CallerAnswered(cfg, detok, ServeAll(cfg, detok, sv1, Loops(n)), turns[i], id);
  }

  lemma LoopsProper(cfg: Config, n: nat)
    ensures forall t :: t in Loops(n) ==> Proper(cfg, t)
  {
  }
}
