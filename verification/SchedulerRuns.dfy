// Whole runs of the continuous-batching engine: whatever arrives, is stepped, caught and collected, the
// accounting stays exact, and greedy requests get their own solo generation.
module SchedulerRuns {
  import opened Wrappers
  import opened Reference
  import opened BlockPool
  import opened PagedStore
  import opened RaggedForward
  import opened SingleSequence
  import opened Portable
  import opened Sampling
  import opened Decoding
  import opened SchedulerState
  import opened SchedulerInvariant
  import opened SchedulerStep
  import opened SchedulerBatch
  import opened SchedulerRaise

  datatype Event =
    | Arrive(prompt: seq<int>, maxNew: int, params: SamplingParams, eos: Option<int>, priority: int,
      prefixKv: Option<PortableKv>)
    | Tick
    | Collect

  // Arrivals have a prompt and something to sample; when `exact`, any well-shaped prefix they bring is exact.
  ghost predicate Acceptable(cfg: Config, e: Event, exact: bool) {
    e.Arrive? ==>
      && |e.prompt| > 0 && Choosable(cfg.net, cfg.exp, e.params)
      && (exact && e.prefixKv.Some? && PrefixFits(|cfg.net.layers|, e.prefixKv.value, |e.prompt|) ==>
            ExactPrefix(cfg.net, e.prompt, e.prefixKv.value))
  }

  function EmptySched(numBlocks: nat, blockSize: pos, store: Store): Sched {
    Sched(EmptyPool(numBlocks, blockSize), store, map[], [], [], [], [], 0, 0, {})
  }

  // A refused prefix leaves the engine as it was; the exception of a step is caught.
  ghost function Play(cfg: Config, s: Sched, e: Event): Sched {
    match e
    case Arrive(prompt, maxNew, params, eos, priority, prefixKv) =>
      (match Add(cfg, s, prompt, maxNew, params, eos, priority, prefixKv)
       case Err(_) => s
       case Ok(s') => s')
    case Tick =>
      if !Steppable(s) then s
      else
        (match Step(cfg, s)
         case Err(_) => Interrupted(cfg, s)
         case Ok(s') => s')
    case Collect => Drain(s)
  }

  ghost function PlayAll(cfg: Config, s: Sched, events: seq<Event>): Sched {
    if events == [] then s else Play(cfg, PlayAll(cfg, s, events[..|events| - 1]), events[|events| - 1])
  }

  // ---------- what every run keeps ----------

  /** No step has raised and the engine is settled, or one has and the engine is wedged. */
  ghost predicate Standing(cfg: Config, s: Sched, exact: bool) {
    Settled(cfg, s, exact) || Wedged(cfg, s)
  }

  lemma StandingFacts(cfg: Config, s: Sched, exact: bool)
    requires Standing(cfg, s, exact)
    ensures Steppable(s) && Accounted(s.pool, multiset{}) && |s.running| <= cfg.maxBatch && Queues(s)
    ensures forall id :: id in s.requests ==> Sane(cfg, s.requests[id], false)
    ensures Wedged(cfg, s) ==> Step(cfg, s).Err?
  {
    hide Accounted, Choosable, Resting, Shape, Roomy, Stuck, Step, Steppable;
    if Wedged(cfg, s) {
      WedgedRaises(cfg, s);
    } else {
      RaiseWedges(cfg, s, exact);
      forall id | id in s.requests
        ensures Sane(cfg, s.requests[id], false)
      {
        assert Sane(cfg, s.requests[id], exact);
      }
    }
  }

  lemma NewSane(cfg: Config, e: Event, exact: bool)
    requires e.Arrive? && Acceptable(cfg, e, exact)
    ensures e.prefixKv.None? || PrefixFits(|cfg.net.layers|, e.prefixKv.value, |e.prompt|) ==>
      Sane(cfg, Request(e.prompt, e.params, e.maxNew, e.eos, e.priority, e.prefixKv, [], Waiting, 0), exact)
  {
  }

  // A new request joins the waiting ones and disturbs no other.
  lemma AddQueues(s: Sched, s': Sched, req: Request)
    requires Queues(s) && req.status == Waiting
    requires s' == s.(requests := s.requests[s.nextId := req], waiting := s.waiting + [s.nextId],
      nextId := s.nextId + 1)
    ensures Queues(s') && s.nextId !in s.requests
    ensures forall id :: Live(s', id) <==> Live(s, id)
    ensures forall id :: id in s'.requests ==>
      if id in s.requests then s'.requests[id] == s.requests[id] else s'.requests[id] == req
  {
    AddedLast(s.waiting, s.nextId);
    assert forall id :: Live(s', id) <==> Live(s, id);
  }

  lemma AddOk(cfg: Config, s: Sched, e: Event, exact: bool)
    requires Settled(cfg, s, exact) && e.Arrive? && Acceptable(cfg, e, exact)
    ensures Settled(cfg, Play(cfg, s, e), exact)
  {
    hide Accounted, Shape, Placed, Resting, Sane, PrefixFits, Queues, Live, Acceptable;
    var s' := Play(cfg, s, e);
    NewSane(cfg, e, exact);
    if s' != s {
      AddQueues(s, s', s'.requests[s.nextId]);
      forall id | Live(s', id)
        ensures Resting(cfg.net, s', id, exact)
      {
        LiveKnown(s, id);
        RestingSame(cfg.net, s, s', id, exact);
      }
    }
  }

  lemma LiveKnown(s: Sched, id: nat)
    requires Live(s, id)
    ensures id in s.requests
  {
  }

  lemma AddWedged(cfg: Config, s: Sched, e: Event, exact: bool)
    requires Wedged(cfg, s) && e.Arrive? && Acceptable(cfg, e, exact)
    ensures Wedged(cfg, Play(cfg, s, e))
  {
    hide Accounted, Roomy, Stuck, Sane, PrefixFits, Queues, Live, Acceptable;
    var s' := Play(cfg, s, e);
    NewSane(cfg, e, exact);
    if s' != s {
      AddQueues(s, s', s'.requests[s.nextId]);
      SaneStructure(cfg, s'.requests[s.nextId], exact);
      RunningKnown(s);
    }
  }

  lemma RunningKnown(s: Sched)
    requires Queues(s)
    ensures forall id :: id in s.running ==> id in s.requests
  {
  }

  lemma SaneStructure(cfg: Config, req: Request, exact: bool)
    requires Sane(cfg, req, exact)
    ensures Sane(cfg, req, false)
  {
  }

  lemma DrainOk(cfg: Config, s: Sched, exact: bool)
    requires Settled(cfg, s, exact)
    ensures Settled(cfg, Drain(s), exact)
  {
    hide Accounted, Shape, Sane, Resting;
    forall id | Live(Drain(s), id)
      ensures Resting(cfg.net, Drain(s), id, exact)
    {
      assert Live(s, id);
      RestingSame(cfg.net, s, Drain(s), id, exact);
    }
  }

  lemma DrainWedged(cfg: Config, s: Sched)
    requires Wedged(cfg, s)
    ensures Wedged(cfg, Drain(s))
  {
    hide Accounted, Roomy, Stuck, Sane;
    assert forall id :: Live(Drain(s), id) <==> Live(s, id);
  }

  lemma EmptySettled(cfg: Config, numBlocks: nat, blockSize: pos, store: Store, exact: bool)
    requires Shape(cfg.net, store, numBlocks * blockSize)
    ensures Settled(cfg, EmptySched(numBlocks, blockSize, store), exact)
  {
    EmptyAccounted(numBlocks, blockSize);
  }

  lemma PlayKeeps(cfg: Config, s: Sched, e: Event, exact: bool)
    requires Standing(cfg, s, exact) && Acceptable(cfg, e, exact)
    ensures Standing(cfg, Play(cfg, s, e), exact)
    ensures Wedged(cfg, s) ==> Wedged(cfg, Play(cfg, s, e))
  {
    hide Settled, Wedged, Acceptable, Step, Steppable, Add, Drain, Interrupted;
    if Wedged(cfg, s) {
      match e
      case Arrive(_, _, _, _, _, _) => AddWedged(cfg, s, e, exact);
      case Collect => DrainWedged(cfg, s);
      case Tick => WedgedRaises(cfg, s);
    } else {
      match e
      case Arrive(_, _, _, _, _, _) => AddOk(cfg, s, e, exact);
      case Collect => DrainOk(cfg, s, exact);
      case Tick =>
        var ps := StepOk(cfg, s, exact);
        RaiseWedges(cfg, s, exact);
    }
  }

  /** Over every run, whatever the parameters and prefixes: the block counts are exact, no more requests run
      than a step can decode, and every request is in the queue of its status. */
  lemma {:induction false} RunsKeep(cfg: Config, s: Sched, events: seq<Event>, exact: bool)
    requires Standing(cfg, s, exact) && forall e :: e in events ==> Acceptable(cfg, e, exact)
    ensures Standing(cfg, PlayAll(cfg, s, events), exact)
    ensures var s' := PlayAll(cfg, s, events);
      Accounted(s'.pool, multiset{}) && |s'.running| <= cfg.maxBatch && Queues(s') && Steppable(s')
  {
    hide Standing, Acceptable, Play, Accounted, Queues, Steppable;
    if events != [] {
      var n := |events| - 1;
      assert events[n] in events && forall e :: e in events[..n] ==> e in events;
      RunsKeep(cfg, s, events[..n], exact);
      PlayKeeps(cfg, PlayAll(cfg, s, events[..n]), events[n], exact);
    }
    StandingFacts(cfg, PlayAll(cfg, s, events), exact);
  }

  // ---------- no request is lost ----------

  // Its settings stay, and while it waits all of it does.
  ghost predicate Keeps(req: Request, req': Request) {
    && req'.prompt == req.prompt && req'.params == req.params && req'.maxNew == req.maxNew && req'.eos == req.eos
    && req'.priority == req.priority
    && (req'.status == Waiting ==> req' == req)
  }

  lemma StepKeeps(cfg: Config, s: Sched, id: nat, exact: bool)
    requires Settled(cfg, s, exact) && id in s.requests && Steppable(s) && Step(cfg, s).Ok?
    ensures id in Step(cfg, s).value.requests && Keeps(s.requests[id], Step(cfg, s).value.requests[id])
  {
    hide MidOk, Settled, RowsMatch, Sampled, RunningBatched, Latest;
    var ps := StepOk(cfg, s, exact);
    var m, s' := Build(cfg, s).value, Step(cfg, s).value;
    assert MovesOn(s.requests[id], m.s.requests[id]);
    KeysSame(m.s.requests, s'.requests);
  }

  lemma PlayKeepsRequest(cfg: Config, s: Sched, e: Event, id: nat, exact: bool)
    requires Standing(cfg, s, exact) && Acceptable(cfg, e, exact) && id in s.requests
    ensures id in Play(cfg, s, e).requests && Keeps(s.requests[id], Play(cfg, s, e).requests[id])
  {
    hide Settled, Wedged, Acceptable, Step, Steppable, Interrupted;
    match e
    case Arrive(_, _, _, _, _, _) =>
      StandingFacts(cfg, s, exact);
      NextIsFree(s);
    case Collect =>
    case Tick =>
      if Wedged(cfg, s) {
        WedgedRaises(cfg, s);
      } else {
        RaiseWedges(cfg, s, exact);
        if Step(cfg, s).Ok? {
          StepKeeps(cfg, s, id, exact);
        }
      }
  }

  lemma NextIsFree(s: Sched)
    requires Queues(s)
    ensures s.nextId !in s.requests
  {
  }

  /** Over every run a request stays known, with the settings it came with. */
  lemma {:induction false} RunKeepsRequest(cfg: Config, s: Sched, events: seq<Event>, id: nat, exact: bool)
    requires Standing(cfg, s, exact) && (forall e :: e in events ==> Acceptable(cfg, e, exact)) && id in s.requests
    ensures id in PlayAll(cfg, s, events).requests && Keeps(s.requests[id], PlayAll(cfg, s, events).requests[id])
  {
    hide Standing, Acceptable, Play;
    if events != [] {
      var n := |events| - 1;
      assert events[n] in events && forall e :: e in events[..n] ==> e in events;
      RunKeepsRequest(cfg, s, events[..n], id, exact);
      RunsKeep(cfg, s, events[..n], exact);
      PlayKeepsRequest(cfg, PlayAll(cfg, s, events[..n]), events[n], id, exact);
    }
  }

  // ---------- arrivals ----------

  // The request is the one that arrived.
  ghost predicate AsGiven(req: Request, e: Event)
    requires e.Arrive?
  {
    && req.prompt == e.prompt && req.maxNew == e.maxNew && req.params == e.params && req.eos == e.eos
    && req.priority == e.priority
    && (req.status == Waiting ==> req.prefixKv == e.prefixKv && req.outputs == [] && req.prefillPos == 0)
  }

  // An arrival that is not refused.
  ghost predicate Accepted(cfg: Config, e: Event) {
    e.Arrive? && (e.prefixKv.None? || PrefixFits(|cfg.net.layers|, e.prefixKv.value, |e.prompt|))
  }

  // A prefix is refused unless it has one row of keys and values per layer and each covers the same number of prompt
  // tokens, at least one and not all.
  lemma AcceptedIff(cfg: Config, s: Sched, e: Event)
    requires e.Arrive? && |cfg.net.layers| > 0
    ensures Add(cfg, s, e.prompt, e.maxNew, e.params, e.eos, e.priority, e.prefixKv).Ok? <==> Accepted(cfg, e)
    ensures Accepted(cfg, e) <==>
      (e.prefixKv.Some? ==>
         && |e.prefixKv.value| == |cfg.net.layers|
         && forall l :: 0 <= l < |e.prefixKv.value| ==>
              0 < |e.prefixKv.value[l]| < |e.prompt| && |e.prefixKv.value[l]| == |e.prefixKv.value[0]|)
  {
    if e.prefixKv.Some? && |e.prefixKv.value| == |cfg.net.layers| {
      assert Covered(e.prefixKv.value) == |e.prefixKv.value[0]|;
    }
  }

  // An arrival becomes a waiting request under a new id, as given; one that is refused changes nothing.
  lemma ArrivalJoins(cfg: Config, s: Sched, e: Event)
    requires Queues(s) && e.Arrive?
    ensures var s', id := Play(cfg, s, e), s.nextId;
      if !Accepted(cfg, e) then s' == s
      else
        && id !in s.requests && id in s'.requests && AsGiven(s'.requests[id], e) && s'.requests[id].status == Waiting
        && s'.waiting == s.waiting + [id] && s'.nextId > id
        && (forall i :: i in s.requests ==> i in s'.requests && s'.requests[i] == s.requests[i])
        && (forall i :: i in s'.requests ==> i in s.requests || i == id)
  {
    NextIsFree(s);
  }

  // The id the i-th event's request gets.
  ghost function ArrivalId(cfg: Config, s: Sched, events: seq<Event>, i: nat): nat
    requires i < |events|
  {
    PlayAll(cfg, s, events[..i]).nextId
  }

  lemma PlayIds(cfg: Config, s: Sched, e: Event, exact: bool)
    requires Standing(cfg, s, exact) && Acceptable(cfg, e, exact)
    ensures Play(cfg, s, e).nextId >= s.nextId
    ensures Accepted(cfg, e) ==> Play(cfg, s, e).nextId > s.nextId
  {
    hide Settled, Wedged, Acceptable, Step, Steppable, Interrupted;
    match e
    case Arrive(_, _, _, _, _, _) =>
    case Collect =>
    case Tick =>
      if Wedged(cfg, s) {
        WedgedRaises(cfg, s);
      } else {
        RaiseWedges(cfg, s, exact);
        var ps := StepOk(cfg, s, exact);
      }
  }

  // Later arrivals get larger ids.
  lemma {:induction false} LaterIds(cfg: Config, s: Sched, events: seq<Event>, i: nat, exact: bool)
    requires Standing(cfg, s, exact) && forall e :: e in events ==> Acceptable(cfg, e, exact)
    requires i < |events| && Accepted(cfg, events[i])
    ensures ArrivalId(cfg, s, events, i) < PlayAll(cfg, s, events).nextId
  {
    hide Standing, Acceptable, Play, Accepted;
    var n := |events| - 1;
    assert events[n] in events && forall e :: e in events[..n] ==> e in events;
    RunsKeep(cfg, s, events[..n], exact);
    PlayIds(cfg, PlayAll(cfg, s, events[..n]), events[n], exact);
    if i < n {
      assert events[..n][..i] == events[..i];
      LaterIds(cfg, s, events[..n], i, exact);
    }
  }

  /** Over every run, each accepted arrival's request is known under its own id from then on, with the prompt, limit,
      parameters, end-of-sequence token and priority it arrived with. */
  lemma {:induction false} ArrivalsStay(cfg: Config, s: Sched, events: seq<Event>, i: nat, exact: bool)
    requires Standing(cfg, s, exact) && forall e :: e in events ==> Acceptable(cfg, e, exact)
    requires i < |events| && Accepted(cfg, events[i])
    ensures var id, s' := ArrivalId(cfg, s, events, i), PlayAll(cfg, s, events);
      id in s'.requests && AsGiven(s'.requests[id], events[i])
  {
    hide Standing, Acceptable, Play, Queues, Steppable, Accounted;
    var n := |events| - 1;
    assert events[n] in events && forall e :: e in events[..n] ==> e in events;
    RunsKeep(cfg, s, events[..n], exact);
    if i == n {
      ArrivalJoins(cfg, PlayAll(cfg, s, events[..n]), events[n]);
    } else {
      assert events[..n][..i] == events[..i];
      ArrivalsStay(cfg, s, events[..n], i, exact);
      PlayKeepsRequest(cfg, PlayAll(cfg, s, events[..n]), events[n], ArrivalId(cfg, s, events, i), exact);
    }
  }

  // ---------- who is admitted first ----------

  ghost predicate StillWaiting(s: Sched, id: nat) {
    id in s.requests && s.requests[id].status == Waiting
  }

  lemma WaitingQueued(s: Sched, id: nat)
    requires Queues(s)
    ensures StillWaiting(s, id) <==> id in s.waiting
  {
  }

  // The request under a goes first.
  ghost predicate GoesFirst(s: Sched, a: nat, b: nat) {
    && a in s.requests && b in s.requests
    && (s.requests[a].priority > s.requests[b].priority ||
         (s.requests[a].priority == s.requests[b].priority && a < b))
  }

  // Of two requests that wait, one event does not admit the one behind and leave the one in front.
  lemma PlayAdmits(cfg: Config, s: Sched, e: Event, a: nat, b: nat, exact: bool)
    requires Standing(cfg, s, exact) && Acceptable(cfg, e, exact) && GoesFirst(s, a, b)
    requires StillWaiting(s, b) && StillWaiting(Play(cfg, s, e), a)
    ensures StillWaiting(Play(cfg, s, e), b)
  {
    hide Settled, Wedged, Acceptable, Step, Steppable, Interrupted, Standing, Queues;
    var s' := Play(cfg, s, e);
    PlayKeeps(cfg, s, e, exact);
    StandingFacts(cfg, s, exact);
    StandingFacts(cfg, s', exact);
    PlayKeepsRequest(cfg, s, e, a, exact);
    PlayKeepsRequest(cfg, s, e, b, exact);
    WaitingQueued(s, b);
    WaitingQueued(s, a);
    WaitingQueued(s', a);
    WaitingQueued(s', b);
    match e
    case Arrive(_, _, _, _, _, _) => ArrivalJoins(cfg, s, e);
    case Collect =>
    case Tick => TickAdmits(cfg, s, a, b, exact);
  }

  lemma TickAdmits(cfg: Config, s: Sched, a: nat, b: nat, exact: bool)
    requires Standing(cfg, s, exact) && GoesFirst(s, a, b)
    requires b in s.waiting && a in Play(cfg, s, Tick).waiting
    ensures b in Play(cfg, s, Tick).waiting
  {
    hide Settled, Wedged, Step, Steppable, Interrupted;
    if Wedged(cfg, s) {
      WedgedRaises(cfg, s);
    } else {
      RaiseWedges(cfg, s, exact);
      StepServes(cfg, s, exact);
    }
  }

  /** Over every run, of two arrivals that wait at the same time the one with the higher given priority, or the earlier
      of two with equal priority, is never admitted after the other. */
  lemma {:induction false} AdmittedByPriority(cfg: Config, s: Sched, events: seq<Event>, i: nat, j: nat, n: nat,
                                              exact: bool)
    requires Standing(cfg, s, exact) && forall e :: e in events ==> Acceptable(cfg, e, exact)
    requires i < n <= |events| && j < n && Accepted(cfg, events[i]) && Accepted(cfg, events[j])
    requires events[i].priority > events[j].priority || (events[i].priority == events[j].priority && i < j)
    requires StillWaiting(PlayAll(cfg, s, events[..n]), ArrivalId(cfg, s, events, j))
    requires StillWaiting(PlayAll(cfg, s, events), ArrivalId(cfg, s, events, i))
    ensures StillWaiting(PlayAll(cfg, s, events), ArrivalId(cfg, s, events, j))
    decreases |events|
  {
    hide Standing, Acceptable, Play, Accepted, StillWaiting, Accounted, Queues, Steppable;
    var a, b := ArrivalId(cfg, s, events, i), ArrivalId(cfg, s, events, j);
    if n == |events| {
      assert events[..n] == events;
    } else {
      var m := |events| - 1;
      var before := events[..m];
      assert events[m] in events && forall e :: e in before ==> e in events;
      assert before[..n] == events[..n] && before[..i] == events[..i] && before[..j] == events[..j];
      RunsKeep(cfg, s, before, exact);
      ArrivalsStay(cfg, s, before, i, exact);
      ArrivalsStay(cfg, s, before, j, exact);
      WaitedBefore(cfg, PlayAll(cfg, s, before), events[m], a, exact);
      AdmittedByPriority(cfg, s, before, i, j, n, exact);
      if i < j {
        assert forall e :: e in events[..j] ==> e in events;
        assert events[..j][..i] == events[..i];
        LaterIds(cfg, s, events[..j], i, exact);
      }
      PlayAdmits(cfg, PlayAll(cfg, s, before), events[m], a, b, exact);
    }
  }

  // A request never goes back to waiting.
  lemma WaitedBefore(cfg: Config, s: Sched, e: Event, id: nat, exact: bool)
    requires Standing(cfg, s, exact) && Acceptable(cfg, e, exact) && id in s.requests
    requires StillWaiting(Play(cfg, s, e), id)
    ensures StillWaiting(s, id)
  {
    hide Standing, Acceptable, Play;
    PlayKeepsRequest(cfg, s, e, id, exact);
  }

  // ---------- where outputs end ----------

  // Every output is within its limits.
  ghost predicate AllWithin(s: Sched) {
    forall id :: id in s.requests ==> WithinLimits(s.requests[id].outputs, s.requests[id].maxNew, s.requests[id].eos)
  }

  // A step's one token leaves an output within its limits.
  lemma StepWithin(cfg: Config, req: Request, req': Request, exact: bool)
    requires Sane(cfg, req, exact) && StepOf(req, req') && WithinLimits(req.outputs, req.maxNew, req.eos)
    ensures WithinLimits(req'.outputs, req'.maxNew, req'.eos)
  {
    hide Choosable, Brought, WithinLimits;
    if req'.outputs != req.outputs {
      OneMoreWithin(req.outputs, Latest(req'), req.maxNew, req.eos);
    }
  }

  lemma PlayWithin(cfg: Config, s: Sched, e: Event, exact: bool)
    requires Standing(cfg, s, exact) && Acceptable(cfg, e, exact) && AllWithin(s)
    ensures AllWithin(Play(cfg, s, e))
  {
    hide Settled, Wedged, Acceptable, Step, Steppable, Interrupted, Queues, StepOf, WithinLimits, Standing, AsGiven;
    StandingFacts(cfg, s, exact);
    match e
    case Arrive(_, maxNew, _, eos, _, _) =>
      ArrivalJoins(cfg, s, e);
      NothingWithin(maxNew, eos);
    case Collect =>
    case Tick => TickWithin(cfg, s, exact);
  }

  lemma NothingWithin(maxNew: int, eos: Option<int>)
    ensures WithinLimits([], maxNew, eos)
  {
  }

  lemma TickWithin(cfg: Config, s: Sched, exact: bool)
    requires Standing(cfg, s, exact) && AllWithin(s)
    ensures AllWithin(Play(cfg, s, Tick))
  {
    hide Settled, Wedged, Step, Steppable, Interrupted, StepOf, WithinLimits, Sane;
    StandingFacts(cfg, s, exact);
    if Wedged(cfg, s) {
      WedgedRaises(cfg, s);
    } else {
      RaiseWedges(cfg, s, exact);
      StepServes(cfg, s, exact);
      if Step(cfg, s).Ok? {
        var s' := Step(cfg, s).value;
        forall id | id in s'.requests
          ensures WithinLimits(s'.requests[id].outputs, s'.requests[id].maxNew, s'.requests[id].eos)
        {
          assert id in s'.requests.Keys;
          StepWithin(cfg, s.requests[id], s'.requests[id], false);
        }
      }
    }
  }

  lemma {:induction false} RunsStayWithin(cfg: Config, s: Sched, events: seq<Event>, exact: bool)
    requires Standing(cfg, s, exact) && AllWithin(s) && forall e :: e in events ==> Acceptable(cfg, e, exact)
    ensures AllWithin(PlayAll(cfg, s, events)) && Standing(cfg, PlayAll(cfg, s, events), exact)
  {
    hide Standing, Acceptable, Play, AllWithin;
    RunsKeep(cfg, s, events, exact);
    if events != [] {
      var n := |events| - 1;
      assert events[n] in events && forall e :: e in events[..n] ==> e in events;
      RunsStayWithin(cfg, s, events[..n], exact);
      PlayWithin(cfg, PlayAll(cfg, s, events[..n]), events[n], exact);
    }
  }

  lemma FinishedIsWhole(cfg: Config, req: Request, exact: bool)
    requires Sane(cfg, req, exact) && WithinLimits(req.outputs, req.maxNew, req.eos)
    ensures req.status == Finished <==> WholeOutput(req.outputs, req.maxNew, req.eos)
  {
    hide Choosable, Brought, WithinLimits, WholeOutput;
    if req.outputs != [] {
      StopsWhenWhole(req.outputs, req.maxNew, req.eos);
    } else {
      assert !WholeOutput(req.outputs, req.maxNew, req.eos) by { NothingIsNotWhole(req.maxNew, req.eos); }
    }
  }

  lemma NothingIsNotWhole(maxNew: int, eos: Option<int>)
    ensures !WholeOutput([], maxNew, eos)
  {
  }

  /** Over every run, whatever the sampling parameters: no output goes past its limit or past its end-of-sequence
      token, and a request has finished exactly when its output is at the one or the other. */
  lemma OutputsEnd(cfg: Config, numBlocks: nat, blockSize: pos, store: Store, events: seq<Event>, exact: bool)
    requires Shape(cfg.net, store, numBlocks * blockSize)
    requires forall e :: e in events ==> Acceptable(cfg, e, exact)
    ensures var s := PlayAll(cfg, EmptySched(numBlocks, blockSize, store), events);
      forall id :: id in s.requests ==> var req := s.requests[id];
        && WithinLimits(req.outputs, req.maxNew, req.eos)
        && (req.status == Finished <==> WholeOutput(req.outputs, req.maxNew, req.eos))
  {
    hide Settled, Wedged, Acceptable, PlayAll, Shape, WithinLimits, WholeOutput, Sane;
    var s0 := EmptySched(numBlocks, blockSize, store);
    EmptySettled(cfg, numBlocks, blockSize, store, exact);
    RunsStayWithin(cfg, s0, events, exact);
    var s := PlayAll(cfg, s0, events);
    StandingFacts(cfg, s, exact);
    forall id | id in s.requests
      ensures s.requests[id].status == Finished <==>
        WholeOutput(s.requests[id].outputs, s.requests[id].maxNew, s.requests[id].eos)
    {
      FinishedIsWhole(cfg, s.requests[id], false);
    }
  }

  // ---------- an exception is for good ----------

  lemma WedgedPlays(cfg: Config, s: Sched, e: Event, exact: bool)
    requires Wedged(cfg, s) && Acceptable(cfg, e, exact)
    ensures Wedged(cfg, Play(cfg, s, e))
    ensures forall id :: id in s.requests ==>
      id in Play(cfg, s, e).requests && Play(cfg, s, e).requests[id] == s.requests[id]
  {
    hide Wedged, Queues, Step, Interrupted, Acceptable;
    PlayKeeps(cfg, s, e, exact);
    WedgedRaises(cfg, s);
    WedgedQueues(cfg, s);
    NextIsFree(s);
  }

  lemma WedgedQueues(cfg: Config, s: Sched)
    requires Wedged(cfg, s)
    ensures Queues(s)
  {
  }

  /** Once a step has raised, whatever arrives and however often the exception is caught and the engine stepped
      again, every further step raises and no request ever gets another token. */
  lemma {:induction false} RaiseIsForGood(cfg: Config, s: Sched, events: seq<Event>, exact: bool)
    requires Wedged(cfg, s) && forall e :: e in events ==> Acceptable(cfg, e, exact)
    ensures var s' := PlayAll(cfg, s, events);
      && Wedged(cfg, s') && Steppable(s') && Step(cfg, s').Err?
      && forall id :: id in s.requests ==> id in s'.requests && s'.requests[id] == s.requests[id]
  {
    hide Wedged, Acceptable, Play, Step, Steppable;
    if events != [] {
      var n := |events| - 1;
      assert events[n] in events && forall e :: e in events[..n] ==> e in events;
      RaiseIsForGood(cfg, s, events[..n], exact);
      WedgedPlays(cfg, PlayAll(cfg, s, events[..n]), events[n], exact);
    }
    WedgedRaises(cfg, PlayAll(cfg, s, events));
  }

  // ---------- greedy requests ----------

  // Every request samples greedily and its output is on its own greedy path.
  ghost predicate AllGreedy(net: Net, s: Sched) {
    forall id :: id in s.requests ==> GreedyRequest(net, s.requests[id])
  }

  ghost predicate GreedyRequest(net: Net, req: Request) {
    |req.prompt| > 0 && req.params.Greedy() && OnPath(net, req.prompt, req.outputs, req.maxNew, req.eos)
  }

  // A running request's next greedy token keeps it on its path.
  lemma TokenOnPath(cfg: Config, req: Request, exact: bool)
    requires Sane(cfg, req, exact) && GreedyRequest(cfg.net, req) && req.status != Finished
    ensures |Context(req)| > 0
    ensures OnPath(cfg.net, req.prompt, req.outputs + [Next(cfg.net, Context(req))], req.maxNew, req.eos)
  {
    hide OnPath, Next, Choosable, Brought;
    OnPathSnoc(cfg.net, req.prompt, req.outputs, req.maxNew, req.eos);
  }

  lemma GreedyRow(cfg: Config, params: SamplingParams, draw: nat, toks: seq<int>)
    requires params.Greedy() && |toks| > 0
    ensures SampleRow(cfg, params, draw, Logits(cfg.net, toks)) == Next(cfg.net, toks)
  {
  }

  // With every request greedy, whoever comes first in the batch, each gets its own next greedy token.
  lemma StepStaysGreedy(cfg: Config, s: Sched)
    requires Settled(cfg, s, true) && AllGreedy(cfg.net, s)
    ensures Steppable(s) && (Step(cfg, s).Ok? ==> AllGreedy(cfg.net, Step(cfg, s).value))
  {
    hide MidOk, Settled, OwnChoices, RowsMatch, Picked, TokensOf, OnPath, Context, MovesOn, WithToken, TokensGiven,
      Sampled, RunningBatched;
    var ps := StepOk(cfg, s, true);
    StepChooses(cfg, s);
    if Step(cfg, s).Ok? {
      var m, s' := Build(cfg, s).value, Step(cfg, s).value;
      BatchSampled(cfg, m, ps, true);
      StepKeys(s, m.s, s');
      SameKeys(s, m.s);
      TokensCount(cfg, m.s, m.flat);
      var batch, tokens := Picked(m.flat.ids, m.flat.sampled), TokensOf(cfg, m.s, m.flat);
      forall id | id in s'.requests
        ensures GreedyRequest(cfg.net, s'.requests[id])
      {
        SettledSane(cfg, s, id, true);
        GreedyAfter(cfg, s, m.s, s', batch, tokens, id);
      }
    }
  }

  lemma SettledSane(cfg: Config, s: Sched, id: nat, exact: bool)
    requires Settled(cfg, s, exact) && id in s.requests
    ensures Sane(cfg, s.requests[id], exact)
  {
  }

  lemma TokensCount(cfg: Config, s: Sched, flat: Flat)
    requires RowsMatch(s, flat)
    ensures |TokensOf(cfg, s, flat)| == |Picked(flat.ids, flat.sampled)|
  {
  }

  lemma GreedyAfter(cfg: Config, s: Sched, mid: Sched, s': Sched, batch: seq<nat>, tokens: seq<int>, id: nat)
    requires AllGreedy(cfg.net, s) && AllMoveOn(s, mid) && TokensGiven(mid.requests, s'.requests)
    requires id in s.requests && id in mid.requests && id in s'.requests && Sane(cfg, s.requests[id], true)
    requires |tokens| == |batch| && (forall i :: i in batch <==> i in mid.requests && mid.requests[i].status == Running)
    requires OwnChoices(cfg, mid, batch, tokens)
    requires forall j :: 0 <= j < |batch| ==>
      && batch[j] in s.requests && batch[j] in s'.requests
      && s'.requests[batch[j]].outputs == s.requests[batch[j]].outputs + [tokens[j]]
    ensures GreedyRequest(cfg.net, s'.requests[id])
  {
    hide OnPath, Next, Logits, SampleRow, Choosable, Brought, Sane;
    var req := s.requests[id];
    assert GreedyRequest(cfg.net, req) && MovesOn(req, mid.requests[id]);
    if mid.requests[id].status == Running {
      var j :| 0 <= j < |batch| && batch[j] == id;
      assert batch[0] in batch;
      assert GreedyRequest(cfg.net, s.requests[batch[0]]) && MovesOn(s.requests[batch[0]], mid.requests[batch[0]]);
      GreedyToken(cfg, req, mid.requests[id], mid.requests[batch[0]].params, mid.drawn + j, tokens[j]);
    }
  }

  // A token picked by greedy parameters keeps a greedy request on its path.
  lemma GreedyToken(cfg: Config, req: Request, mid: Request, params: SamplingParams, draw: nat, token: int)
    requires Sane(cfg, req, true) && GreedyRequest(cfg.net, req) && MovesOn(req, mid) && mid.status == Running
    requires params.Greedy() && |Context(mid)| > 0
    requires token == SampleRow(cfg, params, draw, Logits(cfg.net, Context(mid)))
    ensures OnPath(cfg.net, req.prompt, req.outputs + [token], req.maxNew, req.eos)
  {
    hide OnPath, Next, Logits, SampleRow, Choosable, Brought;
    GreedyRow(cfg, params, draw, Context(mid));
    assert Context(mid) == Context(req);
    TokenOnPath(cfg, req, true);
  }

  // Arrivals that sample greedily.
  ghost predicate GreedyEvent(e: Event) {
    e.Arrive? ==> e.params.Greedy()
  }

  lemma PlayStaysGreedy(cfg: Config, s: Sched, e: Event)
    requires Standing(cfg, s, true) && AllGreedy(cfg.net, s) && Acceptable(cfg, e, true) && GreedyEvent(e)
    ensures AllGreedy(cfg.net, Play(cfg, s, e))
  {
    hide Settled, Wedged, Step, Steppable, Interrupted, OnPath, Next;
    match e
    case Arrive(prompt, maxNew, params, eos, _, _) =>
      assert OnPath(cfg.net, prompt, [], maxNew, eos) by { OnPathNothing(cfg.net, prompt, maxNew, eos); }
    case Collect =>
    case Tick =>
      if Wedged(cfg, s) {
        WedgedRaises(cfg, s);
      } else {
        StepStaysGreedy(cfg, s);
        RaiseWedges(cfg, s, true);
      }
  }

  lemma OnPathNothing(net: Net, prompt: seq<int>, maxNew: int, eos: Option<int>)
    requires |prompt| > 0
    ensures OnPath(net, prompt, [], maxNew, eos)
  {
  }

  lemma {:induction false} RunsStayGreedy(cfg: Config, s: Sched, events: seq<Event>)
    requires Standing(cfg, s, true) && AllGreedy(cfg.net, s)
    requires forall e :: e in events ==> Acceptable(cfg, e, true) && GreedyEvent(e)
    ensures AllGreedy(cfg.net, PlayAll(cfg, s, events)) && Standing(cfg, PlayAll(cfg, s, events), true)
  {
    hide Standing, Acceptable, Play, AllGreedy, GreedyEvent;
    RunsKeep(cfg, s, events, true);
    if events != [] {
      var n := |events| - 1;
      assert events[n] in events && forall e :: e in events[..n] ==> e in events;
      RunsStayGreedy(cfg, s, events[..n]);
      PlayStaysGreedy(cfg, PlayAll(cfg, s, events[..n]), events[n]);
    }
  }

  /** Every request's output so far is a prefix of its own solo greedy generation, and all of it once the
      request has finished. */
  ghost predicate Transparent(net: Net, s: Sched) {
    forall id :: id in s.requests ==> var req := s.requests[id];
      && |req.prompt| > 0
      && req.outputs <= Generate(net, req.prompt, req.maxNew, req.eos)
      && (req.status == Finished ==> req.outputs == Generate(net, req.prompt, req.maxNew, req.eos))
  }

  lemma GreedyIsTransparent(cfg: Config, s: Sched)
    requires AllGreedy(cfg.net, s) && forall id :: id in s.requests ==> Sane(cfg, s.requests[id], false)
    ensures Transparent(cfg.net, s)
  {
    hide Extend, Next;
    forall id | id in s.requests
      ensures var req := s.requests[id];
        && |req.prompt| > 0
        && req.outputs <= Generate(cfg.net, req.prompt, req.maxNew, req.eos)
        && (req.status == Finished ==> req.outputs == Generate(cfg.net, req.prompt, req.maxNew, req.eos))
    {
      var req := s.requests[id];
      assert Sane(cfg, req, false) && GreedyRequest(cfg.net, req);
      if req.outputs != [] {
        OnPathIsPrefix(cfg.net, req.prompt, req.outputs, req.maxNew, req.eos);
      }
    }
  }

  /** Continuous batching is transparent: over every run, whatever arrives when, with whatever budget, chunk
      size, priorities and exact transferred prefixes, and whether or not a step has raised, each greedy
      request gets what it would have got alone. */
  lemma BatchingIsTransparent(cfg: Config, numBlocks: nat, blockSize: pos, store: Store, events: seq<Event>)
    requires Shape(cfg.net, store, numBlocks * blockSize)
    requires forall e :: e in events ==> Acceptable(cfg, e, true) && GreedyEvent(e)
    ensures Transparent(cfg.net, PlayAll(cfg, EmptySched(numBlocks, blockSize, store), events))
  {
    hide Acceptable, PlayAll, Transparent, Shape, Accounted, GreedyEvent, Settled, Wedged, AllGreedy;
    var s := EmptySched(numBlocks, blockSize, store);
    EmptySettled(cfg, numBlocks, blockSize, store, true);
    assert AllGreedy(cfg.net, s) by { NobodyGreedy(cfg.net, s); }
    RunsStayGreedy(cfg, s, events);
    StandingFacts(cfg, PlayAll(cfg, s, events), true);
    GreedyIsTransparent(cfg, PlayAll(cfg, s, events));
  }

  lemma NobodyGreedy(net: Net, s: Sched)
    requires s.requests == map[]
    ensures AllGreedy(net, s)
  {
  }
}
