// The two worker processes and their queues as interleaved steps.
module Pipeline {
  import opened Wrappers
  import opened Reference
  import opened Sampling
  import opened Chance
  import opened Decoding
  import opened BlockPool
  import opened Portable
  import Seating

  datatype Job = Job(rid: int, prompt: seq<int>)
  datatype Payload = Payload(rid: int, prompt: seq<int>, kv: PortableKv, first: int)
  datatype Answer = Answer(rid: int, out: seq<int>)

  // What travels in a queue: an item, or the None that stops the worker.
  datatype Message<T> = Item(item: T) | Stop

  /** Both workers have pools of the same size and the same sampling parameters; each draws from a random
      generator of its own. */
  datatype Setup = Setup(net: Net, exp: real -> real, params: SamplingParams, prefillOracle: Oracle,
    decodeOracle: Oracle, maxNew: int, eos: Option<int>, blockSize: pos, numBlocks: nat)

  // How far `shutdown` has come.
  datatype Phase = Open | Stopping | PrefillJoined | Draining | Closed

  /** `submitted` is history, and so is `closedAt`: how much of it came before the shutdown; `gaveUp` records that
      a join timed out.  A worker that raises exits with its job still in hand. */
  datatype State = State(
    submitted: seq<Job>,
    requests: seq<Message<Job>>,
    prefillHand: Option<Job>,
    prefillExited: bool,
    prefillFailed: bool,
    payloads: seq<Message<Payload>>,
    decodeHand: Option<Payload>,
    decodeExited: bool,
    decodeFailed: bool,
    answers: seq<Answer>,
    phase: Phase,
    closedAt: nat,
    gaveUp: bool)

  const START := State([], [], None, false, false, [], None, false, false, [], Open, 0, false)

  // ---------- what is where ----------

  function JobOf(p: Payload): Job {
    Job(p.rid, p.prompt)
  }

  function JobsOf(ps: seq<Payload>): (jobs: seq<Job>)
    ensures |jobs| == |ps|
  {
    seq(|ps|, i requires 0 <= i < |ps| => JobOf(ps[i]))
  }

  function ItemsOf<T>(q: seq<Message<T>>): seq<T> {
    if q == [] then [] else (if q[0].Item? then [q[0].item] else []) + ItemsOf(q[1..])
  }

  // The items that come before the stop message.
  function BeforeStop<T>(q: seq<Message<T>>): seq<T> {
    if q == [] || q[0].Stop? then [] else [q[0].item] + BeforeStop(q[1..])
  }

  function Held<T>(h: Option<T>): seq<T> {
    if h.Some? then [h.value] else []
  }

  // What has been prefilled and not yet answered, oldest first.
  function Passed(s: State): seq<Payload> {
    Held(s.decodeHand) + ItemsOf(s.payloads)
  }

  // Everything not yet answered, oldest first.
  function InFlight(s: State): seq<Job> {
    JobsOf(Passed(s)) + Held(s.prefillHand) + ItemsOf(s.requests)
  }

  // How many jobs have been prefilled.
  function Sent(s: State): nat {
    |s.answers| + |Passed(s)|
  }

  // ---------- what the stages compute (Disaggregated.dfy proves the methods compute it) ----------

  // The i-th payload: its first token is the prefill worker's choice after those for the jobs before.
  ghost function Prefilled(setup: Setup, i: nat, job: Job): Payload
    requires |job.prompt| > 0
  {
    Payload(job.rid, job.prompt, PortableOf(setup.net, job.prompt),
            Choose(Sampler(setup.exp, setup.params, setup.prefillOracle), Draws(setup.params, i),
              Logits(setup.net, job.prompt)))
  }

  // The answer to an exact payload when the decode worker has used `d` random choices.
  ghost function Generated(setup: Setup, d: nat, p: Payload): Answer
    requires |p.prompt| > 0
  {
    Answer(p.rid, Continue(setup.net, Sampler(setup.exp, setup.params, setup.decodeOracle), d, p.prompt, [p.first],
                           setup.maxNew, setup.eos))
  }

  // The random choices these answers have used: one for every token but the first.
  function Drawn(params: SamplingParams, answers: seq<Answer>): nat {
    if answers == [] then 0
    else
      var n := |answers[|answers| - 1].out|;
      Drawn(params, answers[..|answers| - 1]) + Draws(params, if n > 0 then n - 1 else 0)
  }

  // The decode worker sees only the payload: from exact keys and values it generates, otherwise anything.
  ghost predicate DecodesTo(setup: Setup, d: nat, p: Payload, a: Answer) {
    |p.prompt| > 0 && p.kv == PortableOf(setup.net, p.prompt) ==> a == Generated(setup, d, p)
  }

  // The pool is too small for the prompt, or for the longest context of the job.
  predicate PrefillTooLong(setup: Setup, job: Job) {
    BlocksNeeded(setup.blockSize, |job.prompt|) > setup.numBlocks
  }

  predicate DecodeTooLong(setup: Setup, job: Job) {
    Seating.Peak(setup.blockSize, |job.prompt|, setup.maxNew) > setup.numBlocks
  }

  // ---------- steps ----------

  datatype Action =
    | Submit(job: Job)
    | TakeRequest
    | SendPayload
    | PrefillFails
    | TakePayload
    | PutAnswer(answer: Answer)
    | DecodeFails
    | Shutdown
    | JoinPrefill
    | StopDecode
    | JoinDecode
    | TimeOut

  ghost predicate Step(setup: Setup, s: State, a: Action, s': State) {
    match a
    case Submit(job) =>
      |job.prompt| > 0 && s' == s.(submitted := s.submitted + [job], requests := s.requests + [Item(job)])
    case TakeRequest =>
      s.requests != [] && s.prefillHand.None? && !s.prefillExited
      && s' == (match s.requests[0]
                case Item(job) => s.(requests := s.requests[1..], prefillHand := Some(job))
                case Stop => s.(requests := s.requests[1..], prefillExited := true))
    case SendPayload =>
      s.prefillHand.Some? && !s.prefillExited && |s.prefillHand.value.prompt| > 0
      && s' == s.(prefillHand := None,
                  payloads := s.payloads + [Item(Prefilled(setup, Sent(s), s.prefillHand.value))])
    case PrefillFails =>
      s.prefillHand.Some? && !s.prefillExited && PrefillTooLong(setup, s.prefillHand.value)
      && s' == s.(prefillExited := true, prefillFailed := true)
    case TakePayload =>
      s.payloads != [] && s.decodeHand.None? && !s.decodeExited
      && s' == (match s.payloads[0]
                case Item(p) => s.(payloads := s.payloads[1..], decodeHand := Some(p))
                case Stop => s.(payloads := s.payloads[1..], decodeExited := true))
    case PutAnswer(answer) =>
      s.decodeHand.Some? && !s.decodeExited
      && DecodesTo(setup, Drawn(setup.params, s.answers), s.decodeHand.value, answer)
      && s' == s.(decodeHand := None, answers := s.answers + [answer])
    case DecodeFails =>
      s.decodeHand.Some? && !s.decodeExited && DecodeTooLong(setup, JobOf(s.decodeHand.value))
      && s' == s.(decodeExited := true, decodeFailed := true)
    case Shutdown =>
      s.phase == Open && s' == s.(phase := Stopping, requests := s.requests + [Stop], closedAt := |s.submitted|)
    case JoinPrefill =>
      s.phase == Stopping && s.prefillExited && s' == s.(phase := PrefillJoined)
    case StopDecode =>
      s.phase == PrefillJoined && s' == s.(phase := Draining, payloads := s.payloads + [Stop])
    case JoinDecode =>
      s.phase == Draining && s.decodeExited && s' == s.(phase := Closed)
    case TimeOut =>
      (s.phase == Stopping && s' == s.(phase := PrefillJoined, gaveUp := true))
      || (s.phase == Draining && s' == s.(phase := Closed, gaveUp := true))
  }

  ghost predicate Run(setup: Setup, actions: seq<Action>, states: seq<State>) {
    && |states| == |actions| + 1 && states[0] == START
    && forall i :: 0 <= i < |actions| ==> Step(setup, states[i], actions[i], states[i + 1])
  }

  // ---------- what holds in every state ----------

  // Each job has its own answer: the single-process generation from the random choices that are its turn.
  ghost predicate Answered(setup: Setup, jobs: seq<Job>, answers: seq<Answer>) {
    && |answers| == |jobs|
    && forall i :: 0 <= i < |jobs| ==>
      |jobs[i].prompt| > 0
      && answers[i] == Generated(setup, Drawn(setup.params, answers[..i]), Prefilled(setup, i, jobs[i]))
  }

  // The payloads are exact, the first of them being the i-th sent.
  ghost predicate ExactLine(setup: Setup, ps: seq<Payload>, i: nat) {
    forall k :: 0 <= k < |ps| ==> |ps[k].prompt| > 0 && ps[k] == Prefilled(setup, i + k, JobOf(ps[k]))
  }

  /** Conservation: the answers so far, in order, are those of the first submissions, and the jobs in the
      decode worker's hand, the payload queue, the prefill worker's hand and the request queue are exactly
      the remaining submissions, in order. */
  ghost predicate Conserved(setup: Setup, s: State) {
    && |s.answers| <= |s.submitted|
    && Answered(setup, s.submitted[..|s.answers|], s.answers)
    && InFlight(s) == s.submitted[|s.answers|..]
    && (forall i :: 0 <= i < |s.submitted| ==> |s.submitted[i].prompt| > 0)
    && ExactLine(setup, Passed(s), |s.answers|)
    && (s.prefillHand.Some? ==> |s.prefillHand.value.prompt| > 0)
  }

  // How many more jobs the prefill worker will see: once it has read its stop message none, before that those
  // in front of it.
  function Due(s: State): nat {
    if s.prefillExited && !s.prefillFailed then 0 else |Held(s.prefillHand)| + |BeforeStop(s.requests)|
  }

  // The jobs submitted before the shutdown are accounted for.
  ghost predicate Timely(s: State) {
    && (s.phase == Open ==> Stop !in s.requests && (s.prefillExited ==> s.prefillFailed))
    && (s.phase != Open ==>
          && s.closedAt <= |s.submitted| && Sent(s) + Due(s) == s.closedAt
          && (Stop in s.requests || (s.prefillExited && !s.prefillFailed)))
    && (s.prefillExited && !s.prefillFailed ==> s.prefillHand.None?)
    && (s.prefillFailed ==> s.prefillExited && s.prefillHand.Some?)
  }

  // Where the decode worker's stop message is.  As long as no join has timed out and no worker has failed, it is
  // the last thing in its queue.
  ghost predicate Stops(s: State) {
    && (s.phase in {Open, Stopping, PrefillJoined} ==>
          (s.decodeExited ==> s.decodeFailed) && Stop !in s.payloads)
    && (s.phase in {Draining, Closed} ==> s.decodeExited || Stop in s.payloads)
    && (!s.gaveUp && !s.prefillFailed && !s.decodeFailed ==>
          && (s.phase in {PrefillJoined, Draining, Closed} ==> s.prefillExited && s.prefillHand.None?)
          && (forall i :: 0 <= i < |s.payloads| - 1 ==> s.payloads[i].Item?)
          && (s.decodeExited ==> s.payloads == [] && s.decodeHand.None?)
          && (s.phase == Closed ==> s.decodeExited))
  }

  // ---------- queues ----------

  lemma {:induction false} ItemsSnoc<T>(q: seq<Message<T>>, m: Message<T>)
    ensures ItemsOf(q + [m]) == ItemsOf(q) + (if m.Item? then [m.item] else [])
  {
    if q != [] {
      assert (q + [m])[1..] == q[1..] + [m];
      ItemsSnoc(q[1..], m);
    }
  }

  // Behind the stop message nothing matters any more; without one everything is in front.
  lemma {:induction false} BeforeStopSnoc<T>(q: seq<Message<T>>, m: Message<T>)
    ensures Stop in q ==> BeforeStop(q + [m]) == BeforeStop(q)
    ensures Stop !in q ==> BeforeStop(q) == ItemsOf(q) && BeforeStop(q + [m]) == ItemsOf(q + [m])
    ensures Stop in q + [m] <==> Stop in q || m == Stop
  {
    assert (q + [m])[|q|] == m;
    if q != [] {
      assert (q + [m])[1..] == q[1..] + [m];
      assert q == [q[0]] + q[1..] && q + [m] == [q[0]] + (q[1..] + [m]);
      BeforeStopSnoc(q[1..], m);
    } else {
      assert q + [m] == [m];
      assert [m][1..] == [];
      assert BeforeStop<T>([]) == [] && ItemsOf<T>([]) == [];
    }
  }

  lemma JobsConcat(a: seq<Payload>, b: seq<Payload>)
    ensures JobsOf(a + b) == JobsOf(a) + JobsOf(b)
  {
  }

  lemma TakeItem<T>(q: seq<Message<T>>)
    requires q != []
    ensures ItemsOf(q) == (if q[0].Item? then [q[0].item] else []) + ItemsOf(q[1..])
    ensures BeforeStop(q) == if q[0].Item? then [q[0].item] + BeforeStop(q[1..]) else []
    ensures q[0].Item? ==> (Stop in q <==> Stop in q[1..])
    ensures q[0].Stop? ==> Stop in q
  {
    assert q == [q[0]] + q[1..];
  }

  // ---------- every step keeps the line ----------

  // What a step does to the payloads and to everything in flight.
  ghost predicate LineMoves(setup: Setup, s: State, a: Action, s': State) {
    match a
    case Submit(job) => Passed(s') == Passed(s) && InFlight(s') == InFlight(s) + [job]
    case SendPayload =>
      && s.prefillHand.Some? && |s.prefillHand.value.prompt| > 0
      && Passed(s') == Passed(s) + [Prefilled(setup, Sent(s), s.prefillHand.value)] && InFlight(s') == InFlight(s)
    case PutAnswer(_) =>
      && s.decodeHand.Some? && Passed(s) == [s.decodeHand.value] + Passed(s')
      && InFlight(s) == [JobOf(s.decodeHand.value)] + InFlight(s')
    case _ => Passed(s') == Passed(s) && InFlight(s') == InFlight(s)
  }

  lemma SubmitLine(s: State, m: Message<Job>, s': State)
    requires s'.requests == s.requests + [m] && s'.prefillHand == s.prefillHand
    requires s'.payloads == s.payloads && s'.decodeHand == s.decodeHand
    ensures Passed(s') == Passed(s) && InFlight(s') == InFlight(s) + (if m.Item? then [m.item] else [])
  {
    ItemsSnoc(s.requests, m);
    var x, y, z := JobsOf(Passed(s)) + Held(s.prefillHand), ItemsOf(s.requests), if m.Item? then [m.item] else [];
    assert x + (y + z) == (x + y) + z;
  }

  lemma TakeRequestLine(s: State, s': State)
    requires s.requests != [] && s.prefillHand.None? && s'.payloads == s.payloads && s'.decodeHand == s.decodeHand
    requires s'.requests == s.requests[1..]
    requires s'.prefillHand == if s.requests[0].Item? then Some(s.requests[0].item) else None
    ensures Passed(s') == Passed(s) && InFlight(s') == InFlight(s)
  {
    hide ItemsOf, JobsOf, Passed;
    TakeItem(s.requests);
    SamePassed(s, s');
    var x, rest := JobsOf(Passed(s)), ItemsOf(s.requests[1..]);
    if s.requests[0].Item? {
      var job := s.requests[0].item;
      assert x + [job] + rest == x + [] + ([job] + rest);
    }
  }

  lemma SamePassed(s: State, s': State)
    requires s'.payloads == s.payloads && s'.decodeHand == s.decodeHand
    ensures Passed(s') == Passed(s)
  {
  }

  lemma SendLine(s: State, p: Payload, s': State)
    requires s.prefillHand == Some(JobOf(p)) && s'.prefillHand == None && s'.payloads == s.payloads + [Item(p)]
    requires s'.requests == s.requests && s'.decodeHand == s.decodeHand
    ensures Passed(s') == Passed(s) + [p] && InFlight(s') == InFlight(s)
  {
    ItemsSnoc(s.payloads, Item(p));
    var x, y := Held(s.decodeHand), ItemsOf(s.payloads);
    assert x + (y + [p]) == (x + y) + [p];
    JobsConcat(Passed(s), [p]);
    assert JobsOf([p]) == [JobOf(p)];
    var z := JobsOf(Passed(s));
    assert z + [JobOf(p)] + [] + ItemsOf(s.requests) == z + [JobOf(p)] + ItemsOf(s.requests);
  }

  lemma TakePayloadLine(s: State, s': State)
    requires s.payloads != [] && s.decodeHand.None? && s'.requests == s.requests && s'.prefillHand == s.prefillHand
    requires s'.payloads == s.payloads[1..]
    requires s'.decodeHand == if s.payloads[0].Item? then Some(s.payloads[0].item) else None
    ensures Passed(s') == Passed(s) && InFlight(s') == InFlight(s)
  {
    TakeItem(s.payloads);
    assert [] + ItemsOf(s.payloads) == ItemsOf(s.payloads);
  }

  lemma PutAnswerLine(s: State, s': State)
    requires s.decodeHand.Some? && s'.decodeHand.None? && s'.payloads == s.payloads
    requires s'.requests == s.requests && s'.prefillHand == s.prefillHand
    ensures Passed(s) == [s.decodeHand.value] + Passed(s')
    ensures InFlight(s) == [JobOf(s.decodeHand.value)] + InFlight(s')
  {
    var p := s.decodeHand.value;
    JobsConcat([p], Passed(s'));
    assert JobsOf([p]) == [JobOf(p)];
    var x, y, z := JobsOf(Passed(s')), Held(s.prefillHand), ItemsOf(s.requests);
    assert ([JobOf(p)] + x) + y + z == [JobOf(p)] + (x + y + z);
  }

  lemma StopDecodeLine(s: State, s': State)
    requires s'.payloads == s.payloads + [Stop] && s'.decodeHand == s.decodeHand
    requires s'.requests == s.requests && s'.prefillHand == s.prefillHand
    ensures Passed(s') == Passed(s) && InFlight(s') == InFlight(s)
  {
    ItemsSnoc(s.payloads, Stop);
  }

  lemma SameLine(s: State, s': State)
    requires s'.requests == s.requests && s'.prefillHand == s.prefillHand && s'.payloads == s.payloads
    requires s'.decodeHand == s.decodeHand
    ensures Passed(s') == Passed(s) && InFlight(s') == InFlight(s)
  {
  }

  lemma PrefilledJob(setup: Setup, i: nat, job: Job)
    requires |job.prompt| > 0
    ensures JobOf(Prefilled(setup, i, job)) == job
  {
  }

  // What happens on the prefill worker's side.
  lemma PrefillSideMoves(setup: Setup, s: State, a: Action, s': State)
    requires Step(setup, s, a, s') && (a.Submit? || a.TakeRequest? || a.SendPayload? || a.Shutdown?)
    ensures LineMoves(setup, s, a, s')
  {
    hide Prefilled, InFlight, Passed, Sent, ItemsOf, Held;
    match a
    case Submit(job) => SubmitLine(s, Item(job), s');
    case TakeRequest => TakeRequestLine(s, s');
    case SendPayload =>
      PrefilledJob(setup, Sent(s), s.prefillHand.value);
      SendLine(s, Prefilled(setup, Sent(s), s.prefillHand.value), s');
    case Shutdown => SubmitLine(s, Stop, s');
  }

  lemma StepMovesLine(setup: Setup, s: State, a: Action, s': State)
    requires Step(setup, s, a, s')
    ensures LineMoves(setup, s, a, s')
  {
    hide DecodesTo, Prefilled, InFlight, Passed, Sent, ItemsOf, Held, PrefillTooLong, DecodeTooLong;
    match a
    case TakePayload => TakePayloadLine(s, s');
    case PutAnswer(_) => PutAnswerLine(s, s');
    case StopDecode => StopDecodeLine(s, s');
    case PrefillFails => SameLine(s, s');
    case DecodeFails => SameLine(s, s');
    case JoinPrefill => SameLine(s, s');
    case JoinDecode => SameLine(s, s');
    case TimeOut => SameLine(s, s');
    case _ => PrefillSideMoves(setup, s, a, s');
  }

  // ---------- conservation ----------

  lemma AnswerKeeps(setup: Setup, s: State, answer: Answer, s': State)
    requires Step(setup, s, PutAnswer(answer), s') && Conserved(setup, s)
    ensures Conserved(setup, s')
  {
    hide InFlight, Passed, Generated, Drawn, Choose, Logits, PortableOf;
    StepMovesLine(setup, s, PutAnswer(answer), s');
    var n, p := |s.answers|, s.decodeHand.value;
    var job := JobOf(p);
    assert Passed(s)[0] == p && p == Prefilled(setup, n + 0, job);
    assert s.submitted[n..][0] == InFlight(s)[0] == job;
    assert InFlight(s') == InFlight(s)[1..] == s.submitted[n + 1..];
    assert s.submitted[..n + 1] == s.submitted[..n] + [job];
    ExactPayload(setup, n, job);
    forall k | 0 <= k < |Passed(s')|
      ensures |Passed(s')[k].prompt| > 0 && Passed(s')[k] == Prefilled(setup, n + 1 + k, JobOf(Passed(s')[k]))
    {
      assert Passed(s)[k + 1] == Passed(s')[k];
    }
    forall i | 0 <= i < n + 1
      ensures s'.answers[i] ==
        Generated(setup, Drawn(setup.params, s'.answers[..i]), Prefilled(setup, i, s.submitted[i]))
    {
      assert s'.answers[..i] == s.answers[..i];
      assert i < n ==> s.submitted[..n][i] == s.submitted[i];
    }
  }

  lemma ExactPayload(setup: Setup, i: nat, job: Job)
    requires |job.prompt| > 0
    ensures var p := Prefilled(setup, i, job); p.prompt == job.prompt && p.kv == PortableOf(setup.net, p.prompt)
  {
  }

  lemma SubmitKeeps(setup: Setup, s: State, job: Job, s': State)
    requires Step(setup, s, Submit(job), s') && Conserved(setup, s)
    ensures Conserved(setup, s')
  {
    hide InFlight, Passed, ExactLine, Answered;
    StepMovesLine(setup, s, Submit(job), s');
    assert s'.submitted[..|s.answers|] == s.submitted[..|s.answers|];
    assert s'.submitted[|s.answers|..] == s.submitted[|s.answers|..] + [job];
  }

  lemma SendKeeps(setup: Setup, s: State, s': State)
    requires Step(setup, s, SendPayload, s') && Conserved(setup, s)
    ensures Conserved(setup, s')
  {
    hide InFlight, Passed, Answered, Prefilled;
    StepMovesLine(setup, s, SendPayload, s');
    PrefilledJob(setup, Sent(s), s.prefillHand.value);
    ExactPayload(setup, Sent(s), s.prefillHand.value);
  }

  lemma TakenHasPrompt(setup: Setup, s: State, s': State)
    requires Step(setup, s, TakeRequest, s') && Conserved(setup, s)
    ensures s'.prefillHand.Some? ==> |s'.prefillHand.value.prompt| > 0
  {
    hide Answered, ExactLine, Passed, JobsOf;
    if s'.prefillHand.Some? {
      var k := |JobsOf(Passed(s))|;
      TakeItem(s.requests);
      assert InFlight(s)[k] == ItemsOf(s.requests)[0] == s'.prefillHand.value;
      assert s.submitted[|s.answers|..][k] == s.submitted[|s.answers| + k];
    }
  }

  // The other actions change neither submissions nor answers, nor what the prefill worker holds.
  lemma OtherKeeps(setup: Setup, s: State, a: Action, s': State)
    requires Step(setup, s, a, s') && !a.Submit? && !a.PutAnswer? && !a.SendPayload?
    ensures s'.submitted == s.submitted && s'.answers == s.answers
    ensures a.TakeRequest? || s'.prefillHand == s.prefillHand
  {
    hide PrefillTooLong, DecodeTooLong, DecodesTo, Prefilled, Passed, Sent;
  }

  lemma StepConserves(setup: Setup, s: State, a: Action, s': State)
    requires Step(setup, s, a, s') && Conserved(setup, s)
    ensures Conserved(setup, s')
  {
    hide InFlight, Answered, ExactLine, Step, Passed;
    match a
    case Submit(job) => SubmitKeeps(setup, s, job, s');
    case PutAnswer(answer) => AnswerKeeps(setup, s, answer, s');
    case SendPayload => SendKeeps(setup, s, s');
    case TakeRequest =>
      StepMovesLine(setup, s, a, s');
      OtherKeeps(setup, s, a, s');
      TakenHasPrompt(setup, s, s');
    case _ =>
      StepMovesLine(setup, s, a, s');
      OtherKeeps(setup, s, a, s');
  }

  // ---------- the stop messages ----------

  lemma LineLength(setup: Setup, s: State)
    requires Conserved(setup, s)
    ensures Sent(s) + |Held(s.prefillHand)| + |ItemsOf(s.requests)| == |s.submitted|
  {
    hide Answered, ExactLine;
    assert |InFlight(s)| == |s.submitted| - |s.answers|;
  }

  lemma SubmitTimely(s: State, job: Job, s': State)
    requires Timely(s) && Passed(s') == Passed(s)
    requires s' == s.(submitted := s.submitted + [job], requests := s.requests + [Item(job)])
    ensures Timely(s')
  {
    hide Passed, Held, BeforeStop;
    BeforeStopSnoc(s.requests, Item(job));
  }

  lemma ShutdownTimely(setup: Setup, s: State, s': State)
    requires Step(setup, s, Shutdown, s') && Timely(s) && Conserved(setup, s) && Passed(s') == Passed(s)
    ensures Timely(s')
  {
    hide Passed, Held, BeforeStop, ItemsOf, Conserved;
    LineLength(setup, s);
    BeforeStopSnoc(s.requests, Stop);
    ItemsSnoc(s.requests, Stop);
  }

  lemma TakeRequestTimely(setup: Setup, s: State, s': State)
    requires Step(setup, s, TakeRequest, s') && Timely(s) && Passed(s') == Passed(s)
    ensures Timely(s')
  {
    hide Passed, BeforeStop, ItemsOf;
    TakeItem(s.requests);
  }

  lemma StepTimely(setup: Setup, s: State, a: Action, s': State)
    requires Step(setup, s, a, s') && Timely(s) && Conserved(setup, s)
    ensures Timely(s')
  {
    hide Passed, BeforeStop, ItemsOf, InFlight, DecodesTo, Prefilled, Conserved, PrefillTooLong, DecodeTooLong;
    StepMovesLine(setup, s, a, s');
    match a
    case Submit(job) => SubmitTimely(s, job, s');
    case Shutdown => ShutdownTimely(setup, s, s');
    case TakeRequest => TakeRequestTimely(setup, s, s');
    case _ => OtherTimely(setup, s, a, s');
  }

  lemma OtherTimely(setup: Setup, s: State, a: Action, s': State)
    requires Step(setup, s, a, s') && Timely(s) && LineMoves(setup, s, a, s')
    requires !a.Submit? && !a.Shutdown? && !a.TakeRequest?
    ensures Timely(s')
  {
    hide Passed, BeforeStop, ItemsOf, InFlight, DecodesTo, Prefilled, PrefillTooLong, DecodeTooLong, Timely;
    if a.SendPayload? {
      SentTimely(s, Prefilled(setup, Sent(s), s.prefillHand.value), s');
    } else {
      SameTimely(s, s');
    }
  }

  lemma SentTimely(s: State, p: Payload, s': State)
    requires Timely(s) && s.prefillHand.Some? && !s.prefillExited && Passed(s') == Passed(s) + [p]
    requires s' == s.(prefillHand := None, payloads := s'.payloads)
    ensures Timely(s')
  {
    hide Passed, BeforeStop;
  }

  // The request queue, the prefill worker and the number of jobs sent are as before.
  lemma SameTimely(s: State, s': State)
    requires Timely(s) && Sent(s') == Sent(s) && s'.requests == s.requests && s'.prefillHand == s.prefillHand
    requires s'.submitted == s.submitted && s'.closedAt == s.closedAt && (s'.phase == Open <==> s.phase == Open)
    requires
      || (s'.prefillExited == s.prefillExited && s'.prefillFailed == s.prefillFailed)
      || (s.prefillHand.Some? && !s.prefillExited && s'.prefillExited && s'.prefillFailed)
    ensures Timely(s')
  {
    hide Sent, BeforeStop;
  }

  lemma StepStops(setup: Setup, s: State, a: Action, s': State)
    requires Step(setup, s, a, s') && Stops(s) && Timely(s)
    ensures Stops(s')
  {
    hide BeforeStop, ItemsOf, DecodesTo, Prefilled, PrefillTooLong, DecodeTooLong, Sent, Due, Stops, Timely;
    match a
    case SendPayload =>
      BeforeStopSnoc(s.payloads, s'.payloads[|s.payloads|]);
      SendStops(s, s');
    case StopDecode =>
      BeforeStopSnoc(s.payloads, Stop);
      SendStops(s, s');
    case TakePayload =>
      TakeItem(s.payloads);
      TakeStops(setup, s, s');
    case JoinPrefill => JoinStops(setup, s, a, s');
    case JoinDecode => JoinStops(setup, s, a, s');
    case TimeOut => JoinStops(setup, s, a, s');
    case DecodeFails => WorkerStops(s, s');
    case PutAnswer(_) => WorkerStops(s, s');
    case PrefillFails => WorkerStops(s, s');
    case _ => QuietStops(setup, s, a, s');
  }

  lemma JoinStops(setup: Setup, s: State, a: Action, s': State)
    requires Step(setup, s, a, s') && Stops(s) && Timely(s) && (a.JoinPrefill? || a.JoinDecode? || a.TimeOut?)
    ensures Stops(s')
  {
    hide Sent, Due;
  }

  // A worker gives an answer or fails.
  lemma WorkerStops(s: State, s': State)
    requires Stops(s) && s'.phase == s.phase && s'.payloads == s.payloads
    requires s'.prefillFailed || (s'.prefillExited == s.prefillExited && s'.prefillHand == s.prefillHand)
    requires s.prefillFailed ==> s'.prefillFailed
    requires s'.decodeFailed ||
      (s'.decodeExited == s.decodeExited && (s'.decodeHand == s.decodeHand || s'.decodeHand.None?))
    requires s'.gaveUp == s.gaveUp && (s.decodeFailed ==> s'.decodeFailed) && (s.decodeExited ==> s'.decodeExited)
    ensures Stops(s')
  {
  }

  // The decode worker's side is as before.
  lemma QuietStops(setup: Setup, s: State, a: Action, s': State)
    requires Step(setup, s, a, s') && Stops(s) && Timely(s) && (a.Submit? || a.TakeRequest? || a.Shutdown?)
    ensures Stops(s')
  {
    hide Sent, Due;
  }

  // Something is appended to the payloads.
  lemma SendStops(s: State, s': State)
    requires Stops(s) && Timely(s) && s'.payloads != [] && s'.payloads[..|s'.payloads| - 1] == s.payloads
    requires s'.decodeExited == s.decodeExited && s'.decodeFailed == s.decodeFailed && s'.decodeHand == s.decodeHand
    requires s'.prefillExited == s.prefillExited && s'.prefillFailed == s.prefillFailed && s'.gaveUp == s.gaveUp
    requires s'.phase == s.phase ==>
      && s.prefillHand.Some? && !s.prefillExited && s'.prefillHand.None?
      && (Stop in s'.payloads <==> Stop in s.payloads)
    requires s'.phase != s.phase ==>
      && s.phase == PrefillJoined && s'.phase == Draining
      && Stop in s'.payloads && s'.prefillHand == s.prefillHand
    ensures Stops(s')
  {
    hide Sent, Due;
    assert forall i :: 0 <= i < |s.payloads| ==> s.payloads[i] in s.payloads && s'.payloads[i] == s.payloads[i];
  }

  lemma TakeStops(setup: Setup, s: State, s': State)
    requires Step(setup, s, TakePayload, s') && Stops(s) && s.payloads != []
    requires s.payloads[0].Item? ==> (Stop in s.payloads <==> Stop in s.payloads[1..])
    requires s.payloads[0].Stop? ==> Stop in s.payloads
    ensures Stops(s')
  {
  }

  lemma StartKeeps(setup: Setup)
    ensures Conserved(setup, START) && Timely(START) && Stops(START)
  {
  }

  lemma {:induction false} RunKeeps(setup: Setup, actions: seq<Action>, states: seq<State>, n: nat)
    requires Run(setup, actions, states) && n < |states|
    ensures Conserved(setup, states[n]) && Timely(states[n]) && Stops(states[n])
  {
    hide Step, Conserved, Stops, Timely;
    if n == 0 {
      StartKeeps(setup);
    } else {
      RunKeeps(setup, actions, states, n - 1);
      StepConserves(setup, states[n - 1], actions[n - 1], states[n]);
      StepTimely(setup, states[n - 1], actions[n - 1], states[n]);
      StepStops(setup, states[n - 1], actions[n - 1], states[n]);
    }
  }

  /** Pipeline safety over all interleavings: nothing is lost, duplicated or reordered, and every answer is the
      single-process generation for its own prompt, from the random choices that are its turn. */
  lemma PipelineConserves(setup: Setup, actions: seq<Action>, states: seq<State>)
    requires Run(setup, actions, states)
    ensures Conserved(setup, states[|actions|])
  {
    RunKeeps(setup, actions, states, |actions|);
  }

  /** With greedy workers, as by default, every answer is the greedy generation for its own prompt. */
  lemma GreedyAnswers(setup: Setup, actions: seq<Action>, states: seq<State>)
    requires Run(setup, actions, states) && setup.params.Greedy()
    ensures var s := states[|actions|];
      && |s.answers| <= |s.submitted|
      && forall i :: 0 <= i < |s.answers| ==>
        && |s.submitted[i].prompt| > 0
        && s.answers[i] ==
          Answer(s.submitted[i].rid, Generate(setup.net, s.submitted[i].prompt, setup.maxNew, setup.eos))
  {
    hide InFlight, ExactLine, Generated, Prefilled, Drawn, Generate;
    RunKeeps(setup, actions, states, |actions|);
    var s := states[|actions|];
    forall i | 0 <= i < |s.answers|
      ensures |s.submitted[i].prompt| > 0
      ensures s.answers[i] ==
        Answer(s.submitted[i].rid, Generate(setup.net, s.submitted[i].prompt, setup.maxNew, setup.eos))
    {
      assert s.submitted[..|s.answers|][i] == s.submitted[i];
      GreedyAnswer(setup, i, Drawn(setup.params, s.answers[..i]), s.submitted[i]);
    }
  }

  lemma GreedyAnswer(setup: Setup, i: nat, d: nat, job: Job)
    requires setup.params.Greedy() && |job.prompt| > 0
    ensures Generated(setup, d, Prefilled(setup, i, job))
         == Answer(job.rid, Generate(setup.net, job.prompt, setup.maxNew, setup.eos))
  {
    hide Logits;
    GreedyContinue(setup.net, Sampler(setup.exp, setup.params, setup.decodeOracle), d, job.prompt,
                   [Next(setup.net, job.prompt)], setup.maxNew, setup.eos);
  }

  /** Every answer, at any sampling parameters, ends where it should: it is at the limit or ends with the
      end-of-sequence token, which comes nowhere before. */
  lemma AnswersAreWhole(setup: Setup, actions: seq<Action>, states: seq<State>, i: nat)
    requires Run(setup, actions, states) && i < |states[|actions|].answers|
    ensures WholeOutput(states[|actions|].answers[i].out, setup.maxNew, setup.eos)
  {
    hide InFlight, ExactLine, Prefilled, Drawn, WholeOutput;
    RunKeeps(setup, actions, states, |actions|);
    var s := states[|actions|];
    assert s.submitted[..|s.answers|][i] == s.submitted[i];
    AnswerIsWhole(setup, Drawn(setup.params, s.answers[..i]), i, s.submitted[i]);
  }

  lemma AnswerIsWhole(setup: Setup, d: nat, i: nat, job: Job)
    requires |job.prompt| > 0
    ensures WholeOutput(Generated(setup, d, Prefilled(setup, i, job)).out, setup.maxNew, setup.eos)
  {
    hide Logits;
    var p := Prefilled(setup, i, job);
    ContinueIsWhole(setup.net, Sampler(setup.exp, setup.params, setup.decodeOracle), d, p.prompt, [p.first],
      setup.maxNew, setup.eos);
  }

  // ---------- failing workers ----------

  ghost predicate AllFit(setup: Setup, jobs: seq<Job>) {
    forall i :: 0 <= i < |jobs| ==> !PrefillTooLong(setup, jobs[i]) && !DecodeTooLong(setup, jobs[i])
  }

  // The jobs in the workers' hands have been submitted.
  lemma HandsSubmitted(setup: Setup, s: State)
    requires Conserved(setup, s)
    ensures s.decodeHand.Some? ==> JobOf(s.decodeHand.value) in s.submitted
    ensures s.prefillHand.Some? ==> s.prefillHand.value in s.submitted
  {
    hide Answered, ExactLine, ItemsOf, JobOf;
    if s.decodeHand.Some? {
      assert Passed(s)[0] == s.decodeHand.value;
      assert InFlight(s)[0] == JobOf(s.decodeHand.value);
      assert s.submitted[|s.answers|..][0] == s.submitted[|s.answers|];
    }
    if s.prefillHand.Some? {
      var k := |JobsOf(Passed(s))|;
      assert InFlight(s)[k] == s.prefillHand.value;
      assert s.submitted[|s.answers|..][k] == s.submitted[|s.answers| + k];
    }
  }

  lemma FailsUnfit(setup: Setup, s: State, a: Action, s': State)
    requires Step(setup, s, a, s') && Conserved(setup, s)
    ensures s.submitted <= s'.submitted
    ensures !s.prefillFailed && !s.decodeFailed && AllFit(setup, s.submitted) ==> !s'.prefillFailed && !s'.decodeFailed
  {
    hide PrefillTooLong, DecodeTooLong, Conserved, DecodesTo, Prefilled, JobOf, Sent, Passed, AllFit;
    HandsSubmitted(setup, s);
    if a.PrefillFails? && AllFit(setup, s.submitted) {
      FitsOne(setup, s.submitted, s.prefillHand.value);
    } else if a.DecodeFails? && AllFit(setup, s.submitted) {
      FitsOne(setup, s.submitted, JobOf(s.decodeHand.value));
    }
  }

  lemma FitsOne(setup: Setup, jobs: seq<Job>, job: Job)
    requires AllFit(setup, jobs) && job in jobs
    ensures !PrefillTooLong(setup, job) && !DecodeTooLong(setup, job)
  {
  }

  /** Workers fail only on jobs their pools are too small for. */
  lemma {:induction false} FittingJobsNeverFail(setup: Setup, actions: seq<Action>, states: seq<State>, n: nat)
    requires Run(setup, actions, states) && n < |states| && AllFit(setup, states[n].submitted)
    ensures !states[n].prefillFailed && !states[n].decodeFailed
  {
    hide Step, Conserved, Stops, Timely;
    if n > 0 {
      RunKeeps(setup, actions, states, n - 1);
      FailsUnfit(setup, states[n - 1], actions[n - 1], states[n]);
      FitsPart(setup, states[n - 1].submitted, states[n].submitted);
      FittingJobsNeverFail(setup, actions, states, n - 1);
    }
  }

  lemma FitsPart(setup: Setup, jobs: seq<Job>, more: seq<Job>)
    requires jobs <= more && AllFit(setup, more)
    ensures AllFit(setup, jobs)
  {
    hide PrefillTooLong, DecodeTooLong;
    forall i | 0 <= i < |jobs|
      ensures !PrefillTooLong(setup, jobs[i]) && !DecodeTooLong(setup, jobs[i])
    {
      assert more[i] == jobs[i];
    }
  }

  // ---------- what a shutdown loses ----------

  /** A shutdown whose joins complete, with no worker failing, loses nothing that was submitted before it. */
  lemma ShutdownLosesNothing(setup: Setup, actions: seq<Action>, states: seq<State>)
    requires Run(setup, actions, states)
    requires var s := states[|actions|]; s.phase == Closed && !s.gaveUp && !s.prefillFailed && !s.decodeFailed
    ensures var s := states[|actions|];
      s.closedAt <= |s.submitted| && Answered(setup, s.submitted[..s.closedAt], s.answers)
  {
    hide Answered, ExactLine;
    RunKeeps(setup, actions, states, |actions|);
    assert Passed(states[|actions|]) == [];
  }

  /** What is submitted after the shutdown is never answered. */
  lemma LateIsLost(setup: Setup, actions: seq<Action>, states: seq<State>, i: nat, n: nat)
    requires Run(setup, actions, states) && i <= n < |states| && states[i].phase != Open
    ensures states[n].phase != Open && states[n].closedAt == states[i].closedAt
    ensures |states[n].answers| <= states[i].closedAt
  {
    hide Step, Conserved, Stops;
    ClosedStays(setup, actions, states, i, n);
    RunKeeps(setup, actions, states, n);
  }

  lemma {:induction false} ClosedStays(setup: Setup, actions: seq<Action>, states: seq<State>, i: nat, n: nat)
    requires Run(setup, actions, states) && i <= n < |states| && states[i].phase != Open
    ensures states[n].phase != Open && states[n].closedAt == states[i].closedAt
  {
    hide Step;
    if n > i {
      ClosedStays(setup, actions, states, i, n - 1);
      ClosedStep(setup, states[n - 1], actions[n - 1], states[n]);
    }
  }

  lemma ClosedStep(setup: Setup, s: State, a: Action, s': State)
    requires Step(setup, s, a, s')
    ensures s.phase != Open ==> s'.phase != Open && s'.closedAt == s.closedAt
    ensures s.decodeFailed ==> s'.decodeFailed
  {
    hide DecodesTo, Prefilled, PrefillTooLong, DecodeTooLong, Sent;
  }

  // How many more answers the decode worker can give once it has been told to stop.
  function Remaining(s: State): nat {
    if s.decodeExited then 0 else |Held(s.decodeHand)| + |BeforeStop(s.payloads)|
  }

  // The decode worker has exited or is going to.
  ghost predicate Told(s: State) {
    s.phase in {Draining, Closed} && (s.decodeExited || Stop in s.payloads)
  }

  lemma ToldStep(setup: Setup, s: State, a: Action, s': State)
    requires Step(setup, s, a, s') && Told(s)
    ensures Told(s') && |s'.answers| + Remaining(s') <= |s.answers| + Remaining(s)
    ensures s.submitted <= s'.submitted
    ensures s.decodeExited ==> s'.decodeExited && s'.answers == s.answers
  {
    hide DecodesTo, Prefilled, PrefillTooLong, DecodeTooLong, Remaining, Sent;
    match a
    case SendPayload =>
      BeforeStopSnoc(s.payloads, s'.payloads[|s.payloads|]);
      SameRemaining(s, s');
    case TakePayload => TakenRemaining(setup, s, s');
    case PutAnswer(_) => AnsweredRemaining(s, s');
    case DecodeFails => AnsweredRemaining(s, s');
    case _ => SameRemaining(s, s');
  }

  lemma SameRemaining(s: State, s': State)
    requires s'.decodeExited == s.decodeExited && s'.decodeHand == s.decodeHand
    requires !s.decodeExited ==> BeforeStop(s'.payloads) == BeforeStop(s.payloads)
    ensures Remaining(s') == Remaining(s)
  {
  }

  lemma TakenRemaining(setup: Setup, s: State, s': State)
    requires Step(setup, s, TakePayload, s') && Told(s)
    ensures Told(s') && Remaining(s') <= Remaining(s)
  {
    TakeItem(s.payloads);
  }

  lemma AnsweredRemaining(s: State, s': State)
    requires s.decodeHand.Some? && !s.decodeExited && s'.payloads == s.payloads
    requires s'.decodeExited || s'.decodeHand.None?
    requires s'.decodeExited ==> s'.answers == s.answers
    requires !s'.decodeExited ==> |s'.answers| == |s.answers| + 1
    ensures |s'.answers| + Remaining(s') <= |s.answers| + Remaining(s)
  {
  }

  // Its last answers are those in its hand and ahead of the stop message.
  lemma {:induction false} NoMoreThanRemaining(setup: Setup, actions: seq<Action>, states: seq<State>, i: nat, n: nat)
    requires Run(setup, actions, states) && i <= n < |states| && Told(states[i])
    ensures Told(states[n]) && states[i].submitted <= states[n].submitted
    ensures |states[n].answers| + Remaining(states[n]) <= |states[i].answers| + Remaining(states[i])
    ensures states[i].decodeExited ==> states[n].decodeExited && states[n].answers == states[i].answers
  {
    hide Step, Told, Remaining;
    if n > i {
      NoMoreThanRemaining(setup, actions, states, i, n - 1);
      ToldStep(setup, states[n - 1], actions[n - 1], states[n]);
    }
  }

  /** Once the decode worker has exited, what is still in flight is never answered, however the run goes on. */
  lemma LostForGood(setup: Setup, actions: seq<Action>, states: seq<State>, i: nat, n: nat)
    requires Run(setup, actions, states) && i <= n < |states|
    requires states[i].decodeExited && states[i].phase in {Draining, Closed}
    ensures states[n].answers == states[i].answers && InFlight(states[i]) <= InFlight(states[n])
  {
    hide Step, Answered, ExactLine, Timely, Stops, InFlight;
    NoMoreThanRemaining(setup, actions, states, i, n);
    RunKeeps(setup, actions, states, i);
    RunKeeps(setup, actions, states, n);
    var k, a, b := |states[i].answers|, states[i].submitted, states[n].submitted;
    assert b[k..][..|a| - k] == b[..|a|][k..] == a[k..];
  }

  // With nothing due, the stop message stays the last thing in the decode worker's queue.
  ghost predicate Last(s: State) {
    && s.phase in {Draining, Closed} && Due(s) == 0 && (s.prefillExited ==> s.prefillHand.None?)
    && (forall i :: 0 <= i < |s.payloads| - 1 ==> s.payloads[i].Item?)
    && (s.decodeExited && !s.decodeFailed ==> s.payloads == [] && s.decodeHand.None?)
  }

  lemma LastStep(setup: Setup, s: State, a: Action, s': State)
    requires Step(setup, s, a, s') && Last(s) && Timely(s)
    ensures Last(s')
  {
    hide DecodesTo, Prefilled, PrefillTooLong, DecodeTooLong, Sent, BeforeStop;
    match a
    case Submit(job) => BeforeStopSnoc(s.requests, Item(job));
    case TakeRequest => TakeItem(s.requests);
    case _ =>
  }

  lemma {:induction false} LastRun(setup: Setup, actions: seq<Action>, states: seq<State>, i: nat, n: nat)
    requires Run(setup, actions, states) && i <= n < |states| && Last(states[i])
    ensures Last(states[n])
  {
    hide Step, Last, Conserved, Stops, Timely;
    if n > i {
      LastRun(setup, actions, states, i, n - 1);
      RunKeeps(setup, actions, states, n - 1);
      LastStep(setup, states[n - 1], actions[n - 1], states[n]);
    }
  }

  // When the decode worker is told to stop, it has all the payloads in front of it.
  lemma JustTold(setup: Setup, s: State, s': State)
    requires Step(setup, s, StopDecode, s') && Stops(s) && Timely(s)
    ensures Told(s') && s'.answers == s.answers && s'.closedAt == s.closedAt && s'.decodeFailed == s.decodeFailed
    ensures |s'.answers| + Remaining(s') + Due(s) <= s'.closedAt
    ensures Due(s) == 0 && !s.decodeFailed ==> Last(s')
  {
    hide ItemsOf;
    BeforeStopSnoc(s.payloads, Stop);
    ItemsSnoc(s.payloads, Stop);
    StopAtEnd(s.payloads);
  }

  lemma StopAtEnd(q: seq<Message<Payload>>)
    requires Stop !in q
    ensures forall i :: 0 <= i < |q| ==> (q + [Stop])[i].Item?
  {
    assert forall i :: 0 <= i < |q| ==> q[i] in q;
  }

  /** Which shutdowns lose jobs, also when a join has timed out: once the decode worker has read its stop
      message, everything submitted before the shutdown has been answered if and only if the prefill worker had
      none of it left to do when that message was sent. */
  lemma ShutdownLosesNothingIff(setup: Setup, actions: seq<Action>, states: seq<State>, i: nat, n: nat)
    requires Run(setup, actions, states) && i < n < |states| && actions[i] == StopDecode
    requires states[n].decodeExited && !states[n].decodeFailed
    ensures states[n].closedAt <= |states[n].submitted|
    ensures Answered(setup, states[n].submitted[..states[n].closedAt], states[n].answers) <==> Due(states[i]) == 0
  {
    hide Step, Answered, Told, Last, Remaining, InFlight, Passed, Due, ExactLine, Stops;
    assert Step(setup, states[i], actions[i], states[i + 1]);
    RunKeeps(setup, actions, states, i);
    RunKeeps(setup, actions, states, n);
    NotFailedBefore(setup, actions, states, i, n);
    JustTold(setup, states[i], states[i + 1]);
    ToldClosed(states[i + 1]);
    ClosedStays(setup, actions, states, i + 1, n);
    NoMoreThanRemaining(setup, actions, states, i + 1, n);
    if Due(states[i]) == 0 {
      LastRun(setup, actions, states, i + 1, n);
      LastDone(states[n]);
    } else {
      AnsweredLength(setup, states[n].submitted[..states[n].closedAt], states[n].answers);
    }
  }

  lemma ToldClosed(s: State)
    requires Told(s)
    ensures s.phase != Open
  {
  }

  lemma AnsweredLength(setup: Setup, jobs: seq<Job>, answers: seq<Answer>)
    requires |answers| != |jobs|
    ensures !Answered(setup, jobs, answers)
  {
  }

  lemma LastDone(s: State)
    requires Last(s) && s.decodeExited && !s.decodeFailed
    ensures Sent(s) == |s.answers| && Due(s) == 0 && s.phase != Open
  {
  }

  lemma {:induction false} NotFailedBefore(setup: Setup, actions: seq<Action>, states: seq<State>, i: nat, n: nat)
    requires Run(setup, actions, states) && i <= n < |states| && !states[n].decodeFailed
    ensures !states[i].decodeFailed
    decreases n - i
  {
    hide Step;
    if i < n {
      NotFailedBefore(setup, actions, states, i + 1, n);
      ClosedStep(setup, states[i], actions[i], states[i + 1]);
    }
  }

  // When a join times out, the stop message can overtake a job still being prefilled.
  lemma OvertakenJob(setup: Setup) returns (actions: seq<Action>, states: seq<State>)
    ensures Run(setup, actions, states)
    ensures var s := states[|actions|];
      && s.phase == Closed && s.gaveUp && s.decodeExited && |s.submitted| == 1 && s.closedAt == 1
      && s.answers == [] && s.payloads != []
  {
    hide Prefilled, DecodesTo, PrefillTooLong, DecodeTooLong, Sent;
    var job := Job(0, [0]);
    var s1 := START.(submitted := [job], requests := [Item(job)]);
    var s2 := s1.(requests := [], prefillHand := Some(job));
    var s3 := s2.(phase := Stopping, requests := [Stop], closedAt := 1);
    var s4 := s3.(phase := PrefillJoined, gaveUp := true);
    var s5 := s4.(phase := Draining, payloads := [Stop]);
    var s6 := s5.(payloads := [], decodeExited := true);
    var s7 := s6.(prefillHand := None, payloads := [Item(Prefilled(setup, 0, job))]);
    var s8 := s7.(phase := Closed);
    actions := [Submit(job), TakeRequest, Shutdown, TimeOut, StopDecode, TakePayload, SendPayload, JoinDecode];
    states := [START, s1, s2, s3, s4, s5, s6, s7, s8];
    assert Step(setup, s1, TakeRequest, s2);
    assert Step(setup, s5, TakePayload, s6);
    assert Sent(s6) == 0 by { NothingSent(s6); }
    assert Step(setup, s6, SendPayload, s7);
  }

  lemma NothingSent(s: State)
    requires s.answers == [] && s.payloads == [] && s.decodeHand.None?
    ensures Sent(s) == 0
  {
  }

  /** So a shutdown may lose a job: there is a run that has shut down after one submission, and however it goes
      on, that job is never answered. */
  lemma TimeOutMayLose(setup: Setup) returns (actions: seq<Action>, states: seq<State>)
    ensures Run(setup, actions, states) && states[|actions|].phase == Closed && states[|actions|].closedAt == 1
    ensures forall more, further: seq<State> :: Run(setup, more, further) && actions <= more && states <= further ==>
      further[|more|].answers == []
  {
    hide Step, InFlight;
    actions, states := OvertakenJob(setup);
    forall more, further: seq<State> | Run(setup, more, further) && actions <= more && states <= further
      ensures further[|more|].answers == []
    {
      LostForGood(setup, more, further, |actions|, |more|);
    }
  }
}
