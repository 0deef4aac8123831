/** The observable life of one run, and the grammar every life obeys.

    A trace is everything a run does to the outside world, in order: what it hands to its observer,
    when it opens and closes the provider session, what it asks the provider to generate, and when a
    tool begins to execute. Each step carries the summary counters at that moment. `Next` reads a
    trace one step at a time and refuses any step that breaks the protocol, so a trace that `Fold`s
    to `Some` is a legal life. `Run` proves that the controller only ever produces legal traces;
    `RunProperties` proves what legality means. */
module RunGrammar {
  import opened Wire
  import opened Tools

  datatype RunOutcome = Completed | Failed(code: string) | CancelledLocally
  datatype TurnOutcome = ModelCompleted | ToolsPrepared | Stopped(reason: RunOutcome)
  datatype UpstreamOutcome = NotSubmitted | UnknownUpstream | TerminalReceived

  datatype RunSummary = RunSummary(
    turnsStarted: u64, turnsFinished: u64, attempted: u64, admitted: u64,
    dispatches: u64, prepared: u64, reused: u64,
    lastRequest: Option<Text>, lastUpstream: Option<UpstreamOutcome>)

  /** `Progress` stands for ResponseStatus and the three OutputItem events, which differ only in payload. */
  datatype ProviderEvent =
    | SessionClosed
    | ResponseStarted(responseId: Text)
    | Progress(responseId: Text)
    | ResponseFinished(response: ModelResponse)
    | RequestFailed(upstream: UpstreamOutcome)
    | ProviderExtension

  datatype EventEnvelope = EventEnvelope(
    sequence: u64, eventId: Text, sessionId: Text, requestId: Option<Text>, provider: Text, event: ProviderEvent)

  datatype ToolEvent =
    | ToolStarted(callId: Text, name: Text)
    | ToolFinished(callId: Text, name: Text, isError: bool)
    | ToolReused(callId: Text, name: Text)

  datatype RunEvent =
    | RunStarted
    | TurnStarted(number: u64)
    | Provider(provided: EventEnvelope)
    | ToolActivity(tool: ToolEvent)
    | TurnFinished(number: u64, responseId: Option<Text>, turnOutcome: TurnOutcome, upstream: Option<UpstreamOutcome>)
    | RunFinished(outcome: RunOutcome, summary: RunSummary)

  datatype RunEventEnvelope = RunEventEnvelope(
    sequence: u64, runId: Text, turnId: Option<Text>, sessionId: Option<Text>, requestId: Option<Text>, event: RunEvent)

  datatype SinkError = SinkFull | SinkClosed | SinkFailed

  datatype RunResult = RunResult(
    runId: Text, sessionId: Option<Text>, outcome: RunOutcome, summary: RunSummary,
    lastResponse: Option<ModelResponse>, eventsComplete: bool, sinkError: Option<SinkError>)

  datatype Action =
    | Opened(session: Text)                                  // open_session returned
    | Bound(session: Text, identity: ReplayIdentity, ok: bool) // observer.provider_opened, and its answer
    | Generated(input: seq<InputItem>)                       // control.generate was polled
    | Admitted(request: Text)                                // it returned a canonical receipt
    | Began(callId: Text)                                    // tool.execute was polled
    | Recorded(request: Text, callId: Text, output: Text, isError: bool, ok: bool) // observer.tool_result, and its answer
    | Event(envelope: RunEventEnvelope, ok: bool)            // observer.event, and its answer
    | Closed                                                 // control.close()

  datatype Step = Step(action: Action, summary: RunSummary)
  type Trace = seq<Step>

  /** What stays fixed during a run. `localIds` says that the provider is the bundled adapter,
      whose session and event identities are checked more strictly. */
  datatype Config = Config(
    codec: Codec, tools: map<Text, Tool>, provider: Text, localIds: bool, model: Text, runId: Text, prompt: Text)

  datatype ToolPhase = Ready | Announced | Running | Saved(isError: bool)

  datatype Turn = Turn(
    number: nat, id: Text, generated: bool, responseId: Option<Text>, responseStarted: bool,
    terminal: bool, response: Option<ModelResponse>, phase: ToolPhase, results: seq<InputItem>)

  datatype Scan = Scan(
    sent: nat, sunk: bool, started: bool, session: Option<Text>, bound: Option<ReplayIdentity>, closed: bool, ended: Option<RunEvent>,
    turns: nat, turn: Option<Turn>, last: Option<TurnOutcome>, request: Option<Text>, heard: Option<u64>,
    generations: nat, admissions: nat, began: set<Text>, saved: map<Text, CachedResult>, exchanges: seq<Exchange>)

  const INITIAL := Scan(0, false, false, None, None, false, None, 0, None, None, None, None, 0, 0, {}, map[], [])

  /** Requests and turns nest, and every tool result comes from one dispatch or one reuse. */
  predicate Conserved(m: RunSummary) {
    && m.admitted <= m.attempted <= m.turnsStarted
    && m.turnsFinished <= m.turnsStarted <= m.turnsFinished + 1
    && m.prepared <= m.dispatches + m.reused <= m.prepared + 1
  }

  /** The counters of a run that ended Completed. */
  predicate Balanced(m: RunSummary) {
    && m.attempted == m.admitted == m.turnsStarted == m.turnsFinished
    && m.dispatches + m.reused == m.prepared
  }

  function Total(exchanges: seq<Exchange>): nat {
    if exchanges == [] then 0 else Total(exchanges[..|exchanges| - 1]) + |exchanges[|exchanges| - 1].results|
  }

  /** Dispatches are the distinct calls that ran, and prepared results are those of all turns so far. */
  predicate Tallied(s: Scan, m: RunSummary) {
    && m.dispatches == |s.saved|
    && m.prepared == Total(s.exchanges) + if s.turn.Some? then |s.turn.value.results| else 0
  }

  /** The summary of a run that ended Completed is exact. */
  predicate Exact(s: Scan, m: RunSummary) {
    && Balanced(m) && Tallied(s, m)
    && s.exchanges != [] && m.turnsStarted == |s.exchanges|
    && s.request.Some? && m.lastRequest == s.request && m.lastUpstream == Some(TerminalReceived)
  }

  predicate Usable(c: Config, s: Scan) {
    s.session.Some? && (c.localIds ==> c.codec.canonicalUuid(s.session.value))
  }

  function SessionOf(c: Config, s: Scan): Option<Text> {
    if Usable(c, s) then s.session else None
  }

  /** The first turn asks with the prompt, every later one with the previous turn's results. */
  function NextInput(c: Config, s: Scan): seq<InputItem> {
    if s.exchanges == [] then [User(c.prompt)] else s.exchanges[|s.exchanges| - 1].results
  }

  predicate IdFits(t: Turn, id: Text) {
    id != [] && (t.responseId.Some? ==> t.responseId.value == id)
  }

  /** A provider event that belongs to this session, request and turn, in order. */
  predicate Hears(c: Config, s: Scan, t: Turn, p: EventEnvelope) {
    && s.session == Some(p.sessionId)
    && p.provider == c.provider
    && s.request.Some? && p.requestId == s.request
    && (s.heard.Some? ==> s.heard.value < p.sequence)
    && !t.terminal
    && (c.localIds ==> c.codec.localEventId(p.eventId, p.sessionId, p.sequence))
    && match p.event
       case SessionClosed => false
       case ResponseStarted(id) => !t.responseStarted && IdFits(t, id)
       case Progress(id) => IdFits(t, id)
       case ResponseFinished(response) => IdFits(t, response.id)
       case RequestFailed(_) => true
       case ProviderExtension => true
  }

  function AfterHearing(t: Turn, p: EventEnvelope): Turn {
    match p.event
    case SessionClosed => t
    case ResponseStarted(id) => t.(responseStarted := true, responseId := Some(id))
    case Progress(id) => t.(responseId := Some(id))
    case ResponseFinished(response) => t.(terminal := true, responseId := Some(response.id), response := Some(response))
    case RequestFailed(_) => t.(terminal := true)
    case ProviderExtension => t
  }

  function Calls(t: Turn): seq<FunctionCall> {
    if t.response.Some? then CallsOf(t.response.value.output) else []
  }

  /** Tool work is allowed: the whole response is executable, a call is still due, and no due call
      contradicts a result already saved under its id. */
  predicate Working(c: Config, s: Scan, t: Turn) {
    && t.response.Some? && Executable(c.codec, c.tools, t.response.value)
    && |t.results| < |Calls(t)|
    && forall k :: |t.results| <= k < |Calls(t)| ==> Agrees(c.codec, s.saved, Calls(t)[k])
  }

  function Due(t: Turn): FunctionCall
    requires |t.results| < |Calls(t)|
  {
    Calls(t)[|t.results|]
  }

  predicate ToolFits(c: Config, s: Scan, t: Turn, e: ToolEvent) {
    && Working(c, s, t)
    && e.callId == Due(t).callId && e.name == Due(t).name
    && match e
       case ToolStarted(id, _) => t.phase.Ready? && id !in s.saved && id !in s.began
       case ToolFinished(id, _, isError) => t.phase == Saved(isError) && id in s.saved
       case ToolReused(id, _) => t.phase.Ready? && id in s.saved
  }

  function AfterTool(s: Scan, t: Turn, e: ToolEvent): Turn
    requires !e.ToolStarted? ==> e.callId in s.saved
  {
    match e
    case ToolStarted(_, _) => t.(phase := Announced)
    case _ => t.(phase := Ready, results := t.results + [ToolResult(e.callId, s.saved[e.callId].output)])
  }

  /** How a turn may be reported: with a complete exchange, or stopped for a reason. */
  predicate Reports(c: Config, t: Turn, outcome: TurnOutcome) {
    match outcome
    case Stopped(reason) => !reason.Completed?
    case ModelCompleted =>
      && t.response.Some? && t.response.value.outcome.ResponseCompleted?
      && (forall i :: 0 <= i < |t.response.value.output| ==> Plain(t.response.value.output[i].kind))
      && t.results == [] && t.phase.Ready?
    case ToolsPrepared =>
      && t.response.Some? && Executable(c.codec, c.tools, t.response.value)
      && 0 < |t.results| == |Calls(t)| && t.phase.Ready?
      && ValidInput(c.codec, t.results)
  }

  /** The run's outcome is the fate of its last turn. */
  predicate Fits(last: Option<TurnOutcome>, outcome: RunOutcome) {
    match last
    case None => !outcome.Completed?
    case Some(ModelCompleted) => outcome.Completed?
    case Some(Stopped(reason)) => outcome == reason
    case Some(ToolsPrepared) => outcome.CancelledLocally?
  }

  predicate Active(s: Scan) {
    s.started && !s.sunk && !s.closed && s.turn.Some?
  }

  /** The envelope is the next one, carries the current identities, and its event is due. */
  predicate Expects(c: Config, s: Scan, e: RunEventEnvelope, m: RunSummary) {
    && !s.sunk && e.sequence == s.sent + 1 && e.runId == c.runId && e.sessionId == SessionOf(c, s)
    && match e.event
       case RunStarted =>
         !s.started && s.session.None? && !s.closed && e.turnId.None? && e.requestId.None?
       case TurnStarted(number) =>
         && s.started && Usable(c, s) && !s.closed && s.turn.None?
         && e.turnId.Some? && e.requestId.None?
         && number == s.turns + 1 == m.turnsStarted
         && (s.turns == 0 || s.last == Some(ToolsPrepared))
       case RunFinished(outcome, summary) =>
         && s.started && s.turn.None? && (s.session.Some? ==> s.closed)
         && e.turnId.None? && e.requestId == s.request
         && Fits(s.last, outcome)
         && summary == m && m.turnsStarted == m.turnsFinished
         && (outcome.Completed? ==> Exact(s, m))
       case Provider(p) =>
         Active(s) && e.turnId == Some(s.turn.value.id) && e.requestId == s.request && Hears(c, s, s.turn.value, p)
       case ToolActivity(t) =>
         Active(s) && e.turnId == Some(s.turn.value.id) && e.requestId == s.request && ToolFits(c, s, s.turn.value, t)
       case TurnFinished(number, responseId, outcome, upstream) =>
         && Active(s) && e.turnId == Some(s.turn.value.id) && e.requestId == s.request
         && number == s.turn.value.number && responseId == s.turn.value.responseId
         && Reports(c, s.turn.value, outcome) && (!outcome.Stopped? ==> Tallied(s, m))
         && upstream == m.lastUpstream
         && (!s.turn.value.generated ==> upstream == Some(NotSubmitted))
         && (s.turn.value.response.Some? ==> upstream == Some(TerminalReceived))
  }

  function Deliver(c: Config, s: Scan, e: RunEventEnvelope, m: RunSummary): Scan
    requires Expects(c, s, e, m)
  {
    var s := s.(sent := s.sent + 1);
    match e.event
    case RunStarted => s.(started := true)
    case TurnStarted(number) =>
      s.(turns := s.turns + 1, request := None,
         turn := Some(Turn(s.turns + 1, e.turnId.value, false, None, false, false, None, Ready, [])))
    case RunFinished(_, _) => s.(ended := Some(e.event))
    case Provider(p) => s.(heard := Some(p.sequence), turn := Some(AfterHearing(s.turn.value, p)))
    case ToolActivity(t) => s.(turn := Some(AfterTool(s, s.turn.value, t)))
    case TurnFinished(_, _, outcome, _) =>
      var t := s.turn.value;
      s.(turn := None, last := Some(outcome),
         exchanges := if outcome.Stopped? then s.exchanges else s.exchanges + [Exchange(t.response.value, t.results)])
  }

  /** Admissibility of every action other than an observer event. */
  predicate Allows(c: Config, s: Scan, a: Action)
    requires !a.Event?
  {
    match a
    case Opened(_) => s.started && !s.sunk && !s.closed && s.session.None?
    case Bound(session, _, _) => Usable(c, s) && s.session.value == session && !s.sunk && !s.closed && s.bound.None? && s.turns == 0
    case Closed => s.session.Some? && !s.closed
    case Generated(input) => Active(s) && !s.turn.value.generated && input == NextInput(c, s)
    case Admitted(request) => Active(s) && s.turn.value.generated && s.request.None? && c.codec.canonicalUuid(request)
    case Began(id) =>
      Active(s) && Working(c, s, s.turn.value) && s.turn.value.phase.Announced?
      && id == Due(s.turn.value).callId && id !in s.began
    case Recorded(request, id, output, _, _) =>
      Active(s) && s.request == Some(request) && Working(c, s, s.turn.value) && s.turn.value.phase.Running?
      && id == Due(s.turn.value).callId && id !in s.saved && |output| <= MAX_TOOL_BYTES
      && c.codec.parse(Due(s.turn.value).arguments).Some?
  }

  function Perform(c: Config, s: Scan, a: Action): Scan
    requires !a.Event? && Allows(c, s, a)
  {
    match a
    case Opened(session) => s.(session := Some(session))
    case Bound(_, identity, ok) => s.(bound := Some(identity), sunk := !ok)
    case Closed => s.(closed := true)
    case Generated(_) => s.(generations := s.generations + 1, turn := Some(s.turn.value.(generated := true)))
    case Admitted(request) => s.(admissions := s.admissions + 1, request := Some(request))
    case Began(id) => s.(began := s.began + {id}, turn := Some(s.turn.value.(phase := Running)))
    case Recorded(_, id, output, isError, ok) =>
      var call := Due(s.turn.value);
      s.(sunk := !ok, turn := Some(s.turn.value.(phase := Saved(isError))),
         saved := s.saved[id := CachedResult(call.name, c.codec.parse(call.arguments).value, output)])
  }

  function Advance(c: Config, s: Scan, step: Step): Option<Scan> {
    var Step(a, m) := step;
    if s.ended.Some? || !Conserved(m) then None
    else if a.Event? then
      if !Expects(c, s, a.envelope, m) then None
      else if a.ok then Some(Deliver(c, s, a.envelope, m))
      else Some(s.(sent := s.sent + 1, sunk := true))
    else if !Allows(c, s, a) then None
    else Some(Perform(c, s, a))
  }

  /** Requests are counted exactly, and no other counter runs ahead of the events delivered
      (but for a turn whose finish could not be delivered). */
  predicate Counted(s: Scan, m: RunSummary) {
    && s.generations == m.attempted && s.admissions == m.admitted
    && m.turnsStarted + m.turnsFinished + m.dispatches + m.reused <= s.sent + if m.turnsStarted == m.turnsFinished then 1 else 0
  }

  function Next(c: Config, s: Scan, step: Step): Option<Scan> {
    var next := Advance(c, s, step);
    if next.Some? && !Counted(next.value, step.summary) then None else next
  }

  function Fold(c: Config, trace: Trace): Option<Scan> {
    if trace == [] then Some(INITIAL)
    else
      var before := Fold(c, trace[..|trace| - 1]);
      if before.None? then None else Next(c, before.value, trace[|trace| - 1])
  }

  predicate Legal(c: Config, trace: Trace) {
    Fold(c, trace).Some?
  }

  /** The returned result tells the truth about the trace: identities, end, sink and outcome. */
  ghost predicate Truthful(c: Config, trace: Trace, r: RunResult) {
    && Legal(c, trace) && r.runId == c.runId && Conserved(r.summary)
    && (r.eventsComplete ==> r.sinkError.None? && r.summary.turnsStarted == r.summary.turnsFinished)
    && var s := Fold(c, trace).value;
       && r.sessionId == SessionOf(c, s) && (s.session.Some? ==> s.closed)
       && s.ended == (if r.eventsComplete then Some(RunFinished(r.outcome, r.summary)) else None)
       && s.sunk == r.sinkError.Some?
       && (r.outcome.Completed? ==>
             && s.last == Some(ModelCompleted) && s.turn.None? && Exact(s, r.summary)
             && r.lastResponse == Some(s.exchanges[|s.exchanges| - 1].response))
  }
}
