/** The run controller: one model/tool loop against an adversarial provider, tool set, observer and
    cancellation token. Every await asks the `Script` for its answer, so a statement about every
    script is a statement about every schedule and every failure point. */
module Run {
  import opened Wire
  import opened Tools
  import opened RunGrammar

  /** What `tool.execute` leads to: serialized output (absent if it cannot be encoded) and its error flag. */
  datatype ToolAnswer = ToolAnswer(output: Option<Text>, isError: bool)

  /** The world's answers. `cancelAt` is the poll from which the token reads as cancelled; the
      answers of observer, provider and tools depend on how far the run has got. */
  datatype Script = Script(
    cancelAt: Option<nat>,
    sink: nat -> Option<SinkError>,
    open: Option<Text>,
    identity: Option<ReplayIdentity>,
    installs: bool,
    generate: nat -> Option<Text>,
    stream: nat -> Option<EventEnvelope>,
    execute: nat -> ToolAnswer,
    turnId: nat -> Text)

  /** Of an installed history, only its emptiness and its expected identity steer the controller. */
  datatype History = History(hasRuns: bool, expected: Option<ReplayIdentity>)

  datatype Res<+T> = Ok(value: T) | Err(reason: RunOutcome)

  const NO_SUMMARY := RunSummary(0, 0, 0, 0, 0, 0, 0, None, None)
  const TOOL_OUTPUT_LIMIT: Text := Ascii("{\"error\":{\"code\":\"tool_output_limit\"}}")

  /** Between the two summaries only dispatches and reuses were counted. */
  predicate OnlyToolWork(before: RunSummary, after: RunSummary) {
    before == after.(dispatches := before.dispatches, reused := before.reused)
  }

  /** Between the two summaries only tool counters moved. */
  predicate OnlyToolResults(before: RunSummary, after: RunSummary) {
    before == after.(dispatches := before.dispatches, reused := before.reused, prepared := before.prepared)
  }

  function Outcome(results: Option<seq<InputItem>>): TurnOutcome {
    if results.Some? then ToolsPrepared else ModelCompleted
  }

  /** Identity and ordering of one turn's provider events. */
  class Collector {
    var responseId: Option<Text>
    var started: bool
    var terminal: bool

    constructor ()
      ensures responseId.None? && !started && !terminal
    {
      responseId, started, terminal := None, false, false;
    }

    /** The collector and the cell of the last sequence describe the same turn as the grammar does. */
    ghost predicate Mirrors(s: Scan, t: Turn, heard: Option<u64>) reads this {
      && responseId == t.responseId && started == t.responseStarted && terminal == t.terminal
      && s.heard == heard
    }

    /** Accepts exactly the events the grammar lets the controller forward, and then has taken them in. */
    method Observe(c: Config, ghost s: Scan, e: EventEnvelope, session: Text, request: Text, heard: Option<u64>)
      returns (r: Res<()>, heard': Option<u64>)
      requires s.turn.Some? && s.session == Some(session) && s.request == Some(request)
      requires Mirrors(s, s.turn.value, heard)
      modifies this
      ensures r.Ok? <==> Hears(c, s, s.turn.value, e)
      ensures r.Ok? ==>
              && heard' == Some(e.sequence) && (heard.Some? ==> heard.value < e.sequence)
              && responseId == AfterHearing(s.turn.value, e).responseId
              && started == AfterHearing(s.turn.value, e).responseStarted
              && terminal == AfterHearing(s.turn.value, e).terminal
      ensures r.Err? ==> r.reason.Failed? && responseId == old(responseId)
    {
      heard' := heard;
      if || e.sessionId != session || e.provider != c.provider || e.requestId != Some(request)
         || (heard.Some? && e.sequence <= heard.value) || terminal
      {
        return Err(Failed("provider_correlation")), heard';
      }
      if c.localIds && !c.codec.localEventId(e.eventId, e.sessionId, e.sequence) {
        return Err(Failed("provider_correlation")), heard';
      }
      heard' := Some(e.sequence);
      var id: Option<Text>;
      match e.event {
        case SessionClosed => return Err(Failed("session_closed")), heard';
        case ResponseStarted(responseId) =>
          if started {
            return Err(Failed("provider_correlation")), heard';
          }
          started := true;
          id := Some(responseId);
        case Progress(responseId) => id := Some(responseId);
        case ResponseFinished(response) =>
          terminal := true;
          id := Some(response.id);
        case RequestFailed(_) =>
          terminal := true;
          id := None;
        case ProviderExtension => id := None;
      }
      if id.Some? {
        if id.value == [] || (responseId.Some? && responseId.value != id.value) {
          return Err(Failed("provider_correlation")), heard';
        }
        responseId := id;
      }
      return Ok(()), heard';
    }
  }

  /** `calls` are exactly the turn's calls that have no result yet, parsed and free of conflict. */
  ghost predicate DueCalls(c: Config, t: Turn, calls: seq<PreparedCall>, saved: map<Text, CachedResult>) {
    && t.response.Some? && Executable(c.codec, c.tools, t.response.value)
    && |t.results| + |calls| == |Calls(t)|
    && (forall k :: 0 <= k < |calls| ==>
          && calls[k].call == Calls(t)[|t.results| + k]
          && c.codec.parse(calls[k].call.arguments) == Some(calls[k].arguments)
          && Agrees(c.codec, saved, calls[k].call))
  }

  lemma DueWorks(c: Config, s: Scan, t: Turn, calls: seq<PreparedCall>)
    requires calls != [] && DueCalls(c, t, calls, s.saved)
    ensures Working(c, s, t) && calls[0].call == Due(t)
  {
    forall k | |t.results| <= k < |Calls(t)| ensures Agrees(c.codec, s.saved, Calls(t)[k]) {
      assert calls[k - |t.results|].call == Calls(t)[|t.results| + (k - |t.results|)];
    }
  }

  /** Answering the first due call leaves the others due: ids within a response are distinct. */
  lemma DueNext(c: Config, t: Turn, t': Turn, calls: seq<PreparedCall>,
                saved: map<Text, CachedResult>, saved': map<Text, CachedResult>)
    requires calls != [] && DueCalls(c, t, calls, saved)
    requires t'.response == t.response && |t'.results| == |t.results| + 1
    requires forall id :: id != calls[0].call.callId ==> (id in saved' <==> id in saved)
    requires forall id :: id != calls[0].call.callId && id in saved ==> saved'[id] == saved[id]
    ensures DueCalls(c, t', calls[1..], saved')
  {
    forall k | 0 <= k < |calls| - 1
      ensures calls[1..][k].call == Calls(t')[|t'.results| + k] && Agrees(c.codec, saved', calls[1..][k].call)
    {
      assert calls[1..][k] == calls[k + 1];
      assert calls[0].call == Calls(t)[|t.results|] && calls[k + 1].call == Calls(t)[|t.results| + k + 1];
    }
  }

  /** The case of a fresh result saved under the first call's id. */
  lemma DueAfterSaving(c: Config, t: Turn, t': Turn, calls: seq<PreparedCall>, saved: map<Text, CachedResult>,
          result: CachedResult)
    requires calls != [] && DueCalls(c, t, calls, saved) && calls[0].call.callId !in saved
    requires t'.response == t.response && |t'.results| == |t.results| + 1
    ensures var saved' := saved[calls[0].call.callId := result];
            && DueCalls(c, t', calls[1..], saved') && |saved'| == |saved| + 1
            && saved'.Keys == saved.Keys + {calls[0].call.callId}
  {
    OneMore(saved, calls[0].call.callId, result);
    DueNext(c, t, t', calls, saved, saved[calls[0].call.callId := result]);
  }

  lemma OneMore(saved: map<Text, CachedResult>, id: Text, result: CachedResult)
    requires id !in saved
    ensures |saved[id := result]| == |saved| + 1 && saved[id := result].Keys == saved.Keys + {id}
  {
  }

  /** A response that passed preflight has all of its calls due. */
  lemma AllDue(c: Config, t: Turn, response: ModelResponse, calls: seq<PreparedCall>, saved: map<Text, CachedResult>)
    requires t.response == Some(response) && t.results == [] && Executable(c.codec, c.tools, response)
    requires forall k :: 0 <= k < |CallsOf(response.output)| ==>
               Agrees(c.codec, saved, CallsOf(response.output)[k]) && c.codec.parse(CallsOf(response.output)[k].arguments).Some?
    requires calls == Prepared(c.codec, CallsOf(response.output))
    ensures DueCalls(c, t, calls, saved)
  {
  }

  lemma TotalMore(exchanges: seq<Exchange>, e: Exchange)
    ensures Total(exchanges + [e]) == Total(exchanges) + |e.results|
  {
    assert (exchanges + [e])[..|exchanges|] == exchanges;
  }

  /** The calls of one preflighted response that are still to run. */
  class PreparedBatch {
    var calls: seq<PreparedCall>

    constructor (calls: seq<PreparedCall>)
      ensures this.calls == calls
    {
      this.calls := calls;
    }
  }

  /** The provider session as the run holds it. */
  datatype Hold = NotOpened | Holding(session: Text) | Released(session: Text)

  class State {
    const c: Config
    const script: Script
    var trace: Trace
    ghost var scan: Scan
    ghost var hold: Hold
    ghost var bound: Option<ReplayIdentity>
    var tick: nat
    var pulled: nat
    var sequence: u64
    var sessionId: Option<Text>
    var turnId: Option<Text>
    var requestId: Option<Text>
    var sinkError: Option<SinkError>
    var summary: RunSummary
    var lastResponse: Option<ModelResponse>

    constructor (c: Config, script: Script)
      ensures this.c == c && this.script == script
      ensures Linked() && trace == [] && scan == INITIAL && sinkError.None?
      ensures sessionId.None? && turnId.None? && requestId.None? && summary == NO_SUMMARY
    {
      this.c, this.script := c, script;
      trace, scan, hold, bound := [], INITIAL, NotOpened, None;
      tick, pulled, sequence := 0, 0, 0;
      sessionId, turnId, requestId, sinkError := None, None, None, None;
      summary, lastResponse := NO_SUMMARY, None;
    }

    /** The trace is legal and `scan` is where it stands. Stated of the whole trace as a slice, so
        that only the one method that appends to it ever unfolds `Fold`. */
    ghost predicate Told() reads this {
      forall n {:trigger trace[..n]} :: n == |trace| ==> Fold(c, trace[..n]) == Some(scan)
    }

    /** Holds at every await of a run that has not reported its end. */
    ghost predicate Linked() reads this {
      && Told() && scan.ended.None?
      && scan.sent == sequence && scan.sunk == sinkError.Some?
      && Conserved(summary) && Counted(scan, summary)
      && scan.session == (if hold.NotOpened? then None else Some(hold.session)) && scan.closed == hold.Released? && scan.bound == bound
    }

    /** Another event can still reach the observer. */
    predicate Open() reads this {
      sinkError.None? && sequence < U64_MAX
    }

    function Envelope(event: RunEvent): RunEventEnvelope
      requires Open()
      reads this
    {
      RunEventEnvelope(sequence + 1, c.runId, turnId, sessionId, requestId, event)
    }

    /** The event sequence is ahead of every other counter, so none of them can overflow next. */
    predicate Ahead() reads this {
      summary.turnsStarted + summary.turnsFinished + summary.dispatches + summary.reused < sequence
    }

    /** In a turn whose stop could be reported now. */
    ghost predicate Reportable(responseId: Option<Text>) reads this {
      && Active(scan) && Usable(c, scan)
      && sessionId == scan.session && requestId == scan.request && turnId == Some(scan.turn.value.id)
      && scan.turns == scan.turn.value.number == summary.turnsStarted
      && responseId == scan.turn.value.responseId && Ahead()
      && (scan.request.Some? ==> summary.lastRequest == scan.request)
      && (!scan.turn.value.generated ==> summary.lastUpstream == Some(NotSubmitted))
      && (scan.turn.value.response.Some? ==> summary.lastUpstream == Some(TerminalReceived))
    }

    /** No result is owed, and the cache is exactly what the trace recorded. */
    ghost predicate Settled(registry: ToolRegistry) reads this, registry {
      && summary.dispatches + summary.reused == summary.prepared && Tallied(scan, summary)
      && registry.Valid() && registry.tools == c.tools
      && registry.results == scan.saved && scan.began == scan.saved.Keys
    }

    method Cancelled() returns (b: bool)
      modifies `tick
    {
      tick := tick + 1;
      b := script.cancelAt.Some? && script.cancelAt.value <= tick;
    }

    method Act(a: Action)
      requires Told() && Next(c, scan, Step(a, summary)).Some?
      modifies `trace, `scan
      ensures Told()
      ensures Next(c, old(scan), Step(a, summary)) == Some(scan)
    {
      assert trace[..|trace|] == trace;
      scan := Next(c, scan, Step(a, summary)).value;
      trace := trace + [Step(a, summary)];
      assert trace[..|trace|] == trace && trace[..|trace| - 1] == old(trace);
    }

    /** Perform an admissible action other than reporting an event. */
    method Do(a: Action)
      requires Told() && scan.ended.None? && Conserved(summary)
      requires !a.Event? && Allows(c, scan, a)
      requires Counted(Perform(c, scan, a), summary)
      modifies `trace, `scan
      ensures Told() && scan == Perform(c, old(scan), a)
    {
      Act(a);
    }

    method Send(event: RunEvent) returns (r: Res<()>)
      requires Linked()
      requires Open() ==> Expects(c, scan, Envelope(event), summary)
      modifies `trace, `scan, `sequence, `sinkError
      ensures if event.RunFinished? && r.Ok? then Told() else Linked()
      ensures r.Ok? ==>
              && old(Open()) && sinkError.None?
              && scan == Deliver(c, old(scan), old(Envelope(event)), summary)
      ensures r.Err? ==>
              && !Open() && r.reason.Failed?
              && (scan == old(scan) || scan == old(scan).(sent := old(scan).sent + 1, sunk := true))
    {
      if sinkError.Some? {
        return Err(Failed("event_sink"));
      }
      if sequence == U64_MAX {
        return Err(Failed("counter_overflow"));
      }
      var envelope := Envelope(event);
      var answer := script.sink(|trace|);
      sequence := sequence + 1;
      Act(Event(envelope, answer.None?));
      if answer.Some? {
        sinkError := answer;
        return Err(Failed("event_sink"));
      }
      return Ok(());
    }

    method CountWork(e: ToolEvent)
      requires Linked()
      requires Ahead() && (!e.ToolFinished? ==> summary.dispatches + summary.reused == summary.prepared)
      modifies `summary
      ensures Linked() && OnlyToolWork(old(summary), summary)
      ensures summary.dispatches == old(summary.dispatches) + (if e.ToolStarted? then 1 else 0)
      ensures summary.reused == old(summary.reused) + (if e.ToolReused? then 1 else 0)
    {
      match e {
        case ToolStarted(_, _) => summary := summary.(dispatches := summary.dispatches + 1);
        case ToolReused(_, _) => summary := summary.(reused := summary.reused + 1);
        case ToolFinished(_, _, _) =>
      }
    }

    /** `ToolObserver::event`: count the work, then report it. */
    method Report(e: ToolEvent) returns (r: Res<()>)
      requires Linked()
      requires Ahead() && (!e.ToolFinished? ==> summary.dispatches + summary.reused == summary.prepared)
      requires Active(scan) && turnId == Some(scan.turn.value.id) && requestId == scan.request
      requires sessionId == SessionOf(c, scan) && ToolFits(c, scan, scan.turn.value, e)
      modifies `trace, `scan, `sequence, `sinkError, `summary
      ensures Linked()
      ensures OnlyToolWork(old(summary), summary)
      ensures e.ToolFinished? ==> summary == old(summary)
      ensures r.Ok? ==>
              && sinkError.None?
              && scan == old(scan).(sent := old(scan).sent + 1, turn := Some(AfterTool(old(scan), old(scan).turn.value, e)))
              && summary.dispatches == old(summary.dispatches) + (if e.ToolStarted? then 1 else 0)
              && summary.reused == old(summary.reused) + (if e.ToolReused? then 1 else 0)
              && Ahead()
      ensures r.Err? ==> r.reason.Failed? && !Open()
    {
      CountWork(e);
      r := Send(ToolActivity(e));
    }

    /** `ToolObserver::result`: hand over a fresh result. */
    method Record(callId: Text, output: Text, isError: bool) returns (r: Res<()>)
      requires Linked() && sinkError.None? && requestId.Some?
      requires Allows(c, scan, Recorded(requestId.value, callId, output, isError, true))
      modifies `trace, `scan, `sinkError
      ensures Linked()
      ensures r.Ok? ==> sinkError.None? && scan == Perform(c, old(scan), Recorded(requestId.value, callId, output, isError, true))
      ensures r.Err? ==> !Open() && r.reason.Failed?
    {
      var answer := script.sink(|trace|);
      Do(Recorded(requestId.value, callId, output, isError, answer.None?));
      if answer.Some? {
        sinkError := answer;
        return Err(Failed("event_sink"));
      }
      return Ok(());
    }

    /** A preflighted batch in progress: its calls are exactly those still due in this turn. */
    ghost predicate Batched(calls: seq<PreparedCall>, registry: ToolRegistry, responseId: Option<Text>)
      reads this, registry
    {
      && Linked() && Reportable(responseId) && scan.turn.value.phase.Ready? && requestId.Some?
      && registry.Valid() && registry.tools == c.tools
      && registry.results == scan.saved && scan.began == scan.saved.Keys && summary.dispatches == |scan.saved|
      && DueCalls(c, scan.turn.value, calls, scan.saved)
    }

    method Start(p: PreparedCall, ghost responseId: Option<Text>)
      requires Linked() && Reportable(responseId) && scan.turn.value.phase.Announced?
      requires Working(c, scan, scan.turn.value) && p.call == Due(scan.turn.value) && p.call.callId !in scan.began
      modifies `trace, `scan
      ensures Linked() && Reportable(responseId)
      ensures scan == old(scan).(began := old(scan).began + {p.call.callId},
                                 turn := Some(old(scan).turn.value.(phase := Running)))
    {
      Do(Began(p.call.callId));
    }

    /** Poll the tool of an announced call, unless cancellation is already there. */
    method Begin(p: PreparedCall, ghost responseId: Option<Text>) returns (r: Res<ToolAnswer>)
      requires Linked() && Reportable(responseId) && scan.turn.value.phase.Announced?
      requires Working(c, scan, scan.turn.value) && p.call == Due(scan.turn.value) && p.call.callId !in scan.began
      modifies `trace, `scan, `tick
      ensures Linked() && Reportable(responseId)
      ensures r.Ok? ==>
                scan == old(scan).(began := old(scan).began + {p.call.callId},
                                   turn := Some(old(scan).turn.value.(phase := Running)))
      ensures r.Err? ==> !r.reason.Completed?
    {
      var stop := Cancelled();
      if stop { return Err(CancelledLocally); }
      // The stop future is polled before the tool.
      stop := Cancelled();
      if stop { return Err(CancelledLocally); }
      Start(p, responseId);
      stop := Cancelled();
      if stop { return Err(CancelledLocally); }
      return Ok(script.execute(|trace|));
    }

    /** Announce a call whose id never began, and poll its tool. */
    method Execute(p: PreparedCall, ghost responseId: Option<Text>) returns (r: Res<ToolAnswer>)
      requires Linked() && Reportable(responseId) && scan.turn.value.phase.Ready?
      requires Working(c, scan, scan.turn.value) && p.call == Due(scan.turn.value)
      requires p.call.callId !in scan.saved && p.call.callId !in scan.began
      requires summary.dispatches + summary.reused == summary.prepared
      modifies `trace, `scan, `sequence, `sinkError, `summary, `tick
      ensures Linked() && OnlyToolWork(old(summary), summary)
      ensures r.Ok? ==>
              && sinkError.None?
              && scan == old(scan).(sent := old(scan).sent + 1, began := old(scan).began + {p.call.callId},
                                    turn := Some(old(scan).turn.value.(phase := Running)))
              && summary.dispatches == old(summary.dispatches) + 1 && summary.reused == old(summary.reused) && Ahead()
      ensures r.Err? ==> !r.reason.Completed? && (!Open() || Reportable(responseId))
    {
      var started := Report(ToolStarted(p.call.callId, p.call.name));
      if started.Err? { return Err(started.reason); }
      r := Begin(p, responseId);
    }

    /** Save, record and report a fresh output. */
    method Save(p: PreparedCall, registry: ToolRegistry, output: Text, isError: bool, ghost responseId: Option<Text>)
      returns (r: Res<()>)
      requires Linked() && Reportable(responseId) && scan.turn.value.phase.Running? && sinkError.None?
      requires Working(c, scan, scan.turn.value) && p.call == Due(scan.turn.value)
      requires c.codec.parse(p.call.arguments) == Some(p.arguments)
      requires p.call.callId !in scan.saved && |output| <= MAX_TOOL_BYTES && requestId.Some?
      requires registry.results == scan.saved
      modifies `trace, `scan, `sequence, `sinkError, `summary, registry`results
      ensures Linked() && summary == old(summary)
      ensures r.Ok? ==>
              && sinkError.None? && Ahead()
              && registry.results == old(scan).saved[p.call.callId := CachedResult(p.call.name, p.arguments, output)]
              && scan == old(scan).(sent := old(scan).sent + 1, saved := registry.results,
                   turn := Some(old(scan).turn.value.(phase := Ready,
                     results := old(scan).turn.value.results + [ToolResult(p.call.callId, output)])))
      ensures r.Err? ==> !r.reason.Completed? && (!Open() || Reportable(responseId))
    {
      registry.results := registry.results[p.call.callId := CachedResult(p.call.name, p.arguments, output)];
      var recorded := Record(p.call.callId, output, isError);
      if recorded.Err? { return Err(recorded.reason); }
      var finished := Report(ToolFinished(p.call.callId, p.call.name, isError));
      if finished.Err? { return Err(finished.reason); }
      return Ok(());
    }

    /** Run a call that has no saved result. */
    method Dispatch(p: PreparedCall, registry: ToolRegistry, ghost responseId: Option<Text>) returns (r: Res<Text>)
      requires Linked() && Reportable(responseId) && scan.turn.value.phase.Ready?
      requires Working(c, scan, scan.turn.value) && p.call == Due(scan.turn.value)
      requires c.codec.parse(p.call.arguments) == Some(p.arguments)
      requires registry.results == scan.saved && scan.began == scan.saved.Keys && p.call.callId !in scan.saved
      requires requestId.Some?
      requires summary.dispatches + summary.reused == summary.prepared
      modifies `trace, `scan, `sequence, `sinkError, `summary, `tick, registry`results
      ensures Linked() && OnlyToolWork(old(summary), summary)
      ensures r.Ok? ==>
              && sinkError.None? && Ahead()
              && registry.results == old(scan).saved[p.call.callId := CachedResult(p.call.name, p.arguments, r.value)]
              && scan == old(scan).(sent := scan.sent, saved := registry.results, began := old(scan).began + {p.call.callId},
                   turn := Some(old(scan).turn.value.(
                     results := old(scan).turn.value.results + [ToolResult(p.call.callId, r.value)])))
              && summary.dispatches == old(summary.dispatches) + 1 && summary.reused == old(summary.reused)
      ensures r.Err? ==> !r.reason.Completed? && (!Open() || Reportable(responseId))
    {
      var executed := Execute(p, responseId);
      if executed.Err? { return Err(executed.reason); }
      var answer := executed.value;
      if answer.output.None? {
        return Err(Failed("tool_execution"));
      }
      var output, isError := answer.output.value, answer.isError;
      if |output| > MAX_TOOL_BYTES {
        output, isError := TOOL_OUTPUT_LIMIT, true;
      }
      var saved := Save(p, registry, output, isError, responseId);
      if saved.Err? { return Err(saved.reason); }
      return Ok(output);
    }

    /** One call of the batch was answered with `item`. */
    twostate predicate Answered(calls: seq<PreparedCall>, registry: ToolRegistry, item: InputItem, responseId: Option<Text>)
      reads this, registry
    {
      && calls != [] && old(scan).turn.Some?
      && Batched(calls[1..], registry, responseId)
      && scan.turn.value.response == old(scan).turn.value.response
      && scan.turn.value.results == old(scan).turn.value.results + [item]
      && scan.exchanges == old(scan).exchanges && scan.heard == old(scan).heard
      && summary.dispatches + summary.reused == summary.prepared + 1
    }

    /** Answer a call with the output saved under its id. */
    method ReuseCall(calls: seq<PreparedCall>, registry: ToolRegistry, ghost responseId: Option<Text>)
      returns (r: Res<InputItem>)
      requires calls != [] && Batched(calls, registry, responseId) && calls[0].call.callId in registry.results
      requires summary.dispatches + summary.reused == summary.prepared
      modifies `trace, `scan, `sequence, `sinkError, `summary
      ensures Linked() && OnlyToolWork(old(summary), summary)
      ensures r.Ok? ==> Answered(calls, registry, r.value, responseId)
      ensures r.Err? ==> !r.reason.Completed? && !Open()
    {
      DueWorks(c, scan, scan.turn.value, calls);
      var id := calls[0].call.callId;
      var reused := Report(ToolReused(id, calls[0].call.name));
      if reused.Err? { return Err(reused.reason); }
      DueNext(c, old(scan).turn.value, scan.turn.value, calls, old(scan).saved, scan.saved);
      return Ok(ToolResult(id, registry.results[id].output));
    }

    method DispatchCall(calls: seq<PreparedCall>, registry: ToolRegistry, ghost responseId: Option<Text>)
      returns (r: Res<InputItem>)
      requires calls != [] && Batched(calls, registry, responseId) && calls[0].call.callId !in registry.results
      requires summary.dispatches + summary.reused == summary.prepared
      modifies `trace, `scan, `sequence, `sinkError, `summary, `tick, registry`results
      ensures Linked() && OnlyToolWork(old(summary), summary)
      ensures r.Ok? ==> Answered(calls, registry, r.value, responseId)
      ensures r.Err? ==> !r.reason.Completed? && (!Open() || Reportable(responseId))
    {
      DueWorks(c, scan, scan.turn.value, calls);
      var output := Dispatch(calls[0], registry, responseId);
      if output.Err? { return Err(output.reason); }
      DueAfterSaving(c, old(scan).turn.value, scan.turn.value, calls, old(scan).saved,
                     CachedResult(calls[0].call.name, calls[0].arguments, output.value));
      return Ok(ToolResult(calls[0].call.callId, output.value));
    }

    /** Run or reuse the next call. Its id never began before, unless its earlier output is returned. */
    method ExecuteCall(calls: seq<PreparedCall>, registry: ToolRegistry, ghost responseId: Option<Text>)
      returns (r: Res<InputItem>)
      requires calls != [] && Batched(calls, registry, responseId)
      requires summary.dispatches + summary.reused == summary.prepared
      modifies `trace, `scan, `sequence, `sinkError, `summary, `tick, registry`results
      ensures Linked() && OnlyToolWork(old(summary), summary)
      ensures r.Ok? ==> Answered(calls, registry, r.value, responseId)
      ensures r.Err? ==> !r.reason.Completed? && (!Open() || Reportable(responseId))
    {
      var stop := Cancelled();
      if stop { return Err(CancelledLocally); }
      if calls[0].call.callId in registry.results {
        r := ReuseCall(calls, registry, responseId);
      } else {
        r := DispatchCall(calls, registry, responseId);
      }
    }

    method ExecuteNext(batch: PreparedBatch, registry: ToolRegistry, ghost responseId: Option<Text>)
      returns (r: Res<Option<InputItem>>)
      requires Batched(batch.calls, registry, responseId)
      requires summary.dispatches + summary.reused == summary.prepared
      modifies `trace, `scan, `sequence, `sinkError, `summary, `tick, registry`results, batch
      ensures Linked()
      ensures OnlyToolWork(old(summary), summary)
      ensures r.Ok? ==>
              && Batched(batch.calls, registry, responseId)
              && scan.turn.value.response == old(scan).turn.value.response
              && scan.exchanges == old(scan).exchanges && scan.heard == old(scan).heard
              && (r.value.None? <==> old(batch.calls) == [])
              && (r.value.None? ==> scan == old(scan) && summary == old(summary) && batch.calls == [])
              && (r.value.Some? ==>
                    && batch.calls == old(batch.calls)[1..]
                    && scan.turn.value.results == old(scan).turn.value.results + [r.value.value]
                    && summary.dispatches + summary.reused == summary.prepared + 1)
      ensures r.Err? ==> batch.calls == [] && !r.reason.Completed? && (!Open() || Reportable(responseId))
    {
      if batch.calls == [] {
        return Ok(None);
      }
      var executed := ExecuteCall(batch.calls, registry, responseId);
      if executed.Err? {
        batch.calls := [];
        return Err(executed.reason);
      }
      batch.calls := batch.calls[1..];
      return Ok(Some(executed.value));
    }

    method CountResult(calls: seq<PreparedCall>, registry: ToolRegistry, ghost responseId: Option<Text>)
      requires Batched(calls, registry, responseId) && summary.dispatches + summary.reused == summary.prepared + 1
      modifies `summary
      ensures Batched(calls, registry, responseId) && summary == old(summary).(prepared := old(summary).prepared + 1)
    {
      summary := summary.(prepared := summary.prepared + 1);
    }

    method RunNext(batch: PreparedBatch, registry: ToolRegistry, ghost responseId: Option<Text>)
      returns (r: Res<Option<InputItem>>)
      requires Batched(batch.calls, registry, responseId)
      requires summary.dispatches + summary.reused == summary.prepared
      modifies `trace, `scan, `sequence, `sinkError, `summary, `tick, registry`results, batch
      ensures Linked() && OnlyToolResults(old(summary), summary)
      ensures r.Ok? ==>
              && Batched(batch.calls, registry, responseId) && summary.dispatches + summary.reused == summary.prepared
              && scan.turn.value.response == old(scan).turn.value.response
              && scan.exchanges == old(scan).exchanges && scan.heard == old(scan).heard
              && (r.value.None? ==>
                    batch.calls == [] && scan.turn == old(scan).turn && summary.prepared == old(summary.prepared))
              && (r.value.Some? ==>
                    && |batch.calls| < |old(batch.calls)| && summary.prepared == old(summary.prepared) + 1
                    && scan.turn.value.results == old(scan).turn.value.results + [r.value.value])
      ensures r.Err? ==> !r.reason.Completed? && (!Open() || Reportable(responseId))
    {
      r := ExecuteNext(batch, registry, responseId);
      if r.Ok? && r.value.Some? { CountResult(batch.calls, registry, responseId); }
    }

    /** Run the batch to its end; each result is counted before the next call starts. */
    method RunBatch(calls: seq<PreparedCall>, registry: ToolRegistry, ghost responseId: Option<Text>)
      returns (r: Res<seq<InputItem>>)
      requires Batched(calls, registry, responseId) && scan.turn.value.results == []
      requires summary.dispatches + summary.reused == summary.prepared == Total(scan.exchanges)
      modifies `trace, `scan, `sequence, `sinkError, `summary, `tick, registry`results
      ensures Linked() && OnlyToolResults(old(summary), summary)
      ensures r.Ok? ==>
              && Batched([], registry, responseId)
              && summary.dispatches + summary.reused == summary.prepared == Total(scan.exchanges) + |r.value|
              && scan.turn.value.response == old(scan).turn.value.response && scan.turn.value.results == r.value
              && scan.exchanges == old(scan).exchanges && scan.heard == old(scan).heard
      ensures r.Err? ==> !r.reason.Completed? && (!Open() || Reportable(responseId))
    {
      var batch := new PreparedBatch(calls);
      var results: seq<InputItem> := [];
      while true
        invariant Batched(batch.calls, registry, responseId)
        invariant OnlyToolResults(old(summary), summary)
        invariant summary.dispatches + summary.reused == summary.prepared == Total(scan.exchanges) + |results|
        invariant scan.turn.value.response == old(scan).turn.value.response && scan.turn.value.results == results
        invariant scan.exchanges == old(scan).exchanges && scan.heard == old(scan).heard
        decreases |batch.calls|
      {
        var next := RunNext(batch, registry, responseId);
        if next.Err? { return Err(next.reason); }
        if next.value.None? { return Ok(results); }
        results := results + [next.value.value];
      }
    }

    /** Only completed responses of known items go on; says whether any item is a function call. */
    static method Inspect(response: ModelResponse) returns (r: Res<bool>)
      ensures r.Ok? ==>
              && response.outcome.ResponseCompleted?
              && (forall i :: 0 <= i < |response.output| ==>
                    Plain(response.output[i].kind) || (r.value && response.output[i].kind.FunctionCallItem?))
              && (r.value ==> exists i :: 0 <= i < |response.output| && response.output[i].kind.FunctionCallItem?)
      ensures r.Err? ==> r.reason.Failed?
    {
      match response.outcome {
        case ResponseCompleted =>
        case Incomplete => return Err(Failed("model_incomplete"));
        case ResponseFailed => return Err(Failed("model_failed"));
        case ResponseCancelled => return Err(Failed("model_cancelled"));
      }
      if exists i :: 0 <= i < |response.output| && !Plain(response.output[i].kind) && !response.output[i].kind.FunctionCallItem? {
        return Err(Failed("unsupported_output"));
      }
      return Ok(exists i :: 0 <= i < |response.output| && response.output[i].kind.FunctionCallItem?);
    }

    /** Preflight every call of the response before the first one starts. */
    method RunTools(registry: ToolRegistry, response: ModelResponse, ghost responseId: Option<Text>)
      returns (r: Res<Option<seq<InputItem>>>)
      requires Linked() && Reportable(responseId) && Settled(registry)
      requires scan.turn.value.phase.Ready? && scan.turn.value.results == [] && scan.turn.value.response == Some(response)
      requires requestId.Some?
      modifies `trace, `scan, `sequence, `sinkError, `summary, `tick, registry`results
      ensures Linked() && OnlyToolResults(old(summary), summary)
      ensures r.Ok? ==>
              && Reportable(responseId) && Settled(registry) && r.value.Some?
              && scan.turn.value.phase.Ready? && scan.turn.value.response == Some(response)
              && scan.turn.value.results == r.value.value && ValidInput(c.codec, r.value.value)
              && Executable(c.codec, c.tools, response) && |r.value.value| == |CallsOf(response.output)|
              && scan.exchanges == old(scan).exchanges && scan.heard == old(scan).heard
      ensures r.Err? ==> !r.reason.Completed? && (!Open() || Reportable(responseId))
    {
      var stop := Cancelled();
      if stop { return Err(CancelledLocally); }
      var prepared := registry.Preflight(c.codec, response);
      if prepared.None? { return Err(Failed("tool_preflight")); }
      stop := Cancelled();
      if stop { return Err(CancelledLocally); }
      AllDue(c, scan.turn.value, response, prepared.value, scan.saved);
      var results := RunBatch(prepared.value, registry, responseId);
      if results.Err? { return Err(results.reason); }
      stop := Cancelled();
      if stop { return Err(CancelledLocally); }
      if !ValidInput(c.codec, results.value) { return Err(Failed("tool_result_input")); }
      return Ok(Some(results.value));
    }

    /** Validate the response, then run all of its calls or none of them. */
    method PrepareTools(registry: ToolRegistry, ghost responseId: Option<Text>) returns (r: Res<Option<seq<InputItem>>>)
      requires Linked() && Reportable(responseId) && Settled(registry)
      requires scan.turn.value.phase.Ready? && scan.turn.value.results == []
      requires lastResponse.Some? && scan.turn.value.response == lastResponse && requestId.Some?
      modifies `trace, `scan, `sequence, `sinkError, `summary, `tick, registry`results
      ensures Linked() && OnlyToolResults(old(summary), summary)
      ensures r.Ok? ==>
              && Reportable(responseId) && Settled(registry)
              && Reports(c, scan.turn.value, Outcome(r.value))
              && (r.value.Some? ==> scan.turn.value.results == r.value.value)
              && scan.turn.value.response == lastResponse
              && scan.exchanges == old(scan).exchanges && scan.heard == old(scan).heard
      ensures r.Err? ==> !r.reason.Completed? && (!Open() || Reportable(responseId))
    {
      var response := lastResponse.value;
      var calls := Inspect(response);
      if calls.Err? { return Err(calls.reason); }
      if !calls.value { return Ok(None); }
      r := RunTools(registry, response, responseId);
    }

    /** Waiting for the provider: nothing of this turn's response is complete yet. */
    ghost predicate Listening(collector: Collector, heard: Option<u64>) reads this, collector {
      && Linked() && Reportable(collector.responseId) && requestId.Some?
      && collector.Mirrors(scan, scan.turn.value, heard)
      && scan.turn.value.generated && !scan.turn.value.terminal && scan.turn.value.response.None?
      && scan.turn.value.phase.Ready? && scan.turn.value.results == []
    }

    method Forward(event: EventEnvelope) returns (r: Res<()>)
      requires Linked() && Active(scan) && Usable(c, scan) && sessionId == scan.session
      requires requestId == scan.request && turnId == Some(scan.turn.value.id) && Hears(c, scan, scan.turn.value, event)
      modifies `trace, `scan, `sequence, `sinkError
      ensures Linked()
      ensures r.Ok? ==>
              scan == old(scan).(sent := old(scan).sent + 1, heard := Some(event.sequence),
                                 turn := Some(AfterHearing(old(scan).turn.value, event)))
      ensures r.Err? ==> !Open() && r.reason.Failed?
    {
      r := Send(Provider(event));
    }

    /** Check one provider event and forward it; `Ok(true)` says the response is finished. */
    method NoteTerminal(event: ProviderEvent)
      requires Linked()
      modifies `summary, `lastResponse
      ensures Linked() && summary == old(summary).(lastUpstream := summary.lastUpstream)
      ensures event.ResponseFinished? ==> summary.lastUpstream == Some(TerminalReceived) && lastResponse == Some(event.response)
      ensures !event.ResponseFinished? && !event.RequestFailed? ==> summary == old(summary)
    {
      if event.ResponseFinished? {
        summary := summary.(lastUpstream := Some(TerminalReceived));
        lastResponse := Some(event.response);
      } else if event.RequestFailed? {
        summary := summary.(lastUpstream := Some(event.upstream));
      }
    }

    method Collect(event: EventEnvelope, collector: Collector, heard: Option<u64>) returns (r: Res<bool>, heard': Option<u64>)
      requires Listening(collector, heard)
      modifies `trace, `scan, `sequence, `sinkError, `summary, `lastResponse, collector
      ensures Linked() && summary == old(summary).(lastUpstream := summary.lastUpstream)
      ensures r.Ok? ==>
              && heard'.Some? && (heard.Some? ==> heard.value < heard'.value)
              && scan == old(scan).(sent := scan.sent, heard := scan.heard, turn := scan.turn)
              && (!r.value ==> Listening(collector, heard'))
              && (r.value ==>
                    && Reportable(collector.responseId) && scan.heard == heard'
                    && lastResponse.Some? && scan.turn.value.response == lastResponse
                    && scan.turn.value.phase.Ready? && scan.turn.value.results == [])
      ensures r.Err? ==> !r.reason.Completed? && (!Open() || Reportable(collector.responseId))
    {
      var observed;
      observed, heard' := collector.Observe(c, scan, event, sessionId.value, requestId.value, heard);
      if observed.Err? { return Err(observed.reason), heard'; }
      NoteTerminal(event.event);
      var sent := Forward(event);
      if sent.Err? { return Err(sent.reason), heard'; }
      if event.event.RequestFailed? { return Err(Failed("provider_request_failed")), heard'; }
      return Ok(event.event.ResponseFinished?), heard';
    }

    /** Forward provider events until a terminal one. Sequences are bounded, so this ends. */
    method CollectResponse(collector: Collector, heard: Option<u64>) returns (r: Res<()>, heard': Option<u64>)
      requires Listening(collector, heard)
      modifies `trace, `scan, `sequence, `sinkError, `summary, `tick, `pulled, `lastResponse, collector
      ensures Linked() && summary == old(summary).(lastUpstream := summary.lastUpstream)
      ensures r.Ok? ==>
              && Reportable(collector.responseId) && scan.heard == heard'
              && scan == old(scan).(sent := scan.sent, heard := scan.heard, turn := scan.turn)
              && lastResponse.Some? && scan.turn.value.response == lastResponse
              && scan.turn.value.phase.Ready? && scan.turn.value.results == []
      ensures r.Err? ==> !r.reason.Completed? && (!Open() || Reportable(collector.responseId))
    {
      heard' := heard;
      while true
        invariant Listening(collector, heard')
        invariant summary == old(summary).(lastUpstream := summary.lastUpstream)
        invariant scan == old(scan).(sent := scan.sent, heard := scan.heard, turn := scan.turn)
        decreases if heard'.None? then U64_MAX + 1 else U64_MAX - heard'.value
      {
        var stop := Cancelled();
        if stop { return Err(CancelledLocally), heard'; }
        stop := Cancelled();
        if stop { return Err(CancelledLocally), heard'; }
        var next := script.stream(pulled);
        pulled := pulled + 1;
        if next.None? { return Err(Failed("provider_eof")), heard'; }
        var finished;
        finished, heard' := Collect(next.value, collector, heard');
        if finished.Err? { return Err(finished.reason), heard'; }
        if finished.value { return Ok(()), heard'; }
      }
    }

    /** Between turns: everything asked so far was answered, and the next input is fixed. */
    ghost predicate Idle(input: seq<InputItem>, registry: ToolRegistry, heard: Option<u64>) reads this, registry {
      && Linked() && Settled(registry) && sinkError.None?
      && scan.started && !scan.closed && Usable(c, scan) && sessionId == scan.session && scan.turn.None?
      && scan.turns == |scan.exchanges| == summary.turnsFinished == summary.attempted == summary.admitted
      && (scan.turns == 0 ==> scan.last.None?) && (scan.turns > 0 ==> scan.last == Some(ToolsPrepared))
      && input == NextInput(c, scan)
      && scan.heard == heard
    }

    method Announce(input: seq<InputItem>, registry: ToolRegistry, heard: Option<u64>) returns (r: Res<()>)
      requires Idle(input, registry, heard)
      requires turnId.Some? && requestId.None?
      requires summary.turnsStarted == summary.turnsFinished + 1 && summary.lastUpstream == Some(NotSubmitted)
      modifies `trace, `scan, `sequence, `sinkError, `tick
      ensures Linked()
      ensures r.Ok? ==>
              && sinkError.None?
              && scan == old(scan).(sent := old(scan).sent + 1, turns := old(scan).turns + 1, request := None,
                   turn := Some(Turn(old(scan).turns + 1, turnId.value, false, None, false, false, None, Ready, [])))
      ensures r.Err? ==> !r.reason.Completed? && (!Open() || Reportable(None))
    {
      r := Send(TurnStarted(summary.turnsStarted));
      if r.Err? { return; }
      var stop := Cancelled();
      if stop { return Err(CancelledLocally); }
      stop := Cancelled();
      if stop { return Err(CancelledLocally); }
    }

    method Submit(input: seq<InputItem>)
      requires Linked() && Reportable(None) && requestId.None? && input == NextInput(c, scan)
      requires !scan.turn.value.generated && scan.turn.value.response.None?
      requires summary.attempted == summary.admitted < summary.turnsStarted
      modifies `trace, `scan, `summary
      ensures Linked() && Reportable(None)
      ensures summary == old(summary).(attempted := old(summary).attempted + 1, lastUpstream := Some(UnknownUpstream))
      ensures scan == old(scan).(generations := old(scan).generations + 1, turn := Some(old(scan).turn.value.(generated := true)))
    {
      summary := summary.(attempted := summary.attempted + 1, lastUpstream := Some(UnknownUpstream));
      Do(Generated(input));
    }

    method Admit(request: Text)
      requires Linked() && Reportable(None) && requestId.None? && scan.turn.value.generated && scan.turn.value.response.None?
      requires summary.admitted < summary.attempted && c.codec.canonicalUuid(request)
      modifies `trace, `scan, `requestId, `summary
      ensures Linked() && requestId == Some(request)
      ensures summary == old(summary).(admitted := old(summary).admitted + 1, lastRequest := Some(request))
      ensures scan == old(scan).(admissions := old(scan).admissions + 1, request := Some(request))
    {
      summary := summary.(admitted := summary.admitted + 1, lastRequest := Some(request));
      requestId := Some(request);
      Do(Admitted(request));
    }

    /** Poll generate once and take its receipt. */
    method Poll(input: seq<InputItem>) returns (r: Res<()>)
      requires Linked() && Reportable(None) && requestId.None? && input == NextInput(c, scan)
      requires !scan.turn.value.generated && scan.turn.value.response.None?
      requires summary.attempted == summary.admitted < summary.turnsStarted
      modifies `trace, `scan, `requestId, `summary, `tick
      ensures Linked()
      ensures summary == old(summary).(attempted := summary.attempted, admitted := summary.admitted,
                                       lastRequest := summary.lastRequest, lastUpstream := summary.lastUpstream)
      ensures r.Ok? ==>
              && requestId.Some? && summary.lastRequest == requestId
              && scan == old(scan).(generations := old(scan).generations + 1, admissions := old(scan).admissions + 1,
                                    request := requestId, turn := Some(old(scan).turn.value.(generated := true)))
              && summary.attempted == summary.admitted == old(summary.attempted) + 1
      ensures r.Err? ==> !r.reason.Completed? && Reportable(None)
    {
      Submit(input);
      var stop := Cancelled();
      if stop { return Err(CancelledLocally); }
      var receipt := script.generate(|trace|);
      if receipt.None? {
        summary := summary.(lastUpstream := Some(NotSubmitted));
        return Err(Failed("generate_rejected"));
      }
      if !c.codec.canonicalUuid(receipt.value) { return Err(Failed("provider_correlation")); }
      Admit(receipt.value);
      return Ok(());
    }

    /** Announce the turn, poll generate with its input, and take the receipt. */
    method Generate(input: seq<InputItem>, registry: ToolRegistry, collector: Collector, heard: Option<u64>) returns (r: Res<()>)
      requires Idle(input, registry, heard)
      requires turnId.Some? && requestId.None?
      requires summary.turnsStarted == summary.turnsFinished + 1 && summary.lastUpstream == Some(NotSubmitted)
      requires collector.responseId.None? && !collector.started && !collector.terminal
      modifies `trace, `scan, `sequence, `requestId, `sinkError, `summary, `tick
      ensures Linked() && summary.turnsStarted == old(summary.turnsStarted) && summary.turnsFinished == old(summary.turnsFinished)
      ensures r.Ok? ==>
              && Listening(collector, heard) && Settled(registry)
              && scan.exchanges == old(scan).exchanges
              && summary.attempted == summary.admitted == summary.turnsStarted
      ensures r.Err? ==> !r.reason.Completed? && (!Open() || Reportable(collector.responseId))
    {
      var announced := Announce(input, registry, heard);
      if announced.Err? { return Err(announced.reason); }
      r := Poll(input);
    }

    /** One turn: announce, generate, collect, prepare. */
    method TakeTurn(input: seq<InputItem>, registry: ToolRegistry, collector: Collector, heard: Option<u64>)
      returns (r: Res<Option<seq<InputItem>>>, heard': Option<u64>)
      requires Idle(input, registry, heard)
      requires turnId.Some? && requestId.None?
      requires summary.turnsStarted == summary.turnsFinished + 1 && summary.lastUpstream == Some(NotSubmitted)
      requires collector.responseId.None? && !collector.started && !collector.terminal
      modifies `trace, `scan, `sequence, `requestId, `sinkError, `summary, `tick, `pulled, `lastResponse
      modifies registry`results, collector
      ensures Linked() && summary.turnsStarted == old(summary.turnsStarted) && summary.turnsFinished == old(summary.turnsFinished)
      ensures r.Ok? ==>
              && Reportable(collector.responseId) && Settled(registry) && scan.heard == heard'
              && Reports(c, scan.turn.value, Outcome(r.value))
              && (r.value.Some? ==> scan.turn.value.results == r.value.value)
              && scan.turn.value.response == lastResponse && scan.request.Some?
              && scan.exchanges == old(scan).exchanges
              && summary.attempted == summary.admitted == summary.turnsStarted
      ensures r.Err? ==> !r.reason.Completed? && (!Open() || Reportable(collector.responseId))
    {
      heard' := heard;
      var generated := Generate(input, registry, collector, heard);
      if generated.Err? { return Err(generated.reason), heard'; }
      var collected;
      collected, heard' := CollectResponse(collector, heard);
      if collected.Err? { return Err(collected.reason), heard'; }
      r := PrepareTools(registry, collector.responseId);
    }

    /** The run could report this outcome now, if an event can still be delivered. */
    ghost predicate Settles(r: Res<()>) reads this {
      && (r.Ok? ==>
            && scan.last == Some(ModelCompleted) && scan.turn.None? && Exact(scan, summary)
            && lastResponse == Some(scan.exchanges[|scan.exchanges| - 1].response))
      && (r.Err? ==> !r.reason.Completed?)
      && (Open() ==>
            && scan.started && scan.turn.None? && requestId == scan.request && sessionId == SessionOf(c, scan)
            && summary.turnsStarted == summary.turnsFinished
            && Fits(scan.last, if r.Ok? then Completed else r.reason))
    }

    /** What a turn leaves behind before it is reported. */
    ghost predicate Taken(turn: Res<Option<seq<InputItem>>>, collector: Collector, registry: ToolRegistry, heard: Option<u64>)
      reads this, collector, registry
    {
      && Linked() && summary.turnsStarted == summary.turnsFinished + 1
      && (turn.Ok? ==>
            && Reportable(collector.responseId) && Settled(registry) && scan.heard == heard
            && Reports(c, scan.turn.value, Outcome(turn.value))
            && (turn.value.Some? ==> scan.turn.value.results == turn.value.value)
            && scan.turn.value.response == lastResponse && scan.request.Some?
            && |scan.exchanges| + 1 == summary.attempted == summary.admitted == summary.turnsStarted)
      && (turn.Err? ==> !turn.reason.Completed? && (!Open() || Reportable(collector.responseId)))
    }

    /** Report the turn unless the observer is gone. */
    method ReportTurn(turn: Res<Option<seq<InputItem>>>, collector: Collector, registry: ToolRegistry, heard: Option<u64>)
      returns (r: Res<()>)
      requires Taken(turn, collector, registry, heard)
      modifies `trace, `scan, `sequence, `sinkError, `summary
      ensures Linked() && summary == old(summary).(turnsFinished := summary.turnsFinished)
      ensures r.Ok? && turn.Ok? ==> sinkError.None?
      ensures r.Ok? && sinkError.None? ==>
              && Ahead() && summary.turnsFinished == summary.turnsStarted
              && old(Reportable(collector.responseId))
              && var t := old(scan).turn.value;
                 var outcome := if turn.Ok? then Outcome(turn.value) else Stopped(turn.reason);
                 && (turn.Ok? ==> t.response.Some?)
                 && scan == old(scan).(sent := old(scan).sent + 1, turn := None, last := Some(outcome),
                      exchanges := if turn.Ok? then old(scan).exchanges + [Exchange(t.response.value, t.results)]
                                   else old(scan).exchanges)
      ensures r.Err? ==> r.reason.Failed? && !Open()
    {
      if sinkError.Some? { return Ok(()); }
      var outcome := if turn.Ok? then Outcome(turn.value) else Stopped(turn.reason);
      summary := summary.(turnsFinished := summary.turnsFinished + 1);
      r := Send(TurnFinished(summary.turnsStarted, collector.responseId, outcome, summary.lastUpstream));
    }

    /** Report the turn; the next input if the run goes on. */
    method FinishTurn(turn: Res<Option<seq<InputItem>>>, collector: Collector, registry: ToolRegistry, heard: Option<u64>)
      returns (r: Res<Option<seq<InputItem>>>)
      requires Taken(turn, collector, registry, heard)
      modifies `trace, `scan, `sequence, `sinkError, `summary
      ensures Linked()
      ensures r.Ok? && r.value.Some? ==>
              && Idle(r.value.value, registry, heard) && requestId == scan.request
              && old(summary.turnsStarted) == summary.turnsStarted == summary.turnsFinished && Ahead()
      ensures !(r.Ok? && r.value.Some?) ==> Settles(if r.Ok? then Ok(()) else Err(r.reason))
    {
      var finished := ReportTurn(turn, collector, registry, heard);
      if finished.Err? { return Err(finished.reason); }
      if turn.Err? { return turn; }
      TotalMore(old(scan).exchanges, Exchange(old(scan).turn.value.response.value, old(scan).turn.value.results));
      return turn;
    }

    /** Start, take and finish one turn. */
    method RunTurn(input: seq<InputItem>, registry: ToolRegistry, heard: Option<u64>)
      returns (r: Res<Option<seq<InputItem>>>, heard': Option<u64>)
      requires Idle(input, registry, heard)
      requires summary.turnsStarted == summary.turnsFinished && Ahead()
      modifies `trace, `scan, `sequence, `turnId, `requestId, `sinkError, `summary, `tick, `pulled, `lastResponse
      modifies registry`results
      ensures Linked()
      ensures r.Ok? && r.value.Some? ==>
              && Idle(r.value.value, registry, heard') && requestId == scan.request
              && old(summary.turnsStarted) < summary.turnsStarted == summary.turnsFinished && Ahead()
      ensures !(r.Ok? && r.value.Some?) ==> Settles(if r.Ok? then Ok(()) else Err(r.reason))
    {
      turnId, requestId := Some(script.turnId(summary.turnsStarted)), None;
      summary := summary.(turnsStarted := summary.turnsStarted + 1, lastUpstream := Some(NotSubmitted));
      var collector := new Collector();
      r, heard' := TakeTurn(input, registry, collector, heard);
      r := FinishTurn(r, collector, registry, heard');
    }

    /** Turn after turn until the model completes or something stops the run. Turns are counted in
        64 bits below the event sequence, so this ends. */
    method Drive(input: seq<InputItem>, registry: ToolRegistry) returns (r: Res<()>)
      requires Idle(input, registry, None) && requestId == scan.request
      requires summary.turnsStarted == summary.turnsFinished && Ahead()
      modifies `trace, `scan, `sequence, `turnId, `requestId, `sinkError, `summary, `tick, `pulled, `lastResponse
      modifies registry`results
      ensures Linked() && Settles(r)
    {
      var input, heard: Option<u64> := input, None;
      while true
        invariant Idle(input, registry, heard) && requestId == scan.request
        invariant summary.turnsStarted == summary.turnsFinished && Ahead()
        decreases U64_MAX - summary.turnsStarted
      {
        var stop := Cancelled();
        if stop { return Err(CancelledLocally); }
        var turn;
        turn, heard := RunTurn(input, registry, heard);
        if turn.Err? { return Err(turn.reason); }
        if turn.value.None? { return Ok(()); }
        input := turn.value.value;
      }
    }

    /** Open the provider session and hand its control to the guard. */
    method OpenSession(guard: CloseGuard) returns (r: Res<()>)
      requires Linked() && scan.started && scan.session.None? && !scan.closed && sinkError.None?
      requires sessionId.None? && !guard.armed
      modifies `trace, `scan, `hold, `sessionId, `tick, guard
      ensures Linked() && scan == old(scan).(session := scan.session) && guard.armed == hold.Holding?
      ensures sessionId == SessionOf(c, scan)
      ensures r.Ok? ==> Usable(c, scan)
      ensures r.Err? ==> !r.reason.Completed?
    {
      var stop := Cancelled();
      if stop { return Err(CancelledLocally); }
      stop := Cancelled();
      if stop { return Err(CancelledLocally); }
      if script.open.None? { return Err(Failed("session_open")); }
      guard.armed := true;
      Do(Opened(script.open.value));
      hold := Holding(script.open.value);
      if c.localIds && !c.codec.canonicalUuid(script.open.value) { return Err(Failed("provider_correlation")); }
      sessionId := script.open;
      return Ok(());
    }

    /** Record the actual binding, then refuse a history of another identity before installing it. */
    method Restore(history: History) returns (r: Res<()>)
      requires Linked() && Usable(c, scan) && sinkError.None? && !scan.closed && scan.bound.None? && scan.turns == 0
      requires sessionId == scan.session
      modifies `trace, `scan, `bound, `sinkError, `tick
      ensures Linked() && scan == old(scan).(bound := scan.bound, sunk := scan.sunk)
      ensures r.Ok? ==> sinkError.None? && scan.bound.Some? && scan.bound == script.identity && (history.hasRuns ==> history.expected == scan.bound)
      ensures r.Err? ==> !r.reason.Completed?
    {
      if script.identity.None? { return Err(Failed("history_identity")); }
      var answer := script.sink(|trace|);
      Do(Bound(sessionId.value, script.identity.value, answer.None?));
      bound := script.identity;
      if answer.Some? {
        sinkError := answer;
        return Err(Failed("event_sink"));
      }
      if history.hasRuns && history.expected != script.identity { return Err(Failed("history_identity")); }
      var stop := Cancelled();
      if stop { return Err(CancelledLocally); }
      stop := Cancelled();
      if stop { return Err(CancelledLocally); }
      if !script.installs { return Err(Failed("history_restore")); }
      return Ok(());
    }

    /** The first event, the provider session, and the history it continues. */
    method Establish(history: Option<History>, guard: CloseGuard) returns (r: Res<()>)
      requires Linked() && scan == INITIAL && summary == NO_SUMMARY && sinkError.None?
      requires sessionId.None? && turnId.None? && requestId.None? && !guard.armed
      modifies `trace, `scan, `hold, `bound, `sequence, `sessionId, `sinkError, `tick, guard
      ensures Linked() && !hold.Released? && guard.armed == hold.Holding? && sessionId == SessionOf(c, scan)
      ensures scan == INITIAL.(sent := scan.sent, sunk := scan.sunk, started := scan.started, session := scan.session, bound := scan.bound)
      ensures r.Ok? ==> Usable(c, scan) && sinkError.None? && scan.started && scan.sent == 1
      ensures r.Ok? && history.Some? ==> scan.bound.Some? && scan.bound == script.identity
      ensures r.Err? ==> !r.reason.Completed? && (Open() ==> scan.started)
    {
      r := Send(RunStarted);
      if r.Err? { return; }
      r := OpenSession(guard);
      if r.Err? { return; }
      if history.Some? { r := Restore(history.value); }
    }

    /** Everything between the first and the last event of a run. */
    method Execution(registry: ToolRegistry, history: Option<History>, guard: CloseGuard) returns (r: Res<()>)
      requires Linked() && scan == INITIAL && summary == NO_SUMMARY && sinkError.None?
      requires sessionId.None? && turnId.None? && requestId.None? && !guard.armed
      requires registry.Valid() && registry.tools == c.tools && registry.results == map[]
      modifies `trace, `scan, `hold, `bound, `sequence, `sessionId, `turnId, `requestId, `sinkError, `summary, `tick, `pulled, `lastResponse
      modifies registry`results, guard
      ensures Linked() && Settles(r) && !hold.Released? && guard.armed == hold.Holding? && sessionId == SessionOf(c, scan)
      ensures r.Ok? && history.Some? ==> scan.bound.Some? && scan.bound == script.identity
    {
      r := Establish(history, guard);
      if r.Err? { return; }
      r := Drive([User(c.prompt)], registry);
    }

    /** Close, then try to report the end; the trace ends with that report if it was taken. */
    method Finish(execution: Res<()>, guard: CloseGuard) returns (eventsComplete: bool)
      requires Linked() && Settles(execution) && !hold.Released? && guard.armed == hold.Holding?
      modifies `trace, `scan, `hold, `sequence, `turnId, `sinkError, guard
      ensures Told() && !guard.armed && eventsComplete == scan.ended.Some?
      ensures eventsComplete ==> scan.ended.value == RunFinished(if execution.Ok? then Completed else execution.reason, summary)
      ensures scan.sunk == sinkError.Some? && (eventsComplete ==> sinkError.None?)
      ensures scan.session.Some? ==> scan.closed
      ensures scan == old(scan).(sent := scan.sent, sunk := scan.sunk, closed := scan.closed, ended := scan.ended)
      ensures eventsComplete ==> summary.turnsStarted == summary.turnsFinished
    {
      guard.Close(this);
      turnId := None;
      var sent := Send(RunFinished(if execution.Ok? then Completed else execution.reason, summary));
      return sent.Ok?;
    }
  }

  /** Closes the provider control once, whether asked to or dropped. */
  class CloseGuard {
    var armed: bool

    constructor ()
      ensures !armed
    {
      armed := false;
    }

    method Close(state: State)
      requires armed ==> state.Linked() && state.hold.Holding?
      modifies this, state`trace, state`scan, state`hold
      ensures !armed
      ensures old(armed) ==> state.Linked() && state.scan == old(state.scan).(closed := true)
      ensures !old(armed) ==> state.scan == old(state.scan) && state.trace == old(state.trace) && state.hold == old(state.hold)
    {
      if armed {
        armed := false;
        state.Do(Closed);
        state.hold := Released(state.hold.session);
      }
    }
  }

  /** One admitted run against any script. The trace is legal; an opened session is closed in it;
      and it ends with the final report exactly when the result says that the events are complete. */
  method RunAdmitted(c: Config, script: Script, tools: ToolRegistry, history: Option<History>)
    returns (result: RunResult, trace: Trace)
    requires tools.Valid() && c.tools == tools.tools && ValidInput(c.codec, [User(c.prompt)])
    ensures Truthful(c, trace, result)
    ensures result.outcome.Completed? && history.Some? ==>
              Fold(c, trace).value.bound.Some? && Fold(c, trace).value.bound == script.identity
  {
    var scope := tools.FreshScope();
    var state := new State(c, script);
    var guard := new CloseGuard();
    var execution := state.Execution(scope, history, guard);
    var complete := state.Finish(execution, guard);
    // Dropping the guard asks it to close once more.
    guard.Close(state);
    trace := state.trace;
    assert trace[..|trace|] == trace;
    result := RunResult(c.runId, state.sessionId, if execution.Ok? then Completed else execution.reason, state.summary,
                        state.lastResponse, complete, state.sinkError);
  }
}
