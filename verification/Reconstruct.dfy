/** The read side of a stored run: one active run fed with its persisted records, and the closed
    run it becomes. Every error of the source, whatever its code, is `None` here. */
module Reconstruct {
  import opened Wire
  import opened RunGrammar
  import opened ReplayValues

  datatype Selection = Selection(
    through: nat, digest: Text, provider: Text, model: Text, expected: Option<ReplayIdentity>)

  datatype Binding = Binding(runId: Text, sessionId: Text, model: Text, identity: ReplayIdentity)

  datatype SavedResult = SavedResult(name: Text, arguments: Json, request: Text, output: Text, isError: bool)

  datatype OpenTurn = OpenTurn(
    id: Text, request: Option<Text>, responseId: Option<Text>, responseStarted: bool,
    response: Option<ModelResponse>, results: seq<InputItem>, intent: Option<Text>, unfinished: Option<Text>)
  {
    /** The call that the next tool record must be about. */
    function NextCall(): Option<FunctionCall> {
      if response.Some? && |results| < |Carried(response.value.output)|
      then Some(Carried(response.value.output)[|results|]) else None
    }

    function Identified(id: Option<Text>): Option<OpenTurn> {
      if id.None? then Some(this)
      else if id.value == [] || (responseId.Some? && responseId.value != id.value) then None
      else Some(this.(responseId := id))
    }

    function Provider(codec: Codec, event: ProviderEvent): Option<OpenTurn> {
      match event
      case ResponseStarted(id) => if responseStarted then None else this.(responseStarted := true).Identified(Some(id))
      case Progress(id) => Identified(Some(id))
      case ResponseFinished(r) =>
        if !ValidResponse(codec, r) then None else this.(response := Some(r)).Identified(Some(r.id))
      case ProviderExtension => Identified(None)
      case RequestFailed(_) => None
      case SessionClosed => None
    }

    function Tool(codec: Codec, event: ToolEvent, saved: map<Text, SavedResult>): Option<OpenTurn> {
      if event.ToolFinished? then
        if || event.callId !in saved || unfinished != Some(event.callId)
           || saved[event.callId].name != event.name || saved[event.callId].isError != event.isError
           || request != Some(saved[event.callId].request)
        then None
        else Some(this.(unfinished := None))
      else if intent.Some? || unfinished.Some? || NextCall().None? then None
      else
        var call := NextCall().value;
        if call.callId != event.callId || call.name != event.name then None
        else if event.ToolStarted? then
          if event.callId in saved then None else Some(this.(intent := Some(event.callId)))
        else if || event.callId !in saved || saved[event.callId].name != event.name
                || codec.parse(call.arguments) != Some(saved[event.callId].arguments)
                || request == Some(saved[event.callId].request)
        then None
        else Some(this.(results := results + [ToolResult(event.callId, saved[event.callId].output)]))
    }
  }

  datatype ActiveRun = ActiveRun(
    runId: Text, accepted: nat, prompt: Text, provider: Text, model: Text,
    selection: Option<Selection>, binding: Option<Binding>, started: bool, sequence: nat, heard: Option<u64>,
    turnsStarted: nat, turnsFinished: nat, lastTurn: Option<(TurnOutcome, Option<UpstreamOutcome>)>, nextAllowed: bool,
    requestIds: set<Text>, turnIds: set<Text>, lastRequest: Option<Text>, runtimeRequest: Option<Text>,
    turn: Option<OpenTurn>, unfinished: bool, exchanges: seq<Exchange>, saved: map<Text, SavedResult>,
    terminal: Option<(RunOutcome, RunSummary)>)
  {
    static function Accepted(sequence: nat, runId: Text, prompt: Text, provider: Text, model: Text): ActiveRun {
      ActiveRun(runId, sequence, prompt, provider, model, None, None, false, 0, None, 0, 0, None, true,
                {}, {}, None, None, None, false, [], map[], None)
    }

    function Select(sequence: nat, s: Selection): Option<ActiveRun> {
      if || selection.Some? || sequence != accepted + 1 || s.through + 1 != accepted
         || s.provider != provider || s.model != model
      then None
      else Some(this.(selection := Some(s)))
    }

    function Bind(b: Binding): Option<ActiveRun> {
      if || selection.None? || !started || sequence != 1 || binding.Some?
         || b.runId != runId || b.identity.provider != provider || b.model != model
      then None
      else Some(this.(binding := Some(b)))
    }

    /** Check an event of the open turn against its identities, and learn its request. */
    function InTurn(e: RunEventEnvelope): Option<ActiveRun> {
      if turn.None? || e.turnId != Some(turn.value.id) then None
      else
        match e.requestId
        case None => if turn.value.request.Some? then None else Some(this)
        case Some(request) =>
          if request == [] || (turn.value.request.Some? && turn.value.request.value != request) then None
          else if turn.value.request.Some? then Some(this)
          else if request in requestIds then None
          else Some(this.(requestIds := requestIds + {request}, lastRequest := Some(request), runtimeRequest := Some(request),
                          turn := Some(turn.value.(request := Some(request)))))
    }

    function FinishTurn(codec: Codec): Option<ActiveRun>
      requires turn.Some?
    {
      var t := turn.value;
      var next := this.(turn := None, unfinished := unfinished || t.unfinished.Some?);
      if t.response.Some? then
        if t.intent.Some? || !ValidExchange(codec, t.response.value, t.results) then None
        else Some(next.(exchanges := exchanges + [Exchange(t.response.value, t.results)]))
      else if t.request.Some? || t.responseId.Some? then None
      else Some(next)
    }

    function TurnReport(codec: Codec, number: u64, responseId: Option<Text>, outcome: TurnOutcome,
            upstream: Option<UpstreamOutcome>)
      : Option<ActiveRun>
      requires turn.Some?
    {
      var t := turn.value;
      if number != turnsStarted || responseId != t.responseId then None
      else if t.response.Some? && upstream != Some(TerminalReceived) then None
      else if t.response.Some? && (outcome.ToolsPrepared? && Carried(t.response.value.output) == []) then None
      else if t.response.Some? && (outcome.ModelCompleted? && Carried(t.response.value.output) != []) then None
      else if t.response.None? && (!outcome.Stopped? || upstream != Some(NotSubmitted)) then None
      else
        var next := this.(lastTurn := Some((outcome, upstream)),
                          nextAllowed := outcome.ToolsPrepared? && t.unfinished.None?).FinishTurn(codec);
        if next.None? then None else Some(next.value.(turnsFinished := turnsFinished + 1))
    }

    function Runtime(codec: Codec, e: RunEventEnvelope): Option<ActiveRun> {
      if selection.None? || e.runId != runId || e.sequence != sequence + 1 || terminal.Some? then None
      else if binding.Some? && e.sessionId != Some(binding.value.sessionId) then None
      else
        var a := this.(sequence := e.sequence);
        match e.event
        case RunStarted => if started || e.sequence != 1 then None else Some(a.(started := true))
        case RunFinished(outcome, summary) =>
          if turn.Some? || e.requestId != runtimeRequest then None else Some(a.(terminal := Some((outcome, summary))))
        case TurnStarted(number) =>
          if || !started || binding.None? || turn.Some? || !nextAllowed || number != turnsStarted + 1
             || (exchanges != [] && exchanges[|exchanges| - 1].results == [])
             || e.turnId.None? || e.turnId.value in turnIds
          then None
          else Some(a.(turnIds := turnIds + {e.turnId.value}, turnsStarted := turnsStarted + 1, runtimeRequest := None,
                       turn := Some(OpenTurn(e.turnId.value, None, None, false, None, [], None, None))))
        case _ =>
          var b := a.InTurn(e);
          if b.None? then None else b.value.TurnRecord(codec, e)
    }

    function TurnRecord(codec: Codec, e: RunEventEnvelope): Option<ActiveRun>
      requires turn.Some? && !e.event.RunStarted? && !e.event.RunFinished? && !e.event.TurnStarted?
    {
      match e.event
      case Provider(p) =>
        if || p.provider != provider || p.requestId != turn.value.request || e.sessionId != Some(p.sessionId)
           || (heard.Some? && p.sequence <= heard.value) || turn.value.response.Some?
        then None
        else
          var t := turn.value.Provider(codec, p.event);
          if t.None? then None else Some(this.(heard := Some(p.sequence), turn := t))
      case ToolActivity(tool) =>
        var t := turn.value.Tool(codec, tool, saved);
        if t.None? then None else Some(this.(turn := t))
      case TurnFinished(number, responseId, outcome, upstream) => TurnReport(codec, number, responseId, outcome, upstream)
    }

    function RecordedResult(codec: Codec, request: Option<Text>, callId: Text, output: Text, isError: bool): Option<ActiveRun> {
      if selection.None? || turn.None? || turn.value.NextCall().None? then None
      else
        var t := turn.value;
        var call := t.NextCall().value;
        if || t.intent != Some(callId) || call.callId != callId || request != t.request || callId in saved
           || codec.parse(call.arguments).None? || t.request.None?
        then None
        else Some(this.(
          saved := saved[callId := SavedResult(call.name, codec.parse(call.arguments).value, t.request.value, output, isError)],
          turn := Some(t.(results := t.results + [ToolResult(callId, output)], intent := None, unfinished := Some(callId)))))
    }

    /** An unreported tool result is forgiven only in the turn that an interruption cut short. */
    function Close(codec: Codec, interrupted: bool): (r: Option<ClosedRun>)
      ensures r.Some? ==> selection.Some? && r.value.runId == runId && r.value.selection == selection.value && !r.value.resultSeen
    {
      if selection.None? || unfinished then None
      else
        var done := if turn.Some? then FinishTurn(codec) else Some(this);
        if done.None? || (done.value.unfinished && !interrupted) then None
        else
          var a := done.value;
          Some(ClosedRun(runId, prompt, selection.value, binding, a.exchanges, terminal, turnsStarted, turnsFinished, lastTurn,
                         |saved|, lastRequest, interrupted, false))
    }
  }

  datatype ClosedRun = ClosedRun(
    runId: Text, prompt: Text, selection: Selection, binding: Option<Binding>, exchanges: seq<Exchange>,
    terminal: Option<(RunOutcome, RunSummary)>, turnsStarted: nat, turnsFinished: nat,
    lastTurn: Option<(TurnOutcome, Option<UpstreamOutcome>)>, dispatches: nat, lastRequest: Option<Text>,
    interrupted: bool, resultSeen: bool)
  {
    /** The stored final result agrees with the records. */
    predicate Matches(result: RunResult) {
      var m := result.summary;
      && !resultSeen && result.runId == runId
      && m.attempted == m.admitted == |exchanges|
      && m.turnsStarted == turnsStarted && turnsFinished <= m.turnsFinished <= turnsStarted
      && m.lastRequest == lastRequest
      && result.lastResponse == (if exchanges == [] then None else Some(exchanges[|exchanges| - 1].response))
      && (binding.Some? ==> result.sessionId == Some(binding.value.sessionId))
      && (if terminal.Some? then terminal.value == (result.outcome, m) else !result.eventsComplete)
      && (result.outcome.Completed? ==> exchanges != [] && exchanges[|exchanges| - 1].results == [])
      && (exchanges == [] ==> m.dispatches == m.prepared == m.reused == 0)
    }

    function Result(result: RunResult): (r: Option<ClosedRun>)
      ensures r.Some? ==> r.value == this.(resultSeen := true)
    {
      if Matches(result) then Some(this.(resultSeen := true)) else None
    }

    /** The outcome recorded by RunFinished fits the last finished turn. */
    predicate OutcomeFits(outcome: RunOutcome) {
      match lastTurn
      case None => !outcome.Completed?
      case Some((ModelCompleted, _)) => outcome.Completed?
      case Some((Stopped(reason), _)) => !reason.Completed? && outcome == reason
      case Some((ToolsPrepared, _)) => outcome.CancelledLocally? || outcome == Failed("counter_overflow")
    }

    predicate SummaryFits(m: RunSummary) {
      && m.turnsStarted == m.turnsFinished == turnsStarted == turnsFinished
      && m.attempted == m.admitted == |exchanges|
      && m.dispatches == dispatches && m.prepared == Total(exchanges) && m.reused + dispatches == Total(exchanges)
      && m.lastRequest == lastRequest
      && m.lastUpstream == (if lastTurn.Some? then lastTurn.value.1 else None)
    }

    /** There is proof of how the run ended, and it agrees with the exchanges. */
    predicate HasEvidence() {
      && (terminal.Some? ==> OutcomeFits(terminal.value.0) && SummaryFits(terminal.value.1))
      && (resultSeen || (exchanges != [] && (terminal.Some? || (interrupted && turnsStarted == |exchanges|))))
    }
  }

  /** Records change neither the name, nor the prompt, nor the model, nor the selection of the run they belong to. */
  predicate SameOrigin(a: ActiveRun, next: Option<ActiveRun>) {
    next.Some? ==>
      && next.value.runId == a.runId && next.value.prompt == a.prompt && next.value.model == a.model
      && next.value.selection == a.selection
  }

  lemma {:induction false} TurnRecordKeeps(codec: Codec, a: ActiveRun, e: RunEventEnvelope)
    requires a.turn.Some? && !e.event.RunStarted? && !e.event.RunFinished? && !e.event.TurnStarted?
    ensures SameOrigin(a, a.TurnRecord(codec, e))
    ensures a.TurnRecord(codec, e).Some? ==> a.TurnRecord(codec, e).value.binding == a.binding
  {
  }

  lemma {:induction false} RuntimeKeeps(codec: Codec, a: ActiveRun, e: RunEventEnvelope)
    ensures SameOrigin(a, a.Runtime(codec, e))
    ensures a.Runtime(codec, e).Some? ==> a.Runtime(codec, e).value.binding == a.binding
  {
    if !e.event.RunStarted? && !e.event.RunFinished? && !e.event.TurnStarted? {
      var b := a.(sequence := e.sequence).InTurn(e);
      if b.Some? { TurnRecordKeeps(codec, b.value, e); }
    }
  }
}
