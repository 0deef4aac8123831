/** Write side meets read side: the records of a completed run are accepted by the reader, which
    rebuilds exactly the conversation that took place. */
module ReadBack {
  import opened Wire
  import opened Tools
  import opened RunGrammar
  import opened RunProperties
  import opened ReplayValues
  import opened Reconstruct
  import S = SampleRuns

  /** What the persistent observer stores of one step, fed to the reader. Undelivered steps store nothing. */
  function Feed(codec: Codec, run: ActiveRun, a: Action): Option<ActiveRun> {
    match a
    case Bound(session, identity, true) => run.Bind(Binding(run.runId, session, run.model, identity))
    case Event(e, true) => run.Runtime(codec, e)
    case Recorded(request, id, output, isError, true) => run.RecordedResult(codec, Some(request), id, output, isError)
    case _ => Some(run)
  }

  function Read(codec: Codec, run: ActiveRun, trace: Trace): Option<ActiveRun> {
    if trace == [] then Some(run)
    else
      var before := Read(codec, run, trace[..|trace| - 1]);
      if before.None? then None else Feed(codec, before.value, trace[|trace| - 1].action)
  }

  /** Only function calls carry a call. */
  predicate Clean(response: ModelResponse) {
    forall i :: 0 <= i < |response.output| ==> Plain(response.output[i].kind) ==> response.output[i].functionCall.None?
  }

  /** A response that a turn can complete with. */
  ghost predicate Acceptable(c: Config, r: ModelResponse) {
    && r.id != [] && r.outcome.ResponseCompleted?
    && (forall i :: 0 <= i < |r.output| ==> Plain(r.output[i].kind) || Callable(c.codec, c.tools, r.output[i]))
    && DistinctIds(CallsOf(r.output))
  }

  /** Registration admits no empty tool name, and an empty string is no UUID. */
  ghost predicate Registered(c: Config) {
    [] !in c.tools && !c.codec.canonicalUuid([])
  }

  /** For a response that a turn completed with, being replayable is exactly being clean. */
  lemma {:induction false} ValidIffClean(c: Config, r: ModelResponse)
    requires Registered(c) && Acceptable(c, r)
    ensures ValidResponse(c.codec, r) <==> Clean(r)
  {
    if !Clean(r) {
      var i :| 0 <= i < |r.output| && Plain(r.output[i].kind) && r.output[i].functionCall.Some?;
      assert !ValidItem(c.codec, r.output[i]);
    }
  }

  // ----- A run that completes was never doomed -----

  ghost predicate Doomed(c: Config, s: Scan) {
    || s.sunk
    || (s.last.Some? && s.last.value.Stopped?)
    || (s.turn.Some? && s.turn.value.terminal
        && (s.turn.value.response.None? || !Acceptable(c, s.turn.value.response.value)))
  }

  lemma {:induction false} DoomedByDelivery(c: Config, s: Scan, e: RunEventEnvelope, m: RunSummary)
    requires Sound(c, s) && Doomed(c, s) && s.ended.None? && Expects(c, s, e, m)
    ensures Doomed(c, Deliver(c, s, e, m))
  {
    match e.event
    case RunStarted =>
    case TurnStarted(_) =>
    case Provider(_) =>
    case ToolActivity(_) =>
    case RunFinished(_, _) =>
    case TurnFinished(_, _, outcome, _) =>
      if !outcome.Stopped? { FinishesTurn(c, s, s.turn.value, outcome); }
  }

  lemma {:induction false} DoomedByStep(c: Config, s: Scan, step: Step, next: Scan)
    requires Sound(c, s) && Doomed(c, s) && Next(c, s, step) == Some(next)
    ensures Doomed(c, next)
  {
    if step.action.Event? {
      EventStep(c, s, step, next);
      DoomedByDelivery(c, s, step.action.envelope, step.summary);
    } else {
      ActionStep(c, s, step, next);
      DoomedByAction(c, s, step.action);
    }
  }

  lemma {:induction false} DoomedByAction(c: Config, s: Scan, a: Action)
    requires Doomed(c, s) && !a.Event? && Allows(c, s, a)
    ensures Doomed(c, Perform(c, s, a))
  {
  }

  lemma {:induction false} DoomedStep(c: Config, trace: Trace, scans: seq<Scan>, i: nat)
    requires Passes(c, trace, scans) && i < |trace| && Sound(c, scans[i]) && Doomed(c, scans[i])
    ensures Doomed(c, scans[i + 1])
  {
    StepAt(c, trace, scans, i);
    DoomedByStep(c, scans[i], trace[i], scans[i + 1]);
  }

  lemma {:induction false} NeverDoomed(c: Config, trace: Trace, scans: seq<Scan>, n: nat)
    requires Passes(c, trace, scans) && n <= |trace| && !Doomed(c, scans[|trace|])
    ensures !Doomed(c, scans[n])
    decreases |trace| - n
  {
    if n < |trace| {
      NeverDoomed(c, trace, scans, n + 1);
      SoundAt(c, trace, scans, n);
      if Doomed(c, scans[n]) { DoomedStep(c, trace, scans, n); }
    }
  }

  // ----- The reader follows the writer -----

  /** Both caches hold the same results. */
  ghost predicate SameSaved(written: map<Text, CachedResult>, read: map<Text, SavedResult>) {
    && written.Keys == read.Keys
    && forall id :: id in written ==>
         && read[id].name == written[id].name && read[id].arguments == written[id].arguments
         && read[id].output == written[id].output
  }

  /** The reader's open turn mirrors the grammar's. A request is known to it only once an event carried it. */
  ghost predicate SameTurn(c: Config, s: Scan, t: Turn, a: ActiveRun, o: OpenTurn) {
    && o.id == t.id && o.responseId == t.responseId && o.responseStarted == t.responseStarted && o.response == t.response
    && (o.request.Some? ==> o.request == s.request && o.request.value in a.requestIds && a.lastRequest == o.request)
    && (o.request.None? && s.request.Some? ==> s.request.value !in a.requestIds)
    && a.runtimeRequest == o.request
    && (t.response.Some? ==> o.request.Some? && ValidResponse(c.codec, t.response.value))
    && SamePhase(t, a, o) && SavedEarlier(t, a, o)
  }

  /** Nothing still due in this turn was saved under this turn's request. */
  ghost predicate SavedEarlier(t: Turn, a: ActiveRun, o: OpenTurn) {
    && (t.response.None? ==> forall id :: id in a.saved ==> Some(a.saved[id].request) != o.request)
    && (forall k :: |o.results| <= k < |Calls(t)| && Calls(t)[k].callId in a.saved ==>
          Some(a.saved[Calls(t)[k].callId].request) != o.request)
  }

  ghost predicate SamePhase(t: Turn, a: ActiveRun, o: OpenTurn) {
    && (!t.phase.Ready? ==> |t.results| < |Calls(t)|)
    && o.intent == (if t.phase.Announced? || t.phase.Running? then Some(Due(t).callId) else None)
    && o.unfinished == (if t.phase.Saved? then Some(Due(t).callId) else None)
    && (!t.phase.Saved? ==> o.results == t.results)
    && (t.phase.Saved? ==>
          && Due(t).callId in a.saved
          && a.saved[Due(t).callId].isError == t.phase.isError && Some(a.saved[Due(t).callId].request) == o.request
          && o.results == t.results + [ToolResult(Due(t).callId, a.saved[Due(t).callId].output)])
  }

  /** The request of the open turn, which the reader may not have come across yet. */
  function Unheard(s: Scan): set<Text> {
    if s.turn.Some? && s.request.Some? then {s.request.value} else {}
  }

  /** Reader and grammar agree on the run, whatever its turn. */
  ghost predicate SameRun(c: Config, s: Scan, a: ActiveRun, requests: set<Text>, turnIds: set<Text>) {
    && a.runId == c.runId && a.provider == c.provider && a.model == c.model && a.selection.Some?
    && a.started == s.started && a.sequence == s.sent && a.heard == s.heard
    && (s.bound.Some? ==> Usable(c, s)) && (s.session.Some? ==> s.started)
    && (s.turns > 0 ==> s.started && Usable(c, s)) && s.turns == |s.exchanges| + (if s.turn.Some? then 1 else 0)
    && (s.turns == 0 && s.ended.None? ==> s.sent == if s.started then 1 else 0)
    && (s.request.Some? ==> s.request.value in requests && s.request.value != [])
    && a.binding == (if s.bound.Some? then Some(Binding(c.runId, s.session.value, c.model, s.bound.value)) else None)
    && a.turnsStarted == s.turns && !a.unfinished && a.exchanges == s.exchanges
    && SameSaved(s.saved, a.saved) && (forall id :: id in a.saved ==> a.saved[id].request in a.requestIds)
    && a.requestIds <= requests <= a.requestIds + Unheard(s) && a.turnIds == turnIds
    && (if s.ended.Some? then s.ended.value.RunFinished? && a.terminal == Some((s.ended.value.outcome, s.ended.value.summary))
        else a.terminal.None?)
  }

  ghost predicate Follows(c: Config, s: Scan, a: ActiveRun, requests: set<Text>, turnIds: set<Text>) {
    && SameRun(c, s, a, requests, turnIds)
    && a.turn.Some? == s.turn.Some?
    && (if s.turn.Some? then SameTurn(c, s, s.turn.value, a, a.turn.value) && a.turnsFinished + 1 == s.turns
        else
          && a.runtimeRequest == s.request && a.turnsFinished == s.turns
          && a.nextAllowed == (s.last.None? || s.last.value.ToolsPrepared?)
          && (s.last.Some? ==> a.lastTurn == Some((s.last.value, Some(TerminalReceived))) && a.lastRequest == s.request)
          && (s.last.None? ==> a.lastTurn.None?))
  }

  lemma {:induction false} FollowsBound(c: Config, s: Scan, a: ActiveRun, requests: set<Text>, turnIds: set<Text>,
          session: Text, identity: ReplayIdentity)
    requires Follows(c, s, a, requests, turnIds) && s.ended.None?
    requires Allows(c, s, Bound(session, identity, true)) && identity.provider == c.provider && s.turn.None?
    ensures var next := Feed(c.codec, a, Bound(session, identity, true));
            next.Some? && Follows(c, Perform(c, s, Bound(session, identity, true)), next.value, requests, turnIds)
  {
  }

  /** Steps that leave no record. */
  lemma {:induction false} FollowsUnrecorded(c: Config, s: Scan, a: ActiveRun, requests: set<Text>,
          turnIds: set<Text>, act: Action)
    requires Follows(c, s, a, requests, turnIds) && s.ended.None?
    requires act.Opened? || act.Generated? || act.Admitted? || act.Began? || act.Closed?
    requires Allows(c, s, act)
    requires Registered(c) && (act.Admitted? ==> act.request !in requests)
    ensures Feed(c.codec, a, act) == Some(a)
    ensures Follows(c, Perform(c, s, act), a, if act.Admitted? then requests + {act.request} else requests, turnIds)
  {
    if s.turn.Some? {
      var (t, t') := (s.turn.value, Perform(c, s, act).turn.value);
      assert Calls(t') == Calls(t);
      assert SavedEarlier(t', a, a.turn.value);
    }
  }

  /** What the reader makes of a recorded result. */
  lemma {:induction false} RecordedFeeds(c: Config, s: Scan, a: ActiveRun, requests: set<Text>, turnIds: set<Text>,
          act: Action) returns (next: ActiveRun)
    requires Follows(c, s, a, requests, turnIds) && s.ended.None?
    requires act.Recorded? && act.ok && Allows(c, s, act)
    ensures Feed(c.codec, a, act) == Some(next)
    ensures var call, o := Due(s.turn.value), a.turn.value;
            && c.codec.parse(call.arguments).Some? && o.request == Some(act.request)
            && next == a.(
              saved := a.saved[act.callId :=
                SavedResult(call.name, c.codec.parse(call.arguments).value, act.request, act.output, act.isError)],
              turn := Some(o.(results := o.results + [ToolResult(act.callId, act.output)], intent := None, unfinished := Some(act.callId))))
  {
    CarriedAreCalls(c.codec, s.turn.value.response.value.output);
    assert a.turn.value.NextCall() == Some(Due(s.turn.value));
    next := Feed(c.codec, a, act).value;
  }

  lemma {:induction false} FollowsRecorded(c: Config, s: Scan, a: ActiveRun, requests: set<Text>, turnIds: set<Text>, act: Action)
    requires Follows(c, s, a, requests, turnIds) && s.ended.None?
    requires act.Recorded? && act.ok && Allows(c, s, act)
    ensures var next := Feed(c.codec, a, act);
            next.Some? && Follows(c, Perform(c, s, act), next.value, requests, turnIds)
  {
    var next := RecordedFeeds(c, s, a, requests, turnIds, act);
    RecordedSameRun(c, s, a, requests, turnIds, act, next);
    var t, t' := s.turn.value, Perform(c, s, act).turn.value;
    SavedNow(t, t', a, next);
    PhaseAfterRecord(t, t', a, next, act);
  }

  lemma {:induction false} RecordedSameRun(c: Config, s: Scan, a: ActiveRun, requests: set<Text>, turnIds: set<Text>,
          act: Action, next: ActiveRun)
    requires Follows(c, s, a, requests, turnIds) && act.Recorded? && act.ok && Allows(c, s, act)
    requires next == a.(saved := next.saved, turn := next.turn)
    requires var call := Due(s.turn.value);
             && c.codec.parse(call.arguments).Some? && a.turn.value.request == Some(act.request)
             && next.saved == a.saved[act.callId :=
                  SavedResult(call.name, c.codec.parse(call.arguments).value, act.request, act.output, act.isError)]
    ensures SameRun(c, Perform(c, s, act), next, requests, turnIds)
  {
    SameSavedMore(s.saved, a.saved, act.callId, Perform(c, s, act).saved[act.callId], next.saved[act.callId]);
  }

  lemma {:induction false} SameSavedMore(written: map<Text, CachedResult>, read: map<Text, SavedResult>, id: Text,
          w: CachedResult, r: SavedResult)
    requires SameSaved(written, read) && r.name == w.name && r.arguments == w.arguments && r.output == w.output
    ensures SameSaved(written[id := w], read[id := r])
  {
  }

  lemma {:induction false} PhaseAfterRecord(t: Turn, t': Turn, a: ActiveRun, next: ActiveRun, act: Action)
    requires a.turn.Some? && SamePhase(t, a, a.turn.value) && t.phase.Running? && act.Recorded? && act.callId == Due(t).callId
    requires t' == t.(phase := Saved(act.isError))
    requires act.callId in next.saved && next.saved[act.callId].isError == act.isError
    requires next.saved[act.callId].output == act.output && Some(next.saved[act.callId].request) == a.turn.value.request
    requires var o := a.turn.value;
             next.turn == Some(o.(results := o.results + [ToolResult(act.callId, act.output)], intent := None, unfinished := Some(act.callId)))
    ensures SamePhase(t', next, next.turn.value)
  {
    assert Calls(t') == Calls(t);
  }

  /** Saving the due result under this turn's request leaves the other calls as they were. */
  lemma {:induction false} SavedNow(t: Turn, t': Turn, a: ActiveRun, next: ActiveRun)
    requires a.turn.Some? && next.turn.Some? && SavedEarlier(t, a, a.turn.value) && t.response.Some?
    requires a.turn.value.results == t.results && |t.results| < |Calls(t)| && DistinctIds(Calls(t))
    requires t' == t.(phase := t'.phase) && next.turn.value.request == a.turn.value.request
    requires |next.turn.value.results| == |t.results| + 1
    requires forall id :: id != Due(t).callId ==> (id in next.saved <==> id in a.saved)
    requires forall id :: id != Due(t).callId && id in a.saved ==> next.saved[id] == a.saved[id]
    ensures SavedEarlier(t', next, next.turn.value)
  {
    assert Calls(t') == Calls(t);
  }

  /** An event of the open turn passes the identity checks; afterwards its request is known. */
  lemma {:induction false} LearnsRequest(c: Config, s: Scan, a: ActiveRun, requests: set<Text>, turnIds: set<Text>,
          e: RunEventEnvelope)
    returns (b: ActiveRun)
    requires Follows(c, s, a, requests, turnIds) && s.ended.None? && s.turn.Some?
    requires e.turnId == Some(s.turn.value.id) && e.requestId == s.request
    ensures a.InTurn(e) == Some(b)
    ensures Follows(c, s, b, requests, turnIds) && b.turn.value.request == s.request
    ensures b == a.(requestIds := b.requestIds, lastRequest := b.lastRequest, runtimeRequest := b.runtimeRequest, turn := b.turn)
    ensures b.turn.value == a.turn.value.(request := s.request)
  {
    b := a.InTurn(e).value;
    var (t, o) := (s.turn.value, a.turn.value);
    if o.request.None? && s.request.Some? {
      assert forall id :: id in a.saved ==> a.saved[id].request != s.request.value;
      assert SavedEarlier(t, b, b.turn.value);
    }
  }

  lemma {:induction false} FollowsProvider(c: Config, s: Scan, b: ActiveRun, requests: set<Text>, turnIds: set<Text>,
          e: RunEventEnvelope)
    requires Follows(c, s, b, requests, turnIds) && s.ended.None? && Active(s) && Registered(c) && Sound(c, s)
    requires e.event.Provider? && e.sessionId == s.session && Hears(c, s, s.turn.value, e.event.provided)
    requires b.turn.value.request == s.request
    requires !Doomed(c, s.(turn := Some(AfterHearing(s.turn.value, e.event.provided))))
    requires e.event.provided.event.ResponseFinished? ==> Clean(e.event.provided.event.response)
    ensures var next := b.TurnRecord(c.codec, e);
            && next.Some?
            && Follows(c, s.(heard := Some(e.event.provided.sequence), turn := Some(AfterHearing(s.turn.value, e.event.provided))),
                       next.value, requests, turnIds)
  {
    var (t, o, p) := (s.turn.value, b.turn.value, e.event.provided);
    assert Calls(t) == [] && t.results == [];
    if p.event.ResponseFinished? {
      ValidIffClean(c, p.event.response);
      var next := b.TurnRecord(c.codec, e).value;
      assert SavedEarlier(AfterHearing(t, p), next, next.turn.value);
    }
  }

  lemma {:induction false} FollowsTool(c: Config, s: Scan, b: ActiveRun, requests: set<Text>, turnIds: set<Text>,
          e: RunEventEnvelope)
    requires Follows(c, s, b, requests, turnIds) && s.ended.None? && Active(s)
    requires e.event.ToolActivity? && ToolFits(c, s, s.turn.value, e.event.tool)
    requires b.turn.value.request == s.request
    ensures var next := b.TurnRecord(c.codec, e);
            && next.Some?
            && Follows(c, s.(turn := Some(AfterTool(s, s.turn.value, e.event.tool))), next.value, requests, turnIds)
  {
    match e.event.tool
    case ToolStarted(_, _) => FollowsToolStarted(c, s, b, requests, turnIds, e);
    case ToolFinished(_, _, _) => FollowsToolFinished(c, s, b, requests, turnIds, e);
    case ToolReused(_, _) => FollowsToolReused(c, s, b, requests, turnIds, e);
  }

  lemma {:induction false} FollowsToolStarted(c: Config, s: Scan, b: ActiveRun, requests: set<Text>,
          turnIds: set<Text>, e: RunEventEnvelope)
    requires Follows(c, s, b, requests, turnIds) && s.ended.None? && Active(s)
    requires e.event.ToolActivity? && e.event.tool.ToolStarted? && ToolFits(c, s, s.turn.value, e.event.tool)
    requires b.turn.value.request == s.request
    ensures var next := b.TurnRecord(c.codec, e);
            && next.Some?
            && Follows(c, s.(turn := Some(AfterTool(s, s.turn.value, e.event.tool))), next.value, requests, turnIds)
  {
    var (t, tool) := (s.turn.value, e.event.tool);
    CarriedAreCalls(c.codec, t.response.value.output);
    assert b.turn.value.NextCall() == Some(Due(t));
    var (next, t') := (b.TurnRecord(c.codec, e).value, AfterTool(s, t, tool));
    assert Calls(t') == Calls(t);
    assert SavedEarlier(t', next, next.turn.value);
  }

  lemma {:induction false} FollowsToolFinished(c: Config, s: Scan, b: ActiveRun, requests: set<Text>,
          turnIds: set<Text>, e: RunEventEnvelope)
    requires Follows(c, s, b, requests, turnIds) && s.ended.None? && Active(s)
    requires e.event.ToolActivity? && e.event.tool.ToolFinished? && ToolFits(c, s, s.turn.value, e.event.tool)
    requires b.turn.value.request == s.request
    ensures var next := b.TurnRecord(c.codec, e);
            && next.Some?
            && Follows(c, s.(turn := Some(AfterTool(s, s.turn.value, e.event.tool))), next.value, requests, turnIds)
  {
    var (t, tool) := (s.turn.value, e.event.tool);
    CarriedAreCalls(c.codec, t.response.value.output);
    var (next, t') := (b.TurnRecord(c.codec, e).value, AfterTool(s, t, tool));
    assert Calls(t') == Calls(t);
    assert SavedEarlier(t', next, next.turn.value);
  }

  lemma {:induction false} FollowsToolReused(c: Config, s: Scan, b: ActiveRun, requests: set<Text>,
          turnIds: set<Text>, e: RunEventEnvelope)
    requires Follows(c, s, b, requests, turnIds) && s.ended.None? && Active(s)
    requires e.event.ToolActivity? && e.event.tool.ToolReused? && ToolFits(c, s, s.turn.value, e.event.tool)
    requires b.turn.value.request == s.request
    ensures var next := b.TurnRecord(c.codec, e);
            && next.Some?
            && Follows(c, s.(turn := Some(AfterTool(s, s.turn.value, e.event.tool))), next.value, requests, turnIds)
  {
    var (t, tool) := (s.turn.value, e.event.tool);
    CarriedAreCalls(c.codec, t.response.value.output);
    assert b.turn.value.NextCall() == Some(Due(t));
    var (next, t') := (b.TurnRecord(c.codec, e).value, AfterTool(s, t, tool));
    assert Calls(t') == Calls(t);
    assert SavedEarlier(t', next, next.turn.value);
  }

  lemma {:induction false} FollowsTurnFinished(c: Config, s: Scan, b: ActiveRun, requests: set<Text>,
          turnIds: set<Text>, e: RunEventEnvelope)
    requires Follows(c, s, b, requests, turnIds) && s.ended.None? && Active(s) && Sound(c, s)
    requires e.event.TurnFinished? && Reports(c, s.turn.value, e.event.turnOutcome) && !e.event.turnOutcome.Stopped?
    requires e.event.number == s.turn.value.number && e.event.responseId == s.turn.value.responseId
    requires e.event.upstream == Some(TerminalReceived)
    requires b.turn.value.request == s.request
    ensures var next := b.TurnRecord(c.codec, e);
            && next.Some?
            && Follows(c, s.(turn := None, last := Some(e.event.turnOutcome),
                             exchanges := s.exchanges + [Exchange(s.turn.value.response.value, s.turn.value.results)]),
                       next.value, requests, turnIds)
  {
    var (t, outcome) := (s.turn.value, e.event.turnOutcome);
    FinishesTurn(c, s, t, outcome);
    CarriedAreCalls(c.codec, t.response.value.output);
    assert ValidExchange(c.codec, t.response.value, t.results);
  }

  lemma {:induction false} FollowsTurnStarted(c: Config, s: Scan, a: ActiveRun, requests: set<Text>,
          turnIds: set<Text>, e: RunEventEnvelope, m: RunSummary)
    requires Follows(c, s, a, requests, turnIds) && s.ended.None? && Sound(c, s)
    requires e.event.TurnStarted? && Expects(c, s, e, m) && s.bound.Some? && e.turnId.value !in turnIds
    ensures var next := a.Runtime(c.codec, e);
            next.Some? && Follows(c, Deliver(c, s, e, m), next.value, requests, turnIds + {e.turnId.value})
  {
    var next := a.Runtime(c.codec, e).value;
    var t := Deliver(c, s, e, m).turn.value;
    assert Calls(t) == [] && SavedEarlier(t, next, next.turn.value);
  }

  lemma {:induction false} FollowsRunEnds(c: Config, s: Scan, a: ActiveRun, requests: set<Text>, turnIds: set<Text>,
          e: RunEventEnvelope, m: RunSummary)
    requires Follows(c, s, a, requests, turnIds) && s.ended.None?
    requires (e.event.RunStarted? || e.event.RunFinished?) && Expects(c, s, e, m)
    requires s.turn.None? && (e.event.RunStarted? ==> s.turns == 0)
    ensures var next := a.Runtime(c.codec, e);
            next.Some? && Follows(c, Deliver(c, s, e, m), next.value, requests, turnIds)
  {
  }

  // ----- The whole trace -----

  function RequestsOf(trace: Trace): set<Text> {
    if trace == [] then {}
    else
      var (before, a) := (RequestsOf(trace[..|trace| - 1]), trace[|trace| - 1].action);
      if a.Admitted? then before + {a.request} else before
  }

  function TurnIdsOf(trace: Trace): set<Text> {
    if trace == [] then {}
    else
      var (before, a) := (TurnIdsOf(trace[..|trace| - 1]), trace[|trace| - 1].action);
      if StartsTurn(a) && a.envelope.turnId.Some? then before + {a.envelope.turnId.value} else before
  }

  /** What one step owes to others: fresh ids from UUIDs and the provider. */
  ghost predicate Identified(c: Config, before: Trace, a: Action) {
    && (a.Admitted? ==> a.request !in RequestsOf(before))
    && (StartsTurn(a) && a.envelope.turnId.Some? ==> a.envelope.turnId.value !in TurnIdsOf(before))
    && (a.Bound? ==> a.identity.provider == c.provider)
  }

  predicate BringsClean(a: Action) {
    IsProvider(a) && a.envelope.event.provided.event.ResponseFinished? ==> Clean(a.envelope.event.provided.event.response)
  }

  ghost predicate Granted(c: Config, before: Trace, a: Action) {
    Identified(c, before, a) && BringsClean(a)
  }

  /** No request id and no turn id repeats, the bound provider is the run's own, and every response is clean. */
  ghost predicate AllGranted(c: Config, trace: Trace) {
    forall i :: 0 <= i < |trace| ==> Granted(c, trace[..i], trace[i].action)
  }

  /** What `Granted` asks of one step, given the ids used so far. */
  ghost predicate Welcome(c: Config, a: Action, requests: set<Text>, turnIds: set<Text>) {
    && (a.Admitted? ==> a.request !in requests)
    && (StartsTurn(a) && a.envelope.turnId.Some? ==> a.envelope.turnId.value !in turnIds)
    && (a.Bound? ==> a.identity.provider == c.provider)
    && BringsClean(a)
  }

  lemma {:induction false} FollowsHeard(c: Config, s: Scan, s1: Scan, b: ActiveRun, requests: set<Text>,
          turnIds: set<Text>, e: RunEventEnvelope, m: RunSummary)
    requires Registered(c) && Sound(c, s1) && s.ended.None? && Active(s) && s1 == s.(sent := s.sent + 1)
    requires Expects(c, s, e, m) && !Doomed(c, Deliver(c, s, e, m)) && BringsClean(Event(e, true))
    requires e.event.Provider?
    requires Follows(c, s1, b, requests, turnIds) && b.turn.value.request == s.request
    ensures var next := b.TurnRecord(c.codec, e);
            next.Some? && Follows(c, Deliver(c, s, e, m), next.value, requests, turnIds)
  {
    FollowsProvider(c, s1, b, requests, turnIds, e);
  }

  lemma {:induction false} FollowsWorked(c: Config, s: Scan, s1: Scan, b: ActiveRun, requests: set<Text>,
          turnIds: set<Text>, e: RunEventEnvelope, m: RunSummary)
    requires Registered(c) && Sound(c, s1) && s.ended.None? && Active(s) && s1 == s.(sent := s.sent + 1)
    requires Expects(c, s, e, m) && !Doomed(c, Deliver(c, s, e, m)) && BringsClean(Event(e, true))
    requires e.event.ToolActivity?
    requires Follows(c, s1, b, requests, turnIds) && b.turn.value.request == s.request
    ensures var next := b.TurnRecord(c.codec, e);
            next.Some? && Follows(c, Deliver(c, s, e, m), next.value, requests, turnIds)
  {
    FollowsTool(c, s1, b, requests, turnIds, e);
  }

  lemma {:induction false} FollowsReported(c: Config, s: Scan, s1: Scan, b: ActiveRun, requests: set<Text>,
          turnIds: set<Text>, e: RunEventEnvelope, m: RunSummary)
    requires Registered(c) && Sound(c, s1) && s.ended.None? && Active(s) && s1 == s.(sent := s.sent + 1)
    requires Expects(c, s, e, m) && !Doomed(c, Deliver(c, s, e, m)) && BringsClean(Event(e, true))
    requires e.event.TurnFinished?
    requires Follows(c, s1, b, requests, turnIds) && b.turn.value.request == s.request
    ensures var next := b.TurnRecord(c.codec, e);
            next.Some? && Follows(c, Deliver(c, s, e, m), next.value, requests, turnIds)
  {
    FollowsTurnFinished(c, s1, b, requests, turnIds, e);
  }

  lemma {:induction false} FollowsInTurn(c: Config, s: Scan, s1: Scan, b: ActiveRun, requests: set<Text>,
          turnIds: set<Text>, e: RunEventEnvelope, m: RunSummary)
    requires Registered(c) && Sound(c, s1) && s.ended.None? && Active(s) && s1 == s.(sent := s.sent + 1)
    requires Expects(c, s, e, m) && !Doomed(c, Deliver(c, s, e, m)) && BringsClean(Event(e, true))
    requires e.event.Provider? || e.event.ToolActivity? || e.event.TurnFinished?
    requires Follows(c, s1, b, requests, turnIds) && b.turn.value.request == s.request
    ensures var next := b.TurnRecord(c.codec, e);
            next.Some? && Follows(c, Deliver(c, s, e, m), next.value, requests, turnIds)
  {
    match e.event
    case Provider(_) => FollowsHeard(c, s, s1, b, requests, turnIds, e, m);
    case ToolActivity(_) => FollowsWorked(c, s, s1, b, requests, turnIds, e, m);
    case TurnFinished(_, _, _, _) => FollowsReported(c, s, s1, b, requests, turnIds, e, m);
  }

  lemma {:induction false} FollowsEvent(c: Config, s: Scan, a: ActiveRun, requests: set<Text>, turnIds: set<Text>,
          e: RunEventEnvelope, m: RunSummary)
    returns (next: ActiveRun)
    requires Registered(c) && Sound(c, s) && Follows(c, s, a, requests, turnIds) && s.ended.None?
    requires Expects(c, s, e, m) && !Doomed(c, Deliver(c, s, e, m))
    requires Welcome(c, Event(e, true), requests, turnIds) && (StartsTurn(Event(e, true)) ==> s.bound.Some?)
    ensures a.Runtime(c.codec, e) == Some(next)
    ensures Follows(c, Deliver(c, s, e, m), next, requests,
                    if e.event.TurnStarted? && e.turnId.Some? then turnIds + {e.turnId.value} else turnIds)
  {
    next := a;
    if e.event.TurnStarted? {
      FollowsTurnStarted(c, s, a, requests, turnIds, e, m);
      next := a.Runtime(c.codec, e).value;
    } else if e.event.RunStarted? || e.event.RunFinished? {
      FollowsRunEnds(c, s, a, requests, turnIds, e, m);
      next := a.Runtime(c.codec, e).value;
    } else {
      next := FollowsTurnEvent(c, s, a, requests, turnIds, e, m);
    }
  }

  lemma {:induction false} SequenceMoves(c: Config, s: Scan, a: ActiveRun, requests: set<Text>, turnIds: set<Text>)
    requires Follows(c, s, a, requests, turnIds) && s.turn.Some? && s.turns > 0
    ensures Follows(c, s.(sent := s.sent + 1), a.(sequence := a.sequence + 1), requests, turnIds)
  {
    assert SameTurn(c, s.(sent := s.sent + 1), s.turn.value, a.(sequence := a.sequence + 1), a.turn.value);
  }

  lemma {:induction false} FollowsTurnEvent(c: Config, s: Scan, a: ActiveRun, requests: set<Text>,
          turnIds: set<Text>, e: RunEventEnvelope, m: RunSummary)
    returns (next: ActiveRun)
    requires Registered(c) && Sound(c, s) && Follows(c, s, a, requests, turnIds) && s.ended.None?
    requires e.event.Provider? || e.event.ToolActivity? || e.event.TurnFinished?
    requires Expects(c, s, e, m) && !Doomed(c, Deliver(c, s, e, m)) && BringsClean(Event(e, true))
    ensures a.Runtime(c.codec, e) == Some(next)
    ensures Follows(c, Deliver(c, s, e, m), next, requests, turnIds)
  {
    var s1, a1 := s.(sent := s.sent + 1), a.(sequence := a.sequence + 1);
    SequenceMoves(c, s, a, requests, turnIds);
    SoundElsewhere(c, s, s1);
    var b := LearnsRequest(c, s1, a1, requests, turnIds, e);
    FollowsInTurn(c, s, s1, b, requests, turnIds, e, m);
    next := b.TurnRecord(c.codec, e).value;
    RuntimeInTurn(c, s, a, requests, turnIds, e, m, b);
  }

  /** What the reader does with an event of the open turn, once its identities are checked. */
  lemma {:induction false} RuntimeInTurn(c: Config, s: Scan, a: ActiveRun, requests: set<Text>, turnIds: set<Text>,
          e: RunEventEnvelope, m: RunSummary,
                      b: ActiveRun)
    requires Follows(c, s, a, requests, turnIds) && s.ended.None? && Expects(c, s, e, m)
    requires e.event.Provider? || e.event.ToolActivity? || e.event.TurnFinished?
    requires a.(sequence := a.sequence + 1).InTurn(e) == Some(b)
    ensures a.Runtime(c.codec, e) == b.TurnRecord(c.codec, e)
  {
  }

  lemma {:induction false} FollowsStep(c: Config, trace: Trace, scans: seq<Scan>, i: nat, a: ActiveRun) returns (next: ActiveRun)
    requires Passes(c, trace, scans) && i < |trace|
    requires Registered(c) && Sound(c, scans[i]) && !Doomed(c, scans[i + 1])
    requires Granted(c, trace[..i], trace[i].action) && (StartsTurn(trace[i].action) ==> scans[i].bound.Some?)
    requires Follows(c, scans[i], a, RequestsOf(trace[..i]), TurnIdsOf(trace[..i]))
    ensures Feed(c.codec, a, trace[i].action) == Some(next)
    ensures Follows(c, scans[i + 1], next, RequestsOf(trace[..i + 1]), TurnIdsOf(trace[..i + 1]))
  {
    StepAt(c, trace, scans, i);
    assert trace[..i + 1][..i] == trace[..i];
    next := FollowsAction(c, scans[i], scans[i + 1], trace[i], a, RequestsOf(trace[..i]), TurnIdsOf(trace[..i]));
  }

  lemma {:induction false} EventTaken(c: Config, s: Scan, s': Scan, step: Step)
    requires Next(c, s, step) == Some(s') && !s'.sunk && step.action.Event?
    ensures s.ended.None? && step.action.ok
    ensures Expects(c, s, step.action.envelope, step.summary) && s' == Deliver(c, s, step.action.envelope, step.summary)
  {
    EventStep(c, s, step, s');
  }

  lemma {:induction false} ActionTaken(c: Config, s: Scan, s': Scan, step: Step)
    requires Next(c, s, step) == Some(s') && !s'.sunk && !step.action.Event?
    ensures s.ended.None? && !ObserverFailed(step.action)
    ensures Allows(c, s, step.action) && s' == Perform(c, s, step.action)
  {
  }

  lemma {:induction false} FeedsEvent(codec: Codec, a: ActiveRun, act: Action)
    requires act.Event? && act.ok
    ensures act == Event(act.envelope, true) && Feed(codec, a, act) == a.Runtime(codec, act.envelope)
  {
  }

  lemma {:induction false} FollowsAction(c: Config, s: Scan, s': Scan, step: Step, a: ActiveRun, requests: set<Text>,
          turnIds: set<Text>)
    returns (next: ActiveRun)
    requires Next(c, s, step) == Some(s') && Registered(c) && Sound(c, s) && !Doomed(c, s')
    requires Follows(c, s, a, requests, turnIds)
    requires Welcome(c, step.action, requests, turnIds) && (StartsTurn(step.action) ==> s.bound.Some?)
    ensures Feed(c.codec, a, step.action) == Some(next)
    ensures Follows(c, s', next, if step.action.Admitted? then requests + {step.action.request} else requests,
                    if StartsTurn(step.action) && step.action.envelope.turnId.Some?
                    then turnIds + {step.action.envelope.turnId.value} else turnIds)
  {
    if step.action.Event? {
      EventTaken(c, s, s', step);
      FeedsEvent(c.codec, a, step.action);
      next := FollowsEvent(c, s, a, requests, turnIds, step.action.envelope, step.summary);
    } else {
      ActionTaken(c, s, s', step);
      FollowsOther(c, s, a, requests, turnIds, step.action);
      next := Feed(c.codec, a, step.action).value;
    }
  }

  lemma {:induction false} FollowsOther(c: Config, s: Scan, a: ActiveRun, requests: set<Text>, turnIds: set<Text>, act: Action)
    requires Registered(c) && Sound(c, s) && Follows(c, s, a, requests, turnIds) && s.ended.None?
    requires !act.Event? && Allows(c, s, act) && !ObserverFailed(act)
    requires act.Admitted? ==> act.request !in requests
    requires act.Bound? ==> act.identity.provider == c.provider
    ensures var next := Feed(c.codec, a, act);
            && next.Some?
            && Follows(c, Perform(c, s, act), next.value, if act.Admitted? then requests + {act.request} else requests, turnIds)
  {
    match act
    case Bound(session, identity, _) => FollowsBound(c, s, a, requests, turnIds, session, identity);
    case Recorded(_, _, _, _, _) => FollowsRecorded(c, s, a, requests, turnIds, act);
    case _ => FollowsUnrecorded(c, s, a, requests, turnIds, act);
  }

  /** The reader's starting point: the accepted run with its history selected. */
  function Reader(c: Config, accepted: nat, selection: Selection): ActiveRun {
    ActiveRun.Accepted(accepted, c.runId, c.prompt, c.provider, c.model).(selection := Some(selection))
  }

  lemma {:induction false} ReadsPrefix(c: Config, trace: Trace, scans: seq<Scan>, n: nat, run: ActiveRun) returns (a: ActiveRun)
    requires Passes(c, trace, scans) && n <= |trace| && Registered(c) && !Doomed(c, scans[|trace|])
    requires forall i :: 0 <= i < n ==> Granted(c, trace[..i], trace[i].action)
    requires scans[|trace|].bound.Some?
    requires Follows(c, INITIAL, run, {}, {})
    ensures Read(c.codec, run, trace[..n]) == Some(a)
    ensures Follows(c, scans[n], a, RequestsOf(trace[..n]), TurnIdsOf(trace[..n]))
  {
    if n == 0 {
      a := run;
    } else {
      var before := ReadsPrefix(c, trace, scans, n - 1, run);
      a := ReadsOne(c, trace, scans, n - 1, before);
      assert trace[..n][..n - 1] == trace[..n - 1];
    }
  }

  lemma {:induction false} ReadsOne(c: Config, trace: Trace, scans: seq<Scan>, i: nat, before: ActiveRun) returns (a: ActiveRun)
    requires Passes(c, trace, scans) && i < |trace| && Registered(c) && !Doomed(c, scans[|trace|])
    requires Granted(c, trace[..i], trace[i].action) && scans[|trace|].bound.Some?
    requires Follows(c, scans[i], before, RequestsOf(trace[..i]), TurnIdsOf(trace[..i]))
    ensures Feed(c.codec, before, trace[i].action) == Some(a)
    ensures Follows(c, scans[i + 1], a, RequestsOf(trace[..i + 1]), TurnIdsOf(trace[..i + 1]))
  {
    SoundAt(c, trace, scans, i);
    NeverDoomed(c, trace, scans, i + 1);
    if StartsTurn(trace[i].action) { BoundBeforeTurns(c, trace, scans, i); }
    a := FollowsStep(c, trace, scans, i, before);
  }

  lemma {:induction false} BoundBeforeTurns(c: Config, trace: Trace, scans: seq<Scan>, i: nat)
    requires Passes(c, trace, scans) && i < |trace| && scans[|trace|].bound.Some? && StartsTurn(trace[i].action)
    requires !scans[i + 1].sunk
    ensures scans[i].bound.Some?
  {
    StepAt(c, trace, scans, i);
    Monotone(c, trace, scans, i + 1, |trace|);
  }

  /** Every completed run is replayable, as far as its responses are clean: each turn's response and
      results form a valid exchange exactly when no plain item smuggles in a call, every exchange but
      the last goes on with tool results, and the last has none. */
  lemma {:induction false} CompletedRunIsReplayable(c: Config, trace: Trace, result: RunResult)
    requires Truthful(c, trace, result) && result.outcome.Completed? && Registered(c)
    requires !c.codec.blank(c.runId) && !c.codec.blank(c.prompt)
    ensures var exchanges := Fold(c, trace).value.exchanges;
            && ValidRun(c.codec, ReplayRun(c.runId, c.prompt, exchanges))
            && exchanges[|exchanges| - 1].results == []
            && forall i :: 0 <= i < |exchanges| ==>
                 (ValidExchange(c.codec, exchanges[i].response, exchanges[i].results) <==> Clean(exchanges[i].response))
  {
    var scans := ScansOf(c, trace);
    SoundAt(c, trace, scans, |trace|);
    var s := scans[|trace|];
    forall i | 0 <= i < |s.exchanges|
      ensures ValidExchange(c.codec, s.exchanges[i].response, s.exchanges[i].results) <==> Clean(s.exchanges[i].response)
    {
      assert Finished(c, s.saved, s.exchanges[i]);
      ValidIffClean(c, s.exchanges[i].response);
    }
  }

  /** Write side meets read side. If a run with an installed history completes and all of its events
      are stored, then the reader accepts every record, closes the run, accepts the stored result, finds
      its evidence in order, and ends up with exactly the exchanges that took place. */
  lemma {:induction false} CompletedRunReadsBack(c: Config, trace: Trace, result: RunResult, accepted: nat, selection: Selection)
    returns (run: ActiveRun, closed: ClosedRun)
    requires Truthful(c, trace, result) && result.outcome.Completed? && result.eventsComplete && Registered(c)
    requires Fold(c, trace).value.bound.Some?
    requires AllGranted(c, trace)
    ensures Read(c.codec, Reader(c, accepted, selection), trace) == Some(run)
    ensures run.Close(c.codec, false) == Some(closed)
    ensures closed.exchanges == Fold(c, trace).value.exchanges && closed.prompt == c.prompt && closed.runId == c.runId
    ensures closed.Result(result).Some? && closed.Result(result).value.HasEvidence()
    ensures closed.selection == selection && closed.binding.Some? && closed.binding.value.model == c.model
    ensures Fold(c, trace).value.bound == Some(closed.binding.value.identity)
  {
    run := ReadsWhole(c, trace, accepted, selection);
    closed := Closes(c, Fold(c, trace).value, run, RequestsOf(trace), TurnIdsOf(trace), result);
    ClosesBound(c, Fold(c, trace).value, run, RequestsOf(trace), TurnIdsOf(trace));
  }

  lemma {:induction false} ReadsWhole(c: Config, trace: Trace, accepted: nat, selection: Selection) returns (run: ActiveRun)
    requires Legal(c, trace) && !Doomed(c, Fold(c, trace).value) && Registered(c)
    requires Fold(c, trace).value.bound.Some? && AllGranted(c, trace)
    ensures Read(c.codec, Reader(c, accepted, selection), trace) == Some(run)
    ensures Sound(c, Fold(c, trace).value)
    ensures Follows(c, Fold(c, trace).value, run, RequestsOf(trace), TurnIdsOf(trace))
    ensures run.prompt == c.prompt && run.selection == Some(selection)
  {
    var scans := ScansOf(c, trace);
    assert trace[..|trace|] == trace;
    run := ReadsPrefix(c, trace, scans, |trace|, Reader(c, accepted, selection));
    ReadKeepsOrigin(c.codec, Reader(c, accepted, selection), trace);
    SoundAt(c, trace, scans, |trace|);
  }

  lemma {:induction false} ClosesBound(c: Config, s: Scan, run: ActiveRun, requests: set<Text>, turnIds: set<Text>)
    requires Follows(c, s, run, requests, turnIds) && s.bound.Some?
    ensures run.binding.Some? && run.binding.value.model == c.model && s.bound == Some(run.binding.value.identity)
  {
  }

  lemma {:induction false} Closes(c: Config, s: Scan, run: ActiveRun, requests: set<Text>, turnIds: set<Text>, result: RunResult)
    returns (closed: ClosedRun)
    requires Sound(c, s) && Follows(c, s, run, requests, turnIds) && s.turn.None? && s.last == Some(ModelCompleted)
    requires s.ended == Some(RunFinished(Completed, result.summary)) && Exact(s, result.summary)
    requires result.outcome.Completed? && result.runId == c.runId && result.sessionId == SessionOf(c, s)
    requires result.lastResponse == Some(s.exchanges[|s.exchanges| - 1].response)
    ensures run.Close(c.codec, false) == Some(closed)
    ensures closed.exchanges == s.exchanges && closed.prompt == run.prompt && closed.runId == c.runId
    ensures closed.Result(result).Some? && closed.Result(result).value.HasEvidence()
    ensures run.selection == Some(closed.selection) && closed.binding == run.binding
  {
    closed := run.Close(c.codec, false).value;
    assert |run.saved| == |run.saved.Keys| == |s.saved.Keys| == |s.saved|;
  }

  lemma {:induction false} ReadKeepsOrigin(codec: Codec, run: ActiveRun, trace: Trace)
    requires run.selection.Some?
    ensures SameOrigin(run, Read(codec, run, trace))
  {
    if trace != [] {
      var before := Read(codec, run, trace[..|trace| - 1]);
      ReadKeepsOrigin(codec, run, trace[..|trace| - 1]);
      if before.Some? { FeedKeepsOrigin(codec, before.value, trace[|trace| - 1].action); }
    }
  }

  lemma {:induction false} FeedKeepsOrigin(codec: Codec, run: ActiveRun, a: Action)
    ensures SameOrigin(run, Feed(codec, run, a))
  {
    if a.Event? && a.ok { RuntimeKeeps(codec, run, a.envelope); }
  }

  // ----- What the provider was asked -----

  function Inputs(trace: Trace): seq<seq<InputItem>> {
    if trace == [] then []
    else
      var (before, a) := (Inputs(trace[..|trace| - 1]), trace[|trace| - 1].action);
      if a.Generated? then before + [a.input] else before
  }

  /** The prompt, then the results of each turn. */
  function Asked(prompt: Text, exchanges: seq<Exchange>): seq<seq<InputItem>> {
    [[User(prompt)]] + seq(|exchanges|, i requires 0 <= i < |exchanges| => exchanges[i].results)
  }

  /** So far the provider was asked the conversation, up to the turn that is waiting for its answer. */
  ghost predicate AskedSoFar(c: Config, s: Scan, inputs: seq<seq<InputItem>>) {
    && |inputs| == |s.exchanges| + (if s.turn.Some? && s.turn.value.generated then 1 else 0)
    && inputs <= Asked(c.prompt, s.exchanges)
    && (s.turn.Some? && (s.request.Some? || s.turn.value.response.Some?) ==> s.turn.value.generated)
  }

  lemma {:induction false} AskedByDelivery(c: Config, s: Scan, e: RunEventEnvelope, m: RunSummary, inputs: seq<seq<InputItem>>)
    requires AskedSoFar(c, s, inputs) && Expects(c, s, e, m) && !Doomed(c, Deliver(c, s, e, m))
    ensures AskedSoFar(c, Deliver(c, s, e, m), inputs)
  {
    var s' := Deliver(c, s, e, m);
    assert Asked(c.prompt, s.exchanges) <= Asked(c.prompt, s'.exchanges);
  }

  lemma {:induction false} AskedByAction(c: Config, s: Scan, a: Action, inputs: seq<seq<InputItem>>)
    requires AskedSoFar(c, s, inputs) && !a.Event? && Allows(c, s, a)
    ensures AskedSoFar(c, Perform(c, s, a), if a.Generated? then inputs + [a.input] else inputs)
  {
  }

  lemma {:induction false} AskedAt(c: Config, trace: Trace, scans: seq<Scan>, n: nat)
    requires Passes(c, trace, scans) && n <= |trace| && !Doomed(c, scans[|trace|])
    ensures AskedSoFar(c, scans[n], Inputs(trace[..n]))
  {
    if n > 0 {
      AskedAt(c, trace, scans, n - 1);
      NeverDoomed(c, trace, scans, n);
      StepAt(c, trace, scans, n - 1);
      AskedStep(c, scans[n - 1], scans[n], trace[n - 1], Inputs(trace[..n - 1]));
      InputsMore(trace, n);
    }
  }

  lemma {:induction false} InputsMore(trace: Trace, n: nat)
    requires 0 < n <= |trace|
    ensures var a := trace[n - 1].action;
            Inputs(trace[..n]) == if a.Generated? then Inputs(trace[..n - 1]) + [a.input] else Inputs(trace[..n - 1])
  {
    assert trace[..n][..n - 1] == trace[..n - 1];
  }

  lemma {:induction false} AskedStep(c: Config, s: Scan, s': Scan, step: Step, inputs: seq<seq<InputItem>>)
    requires Next(c, s, step) == Some(s') && !Doomed(c, s') && AskedSoFar(c, s, inputs)
    ensures AskedSoFar(c, s', if step.action.Generated? then inputs + [step.action.input] else inputs)
  {
    if step.action.Event? {
      EventTaken(c, s, s', step);
      AskedByDelivery(c, s, step.action.envelope, step.summary, inputs);
    } else {
      ActionTaken(c, s, s', step);
      AskedByAction(c, s, step.action, inputs);
    }
  }

  /** A completed run asked the provider exactly its conversation: the prompt, then the results of
      every exchange but the last. */
  lemma {:induction false} ProviderWasAskedTheConversation(c: Config, trace: Trace, result: RunResult)
    requires Truthful(c, trace, result) && result.outcome.Completed? && result.sinkError.None?
    ensures var exchanges := Fold(c, trace).value.exchanges;
            exchanges != [] && Inputs(trace) == Asked(c.prompt, exchanges[..|exchanges| - 1])
  {
    var scans := ScansOf(c, trace);
    AskedAt(c, trace, scans, |trace|);
    assert trace[..|trace|] == trace;
    var exchanges := scans[|trace|].exchanges;
    assert Asked(c.prompt, exchanges[..|exchanges| - 1]) == Asked(c.prompt, exchanges)[..|exchanges|];
  }

  // ----- A run that completes and cannot be read back -----

  /** The reader refuses a response that smuggles in a call, and with it everything that follows. */
  lemma {:induction false} UncleanIsRefused(codec: Codec, run: ActiveRun, trace: Trace, i: nat)
    requires i < |trace| && trace[i].action.Event? && trace[i].action.ok && !BringsClean(trace[i].action)
    ensures Read(codec, run, trace).None?
  {
    if i < |trace| - 1 {
      UncleanIsRefused(codec, run, trace[..|trace| - 1], i);
    } else {
      UncleanIsInvalid(codec, trace[i].action.envelope.event.provided.event.response);
    }
  }

  /** What was refused stays refused. */
  lemma {:induction false} RefusedForGood(codec: Codec, run: ActiveRun, trace: Trace, n: nat)
    requires n <= |trace| && Read(codec, run, trace[..n]).None?
    ensures Read(codec, run, trace).None?
    decreases |trace|
  {
    if n < |trace| {
      assert trace[..|trace| - 1][..n] == trace[..n];
      RefusedForGood(codec, run, trace[..|trace| - 1], n);
    } else {
      assert trace[..n] == trace;
    }
  }

  lemma {:induction false} ReadsMore(codec: Codec, run: ActiveRun, trace: Trace, i: nat)
    requires i < |trace|
    ensures Read(codec, run, trace[..i + 1]) ==
            match Read(codec, run, trace[..i]) case None => None case Some(a) => Feed(codec, a, trace[i].action)
  {
    assert trace[..i + 1][..i] == trace[..i];
  }

  /** The open turn's request is one that the reader has met in an earlier turn, and will meet again with the next record. */
  ghost predicate Stuck(s: Scan, a: ActiveRun) {
    && s.turn.Some? && s.started && s.request.Some? && s.request.value in a.requestIds
    && a.turn.Some? && a.turn.value.request.None?
  }

  lemma {:induction false} StuckOnEvent(c: Config, s: Scan, a: ActiveRun, e: RunEventEnvelope, m: RunSummary)
    requires Stuck(s, a) && Expects(c, s, e, m)
    ensures a.Runtime(c.codec, e).None?
  {
  }

  lemma {:induction false} StuckOnAction(c: Config, s: Scan, a: ActiveRun, act: Action)
    requires Stuck(s, a) && !act.Event? && Allows(c, s, act) && !ObserverFailed(act)
    ensures var next := Feed(c.codec, a, act); next.Some? ==> Stuck(Perform(c, s, act), next.value)
  {
  }

  lemma {:induction false} StuckStep(c: Config, s: Scan, step: Step, s': Scan, a: ActiveRun)
    requires Next(c, s, step) == Some(s') && !s'.sunk && Stuck(s, a)
    ensures var next := Feed(c.codec, a, step.action); next.Some? ==> Stuck(s', next.value)
  {
    if step.action.Event? {
      EventTaken(c, s, s', step);
      StuckOnEvent(c, s, a, step.action.envelope, step.summary);
    } else {
      ActionTaken(c, s, s', step);
      StuckOnAction(c, s, a, step.action);
    }
  }

  ghost predicate Hopeless(s: Scan, a: Option<ActiveRun>) { a.Some? ==> Stuck(s, a.value) }

  lemma {:induction false} StuckMore(c: Config, s: Scan, step: Step, s': Scan, a: Option<ActiveRun>, next: Option<ActiveRun>)
    requires Next(c, s, step) == Some(s') && !s'.sunk && Hopeless(s, a)
    requires next == match a case None => None case Some(run) => Feed(c.codec, run, step.action)
    ensures Hopeless(s', next)
  {
    if a.Some? { StuckStep(c, s, step, s', a.value); }
  }

  /** A stuck turn never ends for the reader. */
  lemma {:induction false} StuckForGood(c: Config, trace: Trace, scans: seq<Scan>, run: ActiveRun, n: nat)
    requires Passes(c, trace, scans) && n <= |trace| && !Doomed(c, scans[|trace|])
    requires Hopeless(scans[n], Read(c.codec, run, trace[..n]))
    ensures Hopeless(scans[|trace|], Read(c.codec, run, trace))
    decreases |trace| - n
  {
    if n < |trace| {
      NeverDoomed(c, trace, scans, n + 1);
      StepAt(c, trace, scans, n);
      ReadsMore(c.codec, run, trace, n);
      StuckMore(c, scans[n], trace[n], scans[n + 1], Read(c.codec, run, trace[..n]), Read(c.codec, run, trace[..n + 1]));
      StuckForGood(c, trace, scans, run, n + 1);
    } else {
      assert trace[..n] == trace;
    }
  }

  /** Without a binding the reader accepts no turn. */
  lemma {:induction false} UnboundHasNoTurns(c: Config, trace: Trace, scans: seq<Scan>, run: ActiveRun, n: nat)
    requires Passes(c, trace, scans) && n <= |trace| && run.binding.None? && !Doomed(c, scans[|trace|])
    ensures scans[n].bound.None? ==> Unbound(scans[n], Read(c.codec, run, trace[..n]))
  {
    if n > 0 {
      UnboundHasNoTurns(c, trace, scans, run, n - 1);
      StepAt(c, trace, scans, n - 1);
      NeverDoomed(c, trace, scans, n);
      ReadsMore(c.codec, run, trace, n - 1);
      UnboundMore(c, scans[n - 1], trace[n - 1], scans[n], Read(c.codec, run, trace[..n - 1]), Read(c.codec, run, trace[..n]));
    }
  }

  predicate Unbound(s: Scan, a: Option<ActiveRun>) { a.Some? ==> a.value.binding.None? && s.turns == 0 }

  lemma {:induction false} UnboundMore(c: Config, s: Scan, step: Step, s': Scan, a: Option<ActiveRun>, next: Option<ActiveRun>)
    requires Next(c, s, step) == Some(s') && !s'.sunk && (s.bound.None? ==> Unbound(s, a))
    requires next == match a case None => None case Some(run) => Feed(c.codec, run, step.action)
    ensures s'.bound.None? ==> Unbound(s', next)
  {
    if s'.bound.None? {
      UnboundBefore(c, s, step, s');
      if next.Some? { UnboundStep(c, s, step, s', a.value); }
    }
  }

  lemma {:induction false} UnboundBefore(c: Config, s: Scan, step: Step, s': Scan)
    requires Next(c, s, step) == Some(s') && s'.bound.None?
    ensures s.bound.None? && !step.action.Bound?
  {
    if step.action.Event? { EventStep(c, s, step, s'); } else { ActionStep(c, s, step, s'); }
  }

  lemma {:induction false} UnboundStep(c: Config, s: Scan, step: Step, s': Scan, a: ActiveRun)
    requires Next(c, s, step) == Some(s') && !s'.sunk && !step.action.Bound?
    requires a.binding.None? && s.turns == 0 && Feed(c.codec, a, step.action).Some?
    ensures Feed(c.codec, a, step.action).value.binding.None? && s'.turns == 0
  {
    if step.action.Event? {
      EventTaken(c, s, s', step);
      UnboundEvent(c.codec, a, step.action.envelope);
    } else {
      ActionTaken(c, s, s', step);
    }
  }

  lemma {:induction false} UnboundEvent(codec: Codec, a: ActiveRun, e: RunEventEnvelope)
    requires a.binding.None? && a.Runtime(codec, e).Some?
    ensures a.Runtime(codec, e).value.binding.None? && !e.event.TurnStarted?
  {
    RuntimeKeeps(codec, a, e);
  }

  /** The first step that is not granted stops the reader, at once or with the next record of its turn. */
  lemma {:induction false} UngrantedIsRefused(c: Config, trace: Trace, scans: seq<Scan>, run: ActiveRun, i: nat)
    requires Passes(c, trace, scans) && i < |trace| && Registered(c) && !Doomed(c, scans[|trace|])
    requires scans[|trace|].bound.Some? && scans[|trace|].turn.None? && Follows(c, INITIAL, run, {}, {})
    requires forall k :: 0 <= k < i ==> Granted(c, trace[..k], trace[k].action)
    requires !Granted(c, trace[..i], trace[i].action)
    ensures Read(c.codec, run, trace).None?
  {
    var a := ReadsPrefix(c, trace, scans, i, run);
    NeverDoomed(c, trace, scans, i + 1);
    StepAt(c, trace, scans, i);
    ReadsMore(c.codec, run, trace, i);
    UngrantedStep(c, scans[i], trace[i], scans[i + 1], a, RequestsOf(trace[..i]), TurnIdsOf(trace[..i]));
    if Feed(c.codec, a, trace[i].action).None? {
      RefusedForGood(c.codec, run, trace, i + 1);
    } else {
      StuckForGood(c, trace, scans, run, i + 1);
    }
  }

  lemma {:induction false} UngrantedStep(c: Config, s: Scan, step: Step, s': Scan, a: ActiveRun, requests: set<Text>,
          turnIds: set<Text>)
    requires Next(c, s, step) == Some(s') && !s'.sunk && Follows(c, s, a, requests, turnIds)
    requires !Welcome(c, step.action, requests, turnIds)
    ensures var next := Feed(c.codec, a, step.action); next.Some? ==> Stuck(s', next.value)
  {
    if step.action.Event? {
      EventTaken(c, s, s', step);
      UnwelcomeEvent(c, s, a, requests, turnIds, step.action.envelope);
    } else {
      ActionTaken(c, s, s', step);
      UnwelcomeAction(c, s, a, requests, turnIds, step.action);
    }
  }

  lemma {:induction false} UnwelcomeEvent(c: Config, s: Scan, a: ActiveRun, requests: set<Text>, turnIds: set<Text>,
          e: RunEventEnvelope)
    requires Follows(c, s, a, requests, turnIds) && !Welcome(c, Event(e, true), requests, turnIds)
    ensures a.Runtime(c.codec, e).None?
  {
    if !BringsClean(Event(e, true)) { UncleanIsInvalid(c.codec, e.event.provided.event.response); }
  }

  lemma {:induction false} UncleanIsInvalid(codec: Codec, r: ModelResponse)
    requires !Clean(r)
    ensures !ValidResponse(codec, r)
  {
    var k :| 0 <= k < |r.output| && Plain(r.output[k].kind) && r.output[k].functionCall.Some?;
    assert !ValidItem(codec, r.output[k]);
  }

  lemma {:induction false} UnwelcomeAction(c: Config, s: Scan, a: ActiveRun, requests: set<Text>, turnIds: set<Text>, act: Action)
    requires Follows(c, s, a, requests, turnIds) && !Welcome(c, act, requests, turnIds)
    requires !act.Event? && Allows(c, s, act) && !ObserverFailed(act)
    ensures var next := Feed(c.codec, a, act); next.Some? ==> Stuck(Perform(c, s, act), next.value)
  {
  }

  /** At any point where no turn is open and nothing has failed, readable means bound and granted throughout. */
  lemma {:induction false} ReadableExactly(c: Config, trace: Trace, scans: seq<Scan>, run: ActiveRun)
    requires Passes(c, trace, scans) && Registered(c) && !Doomed(c, scans[|trace|])
    requires scans[|trace|].turn.None? && scans[|trace|].turns > 0 && Follows(c, INITIAL, run, {}, {})
    ensures Read(c.codec, run, trace).Some? <==> scans[|trace|].bound.Some? && AllGranted(c, trace)
  {
    assert trace[..|trace|] == trace;
    if scans[|trace|].bound.None? {
      UnboundHasNoTurns(c, trace, scans, run, |trace|);
    } else if AllGranted(c, trace) {
      var a := ReadsPrefix(c, trace, scans, |trace|, run);
    } else {
      var i := FirstUngranted(c, trace, |trace|);
      UngrantedIsRefused(c, trace, scans, run, i);
    }
  }

  lemma {:induction false} FirstUngranted(c: Config, trace: Trace, n: nat) returns (i: nat)
    requires n <= |trace| && exists k :: 0 <= k < n && !Granted(c, trace[..k], trace[k].action)
    ensures i < n && !Granted(c, trace[..i], trace[i].action)
    ensures forall k :: 0 <= k < i ==> Granted(c, trace[..k], trace[k].action)
  {
    if exists k :: 0 <= k < n - 1 && !Granted(c, trace[..k], trace[k].action) {
      i := FirstUngranted(c, trace, n - 1);
    } else {
      i := n - 1;
    }
  }

  /** In a run whose last turn completed, a failure of the observer can only come after everything that is stored. */
  lemma {:induction false} BeforeTheFailure(c: Config, trace: Trace, scans: seq<Scan>, run: ActiveRun, n: nat) returns (j: nat)
    requires Passes(c, trace, scans) && n <= |trace| && scans[n].turn.None? && scans[n].last == Some(ModelCompleted)
    ensures j <= n && !scans[j].sunk && scans[j].turn.None? && scans[j].last == Some(ModelCompleted)
    ensures scans[j].bound == scans[n].bound && Read(c.codec, run, trace[..n]) == Read(c.codec, run, trace[..j])
    ensures AllGranted(c, trace[..n]) <==> AllGranted(c, trace[..j])
  {
    j := n;
    if scans[n].sunk {
      SilentAt(c, trace, scans, run, n - 1);
      j := BeforeTheFailure(c, trace, scans, run, n - 1);
    }
  }

  lemma {:induction false} SilentAt(c: Config, trace: Trace, scans: seq<Scan>, run: ActiveRun, k: nat)
    requires Passes(c, trace, scans) && k < |trace| && scans[k + 1].sunk
    requires scans[k + 1].turn.None? && scans[k + 1].last == Some(ModelCompleted)
    ensures scans[k].turn.None? && scans[k].last == Some(ModelCompleted) && scans[k].bound == scans[k + 1].bound
    ensures Read(c.codec, run, trace[..k + 1]) == Read(c.codec, run, trace[..k])
    ensures AllGranted(c, trace[..k + 1]) <==> AllGranted(c, trace[..k])
  {
    StepAt(c, trace, scans, k);
    SoundAt(c, trace, scans, k);
    SilentStep(c, scans[k], trace[k], scans[k + 1], trace[..k]);
    ReadsMore(c.codec, run, trace, k);
    GrantedMore(c, trace, k);
  }

  lemma {:induction false} GrantedMore(c: Config, trace: Trace, k: nat)
    requires k < |trace|
    ensures AllGranted(c, trace[..k + 1]) <==> AllGranted(c, trace[..k]) && Granted(c, trace[..k], trace[k].action)
  {
    assert forall i :: 0 <= i <= k ==> trace[..k + 1][..i] == trace[..i];
    assert forall i :: 0 <= i <= k ==> trace[..k][..i] == trace[..i];
  }

  lemma {:induction false} SilentStep(c: Config, s: Scan, step: Step, s': Scan, before: Trace)
    requires Next(c, s, step) == Some(s') && Sound(c, s) && s'.sunk && s'.turn.None? && s'.last == Some(ModelCompleted)
    ensures s.turn.None? && s.last == s'.last && s.bound == s'.bound && Granted(c, before, step.action)
    ensures forall codec, a :: Feed(codec, a, step.action) == Some(a)
  {
    if step.action.Event? { EventStep(c, s, step, s'); } else { ActionStep(c, s, step, s'); }
  }

  /** The stored records of a completed run can be read back if and only if its provider was bound, under the run's own
      provider, no request id and no turn id came twice, and every response is clean. */
  lemma {:induction false} ReadsBackExactly(c: Config, trace: Trace, result: RunResult, accepted: nat, selection: Selection)
    requires Truthful(c, trace, result) && result.outcome.Completed? && Registered(c)
    ensures Read(c.codec, Reader(c, accepted, selection), trace).Some? <==>
            Fold(c, trace).value.bound.Some? && AllGranted(c, trace)
  {
    var run := Reader(c, accepted, selection);
    var scans := ScansOf(c, trace);
    assert trace[..|trace|] == trace;
    var j := BeforeTheFailure(c, trace, scans, run, |trace|);
    SoundAt(c, trace, scans, j);
    PassesPrefix(c, trace, scans, j);
    ReadableExactly(c, trace[..j], scans[..j + 1], run);
  }

  lemma {:induction false} PassesPrefix(c: Config, trace: Trace, scans: seq<Scan>, n: nat)
    requires Passes(c, trace, scans) && n <= |trace|
    ensures Passes(c, trace[..n], scans[..n + 1])
  {
    forall i | 0 <= i < n ensures Next(c, scans[i], trace[i]) == Some(scans[i + 1]) { StepAt(c, trace, scans, i); }
  }

  // ----- Whether a trace is granted, read off its steps -----

  lemma {:induction false} RequestsAre(trace: Trace, id: Text)
    ensures id in RequestsOf(trace) <==> exists k :: 0 <= k < |trace| && trace[k].action.Admitted? && trace[k].action.request == id
  {
    if trace != [] { RequestsAre(trace[..|trace| - 1], id); }
  }

  predicate StartsAs(a: Action, id: Text) { StartsTurn(a) && a.envelope.turnId == Some(id) }

  lemma {:induction false} TurnIdsAre(trace: Trace, id: Text)
    ensures id in TurnIdsOf(trace) <==> exists k :: 0 <= k < |trace| && StartsAs(trace[k].action, id)
  {
    if trace != [] { TurnIdsAre(trace[..|trace| - 1], id); }
  }

  ghost predicate FreshRequests(trace: Trace) {
    forall i, k :: 0 <= k < i < |trace| && trace[i].action.Admitted? && trace[k].action.Admitted? ==>
      trace[k].action.request != trace[i].action.request
  }

  ghost predicate FreshTurns(trace: Trace) {
    forall i, k :: 0 <= k < i < |trace| && StartsTurn(trace[i].action) && trace[i].action.envelope.turnId.Some? ==>
      !StartsAs(trace[k].action, trace[i].action.envelope.turnId.value)
  }

  /** The condition without the running sets: ids pairwise distinct, own provider, clean responses. */
  ghost predicate Distinct(c: Config, trace: Trace) {
    && FreshRequests(trace) && FreshTurns(trace)
    && (forall i :: 0 <= i < |trace| && trace[i].action.Bound? ==> trace[i].action.identity.provider == c.provider)
    && (forall i :: 0 <= i < |trace| ==> BringsClean(trace[i].action))
  }

  lemma {:induction false} GrantedAt(c: Config, trace: Trace, i: nat)
    requires i < |trace|
    ensures Granted(c, trace[..i], trace[i].action) <==>
            && (forall k :: 0 <= k < i && trace[i].action.Admitted? && trace[k].action.Admitted? ==>
                  trace[k].action.request != trace[i].action.request)
            && (forall k :: 0 <= k < i && StartsTurn(trace[i].action) && trace[i].action.envelope.turnId.Some? ==>
                  !StartsAs(trace[k].action, trace[i].action.envelope.turnId.value))
            && (trace[i].action.Bound? ==> trace[i].action.identity.provider == c.provider)
            && BringsClean(trace[i].action)
  {
    var a := trace[i].action;
    if a.Admitted? { RequestsAre(trace[..i], a.request); }
    if StartsTurn(a) && a.envelope.turnId.Some? { TurnIdsAre(trace[..i], a.envelope.turnId.value); }
  }

  lemma {:induction false} GrantedExactly(c: Config, trace: Trace)
    ensures AllGranted(c, trace) <==> Distinct(c, trace)
  {
    forall i | 0 <= i < |trace|
      ensures Granted(c, trace[..i], trace[i].action) <==>
              && (forall k :: 0 <= k < i && trace[i].action.Admitted? && trace[k].action.Admitted? ==>
                    trace[k].action.request != trace[i].action.request)
              && (forall k :: 0 <= k < i && StartsTurn(trace[i].action) && trace[i].action.envelope.turnId.Some? ==>
                    !StartsAs(trace[k].action, trace[i].action.envelope.turnId.value))
              && (trace[i].action.Bound? ==> trace[i].action.identity.provider == c.provider)
              && BringsClean(trace[i].action)
    {
      GrantedAt(c, trace, i);
    }
  }

  // ----- Completed runs that cannot be read back -----

  /** Unclean runs exist under every configuration: completed, all events delivered, ids fresh, and unreadable. */
  lemma {:induction false} UncleanRunCompletes(c: Config, n: S.Names, call: FunctionCall, accepted: nat,
          selection: Selection) returns (trace: Trace, result: RunResult)
    requires S.Usual(c, n) && S.Heard(c, n, 1) && n.identity.provider == c.provider
    ensures Truthful(c, trace, result) && result.outcome.Completed? && result.eventsComplete
    ensures Fold(c, trace).value.bound.Some? && Fold(c, trace).value.exchanges == [Exchange(S.Smuggling(n, call), [])]
    ensures forall i :: 0 <= i < |trace| ==> Identified(c, trace[..i], trace[i].action)
    ensures !ValidExchange(c.codec, S.Smuggling(n, call), [])
    ensures Read(c.codec, Reader(c, accepted, selection), trace).None?
  {
    var r := S.Smuggling(n, call);
    trace, result := S.OneTurn(c, n, r), S.Reported(c, n, r);
    S.TellsTheTruth(c, n, r);
    AllIdentified(c, n, r);
    assert r.output[0].functionCall.Some?;
    UncleanIsRefused(c.codec, Reader(c, accepted, selection), trace, 6);
    assert !ValidItem(c.codec, r.output[0]);
  }

  lemma {:induction false} AllIdentified(c: Config, n: S.Names, r: ModelResponse)
    requires n.identity.provider == c.provider
    ensures forall i :: 0 <= i < |S.OneTurn(c, n, r)| ==> Identified(c, S.OneTurn(c, n, r)[..i], S.OneTurn(c, n, r)[i].action)
  {
    var trace := S.OneTurn(c, n, r);
    forall i | 0 <= i < |trace| ensures Identified(c, trace[..i], trace[i].action) {
      if i == 3 { TurnIdsAre(trace[..3], n.turn); }
      if i == 5 { RequestsAre(trace[..5], n.request); }
    }
  }

  /** A completed run of two turns, all of its responses clean, is readable exactly if its two requests and its two turns
      have different ids and its provider is the run's own. */
  lemma {:induction false} TwoTurnsReadBackExactly(c: Config, n: S.Names, k: S.Names, w: S.Work, accepted: nat,
          selection: Selection)
    requires S.UsualPair(c, n, k, w) && Registered(c) && Clean(w.first) && Clean(w.second)
    ensures var trace, result := S.TwoTurns(c, n, k, w), S.ReportedPair(c, k, w);
            && Truthful(c, trace, result) && result.outcome.Completed? && result.eventsComplete && Fold(c, trace).value.bound.Some?
            && (forall i :: 0 <= i < |trace| ==> BringsClean(trace[i].action))
            && (Read(c.codec, Reader(c, accepted, selection), trace).Some? <==>
                  n.request != k.request && n.turn != k.turn && n.identity.provider == c.provider)
  {
    S.PairTellsTheTruth(c, n, k, w);
    ReadsBackExactly(c, S.TwoTurns(c, n, k, w), S.ReportedPair(c, k, w), accepted, selection);
    GrantedExactly(c, S.TwoTurns(c, n, k, w));
    PairIsDistinct(c, n, k, w);
  }

  lemma {:induction false} PairIsDistinct(c: Config, n: S.Names, k: S.Names, w: S.Work)
    requires Clean(w.first) && Clean(w.second)
    ensures var trace := S.TwoTurns(c, n, k, w);
            && (forall i :: 0 <= i < |trace| ==> BringsClean(trace[i].action))
            && (FreshRequests(trace) <==> n.request != k.request) && (FreshTurns(trace) <==> n.turn != k.turn)
            && ((forall i :: 0 <= i < |trace| && trace[i].action.Bound? ==> trace[i].action.identity.provider == c.provider)
                <==> n.identity.provider == c.provider)
  {
    var trace := S.TwoTurns(c, n, k, w);
    assert trace[5].action == Admitted(n.request) && trace[14].action == Admitted(k.request);
    assert StartsAs(trace[3].action, n.turn) && StartsAs(trace[12].action, k.turn);
    assert trace[2].action == Bound(n.session, n.identity, true);
    assert forall i :: 0 <= i < |trace| && trace[i].action.Admitted? ==> i == 5 || i == 14;
    assert forall i :: 0 <= i < |trace| && StartsTurn(trace[i].action) ==> i == 3 || i == 12;
    assert forall i :: 0 <= i < |trace| && trace[i].action.Bound? ==> i == 2;
  }

  /** A provider that answers two turns with one request id leaves a completed, clean run that nobody can read back. */
  lemma {:induction false} RepeatedRequestIsRefused(c: Config, n: S.Names, k: S.Names, w: S.Work, accepted: nat,
          selection: Selection)
    requires S.UsualPair(c, n, k, w) && Registered(c) && Clean(w.first) && Clean(w.second) && k.request == n.request
    ensures var trace, result := S.TwoTurns(c, n, k, w), S.ReportedPair(c, k, w);
            && Truthful(c, trace, result) && result.outcome.Completed? && result.eventsComplete && Fold(c, trace).value.bound.Some?
            && (forall i :: 0 <= i < |trace| ==> BringsClean(trace[i].action))
            && Read(c.codec, Reader(c, accepted, selection), trace).None?
  {
    TwoTurnsReadBackExactly(c, n, k, w, accepted, selection);
  }
}
