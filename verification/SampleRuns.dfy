/** Two completed runs, step by step, with the summaries the controller would write: one turn without tools, and two turns
    with one tool call between them. */
module SampleRuns {
  import opened Wire
  import opened Tools
  import opened RunGrammar

  lemma {:induction false} FoldsMore(c: Config, trace: Trace, step: Step, before: Scan, after: Scan)
    requires Fold(c, trace) == Some(before) && Next(c, before, step) == Some(after)
    ensures Fold(c, trace + [step]) == Some(after)
  {
    assert (trace + [step])[..|trace|] == trace;
  }

  /** The names that the outside world gives to one run. */
  datatype Names = Names(session: Text, identity: ReplayIdentity, turn: Text, request: Text, event: Text, response: Text)

  predicate Heard(c: Config, n: Names, sequence: u64) { c.localIds ==> c.codec.localEventId(n.event, n.session, sequence) }

  predicate Usual(c: Config, n: Names) {
    && c.codec.canonicalUuid(n.request) && n.response != []
    && (c.localIds ==> c.codec.canonicalUuid(n.session))
  }

  /** One message item that carries a call. Nothing executes it. */
  function Smuggling(n: Names, call: FunctionCall): ModelResponse {
    ModelResponse(n.response, ResponseCompleted, [OutputItem(None, Message, Some(call), Null)], [])
  }

  function Said(c: Config, n: Names, sequence: u64, turn: bool, session: bool, request: bool, e: RunEvent): Action {
    Event(RunEventEnvelope(sequence, c.runId, if turn then Some(n.turn) else None, if session then Some(n.session) else None,
                           if request then Some(n.request) else None, e), true)
  }

  /** The counters of a run without reuse, its last request, and how far that request got. */
  function Tally(turns: u64, finished: u64, attempted: u64, admitted: u64, request: Option<Text>,
          upstream: Option<UpstreamOutcome>): RunSummary {
    RunSummary(turns, finished, attempted, admitted, 0, 0, 0, request, upstream)
  }

  function Done(n: Names): RunSummary { Tally(1, 1, 1, 1, Some(n.request), Some(TerminalReceived)) }

  function Opening(c: Config, n: Names): Trace {
    [ Step(Said(c, n, 1, false, false, false, RunStarted), Tally(0, 0, 0, 0, None, None)),
      Step(Opened(n.session), Tally(0, 0, 0, 0, None, None)),
      Step(Bound(n.session, n.identity, true), Tally(0, 0, 0, 0, None, None)),
      Step(Said(c, n, 2, true, true, false, TurnStarted(1)), Tally(1, 0, 0, 0, None, Some(NotSubmitted))) ]
  }

  function Answer(c: Config, n: Names, sequence: u64, r: ModelResponse): RunEvent {
    Provider(EventEnvelope(sequence, n.event, n.session, Some(n.request), c.provider, ResponseFinished(r)))
  }

  function Answering(c: Config, n: Names, r: ModelResponse): Trace {
    [ Step(Generated([User(c.prompt)]), Tally(1, 0, 1, 0, None, Some(UnknownUpstream))),
      Step(Admitted(n.request), Tally(1, 0, 1, 1, Some(n.request), Some(UnknownUpstream))),
      Step(Said(c, n, 3, true, true, true, Answer(c, n, 1, r)), Tally(1, 0, 1, 1, Some(n.request), Some(TerminalReceived))) ]
  }

  function Ending(c: Config, n: Names): Trace {
    [ Step(Said(c, n, 4, true, true, true, TurnFinished(1, Some(n.response), ModelCompleted, Some(TerminalReceived))), Done(n)),
      Step(Closed, Done(n)),
      Step(Said(c, n, 5, false, true, true, RunFinished(Completed, Done(n))), Done(n)) ]
  }

  function Begun(n: Names): Scan {
    INITIAL.(sent := 2, started := true, session := Some(n.session), bound := Some(n.identity), turns := 1,
             turn := Some(Turn(1, n.turn, false, None, false, false, None, Ready, [])))
  }

  function Answered(n: Names, r: ModelResponse): Scan {
    Begun(n).(sent := 3, generations := 1, admissions := 1, request := Some(n.request), heard := Some(1),
              turn := Some(Turn(1, n.turn, true, Some(r.id), false, true, Some(r), Ready, [])))
  }

  function Ended(n: Names, r: ModelResponse): Scan {
    Answered(n, r).(sent := 5, turn := None, last := Some(ModelCompleted), exchanges := [Exchange(r, [])], closed := true,
                    ended := Some(RunFinished(Completed, Done(n))))
  }

  function OneTurn(c: Config, n: Names, r: ModelResponse): Trace {
    Opening(c, n) + Answering(c, n, r) + Ending(c, n)
  }

  function Reported(c: Config, n: Names, r: ModelResponse): RunResult {
    RunResult(c.runId, Some(n.session), Completed, Done(n), Some(r), true, None)
  }

  lemma {:induction false} Opens(c: Config, n: Names)
    requires Usual(c, n)
    ensures Fold(c, Opening(c, n)) == Some(Begun(n))
  {
    var t := Opening(c, n);
    var s1 := INITIAL.(sent := 1, started := true);
    var s2 := s1.(session := Some(n.session));
    var s3 := s2.(bound := Some(n.identity));
    var none: Trace := [];
    assert Fold(c, none) == Some(INITIAL);
    FoldsMore(c, none, t[0], INITIAL, s1);
    FoldsMore(c, none + [t[0]], t[1], s1, s2);
    FoldsMore(c, none + [t[0]] + [t[1]], t[2], s2, s3);
    Begins(c, n, none + [t[0]] + [t[1]] + [t[2]], s3);
    assert t == none + [t[0]] + [t[1]] + [t[2]] + [t[3]];
  }

  lemma {:induction false} Begins(c: Config, n: Names, before: Trace, s: Scan)
    requires Usual(c, n) && Fold(c, before) == Some(s)
    requires s == INITIAL.(sent := 1, started := true, session := Some(n.session), bound := Some(n.identity))
    ensures Fold(c, before + [Opening(c, n)[3]]) == Some(Begun(n))
  {
    FoldsMore(c, before, Opening(c, n)[3], s, Begun(n));
  }

  lemma {:induction false} Answers(c: Config, n: Names, r: ModelResponse, before: Trace)
    requires Usual(c, n) && Heard(c, n, 1) && r.id == n.response && Fold(c, before) == Some(Begun(n))
    ensures Fold(c, before + Answering(c, n, r)) == Some(Answered(n, r))
  {
    var t := Answering(c, n, r);
    var s1 := Begun(n).(generations := 1, turn := Some(Begun(n).turn.value.(generated := true)));
    var s2 := s1.(admissions := 1, request := Some(n.request));
    FoldsMore(c, before, t[0], Begun(n), s1);
    FoldsMore(c, before + [t[0]], t[1], s1, s2);
    FoldsMore(c, before + [t[0]] + [t[1]], t[2], s2, Answered(n, r));
    assert before + t == before + [t[0]] + [t[1]] + [t[2]];
  }

  function Reporting(n: Names, r: ModelResponse): Scan {
    Answered(n, r).(sent := 4, turn := None, last := Some(ModelCompleted), exchanges := [Exchange(r, [])])
  }

  lemma {:induction false} ReportsTurn(c: Config, n: Names, r: ModelResponse, before: Trace)
    requires Usual(c, n) && r.id == n.response && Fold(c, before) == Some(Answered(n, r))
    requires r.outcome.ResponseCompleted? && forall i :: 0 <= i < |r.output| ==> Plain(r.output[i].kind)
    ensures Fold(c, before + [Ending(c, n)[0]]) == Some(Reporting(n, r))
  {
    var step := Ending(c, n)[0];
    assert Answered(n, r).exchanges + [Exchange(r, [])] == [Exchange(r, [])];
    assert Advance(c, Answered(n, r), step) == Some(Reporting(n, r));
    FoldsMore(c, before, step, Answered(n, r), Reporting(n, r));
  }

  lemma {:induction false} NothingPrepared(r: ModelResponse)
    ensures Total([Exchange(r, [])]) == 0
  {
    assert [Exchange(r, [])][..0] == [];
  }

  lemma {:induction false} Ends(c: Config, n: Names, r: ModelResponse, before: Trace)
    requires Usual(c, n) && Fold(c, before) == Some(Reporting(n, r).(closed := true))
    ensures Fold(c, before + [Ending(c, n)[2]]) == Some(Ended(n, r))
  {
    EndIsDue(c, n, r);
    FoldsMore(c, before, Ending(c, n)[2], Reporting(n, r).(closed := true), Ended(n, r));
  }

  lemma {:induction false} EndIsDue(c: Config, n: Names, r: ModelResponse)
    requires Usual(c, n)
    ensures Exact(Reporting(n, r), Done(n))
    ensures Expects(c, Reporting(n, r).(closed := true), Ending(c, n)[2].action.envelope, Done(n))
  {
    NothingPrepared(r);
  }

  lemma {:induction false} FoldsAnswer(c: Config, n: Names, r: ModelResponse)
    requires Usual(c, n) && Heard(c, n, 1) && r.id == n.response
    ensures Fold(c, Opening(c, n) + Answering(c, n, r)) == Some(Answered(n, r))
  {
    Opens(c, n);
    Answers(c, n, r, Opening(c, n));
  }

  lemma {:induction false} FoldsOneTurn(c: Config, n: Names, r: ModelResponse)
    requires Usual(c, n) && Heard(c, n, 1) && r.id == n.response && r.outcome.ResponseCompleted?
    requires forall i :: 0 <= i < |r.output| ==> Plain(r.output[i].kind)
    ensures Fold(c, OneTurn(c, n, r)) == Some(Ended(n, r))
  {
    var before, t := Opening(c, n) + Answering(c, n, r), Ending(c, n);
    FoldsAnswer(c, n, r);
    ReportsTurn(c, n, r, before);
    FoldsMore(c, before + [t[0]], t[1], Reporting(n, r), Reporting(n, r).(closed := true));
    Ends(c, n, r, before + [t[0]] + [t[1]]);
    assert before + t == before + [t[0]] + [t[1]] + [t[2]];
  }

  lemma {:induction false} TellsTheTruth(c: Config, n: Names, r: ModelResponse)
    requires Usual(c, n) && Heard(c, n, 1) && r.id == n.response && r.outcome.ResponseCompleted?
    requires forall i :: 0 <= i < |r.output| ==> Plain(r.output[i].kind)
    ensures Truthful(c, OneTurn(c, n, r), Reported(c, n, r)) && Fold(c, OneTurn(c, n, r)) == Some(Ended(n, r))
  {
    FoldsOneTurn(c, n, r);
    NothingPrepared(r);
  }

  // ----- two turns -----

  /** The first response asks for one call, whose output goes back; the second one ends the run. */
  datatype Work = Work(first: ModelResponse, call: FunctionCall, output: Text, isError: bool, second: ModelResponse)
  {
    function Result(): InputItem { ToolResult(call.callId, output) }
    function Exchanged(): seq<Exchange> { [Exchange(first, [Result()]), Exchange(second, [])] }
  }

  predicate Workable(c: Config, w: Work) {
    && Executable(c.codec, c.tools, w.first) && CallsOf(w.first.output) == [w.call] && c.codec.parse(w.call.arguments).Some?
    && |w.output| <= MAX_TOOL_BYTES && ValidInput(c.codec, [w.Result()])
    && w.second.outcome.ResponseCompleted? && forall i :: 0 <= i < |w.second.output| ==> Plain(w.second.output[i].kind)
  }

  /** `n` names the first turn and `k` the second, in the same session. */
  predicate UsualPair(c: Config, n: Names, k: Names, w: Work) {
    && Usual(c, n) && Usual(c, k) && Heard(c, n, 1) && Heard(c, k, 2) && k.session == n.session && k.identity == n.identity
    && w.first.id == n.response && w.second.id == k.response && Workable(c, w)
  }

  function Worked(dispatches: u64, prepared: u64, m: RunSummary): RunSummary { m.(dispatches := dispatches,
          prepared := prepared) }

  function Submitted(n: Names): RunSummary { Tally(1, 0, 1, 1, Some(n.request), Some(TerminalReceived)) }

  function AllDone(k: Names): RunSummary { Worked(1, 1, Tally(2, 2, 2, 2, Some(k.request), Some(TerminalReceived))) }

  function ToolTurn(c: Config, n: Names, w: Work): Trace {
    [ Step(Said(c, n, 4, true, true, true, ToolActivity(ToolStarted(w.call.callId, w.call.name))), Worked(1, 0, Submitted(n))),
      Step(Began(w.call.callId), Worked(1, 0, Submitted(n))),
      Step(Recorded(n.request, w.call.callId, w.output, w.isError, true), Worked(1, 0, Submitted(n))),
      Step(Said(c, n, 5, true, true, true, ToolActivity(ToolFinished(w.call.callId, w.call.name, w.isError))), Worked(1, 0, Submitted(n))),
      Step(Said(c, n, 6, true, true, true, TurnFinished(1, Some(n.response), ToolsPrepared, Some(TerminalReceived))), Worked(1, 1, Done(n))) ]
  }

  function Resuming(c: Config, n: Names, k: Names, w: Work): Trace {
    [ Step(Said(c, k, 7, true, true, false, TurnStarted(2)), Worked(1, 1, Tally(2, 1, 1, 1, Some(n.request), Some(NotSubmitted)))),
      Step(Generated([w.Result()]), Worked(1, 1, Tally(2, 1, 2, 1, Some(n.request), Some(UnknownUpstream)))),
      Step(Admitted(k.request), Worked(1, 1, Tally(2, 1, 2, 2, Some(k.request), Some(UnknownUpstream)))),
      Step(Said(c, k, 8, true, true, true, Answer(c, k, 2, w.second)), Worked(1, 1, Tally(2, 1, 2, 2, Some(k.request), Some(TerminalReceived)))) ]
  }

  function Concluding(c: Config, k: Names): Trace {
    [ Step(Said(c, k, 9, true, true, true, TurnFinished(2, Some(k.response), ModelCompleted, Some(TerminalReceived))), AllDone(k)),
      Step(Closed, AllDone(k)),
      Step(Said(c, k, 10, false, true, true, RunFinished(Completed, AllDone(k))), AllDone(k)) ]
  }

  function TwoTurns(c: Config, n: Names, k: Names, w: Work): Trace {
    Opening(c, n) + Answering(c, n, w.first) + ToolTurn(c, n, w) + Resuming(c, n, k, w) + Concluding(c, k)
  }

  function ReportedPair(c: Config, k: Names, w: Work): RunResult {
    RunResult(c.runId, Some(k.session), Completed, AllDone(k), Some(w.second), true, None)
  }

  function Cached(c: Config, w: Work): CachedResult
    requires c.codec.parse(w.call.arguments).Some?
  {
    CachedResult(w.call.name, c.codec.parse(w.call.arguments).value, w.output)
  }

  /** The tool has run and its result is saved, but not yet reported. */
  function Kept(c: Config, n: Names, w: Work): Scan
    requires c.codec.parse(w.call.arguments).Some?
  {
    Answered(n, w.first).(sent := 4, began := {w.call.callId}, saved := map[w.call.callId := Cached(c, w)],
                          turn := Some(Answered(n, w.first).turn.value.(phase := Saved(w.isError))))
  }

  /** Between the turns. */
  function Between(c: Config, n: Names, w: Work): Scan
    requires c.codec.parse(w.call.arguments).Some?
  {
    Kept(c, n, w).(sent := 6, turn := None, last := Some(ToolsPrepared), exchanges := [Exchange(w.first, [w.Result()])])
  }

  function AnsweredAgain(c: Config, n: Names, k: Names, w: Work): Scan
    requires c.codec.parse(w.call.arguments).Some?
  {
    Between(c, n, w).(sent := 8, turns := 2, generations := 2, admissions := 2, request := Some(k.request), heard := Some(2),
                      turn := Some(Turn(2, k.turn, true, Some(k.response), false, true, Some(w.second), Ready, [])))
  }

  function ReportingAgain(c: Config, n: Names, k: Names, w: Work): Scan
    requires c.codec.parse(w.call.arguments).Some?
  {
    AnsweredAgain(c, n, k, w).(sent := 9, turn := None, last := Some(ModelCompleted), exchanges := w.Exchanged())
  }

  function EndedPair(c: Config, n: Names, k: Names, w: Work): Scan
    requires c.codec.parse(w.call.arguments).Some?
  {
    ReportingAgain(c, n, k, w).(sent := 10, closed := true, ended := Some(RunFinished(Completed, AllDone(k))))
  }

  function AnnouncedCall(n: Names, w: Work): Scan {
    Answered(n, w.first).(sent := 4, turn := Some(Answered(n, w.first).turn.value.(phase := Announced)))
  }

  function RunningCall(n: Names, w: Work): Scan {
    AnnouncedCall(n, w).(began := {w.call.callId}, turn := Some(Answered(n, w.first).turn.value.(phase := Running)))
  }

  function FinishedCall(c: Config, n: Names, w: Work): Scan
    requires c.codec.parse(w.call.arguments).Some?
  {
    Kept(c, n, w).(sent := 5, turn := Some(Answered(n, w.first).turn.value.(results := [w.Result()])))
  }

  lemma {:induction false} CallIsDue(c: Config, w: Work, s: Scan, t: Turn)
    requires Workable(c, w) && t.response == Some(w.first) && t.results == [] && Agrees(c.codec, s.saved, w.call)
    ensures Working(c, s, t) && Due(t) == w.call && Calls(t) == [w.call]
  {
  }

  lemma {:induction false} CallStarts(c: Config, n: Names, k: Names, w: Work)
    requires UsualPair(c, n, k, w)
    ensures Next(c, Answered(n, w.first), ToolTurn(c, n, w)[0]) == Some(AnnouncedCall(n, w))
  {
    CallIsDue(c, w, Answered(n, w.first), Answered(n, w.first).turn.value);
  }

  lemma {:induction false} CallBegins(c: Config, n: Names, k: Names, w: Work)
    requires UsualPair(c, n, k, w)
    ensures Next(c, AnnouncedCall(n, w), ToolTurn(c, n, w)[1]) == Some(RunningCall(n, w))
  {
    var s := AnnouncedCall(n, w);
    CallIsDue(c, w, s, s.turn.value);
    assert s.began + {w.call.callId} == {w.call.callId};
  }

  lemma {:induction false} CallIsRecorded(c: Config, n: Names, k: Names, w: Work)
    requires UsualPair(c, n, k, w)
    ensures Next(c, RunningCall(n, w), ToolTurn(c, n, w)[2]) == Some(Kept(c, n, w))
  {
    var s := RunningCall(n, w);
    CallIsDue(c, w, s, s.turn.value);
    assert s.saved[w.call.callId := Cached(c, w)] == map[w.call.callId := Cached(c, w)];
  }

  lemma {:induction false} CallFinishes(c: Config, n: Names, k: Names, w: Work)
    requires UsualPair(c, n, k, w)
    ensures Next(c, Kept(c, n, w), ToolTurn(c, n, w)[3]) == Some(FinishedCall(c, n, w))
  {
    var s := Kept(c, n, w);
    CallIsDue(c, w, s, s.turn.value);
    assert s.turn.value.results + [w.Result()] == [w.Result()];
  }

  lemma {:induction false} TurnIsPrepared(c: Config, n: Names, k: Names, w: Work)
    requires UsualPair(c, n, k, w)
    ensures Next(c, FinishedCall(c, n, w), ToolTurn(c, n, w)[4]) == Some(Between(c, n, w))
  {
    var s := FinishedCall(c, n, w);
    assert Calls(s.turn.value) == [w.call] && |s.saved| == 1;
    assert s.exchanges + [Exchange(w.first, [w.Result()])] == [Exchange(w.first, [w.Result()])];
  }

  lemma {:induction false} RunsCall(c: Config, n: Names, k: Names, w: Work, before: Trace)
    requires UsualPair(c, n, k, w) && Fold(c, before) == Some(Answered(n, w.first))
    ensures Fold(c, before + ToolTurn(c, n, w)[..3]) == Some(Kept(c, n, w))
  {
    var t := ToolTurn(c, n, w);
    CallStarts(c, n, k, w);
    FoldsMore(c, before, t[0], Answered(n, w.first), AnnouncedCall(n, w));
    CallBegins(c, n, k, w);
    FoldsMore(c, before + [t[0]], t[1], AnnouncedCall(n, w), RunningCall(n, w));
    CallIsRecorded(c, n, k, w);
    FoldsMore(c, before + [t[0]] + [t[1]], t[2], RunningCall(n, w), Kept(c, n, w));
    assert before + t[..3] == before + [t[0]] + [t[1]] + [t[2]];
  }

  lemma {:induction false} Works(c: Config, n: Names, k: Names, w: Work, before: Trace)
    requires UsualPair(c, n, k, w) && Fold(c, before) == Some(Answered(n, w.first))
    ensures Fold(c, before + ToolTurn(c, n, w)) == Some(Between(c, n, w))
  {
    var t := ToolTurn(c, n, w);
    RunsCall(c, n, k, w, before);
    CallFinishes(c, n, k, w);
    FoldsMore(c, before + t[..3], t[3], Kept(c, n, w), FinishedCall(c, n, w));
    TurnIsPrepared(c, n, k, w);
    FoldsMore(c, before + t[..3] + [t[3]], t[4], FinishedCall(c, n, w), Between(c, n, w));
    assert before + t == before + t[..3] + [t[3]] + [t[4]];
  }

  lemma {:induction false} Reopens(c: Config, n: Names, k: Names, w: Work)
    requires UsualPair(c, n, k, w)
    ensures Next(c, Between(c, n, w), Resuming(c, n, k, w)[0]) == Some(Reopened(c, n, k, w))
  {
  }

  function Reopened(c: Config, n: Names, k: Names, w: Work): Scan
    requires c.codec.parse(w.call.arguments).Some?
  {
    Between(c, n, w).(sent := 7, turns := 2, request := None,
                      turn := Some(Turn(2, k.turn, false, None, false, false, None, Ready, [])))
  }

  lemma {:induction false} Resumes(c: Config, n: Names, k: Names, w: Work, before: Trace)
    requires UsualPair(c, n, k, w) && Fold(c, before) == Some(Between(c, n, w))
    ensures Fold(c, before + Resuming(c, n, k, w)) == Some(AnsweredAgain(c, n, k, w))
  {
    var s1, t := Reopened(c, n, k, w), Resuming(c, n, k, w);
    var s2 := s1.(generations := 2, turn := Some(s1.turn.value.(generated := true)));
    var s3 := s2.(admissions := 2, request := Some(k.request));
    Reopens(c, n, k, w);
    FoldsMore(c, before, t[0], Between(c, n, w), s1);
    FoldsMore(c, before + [t[0]], t[1], s1, s2);
    FoldsMore(c, before + [t[0]] + [t[1]], t[2], s2, s3);
    FoldsMore(c, before + [t[0]] + [t[1]] + [t[2]], t[3], s3, AnsweredAgain(c, n, k, w));
    assert before + t == before + [t[0]] + [t[1]] + [t[2]] + [t[3]];
  }

  lemma {:induction false} OnePrepared(w: Work)
    ensures Total([Exchange(w.first, [w.Result()])]) == 1 && Total(w.Exchanged()) == 1
  {
    assert [Exchange(w.first, [w.Result()])][..0] == [];
    assert w.Exchanged()[..1] == [Exchange(w.first, [w.Result()])];
  }

  lemma {:induction false} ReportsLast(c: Config, n: Names, k: Names, w: Work, before: Trace)
    requires UsualPair(c, n, k, w) && Fold(c, before) == Some(AnsweredAgain(c, n, k, w))
    ensures Fold(c, before + [Concluding(c, k)[0]]) == Some(ReportingAgain(c, n, k, w))
  {
    LastTurnIsDue(c, n, k, w);
    FoldsMore(c, before, Concluding(c, k)[0], AnsweredAgain(c, n, k, w), ReportingAgain(c, n, k, w));
  }

  lemma {:induction false} LastTurnIsDue(c: Config, n: Names, k: Names, w: Work)
    requires UsualPair(c, n, k, w)
    ensures Next(c, AnsweredAgain(c, n, k, w), Concluding(c, k)[0]) == Some(ReportingAgain(c, n, k, w))
  {
    var s := AnsweredAgain(c, n, k, w);
    OnePrepared(w);
    assert |s.saved| == 1;
    assert s.exchanges + [Exchange(w.second, [])] == w.Exchanged();
  }

  lemma {:induction false} Concludes(c: Config, n: Names, k: Names, w: Work, before: Trace)
    requires UsualPair(c, n, k, w) && Fold(c, before) == Some(ReportingAgain(c, n, k, w))
    ensures Fold(c, before + [Concluding(c, k)[1]] + [Concluding(c, k)[2]]) == Some(EndedPair(c, n, k, w))
  {
    var s, t := ReportingAgain(c, n, k, w), Concluding(c, k);
    FoldsMore(c, before, t[1], s, s.(closed := true));
    PairEndIsDue(c, n, k, w);
    FoldsMore(c, before + [t[1]], t[2], s.(closed := true), EndedPair(c, n, k, w));
  }

  lemma {:induction false} PairEndIsDue(c: Config, n: Names, k: Names, w: Work)
    requires UsualPair(c, n, k, w)
    ensures Next(c, ReportingAgain(c, n, k, w).(closed := true), Concluding(c, k)[2]) == Some(EndedPair(c, n, k, w))
  {
    OnePrepared(w);
    assert |ReportingAgain(c, n, k, w).saved| == 1;
  }

  lemma {:induction false} FoldsToAnswer(c: Config, n: Names, k: Names, w: Work)
    requires UsualPair(c, n, k, w)
    ensures Fold(c, Opening(c, n) + Answering(c, n, w.first) + ToolTurn(c, n, w) + Resuming(c, n, k, w)) == Some(AnsweredAgain(c, n, k, w))
  {
    var before := Opening(c, n) + Answering(c, n, w.first);
    FoldsAnswer(c, n, w.first);
    Works(c, n, k, w, before);
    Resumes(c, n, k, w, before + ToolTurn(c, n, w));
  }

  lemma {:induction false} FoldsTwoTurns(c: Config, n: Names, k: Names, w: Work)
    requires UsualPair(c, n, k, w)
    ensures Fold(c, TwoTurns(c, n, k, w)) == Some(EndedPair(c, n, k, w))
  {
    var before, t := Opening(c, n) + Answering(c, n, w.first) + ToolTurn(c, n, w) + Resuming(c, n, k, w), Concluding(c, k);
    FoldsToAnswer(c, n, k, w);
    ReportsLast(c, n, k, w, before);
    Concludes(c, n, k, w, before + [t[0]]);
    assert before + t == before + [t[0]] + [t[1]] + [t[2]];
  }

  lemma {:induction false} PairTellsTheTruth(c: Config, n: Names, k: Names, w: Work)
    requires UsualPair(c, n, k, w)
    ensures Truthful(c, TwoTurns(c, n, k, w), ReportedPair(c, k, w)) && Fold(c, TwoTurns(c, n, k, w)) == Some(EndedPair(c, n, k, w))
  {
    FoldsTwoTurns(c, n, k, w);
    OnePrepared(w);
  }
}
