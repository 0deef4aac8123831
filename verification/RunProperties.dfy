/** What it means for a trace to be legal, said about the trace itself. */
module RunProperties {
  import opened Wire
  import opened Tools
  import opened RunGrammar
  import opened ReplayValues

  // ----- Walking along a trace -----

  /** The scans a legal trace passes through, one more than it has steps. The trigger keeps `Next`
      folded except where `StepAt` asks for it. */
  ghost predicate Passes(c: Config, trace: Trace, scans: seq<Scan>) {
    && |scans| == |trace| + 1 && scans[0] == INITIAL
    && forall i {:trigger trace[..i]} :: 0 <= i < |trace| ==> Next(c, scans[i], trace[i]) == Some(scans[i + 1])
  }

  lemma PassesMore(c: Config, trace: Trace, scans: seq<Scan>, step: Step, s: Scan)
    requires Passes(c, trace, scans) && Next(c, scans[|trace|], step) == Some(s)
    ensures Passes(c, trace + [step], scans + [s])
  {
    forall i | 0 <= i < |trace| + 1
      ensures Next(c, (scans + [s])[i], (trace + [step])[i]) == Some((scans + [s])[i + 1])
    {
      if i < |trace| { StepAt(c, trace, scans, i); }
    }
  }

  lemma {:induction false} ScansOf(c: Config, trace: Trace) returns (scans: seq<Scan>)
    requires Legal(c, trace)
    ensures Passes(c, trace, scans) && Fold(c, trace) == Some(scans[|trace|])
  {
    if trace == [] {
      scans := [INITIAL];
    } else {
      var n := |trace| - 1;
      var before := ScansOf(c, trace[..n]);
      PassesMore(c, trace[..n], before, trace[n], Fold(c, trace).value);
      assert trace[..n] + [trace[n]] == trace;
      scans := before + [Fold(c, trace).value];
    }
  }

  lemma StepAt(c: Config, trace: Trace, scans: seq<Scan>, i: nat)
    requires Passes(c, trace, scans) && i < |trace|
    ensures Next(c, scans[i], trace[i]) == Some(scans[i + 1])
  {
    assert |trace[..i]| == i;
  }

  lemma EventStep(c: Config, s: Scan, step: Step, s': Scan)
    requires Next(c, s, step) == Some(s') && step.action.Event?
    ensures s.ended.None? && Conserved(step.summary) && Counted(s', step.summary)
    ensures Expects(c, s, step.action.envelope, step.summary)
    ensures s' == if step.action.ok then Deliver(c, s, step.action.envelope, step.summary) else s.(sent := s.sent + 1, sunk := true)
  {
  }

  lemma ActionStep(c: Config, s: Scan, step: Step, s': Scan)
    requires Next(c, s, step) == Some(s') && !step.action.Event?
    ensures s.ended.None? && Conserved(step.summary) && Counted(s', step.summary)
    ensures Allows(c, s, step.action) && s' == Perform(c, s, step.action)
  {
  }

  /** What later steps never take back. */
  ghost predicate Grows(s: Scan, s': Scan) {
    && s.sent <= s'.sent && s.turns <= s'.turns && s.generations <= s'.generations
    && (s.sunk ==> s'.sunk && s'.session == s.session) && (s.turns > 0 ==> s'.bound == s.bound) && (s.closed ==> s'.closed)
    && (s.session.Some? ==> s'.session == s.session) && (s.ended.Some? ==> s'.ended == s.ended)
    && (s.heard.Some? ==> s'.heard.Some? && s.heard.value <= s'.heard.value)
    && s.began <= s'.began
    && (forall id :: id in s.saved ==> id in s'.saved && s'.saved[id] == s.saved[id])
    && s.exchanges <= s'.exchanges
  }

  lemma GrowsByDelivery(c: Config, s: Scan, e: RunEventEnvelope, m: RunSummary)
    requires s.ended.None? && Expects(c, s, e, m)
    ensures Grows(s, Deliver(c, s, e, m))
  {
    match e.event
    case RunStarted =>
    case TurnStarted(_) =>
    case Provider(_) =>
    case ToolActivity(_) =>
    case TurnFinished(_, _, _, _) =>
    case RunFinished(_, _) =>
  }

  lemma GrowsByAction(c: Config, s: Scan, a: Action)
    requires !a.Event? && Allows(c, s, a)
    ensures Grows(s, Perform(c, s, a))
  {
  }

  lemma GrowsStep(c: Config, trace: Trace, scans: seq<Scan>, i: nat)
    requires Passes(c, trace, scans) && i < |trace|
    ensures Grows(scans[i], scans[i + 1])
  {
    StepAt(c, trace, scans, i);
    if trace[i].action.Event? {
      GrowsByDelivery(c, scans[i], trace[i].action.envelope, trace[i].summary);
    } else {
      GrowsByAction(c, scans[i], trace[i].action);
    }
  }

  lemma {:induction false} Monotone(c: Config, trace: Trace, scans: seq<Scan>, n: nat, m: nat)
    requires Passes(c, trace, scans) && n <= m <= |trace|
    ensures Grows(scans[n], scans[m])
    decreases m - n
  {
    if n < m {
      GrowsStep(c, trace, scans, n);
      Monotone(c, trace, scans, n + 1, m);
    }
  }

  // ----- An invariant of every reachable scan -----

  /** The results answer the first calls, each with the output saved under its id. */
  ghost predicate Answered(saved: map<Text, CachedResult>, calls: seq<FunctionCall>, results: seq<InputItem>) {
    && |results| <= |calls|
    && forall k :: 0 <= k < |results| ==>
         calls[k].callId in saved && results[k] == ToolResult(calls[k].callId, saved[calls[k].callId].output)
  }

  /** A finished turn: a completed response whose calls, if any, were all executed and answered. */
  ghost predicate Finished(c: Config, saved: map<Text, CachedResult>, e: Exchange) {
    && e.response.id != [] && e.response.outcome.ResponseCompleted?
    && (forall i :: 0 <= i < |e.response.output| ==>
          Plain(e.response.output[i].kind) || Callable(c.codec, c.tools, e.response.output[i]))
    && DistinctIds(CallsOf(e.response.output))
    && |e.results| == |CallsOf(e.response.output)|
    && Answered(saved, CallsOf(e.response.output), e.results)
  }

  ghost predicate Underway(c: Config, s: Scan, t: Turn) {
    && (t.response.Some? ==> t.terminal && t.response.value.id != [])
    && (t.phase.Running? ==> |t.results| < |Calls(t)| && Due(t).callId in s.began)
    && Answered(s.saved, Calls(t), t.results)
    && (s.last.None? || s.last == Some(ToolsPrepared)) && t.number == s.turns
  }

  ghost predicate Sound(c: Config, s: Scan) {
    && s.saved.Keys <= s.began
    && (forall id :: id in s.saved ==> |s.saved[id].output| <= MAX_TOOL_BYTES)
    && (forall i :: 0 <= i < |s.exchanges| ==> Finished(c, s.saved, s.exchanges[i]))
    && (forall i :: 0 <= i < |s.exchanges| ==>
          (s.exchanges[i].results == [] <==> i == |s.exchanges| - 1 && s.last == Some(ModelCompleted)))
    && (s.last == Some(ModelCompleted) ==> s.exchanges != [])
    && (s.last.Some? || s.turn.Some? ==> s.turns > 0)
    && (s.turn.Some? ==> Underway(c, s, s.turn.value))
  }

  lemma {:induction false} PlainHasNoCalls(output: seq<OutputItem>)
    requires forall i :: 0 <= i < |output| ==> Plain(output[i].kind)
    ensures CallsOf(output) == []
  {
    if output != [] { PlainHasNoCalls(output[..|output| - 1]); }
  }

  lemma StillUnderway(c: Config, s: Scan, t: Turn, p: EventEnvelope)
    requires Underway(c, s, t) && Hears(c, s, t, p)
    ensures Underway(c, s, AfterHearing(t, p))
  {
    assert Calls(t) == [];
  }

  lemma AnswersOneMore(c: Config, s: Scan, t: Turn, e: ToolEvent)
    requires Underway(c, s, t) && ToolFits(c, s, t, e)
    ensures Underway(c, s, AfterTool(s, t, e))
  {
  }

  lemma FinishesTurn(c: Config, s: Scan, t: Turn, outcome: TurnOutcome)
    requires Underway(c, s, t) && Reports(c, t, outcome) && !outcome.Stopped?
    ensures Finished(c, s.saved, Exchange(t.response.value, t.results))
    ensures t.results == [] <==> outcome.ModelCompleted?
  {
    if outcome.ModelCompleted? { PlainHasNoCalls(t.response.value.output); }
  }

  lemma SoundAfterTurn(c: Config, s: Scan, outcome: TurnOutcome, s': Scan)
    requires Sound(c, s) && s.turn.Some? && Reports(c, s.turn.value, outcome)
    requires var t := s.turn.value;
             s' == s.(sent := s'.sent, turn := None, last := Some(outcome),
                      exchanges := if outcome.Stopped? then s.exchanges else s.exchanges + [Exchange(t.response.value, t.results)])
    ensures Sound(c, s')
  {
    if !outcome.Stopped? { FinishesTurn(c, s, s.turn.value, outcome); }
  }

  lemma SoundElsewhere(c: Config, s: Scan, s': Scan)
    requires Sound(c, s)
    requires s'.saved == s.saved && s'.began == s.began && s'.exchanges == s.exchanges && s'.last == s.last
    requires s.turns <= s'.turns && (s'.turn.Some? ==> s'.turns > 0 && Underway(c, s', s'.turn.value))
    ensures Sound(c, s')
  {
  }

  lemma SoundByHearing(c: Config, s: Scan, e: RunEventEnvelope, m: RunSummary)
    requires Sound(c, s) && Expects(c, s, e, m) && e.event.Provider?
    ensures Sound(c, Deliver(c, s, e, m))
  {
    StillUnderway(c, s, s.turn.value, e.event.provided);
    SoundElsewhere(c, s, Deliver(c, s, e, m));
  }

  lemma SoundByTool(c: Config, s: Scan, e: RunEventEnvelope, m: RunSummary)
    requires Sound(c, s) && Expects(c, s, e, m) && e.event.ToolActivity?
    ensures Sound(c, Deliver(c, s, e, m))
  {
    AnswersOneMore(c, s, s.turn.value, e.event.tool);
    SoundElsewhere(c, s, Deliver(c, s, e, m));
  }

  lemma SoundByDelivery(c: Config, s: Scan, e: RunEventEnvelope, m: RunSummary)
    requires Sound(c, s) && s.ended.None? && Expects(c, s, e, m)
    ensures Sound(c, Deliver(c, s, e, m))
  {
    match e.event
    case Provider(_) => SoundByHearing(c, s, e, m);
    case ToolActivity(_) => SoundByTool(c, s, e, m);
    case TurnFinished(_, _, outcome, _) => SoundAfterTurn(c, s, outcome, Deliver(c, s, e, m));
    case _ => SoundBetweenTurns(c, s, e, m);
  }

  lemma SoundBetweenTurns(c: Config, s: Scan, e: RunEventEnvelope, m: RunSummary)
    requires Sound(c, s) && Expects(c, s, e, m) && (e.event.RunStarted? || e.event.TurnStarted? || e.event.RunFinished?)
    ensures Sound(c, Deliver(c, s, e, m))
  {
    SoundElsewhere(c, s, Deliver(c, s, e, m));
  }

  lemma SoundByRecord(c: Config, s: Scan, a: Action)
    requires Sound(c, s) && a.Recorded? && Allows(c, s, a)
    ensures Sound(c, Perform(c, s, a))
  {
  }

  lemma SoundByAction(c: Config, s: Scan, a: Action)
    requires Sound(c, s) && !a.Event? && Allows(c, s, a)
    ensures Sound(c, Perform(c, s, a))
  {
    if a.Recorded? { SoundByRecord(c, s, a); }
    else if !a.Began? { SoundElsewhere(c, s, Perform(c, s, a)); }
  }

  lemma SoundStep(c: Config, trace: Trace, scans: seq<Scan>, i: nat)
    requires Passes(c, trace, scans) && i < |trace| && Sound(c, scans[i])
    ensures Sound(c, scans[i + 1])
  {
    StepAt(c, trace, scans, i);
    SoundNext(c, scans[i], trace[i], scans[i + 1]);
  }

  lemma SoundNext(c: Config, s: Scan, step: Step, s': Scan)
    requires Next(c, s, step) == Some(s') && Sound(c, s)
    ensures Sound(c, s')
  {
    if step.action.Event? {
      EventStep(c, s, step, s');
      if step.action.ok { SoundByDelivery(c, s, step.action.envelope, step.summary); } else { SoundElsewhere(c, s, s'); }
    } else {
      ActionStep(c, s, step, s');
      SoundByAction(c, s, step.action);
    }
  }

  lemma {:induction false} SoundAt(c: Config, trace: Trace, scans: seq<Scan>, n: nat)
    requires Passes(c, trace, scans) && n <= |trace|
    ensures Sound(c, scans[n])
  {
    if n > 0 {
      SoundAt(c, trace, scans, n - 1);
      SoundStep(c, trace, scans, n - 1);
    }
  }

  // ----- Events: sequence, sink, end -----

  function Count(trace: Trace, kind: Action -> bool): nat {
    if trace == [] then 0
    else Count(trace[..|trace| - 1], kind) + if kind(trace[|trace| - 1].action) then 1 else 0
  }

  predicate IsEvent(a: Action) { a.Event? }
  predicate IsGenerate(a: Action) { a.Generated? }
  predicate IsFinal(a: Action) { a.Event? && a.envelope.event.RunFinished? }

  predicate ObserverFailed(a: Action) {
    match a
    case Event(_, ok) => !ok
    case Recorded(_, _, _, _, ok) => !ok
    case Bound(_, _, ok) => !ok
    case _ => false
  }

  lemma {:induction false} ScanCounts(c: Config, trace: Trace, scans: seq<Scan>, n: nat)
    requires Passes(c, trace, scans) && n <= |trace|
    ensures scans[n].sent == Count(trace[..n], IsEvent) && scans[n].generations == Count(trace[..n], IsGenerate)
  {
    if n > 0 {
      ScanCounts(c, trace, scans, n - 1);
      assert trace[..n][..n - 1] == trace[..n - 1];
      CountStep(c, trace, scans, n - 1);
    }
  }

  lemma CountStep(c: Config, trace: Trace, scans: seq<Scan>, i: nat)
    requires Passes(c, trace, scans) && i < |trace|
    ensures var a := trace[i].action;
            && scans[i + 1].sent == scans[i].sent + (if IsEvent(a) then 1 else 0)
            && scans[i + 1].generations == scans[i].generations + (if IsGenerate(a) then 1 else 0)
            && (IsEvent(a) ==> a.envelope.sequence == scans[i + 1].sent)
            && Conserved(trace[i].summary) && trace[i].summary.attempted == scans[i + 1].generations
  {
    StepAt(c, trace, scans, i);
    if trace[i].action.Event? {
      EventStep(c, scans[i], trace[i], scans[i + 1]);
      CountByDelivery(c, scans[i], trace[i].action.envelope, trace[i].summary);
    } else {
      ActionStep(c, scans[i], trace[i], scans[i + 1]);
      CountByAction(c, scans[i], trace[i].action);
    }
  }

  lemma CountByDelivery(c: Config, s: Scan, e: RunEventEnvelope, m: RunSummary)
    requires Expects(c, s, e, m)
    ensures e.sequence == s.sent + 1 == Deliver(c, s, e, m).sent && Deliver(c, s, e, m).generations == s.generations
  {
  }

  lemma CountByAction(c: Config, s: Scan, a: Action)
    requires !a.Event? && Allows(c, s, a)
    ensures Perform(c, s, a).sent == s.sent && Perform(c, s, a).generations == s.generations + if a.Generated? then 1 else 0
  {
  }

  /** Observed envelopes carry exactly the sequences 1, 2, 3, ... in order. */
  lemma SequencesAreConsecutive(c: Config, trace: Trace, i: nat)
    requires Legal(c, trace) && i < |trace| && trace[i].action.Event?
    ensures trace[i].action.envelope.sequence == Count(trace[..i + 1], IsEvent)
  {
    var scans := ScansOf(c, trace);
    CountStep(c, trace, scans, i);
    ScanCounts(c, trace, scans, i + 1);
  }

  /** Every step's counters are conserved, and attempts count the generations so far. */
  lemma CountersAreConserved(c: Config, trace: Trace, i: nat)
    requires Legal(c, trace) && i < |trace|
    ensures Conserved(trace[i].summary)
    ensures trace[i].summary.attempted == Count(trace[..i + 1], IsGenerate)
  {
    var scans := ScansOf(c, trace);
    CountStep(c, trace, scans, i);
    ScanCounts(c, trace, scans, i + 1);
  }

  lemma SunkStep(c: Config, trace: Trace, scans: seq<Scan>, i: nat)
    requires Passes(c, trace, scans) && i < |trace|
    ensures ObserverFailed(trace[i].action) ==> scans[i + 1].sunk
    ensures scans[i].sunk ==> trace[i].action.Closed?
  {
    StepAt(c, trace, scans, i);
  }

  /** After the first observer failure the run does nothing but close its session. */
  lemma NothingAfterSinkFailure(c: Config, trace: Trace, i: nat, j: nat)
    requires Legal(c, trace) && i < j < |trace| && ObserverFailed(trace[i].action)
    ensures trace[j].action.Closed?
  {
    var scans := ScansOf(c, trace);
    SunkStep(c, trace, scans, i);
    Monotone(c, trace, scans, i + 1, j);
    SunkStep(c, trace, scans, j);
  }

  lemma EndStep(c: Config, trace: Trace, scans: seq<Scan>, i: nat)
    requires Passes(c, trace, scans) && i < |trace|
    ensures scans[i].ended.None?
    ensures scans[i].closed ==> IsFinal(trace[i].action)
    ensures trace[i].action.Closed? ==> scans[i].session.Some? && scans[i + 1].closed
    ensures !trace[i].action.Closed? ==> scans[i + 1].closed == scans[i].closed
    ensures trace[i].action.Opened? ==> !scans[i].sunk && !scans[i].closed && scans[i + 1].session.Some?
    ensures IsFinal(trace[i].action) ==>
            && (scans[i].session.Some? ==> scans[i].closed) && scans[i + 1].session == scans[i].session
            && (if trace[i].action.ok then scans[i + 1].ended.Some? else scans[i + 1].sunk)
  {
    StepAt(c, trace, scans, i);
  }

  /** A final report is the last step of all, unless its delivery failed. */
  lemma FinalReportIsLast(c: Config, trace: Trace, i: nat, j: nat)
    requires Legal(c, trace) && i < j < |trace| && IsFinal(trace[i].action)
    ensures !trace[i].action.ok
  {
    var scans := ScansOf(c, trace);
    EndStep(c, trace, scans, i);
    Monotone(c, trace, scans, i + 1, j);
    EndStep(c, trace, scans, j);
  }

  /** A session is closed at most once, and before any final report. */
  lemma ClosedOnce(c: Config, trace: Trace, i: nat, j: nat)
    requires Legal(c, trace) && i < |trace| && trace[i].action.Closed? && j < |trace|
    ensures trace[j].action.Closed? ==> i == j
    ensures IsFinal(trace[j].action) ==> i < j
  {
    var scans := ScansOf(c, trace);
    EndStep(c, trace, scans, i);
    EndStep(c, trace, scans, j);
    if i < j { Monotone(c, trace, scans, i + 1, j); }
    if j < i { Monotone(c, trace, scans, j + 1, i); }
  }

  lemma {:induction false} WhenClosed(c: Config, trace: Trace, scans: seq<Scan>, n: nat) returns (k: nat)
    requires Passes(c, trace, scans) && n <= |trace| && scans[n].closed
    ensures k < n && trace[k].action.Closed?
  {
    EndStep(c, trace, scans, n - 1);
    k := n - 1;
    if scans[n - 1].closed {
      k := WhenClosed(c, trace, scans, n - 1);
    }
  }

  /** Every opened session is closed before the final report. */
  lemma OpenedIsClosedBeforeEnd(c: Config, trace: Trace, i: nat, j: nat) returns (k: nat)
    requires Legal(c, trace) && i < |trace| && trace[i].action.Opened?
    requires j < |trace| && IsFinal(trace[j].action)
    ensures i < k < j && trace[k].action.Closed?
  {
    var scans := ScansOf(c, trace);
    k := ClosedBetween(c, trace, scans, i, j);
  }

  lemma ClosedBetween(c: Config, trace: Trace, scans: seq<Scan>, i: nat, j: nat) returns (k: nat)
    requires Passes(c, trace, scans) && i < |trace| && trace[i].action.Opened?
    requires j < |trace| && IsFinal(trace[j].action)
    ensures i < k < j && trace[k].action.Closed?
  {
    EndStep(c, trace, scans, i);
    EndStep(c, trace, scans, j);
    if j < i {
      Monotone(c, trace, scans, j + 1, i);
    } else {
      Monotone(c, trace, scans, i + 1, j);
    }
    k := WhenClosed(c, trace, scans, j);
    ClosedAfterOpened(c, trace, scans, i, k);
  }

  lemma ClosedAfterOpened(c: Config, trace: Trace, scans: seq<Scan>, i: nat, k: nat)
    requires Passes(c, trace, scans) && i < |trace| && k < |trace|
    requires trace[i].action.Opened? && trace[k].action.Closed?
    ensures i < k
  {
    EndStep(c, trace, scans, i);
    EndStep(c, trace, scans, k);
    if k < i { Monotone(c, trace, scans, k + 1, i); }
  }

  // ----- Turns and provider events -----

  predicate StartsTurn(a: Action) { a.Event? && a.envelope.event.TurnStarted? }
  predicate EndsTurn(a: Action) { a.Event? && a.envelope.event.TurnFinished? }
  predicate IsProvider(a: Action) { a.Event? && a.envelope.event.Provider? }

  /** No turn starts or ends strictly between the two steps. */
  ghost predicate NoBoundary(trace: Trace, i: int, j: int) {
    forall k :: 0 <= i < k < j <= |trace| ==> !StartsTurn(trace[k].action) && !EndsTurn(trace[k].action)
  }

  /** How one step moves the turn boundary. */
  ghost predicate TurnMoves(s: Scan, s': Scan, a: Action) {
    if StartsTurn(a) then
      && s.turn.None? && s'.turn.Some? && s'.turn.value.number == a.envelope.event.number == s.turns + 1 == s'.turns
      && a.envelope.turnId == Some(s'.turn.value.id)
    else if EndsTurn(a) then
      && s.turn.Some? && s'.turn.None? && s.turn.value.number == a.envelope.event.number && s'.turns == s.turns
      && a.envelope.turnId == Some(s.turn.value.id)
    else
      && s'.turn.Some? == s.turn.Some? && s'.turns == s.turns
      && (s.turn.Some? ==> s'.turn.value.number == s.turn.value.number && s'.turn.value.id == s.turn.value.id)
  }

  lemma TurnByDelivery(c: Config, s: Scan, e: RunEventEnvelope, m: RunSummary)
    requires Expects(c, s, e, m)
    ensures TurnMoves(s, Deliver(c, s, e, m), Event(e, true))
  {
  }

  lemma TurnByAction(c: Config, s: Scan, a: Action)
    requires !a.Event? && Allows(c, s, a)
    ensures TurnMoves(s, Perform(c, s, a), a)
  {
  }

  lemma TurnStep(c: Config, trace: Trace, scans: seq<Scan>, i: nat)
    requires Passes(c, trace, scans) && i < |trace| && !scans[i + 1].sunk
    ensures TurnMoves(scans[i], scans[i + 1], trace[i].action)
  {
    StepAt(c, trace, scans, i);
    if trace[i].action.Event? {
      TurnByDelivery(c, scans[i], trace[i].action.envelope, trace[i].summary);
    } else {
      TurnByAction(c, scans[i], trace[i].action);
    }
  }

  lemma {:induction false} OpenTurn(c: Config, trace: Trace, scans: seq<Scan>, n: nat) returns (i: nat)
    requires Passes(c, trace, scans) && n <= |trace| && scans[n].turn.Some? && !scans[n].sunk
    ensures i < n && StartsTurn(trace[i].action) && NoBoundary(trace, i, n)
    ensures trace[i].action.envelope.event.number == scans[n].turn.value.number
    ensures trace[i].action.envelope.turnId == Some(scans[n].turn.value.id)
  {
    TurnStep(c, trace, scans, n - 1);
    GrowsStep(c, trace, scans, n - 1);
    i := n - 1;
    if !StartsTurn(trace[n - 1].action) {
      i := OpenTurn(c, trace, scans, n - 1);
    }
  }

  lemma {:induction false} TurnCloses(c: Config, trace: Trace, scans: seq<Scan>, n: nat, j: nat) returns (k: nat)
    requires Passes(c, trace, scans) && n <= j <= |trace| && scans[n].turn.Some? && scans[j].turn.None? && !scans[j].sunk
    ensures n <= k < j && EndsTurn(trace[k].action)
    ensures trace[k].action.envelope.event.number == scans[n].turn.value.number
    decreases j - n
  {
    Monotone(c, trace, scans, n + 1, j);
    TurnStep(c, trace, scans, n);
    k := n;
    if !EndsTurn(trace[n].action) {
      k := TurnCloses(c, trace, scans, n + 1, j);
    }
  }

  lemma BoundaryStep(c: Config, trace: Trace, scans: seq<Scan>, i: nat)
    requires Passes(c, trace, scans) && i < |trace| && (StartsTurn(trace[i].action) || EndsTurn(trace[i].action))
    ensures !scans[i].sunk && (scans[i].turn.Some? <==> EndsTurn(trace[i].action))
    ensures EndsTurn(trace[i].action) ==>
            && trace[i].action.envelope.event.number == scans[i].turn.value.number
            && trace[i].action.envelope.turnId == Some(scans[i].turn.value.id)
    ensures StartsTurn(trace[i].action) ==> trace[i].action.envelope.event.number == scans[i].turns + 1
  {
    StepAt(c, trace, scans, i);
  }

  /** A turn finish reports the turn most recently started, with nothing between them but that turn. */
  lemma FinishMatchesStart(c: Config, trace: Trace, j: nat) returns (i: nat)
    requires Legal(c, trace) && j < |trace| && EndsTurn(trace[j].action)
    ensures i < j && StartsTurn(trace[i].action) && NoBoundary(trace, i, j)
    ensures trace[i].action.envelope.event.number == trace[j].action.envelope.event.number
    ensures trace[i].action.envelope.turnId == trace[j].action.envelope.turnId
  {
    var scans := ScansOf(c, trace);
    BoundaryStep(c, trace, scans, j);
    i := OpenTurn(c, trace, scans, j);
  }

  /** Turns do not nest: before another starts, the earlier one is finished. Numbers increase. */
  lemma TurnsDoNotNest(c: Config, trace: Trace, i: nat, j: nat) returns (k: nat)
    requires Legal(c, trace) && i < j < |trace| && StartsTurn(trace[i].action) && StartsTurn(trace[j].action)
    ensures i < k < j && EndsTurn(trace[k].action)
    ensures trace[k].action.envelope.event.number == trace[i].action.envelope.event.number
    ensures trace[i].action.envelope.event.number < trace[j].action.envelope.event.number
  {
    var scans := ScansOf(c, trace);
    BoundaryStep(c, trace, scans, j);
    Monotone(c, trace, scans, i + 1, j);
    TurnStep(c, trace, scans, i);
    k := TurnCloses(c, trace, scans, i + 1, j);
  }

  function ResponseIdOf(e: ProviderEvent): Option<Text> {
    match e
    case ResponseStarted(id) => Some(id)
    case Progress(id) => Some(id)
    case ResponseFinished(response) => Some(response.id)
    case _ => None
  }

  predicate Terminal(e: ProviderEvent) { e.ResponseFinished? || e.RequestFailed? }

  lemma ProviderStep(c: Config, trace: Trace, scans: seq<Scan>, i: nat)
    requires Passes(c, trace, scans) && i < |trace| && IsProvider(trace[i].action)
    ensures var p := trace[i].action.envelope.event.provided;
            && !scans[i].sunk && scans[i].turn.Some? && !scans[i].turn.value.terminal
            && p.requestId.Some? && p.requestId == scans[i].request == trace[i].action.envelope.requestId
            && (scans[i].heard.Some? ==> scans[i].heard.value < p.sequence)
            && (scans[i].turn.value.responseId.Some? && ResponseIdOf(p.event).Some? ==>
                  scans[i].turn.value.responseId == ResponseIdOf(p.event))
    ensures var p := trace[i].action.envelope.event.provided;
            !scans[i + 1].sunk ==>
            && scans[i + 1].heard == Some(p.sequence) && scans[i + 1].request == scans[i].request
            && scans[i + 1].turn.Some? && scans[i + 1].turn.value.terminal == Terminal(p.event)
            && (ResponseIdOf(p.event).Some? ==> scans[i + 1].turn.value.responseId == ResponseIdOf(p.event))
            && (p.event.ResponseFinished? ==> scans[i + 1].turn.value.response == Some(p.event.response))
            && (!p.event.ResponseFinished? ==> scans[i + 1].turn.value.response == scans[i].turn.value.response)
  {
    StepAt(c, trace, scans, i);
  }

  /** Forwarded provider events strictly increase over the whole run. */
  lemma ProviderSequencesIncrease(c: Config, trace: Trace, i: nat, j: nat)
    requires Legal(c, trace) && i < j < |trace| && IsProvider(trace[i].action) && IsProvider(trace[j].action)
    ensures trace[i].action.envelope.event.provided.sequence < trace[j].action.envelope.event.provided.sequence
  {
    var scans := ScansOf(c, trace);
    ProviderStep(c, trace, scans, i);
    ProviderStep(c, trace, scans, j);
    Monotone(c, trace, scans, i + 1, j);
  }

  /** Within one turn what is known of its request and response stays. */
  ghost predicate Keeps(s: Scan, s': Scan) {
    && s.turn.Some? && s'.turn.Some?
    && (s.turn.value.responseId.Some? ==> s'.turn.value.responseId == s.turn.value.responseId)
    && (s.turn.value.terminal ==> s'.turn.value.terminal)
    && (s.request.Some? ==> s'.request == s.request)
  }

  lemma KeepStep(c: Config, trace: Trace, scans: seq<Scan>, i: nat)
    requires Passes(c, trace, scans) && i < |trace| && scans[i].turn.Some? && !scans[i + 1].sunk
    requires !StartsTurn(trace[i].action) && !EndsTurn(trace[i].action)
    ensures Keeps(scans[i], scans[i + 1])
  {
    StepAt(c, trace, scans, i);
    if trace[i].action.Event? {
      EventStep(c, scans[i], trace[i], scans[i + 1]);
      KeepByDelivery(c, scans[i], trace[i].action.envelope, trace[i].summary);
    } else {
      ActionStep(c, scans[i], trace[i], scans[i + 1]);
      KeepByAction(c, scans[i], trace[i].action);
    }
  }

  lemma KeepByDelivery(c: Config, s: Scan, e: RunEventEnvelope, m: RunSummary)
    requires s.turn.Some? && Expects(c, s, e, m) && !e.event.TurnStarted? && !e.event.TurnFinished?
    ensures Keeps(s, Deliver(c, s, e, m))
  {
  }

  lemma KeepByAction(c: Config, s: Scan, a: Action)
    requires s.turn.Some? && !a.Event? && Allows(c, s, a)
    ensures Keeps(s, Perform(c, s, a))
  {
  }

  lemma {:induction false} TurnKeeps(c: Config, trace: Trace, scans: seq<Scan>, n: nat, m: nat)
    requires Passes(c, trace, scans) && n <= m <= |trace| && scans[n].turn.Some? && !scans[m].sunk
    requires NoBoundary(trace, n - 1, m)
    requires n > 0
    ensures Keeps(scans[n], scans[m])
    decreases m - n
  {
    if n < m {
      Monotone(c, trace, scans, n + 1, m);
      KeepStep(c, trace, scans, n);
      TurnKeeps(c, trace, scans, n + 1, m);
    }
  }

  /** Within one turn: one request, one response id, and nothing after a terminal event. */
  lemma OneResponsePerTurn(c: Config, trace: Trace, i: nat, j: nat)
    requires Legal(c, trace) && i < j < |trace| && IsProvider(trace[i].action) && IsProvider(trace[j].action)
    requires NoBoundary(trace, i, j)
    ensures var (p, q) := (trace[i].action.envelope.event.provided, trace[j].action.envelope.event.provided);
            && p.requestId == q.requestId && !Terminal(p.event)
            && (ResponseIdOf(p.event).Some? && ResponseIdOf(q.event).Some? ==> ResponseIdOf(p.event) == ResponseIdOf(q.event))
  {
    var scans := ScansOf(c, trace);
    ProviderStep(c, trace, scans, i);
    ProviderStep(c, trace, scans, j);
    KeptBetween(c, trace, scans, i, j);
  }

  lemma KeptBetween(c: Config, trace: Trace, scans: seq<Scan>, i: nat, j: nat)
    requires Passes(c, trace, scans) && i < j < |trace| && NoBoundary(trace, i, j)
    requires (!scans[i + 1].sunk ==> scans[i + 1].turn.Some?) && !scans[j].sunk
    ensures !scans[i + 1].sunk && Keeps(scans[i + 1], scans[j])
  {
    Monotone(c, trace, scans, i + 1, j);
    TurnKeeps(c, trace, scans, i + 1, j);
  }

  // ----- Tool work -----

  predicate TouchesTool(a: Action) {
    a.Began? || a.Recorded? || (a.Event? && a.envelope.event.ToolActivity?)
  }

  function TouchedId(a: Action): Text
    requires TouchesTool(a)
  {
    match a
    case Began(id) => id
    case Recorded(_, id, _, _, _) => id
    case Event(envelope, _) => envelope.event.tool.callId
  }

  lemma ToolStep(c: Config, trace: Trace, scans: seq<Scan>, i: nat)
    requires Passes(c, trace, scans) && i < |trace| && TouchesTool(trace[i].action)
    ensures !scans[i].sunk && scans[i].turn.Some? && Working(c, scans[i], scans[i].turn.value)
    ensures Due(scans[i].turn.value).callId == TouchedId(trace[i].action)
    ensures trace[i].action.Began? ==> trace[i].action.callId !in scans[i].began && trace[i].action.callId in scans[i + 1].began
    ensures trace[i].action.Recorded? ==>
            && trace[i].action.callId !in scans[i].saved && trace[i].action.callId in scans[i + 1].saved
            && scans[i + 1].saved[trace[i].action.callId].output == trace[i].action.output
  {
    StepAt(c, trace, scans, i);
  }

  /** A tool begins at most once per call id in a run, whatever the provider asks for. */
  lemma BeganOnce(c: Config, trace: Trace, i: nat, j: nat)
    requires Legal(c, trace) && i < j < |trace| && trace[i].action.Began? && trace[j].action.Began?
    ensures trace[i].action.callId != trace[j].action.callId
  {
    var scans := ScansOf(c, trace);
    ToolStep(c, trace, scans, i);
    ToolStep(c, trace, scans, j);
    Monotone(c, trace, scans, i + 1, j);
  }

  lemma {:induction false} WhenHeard(c: Config, trace: Trace, scans: seq<Scan>, n: nat) returns (k: nat)
    requires Passes(c, trace, scans) && n <= |trace| && !scans[n].sunk
    requires scans[n].turn.Some? && scans[n].turn.value.response.Some?
    ensures k < n && IsProvider(trace[k].action) && NoBoundary(trace, k, n)
    ensures trace[k].action.envelope.event.provided.event == ResponseFinished(scans[n].turn.value.response.value)
  {
    k := n - 1;
    GrowsStep(c, trace, scans, k);
    HeardStep(c, trace, scans, k);
    if scans[k].turn.Some? && scans[k].turn.value.response == scans[n].turn.value.response {
      k := WhenHeard(c, trace, scans, k);
    }
  }

  lemma HeardStep(c: Config, trace: Trace, scans: seq<Scan>, i: nat)
    requires Passes(c, trace, scans) && i < |trace|
    requires scans[i + 1].turn.Some? && scans[i + 1].turn.value.response.Some?
    ensures || (IsProvider(trace[i].action)
                && trace[i].action.envelope.event.provided.event == ResponseFinished(scans[i + 1].turn.value.response.value))
            || (&& scans[i].turn.Some? && scans[i].turn.value.response == scans[i + 1].turn.value.response
                && (!scans[i + 1].sunk ==> !StartsTurn(trace[i].action) && !EndsTurn(trace[i].action)))
  {
    StepAt(c, trace, scans, i);
    if trace[i].action.Event? {
      EventStep(c, scans[i], trace[i], scans[i + 1]);
      if trace[i].action.ok { HeardByDelivery(c, scans[i], trace[i].action.envelope, trace[i].summary); }
    } else {
      ActionStep(c, scans[i], trace[i], scans[i + 1]);
      HeardByAction(c, scans[i], trace[i].action);
    }
  }

  lemma HeardByDelivery(c: Config, s: Scan, e: RunEventEnvelope, m: RunSummary)
    requires Expects(c, s, e, m)
    ensures var s' := Deliver(c, s, e, m);
            s'.turn.Some? && s'.turn.value.response.Some? ==>
              || (e.event.Provider? && e.event.provided.event == ResponseFinished(s'.turn.value.response.value))
              || (&& s.turn.Some? && s.turn.value.response == s'.turn.value.response
                  && !e.event.TurnStarted? && !e.event.TurnFinished?)
  {
  }

  lemma HeardByAction(c: Config, s: Scan, a: Action)
    requires !a.Event? && Allows(c, s, a)
    ensures var s' := Perform(c, s, a);
            s'.turn.Some? ==> s.turn.Some? && s.turn.value.response == s'.turn.value.response
  {
  }

  /** Tool work happens only when the turn's whole response passed preflight: every item is plain or
      callable, ids are distinct, and no call still due contradicts an output saved under its id. */
  lemma AllOrNothing(c: Config, trace: Trace, j: nat) returns (k: nat, due: nat)
    requires Legal(c, trace) && j < |trace| && TouchesTool(trace[j].action)
    ensures k < j && NoBoundary(trace, k, j) && IsProvider(trace[k].action)
    ensures var e := trace[k].action.envelope.event.provided.event;
            && e.ResponseFinished? && Executable(c.codec, c.tools, e.response)
            && due < |CallsOf(e.response.output)| && CallsOf(e.response.output)[due].callId == TouchedId(trace[j].action)
            && Legal(c, trace[..j])
            && forall m :: due <= m < |CallsOf(e.response.output)| ==>
                 Agrees(c.codec, Fold(c, trace[..j]).value.saved, CallsOf(e.response.output)[m])
  {
    var scans := ScansOf(c, trace);
    ToolStep(c, trace, scans, j);
    k := WhenHeard(c, trace, scans, j);
    due := |scans[j].turn.value.results|;
    FoldsTo(c, trace, scans, j);
  }

  lemma FoldsOn(c: Config, trace: Trace, n: nat, before: Scan, after: Scan)
    requires 0 < n <= |trace| && Fold(c, trace[..n - 1]) == Some(before) && Next(c, before, trace[n - 1]) == Some(after)
    ensures Fold(c, trace[..n]) == Some(after)
  {
    assert trace[..n][..n - 1] == trace[..n - 1];
  }

  lemma {:induction false} FoldsTo(c: Config, trace: Trace, scans: seq<Scan>, n: nat)
    requires Passes(c, trace, scans) && n <= |trace|
    ensures Fold(c, trace[..n]) == Some(scans[n])
  {
    if n > 0 {
      FoldsTo(c, trace, scans, n - 1);
      StepAt(c, trace, scans, n - 1);
      FoldsOn(c, trace, n, scans[n - 1], scans[n]);
    }
  }

  lemma GeneratedStep(c: Config, trace: Trace, scans: seq<Scan>, i: nat)
    requires Passes(c, trace, scans) && i < |trace| && trace[i].action.Generated?
    ensures trace[i].action.input == NextInput(c, scans[i])
  {
    StepAt(c, trace, scans, i);
  }

  /** A tool result the provider ever receives is the bounded output saved under its id. */
  lemma SentResultIsSaved(c: Config, trace: Trace, scans: seq<Scan>, i: nat, m: nat)
    requires Passes(c, trace, scans) && i < |trace| && trace[i].action.Generated?
    requires m < |trace[i].action.input| && trace[i].action.input[m].ToolResult?
    ensures var r := trace[i].action.input[m];
            r.callId in scans[i].saved && scans[i].saved[r.callId].output == r.output && |r.output| <= MAX_TOOL_BYTES
  {
    GeneratedStep(c, trace, scans, i);
    SoundAt(c, trace, scans, i);
    var last := scans[i].exchanges[|scans[i].exchanges| - 1];
    assert Finished(c, scans[i].saved, last);
  }

  /** One id, one output: every request of the run that answers a call id gives the same output, and a
      reuse therefore returns what the first execution produced. */
  lemma SameIdSameOutput(c: Config, trace: Trace, i: nat, m: nat, j: nat, n: nat)
    requires Legal(c, trace) && i <= j < |trace| && trace[i].action.Generated? && trace[j].action.Generated?
    requires m < |trace[i].action.input| && trace[i].action.input[m].ToolResult?
    requires n < |trace[j].action.input| && trace[j].action.input[n].ToolResult?
    requires trace[i].action.input[m].callId == trace[j].action.input[n].callId
    ensures trace[i].action.input[m] == trace[j].action.input[n]
    ensures |trace[i].action.input[m].output| <= MAX_TOOL_BYTES
  {
    var scans := ScansOf(c, trace);
    SentResultIsSaved(c, trace, scans, i, m);
    SentResultIsSaved(c, trace, scans, j, n);
    Monotone(c, trace, scans, i, j);
  }

  /** What was recorded for a call id is what every later request says. */
  lemma RecordedIsFinal(c: Config, trace: Trace, i: nat, j: nat, n: nat)
    requires Legal(c, trace) && i < j < |trace| && trace[i].action.Recorded? && trace[j].action.Generated?
    requires n < |trace[j].action.input| && trace[j].action.input[n].ToolResult?
    requires trace[i].action.callId == trace[j].action.input[n].callId
    ensures trace[i].action.output == trace[j].action.input[n].output
  {
    var scans := ScansOf(c, trace);
    ToolStep(c, trace, scans, i);
    SentResultIsSaved(c, trace, scans, j, n);
    Monotone(c, trace, scans, i + 1, j);
  }

  // ----- The summary, counted from the trace -----

  predicate IsAdmission(a: Action) { a.Admitted? }
  predicate IsRecord(a: Action) { a.Recorded? }
  predicate TurnBegun(a: Action) { a.Event? && a.ok && a.envelope.event.TurnStarted? }
  predicate CallFinished(a: Action) { a.Event? && a.ok && a.envelope.event.ToolActivity? && a.envelope.event.tool.ToolFinished? }
  predicate CallReused(a: Action) { a.Event? && a.ok && a.envelope.event.ToolActivity? && a.envelope.event.tool.ToolReused? }

  function One(b: bool): nat { if b then 1 else 0 }

  /** Tool results that the turns so far have prepared. */
  function Answers(s: Scan): nat { Total(s.exchanges) + if s.turn.Some? then |s.turn.value.results| else 0 }

  predicate Broken(s: Scan) { s.last.Some? && s.last.value.Stopped? }

  /** How one step moves everything that is counted. Once a turn was stopped, none follows it. */
  ghost predicate Reckons(s: Scan, s': Scan, a: Action) {
    && |s'.saved| == |s.saved| + One(IsRecord(a)) && s'.admissions == s.admissions + One(IsAdmission(a))
    && s'.turns == s.turns + One(TurnBegun(a))
    && (!Broken(s') ==>
          && !Broken(s)
          && Answers(s') == Answers(s) + One(CallFinished(a)) + One(CallReused(a))
          && Owed(s') + One(CallFinished(a)) == Owed(s) + One(IsRecord(a))
          && Open(s') + |s'.exchanges| == Open(s) + |s.exchanges| + One(TurnBegun(a)))
  }

  /** A result saved and not yet reported. */
  function Owed(s: Scan): nat { One(s.turn.Some? && s.turn.value.phase.Saved?) }

  function Open(s: Scan): nat { One(s.turn.Some?) }

  lemma TotalOfMore(exchanges: seq<Exchange>, e: Exchange)
    ensures Total(exchanges + [e]) == Total(exchanges) + |e.results|
  {
    assert (exchanges + [e])[..|exchanges|] == exchanges;
  }

  lemma ReckonsTurnFinished(c: Config, s: Scan, e: RunEventEnvelope, m: RunSummary)
    requires Sound(c, s) && Expects(c, s, e, m) && e.event.TurnFinished?
    ensures Reckons(s, Deliver(c, s, e, m), Event(e, true))
  {
    if !e.event.turnOutcome.Stopped? {
      TotalOfMore(s.exchanges, Exchange(s.turn.value.response.value, s.turn.value.results));
    }
  }

  lemma ReckonsTool(c: Config, s: Scan, e: RunEventEnvelope, m: RunSummary)
    requires Expects(c, s, e, m) && e.event.ToolActivity?
    ensures Reckons(s, Deliver(c, s, e, m), Event(e, true))
  {
  }

  lemma ReckonsElsewhere(c: Config, s: Scan, e: RunEventEnvelope, m: RunSummary)
    requires Expects(c, s, e, m) && !e.event.TurnFinished? && !e.event.ToolActivity?
    ensures Reckons(s, Deliver(c, s, e, m), Event(e, true))
  {
  }

  lemma ReckonsDelivery(c: Config, s: Scan, e: RunEventEnvelope, m: RunSummary)
    requires Sound(c, s) && Expects(c, s, e, m)
    ensures Reckons(s, Deliver(c, s, e, m), Event(e, true))
  {
    match e.event
    case TurnFinished(_, _, _, _) => ReckonsTurnFinished(c, s, e, m);
    case ToolActivity(_) => ReckonsTool(c, s, e, m);
    case _ => ReckonsElsewhere(c, s, e, m);
  }

  lemma ReckonsAction(c: Config, s: Scan, a: Action)
    requires !a.Event? && Allows(c, s, a)
    ensures Reckons(s, Perform(c, s, a), a)
  {
  }

  lemma ReckonsStep(c: Config, trace: Trace, scans: seq<Scan>, i: nat)
    requires Passes(c, trace, scans) && i < |trace|
    ensures Reckons(scans[i], scans[i + 1], trace[i].action)
  {
    StepAt(c, trace, scans, i);
    SoundAt(c, trace, scans, i);
    if trace[i].action.Event? {
      EventStep(c, scans[i], trace[i], scans[i + 1]);
      if trace[i].action.ok { ReckonsDelivery(c, scans[i], trace[i].action.envelope, trace[i].summary); }
    } else {
      ActionStep(c, scans[i], trace[i], scans[i + 1]);
      ReckonsAction(c, scans[i], trace[i].action);
    }
  }

  ghost predicate Reckoned(s: Scan, trace: Trace) {
    && |s.saved| == Count(trace, IsRecord) && s.admissions == Count(trace, IsAdmission) && s.turns == Count(trace, TurnBegun)
    && (!Broken(s) ==>
          && Answers(s) == Count(trace, CallFinished) + Count(trace, CallReused)
          && Owed(s) + Count(trace, CallFinished) == Count(trace, IsRecord)
          && Open(s) + |s.exchanges| == Count(trace, TurnBegun))
  }

  lemma {:induction false} ReckonedAt(c: Config, trace: Trace, scans: seq<Scan>, n: nat)
    requires Passes(c, trace, scans) && n <= |trace|
    ensures Reckoned(scans[n], trace[..n])
  {
    if n > 0 {
      ReckonedAt(c, trace, scans, n - 1);
      ReckonsStep(c, trace, scans, n - 1);
      assert trace[..n][..n - 1] == trace[..n - 1];
    }
  }

  /** One generation and one admission per turn: a response answers a request, and a request was asked for. */
  ghost predicate Requested(s: Scan) {
    && (s.turn.Some? ==>
          && (s.turn.value.response.Some? ==> s.request.Some?) && (s.request.Some? ==> s.turn.value.generated))
    && (!Broken(s) ==>
          && s.generations == |s.exchanges| + One(s.turn.Some? && s.turn.value.generated)
          && s.admissions == |s.exchanges| + One(s.turn.Some? && s.request.Some?))
  }

  lemma RequestedTurnFinished(c: Config, s: Scan, e: RunEventEnvelope, m: RunSummary)
    requires Sound(c, s) && Requested(s) && Expects(c, s, e, m) && e.event.TurnFinished?
    ensures Requested(Deliver(c, s, e, m))
  {
  }

  lemma RequestedDelivery(c: Config, s: Scan, e: RunEventEnvelope, m: RunSummary)
    requires Sound(c, s) && Requested(s) && Expects(c, s, e, m)
    ensures Requested(Deliver(c, s, e, m))
  {
    if e.event.TurnFinished? { RequestedTurnFinished(c, s, e, m); }
  }

  lemma RequestedAction(c: Config, s: Scan, a: Action)
    requires Requested(s) && !a.Event? && Allows(c, s, a)
    ensures Requested(Perform(c, s, a))
  {
  }

  lemma {:induction false} RequestedAt(c: Config, trace: Trace, scans: seq<Scan>, n: nat)
    requires Passes(c, trace, scans) && n <= |trace|
    ensures Requested(scans[n])
  {
    if n > 0 {
      var i := n - 1;
      RequestedAt(c, trace, scans, i);
      StepAt(c, trace, scans, i);
      SoundAt(c, trace, scans, i);
      if trace[i].action.Event? {
        EventStep(c, scans[i], trace[i], scans[n]);
        if trace[i].action.ok { RequestedDelivery(c, scans[i], trace[i].action.envelope, trace[i].summary); }
      } else {
        ActionStep(c, scans[i], trace[i], scans[n]);
        RequestedAction(c, scans[i], trace[i].action);
      }
    }
  }

  /** Every counter in the summary of a completed run is the number of steps of that kind. */
  lemma CompletedSummaryIsExact(c: Config, trace: Trace, result: RunResult)
    requires Truthful(c, trace, result) && result.outcome.Completed?
    ensures var m := result.summary;
            && m.turnsStarted == m.turnsFinished == Count(trace, TurnBegun)
            && m.attempted == Count(trace, IsGenerate) && m.admitted == Count(trace, IsAdmission)
            && m.dispatches == Count(trace, IsRecord) == Count(trace, CallFinished)
            && m.reused == Count(trace, CallReused)
            && m.prepared == Count(trace, CallFinished) + Count(trace, CallReused)
            && m.attempted == m.admitted == m.turnsStarted
  {
    var scans := ScansOf(c, trace);
    ReckonedAt(c, trace, scans, |trace|);
    ScanCounts(c, trace, scans, |trace|);
    assert trace[..|trace|] == trace;
    RequestedAt(c, trace, scans, |trace|);
  }
}
