/** A session of completed runs, from what they wrote to the replay that the next run starts from. */
module SessionReplay {
  import opened Wire
  import opened RunGrammar
  import opened ReplayValues
  import opened Reconstruct
  import opened HistoryPrefix
  import opened ReplayBuilder
  import P = RunProperties
  import B = ReadBack

  /** One run of the session: what it did, what it reported, and the selection of history it was given. */
  datatype SessionRun = SessionRun(c: Config, trace: Trace, result: RunResult, selection: Selection)
  {
    function Exchanges(): seq<Exchange> {
      if Legal(c, trace) then Fold(c, trace).value.exchanges else []
    }

    function Replayed(): ReplayRun { ReplayRun(c.runId, c.prompt, Exchanges()) }
  }

  // ---- what a run leaves in the log

  /** The record the observer stores of one step. */
  function Kept(c: Config, a: Action): Option<Payload> {
    match a
    case Bound(session, identity, true) => Some(BoundProvider(Binding(c.runId, session, c.model, identity)))
    case Event(e, true) => Some(Observed(e))
    case Recorded(request, id, output, isError, true) => Some(SavedTool(Some(request), id, output, isError))
    case _ => None
  }

  function More(c: Config, records: seq<Stored>, a: Action, at: nat): seq<Stored> {
    match Kept(c, a)
    case None => records
    case Some(p) => records + [Stored(at + |records| + 1, Some(c.runId), p)]
  }

  function Records(c: Config, trace: Trace, at: nat): seq<Stored> {
    if trace == [] then []
    else More(c, Records(c, trace[..|trace| - 1], at), trace[|trace| - 1].action, at)
  }

  function Heading(r: SessionRun, at: nat): seq<Stored> {
    [Stored(at + 1, Some(r.c.runId), AcceptedRun(r.c.runId, r.c.prompt, r.c.provider, r.c.model)),
     Stored(at + 2, Some(r.c.runId), Selected(r.selection))]
  }

  /** Everything a run adds to a log of `at` events: its acceptance, its selection, its records, its result. */
  function Entries(r: SessionRun, at: nat): seq<Stored> {
    var records := Records(r.c, r.trace, at + 2);
    Heading(r, at) + records + [Stored(at + |records| + 3, Some(r.c.runId), SavedRunResult(r.result))]
  }

  /** The log of a session: its creation, then its runs one after the other. */
  function Log(runs: seq<SessionRun>): (log: seq<Stored>)
    ensures log != []
  {
    if runs == [] then [Stored(1, None, Created)]
    else
      var before := Log(runs[..|runs| - 1]);
      before + Entries(runs[|runs| - 1], |before|)
  }

  predicate NumberedFrom(events: seq<Stored>, at: nat) {
    forall i :: 0 <= i < |events| ==> events[i].sequence == at + i + 1
  }

  lemma {:induction false} RecordsAreNumbered(c: Config, trace: Trace, at: nat)
    ensures NumberedFrom(Records(c, trace, at), at)
  {
    if trace != [] { RecordsAreNumbered(c, trace[..|trace| - 1], at); }
  }

  lemma {:induction false} LogIsNumbered(runs: seq<SessionRun>)
    ensures NumberedFrom(Log(runs), 0)
  {
    if runs != [] {
      var before := Log(runs[..|runs| - 1]);
      LogIsNumbered(runs[..|runs| - 1]);
      EntriesAreNumbered(runs[|runs| - 1], |before|);
      NumberedOn(before, Entries(runs[|runs| - 1], |before|), 0);
    }
  }

  lemma {:induction false} NumberedOn(a: seq<Stored>, b: seq<Stored>, at: nat)
    requires NumberedFrom(a, at) && NumberedFrom(b, at + |a|)
    ensures NumberedFrom(a + b, at)
  {
  }

  lemma {:induction false} EntriesAreNumbered(r: SessionRun, at: nat)
    ensures NumberedFrom(Entries(r, at), at)
  {
    var records := Records(r.c, r.trace, at + 2);
    RecordsAreNumbered(r.c, r.trace, at + 2);
    NumberedOn(Heading(r, at), records, at);
    NumberedOn(Heading(r, at) + records, [Stored(at + |records| + 3, Some(r.c.runId), SavedRunResult(r.result))], at);
  }

  // ---- the builder follows the reader

  /** A record of the active run moves the builder as it moves the reader, unless it ends the run. */
  lemma {:induction false} ObservesRecord(c: Config, b: Building, run: ActiveRun, a: Action, sequence: nat)
    requires b.active == Some(run) && run.runId == c.runId && run.model == c.model && run.selection.Some?
    requires Kept(c, a).Some? && !P.IsFinal(a)
    ensures Observing(c.codec, b, Stored(sequence, Some(c.runId), Kept(c, a).value)) ==
            match B.Feed(c.codec, run, a) case None => None case Some(next) => Some(b.(active := Some(next)))
  {
  }

  lemma {:induction false} UnkeptFeedsNothing(c: Config, run: ActiveRun, a: Action)
    requires Kept(c, a).None?
    ensures B.Feed(c.codec, run, a) == Some(run)
  {
  }

  lemma {:induction false} RecordsMore(c: Config, trace: Trace, n: nat, at: nat)
    requires n < |trace|
    ensures Records(c, trace[..n + 1], at) == More(c, Records(c, trace[..n], at), trace[n].action, at)
  {
    assert trace[..n + 1][..n] == trace[..n];
  }

  lemma {:induction false} FoldsRecords(c: Config, log: seq<Stored>, b: Building, run: ActiveRun, trace: Trace, n: nat)
    requires Folded(c.codec, log) == Some(b) && b.active == Some(run)
    requires run.runId == c.runId && run.model == c.model && run.selection.Some?
    requires n <= |trace| && B.Read(c.codec, run, trace[..n]).Some?
    requires forall i :: 0 <= i < n ==> P.IsFinal(trace[i].action) ==> Kept(c, trace[i].action).None?
    ensures Folded(c.codec, log + Records(c, trace[..n], |log|)) == Some(b.(active := B.Read(c.codec, run, trace[..n])))
  {
    if n == 0 {
      assert log + Records(c, trace[..0], |log|) == log;
      assert b.(active := Some(run)) == b;
    } else {
      B.ReadsMore(c.codec, run, trace, n - 1);
      FoldsRecords(c, log, b, run, trace, n - 1);
      FoldsRecord(c, log, b, run, trace, n - 1);
    }
  }

  lemma {:induction false} FoldsRecord(c: Config, log: seq<Stored>, b: Building, run: ActiveRun, trace: Trace, i: nat)
    requires run.runId == c.runId && run.model == c.model && run.selection.Some?
    requires i < |trace| && B.Read(c.codec, run, trace[..i]).Some? && B.Read(c.codec, run, trace[..i + 1]).Some?
    requires P.IsFinal(trace[i].action) ==> Kept(c, trace[i].action).None?
    requires Folded(c.codec, log + Records(c, trace[..i], |log|)) == Some(b.(active := B.Read(c.codec, run, trace[..i])))
    ensures Folded(c.codec, log + Records(c, trace[..i + 1], |log|)) == Some(b.(active := B.Read(c.codec, run, trace[..i + 1])))
  {
    var a := B.Read(c.codec, run, trace[..i]).value;
    B.ReadsMore(c.codec, run, trace, i);
    B.ReadKeepsOrigin(c.codec, run, trace[..i]);
    RecordsMore(c, trace, i, |log|);
    FoldsFeed(c, log, Records(c, trace[..i], |log|), b, a, trace[i].action, B.Read(c.codec, run, trace[..i + 1]).value);
  }

  lemma {:induction false} FoldsFeed(c: Config, log: seq<Stored>, records: seq<Stored>, b: Building, a: ActiveRun,
          act: Action, next: ActiveRun)
    requires a.runId == c.runId && a.model == c.model && a.selection.Some? && (P.IsFinal(act) ==> Kept(c, act).None?)
    requires Folded(c.codec, log + records) == Some(b.(active := Some(a))) && B.Feed(c.codec, a, act) == Some(next)
    ensures Folded(c.codec, log + More(c, records, act, |log|)) == Some(b.(active := Some(next)))
  {
    if Kept(c, act).None? {
      UnkeptFeedsNothing(c, a, act);
    } else {
      FoldsKept(c, log, records, b, a, act, next, Stored(|log| + |records| + 1, Some(c.runId), Kept(c, act).value));
    }
  }

  lemma {:induction false} FoldsKept(c: Config, log: seq<Stored>, before: seq<Stored>, b: Building, a: ActiveRun,
          act: Action, next: ActiveRun, event: Stored)
    requires a.runId == c.runId && a.model == c.model && a.selection.Some? && Kept(c, act).Some? && !P.IsFinal(act)
    requires event == Stored(event.sequence, Some(c.runId), Kept(c, act).value)
    requires Folded(c.codec, log + before) == Some(b.(active := Some(a))) && B.Feed(c.codec, a, act) == Some(next)
    ensures Folded(c.codec, log + (before + [event])) == Some(b.(active := Some(next)))
  {
    ObservesFeed(c, b, a, act, next, event.sequence);
    AppendsOne(c.codec, log, before, event, b.(active := Some(a)), b.(active := Some(next)));
  }

  lemma {:induction false} ObservesFeed(c: Config, b: Building, a: ActiveRun, act: Action, next: ActiveRun, sequence: nat)
    requires a.runId == c.runId && a.model == c.model && a.selection.Some? && Kept(c, act).Some? && !P.IsFinal(act)
    requires B.Feed(c.codec, a, act) == Some(next)
    ensures Observing(c.codec, b.(active := Some(a)), Stored(sequence, Some(c.runId), Kept(c, act).value)) ==
            Some(b.(active := Some(next)))
  {
    ObservesRecord(c, b.(active := Some(a)), a, act, sequence);
  }

  lemma {:induction false} AppendsOne(codec: Codec, log: seq<Stored>, records: seq<Stored>, event: Stored,
          b: Building, b': Building)
    requires Folded(codec, log + records) == Some(b) && Observing(codec, b, event) == Some(b')
    ensures Folded(codec, log + (records + [event])) == Some(b')
  {
    FoldedMore(codec, log + records, event);
    assert log + (records + [event]) == log + records + [event];
  }

  // ---- one whole run

  /** A completed run, all of whose records were stored, and which can be read back. */
  ghost predicate Lived(r: SessionRun) {
    && Truthful(r.c, r.trace, r.result) && r.result.outcome.Completed? && r.result.eventsComplete
    && B.Registered(r.c) && Fold(r.c, r.trace).value.bound.Some? && B.AllGranted(r.c, r.trace)
  }

  /** The last step of a run that reported its end is that report. */
  lemma {:induction false} LastIsFinal(c: Config, trace: Trace)
    requires Legal(c, trace) && Fold(c, trace).value.ended.Some?
    ensures trace != [] && P.IsFinal(trace[|trace| - 1].action) && trace[|trace| - 1].action.ok
    ensures forall i :: 0 <= i < |trace| - 1 ==> P.IsFinal(trace[i].action) ==> Kept(c, trace[i].action).None?
  {
    var n := |trace| - 1;
    var before := Fold(c, trace[..n]).value;
    if trace[n].action.Event? {
      P.EventStep(c, before, trace[n], Fold(c, trace).value);
    } else {
      P.ActionStep(c, before, trace[n], Fold(c, trace).value);
    }
    forall i | 0 <= i < n && P.IsFinal(trace[i].action) ensures Kept(c, trace[i].action).None? {
      P.FinalReportIsLast(c, trace, i, n);
    }
  }

  /** What the builder makes of a run. */
  ghost predicate Mirrors(closed: ClosedRun, r: SessionRun)
    requires Lived(r)
  {
    && closed.runId == r.c.runId && closed.prompt == r.c.prompt && closed.exchanges == r.Exchanges()
    && closed.selection == r.selection && closed.HasEvidence()
    && closed.binding.Some? && closed.binding.value.model == r.c.model
    && Fold(r.c, r.trace).value.bound == Some(closed.binding.value.identity)
  }

  function Begun(b: Building, r: SessionRun, at: nat): Building {
    b.(active := Some(B.Reader(r.c, at + 1, r.selection)), checkpoints := b.checkpoints + [(r.selection.through, r.selection.digest)])
  }

  lemma {:induction false} FoldsHeading(r: SessionRun, log: seq<Stored>, b: Building)
    requires Folded(r.c.codec, log) == Some(b) && b.active.None? && r.c.runId !in b.closedIds
    requires r.selection.through == |log| && r.selection.provider == r.c.provider && r.selection.model == r.c.model
    ensures Folded(r.c.codec, log + Heading(r, |log|)) == Some(Begun(b, r, |log|))
  {
    var head := Heading(r, |log|);
    FoldedMore(r.c.codec, log, head[0]);
    FoldedMore(r.c.codec, log + [head[0]], head[1]);
    assert log + head == log + [head[0]] + [head[1]];
  }

  lemma {:induction false} ClosesOnReport(c: Config, b: Building, run: ActiveRun, a: Action, next: ActiveRun,
          closed: ClosedRun, sequence: nat)
    requires b.active == Some(run) && run.runId == c.runId && run.selection.Some? && P.IsFinal(a) && a.ok
    requires B.Feed(c.codec, run, a) == Some(next) && next.Close(c.codec, false) == Some(closed)
    ensures Observing(c.codec, b, Stored(sequence, Some(c.runId), Kept(c, a).value)) == Some(ClosedWith(b, closed))
  {
  }

  lemma {:induction false} TakesResult(codec: Codec, b: Building, closed: seq<ClosedRun>, last: ClosedRun,
          result: RunResult, event: Stored)
    requires b.active.None? && b.closed == closed + [last] && last.runId == result.runId
    requires result.runId in b.closedIds && b.closedIds[result.runId] == |closed| && last.Result(result).Some?
    requires event.payload == SavedRunResult(result)
    ensures Observing(codec, b, event) == Some(b.(closed := closed + [last.Result(result).value]))
  {
    assert b.closed[|closed| := last.Result(result).value] == closed + [last.Result(result).value];
  }

  function Added(b: Building, r: SessionRun, closed: ClosedRun): Building {
    b.(closed := b.closed + [closed], closedIds := b.closedIds[r.c.runId := |b.closed|],
       checkpoints := b.checkpoints + [(r.selection.through, r.selection.digest)])
  }

  function ClosedWith(b: Building, closed: ClosedRun): Building {
    b.(active := None, closedIds := b.closedIds[closed.runId := |b.closed|], closed := b.closed + [closed])
  }

  /** The records of a run, up to and including its final report, close it. */
  lemma {:induction false} FoldsTrace(r: SessionRun, log: seq<Stored>, b: Building, run: ActiveRun, last: ActiveRun,
          closed: ClosedRun)
    requires Lived(r) && Folded(r.c.codec, log) == Some(b) && b.active == Some(run)
    requires run.runId == r.c.runId && run.model == r.c.model && run.selection.Some?
    requires B.Read(r.c.codec, run, r.trace) == Some(last) && last.Close(r.c.codec, false) == Some(closed)
    ensures Folded(r.c.codec, log + Records(r.c, r.trace, |log|)) == Some(ClosedWith(b, closed))
  {
    var n := |r.trace| - 1;
    LastIsFinal(r.c, r.trace);
    assert r.trace[..n + 1] == r.trace;
    B.ReadsMore(r.c.codec, run, r.trace, n);
    FoldsRecords(r.c, log, b, run, r.trace, n);
    B.ReadKeepsOrigin(r.c.codec, run, r.trace[..n]);
    RecordsMore(r.c, r.trace, n, |log|);
    FoldsReport(r.c, log, Records(r.c, r.trace[..n], |log|), b, B.Read(r.c.codec, run, r.trace[..n]).value, r.trace[n].action, last, closed);
  }

  lemma {:induction false} FoldsReport(c: Config, log: seq<Stored>, records: seq<Stored>, b: Building, a: ActiveRun,
          act: Action, next: ActiveRun,
                                       closed: ClosedRun)
    requires P.IsFinal(act) && act.ok && a.runId == c.runId && a.selection.Some?
    requires Folded(c.codec, log + records) == Some(b.(active := Some(a)))
    requires B.Feed(c.codec, a, act) == Some(next) && next.Close(c.codec, false) == Some(closed)
    ensures Folded(c.codec, log + More(c, records, act, |log|)) == Some(ClosedWith(b, closed))
  {
    var event := Stored(|log| + |records| + 1, Some(c.runId), Kept(c, act).value);
    ClosesOnReport(c, b.(active := Some(a)), a, act, next, closed, event.sequence);
    AppendsOne(c.codec, log, records, event, b.(active := Some(a)), ClosedWith(b, closed));
  }

  /** A closed run takes its own result. */
  lemma {:induction false} FoldsResult(r: SessionRun, log: seq<Stored>, b: Building, last: ClosedRun, event: Stored)
    requires Folded(r.c.codec, log) == Some(ClosedWith(b, last)) && last.runId == r.result.runId == r.c.runId
    requires last.Result(r.result).Some? && event.payload == SavedRunResult(r.result)
    ensures Folded(r.c.codec, log + [event]) == Some(ClosedWith(b, last).(closed := b.closed + [last.Result(r.result).value]))
  {
    TakesResult(r.c.codec, ClosedWith(b, last), b.closed, last, r.result, event);
    FoldedMore(r.c.codec, log, event);
  }

  /** The entries of a run are accepted, and add exactly that run. */
  lemma {:induction false} FoldsRun(r: SessionRun, log: seq<Stored>, b: Building) returns (closed: ClosedRun)
    requires Lived(r) && Folded(r.c.codec, log) == Some(b) && b.active.None? && r.c.runId !in b.closedIds
    requires r.selection.through == |log| && r.selection.provider == r.c.provider && r.selection.model == r.c.model
    ensures Folded(r.c.codec, log + Entries(r, |log|)) == Some(Added(b, r, closed)) && Mirrors(closed, r)
  {
    var run, last := B.CompletedRunReadsBack(r.c, r.trace, r.result, |log| + 1, r.selection);
    FoldsEntries(r, log, b, run, last);
    closed := last.Result(r.result).value;
  }

  lemma {:induction false} FoldsEntries(r: SessionRun, log: seq<Stored>, b: Building, run: ActiveRun, last: ClosedRun)
    requires Lived(r) && Folded(r.c.codec, log) == Some(b) && b.active.None? && r.c.runId !in b.closedIds
    requires r.selection.through == |log| && r.selection.provider == r.c.provider && r.selection.model == r.c.model
    requires B.Read(r.c.codec, B.Reader(r.c, |log| + 1, r.selection), r.trace) == Some(run)
    requires run.Close(r.c.codec, false) == Some(last) && last.runId == r.c.runId && last.Result(r.result).Some?
    ensures Folded(r.c.codec, log + Entries(r, |log|)) == Some(Added(b, r, last.Result(r.result).value))
  {
    var headed, records := log + Heading(r, |log|), Records(r.c, r.trace, |log| + 2);
    FoldsHeading(r, log, b);
    FoldsTrace(r, headed, Begun(b, r, |log|), B.Reader(r.c, |log| + 1, r.selection), run, last);
    var event := Stored(|log| + |records| + 3, Some(r.c.runId), SavedRunResult(r.result));
    FoldsResult(r, headed + records, Begun(b, r, |log|), last, event);
    EntriesAre(r, log);
  }

  lemma {:induction false} EntriesAre(r: SessionRun, log: seq<Stored>)
    ensures var records := Records(r.c, r.trace, |log| + 2);
            log + Entries(r, |log|) ==
            log + Heading(r, |log|) + records + [Stored(|log| + |records| + 3, Some(r.c.runId), SavedRunResult(r.result))]
  {
  }

  // ---- the session

  /** What all runs of the session share, and the identity that each of them was bound to. */
  datatype Setting = Setting(codec: Codec, hash: Hash, provider: Text, model: Text, identity: ReplayIdentity)

  function Expected(g: Setting, k: nat): Option<ReplayIdentity> { if k == 0 then None else Some(g.identity) }

  ghost predicate Belongs(g: Setting, r: SessionRun) {
    && Lived(r) && r.c.codec == g.codec && r.c.provider == g.provider && r.c.model == g.model
    && !g.codec.blank(r.c.runId) && !g.codec.blank(r.c.prompt) && Fold(r.c, r.trace).value.bound == Some(g.identity)
  }

  /** Run `k` was given the history before it: its length, its digest, and the identity to continue under. */
  ghost predicate Continues(g: Setting, runs: seq<SessionRun>, rows: seq<RawRow>, k: nat)
    requires k < |runs| && Numbered(rows)
  {
    var r, at := runs[k], |Log(runs[..k])|;
    && Belongs(g, r) && at <= |rows|
    && r.selection == Selection(at, g.hash(Canonical(rows)[..at]), g.provider, g.model, Expected(g, k))
  }

  ghost predicate Session(g: Setting, runs: seq<SessionRun>, rows: seq<RawRow>) {
    && Numbered(rows)
    && (forall k :: 0 <= k < |runs| ==> Continues(g, runs, rows, k))
    && (forall i, k :: 0 <= i < k < |runs| ==> runs[i].c.runId != runs[k].c.runId)
  }

  lemma {:induction false} SessionBefore(g: Setting, runs: seq<SessionRun>, rows: seq<RawRow>, n: nat)
    requires Session(g, runs, rows) && n <= |runs|
    ensures Session(g, runs[..n], rows)
  {
    forall k | 0 <= k < n ensures Continues(g, runs[..n], rows, k) {
      assert runs[..n][..k] == runs[..k];
      assert Continues(g, runs, rows, k);
    }
  }

  function Checkpoints(runs: seq<SessionRun>): seq<(nat, Text)> {
    seq(|runs|, k requires 0 <= k < |runs| => (runs[k].selection.through, runs[k].selection.digest))
  }

  /** The builder holds the runs of the session, in order, and nothing else. */
  ghost predicate Holds(b: Building, runs: seq<SessionRun>) {
    b.active.None? && b.checkpoints == Checkpoints(runs) && AllMirror(b.closed, runs)
  }

  ghost predicate AllMirror(closed: seq<ClosedRun>, runs: seq<SessionRun>) {
    |closed| == |runs| && forall k :: 0 <= k < |runs| ==> Lived(runs[k]) && Mirrors(closed[k], runs[k])
  }

  lemma {:induction false} MirrorBefore(closed: seq<ClosedRun>, runs: seq<SessionRun>, n: nat)
    requires AllMirror(closed, runs) && n <= |runs|
    ensures AllMirror(closed[..n], runs[..n])
  {
  }

  lemma {:induction false} FoldsSession(g: Setting, runs: seq<SessionRun>, rows: seq<RawRow>) returns (b: Building)
    requires Session(g, runs, rows)
    ensures Folded(g.codec, Log(runs)) == Some(b) && Holds(b, runs)
  {
    if runs == [] {
      assert [Stored(1, None, Created)][..0] == [];
      b := Fresh;
    } else {
      var n := |runs| - 1;
      SessionBefore(g, runs, rows, n);
      var before := FoldsSession(g, runs[..n], rows);
      assert Continues(g, runs, rows, n);
      NotYetKnown(g, runs, rows, before);
      var closed := FoldsRun(runs[n], Log(runs[..n]), before);
      b := Added(before, runs[n], closed);
      HoldsMore(before, runs, closed);
    }
  }

  lemma {:induction false} NotYetKnown(g: Setting, runs: seq<SessionRun>, rows: seq<RawRow>, b: Building)
    requires Session(g, runs, rows) && runs != [] && Holds(b, runs[..|runs| - 1])
    requires Folded(g.codec, Log(runs[..|runs| - 1])) == Some(b)
    ensures runs[|runs| - 1].c.runId !in b.closedIds
  {
    var n := |runs| - 1;
    HistoryIsIndexed(g.codec, Log(runs[..n]));
    forall k | 0 <= k < n ensures b.closed[k].runId != runs[n].c.runId {
      assert runs[..n][k] == runs[k] && Mirrors(b.closed[k], runs[..n][k]);
    }
  }

  lemma {:induction false} HoldsMore(b: Building, runs: seq<SessionRun>, closed: ClosedRun)
    requires runs != [] && Holds(b, runs[..|runs| - 1]) && Lived(runs[|runs| - 1]) && Mirrors(closed, runs[|runs| - 1])
    ensures Holds(Added(b, runs[|runs| - 1], closed), runs)
  {
    var n := |runs| - 1;
    forall k | 0 <= k < |runs| ensures Lived(runs[k]) && Mirrors((b.closed + [closed])[k], runs[k]) {
      if k < n { assert runs[..n][k] == runs[k]; }
    }
  }

  // ---- compiling the session

  /** The exchanges of the session, run by run. */
  function Conversation(runs: seq<SessionRun>): seq<ReplayRun> {
    seq(|runs|, k requires 0 <= k < |runs| => runs[k].Replayed())
  }

  function Exchanged(runs: seq<SessionRun>): nat {
    if runs == [] then 0 else Exchanged(runs[..|runs| - 1]) + |runs[|runs| - 1].Exchanges()|
  }

  lemma {:induction false} RunIsValid(r: SessionRun)
    requires Lived(r) && !r.c.codec.blank(r.c.runId) && !r.c.codec.blank(r.c.prompt)
    ensures ValidRun(r.c.codec, r.Replayed()) && r.Exchanges() != []
  {
    B.CompletedRunIsReplayable(r.c, r.trace, r.result);
  }

  lemma {:induction false} Includes(g: Setting, c: Compiled, closed: ClosedRun, run: ReplayRun)
    requires closed.selection.expected == c.identity && closed.HasEvidence() && closed.exchanges != []
    requires closed.binding.Some? && closed.binding.value.identity == g.identity && closed.binding.value.model == g.model
    requires closed.selection.provider == g.provider && closed.selection.model == g.model && g.identity.provider == g.provider
    requires c.identity.Some? ==> c.identity.value == g.identity
    requires run == ReplayRun(closed.runId, closed.prompt, closed.exchanges) && ValidRun(g.codec, run)
    ensures Including(g.codec, c, closed, g.provider, g.model) ==
            Some(Compiled(Some(g.identity), c.runs + [run], c.excluded, c.exchanges + |run.exchanges|))
  {
  }

  lemma {:induction false} IncludesRun(g: Setting, r: SessionRun, c: Compiled, closed: ClosedRun)
    requires Belongs(g, r) && Mirrors(closed, r) && (c.identity.Some? ==> c.identity.value == g.identity)
    requires r.selection.expected == c.identity && r.selection.provider == g.provider && r.selection.model == g.model
    ensures Including(g.codec, c, closed, g.provider, g.model) ==
            Some(Compiled(Some(g.identity), c.runs + [r.Replayed()], c.excluded, c.exchanges + |r.Exchanges()|))
  {
    RunIsValid(r);
    BoundToOwnProvider(r);
    Includes(g, c, closed, r.Replayed());
  }

  /** A bound run that can be read back was bound to its own provider. */
  lemma {:induction false} BoundToOwnProvider(r: SessionRun)
    requires Lived(r)
    ensures Fold(r.c, r.trace).value.bound.value.provider == r.c.provider
  {
    var scans := P.ScansOf(r.c, r.trace);
    BoundBy(r.c, r.trace, scans, |r.trace|);
  }

  lemma {:induction false} BoundBy(c: Config, trace: Trace, scans: seq<Scan>, n: nat)
    requires P.Passes(c, trace, scans) && n <= |trace| && B.AllGranted(c, trace) && scans[n].bound.Some?
    ensures scans[n].bound.value.provider == c.provider
  {
    var i := n - 1;
    P.StepAt(c, trace, scans, i);
    assert B.Granted(c, trace[..i], trace[i].action);
    if trace[i].action.Event? {
      P.EventStep(c, scans[i], trace[i], scans[n]);
      BoundBy(c, trace, scans, i);
    } else {
      P.ActionStep(c, scans[i], trace[i], scans[n]);
      if !trace[i].action.Bound? { BoundBy(c, trace, scans, i); }
    }
  }

  lemma {:induction false} ConversationMore(runs: seq<SessionRun>)
    requires runs != []
    ensures Conversation(runs) == Conversation(runs[..|runs| - 1]) + [runs[|runs| - 1].Replayed()]
  {
  }

  lemma {:induction false} CompilesSession(g: Setting, runs: seq<SessionRun>, rows: seq<RawRow>, closed: seq<ClosedRun>)
    requires Session(g, runs, rows) && AllMirror(closed, runs)
    ensures Compile(g.codec, closed, g.provider, g.model) == Some(Sum(g, runs))
  {
    if runs == [] {
      assert Conversation(runs) == [];
    } else {
      var n := |runs| - 1;
      SessionBefore(g, runs, rows, n);
      MirrorBefore(closed, runs, n);
      CompilesSession(g, runs[..n], rows, closed[..n]);
      CompilesOne(g, runs, rows, closed, n);
    }
  }

  function Sum(g: Setting, runs: seq<SessionRun>): Compiled {
    Compiled(Expected(g, |runs|), Conversation(runs), [], Exchanged(runs))
  }

  lemma {:induction false} CompilesOne(g: Setting, runs: seq<SessionRun>, rows: seq<RawRow>, closed: seq<ClosedRun>, n: nat)
    requires Session(g, runs, rows) && |runs| == n + 1 == |closed| && Lived(runs[n]) && Mirrors(closed[n], runs[n])
    requires Compile(g.codec, closed[..n], g.provider, g.model) == Some(Sum(g, runs[..n]))
    ensures Compile(g.codec, closed, g.provider, g.model) == Some(Sum(g, runs))
  {
    SumMore(g, runs, n);
    IncludesNext(g, runs, rows, closed[n], n);
    CompileMore(g, closed, n, Sum(g, runs[..n]), Sum(g, runs));
  }

  lemma {:induction false} IncludesNext(g: Setting, runs: seq<SessionRun>, rows: seq<RawRow>, closed: ClosedRun, n: nat)
    requires Session(g, runs, rows) && |runs| == n + 1 && Lived(runs[n]) && Mirrors(closed, runs[n])
    ensures var c := Sum(g, runs[..n]);
            Including(g.codec, c, closed, g.provider, g.model) ==
            Some(Compiled(Some(g.identity), c.runs + [runs[n].Replayed()], [], c.exchanges + |runs[n].Exchanges()|))
  {
    assert Continues(g, runs, rows, n);
    IncludesRun(g, runs[n], Sum(g, runs[..n]), closed);
  }

  lemma {:induction false} SumMore(g: Setting, runs: seq<SessionRun>, n: nat)
    requires |runs| == n + 1
    ensures Sum(g, runs) ==
            Compiled(Some(g.identity), Sum(g, runs[..n]).runs + [runs[n].Replayed()], [], Sum(g, runs[..n]).exchanges + |runs[n].Exchanges()|)
  {
    ConversationMore(runs);
  }

  lemma {:induction false} CompileMore(g: Setting, closed: seq<ClosedRun>, n: nat, before: Compiled, after: Compiled)
    requires |closed| == n + 1 && Compile(g.codec, closed[..n], g.provider, g.model) == Some(before)
    requires Including(g.codec, before, closed[n], g.provider, g.model) == Some(after)
    ensures Compile(g.codec, closed, g.provider, g.model) == Some(after)
  {
  }

  // ---- reading it page by page

  /** From `at` on, the pages hold exactly the rest of the log, and each but the last says where the next one continues. */
  predicate Paged(pages: seq<Page>, log: seq<Stored>, at: nat)
    decreases |pages|
  {
    && pages != []
    && var end := at + |pages[0].records|;
    && end <= |log| && pages[0].records == log[at..end]
    && if pages[0].hasMore then pages[0].nextAfter == end && Paged(pages[1..], log, end) else end == |log|
  }

  ghost predicate Stage(codec: Codec, log: seq<Stored>, stages: seq<Building>, i: nat)
    requires i < |log| && |stages| == |log| + 1
  {
    Observing(codec, stages[i], log[i]) == Some(stages[i + 1])
  }

  /** The builder before, between and after the events of an accepted log. */
  ghost predicate Passes(codec: Codec, log: seq<Stored>, stages: seq<Building>) {
    && |stages| == |log| + 1 && stages[0] == Fresh
    && forall i :: 0 <= i < |log| ==> Stage(codec, log, stages, i)
  }

  lemma {:induction false} StagesOf(codec: Codec, log: seq<Stored>) returns (stages: seq<Building>)
    requires Folded(codec, log).Some?
    ensures Passes(codec, log, stages) && Folded(codec, log) == Some(stages[|log|])
  {
    if log == [] {
      stages := [Fresh];
    } else {
      var n := |log| - 1;
      var before := StagesOf(codec, log[..n]);
      stages := before + [Folded(codec, log).value];
      forall i | 0 <= i < |log| ensures Stage(codec, log, stages, i) {
        if i < n { assert Stage(codec, log[..n], before, i); }
      }
    }
  }

  lemma {:induction false} ReadsRecords(codec: Codec, log: seq<Stored>, stages: seq<Building>, at: nat, end: nat)
    requires Passes(codec, log, stages) && NumberedFrom(log, 0) && at <= end <= |log|
    ensures ReadRecords(codec, stages[at], at, log[at..end], |log|) == Some(stages[end])
    decreases end - at
  {
    if at < end {
      ReadsRecord(codec, log, stages, at, end);
      ReadsRecords(codec, log, stages, at + 1, end);
    }
  }

  lemma {:induction false} ReadsRecord(codec: Codec, log: seq<Stored>, stages: seq<Building>, at: nat, end: nat)
    requires Passes(codec, log, stages) && NumberedFrom(log, 0) && at < end <= |log|
    ensures ReadRecords(codec, stages[at], at, log[at..end], |log|) == ReadRecords(codec, stages[at + 1], at + 1, log[at + 1..end], |log|)
  {
    assert Stage(codec, log, stages, at);
    assert log[at..end][0] == log[at] && log[at..end][1..] == log[at + 1..end];
    RecordGoesOn(codec, stages[at], at, log[at..end], |log|, stages[at + 1]);
  }

  lemma {:induction false} RecordGoesOn(codec: Codec, b: Building, at: nat, records: seq<Stored>, through: nat, next: Building)
    requires records != [] && records[0].sequence == at + 1 <= through && Observing(codec, b, records[0]) == Some(next)
    ensures ReadRecords(codec, b, at, records, through) == ReadRecords(codec, next, at + 1, records[1..], through)
  {
  }

  lemma {:induction false} FirstPage(pages: seq<Page>, log: seq<Stored>, at: nat)
    requires Paged(pages, log, at)
    ensures pages != []
    ensures var end := at + |pages[0].records|;
            && end <= |log| && pages[0].records == log[at..end]
            && (if pages[0].hasMore then pages[0].nextAfter == end && Paged(pages[1..], log, end) else end == |log|)
  {
  }

  lemma {:induction false} ReadsPage(codec: Codec, log: seq<Stored>, stages: seq<Building>, at: nat, end: nat, pages: seq<Page>)
    requires Passes(codec, log, stages) && NumberedFrom(log, 0) && at <= end <= |log|
    requires pages != [] && pages[0].records == log[at..end] && (pages[0].hasMore ==> pages[0].nextAfter == end)
    ensures ReadPages(codec, stages[at], at, pages, |log|) ==
            if pages[0].hasMore then ReadPages(codec, stages[end], end, pages[1..], |log|) else Some((stages[end], end))
  {
    ReadsRecords(codec, log, stages, at, end);
  }

  lemma {:induction false} ReadsAllPages(codec: Codec, log: seq<Stored>, stages: seq<Building>, at: nat, pages: seq<Page>)
    requires Passes(codec, log, stages) && NumberedFrom(log, 0) && at <= |log| && Paged(pages, log, at)
    ensures ReadPages(codec, stages[at], at, pages, |log|) == Some((stages[|log|], |log|))
    decreases |pages|
  {
    FirstPage(pages, log, at);
    var end := at + |pages[0].records|;
    ReadsPage(codec, log, stages, at, end, pages);
    if pages[0].hasMore { ReadsAllPages(codec, log, stages, end, pages[1..]); }
  }

  // ---- the round trip

  lemma {:induction false} SessionIsAttested(g: Setting, runs: seq<SessionRun>, rows: seq<RawRow>, head: int)
    requires Session(g, runs, rows) && |rows| == |Log(runs)| <= I64_MAX && head >= |rows|
    requires forall texts :: IsDigest(g.hash(texts))
    ensures Attested(g.hash, head, rows, |rows|, Checkpoints(runs))
  {
    forall k | 0 <= k < |runs| ensures Attests(g.hash, rows, Checkpoints(runs)[k]) {
      assert Continues(g, runs, rows, k);
    }
  }

  function Given(g: Setting, rows: seq<RawRow>, k: nat): Selection
    requires Numbered(rows)
  {
    Selection(|rows|, g.hash(Canonical(rows)), g.provider, g.model, Expected(g, k))
  }

  /** What any number of completed runs wrote, paged in any way, is accepted and prepared as exactly their exchanges in
      order, none excluded, with the selection that names the whole log. */
  lemma {:induction false} SessionRoundTrip(g: Setting, runs: seq<SessionRun>, store: Store)
    requires Session(g, runs, store.rows) && Paged(store.pages, Log(runs), 0)
    requires store.through == |Log(runs)| == |store.rows| <= I64_MAX && store.head >= store.through
    requires ValidConversation(g.codec, ConversationReplay(g.provider, g.model, None, []))
    requires forall texts :: IsDigest(g.hash(texts))
    ensures Preparing(g.codec, g.hash, g.provider, g.model, store) ==
            Some(Prepared(Given(g, store.rows, |runs|),
                          ConversationReplay(g.provider, g.model, Expected(g, |runs|), Conversation(runs)), Exchanged(runs), []))
  {
    var b := FoldsSession(g, runs, store.rows);
    LogIsNumbered(runs);
    var stages := StagesOf(g.codec, Log(runs));
    ReadsAllPages(g.codec, Log(runs), stages, 0, store.pages);
    SessionIsAttested(g, runs, store.rows, store.head);
    CompilesSession(g, runs, store.rows, b.closed);
  }

  /** And the selection it hands out is the one that the next run of the session must be given. */
  lemma {:induction false} NextRunContinues(g: Setting, runs: seq<SessionRun>, store: Store, r: SessionRun, rows: seq<RawRow>)
    requires Session(g, runs, store.rows) && Paged(store.pages, Log(runs), 0)
    requires store.through == |Log(runs)| == |store.rows| <= I64_MAX && store.head >= store.through
    requires ValidConversation(g.codec, ConversationReplay(g.provider, g.model, None, []))
    requires forall texts :: IsDigest(g.hash(texts))
    requires Belongs(g, r) && forall k :: 0 <= k < |runs| ==> runs[k].c.runId != r.c.runId
    requires Preparing(g.codec, g.hash, g.provider, g.model, store).Some? ==>
               r.selection == Preparing(g.codec, g.hash, g.provider, g.model, store).value.selection
    requires Numbered(rows) && store.rows <= rows
    ensures Session(g, runs + [r], rows)
  {
    SessionRoundTrip(g, runs, store);
    var more := runs + [r];
    forall k | 0 <= k < |more| ensures Continues(g, more, rows, k) {
      assert more[..k] == if k < |runs| then runs[..k] else runs;
      if k < |runs| {
        assert Continues(g, runs, store.rows, k);
        SamePrefix(store.rows, rows, |Log(runs[..k])|);
      } else {
        SamePrefix(store.rows, rows, |store.rows|);
        assert Canonical(store.rows)[..|store.rows|] == Canonical(store.rows);
      }
    }
  }

  lemma {:induction false} SamePrefix(rows: seq<RawRow>, more: seq<RawRow>, n: nat)
    requires Numbered(rows) && Numbered(more) && rows <= more && n <= |rows|
    ensures Canonical(more)[..n] == Canonical(rows)[..n]
  {
    assert forall i :: 0 <= i < n ==> Canonical(more)[i] == Canonical(rows)[i];
  }
}
