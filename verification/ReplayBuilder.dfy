/** Compiling a session's stored events into a conversation that a provider can be asked to continue. */
module ReplayBuilder {
  import opened Wire
  import opened RunGrammar
  import opened ReplayValues
  import opened Reconstruct
  import opened HistoryPrefix

  datatype Payload =
    | Created | Renamed
    | AcceptedRun(run: Text, prompt: Text, provider: Text, model: Text)
    | Selected(selection: Selection)
    | BoundProvider(binding: Binding)
    | Observed(envelope: RunEventEnvelope)
    | SavedTool(request: Option<Text>, callId: Text, output: Text, isError: bool)
    | Interrupted
    | SavedRunResult(result: RunResult)

  datatype Stored = Stored(sequence: nat, runId: Option<Text>, payload: Payload)

  datatype Building = Building(
    active: Option<ActiveRun>, closed: seq<ClosedRun>, closedIds: map<Text, nat>, checkpoints: seq<(nat, Text)>)

  const Fresh := Building(None, [], map[], [])

  // ---- one event, as a function

  function Closing(codec: Codec, b: Building, interrupted: bool): Option<Building> {
    if b.active.None? then None
    else
      match b.active.value.Close(codec, interrupted)
      case None => None
      case Some(c) => Some(b.(active := None, closedIds := b.closedIds[c.runId := |b.closed|], closed := b.closed + [c]))
  }

  /** A result may come from the run that is still active, or from one closed long ago. */
  function Resulting(codec: Codec, b: Building, result: RunResult): Option<Building> {
    var mine := b.active.Some? && b.active.value.runId == result.runId;
    if mine && result.eventsComplete then None
    else
      var next := if mine then Closing(codec, b, false) else Some(b);
      if next.None? || result.runId !in next.value.closedIds || next.value.closedIds[result.runId] >= |next.value.closed| then None
      else
        var index := next.value.closedIds[result.runId];
        match next.value.closed[index].Result(result)
        case None => None
        case Some(c) => Some(next.value.(closed := next.value.closed[index := c]))
  }

  function Within(codec: Codec, b: Building, event: Stored): Option<Building>
    requires b.active.Some?
  {
    var active := b.active.value;
    match event.payload
    case Selected(s) =>
      (match active.Select(event.sequence, s)
       case None => None
       case Some(a) => Some(b.(active := Some(a), checkpoints := b.checkpoints + [(s.through, s.digest)])))
    case BoundProvider(binding) =>
      (match active.Bind(binding) case None => None case Some(a) => Some(b.(active := Some(a))))
    case Observed(envelope) =>
      (match active.Runtime(codec, envelope)
       case None => None
       case Some(a) =>
         if envelope.event.RunFinished? then Closing(codec, b.(active := Some(a)), false) else Some(b.(active := Some(a))))
    case SavedTool(request, callId, output, isError) =>
      (match active.RecordedResult(codec, request, callId, output, isError)
       case None => None
       case Some(a) => Some(b.(active := Some(a))))
    case Interrupted => Closing(codec, b, true)
    case _ => None
  }

  function Observing(codec: Codec, b: Building, event: Stored): Option<Building> {
    if b.active.Some? && event.sequence != b.active.value.accepted + 1 && b.active.value.selection.None? then None
    else
      match event.payload
      case Created => Some(b)
      case Renamed => Some(b)
      case AcceptedRun(run, prompt, provider, model) =>
        if b.active.Some? || run in b.closedIds then None
        else Some(b.(active := Some(ActiveRun.Accepted(event.sequence, run, prompt, provider, model))))
      case SavedRunResult(result) => Resulting(codec, b, result)
      case _ =>
        if b.active.None? || event.runId != Some(b.active.value.runId) then None else Within(codec, b, event)
  }

  // ---- the index invariant

  /** `closedIds` is the inverse of `closed`, and the active run is in neither. */
  ghost predicate Indexed(b: Building) {
    && (forall i :: 0 <= i < |b.closed| ==> b.closed[i].runId in b.closedIds && b.closedIds[b.closed[i].runId] == i)
    && (forall id :: id in b.closedIds ==> b.closedIds[id] < |b.closed| && b.closed[b.closedIds[id]].runId == id)
    && (b.active.Some? ==> b.active.value.runId !in b.closedIds)
  }

  function IdsOfRuns(closed: seq<ClosedRun>): seq<Text> {
    seq(|closed|, i requires 0 <= i < |closed| => closed[i].runId)
  }

  /** The runs accepted so far, first to last. */
  function Known(b: Building): seq<Text> {
    IdsOfRuns(b.closed) + if b.active.Some? then [b.active.value.runId] else []
  }

  function AcceptedIds(events: seq<Stored>): seq<Text> {
    if events == [] then []
    else
      var last := events[|events| - 1].payload;
      AcceptedIds(events[..|events| - 1]) + if last.AcceptedRun? then [last.run] else []
  }

  lemma ClosingIsIndexed(codec: Codec, b: Building, interrupted: bool)
    requires Indexed(b)
    ensures Closing(codec, b, interrupted).Some? ==>
              Indexed(Closing(codec, b, interrupted).value) && Known(Closing(codec, b, interrupted).value) == Known(b)
  {
  }

  lemma ReplacingIsIndexed(b: Building, index: nat, c: ClosedRun)
    requires Indexed(b) && index < |b.closed| && c.runId == b.closed[index].runId
    ensures var next := b.(closed := b.closed[index := c]); Indexed(next) && Known(next) == Known(b)
  {
  }

  lemma ResultingIsIndexed(codec: Codec, b: Building, result: RunResult)
    requires Indexed(b)
    ensures Resulting(codec, b, result).Some? ==>
              Indexed(Resulting(codec, b, result).value) && Known(Resulting(codec, b, result).value) == Known(b)
  {
    if Resulting(codec, b, result).Some? {
      var mine := b.active.Some? && b.active.value.runId == result.runId;
      ClosingIsIndexed(codec, b, false);
      var next := if mine then Closing(codec, b, false).value else b;
      var index := next.closedIds[result.runId];
      ReplacingIsIndexed(next, index, next.closed[index].(resultSeen := true));
    }
  }

  lemma WithinIsIndexed(codec: Codec, b: Building, event: Stored)
    requires Indexed(b) && b.active.Some?
    ensures Within(codec, b, event).Some? ==>
              Indexed(Within(codec, b, event).value) && Known(Within(codec, b, event).value) == Known(b)
  {
    var active := b.active.value;
    match event.payload
    case Observed(envelope) =>
      RuntimeKeeps(codec, active, envelope);
      if active.Runtime(codec, envelope).Some? && envelope.event.RunFinished? {
        ClosingIsIndexed(codec, b.(active := Some(active.Runtime(codec, envelope).value)), false);
      }
    case Interrupted => ClosingIsIndexed(codec, b, true);
    case _ =>
  }

  lemma ObservingIsIndexed(codec: Codec, b: Building, event: Stored)
    requires Indexed(b)
    ensures Observing(codec, b, event).Some? ==>
              && Indexed(Observing(codec, b, event).value)
              && Known(Observing(codec, b, event).value) ==
                 Known(b) + if event.payload.AcceptedRun? then [event.payload.run] else []
  {
    if b.active.Some? { WithinIsIndexed(codec, b, event); }
    if event.payload.SavedRunResult? { ResultingIsIndexed(codec, b, event.payload.result); }
  }

  function Folded(codec: Codec, events: seq<Stored>): Option<Building> {
    if events == [] then Some(Fresh)
    else
      match Folded(codec, events[..|events| - 1])
      case None => None
      case Some(b) => Observing(codec, b, events[|events| - 1])
  }

  /** After any accepted history the index is exact, and runs are known in the order they were accepted. */
  lemma {:induction false} HistoryIsIndexed(codec: Codec, events: seq<Stored>)
    ensures Folded(codec, events).Some? ==>
              Indexed(Folded(codec, events).value) && Known(Folded(codec, events).value) == AcceptedIds(events)
  {
    if events != [] {
      var most := events[..|events| - 1];
      HistoryIsIndexed(codec, most);
      if Folded(codec, most).Some? { ObservingIsIndexed(codec, Folded(codec, most).value, events[|events| - 1]); }
    }
  }

  // ---- every selection is checked

  predicate Noted(b: Building, s: Selection) { (s.through, s.digest) in b.checkpoints }

  /** Each selection of a run, closed or active, is among the checkpoints. */
  ghost predicate AllNoted(b: Building) {
    && (forall i :: 0 <= i < |b.closed| ==> Noted(b, b.closed[i].selection))
    && (b.active.Some? && b.active.value.selection.Some? ==> Noted(b, b.active.value.selection.value))
  }

  lemma ClosingIsNoted(codec: Codec, b: Building, interrupted: bool)
    requires AllNoted(b)
    ensures Closing(codec, b, interrupted).Some? ==> AllNoted(Closing(codec, b, interrupted).value)
  {
  }

  lemma WithinIsNoted(codec: Codec, b: Building, event: Stored)
    requires AllNoted(b) && b.active.Some?
    ensures Within(codec, b, event).Some? ==> AllNoted(Within(codec, b, event).value)
  {
    var active := b.active.value;
    match event.payload
    case Selected(s) =>
    case BoundProvider(_) =>
    case Observed(envelope) =>
      RuntimeKeeps(codec, active, envelope);
      if active.Runtime(codec, envelope).Some? && envelope.event.RunFinished? {
        ClosingIsNoted(codec, b.(active := Some(active.Runtime(codec, envelope).value)), false);
      }
    case SavedTool(request, callId, output, isError) =>
    case Interrupted => ClosingIsNoted(codec, b, true);
    case _ =>
  }

  lemma ObservingIsNoted(codec: Codec, b: Building, event: Stored)
    requires AllNoted(b)
    ensures Observing(codec, b, event).Some? ==> AllNoted(Observing(codec, b, event).value)
  {
    if b.active.Some? { WithinIsNoted(codec, b, event); }
    if event.payload.SavedRunResult? { ClosingIsNoted(codec, b, false); }
  }

  lemma {:induction false} HistoryIsNoted(codec: Codec, events: seq<Stored>)
    ensures Folded(codec, events).Some? ==> AllNoted(Folded(codec, events).value)
  {
    if events != [] {
      var most := events[..|events| - 1];
      HistoryIsNoted(codec, most);
      if Folded(codec, most).Some? { ObservingIsNoted(codec, Folded(codec, most).value, events[|events| - 1]); }
    }
  }

  // ---- folding the closed runs into one conversation

  datatype Compiled = Compiled(identity: Option<ReplayIdentity>, runs: seq<ReplayRun>, excluded: seq<Text>, exchanges: nat)

  function Including(codec: Codec, c: Compiled, r: ClosedRun, provider: Text, model: Text): Option<Compiled> {
    if r.selection.expected != c.identity || !r.HasEvidence() then None
    else if r.exchanges == [] then Some(c.(excluded := c.excluded + [r.runId]))
    else if r.binding.None? then None
    else
      var b := r.binding.value;
      var run := ReplayRun(r.runId, r.prompt, r.exchanges);
      if r.selection.provider != provider || r.selection.model != model || b.identity.provider != provider || b.model != model
         || (c.identity.Some? && c.identity.value.format != b.identity.format) then None
      else if c.identity.Some? && c.identity.value != b.identity then None
      else if !ValidRun(codec, run) then None
      else Some(c.(identity := Some(b.identity), runs := c.runs + [run], exchanges := c.exchanges + |r.exchanges|))
  }

  function Compile(codec: Codec, closed: seq<ClosedRun>, provider: Text, model: Text): Option<Compiled> {
    if closed == [] then Some(Compiled(None, [], [], 0))
    else
      match Compile(codec, closed[..|closed| - 1], provider, model)
      case None => None
      case Some(c) => Including(codec, c, closed[|closed| - 1], provider, model)
  }

  /** The replayed form of the runs that exchanged anything. */
  function Replayed(closed: seq<ClosedRun>): seq<ReplayRun> {
    if closed == [] then []
    else
      var last := closed[|closed| - 1];
      Replayed(closed[..|closed| - 1]) + if last.exchanges == [] then [] else [ReplayRun(last.runId, last.prompt, last.exchanges)]
  }

  /** Every included run was bound to the one identity that results. */
  ghost predicate Shares(closed: seq<ClosedRun>, c: Compiled, provider: Text) {
    && (c.identity.Some? ==> c.identity.value.provider == provider)
    && (c.runs != [] ==> c.identity.Some?)
    && forall i :: 0 <= i < |closed| && closed[i].exchanges != [] ==>
        closed[i].binding.Some? && c.identity == Some(closed[i].binding.value.identity)
  }

  lemma IncludingShares(codec: Codec, closed: seq<ClosedRun>, c: Compiled, r: ClosedRun, provider: Text, model: Text)
    requires Shares(closed, c, provider) && Including(codec, c, r, provider, model).Some?
    ensures Shares(closed + [r], Including(codec, c, r, provider, model).value, provider)
  {
  }

  lemma {:induction false} CompiledRunsShareOneIdentity(codec: Codec, closed: seq<ClosedRun>, provider: Text, model: Text)
    ensures Compile(codec, closed, provider, model).Some? ==>
              && Shares(closed, Compile(codec, closed, provider, model).value, provider)
              && Compile(codec, closed, provider, model).value.runs == Replayed(closed)
              && |Compile(codec, closed, provider, model).value.runs| + |Compile(codec, closed, provider, model).value.excluded| == |closed|
  {
    if closed != [] {
      var most, last := closed[..|closed| - 1], closed[|closed| - 1];
      CompiledRunsShareOneIdentity(codec, most, provider, model);
      var c := Compile(codec, most, provider, model);
      if c.Some? && Including(codec, c.value, last, provider, model).Some? {
        IncludingShares(codec, most, c.value, last, provider, model);
        assert closed == most + [last];
      }
    }
  }

  ghost predicate DistinctClosed(closed: seq<ClosedRun>) {
    forall i, j :: 0 <= i < j < |closed| ==> closed[i].runId != closed[j].runId
  }

  lemma {:induction false} ReplayedAreDistinct(closed: seq<ClosedRun>)
    requires DistinctClosed(closed)
    ensures DistinctRuns(Replayed(closed))
    ensures forall k :: 0 <= k < |Replayed(closed)| ==> exists i :: 0 <= i < |closed| && closed[i].runId == Replayed(closed)[k].sourceRunId
  {
    if closed != [] {
      var n := |closed| - 1;
      var most := closed[..n];
      ReplayedAreDistinct(most);
      forall k | 0 <= k < |Replayed(most)|
        ensures exists i :: 0 <= i < n && closed[i].runId == Replayed(most)[k].sourceRunId
        ensures Replayed(most)[k].sourceRunId != closed[n].runId
      {
        var i :| 0 <= i < |most| && most[i].runId == Replayed(most)[k].sourceRunId;
        assert closed[i] == most[i];
      }
      assert closed[n].runId == closed[n].runId;
    }
  }

  /** The conversation built last is valid whenever the empty one was: its constructor cannot fail. */
  lemma CompiledIsConversation(codec: Codec, b: Building, provider: Text, model: Text)
    requires Indexed(b) && Compile(codec, b.closed, provider, model).Some?
    requires ValidConversation(codec, ConversationReplay(provider, model, None, []))
    ensures var c := Compile(codec, b.closed, provider, model).value;
            ValidConversation(codec, ConversationReplay(provider, model, c.identity, c.runs))
  {
    CompiledRunsShareOneIdentity(codec, b.closed, provider, model);
    assert DistinctClosed(b.closed);
    ReplayedAreDistinct(b.closed);
  }

  // ---- the builder and the page loop

  class Builder {
    var active: Option<ActiveRun>
    var closed: seq<ClosedRun>
    var closedIds: map<Text, nat>
    var checkpoints: seq<(nat, Text)>

    function View(): Building reads this { Building(active, closed, closedIds, checkpoints) }

    constructor ()
      ensures View() == Fresh && Indexed(View())
    {
      active, closed, closedIds, checkpoints := None, [], map[], [];
    }

    method CloseActive(codec: Codec, interrupted: bool) returns (ok: bool)
      modifies this
      ensures ok <==> Closing(codec, old(View()), interrupted).Some?
      ensures ok ==> View() == Closing(codec, old(View()), interrupted).value
    {
      var taken := active;
      active := None;
      if taken.None? { return false; }
      var run := taken.value.Close(codec, interrupted);
      if run.None? { return false; }
      closedIds := closedIds[run.value.runId := |closed|];
      closed := closed + [run.value];
      return true;
    }

    method Result(codec: Codec, result: RunResult) returns (ok: bool)
      requires Indexed(View())
      modifies this
      ensures ok <==> Resulting(codec, old(View()), result).Some?
      ensures ok ==> View() == Resulting(codec, old(View()), result).value
    {
      ClosingIsIndexed(codec, View(), false);
      if active.Some? && active.value.runId == result.runId {
        if result.eventsComplete { return false; }
        ok := CloseActive(codec, false);
        if !ok { return false; }
      }
      if result.runId !in closedIds { return false; }
      var index := closedIds[result.runId];
      var run := closed[index].Result(result);
      if run.None? { return false; }
      closed := closed[index := run.value];
      return true;
    }

    method Observe(codec: Codec, event: Stored) returns (ok: bool)
      requires Indexed(View())
      modifies this
      ensures ok <==> Observing(codec, old(View()), event).Some?
      ensures ok ==> View() == Observing(codec, old(View()), event).value && Indexed(View())
    {
      ObservingIsIndexed(codec, View(), event);
      if active.Some? && event.sequence != active.value.accepted + 1 && active.value.selection.None? { return false; }
      match event.payload {
        case Created => return true;
        case Renamed => return true;
        case AcceptedRun(run, prompt, provider, model) =>
          if active.Some? || run in closedIds { return false; }
          active := Some(ActiveRun.Accepted(event.sequence, run, prompt, provider, model));
          return true;
        case SavedRunResult(result) => ok := Result(codec, result);
        case _ =>
          if active.None? || event.runId != Some(active.value.runId) { return false; }
          ok := Inside(codec, event);
      }
    }

    method Inside(codec: Codec, event: Stored) returns (ok: bool)
      requires active.Some?
      modifies this
      ensures ok <==> Within(codec, old(View()), event).Some?
      ensures ok ==> View() == Within(codec, old(View()), event).value
    {
      match event.payload {
        case Selected(selection) =>
          var next := active.value.Select(event.sequence, selection);
          if next.None? { return false; }
          active := next;
          checkpoints := checkpoints + [(selection.through, selection.digest)];
          return true;
        case BoundProvider(binding) =>
          var next := active.value.Bind(binding);
          if next.None? { return false; }
          active := next;
          return true;
        case Observed(envelope) =>
          var next := active.value.Runtime(codec, envelope);
          if next.None? { return false; }
          active := next;
          if !envelope.event.RunFinished? { return true; }
          ok := CloseActive(codec, false);
        case SavedTool(request, callId, output, isError) =>
          var next := active.value.RecordedResult(codec, request, callId, output, isError);
          if next.None? { return false; }
          active := next;
          return true;
        case Interrupted => ok := CloseActive(codec, true);
        case _ => return false;
      }
    }
  }

  /** What the store returns for one request of history. */
  datatype Page = Page(records: seq<Stored>, hasMore: bool, nextAfter: nat)

  /** Observe the records of one page, which must continue the sequence and stay below the captured head. */
  function ReadRecords(codec: Codec, b: Building, sequence: nat, records: seq<Stored>, through: nat): Option<Building>
    decreases |records|
  {
    if records == [] then Some(b)
    else if records[0].sequence != sequence + 1 || records[0].sequence > through then None
    else
      match Observing(codec, b, records[0])
      case None => None
      case Some(next) => ReadRecords(codec, next, sequence + 1, records[1..], through)
  }

  /** Page after page, until the store says there is no more. Running out of answers is a storage failure. */
  function ReadPages(codec: Codec, b: Building, sequence: nat, pages: seq<Page>, through: nat): Option<(Building, nat)>
    decreases |pages|
  {
    if pages == [] then None
    else
      match ReadRecords(codec, b, sequence, pages[0].records, through)
      case None => None
      case Some(next) =>
        var reached := sequence + |pages[0].records|;
        if !pages[0].hasMore then Some((next, reached))
        else if pages[0].nextAfter != reached then None
        else ReadPages(codec, next, reached, pages[1..], through)
  }

  datatype Prepared = Prepared(selection: Selection, replay: ConversationReplay, exchanges: nat, excluded: seq<Text>)

  /** What the store answers: the pages of events up to a captured head, and the raw rows for the digest. */
  datatype Store = Store(through: nat, pages: seq<Page>, head: int, rows: seq<RawRow>)

  /** `StoredHistorySelection::new`. */
  predicate ValidSelection(codec: Codec, s: Selection) {
    && 0 < s.through <= I64_MAX && IsDigest(s.digest) && !codec.blank(s.provider)
    && (s.expected.Some? ==> s.expected.value.provider == s.provider)
    && !codec.blank(s.model) && |s.model| <= MAX_MODEL_BYTES
  }

  /** `prepare_session_replay`, without the verdicts of its last two constructors: they have none to give. */
  function Preparing(codec: Codec, hash: Hash, provider: Text, model: Text, store: Store): Option<Prepared> {
    if !ValidConversation(codec, ConversationReplay(provider, model, None, [])) then None
    else
      match ReadPages(codec, Fresh, 0, store.pages, store.through)
      case None => None
      case Some((b, sequence)) =>
        if sequence != store.through || b.active.Some? then None
        else
          match DigestOf(hash, store.head, store.rows, store.through, b.checkpoints)
          case None => None
          case Some(digest) =>
            match Compile(codec, b.closed, provider, model)
            case None => None
            case Some(c) =>
              Some(Prepared(Selection(store.through, digest, provider, model, c.identity),
                            ConversationReplay(provider, model, c.identity, c.runs), c.exchanges, c.excluded))
  }

  predicate Consecutive(events: seq<Stored>, through: nat) {
    |events| <= through && forall i :: 0 <= i < |events| ==> events[i].sequence == i + 1
  }

  lemma FoldedMore(codec: Codec, events: seq<Stored>, event: Stored)
    requires Folded(codec, events).Some?
    ensures Folded(codec, events + [event]) == Observing(codec, Folded(codec, events).value, event)
  {
    assert (events + [event])[..|events|] == events;
  }

  ghost predicate Reads(codec: Codec, events: seq<Stored>, b: Building, through: nat) {
    Folded(codec, events) == Some(b) && Consecutive(events, through)
  }

  lemma RecordStep(codec: Codec, before: seq<Stored>, b: Building, records: seq<Stored>, through: nat) returns (next: Building)
    requires Reads(codec, before, b, through) && records != [] && ReadRecords(codec, b, |before|, records, through).Some?
    ensures Reads(codec, before + [records[0]], next, through)
    ensures ReadRecords(codec, next, |before| + 1, records[1..], through) == ReadRecords(codec, b, |before|, records, through)
  {
    FoldedMore(codec, before, records[0]);
    next := Observing(codec, b, records[0]).value;
  }

  lemma Regrouped<T>(before: seq<T>, records: seq<T>)
    requires records != []
    ensures before + [records[0]] + records[1..] == before + records
  {
  }

  lemma {:induction false} ReadRecordsFolds(codec: Codec, before: seq<Stored>, b: Building, records: seq<Stored>, through: nat)
    requires Reads(codec, before, b, through) && ReadRecords(codec, b, |before|, records, through).Some?
    ensures Reads(codec, before + records, ReadRecords(codec, b, |before|, records, through).value, through)
    decreases |records|
  {
    if records == [] {
      assert before + records == before;
    } else {
      var next := RecordStep(codec, before, b, records, through);
      Regrouped(before, records);
      ReadRecordsFolds(codec, before + [records[0]], next, records[1..], through);
    }
  }

  lemma PageStep(codec: Codec, before: seq<Stored>, b: Building, pages: seq<Page>, through: nat) returns (next: Building)
    requires Reads(codec, before, b, through) && ReadPages(codec, b, |before|, pages, through).Some?
    ensures pages != [] && Reads(codec, before + pages[0].records, next, through)
    ensures var reached := |before| + |pages[0].records|;
            ReadPages(codec, b, |before|, pages, through) ==
            if pages[0].hasMore then ReadPages(codec, next, reached, pages[1..], through) else Some((next, reached))
  {
    next := ReadRecords(codec, b, |before|, pages[0].records, through).value;
    ReadRecordsFolds(codec, before, b, pages[0].records, through);
  }

  /** Whatever the paging, what was read is one gapless history and its fold. */
  lemma {:induction false} ReadPagesFolds(codec: Codec, before: seq<Stored>, b: Building, pages: seq<Page>, through: nat)
    returns (events: seq<Stored>)
    requires Reads(codec, before, b, through) && ReadPages(codec, b, |before|, pages, through).Some?
    ensures ReadPages(codec, b, |before|, pages, through).value.1 == |events|
    ensures Reads(codec, events, ReadPages(codec, b, |before|, pages, through).value.0, through)
    decreases |pages|
  {
    var next := PageStep(codec, before, b, pages, through);
    events := before + pages[0].records;
    if pages[0].hasMore {
      events := ReadPagesFolds(codec, events, next, pages[1..], through);
    }
  }

  /** A prepared replay covers events 1 to the captured head exactly, with no run left open. Its runs are the accepted ones
      that exchanged anything, in acceptance order, all under one identity, and they form a valid conversation. */
  lemma PreparedIsTheHistory(codec: Codec, hash: Hash, provider: Text, model: Text, store: Store)
    returns (events: seq<Stored>, b: Building)
    requires Preparing(codec, hash, provider, model, store).Some?
    ensures |events| == store.through && Consecutive(events, store.through)
    ensures Folded(codec, events) == Some(b) && b.active.None? && IdsOfRuns(b.closed) == AcceptedIds(events)
    ensures var p := Preparing(codec, hash, provider, model, store).value;
            && ValidConversation(codec, p.replay)
            && p.replay.runs == Replayed(b.closed)
            && |p.replay.runs| + |p.excluded| == |AcceptedIds(events)|
            && forall i :: 0 <= i < |b.closed| && b.closed[i].exchanges != [] ==>
                b.closed[i].binding.Some? && p.replay.expected == Some(b.closed[i].binding.value.identity)
    ensures DigestOf(hash, store.head, store.rows, store.through, b.checkpoints).Some? && AllNoted(b)
  {
    events := ReadPagesFolds(codec, [], Fresh, store.pages, store.through);
    b := ReadPages(codec, Fresh, 0, store.pages, store.through).value.0;
    HistoryIsIndexed(codec, events);
    HistoryIsNoted(codec, events);
    assert Known(b) == IdsOfRuns(b.closed);
    CompiledRunsShareOneIdentity(codec, b.closed, provider, model);
    CompiledIsConversation(codec, b, provider, model);
  }

  /** The selection handed out names the rows read and the replay's identity, and its constructor cannot fail. So did every
      selection made before: each names exactly the rows that were there when it was made. */
  lemma SelectionsAttestTheHistory(codec: Codec, hash: Hash, provider: Text, model: Text, store: Store)
    returns (b: Building)
    requires Preparing(codec, hash, provider, model, store).Some?
    ensures |store.rows| == store.through && Numbered(store.rows)
    ensures var p := Preparing(codec, hash, provider, model, store).value;
            && p.selection == Selection(store.through, hash(Canonical(store.rows)), provider, model, p.replay.expected)
            && (IsDigest(p.selection.digest) ==> ValidSelection(codec, p.selection))
            && p.replay.runs == Replayed(b.closed)
    ensures forall i :: 0 <= i < |b.closed| ==>
              var s := b.closed[i].selection;
              0 < s.through <= |store.rows| && s.digest == hash(Canonical(store.rows)[..s.through])
  {
    var events;
    events, b := PreparedIsTheHistory(codec, hash, provider, model, store);
    forall i | 0 <= i < |b.closed|
      ensures Attests(hash, store.rows, (b.closed[i].selection.through, b.closed[i].selection.digest))
    {
      assert Noted(b, b.closed[i].selection);
    }
  }

  method ReadPage(codec: Codec, builder: Builder, sequence: nat, page: Page, through: nat) returns (ok: bool)
    requires Indexed(builder.View())
    modifies builder
    ensures ok <==> ReadRecords(codec, old(builder.View()), sequence, page.records, through).Some?
    ensures ok ==>
              && ReadRecords(codec, old(builder.View()), sequence, page.records, through) == Some(builder.View())
              && Indexed(builder.View())
  {
    ghost var goal := ReadRecords(codec, builder.View(), sequence, page.records, through);
    var reached := sequence;
    for i := 0 to |page.records|
      invariant reached == sequence + i && Indexed(builder.View())
      invariant goal == ReadRecords(codec, builder.View(), reached, page.records[i..], through)
    {
      var event := page.records[i];
      assert page.records[i..][1..] == page.records[i + 1..];
      if event.sequence != reached + 1 || event.sequence > through { return false; }
      ok := builder.Observe(codec, event);
      if !ok { return false; }
      reached := event.sequence;
    }
    return true;
  }

  /** The identity fold over the closed runs. */
  method CompileRuns(codec: Codec, closed: seq<ClosedRun>, provider: Text, model: Text) returns (r: Option<Compiled>)
    ensures r == Compile(codec, closed, provider, model)
  {
    var identity: Option<ReplayIdentity> := None;
    var runs: seq<ReplayRun>, excluded: seq<Text>, exchanges: nat := [], [], 0;
    for i := 0 to |closed|
      invariant Compile(codec, closed[..i], provider, model) == Some(Compiled(identity, runs, excluded, exchanges))
    {
      assert closed[..i + 1][..i] == closed[..i];
      var run := closed[i];
      ghost var next := Including(codec, Compiled(identity, runs, excluded, exchanges), run, provider, model);
      if next.None? { CompileFails(codec, closed, i + 1, provider, model); }
      if run.selection.expected != identity || !run.HasEvidence() { return None; }
      if run.exchanges == [] {
        excluded := excluded + [run.runId];
      } else {
        if run.binding.None? { return None; }
        var bound := run.binding.value;
        if run.selection.provider != provider || run.selection.model != model
           || bound.identity.provider != provider || bound.model != model
           || (identity.Some? && identity.value.format != bound.identity.format) { return None; }
        if identity.Some? && identity.value != bound.identity { return None; }
        identity := Some(bound.identity);
        exchanges := exchanges + |run.exchanges|;
        var replayed := ReplayRun(run.runId, run.prompt, run.exchanges);
        if !ValidRun(codec, replayed) { return None; }
        runs := runs + [replayed];
      }
    }
    assert closed[..|closed|] == closed;
    r := Some(Compiled(identity, runs, excluded, exchanges));
  }

  lemma {:induction false} CompileFails(codec: Codec, closed: seq<ClosedRun>, n: nat, provider: Text, model: Text)
    requires n <= |closed| && Compile(codec, closed[..n], provider, model).None?
    ensures Compile(codec, closed, provider, model).None?
  {
    if n < |closed| {
      var most := closed[..|closed| - 1];
      assert most[..n] == closed[..n];
      CompileFails(codec, most, n, provider, model);
    } else {
      assert closed[..n] == closed;
    }
  }

  lemma PagesFrom(codec: Codec, b: Building, sequence: nat, pages: seq<Page>, next: nat, through: nat)
    requires next < |pages|
    ensures ReadPages(codec, b, sequence, pages[next..], through) ==
            match ReadRecords(codec, b, sequence, pages[next].records, through)
            case None => None
            case Some(more) =>
              var reached := sequence + |pages[next].records|;
              if !pages[next].hasMore then Some((more, reached))
              else if pages[next].nextAfter != reached then None
              else ReadPages(codec, more, reached, pages[next + 1..], through)
  {
    assert pages[next..][1..] == pages[next + 1..];
  }

  method ReadHistory(codec: Codec, pages: seq<Page>, through: nat) returns (ok: bool, builder: Builder, sequence: nat)
    ensures fresh(builder)
    ensures ok <==> ReadPages(codec, Fresh, 0, pages, through).Some?
    ensures ok ==> Indexed(builder.View()) && ReadPages(codec, Fresh, 0, pages, through) == Some((builder.View(), sequence))
  {
    builder := new Builder();
    sequence := 0;
    var next: nat := 0;
    ghost var goal := ReadPages(codec, Fresh, 0, pages, through);
    while true
      invariant next <= |pages| && Indexed(builder.View()) && fresh(builder)
      invariant goal == ReadPages(codec, builder.View(), sequence, pages[next..], through)
      decreases |pages| - next
    {
      if next == |pages| { return false, builder, sequence; }
      PagesFrom(codec, builder.View(), sequence, pages, next, through);
      ok := ReadPage(codec, builder, sequence, pages[next], through);
      if !ok { return false, builder, sequence; }
      sequence := sequence + |pages[next].records|;
      if !pages[next].hasMore { return true, builder, sequence; }
      if pages[next].nextAfter != sequence { return false, builder, sequence; }
      next := next + 1;
    }
  }

  /** The last two constructors run, and the contract shows that they never refuse. */
  method Prepare(codec: Codec, hash: Hash, provider: Text, model: Text, store: Store) returns (r: Option<Prepared>)
    requires forall rows :: IsDigest(hash(rows))
    ensures r == Preparing(codec, hash, provider, model, store)
  {
    var empty := NewConversation(codec, provider, model, None, []);
    if empty.None? { return None; }
    var ok, builder, sequence := ReadHistory(codec, store.pages, store.through);
    if !ok || sequence != store.through || builder.active.Some? { return None; }
    var digest := Digest(hash, store.head, store.rows, store.through, builder.checkpoints);
    if digest.None? { return None; }
    var compiled := CompileRuns(codec, builder.closed, provider, model);
    if compiled.None? { return None; }
    CompiledIsConversation(codec, builder.View(), provider, model);
    r := Concluded(codec, provider, model, store.through, digest.value, compiled.value);
  }

  method Concluded(codec: Codec, provider: Text, model: Text, through: nat, digest: Text,
          c: Compiled) returns (r: Option<Prepared>)
    ensures var selection, replay := Selection(through, digest, provider, model, c.identity), ConversationReplay(provider, model, c.identity, c.runs);
            r == if ValidSelection(codec, selection) && ValidConversation(codec, replay)
                 then Some(Prepared(selection, replay, c.exchanges, c.excluded)) else None
  {
    var selection := Selection(through, digest, provider, model, c.identity);
    if !ValidSelection(codec, selection) { return None; }
    var replay := NewConversation(codec, provider, model, c.identity, c.runs);
    match replay {
      case None => return None;
      case Some(conversation) => return Some(Prepared(selection, conversation, c.exchanges, c.excluded));
    }
  }
}
