/** Refreshing the catalog row of one session from snapshots of its database. */
module Refresh {
  import opened Wire
  import opened Catalog

  /** What `observe` reads in one transaction; an observation is always ready and without fault. */
  datatype Snapshot = Snapshot(manifest: Manifest, version: nat, lastRun: Option<(Text, RunState)>)

  function Shown(row: Row): Snapshot { Snapshot(row.manifest, row.version, row.lastRun) }

  datatype Change = Updated | Unchanged

  function Replaced(row: Row, o: Snapshot): Row {
    row.(manifest := o.manifest, version := o.version, lastRun := o.lastRun)
  }

  /** `publish`, as a function of the row. */
  function Publishing(row: Option<Row>, o: Snapshot): Result<Change> {
    match row
    case None => Err(NotFound)
    case Some(current) =>
      if !Readable(current) then Err(Corrupt)
      else if current.availability.Pending? then Err(CreationIncomplete)
      else if current.availability.Missing? then Err(NotFound)
      else if current.availability.Unavailable? then Err(NotAvailable)
      else if !(1 <= o.version <= 3) || o.version < current.version then Err(Corrupt)
      else if current.manifest.head > o.manifest.head then Err(Corrupt)
      else if current.manifest.head == o.manifest.head && Shown(current) == o then Ok(Unchanged)
      else if current.manifest.head == o.manifest.head
              && (current.version >= o.version || Shown(current).(version := o.version) != o) then Err(Corrupt)
      else Ok(Updated)
  }

  /** One row of the catalog. */
  class RowCell {
    var row: Option<Row>
    var repairRequired: bool

    constructor (initial: Option<Row>, repairRequired: bool)
      ensures row == initial && this.repairRequired == repairRequired
    {
      row, this.repairRequired := initial, repairRequired;
    }

    /** Opening the catalog is refused while a repair is required. */
    method Publish(o: Snapshot) returns (r: Result<Change>)
      modifies `row
      ensures r == if repairRequired then Err(RepairRequired) else Publishing(old(row), o)
      ensures r == Ok(Updated) ==> old(row).Some? && row == Some(Replaced(old(row).value, o))
      ensures r != Ok(Updated) ==> row == old(row)
    {
      if repairRequired { return Err(RepairRequired); }
      if row.None? { return Err(NotFound); }
      var current := row.value;
      if !Readable(current) { return Err(Corrupt); }
      match current.availability {
        case Ready =>
        case Pending => return Err(CreationIncomplete);
        case Missing => return Err(NotFound);
        case Unavailable => return Err(NotAvailable);
      }
      if o.version < 1 || o.version > 3 || o.version < current.version { return Err(Corrupt); }
      if current.manifest.head > o.manifest.head { return Err(Corrupt); }
      if current.manifest.head == o.manifest.head {
        if Shown(current) == o { return Ok(Unchanged); }
        var upgraded := Shown(current).(version := o.version);
        if current.version >= o.version || upgraded != o { return Err(Corrupt); }
      }
      row := Some(current.(manifest := o.manifest, version := o.version, lastRun := o.lastRun));
      return Ok(Updated);
    }
  }

  // ---- a session that only appends

  /** One change of a session: events are appended, or the schema alone is upgraded. */
  predicate Advances(a: Snapshot, b: Snapshot) {
    a.version <= b.version &&
    (a.manifest.head < b.manifest.head || (a.version < b.version && b == a.(version := b.version)))
  }

  predicate Legible(o: Snapshot) {
    && o.manifest.head > 0 && o.manifest.createdAt >= 0 && o.manifest.updatedAt >= 0
    && 1 <= o.version <= 3
  }

  ghost predicate History(h: seq<Snapshot>) {
    && h != []
    && (forall i :: 0 <= i < |h| ==> Legible(h[i]))
    && forall i {:trigger h[i]} :: 0 < i < |h| ==> Advances(h[i - 1], h[i])
  }

  lemma {:induction false} LaterAdvances(h: seq<Snapshot>, i: nat, j: nat)
    requires History(h) && i < j < |h|
    ensures Advances(h[i], h[j])
    decreases j
  {
    assert Advances(h[j - 1], h[j]);
    if i < j - 1 { LaterAdvances(h, i, j - 1); }
  }

  ghost predicate Shows(row: Option<Row>, o: Snapshot) {
    row.Some? && row.value.availability.Ready? && row.value.fault.None? && Shown(row.value) == o
  }

  /** Publishing is exact on a history: newer snapshots update, the same one is unchanged, older ones are refused. */
  lemma PublishExactly(h: seq<Snapshot>, row: Option<Row>, k: nat, j: nat)
    requires History(h) && k < |h| && j < |h| && Shows(row, h[k])
    ensures Publishing(row, h[j]) == if j > k then Ok(Updated) else if j == k then Ok(Unchanged) else Err(Corrupt)
    ensures Shows(Some(Replaced(row.value, h[j])), h[j])
  {
    if k < j { LaterAdvances(h, k, j); }
    if j < k { LaterAdvances(h, j, k); }
  }

  /** Whatever the row and the snapshot, an update strictly advances and lowers neither head nor version. */
  lemma UpdatedAdvances(row: Option<Row>, o: Snapshot)
    ensures Publishing(row, o) == Ok(Updated) ==> row.Some? && Advances(Shown(row.value), o)
    ensures Publishing(row, o) == Ok(Unchanged) ==> row.Some? && Shown(row.value) == o
  {
  }

  // ---- interleavings

  /** The session, its catalog row, and the snapshots refreshes have taken but not yet published. */
  datatype World = World(history: seq<Snapshot>, row: Option<Row>, taken: map<nat, nat>)

  datatype Step =
    | Append(next: Snapshot)
    | Observe(id: nat)
    | Publish(id: nat, committed: bool)
    | Drop(id: nat)

  ghost predicate Enabled(w: World, step: Step) {
    match step
    case Append(next) => w.history != [] && Legible(next) && Advances(w.history[|w.history| - 1], next)
    case Observe(id) => id !in w.taken && w.history != []
    case Publish(id, _) => id in w.taken && w.taken[id] < |w.history|
    case Drop(id) => id in w.taken
  }

  ghost function Next(w: World, step: Step): World
    requires Enabled(w, step)
  {
    match step
    case Append(next) => w.(history := w.history + [next])
    case Observe(id) => w.(taken := w.taken[id := |w.history| - 1])
    case Publish(id, committed) =>
      var o := w.history[w.taken[id]];
      w.(taken := w.taken - {id},
         row := if committed && Publishing(w.row, o) == Ok(Updated) then Some(Replaced(w.row.value, o)) else w.row)
    case Drop(id) => w.(taken := w.taken - {id})
  }

  ghost predicate Inv(w: World, k: nat) {
    && History(w.history) && k < |w.history| && Shows(w.row, w.history[k])
    && forall id :: id in w.taken ==> w.taken[id] < |w.history|
  }

  ghost function Max(a: nat, b: nat): nat { if a < b then b else a }

  /** The place in the history that the row shows after a step. */
  ghost function Place(w: World, k: nat, step: Step): nat
    requires Enabled(w, step)
  {
    if step.Publish? && step.committed then Max(k, w.taken[step.id]) else k
  }

  lemma InvNext(w: World, k: nat, step: Step)
    requires Inv(w, k) && Enabled(w, step)
    ensures Inv(Next(w, step), Place(w, k, step)) && w.history <= Next(w, step).history
  {
    if step.Publish? { PublishExactly(w.history, w.row, k, w.taken[step.id]); }
  }

  ghost predicate Runs(worlds: seq<World>, steps: seq<Step>, places: seq<nat>) {
    && |worlds| == |places| == |steps| + 1 && Inv(worlds[0], places[0])
    && forall i {:trigger steps[i]} :: 0 <= i < |steps| ==>
        && Enabled(worlds[i], steps[i]) && worlds[i + 1] == Next(worlds[i], steps[i])
        && places[i + 1] == Place(worlds[i], places[i], steps[i])
  }

  /** The row always equals a past observation, and its place in the history never moves back. */
  lemma {:induction false} RowIsAPastObservation(worlds: seq<World>, steps: seq<Step>, places: seq<nat>, i: nat, j: nat)
    requires Runs(worlds, steps, places) && i <= j < |worlds|
    ensures Inv(worlds[j], places[j]) && places[i] <= places[j] && worlds[i].history <= worlds[j].history
    decreases j
  {
    if i < j {
      RowIsAPastObservation(worlds, steps, places, i, j - 1);
      InvNext(worlds[j - 1], places[j - 1], steps[j - 1]);
    } else if 0 < j {
      RowIsAPastObservation(worlds, steps, places, j - 1, j - 1);
      InvNext(worlds[j - 1], places[j - 1], steps[j - 1]);
    }
  }

  /** Between any two moments neither the head nor the schema version of the row goes down. */
  lemma RowNeverMovesBack(worlds: seq<World>, steps: seq<Step>, places: seq<nat>, i: nat, j: nat)
    requires Runs(worlds, steps, places) && i <= j < |worlds|
    ensures worlds[i].row.Some? && worlds[j].row.Some?
    ensures var a, b := Shown(worlds[i].row.value), Shown(worlds[j].row.value); a == b || Advances(a, b)
  {
    RowIsAPastObservation(worlds, steps, places, i, j);
    RowIsAPastObservation(worlds, steps, places, i, i);
    assert worlds[j].history[places[i]] == worlds[i].history[places[i]];
    if places[i] < places[j] { LaterAdvances(worlds[j].history, places[i], places[j]); }
  }

  lemma {:induction false} TakenIsKept(worlds: seq<World>, steps: seq<Step>, places: seq<nat>, a: nat, b: nat, id: nat)
    requires Runs(worlds, steps, places) && a < b < |worlds|
    requires steps[a] == Observe(id)
    requires forall i :: a < i < b ==> steps[i] != Publish(id, true) && steps[i] != Publish(id, false) && steps[i] != Drop(id)
    ensures id in worlds[b].taken && worlds[b].taken[id] == |worlds[a].history| - 1
    decreases b
  {
    if a + 1 < b {
      TakenIsKept(worlds, steps, places, a, b - 1, id);
      assert worlds[b] == Next(worlds[b - 1], steps[b - 1]);
    }
  }

  lemma LatestIsPublished(w: World, k: nat, id: nat)
    requires Inv(w, k) && id in w.taken && w.taken[id] == |w.history| - 1
    ensures var o, v := w.history[|w.history| - 1], Next(w, Publish(id, true));
            && v.history == w.history && Shows(v.row, o)
            && Publishing(w.row, o) == if Shown(w.row.value) == o then Ok(Unchanged) else Ok(Updated)
  {
    PublishExactly(w.history, w.row, k, |w.history| - 1);
    if k < |w.history| - 1 { LaterAdvances(w.history, k, |w.history| - 1); }
  }

  /** A refresh during which the session does not change leaves the row equal to the session,
      however many older refreshes publish in between. */
  lemma QuietRefreshCatchesUp(worlds: seq<World>, steps: seq<Step>, places: seq<nat>, a: nat, b: nat, id: nat)
    requires Runs(worlds, steps, places) && a < b < |steps|
    requires steps[a] == Observe(id) && steps[b] == Publish(id, true)
    requires forall i :: a < i < b ==> steps[i] != Publish(id, true) && steps[i] != Publish(id, false) && steps[i] != Drop(id)
    requires worlds[b].history == worlds[a].history
    ensures var h := worlds[b + 1].history; Shows(worlds[b + 1].row, h[|h| - 1])
    ensures var h := worlds[b].history;
            Publishing(worlds[b].row, h[|h| - 1]) ==
            if Shown(worlds[b].row.value) == h[|h| - 1] then Ok(Unchanged) else Ok(Updated)
  {
    TakenIsKept(worlds, steps, places, a, b, id);
    RowIsAPastObservation(worlds, steps, places, b, b);
    LatestIsPublished(worlds[b], places[b], id);
    assert worlds[b + 1] == Next(worlds[b], steps[b]);
  }
}
