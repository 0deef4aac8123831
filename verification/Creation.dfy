/** Session creation across two stores: the catalog reserves, the session database is materialized, the catalog accepts.
    Calls interleave at transaction boundaries, any transaction may lose its answer, and any call may crash. */
module Creation {
  import opened Wire
  import opened Catalog

  /** A session file. `Foreign` is one whose validation reports the kind, whatever the provenance. */
  datatype Database = Blank | Holding(provenance: Provenance, manifest: Manifest, version: nat) | Foreign(kind: Kind)

  /** What validation against a provenance establishes of a session database. */
  predicate Faithful(p: Provenance, m: Manifest, version: nat) {
    && m.createdAt == p.createdAt && m.workspace == p.request.workspace
    && m.head > 0 && m.updatedAt >= 0 && 1 <= version <= 3
  }

  function Initialized(p: Provenance): Database {
    Holding(p, Manifest(p.request.title, p.request.workspace, p.createdAt, p.createdAt, 1), 3)
  }

  /** `materialize`: adopt a database that already holds this provenance, initialize an absent or empty one. */
  function Materializing(db: Option<Database>, p: Provenance): (Result<(Manifest, nat)>, Database) {
    match db
    case Some(Holding(q, m, v)) => (if q == p && Faithful(p, m, v) then Ok((m, v)) else Err(Corrupt), db.value)
    case Some(Foreign(kind)) => (Err(kind), db.value)
    case _ => (Ok((Initialized(p).manifest, 3)), Initialized(p))
  }

  /** The errors of materialization that prove the reservation broken. */
  predicate Proven(kind: Kind) { kind.Corrupt? || kind.UnsupportedVersion? || kind.NotAvailable? }

  function Unfinished(kind: Kind): Kind { if kind.CommitUnknown? then kind else CreationIncomplete }

  datatype Phase =
    | Begun
    | Waiting(provenance: Provenance, duplicate: bool)
    | Owning(provenance: Provenance, duplicate: bool)
    | Checked(provenance: Provenance, duplicate: bool)
    | Broken(provenance: Provenance, duplicate: bool, kind: Kind)
    | Made(provenance: Provenance, duplicate: bool, manifest: Manifest, version: nat)
    | Returned(result: Result<(Receipt, bool)>)
    | Gone

  datatype Call = Call(input: CreateSession, phase: Phase) {
    /** The call holds the lock of its session. */
    predicate Locks(session: Text) {
      (phase.Owning? || phase.Checked? || phase.Broken? || phase.Made?) && phase.provenance.session == session
    }

    /** The call made the reservation and may still answer, or has answered, as its creator. */
    predicate Creator() {
      match phase
      case Waiting(_, d) => !d
      case Owning(_, d) => !d
      case Checked(_, d) => !d
      case Broken(_, d, _) => !d
      case Made(_, d, _, _) => !d
      case Returned(Ok((_, d))) => !d
      case _ => false
    }
  }

  datatype World = World(tables: Tables, databases: map<Text, Database>, calls: map<nat, Call>) {
    function To(id: nat, phase: Phase): World
      requires id in calls
    {
      this.(calls := calls[id := calls[id].(phase := phase)])
    }

    /** The empty file is created before the transaction that initializes it. */
    function Touched(session: Text): map<Text, Database> {
      if session in databases then databases else databases[session := Blank]
    }

    function File(session: Text): Option<Database> {
      if session in databases then Some(databases[session]) else None
    }
  }

  /** How a transaction ends: answered, committed with the answer lost, or not committed. */
  datatype Fate = Delivered | Lost(kind: Kind) | Undone(kind: Kind)

  datatype Step =
    | Begin(id: nat, input: CreateSession)
    | Reserve(id: nat, session: Text, event: Text, now: nat, fate: Fate)
    | Lock(id: nat)
    | Check(id: nat, fate: Fate)
    | Materialize(id: nat, touched: bool, fate: Fate)
    | Fail(id: nat, fate: Fate)
    | Complete(id: nat, fate: Fate)
    | Crash(id: nat)
    | Progress(session: Text, manifest: Manifest, version: nat)

  /** Operational errors never claim a command conflict. */
  predicate Possible(fate: Fate) { fate.Delivered? || !fate.kind.Conflict? }

  ghost predicate Unlocked(w: World, session: Text) {
    forall other :: other in w.calls ==> !w.calls[other].Locks(session)
  }

  ghost predicate Enabled(w: World, step: Step) {
    UniqueSessions(w.tables) &&
    match step
    case Begin(id, _) => id !in w.calls
    case Reserve(id, _, _, _, fate) => id in w.calls && w.calls[id].phase.Begun? && Possible(fate)
    case Lock(id) =>
      && id in w.calls && w.calls[id].phase.Waiting?
      && Unlocked(w, w.calls[id].phase.provenance.session)
    case Check(id, fate) => id in w.calls && w.calls[id].phase.Owning? && Possible(fate)
    case Materialize(id, _, fate) => id in w.calls && w.calls[id].phase.Checked? && Possible(fate)
    case Fail(id, fate) => id in w.calls && w.calls[id].phase.Broken? && Possible(fate)
    case Complete(id, fate) => id in w.calls && w.calls[id].phase.Made? && Possible(fate)
    case Crash(id) => id in w.calls && !w.calls[id].phase.Returned?
    case Progress(session, m, version) =>
      // Sessions are written only once they are ready.
      && session in w.tables.sessions && w.tables.sessions[session].availability.Ready?
      && session in w.databases && w.databases[session].Holding?
      && Faithful(w.databases[session].provenance, m, version)
      && m.head >= w.databases[session].manifest.head
  }

  function AfterReserve(r: Result<(Reservation, bool)>): Phase {
    match r
    case Err(kind) => Returned(Err(kind))
    case Ok((reserved, duplicate)) =>
      if reserved.state.Accepted? then Returned(Ok((reserved.provenance.Receipted(), true)))
      else Waiting(reserved.provenance, duplicate)
  }

  function AfterCheck(r: Result<Entry>, p: Provenance, duplicate: bool): Phase {
    match r
    case Err(kind) => Returned(Err(Unfinished(kind)))
    case Ok(entry) =>
      if entry.reservation.provenance != p then Returned(Err(Unfinished(Corrupt)))
      else
        match entry.reservation.state
        case Accepted => Returned(Ok((p.Receipted(), duplicate)))
        case Failed(kind) => Returned(Err(kind))
        case Creating => Checked(p, duplicate)
  }

  function AfterMaterialize(r: Result<(Manifest, nat)>, p: Provenance, duplicate: bool): Phase {
    match r
    case Ok((m, version)) => Made(p, duplicate, m, version)
    case Err(kind) => if Proven(kind) then Broken(p, duplicate, kind) else Returned(Err(Unfinished(kind)))
  }

  function AfterFail(r: Result<()>, kind: Kind): Phase {
    match r
    case Ok(_) => Returned(Err(kind))
    case Err(kind') => Returned(Err(Unfinished(kind')))
  }

  function AfterComplete(r: Result<()>, p: Provenance, duplicate: bool): Phase {
    match r
    case Ok(_) => Returned(Ok((p.Receipted(), duplicate)))
    case Err(kind) => Returned(Err(Unfinished(kind)))
  }

  /** The entry read opens the catalog, which refuses while a repair is required. */
  function Reading(t: Tables, session: Text): Result<Entry>
    requires UniqueSessions(t)
  {
    if t.repairRequired then Err(RepairRequired) else EntryRows(t, session)
  }

  function Answer<T>(fate: Fate, r: Result<T>): Result<T> {
    if fate.Delivered? then r else Err(fate.kind)
  }

  function Committed<T>(fate: Fate, before: T, after: T): T {
    if fate.Undone? then before else after
  }

  /** What a materialization leaves behind, whatever its fate. */
  function Left(w: World, p: Provenance, touched: bool, fate: Fate): map<Text, Database> {
    Committed(fate, if touched then w.Touched(p.session) else w.databases,
              w.databases[p.session := Materializing(w.File(p.session), p).1])
  }

  ghost function Next(w: World, step: Step): World
    requires Enabled(w, step)
  {
    match step
    case Begin(id, input) => w.(calls := w.calls[id := Call(input, Begun)])
    case Reserve(id, session, event, now, fate) =>
      var input := w.calls[id].input;
      var (r, t) := Reserving(w.tables, Provenance(input.operation, session, input.request, event, now));
      w.(tables := Committed(fate, w.tables, t)).To(id, AfterReserve(Answer(fate, r)))
    case Lock(id) => w.To(id, Owning(w.calls[id].phase.provenance, w.calls[id].phase.duplicate))
    case Check(id, fate) =>
      var Owning(p, duplicate) := w.calls[id].phase;
      w.To(id, AfterCheck(Answer(fate, Reading(w.tables, p.session)), p, duplicate))
    case Materialize(id, touched, fate) =>
      var Checked(p, duplicate) := w.calls[id].phase;
      var (r, _) := Materializing(w.File(p.session), p);
      w.(databases := Left(w, p, touched, fate)).To(id, AfterMaterialize(Answer(fate, r), p, duplicate))
    case Fail(id, fate) =>
      var Broken(p, _, kind) := w.calls[id].phase;
      var (r, t) := Failing(w.tables, p, kind);
      w.(tables := Committed(fate, w.tables, t)).To(id, AfterFail(Answer(fate, r), kind))
    case Complete(id, fate) =>
      var Made(p, duplicate, m, version) := w.calls[id].phase;
      var (r, t) := Completing(w.tables, p, m, version);
      w.(tables := Committed(fate, w.tables, t)).To(id, AfterComplete(Answer(fate, r), p, duplicate))
    case Crash(id) => w.To(id, Gone)
    case Progress(session, m, version) =>
      w.(databases := w.databases[session := w.databases[session].(manifest := m, version := version)])
  }

  // ---- the invariant

  function Origin(operation: Text, c: Command): Provenance {
    Provenance(operation, c.session, c.request, c.event, c.createdAt)
  }

  /** A command, the row of its session and its database agree. */
  ghost predicate Settled(t: Tables, databases: map<Text, Database>, o: Text)
    requires o in t.commands
  {
    var c := t.commands[o];
    var r := Decode(o, c);
    && r.Some? && c.session in t.sessions
    && var row := t.sessions[c.session];
    && Readable(row) && Consistent(row, r.value)
    && (c.tag.CreatingTag? ==> row.availability.Pending?)
    && (c.tag.FailedTag? ==> row.availability.Unavailable? && row.fault == c.failure)
    && (row.availability.Ready? ==>
          && c.session in databases && databases[c.session].Holding?
          && databases[c.session].provenance == Origin(o, c))
  }

  ghost predicate Named(t: Tables, session: Text) {
    exists o :: Names(t, o, session)
  }

  ghost predicate Coherent(t: Tables, databases: map<Text, Database>) {
    && UniqueSessions(t)
    && (forall o :: o in t.commands ==> Settled(t, databases, o))
    && (forall s :: s in t.sessions && t.sessions[s].availability.Ready? ==> Named(t, s))
  }

  /** The catalog holds exactly this provenance for the call's operation. */
  ghost predicate Bound(t: Tables, input: CreateSession, p: Provenance) {
    && p.operation == input.operation && p.request == input.request
    && p.operation in t.commands && Origin(p.operation, t.commands[p.operation]) == p
  }

  ghost predicate Reserving?(t: Tables, input: CreateSession, p: Provenance) {
    Bound(t, input, p) && t.commands[p.operation].tag.CreatingTag?
  }

  ghost predicate Honest(w: World, call: Call) {
    var t := w.tables;
    match call.phase
    case Waiting(p, _) => Bound(t, call.input, p)
    case Owning(p, _) => Bound(t, call.input, p)
    case Checked(p, _) => Reserving?(t, call.input, p)
    case Broken(p, _, kind) => Reserving?(t, call.input, p) && Proven(kind)
    case Made(p, _, m, version) =>
      && Reserving?(t, call.input, p)
      && Faithful(p, m, version) && w.File(p.session) == Some(Holding(p, m, version))
    case Returned(Ok((receipt, _))) =>
      && call.input.operation in t.commands
      && var c := t.commands[call.input.operation];
      && c.tag.AcceptedTag? && c.request == call.input.request && receipt == Receipt(call.input.operation, c.session)
    case Returned(Err(Conflict)) =>
      && call.input.operation in t.commands
      && var c := t.commands[call.input.operation];
      && (c.request != call.input.request || (c.tag.FailedTag? && c.failure == Some(Conflict)))
    case _ => true
  }

  ghost predicate Exclusive(w: World) {
    forall i, j, s :: i in w.calls && j in w.calls && w.calls[i].Locks(s) && w.calls[j].Locks(s) ==> i == j
  }

  ghost predicate OneCreator(w: World) {
    && (forall i :: i in w.calls && w.calls[i].Creator() ==> w.calls[i].input.operation in w.tables.commands)
    && forall i, j ::
        (i in w.calls && j in w.calls && w.calls[i].Creator() && w.calls[j].Creator()
         && w.calls[i].input.operation == w.calls[j].input.operation) ==> i == j
  }

  ghost predicate Inv(w: World) {
    && Coherent(w.tables, w.databases)
    && (forall id :: id in w.calls ==> Honest(w, w.calls[id]))
    && Exclusive(w)
    && OneCreator(w)
  }

  // ---- how tables evolve

  /** A command never changes what it is bound to, and leaves only the creating state. */
  ghost predicate Evolves(c: Command, d: Command) {
    && d.session == c.session && d.request == c.request && d.event == c.event && d.createdAt == c.createdAt
    && (d == c || c.tag.CreatingTag?)
  }

  ghost predicate Grows(t: Tables, u: Tables) {
    forall o :: o in t.commands ==> o in u.commands && Evolves(t.commands[o], u.commands[o])
  }

  /** Only the command of one operation differs. */
  ghost predicate OnlyCommand(t: Tables, u: Tables, operation: Text) {
    forall o :: o in t.commands && o != operation ==> o in u.commands && u.commands[o] == t.commands[o]
  }

  lemma FindsTheCommand(t: Tables, databases: map<Text, Database>, p: Provenance)
    requires Coherent(t, databases)
    requires p.operation in t.commands && Origin(p.operation, t.commands[p.operation]) == p
    ensures EntryRows(t, p.session).Ok? ==>
              && EntryRows(t, p.session).value.reservation == Decode(p.operation, t.commands[p.operation]).value
              && EntryRows(t, p.session).value.row == t.sessions[p.session]
    ensures t.commands[p.operation].tag.CreatingTag? || t.commands[p.operation].tag.FailedTag? ==> EntryRows(t, p.session).Ok?
  {
    assert Settled(t, databases, p.operation);
    assert Names(t, p.operation, p.session);
    assert CommandOf(t, p.session) == Some(p.operation);
  }

  lemma ReservedIsSettled(t: Tables, databases: map<Text, Database>, p: Provenance, o: Text)
    requires Coherent(t, databases) && p.operation !in t.commands && Free(t, p.session) && p.createdAt >= 0
    requires o in Reserved(t, p).commands
    ensures Settled(Reserved(t, p), databases, o)
  {
    if o != p.operation { assert Settled(t, databases, o); }
  }

  lemma ReservedIsUnique(t: Tables, p: Provenance)
    requires UniqueSessions(t) && p.operation !in t.commands && Free(t, p.session)
    ensures UniqueSessions(Reserved(t, p)) && Grows(t, Reserved(t, p))
  {
  }

  lemma NamedStill(t: Tables, u: Tables, session: Text)
    requires Named(t, session) && Grows(t, u)
    ensures Named(u, session)
  {
    var o :| Names(t, o, session);
    assert Names(u, o, session);
  }

  lemma ReservedIsCoherent(t: Tables, databases: map<Text, Database>, p: Provenance)
    requires Coherent(t, databases) && p.operation !in t.commands && Free(t, p.session) && p.createdAt >= 0
    ensures Coherent(Reserved(t, p), databases) && Grows(t, Reserved(t, p))
  {
    var u := Reserved(t, p);
    ReservedIsUnique(t, p);
    forall o | o in u.commands ensures Settled(u, databases, o) {
      ReservedIsSettled(t, databases, p, o);
    }
    forall s | s in u.sessions && u.sessions[s].availability.Ready? ensures Named(u, s) {
      NamedStill(t, u, s);
    }
  }

  lemma CompletedIsCoherent(t: Tables, databases: map<Text, Database>, p: Provenance, m: Manifest, version: nat)
    requires Coherent(t, databases)
    requires p.operation in t.commands && Origin(p.operation, t.commands[p.operation]) == p
    requires t.commands[p.operation].tag.CreatingTag? && p.session in t.sessions
    requires Faithful(p, m, version) && p.session in databases && databases[p.session] == Holding(p, m, version)
    ensures var u := Completed(t, p, m, version); Coherent(u, databases) && Grows(t, u)
  {
    var u := Completed(t, p, m, version);
    assert Settled(t, databases, p.operation);
    forall o | o in u.commands ensures Settled(u, databases, o) {
      assert Settled(t, databases, o);
    }
    forall s | s in u.sessions && u.sessions[s].availability.Ready? ensures Named(u, s) {
      if s == p.session {
        assert Names(u, p.operation, s);
      } else {
        assert Named(t, s);
        var o :| Names(t, o, s);
        assert Names(u, o, s);
      }
    }
  }

  lemma FailedIsCoherent(t: Tables, databases: map<Text, Database>, p: Provenance, kind: Kind)
    requires Coherent(t, databases)
    requires p.operation in t.commands && Origin(p.operation, t.commands[p.operation]) == p
    requires t.commands[p.operation].tag.CreatingTag? && p.session in t.sessions && Proven(kind)
    ensures var u := FailedWith(t, p, kind); Coherent(u, databases) && Grows(t, u)
  {
    var u := FailedWith(t, p, kind);
    assert Settled(t, databases, p.operation);
    forall o | o in u.commands ensures Settled(u, databases, o) {
      assert Settled(t, databases, o);
    }
    forall s | s in u.sessions && u.sessions[s].availability.Ready? ensures Named(u, s) {
      assert Named(t, s);
      var o :| Names(t, o, s);
      assert Names(u, o, s);
    }
  }

  /** Files may change except where they already hold a database. */
  ghost predicate KeepsFiles(before: map<Text, Database>, after: map<Text, Database>) {
    forall s :: s in before ==>
      && s in after
      && (before[s].Foreign? ==> after[s] == before[s])
      && (before[s].Holding? ==>
            && after[s].Holding? && after[s].provenance == before[s].provenance
            && after[s].manifest.head >= before[s].manifest.head)
  }

  lemma FilesAreCoherent(t: Tables, before: map<Text, Database>, after: map<Text, Database>)
    requires Coherent(t, before) && KeepsFiles(before, after)
    ensures Coherent(t, after)
  {
    forall o | o in t.commands ensures Settled(t, after, o) {
      assert Settled(t, before, o);
    }
  }

  // ---- how calls fare while another call moves

  lemma BystanderIsHonest(w: World, v: World, call: Call)
    requires Honest(w, call) && Grows(w.tables, v.tables)
    requires call.phase.Checked? || call.phase.Broken? || call.phase.Made? ==>
               && call.phase.provenance.operation in v.tables.commands
               && v.tables.commands[call.phase.provenance.operation] == w.tables.commands[call.phase.provenance.operation]
    requires call.phase.Made? ==> v.File(call.phase.provenance.session) == w.File(call.phase.provenance.session)
    ensures Honest(v, call)
  {
  }

  /** The call that moves holds the only lock on its session, so no other call is past its check there. */
  lemma OthersAreElsewhere(w: World, id: nat, other: nat, p: Provenance)
    requires Inv(w) && id in w.calls && other in w.calls && other != id
    requires w.calls[id].Locks(p.session) && Bound(w.tables, w.calls[id].input, p)
    requires w.calls[other].phase.Checked? || w.calls[other].phase.Broken? || w.calls[other].phase.Made?
    ensures w.calls[other].phase.provenance.session != p.session
    ensures w.calls[other].phase.provenance.operation != p.operation
  {
    assert Honest(w, w.calls[other]);
    var q := w.calls[other].phase.provenance;
    assert w.calls[other].Locks(q.session);
  }

  /** What a move of one call has to show: its own honesty, no new lock, no second creator. */
  ghost predicate Moves(w: World, v: World, id: nat) {
    && id in w.calls && id in v.calls && v.calls == w.calls[id := v.calls[id]]
    && v.calls[id].input == w.calls[id].input
    && Grows(w.tables, v.tables) && OnlyCommand(w.tables, v.tables, w.calls[id].input.operation)
    && Coherent(v.tables, v.databases)
    && Honest(v, v.calls[id])
    && (forall s :: v.calls[id].Locks(s) ==> w.calls[id].Locks(s) || Unlocked(w, s))
    && (v.calls[id].Creator() ==>
          && v.calls[id].input.operation in v.tables.commands
          && (w.calls[id].Creator() || w.calls[id].input.operation !in w.tables.commands))
  }

  /** Nothing outside the call's own session and operation has moved. */
  ghost predicate Private(w: World, v: World, id: nat)
    requires id in w.calls
  {
    || (v.tables.commands == w.tables.commands && v.databases == w.databases)
    || (w.calls[id].phase.Begun? && v.databases == w.databases && w.calls[id].input.operation !in w.tables.commands)
    || exists p :: Touches(w, v, id, p)
  }

  ghost predicate Touches(w: World, v: World, id: nat, p: Provenance)
    requires id in w.calls
  {
    && w.calls[id].Locks(p.session) && Bound(w.tables, w.calls[id].input, p)
    && forall s :: s != p.session ==> v.File(s) == w.File(s)
  }

  lemma ElsewhereIsKept(w: World, v: World, id: nat, other: nat)
    requires Inv(w) && Moves(w, v, id) && Private(w, v, id) && other in w.calls && other != id
    requires w.calls[other].phase.Checked? || w.calls[other].phase.Broken? || w.calls[other].phase.Made?
    ensures var q := w.calls[other].phase.provenance;
            && q.operation in w.tables.commands && q.operation in v.tables.commands
            && v.tables.commands[q.operation] == w.tables.commands[q.operation] && v.File(q.session) == w.File(q.session)
  {
    assert Honest(w, w.calls[other]);
    if p :| Touches(w, v, id, p) { OthersAreElsewhere(w, id, other, p); }
  }

  lemma BystandersAreHonest(w: World, v: World, id: nat, other: nat)
    requires Inv(w) && Moves(w, v, id) && Private(w, v, id) && other in w.calls && other != id
    ensures Honest(v, w.calls[other])
  {
    assert Honest(w, w.calls[other]);
    if w.calls[other].phase.Checked? || w.calls[other].phase.Broken? || w.calls[other].phase.Made? {
      ElsewhereIsKept(w, v, id, other);
    }
    BystanderIsHonest(w, v, w.calls[other]);
  }

  lemma MoveKeepsInv(w: World, v: World, id: nat)
    requires Inv(w) && Moves(w, v, id) && Private(w, v, id)
    ensures Inv(v)
  {
    forall other | other in v.calls ensures Honest(v, v.calls[other]) {
      if other != id { BystandersAreHonest(w, v, id, other); }
    }
    MoveKeepsExclusive(w, v, id);
    MoveKeepsOneCreator(w, v, id);
  }

  lemma MoveKeepsExclusive(w: World, v: World, id: nat)
    requires Exclusive(w) && Moves(w, v, id)
    ensures Exclusive(v)
  {
    assert forall i :: i in w.calls && i != id ==> v.calls[i] == w.calls[i];
  }

  lemma MoveKeepsOneCreator(w: World, v: World, id: nat)
    requires OneCreator(w) && Moves(w, v, id)
    ensures OneCreator(v)
  {
    assert forall i :: i in w.calls && i != id ==> v.calls[i] == w.calls[i];
  }

  lemma RepeatIsHonest(t: Tables, databases: map<Text, Database>, input: CreateSession)
    requires Coherent(t, databases) && input.operation in t.commands
    ensures var c := t.commands[input.operation];
            match Repeat(t, input)
            case Ok(reserved) =>
              && reserved.provenance == Origin(input.operation, c) && c.request == input.request
              && (reserved.state.Accepted? <==> c.tag.AcceptedTag?) && !c.tag.FailedTag?
            case Err(kind) => kind.Conflict? <==> c.request != input.request || (c.tag.FailedTag? && c.failure == Some(Conflict))
  {
    var c := t.commands[input.operation];
    assert Settled(t, databases, input.operation);
    FindsTheCommand(t, databases, Origin(input.operation, c));
  }

  lemma ReservingIsCoherent(t: Tables, databases: map<Text, Database>, p: Provenance)
    requires Coherent(t, databases) && p.createdAt >= 0
    ensures var (r, u) := Reserving(t, p);
            && Coherent(u, databases) && Grows(t, u) && OnlyCommand(t, u, p.operation)
            && (u == t || p.operation !in t.commands)
            && (p.operation !in t.commands ==> (r.Err? ==> !r.kind.Conflict?) && (r.Ok? ==> r.value == (Reservation(p, Creating), false) && u == Reserved(t, p)))
            && (p.operation in t.commands && r.Ok? ==> r.value.1)
  {
    if p.operation !in t.commands && Free(t, p.session) { ReservedIsCoherent(t, databases, p); }
  }

  /** A call that has just begun moves on with its own command reserved, or with nothing changed. */
  lemma BegunMoves(w: World, id: nat, u: Tables, phase: Phase)
    requires id in w.calls && w.calls[id].phase.Begun? && (phase.Waiting? || phase.Returned?)
    requires var o := w.calls[id].input.operation;
             && Coherent(u, w.databases) && Grows(w.tables, u) && OnlyCommand(w.tables, u, o)
             && (u == w.tables || o !in w.tables.commands)
             && (Call(w.calls[id].input, phase).Creator() ==> o in u.commands && o !in w.tables.commands)
    requires Honest(w.(tables := u), Call(w.calls[id].input, phase))
    ensures var v := w.(tables := u).To(id, phase); Moves(w, v, id) && Private(w, v, id)
  {
  }

  lemma ReserveIsHonest(w: World, input: CreateSession, p: Provenance, fate: Fate)
    requires Coherent(w.tables, w.databases) && Possible(fate) && p.createdAt >= 0
    requires p.operation == input.operation && p.request == input.request
    ensures var (r, t) := Reserving(w.tables, p);
            var u, call := Committed(fate, w.tables, t), Call(input, AfterReserve(Answer(fate, r)));
            && Honest(w.(tables := u), call)
            && (call.Creator() ==> input.operation in u.commands && input.operation !in w.tables.commands)
  {
    ReservingIsCoherent(w.tables, w.databases, p);
    if input.operation in w.tables.commands { RepeatIsHonest(w.tables, w.databases, input); }
  }

  lemma ReserveMoves(w: World, step: Step)
    requires Coherent(w.tables, w.databases) && step.Reserve? && Enabled(w, step) && Honest(w, w.calls[step.id])
    ensures var v := Next(w, step); Moves(w, v, step.id) && Private(w, v, step.id)
  {
    var input := w.calls[step.id].input;
    var p := Provenance(input.operation, step.session, input.request, step.event, step.now);
    ReservingIsCoherent(w.tables, w.databases, p);
    ReserveIsHonest(w, input, p, step.fate);
    var (r, t) := Reserving(w.tables, p);
    CommittedIsCoherent(w.tables, t, w.databases, p.operation, step.fate);
    BegunMoves(w, step.id, Committed(step.fate, w.tables, t), AfterReserve(Answer(step.fate, r)));
  }

  /** A call that owns its session goes on, without touching anything. */
  lemma QuietlyMoves(w: World, id: nat, phase: Phase)
    requires Coherent(w.tables, w.databases) && id in w.calls && w.calls[id].phase.Owning?
    requires phase.Returned? || phase == Checked(w.calls[id].phase.provenance, w.calls[id].phase.duplicate)
    requires phase.Returned? && phase.result.Ok? ==> phase.result.value.1 == w.calls[id].phase.duplicate
    requires Honest(w, w.calls[id]) && Honest(w, Call(w.calls[id].input, phase))
    ensures var v := w.To(id, phase); Moves(w, v, id) && Private(w, v, id)
  {
  }

  lemma CheckIsHonest(w: World, input: CreateSession, p: Provenance, duplicate: bool, fate: Fate)
    requires Coherent(w.tables, w.databases) && Bound(w.tables, input, p)
    ensures var phase := AfterCheck(Answer(fate, Reading(w.tables, p.session)), p, duplicate);
            && Honest(w, Call(input, phase)) && (phase.Returned? || phase == Checked(p, duplicate))
            && (phase.Returned? && phase.result.Ok? ==> phase.result.value.1 == duplicate)
  {
    FindsTheCommand(w.tables, w.databases, p);
    assert Settled(w.tables, w.databases, input.operation);
  }

  lemma CheckMoves(w: World, step: Step)
    requires Coherent(w.tables, w.databases) && step.Check? && Enabled(w, step) && Honest(w, w.calls[step.id])
    ensures var v := Next(w, step); Moves(w, v, step.id) && Private(w, v, step.id)
  {
    var Owning(p, duplicate) := w.calls[step.id].phase;
    CheckIsHonest(w, w.calls[step.id].input, p, duplicate, step.fate);
    QuietlyMoves(w, step.id, AfterCheck(Answer(step.fate, Reading(w.tables, p.session)), p, duplicate));
  }

  lemma MaterializingIsFaithful(db: Option<Database>, p: Provenance)
    requires p.createdAt >= 0
    ensures var (r, after) := Materializing(db, p);
            && (r.Ok? ==> Faithful(p, r.value.0, r.value.1) && after == Holding(p, r.value.0, r.value.1))
            && (db.Some? && !db.value.Blank? ==> after == db.value)
  {
  }

  /** A call past its check moves on after leaving at most its own session's file changed. */
  lemma CheckedMoves(w: World, id: nat, left: map<Text, Database>, phase: Phase)
    requires Coherent(w.tables, w.databases) && id in w.calls && w.calls[id].phase.Checked? && Honest(w, w.calls[id])
    requires KeepsFiles(w.databases, left)
    requires forall s :: s != w.calls[id].phase.provenance.session ==>
               w.File(s) == if s in left then Some(left[s]) else None
    requires var Checked(p, duplicate) := w.calls[id].phase;
             || (phase.Returned? && phase.result.Err?)
             || (phase.Broken? && phase.provenance == p && phase.duplicate == duplicate)
             || (phase.Made? && phase.provenance == p && phase.duplicate == duplicate)
    requires Honest(w.(databases := left), Call(w.calls[id].input, phase))
    ensures var v := w.(databases := left).To(id, phase); Moves(w, v, id) && Private(w, v, id)
  {
    FilesAreCoherent(w.tables, w.databases, left);
    assert Touches(w, w.(databases := left).To(id, phase), id, w.calls[id].phase.provenance);
  }

  lemma LeftKeepsFiles(w: World, p: Provenance, touched: bool, fate: Fate)
    requires p.createdAt >= 0
    ensures var left := Left(w, p, touched, fate);
            && KeepsFiles(w.databases, left)
            && forall s :: s != p.session ==> w.File(s) == if s in left then Some(left[s]) else None
  {
    MaterializingIsFaithful(w.File(p.session), p);
  }

  lemma MaterializeIsHonest(w: World, input: CreateSession, p: Provenance, duplicate: bool, touched: bool, fate: Fate)
    requires Reserving?(w.tables, input, p) && Possible(fate) && p.createdAt >= 0
    ensures var phase := AfterMaterialize(Answer(fate, Materializing(w.File(p.session), p).0), p, duplicate);
            Honest(w.(databases := Left(w, p, touched, fate)), Call(input, phase))
  {
    MaterializingIsFaithful(w.File(p.session), p);
  }

  lemma MaterializeMoves(w: World, step: Step)
    requires Coherent(w.tables, w.databases) && step.Materialize? && Enabled(w, step) && Honest(w, w.calls[step.id])
    ensures var v := Next(w, step); Moves(w, v, step.id) && Private(w, v, step.id) && KeepsFiles(w.databases, v.databases)
  {
    var Checked(p, duplicate) := w.calls[step.id].phase;
    assert Settled(w.tables, w.databases, p.operation);
    LeftKeepsFiles(w, p, step.touched, step.fate);
    MaterializeIsHonest(w, w.calls[step.id].input, p, duplicate, step.touched, step.fate);
    CheckedMoves(w, step.id, Left(w, p, step.touched, step.fate),
                 AfterMaterialize(Answer(step.fate, Materializing(w.File(p.session), p).0), p, duplicate));
  }

  /** Failure is recorded with its kind, on the command and on the row. */
  lemma FailingIsCoherent(t: Tables, databases: map<Text, Database>, p: Provenance, kind: Kind)
    requires Coherent(t, databases) && Proven(kind)
    requires p.operation in t.commands && Origin(p.operation, t.commands[p.operation]) == p
    requires t.commands[p.operation].tag.CreatingTag?
    ensures var (r, u) := Failing(t, p, kind);
            && Coherent(u, databases) && Grows(t, u) && OnlyCommand(t, u, p.operation)
            && r == (if t.repairRequired then Err(RepairRequired) else Ok(()))
            && (r.Ok? ==> p.operation in u.commands && u.commands[p.operation].tag.FailedTag?
                          && u.commands[p.operation].failure == Some(kind))
  {
    assert Settled(t, databases, p.operation);
    FindsTheCommand(t, databases, p);
    FailedIsCoherent(t, databases, p, kind);
  }

  /** Completion makes the row ready, showing exactly what the database holds. */
  lemma CompletingIsCoherent(t: Tables, databases: map<Text, Database>, p: Provenance, m: Manifest, version: nat)
    requires Coherent(t, databases)
    requires p.operation in t.commands && Origin(p.operation, t.commands[p.operation]) == p
    requires t.commands[p.operation].tag.CreatingTag?
    requires Faithful(p, m, version) && p.session in databases && databases[p.session] == Holding(p, m, version)
    ensures var (r, u) := Completing(t, p, m, version);
            && Coherent(u, databases) && Grows(t, u) && OnlyCommand(t, u, p.operation)
            && r == (if t.repairRequired then Err(RepairRequired) else Ok(()))
            && (r.Ok? ==> p.operation in u.commands && u.commands[p.operation].tag.AcceptedTag?
                          && p.session in u.sessions && u.sessions[p.session].availability.Ready?
                          && u.sessions[p.session].manifest == m && u.sessions[p.session].version == version)
  {
    assert Settled(t, databases, p.operation);
    FindsTheCommand(t, databases, p);
    CompletedIsCoherent(t, databases, p, m, version);
  }

  /** A transaction on the call's own reservation, ending the call. */
  lemma EndingMoves(w: World, id: nat, u: Tables, result: Result<(Receipt, bool)>)
    requires Coherent(w.tables, w.databases) && id in w.calls && (w.calls[id].phase.Broken? || w.calls[id].phase.Made?)
    requires Honest(w, w.calls[id])
    requires Coherent(u, w.databases) && Grows(w.tables, u) && OnlyCommand(w.tables, u, w.calls[id].input.operation)
    requires result.Err? ==> !result.kind.Conflict?
    requires result.Ok? ==>
               && var p := w.calls[id].phase.provenance;
               && result.value == (p.Receipted(), w.calls[id].phase.duplicate)
               && p.operation in u.commands && u.commands[p.operation].tag.AcceptedTag?
    ensures var v := w.(tables := u).To(id, Returned(result)); Moves(w, v, id) && Private(w, v, id)
  {
    EndingIsHonest(w, id, u, result);
    ReturningMoves(w, id, u, result);
    EndingTouches(w, id, u, result);
  }

  lemma ReturningMoves(w: World, id: nat, u: Tables, result: Result<(Receipt, bool)>)
    requires id in w.calls && (w.calls[id].phase.Broken? || w.calls[id].phase.Made?)
    requires Coherent(u, w.databases) && Grows(w.tables, u) && OnlyCommand(w.tables, u, w.calls[id].input.operation)
    requires Honest(w.(tables := u), Call(w.calls[id].input, Returned(result)))
    requires result.Ok? ==> result.value.1 == w.calls[id].phase.duplicate && w.calls[id].input.operation in u.commands
    ensures Moves(w, w.(tables := u).To(id, Returned(result)), id)
  {
  }

  lemma EndingIsHonest(w: World, id: nat, u: Tables, result: Result<(Receipt, bool)>)
    requires id in w.calls && (w.calls[id].phase.Broken? || w.calls[id].phase.Made?) && Honest(w, w.calls[id])
    requires Grows(w.tables, u) && (result.Err? ==> !result.kind.Conflict?)
    requires result.Ok? ==>
               && var p := w.calls[id].phase.provenance;
               && result.value == (p.Receipted(), w.calls[id].phase.duplicate)
               && p.operation in u.commands && u.commands[p.operation].tag.AcceptedTag?
    ensures Honest(w.(tables := u), Call(w.calls[id].input, Returned(result)))
  {
  }

  lemma EndingTouches(w: World, id: nat, u: Tables, result: Result<(Receipt, bool)>)
    requires id in w.calls && (w.calls[id].phase.Broken? || w.calls[id].phase.Made?) && Honest(w, w.calls[id])
    ensures Private(w, w.(tables := u).To(id, Returned(result)), id)
  {
    assert Touches(w, w.(tables := u).To(id, Returned(result)), id, w.calls[id].phase.provenance);
  }

  lemma CommittedIsCoherent(t: Tables, u: Tables, databases: map<Text, Database>, operation: Text, fate: Fate)
    requires Coherent(t, databases)
    requires Coherent(u, databases) && Grows(t, u) && OnlyCommand(t, u, operation)
    ensures var v := Committed(fate, t, u); Coherent(v, databases) && Grows(t, v) && OnlyCommand(t, v, operation)
  {
  }

  /** A call reports success only if its transaction said so. */
  lemma CompleteReports(fate: Fate, r: Result<()>, p: Provenance, duplicate: bool)
    ensures var phase := AfterComplete(Answer(fate, r), p, duplicate);
            && phase.Returned? && (phase.result.Err? ==> !phase.result.kind.Conflict?)
            && (phase.result.Ok? ==> fate.Delivered? && r.Ok? && phase.result.value == (p.Receipted(), duplicate))
  {
  }

  lemma FailMoves(w: World, step: Step)
    requires Coherent(w.tables, w.databases) && step.Fail? && Enabled(w, step) && Honest(w, w.calls[step.id])
    ensures var v := Next(w, step); Moves(w, v, step.id) && Private(w, v, step.id)
  {
    var Broken(p, _, kind) := w.calls[step.id].phase;
    FailingIsCoherent(w.tables, w.databases, p, kind);
    var (r, u) := Failing(w.tables, p, kind);
    CommittedIsCoherent(w.tables, u, w.databases, p.operation, step.fate);
    var phase := AfterFail(Answer(step.fate, r), kind);
    EndingMoves(w, step.id, Committed(step.fate, w.tables, u), phase.result);
  }

  lemma CompleteMoves(w: World, step: Step)
    requires Coherent(w.tables, w.databases) && step.Complete? && Enabled(w, step) && Honest(w, w.calls[step.id])
    ensures var v := Next(w, step); Moves(w, v, step.id) && Private(w, v, step.id)
  {
    var Made(p, duplicate, m, version) := w.calls[step.id].phase;
    CompletingIsCoherent(w.tables, w.databases, p, m, version);
    var (r, u) := Completing(w.tables, p, m, version);
    CommittedIsCoherent(w.tables, u, w.databases, p.operation, step.fate);
    CompleteReports(step.fate, r, p, duplicate);
    EndingMoves(w, step.id, Committed(step.fate, w.tables, u), AfterComplete(Answer(step.fate, r), p, duplicate).result);
  }

  /** Progress is made only in ready sessions, whose creation is over. */
  lemma InvProgress(w: World, step: Step)
    requires Inv(w) && step.Progress? && Enabled(w, step)
    ensures Inv(Next(w, step)) && Next(w, step).tables == w.tables && KeepsFiles(w.databases, Next(w, step).databases)
  {
    var v := Next(w, step);
    FilesAreCoherent(w.tables, w.databases, v.databases);
    forall other | other in v.calls ensures Honest(v, v.calls[other]) {
      assert Honest(w, w.calls[other]);
      if w.calls[other].phase.Made? {
        assert Settled(w.tables, w.databases, w.calls[other].phase.provenance.operation);
      }
      BystanderIsHonest(w, v, w.calls[other]);
    }
  }

  lemma CallMoves(w: World, step: Step)
    requires Inv(w) && Enabled(w, step) && !step.Begin? && !step.Progress?
    ensures var v := Next(w, step); Moves(w, v, step.id) && Private(w, v, step.id) && KeepsFiles(w.databases, v.databases)
  {
    assert Honest(w, w.calls[step.id]);
    match step
    case Reserve(_, _, _, _, _) => ReserveMoves(w, step);
    case Check(_, _) => CheckMoves(w, step);
    case Materialize(_, _, _) => MaterializeMoves(w, step);
    case Fail(_, _) => FailMoves(w, step);
    case Complete(_, _) => CompleteMoves(w, step);
    case _ => LockOrCrashMoves(w, step);
  }

  lemma LockOrCrashMoves(w: World, step: Step)
    requires Inv(w) && Enabled(w, step) && (step.Lock? || step.Crash?)
    ensures var v := Next(w, step); Moves(w, v, step.id) && Private(w, v, step.id) && v.databases == w.databases
  {
    assert Honest(w, w.calls[step.id]);
  }

  lemma InvBegin(w: World, step: Step)
    requires Inv(w) && step.Begin? && Enabled(w, step)
    ensures Inv(Next(w, step))
  {
    var v := Next(w, step);
    forall other | other in v.calls ensures Honest(v, v.calls[other]) {
      if other != step.id { assert Honest(w, w.calls[other]); }
    }
  }

  lemma InvNext(w: World, step: Step)
    requires Inv(w) && Enabled(w, step)
    ensures var v := Next(w, step); Inv(v) && Grows(w.tables, v.tables) && KeepsFiles(w.databases, v.databases)
  {
    match step
    case Begin(_, _) => InvBegin(w, step);
    case Progress(_, _, _) => InvProgress(w, step);
    case _ =>
      CallMoves(w, step);
      MoveKeepsInv(w, Next(w, step), step.id);
  }

  // ---- whole runs

  lemma GrowsOn(t: Tables, u: Tables, v: Tables)
    requires Grows(t, u) && Grows(u, v)
    ensures Grows(t, v)
  {
  }

  lemma KeepsFilesOn(a: map<Text, Database>, b: map<Text, Database>, c: map<Text, Database>)
    requires KeepsFiles(a, b) && KeepsFiles(b, c)
    ensures KeepsFiles(a, c)
  {
  }

  ghost predicate Runs(worlds: seq<World>, steps: seq<Step>) {
    && |worlds| == |steps| + 1 && Inv(worlds[0])
    && forall i {:trigger steps[i]} :: 0 <= i < |steps| ==> Enabled(worlds[i], steps[i]) && worlds[i + 1] == Next(worlds[i], steps[i])
  }

  /** An empty catalog is a lawful start, whatever files lie around. */
  lemma EmptyCatalogStarts(databases: map<Text, Database>)
    ensures Inv(World(Tables(map[], map[], false), databases, map[]))
  {
  }

  lemma {:induction false} InvAlways(worlds: seq<World>, steps: seq<Step>, i: nat)
    requires Runs(worlds, steps) && i < |worlds|
    ensures Inv(worlds[i])
  {
    if i > 0 {
      InvAlways(worlds, steps, i - 1);
      InvNext(worlds[i - 1], steps[i - 1]);
    }
  }

  lemma StepKeeps(worlds: seq<World>, steps: seq<Step>, i: nat)
    requires Runs(worlds, steps) && i < |steps|
    ensures Grows(worlds[i].tables, worlds[i + 1].tables) && KeepsFiles(worlds[i].databases, worlds[i + 1].databases)
  {
    InvAlways(worlds, steps, i);
    InvNext(worlds[i], steps[i]);
  }

  /** An operation keeps its session and provenance forever, and leaves `creating` at most once. */
  lemma {:induction false} OperationIsBoundForever(worlds: seq<World>, steps: seq<Step>, i: nat, j: nat)
    requires Runs(worlds, steps) && i <= j < |worlds|
    ensures Grows(worlds[i].tables, worlds[j].tables)
    decreases j
  {
    if i < j {
      var k := j - 1;
      OperationIsBoundForever(worlds, steps, i, k);
      StepKeeps(worlds, steps, k);
      GrowsOn(worlds[i].tables, worlds[k].tables, worlds[k + 1].tables);
    }
  }

  /** A session database is never replaced or rolled back, whoever wrote it. */
  lemma {:induction false} DatabaseIsKeptForever(worlds: seq<World>, steps: seq<Step>, i: nat, j: nat)
    requires Runs(worlds, steps) && i <= j < |worlds|
    ensures KeepsFiles(worlds[i].databases, worlds[j].databases)
    decreases j
  {
    if i < j {
      var k := j - 1;
      DatabaseIsKeptForever(worlds, steps, i, k);
      StepKeeps(worlds, steps, k);
      KeepsFilesOn(worlds[i].databases, worlds[k].databases, worlds[k + 1].databases);
    }
  }

  lemma {:induction false} AnswersAreFinal(worlds: seq<World>, steps: seq<Step>, i: nat, j: nat, id: nat)
    requires Runs(worlds, steps) && i <= j < |worlds| && id in worlds[i].calls && worlds[i].calls[id].phase.Returned?
    ensures id in worlds[j].calls && worlds[j].calls[id] == worlds[i].calls[id]
    decreases j
  {
    if i < j {
      AnswersAreFinal(worlds, steps, i, j - 1, id);
      assert worlds[j] == Next(worlds[j - 1], steps[j - 1]);
    }
  }

  ghost predicate Succeeded(w: World, id: nat, operation: Text) {
    id in w.calls && w.calls[id].input.operation == operation && w.calls[id].phase.Returned? && w.calls[id].phase.result.Ok?
  }

  /** Two successes of one operation, at any two moments, carry one receipt and one request,
      and if neither is marked duplicate they are the same call. */
  lemma SuccessesAgree(worlds: seq<World>, steps: seq<Step>, i: nat, j: nat, a: nat, b: nat, operation: Text)
    requires Runs(worlds, steps) && i <= j < |worlds|
    requires Succeeded(worlds[i], a, operation) && Succeeded(worlds[j], b, operation)
    ensures var x, y := worlds[i].calls[a], worlds[j].calls[b];
            && x.phase.result.value.0 == y.phase.result.value.0
            && x.input == y.input
            && (!x.phase.result.value.1 && !y.phase.result.value.1 ==> a == b)
  {
    InvAlways(worlds, steps, j);
    AnswersAreFinal(worlds, steps, i, j, a);
    assert Honest(worlds[j], worlds[j].calls[a]) && Honest(worlds[j], worlds[j].calls[b]);
  }

  /** A ready session has one command, accepted, whose provenance its database holds. */
  lemma ReadyIsMaterialized(worlds: seq<World>, steps: seq<Step>, i: nat, session: Text) returns (operation: Text)
    requires Runs(worlds, steps) && i < |worlds|
    requires session in worlds[i].tables.sessions && worlds[i].tables.sessions[session].availability.Ready?
    ensures var t := worlds[i].tables;
            && Names(t, operation, session) && (forall o :: Names(t, o, session) ==> o == operation)
            && t.commands[operation].tag.AcceptedTag?
            && worlds[i].File(session).Some? && worlds[i].File(session).value.Holding?
            && worlds[i].File(session).value.provenance == Origin(operation, t.commands[operation])
  {
    InvAlways(worlds, steps, i);
    assert Named(worlds[i].tables, session);
    operation :| Names(worlds[i].tables, operation, session);
    assert Settled(worlds[i].tables, worlds[i].databases, operation);
  }

  /** A repeated operation answers `conflict` exactly for another request, or when its creation failed with that code. */
  lemma ConflictExactly(worlds: seq<World>, steps: seq<Step>, i: nat)
    requires Runs(worlds, steps) && i < |steps| && steps[i].Reserve? && steps[i].fate.Delivered?
    requires !worlds[i].tables.repairRequired
    ensures var call, t := worlds[i].calls[steps[i].id], worlds[i].tables;
            worlds[i + 1].calls[steps[i].id].phase == Returned(Err(Conflict)) <==>
            && call.input.operation in t.commands
            && var c := t.commands[call.input.operation];
            (c.request != call.input.request || (c.tag.FailedTag? && c.failure == Some(Conflict)))
  {
    InvAlways(worlds, steps, i);
    var w := worlds[i];
    var input := w.calls[steps[i].id].input;
    if input.operation in w.tables.commands { RepeatIsHonest(w.tables, w.databases, input); }
  }

  // ---- a retry settles what a crash left behind

  lemma RunsOn(worlds: seq<World>, steps: seq<Step>, step: Step)
    requires Runs(worlds, steps) && Enabled(worlds[|steps|], step)
    ensures Runs(worlds + [Next(worlds[|steps|], step)], steps + [step])
    ensures Inv(worlds[|steps|]) && Inv(Next(worlds[|steps|], step))
  {
    RunsAppend(worlds, steps, step, Next(worlds[|steps|], step));
    InvAlways(worlds, steps, |steps|);
    InvNext(worlds[|steps|], step);
  }

  lemma RunsAppend(worlds: seq<World>, steps: seq<Step>, step: Step, w: World)
    requires Runs(worlds, steps) && Enabled(worlds[|steps|], step) && w == Next(worlds[|steps|], step)
    ensures Runs(worlds + [w], steps + [step])
  {
    var worlds', steps' := worlds + [w], steps + [step];
    forall i | 0 <= i < |steps'| ensures Enabled(worlds'[i], steps'[i]) && worlds'[i + 1] == Next(worlds'[i], steps'[i]) {
      if i < |steps| { assert steps'[i] == steps[i]; }
    }
  }

  /** The answer of an undisturbed retry, read off the world before it. */
  function Outcome(w: World, operation: Text): Result<(Receipt, bool)>
    requires operation in w.tables.commands
  {
    var c := w.tables.commands[operation];
    var p := Origin(operation, c);
    match c.tag
    case AcceptedTag => Ok((p.Receipted(), true))
    case FailedTag => if c.failure.Some? then Err(c.failure.value) else Err(Corrupt)
    case CreatingTag =>
      match Materializing(w.File(c.session), p).0
      case Ok(_) => Ok((p.Receipted(), true))
      case Err(kind) => Err(if Proven(kind) then kind else Unfinished(kind))
  }

  lemma RepeatAnswers(t: Tables, databases: map<Text, Database>, input: CreateSession)
    requires Coherent(t, databases) && input.operation in t.commands
    requires t.commands[input.operation].request == input.request
    ensures var c := t.commands[input.operation];
            match c.tag
            case AcceptedTag => Repeat(t, input) == Ok(Reservation(Origin(input.operation, c), Accepted))
            case CreatingTag => Repeat(t, input) == Ok(Reservation(Origin(input.operation, c), Creating))
            case FailedTag => c.failure.Some? && Repeat(t, input) == Err(c.failure.value)
  {
    var c := t.commands[input.operation];
    assert Settled(t, databases, input.operation);
    FindsTheCommand(t, databases, Origin(input.operation, c));
  }

  /** Every answer of the reserving transaction. */
  lemma ReservingAnswers(t: Tables, databases: map<Text, Database>, input: CreateSession, p: Provenance)
    requires Coherent(t, databases) && p.operation == input.operation && p.request == input.request && p.createdAt >= 0
    ensures var (r, u) := Reserving(t, p);
            && Coherent(u, databases) && Grows(t, u)
            && if t.repairRequired then r == Err(RepairRequired) && u == t
               else if p.operation !in t.commands then
                 if Free(t, p.session) then r == Ok((Reservation(p, Creating), false)) && u == Reserved(t, p)
                 else r == Err(Io) && u == t
               else
                 var c := t.commands[p.operation];
                 && u == t
                 && if c.request != p.request then r == Err(Conflict)
                    else
                      match c.tag
                      case AcceptedTag => r == Ok((Reservation(Origin(p.operation, c), Accepted), true))
                      case CreatingTag => r == Ok((Reservation(Origin(p.operation, c), Creating), true))
                      case FailedTag => c.failure.Some? && r == Err(c.failure.value)
  {
    ReservingIsCoherent(t, databases, p);
    if p.operation in t.commands && t.commands[p.operation].request == p.request {
      RepeatAnswers(t, databases, input);
    }
  }

  lemma RetryReserves(w: World, id: nat) returns (step: Step)
    requires Inv(w) && !w.tables.repairRequired && id in w.calls && w.calls[id].phase.Begun?
    requires var input := w.calls[id].input;
             input.operation in w.tables.commands && w.tables.commands[input.operation].request == input.request
    ensures Enabled(w, step)
    ensures var o := w.calls[id].input.operation;
            Next(w, step) ==
            w.To(id, if w.tables.commands[o].tag.CreatingTag? then Waiting(Origin(o, w.tables.commands[o]), true)
                     else Returned(Outcome(w, o)))
  {
    step := Reserve(id, [], [], 0, Delivered);
    RepeatAnswers(w.tables, w.databases, w.calls[id].input);
  }

  lemma RetryChecks(w: World, id: nat)
    requires Inv(w) && !w.tables.repairRequired && id in w.calls && w.calls[id].phase.Owning?
    requires w.tables.commands[w.calls[id].input.operation].tag.CreatingTag?
    ensures Next(w, Check(id, Delivered)) == w.To(id, Checked(w.calls[id].phase.provenance, w.calls[id].phase.duplicate))
  {
    assert Honest(w, w.calls[id]);
    FindsTheCommand(w.tables, w.databases, w.calls[id].phase.provenance);
  }

  lemma RetryEnds(w: World, id: nat) returns (step: Step)
    requires Inv(w) && !w.tables.repairRequired && id in w.calls && (w.calls[id].phase.Made? || w.calls[id].phase.Broken?)
    ensures Enabled(w, step)
    ensures Next(w, step).calls == w.To(id, Returned(
              if w.calls[id].phase.Made? then Ok((w.calls[id].phase.provenance.Receipted(), w.calls[id].phase.duplicate))
              else Err(w.calls[id].phase.kind))).calls
  {
    assert Honest(w, w.calls[id]);
    var p := w.calls[id].phase.provenance;
    if w.calls[id].phase.Made? {
      step := Complete(id, Delivered);
      CompletingIsCoherent(w.tables, w.databases, p, w.calls[id].phase.manifest, w.calls[id].phase.version);
    } else {
      step := Fail(id, Delivered);
      FailingIsCoherent(w.tables, w.databases, p, w.calls[id].phase.kind);
    }
  }

  /** From every reachable world, whatever crashed before, a retry of the same request that runs undisturbed answers. */
  lemma RetrySettles(w: World, id: nat, input: CreateSession) returns (worlds: seq<World>, steps: seq<Step>)
    requires Inv(w) && !w.tables.repairRequired && id !in w.calls
    requires input.operation in w.tables.commands && w.tables.commands[input.operation].request == input.request
    requires Unlocked(w, w.tables.commands[input.operation].session)
    ensures Runs(worlds, steps) && worlds[0] == w
    ensures id in worlds[|steps|].calls && worlds[|steps|].calls[id] == Call(input, Returned(Outcome(w, input.operation)))
  {
    worlds, steps := RetryStarts(w, id, input);
    var x := worlds[|steps|];
    if x.calls[id].phase.Checked? {
      InvAlways(worlds, steps, |steps|);
      var materialize := Materialize(id, false, Delivered);
      RunsOn(worlds, steps, materialize);
      worlds, steps := worlds + [Next(x, materialize)], steps + [materialize];
      var y := worlds[|steps|];
      if !y.calls[id].phase.Returned? {
        var last := RetryEnds(y, id);
        RunsOn(worlds, steps, last);
        worlds, steps := worlds + [Next(y, last)], steps + [last];
      }
    }
  }

  lemma RetryStarts(w: World, id: nat, input: CreateSession) returns (worlds: seq<World>, steps: seq<Step>)
    requires Inv(w) && !w.tables.repairRequired && id !in w.calls
    requires input.operation in w.tables.commands && w.tables.commands[input.operation].request == input.request
    requires Unlocked(w, w.tables.commands[input.operation].session)
    ensures Runs(worlds, steps) && worlds[0] == w
    ensures var o, v := input.operation, worlds[|steps|];
            && v.tables == w.tables && v.databases == w.databases && id in v.calls
            && v.calls[id] == Call(input,
              if w.tables.commands[o].tag.CreatingTag? then Checked(Origin(o, w.tables.commands[o]), true)
              else Returned(Outcome(w, o)))
  {
    worlds, steps := RetryBegins(w, id, input);
    worlds, steps := RetryRepeats(worlds, steps, id);
    if w.tables.commands[input.operation].tag.CreatingTag? {
      WaitingLocksNothing(w, worlds[|steps|], id);
      worlds, steps := RetryOwns(worlds, steps, id);
    }
  }

  lemma WaitingLocksNothing(w: World, x: World, id: nat)
    requires id in x.calls && x.calls[id].phase.Waiting? && x.calls == w.calls[id := x.calls[id]]
    ensures forall session :: Unlocked(w, session) ==> Unlocked(x, session)
  {
  }

  lemma RetryRepeats(before: seq<World>, first: seq<Step>, id: nat) returns (worlds: seq<World>, steps: seq<Step>)
    requires Runs(before, first)
    requires var w := before[|first|];
             && !w.tables.repairRequired && id in w.calls && w.calls[id].phase.Begun?
             && var input := w.calls[id].input;
             input.operation in w.tables.commands && w.tables.commands[input.operation].request == input.request
    ensures Runs(worlds, steps) && worlds[0] == before[0]
    ensures var w := before[|first|];
            var o := w.calls[id].input.operation;
            worlds[|steps|] ==
            w.To(id, if w.tables.commands[o].tag.CreatingTag? then Waiting(Origin(o, w.tables.commands[o]), true)
                     else Returned(Outcome(w, o)))
  {
    var w := before[|first|];
    InvAlways(before, first, |first|);
    var reserve := RetryReserves(w, id);
    RunsOn(before, first, reserve);
    worlds, steps := before + [Next(w, reserve)], first + [reserve];
  }

  lemma RetryBegins(w: World, id: nat, input: CreateSession) returns (worlds: seq<World>, steps: seq<Step>)
    requires Inv(w) && id !in w.calls
    ensures Runs(worlds, steps) && worlds[0] == w
    ensures worlds[|steps|] == w.(calls := w.calls[id := Call(input, Begun)])
  {
    InvBegin(w, Begin(id, input));
    worlds, steps := [w, w.(calls := w.calls[id := Call(input, Begun)])], [Begin(id, input)];
  }

  lemma RetryOwns(before: seq<World>, first: seq<Step>, id: nat) returns (worlds: seq<World>, steps: seq<Step>)
    requires Runs(before, first)
    requires var w := before[|first|];
             && !w.tables.repairRequired && id in w.calls && w.calls[id].phase.Waiting?
             && Unlocked(w, w.calls[id].phase.provenance.session)
             && w.calls[id].input.operation in w.tables.commands
             && w.tables.commands[w.calls[id].input.operation].tag.CreatingTag?
    ensures Runs(worlds, steps) && worlds[0] == before[0]
    ensures var w := before[|first|];
            worlds[|steps|] == w.To(id, Checked(w.calls[id].phase.provenance, w.calls[id].phase.duplicate))
  {
    var w := before[|first|];
    InvAlways(before, first, |first|);
    RunsOn(before, first, Lock(id));
    worlds, steps := before + [Next(w, Lock(id))], first + [Lock(id)];
    var x := worlds[|steps|];
    var check := Check(id, Delivered);
    RunsOn(worlds, steps, check);
    RetryChecks(x, id);
    worlds, steps := worlds + [Next(x, check)], steps + [check];
  }

  /** The two stores as one object, and a call that no other call disturbs. */
  class Store {
    const catalog: CatalogStore
    var databases: map<Text, Database>

    constructor ()
      ensures fresh(catalog) && Coherent(catalog.View(), databases)
    {
      catalog := new CatalogStore();
      databases := map[];
    }

    function File(session: Text): Option<Database> reads this {
      if session in databases then Some(databases[session]) else None
    }

    /** What a call answers that makes, or finds, the reservation of `p`. */
    static function Finished(file: Option<Database>, p: Provenance, duplicate: bool): Result<(Receipt, bool)> {
      match Materializing(file, p).0
      case Ok(_) => Ok((p.Receipted(), duplicate))
      case Err(kind) => Err(if Proven(kind) then kind else Unfinished(kind))
    }

    method Create(input: CreateSession, session: Text, event: Text, now: nat) returns (r: Result<(Receipt, bool)>)
      requires Coherent(catalog.View(), databases)
      modifies this`databases, catalog
      ensures Coherent(catalog.View(), databases) && Grows(old(catalog.View()), catalog.View())
      ensures KeepsFiles(old(databases), databases)
      ensures r.Ok? ==>
                && input.operation in catalog.commands && catalog.commands[input.operation].tag.AcceptedTag?
                && catalog.commands[input.operation].request == input.request
                && r.value.0 == Receipt(input.operation, catalog.commands[input.operation].session)
                && (!r.value.1 ==> input.operation !in old(catalog.commands) && r.value.0.session == session)
      ensures var t := old(catalog.View());
              if t.repairRequired then r == Err(RepairRequired)
              else if input.operation in t.commands then
                if t.commands[input.operation].request != input.request then r == Err(Conflict)
                else r == Outcome(World(t, old(databases), map[]), input.operation)
              else if !Free(t, session) then r == Err(Io)
              else r == Finished(old(File(session)), Provenance(input.operation, session, input.request, event, now), false)
    {
      ReservingAnswers(catalog.View(), databases, input, Provenance(input.operation, session, input.request, event, now));
      var reserved := catalog.Reserve(input, session, event, now);
      if reserved.Err? { return Err(reserved.kind); }
      var (reservation, duplicate) := reserved.value;
      var p := reservation.provenance;
      if reservation.state.Accepted? { return Ok((p.Receipted(), true)); }
      r := Materialized(p, duplicate);
    }

    /** The rest of a call, under the session lock. */
    method Materialized(p: Provenance, duplicate: bool) returns (r: Result<(Receipt, bool)>)
      requires Coherent(catalog.View(), databases) && !catalog.repairRequired
      requires p.operation in catalog.commands && Origin(p.operation, catalog.commands[p.operation]) == p
      requires catalog.commands[p.operation].tag.CreatingTag?
      modifies this`databases, catalog
      ensures Coherent(catalog.View(), databases) && Grows(old(catalog.View()), catalog.View())
      ensures KeepsFiles(old(databases), databases)
      ensures r == Finished(old(File(p.session)), p, duplicate)
      ensures r.Ok? ==> p.operation in catalog.commands && catalog.commands[p.operation].tag.AcceptedTag?
    {
      assert Settled(catalog.View(), databases, p.operation);
      FindsTheCommand(catalog.View(), databases, p);
      var entry := EntryRows(catalog.View(), p.session);
      match entry {
        case Err(kind) => return Err(Unfinished(kind));
        case Ok(Entry(_, reservation)) =>
          if reservation.provenance != p { return Err(Unfinished(Corrupt)); }
          match reservation.state {
            case Accepted => return Ok((p.Receipted(), duplicate));
            case Failed(kind) => return Err(kind);
            case Creating =>
          }
      }
      MaterializingIsFaithful(File(p.session), p);
      var (made, db) := Materializing(File(p.session), p);
      ghost var before := databases;
      databases := databases[p.session := db];
      FilesAreCoherent(catalog.View(), before, databases);
      if made.Err? {
        if !Proven(made.kind) { return Err(Unfinished(made.kind)); }
        FailingIsCoherent(catalog.View(), databases, p, made.kind);
        var failed := catalog.Fail(p, made.kind);
        match failed {
          case Err(kind) => return Err(Unfinished(kind));
          case Ok(_) => return Err(made.kind);
        }
      }
      CompletingIsCoherent(catalog.View(), databases, p, made.value.0, made.value.1);
      var completed := catalog.Complete(p, made.value.0, made.value.1);
      match completed {
        case Err(kind) => return Err(Unfinished(kind));
        case Ok(_) => return Ok((p.Receipted(), duplicate));
      }
    }
  }
}
