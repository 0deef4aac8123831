/** The catalog database: its two tables as maps, its row decoding, and its creation transactions.
    Hashes and canonical JSON are injective here, so a request stands for its stored encoding. */
module Catalog {
  import opened Wire

  datatype Kind =
    | Busy | Io | CommitUnknown | CreationIncomplete | RepairRequired
    | NotFound | NotAvailable | UnsupportedVersion | Corrupt | Conflict | InvalidInput

  datatype Result<+T> = Ok(value: T) | Err(kind: Kind)

  datatype Request = Request(title: Text, workspace: Option<Text>)
  datatype CreateSession = CreateSession(operation: Text, request: Request)

  /** The receipt of a creation is determined by its operation and session. */
  datatype Receipt = Receipt(operation: Text, session: Text)

  datatype Provenance = Provenance(operation: Text, session: Text, request: Request, event: Text, createdAt: int) {
    function Receipted(): Receipt { Receipt(operation, session) }
  }

  datatype State = Creating | Accepted | Failed(kind: Kind)

  datatype Tag = CreatingTag | AcceptedTag | FailedTag
  datatype Command = Command(
    request: Request, session: Text, event: Text, createdAt: int, tag: Tag, receipt: Option<Receipt>, failure: Option<Kind>)

  datatype Availability = Pending | Ready | Missing | Unavailable
  datatype RunState = RunAccepted | RunRunning | RunCompleted | RunFailed | RunCancelled | RunInterrupted

  datatype Manifest = Manifest(title: Text, workspace: Option<Text>, createdAt: int, updatedAt: int, head: nat)

  /** A sessions row. `seen` is the last repair scan that validated or rejected it. */
  datatype Row = Row(
    manifest: Manifest, version: nat, availability: Availability, fault: Option<Kind>,
    lastRun: Option<(Text, RunState)>, seen: Option<Text>)

  datatype Tables = Tables(commands: map<Text, Command>, sessions: map<Text, Row>, repairRequired: bool)

  datatype Reservation = Reservation(provenance: Provenance, state: State)
  datatype Entry = Entry(row: Row, reservation: Reservation)

  /** The faults a failed creation may carry. */
  predicate Static(kind: Kind) {
    kind.Corrupt? || kind.NotAvailable? || kind.UnsupportedVersion? || kind.Conflict?
  }

  /** `reservation`: decode a command row, refusing any combination of columns no writer leaves behind. */
  function Decode(operation: Text, c: Command): Option<Reservation> {
    var p := Provenance(operation, c.session, c.request, c.event, c.createdAt);
    if c.createdAt < 0 then None
    else
      match c.tag
      case CreatingTag => if c.receipt.None? && c.failure.None? then Some(Reservation(p, Creating)) else None
      case AcceptedTag => if c.failure.None? && c.receipt == Some(p.Receipted()) then Some(Reservation(p, Accepted)) else None
      case FailedTag =>
        if c.receipt.None? && c.failure.Some? && Static(c.failure.value)
        then Some(Reservation(p, Failed(c.failure.value))) else None
  }

  /** `summary`: the range and consistency checks on a sessions row. */
  predicate Readable(row: Row) {
    && row.version >= 1 && row.manifest.createdAt >= 0 && row.manifest.updatedAt >= 0
    && (row.availability.Ready? ==> row.manifest.head > 0 && 1 <= row.version <= 3)
    && (row.availability.Ready? || row.availability.Pending? ==> row.fault.None?)
  }

  /** The command row that names a session; the column is unique. */
  ghost predicate Names(t: Tables, operation: Text, session: Text) {
    operation in t.commands && t.commands[operation].session == session
  }

  ghost predicate UniqueSessions(t: Tables) {
    forall o1, o2 :: o1 in t.commands && o2 in t.commands && t.commands[o1].session == t.commands[o2].session ==> o1 == o2
  }

  function CommandOf(t: Tables, session: Text): (r: Option<Text>)
    requires UniqueSessions(t)
    ensures r.Some? ==> Names(t, r.value, session)
    ensures r.None? ==> forall o :: o in t.commands ==> t.commands[o].session != session
  {
    if o :| o in t.commands && t.commands[o].session == session then Some(o) else None
  }

  /** A row as `reserve` leaves it: nothing has been observed of the session yet. */
  predicate Pristine(row: Row, p: Provenance) {
    && row.manifest == Manifest(p.request.title, p.request.workspace, p.createdAt, p.createdAt, 0)
    && row.version == 1 && row.lastRun.None?
  }

  predicate Consistent(row: Row, r: Reservation) {
    && row.manifest.createdAt == r.provenance.createdAt && row.manifest.workspace == r.provenance.request.workspace
    && (row.availability.Ready? ==> r.state.Accepted?)
    && (row.availability.Pending? ==> r.state.Creating? && Pristine(row, r.provenance))
  }

  /** `entry_rows`: a session together with its reservation. */
  function EntryRows(t: Tables, session: Text): (r: Result<Entry>)
    requires UniqueSessions(t)
    ensures r.Ok? ==> r.value.reservation.provenance.session == session
  {
    if session !in t.sessions then Err(NotFound)
    else
      var row := t.sessions[session];
      if !Readable(row) then Err(Corrupt)
      else if row.availability.Missing? then Err(NotFound)
      else if row.availability.Unavailable? && row.fault.None? then Err(NotAvailable)
      else
        match CommandOf(t, session)
        case None => if row.availability.Unavailable? then Err(NotAvailable) else Err(Corrupt)
        case Some(o) =>
          match Decode(o, t.commands[o])
          case None => Err(Corrupt)
          case Some(r) => if Consistent(row, r) then Ok(Entry(row, r)) else Err(Corrupt)
  }

  /** The entry exists exactly if the row may be shown and the one command that names it decodes and fits. */
  lemma EntryRowsExactly(t: Tables, session: Text, o: Text)
    requires UniqueSessions(t) && session in t.sessions && Names(t, o, session)
    ensures var row, reservation := t.sessions[session], Decode(o, t.commands[o]);
            && (EntryRows(t, session).Ok? <==>
                  && Readable(row) && !row.availability.Missing? && (row.availability.Unavailable? ==> row.fault.Some?)
                  && reservation.Some? && Consistent(row, reservation.value))
            && (EntryRows(t, session).Ok? ==>
                  EntryRows(t, session).value == Entry(row, reservation.value) && reservation.value.provenance.session == session)
  {
    assert CommandOf(t, session) == Some(o);
  }

  /** A session that no command names has no entry. */
  lemma UnnamedHasNoEntry(t: Tables, session: Text)
    requires UniqueSessions(t) && forall o :: !Names(t, o, session)
    ensures EntryRows(t, session).Err?
  {
  }

  /** `reserve` on an existing command: idempotent for the same request, a conflict for another. */
  function Repeat(t: Tables, input: CreateSession): Result<Reservation>
    requires UniqueSessions(t) && input.operation in t.commands
  {
    match Decode(input.operation, t.commands[input.operation])
    case None => Err(Corrupt)
    case Some(reserved) =>
      if reserved.provenance.request != input.request then Err(Conflict)
      else if reserved.state.Accepted? then Ok(reserved)
      else
        match EntryRows(t, reserved.provenance.session)
        case Err(kind) => Err(kind)
        case Ok(entry) =>
          if entry.reservation.state.Failed? then Err(entry.reservation.state.kind)
          else if entry.row.availability.Missing? || entry.row.availability.Unavailable? then Err(NotAvailable)
          else Ok(reserved)
  }

  /** The insert of a new reservation fails if its session id is taken. */
  predicate Free(t: Tables, session: Text) {
    session !in t.sessions && forall o :: o in t.commands ==> t.commands[o].session != session
  }

  function Reserved(t: Tables, p: Provenance): Tables {
    t.(commands := t.commands[p.operation := Command(p.request, p.session, p.event, p.createdAt, CreatingTag, None, None)],
       sessions := t.sessions[p.session :=
         Row(Manifest(p.request.title, p.request.workspace, p.createdAt, p.createdAt, 0), 1, Pending, None, None, None)])
  }

  /** The reservation transaction: its result and the tables it leaves. `p` is the provenance a new reservation gets;
      the flag says whether the operation was already reserved. */
  function Reserving(t: Tables, p: Provenance): (Result<(Reservation, bool)>, Tables)
    requires UniqueSessions(t)
  {
    if t.repairRequired then (Err(RepairRequired), t)
    else if p.operation in t.commands then
      (match Repeat(t, CreateSession(p.operation, p.request))
       case Ok(reserved) => Ok((reserved, true))
       case Err(kind) => Err(kind), t)
    else if !Free(t, p.session) then (Err(Io), t)
    else (Ok((Reservation(p, Creating), false)), Reserved(t, p))
  }

  function Completed(t: Tables, p: Provenance, m: Manifest, version: nat): Tables
    requires p.session in t.sessions && p.operation in t.commands
  {
    var row := t.sessions[p.session];
    t.(sessions := t.sessions[p.session :=
         row.(manifest := row.manifest.(title := m.title, updatedAt := m.updatedAt, head := m.head),
              version := version, availability := Ready, fault := None)],
       commands := t.commands[p.operation := t.commands[p.operation].(tag := AcceptedTag, receipt := Some(p.Receipted()))])
  }

  function Completing(t: Tables, p: Provenance, m: Manifest, version: nat): (Result<()>, Tables)
    requires UniqueSessions(t)
  {
    if t.repairRequired then (Err(RepairRequired), t)
    else
      match EntryRows(t, p.session)
      case Err(kind) => (Err(kind), t)
      case Ok(entry) =>
        if entry.reservation.provenance != p then (Err(Corrupt), t)
        else if entry.reservation.state.Accepted? then (Ok(()), t)
        else if !entry.reservation.state.Creating? || !entry.row.availability.Pending? then (Err(Corrupt), t)
        else (Ok(()), Completed(t, p, m, version))
  }

  function FailedWith(t: Tables, p: Provenance, kind: Kind): Tables
    requires p.session in t.sessions && p.operation in t.commands
  {
    t.(commands := t.commands[p.operation := t.commands[p.operation].(tag := FailedTag, failure := Some(kind))],
       sessions := t.sessions[p.session := t.sessions[p.session].(availability := Unavailable, fault := Some(kind))])
  }

  function Failing(t: Tables, p: Provenance, kind: Kind): (Result<()>, Tables)
    requires UniqueSessions(t)
  {
    if t.repairRequired then (Err(RepairRequired), t)
    else
      match EntryRows(t, p.session)
      case Err(kind') => (Err(kind'), t)
      case Ok(entry) =>
        if entry.reservation.provenance != p || !entry.reservation.state.Creating? then (Err(Corrupt), t)
        else (Ok(()), FailedWith(t, p, kind))
  }

  /** The catalog transactions, each atomic, on the tables they mutate. */
  class CatalogStore {
    var commands: map<Text, Command>
    var sessions: map<Text, Row>
    var repairRequired: bool

    function View(): Tables reads this { Tables(commands, sessions, repairRequired) }

    constructor ()
      ensures View() == Tables(map[], map[], false)
    {
      commands, sessions, repairRequired := map[], map[], false;
    }

    /** The fresh session id, event id and time come from the world. */
    method Reserve(input: CreateSession, session: Text, event: Text, now: int)
      returns (r: Result<(Reservation, bool)>)
      requires UniqueSessions(View())
      modifies this
      ensures UniqueSessions(View())
      ensures (r, View()) ==
              Reserving(old(View()), Provenance(input.operation, session, input.request, event, now))
    {
      if repairRequired { return Err(RepairRequired); }
      if input.operation in commands {
        match Repeat(View(), input) {
          case Ok(reserved) => return Ok((reserved, true));
          case Err(kind) => return Err(kind);
        }
      }
      if !Free(View(), session) { return Err(Io); }
      var p := Provenance(input.operation, session, input.request, event, now);
      commands := commands[p.operation := Command(p.request, p.session, p.event, p.createdAt, CreatingTag, None, None)];
      sessions := sessions[p.session :=
        Row(Manifest(p.request.title, p.request.workspace, p.createdAt, p.createdAt, 0), 1, Pending, None, None, None)];
      return Ok((Reservation(p, Creating), false));
    }

    method Complete(p: Provenance, m: Manifest, version: nat) returns (r: Result<()>)
      requires UniqueSessions(View())
      modifies this
      ensures UniqueSessions(View())
      ensures (r, View()) == Completing(old(View()), p, m, version)
    {
      if repairRequired { return Err(RepairRequired); }
      match EntryRows(View(), p.session) {
        case Err(kind) => return Err(kind);
        case Ok(entry) =>
          if entry.reservation.provenance != p { return Err(Corrupt); }
          if entry.reservation.state.Accepted? { return Ok(()); }
          if !entry.reservation.state.Creating? || !entry.row.availability.Pending? { return Err(Corrupt); }
      }
      var row := sessions[p.session];
      sessions := sessions[p.session :=
        row.(manifest := row.manifest.(title := m.title, updatedAt := m.updatedAt, head := m.head),
             version := version, availability := Ready, fault := None)];
      commands := commands[p.operation := commands[p.operation].(tag := AcceptedTag, receipt := Some(p.Receipted()))];
      return Ok(());
    }

    method Fail(p: Provenance, kind: Kind) returns (r: Result<()>)
      requires UniqueSessions(View())
      modifies this
      ensures UniqueSessions(View())
      ensures (r, View()) == Failing(old(View()), p, kind)
    {
      if repairRequired { return Err(RepairRequired); }
      match EntryRows(View(), p.session) {
        case Err(kind') => return Err(kind');
        case Ok(entry) =>
          if entry.reservation.provenance != p || !entry.reservation.state.Creating? { return Err(Corrupt); }
      }
      commands := commands[p.operation := commands[p.operation].(tag := FailedTag, failure := Some(kind))];
      sessions := sessions[p.session := sessions[p.session].(availability := Unavailable, fault := Some(kind))];
      return Ok(());
    }
  }
}
