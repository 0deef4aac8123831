/** Rebuilding the catalog from the session files: an interruptible directory scan followed by one closing transaction. */
module Repair {
  import opened Wire
  import opened Catalog

  /** What inspecting one session database yields. */
  datatype Evidence = Evidence(manifest: Manifest, version: nat, lastRun: Option<(Text, RunState)>, provenance: Provenance)

  /** The session files as a scan would see them: valid databases, bad ones, and bucket directories it must not enter. */
  datatype Disk = Disk(valid: map<Text, Evidence>, bad: map<Text, Kind>, rejected: set<Text>)

  /** One thing a scan comes across. Its order is the directory's. */
  datatype Visit = Session(id: Text) | Bucket(prefix: Text) | Ignored

  function Prefix(session: Text): Text { if |session| < 2 then session else session[..2] }

  predicate Readout(session: Text, e: Evidence) {
    && e.provenance.session == session && e.provenance.createdAt >= 0
    && e.manifest.createdAt == e.provenance.createdAt && e.manifest.workspace == e.provenance.request.workspace
    && e.manifest.updatedAt >= 0 && e.manifest.head > 0 && 1 <= e.version <= 3
  }

  ghost predicate Sane(disk: Disk) {
    && (forall s :: s in disk.valid ==> Readout(s, disk.valid[s]) && s !in disk.bad && Prefix(s) !in disk.rejected)
    && (forall s :: s in disk.bad ==>
          && Prefix(s) !in disk.rejected
          && (disk.bad[s].NotFound? || disk.bad[s].Corrupt? || disk.bad[s].UnsupportedVersion? || disk.bad[s].NotAvailable?))
  }

  ghost predicate Legit(disk: Disk, v: Visit) {
    match v
    case Session(id) => id in disk.valid || id in disk.bad
    case Bucket(prefix) => prefix in disk.rejected
    case Ignored => true
  }

  // ---- the transactions of one scan, as functions of the tables

  function Observed(e: Evidence, scan: Text): Row {
    Row(e.manifest, e.version, Ready, None, e.lastRun, Some(scan))
  }

  function Conflicted(row: Row): Row { row.(availability := Unavailable, fault := Some(Conflict)) }

  function AcceptedBy(p: Provenance): Command {
    Command(p.request, p.session, p.event, p.createdAt, AcceptedTag, Some(p.Receipted()), None)
  }

  function Disputed(c: Command): Command { c.(tag := FailedTag, receipt := None, failure := Some(Conflict)) }

  /** Another session already validated by this scan holds the operation. */
  predicate Contested(t: Tables, scan: Text, session: Text, operation: Text) {
    && operation in t.commands && t.commands[operation].session != session
    && t.commands[operation].session in t.sessions
    && var row := t.sessions[t.commands[operation].session];
    row.seen == Some(scan) && (row.availability.Ready? || row.fault == Some(Conflict))
  }

  function Registered(t: Tables, scan: Text, session: Text, e: Evidence): Tables {
    var o := e.provenance.operation;
    if Contested(t, scan, session, o) then
      var first := t.commands[o].session;
      t.(sessions := t.sessions[session := Conflicted(Observed(e, scan))][first := Conflicted(t.sessions[first])],
         commands := t.commands[o := Disputed(t.commands[o])])
    else
      t.(sessions := t.sessions[session := Observed(e, scan)],
         commands := (map p | p in t.commands && (t.commands[p].session != session || p == o) :: t.commands[p])
                     [o := AcceptedBy(e.provenance)])
  }

  const Unknown := Row(Manifest([], None, 0, 0, 0), 1, Missing, Some(NotFound), None, None)

  function Faulted(row: Row, scan: Text, kind: Kind): Row {
    row.(availability := Unavailable, fault := Some(kind), seen := Some(scan))
  }

  function FaultRecorded(t: Tables, scan: Text, session: Text, kind: Kind): Tables {
    var row := if session in t.sessions then t.sessions[session] else Unknown;
    if !kind.NotFound? then t.(sessions := t.sessions[session := Faulted(row, scan, kind)])
    else if session in t.sessions then t
    else t.(sessions := t.sessions[session := Unknown])
  }

  function BucketRejected(t: Tables, scan: Text, prefix: Text): Tables {
    t.(sessions := map s | s in t.sessions ::
         if Prefix(s) == prefix then Faulted(t.sessions[s], scan, NotAvailable) else t.sessions[s])
  }

  function Visited(t: Tables, scan: Text, disk: Disk, v: Visit): Tables {
    match v
    case Session(id) =>
      if id in disk.valid then Registered(t, scan, id, disk.valid[id])
      else if id in disk.bad then FaultRecorded(t, scan, id, disk.bad[id])
      else t
    case Bucket(prefix) => BucketRejected(t, scan, prefix)
    case Ignored => t
  }

  function Scanned(t: Tables, scan: Text, disk: Disk, visits: seq<Visit>): Tables {
    if visits == [] then t
    else Visited(Scanned(t, scan, disk, visits[..|visits| - 1]), scan, disk, visits[|visits| - 1])
  }

  /** A reservation that can still materialize. */
  predicate Recoverable(t: Tables, session: Text) {
    && session in t.sessions && t.sessions[session].availability.Pending?
    && exists o :: o in t.commands && t.commands[o].session == session && t.commands[o].tag.CreatingTag?
  }

  /** `validate_creating_reservations`: every failure it can report is an integrity failure. */
  predicate ReservationsHold(t: Tables)
    requires UniqueSessions(t)
  {
    forall s :: s in t.sessions && Recoverable(t, s) ==> EntryRows(t, s).Ok?
  }

  function Absent(row: Row): Row { row.(availability := Missing, fault := Some(NotFound)) }

  function Finished(t: Tables, scan: Text): Tables {
    t.(repairRequired := false,
       sessions := map s | s in t.sessions ::
         if t.sessions[s].seen != Some(scan) && !Recoverable(t, s) then Absent(t.sessions[s]) else t.sessions[s])
  }

  // ---- the tables after any set of visits, in closed form

  ghost predicate Carries(disk: Disk, seen: set<Visit>, operation: Text, session: Text) {
    session in disk.valid && Session(session) in seen && disk.valid[session].provenance.operation == operation
  }

  ghost predicate Uncarried(disk: Disk, seen: set<Visit>, operation: Text) {
    forall s :: !Carries(disk, seen, operation, s)
  }

  ghost predicate Sole(disk: Disk, seen: set<Visit>, session: Text)
    requires session in disk.valid
  {
    forall s :: Carries(disk, seen, disk.valid[session].provenance.operation, s) ==> s == session
  }

  function RowOf(t: Tables, session: Text): Option<Row> {
    if session in t.sessions then Some(t.sessions[session]) else None
  }

  ghost function RowAfter(t: Tables, scan: Text, disk: Disk, seen: set<Visit>, s: Text): Option<Row> {
    if s in disk.valid && Session(s) in seen then
      Some(if Sole(disk, seen, s) then Observed(disk.valid[s], scan) else Conflicted(Observed(disk.valid[s], scan)))
    else if s in disk.bad && Session(s) in seen then
      RowOf(FaultRecorded(t, scan, s, disk.bad[s]), s)
    else if Bucket(Prefix(s)) in seen && s in t.sessions then
      Some(Faulted(t.sessions[s], scan, NotAvailable))
    else RowOf(t, s)
  }

  ghost function Claim(disk: Disk, seen: set<Visit>, session: Text): Command
    requires session in disk.valid
  {
    var c := AcceptedBy(disk.valid[session].provenance);
    if Sole(disk, seen, session) then c else Disputed(c)
  }

  /** The command names a visited session that turned out to carry another operation. */
  ghost predicate Displaced(t: Tables, disk: Disk, seen: set<Visit>, o: Text)
    requires o in t.commands
  {
    var s := t.commands[o].session;
    s in disk.valid && Session(s) in seen && disk.valid[s].provenance.operation != o
  }

  ghost predicate Kept(t: Tables, disk: Disk, seen: set<Visit>, o: Text) {
    o in t.commands && !Displaced(t, disk, seen, o)
  }

  ghost predicate CommandAfter(u: Tables, t: Tables, disk: Disk, seen: set<Visit>, o: Text) {
    if Uncarried(disk, seen, o) then
      (o in u.commands <==> Kept(t, disk, seen, o)) && (o in u.commands ==> u.commands[o] == t.commands[o])
    else
      && o in u.commands && Carries(disk, seen, o, u.commands[o].session)
      && u.commands[o] == Claim(disk, seen, u.commands[o].session)
  }

  /** `u` is what the visits `seen` make of `t`, whatever their order. */
  ghost predicate Reflects(u: Tables, t: Tables, scan: Text, disk: Disk, seen: set<Visit>) {
    && u.repairRequired == t.repairRequired
    && (forall s :: RowOf(u, s) == RowAfter(t, scan, disk, seen, s))
    && (forall o :: CommandAfter(u, t, disk, seen, o))
  }

  function Everything(disk: Disk): set<Visit> {
    (set s | s in disk.valid :: Session(s)) + (set s | s in disk.bad :: Session(s)) + (set p | p in disk.rejected :: Bucket(p))
  }

  predicate Complete(disk: Disk, seen: set<Visit>) { Everything(disk) <= seen }

  /** A command that names a valid session names one that carries its operation, or the only one that carries its own. */
  ghost predicate Harmless(t: Tables, disk: Disk) {
    forall o :: o in t.commands && t.commands[o].session in disk.valid ==>
      || disk.valid[t.commands[o].session].provenance.operation == o
      || Sole(disk, Everything(disk), t.commands[o].session)
  }

  ghost predicate Fresh(t: Tables, scan: Text) {
    forall s :: s in t.sessions ==> t.sessions[s].seen != Some(scan)
  }

  ghost predicate Setting(t: Tables, scan: Text, disk: Disk, seen: set<Visit>) {
    Sane(disk) && Harmless(t, disk) && Fresh(t, scan) && forall v :: v in seen ==> Legit(disk, v)
  }

  lemma ContestedExactly(u: Tables, t: Tables, scan: Text, disk: Disk, seen: set<Visit>, id: Text)
    requires Setting(t, scan, disk, seen) && Reflects(u, t, scan, disk, seen)
    requires id in disk.valid && Session(id) !in seen
    ensures var o := disk.valid[id].provenance.operation;
            Contested(u, scan, id, o) <==> !Uncarried(disk, seen, o)
  {
    var o := disk.valid[id].provenance.operation;
    assert CommandAfter(u, t, disk, seen, o);
    if o in u.commands {
      var y := u.commands[o].session;
      assert RowOf(u, y) == RowAfter(t, scan, disk, seen, y);
      if Uncarried(disk, seen, o) {
        assert !Carries(disk, seen, o, y);
        assert t.commands[o].session == y;
        assert y in t.sessions ==> t.sessions[y].seen != Some(scan);
      }
    }
  }

  /** Another operation's command names the session only if it was left over from before, and then nobody contests the session. */
  lemma LeftoverIsUncontested(u: Tables, t: Tables, scan: Text, disk: Disk, seen: set<Visit>, id: Text, p: Text)
    requires Setting(t, scan, disk, seen) && Reflects(u, t, scan, disk, seen)
    requires id in disk.valid && Session(id) !in seen
    requires p in u.commands && u.commands[p].session == id && p != disk.valid[id].provenance.operation
    ensures Uncarried(disk, seen, p) && p in t.commands && t.commands[p].session == id
    ensures Uncarried(disk, seen, disk.valid[id].provenance.operation)
  {
    assert CommandAfter(u, t, disk, seen, p);
    forall s ensures !Carries(disk, seen, disk.valid[id].provenance.operation, s) {
      assert Carries(disk, seen, disk.valid[id].provenance.operation, s) ==>
             Carries(disk, Everything(disk), disk.valid[id].provenance.operation, s);
    }
  }

  /** Who is alone after one more registration. */
  lemma SoleAfter(disk: Disk, seen: set<Visit>, id: Text, s: Text)
    requires id in disk.valid && Session(id) !in seen && s in disk.valid && Session(s) in seen + {Session(id)}
    ensures var o, more := disk.valid[id].provenance.operation, seen + {Session(id)};
            if s == id then Sole(disk, more, id) <==> Uncarried(disk, seen, o)
            else if disk.valid[s].provenance.operation == o then !Uncarried(disk, seen, o) && !Sole(disk, more, s)
            else Sole(disk, more, s) <==> Sole(disk, seen, s)
  {
    var o, more := disk.valid[id].provenance.operation, seen + {Session(id)};
    assert Carries(disk, more, o, id);
    assert forall p, x :: Carries(disk, more, p, x) <==> Carries(disk, seen, p, x) || (p == o && x == id);
    if s != id && disk.valid[s].provenance.operation == o { assert Carries(disk, seen, o, s); }
  }

  lemma RegisterRow(u: Tables, t: Tables, scan: Text, disk: Disk, seen: set<Visit>, id: Text, s: Text)
    requires Setting(t, scan, disk, seen) && Reflects(u, t, scan, disk, seen)
    requires id in disk.valid && Session(id) !in seen
    ensures RowOf(Registered(u, scan, id, disk.valid[id]), s) == RowAfter(t, scan, disk, seen + {Session(id)}, s)
  {
    ContestedExactly(u, t, scan, disk, seen, id);
    assert CommandAfter(u, t, disk, seen, disk.valid[id].provenance.operation);
    assert RowOf(u, s) == RowAfter(t, scan, disk, seen, s);
    if s in disk.valid && Session(s) in seen + {Session(id)} { SoleAfter(disk, seen, id, s); }
  }

  lemma RegisterCommand(u: Tables, t: Tables, scan: Text, disk: Disk, seen: set<Visit>, id: Text, p: Text)
    requires Setting(t, scan, disk, seen) && Reflects(u, t, scan, disk, seen)
    requires id in disk.valid && Session(id) !in seen
    ensures CommandAfter(Registered(u, scan, id, disk.valid[id]), t, disk, seen + {Session(id)}, p)
  {
    var o := disk.valid[id].provenance.operation;
    var more := seen + {Session(id)};
    ContestedExactly(u, t, scan, disk, seen, id);
    assert CommandAfter(u, t, disk, seen, p);
    assert Carries(disk, more, o, id);
    assert forall q, x :: Carries(disk, more, q, x) <==> Carries(disk, seen, q, x) || (q == o && x == id);
    if p != o {
      if p in u.commands && u.commands[p].session == id { LeftoverIsUncontested(u, t, scan, disk, seen, id, p); }
      assert Uncarried(disk, more, p) <==> Uncarried(disk, seen, p);
    }
  }

  lemma RegisterReflects(u: Tables, t: Tables, scan: Text, disk: Disk, seen: set<Visit>, id: Text)
    requires Setting(t, scan, disk, seen) && Reflects(u, t, scan, disk, seen)
    requires id in disk.valid && Session(id) !in seen
    ensures Reflects(Registered(u, scan, id, disk.valid[id]), t, scan, disk, seen + {Session(id)})
  {
    var v := Registered(u, scan, id, disk.valid[id]);
    forall s ensures RowOf(v, s) == RowAfter(t, scan, disk, seen + {Session(id)}, s) {
      RegisterRow(u, t, scan, disk, seen, id, s);
    }
    forall p ensures CommandAfter(v, t, disk, seen + {Session(id)}, p) {
      RegisterCommand(u, t, scan, disk, seen, id, p);
    }
  }

  lemma SoleUnmoved(disk: Disk, seen: set<Visit>, visit: Visit)
    requires visit.Session? ==> visit.id !in disk.valid
    ensures forall o, s :: Carries(disk, seen + {visit}, o, s) <==> Carries(disk, seen, o, s)
    ensures forall s :: s in disk.valid ==> (Sole(disk, seen + {visit}, s) <==> Sole(disk, seen, s))
  {
    assert forall o, s :: Carries(disk, seen + {visit}, o, s) <==> Carries(disk, seen, o, s);
  }

  /** A visit that registers nothing leaves every claim as it was. */
  lemma ClaimsUnmoved(u: Tables, v: Tables, t: Tables, disk: Disk, seen: set<Visit>, visit: Visit, p: Text)
    requires CommandAfter(u, t, disk, seen, p) && v.commands == u.commands
    requires visit.Session? ==> visit.id !in disk.valid
    ensures CommandAfter(v, t, disk, seen + {visit}, p)
  {
    SoleUnmoved(disk, seen, visit);
    assert Uncarried(disk, seen + {visit}, p) <==> Uncarried(disk, seen, p);
    assert Kept(t, disk, seen + {visit}, p) <==> Kept(t, disk, seen, p);
  }

  lemma BadRow(u: Tables, t: Tables, scan: Text, disk: Disk, seen: set<Visit>, id: Text, s: Text)
    requires Setting(t, scan, disk, seen) && RowOf(u, s) == RowAfter(t, scan, disk, seen, s)
    requires id in disk.bad && Session(id) !in seen
    requires forall x :: x in disk.valid ==> (Sole(disk, seen + {Session(id)}, x) <==> Sole(disk, seen, x))
    ensures RowOf(FaultRecorded(u, scan, id, disk.bad[id]), s) == RowAfter(t, scan, disk, seen + {Session(id)}, s)
  {
    if s == id { assert Prefix(id) !in disk.rejected && Bucket(Prefix(id)) !in seen; }
  }

  lemma BucketRow(u: Tables, t: Tables, scan: Text, disk: Disk, seen: set<Visit>, prefix: Text, s: Text)
    requires Setting(t, scan, disk, seen) && RowOf(u, s) == RowAfter(t, scan, disk, seen, s)
    requires prefix in disk.rejected && Bucket(prefix) !in seen
    requires forall x :: x in disk.valid ==> (Sole(disk, seen + {Bucket(prefix)}, x) <==> Sole(disk, seen, x))
    ensures RowOf(BucketRejected(u, scan, prefix), s) == RowAfter(t, scan, disk, seen + {Bucket(prefix)}, s)
  {
    if Prefix(s) == prefix { assert s !in disk.valid && s !in disk.bad; }
  }

  lemma QuietReflects(u: Tables, t: Tables, scan: Text, disk: Disk, seen: set<Visit>, visit: Visit)
    requires Setting(t, scan, disk, seen) && Reflects(u, t, scan, disk, seen)
    requires Legit(disk, visit) && visit !in seen && (visit.Session? ==> visit.id !in disk.valid)
    ensures Reflects(Visited(u, scan, disk, visit), t, scan, disk, seen + {visit})
  {
    var v := Visited(u, scan, disk, visit);
    forall p ensures CommandAfter(v, t, disk, seen + {visit}, p) {
      assert CommandAfter(u, t, disk, seen, p);
      ClaimsUnmoved(u, v, t, disk, seen, visit, p);
    }
    forall s ensures RowOf(v, s) == RowAfter(t, scan, disk, seen + {visit}, s) {
      assert RowOf(u, s) == RowAfter(t, scan, disk, seen, s);
      QuietRow(u, t, scan, disk, seen, visit, s);
    }
  }

  lemma QuietRow(u: Tables, t: Tables, scan: Text, disk: Disk, seen: set<Visit>, visit: Visit, s: Text)
    requires Setting(t, scan, disk, seen) && RowOf(u, s) == RowAfter(t, scan, disk, seen, s)
    requires Legit(disk, visit) && visit !in seen && (visit.Session? ==> visit.id !in disk.valid)
    ensures RowOf(Visited(u, scan, disk, visit), s) == RowAfter(t, scan, disk, seen + {visit}, s)
  {
    SoleUnmoved(disk, seen, visit);
    match visit
    case Session(id) => BadRow(u, t, scan, disk, seen, id, s);
    case Bucket(prefix) => BucketRow(u, t, scan, disk, seen, prefix, s);
    case Ignored =>
  }

  function Seen(visits: seq<Visit>): set<Visit> { set v | v in visits }

  /** A directory lists each entry once. */
  predicate Listing(visits: seq<Visit>) {
    forall i, j :: 0 <= i < j < |visits| && !visits[i].Ignored? ==> visits[i] != visits[j]
  }

  /** One scan, in any order and interrupted anywhere, leaves what the closed form says. */
  lemma {:induction false} ScanReflects(t: Tables, scan: Text, disk: Disk, visits: seq<Visit>)
    requires Setting(t, scan, disk, Seen(visits)) && Listing(visits)
    ensures Reflects(Scanned(t, scan, disk, visits), t, scan, disk, Seen(visits))
  {
    if visits == [] {
      assert forall o, s :: !Carries(disk, {}, o, s);
    } else {
      var most, last := visits[..|visits| - 1], visits[|visits| - 1];
      assert visits == most + [last];
      assert Seen(visits) == Seen(most) + {last};
      ScanReflects(t, scan, disk, most);
      var u := Scanned(t, scan, disk, most);
      assert Legit(disk, last);
      if last in most {
        assert last.Ignored?;
        assert Seen(visits) == Seen(most);
      } else if last.Session? && last.id in disk.valid {
        RegisterReflects(u, t, scan, disk, Seen(most), last.id);
      } else {
        QuietReflects(u, t, scan, disk, Seen(most), last);
      }
    }
  }

  // ---- a complete scan and its closing transaction

  /** The reservation survives a complete scan: pending, and its creating command's operation is carried by no file. */
  ghost predicate Survives(t: Tables, disk: Disk, s: Text) {
    && s in t.sessions && t.sessions[s].availability.Pending?
    && exists o :: Reserves(t, disk, o, s)
  }

  ghost predicate Reserves(t: Tables, disk: Disk, o: Text, s: Text) {
    && o in t.commands && t.commands[o].session == s && t.commands[o].tag.CreatingTag?
    && Uncarried(disk, Everything(disk), o)
  }

  /** No scan says anything about the session, except that its file may be absent. */
  predicate Untouched(disk: Disk, s: Text) {
    s !in disk.valid && (s in disk.bad ==> disk.bad[s].NotFound?) && Prefix(s) !in disk.rejected
  }

  ghost function FinalRow(t: Tables, scan: Text, disk: Disk, s: Text): Option<Row> {
    if !Untouched(disk, s) then
      RowAfter(t, scan, disk, Everything(disk), s)
    else if s in t.sessions then
      Some(if Survives(t, disk, s) then t.sessions[s] else Absent(t.sessions[s]))
    else if s in disk.bad then Some(Unknown)
    else None
  }

  lemma FullCarriers(disk: Disk, seen: set<Visit>)
    requires Complete(disk, seen)
    ensures forall o, s :: Carries(disk, seen, o, s) <==> Carries(disk, Everything(disk), o, s)
    ensures forall o :: Uncarried(disk, seen, o) <==> Uncarried(disk, Everything(disk), o)
    ensures forall s :: s in disk.valid ==> (Sole(disk, seen, s) <==> Sole(disk, Everything(disk), s))
  {
    assert forall s :: s in disk.valid ==> Session(s) in Everything(disk);
    assert forall o, s :: Carries(disk, seen, o, s) <==> Carries(disk, Everything(disk), o, s);
    forall o ensures Uncarried(disk, seen, o) <==> Uncarried(disk, Everything(disk), o) {
      assert forall s :: Carries(disk, seen, o, s) <==> Carries(disk, Everything(disk), o, s);
    }
  }

  lemma RecoverableExactly(u: Tables, t: Tables, scan: Text, disk: Disk, seen: set<Visit>, s: Text)
    requires Setting(t, scan, disk, seen) && Reflects(u, t, scan, disk, seen) && Complete(disk, seen)
    requires s in u.sessions && s in t.sessions && u.sessions[s] == t.sessions[s]
    ensures Recoverable(u, s) <==> Survives(t, disk, s)
  {
    FullCarriers(disk, seen);
    assert RowOf(u, s) == RowAfter(t, scan, disk, seen, s);
    assert s in disk.valid ==> Session(s) in Everything(disk);
    if Recoverable(u, s) {
      var o :| o in u.commands && u.commands[o].session == s && u.commands[o].tag.CreatingTag?;
      assert CommandAfter(u, t, disk, seen, o);
      assert Reserves(t, disk, o, s);
    }
    if Survives(t, disk, s) {
      var o :| Reserves(t, disk, o, s);
      assert CommandAfter(u, t, disk, seen, o);
    }
  }

  lemma FinishedRow(u: Tables, t: Tables, scan: Text, disk: Disk, seen: set<Visit>, s: Text)
    requires Setting(t, scan, disk, seen) && Reflects(u, t, scan, disk, seen) && Complete(disk, seen)
    ensures RowOf(Finished(u, scan), s) == FinalRow(t, scan, disk, s)
  {
    FullCarriers(disk, seen);
    assert RowOf(u, s) == RowAfter(t, scan, disk, seen, s);
    if s in disk.valid || s in disk.bad { assert Session(s) in Everything(disk); }
    if Prefix(s) in disk.rejected { assert Bucket(Prefix(s)) in Everything(disk); }
    else { assert Bucket(Prefix(s)) !in seen; }
    if s in u.sessions && s in t.sessions && u.sessions[s] == t.sessions[s] {
      RecoverableExactly(u, t, scan, disk, seen, s);
    }
  }

  lemma FinishedCommand(u: Tables, t: Tables, scan: Text, disk: Disk, seen: set<Visit>, o: Text)
    requires Reflects(u, t, scan, disk, seen) && Complete(disk, seen)
    ensures CommandAfter(Finished(u, scan), t, disk, Everything(disk), o)
  {
    FullCarriers(disk, seen);
    assert CommandAfter(u, t, disk, seen, o);
    assert forall s :: s in disk.valid ==> Session(s) in Everything(disk);
    assert Kept(t, disk, seen, o) <==> Kept(t, disk, Everything(disk), o);
  }

  lemma StaysUnique(u: Tables, t: Tables, scan: Text, disk: Disk, seen: set<Visit>)
    requires Setting(t, scan, disk, seen) && Reflects(u, t, scan, disk, seen) && UniqueSessions(t)
    ensures UniqueSessions(u)
  {
    forall o1, o2 | o1 in u.commands && o2 in u.commands && u.commands[o1].session == u.commands[o2].session
      ensures o1 == o2
    {
      assert CommandAfter(u, t, disk, seen, o1) && CommandAfter(u, t, disk, seen, o2);
    }
  }

  lemma StaysHarmless(u: Tables, t: Tables, scan: Text, disk: Disk, seen: set<Visit>)
    requires Setting(t, scan, disk, seen) && Reflects(u, t, scan, disk, seen)
    ensures Harmless(u, disk)
  {
    forall o | o in u.commands && u.commands[o].session in disk.valid
      ensures || disk.valid[u.commands[o].session].provenance.operation == o
              || Sole(disk, Everything(disk), u.commands[o].session)
    {
      assert CommandAfter(u, t, disk, seen, o);
    }
  }

  ghost predicate WellReserved(t: Tables, o: Text, s: Text)
    requires s in t.sessions && o in t.commands
  {
    Readable(t.sessions[s]) && Decode(o, t.commands[o]).Some? && Consistent(t.sessions[s], Decode(o, t.commands[o]).value)
  }

  /** The reservations a complete scan keeps are well formed: the condition under which the closing transaction succeeds. */
  ghost predicate Redeemable(t: Tables, disk: Disk) {
    forall s, o :: s in t.sessions && Untouched(disk, s) && t.sessions[s].availability.Pending? && Reserves(t, disk, o, s) ==>
      WellReserved(t, o, s)
  }

  lemma EntryOfPending(t: Tables, s: Text, o: Text)
    requires UniqueSessions(t) && Names(t, o, s) && s in t.sessions && t.sessions[s].availability.Pending?
    ensures EntryRows(t, s).Ok? <==> WellReserved(t, o, s)
    ensures EntryRows(t, s).Err? ==> EntryRows(t, s).kind == Corrupt
  {
    assert CommandOf(t, s) == Some(o);
  }

  // ---- whether the closing transaction succeeds, for any claims at all

  /** A creating command that names no valid session. */
  ghost predicate Lasting(t: Tables, disk: Disk, o: Text) {
    o in t.commands && t.commands[o].tag.CreatingTag? && t.commands[o].session !in disk.valid
  }

  ghost predicate Reached(disk: Disk, seen: set<Visit>, s: Text) {
    !Untouched(disk, s) && (((s in disk.valid || s in disk.bad) && Session(s) in seen) || Bucket(Prefix(s)) in seen)
  }

  ghost predicate RowSpared(u: Tables, t: Tables, disk: Disk, seen: set<Visit>, s: Text) {
    && (Untouched(disk, s) ==> RowOf(u, s) == RowOf(t, s) || (s !in t.sessions && RowOf(u, s) == Some(Unknown)))
    && (Reached(disk, seen, s) && s in u.sessions ==> !u.sessions[s].availability.Pending?)
  }

  ghost predicate CommandSpared(u: Tables, t: Tables, disk: Disk, seen: set<Visit>, o: Text) {
    && (Lasting(u, disk, o) <==> Lasting(t, disk, o) && Uncarried(disk, seen, o))
    && (Lasting(u, disk, o) ==> u.commands[o] == t.commands[o])
  }

  /** A scan keeps the reservations that no file speaks against, whatever the other commands claim. */
  ghost predicate Spares(u: Tables, t: Tables, disk: Disk, seen: set<Visit>) {
    (forall s :: RowSpared(u, t, disk, seen, s)) && (forall o :: CommandSpared(u, t, disk, seen, o))
  }

  lemma VisitSparesCommand(u: Tables, t: Tables, scan: Text, disk: Disk, seen: set<Visit>, visit: Visit, o: Text)
    requires Sane(disk) && Legit(disk, visit) && CommandSpared(u, t, disk, seen, o)
    ensures CommandSpared(Visited(u, scan, disk, visit), t, disk, seen + {visit}, o)
  {
    var more := seen + {visit};
    if visit.Session? && visit.id in disk.valid {
      var q := disk.valid[visit.id].provenance.operation;
      assert Carries(disk, more, q, visit.id);
      assert forall p, x :: Carries(disk, more, p, x) <==> Carries(disk, seen, p, x) || (p == q && x == visit.id);
      assert o != q ==> (Uncarried(disk, more, o) <==> Uncarried(disk, seen, o));
    } else {
      assert forall p, x :: Carries(disk, more, p, x) <==> Carries(disk, seen, p, x);
      assert Uncarried(disk, more, o) <==> Uncarried(disk, seen, o);
    }
  }

  lemma VisitSparesRow(u: Tables, t: Tables, scan: Text, disk: Disk, seen: set<Visit>, visit: Visit, s: Text)
    requires Sane(disk) && Legit(disk, visit) && Fresh(t, scan) && RowSpared(u, t, disk, seen, s)
    ensures RowSpared(Visited(u, scan, disk, visit), t, disk, seen + {visit}, s)
  {
  }

  lemma {:induction false} ScanSpares(t: Tables, scan: Text, disk: Disk, visits: seq<Visit>)
    requires Sane(disk) && Fresh(t, scan) && forall v :: v in visits ==> Legit(disk, v)
    ensures Spares(Scanned(t, scan, disk, visits), t, disk, Seen(visits))
  {
    if visits == [] {
      assert forall o, s :: !Carries(disk, {}, o, s);
      assert Seen(visits) == {};
    } else {
      var most, last := visits[..|visits| - 1], visits[|visits| - 1];
      assert visits == most + [last];
      assert Seen(visits) == Seen(most) + {last};
      ScanSpares(t, scan, disk, most);
      var u := Scanned(t, scan, disk, most);
      forall s ensures RowSpared(Visited(u, scan, disk, last), t, disk, Seen(visits), s) {
        VisitSparesRow(u, t, scan, disk, Seen(most), last, s);
      }
      forall o ensures CommandSpared(Visited(u, scan, disk, last), t, disk, Seen(visits), o) {
        VisitSparesCommand(u, t, scan, disk, Seen(most), last, o);
      }
    }
  }

  lemma PendingIsSpared(u: Tables, t: Tables, disk: Disk, seen: set<Visit>, s: Text)
    requires Spares(u, t, disk, seen) && Complete(disk, seen)
    requires s in u.sessions && u.sessions[s].availability.Pending?
    ensures Untouched(disk, s) && s in t.sessions && u.sessions[s] == t.sessions[s]
  {
    assert RowSpared(u, t, disk, seen, s);
    assert s in disk.valid || s in disk.bad ==> Session(s) in Everything(disk);
    assert Prefix(s) in disk.rejected ==> Bucket(Prefix(s)) in Everything(disk);
  }

  /** Whether the closing transaction succeeds is decided before the first scan. */
  lemma HoldsExactly(u: Tables, t: Tables, disk: Disk, seen: set<Visit>)
    requires Spares(u, t, disk, seen) && Complete(disk, seen) && UniqueSessions(u)
    ensures ReservationsHold(u) <==> Redeemable(t, disk)
  {
    FullCarriers(disk, seen);
    if Redeemable(t, disk) {
      forall s | s in u.sessions && Recoverable(u, s) ensures EntryRows(u, s).Ok? {
        PendingIsSpared(u, t, disk, seen, s);
        var o :| o in u.commands && u.commands[o].session == s && u.commands[o].tag.CreatingTag?;
        assert CommandSpared(u, t, disk, seen, o);
        assert Reserves(t, disk, o, s);
        EntryOfPending(u, s, o);
      }
    }
    if ReservationsHold(u) {
      forall s, o | s in t.sessions && Untouched(disk, s) && t.sessions[s].availability.Pending? && Reserves(t, disk, o, s)
        ensures WellReserved(t, o, s)
      {
        assert RowSpared(u, t, disk, seen, s) && CommandSpared(u, t, disk, seen, o);
        assert Recoverable(u, s);
        EntryOfPending(u, s, o);
      }
    }
  }

  // ---- any number of attempts

  /** One call of repair. It closes only after a complete scan of well-formed reservations; otherwise it was interrupted. */
  datatype Attempt = Attempt(scan: Text, visits: seq<Visit>, closed: bool)

  function Intended(t: Tables): Tables { t.(repairRequired := true) }

  /** Registering keeps the session column unique: it deletes every other claim on the session. */
  lemma {:induction false} ScanIsUnique(t: Tables, scan: Text, disk: Disk, visits: seq<Visit>)
    requires UniqueSessions(t) && forall s :: s in disk.valid ==> disk.valid[s].provenance.session == s
    ensures UniqueSessions(Scanned(t, scan, disk, visits))
  {
    if visits != [] { ScanIsUnique(t, scan, disk, visits[..|visits| - 1]); }
  }

  /** An uninterrupted repair. */
  function Repaired(t: Tables, scan: Text, disk: Disk, visits: seq<Visit>): Result<Tables>
    requires UniqueSessions(t) && forall s :: s in disk.valid ==> disk.valid[s].provenance.session == s
  {
    ScanIsUnique(Intended(t), scan, disk, visits);
    var u := Scanned(Intended(t), scan, disk, visits);
    if ReservationsHold(u) then Ok(Finished(u, scan)) else Err(Corrupt)
  }

  function Attempted(t: Tables, disk: Disk, a: Attempt): Tables {
    var u := Scanned(Intended(t), a.scan, disk, a.visits);
    if a.closed then Finished(u, a.scan) else u
  }

  ghost predicate Possible(t: Tables, disk: Disk, a: Attempt)
    requires UniqueSessions(t) && Sane(disk)
  {
    && Fresh(t, a.scan) && Listing(a.visits) && (forall v :: v in a.visits ==> Legit(disk, v))
    && (a.closed ==>
          && Complete(disk, Seen(a.visits))
          && Repaired(t, a.scan, disk, a.visits).Ok?)
  }

  ghost predicate FullListing(disk: Disk, visits: seq<Visit>) {
    Listing(visits) && (forall v :: v in visits ==> Legit(disk, v)) && Complete(disk, Seen(visits))
  }

  /** What later scans can still tell apart. */
  ghost predicate SameFuture(u: Tables, t: Tables, disk: Disk) {
    && (forall scan, s :: FinalRow(u, scan, disk, s) == FinalRow(t, scan, disk, s))
    && (forall v, o :: CommandAfter(v, u, disk, Everything(disk), o) <==> CommandAfter(v, t, disk, Everything(disk), o))
    && (Redeemable(u, disk) <==> Redeemable(t, disk))
  }

  /** A row differs only in what every later scan overwrites. */
  ghost predicate RowFollows(u: Tables, t: Tables, disk: Disk, s: Text) {
    if s in disk.valid then true
    else if s in disk.bad && !disk.bad[s].NotFound? then
      forall scan :: RowOf(FaultRecorded(u, scan, s, disk.bad[s]), s) == RowOf(FaultRecorded(t, scan, s, disk.bad[s]), s)
    else if Prefix(s) in disk.rejected then
      && (s in u.sessions <==> s in t.sessions)
      && (s in t.sessions ==> forall scan :: Faulted(u.sessions[s], scan, NotAvailable) == Faulted(t.sessions[s], scan, NotAvailable))
    else
      || RowOf(u, s) == RowOf(t, s)
      || (s in disk.bad && s !in t.sessions && RowOf(u, s) == Some(Unknown))
      || (s in t.sessions && !Survives(t, disk, s) && RowOf(u, s) == Some(Absent(t.sessions[s])))
  }

  ghost predicate CommandFollows(u: Tables, t: Tables, disk: Disk, o: Text) {
    Uncarried(disk, Everything(disk), o) ==>
      && (Kept(u, disk, Everything(disk), o) <==> Kept(t, disk, Everything(disk), o))
      && (Kept(t, disk, Everything(disk), o) ==> u.commands[o] == t.commands[o])
  }

  ghost predicate Follows(u: Tables, t: Tables, disk: Disk) {
    (forall s :: RowFollows(u, t, disk, s)) && (forall o :: CommandFollows(u, t, disk, o))
  }

  lemma ReservesFollows(u: Tables, t: Tables, disk: Disk, o: Text, s: Text)
    requires CommandFollows(u, t, disk, o) && s !in disk.valid
    ensures Reserves(u, disk, o, s) <==> Reserves(t, disk, o, s)
  {
  }

  lemma SurvivesFollows(u: Tables, t: Tables, disk: Disk, s: Text)
    requires Follows(u, t, disk) && RowOf(u, s) == RowOf(t, s) && s !in disk.valid
    ensures Survives(u, disk, s) <==> Survives(t, disk, s)
  {
    forall o ensures Reserves(u, disk, o, s) <==> Reserves(t, disk, o, s) {
      ReservesFollows(u, t, disk, o, s);
    }
  }

  lemma FinalRowFollows(u: Tables, t: Tables, scan: Text, disk: Disk, s: Text)
    requires Sane(disk) && Follows(u, t, disk)
    ensures FinalRow(u, scan, disk, s) == FinalRow(t, scan, disk, s)
  {
    assert RowFollows(u, t, disk, s);
    if Untouched(disk, s) && RowOf(u, s) == RowOf(t, s) { SurvivesFollows(u, t, disk, s); }
  }

  lemma RedeemableFollows(u: Tables, t: Tables, disk: Disk)
    requires Follows(u, t, disk)
    ensures Redeemable(u, disk) <==> Redeemable(t, disk)
  {
    forall s, o | Untouched(disk, s)
      ensures (s in u.sessions && u.sessions[s].availability.Pending? && Reserves(u, disk, o, s)) <==>
              (s in t.sessions && t.sessions[s].availability.Pending? && Reserves(t, disk, o, s))
      ensures s in t.sessions && t.sessions[s].availability.Pending? && Reserves(t, disk, o, s) ==>
              u.sessions[s] == t.sessions[s] && u.commands[o] == t.commands[o]
    {
      assert RowFollows(u, t, disk, s);
      ReservesFollows(u, t, disk, o, s);
    }
  }

  lemma FollowsMeansSameFuture(u: Tables, t: Tables, disk: Disk)
    requires Sane(disk) && Follows(u, t, disk)
    ensures SameFuture(u, t, disk)
  {
    forall scan, s ensures FinalRow(u, scan, disk, s) == FinalRow(t, scan, disk, s) {
      FinalRowFollows(u, t, scan, disk, s);
    }
    forall v, o ensures CommandAfter(v, u, disk, Everything(disk), o) <==> CommandAfter(v, t, disk, Everything(disk), o) {
      assert CommandFollows(u, t, disk, o);
    }
    RedeemableFollows(u, t, disk);
  }

  lemma ScanFollowsRow(u: Tables, t: Tables, scan: Text, disk: Disk, seen: set<Visit>, s: Text)
    requires Setting(t, scan, disk, seen) && Reflects(u, t, scan, disk, seen)
    ensures RowFollows(u, t, disk, s)
  {
    assert RowOf(u, s) == RowAfter(t, scan, disk, seen, s);
    if Prefix(s) !in disk.rejected { assert Bucket(Prefix(s)) !in seen; }
  }

  lemma ScanFollowsCommand(u: Tables, t: Tables, scan: Text, disk: Disk, seen: set<Visit>, o: Text)
    requires Setting(t, scan, disk, seen) && Reflects(u, t, scan, disk, seen)
    ensures CommandFollows(u, t, disk, o)
  {
    assert CommandAfter(u, t, disk, seen, o);
    if Uncarried(disk, Everything(disk), o) && !Uncarried(disk, seen, o) {
      var s :| Carries(disk, seen, o, s);
      assert Carries(disk, Everything(disk), o, s);
    }
  }

  lemma CloseFollowsRow(u: Tables, t: Tables, scan: Text, disk: Disk, seen: set<Visit>, s: Text)
    requires Setting(t, scan, disk, seen) && Reflects(u, t, scan, disk, seen) && Complete(disk, seen)
    ensures RowFollows(Finished(u, scan), t, disk, s)
  {
    FinishedRow(u, t, scan, disk, seen, s);
    if s in disk.bad { assert Session(s) in Everything(disk); }
    if Prefix(s) in disk.rejected { assert Bucket(Prefix(s)) in Everything(disk); }
  }

  lemma AttemptFollows(t: Tables, disk: Disk, a: Attempt)
    requires Sane(disk) && Harmless(t, disk) && UniqueSessions(t) && Possible(t, disk, a)
    ensures var u := Attempted(t, disk, a); Follows(u, t, disk) && Harmless(u, disk) && UniqueSessions(u)
  {
    var i, seen := Intended(t), Seen(a.visits);
    var u := Scanned(i, a.scan, disk, a.visits);
    ScanReflects(i, a.scan, disk, a.visits);
    StaysHarmless(u, i, a.scan, disk, seen);
    StaysUnique(u, i, a.scan, disk, seen);
    forall s ensures RowFollows(Attempted(t, disk, a), t, disk, s) {
      ScanFollowsRow(u, i, a.scan, disk, seen, s);
      if a.closed { CloseFollowsRow(u, i, a.scan, disk, seen, s); }
      IntentIsInvisible(Attempted(t, disk, a), t, disk, s);
    }
    forall o ensures CommandFollows(Attempted(t, disk, a), t, disk, o) {
      ScanFollowsCommand(u, i, a.scan, disk, seen, o);
    }
  }

  lemma IntentIsInvisible(u: Tables, t: Tables, disk: Disk, s: Text)
    requires RowFollows(u, Intended(t), disk, s)
    ensures RowFollows(u, t, disk, s)
  {
    forall o ensures Reserves(Intended(t), disk, o, s) <==> Reserves(t, disk, o, s) { }
    forall scan, x, k ensures RowOf(FaultRecorded(Intended(t), scan, x, k), x) == RowOf(FaultRecorded(t, scan, x, k), x) { }
  }

  function AllAttempted(t: Tables, disk: Disk, attempts: seq<Attempt>): Tables {
    if attempts == [] then t
    else Attempted(AllAttempted(t, disk, attempts[..|attempts| - 1]), disk, attempts[|attempts| - 1])
  }

  ghost predicate AllPossible(t: Tables, disk: Disk, attempts: seq<Attempt>)
    requires Sane(disk)
  {
    attempts == [] ||
    (var most, last := attempts[..|attempts| - 1], attempts[|attempts| - 1];
     && AllPossible(t, disk, most)
     && UniqueSessions(AllAttempted(t, disk, most))
     && Possible(AllAttempted(t, disk, most), disk, last))
  }

  lemma {:induction false} AttemptsKeepTheFuture(t: Tables, disk: Disk, attempts: seq<Attempt>)
    requires Sane(disk) && Harmless(t, disk) && UniqueSessions(t) && AllPossible(t, disk, attempts)
    ensures var u := AllAttempted(t, disk, attempts); SameFuture(u, t, disk) && Harmless(u, disk) && UniqueSessions(u)
  {
    if attempts != [] {
      var most, last := attempts[..|attempts| - 1], attempts[|attempts| - 1];
      AttemptsKeepTheFuture(t, disk, most);
      var u := AllAttempted(t, disk, most);
      AttemptFollows(u, disk, last);
      FollowsMeansSameFuture(Attempted(u, disk, last), u, disk);
    }
  }

  /** The catalog that repair arrives at, read off the tables before the first attempt and the files. */
  ghost predicate Settled(v: Tables, t: Tables, scan: Text, disk: Disk) {
    && !v.repairRequired
    && (forall s :: RowOf(v, s) == FinalRow(t, scan, disk, s))
    && (forall o :: CommandAfter(v, t, disk, Everything(disk), o))
  }

  lemma RepairSettles(t: Tables, scan: Text, disk: Disk, visits: seq<Visit>)
    requires Sane(disk) && Harmless(t, disk) && UniqueSessions(t)
    requires Fresh(t, scan) && FullListing(disk, visits)
    ensures var r := Repaired(t, scan, disk, visits);
            && (r.Ok? <==> Redeemable(t, disk))
            && (r.Ok? ==> Settled(r.value, t, scan, disk) && UniqueSessions(r.value))
  {
    var i, seen := Intended(t), Seen(visits);
    var u := Scanned(i, scan, disk, visits);
    ScanReflects(i, scan, disk, visits);
    ScanSpares(i, scan, disk, visits);
    StaysUnique(u, i, scan, disk, seen);
    HoldsExactly(u, i, disk, seen);
    SameCatalogSameFuture(i, t, disk);
    forall s ensures RowOf(Finished(u, scan), s) == FinalRow(t, scan, disk, s) {
      FinishedRow(u, i, scan, disk, seen, s);
    }
    forall o ensures CommandAfter(Finished(u, scan), t, disk, Everything(disk), o) {
      FinishedCommand(u, i, scan, disk, seen, o);
    }
  }

  lemma SameCatalogSameFuture(u: Tables, t: Tables, disk: Disk)
    requires Sane(disk) && u.commands == t.commands && u.sessions == t.sessions
    ensures SameFuture(u, t, disk)
  {
    forall s ensures RowFollows(u, t, disk, s) { }
    assert Follows(u, t, disk);
    FollowsMeansSameFuture(u, t, disk);
  }

  /** Any interrupted or completed attempts, then one complete scan in any order: the same catalog, or the same failure. */
  lemma RepairConverges(t: Tables, disk: Disk, attempts: seq<Attempt>, scan: Text, visits: seq<Visit>)
    requires Sane(disk) && Harmless(t, disk) && UniqueSessions(t) && AllPossible(t, disk, attempts)
    requires UniqueSessions(AllAttempted(t, disk, attempts)) && Fresh(AllAttempted(t, disk, attempts), scan)
    requires FullListing(disk, visits)
    ensures var r := Repaired(AllAttempted(t, disk, attempts), scan, disk, visits);
            && (r.Ok? <==> Redeemable(t, disk))
            && (r.Ok? ==> Settled(r.value, t, scan, disk) && UniqueSessions(r.value))
  {
    AttemptsKeepTheFuture(t, disk, attempts);
    RepairSettles(AllAttempted(t, disk, attempts), scan, disk, visits);
  }

  // ---- what every settled catalog has in common

  function Without(row: Row): Row { row.(seen := None) }

  ghost predicate Agree(v: Tables, w: Tables, disk: Disk) {
    && v.sessions.Keys == w.sessions.Keys && v.commands.Keys == w.commands.Keys
    && (forall s :: s in v.sessions ==> Without(v.sessions[s]) == Without(w.sessions[s]))
    && (forall o :: o in v.commands ==>
          || v.commands[o] == w.commands[o]
          || (v.commands[o].tag.FailedTag? && w.commands[o].tag.FailedTag?
              && v.commands[o].failure == w.commands[o].failure == Some(Conflict)
              && Carries(disk, Everything(disk), o, v.commands[o].session)
              && Carries(disk, Everything(disk), o, w.commands[o].session)))
  }

  lemma SettledCommandsAgree(t: Tables, disk: Disk, v: Tables, w: Tables, o: Text)
    requires CommandAfter(v, t, disk, Everything(disk), o) && CommandAfter(w, t, disk, Everything(disk), o)
    ensures o in v.commands <==> o in w.commands
    ensures o in v.commands && v.commands[o] != w.commands[o] ==>
              && v.commands[o].tag.FailedTag? && w.commands[o].tag.FailedTag?
              && v.commands[o].failure == w.commands[o].failure == Some(Conflict)
              && Carries(disk, Everything(disk), o, v.commands[o].session)
              && Carries(disk, Everything(disk), o, w.commands[o].session)
  {
    if !Uncarried(disk, Everything(disk), o) {
      var x, y := v.commands[o].session, w.commands[o].session;
      assert Sole(disk, Everything(disk), x) ==> y == x;
      assert Sole(disk, Everything(disk), y) ==> x == y;
    }
  }

  lemma SettledAgree(t: Tables, disk: Disk, v: Tables, first: Text, w: Tables, second: Text)
    requires Settled(v, t, first, disk) && Settled(w, t, second, disk)
    ensures Agree(v, w, disk)
  {
    forall s ensures (s in v.sessions <==> s in w.sessions)
      && (s in v.sessions ==> Without(v.sessions[s]) == Without(w.sessions[s]))
    {
      assert RowOf(v, s) == FinalRow(t, first, disk, s) && RowOf(w, s) == FinalRow(t, second, disk, s);
    }
    forall o ensures o in v.commands <==> o in w.commands {
      SettledCommandsAgree(t, disk, v, w, o);
    }
    forall o | o in v.commands && v.commands[o] != w.commands[o]
      ensures v.commands[o].tag.FailedTag? && w.commands[o].tag.FailedTag?
              && v.commands[o].failure == w.commands[o].failure == Some(Conflict)
              && Carries(disk, Everything(disk), o, v.commands[o].session)
              && Carries(disk, Everything(disk), o, w.commands[o].session)
    {
      SettledCommandsAgree(t, disk, v, w, o);
    }
  }

  datatype Census = Census(ready: nat, missing: nat, unavailable: nat, conflicts: nat)

  function Counted(t: Tables): Census {
    Census(|set s | s in t.sessions && t.sessions[s].availability.Ready?|,
           |set s | s in t.sessions && t.sessions[s].availability.Missing?|,
           |set s | s in t.sessions && t.sessions[s].availability.Unavailable?|,
           |set o | o in t.commands && t.commands[o].tag.FailedTag? && t.commands[o].failure == Some(Conflict)|)
  }

  lemma AgreeOnCounts(v: Tables, w: Tables, disk: Disk)
    requires Agree(v, w, disk)
    ensures Counted(v) == Counted(w)
  {
    forall s | s in v.sessions ensures v.sessions[s].availability == w.sessions[s].availability {
      assert Without(v.sessions[s]) == Without(w.sessions[s]);
    }
    assert (set s | s in v.sessions && v.sessions[s].availability.Ready?)
        == (set s | s in w.sessions && w.sessions[s].availability.Ready?);
    assert (set s | s in v.sessions && v.sessions[s].availability.Missing?)
        == (set s | s in w.sessions && w.sessions[s].availability.Missing?);
    assert (set s | s in v.sessions && v.sessions[s].availability.Unavailable?)
        == (set s | s in w.sessions && w.sessions[s].availability.Unavailable?);
    assert (set o | o in v.commands && v.commands[o].tag.FailedTag? && v.commands[o].failure == Some(Conflict))
        == (set o | o in w.commands && w.commands[o].tag.FailedTag? && w.commands[o].failure == Some(Conflict));
  }

  /** Two histories of repair over the same files end in the same catalog and the same counts. */
  lemma RepairsAgree(t: Tables, disk: Disk,
                     before: seq<Attempt>, scan: Text, visits: seq<Visit>,
                     before': seq<Attempt>, scan': Text, visits': seq<Visit>)
    requires Sane(disk) && Harmless(t, disk) && UniqueSessions(t)
    requires AllPossible(t, disk, before) && AllPossible(t, disk, before')
    requires UniqueSessions(AllAttempted(t, disk, before)) && Fresh(AllAttempted(t, disk, before), scan)
    requires UniqueSessions(AllAttempted(t, disk, before')) && Fresh(AllAttempted(t, disk, before'), scan')
    requires FullListing(disk, visits) && FullListing(disk, visits')
    ensures var r, r' := Repaired(AllAttempted(t, disk, before), scan, disk, visits),
                         Repaired(AllAttempted(t, disk, before'), scan', disk, visits');
            && (r.Ok? <==> r'.Ok?)
            && (r.Ok? ==> Agree(r.value, r'.value, disk) && Counted(r.value) == Counted(r'.value))
  {
    RepairConverges(t, disk, before, scan, visits);
    RepairConverges(t, disk, before', scan', visits');
    if Redeemable(t, disk) {
      var v := Repaired(AllAttempted(t, disk, before), scan, disk, visits).value;
      var w := Repaired(AllAttempted(t, disk, before'), scan', disk, visits').value;
      SettledAgree(t, disk, v, scan, w, scan');
      AgreeOnCounts(v, w, disk);
    }
  }

  /** A ready session is named by exactly one command, accepted with the session's own provenance, and can be opened. */
  lemma ReadyHasOneCommand(v: Tables, t: Tables, scan: Text, disk: Disk, s: Text)
    requires Sane(disk) && Harmless(t, disk) && Settled(v, t, scan, disk) && UniqueSessions(v)
    requires s in v.sessions && v.sessions[s].availability.Ready?
    ensures s in disk.valid
    ensures var p := disk.valid[s].provenance;
            && Names(v, p.operation, s) && v.commands[p.operation] == AcceptedBy(p)
            && (forall o :: Names(v, o, s) ==> o == p.operation)
            && EntryRows(v, s) == Ok(Entry(v.sessions[s], Reservation(p, Accepted)))
  {
    assert RowOf(v, s) == FinalRow(t, scan, disk, s);
    var p := disk.valid[s].provenance;
    assert Session(s) in Everything(disk);
    assert Carries(disk, Everything(disk), p.operation, s);
    assert CommandAfter(v, t, disk, Everything(disk), p.operation);
    assert CommandOf(v, s) == Some(p.operation);
  }

  ghost predicate Marked(v: Tables, s: Text, availability: Availability, fault: Option<Kind>) {
    s in v.sessions && v.sessions[s].availability == availability && v.sessions[s].fault == fault
  }

  /** What repair says of each session, by what the files say of it. */
  lemma SettledClassifies(v: Tables, t: Tables, scan: Text, disk: Disk, s: Text)
    requires Sane(disk) && Settled(v, t, scan, disk)
    ensures s in disk.valid ==>
              && s in v.sessions && v.sessions[s].manifest == disk.valid[s].manifest
              && v.sessions[s].version == disk.valid[s].version && v.sessions[s].lastRun == disk.valid[s].lastRun
              && if forall x :: x in disk.valid && disk.valid[x].provenance.operation == disk.valid[s].provenance.operation ==> x == s
                 then Marked(v, s, Ready, None)
                 else Marked(v, s, Unavailable, Some(Conflict))
    ensures s in disk.bad && !disk.bad[s].NotFound? ==> Marked(v, s, Unavailable, Some(disk.bad[s]))
    ensures Prefix(s) in disk.rejected && s in t.sessions ==> Marked(v, s, Unavailable, Some(NotAvailable))
    ensures Untouched(disk, s) && (s in t.sessions || s in disk.bad) ==>
              if Survives(t, disk, s) then s in v.sessions && v.sessions[s] == t.sessions[s] else Marked(v, s, Missing, Some(NotFound))
    ensures s in v.sessions <==> s in t.sessions || s in disk.valid || s in disk.bad
  {
    assert RowOf(v, s) == FinalRow(t, scan, disk, s);
    if s in disk.valid {
      var o := disk.valid[s].provenance.operation;
      assert forall x :: x in disk.valid ==> Session(x) in Everything(disk);
      assert forall x :: Carries(disk, Everything(disk), o, x) <==> x in disk.valid && disk.valid[x].provenance.operation == o;
    }
    if s in disk.bad { assert Session(s) in Everything(disk); }
    if Prefix(s) in disk.rejected { assert Bucket(Prefix(s)) in Everything(disk); }
  }

  // ---- what happens to other claims

  /** Two uninterrupted repairs, over whatever listings of the files, either both fail or leave agreeing catalogs. */
  ghost predicate OrderFree(t: Tables, scan: Text, disk: Disk)
    requires UniqueSessions(t) && Sane(disk)
  {
    forall one, two :: FullListing(disk, one) && FullListing(disk, two) ==>
      var r, r' := Repaired(t, scan, disk, one), Repaired(t, scan, disk, two);
      (r.Ok? <==> r'.Ok?) && (r.Ok? ==> Agree(r.value, r'.value, disk))
  }

  /** The operation is held by a session this scan has validated. */
  ghost predicate Holds(u: Tables, scan: Text, o: Text, s: Text) {
    && o in u.commands && u.commands[o].session == s && s in u.sessions
    && u.sessions[s].seen == Some(scan) && (u.sessions[s].availability.Ready? || u.sessions[s].fault == Some(Conflict))
  }

  ghost predicate Lost(u: Tables, o: Text, s: Text) { o in u.commands ==> u.commands[o].session != s }

  lemma VisitKeepsHold(u: Tables, scan: Text, disk: Disk, visit: Visit, o: Text, s: Text)
    requires Sane(disk) && s in disk.valid && visit != Session(s) && Legit(disk, visit) && Holds(u, scan, o, s)
    ensures Holds(Visited(u, scan, disk, visit), scan, o, s)
  {
    if visit.Session? && visit.id in disk.valid && disk.valid[visit.id].provenance.operation == o {
      assert Contested(u, scan, visit.id, o);
    }
  }

  lemma {:induction false} HoldsOn(t: Tables, scan: Text, disk: Disk, first: seq<Visit>, rest: seq<Visit>, o: Text, s: Text)
    requires Sane(disk) && s in disk.valid && Session(s) !in rest && forall v :: v in rest ==> Legit(disk, v)
    requires Holds(Scanned(t, scan, disk, first), scan, o, s)
    ensures Holds(Scanned(t, scan, disk, first + rest), scan, o, s)
  {
    if rest == [] {
      assert first + rest == first;
    } else {
      var most, last := rest[..|rest| - 1], rest[|rest| - 1];
      assert rest == most + [last] && (first + rest)[..|first + rest| - 1] == first + most;
      HoldsOn(t, scan, disk, first, most, o, s);
      assert last in rest && Legit(disk, last);
      VisitKeepsHold(Scanned(t, scan, disk, first + most), scan, disk, last, o, s);
    }
  }

  lemma VisitKeepsLost(u: Tables, scan: Text, disk: Disk, visit: Visit, o: Text, s: Text)
    requires Sane(disk) && visit != Session(s) && Legit(disk, visit) && Lost(u, o, s)
    ensures Lost(Visited(u, scan, disk, visit), o, s)
  {
  }

  lemma {:induction false} LostOn(t: Tables, scan: Text, disk: Disk, first: seq<Visit>, rest: seq<Visit>, o: Text, s: Text)
    requires Sane(disk) && Session(s) !in rest && forall v :: v in rest ==> Legit(disk, v)
    requires Lost(Scanned(t, scan, disk, first), o, s)
    ensures Lost(Scanned(t, scan, disk, first + rest), o, s)
  {
    if rest == [] {
      assert first + rest == first;
    } else {
      var most, last := rest[..|rest| - 1], rest[|rest| - 1];
      assert rest == most + [last] && (first + rest)[..|first + rest| - 1] == first + most;
      LostOn(t, scan, disk, first, most, o, s);
      assert last in rest && Legit(disk, last);
      VisitKeepsLost(Scanned(t, scan, disk, first + most), scan, disk, last, o, s);
    }
  }

  lemma {:induction false} Listed(entries: set<Visit>) returns (visits: seq<Visit>)
    ensures Listing(visits) && Seen(visits) == entries
    decreases entries
  {
    visits := [];
    if entries != {} {
      var v :| v in entries;
      var rest := Listed(entries - {v});
      assert v !in rest by { assert v in rest ==> v in Seen(rest); }
      visits := [v] + rest;
      assert Seen(visits) == {v} + Seen(rest);
    }
  }

  lemma ListingOfParts(first: seq<Visit>, rest: seq<Visit>)
    requires Listing(first) && Listing(rest) && forall v :: v in first ==> v !in rest
    ensures Listing(first + rest)
  {
    var all := first + rest;
    forall i, j | 0 <= i < j < |all| && !all[i].Ignored? ensures all[i] != all[j] {
      if i < |first| && |first| <= j { assert all[i] in first && all[j] in rest; }
    }
  }

  /** The rest of a listing, given how it starts. */
  lemma ListedFrom(disk: Disk, first: seq<Visit>) returns (rest: seq<Visit>)
    requires Listing(first) && forall v :: v in first ==> v in Everything(disk)
    ensures FullListing(disk, first + rest) && forall v :: v in first ==> v !in rest
    ensures forall v :: v in rest ==> Legit(disk, v)
  {
    rest := Listed(Everything(disk) - Seen(first));
    assert forall v :: v in rest ==> v in Seen(rest);
    assert forall v :: v in first ==> v in Seen(first);
    ListingOfParts(first, rest);
    assert Seen(first + rest) == Seen(first) + Seen(rest);
  }

  /** Visited after its rival, a session keeps the claim it no longer deserves. */
  lemma RivalFirst(t: Tables, scan: Text, disk: Disk, o: Text, y: Text, z: Text)
    requires Sane(disk) && Fresh(t, scan) && y in disk.valid && z in disk.valid && y != z
    requires disk.valid[y].provenance.operation == disk.valid[z].provenance.operation != o
    requires o in t.commands && t.commands[o].session == y
    ensures Holds(Scanned(t, scan, disk, [Session(z), Session(y)]), scan, o, y)
  {
    var q := disk.valid[y].provenance.operation;
    assert [Session(z), Session(y)][..1] == [Session(z)] && [Session(z)][..0] == [];
    assert Scanned(t, scan, disk, [Session(z)]) == Visited(t, scan, disk, Session(z));
    var a := Registered(t, scan, z, disk.valid[z]);
    assert !Contested(t, scan, z, q);
    assert Contested(a, scan, y, q);
  }

  lemma ClaimantFirst(t: Tables, scan: Text, disk: Disk, o: Text, y: Text)
    requires Sane(disk) && Fresh(t, scan) && y in disk.valid && disk.valid[y].provenance.operation != o
    ensures Lost(Scanned(t, scan, disk, [Session(y)]), o, y)
  {
    assert [Session(y)][..0] == [];
    assert Scanned(t, scan, disk, [Session(y)]) == Visited(t, scan, disk, Session(y));
  }

  lemma KeepingListing(t: Tables, scan: Text, disk: Disk, o: Text, y: Text, z: Text) returns (visits: seq<Visit>)
    requires Sane(disk) && Fresh(t, scan) && y in disk.valid && z in disk.valid && y != z
    requires disk.valid[y].provenance.operation == disk.valid[z].provenance.operation != o
    requires o in t.commands && t.commands[o].session == y
    ensures FullListing(disk, visits) && Holds(Scanned(t, scan, disk, visits), scan, o, y)
  {
    RivalFirst(t, scan, disk, o, y, z);
    var rest := ListedFrom(disk, [Session(z), Session(y)]);
    HoldsOn(t, scan, disk, [Session(z), Session(y)], rest, o, y);
    visits := [Session(z), Session(y)] + rest;
  }

  lemma LosingListing(t: Tables, scan: Text, disk: Disk, o: Text, y: Text) returns (visits: seq<Visit>)
    requires Sane(disk) && Fresh(t, scan) && y in disk.valid && disk.valid[y].provenance.operation != o
    ensures FullListing(disk, visits) && Lost(Scanned(t, scan, disk, visits), o, y)
  {
    ClaimantFirst(t, scan, disk, o, y);
    var rest := ListedFrom(disk, [Session(y)]);
    LostOn(t, scan, disk, [Session(y)], rest, o, y);
    visits := [Session(y)] + rest;
  }

  /** Where a stale claim names one of several rivals, two listings of the same files leave catalogs that do not agree. */
  lemma HarmfulDisagrees(t: Tables, scan: Text, disk: Disk) returns (one: seq<Visit>, two: seq<Visit>)
    requires UniqueSessions(t) && Sane(disk) && Fresh(t, scan) && !Harmless(t, disk)
    ensures FullListing(disk, one) && FullListing(disk, two)
    ensures var r, r' := Repaired(t, scan, disk, one), Repaired(t, scan, disk, two);
            r.Ok? && r'.Ok? ==> !Agree(r.value, r'.value, disk)
  {
    var o :| o in t.commands && t.commands[o].session in disk.valid
             && disk.valid[t.commands[o].session].provenance.operation != o
             && !Sole(disk, Everything(disk), t.commands[o].session);
    var y := t.commands[o].session;
    var z :| Carries(disk, Everything(disk), disk.valid[y].provenance.operation, z) && z != y;
    one := KeepingListing(Intended(t), scan, disk, o, y, z);
    two := LosingListing(Intended(t), scan, disk, o, y);
    assert !Carries(disk, Everything(disk), o, y);
  }

  /** Repair closes or fails alike in every order, whatever the commands claim. */
  lemma ClosesExactly(t: Tables, scan: Text, disk: Disk, visits: seq<Visit>)
    requires UniqueSessions(t) && Sane(disk) && Fresh(t, scan) && FullListing(disk, visits)
    ensures Repaired(t, scan, disk, visits).Ok? <==> Redeemable(t, disk)
  {
    var i := Intended(t);
    ScanSpares(i, scan, disk, visits);
    ScanIsUnique(i, scan, disk, visits);
    HoldsExactly(Scanned(i, scan, disk, visits), i, disk, Seen(visits));
    SameCatalogSameFuture(i, t, disk);
  }

  /** The order of the directory matters exactly where repair can close and a stale claim names one of several rivals. */
  lemma OrderFreeExactly(t: Tables, scan: Text, disk: Disk)
    requires UniqueSessions(t) && Sane(disk) && Fresh(t, scan)
    ensures OrderFree(t, scan, disk) <==> Harmless(t, disk) || !Redeemable(t, disk)
  {
    forall one, two | FullListing(disk, one) && FullListing(disk, two) && (Harmless(t, disk) || !Redeemable(t, disk))
      ensures var r, r' := Repaired(t, scan, disk, one), Repaired(t, scan, disk, two);
              (r.Ok? <==> r'.Ok?) && (r.Ok? ==> Agree(r.value, r'.value, disk))
    {
      ClosesExactly(t, scan, disk, one);
      ClosesExactly(t, scan, disk, two);
      if Redeemable(t, disk) {
        RepairSettles(t, scan, disk, one);
        RepairSettles(t, scan, disk, two);
        SettledAgree(t, disk, Repaired(t, scan, disk, one).value, scan, Repaired(t, scan, disk, two).value, scan);
      }
    }
    if !Harmless(t, disk) && Redeemable(t, disk) {
      var one, two := HarmfulDisagrees(t, scan, disk);
      ClosesExactly(t, scan, disk, one);
      ClosesExactly(t, scan, disk, two);
    }
  }

  /** The smallest such input: two files of one operation, and a command of another that names the first. */
  lemma RivalsDisagree(y: Text, first: Evidence, z: Text, second: Evidence, p: Text, c: Command, scan: Text)
    requires y != z && Readout(y, first) && Readout(z, second)
    requires first.provenance.operation == second.provenance.operation != p && c.session == y
    ensures var t, disk := Tables(map[p := c], map[], true), Disk(map[y := first, z := second], map[], {});
            Sane(disk) && UniqueSessions(t) && Fresh(t, scan) && Redeemable(t, disk) && !OrderFree(t, scan, disk)
  {
    var t, disk := Tables(map[p := c], map[], true), Disk(map[y := first, z := second], map[], {});
    assert Carries(disk, Everything(disk), first.provenance.operation, z);
    assert !Sole(disk, Everything(disk), t.commands[p].session);
    OrderFreeExactly(t, scan, disk);
  }

  // ---- the repair itself

  datatype Report = Report(scanned: u64, ignored: u64, census: Census)

  /** Inspected session entries, and entries or buckets passed over. */
  function Inspected(visits: seq<Visit>): (n: nat)
    ensures n <= |visits|
  {
    if visits == [] then 0 else Inspected(visits[..|visits| - 1]) + if visits[|visits| - 1].Session? then 1 else 0
  }

  /** One of the two 64-bit counters of a scan cannot count the visits. */
  predicate Overflows(visits: seq<Visit>) {
    Inspected(visits) > U64_MAX || |visits| - Inspected(visits) > U64_MAX
  }

  /** `increment` on the counter that the visit belongs to. */
  function Counting(visit: Visit, scanned: u64, ignored: u64): Option<(u64, u64)> {
    if visit.Session? then if scanned == U64_MAX then None else Some((scanned + 1, ignored))
    else if ignored == U64_MAX then None else Some((scanned, ignored + 1))
  }

  lemma {:induction false} OverflowLasts(visits: seq<Visit>, n: nat)
    requires n <= |visits| && Overflows(visits[..n])
    ensures Overflows(visits)
    decreases |visits| - n
  {
    if n < |visits| {
      assert visits[..n + 1][..n] == visits[..n];
      OverflowLasts(visits, n + 1);
    } else {
      assert visits[..n] == visits;
    }
  }

  class Maintenance {
    var commands: map<Text, Command>
    var sessions: map<Text, Row>
    var repairRequired: bool

    function View(): Tables reads this { Tables(commands, sessions, repairRequired) }

    constructor (t: Tables)
      ensures View() == t
    {
      commands, sessions, repairRequired := t.commands, t.sessions, t.repairRequired;
    }

    method Register(scan: Text, e: Evidence)
      modifies this
      ensures View() == Registered(old(View()), scan, e.provenance.session, e)
    {
      var id, o := e.provenance.session, e.provenance.operation;
      var conflict: Option<Text> := None;
      if o in commands {
        var claimant := commands[o].session;
        if claimant != id && claimant in sessions && sessions[claimant].seen == Some(scan)
           && (sessions[claimant].availability.Ready? || sessions[claimant].fault == Some(Conflict)) {
          conflict := Some(claimant);
        }
      }
      sessions := sessions[id := Observed(e, scan)];
      if conflict.Some? {
        sessions := sessions[conflict.value := Conflicted(sessions[conflict.value])];
        sessions := sessions[id := Conflicted(sessions[id])];
        commands := commands[o := Disputed(commands[o])];
      } else {
        commands := map p | p in commands && (commands[p].session != id || p == o) :: commands[p];
        commands := commands[o := AcceptedBy(e.provenance)];
      }
    }

    method RecordFault(scan: Text, id: Text, kind: Kind)
      modifies this`sessions
      ensures View() == FaultRecorded(old(View()), scan, id, kind)
    {
      if kind.NotFound? {
        if id !in sessions { sessions := sessions[id := Unknown]; }
      } else {
        var row := if id in sessions then sessions[id] else Unknown;
        sessions := sessions[id := Faulted(row, scan, kind)];
      }
    }

    method RejectBucket(scan: Text, prefix: Text)
      modifies this`sessions
      ensures View() == BucketRejected(old(View()), scan, prefix)
    {
      sessions := map s | s in sessions ::
        if Prefix(s) == prefix then Faulted(sessions[s], scan, NotAvailable) else sessions[s];
    }

    method Examine(scan: Text, disk: Disk, id: Text)
      requires Sane(disk) && Legit(disk, Session(id))
      modifies this
      ensures View() == Visited(old(View()), scan, disk, Session(id))
    {
      if id in disk.valid { Register(scan, disk.valid[id]); } else { RecordFault(scan, id, disk.bad[id]); }
    }

    /** A session is examined and then counted, a rejected bucket counted first. */
    method Visit(scan: Text, disk: Disk, visit: Visit, scanned: u64, ignored: u64) returns (counted: Option<(u64, u64)>)
      requires Sane(disk) && Legit(disk, visit)
      modifies this
      ensures counted == Counting(visit, scanned, ignored)
      ensures View() == if counted.Some? || visit.Session? then Visited(old(View()), scan, disk, visit) else old(View())
    {
      if visit.Session? { Examine(scan, disk, visit.id); }
      counted := Counting(visit, scanned, ignored);
      if counted.Some? && visit.Bucket? { RejectBucket(scan, visit.prefix); }
    }

    /** Visit after visit, each counted; `n` of them have left their mark. */
    method Scan(scan: Text, disk: Disk, visits: seq<Visit>) returns (counts: Option<(u64, u64)>, ghost n: nat)
      requires Sane(disk) && forall v :: v in visits ==> Legit(disk, v)
      modifies this
      ensures n <= |visits| && View() == Scanned(old(View()), scan, disk, visits[..n])
      ensures counts.None? ==> Overflows(visits)
      ensures counts.Some? ==> n == |visits| && counts.value == (Inspected(visits), |visits| - Inspected(visits))
    {
      var scanned: u64, ignored: u64 := 0, 0;
      for i := 0 to |visits|
        invariant View() == Scanned(old(View()), scan, disk, visits[..i])
        invariant scanned == Inspected(visits[..i]) && ignored == i - scanned
      {
        assert visits[..i + 1][..i] == visits[..i];
        assert Legit(disk, visits[i]);
        var counted := Visit(scan, disk, visits[i], scanned, ignored);
        if counted.None? {
          OverflowLasts(visits, i + 1);
          return None, if visits[i].Session? then i + 1 else i;
        }
        scanned, ignored := counted.value.0, counted.value.1;
      }
      assert visits[..|visits|] == visits;
      return Some((scanned, ignored)), |visits|;
    }

    /** The scan stops early, without closing, when the directory or a database cannot be read for now. */
    method Repair(scan: Text, disk: Disk, visits: seq<Visit>, interrupted: bool) returns (r: Result<Report>)
      requires UniqueSessions(View()) && Sane(disk) && forall v :: v in visits ==> Legit(disk, v)
      modifies this
      ensures UniqueSessions(View())
      ensures Overflows(visits) ==>
                r == Err(InvalidInput) && exists n :: 0 <= n <= |visits| && View() == Scanned(Intended(old(View())), scan, disk, visits[..n])
      ensures !Overflows(visits) ==>
              var done := if interrupted then Err(Io) else Repaired(old(View()), scan, disk, visits);
              match done
              case Ok(t) =>
                View() == t && r == Ok(Report(Inspected(visits), |visits| - Inspected(visits), Counted(t)))
              case Err(kind) =>
                View() == Scanned(Intended(old(View())), scan, disk, visits) && r == Err(kind)
    {
      repairRequired := true;
      ghost var t := View();
      var counts, n := Scan(scan, disk, visits);
      ScanIsUnique(t, scan, disk, visits[..n]);
      if counts.None? { return Err(InvalidInput); }
      assert visits[..n] == visits;
      if interrupted { return Err(Io); }
      r := Finish(scan, counts.value.0, counts.value.1);
    }

    method Finish(scan: Text, scanned: u64, ignored: u64) returns (r: Result<Report>)
      requires UniqueSessions(View())
      modifies this`sessions, this`repairRequired
      ensures UniqueSessions(View())
      ensures if ReservationsHold(old(View()))
              then View() == Finished(old(View()), scan) && r == Ok(Report(scanned, ignored, Counted(View())))
              else View() == old(View()) && r == Err(Corrupt)
    {
      if !ReservationsHold(View()) { return Err(Corrupt); }
      ghost var before := View();
      sessions := map s | s in sessions ::
        if sessions[s].seen != Some(scan) && !Recoverable(View(), s) then Absent(sessions[s]) else sessions[s];
      repairRequired := false;
      assert UniqueSessions(View()) by { assert UniqueSessions(before); }
      r := Ok(Report(scanned, ignored, Counted(View())));
    }
  }
}
