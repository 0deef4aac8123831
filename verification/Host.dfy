/** The run host: a mutex-guarded gate, tracked workers, write-once tickets and one shutdown
    coordinator, under every interleaving of their atomic steps. */
module Host {
  import opened Wire

  type Dispatch = nat

  datatype Completion = Execution | SessionOpenFailed | WorkerLost
  datatype ShutdownOutcome = Closed | Unfinished(workerLost: bool, storageError: Option<string>)
  datatype Refusal = HostClosed | ActiveRun
  datatype Disposition = Requested | NotTracked | CancelClosed

  datatype Entry = Entry(session: Text, operation: Text, run: Text)

  // ----- The gate -----

  datatype Gate = Gate(closing: bool, workerLost: bool, entries: map<Dispatch, Entry>) {
    predicate HasOther(session: Text, operation: Text) {
      exists d :: d in entries && entries[d].session == session && entries[d].operation != operation
    }

    function Refuses(e: Entry, exclusive: bool): Option<Refusal> {
      if closing then Some(HostClosed)
      else if exclusive && HasOther(e.session, e.operation) then Some(ActiveRun)
      else None
    }

    function Registered(d: Dispatch, e: Entry): Gate { this.(entries := entries[d := e]) }

    /** A worker's last locked section: forget it, and remember if it was lost. */
    function Finished(d: Dispatch, completion: Completion): Gate {
      this.(entries := entries - {d}, closing := closing || completion.WorkerLost?,
            workerLost := workerLost || completion.WorkerLost?)
    }

    /** The entries a cancellation addresses; a closing host addresses none. */
    function Addressed(session: Text, run: Text): set<Dispatch> {
      if closing then {} else set d | d in entries && entries[d].session == session && entries[d].run == run
    }
  }

  /** The locked sections of `HostInner`, on the fields that the mutex guards. */
  class GateCell {
    var closing: bool
    var workerLost: bool
    var entries: map<Dispatch, Entry>
    var cancelled: set<Dispatch>

    function View(): Gate reads this { Gate(closing, workerLost, entries) }

    constructor ()
      ensures View() == Gate(false, false, map[]) && cancelled == {}
    {
      closing, workerLost, entries, cancelled := false, false, map[], {};
    }

    method Register(d: Dispatch, e: Entry, exclusive: bool) returns (refused: Option<Refusal>)
      modifies this
      ensures refused == old(View()).Refuses(e, exclusive) && cancelled == old(cancelled)
      ensures View() == if refused.None? then old(View()).Registered(d, e) else old(View())
    {
      if closing { return Some(HostClosed); }
      if exclusive && View().HasOther(e.session, e.operation) { return Some(ActiveRun); }
      entries := entries[d := e];
      return None;
    }

    /** True for exactly one caller: the one that has to spawn the coordinator. */
    method CloseGate() returns (start: bool)
      modifies this
      ensures start == !old(closing)
      ensures View() == old(View()).(closing := true)
      ensures cancelled == if start then old(cancelled) + entries.Keys else old(cancelled)
    {
      if closing { return false; }
      closing := true;
      cancelled := cancelled + entries.Keys;
      return true;
    }

    method Finish(d: Dispatch, completion: Completion) returns (start: bool)
      modifies this
      ensures View() == old(View()).Finished(d, completion)
      ensures start == (completion.WorkerLost? && !old(closing))
      ensures cancelled == if start then old(cancelled) + old(entries).Keys else old(cancelled)
    {
      start := false;
      if completion.WorkerLost? {
        workerLost := true;
        start := CloseGate();
      }
      entries := entries - {d};
    }

    method Cancel(session: Text, run: Text) returns (disposition: Disposition)
      modifies `cancelled
      ensures cancelled == old(cancelled) + View().Addressed(session, run)
      ensures disposition == (if closing then CancelClosed
                              else if View().Addressed(session, run) == {} then NotTracked else Requested)
    {
      if closing { return CancelClosed; }
      disposition := NotTracked;
      var rest := entries.Keys;
      ghost var done: set<Dispatch> := {};
      while rest != {}
        invariant done + rest == entries.Keys && done !! rest
        invariant cancelled == old(cancelled) + (View().Addressed(session, run) * done)
        invariant disposition == if View().Addressed(session, run) * done == {} then NotTracked else Requested
        decreases rest
      {
        var d :| d in rest;
        if entries[d].session == session && entries[d].run == run {
          cancelled := cancelled + {d};
          disposition := Requested;
          assert d in View().Addressed(session, run) * (done + {d});
        }
        rest, done := rest - {d}, done + {d};
      }
      assert View().Addressed(session, run) * done == View().Addressed(session, run);
    }
  }

  // ----- Tickets -----

  datatype Ticket = Ticket(acceptance: Option<Text>, completion: Option<Completion>) {
    function Accept(commit: Text): Ticket {
      if acceptance.None? && completion.None? then this.(acceptance := Some(commit)) else this
    }

    function Complete(c: Completion): Ticket {
      if completion.None? then this.(completion := Some(c)) else this
    }

    /** What a waiter of `accepted` is told, once there is something to tell. */
    function Answer(): Option<(Option<Text>, Option<Completion>)> {
      if acceptance.Some? then Some((acceptance, None))
      else if completion.Some? then Some((None, completion))
      else None
    }
  }

  class TicketCell {
    var ticket: Ticket

    constructor ()
      ensures ticket == Ticket(None, None)
    {
      ticket := Ticket(None, None);
    }

    method PublishAcceptance(commit: Text)
      modifies this
      ensures ticket == old(ticket).Accept(commit)
    {
      if ticket.acceptance.None? && ticket.completion.None? {
        ticket := ticket.(acceptance := Some(commit));
      }
    }

    method PublishCompletion(completion: Completion)
      modifies this
      ensures ticket == old(ticket).Complete(completion)
    {
      if ticket.completion.None? {
        ticket := ticket.(completion := Some(completion));
      }
    }
  }

  // ----- The interleaved host -----

  /** A tracked worker. `Finishing` is past its locked section, `Told` has published its completion;
      `starts` says that it still has to spawn the coordinator. `Gone` has released its tracker token. */
  datatype Worker =
    | Live
    | Finishing(completion: Completion, starts: bool)
    | Told(completion: Completion, starts: bool)
    | Gone(completion: Completion)

  /** `Lost` is a coordinator being dropped: it has marked the gate and has yet to publish. */
  datatype Coordinator =
    | Waiting
    | Drained
    | StoreClosed(error: Option<string>)
    | Decided(outcome: ShutdownOutcome)
    | Lost
    | Retired

  datatype World = World(
    gate: Gate, cancelled: set<Dispatch>, workers: map<Dispatch, Worker>, tickets: map<Dispatch, Ticket>,
    callers: nat, coordinators: seq<Coordinator>, storageClosed: bool, shutdown: Option<ShutdownOutcome>)

  const START := World(Gate(false, false, map[]), {}, map[], map[], 0, [], false, None)

  /** One atomic step of some thread. A worker panics or is dropped by finishing `WorkerLost`. */
  datatype Step =
    | Submit(dispatch: Dispatch, entry: Entry, exclusive: bool)
    | Notify(dispatch: Dispatch, commit: Text)
    | Finish(dispatch: Dispatch, completion: Completion)
    | Publish(dispatch: Dispatch)
    | SpawnFromWorker(dispatch: Dispatch)
    | Release(dispatch: Dispatch)
    | Cancel(session: Text, run: Text)
    | BeginShutdown
    | SpawnFromCaller
    | Drain(k: nat)
    | CloseStore(k: nat, error: Option<string>)
    | Decide(k: nat)
    | Report(k: nat)
    | Drop(k: nat)
    | ReportLoss(k: nat)

  predicate AllGone(w: World) {
    forall d :: d in w.workers ==> w.workers[d].Gone?
  }

  function SetPublished(w: World, outcome: ShutdownOutcome): World {
    if w.shutdown.None? then w.(shutdown := Some(outcome)) else w
  }

  predicate Enabled(w: World, s: Step) {
    match s
    case Submit(d, e, exclusive) => d !in w.workers && w.gate.Refuses(e, exclusive).None?
    case Notify(d, _) => d in w.workers && w.workers[d].Live?
    case Finish(d, _) => d in w.workers && w.workers[d].Live?
    case Publish(d) => d in w.workers && w.workers[d].Finishing?
    case SpawnFromWorker(d) => d in w.workers && w.workers[d].Told? && w.workers[d].starts
    case Release(d) => d in w.workers && w.workers[d].Told? && !w.workers[d].starts
    case Cancel(_, _) => true
    case BeginShutdown => true
    case SpawnFromCaller => w.callers > 0
    // TaskTracker::wait returns once the tracker is closed and every token is released.
    case Drain(k) => k < |w.coordinators| && w.coordinators[k].Waiting? && w.gate.closing && AllGone(w)
    case CloseStore(k, _) => k < |w.coordinators| && w.coordinators[k].Drained?
    case Decide(k) => k < |w.coordinators| && w.coordinators[k].StoreClosed?
    case Report(k) => k < |w.coordinators| && w.coordinators[k].Decided?
    case Drop(k) => k < |w.coordinators| && !w.coordinators[k].Lost? && !w.coordinators[k].Retired?
    case ReportLoss(k) => k < |w.coordinators| && w.coordinators[k].Lost?
  }

  function Next(w: World, s: Step): World
    requires Enabled(w, s)
  {
    match s
    case Submit(d, e, _) =>
      w.(gate := w.gate.Registered(d, e), workers := w.workers[d := Live], tickets := w.tickets[d := Ticket(None, None)])
    case Notify(d, commit) =>
      if d in w.tickets then w.(tickets := w.tickets[d := w.tickets[d].Accept(commit)]) else w
    case Finish(d, completion) =>
      var starts := completion.WorkerLost? && !w.gate.closing;
      w.(gate := w.gate.Finished(d, completion), workers := w.workers[d := Finishing(completion, starts)],
         cancelled := if starts then w.cancelled + w.gate.entries.Keys else w.cancelled)
    case Publish(d) =>
      var worker := w.workers[d];
      var w := w.(workers := w.workers[d := Told(worker.completion, worker.starts)]);
      if d in w.tickets then w.(tickets := w.tickets[d := w.tickets[d].Complete(worker.completion)]) else w
    case SpawnFromWorker(d) =>
      w.(workers := w.workers[d := w.workers[d].(starts := false)], coordinators := w.coordinators + [Waiting])
    case Release(d) => w.(workers := w.workers[d := Gone(w.workers[d].completion)])
    case Cancel(session, run) => w.(cancelled := w.cancelled + w.gate.Addressed(session, run))
    case BeginShutdown =>
      if w.gate.closing then w
      else w.(gate := w.gate.(closing := true), cancelled := w.cancelled + w.gate.entries.Keys, callers := w.callers + 1)
    case SpawnFromCaller => w.(callers := w.callers - 1, coordinators := w.coordinators + [Waiting])
    case Drain(k) => w.(coordinators := w.coordinators[k := Drained])
    case CloseStore(k, error) =>
      w.(coordinators := w.coordinators[k := StoreClosed(error)], storageClosed := w.storageClosed || error.None?)
    case Decide(k) =>
      var (lost, error) := (w.gate.workerLost, w.coordinators[k].error);
      w.(coordinators := w.coordinators[k := Decided(if lost || error.Some? then Unfinished(lost, error) else Closed)])
    case Report(k) =>
      SetPublished(w.(coordinators := w.coordinators[k := Retired]), w.coordinators[k].outcome)
    case Drop(k) =>
      w.(coordinators := w.coordinators[k := Lost], gate := w.gate.(workerLost := true))
    case ReportLoss(k) =>
      SetPublished(w.(coordinators := w.coordinators[k := Retired]), Unfinished(true, None))
  }

  // ----- Safety -----

  /** Workers that still owe the spawn of a coordinator. */
  ghost function Owing(w: World): set<Dispatch> {
    set d | d in w.workers && (w.workers[d].Finishing? || w.workers[d].Told?) && w.workers[d].starts
  }

  predicate LostWorker(v: Worker) { !v.Live? && v.completion.WorkerLost? }

  /** The host drained: it is closing, every worker is gone. */
  predicate Quiet(w: World) { w.gate.closing && AllGone(w) }

  /** One coordinator per closing, spawned or still owed by exactly one thread. */
  ghost predicate OneSpawn(w: World) {
    |w.coordinators| + w.callers + |Owing(w)| == (if w.gate.closing then 1 else 0)
  }

  /** The gate tracks exactly the live workers and knows every loss; shutdown reached every worker that can still run. */
  ghost predicate Tracked(w: World) {
    && w.gate.entries.Keys == (set d | d in w.workers && w.workers[d].Live?)
    && (forall d :: d in w.workers && LostWorker(w.workers[d]) ==> w.gate.workerLost)
    && (w.gate.workerLost ==> w.gate.closing)
    && (w.gate.closing ==> w.gate.entries.Keys <= w.cancelled)
  }

  /** A ticket is completed exactly when its worker has told so. */
  ghost predicate Ticketed(w: World) {
    && w.tickets.Keys == w.workers.Keys
    && (forall d :: d in w.workers && (w.workers[d].Told? || w.workers[d].Gone?) ==>
          w.tickets[d].completion == Some(w.workers[d].completion))
    && (forall d :: d in w.workers && (w.workers[d].Live? || w.workers[d].Finishing?) ==> w.tickets[d].completion.None?)
  }

  /** A coordinator past its wait has seen the host drained. */
  ghost predicate Coordinated(w: World) {
    && (forall k :: 0 <= k < |w.coordinators| ==> Progress(w, w.coordinators[k]))
    && (w.shutdown.Some? ==> exists k :: 0 <= k < |w.coordinators| && w.coordinators[k].Retired?)
    && (w.shutdown == Some(Closed) ==> Clean(w))
  }

  ghost predicate Inv(w: World) {
    OneSpawn(w) && Tracked(w) && Ticketed(w) && Coordinated(w)
  }

  /** Drained without loss, and the store closed. */
  predicate Clean(w: World) { Quiet(w) && !w.gate.workerLost && w.storageClosed }

  ghost predicate Progress(w: World, c: Coordinator) {
    match c
    case Waiting => w.shutdown.None?
    case Drained => Quiet(w) && w.shutdown.None?
    case StoreClosed(error) => Quiet(w) && (error.None? ==> w.storageClosed) && w.shutdown.None?
    case Decided(outcome) => Quiet(w) && (outcome == Closed ==> Clean(w)) && w.shutdown.None?
    case Lost => w.shutdown.None?
    case Retired => w.shutdown.Some?
  }

  lemma InvStart()
    ensures Inv(START)
  {
  }

  lemma InvStep(w: World, s: Step)
    requires Inv(w) && Enabled(w, s)
    ensures Inv(Next(w, s))
  {
    match s
    case Submit(_, _, _) => InvSubmit(w, s);
    case Finish(d, completion) => InvFinish(w, d, completion);
    case Publish(_) => InvWorker(w, s);
    case SpawnFromWorker(d) => InvSpawn(w, d);
    case Release(_) => InvWorker(w, s);
    case SpawnFromCaller => InvSpawnFromCaller(w);
    case BeginShutdown => InvBeginShutdown(w);
    case Notify(_, _) => InvBystander(w, s);
    case Cancel(_, _) => InvBystander(w, s);
    case _ => InvCoordinator(w, s);
  }

  lemma InvWorker(w: World, s: Step)
    requires Inv(w) && Enabled(w, s) && (s.Publish? || s.Release?)
    ensures Inv(Next(w, s))
  {
    var w' := Next(w, s);
    assert Owing(w') == Owing(w);
    assert w'.gate.entries.Keys == (set d | d in w'.workers && w'.workers[d].Live?);
    assert !w.workers[s.dispatch].Gone?;
    RunningIsUncoordinated(w);
  }

  /** While a worker runs, no coordinator is past its wait. */
  lemma RunningIsUncoordinated(w: World)
    requires Coordinated(w) && !AllGone(w)
    ensures forall k :: 0 <= k < |w.coordinators| ==>
              w.coordinators[k].Waiting? || w.coordinators[k].Lost? || w.coordinators[k].Retired?
    ensures w.shutdown != Some(Closed)
  {
    forall k | 0 <= k < |w.coordinators|
      ensures w.coordinators[k].Waiting? || w.coordinators[k].Lost? || w.coordinators[k].Retired?
    {
      assert Progress(w, w.coordinators[k]);
    }
  }

  lemma InvSpawn(w: World, d: Dispatch)
    requires Inv(w) && Enabled(w, SpawnFromWorker(d))
    ensures Inv(Next(w, SpawnFromWorker(d)))
  {
    var w' := Next(w, SpawnFromWorker(d));
    assert d in Owing(w);
    assert Owing(w') == Owing(w) - {d};
    assert w.coordinators == [] && w'.coordinators == [Waiting];
    assert w'.gate.entries.Keys == (set e | e in w'.workers && w'.workers[e].Live?);
  }

  lemma InvBystander(w: World, s: Step)
    requires Inv(w) && Enabled(w, s) && (s.Notify? || s.Cancel?)
    ensures Inv(Next(w, s))
  {
    assert Owing(Next(w, s)) == Owing(w);
  }

  lemma InvBeginShutdown(w: World)
    requires Inv(w)
    ensures Inv(Next(w, BeginShutdown))
  {
    var w' := Next(w, BeginShutdown);
    assert Owing(w') == Owing(w);
    if !w.gate.closing { assert w.coordinators == [] && w'.coordinators == []; }
  }

  lemma InvSpawnFromCaller(w: World)
    requires Inv(w) && Enabled(w, SpawnFromCaller)
    ensures Inv(Next(w, SpawnFromCaller))
  {
    var w' := Next(w, SpawnFromCaller);
    assert Owing(w') == Owing(w);
    assert w.coordinators == [] && w'.coordinators == [Waiting];
  }

  lemma InvSubmit(w: World, s: Step)
    requires Inv(w) && Enabled(w, s) && s.Submit?
    ensures Inv(Next(w, s))
  {
    var w' := Next(w, s);
    assert Owing(w') == Owing(w);
    assert w'.gate.entries.Keys == (set d | d in w'.workers && w'.workers[d].Live?);
  }

  lemma InvFinish(w: World, d: Dispatch, completion: Completion)
    requires Inv(w) && Enabled(w, Finish(d, completion))
    ensures Inv(Next(w, Finish(d, completion)))
  {
    assert !w.workers[d].Gone?;
    RunningIsUncoordinated(w);
    FinishKeepsOneSpawn(w, d, completion);
    FinishKeepsTracked(w, d, completion);
  }

  lemma FinishKeepsOneSpawn(w: World, d: Dispatch, completion: Completion)
    requires Inv(w) && Enabled(w, Finish(d, completion))
    ensures OneSpawn(Next(w, Finish(d, completion)))
  {
    var w' := Next(w, Finish(d, completion));
    if completion.WorkerLost? && !w.gate.closing {
      assert Owing(w') == Owing(w) + {d};
    } else {
      assert Owing(w') == Owing(w);
    }
  }

  lemma FinishKeepsTracked(w: World, d: Dispatch, completion: Completion)
    requires Inv(w) && Enabled(w, Finish(d, completion))
    ensures Tracked(Next(w, Finish(d, completion)))
  {
    var w' := Next(w, Finish(d, completion));
    assert w'.gate.entries.Keys == (set e | e in w'.workers && w'.workers[e].Live?);
  }

  /** There is only one coordinator, so its steps meet no other. */
  lemma InvCoordinator(w: World, s: Step)
    requires Inv(w) && Enabled(w, s)
    requires s.Drain? || s.CloseStore? || s.Decide? || s.Report? || s.Drop? || s.ReportLoss?
    ensures Inv(Next(w, s))
  {
    var w' := Next(w, s);
    assert Owing(w') == Owing(w);
    assert |w.coordinators| == 1 && s.k == 0;
    assert w'.coordinators[0] == w'.coordinators[s.k];
  }

  // ----- Whole executions -----

  ghost predicate Runs(worlds: seq<World>, steps: seq<Step>) {
    && |worlds| == |steps| + 1 && worlds[0] == START
    && forall i :: 0 <= i < |steps| ==> Enabled(worlds[i], steps[i]) && worlds[i + 1] == Next(worlds[i], steps[i])
  }

  lemma {:induction false} InvAlways(worlds: seq<World>, steps: seq<Step>, n: nat)
    requires Runs(worlds, steps) && n <= |steps|
    ensures Inv(worlds[n])
  {
    if n == 0 {
      InvStart();
    } else {
      InvAlways(worlds, steps, n - 1);
      InvStep(worlds[n - 1], steps[n - 1]);
    }
  }

  /** What no step takes back. */
  ghost predicate Grows(w: World, w': World) {
    && (w.gate.closing ==> w'.gate.closing && w'.workers.Keys == w.workers.Keys)
    && (w.shutdown.Some? ==> w'.shutdown == w.shutdown)
    && |w.coordinators| <= |w'.coordinators|
    && (forall d :: d in w.tickets && w.tickets[d].Answer().Some? ==> d in w'.tickets && w'.tickets[d].Answer() == w.tickets[d].Answer())
    && (forall d :: d in w.tickets && w.tickets[d].completion.Some? ==> d in w'.tickets && w'.tickets[d] == w.tickets[d])
  }

  lemma GrowsStep(w: World, s: Step)
    requires Inv(w) && Enabled(w, s)
    ensures Grows(w, Next(w, s))
    ensures s.SpawnFromWorker? || s.SpawnFromCaller? ==> |Next(w, s).coordinators| == |w.coordinators| + 1
  {
  }

  lemma {:induction false} GrowsAlways(worlds: seq<World>, steps: seq<Step>, i: nat, j: nat)
    requires Runs(worlds, steps) && i <= j <= |steps|
    ensures Grows(worlds[i], worlds[j])
    decreases j - i
  {
    if i < j {
      InvAlways(worlds, steps, i);
      GrowsStep(worlds[i], steps[i]);
      GrowsAlways(worlds, steps, i + 1, j);
    }
  }

  /** At most one coordinator is ever spawned, by whichever thread closed the gate. */
  lemma OneCoordinator(worlds: seq<World>, steps: seq<Step>, i: nat, j: nat)
    requires Runs(worlds, steps) && i < j < |steps|
    requires steps[i].SpawnFromWorker? || steps[i].SpawnFromCaller?
    ensures !steps[j].SpawnFromWorker? && !steps[j].SpawnFromCaller?
  {
    InvAlways(worlds, steps, i);
    InvAlways(worlds, steps, j);
    InvAlways(worlds, steps, j + 1);
    GrowsStep(worlds[i], steps[i]);
    GrowsStep(worlds[j], steps[j]);
    GrowsAlways(worlds, steps, i + 1, j);
  }

  /** Once the gate is closing nothing registers, and every worker that may still run was cancelled. */
  lemma NothingRegistersAfterClosing(worlds: seq<World>, steps: seq<Step>, i: nat, j: nat)
    requires Runs(worlds, steps) && i <= j < |steps| && worlds[i].gate.closing
    ensures !steps[j].Submit? && worlds[j].workers.Keys == worlds[i].workers.Keys
    ensures forall d :: d in worlds[j].workers && worlds[j].workers[d].Live? ==> d in worlds[j].cancelled
  {
    GrowsAlways(worlds, steps, i, j);
    InvAlways(worlds, steps, j);
  }

  /** The published outcome never changes. */
  lemma OutcomeIsFinal(worlds: seq<World>, steps: seq<Step>, i: nat, j: nat)
    requires Runs(worlds, steps) && i <= j <= |steps| && worlds[i].shutdown.Some?
    ensures worlds[j].shutdown == worlds[i].shutdown
  {
    GrowsAlways(worlds, steps, i, j);
  }

  /** `Closed` is told only when, from then on, every worker ever registered has retired, published its
      completion, and was not lost, and the store is closed. */
  lemma ClosedMeansDrained(worlds: seq<World>, steps: seq<Step>, i: nat, j: nat, d: Dispatch)
    requires Runs(worlds, steps) && i <= j <= |steps| && worlds[i].shutdown == Some(Closed)
    ensures worlds[j].gate.closing && !worlds[j].gate.workerLost && worlds[j].storageClosed && worlds[j].gate.entries == map[]
    ensures d in worlds[j].workers ==>
            && worlds[j].workers[d].Gone? && !worlds[j].workers[d].completion.WorkerLost?
            && d in worlds[j].tickets && worlds[j].tickets[d].completion == Some(worlds[j].workers[d].completion)
  {
    GrowsAlways(worlds, steps, i, j);
    InvAlways(worlds, steps, j);
    assert worlds[j].gate.entries.Keys == {};
  }

  /** Tickets are write-once over the whole execution. */
  lemma TicketsAreFinal(worlds: seq<World>, steps: seq<Step>, i: nat, j: nat, d: Dispatch)
    requires Runs(worlds, steps) && i <= j <= |steps| && d in worlds[i].tickets
    requires worlds[i].tickets[d].Answer().Some?
    ensures d in worlds[j].tickets && worlds[j].tickets[d].Answer() == worlds[i].tickets[d].Answer()
  {
    GrowsAlways(worlds, steps, i, j);
  }
}
