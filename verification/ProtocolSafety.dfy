/** Invariants of every run of the protocol: the ledger stays good, and the
    broker is asked to submit an order at most once. */
module ProtocolSafety {
  import opened Common
  import opened Lifecycle
  import opened Ledger
  import opened Accounting
  import opened LedgerHistory
  import opened Guards
  import opened Protocol

  function RowOf(task: Task): Option<OrderRow> {
    match task
    case PlaceInterrupted(_, row) => Some(row)
    case PlaceRecorded(_, row) => Some(row)
    case PlaceStarted(_, row) => Some(row)
    case PlaceAnswered(_, row, _) => Some(row)
    case CancelLoaded(row) => Some(row)
    case CancelSent(row) => Some(row)
    case CancelLost(row) => Some(row)
    case FillLoaded(row, _) => Some(row)
    case ConfirmLoaded(row) => Some(row)
    case LateEvidence(row, _) => Some(row)
    case ReconLoaded(row, _) => Some(row)
    case Backfilling(row, _, _) => Some(row)
    case Vanished(row) => Some(row)
    case _ => None
  }

  /** Every snapshot a task holds is one the ledger once showed. */
  ghost predicate TaskOk(l: Durable, task: Task) {
    && (RowOf(task).Some? ==> Loaded(l, RowOf(task).value))
    && (task.PlaceAnswered? ==> !task.answer.ReconcileResolved?)
  }

  ghost predicate GoodEffect(l: Durable, e: Effect) {
    && Good(e.ledger) && Evolves(l, e.ledger)
    && (e.task.Some? ==> TaskOk(e.ledger, e.task.value))
  }

  lemma EvolvesRefl(l: Durable)
    ensures Evolves(l, l)
  {
  }

  lemma LoadIsLoaded(l: Durable, key: string)
    requires Good(l) && Load(l, key).Some?
    ensures Loaded(l, Load(l, key).value) && Load(l, key).value.core.key == key
  {
    LoadedNow(l, FindKey(l.tables.orders, key).value);
  }

  lemma ApplyThenGood(l: Durable, row: OrderRow, event: Event, goOn: OrderRow -> Task)
    requires Good(l) && Loaded(l, row) && !event.ReconcileResolved?
    requires forall r :: RowOf(goOn(r)) == Some(r) && !goOn(r).PlaceAnswered?
    ensures GoodEffect(l, ApplyThen(l, row, event, goOn))
  {
    ApplyKeepsGood(l, row, event);
  }

  lemma EvidenceGood(l: Durable, row: OrderRow, event: Event, cause: string)
    requires Good(l) && Loaded(l, row) && !event.ReconcileResolved?
    ensures GoodEffect(l, Evidence(l, row, event, cause))
  {
    hide Good, Evolves, Loaded, ApplyEvent;
    ApplyKeepsGood(l, row, event);
    LoadedStays(l, ApplyEvent(l, row, event).0, row);
  }

  /** The comparison that ends a reconciliation pass leaves only a resolution
      that repeats what is already booked. */
  lemma ConcludeGood(l: Durable, row: OrderRow, view: BrokerView)
    requires Good(l) && Loaded(l, row)
    ensures GoodEffect(l, Conclude(l, row, view))
  {
    if row.core.filled <= view.filledQty && row.core.filled >= Min(view.filledQty, row.core.qty) {
      var event := ReconcileResolved(StateMap(view.state), Some(view.brokerId), view.filledQty);
      assert Sound(row.core) ==> FillNeutral(row, event);
      ApplyKeepsGood(l, row, event);
    }
  }

  lemma BackfillGood(l: Durable, task: Task, choice: Choice, caps: map<string, real>)
    requires Good(l) && TaskOk(l, task) && task.Backfilling?
    ensures GoodEffect(l, Act(l, task, choice, caps))
  {
    hide Good, Evolves, Loaded, ApplyEvent, Conclude;
    var row, view := task.row, task.found;
    if task.next >= |view.fills| {
      ConcludeGood(l, row, view);
    } else {
      var fill := view.fills[task.next];
      var event := FillReceived(fill.execId, fill.qty, fill.price);
      ApplyKeepsGood(l, row, event);
      LoadedStays(l, ApplyEvent(l, row, event).0, row);
    }
  }

  lemma PlaceGood(l: Durable, task: Task, choice: Choice, caps: map<string, real>)
    requires Good(l) && TaskOk(l, task)
    requires task.PlaceLocked? || task.PlaceInterrupted? || task.PlaceFresh? || task.PlaceUnheld? || task.PlaceSole?
          || task.PlaceMeasured? || task.PlaceGuarded? || task.PlaceRecorded? || task.PlaceStarted?
          || task.PlaceAnswered?
    ensures GoodEffect(l, Act(l, task, choice, caps))
  {
    hide Good, Evolves, Loaded, ApplyEvent, CreateOrder, HasUnresolved, HasOpenEntry, OpenExitRemaining;
    EvolvesRefl(l);
    match task {
      case PlaceLocked(intent) => if Load(l, intent.key).Some? { LoadIsLoaded(l, intent.key); }
      case PlaceInterrupted(_, row) => ApplyKeepsGood(l, row, ReconcileStarted("replayed mid-submission"));
      case PlaceGuarded(intent) => CreateKeepsGood(l, intent);
      case PlaceRecorded(intent, row) => ApplyThenGood(l, row, SubmissionStarted, r => PlaceStarted(intent, r));
      case PlaceAnswered(_, row, answer) => ApplyKeepsGood(l, row, answer);
      case _ =>
    }
  }

  lemma CancelGood(l: Durable, task: Task, choice: Choice, caps: map<string, real>)
    requires Good(l) && TaskOk(l, task)
    requires task.CancelLocked? || task.CancelLoaded? || task.CancelSent? || task.CancelLost?
    ensures GoodEffect(l, Act(l, task, choice, caps))
  {
    hide Good, Evolves, Loaded, ApplyEvent, ApplyThen;
    EvolvesRefl(l);
    match task {
      case CancelLocked(key) => if Load(l, key).Some? { LoadIsLoaded(l, key); }
      case CancelLoaded(row) => ApplyThenGood(l, row, CancelRequested, r => CancelSent(r));
      case CancelLost(row) => ApplyKeepsGood(l, row, ReconcileStarted("cancel timeout"));
      case _ =>
    }
  }

  lemma EventGood(l: Durable, task: Task, choice: Choice, caps: map<string, real>)
    requires Good(l) && TaskOk(l, task)
    requires task.FillLocked? || task.FillLoaded? || task.ConfirmLocked? || task.ConfirmLoaded? || task.LateEvidence?
    ensures GoodEffect(l, Act(l, task, choice, caps))
  {
    hide Good, Evolves, Loaded, ApplyEvent, Evidence;
    EvolvesRefl(l);
    match task {
      case FillLocked(key, _) => if Load(l, key).Some? { LoadIsLoaded(l, key); }
      case FillLoaded(row, f) => EvidenceGood(l, row, FillReceived(f.execId, f.qty, f.price), "late fill " + f.execId);
      case ConfirmLocked(key) => if Load(l, key).Some? { LoadIsLoaded(l, key); }
      case ConfirmLoaded(row) => EvidenceGood(l, row, CancelConfirmed, "late cancel-confirm");
      case LateEvidence(row, cause) => ApplyKeepsGood(l, row, ReconcileStarted(cause));
    }
  }

  lemma ReconGood(l: Durable, task: Task, choice: Choice, caps: map<string, real>)
    requires Good(l) && TaskOk(l, task)
    requires task.ReconLocked? || task.ReconLoaded? || task.Vanished? || task.Backfilling?
    ensures GoodEffect(l, Act(l, task, choice, caps))
  {
    hide Good, Evolves, Loaded, ApplyEvent, ApplyThen;
    EvolvesRefl(l);
    match task {
      case ReconLocked(key, _) => if Load(l, key).Some? { LoadIsLoaded(l, key); }
      case ReconLoaded(row, view) => ApplyThenGood(l, row, ReconcileStarted("reconciler"), r => Adopting(r, view));
      case Vanished(row) => ApplyKeepsGood(l, row, ReconcileResolved(Canceled, row.core.brokerId, row.core.filled));
      case Backfilling(_, _, _) => BackfillGood(l, task, choice, caps);
    }
  }

  lemma ActGood(l: Durable, task: Task, choice: Choice, caps: map<string, real>)
    requires Good(l) && TaskOk(l, task)
    ensures GoodEffect(l, Act(l, task, choice, caps))
  {
    hide GoodEffect, Good, TaskOk, Act;
    match task {
      case CancelLocked(_) | CancelLoaded(_) | CancelSent(_) | CancelLost(_) => CancelGood(l, task, choice, caps);
      case FillLocked(_, _) | FillLoaded(_, _) | ConfirmLocked(_) | ConfirmLoaded(_) | LateEvidence(_, _) =>
        EventGood(l, task, choice, caps);
      case ReconLocked(_, _) | ReconLoaded(_, _) | Vanished(_) | Backfilling(_, _, _) =>
        ReconGood(l, task, choice, caps);
      case _ => PlaceGood(l, task, choice, caps);
    }
  }

  // ---------------------------------------------------------------- every run keeps the ledger good

  ghost predicate Sane(s: System) {
    && Good(s.ledger)
    && (forall i <- s.held :: TaskOk(s.ledger, s.held[i]))
    && (forall id <- s.imports :: Loaded(s.ledger, s.imports[id]))
  }

  lemma OthersStay(s: System, l': Durable)
    requires Sane(s) && Evolves(s.ledger, l')
    ensures forall i <- s.held :: TaskOk(l', s.held[i])
    ensures forall id <- s.imports :: Loaded(l', s.imports[id])
  {
    forall i <- s.held ensures TaskOk(l', s.held[i]) {
      if RowOf(s.held[i]).Some? { LoadedStays(s.ledger, l', RowOf(s.held[i]).value); }
    }
    forall id <- s.imports ensures Loaded(l', s.imports[id]) {
      LoadedStays(s.ledger, l', s.imports[id]);
    }
  }

  function ImportIntent(key: string, instrument: string, delta: real): Intent
    requires delta != 0.0 && key != ""
  {
    RawIntent(key, instrument, if delta > 0.0 then Buy else Sell, Abs(delta), Entry, None)
  }

  lemma AdvanceIsSane(s: System, instrument: string, choice: Choice)
    requires Sane(s)
    ensures Sane(Next(s, Advance(instrument, choice))) && Evolves(s.ledger, Next(s, Advance(instrument, choice)).ledger)
  {
    hide Good, Evolves, TaskOk, Act, Loaded;
    EvolvesRefl(s.ledger);
    if instrument in s.held {
      ActGood(s.ledger, s.held[instrument], choice, s.caps);
      OthersStay(s, Act(s.ledger, s.held[instrument], choice, s.caps).ledger);
    }
  }

  lemma ImportBeginIsSane(s: System, key: string, instrument: string, delta: real)
    requires Sane(s)
    ensures
      var s' := Next(s, ImportBegin(key, instrument, delta));
      Sane(s') && Evolves(s.ledger, s'.ledger)
  {
    hide Good, Evolves, TaskOk, CreateOrder, Loaded;
    EvolvesRefl(s.ledger);
    if delta != 0.0 && key != "" && FindKey(s.ledger.tables.orders, key).None? {
      var intent := ImportIntent(key, instrument, delta);
      CreateKeepsGood(s.ledger, intent);
      OthersStay(s, CreateOrder(s.ledger, intent).0);
    }
  }

  lemma ImportStepIsSane(s: System, id: nat, price: real)
    requires Sane(s)
    ensures Sane(Next(s, ImportStep(id, price))) && Evolves(s.ledger, Next(s, ImportStep(id, price)).ledger)
  {
    hide Good, Evolves, TaskOk, ApplyEvent, Loaded;
    EvolvesRefl(s.ledger);
    if id in s.imports {
      ApplyKeepsGood(s.ledger, s.imports[id], NextImport(s.imports[id], price));
      OthersStay(s, ApplyEvent(s.ledger, s.imports[id], NextImport(s.imports[id], price)).0);
    }
  }

  lemma CrashIsNeutral(s: System)
    requires Sane(s)
    ensures Next(s, Crash) == s.(held := map[], imports := map[])
  {
  }

  lemma NextIsSane(s: System, move: Move)
    requires Sane(s)
    ensures Sane(Next(s, move)) && Evolves(s.ledger, Next(s, move).ledger)
  {
    match move {
      case Acquire(instrument, task) => AcquireIsSane(s, instrument, task);
      case Advance(instrument, choice) => AdvanceIsSane(s, instrument, choice);
      case ImportBegin(key, instrument, delta) => ImportBeginIsSane(s, key, instrument, delta);
      case ImportStep(id, price) => ImportStepIsSane(s, id, price);
      case Crash => CrashIsNeutral(s);
    }
  }

  lemma AcquireIsSane(s: System, instrument: string, task: Task)
    requires Sane(s)
    ensures Sane(Next(s, Acquire(instrument, task))) && Next(s, Acquire(instrument, task)).ledger == s.ledger
  {
    hide Good, Evolves, Loaded;
  }

  lemma {:induction false} RunsAreSane(caps: map<string, real>, moves: seq<Move>)
    ensures Sane(Execute(caps, moves))
  {
    if moves == [] {
      EmptyIsGood();
    } else {
      RunsAreSane(caps, moves[..|moves| - 1]);
      NextIsSane(Execute(caps, moves[..|moves| - 1]), moves[|moves| - 1]);
    }
  }

  /** In every reachable state, however events, reconciliation, imports and
      crashes interleave: an order's recorded fill is the clamp of the distinct
      executions booked to it, a position is the signed sum of all fill rows, and
      rebuilding from the log would change nothing. */
  lemma FillsAreConserved(caps: map<string, real>, moves: seq<Move>)
    ensures
      var l := Execute(caps, moves).ledger;
      var t := l.tables;
      && DistinctFills(t.fills) && KnownOrders(t.fills, t.orders)
      && (forall id | 0 <= id < |t.orders| ::
            t.orders[id].core.filled == Min(t.orders[id].core.qty, Executed(t.fills, id)))
      && (forall i: string :: PositionOf(t, i) == SignedSum(t.fills, t.orders, i))
      && Replay(l.events) == Some(t)
  {
    RunsAreSane(caps, moves);
  }

  /** Same fill rows, same positions, and the same recorded fill on every order. */
  ghost predicate SameBooks(t: Tables, t': Tables) {
    && t'.fills == t.fills
    && |t.orders| <= |t'.orders|
    && (forall id | 0 <= id < |t.orders| :: t'.orders[id].core.filled == t.orders[id].core.filled)
    && (forall i: string :: PositionOf(t', i) == PositionOf(t, i))
  }

  /** Between two good ledgers the fill rows decide everything else. */
  lemma FillsDecide(l: Durable, l': Durable)
    requires Good(l) && Good(l') && Evolves(l, l') && l'.tables.fills == l.tables.fills
    ensures SameBooks(l.tables, l'.tables)
  {
    forall i: string ensures PositionOf(l'.tables, i) == PositionOf(l.tables, i) {
      SignedSumStable(l.tables.fills, l.tables.orders, l'.tables.orders, i);
    }
  }

  predicate BringsNoFill(l: Durable, task: Task) {
    match task
    case FillLoaded(_, fill) => HasExec(l.tables.fills, fill.execId)
    case Backfilling(_, view, next) => next < |view.fills| ==> HasExec(l.tables.fills, view.fills[next].execId)
    case PlaceAnswered(_, _, answer) => !answer.FillReceived?
    case _ => true
  }

  lemma NoFillNoRow(l: Durable, row: OrderRow, event: Event)
    requires event.FillReceived? ==> HasExec(l.tables.fills, event.execId)
    ensures ApplyEvent(l, row, event).0.tables.fills == l.tables.fills
  {
  }

  lemma NoFillTaken(l: Durable, task: Task, choice: Choice, caps: map<string, real>)
    requires BringsNoFill(l, task)
    ensures Act(l, task, choice, caps).ledger.tables.fills == l.tables.fills
  {
    forall row: OrderRow, event: Event | event.FillReceived? ==> HasExec(l.tables.fills, event.execId)
      ensures ApplyEvent(l, row, event).0.tables.fills == l.tables.fills
    {
      NoFillNoRow(l, row, event);
    }
    hide ApplyEvent, HasExec, Load, EntryQty, ExitQty, OpenExitRemaining, HasUnresolved, HasOpenEntry, PositionOf;
  }

  /** Redelivering a booked execution, resolving an order, opening it for
      reconciliation or submitting it: nothing but a new execution ever moves a
      fill row, a position or a recorded fill. */
  lemma OnlyNewExecutionsCount(l: Durable, task: Task, choice: Choice, caps: map<string, real>)
    requires Good(l) && TaskOk(l, task) && BringsNoFill(l, task)
    ensures SameBooks(l.tables, Act(l, task, choice, caps).ledger.tables)
  {
    hide Good, TaskOk, Act, SameBooks, Evolves;
    ActGood(l, task, choice, caps);
    NoFillTaken(l, task, choice, caps);
    FillsDecide(l, Act(l, task, choice, caps).ledger);
  }
}
