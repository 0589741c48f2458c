/** The order-integrity protocol as a labelled transition system.

    The ledger is durable; locks, tasks and snapshots are memory and are lost in a
    crash.  A task holds its instrument's lock from `Acquire` until it is done, and
    between two of its steps anything else may happen: tasks on other instruments,
    position imports, which take no lock, or a crash.  The broker's answers, its
    event stream and its query results are whatever the moves say. */
module Protocol {
  import opened Common
  import opened Lifecycle
  import opened Ledger
  import opened Guards

  datatype SubmitAnswer = Accepted(brokerId: string) | Declined(reason: string) | TimedOut

  datatype BrokerFill = BrokerFill(execId: string, qty: real, price: real)

  datatype BrokerState = BWorking | BPartial | BFilled | BCanceled | BRejected

  /** The broker's view of an order, as a reconciliation query returns it. */
  datatype BrokerView = BrokerView(brokerId: string, state: BrokerState, filledQty: real, fills: seq<BrokerFill>)

  function StateMap(s: BrokerState): State {
    match s
    case BWorking => Working
    case BPartial => Partial
    case BFilled => Filled
    case BCanceled => Canceled
    case BRejected => Rejected
  }

  datatype Task =
    | PlaceLocked(intent: Intent)
    | PlaceInterrupted(intent: Intent, row: OrderRow)   // replayed while frozen mid-submission
    | PlaceFresh(intent: Intent)                         // the key is unknown
    | PlaceUnheld(intent: Intent)                        // entry: nothing unresolved here
    | PlaceSole(intent: Intent)                          // entry: no live entry here
    | PlaceMeasured(intent: Intent, position: real)      // exit: position read
    | PlaceGuarded(intent: Intent)                       // guards passed, quantity clamped
    | PlaceRecorded(intent: Intent, row: OrderRow)       // intent durable
    | PlaceStarted(intent: Intent, row: OrderRow)        // submission start durable
    | PlaceAnswered(intent: Intent, row: OrderRow, answer: Event)
    | CancelLocked(key: string)
    | CancelLoaded(row: OrderRow)
    | CancelSent(row: OrderRow)
    | CancelLost(row: OrderRow)
    | FillLocked(key: string, fill: BrokerFill)
    | FillLoaded(row: OrderRow, fill: BrokerFill)
    | ConfirmLocked(key: string)
    | ConfirmLoaded(row: OrderRow)
    | LateEvidence(row: OrderRow, cause: string)
    | ReconLocked(key: string, view: Option<BrokerView>)
    | ReconLoaded(row: OrderRow, view: Option<BrokerView>)
    | Backfilling(row: OrderRow, found: BrokerView, next: nat)
    | Vanished(row: OrderRow)                            // the broker no longer knows the order

  /** What the broker does in a step that talks to it. */
  datatype Choice = Quiet | Answer(answer: SubmitAnswer) | CancelTimesOut

  /** A broker submission, with the ledger as it was when it was made. */
  datatype Submission = Submission(row: OrderRow, at: Durable)

  datatype Effect = Effect(ledger: Durable, task: Option<Task>, submitted: Option<Submission>)

  function Done(l: Durable): Effect {
    Effect(l, None, None)
  }

  function Continue(l: Durable, task: Task): Effect {
    Effect(l, Some(task), None)
  }

  function Load(l: Durable, key: string): Option<OrderRow> {
    match FindKey(l.tables.orders, key)
    case None => None
    case Some(i) => Some(l.tables.orders[i])
  }

  /** Apply an event and, if it commits, go on with the row it returns. */
  function ApplyThen(l: Durable, row: OrderRow, event: Event, goOn: OrderRow -> Task): Effect {
    var (l', out) := ApplyEvent(l, row, event);
    if out.Updated? then Continue(l', goOn(out.row)) else Done(l')
  }

  function ApplyLast(l: Durable, row: OrderRow, event: Event): Effect {
    Done(ApplyEvent(l, row, event).0)
  }

  function AnswerEvent(answer: SubmitAnswer): Event {
    match answer
    case Accepted(id) => BrokerAcked(id)
    case Declined(reason) => BrokerRejected(reason)
    case TimedOut => SubmissionTimedOut
  }

  /** Evidence from the event stream: applied, or the order is opened for reconciliation. */
  function Evidence(l: Durable, row: OrderRow, event: Event, cause: string): Effect {
    var (l', out) := ApplyEvent(l, row, event);
    if out == Refused(RequiresReconciliation) then Continue(l', LateEvidence(row, cause)) else Done(l')
  }

  /** The end of a reconciliation pass: resolve, or leave the order reconciling
      for another query or a halt. */
  function Conclude(l: Durable, row: OrderRow, view: BrokerView): Effect {
    var booked := row.core.filled;
    if booked <= view.filledQty && booked >= Min(view.filledQty, row.core.qty)
    then ApplyLast(l, row, ReconcileResolved(StateMap(view.state), Some(view.brokerId), view.filledQty))
    else Done(l)
  }

  /** One atomic action of whichever task holds an instrument's lock. */
  function Act(l: Durable, task: Task, choice: Choice, caps: map<string, real>): Effect {
    match task
    case PlaceLocked(intent) =>
      (match Load(l, intent.key)
       case None => Continue(l, PlaceFresh(intent))
       case Some(row) =>
         if row.core.state == Submitting then Continue(l, PlaceInterrupted(intent, row)) else Done(l))
    case PlaceInterrupted(_, row) => ApplyLast(l, row, ReconcileStarted("replayed mid-submission"))
    case PlaceFresh(intent) =>
      if intent.authority == ProtectiveExit
      then Continue(l, PlaceMeasured(intent, PositionOf(l.tables, intent.instrument)))
      else if HasUnresolved(l.tables.orders, intent.instrument) then Done(l)
      else Continue(l, PlaceUnheld(intent))
    case PlaceUnheld(intent) =>
      if HasOpenEntry(l.tables.orders, intent.instrument) then Done(l) else Continue(l, PlaceSole(intent))
    case PlaceSole(intent) =>
      var cap := if intent.instrument in caps then Some(caps[intent.instrument]) else None;
      var position := PositionOf(l.tables, intent.instrument);
      EntryStaysUnderCap(position, intent, cap);
      (match EntryQty(position, intent, cap)
       case None => Done(l)
       case Some(qty) => Continue(l, PlaceGuarded(intent.(qty := qty))))
    case PlaceMeasured(intent, position) =>
      (match ExitQty(position, OpenExitRemaining(l.tables.orders, intent.instrument), intent)
       case None => Done(l)
       case Some(qty) => Continue(l, PlaceGuarded(intent.(qty := qty))))
    case PlaceGuarded(intent) =>
      var (l', row) := CreateOrder(l, intent);
      Continue(l', PlaceRecorded(intent, row))
    case PlaceRecorded(intent, row) => ApplyThen(l, row, SubmissionStarted, r => PlaceStarted(intent, r))
    case PlaceStarted(intent, row) =>
      var answer := if choice.Answer? then choice.answer else TimedOut;
      Effect(l, Some(PlaceAnswered(intent, row, AnswerEvent(answer))), Some(Submission(row, l)))
    case PlaceAnswered(_, row, answer) => ApplyLast(l, row, answer)
    case CancelLocked(key) =>
      (match Load(l, key)
       case None => Done(l)
       case Some(row) => Continue(l, CancelLoaded(row)))
    case CancelLoaded(row) => ApplyThen(l, row, CancelRequested, r => CancelSent(r))
    case CancelSent(row) => if choice.CancelTimesOut? then Continue(l, CancelLost(row)) else Done(l)
    case CancelLost(row) => ApplyLast(l, row, ReconcileStarted("cancel timeout"))
    case FillLocked(key, fill) =>
      (match Load(l, key)
       case None => Done(l)
       case Some(row) => Continue(l, FillLoaded(row, fill)))
    case FillLoaded(row, fill) =>
      Evidence(l, row, FillReceived(fill.execId, fill.qty, fill.price), "late fill " + fill.execId)
    case ConfirmLocked(key) =>
      (match Load(l, key)
       case None => Done(l)
       case Some(row) => Continue(l, ConfirmLoaded(row)))
    case ConfirmLoaded(row) => Evidence(l, row, CancelConfirmed, "late cancel-confirm")
    case LateEvidence(row, cause) => ApplyLast(l, row, ReconcileStarted(cause))
    case ReconLocked(key, view) =>
      (match Load(l, key)
       case None => Done(l)
       case Some(row) =>
         if IsTerminal(row.core.state) then Done(l)
         else if row.core.state != Reconciling then Continue(l, ReconLoaded(row, view))
         else Continue(l, Adopting(row, view)))
    case ReconLoaded(row, view) => ApplyThen(l, row, ReconcileStarted("reconciler"), r => Adopting(r, view))
    case Vanished(row) =>
      ApplyLast(l, row, ReconcileResolved(Canceled, row.core.brokerId, row.core.filled))
    case Backfilling(row, view, next) =>
      if next >= |view.fills| then Conclude(l, row, view)
      else
        var fill := view.fills[next];
        var (l', out) := ApplyEvent(l, row, FillReceived(fill.execId, fill.qty, fill.price));
        match out
        case Updated(row') => Continue(l', Backfilling(row', view, next + 1))
        case Duplicate => Continue(l', Backfilling(row, view, next + 1))
        case _ => Done(l')
  }

  function Adopting(row: OrderRow, view: Option<BrokerView>): Task {
    match view
    case None => Vanished(row)
    case Some(v) => Backfilling(row, v, 0)
  }

  // ---------------------------------------------------------------- the system

  datatype System = System(
    ledger: Durable,
    held: map<string, Task>,          // instrument -> what holds its lock
    imports: map<nat, OrderRow>,      // position imports in flight, with the snapshot each holds
    imported: set<nat>,               // every order a position import ever created
    submissions: seq<Submission>,     // what the broker has been asked to submit
    caps: map<string, real>)

  datatype Move =
    | Acquire(instrument: string, task: Task)
    | Advance(instrument: string, choice: Choice)
    | ImportBegin(key: string, instrument: string, delta: real)
    | ImportStep(orderId: nat, price: real)
    | Crash

  /** A task may start on the instrument its intent names or its order is on. */
  predicate MayStart(l: Durable, instrument: string, task: Task) {
    match task
    case PlaceLocked(intent) => intent.instrument == instrument
    case CancelLocked(key) => OnInstrument(l, key, instrument)
    case FillLocked(key, _) => OnInstrument(l, key, instrument)
    case ConfirmLocked(key) => OnInstrument(l, key, instrument)
    case ReconLocked(key, _) => OnInstrument(l, key, instrument)
    case _ => false
  }

  predicate OnInstrument(l: Durable, key: string, instrument: string) {
    var row := Load(l, key);
    row.Some? && row.value.core.instrument == instrument
  }

  function NextImport(row: OrderRow, price: real): Event {
    if row.core.state == Created then SubmissionStarted
    else FillReceived("X-" + row.core.key, row.core.qty, price)
  }

  function Next(s: System, move: Move): System {
    var l := s.ledger;
    match move
    case Acquire(instrument, task) =>
      if instrument !in s.held && MayStart(l, instrument, task)
      then s.(held := s.held[instrument := task]) else s
    case Advance(instrument, choice) =>
      if instrument !in s.held then s
      else
        var effect := Act(l, s.held[instrument], choice, s.caps);
        s.(ledger := effect.ledger,
           held := match effect.task
                   case None => s.held - {instrument}
                   case Some(task) => s.held[instrument := task],
           submissions := match effect.submitted
                          case None => s.submissions
                          case Some(submission) => s.submissions + [submission])
    case ImportBegin(key, instrument, delta) =>
      if delta == 0.0 || key == "" || FindKey(l.tables.orders, key).Some? then s
      else
        var intent: Intent := RawIntent(key, instrument, if delta > 0.0 then Buy else Sell, Abs(delta), Entry, None);
        var (l', row) := CreateOrder(l, intent);
        s.(ledger := l',
           imports := s.imports[row.core.orderId := row],
           imported := s.imported + {row.core.orderId})
    case ImportStep(id, price) =>
      if id !in s.imports then s
      else
        var row := s.imports[id];
        var (l', out) := ApplyEvent(l, row, NextImport(row, price));
        s.(ledger := l',
           imports := if out.Updated? && row.core.state == Created then s.imports[id := out.row]
                      else s.imports - {id})
    case Crash =>
      // Memory is gone; recovery rebuilds the projections from the event table.
      s.(ledger := l.(tables := match Replay(l.events)
                                case Some(t) => t
                                case None => l.tables),
         held := map[], imports := map[])
  }

  function Start(caps: map<string, real>): System {
    System(EMPTY, map[], map[], {}, [], caps)
  }

  function Execute(caps: map<string, real>, moves: seq<Move>): System {
    if moves == [] then Start(caps)
    else Next(Execute(caps, moves[..|moves| - 1]), moves[|moves| - 1])
  }
}
