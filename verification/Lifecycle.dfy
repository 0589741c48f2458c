/** The order lifecycle that the ledger folds: states, events and the pure
    transition function.  Quantities are exact decimals, modelled as reals. */
module Lifecycle {
  import opened Common

  datatype State =
    | Created | Submitting | Working | Partial | CancelPending
    | Unknown | Reconciling | Filled | Canceled | Rejected

  predicate IsTerminal(s: State) {
    s in {Filled, Canceled, Rejected}
  }

  /** The allowed-transition map. */
  function Allowed(s: State): set<State> {
    match s
    case Created => {Submitting, Reconciling}
    case Submitting => {Working, Partial, Filled, Rejected, Unknown, Reconciling}
    case Working => {Partial, Filled, CancelPending, Canceled, Reconciling}
    case Partial => {Partial, Filled, CancelPending, Canceled, Reconciling}
    case CancelPending => {CancelPending, Canceled, Filled, Reconciling}
    case Unknown => {Reconciling}
    case Reconciling => {Reconciling, Working, Partial, Filled, Canceled, Rejected}
    case Filled => {Reconciling}
    case Canceled => {Reconciling}
    case Rejected => {Reconciling}
  }

  datatype Event =
    | SubmissionStarted
    | BrokerAcked(brokerId: string)
    | BrokerRejected(reason: string)
    | SubmissionTimedOut
    | FillReceived(execId: string, qty: real, price: real)
    | CancelRequested
    | CancelConfirmed
    | ReconcileStarted(cause: string)
    | ReconcileResolved(resolved: State, venueId: Option<string>, filledQty: real)

  /** What transition decisions depend on, and nothing else. */
  datatype Order = Order(
    orderId: nat,
    key: string,
    instrument: string,
    qty: real,
    filled: real,
    state: State,
    brokerId: Option<string>)

  datatype Fault = IllegalTransition | RequiresReconciliation | OverfillViolation

  datatype Outcome = Ok(order: Order) | Err(fault: Fault)

  /** Beyond this multiple of its quantity an order's fill is a fault, not an over-match. */
  const OVERFILL_GROSS := 2.0

  function Guarded(order: Order, target: State, after: Order): Outcome {
    if target in Allowed(order.state) then Ok(after) else Err(IllegalTransition)
  }

  function FillTarget(s: State, complete: bool): State {
    if s == Reconciling then Reconciling
    else if complete then Filled
    else if s == CancelPending then CancelPending
    else Partial
  }

  function ApplyFill(order: Order, qty: real): Outcome {
    var s := order.state;
    if IsTerminal(s) || s == Unknown then Err(RequiresReconciliation)
    else if s !in {Submitting, Working, Partial, CancelPending, Reconciling} then Err(IllegalTransition)
    else if qty <= 0.0 then Err(IllegalTransition)
    else
      var newFilled := order.filled + qty;
      if newFilled > order.qty * OVERFILL_GROSS then Err(OverfillViolation)
      else
        var recorded := Min(newFilled, order.qty);
        var target := FillTarget(s, recorded >= order.qty);
        Guarded(order, target, order.(state := target, filled := recorded))
  }

  function ApplyCancelConfirmed(order: Order): Outcome {
    var s := order.state;
    if s == Reconciling || s == Canceled then Ok(order)
    else if IsTerminal(s) || s == Unknown then Err(RequiresReconciliation)
    else if s !in {CancelPending, Working, Partial} then Err(IllegalTransition)
    else Guarded(order, Canceled, order.(state := Canceled))
  }

  function ApplyResolution(order: Order, resolved: State, venueId: Option<string>, filledQty: real): Outcome {
    if order.state != Reconciling || resolved !in Allowed(order.state) then Err(IllegalTransition)
    else if filledQty < 0.0 || filledQty > order.qty * OVERFILL_GROSS then Err(OverfillViolation)
    else Ok(order.(state := resolved, brokerId := venueId, filled := Min(filledQty, order.qty)))
  }

  /** (order, event) -> new order, or the reason it is refused. */
  function Transition(order: Order, event: Event): Outcome {
    var s := order.state;
    match event
    case SubmissionStarted =>
      if s != Created then Err(IllegalTransition)
      else Guarded(order, Submitting, order.(state := Submitting))
    case BrokerAcked(id) =>
      if s != Submitting then Err(IllegalTransition)
      else Guarded(order, Working, order.(state := Working, brokerId := Some(id)))
    case BrokerRejected(_) =>
      if s != Submitting then Err(IllegalTransition)
      else Guarded(order, Rejected, order.(state := Rejected))
    case SubmissionTimedOut =>
      if s != Submitting then Err(IllegalTransition)
      else Guarded(order, Unknown, order.(state := Unknown))
    case FillReceived(_, qty, _) => ApplyFill(order, qty)
    case CancelRequested =>
      if s !in {Working, Partial} then Err(IllegalTransition)
      else Guarded(order, CancelPending, order.(state := CancelPending))
    case CancelConfirmed => ApplyCancelConfirmed(order)
    case ReconcileStarted(_) =>
      if s == Reconciling then Err(IllegalTransition)
      else Guarded(order, Reconciling, order.(state := Reconciling))
    case ReconcileResolved(resolved, venueId, filledQty) =>
      ApplyResolution(order, resolved, venueId, filledQty)
  }

  // ---------------------------------------------------------------- runs

  function NewOrder(orderId: nat, key: string, instrument: string, qty: real): Order {
    Order(orderId, key, instrument, qty, 0.0, Created, None)
  }

  predicate Sound(o: Order) {
    0.0 < o.qty && 0.0 <= o.filled <= o.qty
  }

  /** A refused event raises, and leaves the order as it was. */
  function Step(o: Order, e: Event): Order {
    match Transition(o, e)
    case Ok(next) => next
    case Err(_) => o
  }

  function Run(o: Order, events: seq<Event>): Order {
    if events == [] then o
    else Step(Run(o, events[..|events| - 1]), events[|events| - 1])
  }

  /** How often a run moves an order into SUBMITTING. */
  function Submissions(o: Order, events: seq<Event>): nat {
    if events == [] then 0
    else
      var before := Run(o, events[..|events| - 1]);
      var after := Step(before, events[|events| - 1]);
      Submissions(o, events[..|events| - 1])
      + (if before.state != Submitting && after.state == Submitting then 1 else 0)
  }

  predicate SameAuthorisation(a: Order, b: Order) {
    a.orderId == b.orderId && a.key == b.key && a.instrument == b.instrument && a.qty == b.qty
  }

  /** One accepted event, read off the order before and after it. */
  lemma StepFacts(o: Order, e: Event)
    requires Sound(o) && Transition(o, e).Ok?
    ensures
      var n := Transition(o, e).order;
      && Sound(n) && SameAuthorisation(o, n)
      && (n.state in Allowed(o.state) || (n == o && e.CancelConfirmed? && o.state == Canceled))
      && (n.state == Submitting ==> o.state == Created)
      && (IsTerminal(o.state) || o.state == Unknown ==> n.state in {o.state, Reconciling})
      && (o.state == Reconciling && n.state != Reconciling ==> e.ReconcileResolved?)
      && (!e.FillReceived? && !e.ReconcileResolved? ==> n.filled == o.filled)
      && (e.FillReceived? ==> 0.0 < e.qty && n.filled == Min(o.filled + e.qty, o.qty))
      && (e.ReconcileResolved? ==> n.filled == Min(e.filledQty, o.qty) && n.state == e.resolved)
      && (n.state == Filled && o.state != Reconciling ==> e.FillReceived? && n.filled == n.qty)
      && (n.brokerId == o.brokerId || e.BrokerAcked? || e.ReconcileResolved?)
  {
  }

  /** Nothing leads back to CREATED, and SUBMITTING is entered at most once,
      and never after the order has left CREATED. */
  lemma {:induction false} RunFromCreated(o: Order, events: seq<Event>)
    requires Sound(o) && o.state == Created
    ensures
      var n := Run(o, events);
      && Sound(n) && SameAuthorisation(o, n)
      && Submissions(o, events) <= 1
      && (n.state == Created ==> Submissions(o, events) == 0)
  {
    if events != [] {
      RunFromCreated(o, events[..|events| - 1]);
      var before := Run(o, events[..|events| - 1]);
      var last := events[|events| - 1];
      if Transition(before, last).Ok? { StepFacts(before, last); }
    }
  }

  // ---------------------------------------------------------------- the gross ceiling

  /** Raw quantity of the fills a run accepts. */
  function RawFills(o: Order, events: seq<Event>): real {
    if events == [] then 0.0
    else
      var last := events[|events| - 1];
      RawFills(o, events[..|events| - 1])
      + if last.FillReceived? && Transition(Run(o, events[..|events| - 1]), last).Ok? then last.qty else 0.0
  }

  predicate ReconciliationFree(events: seq<Event>) {
    forall i | 0 <= i < |events| :: !events[i].ReconcileStarted? && !events[i].ReconcileResolved?
  }

  /** The order carries exactly the clamp of `gross`, within the ceiling. */
  predicate CarriesClamp(o: Order, gross: real) {
    && o.state != Reconciling && Sound(o)
    && gross <= OVERFILL_GROSS * o.qty
    && o.filled == Min(gross, o.qty)
    && (gross <= o.qty || o.state == Filled)
  }

  lemma CarriesClampStep(o: Order, e: Event, gross: real)
    requires CarriesClamp(o, gross) && !e.ReconcileStarted? && !e.ReconcileResolved?
    ensures SameAuthorisation(o, Step(o, e))
    ensures CarriesClamp(Step(o, e), gross + if e.FillReceived? && Transition(o, e).Ok? then e.qty else 0.0)
  {
  }

  /** Outside reconciliation the recorded fill is exactly the clamp of everything
      that was executed, and the gross ceiling holds however the run continues. */
  lemma {:induction false} GrossCeiling(o: Order, events: seq<Event>)
    requires Sound(o) && o.state != Reconciling && ReconciliationFree(events)
    ensures
      var n := Run(o, events);
      SameAuthorisation(o, n) && CarriesClamp(n, o.filled + RawFills(o, events))
  {
    if events != [] {
      var before := events[..|events| - 1];
      GrossCeiling(o, before);
      CarriesClampStep(Run(o, before), events[|events| - 1], o.filled + RawFills(o, before));
    }
  }

  function OverMatches(qty: real, fills: nat): seq<Event> {
    if fills == 0 then [] else OverMatches(qty, fills - 1) + [FillReceived("", qty, 1.0)]
  }

  function Times(fills: nat, qty: real): real {
    if fills == 0 then 0.0 else Times(fills - 1, qty) + qty
  }

  lemma OverMatchTolerated(o: Order)
    requires 0.0 < o.qty && o.state == Reconciling && o.filled == o.qty
    ensures Transition(o, FillReceived("", o.qty, 1.0)) == Ok(o)
  {
  }

  /** While reconciling, each over-match is tolerated on its own: the clamp
      forgets the excess, so no multiple of the quantity bounds the raw fills. */
  lemma {:induction false} ReconcilingForgetsExcess(o: Order, fills: nat)
    requires 0.0 < o.qty && o.state == Reconciling && o.filled == o.qty
    ensures Run(o, OverMatches(o.qty, fills)) == o
    ensures RawFills(o, OverMatches(o.qty, fills)) == Times(fills, o.qty)
  {
    hide Transition;
    if fills > 0 {
      ReconcilingForgetsExcess(o, fills - 1);
      var events := OverMatches(o.qty, fills);
      assert events[..|events| - 1] == OverMatches(o.qty, fills - 1);
      OverMatchTolerated(o);
    }
  }
}
