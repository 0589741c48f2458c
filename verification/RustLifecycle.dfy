/** The lifecycle function again, as the engine has it: quantities are checked
    64-bit integers in units of 1e-8, and a known venue id survives a resolution
    that does not carry one.  Written independently of `Lifecycle`, so that the
    agreement proved below pins both. */
module RustLifecycle {
  import opened Common
  import Py = Lifecycle

  const OVERFILL_GROSS_MULTIPLE := 2

  type State = Py.State

  datatype Event =
    | SubmissionStarted
    | VenueAcked(venueOrderId: string)
    | VenueRejected(text: string)
    | SubmissionTimedOut
    | FillReceived(execId: string, qty: I64, price: I64)
    | CancelRequested
    | CancelConfirmed
    | ReconcileStarted(cause: string)
    | ReconcileResolved(state: State, venueId: Option<string>, filledQty: I64)

  datatype OrderCore = OrderCore(
    clientOrderId: string,
    instrument: string,
    side: Side,
    qty: I64,
    filledQty: I64,
    state: State,
    venueOrderId: Option<string>)

  datatype Error = Illegal | RequiresReconciliation | NonPositiveFill | Overfill | Overflow

  datatype Result = Ok(order: OrderCore) | Err(error: Error)

  predicate IsTerminal(s: State) {
    s.Filled? || s.Canceled? || s.Rejected?
  }

  /** States reachable from this one, listed as the engine lists them. */
  function Allowed(s: State): seq<State> {
    match s
    case Created => [Py.Submitting, Py.Reconciling]
    case Submitting => [Py.Working, Py.Partial, Py.Filled, Py.Rejected, Py.Unknown, Py.Reconciling]
    case Working => [Py.Partial, Py.Filled, Py.CancelPending, Py.Canceled, Py.Reconciling]
    case Partial => [Py.Partial, Py.Filled, Py.CancelPending, Py.Canceled, Py.Reconciling]
    case CancelPending => [Py.CancelPending, Py.Canceled, Py.Filled, Py.Reconciling]
    case Unknown => [Py.Reconciling]
    case Reconciling => [Py.Reconciling, Py.Working, Py.Partial, Py.Filled, Py.Canceled, Py.Rejected]
    case Filled | Canceled | Rejected => [Py.Reconciling]
  }

  predicate Permits(from: State, to: State) {
    to in Allowed(from)
  }

  function CheckedAdd(a: I64, b: I64): Option<I64> {
    if FitsI64(a + b) then Some(a + b) else None
  }

  function MinQty(a: I64, b: I64): I64 {
    if b < a then b else a
  }

  /** The ceiling as the additions that cannot wrap. */
  function Ceiling(qty: I64): Option<I64> {
    CheckedAdd(qty, qty)
  }

  /** `qty` times the gross multiple, by checked addition. */
  method GrossCeiling(qty: I64) returns (r: Option<I64>)
    ensures r == if FitsI64(OVERFILL_GROSS_MULTIPLE * qty) then Some(OVERFILL_GROSS_MULTIPLE * qty) else None
    ensures r == Ceiling(qty)
  {
    var ceiling: I64 := qty;
    for i := 1 to OVERFILL_GROSS_MULTIPLE
      invariant ceiling == i * qty
    {
      var next := CheckedAdd(ceiling, qty);
      match next {
        case None => return None;
        case Some(sum) => ceiling := sum;
      }
    }
    return Some(ceiling);
  }

  function ApplyFill(order: OrderCore, fill: I64): Result {
    var s := order.state;
    if IsTerminal(s) || s.Unknown? then Err(RequiresReconciliation)
    else if !(s.Submitting? || s.Working? || s.Partial? || s.CancelPending? || s.Reconciling?) then Err(Illegal)
    else if fill <= 0 then Err(NonPositiveFill)
    else
      match CheckedAdd(order.filledQty, fill)
      case None => Err(Overflow)
      case Some(newFilled) =>
        match Ceiling(order.qty)
        case None => Err(Overflow)
        case Some(ceiling) =>
          if newFilled > ceiling then Err(Overfill)
          else
            var recorded := MinQty(newFilled, order.qty);
            var target :=
              if s.Reconciling? then Py.Reconciling
              else if recorded >= order.qty then Py.Filled
              else if s.CancelPending? then Py.CancelPending
              else Py.Partial;
            if Permits(s, target) then Ok(order.(state := target, filledQty := recorded)) else Err(Illegal)
  }

  function ApplyCancelConfirmed(order: OrderCore): Result {
    match order.state
    case Reconciling | Canceled => Ok(order)
    case Filled | Rejected | Unknown => Err(RequiresReconciliation)
    case CancelPending | Working | Partial =>
      if Permits(order.state, Py.Canceled) then Ok(order.(state := Py.Canceled)) else Err(Illegal)
    case Created | Submitting => Err(Illegal)
  }

  function OrElse(id: Option<string>, known: Option<string>): Option<string> {
    if id.Some? then id else known
  }

  function Transition(order: OrderCore, event: Event): Result {
    var s := order.state;
    match event
    case SubmissionStarted =>
      if s.Created? && Permits(s, Py.Submitting) then Ok(order.(state := Py.Submitting)) else Err(Illegal)
    case VenueAcked(id) =>
      if s.Submitting? && Permits(s, Py.Working)
      then Ok(order.(state := Py.Working, venueOrderId := Some(id))) else Err(Illegal)
    case VenueRejected(_) =>
      if s.Submitting? && Permits(s, Py.Rejected) then Ok(order.(state := Py.Rejected)) else Err(Illegal)
    case SubmissionTimedOut =>
      if s.Submitting? && Permits(s, Py.Unknown) then Ok(order.(state := Py.Unknown)) else Err(Illegal)
    case FillReceived(_, qty, _) => ApplyFill(order, qty)
    case CancelRequested =>
      if (s.Working? || s.Partial?) && Permits(s, Py.CancelPending)
      then Ok(order.(state := Py.CancelPending)) else Err(Illegal)
    case CancelConfirmed => ApplyCancelConfirmed(order)
    case ReconcileStarted(_) =>
      if !s.Reconciling? && Permits(s, Py.Reconciling) then Ok(order.(state := Py.Reconciling)) else Err(Illegal)
    case ReconcileResolved(state, venueId, filledQty) =>
      if !s.Reconciling? || !Permits(s, state) then Err(Illegal)
      else
        match Ceiling(order.qty)
        case None => Err(Overflow)
        case Some(ceiling) =>
          if filledQty < 0 || filledQty > ceiling then Err(Overfill)
          else
            Ok(order.(state := state,
                      venueOrderId := OrElse(venueId, order.venueOrderId),
                      filledQty := MinQty(filledQty, order.qty)))
  }

  // ---------------------------------------------------------------- the two lifecycles agree

  function Dec(raw: int): real {
    raw as real / 100_000_000.0
  }

  function LiftOrder(o: OrderCore, orderId: nat): Py.Order {
    Py.Order(orderId, o.clientOrderId, o.instrument, Dec(o.qty), Dec(o.filledQty), o.state, o.venueOrderId)
  }

  function LiftEvent(e: Event): Py.Event {
    match e
    case SubmissionStarted => Py.SubmissionStarted
    case VenueAcked(id) => Py.BrokerAcked(id)
    case VenueRejected(text) => Py.BrokerRejected(text)
    case SubmissionTimedOut => Py.SubmissionTimedOut
    case FillReceived(execId, qty, price) => Py.FillReceived(execId, Dec(qty), Dec(price))
    case CancelRequested => Py.CancelRequested
    case CancelConfirmed => Py.CancelConfirmed
    case ReconcileStarted(cause) => Py.ReconcileStarted(cause)
    case ReconcileResolved(state, id, filledQty) => Py.ReconcileResolved(state, id, Dec(filledQty))
  }

  function LiftError(e: Error): Py.Fault {
    match e
    case Illegal | NonPositiveFill | Overflow => Py.IllegalTransition
    case RequiresReconciliation => Py.RequiresReconciliation
    case Overfill => Py.OverfillViolation
  }

  /** The one place the two differ on a success: a resolution that carries no
      venue id forgets a known one there and keeps it here. */
  predicate ForgetsVenueId(o: OrderCore, e: Event) {
    e.ReconcileResolved? && e.venueId.None? && o.venueOrderId.Some?
  }

  lemma DecOrder(a: int, b: int)
    ensures Dec(a) < Dec(b) <==> a < b
    ensures Dec(a) + Dec(b) == Dec(a + b)
    ensures Dec(a) * Py.OVERFILL_GROSS == Dec(2 * a)
    ensures Dec(0) == 0.0
  {
  }

  /** The lists are the map. */
  lemma AllowedAgree(s: State, t: State)
    ensures Permits(s, t) <==> t in Py.Allowed(s)
    ensures IsTerminal(s) <==> Py.IsTerminal(s)
  {
  }

  predicate Agree(o: OrderCore, e: Event, orderId: nat) {
    var py := Py.Transition(LiftOrder(o, orderId), LiftEvent(e));
    match Transition(o, e)
    case Err(error) => py == Py.Err(LiftError(error))
    case Ok(n) =>
      && py.Ok?
      && py.order.(brokerId := n.venueOrderId) == LiftOrder(n, orderId)
      && (py == Py.Ok(LiftOrder(n, orderId)) <==> !ForgetsVenueId(o, e))
  }

  lemma FillsAgree(o: OrderCore, e: Event, orderId: nat)
    requires e.FillReceived? && Transition(o, e) != Err(Overflow)
    ensures Agree(o, e, orderId)
  {
    DecOrder(0, e.qty);
    DecOrder(o.filledQty, e.qty);
    DecOrder(2 * o.qty, o.filledQty + e.qty);
    DecOrder(o.qty, o.filledQty + e.qty);
    DecOrder(o.filledQty + e.qty, o.qty);
    var recorded: int := if o.qty < o.filledQty + e.qty then o.qty else o.filledQty + e.qty;
    AllowedAgree(o.state, Py.FillTarget(o.state, recorded >= o.qty));
  }

  lemma ResolutionsAgree(o: OrderCore, e: Event, orderId: nat)
    requires e.ReconcileResolved? && Transition(o, e) != Err(Overflow)
    ensures Agree(o, e, orderId)
  {
    DecOrder(e.filledQty, 0);
    DecOrder(2 * o.qty, e.filledQty);
    DecOrder(o.qty, e.filledQty);
    AllowedAgree(o.state, e.state);
  }

  lemma SubmissionMovesAgree(o: OrderCore, e: Event, orderId: nat)
    requires e.SubmissionStarted? || e.VenueAcked? || e.VenueRejected? || e.SubmissionTimedOut?
    ensures Transition(o, e) != Err(Overflow) && Agree(o, e, orderId)
  {
  }

  lemma LaterMovesAgree(o: OrderCore, e: Event, orderId: nat)
    requires e.CancelRequested? || e.CancelConfirmed? || e.ReconcileStarted?
    ensures Transition(o, e) != Err(Overflow) && Agree(o, e, orderId)
  {
  }

  /** Short of 64-bit overflow the engine accepts and refuses exactly what the
      ledger's lifecycle does, for the same reason and with the same result; the
      results coincide if and only if no venue id is forgotten. */
  lemma LifecyclesAgree(o: OrderCore, e: Event, orderId: nat)
    requires Transition(o, e) != Err(Overflow)
    ensures Agree(o, e, orderId)
  {
    match e {
      case FillReceived(_, _, _) => FillsAgree(o, e, orderId);
      case ReconcileResolved(_, _, _) => ResolutionsAgree(o, e, orderId);
      case CancelRequested | CancelConfirmed | ReconcileStarted(_) => LaterMovesAgree(o, e, orderId);
      case _ => SubmissionMovesAgree(o, e, orderId);
    }
  }

  /** When the engine reports overflow. */
  lemma OverflowExactly(o: OrderCore, e: Event)
    requires 0 < o.qty && 0 <= o.filledQty <= o.qty
    ensures Transition(o, e) == Err(Overflow) <==>
      || (&& e.FillReceived? && e.qty > 0
          && o.state in {Py.Submitting, Py.Working, Py.Partial, Py.CancelPending, Py.Reconciling}
          && (o.filledQty + e.qty > I64_MAX || 2 * o.qty > I64_MAX))
      || (&& e.ReconcileResolved? && o.state.Reconciling? && Permits(o.state, e.state)
          && 2 * o.qty > I64_MAX)
  {
  }
}
