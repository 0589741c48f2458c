/** The gateway's book, folded from the journal, and the adversary that reads the
    same journal as an outsider and recomputes what the book should hold. */
module Books {
  import opened Common
  import opened Fixed
  import opened Positions

  datatype Kind =
    | VenueAcked(venueId: string)
    | FillReceived(execId: string, qty: I64, price: I64)
    | ReconcileResolved(newVenueId: string, filledQty: I64)
    | OtherEvent

  /** Journal records, as far as orders and positions depend on them. */
  datatype Record =
    | IntentPersisted(id: string, instrument: string, side: Side, qty: I64)
    | OrderEvent(orderId: string, to: string, applied: bool, kind: Kind)
    | Elsewhere

  datatype BookedOrder = BookedOrder(
    instrument: string, side: Side, qty: I64, filled: I64, remaining: I64, state: string, venueId: string)

  datatype View = View(orders: map<string, BookedOrder>, execs: set<string>, positions: map<string, Holding>)

  const NEW := View(map[], {}, map[])

  function HoldingIn(v: View, instrument: string): Holding {
    if instrument in v.positions then v.positions[instrument] else FLAT
  }

  function Clamped(filled: I64, qty: I64): I64 {
    if filled > qty then qty else filled
  }

  function WithRemaining(o: BookedOrder): BookedOrder {
    var rest := Wrap(0 + o.qty - o.filled);
    o.(remaining := if rest < 0 then 0 else rest)
  }

  /** The execution a record books: on a known order, applied, and not seen before. */
  function Booking(v: View, r: Record): Option<(string, Fill)> {
    if r.OrderEvent? && r.orderId in v.orders && r.kind.FillReceived? && r.applied && r.kind.execId !in v.execs then
      var o := v.orders[r.orderId];
      Some((o.instrument, Fill(o.side, r.kind.qty, r.kind.price)))
    else None
  }

  function OrderAfter(o: BookedOrder, r: Record, books: bool): BookedOrder
    requires r.OrderEvent?
  {
    var moved := o.(state := r.to);
    match r.kind
    case VenueAcked(venueId) => WithRemaining(moved.(venueId := venueId))
    case FillReceived(_, qty, _) =>
      if books then WithRemaining(moved.(filled := Clamped(Wrap(0 + o.filled + qty), o.qty))) else moved
    case ReconcileResolved(venueId, filled) =>
      WithRemaining((if venueId != "" then moved.(venueId := venueId) else moved).(filled := Clamped(filled, o.qty)))
    case OtherEvent => WithRemaining(moved)
  }

  function Folded(v: View, r: Record): View {
    match r
    case IntentPersisted(id, instrument, side, qty) =>
      if id in v.orders then v
      else v.(orders := v.orders[id := BookedOrder(instrument, side, qty, 0, qty, "CREATED", "")])
    case OrderEvent(id, _, _, _) =>
      if id !in v.orders then v
      else
        var booking := Booking(v, r);
        var orders := v.orders[id := OrderAfter(v.orders[id], r, booking.Some?)];
        (match booking
         case None => v.(orders := orders)
         case Some((instrument, fill)) =>
           View(orders, v.execs + {r.kind.execId},
                v.positions[instrument := Booked(HoldingIn(v, instrument), fill)]))
    case Elsewhere => v
  }

  /** The fill the record books, if any, stays within int64. */
  predicate Bookable(v: View, r: Record) {
    var b := Booking(v, r);
    b.Some? ==> InRange(HoldingIn(v, b.value.0), b.value.1)
  }

  class Book {
    var orders: map<string, BookedOrder>
    var fills: set<string>
    var positions: map<string, Position>

    constructor ()
      ensures Valid() && Contents() == NEW && positions == map[]
    {
      orders, fills, positions := map[], {}, map[];
    }

    /** No two instruments share a position object. */
    predicate Valid()
      reads this
    {
      forall i, j | i in positions && j in positions && i != j :: positions[i] != positions[j]
    }

    function Contents(): View
      reads this, positions.Values
    {
      View(orders, fills, map i | i in positions :: positions[i].State())
    }

    /** Fold one record. */
    method Apply(r: Record)
      requires Valid()
      modifies this, positions.Values
      ensures Valid() && fresh(positions.Values - old(positions.Values))
      ensures Contents() == Folded(old(Contents()), r)
    {
      match r {
        case IntentPersisted(id, instrument, side, qty) =>
          if id !in orders {
            orders := orders[id := BookedOrder(instrument, side, qty, 0, qty, "CREATED", "")];
          }
        case OrderEvent(_, _, _, _) => ApplyEvent(r);
        case Elsewhere =>
      }
    }

    method ApplyEvent(r: Record)
      requires Valid() && r.OrderEvent?
      modifies this, positions.Values
      ensures Valid() && fresh(positions.Values - old(positions.Values))
      ensures Contents() == Folded(old(Contents()), r)
    {
      hide Booked, Wrap, HoldingIn;
      if r.orderId !in orders {
        return;
      }
      var order := orders[r.orderId].(state := r.to);
      match r.kind {
        case VenueAcked(venueId) => order := order.(venueId := venueId);
        case FillReceived(execId, qty, price) =>
          if !r.applied || execId in fills {
            orders := orders[r.orderId := order];
            return;
          }
          order := order.(filled := Clamped(Wrap(0 + order.filled + qty), order.qty));
          BookExecution(execId, order.instrument, Fill(order.side, qty, price));
        case ReconcileResolved(venueId, filled) =>
          if venueId != "" {
            order := order.(venueId := venueId);
          }
          order := order.(filled := Clamped(filled, order.qty));
        case OtherEvent =>
      }
      Refresh(r.orderId, order);
    }

    /** Store the order with what is left of it. */
    method Refresh(id: string, order: BookedOrder)
      requires Valid()
      modifies this`orders
      ensures orders == old(orders)[id := WithRemaining(order)]
    {
      var rest := Wrap(0 + order.qty - order.filled);
      orders := orders[id := order.(remaining := if rest < 0 then 0 else rest)];
    }

    method BookExecution(execId: string, instrument: string, f: Fill)
      requires Valid() && FitsI64(f.qty) && FitsI64(f.price)
      modifies this`fills, this`positions, positions.Values
      ensures Valid() && fresh(positions.Values - old(positions.Values)) && fills == old(fills) + {execId}
      ensures Contents().positions ==
                old(Contents().positions)[instrument := Booked(HoldingIn(old(Contents()), instrument), f)]
    {
      hide Booked, HoldingIn;
      fills := fills + {execId};
      SameHolding(old(Contents()), Contents(), instrument);
      MovePosition(instrument, f);
    }

    lemma SameHolding(v: View, w: View, instrument: string)
      requires v.positions == w.positions
      ensures HoldingIn(v, instrument) == HoldingIn(w, instrument)
    {
    }

    /** Move the position in one instrument, opening a flat one if there is none. */
    method MovePosition(instrument: string, f: Fill)
      requires Valid() && FitsI64(f.qty) && FitsI64(f.price)
      modifies this`positions, positions.Values
      ensures Valid() && fresh(positions.Values - old(positions.Values))
      ensures Contents().positions ==
                old(Contents().positions)[instrument := Booked(HoldingIn(old(Contents()), instrument), f)]
    {
      hide Booked, Filled, InRange;
      ghost var before := Contents();
      if instrument !in positions {
        var flat := new Position();
        positions := positions[instrument := flat];
      }
      assert positions[instrument].State() == HoldingIn(before, instrument);
      positions[instrument].ApplyFill(f.side, f.qty, f.price);
    }
  }
}
