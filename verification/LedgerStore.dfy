/** The ledger as the process holds it: tables updated in place, one transaction a method. */
module LedgerStores {
  import opened Common
  import opened Lifecycle
  import opened Ledger

  class LedgerStore {
    var events: seq<EventRow>
    var nextSeq: nat
    var orders: seq<OrderRow>
    var fills: seq<FillRow>
    var positions: map<string, PositionRow>
    /** Bumped whenever a new fill row commits; readers key a memo of the fills on it. */
    var fillsVersion: nat

    function State(): Durable
      reads this
    {
      Durable(events, nextSeq, Tables(orders, fills, positions))
    }

    constructor ()
      ensures State() == EMPTY && fillsVersion == 0
    {
      events, nextSeq, orders, fills, positions, fillsVersion := [], 1, [], [], map[], 0;
    }

    method CreateOrder(intent: Intent) returns (stored: OrderRow)
      modifies this
      ensures (State(), stored) == Ledger.CreateOrder(old(State()), intent)
      ensures fillsVersion == old(fillsVersion)
    {
      var existing := FindKey(orders, intent.key);
      if existing.Some? {
        return orders[existing.value];
      }
      var orderId, seqNo := |orders|, nextSeq;
      nextSeq := nextSeq + 1;
      events := events + [EventRow(seqNo, orderId, None, Created, IntentPersisted(intent))];
      stored := OrderRow(Order(orderId, intent.key, intent.instrument, intent.qty, 0.0, Created, None),
                         intent.side, intent.authority, intent.limitPrice, seqNo);
      orders := orders + [stored];
    }

    method LoadOrder(key: string) returns (stored: Option<OrderRow>)
      ensures stored.Some? ==> stored.value in orders && stored.value.core.key == key
      ensures stored.None? ==> forall row <- orders :: row.core.key != key
      ensures stored == match FindKey(orders, key)
                        case None => None
                        case Some(i) => Some(orders[i])
    {
      var found := FindKey(orders, key);
      stored := if found.Some? then Some(orders[found.value]) else None;
    }

    /** The fill row and the position it moves. */
    method BookFill(stored: OrderRow, fill: Event, seqNo: nat)
      requires fill.FillReceived?
      modifies this`fills, this`positions
      ensures State().tables == Ledger.BookFill(old(State().tables), stored, fill, seqNo)
    {
      fills := fills + [FillRow(fill.execId, stored.core.orderId, fill.qty, fill.price, seqNo)];
      var signed := if stored.side == Buy then fill.qty else -fill.qty;
      var instrument := stored.core.instrument;
      if instrument in positions {
        positions := positions[instrument := PositionRow(positions[instrument].qty + signed, seqNo)];
      } else {
        positions := positions[instrument := PositionRow(signed, seqNo)];
      }
    }

    /** Transition first; then dedup, append, book and guard in one transaction,
        which rolls back if the projection has moved since it was read. */
    method ApplyEvent(stored: OrderRow, event: Event) returns (result: Applied)
      modifies this
      ensures (State(), result) == Ledger.ApplyEvent(old(State()), stored, event)
      ensures fillsVersion == old(fillsVersion) + |fills| - |old(fills)|
    {
      var outcome := Transition(stored.core, event);
      if outcome.Err? {
        return Refused(outcome.fault);
      }
      if event.FillReceived? && HasExec(fills, event.execId) {
        return Duplicate;
      }
      var core, seqNo, orderId := outcome.order, nextSeq, stored.core.orderId;
      nextSeq := nextSeq + 1;
      if orderId >= |orders| || orders[orderId].lastSeq != stored.lastSeq {
        return ConcurrencyViolation;
      }
      var row := orders[orderId];
      var updated := row.core.(state := core.state, filled := core.filled, brokerId := core.brokerId);
      orders := orders[orderId := row.(core := updated, lastSeq := seqNo)];
      if event.FillReceived? {
        BookFill(stored, event, seqNo);
        fillsVersion := fillsVersion + 1;
      }
      events := events + [EventRow(seqNo, orderId, Some(stored.core.state), core.state, Happened(event))];
      result := Updated(stored.(core := core, lastSeq := seqNo));
    }

    /** Fold the lifecycle over the event table and replace the projections with
        the result.  Whatever the projections held before does not matter. */
    method RebuildProjections() returns (replayed: Option<nat>)
      modifies this`orders, this`fills, this`positions
      ensures match Replay(events)
              case None => replayed == None && State() == old(State())
              case Some(t) => replayed == Some(|events|) && State().tables == t
    {
      var t := EMPTY_TABLES;
      for i := 0 to |events|
        invariant State() == old(State()) && Replay(events[..i]) == Some(t)
      {
        assert events[..i + 1][..i] == events[..i];
        var next := FoldRow(t, events[i]);
        if next.None? {
          ReplayFails(events, i);
          return None;
        }
        t := next.value;
      }
      assert events[..|events|] == events;
      orders, fills, positions := t.orders, t.fills, t.positions;
      replayed := Some(|events|);
    }
  }

  /** One row of the event table, folded into the dictionaries being rebuilt. */
  method FoldRow(t: Tables, r: EventRow) returns (next: Option<Tables>)
    ensures next == ReplayOne(t, r)
  {
    match r.body {
      case IntentPersisted(intent) =>
        if r.orderId != |t.orders| {
          return None;
        }
        next := Some(t.(orders := t.orders + [CreatedRow(r.orderId, intent, r.seqNo)]));
      case Happened(event) =>
        if r.orderId >= |t.orders| {
          return None;
        }
        if event.FillReceived? && HasExec(t.fills, event.execId) {
          return Some(t);  // dedup holds during replay too
        }
        var entry := t.orders[r.orderId];
        var outcome := Transition(entry.core, event);
        if outcome.Err? {
          return None;
        }
        var rebuilt := t.(orders := t.orders[r.orderId := entry.(core := outcome.order, lastSeq := r.seqNo)]);
        if event.FillReceived? {
          rebuilt := BookFill(rebuilt, entry, event, r.seqNo);
        }
        next := Some(rebuilt);
    }
  }

  lemma {:induction false} ReplayFails(events: seq<EventRow>, i: nat)
    requires i < |events| && Replay(events[..i + 1]).None?
    ensures Replay(events).None?
  {
    if i + 1 < |events| {
      var rest := events[..|events| - 1];
      assert rest[..i + 1] == events[..i + 1];
      ReplayFails(rest, i);
    } else {
      assert events[..i + 1] == events;
    }
  }
}
