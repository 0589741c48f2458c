/** What the projections mean: positions are the signed sum of the fill rows, and
    an order's recorded fill is the clamp of its distinct executions. */
module Accounting {
  import opened Common
  import opened Lifecycle
  import opened Ledger

  /** Quantity executed for one order, over the fill rows. */
  function Executed(fills: seq<FillRow>, orderId: nat): real {
    if fills == [] then 0.0
    else
      var last := fills[|fills| - 1];
      Executed(fills[..|fills| - 1], orderId) + if last.orderId == orderId then last.qty else 0.0
  }

  predicate KnownOrders(fills: seq<FillRow>, orders: seq<OrderRow>) {
    forall i | 0 <= i < |fills| :: fills[i].orderId < |orders|
  }

  /** The fills of one instrument, signed by the side of the order they belong to. */
  function SignedSum(fills: seq<FillRow>, orders: seq<OrderRow>, instrument: string): real
    requires KnownOrders(fills, orders)
  {
    if fills == [] then 0.0
    else
      var last := fills[|fills| - 1];
      var order := orders[last.orderId];
      SignedSum(fills[..|fills| - 1], orders, instrument)
      + if order.core.instrument == instrument then SignedQty(order.side, last.qty) else 0.0
  }

  ghost predicate SoundRows(orders: seq<OrderRow>) {
    && (forall i | 0 <= i < |orders| :: orders[i].core.orderId == i && Sound(orders[i].core))
    && (forall i, j | 0 <= i < j < |orders| :: orders[i].core.key != orders[j].core.key)
  }

  ghost predicate DistinctFills(fills: seq<FillRow>) {
    && (forall i | 0 <= i < |fills| :: 0.0 < fills[i].qty)
    && (forall i, j | 0 <= i < j < |fills| :: fills[i].execId != fills[j].execId)
  }

  ghost predicate Balanced(t: Tables) {
    && SoundRows(t.orders) && DistinctFills(t.fills) && KnownOrders(t.fills, t.orders)
    && forall i: string :: PositionOf(t, i) == SignedSum(t.fills, t.orders, i)
  }

  /** Each order's recorded fill, against its executions. */
  ghost predicate Conserved(t: Tables) {
    forall id | 0 <= id < |t.orders| ::
      t.orders[id].core.filled == Min(t.orders[id].core.qty, Executed(t.fills, id))
  }

  lemma {:induction false} SignedSumStable(fills: seq<FillRow>, orders: seq<OrderRow>, orders': seq<OrderRow>,
                                           instrument: string)
    requires KnownOrders(fills, orders) && |orders| <= |orders'|
    requires forall i | 0 <= i < |orders| ::
      orders[i].side == orders'[i].side && orders[i].core.instrument == orders'[i].core.instrument
    ensures KnownOrders(fills, orders')
    ensures SignedSum(fills, orders, instrument) == SignedSum(fills, orders', instrument)
  {
    if fills != [] {
      SignedSumStable(fills[..|fills| - 1], orders, orders', instrument);
    }
  }

  lemma {:induction false} ExecutedNonNegative(fills: seq<FillRow>, orderId: nat)
    requires forall i | 0 <= i < |fills| :: 0.0 < fills[i].qty
    ensures 0.0 <= Executed(fills, orderId)
    ensures (forall i | 0 <= i < |fills| :: fills[i].orderId != orderId) ==> Executed(fills, orderId) == 0.0
  {
    if fills != [] {
      ExecutedNonNegative(fills[..|fills| - 1], orderId);
    }
  }

  lemma CreateKeepsBalanced(l: Durable, intent: Intent)
    requires Balanced(l.tables)
    ensures Balanced(CreateOrder(l, intent).0.tables)
    ensures Conserved(l.tables) ==> Conserved(CreateOrder(l, intent).0.tables)
  {
    var t, t' := l.tables, CreateOrder(l, intent).0.tables;
    if FindKey(t.orders, intent.key).None? {
      forall i: string ensures PositionOf(t', i) == SignedSum(t'.fills, t'.orders, i) {
        SignedSumStable(t.fills, t.orders, t'.orders, i);
      }
      ExecutedNonNegative(t.fills, |t.orders|);
    }
  }

  /** A resolution that repeats what has already been recorded. */
  predicate FillNeutral(row: OrderRow, event: Event) {
    event.ReconcileResolved? ==> Min(event.filledQty, row.core.qty) == row.core.filled
  }

  predicate Current(t: Tables, row: OrderRow) {
    row.core.orderId < |t.orders| && t.orders[row.core.orderId] == row
  }

  /** What one committed event does to the tables. */
  lemma ApplyShape(l: Durable, row: OrderRow, event: Event)
    requires SoundRows(l.tables.orders) && Current(l.tables, row) && ApplyEvent(l, row, event).1.Updated?
    ensures
      var t := l.tables;
      var (l', out) := ApplyEvent(l, row, event);
      var id, core := row.core.orderId, Transition(row.core, event).order;
      && out.row == row.(core := core, lastSeq := l.nextSeq)
      && l'.tables.orders == t.orders[id := out.row]
      && SameAuthorisation(row.core, core) && Sound(core) && Current(l'.tables, out.row)
      && l'.events == l.events + [EventRow(l.nextSeq, id, Some(row.core.state), core.state, Happened(event))]
      && l'.tables.fills == (if event.FillReceived?
                             then t.fills + [FillRow(event.execId, id, event.qty, event.price, l.nextSeq)]
                             else t.fills)
  {
    StepFacts(row.core, event);
    TransitionKeepsIdentity(row.core, event);
  }

  lemma ApplyKeepsBalanced(l: Durable, row: OrderRow, event: Event)
    requires Balanced(l.tables) && Current(l.tables, row)
    ensures Balanced(ApplyEvent(l, row, event).0.tables)
  {
    var t := l.tables;
    var (l', out) := ApplyEvent(l, row, event);
    var t' := l'.tables;
    if out.Updated? {
      ApplyShape(l, row, event);
      forall i: string ensures PositionOf(t', i) == SignedSum(t'.fills, t'.orders, i) {
        SignedSumStable(t.fills, t.orders, t'.orders, i);
        if event.FillReceived? { assert t'.fills[..|t'.fills| - 1] == t.fills; }
      }
    }
  }

  lemma ExecutedAfter(fills: seq<FillRow>, f: FillRow, id: nat)
    ensures Executed(fills + [f], id) == Executed(fills, id) + if f.orderId == id then f.qty else 0.0
  {
    assert (fills + [f])[..|fills|] == fills;
  }

  /** Clamping step by step is clamping the total. */
  lemma ClampOfSum(executed: real, more: real, qty: real)
    requires 0.0 <= more
    ensures Min(Min(qty, executed) + more, qty) == Min(qty, executed + more)
  {
  }

  predicate ConservedAt(t: Tables, id: nat)
    requires id < |t.orders|
  {
    t.orders[id].core.filled == Min(t.orders[id].core.qty, Executed(t.fills, id))
  }

  /** An execution recorded with its order's clamp. */
  lemma FillIsConserved(t: Tables, t': Tables, row: OrderRow, f: FillRow, id: nat)
    requires f.orderId < |t.orders| && id < |t.orders| && ConservedAt(t, id) && 0.0 < f.qty
    requires t'.orders == t.orders[f.orderId := row] && t'.fills == t.fills + [f]
    requires row.core.qty == t.orders[f.orderId].core.qty
    requires row.core.filled == Min(t.orders[f.orderId].core.filled + f.qty, row.core.qty)
    ensures ConservedAt(t', id)
  {
    hide Executed;
    ExecutedAfter(t.fills, f, id);
    ClampOfSum(Executed(t.fills, id), f.qty, t.orders[id].core.qty);
  }

  /** A fill moves the recorded quantity to the clamp of the new total, whatever
      was clamped before; nothing else moves it. */
  lemma ApplyKeepsConserved(l: Durable, row: OrderRow, event: Event)
    requires Balanced(l.tables) && Conserved(l.tables) && Current(l.tables, row) && FillNeutral(row, event)
    ensures Conserved(ApplyEvent(l, row, event).0.tables)
  {
    hide ApplyEvent, Transition, SoundRows, Balanced, Sound, FillNeutral, Conserved, ConservedAt;
    var t, t' := l.tables, ApplyEvent(l, row, event).0.tables;
    RowsAreSound(t);
    SameOrUpdated(l, row, event);
    if ApplyEvent(l, row, event).1.Updated? {
      ApplyShape(l, row, event);
      CurrentRowIsSound(t, row);
      RecordedMoves(row, event);
      var row' := ApplyEvent(l, row, event).1.row;
      EachIsConserved(t);
      forall id: nat | id < |t'.orders| ensures ConservedAt(t', id) {
        if event.FillReceived? {
          FillIsConserved(t, t', row', FillRow(event.execId, row.core.orderId, event.qty, event.price, l.nextSeq), id);
        } else {
          NothingIsExecuted(t, t', row.core.orderId, row', id);
        }
      }
      EachIsConserved(t');
    }
  }

  lemma NothingIsExecuted(t: Tables, t': Tables, at: nat, row: OrderRow, id: nat)
    requires at < |t.orders| && id < |t.orders| && ConservedAt(t, id)
    requires t'.orders == t.orders[at := row] && t'.fills == t.fills
    requires row.core.qty == t.orders[at].core.qty && row.core.filled == t.orders[at].core.filled
    ensures ConservedAt(t', id)
  {
    hide Executed;
  }

  lemma EachIsConserved(t: Tables)
    ensures Conserved(t) <==> forall id: nat | id < |t.orders| :: ConservedAt(t, id)
  {
    hide Executed;
    if forall id: nat | id < |t.orders| :: ConservedAt(t, id) {
      forall id | 0 <= id < |t.orders|
        ensures t.orders[id].core.filled == Min(t.orders[id].core.qty, Executed(t.fills, id))
      {
        assert ConservedAt(t, id);
      }
    }
  }

  lemma RowsAreSound(t: Tables)
    requires Balanced(t)
    ensures SoundRows(t.orders)
  {
    hide SoundRows, SignedSum;
  }

  lemma SameOrUpdated(l: Durable, row: OrderRow, event: Event)
    ensures ApplyEvent(l, row, event).1.Updated? ==> Transition(row.core, event).Ok?
    ensures !ApplyEvent(l, row, event).1.Updated? ==> ApplyEvent(l, row, event).0.tables == l.tables
  {
    hide Transition, HasExec;
  }

  lemma CurrentRowIsSound(t: Tables, row: OrderRow)
    requires SoundRows(t.orders) && Current(t, row)
    ensures Sound(row.core)
  {
  }

  /** What an accepted event makes of the recorded fill. */
  lemma RecordedMoves(row: OrderRow, event: Event)
    requires Sound(row.core) && Transition(row.core, event).Ok? && FillNeutral(row, event)
    ensures
      var o, n := row.core, Transition(row.core, event).order;
      && n.qty == o.qty
      && if event.FillReceived? then 0.0 < event.qty && n.filled == Min(o.filled + event.qty, o.qty)
         else n.filled == o.filled
  {
    hide Transition, Sound;
    StepFacts(row.core, event);
  }
}
