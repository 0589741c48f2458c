/** The event-sourced ledger: an append-only event table and three projections of
    it.  Functions over the value `Durable` say what each transaction does; the
    class in LedgerStore.dfy does it in place. */
module Ledger {
  import opened Common
  import opened Lifecycle

  /** What an intent carries into the ledger. */
  datatype RawIntent = RawIntent(
    key: string,
    instrument: string,
    side: Side,
    qty: real,
    authority: Authority,
    limitPrice: Option<real>)

  /** An intent that violates this cannot be constructed. */
  type Intent = i: RawIntent | 0.0 < i.qty && i.key != "" && (i.limitPrice.Some? ==> 0.0 < i.limitPrice.value)
    witness RawIntent("k", "", Buy, 1.0, Entry, None)

  datatype OrderRow = OrderRow(core: Order, side: Side, authority: Authority, limitPrice: Option<real>, lastSeq: nat)
  datatype FillRow = FillRow(execId: string, orderId: nat, qty: real, price: real, seqNo: nat)
  datatype PositionRow = PositionRow(qty: real, lastSeq: nat)

  /** The projections.  An order id is the number of the row it created. */
  datatype Tables = Tables(orders: seq<OrderRow>, fills: seq<FillRow>, positions: map<string, PositionRow>)

  datatype Body = IntentPersisted(intent: Intent) | Happened(event: Event)
  datatype EventRow = EventRow(seqNo: nat, orderId: nat, from: Option<State>, to: State, body: Body)

  datatype Durable = Durable(events: seq<EventRow>, nextSeq: nat, tables: Tables)

  const EMPTY_TABLES := Tables([], [], map[])
  const EMPTY := Durable([], 1, EMPTY_TABLES)

  // ---------------------------------------------------------------- queries

  function FindKey(orders: seq<OrderRow>, key: string): (found: Option<nat>)
    ensures found.Some? ==> found.value < |orders| && orders[found.value].core.key == key
    ensures found.None? ==> forall i | 0 <= i < |orders| :: orders[i].core.key != key
  {
    if orders == [] then None
    else if orders[|orders| - 1].core.key == key then Some(|orders| - 1)
    else FindKey(orders[..|orders| - 1], key)
  }

  predicate HasExec(fills: seq<FillRow>, execId: string) {
    exists i | 0 <= i < |fills| :: fills[i].execId == execId
  }

  function PositionOf(t: Tables, instrument: string): real {
    if instrument in t.positions then t.positions[instrument].qty else 0.0
  }

  // ---------------------------------------------------------------- one event row, folded

  function SignedQty(side: Side, qty: real): real {
    if side.Buy? then qty else -qty
  }

  function CreatedRow(orderId: nat, intent: Intent, seqNo: nat): OrderRow {
    OrderRow(NewOrder(orderId, intent.key, intent.instrument, intent.qty),
             intent.side, intent.authority, intent.limitPrice, seqNo)
  }

  function BookFill(t: Tables, row: OrderRow, fill: Event, seqNo: nat): Tables
    requires fill.FillReceived?
  {
    var instrument := row.core.instrument;
    var qty := PositionOf(t, instrument) + SignedQty(row.side, fill.qty);
    t.(fills := t.fills + [FillRow(fill.execId, row.core.orderId, fill.qty, fill.price, seqNo)],
       positions := t.positions[instrument := PositionRow(qty, seqNo)])
  }

  /** One step of the fold that rebuilds the projections. */
  function ReplayOne(t: Tables, r: EventRow): Option<Tables> {
    match r.body
    case IntentPersisted(intent) =>
      if r.orderId != |t.orders| then None
      else Some(t.(orders := t.orders + [CreatedRow(r.orderId, intent, r.seqNo)]))
    case Happened(event) =>
      if r.orderId >= |t.orders| then None
      else if event.FillReceived? && HasExec(t.fills, event.execId) then Some(t)
      else
        var entry := t.orders[r.orderId];
        match Transition(entry.core, event)
        case Err(_) => None
        case Ok(core) =>
          var t' := t.(orders := t.orders[r.orderId := entry.(core := core, lastSeq := r.seqNo)]);
          Some(if event.FillReceived? then BookFill(t', entry, event, r.seqNo) else t')
  }

  /** The projections an event table stands for; None where the fold would raise. */
  function Replay(events: seq<EventRow>): Option<Tables> {
    if events == [] then Some(EMPTY_TABLES)
    else
      match Replay(events[..|events| - 1])
      case None => None
      case Some(t) => ReplayOne(t, events[|events| - 1])
  }

  // ---------------------------------------------------------------- transactions

  datatype Applied = Updated(row: OrderRow) | Duplicate | Refused(fault: Fault) | ConcurrencyViolation

  /** Persist an intent as a CREATED order; replaying a key returns the order it already has. */
  function CreateOrder(l: Durable, intent: Intent): (Durable, OrderRow) {
    match FindKey(l.tables.orders, intent.key)
    case Some(i) => (l, l.tables.orders[i])
    case None =>
      var id := |l.tables.orders|;
      var row := CreatedRow(id, intent, l.nextSeq);
      (Durable(l.events + [EventRow(l.nextSeq, id, None, Created, IntentPersisted(intent))],
               l.nextSeq + 1,
               l.tables.(orders := l.tables.orders + [row])),
       row)
  }

  /** The optimistic guard: no event of this order has committed since it was read. */
  predicate GuardPasses(l: Durable, snap: OrderRow) {
    && snap.core.orderId < |l.tables.orders|
    && l.tables.orders[snap.core.orderId].lastSeq == snap.lastSeq
  }

  /** Append an event and move the projections, or neither.  A transaction that
      rolls back still uses up the sequence number it drew. */
  function ApplyEvent(l: Durable, snap: OrderRow, event: Event): (Durable, Applied) {
    match Transition(snap.core, event)
    case Err(fault) => (l, Refused(fault))
    case Ok(core) =>
      if event.FillReceived? && HasExec(l.tables.fills, event.execId) then (l, Duplicate)
      else if !GuardPasses(l, snap) then (l.(nextSeq := l.nextSeq + 1), ConcurrencyViolation)
      else
        var id, seqNo := snap.core.orderId, l.nextSeq;
        var current := l.tables.orders[id];
        var moved := current.core.(state := core.state, filled := core.filled, brokerId := core.brokerId);
        var updated := current.(core := moved,
                                lastSeq := seqNo);
        var t := l.tables.(orders := l.tables.orders[id := updated]);
        (Durable(l.events + [EventRow(seqNo, id, Some(snap.core.state), core.state, Happened(event))],
                 seqNo + 1,
                 if event.FillReceived? then BookFill(t, snap, event, seqNo) else t),
         Updated(snap.(core := core, lastSeq := seqNo)))
  }

  // ---------------------------------------------------------------- replay equals live

  ghost predicate Ordered(events: seq<EventRow>, next: nat) {
    && (forall i, j | 0 <= i < j < |events| :: events[i].seqNo < events[j].seqNo)
    && (forall i | 0 <= i < |events| :: events[i].seqNo < next)
  }

  ghost predicate Consistent(l: Durable) {
    Ordered(l.events, l.nextSeq) && Replay(l.events) == Some(l.tables)
  }

  /** `snap` is an order row as the ledger once showed it. */
  ghost predicate WasLoaded(l: Durable, snap: OrderRow, asOf: nat) {
    && asOf <= |l.events|
    && Replay(l.events[..asOf]).Some?
    && var orders := Replay(l.events[..asOf]).value.orders;
       snap.core.orderId < |orders| && orders[snap.core.orderId] == snap
  }

  lemma {:induction false} ReplayRows(events: seq<EventRow>, next: nat)
    requires Ordered(events, next) && Replay(events).Some?
    ensures
      var orders := Replay(events).value.orders;
      forall i | 0 <= i < |orders| :: orders[i].core.orderId == i && orders[i].lastSeq < next
  {
    if events != [] {
      ReplayRows(events[..|events| - 1], events[|events| - 1].seqNo);
    }
  }

  /** An order row stays as it was until one of its own events gives it a later sequence. */
  lemma {:induction false} RowsOnlyAdvance(events: seq<EventRow>, next: nat, asOf: nat, id: nat)
    requires Ordered(events, next) && Replay(events).Some? && asOf <= |events|
    ensures Replay(events[..asOf]).Some?
    ensures
      var before, now := Replay(events[..asOf]).value.orders, Replay(events).value.orders;
      id < |before| ==> id < |now| && (now[id] == before[id] || before[id].lastSeq < now[id].lastSeq)
  {
    if asOf == |events| {
      assert events[..asOf] == events;
    } else {
      var rest := events[..|events| - 1];
      assert rest[..asOf] == events[..asOf];
      RowsOnlyAdvance(rest, events[|events| - 1].seqNo, asOf, id);
      ReplayRows(rest, events[|events| - 1].seqNo);
    }
  }

  /** A snapshot that passes the optimistic guard is the current projection. */
  lemma GuardMeansCurrent(l: Durable, snap: OrderRow, asOf: nat)
    requires Consistent(l) && WasLoaded(l, snap, asOf) && GuardPasses(l, snap)
    ensures l.tables.orders[snap.core.orderId] == snap
  {
    RowsOnlyAdvance(l.events, l.nextSeq, asOf, snap.core.orderId);
  }

  lemma CreateKeepsConsistent(l: Durable, intent: Intent)
    requires Consistent(l)
    ensures Consistent(CreateOrder(l, intent).0)
  {
    var l' := CreateOrder(l, intent).0;
    if FindKey(l.tables.orders, intent.key).None? {
      assert l'.events[..|l'.events| - 1] == l.events;
    }
  }

  lemma ApplyKeepsConsistent(l: Durable, snap: OrderRow, asOf: nat, event: Event)
    requires Consistent(l) && WasLoaded(l, snap, asOf)
    ensures Consistent(ApplyEvent(l, snap, event).0)
  {
    var (l', out) := ApplyEvent(l, snap, event);
    if out.Updated? {
      GuardMeansCurrent(l, snap, asOf);
      assert l'.events[..|l'.events| - 1] == l.events;
      TransitionKeepsIdentity(snap.core, event);
    }
  }

  lemma TransitionKeepsIdentity(o: Order, event: Event)
    requires Transition(o, event).Ok?
    ensures var n := Transition(o, event).order;
            n == o.(state := n.state, filled := n.filled, brokerId := n.brokerId)
  {
  }

  // ---------------------------------------------------------------- whole histories

  /** A ledger call.  `Apply` names the moment its caller last read the order. */
  datatype Call = Create(intent: Intent) | Apply(asOf: nat, orderId: nat, event: Event)

  ghost function Perform(l: Durable, call: Call): Durable {
    match call
    case Create(intent) => CreateOrder(l, intent).0
    case Apply(asOf, id, event) =>
      if asOf > |l.events| || Replay(l.events[..asOf]).None? then l
      else
        var orders := Replay(l.events[..asOf]).value.orders;
        if id < |orders| then ApplyEvent(l, orders[id], event).0 else l
  }

  ghost function History(calls: seq<Call>): Durable {
    if calls == [] then EMPTY else Perform(History(calls[..|calls| - 1]), calls[|calls| - 1])
  }

  /** However callers interleave, repeat themselves, are refused or act on stale
      snapshots, folding the event table yields exactly the live projections. */
  lemma {:induction false} RebuildEqualsLive(calls: seq<Call>)
    ensures Consistent(History(calls))
    ensures Replay(History(calls).events) == Some(History(calls).tables)
  {
    if calls != [] {
      RebuildEqualsLive(calls[..|calls| - 1]);
      var l := History(calls[..|calls| - 1]);
      match calls[|calls| - 1] {
        case Create(intent) => CreateKeepsConsistent(l, intent);
        case Apply(asOf, id, event) =>
          if asOf <= |l.events| {
            RowsOnlyAdvance(l.events, l.nextSeq, asOf, id);
            var orders := Replay(l.events[..asOf]).value.orders;
            if id < |orders| {
              ReplayRows(l.events[..asOf], l.nextSeq);
              ApplyKeepsConsistent(l, orders[id], asOf, event);
            }
          }
      }
    }
  }
}
