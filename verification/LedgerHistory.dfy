/** What the event table records about each order, and that every transaction
    keeps it, whatever snapshot its caller held. */
module LedgerHistory {
  import opened Common
  import opened Lifecycle
  import opened Ledger
  import opened Accounting

  predicate IntentAt(events: seq<EventRow>, k: nat, id: nat, key: string) {
    k < |events| && events[k].orderId == id && events[k].body.IntentPersisted? && events[k].body.intent.key == key
  }

  predicate StartAt(events: seq<EventRow>, k: nat, id: nat) {
    k < |events| && events[k].orderId == id && events[k].body == Happened(SubmissionStarted)
  }

  predicate TerminalAt(events: seq<EventRow>, k: nat, id: nat) {
    k < |events| && events[k].orderId == id && IsTerminal(events[k].to)
  }

  ghost predicate Started(events: seq<EventRow>, id: nat) {
    exists k :: StartAt(events, k, id)
  }

  /** The order has been finished at some time, whether or not it has since been reopened. */
  ghost predicate EverTerminal(events: seq<EventRow>, id: nat) {
    exists k :: TerminalAt(events, k, id)
  }

  /** The intent and the start of its submission are durable, in that order. */
  ghost predicate Authorised(events: seq<EventRow>, id: nat, key: string) {
    exists i, j :: i < j && IntentAt(events, i, id, key) && StartAt(events, j, id)
  }

  /** What the log says about the order in row `id`. */
  ghost predicate RecordedRow(events: seq<EventRow>, id: nat, core: Order) {
    && (exists k :: IntentAt(events, k, id, core.key))
    && (core.state == Created ==> !Started(events, id))
    && (IsTerminal(core.state) ==> EverTerminal(events, id))
  }

  ghost predicate Recorded(l: Durable) {
    && (forall k | 0 <= k < |l.events| :: l.events[k].orderId < |l.tables.orders|)
    && (forall id | 0 <= id < |l.tables.orders| :: RecordedRow(l.events, id, l.tables.orders[id].core))
  }

  /** Everything the ledger keeps true of itself. */
  ghost predicate Good(l: Durable) {
    Consistent(l) && Balanced(l.tables) && Conserved(l.tables) && Recorded(l)
  }

  ghost predicate Loaded(l: Durable, row: OrderRow) {
    exists asOf :: WasLoaded(l, row, asOf)
  }

  predicate SameOrder(a: OrderRow, b: OrderRow) {
    SameAuthorisation(a.core, b.core) && a.side == b.side && a.authority == b.authority
  }

  /** The log only grows, and what an order was authorised to do never changes. */
  ghost predicate Evolves(l: Durable, l': Durable) {
    && l.events <= l'.events
    && |l.tables.orders| <= |l'.tables.orders|
    && forall id | 0 <= id < |l.tables.orders| :: SameOrder(l.tables.orders[id], l'.tables.orders[id])
  }

  lemma FindKeyUnique(orders: seq<OrderRow>, id: nat)
    requires SoundRows(orders) && id < |orders|
    ensures FindKey(orders, orders[id].core.key) == Some(id)
  {
    var found := FindKey(orders, orders[id].core.key);
    assert found.Some?;
    if found.value < id {
    } else if id < found.value {
    }
  }

  lemma LoadedStays(l: Durable, l': Durable, row: OrderRow)
    requires Loaded(l, row) && Evolves(l, l')
    ensures Loaded(l', row)
  {
    var asOf: nat :| WasLoaded(l, row, asOf);
    assert l'.events[..asOf] == l.events[..asOf];
    assert WasLoaded(l', row, asOf);
  }

  lemma LoadedNow(l: Durable, id: nat)
    requires Good(l) && id < |l.tables.orders|
    ensures Loaded(l, l.tables.orders[id])
  {
    assert l.events[..|l.events|] == l.events;
    assert WasLoaded(l, l.tables.orders[id], |l.events|);
  }

  lemma LoadedIdentity(l: Durable, row: OrderRow)
    requires Good(l) && Loaded(l, row)
    ensures row.core.orderId < |l.tables.orders| && SameOrder(row, l.tables.orders[row.core.orderId])
  {
    var asOf: nat :| WasLoaded(l, row, asOf);
    IdentityIsFixed(l.events, asOf, row.core.orderId);
  }

  lemma {:induction false} IdentityIsFixed(events: seq<EventRow>, asOf: nat, id: nat)
    requires asOf <= |events| && Replay(events).Some? && Replay(events[..asOf]).Some?
    ensures
      var before, now := Replay(events[..asOf]).value.orders, Replay(events).value.orders;
      id < |before| ==> id < |now| && SameOrder(before[id], now[id])
  {
    if asOf == |events| {
      assert events[..asOf] == events;
    } else {
      var rest, last := events[..|events| - 1], events[|events| - 1];
      assert rest[..asOf] == events[..asOf];
      IdentityIsFixed(rest, asOf, id);
      var t := Replay(rest).value;
      if last.body.Happened? && Transition(t.orders[last.orderId].core, last.body.event).Ok? {
        TransitionKeepsIdentity(t.orders[last.orderId].core, last.body.event);
      }
    }
  }

  // ---------------------------------------------------------------- the log grows

  lemma MarksStay(events: seq<EventRow>, more: seq<EventRow>, id: nat)
    ensures Started(events, id) ==> Started(events + more, id)
    ensures EverTerminal(events, id) ==> EverTerminal(events + more, id)
    ensures forall key :: Authorised(events, id, key) ==> Authorised(events + more, id, key)
  {
    if Started(events, id) {
      var k: nat :| StartAt(events, k, id);
      assert StartAt(events + more, k, id);
    }
    if EverTerminal(events, id) {
      var k: nat :| TerminalAt(events, k, id);
      assert TerminalAt(events + more, k, id);
    }
    forall key | Authorised(events, id, key) ensures Authorised(events + more, id, key) {
      var i: nat, j: nat :| i < j && IntentAt(events, i, id, key) && StartAt(events, j, id);
      assert IntentAt(events + more, i, id, key) && StartAt(events + more, j, id);
    }
  }

  lemma OtherRowKept(events: seq<EventRow>, r: EventRow, id: nat, core: Order)
    requires RecordedRow(events, id, core) && r.orderId != id
    ensures RecordedRow(events + [r], id, core)
  {
    MarksStay(events, [r], id);
    var k: nat :| IntentAt(events, k, id, core.key);
    assert IntentAt(events + [r], k, id, core.key);
    if Started(events + [r], id) {
      var k: nat :| StartAt(events + [r], k, id);
      assert StartAt(events, k, id);
    }
  }

  lemma MovedRowKept(events: seq<EventRow>, r: EventRow, id: nat, core: Order)
    requires (exists k :: IntentAt(events, k, id, core.key)) && r.orderId == id
    requires core.state != Created && core.state == r.to
    ensures RecordedRow(events + [r], id, core)
  {
    var k: nat :| IntentAt(events, k, id, core.key);
    assert IntentAt(events + [r], k, id, core.key);
    if IsTerminal(r.to) { assert TerminalAt(events + [r], |events|, id); }
  }

  lemma NewRowRecorded(events: seq<EventRow>, r: EventRow, id: nat, core: Order)
    requires forall k | 0 <= k < |events| :: events[k].orderId != id
    requires r.orderId == id && r.body.IntentPersisted? && r.body.intent.key == core.key && core.state == Created
    ensures RecordedRow(events + [r], id, core)
  {
    assert IntentAt(events + [r], |events|, id, core.key);
  }

  lemma CreateKeepsRecorded(l: Durable, intent: Intent)
    requires Good(l)
    ensures Recorded(CreateOrder(l, intent).0)
  {
    var l' := CreateOrder(l, intent).0;
    if FindKey(l.tables.orders, intent.key).None? {
      var r := l'.events[|l.events|];
      forall id | 0 <= id < |l'.tables.orders| ensures RecordedRow(l'.events, id, l'.tables.orders[id].core) {
        if id < |l.tables.orders| {
          OtherRowKept(l.events, r, id, l.tables.orders[id].core);
        } else {
          NewRowRecorded(l.events, r, id, l'.tables.orders[id].core);
        }
      }
    }
  }

  lemma UnchangedUnlessUpdated(l: Durable, row: OrderRow, event: Event)
    ensures var (l', out) := ApplyEvent(l, row, event);
            if out.Updated? then Transition(row.core, event).Ok? else l'.tables == l.tables && l'.events == l.events
  {
    hide Transition, HasExec;
  }

  lemma ApplyKeepsRecorded(l: Durable, row: OrderRow, event: Event)
    requires Good(l) && Current(l.tables, row)
    ensures Recorded(ApplyEvent(l, row, event).0)
  {
    UnchangedUnlessUpdated(l, row, event);
    assert SoundRows(l.tables.orders) && Recorded(l);
    hide Good, SoundRows, ApplyEvent, Transition, RecordedRow;
    var (l', out) := ApplyEvent(l, row, event);
    if out.Updated? {
      ApplyShape(l, row, event);
      NeverBackToCreated(row.core, event);
      var r := l'.events[|l.events|];
      forall id | 0 <= id < |l'.tables.orders| ensures RecordedRow(l'.events, id, l'.tables.orders[id].core) {
        if id == row.core.orderId {
          MovedRowKept(l.events, r, id, out.row.core);
        } else {
          OtherRowKept(l.events, r, id, l.tables.orders[id].core);
        }
      }
    }
  }

  lemma NeverBackToCreated(o: Order, event: Event)
    requires Transition(o, event).Ok?
    ensures Transition(o, event).order.state != Created
  {
  }

  // ---------------------------------------------------------------- transactions keep the ledger good

  lemma CreateEvolves(l: Durable, intent: Intent)
    requires SoundRows(l.tables.orders)
    ensures
      var (l', row) := CreateOrder(l, intent);
      && Evolves(l, l') && Current(l'.tables, row) && row.core.key == intent.key
      && (FindKey(l.tables.orders, intent.key).None? ==>
            row == CreatedRow(|l.tables.orders|, intent, l.nextSeq) && l'.tables.orders == l.tables.orders + [row])
  {
  }

  lemma ApplyEvolves(l: Durable, row: OrderRow, event: Event)
    requires SoundRows(l.tables.orders) && Current(l.tables, row)
    ensures Evolves(l, ApplyEvent(l, row, event).0)
  {
    if ApplyEvent(l, row, event).1.Updated? { ApplyShape(l, row, event); }
  }

  lemma CreateKeepsGood(l: Durable, intent: Intent)
    requires Good(l)
    ensures
      var (l', row) := CreateOrder(l, intent);
      Good(l') && Evolves(l, l') && Current(l'.tables, row) && Loaded(l', row)
  {
    var (l', row) := CreateOrder(l, intent);
    CreateKeepsConsistent(l, intent);
    CreateKeepsBalanced(l, intent);
    CreateKeepsRecorded(l, intent);
    CreateEvolves(l, intent);
    LoadedNow(l', row.core.orderId);
  }

  /** A caller may hold any snapshot it ever loaded: either the transaction
      changes no table, or the snapshot was current. */
  lemma ApplyKeepsGood(l: Durable, row: OrderRow, event: Event)
    requires Good(l) && Loaded(l, row)
    requires Sound(row.core) ==> FillNeutral(row, event)
    ensures
      var (l', out) := ApplyEvent(l, row, event);
      && Good(l') && Evolves(l, l')
      && (!out.Updated? ==> l'.tables == l.tables && l'.events == l.events)
      && (out.Updated? ==> Current(l.tables, row) && Current(l'.tables, out.row) && Loaded(l', out.row))
  {
    var asOf: nat :| WasLoaded(l, row, asOf);
    hide ApplyEvent, Consistent, Balanced, Conserved, Recorded, WasLoaded, Evolves, Sound;
    UnchangedUnlessUpdated(l, row, event);
    ApplyKeepsConsistent(l, row, asOf, event);
    if ApplyEvent(l, row, event).1.Updated? {
      UpdatedWasCurrent(l, row, asOf, event);
      UpdateKeepsGood(l, row, event);
    } else {
      RolledBackIsGood(l, ApplyEvent(l, row, event).0);
    }
  }

  lemma UpdatedWasCurrent(l: Durable, row: OrderRow, asOf: nat, event: Event)
    requires Good(l) && WasLoaded(l, row, asOf) && ApplyEvent(l, row, event).1.Updated?
    ensures Current(l.tables, row) && Sound(row.core) && SoundRows(l.tables.orders)
  {
    hide Transition, HasExec;
    GuardMeansCurrent(l, row, asOf);
  }

  lemma RolledBackIsGood(l: Durable, l': Durable)
    requires Good(l) && l'.tables == l.tables && l'.events == l.events && Consistent(l')
    ensures Good(l') && Evolves(l, l')
  {
  }

  lemma UpdateKeepsGood(l: Durable, row: OrderRow, event: Event)
    requires Good(l) && SoundRows(l.tables.orders) && Current(l.tables, row) && FillNeutral(row, event)
    requires ApplyEvent(l, row, event).1.Updated? && Consistent(ApplyEvent(l, row, event).0)
    ensures
      var (l', out) := ApplyEvent(l, row, event);
      Good(l') && Evolves(l, l') && Current(l'.tables, out.row) && Loaded(l', out.row)
  {
    hide ApplyEvent, Consistent, Balanced, Conserved, Recorded, Evolves, Transition, Loaded, SoundRows;
    ApplyShape(l, row, event);
    ApplyEvolves(l, row, event);
    ApplyKeepsBalanced(l, row, event);
    ApplyKeepsConserved(l, row, event);
    ApplyKeepsRecorded(l, row, event);
    LoadedNow(ApplyEvent(l, row, event).0, row.core.orderId);
  }

  lemma EmptyIsGood()
    ensures Good(EMPTY)
  {
  }
}
