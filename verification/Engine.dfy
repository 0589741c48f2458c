/** The engine and the reconciler as they are written: methods that run a
    lock-held region from beginning to end on the ledger they share.  Each is
    proved to leave what the protocol's task leaves when nothing interferes, so
    a run of a method is one schedule of the transition system, and the
    invariants of every schedule are invariants of the methods. */
module Engine {
  import opened Common
  import opened Lifecycle
  import opened Ledger
  import opened Accounting
  import opened LedgerStores
  import opened LedgerHistory
  import opened Guards
  import opened Protocol
  import opened ProtocolSafety

  // ---------------------------------------------------------------- a task, uninterrupted

  function Rank(task: Task): nat {
    match task
    case PlaceLocked(_) => 9
    case PlaceFresh(_) => 8
    case PlaceUnheld(_) => 7
    case PlaceSole(_) => 6
    case PlaceMeasured(_, _) => 6
    case PlaceGuarded(_) => 5
    case PlaceRecorded(_, _) => 4
    case PlaceStarted(_, _) => 3
    case CancelLocked(_) => 3
    case CancelLoaded(_) => 2
    case CancelSent(_) => 1
    case FillLocked(_, _) => 2
    case FillLoaded(_, _) => 1
    case ConfirmLocked(_) => 2
    case ConfirmLoaded(_) => 1
    case ReconLocked(_, _) => 2
    case ReconLoaded(_, _) => 1
    case _ => 0
  }

  function FillsLeft(task: Task): nat {
    if task.Backfilling? && task.next <= |task.found.fills| then |task.found.fills| - task.next else 0
  }

  lemma ActProgresses(l: Durable, task: Task, choice: Choice, caps: map<string, real>)
    ensures
      var next := Act(l, task, choice, caps).task;
      next.Some? ==> Rank(next.value) < Rank(task)
                     || (Rank(next.value) == Rank(task) && FillsLeft(next.value) < FillsLeft(task))
  {
    hide ApplyEvent, Load, EntryQty, ExitQty, OpenExitRemaining, HasUnresolved, HasOpenEntry, PositionOf;
    if task.ReconLoaded? {
      var out := ApplyEvent(l, task.row, ReconcileStarted("reconciler")).1;
      if out.Updated? { assert Rank(Adopting(out.row, task.view)) == 0; }
    }
  }

  /** The ledger a task leaves if nobody interferes until it is done. */
  ghost function Finish(l: Durable, task: Task, choice: Choice, caps: map<string, real>): Durable
    decreases Rank(task), FillsLeft(task)
  {
    var e := Act(l, task, choice, caps);
    ActProgresses(l, task, choice, caps);
    if e.task.None? then e.ledger else Finish(e.ledger, e.task.value, choice, caps)
  }

  /** The schedule that lets an instrument's task run to its end. */
  ghost function AdvanceUntilDone(s: System, instrument: string, choice: Choice): System
    requires instrument in s.held
    decreases Rank(s.held[instrument]), FillsLeft(s.held[instrument])
  {
    var s' := Next(s, Advance(instrument, choice));
    ActProgresses(s.ledger, s.held[instrument], choice, s.caps);
    if instrument !in s'.held then s' else AdvanceUntilDone(s', instrument, choice)
  }

  /** Running a task to its end is a run of the transition system that releases the lock. */
  lemma {:induction false} FinishIsASchedule(s: System, instrument: string, choice: Choice)
    requires instrument in s.held
    ensures
      var s' := AdvanceUntilDone(s, instrument, choice);
      && s'.ledger == Finish(s.ledger, s.held[instrument], choice, s.caps)
      && instrument !in s'.held && s'.imports == s.imports && s'.imported == s.imported
    decreases Rank(s.held[instrument]), FillsLeft(s.held[instrument])
  {
    hide Act;
    var s' := Next(s, Advance(instrument, choice));
    ActProgresses(s.ledger, s.held[instrument], choice, s.caps);
    if instrument in s'.held {
      FinishIsASchedule(s', instrument, choice);
    }
  }

  // ---------------------------------------------------------------- the engine

  datatype PlaceResult = Placed(row: OrderRow) | Blocked

  datatype BrokerEvent = Filled(key: string, fill: BrokerFill) | CancelConfirmedBy(key: string)

  function EventTask(event: BrokerEvent): Task {
    match event
    case Filled(key, fill) => FillLocked(key, fill)
    case CancelConfirmedBy(key) => ConfirmLocked(key)
  }

  function Happening(event: BrokerEvent): Event {
    match event
    case Filled(_, fill) => FillReceived(fill.execId, fill.qty, fill.price)
    case CancelConfirmedBy(_) => CancelConfirmed
  }

  function Cause(event: BrokerEvent): string {
    match event
    case Filled(_, fill) => "late fill " + fill.execId
    case CancelConfirmedBy(_) => "late cancel-confirm"
  }

  /** The quantity the guards leave an intent; None is a refusal. */
  function GuardedQty(t: Tables, intent: Intent, cap: Option<real>): Option<real> {
    var position := PositionOf(t, intent.instrument);
    if intent.authority == ProtectiveExit then ExitQty(position, OpenExitRemaining(t.orders, intent.instrument), intent)
    else if HasUnresolved(t.orders, intent.instrument) || HasOpenEntry(t.orders, intent.instrument) then None
    else EntryQty(position, intent, cap)
  }

  /** What waits for the reconciler: the queue, and the keys queued or in flight. */
  datatype Waitlist = Waitlist(queue: seq<string>, pending: set<string>)

  /** A key already pending is not queued twice. */
  function Enqueued(w: Waitlist, key: string): Waitlist {
    if key in w.pending then w else Waitlist(w.queue + [key], w.pending + {key})
  }

  /** The order is in doubt: only the reconciler takes it out of this state. */
  predicate Parked(l: Durable, key: string) {
    var row := Load(l, key);
    row.Some? && row.value.core.state in {Unknown, Reconciling}
  }

  /** No order has become doubtful without its key waiting. */
  ghost predicate ParkedWait(l: Durable, l': Durable, pending: set<string>) {
    forall key: string | Parked(l', key) :: Parked(l, key) || key in pending
  }

  /** Whether a report contradicts what is on record: the order is finished or in
      doubt, and the report does not merely repeat its cancellation. */
  predicate Contradicts(event: BrokerEvent, s: State) {
    (IsTerminal(s) || s == Unknown) && !(event.CancelConfirmedBy? && s == Canceled)
  }

  /** What the guards promise of the quantity they leave: an exit all that is
      unclaimed, if it asks for as much; an entry, where nothing on the instrument
      is in doubt or open, all the cap leaves; and a refusal exactly where that is
      nothing. */
  ghost predicate Allows(t: Tables, intent: Intent, cap: Option<real>, qty: Option<real>) {
    var position := Abs(PositionOf(t, intent.instrument));
    && (qty.Some? ==> 0.0 < qty.value <= intent.qty)
    && if intent.authority == ProtectiveExit then
         var free := position - OpenExitRemaining(t.orders, intent.instrument);
         && (qty.None? <==> free <= 0.0)
         && (qty.Some? ==> qty.value <= free && (qty.value < intent.qty ==> qty.value == free))
       else
         var after := Abs(PositionOf(t, intent.instrument) + SignedQty(intent.side, intent.qty));
         var held := exists row <- t.orders ::
                       && row.core.instrument == intent.instrument
                       && (row.core.state in {Unknown, Reconciling}
                           || (row.authority == Entry && row.core.state !in {State.Filled, Canceled, Rejected}));
         && (qty.None? <==> held || (cap.Some? && cap.value < after && cap.value <= position))
         && (qty.Some? && qty.value < intent.qty ==>
               cap.Some? && cap.value < after && position + qty.value == cap.value)
         && (qty.Some? && cap.Some? ==>
               Abs(PositionOf(t, intent.instrument) + SignedQty(intent.side, qty.value)) <= cap.value)
  }

  lemma GuardsAllow(t: Tables, intent: Intent, cap: Option<real>)
    ensures Allows(t, intent, cap, GuardedQty(t, intent, cap))
  {
    hide EntryQty, ExitQty, HasUnresolved, HasOpenEntry, OpenExitRemaining, PositionOf;
    EntryStaysUnderCap(PositionOf(t, intent.instrument), intent, cap);
    ExitTakesWhatIsFree(PositionOf(t, intent.instrument), OpenExitRemaining(t.orders, intent.instrument), intent);
    HoldsAre(t.orders, intent.instrument);
  }

  class OrderEngine {
    const store: LedgerStore
    const caps: map<string, real>
    /** Keys awaiting reconciliation, first in first out. */
    var needsReconcile: seq<string>
    /** Keys queued or in flight in the reconcile loop. */
    var pending: set<string>

    constructor (store: LedgerStore, caps: map<string, real>)
      ensures this.store == store && this.caps == caps && needsReconcile == [] && pending == {}
    {
      this.store, this.caps := store, caps;
      needsReconcile, pending := [], {};
    }

    function Waits(): Waitlist
      reads this
    {
      Waitlist(needsReconcile, pending)
    }

    /** The single way onto the queue: a key already pending is a no-op. */
    method EnqueueReconcile(key: string) returns (queued: bool)
      modifies this
      ensures queued == (key !in old(pending))
      ensures Waits() == Enqueued(old(Waits()), key) && key in pending
    {
      if key in pending {
        return false;
      }
      pending := pending + {key};
      needsReconcile := needsReconcile + [key];
      return true;
    }

    /** Entries: refused on unresolved state or a live entry, clamped to the cap.
        Exits: clamped to what live exits have not already claimed. */
    method Guarded(intent: Intent) returns (allowed: Option<Intent>)
      ensures allowed == match GuardedQty(store.State().tables, intent, CapOf(intent.instrument))
                         case None => None
                         case Some(qty) => Some(intent.(qty := qty))
      ensures Allows(store.State().tables, intent, CapOf(intent.instrument),
                     if allowed.None? then None else Some(allowed.value.qty))
    {
      GuardsAllow(store.State().tables, intent, CapOf(intent.instrument));
      var t := store.State().tables;
      var position := PositionOf(t, intent.instrument);
      if intent.authority == ProtectiveExit {
        var committed := OpenExitRemaining(t.orders, intent.instrument);
        var exitable := Abs(position) - committed;
        if exitable <= 0.0 {
          return None;
        }
        return Some(intent.(qty := Min(intent.qty, exitable)));
      }
      if HasUnresolved(t.orders, intent.instrument) {
        return None;
      }
      if HasOpenEntry(t.orders, intent.instrument) {
        return None;
      }
      EntryStaysUnderCap(position, intent, CapOf(intent.instrument));
      var qty := EntryQty(position, intent, CapOf(intent.instrument));
      allowed := match qty
                 case None => None
                 case Some(q) => Some(intent.(qty := q));
    }

    function CapOf(instrument: string): Option<real> {
      if instrument in caps then Some(caps[instrument]) else None
    }

    /** Guards, durable intent, SUBMITTING, broker, then the broker's answer. */
    method Place(intent: Intent, answer: SubmitAnswer) returns (result: PlaceResult, ghost submitted: bool)
      requires Good(store.State())
      modifies this, store
      ensures store.State() == Finish(old(store.State()), PlaceLocked(intent), Answer(answer), caps)
      ensures Load(old(store.State()), intent.key).Some? ==> !submitted && result.Placed?
      ensures result.Blocked? ==> store.State() == old(store.State())
      ensures Load(old(store.State()), intent.key).None? ==>
                && (submitted <==> !result.Blocked?)
                && (result.Blocked? <==> GuardedQty(old(store.State().tables), intent, CapOf(intent.instrument)).None?)
      ensures result.Placed? ==> Load(store.State(), intent.key) == Some(result.row)
      ensures submitted ==>
                && result.Placed?
                && Allows(old(store.State().tables), intent, CapOf(intent.instrument), Some(result.row.core.qty))
                && IsPlaced(old(store.State().tables), store.State().tables,
                            intent.(qty := result.row.core.qty), answer, result.row)
      ensures Waits() == if FrozenMidSubmission(old(store.State()), intent.key) || (submitted && answer.TimedOut?)
                         then Enqueued(old(Waits()), intent.key) else old(Waits())
      ensures ParkedWait(old(store.State()), store.State(), pending)
    {
      hide Finish, Ledger.ApplyEvent, Ledger.CreateOrder, HasUnresolved, HasOpenEntry, OpenExitRemaining, Load, Good,
           ParkedWait, GuardedQty, FindKey;
      submitted := false;
      ghost var choice, start := Answer(answer), store.State();
      NothingParked(start, pending);
      LoadFinds(start, intent.key);
      var existing := store.LoadOrder(intent.key);
      if existing.Some? {
        FinishReplay(start, intent, choice, caps);
        if existing.value.core.state != Submitting {
          return Placed(existing.value), false;
        }
        LoadIsCurrent(start, intent.key);
        OneOrderMoves(start, existing.value, ReconcileStarted("replayed mid-submission"));
        var out := store.ApplyEvent(existing.value, ReconcileStarted("replayed mid-submission"));
        var _ := EnqueueReconcile(intent.key);
        QueuedIsWaiting(start, store.State(), intent.key, pending);
        return Placed(out.row), false;
      }
      var allowed := Guarded(intent);
      FinishGuards(start, intent, choice, caps);
      if allowed.None? {
        return Blocked, false;
      }
      FinishPlace(start, allowed.value, answer, caps);
      NewOrderIsSubmitted(start, allowed.value, answer);
      var row := store.CreateOrder(allowed.value);
      var started := store.ApplyEvent(row, SubmissionStarted);
      submitted := true;
      var answered := store.ApplyEvent(started.row, AnswerEvent(answer));
      NewOrderIsLoaded(start, store.State(), answered.row);
      if answer.TimedOut? {
        var _ := EnqueueReconcile(intent.key);
        QueuedIsWaiting(start, store.State(), intent.key, pending);
      } else {
        NewOrderWaits(start, store.State(), answered.row, pending);
      }
      return Placed(answered.row), true;
    }

    method RequestCancel(key: string, timesOut: bool) returns (found: bool)
      requires Good(store.State())
      modifies this, store
      ensures found == Load(old(store.State()), key).Some?
      ensures store.State() ==
                Finish(old(store.State()), CancelLocked(key), if timesOut then CancelTimesOut else Quiet, caps)
      ensures Waits() == if found && timesOut && Load(old(store.State()), key).value.core.state in {Working, Partial}
                         then Enqueued(old(Waits()), key) else old(Waits())
      ensures ParkedWait(old(store.State()), store.State(), pending)
    {
      hide Finish, Ledger.ApplyEvent, Load, Good, ParkedWait, FindKey;
      ghost var start := store.State();
      FinishCancel(start, key, if timesOut then CancelTimesOut else Quiet, caps);
      NothingParked(start, pending);
      LoadFinds(start, key);
      var stored := store.LoadOrder(key);
      if stored.None? {
        return false;
      }
      LoadIsCurrent(start, key);
      OneOrderMoves(start, stored.value, CancelRequested);
      var out := store.ApplyEvent(stored.value, CancelRequested);
      if out.Updated? {
        ghost var asked := store.State();
        NewlyParkedWaits(start, asked, stored.value, out.row, pending);
        if timesOut {
          OneOrderMoves(asked, out.row, ReconcileStarted("cancel timeout"));
          var _ := store.ApplyEvent(out.row, ReconcileStarted("cancel timeout"));
          var _ := EnqueueReconcile(key);
          OthersStandTwice(start, asked, store.State(), key);
          QueuedIsWaiting(start, store.State(), key, pending);
        }
      } else {
        SameTablesWait(start, store.State(), pending);
      }
      return true;
    }

    /** A late or contradictory report opens the order for reconciliation; an
        unknown key is disowned. */
    method OnBrokerEvent(event: BrokerEvent)
      requires Good(store.State())
      modifies this, store
      ensures store.State() == Finish(old(store.State()), EventTask(event), Quiet, caps)
      ensures var row := Load(old(store.State()), event.key);
              Waits() == if row.Some? && Contradicts(event, row.value.core.state)
                         then Enqueued(old(Waits()), event.key) else old(Waits())
      ensures ParkedWait(old(store.State()), store.State(), pending)
    {
      hide Finish, Ledger.ApplyEvent, Load, Good, ParkedWait, FindKey;
      ghost var start := store.State();
      FinishEvidence(start, event, Quiet, caps);
      NothingParked(start, pending);
      LoadFinds(start, event.key);
      var stored := store.LoadOrder(event.key);
      if stored.None? {
        return;
      }
      LoadIsCurrent(start, event.key);
      OneOrderMoves(start, stored.value, Happening(event));
      ReportsAreEvidence(stored.value.core, event);
      var out := store.ApplyEvent(stored.value, Happening(event));
      if out == Refused(RequiresReconciliation) {
        OneOrderMoves(start, stored.value, ReconcileStarted(Cause(event)));
        var _ := store.ApplyEvent(stored.value, ReconcileStarted(Cause(event)));
        var _ := EnqueueReconcile(event.key);
        QueuedIsWaiting(start, store.State(), event.key, pending);
      } else {
        NewlyParkedWaits(start, store.State(), stored.value, if out.Updated? then out.row else stored.value, pending);
      }
    }
  }

  // ---------------------------------------------------------------- one order moves

  /** The order is frozen mid-submission: a crash came between the record of the
      start and the record of the answer. */
  predicate FrozenMidSubmission(l: Durable, key: string) {
    var row := Load(l, key);
    row.Some? && row.value.core.state == Submitting
  }

  /** Every other order is as it was. */
  ghost predicate OthersStand(l: Durable, l': Durable, key: string) {
    forall other: string | other != key :: Load(l', other) == Load(l, other)
  }

  lemma LoadIsCurrent(l: Durable, key: string)
    requires Good(l) && Load(l, key).Some?
    ensures Current(l.tables, Load(l, key).value) && Load(l, key).value.core.key == key
  {
    assert SoundRows(l.tables.orders);
  }

  lemma CurrentIsLoaded(l: Durable, row: OrderRow)
    requires Good(l) && Current(l.tables, row)
    ensures Load(l, row.core.key) == Some(row) && Loaded(l, row)
  {
    FindKeyUnique(l.tables.orders, row.core.orderId);
    LoadedNow(l, row.core.orderId);
  }

  /** Replacing a row by one with its key changes what no other key finds. */
  lemma {:induction false} FindKeyElsewhere(orders: seq<OrderRow>, id: nat, row: OrderRow, other: string)
    requires id < |orders| && row.core.key == orders[id].core.key && other != row.core.key
    ensures FindKey(orders[id := row], other) == FindKey(orders, other)
    ensures FindKey(orders, other) != Some(id)
  {
    var rest := orders[..|orders| - 1];
    if id < |orders| - 1 {
      assert orders[id := row][..|orders| - 1] == rest[id := row];
      FindKeyElsewhere(rest, id, row, other);
    } else {
      assert orders[id := row][..|orders| - 1] == rest;
    }
  }

  lemma OthersStandAfter(l: Durable, l': Durable, id: nat, row: OrderRow)
    requires id < |l.tables.orders| && row.core.key == l.tables.orders[id].core.key
    requires l'.tables.orders == l.tables.orders[id := row]
    ensures OthersStand(l, l', row.core.key)
  {
    forall other: string | other != row.core.key ensures Load(l', other) == Load(l, other) {
      FindKeyElsewhere(l.tables.orders, id, row, other);
    }
  }

  /** An event applied to an order just read moves that order and no other, and
      is turned away only by the lifecycle or as a duplicate. */
  lemma OneOrderMoves(l: Durable, row: OrderRow, event: Event)
    requires Good(l) && Current(l.tables, row) && FillNeutral(row, event)
    ensures
      var (l', out) := ApplyEvent(l, row, event);
      var step := Transition(row.core, event);
      && Good(l') && Evolves(l, l') && OthersStand(l, l', row.core.key)
      && out == (if step.Err? then Refused(step.fault)
                 else if event.FillReceived? && HasExec(l.tables.fills, event.execId) then Duplicate
                 else Updated(row.(core := step.order, lastSeq := l.nextSeq)))
      && (if out.Updated? then Current(l'.tables, out.row) && out.row.core.key == row.core.key
                               && Load(l', row.core.key) == Some(out.row)
          else l' == l && Load(l', row.core.key) == Some(row))
  {
    assert SoundRows(l.tables.orders);
    CurrentIsLoaded(l, row);
    TurnedAway(l, row, event);
    hide Good, Evolves, SoundRows, ApplyEvent, Transition, HasExec, Load, OthersStand;
    ApplyKeepsGood(l, row, event);
    var (l', out) := ApplyEvent(l, row, event);
    if out.Updated? {
      ApplyShape(l, row, event);
      OthersStandAfter(l, l', row.core.orderId, out.row);
      CurrentIsLoaded(l', out.row);
    } else {
      NothingMoves(l, row.core.key);
    }
  }

  lemma TurnedAway(l: Durable, row: OrderRow, event: Event)
    requires Current(l.tables, row)
    ensures
      var (l', out) := ApplyEvent(l, row, event);
      var step := Transition(row.core, event);
      && out == (if step.Err? then Refused(step.fault)
                 else if event.FillReceived? && HasExec(l.tables.fills, event.execId) then Duplicate
                 else Updated(row.(core := step.order, lastSeq := l.nextSeq)))
      && (!out.Updated? ==> l' == l)
  {
    hide Transition, HasExec;
  }

  lemma NothingMoves(l: Durable, key: string)
    ensures OthersStand(l, l, key)
  {
  }

  lemma OthersStandTwice(a: Durable, b: Durable, c: Durable, key: string)
    requires OthersStand(a, b, key) && OthersStand(b, c, key)
    ensures OthersStand(a, c, key)
  {
  }

  lemma NothingParked(l: Durable, pending: set<string>)
    ensures ParkedWait(l, l, pending)
  {
  }

  lemma SameTablesWait(l: Durable, l': Durable, pending: set<string>)
    requires l'.tables == l.tables
    ensures ParkedWait(l, l', pending)
  {
  }

  lemma QueuedIsWaiting(l: Durable, l': Durable, key: string, pending: set<string>)
    requires OthersStand(l, l', key) && key in pending
    ensures ParkedWait(l, l', pending)
  {
  }

  /** One order moved, and was doubtful before if it is now. */
  lemma NewlyParkedWaits(l: Durable, l': Durable, row: OrderRow, row': OrderRow, pending: set<string>)
    requires OthersStand(l, l', row.core.key) && row'.core.key == row.core.key
    requires Load(l, row.core.key) == Some(row) && Load(l', row.core.key) == Some(row')
    requires row'.core.state in {Unknown, Reconciling} ==> row.core.state in {Unknown, Reconciling}
    ensures ParkedWait(l, l', pending)
  {
  }

  lemma NewOrderWaits(l: Durable, l': Durable, row: OrderRow, pending: set<string>)
    requires OthersStand(l, l', row.core.key) && Load(l', row.core.key) == Some(row)
    requires row.core.state !in {Unknown, Reconciling}
    ensures ParkedWait(l, l', pending)
  {
  }

  lemma NewOrderIsLoaded(l: Durable, l': Durable, row: OrderRow)
    requires l'.tables.orders == l.tables.orders + [row]
    ensures OthersStand(l, l', row.core.key) && Load(l', row.core.key) == Some(row)
  {
    assert l'.tables.orders[..|l.tables.orders|] == l.tables.orders;
  }

  /** A report is turned into evidence if and only if it contradicts the record;
      one that is taken leaves no order in doubt that was not. */
  lemma ReportsAreEvidence(o: Order, event: BrokerEvent)
    ensures Transition(o, Happening(event)) == Err(RequiresReconciliation) <==> Contradicts(event, o.state)
    ensures Contradicts(event, o.state) ==> Transition(o, ReconcileStarted(Cause(event))).Ok?
    ensures var out := Transition(o, Happening(event));
            out.Ok? && out.order.state in {Unknown, Reconciling} ==> o.state in {Unknown, Reconciling}
  {
  }

  // ---------------------------------------------------------------- tasks, unrolled

  lemma Unroll(l: Durable, task: Task, choice: Choice, caps: map<string, real>)
    ensures
      var e := Act(l, task, choice, caps);
      Finish(l, task, choice, caps) == if e.task.None? then e.ledger else Finish(e.ledger, e.task.value, choice, caps)
  {
  }

  /** The guards, read one after another in a task and at once in the method. */
  lemma FinishGuards(l: Durable, intent: Intent, choice: Choice, caps: map<string, real>)
    requires Load(l, intent.key).None?
    ensures
      var qty := GuardedQty(l.tables, intent,
                            if intent.instrument in caps then Some(caps[intent.instrument]) else None);
      Finish(l, PlaceLocked(intent), choice, caps) ==
        match qty
        case None => l
        case Some(q) => Finish(l, PlaceGuarded(intent.(qty := q)), choice, caps)
  {
    hide OpenExitRemaining, HasUnresolved, HasOpenEntry, Finish;
    var position := PositionOf(l.tables, intent.instrument);
    Unroll(l, PlaceLocked(intent), choice, caps);
    Unroll(l, PlaceFresh(intent), choice, caps);
    if intent.authority == ProtectiveExit {
      Unroll(l, PlaceMeasured(intent, position), choice, caps);
    } else {
      EntryStaysUnderCap(position, intent, if intent.instrument in caps then Some(caps[intent.instrument]) else None);
      Unroll(l, PlaceUnheld(intent), choice, caps);
      Unroll(l, PlaceSole(intent), choice, caps);
    }
  }

  /** A new key's order runs from CREATED through SUBMITTING to the broker's answer. */
  lemma NewOrderIsSubmitted(l: Durable, intent: Intent, answer: SubmitAnswer)
    requires FindKey(l.tables.orders, intent.key).None?
    ensures
      var (l0, row) := CreateOrder(l, intent);
      var (l1, started) := ApplyEvent(l0, row, SubmissionStarted);
      && started.Updated?
      && var (l2, answered) := ApplyEvent(l1, started.row, AnswerEvent(answer));
         && answered.Updated?
         && IsPlaced(l.tables, l2.tables, intent, answer, answered.row)
  {
    var n := |l.tables.orders|;
    var (l0, row) := CreateOrder(l, intent);
    var (l1, started) := ApplyEvent(l0, row, SubmissionStarted);
    var (l2, answered) := ApplyEvent(l1, started.row, AnswerEvent(answer));
    assert l1.tables.orders == l.tables.orders + [started.row];
    assert l2.tables.orders == l.tables.orders + [answered.row];
  }

  /** One order more, as the intent and the broker's answer have it, and nothing else. */
  predicate IsPlaced(t: Tables, t': Tables, intent: RawIntent, answer: SubmitAnswer, row: OrderRow) {
    && t' == t.(orders := t.orders + [row])
    && row.core.key == intent.key && row.core.instrument == intent.instrument && row.core.orderId == |t.orders|
    && row.authority == intent.authority && row.side == intent.side && row.limitPrice == intent.limitPrice
    && row.core.qty == intent.qty && row.core.filled == 0.0
    && match answer
       case Accepted(id) => row.core.state == Working && row.core.brokerId == Some(id)
       case Declined(_) => row.core.state == Rejected && row.core.brokerId == None
       case TimedOut => row.core.state == Unknown && row.core.brokerId == None
  }

  lemma FinishPlace(l: Durable, intent: Intent, answer: SubmitAnswer, caps: map<string, real>)
    ensures
      var (l0, row) := CreateOrder(l, intent);
      var (l1, started) := ApplyEvent(l0, row, SubmissionStarted);
      Finish(l, PlaceGuarded(intent), Answer(answer), caps) ==
        if started.Updated? then ApplyEvent(l1, started.row, AnswerEvent(answer)).0 else l1
  {
    hide Finish, ApplyEvent, CreateOrder;
    var (l0, row) := CreateOrder(l, intent);
    var (l1, started) := ApplyEvent(l0, row, SubmissionStarted);
    Unroll(l, PlaceGuarded(intent), Answer(answer), caps);
    Unroll(l0, PlaceRecorded(intent, row), Answer(answer), caps);
    if started.Updated? {
      Unroll(l1, PlaceStarted(intent, started.row), Answer(answer), caps);
      Unroll(l1, PlaceAnswered(intent, started.row, AnswerEvent(answer)), Answer(answer), caps);
    }
  }

  lemma FinishReplay(l: Durable, intent: Intent, choice: Choice, caps: map<string, real>)
    requires Load(l, intent.key).Some?
    ensures
      var row := Load(l, intent.key).value;
      Finish(l, PlaceLocked(intent), choice, caps) ==
        if row.core.state == Submitting then ApplyEvent(l, row, ReconcileStarted("replayed mid-submission")).0 else l
  {
    hide Finish, ApplyEvent, Load;
    Unroll(l, PlaceLocked(intent), choice, caps);
    Unroll(l, PlaceInterrupted(intent, Load(l, intent.key).value), choice, caps);
  }

  lemma FinishCancel(l: Durable, key: string, choice: Choice, caps: map<string, real>)
    ensures Finish(l, CancelLocked(key), choice, caps) ==
      match Load(l, key)
      case None => l
      case Some(row) =>
        var (l1, out) := ApplyEvent(l, row, CancelRequested);
        if out.Updated? && choice.CancelTimesOut? then ApplyEvent(l1, out.row, ReconcileStarted("cancel timeout")).0
        else l1
  {
    hide Finish, ApplyEvent, Load;
    Unroll(l, CancelLocked(key), choice, caps);
    if Load(l, key).Some? {
      var row := Load(l, key).value;
      var (l1, out) := ApplyEvent(l, row, CancelRequested);
      Unroll(l, CancelLoaded(row), choice, caps);
      if out.Updated? {
        Unroll(l1, CancelSent(out.row), choice, caps);
        Unroll(l1, CancelLost(out.row), choice, caps);
      }
    }
  }

  lemma FinishEvidence(l: Durable, event: BrokerEvent, choice: Choice, caps: map<string, real>)
    ensures Finish(l, EventTask(event), choice, caps) ==
      match Load(l, event.key)
      case None => l
      case Some(row) =>
        var (l1, out) := ApplyEvent(l, row, Happening(event));
        if out == Refused(RequiresReconciliation) then ApplyEvent(l1, row, ReconcileStarted(Cause(event))).0 else l1
  {
    hide Finish, ApplyEvent, Load;
    Unroll(l, EventTask(event), choice, caps);
    if Load(l, event.key).Some? {
      var row := Load(l, event.key).value;
      var l1 := ApplyEvent(l, row, Happening(event)).0;
      match event {
        case Filled(_, fill) => Unroll(l, FillLoaded(row, fill), choice, caps);
        case CancelConfirmedBy(_) => Unroll(l, ConfirmLoaded(row), choice, caps);
      }
      Unroll(l1, LateEvidence(row, Cause(event)), choice, caps);
    }
  }

  // ---------------------------------------------------------------- the reconciler

  /** How a pass under the lock ends: resolved, short of what the broker reports,
      beyond it, or with a transaction the lifecycle refuses. */
  datatype Pass = Settled(row: OrderRow) | Short | Diverged | Raised

  const FILL_BACKFILL_RETRIES := 3

  /** States that reconciliation leaves an order in. */
  predicate AtRest(s: State) {
    IsTerminal(s) || s == Working || s == Partial
  }

  /** The order stands as it does at the broker. */
  predicate StandsAs(s: State, b: BrokerState) {
    && (s == Working <==> b == BWorking)
    && (s == Partial <==> b == BPartial)
    && (s == State.Filled <==> b == BFilled)
    && (s == Canceled <==> b == BCanceled)
    && (s == Rejected <==> b == BRejected)
  }

  /** What the broker reports, adopted; an order it no longer knows is canceled
      and keeps its fill. */
  predicate Adopts(row: OrderRow, view: Option<BrokerView>) {
    match view
    case None => row.core.state == Canceled
    case Some(v) =>
      && StandsAs(row.core.state, v.state) && row.core.brokerId == Some(v.brokerId)
      && row.core.filled == Min(v.filledQty, row.core.qty)
  }

  function Execution(f: BrokerFill): Event {
    FillReceived(f.execId, f.qty, f.price)
  }

  /** A report the lifecycle refuses: an execution of nothing or beyond the gross
      ceiling, or a total beyond it. */
  predicate Refuses(row: OrderRow, view: BrokerView) {
    || view.filledQty > OVERFILL_GROSS * row.core.qty
    || exists k :: 0 <= k < |view.fills| && Transition(row.core, Execution(view.fills[k])).Err?
  }

  /** What the end of a pass says of the order as it is then on record. */
  predicate Verdict(row: OrderRow, view: Option<BrokerView>, pass: Pass) {
    match pass
    case Settled(resolved) => row == resolved && Adopts(row, view)
    case Short =>
      view.Some? && row.core.state == Reconciling && row.core.filled < Min(view.value.filledQty, row.core.qty)
    case Diverged => view.Some? && row.core.state == Reconciling && row.core.filled > view.value.filledQty
    case Raised => view.Some? && row.core.state == Reconciling && Refuses(row, view.value)
  }

  /** Every execution the broker reported is booked. */
  predicate AllBooked(fills: seq<FillRow>, view: Option<BrokerView>) {
    view.Some? ==> forall k | 0 <= k < |view.value.fills| :: HasExec(fills, view.value.fills[k].execId)
  }

  class Reconciler {
    const store: LedgerStore

    constructor (store: LedgerStore)
      ensures this.store == store
    {
      this.store := store;
    }

    /** Query, then up to four passes under the lock, each on a freshly loaded
        order, asking the broker again between them; a gap that survives is a
        divergence.  `answers` are the broker's: the first query and the refetches. */
    method ReconcileOrder(key: string, answers: seq<Option<BrokerView>>) returns (outcome: Pass, passes: nat)
      requires Good(store.State()) && |answers| == FILL_BACKFILL_RETRIES + 1
      modifies store
      ensures Good(store.State()) && Evolves(old(store.State()), store.State())
      ensures OthersStand(old(store.State()), store.State(), key)
      ensures passes <= 4 && !outcome.Short?
      ensures passes == 0 ==> store.State() == old(store.State())
      ensures Load(old(store.State()), key).None? ==> outcome == Diverged && passes == 0
      ensures outcome.Settled? ==> Load(store.State(), key) == Some(outcome.row) && AtRest(outcome.row.core.state)
      ensures Reconciles(old(store.State()), store.State(), key, answers, outcome, passes)
    {
      hide Good, Evolves, Finish, Load, OthersStand, Verdict, AfterPasses, ViewAt;
      passes := 0;
      ghost var start := store.State();
      EvolvesRefl(start);
      NothingMoves(start, key);
      LoadFinds(start, key);
      var stored := store.LoadOrder(key);
      if stored.None? {
        return Diverged, 0;
      }
      if IsTerminal(stored.value.core.state) {
        return Settled(stored.value), 0;
      }
      var view := answers[0];
      NoPassYet(start, key, answers);
      while passes < FILL_BACKFILL_RETRIES + 1
        invariant passes <= FILL_BACKFILL_RETRIES + 1
        invariant store.State() == AfterPasses(start, key, answers, passes)
        invariant passes < FILL_BACKFILL_RETRIES + 1 ==> view == ViewAt(answers, passes)
        invariant forall p | 0 < p <= passes :: LeftShort(start, key, answers, p)
        invariant Good(store.State()) && Evolves(start, store.State()) && OthersStand(start, store.State(), key)
        invariant Load(store.State(), key).Some? && !IsTerminal(Load(store.State(), key).value.core.state)
      {
        ghost var before := store.State();
        outcome := PassUnderLock(key, view);
        passes := passes + 1;
        EvolvesTransitive(start, before, store.State());
        OthersStandTwice(start, before, store.State(), key);
        VerdictMeans(Load(store.State(), key).value, view, outcome);
        OnePassMore(start, key, answers, passes);
        if !outcome.Short? {
          return outcome, passes;
        }
        ViewGoesOn(answers, passes);
        if passes < FILL_BACKFILL_RETRIES + 1 && answers[passes].Some? {
          view := answers[passes];
        }
      }
      assert LeftShort(start, key, answers, passes);
      return Diverged, passes;
    }

    /** The restart: rebuild the projections from the log, then reconcile every
        order that is not finished, stopping at the first that does not settle. */
    method StartupRecovery(answers: string -> seq<Option<BrokerView>>)
      returns (halted: bool, reconciled: seq<OrderRow>, ghost steps: seq<Step>)
      requires forall key: string :: |answers(key)| == FILL_BACKFILL_RETRIES + 1
      requires Replay(store.State().events).Some? ==> Good(Rebuilt(store.State()))
      modifies store
      ensures Replay(old(store.State().events)).None? ==> halted && store.State() == old(store.State())
      ensures Replay(old(store.State().events)).Some? ==>
                && Good(store.State()) && Evolves(Rebuilt(old(store.State())), store.State())
                && Recovers(Rebuilt(old(store.State())), store.State(), answers, halted, reconciled, steps)
                && (!halted ==> forall row <- store.State().tables.orders :: AtRest(row.core.state))
    {
      hide Good, Evolves, Load, OthersStand, Finish, AtRest, Reconciles;
      reconciled, steps := [], [];
      var replayed := store.RebuildProjections();
      if replayed.None? {
        return true, reconciled, steps;
      }
      ghost var start := store.State();
      assert start == Rebuilt(old(store.State()));
      EvolvesRefl(start);
      var keys := OpenKeys(store.orders);
      FinishedOrOpen(start);
      for i := 0 to |keys|
        invariant Good(store.State()) && Evolves(start, store.State()) && |reconciled| == i
        invariant RestOrLeft(store.State(), keys[i..])
        invariant |steps| == i && store.State() == if i == 0 then start else steps[i - 1].after
        invariant forall k: nat | k < i :: StepIs(start, keys, answers, steps, k)
        invariant forall k: nat | k < i :: steps[k].outcome == Settled(reconciled[k])
      {
        ghost var before := store.State();
        var outcome, passes := ReconcileOrder(keys[i], answers(keys[i]));
        EvolvesTransitive(start, before, store.State());
        StepsGoOn(start, keys, answers, steps, Step(outcome, passes, store.State()));
        steps := steps + [Step(outcome, passes, store.State())];
        if !outcome.Settled? {
          return true, reconciled, steps;
        }
        OneLess(before, store.State(), keys[i..], outcome.row);
        assert keys[i..][1..] == keys[i + 1..];
        reconciled := reconciled + [outcome.row];
      }
      AllAtRest(store.State());
      halted := false;
    }

    /** Reload, open, backfill what the broker reported, and resolve if the counts meet. */
    method PassUnderLock(key: string, view: Option<BrokerView>) returns (pass: Pass)
      requires Good(store.State()) && Load(store.State(), key).Some?
      modifies store
      ensures store.State() == Finish(old(store.State()), ReconLocked(key, view), Quiet, map[])
      ensures Good(store.State()) && Evolves(old(store.State()), store.State())
      ensures OthersStand(old(store.State()), store.State(), key) && Load(store.State(), key).Some?
      ensures var was := Load(old(store.State()), key).value;
              if IsTerminal(was.core.state) then pass == Settled(was) && store.State() == old(store.State())
              else Verdict(Load(store.State(), key).value, view, pass)
      ensures pass.Settled? || pass.Short? || pass.Diverged? ==>
                IsTerminal(Load(old(store.State()), key).value.core.state) || AllBooked(store.fills, view)
    {
      hide Finish, Ledger.ApplyEvent, Act, Load, Good, Evolves, OthersStand, Transition, HasExec;
      ghost var start := store.State();
      EvolvesRefl(start);
      NothingMoves(start, key);
      LoadFinds(start, key);
      LoadIsCurrent(start, key);
      var loaded := store.LoadOrder(key);
      var stored := loaded.value;
      FinishLoading(start, key, view, map[]);
      if IsTerminal(stored.core.state) {
        return Settled(stored);
      }
      if stored.core.state != Reconciling {
        FinishOpening(store.State(), stored, view, map[]);
        OneOrderMoves(store.State(), stored, ReconcileStarted("reconciler"));
        OpeningIsLegal(stored.core);
        var out := store.ApplyEvent(stored, ReconcileStarted("reconciler"));
        stored := out.row;
      }
      ghost var opened' := store.State();
      if view.None? {
        var resolution := ReconcileResolved(Canceled, stored.core.brokerId, stored.core.filled);
        FinishVanished(store.State(), stored, map[]);
        CurrentIsSound(store.State(), stored);
        OneOrderMoves(store.State(), stored, resolution);
        ResolutionIs(stored.core, resolution);
        var out := store.ApplyEvent(stored, resolution);
        EvolvesTransitive(start, opened', store.State());
        OthersStandTwice(start, opened', store.State(), key);
        return Settled(out.row);
      }
      pass := Backfill(stored, view.value);
      EvolvesTransitive(start, opened', store.State());
      OthersStandTwice(start, opened', store.State(), key);
    }

    /** Book what is missing; then resolve, wait or diverge on the counts. */
    method Backfill(row: OrderRow, view: BrokerView) returns (pass: Pass)
      requires Good(store.State()) && Current(store.State().tables, row) && row.core.state == Reconciling
      modifies store
      ensures store.State() == Finish(old(store.State()), Backfilling(row, view, 0), Quiet, map[])
      ensures Good(store.State()) && Evolves(old(store.State()), store.State())
      ensures OthersStand(old(store.State()), store.State(), row.core.key) && Load(store.State(), row.core.key).Some?
      ensures Verdict(Load(store.State(), row.core.key).value, Some(view), pass)
      ensures !pass.Raised? ==> AllBooked(store.fills, Some(view))
    {
      hide Finish, Ledger.ApplyEvent, Act, Load, Good, Evolves, OthersStand, Transition, HasExec;
      ghost var start := store.State();
      ghost var caps: map<string, real> := map[];
      var stored := row;
      EvolvesRefl(start);
      NothingMoves(start, row.core.key);
      CurrentIsLoaded(start, row);
      for i := 0 to |view.fills|
        invariant Good(store.State()) && Evolves(start, store.State())
        invariant OthersStand(start, store.State(), row.core.key)
        invariant Current(store.State().tables, stored) && Load(store.State(), row.core.key) == Some(stored)
        invariant stored.core.key == row.core.key && stored.core.state == Reconciling
        invariant forall k | 0 <= k < i :: HasExec(store.fills, view.fills[k].execId)
        invariant Finish(start, Backfilling(row, view, 0), Quiet, caps)
               == Finish(store.State(), Backfilling(stored, view, i), Quiet, caps)
      {
        ghost var before := store.State();
        FinishBackfill(before, stored, view, i, caps);
        var fill := view.fills[i];
        OneOrderMoves(before, stored, Execution(fill));
        ExecutionIsBooked(before, stored, Execution(fill));
        StaysReconciling(stored.core, Execution(fill));
        var out := store.ApplyEvent(stored, Execution(fill));
        EvolvesTransitive(start, before, store.State());
        OthersStandTwice(start, before, store.State(), row.core.key);
        BookedStays(before.tables.fills, store.fills, view, i);
        match out {
          case Updated(next) => stored := next;
          case Duplicate =>
          case _ => return Raised;
        }
      }
      FinishBackfill(store.State(), stored, view, |view.fills|, caps);
      var booked := stored.core.filled;
      if booked > view.filledQty {
        return Diverged;  // more than the broker holds: never absorbed
      }
      if booked < Min(view.filledQty, stored.core.qty) {
        return Short;
      }
      var resolution := ReconcileResolved(StateMap(view.state), Some(view.brokerId), view.filledQty);
      ghost var before := store.State();
      CurrentIsSound(before, stored);
      OneOrderMoves(before, stored, resolution);
      ResolutionIs(stored.core, resolution);
      ResolvingBooksNothing(before, stored, resolution);
      var out := store.ApplyEvent(stored, resolution);
      EvolvesTransitive(start, before, store.State());
      OthersStandTwice(start, before, store.State(), row.core.key);
      pass := if out.Updated? then Settled(out.row) else Raised;
    }
  }

  /** The broker's latest answer when a pass begins: a refetch that finds nothing
      leaves the one before it standing. */
  function ViewAt(answers: seq<Option<BrokerView>>, pass: nat): Option<BrokerView>
    requires pass < |answers|
  {
    if pass == 0 || answers[pass].Some? then answers[pass] else ViewAt(answers, pass - 1)
  }

  /** The ledger after so many uninterrupted passes, each on the latest answer. */
  ghost function AfterPasses(l: Durable, key: string, answers: seq<Option<BrokerView>>, passes: nat): Durable
    requires passes <= |answers|
  {
    if passes == 0 then l
    else Finish(AfterPasses(l, key, answers, passes - 1), ReconLocked(key, ViewAt(answers, passes - 1)), Quiet, map[])
  }

  /** The `p`-th pass left the order short of what its answer reports. */
  ghost predicate LeftShort(l: Durable, key: string, answers: seq<Option<BrokerView>>, p: nat)
    requires 0 < p <= |answers|
  {
    var row := Load(AfterPasses(l, key, answers, p), key);
    row.Some? && Verdict(row.value, ViewAt(answers, p - 1), Short)
  }

  /** A reconciliation: nothing for a key that is unknown or an order that is
      finished; otherwise one pass after another, each on the broker's latest
      answer, for as long as they leave the order short. */
  ghost predicate Reconciles(l: Durable, l': Durable, key: string, answers: seq<Option<BrokerView>>,
                             outcome: Pass, passes: nat)
  {
    && passes <= |answers| == FILL_BACKFILL_RETRIES + 1
    && match Load(l, key)
    case None => outcome == Diverged && passes == 0 && l' == l
    case Some(was) =>
      if IsTerminal(was.core.state) then outcome == Settled(was) && passes == 0 && l' == l
      else
        && passes > 0 && l' == AfterPasses(l, key, answers, passes) && Load(l', key).Some?
        && (forall p | 0 < p < passes :: LeftShort(l, key, answers, p))
        && Concludes(Load(l', key).value, ViewAt(answers, passes - 1), outcome, passes)
  }

  lemma NoPassYet(l: Durable, key: string, answers: seq<Option<BrokerView>>)
    requires answers != []
    ensures AfterPasses(l, key, answers, 0) == l && ViewAt(answers, 0) == answers[0]
  {
    hide Finish;
  }

  lemma OnePassMore(l: Durable, key: string, answers: seq<Option<BrokerView>>, passes: nat)
    requires 0 < passes <= |answers|
    ensures AfterPasses(l, key, answers, passes) ==
              Finish(AfterPasses(l, key, answers, passes - 1), ReconLocked(key, ViewAt(answers, passes - 1)),
                     Quiet, map[])
  {
    hide Finish;
  }

  lemma ViewGoesOn(answers: seq<Option<BrokerView>>, pass: nat)
    ensures 0 < pass < |answers| ==>
              ViewAt(answers, pass) == if answers[pass].Some? then answers[pass] else ViewAt(answers, pass - 1)
  {
  }

  /** What the outcome says after the passes it took: a gap counts as divergence
      only when it has survived every refetch. */
  predicate Concludes(row: OrderRow, view: Option<BrokerView>, outcome: Pass, passes: nat) {
    || Verdict(row, view, outcome)
    || (outcome == Diverged && passes == FILL_BACKFILL_RETRIES + 1 && Verdict(row, view, Short))
  }

  lemma VerdictMeans(row: OrderRow, view: Option<BrokerView>, pass: Pass)
    requires Verdict(row, view, pass)
    ensures pass.Settled? ==> pass.row == row && AtRest(row.core.state)
    ensures pass.Short? ==> !IsTerminal(row.core.state)
  {
  }

  lemma CurrentIsSound(l: Durable, row: OrderRow)
    requires Good(l) && Current(l.tables, row)
    ensures Sound(row.core)
  {
    assert SoundRows(l.tables.orders);
  }

  lemma OpeningIsLegal(o: Order)
    requires !IsTerminal(o.state) && o.state != Reconciling
    ensures Transition(o, ReconcileStarted("reconciler")) == Ok(o.(state := Reconciling))
  {
  }

  /** A resolution is refused only beyond the gross ceiling. */
  lemma ResolutionIs(o: Order, e: Event)
    requires Sound(o) && o.state == Reconciling && e.ReconcileResolved? && AtRest(e.resolved) && 0.0 <= e.filledQty
    ensures Transition(o, e) == if e.filledQty > o.qty * OVERFILL_GROSS then Err(OverfillViolation)
                                else
                                  var filled := Min(e.filledQty, o.qty);
                                  Ok(o.(state := e.resolved, brokerId := e.venueId, filled := filled))
  {
  }

  lemma StaysReconciling(o: Order, e: Event)
    requires o.state == Reconciling && e.FillReceived?
    ensures Transition(o, e).Ok? ==> Transition(o, e).order.state == Reconciling
  {
  }

  lemma ExecutionIsBooked(l: Durable, row: OrderRow, e: Event)
    requires e.FillReceived?
    ensures var (l', out) := ApplyEvent(l, row, e);
            && l.tables.fills <= l'.tables.fills
            && (out.Updated? || out.Duplicate? ==> HasExec(l'.tables.fills, e.execId))
  {
    hide Transition;
    var (l', out) := ApplyEvent(l, row, e);
    if out.Updated? { assert l'.tables.fills[|l.tables.fills|].execId == e.execId; }
  }

  lemma BookedStays(fills: seq<FillRow>, fills': seq<FillRow>, view: BrokerView, n: nat)
    requires fills <= fills' && n <= |view.fills|
    requires forall k | 0 <= k < n :: HasExec(fills, view.fills[k].execId)
    ensures forall k | 0 <= k < n :: HasExec(fills', view.fills[k].execId)
  {
    forall k | 0 <= k < n ensures HasExec(fills', view.fills[k].execId) {
      var i :| 0 <= i < |fills| && fills[i].execId == view.fills[k].execId;
      assert fills'[i] == fills[i];
    }
  }

  lemma ResolvingBooksNothing(l: Durable, row: OrderRow, e: Event)
    requires e.ReconcileResolved?
    ensures ApplyEvent(l, row, e).0.tables.fills == l.tables.fills
  {
    hide Transition;
  }

  // ---------------------------------------------------------------- the restart

  /** One reconciliation of the restart: how it ended, after how many passes, and what it left. */
  datatype Step = Step(outcome: Pass, passes: nat, after: Durable)

  /** The `k`-th step reconciles the `k`-th key on the broker's answers for it. */
  ghost predicate StepIs(l: Durable, keys: seq<string>, answers: string -> seq<Option<BrokerView>>,
                         steps: seq<Step>, k: nat)
    requires k < |steps| <= |keys|
  {
    var before := if k == 0 then l else steps[k - 1].after;
    Reconciles(before, steps[k].after, keys[k], answers(keys[k]), steps[k].outcome, steps[k].passes)
  }

  lemma StepsGoOn(l: Durable, keys: seq<string>, answers: string -> seq<Option<BrokerView>>, steps: seq<Step>, s: Step)
    requires |steps| < |keys| && forall k: nat | k < |steps| :: StepIs(l, keys, answers, steps, k)
    requires var n := |steps|;
             var before := if n == 0 then l else steps[n - 1].after;
             Reconciles(before, s.after, keys[n], answers(keys[n]), s.outcome, s.passes)
    ensures forall k: nat | k <= |steps| :: StepIs(l, keys, answers, steps + [s], k)
  {
    hide Reconciles;
    forall k: nat | k <= |steps| ensures StepIs(l, keys, answers, steps + [s], k) {
      if k < |steps| { assert StepIs(l, keys, answers, steps, k); }
    }
  }

  /** From the rebuilt ledger every order that is not finished is reconciled in
      turn, oldest first, each on the broker's answers for it, up to the first
      that does not settle, on which the restart halts. */
  ghost predicate Recovers(l: Durable, l': Durable, answers: string -> seq<Option<BrokerView>>, halted: bool,
                           reconciled: seq<OrderRow>, steps: seq<Step>)
  {
    var keys, n := OpenKeys(l.tables.orders), |steps|;
    && n <= |keys| && l' == (if n == 0 then l else steps[n - 1].after)
    && (forall k: nat | k < n :: StepIs(l, keys, answers, steps, k))
    && |reconciled| == (if halted then n - 1 else n)
    && (forall k: nat | k < |reconciled| :: steps[k].outcome == Settled(reconciled[k]))
    && (if halted then n > 0 && !steps[n - 1].outcome.Settled? else n == |keys|)
  }

  /** The ledger as the log alone has it. */
  function Rebuilt(l: Durable): Durable {
    match Replay(l.events)
    case None => l
    case Some(t) => l.(tables := t)
  }

  /** Every order is at rest or among those still to be reconciled. */
  ghost predicate RestOrLeft(l: Durable, left: seq<string>) {
    forall key: string | Load(l, key).Some? :: AtRest(Load(l, key).value.core.state) || key in left
  }

  lemma FinishedOrOpen(l: Durable)
    requires Good(l)
    ensures RestOrLeft(l, OpenKeys(l.tables.orders))
  {
    forall key: string | Load(l, key).Some?
      ensures AtRest(Load(l, key).value.core.state) || key in OpenKeys(l.tables.orders)
    {
      var i := FindKey(l.tables.orders, key).value;
      if Live(l.tables.orders[i]) { LiveIsOpen(l.tables.orders, i); }
    }
  }

  lemma OneLess(l: Durable, l': Durable, left: seq<string>, row: OrderRow)
    requires left != [] && RestOrLeft(l, left) && OthersStand(l, l', left[0])
    requires Load(l', left[0]) == Some(row) && AtRest(row.core.state)
    ensures RestOrLeft(l', left[1..])
  {
    forall key: string | Load(l', key).Some? ensures AtRest(Load(l', key).value.core.state) || key in left[1..] {
      if key != left[0] { assert Load(l', key) == Load(l, key); }
    }
  }

  lemma AllAtRest(l: Durable)
    requires Good(l) && RestOrLeft(l, [])
    ensures forall row <- l.tables.orders :: AtRest(row.core.state)
  {
    forall row <- l.tables.orders ensures AtRest(row.core.state) {
      assert SoundRows(l.tables.orders);
      CurrentIsLoaded(l, row);
    }
  }

  /** A backfill: the next execution, or the verdict when there are no more. */
  lemma FinishBackfill(l: Durable, row: OrderRow, view: BrokerView, next: nat, caps: map<string, real>)
    ensures
      var rest := Finish(l, Backfilling(row, view, next), Quiet, caps);
      if next < |view.fills| then
        var (l1, out) := ApplyEvent(l, row, Execution(view.fills[next]));
        rest == match out
                case Updated(r) => Finish(l1, Backfilling(r, view, next + 1), Quiet, caps)
                case Duplicate => Finish(l1, Backfilling(row, view, next + 1), Quiet, caps)
                case _ => l1
      else
        rest == if row.core.filled <= view.filledQty && row.core.filled >= Min(view.filledQty, row.core.qty)
                then ApplyEvent(l, row, ReconcileResolved(StateMap(view.state), Some(view.brokerId), view.filledQty)).0
                else l
  {
    hide Finish, ApplyEvent;
    Unroll(l, Backfilling(row, view, next), Quiet, caps);
  }

  lemma FinishVanished(l: Durable, row: OrderRow, caps: map<string, real>)
    ensures Finish(l, Vanished(row), Quiet, caps) ==
              ApplyEvent(l, row, ReconcileResolved(Canceled, row.core.brokerId, row.core.filled)).0
  {
    hide Finish, ApplyEvent;
    Unroll(l, Vanished(row), Quiet, caps);
  }

  lemma FinishLoading(l: Durable, key: string, view: Option<BrokerView>, caps: map<string, real>)
    requires Load(l, key).Some?
    ensures
      var row := Load(l, key).value;
      Finish(l, ReconLocked(key, view), Quiet, caps) ==
        if IsTerminal(row.core.state) then l
        else if row.core.state != Reconciling then Finish(l, ReconLoaded(row, view), Quiet, caps)
        else Finish(l, Adopting(row, view), Quiet, caps)
  {
    hide Finish, Load;
    Unroll(l, ReconLocked(key, view), Quiet, caps);
  }

  /** The keys of the orders that are not finished, oldest first. */
  function OpenKeys(orders: seq<OrderRow>): seq<string> {
    if orders == [] then []
    else
      var last := orders[|orders| - 1];
      OpenKeys(orders[..|orders| - 1]) + if Live(last) then [last.core.key] else []
  }

  lemma {:induction false} LiveIsOpen(orders: seq<OrderRow>, i: nat)
    requires i < |orders| && Live(orders[i])
    ensures orders[i].core.key in OpenKeys(orders)
  {
    if i < |orders| - 1 { LiveIsOpen(orders[..|orders| - 1], i); }
  }

  lemma LoadFinds(l: Durable, key: string)
    ensures Load(l, key) == match FindKey(l.tables.orders, key)
                            case None => None
                            case Some(i) => Some(l.tables.orders[i])
  {
  }

  /** What every schedule keeps, an uninterrupted task keeps. */
  lemma {:induction false} FinishGood(l: Durable, task: Task, choice: Choice, caps: map<string, real>)
    requires Good(l) && TaskOk(l, task)
    ensures Good(Finish(l, task, choice, caps)) && Evolves(l, Finish(l, task, choice, caps))
    decreases Rank(task), FillsLeft(task)
  {
    hide Good, Evolves, TaskOk, Act;
    ActGood(l, task, choice, caps);
    ActProgresses(l, task, choice, caps);
    var e := Act(l, task, choice, caps);
    if e.task.Some? {
      FinishGood(e.ledger, e.task.value, choice, caps);
      EvolvesTransitive(l, e.ledger, Finish(l, task, choice, caps));
    }
  }

  lemma EvolvesTransitive(a: Durable, b: Durable, c: Durable)
    requires Evolves(a, b) && Evolves(b, c)
    ensures Evolves(a, c)
  {
    forall id | 0 <= id < |a.tables.orders| ensures SameOrder(a.tables.orders[id], c.tables.orders[id]) {
      assert SameOrder(a.tables.orders[id], b.tables.orders[id]);
    }
  }

  lemma FinishOpening(l: Durable, row: OrderRow, view: Option<BrokerView>, caps: map<string, real>)
    ensures
      var (l1, out) := ApplyEvent(l, row, ReconcileStarted("reconciler"));
      Finish(l, ReconLoaded(row, view), Quiet, caps) ==
        if out.Updated? then Finish(l1, Adopting(out.row, view), Quiet, caps) else l1
  {
    hide Finish, ApplyEvent;
    Unroll(l, ReconLoaded(row, view), Quiet, caps);
  }
}
