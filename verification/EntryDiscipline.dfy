/** What the instrument lock and the entry guards buy together.

    The assumption is the one an idempotency key stands for: a key names one
    decision, so it belongs to one instrument, and the keys of position imports
    are their own.  Everything else is as nondeterministic as before. */
module EntryDiscipline {
  import opened Common
  import opened Lifecycle
  import opened Ledger
  import opened Accounting
  import opened LedgerHistory
  import opened Guards
  import opened Protocol
  import opened ProtocolSafety
  import opened Submissions

  predicate ImportKey(key: string) {
    "RECON-" <= key
  }

  predicate WellKeyed(home: string -> string, move: Move) {
    match move
    case Acquire(_, PlaceLocked(intent)) => home(intent.key) == intent.instrument && !ImportKey(intent.key)
    case ImportBegin(key, instrument, _) => home(key) == instrument && ImportKey(key)
    case _ => true
  }

  // ---------------------------------------------------------------- what a task may rely on

  function IntentOf(task: Task): Option<Intent> {
    match task
    case PlaceLocked(i) => Some(i)
    case PlaceInterrupted(i, _) => Some(i)
    case PlaceFresh(i) => Some(i)
    case PlaceUnheld(i) => Some(i)
    case PlaceSole(i) => Some(i)
    case PlaceMeasured(i, _) => Some(i)
    case PlaceGuarded(i) => Some(i)
    case PlaceRecorded(i, _) => Some(i)
    case PlaceStarted(i, _) => Some(i)
    case PlaceAnswered(i, _, _) => Some(i)
    case _ => None
  }

  function KeyOf(task: Task): Option<string> {
    match task
    case CancelLocked(key) => Some(key)
    case FillLocked(key, _) => Some(key)
    case ConfirmLocked(key) => Some(key)
    case ReconLocked(key, _) => Some(key)
    case _ => None
  }

  /** Works on `instrument` and nowhere else. */
  predicate AtHome(home: string -> string, l: Durable, instrument: string, task: Task) {
    && (IntentOf(task).Some? ==>
          var intent := IntentOf(task).value;
          intent.instrument == instrument && home(intent.key) == instrument && !ImportKey(intent.key))
    && (RowOf(task).Some? ==> RowOf(task).value.core.instrument == instrument)
    && (KeyOf(task).Some? ==> OnInstrument(l, KeyOf(task).value, instrument))
    && (task.PlaceRecorded? || task.PlaceStarted? ==> task.row.authority == task.intent.authority)
    && (task.PlaceMeasured? ==> task.intent.authority == ProtectiveExit)
  }

  predicate BeforeCreate(task: Task) {
    task.PlaceFresh? || task.PlaceUnheld? || task.PlaceSole? || task.PlaceMeasured? || task.PlaceGuarded?
  }

  /** An entry that has passed the first guard and not yet been submitted. */
  predicate EntryUnderway(task: Task) {
    && (task.PlaceUnheld? || task.PlaceSole? || task.PlaceGuarded? || task.PlaceRecorded? || task.PlaceStarted?)
    && task.intent.authority == Entry
  }

  /** An entry that has passed the second guard and has no order yet. */
  predicate EntryCleared(task: Task) {
    (task.PlaceSole? || task.PlaceGuarded?) && task.intent.authority == Entry
  }

  /** Every engine-placed entry on the instrument has been terminal at some time. */
  ghost predicate EntriesOver(l: Durable, imported: set<nat>, instrument: string) {
    forall id | 0 <= id < |l.tables.orders| && EntryOn(l.tables.orders[id], instrument) && id !in imported ::
      EverTerminal(l.events, id)
  }

  ghost predicate Disciplined(home: string -> string, l: Durable, imported: set<nat>, instrument: string, task: Task) {
    && AtHome(home, l, instrument, task)
    && (BeforeCreate(task) ==> FindKey(l.tables.orders, task.intent.key).None?)
    && (EntryUnderway(task) ==> !HasUnresolved(l.tables.orders, instrument))
    && (EntryCleared(task) ==> EntriesOver(l, imported, instrument))
  }

  /** Keys are where they belong, and imported orders are exactly those with import keys. */
  ghost predicate KeysAtHome(home: string -> string, l: Durable, imported: set<nat>) {
    forall id | 0 <= id < |l.tables.orders| ::
      && home(l.tables.orders[id].core.key) == l.tables.orders[id].core.instrument
      && (id in imported <==> ImportKey(l.tables.orders[id].core.key))
  }

  // ---------------------------------------------------------------- ledger moves elsewhere

  /** Seen from `instrument`, the ledger gained at most imported orders, and no
      order there became unresolved. */
  ghost predicate QuietOn(home: string -> string, l: Durable, l': Durable, imported: set<nat>, instrument: string) {
    && Evolves(l, l')
    && (forall id | 0 <= id < |l'.tables.orders| && UnresolvedOn(l'.tables.orders[id], instrument) ::
          id < |l.tables.orders| && UnresolvedOn(l.tables.orders[id], instrument))
    && (forall id | |l.tables.orders| <= id < |l'.tables.orders| ::
          home(l'.tables.orders[id].core.key) == l'.tables.orders[id].core.instrument)
    && (forall id | |l.tables.orders| <= id < |l'.tables.orders|
                    && l'.tables.orders[id].core.instrument == instrument ::
          id in imported && ImportKey(l'.tables.orders[id].core.key))
  }

  lemma OnInstrumentStays(l: Durable, l': Durable, key: string, instrument: string)
    requires Good(l) && Good(l') && Evolves(l, l') && OnInstrument(l, key, instrument)
    ensures OnInstrument(l', key, instrument)
  {
    var id := FindKey(l.tables.orders, key).value;
    assert l'.tables.orders[id].core.key == key;
    FindKeyUnique(l'.tables.orders, id);
  }

  lemma EntriesOverStays(home: string -> string, l: Durable, l': Durable, imported: set<nat>, imported': set<nat>,
                         i: string)
    requires QuietOn(home, l, l', imported', i) && EntriesOver(l, imported, i) && imported <= imported'
    ensures EntriesOver(l', imported', i)
  {
    forall id | 0 <= id < |l'.tables.orders| && EntryOn(l'.tables.orders[id], i) && id !in imported'
      ensures EverTerminal(l'.events, id)
    {
      assert id < |l.tables.orders|;
      assert SameOrder(l.tables.orders[id], l'.tables.orders[id]);
      MarksStay(l.events, l'.events[|l.events|..], id);
      assert l'.events == l.events + l'.events[|l.events|..];
    }
  }

  lemma KeyStaysUnknown(home: string -> string, l: Durable, l': Durable, imported': set<nat>, i: string, key: string)
    requires QuietOn(home, l, l', imported', i) && FindKey(l.tables.orders, key).None?
    requires home(key) == i && !ImportKey(key)
    ensures FindKey(l'.tables.orders, key).None?
  {
    forall id | 0 <= id < |l'.tables.orders| ensures l'.tables.orders[id].core.key != key {
      if id < |l.tables.orders| {
        assert SameOrder(l.tables.orders[id], l'.tables.orders[id]);
      }
    }
  }

  lemma DisciplineStays(home: string -> string, l: Durable, l': Durable, imported: set<nat>, imported': set<nat>,
                        i: string, task: Task)
    requires Good(l) && Good(l') && imported <= imported' && QuietOn(home, l, l', imported', i)
    requires Disciplined(home, l, imported, i, task)
    ensures Disciplined(home, l', imported', i, task)
  {
    if KeyOf(task).Some? { OnInstrumentStays(l, l', KeyOf(task).value, i); }
    if BeforeCreate(task) { KeyStaysUnknown(home, l, l', imported', i, task.intent.key); }
    if EntryCleared(task) { EntriesOverStays(home, l, l', imported, imported', i); }
  }

  // ---------------------------------------------------------------- what one action touches

  /** Orders on other instruments are as they were, and a new order is on this one. */
  ghost predicate OnlyTouches(home: string -> string, l: Durable, l': Durable, instrument: string) {
    && Evolves(l, l')
    && (forall id | 0 <= id < |l.tables.orders| && l.tables.orders[id].core.instrument != instrument ::
          l'.tables.orders[id] == l.tables.orders[id])
    && (forall id | |l.tables.orders| <= id < |l'.tables.orders| ::
          && l'.tables.orders[id].core.instrument == instrument
          && home(l'.tables.orders[id].core.key) == instrument && !ImportKey(l'.tables.orders[id].core.key))
  }

  lemma TouchingIsQuietElsewhere(home: string -> string, l: Durable, l': Durable, imported: set<nat>, i: string,
                                 j: string)
    requires OnlyTouches(home, l, l', i) && i != j
    ensures QuietOn(home, l, l', imported, j)
  {
    forall id | 0 <= id < |l.tables.orders| && l'.tables.orders[id].core.instrument == j
      ensures l'.tables.orders[id] == l.tables.orders[id]
    {
      assert SameOrder(l.tables.orders[id], l'.tables.orders[id]);
    }
  }

  lemma ApplyTouches(home: string -> string, l: Durable, row: OrderRow, event: Event)
    requires Good(l) && Loaded(l, row) && (Sound(row.core) ==> FillNeutral(row, event))
    ensures OnlyTouches(home, l, ApplyEvent(l, row, event).0, row.core.instrument)
    ensures |ApplyEvent(l, row, event).0.tables.orders| == |l.tables.orders|
  {
    ApplyKeepsGood(l, row, event);
    if ApplyEvent(l, row, event).1.Updated? { ApplyShape(l, row, event); }
  }

  lemma CreateTouches(home: string -> string, l: Durable, intent: Intent)
    requires Good(l) && FindKey(l.tables.orders, intent.key).None?
    requires home(intent.key) == intent.instrument && !ImportKey(intent.key)
    ensures OnlyTouches(home, l, CreateOrder(l, intent).0, intent.instrument)
  {
    CreateEvolves(l, intent);
  }

  lemma LoadOnInstrument(l: Durable, key: string, i: string)
    requires OnInstrument(l, key, i)
    ensures Load(l, key).Some? && Load(l, key).value.core.instrument == i
  {
  }

  ghost predicate GoodStep(home: string -> string, l: Durable, imported: set<nat>, i: string, e: Effect) {
    && OnlyTouches(home, l, e.ledger, i)
    && (e.task.Some? ==> Disciplined(home, e.ledger, imported, i, e.task.value))
  }

  /** A task that carries only a row of this instrument relies on nothing else. */
  predicate OnlyRow(task: Task) {
    RowOf(task).Some? && IntentOf(task).None?
  }

  lemma TouchesNothing(home: string -> string, l: Durable, i: string)
    ensures OnlyTouches(home, l, l, i)
  {
  }

  lemma ApplyKeepsRow(l: Durable, row: OrderRow, event: Event)
    ensures ApplyEvent(l, row, event).1.Updated? ==>
              var r := ApplyEvent(l, row, event).1.row;
              r.core.instrument == row.core.instrument && r.authority == row.authority
  {
    if Transition(row.core, event).Ok? { TransitionKeepsIdentity(row.core, event); }
  }

  lemma ApplyThenStep(home: string -> string, l: Durable, imported: set<nat>, i: string,
                      row: OrderRow, event: Event, goOn: OrderRow -> Task)
    requires Good(l) && Loaded(l, row) && !event.ReconcileResolved? && row.core.instrument == i
    requires forall r :: OnlyRow(goOn(r)) && RowOf(goOn(r)) == Some(r)
    ensures GoodStep(home, l, imported, i, ApplyThen(l, row, event, goOn))
  {
    hide Good, Loaded, ApplyEvent, OnlyTouches;
    ApplyTouches(home, l, row, event);
    ApplyKeepsRow(l, row, event);
  }

  lemma ApplyLastStep(home: string -> string, l: Durable, imported: set<nat>, i: string, row: OrderRow, event: Event)
    requires Good(l) && Loaded(l, row) && row.core.instrument == i && (Sound(row.core) ==> FillNeutral(row, event))
    ensures GoodStep(home, l, imported, i, ApplyLast(l, row, event))
  {
    hide Good, Loaded, ApplyEvent, OnlyTouches;
    ApplyTouches(home, l, row, event);
  }

  lemma EvidenceStep(home: string -> string, l: Durable, imported: set<nat>, i: string,
                     row: OrderRow, event: Event, cause: string)
    requires Good(l) && Loaded(l, row) && !event.ReconcileResolved? && row.core.instrument == i
    ensures GoodStep(home, l, imported, i, Evidence(l, row, event, cause))
  {
    hide Good, Loaded, ApplyEvent, OnlyTouches;
    ApplyTouches(home, l, row, event);
  }

  lemma BackfillStep(home: string -> string, l: Durable, imported: set<nat>, i: string,
                     task: Task, choice: Choice, caps: map<string, real>)
    requires Good(l) && TaskOk(l, task) && task.Backfilling? && task.row.core.instrument == i
    ensures GoodStep(home, l, imported, i, Act(l, task, choice, caps))
  {
    hide Good, Loaded, ApplyEvent, OnlyTouches;
    var row, view := task.row, task.found;
    TouchesNothing(home, l, i);
    if task.next >= |view.fills| {
      if row.core.filled <= view.filledQty && row.core.filled >= Min(view.filledQty, row.core.qty) {
        var event := ReconcileResolved(StateMap(view.state), Some(view.brokerId), view.filledQty);
        assert Sound(row.core) ==> FillNeutral(row, event);
        ApplyLastStep(home, l, imported, i, row, event);
      }
    } else {
      var fill := view.fills[task.next];
      var event := FillReceived(fill.execId, fill.qty, fill.price);
      ApplyTouches(home, l, row, event);
      ApplyKeepsRow(l, row, event);
    }
  }

  lemma LoadStep(home: string -> string, l: Durable, imported: set<nat>, i: string,
                 task: Task, choice: Choice, caps: map<string, real>)
    requires Disciplined(home, l, imported, i, task) && KeyOf(task).Some?
    ensures GoodStep(home, l, imported, i, Act(l, task, choice, caps))
  {
    TouchesNothing(home, l, i);
    LoadOnInstrument(l, KeyOf(task).value, i);
    ActLoads(l, task, choice, caps);
    hide OnlyTouches, Load, Act;
  }

  lemma ActLoads(l: Durable, task: Task, choice: Choice, caps: map<string, real>)
    requires KeyOf(task).Some?
    ensures
      var e := Act(l, task, choice, caps);
      e.ledger == l && (e.task.Some? ==> OnlyRow(e.task.value) && KeyOf(e.task.value).None?
                                         && RowOf(e.task.value) == Load(l, KeyOf(task).value))
  {
  }

  lemma ReconStep(home: string -> string, l: Durable, imported: set<nat>, i: string,
                  task: Task, choice: Choice, caps: map<string, real>)
    requires Good(l) && TaskOk(l, task) && task.ReconLoaded? && task.row.core.instrument == i
    ensures GoodStep(home, l, imported, i, Act(l, task, choice, caps))
  {
    hide Good, Loaded, ApplyEvent, ApplyThen, GoodStep;
    var view := task.view;
    ApplyThenStep(home, l, imported, i, task.row, ReconcileStarted("reconciler"), r => Adopting(r, view));
  }

  lemma OtherTaskStep(home: string -> string, l: Durable, imported: set<nat>, i: string,
                      task: Task, choice: Choice, caps: map<string, real>)
    requires Good(l) && TaskOk(l, task) && Disciplined(home, l, imported, i, task)
    requires IntentOf(task).None? && KeyOf(task).None?
    ensures GoodStep(home, l, imported, i, Act(l, task, choice, caps))
  {
    hide Good, Loaded, ApplyEvent, OnlyTouches, ApplyThen, ApplyLast, Evidence, Conclude;
    match task {
      case CancelLoaded(row) => ApplyThenStep(home, l, imported, i, row, CancelRequested, r => CancelSent(r));
      case CancelSent(_) => TouchesNothing(home, l, i);
      case CancelLost(row) => ApplyLastStep(home, l, imported, i, row, ReconcileStarted("cancel timeout"));
      case FillLoaded(row, f) =>
        EvidenceStep(home, l, imported, i, row, FillReceived(f.execId, f.qty, f.price), "late fill " + f.execId);
      case ConfirmLoaded(row) => EvidenceStep(home, l, imported, i, row, CancelConfirmed, "late cancel-confirm");
      case LateEvidence(row, cause) => ApplyLastStep(home, l, imported, i, row, ReconcileStarted(cause));
      case ReconLoaded(_, _) => ReconStep(home, l, imported, i, task, choice, caps);
      case Vanished(row) =>
        ApplyLastStep(home, l, imported, i, row, ReconcileResolved(Canceled, row.core.brokerId, row.core.filled));
      case Backfilling(_, _, _) => BackfillStep(home, l, imported, i, task, choice, caps);
    }
  }

  // ---------------------------------------------------------------- placing

  /** The second guard: no live entry means every entry here is over. */
  lemma NoOpenEntryMeansOver(l: Durable, imported: set<nat>, i: string)
    requires Good(l) && !HasOpenEntry(l.tables.orders, i)
    ensures EntriesOver(l, imported, i)
  {
    forall id | 0 <= id < |l.tables.orders| && EntryOn(l.tables.orders[id], i) ensures EverTerminal(l.events, id) {
      assert RecordedRow(l.events, id, l.tables.orders[id].core);
    }
  }

  lemma CreateResolvesNothing(l: Durable, intent: Intent, i: string)
    requires SoundRows(l.tables.orders) && !HasUnresolved(l.tables.orders, i)
    ensures !HasUnresolved(CreateOrder(l, intent).0.tables.orders, i)
  {
    if FindKey(l.tables.orders, intent.key).None? {
      var orders' := CreateOrder(l, intent).0.tables.orders;
      forall k | 0 <= k < |orders'| ensures !UnresolvedOn(orders'[k], i) {
        if k < |l.tables.orders| { assert orders'[k] == l.tables.orders[k]; }
      }
    }
  }

  lemma StartResolvesNothing(l: Durable, row: OrderRow, i: string)
    requires Good(l) && Loaded(l, row) && !HasUnresolved(l.tables.orders, i)
    ensures !HasUnresolved(ApplyEvent(l, row, SubmissionStarted).0.tables.orders, i)
  {
    ApplyKeepsGood(l, row, SubmissionStarted);
    if ApplyEvent(l, row, SubmissionStarted).1.Updated? {
      ApplyShape(l, row, SubmissionStarted);
      var orders' := ApplyEvent(l, row, SubmissionStarted).0.tables.orders;
      forall k | 0 <= k < |orders'| ensures !UnresolvedOn(orders'[k], i) {
        if k != row.core.orderId { assert orders'[k] == l.tables.orders[k]; }
      }
    }
  }

  lemma ActCreates(l: Durable, task: Task, choice: Choice, caps: map<string, real>)
    requires task.PlaceGuarded?
    ensures
      var (l', row) := CreateOrder(l, task.intent);
      Act(l, task, choice, caps) == Continue(l', PlaceRecorded(task.intent, row))
  {
    hide CreateOrder;
  }

  lemma PlaceCreateStep(home: string -> string, l: Durable, imported: set<nat>, i: string,
                        task: Task, choice: Choice, caps: map<string, real>)
    requires Good(l) && TaskOk(l, task) && Disciplined(home, l, imported, i, task) && task.PlaceGuarded?
    ensures GoodStep(home, l, imported, i, Act(l, task, choice, caps))
  {
    assert SoundRows(l.tables.orders);
    hide Act, OnlyTouches, Evolves, Good, HasUnresolved, FindKey, CreateOrder, SoundRows, EntriesOver, OnInstrument;
    ActCreates(l, task, choice, caps);
    CreateTouches(home, l, task.intent);
    CreateEvolves(l, task.intent);
    if EntryUnderway(task) { CreateResolvesNothing(l, task.intent, i); }
  }

  lemma ActStarts(l: Durable, task: Task, choice: Choice, caps: map<string, real>)
    requires task.PlaceRecorded?
    ensures Act(l, task, choice, caps) == ApplyThen(l, task.row, SubmissionStarted, r => PlaceStarted(task.intent, r))
  {
    hide ApplyEvent;
  }

  lemma PlaceStartStep(home: string -> string, l: Durable, imported: set<nat>, i: string,
                       task: Task, choice: Choice, caps: map<string, real>)
    requires Good(l) && TaskOk(l, task) && Disciplined(home, l, imported, i, task) && task.PlaceRecorded?
    ensures GoodStep(home, l, imported, i, Act(l, task, choice, caps))
  {
    hide Act, OnlyTouches, Evolves, Good, HasUnresolved, ApplyEvent, Loaded, EntriesOver, OnInstrument, FindKey;
    ActStarts(l, task, choice, caps);
    if EntryUnderway(task) { StartResolvesNothing(l, task.row, i); }
    ApplyTouches(home, l, task.row, SubmissionStarted);
    ApplyKeepsRow(l, task.row, SubmissionStarted);
  }

  lemma ActLocks(l: Durable, task: Task, choice: Choice, caps: map<string, real>)
    requires task.PlaceLocked?
    ensures
      var e, found := Act(l, task, choice, caps), FindKey(l.tables.orders, task.intent.key);
      && e.ledger == l
      && (e.task.Some? ==>
            if found.None? then e.task.value == PlaceFresh(task.intent)
            else e.task.value == PlaceInterrupted(task.intent, l.tables.orders[found.value]))
  {
  }

  lemma FoundAtHome(home: string -> string, l: Durable, imported: set<nat>, key: string)
    requires KeysAtHome(home, l, imported) && FindKey(l.tables.orders, key).Some?
    ensures l.tables.orders[FindKey(l.tables.orders, key).value].core.instrument == home(key)
  {
  }

  lemma PlaceLockedStep(home: string -> string, l: Durable, imported: set<nat>, i: string,
                        task: Task, choice: Choice, caps: map<string, real>)
    requires Good(l) && Disciplined(home, l, imported, i, task) && KeysAtHome(home, l, imported) && task.PlaceLocked?
    ensures GoodStep(home, l, imported, i, Act(l, task, choice, caps))
  {
    hide Good, OnlyTouches, HasUnresolved, HasOpenEntry, EntriesOver, KeysAtHome, Act, FindKey, OnInstrument;
    TouchesNothing(home, l, i);
    ActLocks(l, task, choice, caps);
    if FindKey(l.tables.orders, task.intent.key).Some? { FoundAtHome(home, l, imported, task.intent.key); }
  }

  lemma ActReads(l: Durable, task: Task, choice: Choice, caps: map<string, real>)
    requires task.PlaceFresh? || task.PlaceUnheld? || task.PlaceSole? || task.PlaceMeasured? || task.PlaceStarted?
    requires task.PlaceMeasured? ==> task.intent.authority == ProtectiveExit
    ensures
      var e := Act(l, task, choice, caps);
      && e.ledger == l
      && (e.task.Some? ==>
            var next := e.task.value;
            && RowOf(next) == RowOf(task)
            && IntentOf(next).Some? && IntentOf(next).value == task.intent.(qty := IntentOf(next).value.qty)
            && (task.PlaceStarted? <==> next.PlaceAnswered?)
            && (task.PlaceStarted? || BeforeCreate(next))
            && (next.PlaceMeasured? ==> task.intent.authority == ProtectiveExit)
            && (EntryUnderway(next) ==> EntryUnderway(task) || !HasUnresolved(l.tables.orders, task.intent.instrument))
            && (EntryCleared(next) ==> EntryCleared(task) || !HasOpenEntry(l.tables.orders, task.intent.instrument)))
  {
    hide OpenExitRemaining, EntryQty, ExitQty;
  }

  /** The steps of a placement that only read. */
  lemma PlaceReadStep(home: string -> string, l: Durable, imported: set<nat>, i: string,
                      task: Task, choice: Choice, caps: map<string, real>)
    requires Good(l) && Disciplined(home, l, imported, i, task)
    requires task.PlaceFresh? || task.PlaceUnheld? || task.PlaceSole? || task.PlaceMeasured? || task.PlaceStarted?
    ensures GoodStep(home, l, imported, i, Act(l, task, choice, caps))
  {
    hide Good, OnlyTouches, HasUnresolved, HasOpenEntry, EntriesOver, Act, FindKey, OnInstrument;
    TouchesNothing(home, l, i);
    ActReads(l, task, choice, caps);
    if !HasOpenEntry(l.tables.orders, i) { NoOpenEntryMeansOver(l, imported, i); }
  }

  lemma ActStep(home: string -> string, l: Durable, imported: set<nat>, i: string,
                task: Task, choice: Choice, caps: map<string, real>)
    requires Good(l) && TaskOk(l, task) && Disciplined(home, l, imported, i, task) && KeysAtHome(home, l, imported)
    ensures GoodStep(home, l, imported, i, Act(l, task, choice, caps))
  {
    hide Good, Loaded, GoodStep, Act, KeysAtHome, HasUnresolved, EntriesOver;
    match task {
      case PlaceInterrupted(_, row) =>
        ApplyLastStep(home, l, imported, i, row, ReconcileStarted("replayed mid-submission"));
        ActIsApplyLast(l, task, choice, caps);
      case PlaceAnswered(_, row, answer) =>
        ApplyLastStep(home, l, imported, i, row, answer);
        ActIsApplyLast(l, task, choice, caps);
      case PlaceLocked(_) => PlaceLockedStep(home, l, imported, i, task, choice, caps);
      case PlaceGuarded(_) => PlaceCreateStep(home, l, imported, i, task, choice, caps);
      case PlaceRecorded(_, _) => PlaceStartStep(home, l, imported, i, task, choice, caps);
      case _ =>
        if IntentOf(task).Some? {
          PlaceReadStep(home, l, imported, i, task, choice, caps);
        } else if KeyOf(task).Some? {
          LoadStep(home, l, imported, i, task, choice, caps);
        } else {
          OtherTaskStep(home, l, imported, i, task, choice, caps);
        }
    }
  }

  lemma ActIsApplyLast(l: Durable, task: Task, choice: Choice, caps: map<string, real>)
    ensures task.PlaceInterrupted? ==>
              Act(l, task, choice, caps) == ApplyLast(l, task.row, ReconcileStarted("replayed mid-submission"))
    ensures task.PlaceAnswered? ==> Act(l, task, choice, caps) == ApplyLast(l, task.row, task.answer)
  {
  }

  // ---------------------------------------------------------------- one entry at a time

  ghost predicate Rivals(l: Durable, imported: set<nat>, a: nat, b: nat) {
    && a < b < |l.tables.orders| && a !in imported && b !in imported
    && l.tables.orders[a].authority == Entry && EntryOn(l.tables.orders[b], l.tables.orders[a].core.instrument)
  }

  /** Of two engine-placed entries on an instrument, one has been terminal. */
  ghost predicate OneEntry(l: Durable, imported: set<nat>) {
    forall a: nat, b: nat | Rivals(l, imported, a, b) :: EverTerminal(l.events, a) || EverTerminal(l.events, b)
  }

  lemma OverStays(l: Durable, l': Durable, id: nat)
    requires Evolves(l, l') && EverTerminal(l.events, id)
    ensures EverTerminal(l'.events, id)
  {
    MarksStay(l.events, l'.events[|l.events|..], id);
    assert l'.events == l.events + l'.events[|l.events|..];
  }

  lemma OneEntryStays(l: Durable, l': Durable, imported: set<nat>, imported': set<nat>)
    requires Evolves(l, l') && OneEntry(l, imported) && imported <= imported'
    requires forall id | |l.tables.orders| <= id < |l'.tables.orders| ::
        id in imported' || l'.tables.orders[id].authority != Entry
    ensures OneEntry(l', imported')
  {
    hide EverTerminal;
    forall a: nat, b: nat | Rivals(l', imported', a, b)
      ensures EverTerminal(l'.events, a) || EverTerminal(l'.events, b)
    {
      assert SameOrder(l.tables.orders[a], l'.tables.orders[a]) && SameOrder(l.tables.orders[b], l'.tables.orders[b]);
      assert Rivals(l, imported, a, b);
      if EverTerminal(l.events, a) { OverStays(l, l', a); } else { OverStays(l, l', b); }
    }
  }

  /** A new entry has no live rival: every earlier one is over. */
  lemma OneEntryGains(l: Durable, l': Durable, imported: set<nat>, i: string)
    requires Evolves(l, l') && OneEntry(l, imported) && EntriesOver(l, imported, i)
    requires |l'.tables.orders| == |l.tables.orders| + 1 && l'.tables.orders[|l.tables.orders|].core.instrument == i
    ensures OneEntry(l', imported)
  {
    hide EverTerminal;
    forall a: nat, b: nat | Rivals(l', imported, a, b)
      ensures EverTerminal(l'.events, a) || EverTerminal(l'.events, b)
    {
      assert SameOrder(l.tables.orders[a], l'.tables.orders[a]);
      if b < |l.tables.orders| {
        assert SameOrder(l.tables.orders[b], l'.tables.orders[b]);
        assert Rivals(l, imported, a, b);
        if EverTerminal(l.events, a) { OverStays(l, l', a); } else { OverStays(l, l', b); }
      } else {
        OverStays(l, l', a);
      }
    }
  }

  lemma OnlyGuardedCreates(l: Durable, task: Task, choice: Choice, caps: map<string, real>)
    ensures !task.PlaceGuarded? ==> |Act(l, task, choice, caps).ledger.tables.orders| == |l.tables.orders|
  {
    forall row: OrderRow, event: Event
      ensures |ApplyEvent(l, row, event).0.tables.orders| == |l.tables.orders|
    {
    }
    hide ApplyEvent, Load, EntryQty, ExitQty, OpenExitRemaining, HasUnresolved, HasOpenEntry, PositionOf;
  }

  lemma ActKeepsOneEntry(home: string -> string, l: Durable, imported: set<nat>, i: string,
                         task: Task, choice: Choice, caps: map<string, real>)
    requires Good(l) && Disciplined(home, l, imported, i, task) && OneEntry(l, imported)
    requires Evolves(l, Act(l, task, choice, caps).ledger)
    ensures OneEntry(Act(l, task, choice, caps).ledger, imported)
  {
    var l' := Act(l, task, choice, caps).ledger;
    OnlyGuardedCreates(l, task, choice, caps);
    if task.PlaceGuarded? {
      CreateEvolves(l, task.intent);
      if task.intent.authority == Entry {
        OneEntryGains(l, l', imported, i);
      } else {
        OneEntryStays(l, l', imported, imported);
      }
    } else {
      OneEntryStays(l, l', imported, imported);
    }
  }

  // ---------------------------------------------------------------- the whole system

  /** No entry was ever submitted while its instrument held an unresolved order. */
  ghost predicate SubmittedFree(submissions: seq<Submission>) {
    forall k | 0 <= k < |submissions| && submissions[k].row.authority == Entry ::
      !HasUnresolved(submissions[k].at.tables.orders, submissions[k].row.core.instrument)
  }

  ghost predicate ImportsOk(s: System) {
    forall id | id in s.imports ::
      id in s.imported && s.imports[id].core.orderId == id && s.imports[id].core.state in {Created, Submitting}
  }

  ghost predicate Orderly(home: string -> string, s: System) {
    && KeysAtHome(home, s.ledger, s.imported)
    && (forall i | i in s.held :: Disciplined(home, s.ledger, s.imported, i, s.held[i]))
    && OneEntry(s.ledger, s.imported)
    && ImportsOk(s)
    && SubmittedFree(s.submissions)
    && (forall id <- s.imported :: id < |s.ledger.tables.orders|)
  }

  lemma KeysStayHome(home: string -> string, l: Durable, l': Durable, imported: set<nat>, i: string)
    requires KeysAtHome(home, l, imported) && OnlyTouches(home, l, l', i)
    requires forall id <- imported :: id < |l.tables.orders|
    ensures KeysAtHome(home, l', imported)
  {
    forall id | 0 <= id < |l.tables.orders| ensures SameOrder(l.tables.orders[id], l'.tables.orders[id]) {
    }
  }

  lemma AdvanceShape(s: System, i: string, choice: Choice)
    requires i in s.held
    ensures
      var e := Act(s.ledger, s.held[i], choice, s.caps);
      Next(s, Advance(i, choice)) ==
        s.(ledger := e.ledger,
           held := if e.task.None? then s.held - {i} else s.held[i := e.task.value],
           submissions := if e.submitted.None? then s.submissions else s.submissions + [e.submitted.value])
  {
    hide Act;
  }

  lemma AdvanceDisciplined(home: string -> string, s: System, i: string, e: Effect)
    requires Sane(s) && Orderly(home, s) && i in s.held
    requires GoodEffect(s.ledger, e) && GoodStep(home, s.ledger, s.imported, i, e)
    ensures
      var held := if e.task.None? then s.held - {i} else s.held[i := e.task.value];
      forall j | j in held :: Disciplined(home, e.ledger, s.imported, j, held[j])
  {
    hide OneEntry, KeysAtHome, Good, TaskOk, OnlyTouches, Disciplined, Evolves;
    forall j | j in s.held && j != i ensures Disciplined(home, e.ledger, s.imported, j, s.held[j]) {
      TouchingIsQuietElsewhere(home, s.ledger, e.ledger, s.imported, i, j);
      DisciplineStays(home, s.ledger, e.ledger, s.imported, s.imported, j, s.held[j]);
    }
  }

  lemma SubmissionsStayFree(home: string -> string, s: System, i: string, choice: Choice)
    requires Sane(s) && Orderly(home, s) && i in s.held
    ensures SubmittedFree(Next(s, Advance(i, choice)).submissions)
  {
    var task := s.held[i];
    assert TaskOk(s.ledger, task) && Disciplined(home, s.ledger, s.imported, i, task);
    SubmittingEffects(s.ledger, task, choice, s.caps);
    AdvanceShape(s, i, choice);
    hide Act, Good, HasUnresolved, KeysAtHome, OneEntry, Sane, Next, TaskOk;
  }

  lemma AdvanceOrderly(home: string -> string, s: System, i: string, choice: Choice)
    requires Sane(s) && Orderly(home, s) && i in s.held
    ensures Orderly(home, Next(s, Advance(i, choice)))
  {
    var l, task := s.ledger, s.held[i];
    var e := Act(l, task, choice, s.caps);
    assert TaskOk(l, task) && Disciplined(home, l, s.imported, i, task);
    hide Act, OneEntry, KeysAtHome, Good, TaskOk, HasUnresolved, OnlyTouches, Disciplined, SubmittedFree, Evolves, Next;
    AdvanceShape(s, i, choice);
    SubmissionsStayFree(home, s, i, choice);
    ActGood(l, task, choice, s.caps);
    ActStep(home, l, s.imported, i, task, choice, s.caps);
    ActKeepsOneEntry(home, l, s.imported, i, task, choice, s.caps);
    KeysStayHome(home, l, e.ledger, s.imported, i);
    AdvanceDisciplined(home, s, i, e);
    EvolvesGrows(l, e.ledger);
  }

  lemma EvolvesGrows(l: Durable, l': Durable)
    requires Evolves(l, l')
    ensures |l.tables.orders| <= |l'.tables.orders|
  {
  }

  lemma AcquireOrderly(home: string -> string, s: System, i: string, task: Task)
    requires Orderly(home, s) && WellKeyed(home, Acquire(i, task))
    ensures Orderly(home, Next(s, Acquire(i, task)))
  {
    hide OneEntry, KeysAtHome, HasUnresolved, EntriesOver;
  }

  // ---------------------------------------------------------------- imports take no lock

  /** Nothing an import does resolves, unresolves or competes. */
  lemma ImportIsQuiet(home: string -> string, s: System, l': Durable, imported': set<nat>)
    requires Sane(s) && Orderly(home, s) && Good(l') && s.imported <= imported'
    requires forall j | j in s.held :: QuietOn(home, s.ledger, l', imported', j)
    ensures forall j | j in s.held :: Disciplined(home, l', imported', j, s.held[j])
  {
    hide Good, QuietOn, Disciplined, KeysAtHome, OneEntry;
    forall j | j in s.held ensures Disciplined(home, l', imported', j, s.held[j]) {
      DisciplineStays(home, s.ledger, l', s.imported, imported', j, s.held[j]);
    }
  }

  lemma ImportCreateQuiet(home: string -> string, l: Durable, intent: Intent, imported: set<nat>, j: string)
    requires Good(l) && FindKey(l.tables.orders, intent.key).None?
    requires home(intent.key) == intent.instrument && ImportKey(intent.key)
    ensures QuietOn(home, l, CreateOrder(l, intent).0, imported + {|l.tables.orders|}, j)
  {
    CreateEvolves(l, intent);
    var l' := CreateOrder(l, intent).0;
    forall k | 0 <= k < |l.tables.orders| ensures l'.tables.orders[k] == l.tables.orders[k] {
    }
  }

  lemma NewKeyAtHome(home: string -> string, l: Durable, l': Durable, row: OrderRow, imported: set<nat>)
    requires KeysAtHome(home, l, imported) && l'.tables.orders == l.tables.orders + [row]
    requires home(row.core.key) == row.core.instrument && ImportKey(row.core.key)
    ensures KeysAtHome(home, l', imported + {|l.tables.orders|})
  {
    hide ImportKey;
    forall id | 0 <= id < |l'.tables.orders|
      ensures home(l'.tables.orders[id].core.key) == l'.tables.orders[id].core.instrument
      ensures id in imported + {|l.tables.orders|} <==> ImportKey(l'.tables.orders[id].core.key)
    {
      if id < |l.tables.orders| { assert l'.tables.orders[id] == l.tables.orders[id]; }
    }
  }

  lemma ImportCreateAtHome(home: string -> string, l: Durable, intent: Intent, imported: set<nat>)
    requires Good(l) && FindKey(l.tables.orders, intent.key).None? && KeysAtHome(home, l, imported)
    requires home(intent.key) == intent.instrument && ImportKey(intent.key)
    ensures KeysAtHome(home, CreateOrder(l, intent).0, imported + {|l.tables.orders|})
    ensures OneEntry(l, imported) ==> OneEntry(CreateOrder(l, intent).0, imported + {|l.tables.orders|})
  {
    assert SoundRows(l.tables.orders);
    hide Good, CreateOrder, FindKey, SoundRows, OneEntry, KeysAtHome, ImportKey;
    CreateEvolves(l, intent);
    var (l', row) := CreateOrder(l, intent);
    NewKeyAtHome(home, l, l', row, imported);
    if OneEntry(l, imported) { OneEntryStays(l, l', imported, imported + {|l.tables.orders|}); }
  }

  lemma ImportBeginShape(s: System, key: string, i: string, delta: real)
    requires SoundRows(s.ledger.tables.orders)
    requires delta != 0.0 && key != "" && FindKey(s.ledger.tables.orders, key).None?
    ensures
      var l, intent := s.ledger, ImportIntent(key, i, delta);
      var row := CreatedRow(|l.tables.orders|, intent, l.nextSeq);
      && Next(s, ImportBegin(key, i, delta)) ==
           s.(ledger := CreateOrder(l, intent).0,
              imports := s.imports[|l.tables.orders| := row],
              imported := s.imported + {|l.tables.orders|})
      && CreateOrder(l, intent).0.tables.orders == l.tables.orders + [row]
  {
  }

  lemma ImportIntentIs(key: string, i: string, delta: real)
    requires delta != 0.0 && key != ""
    ensures ImportIntent(key, i, delta).key == key && ImportIntent(key, i, delta).instrument == i
    ensures ImportIntent(key, i, delta).authority == Entry
  {
  }

  lemma ImportsOkWith(imports: map<nat, OrderRow>, imported: set<nat>, id: nat, row: OrderRow, s: System, s': System)
    requires ImportsOk(s) && s.imports == imports && s.imported == imported
    requires s'.imports == imports[id := row] && s'.imported == imported + {id}
    requires row.core.orderId == id && row.core.state == Created
    ensures ImportsOk(s')
  {
  }

  lemma ImportBeginOrderly(home: string -> string, s: System, key: string, i: string, delta: real)
    requires Sane(s) && Orderly(home, s) && WellKeyed(home, ImportBegin(key, i, delta))
    requires delta != 0.0 && key != "" && FindKey(s.ledger.tables.orders, key).None?
    ensures Orderly(home, Next(s, ImportBegin(key, i, delta)))
  {
    assert Good(s.ledger) && SoundRows(s.ledger.tables.orders);
    hide Good, QuietOn, Evolves, KeysAtHome, OneEntry, Disciplined, CreateOrder, SubmittedFree, TaskOk, Loaded, Current,
         Next, ImportIntent, FindKey, HasUnresolved, SoundRows, ImportKey, ImportsOk, Sane;
    var intent := ImportIntent(key, i, delta);
    var l, l' := s.ledger, CreateOrder(s.ledger, intent).0;
    var id := |l.tables.orders|;
    var s' := Next(s, ImportBegin(key, i, delta));
    CreateKeepsGood(l, intent);
    ImportBeginShape(s, key, i, delta);
    ImportIntentIs(key, i, delta);
    forall j | j in s.held ensures QuietOn(home, l, l', s.imported + {id}, j) {
      ImportCreateQuiet(home, l, intent, s.imported, j);
    }
    ImportIsQuiet(home, s, l', s.imported + {id});
    ImportCreateAtHome(home, l, intent, s.imported);
    ImportsOkWith(s.imports, s.imported, id, CreatedRow(id, intent, l.nextSeq), s, s');
  }

  /** Submitting and filling an import leaves every order as resolved as it was. */
  lemma ImportStepQuiet(home: string -> string, l: Durable, row: OrderRow, price: real, imported: set<nat>, j: string)
    requires Good(l) && Loaded(l, row) && row.core.state in {Created, Submitting}
    ensures QuietOn(home, l, ApplyEvent(l, row, NextImport(row, price)).0, imported, j)
  {
    assert SoundRows(l.tables.orders);
    hide Good, Loaded, ApplyEvent, NextImport, Transition, SoundRows, Evolves;
    var event := NextImport(row, price);
    ImportEvent(row, price);
    ApplyKeepsGood(l, row, event);
    var (l', out) := ApplyEvent(l, row, event);
    if out.Updated? {
      ApplyShape(l, row, event);
      ImportResolves(row, price);
      assert l'.tables.orders == l.tables.orders[row.core.orderId := out.row];
    }
  }

  lemma ImportResolves(row: OrderRow, price: real)
    requires Transition(row.core, NextImport(row, price)).Ok? && row.core.state in {Created, Submitting}
    ensures Transition(row.core, NextImport(row, price)).order.state !in {Unknown, Reconciling}
  {
  }

  lemma ApplyAtHome(home: string -> string, l: Durable, row: OrderRow, event: Event, imported: set<nat>)
    requires Good(l) && Loaded(l, row) && !event.ReconcileResolved?
    requires KeysAtHome(home, l, imported) && OneEntry(l, imported)
    ensures KeysAtHome(home, ApplyEvent(l, row, event).0, imported) && OneEntry(ApplyEvent(l, row, event).0, imported)
  {
    ApplyKeepsGood(l, row, event);
    var l' := ApplyEvent(l, row, event).0;
    OneEntryStays(l, l', imported, imported);
    forall id | 0 <= id < |l'.tables.orders| ensures SameOrder(l.tables.orders[id], l'.tables.orders[id]) {
    }
  }

  lemma ImportRowOk(l: Durable, row: OrderRow, price: real)
    requires ApplyEvent(l, row, NextImport(row, price)).1.Updated? && row.core.state == Created
    ensures
      var r := ApplyEvent(l, row, NextImport(row, price)).1.row;
      r.core.orderId == row.core.orderId && r.core.state == Submitting
  {
  }

  lemma ImportStepOrderly(home: string -> string, s: System, id: nat, price: real)
    requires Sane(s) && Orderly(home, s) && id in s.imports
    ensures Orderly(home, Next(s, ImportStep(id, price)))
  {
    hide Good, QuietOn, Evolves, KeysAtHome, OneEntry, Disciplined, ApplyEvent, Loaded, SubmittedFree, NextImport,
         TaskOk;
    var l, row := s.ledger, s.imports[id];
    var event := NextImport(row, price);
    var (l', out) := ApplyEvent(l, row, event);
    ImportEvent(row, price);
    ApplyKeepsGood(l, row, event);
    if out.Updated? && row.core.state == Created { ImportRowOk(l, row, price); }
    EvolvesGrows(l, l');
    forall j | j in s.held ensures QuietOn(home, l, l', s.imported, j) {
      ImportStepQuiet(home, l, row, price, s.imported, j);
    }
    ImportIsQuiet(home, s, l', s.imported);
    ApplyAtHome(home, l, row, event, s.imported);
  }

  lemma ImportEvent(row: OrderRow, price: real)
    ensures !NextImport(row, price).ReconcileResolved?
  {
  }

  // ---------------------------------------------------------------- every run

  lemma NextOrderly(home: string -> string, s: System, move: Move)
    requires Sane(s) && Orderly(home, s) && WellKeyed(home, move)
    ensures Orderly(home, Next(s, move))
  {
    hide Orderly, Sane, Act, ApplyEvent, CreateOrder, Replay;
    match move {
      case Acquire(i, task) => AcquireOrderly(home, s, i, task);
      case Advance(i, choice) => if i in s.held { AdvanceOrderly(home, s, i, choice); }
      case ImportBegin(key, i, delta) =>
        if delta != 0.0 && key != "" && FindKey(s.ledger.tables.orders, key).None? {
          ImportBeginOrderly(home, s, key, i, delta);
        }
      case ImportStep(id, price) => if id in s.imports { ImportStepOrderly(home, s, id, price); }
      case Crash => CrashOrderly(home, s);
    }
  }

  lemma CrashOrderly(home: string -> string, s: System)
    requires Sane(s) && Orderly(home, s)
    ensures Orderly(home, Next(s, Crash))
  {
    CrashIsNeutral(s);
    hide Sane, KeysAtHome, OneEntry, Next, SubmittedFree, Disciplined;
  }

  lemma {:induction false} RunsAreOrderly(home: string -> string, caps: map<string, real>, moves: seq<Move>)
    requires forall k | 0 <= k < |moves| :: WellKeyed(home, moves[k])
    ensures Orderly(home, Execute(caps, moves))
  {
    if moves != [] {
      RunsAreOrderly(home, caps, moves[..|moves| - 1]);
      RunsAreSane(caps, moves[..|moves| - 1]);
      NextOrderly(home, Execute(caps, moves[..|moves| - 1]), moves[|moves| - 1]);
    }
  }

  /** In every run: whenever an entry was submitted nothing on its instrument was
      UNKNOWN or RECONCILING, and of the entries placed on an instrument at most
      one has never been terminal. */
  lemma EntriesAreExclusive(home: string -> string, caps: map<string, real>, moves: seq<Move>)
    requires forall k | 0 <= k < |moves| :: WellKeyed(home, moves[k])
    ensures
      var s := Execute(caps, moves);
      var orders := s.ledger.tables.orders;
      && (forall k | 0 <= k < |s.submissions| && s.submissions[k].row.authority == Entry ::
            !HasUnresolved(s.submissions[k].at.tables.orders, s.submissions[k].row.core.instrument))
      && (forall a, b | 0 <= a < b < |orders| && orders[a].authority == Entry && orders[b].authority == Entry
                        && orders[a].core.instrument == orders[b].core.instrument
                        && !ImportKey(orders[a].core.key) && !ImportKey(orders[b].core.key) ::
            EverTerminal(s.ledger.events, a) || EverTerminal(s.ledger.events, b))
  {
    RunsAreOrderly(home, caps, moves);
    var s := Execute(caps, moves);
    var orders := s.ledger.tables.orders;
    forall a: nat, b: nat | 0 <= a < b < |orders| && orders[a].authority == Entry && orders[b].authority == Entry
                  && orders[a].core.instrument == orders[b].core.instrument
                  && !ImportKey(orders[a].core.key) && !ImportKey(orders[b].core.key)
      ensures EverTerminal(s.ledger.events, a) || EverTerminal(s.ledger.events, b)
    {
      assert Rivals(s.ledger, s.imported, a, b);
    }
  }
}
