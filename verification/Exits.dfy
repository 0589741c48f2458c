/** Protective exits never add up to more than the position they protect.

    `Slack` is what live exits have not yet claimed, and `Taken` is what an event
    takes of it: what a fill takes off the position beyond the claim of the exit
    it fills, and the remainder of a finished exit that is opened again.  Both
    can be read off the tables before the event is applied, and the exits go on
    fitting if and only if no more is taken than there is. */
module Exits {
  import opened Common
  import opened Lifecycle
  import opened Ledger
  import opened Accounting
  import opened LedgerHistory
  import opened Guards
  import opened Protocol
  import opened ProtocolSafety
  import opened EntryDiscipline

  function Slack(t: Tables, i: string): real {
    Abs(PositionOf(t, i)) - OpenExitRemaining(t.orders, i)
  }

  // ---------------------------------------------------------------- what a step does to the ledger

  datatype Deed = Nothing | Creates(intent: Intent) | Applies(row: OrderRow, event: Event)

  function DeedOf(task: Task): Deed {
    match task
    case PlaceInterrupted(_, row) => Applies(row, ReconcileStarted("replayed mid-submission"))
    case PlaceGuarded(intent) => Creates(intent)
    case PlaceRecorded(_, row) => Applies(row, SubmissionStarted)
    case PlaceAnswered(_, row, answer) => Applies(row, answer)
    case CancelLoaded(row) => Applies(row, CancelRequested)
    case CancelLost(row) => Applies(row, ReconcileStarted("cancel timeout"))
    case FillLoaded(row, fill) => Applies(row, FillReceived(fill.execId, fill.qty, fill.price))
    case ConfirmLoaded(row) => Applies(row, CancelConfirmed)
    case LateEvidence(row, cause) => Applies(row, ReconcileStarted(cause))
    case ReconLoaded(row, _) => Applies(row, ReconcileStarted("reconciler"))
    case Vanished(row) => Applies(row, ReconcileResolved(Canceled, row.core.brokerId, row.core.filled))
    case Backfilling(row, view, next) =>
      if next < |view.fills| then
        Applies(row, FillReceived(view.fills[next].execId, view.fills[next].qty, view.fills[next].price))
      else if row.core.filled <= view.filledQty && row.core.filled >= Min(view.filledQty, row.core.qty) then
        Applies(row, ReconcileResolved(StateMap(view.state), Some(view.brokerId), view.filledQty))
      else Nothing
    case _ => Nothing
  }

  function Commit(l: Durable, deed: Deed): Durable {
    match deed
    case Nothing => l
    case Creates(intent) => CreateOrder(l, intent).0
    case Applies(row, event) => ApplyEvent(l, row, event).0
  }

  lemma ActCommits(l: Durable, task: Task, choice: Choice, caps: map<string, real>)
    ensures Act(l, task, choice, caps).ledger == Commit(l, DeedOf(task))
  {
    hide ApplyEvent, CreateOrder, Load, EntryQty, ExitQty, OpenExitRemaining, HasUnresolved, HasOpenEntry, PositionOf;
  }

  function MoveDeed(s: System, move: Move): Deed {
    match move
    case Advance(i, _) => if i in s.held then DeedOf(s.held[i]) else Nothing
    case ImportBegin(key, i, delta) =>
      if delta == 0.0 || key == "" || FindKey(s.ledger.tables.orders, key).Some? then Nothing
      else Creates(ImportIntent(key, i, delta))
    case ImportStep(id, price) =>
      if id in s.imports then Applies(s.imports[id], NextImport(s.imports[id], price)) else Nothing
    case _ => Nothing
  }

  /** The transaction commits: the event is legal, new, and its row current. */
  predicate Commits(l: Durable, row: OrderRow, event: Event) {
    && Transition(row.core, event).Ok?
    && (event.FillReceived? ==> !HasExec(l.tables.fills, event.execId))
    && GuardPasses(l, row)
  }

  lemma CommitsIsUpdated(l: Durable, row: OrderRow, event: Event)
    ensures Commits(l, row, event) <==> ApplyEvent(l, row, event).1.Updated?
    ensures !Commits(l, row, event) ==> ApplyEvent(l, row, event).0.tables == l.tables
  {
    hide Transition, HasExec;
  }

  /** What an event that commits takes of the instrument's slack. */
  function Taken(t: Tables, row: OrderRow, event: Event, i: string): real {
    if row.core.instrument != i then 0.0
    else
      var exit, rest := row.authority == ProtectiveExit, row.core.qty - row.core.filled;
      match event
      case FillReceived(_, qty, _) =>
        Abs(PositionOf(t, i)) - Abs(PositionOf(t, i) + SignedQty(row.side, qty)) - if exit then Min(qty, rest) else 0.0
      case ReconcileStarted(_) => if exit && IsTerminal(row.core.state) then rest else 0.0
      case _ => 0.0
  }

  /** What a deed takes of it: a new exit its quantity, an event only if it commits. */
  function TakenBy(l: Durable, deed: Deed, i: string): real {
    match deed
    case Nothing => 0.0
    case Creates(intent) =>
      if FindKey(l.tables.orders, intent.key).None? && intent.instrument == i && intent.authority == ProtectiveExit
      then intent.qty else 0.0
    case Applies(row, event) => if Commits(l, row, event) then Taken(l.tables, row, event, i) else 0.0
  }

  // ---------------------------------------------------------------- the sum over exits

  lemma {:induction false} SumAfterUpdate(orders: seq<OrderRow>, id: nat, row: OrderRow, i: string)
    requires id < |orders|
    ensures OpenExitRemaining(orders[id := row], i)
         == OpenExitRemaining(orders, i) - ExitRemaining(orders[id], i) + ExitRemaining(row, i)
  {
    var rest := orders[..|orders| - 1];
    if id == |orders| - 1 {
      assert orders[id := row][..|orders| - 1] == rest;
    } else {
      assert orders[id := row][..|orders| - 1] == rest[id := row];
      SumAfterUpdate(rest, id, row, i);
    }
  }

  lemma SumAfterAppend(orders: seq<OrderRow>, row: OrderRow, i: string)
    ensures OpenExitRemaining(orders + [row], i) == OpenExitRemaining(orders, i) + ExitRemaining(row, i)
  {
    assert (orders + [row])[..|orders|] == orders;
  }

  /** What an accepted event does to one exit's claim. */
  lemma ClaimAfter(row: OrderRow, event: Event, core: Order, i: string)
    requires Sound(row.core) && Transition(row.core, event) == Ok(core) && FillNeutral(row, event)
    requires row.core.instrument == i && row.authority == ProtectiveExit
    ensures
      var before, after := ExitRemaining(row, i), ExitRemaining(row.(core := core), i);
      var rest := row.core.qty - row.core.filled;
      match event
      case FillReceived(_, qty, _) => before == rest && after == before - Min(qty, rest) && 0.0 < qty
      case ReconcileStarted(_) => after == rest && before == if IsTerminal(row.core.state) then 0.0 else rest
      case _ => after <= before
  {
    StepFacts(row.core, event);
  }

  lemma PositionAfter(l: Durable, row: OrderRow, event: Event, i: string)
    requires ApplyEvent(l, row, event).1.Updated?
    ensures Transition(row.core, event).Ok? && (event.FillReceived? ==> !HasExec(l.tables.fills, event.execId))
    ensures PositionOf(ApplyEvent(l, row, event).0.tables, i) == PositionOf(l.tables, i)
              + if event.FillReceived? && row.core.instrument == i then SignedQty(row.side, event.qty) else 0.0
  {
    hide Transition, HasExec;
  }

  lemma ClaimsAfter(l: Durable, row: OrderRow, event: Event, i: string)
    requires SoundRows(l.tables.orders) && Current(l.tables, row) && ApplyEvent(l, row, event).1.Updated?
    ensures
      var (l', out) := ApplyEvent(l, row, event);
      && Sound(row.core) && Transition(row.core, event) == Ok(out.row.core)
      && OpenExitRemaining(l'.tables.orders, i) ==
           OpenExitRemaining(l.tables.orders, i) - ExitRemaining(row, i) + ExitRemaining(row.(core := out.row.core), i)
  {
    PositionAfter(l, row, event, i);
    hide ApplyEvent, OpenExitRemaining, Transition, PositionOf, HasExec;
    ApplyShape(l, row, event);
    SumAfterUpdate(l.tables.orders, row.core.orderId, ApplyEvent(l, row, event).1.row, i);
  }

  lemma AppliedTables(l: Durable, row: OrderRow, event: Event, i: string)
    requires Good(l) && Loaded(l, row) && (Sound(row.core) ==> FillNeutral(row, event))
    ensures
      var (l', out) := ApplyEvent(l, row, event);
      var t, t' := l.tables, l'.tables;
      if !out.Updated? then t' == t
      else
        && Sound(row.core) && Transition(row.core, event) == Ok(out.row.core)
        && (event.FillReceived? ==> !HasExec(t.fills, event.execId))
        && OpenExitRemaining(t'.orders, i) ==
             OpenExitRemaining(t.orders, i) - ExitRemaining(row, i) + ExitRemaining(row.(core := out.row.core), i)
        && PositionOf(t', i) == PositionOf(t, i)
                                + if event.FillReceived? && row.core.instrument == i
                                    then SignedQty(row.side, event.qty) else 0.0
  {
    assert SoundRows(l.tables.orders);
    hide Good, Loaded, ApplyEvent, PositionOf, OpenExitRemaining, ExitRemaining, Transition, HasExec, Current,
         SoundRows, Evolves;
    ApplyKeepsGood(l, row, event);
    if ApplyEvent(l, row, event).1.Updated? {
      PositionAfter(l, row, event, i);
      ClaimsAfter(l, row, event, i);
    }
  }

  /** The claims of an order that is no exit here. */
  lemma ClaimsNothing(row: OrderRow, core: Order, i: string)
    requires row.core.instrument != i || row.authority == Entry
    requires core.instrument == row.core.instrument
    ensures ExitRemaining(row, i) == 0.0 && ExitRemaining(row.(core := core), i) == 0.0
  {
  }

  /** A fill, and the opening of a reconciliation, take exactly that; an event of
      any other kind takes nothing, and may give an exit's claim back. */
  lemma SlackMoves(l: Durable, row: OrderRow, event: Event, i: string)
    requires Good(l) && Loaded(l, row) && (Sound(row.core) ==> FillNeutral(row, event)) && Commits(l, row, event)
    ensures
      var before, after := Slack(l.tables, i), Slack(ApplyEvent(l, row, event).0.tables, i);
      && before - Taken(l.tables, row, event, i) <= after
      && (event.FillReceived? || event.ReconcileStarted? || row.core.instrument != i || row.authority == Entry ==>
            after == before - Taken(l.tables, row, event, i))
  {
    hide Good, Loaded, ApplyEvent, Transition, OpenExitRemaining, PositionOf, HasExec, Commits, ExitRemaining;
    AppliedTables(l, row, event, i);
    CommitsIsUpdated(l, row, event);
    var core := ApplyEvent(l, row, event).1.row.core;
    TransitionKeepsIdentity(row.core, event);
    StepFacts(row.core, event);
    if row.core.instrument == i && row.authority == ProtectiveExit {
      ClaimAfter(row, event, core, i);
    } else {
      ClaimsNothing(row, core, i);
    }
  }

  lemma OnlyTheseTake(t: Tables, row: OrderRow, event: Event, i: string)
    ensures !event.FillReceived? && !event.ReconcileStarted? ==> Taken(t, row, event, i) == 0.0
  {
  }

  /** An event leaves at least the slack there was if and only if it takes none. */
  lemma ApplyKeepsSlack(l: Durable, row: OrderRow, event: Event, i: string)
    requires Good(l) && Loaded(l, row) && (Sound(row.core) ==> FillNeutral(row, event))
    ensures Slack(ApplyEvent(l, row, event).0.tables, i) >= Slack(l.tables, i)
       <==> TakenBy(l, Applies(row, event), i) <= 0.0
  {
    hide Good, Loaded, ApplyEvent, Slack, Commits, Taken;
    CommitsIsUpdated(l, row, event);
    OnlyTheseTake(l.tables, row, event, i);
    if Commits(l, row, event) { SlackMoves(l, row, event, i); }
  }

  /** The exits go on fitting after an event if and only if it takes no more than
      the slack there is. */
  lemma ApplyFitsExactly(l: Durable, row: OrderRow, event: Event, i: string)
    requires Good(l) && Loaded(l, row) && (Sound(row.core) ==> FillNeutral(row, event)) && 0.0 <= Slack(l.tables, i)
    ensures 0.0 <= Slack(ApplyEvent(l, row, event).0.tables, i)
       <==> TakenBy(l, Applies(row, event), i) <= Slack(l.tables, i)
  {
    hide Good, Loaded, ApplyEvent, Slack, Commits, Taken;
    CommitsIsUpdated(l, row, event);
    OnlyTheseTake(l.tables, row, event, i);
    if Commits(l, row, event) { SlackMoves(l, row, event, i); }
  }

  /** An event elsewhere, or on an order that is no exit, claims nothing. */
  lemma ApplyClaimsNothing(l: Durable, row: OrderRow, event: Event, i: string)
    requires Good(l) && Loaded(l, row) && (Sound(row.core) ==> FillNeutral(row, event))
    requires row.core.instrument != i || row.authority == Entry
    ensures
      var t, t' := l.tables, ApplyEvent(l, row, event).0.tables;
      && OpenExitRemaining(t'.orders, i) == OpenExitRemaining(t.orders, i)
      && Slack(t', i) == Slack(t, i) - TakenBy(l, Applies(row, event), i)
  {
    hide Good, Loaded, ApplyEvent, Transition, OpenExitRemaining, PositionOf, HasExec, Commits, ExitRemaining, Taken,
         Slack;
    AppliedTables(l, row, event, i);
    CommitsIsUpdated(l, row, event);
    if Commits(l, row, event) {
      SlackMoves(l, row, event, i);
      TransitionKeepsIdentity(row.core, event);
      ClaimsNothing(row, ApplyEvent(l, row, event).1.row.core, i);
    } else {
      SameSlack(l.tables, ApplyEvent(l, row, event).0.tables, i);
    }
  }

  lemma SameSlack(t: Tables, t': Tables, i: string)
    requires t' == t
    ensures Slack(t', i) == Slack(t, i) && OpenExitRemaining(t'.orders, i) == OpenExitRemaining(t.orders, i)
  {
  }

  lemma CreateClaims(l: Durable, intent: Intent, i: string)
    requires Good(l)
    ensures
      var t, t' := l.tables, CreateOrder(l, intent).0.tables;
      && PositionOf(t', i) == PositionOf(t, i)
      && OpenExitRemaining(t'.orders, i) == OpenExitRemaining(t.orders, i) + TakenBy(l, Creates(intent), i)
  {
    assert SoundRows(l.tables.orders);
    hide Good, OpenExitRemaining, FindKey, SoundRows, Evolves;
    CreateEvolves(l, intent);
    if FindKey(l.tables.orders, intent.key).None? {
      SumAfterAppend(l.tables.orders, CreatedRow(|l.tables.orders|, intent, l.nextSeq), i);
    }
  }

  // ---------------------------------------------------------------- every run, exactly

  /** What a deed applies is a row the ledger once showed. */
  ghost predicate Safe(l: Durable, deed: Deed) {
    deed.Applies? ==> Loaded(l, deed.row) && (Sound(deed.row.core) ==> FillNeutral(deed.row, deed.event))
  }

  lemma CommitFitsExactly(l: Durable, deed: Deed, i: string)
    requires Good(l) && Safe(l, deed) && 0.0 <= Slack(l.tables, i)
    ensures 0.0 <= Slack(Commit(l, deed).tables, i) <==> TakenBy(l, deed, i) <= Slack(l.tables, i)
  {
    hide Good, Loaded, ApplyEvent, CreateOrder, PositionOf, OpenExitRemaining;
    match deed {
      case Nothing =>
      case Creates(intent) => hide TakenBy; CreateClaims(l, intent, i);
      case Applies(row, event) => hide TakenBy, Slack; ApplyFitsExactly(l, row, event, i);
    }
  }

  /** Every move commits its deed and changes the tables in no other way. */
  lemma MoveCommits(s: System, move: Move)
    requires Sane(s)
    ensures Safe(s.ledger, MoveDeed(s, move)) && Good(s.ledger)
    ensures Next(s, move).ledger.tables == Commit(s.ledger, MoveDeed(s, move)).tables
  {
    hide Act, ApplyEvent, Good, Loaded, TaskOk, DeedOf, NextImport, Safe, Commit;
    match move {
      case Acquire(_, _) => DeedIsCommitted(s.ledger, Nothing);
      case Advance(i, choice) =>
        DeedIsCommitted(s.ledger, Nothing);
        if i in s.held {
          ActCommits(s.ledger, s.held[i], choice, s.caps);
          DeedIsSafe(s.ledger, s.held[i]);
        }
      case ImportBegin(key, i, delta) => ImportBeginCommits(s, key, i, delta);
      case ImportStep(id, price) =>
        DeedIsCommitted(s.ledger, Nothing);
        if id in s.imports {
          ImportIsSafe(s.ledger, s.imports[id], price);
          DeedIsCommitted(s.ledger, MoveDeed(s, move));
        }
      case Crash =>
        DeedIsCommitted(s.ledger, Nothing);
        CrashIsNeutral(s);
    }
  }

  lemma DeedIsCommitted(l: Durable, deed: Deed)
    ensures deed.Nothing? ==> Safe(l, deed) && Commit(l, deed) == l
    ensures deed.Creates? ==> Safe(l, deed) && Commit(l, deed) == CreateOrder(l, deed.intent).0
    ensures deed.Applies? ==> Commit(l, deed) == ApplyEvent(l, deed.row, deed.event).0
  {
    hide ApplyEvent, CreateOrder, Loaded;
  }

  lemma ImportBeginCommits(s: System, key: string, i: string, delta: real)
    ensures Safe(s.ledger, MoveDeed(s, ImportBegin(key, i, delta)))
    ensures Next(s, ImportBegin(key, i, delta)).ledger == Commit(s.ledger, MoveDeed(s, ImportBegin(key, i, delta)))
  {
    hide CreateOrder, FindKey;
  }

  lemma ImportIsSafe(l: Durable, row: OrderRow, price: real)
    requires Loaded(l, row)
    ensures Safe(l, Applies(row, NextImport(row, price)))
  {
    hide Loaded;
  }

  lemma DeedIsSafe(l: Durable, task: Task)
    requires TaskOk(l, task)
    ensures Safe(l, DeedOf(task))
    ensures DeedOf(task).Applies? ==> RowOf(task) == Some(DeedOf(task).row)
  {
    hide Loaded;
  }

  lemma MoveFitsExactly(s: System, move: Move, i: string)
    requires Sane(s) && 0.0 <= Slack(s.ledger.tables, i)
    ensures 0.0 <= Slack(Next(s, move).ledger.tables, i)
       <==> TakenBy(s.ledger, MoveDeed(s, move), i) <= Slack(s.ledger.tables, i)
  {
    hide Sane, Next, Slack, TakenBy, MoveDeed, Good, Safe, Commit;
    MoveCommits(s, move);
    CommitFitsExactly(s.ledger, MoveDeed(s, move), i);
  }

  lemma NothingClaimed(caps: map<string, real>, i: string)
    ensures Slack(Execute(caps, []).ledger.tables, i) == 0.0
  {
  }

  /** In every run whatever, live exits never claim more than the position if and
      only if no move takes more than the slack there is when it is made. */
  lemma {:induction false} CoverHoldsExactly(caps: map<string, real>, moves: seq<Move>, i: string)
    ensures (forall k | 0 <= k <= |moves| :: 0.0 <= Slack(Execute(caps, moves[..k]).ledger.tables, i))
       <==> (forall k | 0 <= k < |moves| :: Fits(Execute(caps, moves[..k]), moves[k], i))
  {
    hide Slack, Fits, Execute, Next;
    if moves == [] {
      NothingClaimed(caps, i);
      assert moves[..0] == [];
    } else {
      var before := moves[..|moves| - 1];
      CoverHoldsExactly(caps, before, i);
      PrefixesAgree(caps, moves);
      RunsAreSane(caps, before);
      ExecuteLast(caps, moves);
      if 0.0 <= Slack(Execute(caps, before).ledger.tables, i) {
        MoveFitsExactly(Execute(caps, before), moves[|moves| - 1], i);
        FitsMeans(Execute(caps, before), moves[|moves| - 1], i);
      }
    }
  }

  predicate Fits(s: System, move: Move, i: string) {
    TakenBy(s.ledger, MoveDeed(s, move), i) <= Slack(s.ledger.tables, i)
  }

  lemma FitsMeans(s: System, move: Move, i: string)
    ensures Fits(s, move, i) <==> TakenBy(s.ledger, MoveDeed(s, move), i) <= Slack(s.ledger.tables, i)
  {
  }

  lemma ExecuteLast(caps: map<string, real>, moves: seq<Move>)
    requires moves != []
    ensures Execute(caps, moves) == Next(Execute(caps, moves[..|moves| - 1]), moves[|moves| - 1])
  {
    hide Next;
  }

  lemma PrefixesAgree(caps: map<string, real>, moves: seq<Move>)
    requires moves != []
    ensures var before := moves[..|moves| - 1];
            && (forall k | 0 <= k <= |before| :: before[..k] == moves[..k])
            && moves[..|before|] == before && moves[..|moves|] == moves
  {
  }

  // ---------------------------------------------------------------- what the guard adds

  /** What the exit being placed may yet claim: nothing before the position has
      been read, then what the guard will allow it, then what it was allowed. */
  function Reserved(t: Tables, i: string, task: Task): real {
    match task
    case PlaceMeasured(intent, position) =>
      (match ExitQty(position, OpenExitRemaining(t.orders, i), intent)
       case None => 0.0
       case Some(qty) => qty)
    case PlaceGuarded(intent) => if intent.authority == ProtectiveExit then intent.qty else 0.0
    case _ => 0.0
  }

  function ReservedOn(s: System, i: string): real {
    if i in s.held then Reserved(s.ledger.tables, i, s.held[i]) else 0.0
  }

  predicate Promise(t: Tables, i: string, task: Task) {
    && (task.PlaceUnheld? || task.PlaceSole? ==> task.intent.authority == Entry)
    && Reserved(t, i, task) <= Slack(t, i)
  }

  /** An event takes no more than the slack that is not reserved. */
  predicate Affordable(s: System, move: Move, i: string) {
    var deed := MoveDeed(s, move);
    deed.Applies? ==> TakenBy(s.ledger, deed, i) <= Slack(s.ledger.tables, i) - ReservedOn(s, i)
  }

  predicate ImportsAreEntries(s: System) {
    forall id | id in s.imports :: s.imports[id].authority == Entry
  }

  predicate ExitsFit(s: System, i: string) {
    && 0.0 <= Slack(s.ledger.tables, i)
    && (i in s.held ==> Promise(s.ledger.tables, i, s.held[i]))
    && ImportsAreEntries(s)
  }

  lemma ReservedIsNothingLess(t: Tables, i: string, task: Task)
    ensures 0.0 <= Reserved(t, i, task)
    ensures Promise(t, i, task) ==> 0.0 <= Slack(t, i)
    ensures DeedOf(task).Applies? ==> Reserved(t, i, task) == 0.0
  {
    hide OpenExitRemaining, PositionOf, Slack;
  }

  /** The guard: measure the position, subtract the claims, promise the rest. */
  lemma GuardPromises(l: Durable, task: Task, choice: Choice, caps: map<string, real>, i: string)
    requires IntentOf(task).Some? ==> IntentOf(task).value.instrument == i
    requires task.PlaceMeasured? ==> task.intent.authority == ProtectiveExit
    requires Promise(l.tables, i, task) && DeedOf(task).Nothing?
    ensures
      var e := Act(l, task, choice, caps);
      e.ledger == l && (e.task.Some? ==> Promise(l.tables, i, e.task.value))
  {
    hide ApplyEvent, CreateOrder, Load, OpenExitRemaining, HasUnresolved, HasOpenEntry, PositionOf;
  }

  predicate Unpromised(task: Task) {
    !task.PlaceUnheld? && !task.PlaceSole? && !task.PlaceMeasured? && !task.PlaceGuarded?
  }

  lemma DeedsPromiseNothing(l: Durable, task: Task, choice: Choice, caps: map<string, real>)
    requires !DeedOf(task).Nothing?
    ensures
      var e := Act(l, task, choice, caps);
      e.task.Some? ==> Unpromised(e.task.value)
  {
    hide ApplyEvent, CreateOrder;
    if task.ReconLoaded? {
      var out := ApplyEvent(l, task.row, ReconcileStarted("reconciler")).1;
      if out.Updated? { assert Unpromised(Adopting(out.row, task.view)); }
    }
  }

  lemma Unpromising(t: Tables, i: string, task: Task)
    requires Unpromised(task)
    ensures Reserved(t, i, task) == 0.0 && (Promise(t, i, task) <==> 0.0 <= Slack(t, i))
  {
    hide Slack;
  }

  /** Creating the order a guard promised uses the slack, and no more than it. */
  lemma CreationFits(l: Durable, intent: Intent, i: string)
    requires Good(l) && 0.0 <= Slack(l.tables, i)
    requires intent.instrument == i && intent.authority == ProtectiveExit ==> intent.qty <= Slack(l.tables, i)
    ensures 0.0 <= Slack(CreateOrder(l, intent).0.tables, i)
  {
    hide Good, CreateOrder, FindKey;
    CreateClaims(l, intent, i);
  }

  predicate Paid(l: Durable, task: Task, i: string, reserved: real) {
    DeedOf(task).Applies? ==> TakenBy(l, DeedOf(task), i) <= Slack(l.tables, i) - reserved
  }

  /** A step of the instrument's own task. */
  lemma OwnStepFits(l: Durable, task: Task, choice: Choice, caps: map<string, real>, i: string)
    requires Good(l) && TaskOk(l, task) && (IntentOf(task).Some? ==> IntentOf(task).value.instrument == i)
    requires task.PlaceMeasured? ==> task.intent.authority == ProtectiveExit
    requires Promise(l.tables, i, task)
    ensures
      var e := Act(l, task, choice, caps);
      0.0 <= Slack(e.ledger.tables, i) && (e.task.Some? ==> Promise(e.ledger.tables, i, e.task.value))
      <==> Paid(l, task, i, Reserved(l.tables, i, task))
  {
    hide Act, Good, TaskOk, ApplyEvent, CreateOrder, Slack, PositionOf, Safe, TakenBy, Reserved;
    ReservedIsNothingLess(l.tables, i, task);
    ActCommits(l, task, choice, caps);
    DeedIsSafe(l, task);
    var e := Act(l, task, choice, caps);
    match DeedOf(task) {
      case Nothing => GuardPromises(l, task, choice, caps, i);
      case Creates(intent) =>
        DeedsPromiseNothing(l, task, choice, caps);
        PromisedExit(l.tables, i, task);
        CreationFits(l, intent, i);
        if e.task.Some? { Unpromising(e.ledger.tables, i, e.task.value); }
      case Applies(_, _) =>
        DeedsPromiseNothing(l, task, choice, caps);
        CommitFitsExactly(l, DeedOf(task), i);
        if e.task.Some? { Unpromising(e.ledger.tables, i, e.task.value); }
    }
  }

  lemma PromisedExit(t: Tables, i: string, task: Task)
    requires DeedOf(task).Creates? && Promise(t, i, task)
    ensures DeedOf(task).intent.authority == ProtectiveExit ==> DeedOf(task).intent.qty <= Slack(t, i)
  {
    hide Slack;
  }

  lemma StepClaimsNothing(l: Durable, deed: Deed, i: string)
    requires Good(l) && Safe(l, deed)
    requires deed.Creates? ==> deed.intent.instrument != i || deed.intent.authority == Entry
    requires deed.Applies? ==> deed.row.core.instrument != i || deed.row.authority == Entry
    ensures
      var t, t' := l.tables, Commit(l, deed).tables;
      && OpenExitRemaining(t'.orders, i) == OpenExitRemaining(t.orders, i)
      && Slack(t', i) == Slack(t, i) - TakenBy(l, deed, i) && (!deed.Applies? ==> TakenBy(l, deed, i) == 0.0)
  {
    hide Good, Loaded, ApplyEvent, CreateOrder, OpenExitRemaining, PositionOf, FindKey, Taken, Commits;
    match deed {
      case Nothing =>
      case Creates(intent) => CreateClaims(l, intent, i);
      case Applies(row, event) => hide TakenBy, Slack; ApplyClaimsNothing(l, row, event, i);
    }
  }

  /** A step elsewhere: what has been promised here still stands if and only if
      the step takes no more than what is not reserved. */
  lemma PromiseStays(l: Durable, deed: Deed, i: string, watched: Task)
    requires Good(l) && Safe(l, deed) && Promise(l.tables, i, watched)
    requires deed.Creates? ==> deed.intent.instrument != i || deed.intent.authority == Entry
    requires deed.Applies? ==> deed.row.core.instrument != i || deed.row.authority == Entry
    ensures
      var t' := Commit(l, deed).tables;
      Promise(t', i, watched)
      <==> (deed.Applies? ==> TakenBy(l, deed, i) <= Slack(l.tables, i) - Reserved(l.tables, i, watched))
  {
    hide Good, Safe, Commit, OpenExitRemaining, PositionOf, TakenBy, Slack, ExitQty;
    StepClaimsNothing(l, deed, i);
  }

  function Watched(s: System, i: string): Task {
    if i in s.held then s.held[i] else CancelLocked("")
  }

  lemma FitMeans(s: System, i: string)
    ensures ExitsFit(s, i) <==> Promise(s.ledger.tables, i, Watched(s, i)) && ImportsAreEntries(s)
    ensures ReservedOn(s, i) == Reserved(s.ledger.tables, i, Watched(s, i))
  {
    hide Slack, Reserved;
    ReservedIsNothingLess(s.ledger.tables, i, Watched(s, i));
    Unpromising(s.ledger.tables, i, CancelLocked(""));
  }

  lemma HeldFacts(home: string -> string, s: System, j: string)
    requires Sane(s) && Orderly(home, s) && j in s.held
    ensures Good(s.ledger) && TaskOk(s.ledger, s.held[j]) && AtHome(home, s.ledger, j, s.held[j])
  {
    hide Good, TaskOk, AtHome, KeysAtHome, OneEntry, SubmittedFree, ImportsOk;
    assert Disciplined(home, s.ledger, s.imported, j, s.held[j]);
  }

  /** A task elsewhere works on its own instrument. */
  lemma WorksElsewhere(home: string -> string, l: Durable, j: string, task: Task, i: string)
    requires TaskOk(l, task) && AtHome(home, l, j, task) && i != j
    ensures Safe(l, DeedOf(task))
    ensures DeedOf(task).Creates? ==> DeedOf(task).intent.instrument != i
    ensures DeedOf(task).Applies? ==> DeedOf(task).row.core.instrument != i
  {
    hide Loaded, OnInstrument, Safe;
    DeedIsSafe(l, task);
  }

  lemma AdvanceFits(home: string -> string, s: System, j: string, choice: Choice, i: string)
    requires Sane(s) && Orderly(home, s) && ExitsFit(s, i) && j in s.held
    ensures ExitsFit(Next(s, Advance(j, choice)), i) <==> Affordable(s, Advance(j, choice), i)
  {
    hide Act, Next, Good, TaskOk, Sane, Orderly, Slack, Commit, DeedOf, OnInstrument, Promise, ExitsFit, Safe, TakenBy,
         Reserved;
    var l, task, s' := s.ledger, s.held[j], Next(s, Advance(j, choice));
    HeldFacts(home, s, j);
    AdvanceShape(s, j, choice);
    FitMeans(s, i);
    FitMeans(s', i);
    if j == i {
      OwnStepFits(l, task, choice, s.caps, i);
      Unpromising(s'.ledger.tables, i, CancelLocked(""));
      ReservedIsNothingLess(s'.ledger.tables, i, Watched(s', i));
    } else {
      ActCommits(l, task, choice, s.caps);
      WorksElsewhere(home, l, j, task, i);
      PromiseStays(l, DeedOf(task), i, Watched(s, i));
    }
  }

  // ---------------------------------------------------------------- position imports

  lemma ImportStepIs(s: System, id: nat, price: real)
    requires id in s.imports
    ensures
      var s', row := Next(s, ImportStep(id, price)), s.imports[id];
      var (l', out) := ApplyEvent(s.ledger, row, NextImport(row, price));
      && s'.ledger == l' && s'.held == s.held
      && (forall k <- s'.imports ::
            k in s.imports && (s'.imports[k] == s.imports[k] || (out.Updated? && s'.imports[k] == out.row)))
      && MoveDeed(s, ImportStep(id, price)) == Applies(row, NextImport(row, price))
  {
    hide ApplyEvent, NextImport;
  }

  lemma ImportStepFits(s: System, id: nat, price: real, i: string)
    requires Sane(s) && ExitsFit(s, i) && id in s.imports
    ensures ExitsFit(Next(s, ImportStep(id, price)), i) <==> Affordable(s, ImportStep(id, price), i)
  {
    var l, row := s.ledger, s.imports[id];
    var event := NextImport(row, price);
    assert Good(l) && Loaded(l, row) && row.authority == Entry;
    ImportStepIs(s, id, price);
    hide Next, Good, Sane, Slack, ApplyEvent, Promise, NextImport, Loaded, Safe, TakenBy, Reserved, ExitsFit, MoveDeed,
         Commit;
    FitMeans(s, i);
    FitMeans(Next(s, ImportStep(id, price)), i);
    ImportIsSafe(l, row, price);
    DeedIsCommitted(l, Applies(row, event));
    PromiseStays(l, Applies(row, event), i, Watched(s, i));
    ApplyKeepsRow(l, row, event);
  }

  lemma ImportBeginFits(s: System, key: string, j: string, delta: real, i: string)
    requires Sane(s) && ExitsFit(s, i)
    requires delta != 0.0 && key != "" && FindKey(s.ledger.tables.orders, key).None?
    ensures ExitsFit(Next(s, ImportBegin(key, j, delta)), i)
  {
    var l, intent := s.ledger, ImportIntent(key, j, delta);
    assert Good(l) && SoundRows(l.tables.orders);
    ImportBeginShape(s, key, j, delta);
    hide Next, Good, Sane, Slack, CreateOrder, Promise, Loaded, Safe, TakenBy, Reserved, ExitsFit, FindKey, Commit,
         ImportIntent;
    ImportIntentIs(key, j, delta);
    FitMeans(s, i);
    FitMeans(Next(s, ImportBegin(key, j, delta)), i);
    DeedIsCommitted(l, Creates(intent));
    PromiseStays(l, Creates(intent), i, Watched(s, i));
  }

  /** A move leaves the exits, with what is reserved for them, within the position
      if and only if its event takes no more than the rest; creating the order a
      guard allowed always does. */
  lemma NextFits(home: string -> string, s: System, move: Move, i: string)
    requires Sane(s) && Orderly(home, s) && ExitsFit(s, i)
    ensures ExitsFit(Next(s, move), i) <==> Affordable(s, move, i)
  {
    match move {
      case Advance(j, choice) => if j in s.held { hide *; AdvanceFits(home, s, j, choice, i); }
      case Acquire(j, task) => hide *; AcquireFits(s, j, task, i);
      case ImportBegin(key, j, delta) =>
        hide Sane, Orderly, ExitsFit, TakenBy, ReservedOn, Slack, CreateOrder;
        if delta != 0.0 && key != "" && FindKey(s.ledger.tables.orders, key).None? {
          ImportBeginFits(s, key, j, delta, i);
        }
      case ImportStep(id, price) => if id in s.imports { hide *; ImportStepFits(s, id, price, i); }
      case Crash => CrashIsNeutral(s);
    }
  }

  lemma AcquireFits(s: System, j: string, task: Task, i: string)
    requires ExitsFit(s, i)
    ensures ExitsFit(Next(s, Acquire(j, task)), i) && Affordable(s, Acquire(j, task), i)
  {
    hide Slack, OnInstrument;
  }

  /** In every run the exits, with what is reserved for them, fit all along if and
      only if no event takes more than the slack that is not reserved: the guard
      answers for every exit it lets through. */
  lemma {:induction false} ExitsNeverOverreach(home: string -> string, caps: map<string, real>, moves: seq<Move>,
                                               i: string)
    requires forall k | 0 <= k < |moves| :: WellKeyed(home, moves[k])
    ensures (forall k | 0 <= k <= |moves| :: ExitsFit(Execute(caps, moves[..k]), i))
       <==> (forall k | 0 <= k < |moves| :: Affordable(Execute(caps, moves[..k]), moves[k], i))
  {
    hide ExitsFit, Affordable, Execute, Next, Orderly, Sane;
    if moves == [] {
      NothingClaimed(caps, i);
      NothingHeld(caps, i);
      assert moves[..0] == [];
    } else {
      var before := moves[..|moves| - 1];
      ExitsNeverOverreach(home, caps, before, i);
      PrefixesAgree(caps, moves);
      RunsAreSane(caps, before);
      RunsAreOrderly(home, caps, before);
      ExecuteLast(caps, moves);
      if ExitsFit(Execute(caps, before), i) {
        NextFits(home, Execute(caps, before), moves[|moves| - 1], i);
      }
    }
  }

  lemma NothingHeld(caps: map<string, real>, i: string)
    requires Slack(Execute(caps, []).ledger.tables, i) == 0.0
    ensures ExitsFit(Execute(caps, []), i)
  {
  }

  // ---------------------------------------------------------------- how the cover is lost

  /** The exits cease to fit exactly where an event takes more than the slack. */
  lemma CoverIsLostExactly(l: Durable, row: OrderRow, event: Event, i: string)
    requires Good(l) && Loaded(l, row) && (Sound(row.core) ==> FillNeutral(row, event))
    requires Commits(l, row, event) && 0.0 <= Slack(l.tables, i)
    ensures Slack(ApplyEvent(l, row, event).0.tables, i) < 0.0 <==> Slack(l.tables, i) < Taken(l.tables, row, event, i)
  {
    hide Good, Loaded, ApplyEvent, Slack, Commits, Taken;
    ApplyFitsExactly(l, row, event, i);
  }

  /** An execution of an exit, over-match or not. */
  lemma OverMatchUncovers(l: Durable, row: OrderRow, fill: Event, i: string)
    requires Good(l) && Loaded(l, row) && fill.FillReceived? && Commits(l, row, fill)
    requires row.authority == ProtectiveExit && row.core.instrument == i && 0.0 <= Slack(l.tables, i)
    ensures
      var p := PositionOf(l.tables, i);
      Slack(ApplyEvent(l, row, fill).0.tables, i) < 0.0
      <==> Slack(l.tables, i) < Abs(p) - Abs(p + SignedQty(row.side, fill.qty))
                                - Min(fill.qty, row.core.qty - row.core.filled)
  {
    hide Good, Loaded, ApplyEvent, Slack, Commits, PositionOf;
    CoverIsLostExactly(l, row, fill, i);
  }

  /** Within its remainder, or on the opening side, an exit's execution takes nothing. */
  lemma OpeningOverMatchKeepsCover(t: Tables, row: OrderRow, fill: Event, i: string)
    requires fill.FillReceived? && 0.0 < fill.qty && Sound(row.core) && row.authority == ProtectiveExit
    requires PositionOf(t, i) * SignedQty(row.side, 1.0) >= 0.0 || fill.qty <= row.core.qty - row.core.filled
    ensures Taken(t, row, fill, i) <= 0.0
  {
    hide PositionOf;
  }

  /** A fill of an entry that shrinks the position. */
  lemma ShrinkingFillUncovers(l: Durable, row: OrderRow, fill: Event, i: string)
    requires Good(l) && Loaded(l, row) && fill.FillReceived? && Commits(l, row, fill)
    requires row.authority == Entry && row.core.instrument == i && 0.0 <= Slack(l.tables, i)
    ensures
      var p := PositionOf(l.tables, i);
      Slack(ApplyEvent(l, row, fill).0.tables, i) < 0.0
      <==> Slack(l.tables, i) < Abs(p) - Abs(p + SignedQty(row.side, fill.qty))
  {
    hide Good, Loaded, ApplyEvent, Slack, Commits, PositionOf;
    CoverIsLostExactly(l, row, fill, i);
  }

  /** A finished exit that is opened again claims its remainder again. */
  lemma ReopeningUncovers(l: Durable, row: OrderRow, cause: string, i: string)
    requires Good(l) && Loaded(l, row) && Commits(l, row, ReconcileStarted(cause))
    requires row.authority == ProtectiveExit && row.core.instrument == i && IsTerminal(row.core.state)
    requires 0.0 <= Slack(l.tables, i)
    ensures Slack(ApplyEvent(l, row, ReconcileStarted(cause)).0.tables, i) < 0.0
       <==> Slack(l.tables, i) < row.core.qty - row.core.filled
  {
    hide Good, Loaded, ApplyEvent, Slack, Commits, PositionOf;
    CoverIsLostExactly(l, row, ReconcileStarted(cause), i);
  }
}
