/** Runs in which live exits are left claiming more than the position: one for
    each way an event can take more than the slack, and one in which what the
    guard has already measured is taken before it is claimed. */
module Uncovering {
  import opened Common
  import opened Lifecycle
  import opened Ledger
  import opened Guards
  import opened Protocol
  import opened Engine
  import opened Exits

  function After(s: System, moves: seq<Move>): System
    decreases |moves|
  {
    if moves == [] then s else After(Next(s, moves[0]), moves[1..])
  }

  lemma {:induction false} ExecuteOn(caps: map<string, real>, before: seq<Move>, moves: seq<Move>)
    ensures Execute(caps, before + moves) == After(Execute(caps, before), moves)
    decreases |moves|
  {
    hide Next;
    if moves == [] {
      assert before + moves == before;
    } else {
      assert (before + [moves[0]])[..|before|] == before;
      assert before + moves == before + [moves[0]] + moves[1..];
      ExecuteOn(caps, before + [moves[0]], moves[1..]);
    }
  }

  lemma {:induction false} AfterBoth(s: System, a: seq<Move>, b: seq<Move>)
    ensures After(s, a + b) == After(After(s, a), b)
    decreases |a|
  {
    hide Next;
    if a == [] {
      assert a + b == b;
    } else {
      assert (a + b)[1..] == a[1..] + b;
      AfterBoth(Next(s, a[0]), a[1..], b);
    }
  }

  lemma OneMove(s: System, a: Move)
    ensures After(s, [a]) == Next(s, a)
  {
    hide Next;
    assert [a][1..] == [] && After(Next(s, a), []) == Next(s, a);
  }

  lemma ThreeMoves(s: System, a: Move, b: Move, c: Move)
    ensures After(s, [a, b, c]) == Next(Next(Next(s, a), b), c)
  {
    hide Next;
    assert [a, b, c][1..] == [b, c] && [b, c][1..] == [c];
    OneMove(Next(Next(s, a), b), c);
  }

  lemma FourMoves(s: System, a: Move, b: Move, c: Move, d: Move)
    ensures After(s, [a, b, c, d]) == Next(Next(Next(Next(s, a), b), c), d)
  {
    hide Next;
    assert [a, b, c, d][1..] == [b, c, d];
    ThreeMoves(Next(s, a), b, c, d);
  }

  predicate Unused(t: Tables, key: string) {
    key != "" && FindKey(t.orders, key).None? && !HasExec(t.fills, "X-" + key)
  }

  // ---------------------------------------------------------------- an import

  function ImportRow(s: System, key: string, i: string, delta: real): OrderRow
    requires delta != 0.0
  {
    var side := if delta > 0.0 then Buy else Sell;
    OrderRow(NewOrder(|s.ledger.tables.orders|, key, i, Abs(delta)), side, Entry, None, s.ledger.nextSeq)
  }

  lemma ImportBegins(s: System, key: string, i: string, delta: real)
    requires delta != 0.0 && Unused(s.ledger.tables, key)
    ensures
      var s', row := Next(s, ImportBegin(key, i, delta)), ImportRow(s, key, i, delta);
      && s' == s.(ledger := s'.ledger, imports := s.imports[row.core.orderId := row], imported := s'.imported)
      && s'.ledger.tables == s.ledger.tables.(orders := s.ledger.tables.orders + [row])
  {
  }

  lemma ImportStarts(s: System, t: Tables, row: OrderRow)
    requires s.ledger.tables.orders == t.orders + [row] && row.core.orderId == |t.orders| && row.core.state == Created
    requires row.core.orderId in s.imports && s.imports[row.core.orderId] == row
    ensures
      var s', row' := Next(s, ImportStep(row.core.orderId, 1.0)),
                      row.(core := row.core.(state := Submitting), lastSeq := s.ledger.nextSeq);
      && s' == s.(ledger := s'.ledger, imports := s.imports[row.core.orderId := row'])
      && s'.ledger.tables == s.ledger.tables.(orders := t.orders + [row'])
  {
    var row' := row.(core := row.core.(state := Submitting), lastSeq := s.ledger.nextSeq);
    assert s.ledger.tables.orders[row.core.orderId := row'] == t.orders + [row'];
  }

  lemma ImportFills(s: System, t: Tables, row: OrderRow)
    requires s.ledger.tables.orders == t.orders + [row] && row.core.orderId == |t.orders|
        && row.core.state == Submitting
    requires 0.0 == row.core.filled < row.core.qty && !HasExec(s.ledger.tables.fills, "X-" + row.core.key)
    requires row.core.orderId in s.imports && s.imports[row.core.orderId] == row
    ensures
      var s' := Next(s, ImportStep(row.core.orderId, 1.0));
      var row' := row.(core := row.core.(state := State.Filled, filled := row.core.qty), lastSeq := s.ledger.nextSeq);
      && s' == s.(ledger := s'.ledger, imports := s'.imports)
      && s'.ledger.tables == BookFill(s.ledger.tables.(orders := t.orders + [row']), row,
                                      FillReceived("X-" + row.core.key, row.core.qty, 1.0), s.ledger.nextSeq)
  {
    hide HasExec;
    var row' := row.(core := row.core.(state := State.Filled, filled := row.core.qty), lastSeq := s.ledger.nextSeq);
    assert s.ledger.tables.orders[row.core.orderId := row'] == t.orders + [row'];
  }

  function ImportMoves(id: nat, key: string, i: string, delta: real): seq<Move> {
    [ImportBegin(key, i, delta), ImportStep(id, 1.0), ImportStep(id, 1.0)]
  }

  /** An import moves the position by its size and no exit's claim. */
  lemma ImportMovesPosition(s: System, key: string, i: string, delta: real)
    requires delta != 0.0 && Unused(s.ledger.tables, key)
    ensures
      var s' := After(s, ImportMoves(|s.ledger.tables.orders|, key, i, delta));
      var t, t' := s.ledger.tables, s'.ledger.tables;
      && s'.held == s.held
      && PositionOf(t', i) == PositionOf(t, i) + delta
      && OpenExitRemaining(t'.orders, i) == OpenExitRemaining(t.orders, i)
      && |t'.orders| == |t.orders| + 1 && t'.orders[..|t.orders|] == t.orders && t'.orders[|t.orders|].core.key == key
      && |t'.fills| == |t.fills| + 1 && t'.fills[..|t.fills|] == t.fills && t'.fills[|t.fills|].execId == "X-" + key
  {
    hide Next, After, HasExec, FindKey, OpenExitRemaining;
    var t, id := s.ledger.tables, |s.ledger.tables.orders|;
    ThreeMoves(s, ImportBegin(key, i, delta), ImportStep(id, 1.0), ImportStep(id, 1.0));
    var s1 := Next(s, ImportBegin(key, i, delta));
    var s2 := Next(s1, ImportStep(id, 1.0));
    ImportBegins(s, key, i, delta);
    ImportStarts(s1, t, ImportRow(s, key, i, delta));
    ImportFills(s2, t, s2.imports[id]);
    SumAfterAppend(t.orders, Next(s2, ImportStep(id, 1.0)).ledger.tables.orders[id], i);
  }

  // ---------------------------------------------------------------- an exit

  function ExitIntent(key: string, i: string, qty: real): Intent
    requires key != "" && 0.0 < qty
  {
    RawIntent(key, i, Sell, qty, ProtectiveExit, None)
  }

  /** As far as the measured position. */
  function MeasureMoves(intent: Intent): seq<Move> {
    var i := intent.instrument;
    [Acquire(i, PlaceLocked(intent)), Advance(i, Quiet), Advance(i, Quiet)]
  }

  function GuardMoves(i: string): seq<Move> {
    [Advance(i, Quiet)]
  }

  /** Recorded, started, submitted and answered. */
  function SubmitMoves(i: string, answer: SubmitAnswer): seq<Move> {
    [Advance(i, Quiet), Advance(i, Quiet), Advance(i, Answer(answer)), Advance(i, Quiet)]
  }

  function PlaceMoves(intent: Intent, answer: SubmitAnswer): seq<Move> {
    MeasureMoves(intent) + GuardMoves(intent.instrument) + SubmitMoves(intent.instrument, answer)
  }

  /** A step that leaves the tables alone and goes on to the next. */
  lemma GoesOn(s: System, i: string, next: Task)
    requires i in s.held && Act(s.ledger, s.held[i], Quiet, s.caps) == Effect(s.ledger, Some(next), None)
    ensures Next(s, Advance(i, Quiet)) == s.(held := s.held[i := next])
  {
    hide Act;
  }

  lemma LockIsFree(s: System, i: string, task: Task)
    requires i !in s.held && MayStart(s.ledger, i, task)
    ensures Next(s, Acquire(i, task)) == s.(held := s.held[i := task])
  {
    hide MayStart;
  }

  lemma ExitIsMeasured(s: System, intent: Intent)
    requires intent.authority == ProtectiveExit && FindKey(s.ledger.tables.orders, intent.key).None?
    requires intent.instrument !in s.held
    ensures
      var i := intent.instrument;
      After(s, MeasureMoves(intent)) ==
        s.(held := s.held[i := PlaceMeasured(intent, PositionOf(s.ledger.tables, i))])
  {
    hide After, FindKey, Act, PositionOf, Next;
    var i := intent.instrument;
    var measured := PlaceMeasured(intent, PositionOf(s.ledger.tables, i));
    ThreeMoves(s, Acquire(i, PlaceLocked(intent)), Advance(i, Quiet), Advance(i, Quiet));
    LockIsFree(s, i, PlaceLocked(intent));
    ExitIsRead(s.ledger, intent, s.caps);
    GoesOn(s.(held := s.held[i := PlaceLocked(intent)]), i, PlaceFresh(intent));
    assert s.held[i := PlaceLocked(intent)][i := PlaceFresh(intent)] == s.held[i := PlaceFresh(intent)];
    GoesOn(s.(held := s.held[i := PlaceFresh(intent)]), i, measured);
    assert s.held[i := PlaceFresh(intent)][i := measured] == s.held[i := measured];
  }

  lemma ExitIsRead(l: Durable, intent: Intent, caps: map<string, real>)
    requires intent.authority == ProtectiveExit && FindKey(l.tables.orders, intent.key).None?
    ensures Act(l, PlaceLocked(intent), Quiet, caps) == Effect(l, Some(PlaceFresh(intent)), None)
    ensures
      var measured := PlaceMeasured(intent, PositionOf(l.tables, intent.instrument));
      Act(l, PlaceFresh(intent), Quiet, caps) == Effect(l, Some(measured), None)
  {
    hide OpenExitRemaining, FindKey, PositionOf;
  }

  /** The guard allows all of it, whatever the position has become since. */
  lemma ExitIsGuarded(s: System, intent: Intent, position: real)
    requires intent.instrument in s.held && s.held[intent.instrument] == PlaceMeasured(intent, position)
    requires intent.qty <= Abs(position) - OpenExitRemaining(s.ledger.tables.orders, intent.instrument)
    ensures After(s, GuardMoves(intent.instrument)) == s.(held := s.held[intent.instrument := PlaceGuarded(intent)])
  {
    hide OpenExitRemaining, After, Next;
    var i := intent.instrument;
    OneMove(s, Advance(i, Quiet));
    GoesOn(s, i, PlaceGuarded(intent));
  }

  lemma SubmitSteps(l: Durable, intent: Intent, answer: SubmitAnswer, caps: map<string, real>)
    requires FindKey(l.tables.orders, intent.key).None?
    ensures
      var (l0, row) := CreateOrder(l, intent);
      var (l1, started) := ApplyEvent(l0, row, SubmissionStarted);
      && started.Updated?
      && Act(l, PlaceGuarded(intent), Quiet, caps) == Effect(l0, Some(PlaceRecorded(intent, row)), None)
      && Act(l0, PlaceRecorded(intent, row), Quiet, caps) == Effect(l1, Some(PlaceStarted(intent, started.row)), None)
      && Act(l1, PlaceStarted(intent, started.row), Answer(answer), caps) ==
           Effect(l1, Some(PlaceAnswered(intent, started.row, AnswerEvent(answer))), Some(Submission(started.row, l1)))
      && Act(l1, PlaceAnswered(intent, started.row, AnswerEvent(answer)), Quiet, caps) ==
           Effect(ApplyEvent(l1, started.row, AnswerEvent(answer)).0, None, None)
  {
    NewOrderIsSubmitted(l, intent, answer);
    hide ApplyEvent, CreateOrder, FindKey;
  }

  lemma StepIs(s: System, i: string, choice: Choice)
    requires i in s.held
    ensures
      var e, s' := Act(s.ledger, s.held[i], choice, s.caps), Next(s, Advance(i, choice));
      && s'.ledger == e.ledger && s'.caps == s.caps
      && s'.held == if e.task.Some? then s.held[i := e.task.value] else s.held - {i}
  {
    hide Act;
  }

  /** What the guard allowed becomes an order with the broker's answer, and the lock is free. */
  lemma ExitIsSubmitted(s: System, intent: Intent, answer: SubmitAnswer)
    requires intent.instrument in s.held && s.held[intent.instrument] == PlaceGuarded(intent)
    requires FindKey(s.ledger.tables.orders, intent.key).None?
    ensures
      var s' := After(s, SubmitMoves(intent.instrument, answer));
      && s'.held == s.held - {intent.instrument}
      && exists row :: IsPlaced(s.ledger.tables, s'.ledger.tables, intent, answer, row)
  {
    hide After, FindKey, Act, Next, ApplyEvent, CreateOrder;
    var i := intent.instrument;
    FourMoves(s, Advance(i, Quiet), Advance(i, Quiet), Advance(i, Answer(answer)), Advance(i, Quiet));
    SubmitSteps(s.ledger, intent, answer, s.caps);
    NewOrderIsSubmitted(s.ledger, intent, answer);
    var s1 := Next(s, Advance(i, Quiet));
    var s2 := Next(s1, Advance(i, Quiet));
    var s3 := Next(s2, Advance(i, Answer(answer)));
    StepIs(s, i, Quiet);
    StepIs(s1, i, Quiet);
    StepIs(s2, i, Answer(answer));
    StepIs(s3, i, Quiet);
    var (l0, row) := CreateOrder(s.ledger, intent);
    var (l1, started) := ApplyEvent(l0, row, SubmissionStarted);
    var answered := ApplyEvent(l1, started.row, AnswerEvent(answer)).1.row;
    assert IsPlaced(s.ledger.tables, Next(s3, Advance(i, Quiet)).ledger.tables, intent, answer, answered);
  }

  /** An exit that fits is placed whole. */
  lemma ExitIsPlaced(s: System, intent: Intent, answer: SubmitAnswer)
    requires intent.authority == ProtectiveExit && FindKey(s.ledger.tables.orders, intent.key).None?
    requires intent.instrument !in s.held && intent.qty <= Slack(s.ledger.tables, intent.instrument)
    ensures
      var s' := After(s, PlaceMoves(intent, answer));
      s'.held == s.held && exists row :: IsPlaced(s.ledger.tables, s'.ledger.tables, intent, answer, row)
  {
    hide After, FindKey, OpenExitRemaining, Act, PositionOf, Next, MeasureMoves, GuardMoves, SubmitMoves, IsPlaced;
    var i := intent.instrument;
    AfterBoth(s, MeasureMoves(intent) + GuardMoves(i), SubmitMoves(i, answer));
    AfterBoth(s, MeasureMoves(intent), GuardMoves(i));
    ExitIsMeasured(s, intent);
    ExitIsGuarded(After(s, MeasureMoves(intent)), intent, PositionOf(s.ledger.tables, i));
    ExitIsSubmitted(After(After(s, MeasureMoves(intent)), GuardMoves(i)), intent, answer);
    var measured := PlaceMeasured(intent, PositionOf(s.ledger.tables, i));
    assert s.held[i := measured][i := PlaceGuarded(intent)] - {i} == s.held;
  }

  // ---------------------------------------------------------------- reports from the broker

  function ReportMoves(key: string, i: string, fill: BrokerFill): seq<Move> {
    [Acquire(i, FillLocked(key, fill)), Advance(i, Quiet), Advance(i, Quiet)]
  }

  /** The row a key finds, as it is stored. */
  predicate Stored(t: Tables, row: OrderRow, i: string) {
    && row.core.orderId < |t.orders| && t.orders[row.core.orderId] == row
    && FindKey(t.orders, row.core.key) == Some(row.core.orderId) && row.core.instrument == i
  }

  lemma ReportIsRead(s: System, row: OrderRow, i: string, fill: BrokerFill)
    requires i !in s.held && Stored(s.ledger.tables, row, i)
    ensures
      var s1 := Next(s, Acquire(i, FillLocked(row.core.key, fill)));
      Next(s1, Advance(i, Quiet)) == s.(held := s.held[i := FillLoaded(row, fill)])
  {
    hide FindKey, Next, Act;
    LockIsFree(s, i, FillLocked(row.core.key, fill));
    var s1 := s.(held := s.held[i := FillLocked(row.core.key, fill)]);
    RowIsLoaded(s.ledger, row, i, fill, s.caps);
    GoesOn(s1, i, FillLoaded(row, fill));
    assert s1.held[i := FillLoaded(row, fill)] == s.held[i := FillLoaded(row, fill)];
  }

  lemma RowIsLoaded(l: Durable, row: OrderRow, i: string, fill: BrokerFill, caps: map<string, real>)
    requires Stored(l.tables, row, i)
    ensures Act(l, FillLocked(row.core.key, fill), Quiet, caps) == Effect(l, Some(FillLoaded(row, fill)), None)
  {
    hide FindKey;
  }

  /** An execution of a working exit, larger than the exit. */
  lemma OverMatchIsBooked(s: System, row: OrderRow, i: string, fill: BrokerFill)
    requires i !in s.held && Stored(s.ledger.tables, row, i) && row.side == Sell && row.core.state == Working
    requires row.core.filled == 0.0 < row.core.qty <= fill.qty <= OVERFILL_GROSS * row.core.qty
    requires !HasExec(s.ledger.tables.fills, fill.execId)
    ensures
      var t, t' := s.ledger.tables, After(s, ReportMoves(row.core.key, i, fill)).ledger.tables;
      && PositionOf(t', i) == PositionOf(t, i) - fill.qty
      && OpenExitRemaining(t'.orders, i) == OpenExitRemaining(t.orders, i) - ExitRemaining(row, i)
  {
    hide Next, After, FindKey, HasExec, OpenExitRemaining, Act;
    ThreeMoves(s, Acquire(i, FillLocked(row.core.key, fill)), Advance(i, Quiet), Advance(i, Quiet));
    ReportIsRead(s, row, i, fill);
    StepIs(s.(held := s.held[i := FillLoaded(row, fill)]), i, Quiet);
    OverMatchApplies(s.ledger, row, i, fill, s.caps);
    var l' := Act(s.ledger, FillLoaded(row, fill), Quiet, s.caps).ledger;
    SumAfterUpdate(s.ledger.tables.orders, row.core.orderId, l'.tables.orders[row.core.orderId], i);
  }

  lemma OverMatchApplies(l: Durable, row: OrderRow, i: string, fill: BrokerFill, caps: map<string, real>)
    requires Stored(l.tables, row, i) && row.side == Sell && row.core.state == Working
    requires row.core.filled == 0.0 < row.core.qty <= fill.qty <= OVERFILL_GROSS * row.core.qty
    requires !HasExec(l.tables.fills, fill.execId)
    ensures
      var t, t' := l.tables, Act(l, FillLoaded(row, fill), Quiet, caps).ledger.tables;
      && |t'.orders| == |t.orders|
      && t'.orders == t.orders[row.core.orderId := t'.orders[row.core.orderId]]
      && t'.orders[row.core.orderId].core.state == State.Filled
      && PositionOf(t', i) == PositionOf(t, i) - fill.qty
  {
    hide FindKey, HasExec;
  }

  /** A report for a rejected exit, which opens it again. */
  lemma RejectionIsReopened(s: System, row: OrderRow, i: string, fill: BrokerFill)
    requires i !in s.held && Stored(s.ledger.tables, row, i) && row.core.state == Rejected
    ensures
      var t, t' := s.ledger.tables, After(s, ReportMoves(row.core.key, i, fill) + GuardMoves(i)).ledger.tables;
      && t'.positions == t.positions
      && OpenExitRemaining(t'.orders, i) ==
           OpenExitRemaining(t.orders, i)
           + if row.authority == ProtectiveExit then row.core.qty - row.core.filled else 0.0
  {
    hide Next, After, FindKey, HasExec, OpenExitRemaining, Act;
    AfterBoth(s, ReportMoves(row.core.key, i, fill), GuardMoves(i));
    ThreeMoves(s, Acquire(i, FillLocked(row.core.key, fill)), Advance(i, Quiet), Advance(i, Quiet));
    ReportIsRead(s, row, i, fill);
    var s2 := s.(held := s.held[i := FillLoaded(row, fill)]);
    var cause := "late fill " + fill.execId;
    ReopeningApplies(s.ledger, row, i, fill, s.caps);
    GoesOn(s2, i, LateEvidence(row, cause));
    var s3 := s2.(held := s2.held[i := LateEvidence(row, cause)]);
    OneMove(s3, Advance(i, Quiet));
    StepIs(s3, i, Quiet);
    var l' := Act(s.ledger, LateEvidence(row, cause), Quiet, s.caps).ledger;
    SumAfterUpdate(s.ledger.tables.orders, row.core.orderId, l'.tables.orders[row.core.orderId], i);
  }

  lemma ReopeningApplies(l: Durable, row: OrderRow, i: string, fill: BrokerFill, caps: map<string, real>)
    requires Stored(l.tables, row, i) && row.core.state == Rejected
    ensures
      var cause := "late fill " + fill.execId;
      var t, t' := l.tables, Act(l, LateEvidence(row, cause), Quiet, caps).ledger.tables;
      && Act(l, FillLoaded(row, fill), Quiet, caps) == Effect(l, Some(LateEvidence(row, cause)), None)
      && |t'.orders| == |t.orders| && t'.positions == t.positions
      && t'.orders == t.orders[row.core.orderId := t'.orders[row.core.orderId]]
      && var o := t'.orders[row.core.orderId];
         o.core == row.core.(state := Reconciling) && o.authority == row.authority
  {
    hide FindKey, HasExec;
  }

  // ---------------------------------------------------------------- the runs

  const BTC := "BTC"

  function Long(): seq<Move> {
    ImportMoves(0, "RECON-1", BTC, 1.0)
  }

  /** A position of one, and nothing else. */
  lemma LongIsHeld(caps: map<string, real>)
    ensures
      var s := Execute(caps, Long());
      && s.held == map[] && PositionOf(s.ledger.tables, BTC) == 1.0
      && OpenExitRemaining(s.ledger.tables.orders, BTC) == 0.0
      && |s.ledger.tables.orders| == 1 && s.ledger.tables.orders[0].core.key == "RECON-1"
      && |s.ledger.tables.fills| == 1 && s.ledger.tables.fills[0].execId == "X-" + "RECON-1"
  {
    hide Execute, OpenExitRemaining, After, ImportMoves, FindKey, HasExec;
    NothingYet(caps);
    ImportMovesPosition(Start(caps), "RECON-1", BTC, 1.0);
    ExecuteOn(caps, [], Long());
    assert [] + Long() == Long();
  }

  lemma NothingYet(caps: map<string, real>)
    ensures Execute(caps, []) == Start(caps)
    ensures OpenExitRemaining([], BTC) == 0.0
    ensures forall key: string :: FindKey([], key).None? && !HasExec([], key)
  {
  }

  /** Which keys three orders and one fill leave unused. */
  lemma {:induction false} KeysAre(t: Tables, key: string)
    ensures (forall i | 0 <= i < |t.orders| :: t.orders[i].core.key != key) ==> FindKey(t.orders, key).None?
    ensures (forall i | 0 <= i < |t.fills| :: t.fills[i].execId != "X-" + key) ==> !HasExec(t.fills, "X-" + key)
  {
  }

  lemma {:induction false} KeyIsFound(orders: seq<OrderRow>, id: nat)
    requires id < |orders| && forall k | id < k < |orders| :: orders[k].core.key != orders[id].core.key
    ensures FindKey(orders, orders[id].core.key) == Some(id)
  {
    if id < |orders| - 1 {
      assert orders[..|orders| - 1][id] == orders[id];
      KeyIsFound(orders[..|orders| - 1], id);
    }
  }

  lemma OtherImport()
    ensures "X-" + "RECON-1" != "X-" + "RECON-2" && "RECON-1" != "RECON-2"
  {
    assert ("X-" + "RECON-1")[8] == '1' && ("X-" + "RECON-2")[8] == '2';
  }

  function ImportRun(): seq<Move> {
    Long() + PlaceMoves(ExitIntent("K", BTC, 1.0), Accepted("V")) + ImportMoves(2, "RECON-2", BTC, -1.0)
  }

  /** An import closes the position under the exit that covers it. */
  lemma ImportUncovers(caps: map<string, real>)
    ensures
      var t := Execute(caps, ImportRun()).ledger.tables;
      OpenExitRemaining(t.orders, BTC) == 1.0 && PositionOf(t, BTC) == 0.0
  {
    hide Execute, OpenExitRemaining, After, ImportMoves, PlaceMoves, FindKey, HasExec, Long;
    var intent, flat := ExitIntent("K", BTC, 1.0), ImportMoves(2, "RECON-2", BTC, -1.0);
    var place := PlaceMoves(intent, Accepted("V"));
    LongIsHeld(caps);
    var s1 := Execute(caps, Long());
    KeysAre(s1.ledger.tables, "K");
    ExitIsPlaced(s1, intent, Accepted("V"));
    ExecuteOn(caps, Long(), place);
    var s2 := Execute(caps, Long() + place);
    var row :| IsPlaced(s1.ledger.tables, s2.ledger.tables, intent, Accepted("V"), row);
    SumAfterAppend(s1.ledger.tables.orders, row, BTC);
    OtherImport();
    KeysAre(s2.ledger.tables, "RECON-2");
    ImportMovesPosition(s2, "RECON-2", BTC, -1.0);
    ExecuteOn(caps, Long() + place, flat);
  }

  function OutrunRun(): seq<Move> {
    var intent := ExitIntent("K", BTC, 1.0);
    Long() + MeasureMoves(intent) + ImportMoves(1, "RECON-2", BTC, -1.0)
    + (GuardMoves(BTC) + SubmitMoves(BTC, Accepted("V")))
  }

  /** The position measured, and gone. */
  lemma MeasuredIsGone(caps: map<string, real>, intent: Intent)
    requires intent == ExitIntent("K", BTC, 1.0)
    ensures
      var s := Execute(caps, Long() + MeasureMoves(intent) + ImportMoves(1, "RECON-2", BTC, -1.0));
      && s.held == map[BTC := PlaceMeasured(intent, 1.0)] && PositionOf(s.ledger.tables, BTC) == 0.0
      && OpenExitRemaining(s.ledger.tables.orders, BTC) == 0.0 && FindKey(s.ledger.tables.orders, "K").None?
  {
    hide Execute, OpenExitRemaining, After, ImportMoves, MeasureMoves, FindKey, HasExec, Long;
    LongIsHeld(caps);
    var s1 := Execute(caps, Long());
    KeysAre(s1.ledger.tables, "K");
    ExitIsMeasured(s1, intent);
    ExecuteOn(caps, Long(), MeasureMoves(intent));
    var s2 := Execute(caps, Long() + MeasureMoves(intent));
    OtherImport();
    KeysAre(s2.ledger.tables, "RECON-2");
    ImportMovesPosition(s2, "RECON-2", BTC, -1.0);
    ExecuteOn(caps, Long() + MeasureMoves(intent), ImportMoves(1, "RECON-2", BTC, -1.0));
    var s3 := Execute(caps, Long() + MeasureMoves(intent) + ImportMoves(1, "RECON-2", BTC, -1.0));
    assert s3.ledger.tables.orders[0] == s3.ledger.tables.orders[..1][0];
    KeysAre(s3.ledger.tables, "K");
  }

  /** An import closes a position that has been measured and not yet claimed: it
      takes no more than the slack, but what the guard had counted on. */
  lemma ImportOutruns(caps: map<string, real>)
    ensures
      var t := Execute(caps, OutrunRun()).ledger.tables;
      OpenExitRemaining(t.orders, BTC) == 1.0 && PositionOf(t, BTC) == 0.0
  {
    hide Execute, OpenExitRemaining, After, ImportMoves, MeasureMoves, GuardMoves, SubmitMoves, FindKey, Long;
    var intent, answer := ExitIntent("K", BTC, 1.0), Accepted("V");
    MeasuredIsGone(caps, intent);
    var gone := Long() + MeasureMoves(intent) + ImportMoves(1, "RECON-2", BTC, -1.0);
    var s := Execute(caps, gone);
    ExitIsGuarded(s, intent, 1.0);
    ExitIsSubmitted(After(s, GuardMoves(BTC)), intent, answer);
    AfterBoth(s, GuardMoves(BTC), SubmitMoves(BTC, answer));
    ExecuteOn(caps, gone, GuardMoves(BTC) + SubmitMoves(BTC, answer));
    var s' := Execute(caps, OutrunRun());
    assert s' == After(After(s, GuardMoves(BTC)), SubmitMoves(BTC, answer));
    var row :| IsPlaced(s.ledger.tables, s'.ledger.tables, intent, answer, row);
    SumAfterAppend(s.ledger.tables.orders, row, BTC);
  }

  lemma ExitAdded(caps: map<string, real>, before: seq<Move>, intent: Intent, answer: SubmitAnswer)
    returns (row: OrderRow, s': System)
    requires intent.authority == ProtectiveExit && intent.instrument == BTC
    requires
      var s := Execute(caps, before);
      && BTC !in s.held && intent.qty <= Slack(s.ledger.tables, BTC)
      && forall i | 0 <= i < |s.ledger.tables.orders| :: s.ledger.tables.orders[i].core.key != intent.key
    ensures s' == Execute(caps, before + PlaceMoves(intent, answer)) && s'.held == Execute(caps, before).held
    ensures IsPlaced(Execute(caps, before).ledger.tables, s'.ledger.tables, intent, answer, row)
    ensures PositionOf(s'.ledger.tables, BTC) == PositionOf(Execute(caps, before).ledger.tables, BTC)
    ensures OpenExitRemaining(s'.ledger.tables.orders, BTC) ==
              OpenExitRemaining(Execute(caps, before).ledger.tables.orders, BTC)
              + if answer.Declined? then 0.0 else intent.qty
  {
    hide Execute, OpenExitRemaining, After, PlaceMoves, FindKey;
    var s := Execute(caps, before);
    KeysAre(s.ledger.tables, intent.key);
    ExitIsPlaced(s, intent, answer);
    ExecuteOn(caps, before, PlaceMoves(intent, answer));
    s' := Execute(caps, before + PlaceMoves(intent, answer));
    row :| IsPlaced(s.ledger.tables, s'.ledger.tables, intent, answer, row);
    SumAfterAppend(s.ledger.tables.orders, row, BTC);
  }

  /** Two exits, the second placed after the first was answered. */
  lemma TwoExits(caps: map<string, real>, a: Intent, b: Intent, answer: SubmitAnswer)
    returns (first: OrderRow, s: System)
    requires a.key == "A" && b.key == "B" && a.instrument == b.instrument == BTC && !answer.TimedOut?
    requires a.authority == b.authority == ProtectiveExit && a.qty <= 1.0
    requires b.qty <= if answer.Declined? then 1.0 else 1.0 - a.qty
    ensures s == Execute(caps, Long() + PlaceMoves(a, answer) + PlaceMoves(b, Accepted("V")))
    ensures s.held == map[] && PositionOf(s.ledger.tables, BTC) == 1.0
    ensures OpenExitRemaining(s.ledger.tables.orders, BTC) == b.qty + if answer.Declined? then 0.0 else a.qty
    ensures Stored(s.ledger.tables, first, BTC)
    ensures first.core.key == "A" && first.side == a.side && first.authority == ProtectiveExit
    ensures first.core.qty == a.qty && first.core.filled == 0.0
    ensures first.core.state == if answer.Declined? then Rejected else Working
    ensures !HasExec(s.ledger.tables.fills, "E")
  {
    hide Execute, OpenExitRemaining, After, PlaceMoves, FindKey, Long, PositionOf;
    LongIsHeld(caps);
    var s1;
    first, s1 := ExitAdded(caps, Long(), a, answer);
    var second;
    second, s := ExitAdded(caps, Long() + PlaceMoves(a, answer), b, Accepted("V"));
    assert s.ledger.tables.orders[1] == first;
    KeyIsFound(s.ledger.tables.orders, 1);
  }

  function OverMatchRun(): seq<Move> {
    Long() + PlaceMoves(ExitIntent("A", BTC, 0.5), Accepted("V")) + PlaceMoves(ExitIntent("B", BTC, 0.5), Accepted("V"))
    + ReportMoves("A", BTC, BrokerFill("E", 1.0, 1.0))
  }

  /** One of two exits is filled to twice its size, and closes the position under the other. */
  lemma OverMatchReached(caps: map<string, real>)
    ensures
      var t := Execute(caps, OverMatchRun()).ledger.tables;
      OpenExitRemaining(t.orders, BTC) == 0.5 && PositionOf(t, BTC) == 0.0
  {
    hide Execute, OpenExitRemaining, After, PlaceMoves, ReportMoves, FindKey, Long, HasExec;
    var a, b := ExitIntent("A", BTC, 0.5), ExitIntent("B", BTC, 0.5);
    var first, s := TwoExits(caps, a, b, Accepted("V"));
    var fill := BrokerFill("E", 1.0, 1.0);
    OverMatchIsBooked(s, first, BTC, fill);
    ExecuteOn(caps, Long() + PlaceMoves(a, Accepted("V")) + PlaceMoves(b, Accepted("V")), ReportMoves("A", BTC, fill));
  }

  function ReopeningRun(): seq<Move> {
    Long() + PlaceMoves(ExitIntent("A", BTC, 1.0), Declined("")) + PlaceMoves(ExitIntent("B", BTC, 1.0), Accepted("V"))
    + (ReportMoves("A", BTC, BrokerFill("E", 1.0, 1.0)) + GuardMoves(BTC))
  }

  /** A rejected exit is replaced, and then reported filled: both claim the position. */
  lemma ReopeningReached(caps: map<string, real>)
    ensures
      var t := Execute(caps, ReopeningRun()).ledger.tables;
      OpenExitRemaining(t.orders, BTC) == 2.0 && PositionOf(t, BTC) == 1.0
  {
    hide Execute, OpenExitRemaining, After, PlaceMoves, ReportMoves, GuardMoves, FindKey, Long, HasExec;
    var a, b := ExitIntent("A", BTC, 1.0), ExitIntent("B", BTC, 1.0);
    var first, s := TwoExits(caps, a, b, Declined(""));
    var fill := BrokerFill("E", 1.0, 1.0);
    RejectionIsReopened(s, first, BTC, fill);
    ExecuteOn(caps, Long() + PlaceMoves(a, Declined("")) + PlaceMoves(b, Accepted("V")),
              ReportMoves("A", BTC, fill) + GuardMoves(BTC));
  }
}
