/** The protective-exit supervisor: bring every position to full exit coverage
    from the durable state alone, so that running it again places nothing. */
module Protection {
  import opened Common
  import opened Lifecycle
  import opened Ledger
  import opened Accounting
  import opened LedgerHistory
  import opened LedgerStores
  import opened Guards
  import opened Protocol
  import opened ProtocolSafety
  import opened Engine
  import opened Exits

  function ExitFor(instrument: string, position: real, uncovered: real, key: string): Intent
    requires 0.0 < uncovered && key != ""
  {
    RawIntent(key, instrument, if position > 0.0 then Sell else Buy, uncovered, ProtectiveExit, None)
  }

  /** Each pass draws fresh keys: no two alike, none already in the ledger. */
  ghost predicate FreshKeys(orders: seq<OrderRow>, names: set<string>, key: string -> string) {
    && (forall i <- names :: key(i) != "" && forall k | 0 <= k < |orders| :: orders[k].core.key != key(i))
    && (forall i, j | i in names && j in names && key(i) == key(j) :: i == j)
  }

  /** What the pass has done to the claims on each instrument: those in `seen`
      that had slack have been given an order for exactly that much, which is
      live unless the broker declined it; nothing else has moved. */
  ghost predicate Covers(t: Tables, t': Tables, seen: set<string>, answer: string -> SubmitAnswer) {
    && t'.positions == t.positions && t'.fills == t.fills
    && forall i: string ::
         OpenExitRemaining(t'.orders, i) ==
           if i in seen && 0.0 < Slack(t, i) && !answer(i).Declined? then Abs(PositionOf(t, i))
           else OpenExitRemaining(t.orders, i)
  }

  /** An exit for exactly the slack is placed whole, as one new order. */
  lemma ExitIsPlaced(l: Durable, i: string, key: string, answer: SubmitAnswer, caps: map<string, real>)
    requires key != "" && FindKey(l.tables.orders, key).None? && 0.0 < Slack(l.tables, i)
    ensures
      var intent := ExitFor(i, PositionOf(l.tables, i), Slack(l.tables, i), key);
      var t, t' := l.tables, Finish(l, PlaceLocked(intent), Answer(answer), caps).tables;
      && GuardedQty(t, intent, if i in caps then Some(caps[i]) else None) == Some(intent.qty)
      && |t'.orders| == |t.orders| + 1 && IsPlaced(t, t', intent, answer, t'.orders[|t.orders|])
      && forall j: string ::
           OpenExitRemaining(t'.orders, j) ==
             OpenExitRemaining(t.orders, j) + if j == i && !answer.Declined? then Slack(t, i) else 0.0
  {
    var intent := ExitFor(i, PositionOf(l.tables, i), Slack(l.tables, i), key);
    FinishGuards(l, intent, Answer(answer), caps);
    FinishPlace(l, intent, answer, caps);
    NewOrderIsSubmitted(l, intent, answer);
    var (l0, row) := CreateOrder(l, intent);
    var (l1, started) := ApplyEvent(l0, row, SubmissionStarted);
    var answered := ApplyEvent(l1, started.row, AnswerEvent(answer)).1.row;
    hide Finish, ApplyEvent, CreateOrder, OpenExitRemaining, PositionOf, FindKey;
    forall j: string
      ensures OpenExitRemaining(l.tables.orders + [answered], j) ==
                OpenExitRemaining(l.tables.orders, j) + if j == i && !answer.Declined? then intent.qty else 0.0
    {
      SumAfterAppend(l.tables.orders, answered, j);
    }
  }

  /** Filled whole, the order takes exactly its quantity off the position: it is
      on the closing side and no larger than what is held. */
  predicate Closes(t: Tables, row: OrderRow) {
    var position := PositionOf(t, row.core.instrument);
    Abs(position + SignedQty(row.side, row.core.qty)) == Abs(position) - row.core.qty
  }

  /** An order the pass adds: an exit for exactly what was uncovered, on the
      closing side, as the broker answered it. */
  ghost predicate IsExitFor(t: Tables, row: OrderRow, answer: string -> SubmitAnswer) {
    var i := row.core.instrument;
    && row.authority == ProtectiveExit && row.limitPrice == None && row.core.filled == 0.0
    && 0.0 < row.core.qty == Slack(t, i) && Closes(t, row)
    && (row.core.state == Rejected <==> answer(i).Declined?) && (row.core.state == Working <==> answer(i).Accepted?)
    && (row.core.state == Unknown <==> answer(i).TimedOut?)
  }

  /** The pass adds exits and nothing else, at most one to an instrument. */
  ghost predicate Adds(t: Tables, t': Tables, seen: set<string>, answer: string -> SubmitAnswer) {
    && t.orders <= t'.orders
    && (forall k | |t.orders| <= k < |t'.orders| ::
          t'.orders[k].core.instrument in seen && IsExitFor(t, t'.orders[k], answer))
    && (forall k, m | |t.orders| <= k < m < |t'.orders| :: t'.orders[k].core.instrument != t'.orders[m].core.instrument)
  }

  lemma ExitCloses(t: Tables, i: string, key: string, answer: SubmitAnswer, row: OrderRow, t0: Tables, t1: Tables)
    requires key != "" && 0.0 < Slack(t, i) && SoundRows(t.orders)
    requires IsPlaced(t0, t1, ExitFor(i, PositionOf(t, i), Slack(t, i), key), answer, row)
    ensures row.core.instrument == i && Closes(t, row)
  {
    hide OpenExitRemaining, PositionOf;
    ClaimsAreNonNegative(t.orders, i);
  }

  lemma AddsOne(t: Tables, t0: Tables, t1: Tables, seen: set<string>, i: string, key: string, row: OrderRow,
                answer: string -> SubmitAnswer)
    requires Adds(t, t0, seen, answer) && i !in seen && key != "" && 0.0 < Slack(t, i) && SoundRows(t.orders)
    requires IsPlaced(t0, t1, ExitFor(i, PositionOf(t, i), Slack(t, i), key), answer(i), row)
    ensures Adds(t, t1, seen + {i}, answer)
  {
    ExitCloses(t, i, key, answer(i), row, t0, t1);
    hide PositionOf, OpenExitRemaining, Slack, Closes;
    assert IsExitFor(t, row, answer);
  }

  lemma AddsNone(t: Tables, t': Tables, seen: set<string>, i: string, answer: string -> SubmitAnswer)
    requires Adds(t, t', seen, answer)
    ensures Adds(t, t', seen + {i}, answer)
  {
    hide IsExitFor;
  }

  function Held(t: Tables): set<string> {
    set i | i in t.positions && t.positions[i].qty != 0.0
  }

  ghost predicate Uncovered(t: Tables, i: string) {
    i in Held(t) && 0.0 < Slack(t, i)
  }

  predicate OneMore(orders: seq<OrderRow>, orders': seq<OrderRow>, key: string) {
    && |orders'| == |orders| + 1 && orders'[..|orders|] == orders
    && orders'[|orders|].core.key == key
  }

  /** Placing the exit one more instrument lacks. */
  lemma CoversMore(l: Durable, t: Tables, seen: set<string>, i: string, key: string, answer: string -> SubmitAnswer,
                   caps: map<string, real>)
    requires Covers(t, l.tables, seen, answer) && i !in seen && 0.0 < Slack(t, i)
    requires key != "" && FindKey(l.tables.orders, key).None?
    ensures
      var intent := ExitFor(i, PositionOf(t, i), Slack(t, i), key);
      var t' := Finish(l, PlaceLocked(intent), Answer(answer(i)), caps).tables;
      && Covers(t, t', seen + {i}, answer)
      && GuardedQty(l.tables, intent, if i in caps then Some(caps[i]) else None).Some?
      && OneMore(l.tables.orders, t'.orders, key)
      && IsPlaced(l.tables, t', intent, answer(i), t'.orders[|l.tables.orders|])
  {
    assert PositionOf(l.tables, i) == PositionOf(t, i);
    ExitIsPlaced(l, i, key, answer(i), caps);
    hide Finish, GuardedQty, OpenExitRemaining, FindKey, PositionOf;
  }

  lemma FreshStays(orders: seq<OrderRow>, orders': seq<OrderRow>, left: set<string>, i: string, key: string -> string)
    requires FreshKeys(orders, left, key) && i in left && OneMore(orders, orders', key(i))
    ensures FreshKeys(orders', left - {i}, key)
  {
    forall j, k | j in left - {i} && 0 <= k < |orders'| ensures orders'[k].core.key != key(j) {
      if k < |orders| { assert orders'[k] == orders[k]; }
    }
  }

  lemma FreshIsUnknown(l: Durable, left: set<string>, i: string, key: string -> string)
    requires FreshKeys(l.tables.orders, left, key) && i in left
    ensures key(i) != "" && FindKey(l.tables.orders, key(i)).None? && Load(l, key(i)).None?
  {
  }

  lemma PositionsStand(t: Tables, t': Tables, seen: set<string>, i: string, answer: string -> SubmitAnswer)
    requires Covers(t, t', seen, answer) && i !in seen
    ensures PositionOf(t', i) == PositionOf(t, i) && Slack(t', i) == Slack(t, i)
  {
  }

  class ProtectiveExitSupervisor {
    const engine: OrderEngine

    constructor (engine: OrderEngine)
      ensures this.engine == engine
    {
      this.engine := engine;
    }

    /** One pass.  `key` and `answer` are the fresh key drawn for each instrument
        and what the broker says to its exit. */
    method EnsureProtection(key: string -> string, answer: string -> SubmitAnswer)
      returns (placed: seq<string>, alreadyCovered: seq<string>)
      requires Good(engine.store.State())
      requires FreshKeys(engine.store.orders, Held(engine.store.State().tables), key)
      modifies engine, engine.store
      ensures Good(engine.store.State()) && Evolves(old(engine.store.State()), engine.store.State())
      ensures Covers(old(engine.store.State().tables), engine.store.State().tables,
          Held(old(engine.store.State().tables)), answer)
      ensures Adds(old(engine.store.State().tables), engine.store.State().tables,
                   Held(old(engine.store.State().tables)), answer)
      ensures forall i :: i in placed <==> Uncovered(old(engine.store.State().tables), i)
      ensures forall i :: i in alreadyCovered <==>
                            i in Held(old(engine.store.State().tables))
                                && Slack(old(engine.store.State().tables), i) <= 0.0
      ensures placed == [] ==> engine.store.State() == old(engine.store.State())
    {
      hide Good, Evolves, Finish, GuardedQty, OpenExitRemaining, PositionOf, FindKey, Covers, FreshKeys, OneMore, Load,
           Adds, IsPlaced, Allows, Slack, SoundRows, ParkedWait;
      placed, alreadyCovered := [], [];
      var positions := LoadPositions();
      ghost var start := engine.store.State();
      var left := positions.Keys;
      EvolvesRefl(start);
      NothingCovered(start.tables, answer);
      RowsSound(start);
      assert positions.Keys - left == {};
      while left != {}
        invariant left <= positions.Keys
        invariant Good(engine.store.State()) && Evolves(start, engine.store.State())
        invariant Covers(start.tables, engine.store.State().tables, positions.Keys - left, answer)
        invariant Adds(start.tables, engine.store.State().tables, positions.Keys - left, answer)
        invariant FreshKeys(engine.store.orders, left, key)
        invariant forall i :: i in placed <==> i in positions.Keys - left && 0.0 < Slack(start.tables, i)
        invariant forall i :: i in alreadyCovered <==> i in positions.Keys - left && Slack(start.tables, i) <= 0.0
        invariant placed == [] ==> engine.store.State() == start
      {
        var i :| i in left;
        var position := positions[i];
        ghost var l, seen := engine.store.State(), positions.Keys - left;
        FreshIsUnknown(l, left, i, key);
        PositionsStand(start.tables, l.tables, seen, i, answer);
        var uncovered := Abs(position) - OpenExitRemaining(engine.store.orders, i);
        SlackIs(l.tables, i);
        if uncovered <= 0.0 {
          AlreadyCovered(start.tables, l.tables, seen, i, answer);
          AddsNone(start.tables, l.tables, seen, i, answer);
          FreshElsewhere(l.tables.orders, left, i, key);
          alreadyCovered := alreadyCovered + [i];
        } else {
          var intent := ExitFor(i, position, uncovered, key(i));
          ExitIsAllowed(l, start.tables, seen, i, key(i), answer, engine.caps);
          var outcome, _ := engine.Place(intent, answer(i));
          assert outcome.Placed?;
          placed := placed + [i];
          PassGoesOn(start, l, seen, left, i, key, answer, engine.caps);
        }
        left := left - {i};
        assert positions.Keys - left == seen + {i};
      }
      assert positions.Keys - left == positions.Keys;
    }

    /** All nonzero positions. */
    method LoadPositions() returns (positions: map<string, real>)
      ensures positions.Keys == Held(engine.store.State().tables)
      ensures forall i <- positions :: positions[i] == PositionOf(engine.store.State().tables, i)
    {
      var rows := engine.store.positions;
      positions := map i | i in rows && rows[i].qty != 0.0 :: rows[i].qty;
    }
  }

  lemma ExitIsAllowed(l: Durable, t: Tables, seen: set<string>, i: string, key: string, answer: string -> SubmitAnswer,
                      caps: map<string, real>)
    requires Covers(t, l.tables, seen, answer) && i !in seen && 0.0 < Slack(t, i)
    requires key != "" && FindKey(l.tables.orders, key).None?
    ensures GuardedQty(l.tables, ExitFor(i, PositionOf(t, i), Slack(t, i), key),
                       if i in caps then Some(caps[i]) else None).Some?
  {
    hide Finish, GuardedQty, OpenExitRemaining, FindKey, PositionOf, Covers, Slack;
    CoversMore(l, t, seen, i, key, answer, caps);
  }

  /** One exit further, the pass is as far along as the instruments it has seen. */
  lemma PassGoesOn(start: Durable, l: Durable, seen: set<string>, left: set<string>, i: string, key: string -> string,
                   answer: string -> SubmitAnswer, caps: map<string, real>)
    requires Good(l) && Evolves(start, l) && SoundRows(start.tables.orders) && i !in seen && i in left
    requires Covers(start.tables, l.tables, seen, answer) && Adds(start.tables, l.tables, seen, answer)
    requires FreshKeys(l.tables.orders, left, key) && 0.0 < Slack(start.tables, i) && key(i) != ""
    ensures
      var intent := ExitFor(i, PositionOf(start.tables, i), Slack(start.tables, i), key(i));
      var l' := Finish(l, PlaceLocked(intent), Answer(answer(i)), caps);
      && Good(l') && Evolves(start, l')
      && Covers(start.tables, l'.tables, seen + {i}, answer) && Adds(start.tables, l'.tables, seen + {i}, answer)
      && FreshKeys(l'.tables.orders, left - {i}, key)
  {
    hide Good, Evolves, Finish, GuardedQty, OpenExitRemaining, PositionOf, FindKey, Covers, FreshKeys, Adds, IsPlaced,
         Slack, SoundRows, Load;
    var intent := ExitFor(i, PositionOf(start.tables, i), Slack(start.tables, i), key(i));
    var l' := Finish(l, PlaceLocked(intent), Answer(answer(i)), caps);
    FreshIsUnknown(l, left, i, key);
    CoversMore(l, start.tables, seen, i, key(i), answer, caps);
    FinishGood(l, PlaceLocked(intent), Answer(answer(i)), caps);
    EvolvesTransitive(start, l, l');
    AddsOne(start.tables, l.tables, l'.tables, seen, i, key(i), l'.tables.orders[|l.tables.orders|], answer);
    FreshStays(l.tables.orders, l'.tables.orders, left, i, key);
  }

  lemma SlackIs(t: Tables, i: string)
    ensures Slack(t, i) == Abs(PositionOf(t, i)) - OpenExitRemaining(t.orders, i)
  {
  }

  lemma RowsSound(l: Durable)
    requires Good(l)
    ensures SoundRows(l.tables.orders)
  {
  }

  lemma NothingCovered(t: Tables, answer: string -> SubmitAnswer)
    ensures Covers(t, t, {}, answer) && Adds(t, t, {}, answer)
  {
  }

  lemma AlreadyCovered(t: Tables, t': Tables, seen: set<string>, i: string, answer: string -> SubmitAnswer)
    requires Covers(t, t', seen, answer) && Slack(t, i) <= 0.0
    ensures Covers(t, t', seen + {i}, answer)
  {
  }

  lemma FreshElsewhere(orders: seq<OrderRow>, left: set<string>, i: string, key: string -> string)
    requires FreshKeys(orders, left, key)
    ensures FreshKeys(orders, left - {i}, key)
  {
  }

  lemma {:induction false} ClaimsAreNonNegative(orders: seq<OrderRow>, i: string)
    requires SoundRows(orders)
    ensures 0.0 <= OpenExitRemaining(orders, i)
  {
    if orders != [] { ClaimsAreNonNegative(orders[..|orders| - 1], i); }
  }

  /** A pass whose exits the broker did not decline leaves no position short of
      cover and no claim beyond one that was not there before; where the claims
      fitted, they now equal the position.  Another pass finds nothing to place. */
  lemma PassCoversExactly(l: Durable, t': Tables, answer: string -> SubmitAnswer)
    requires Good(l) && SoundRows(t'.orders) && Covers(l.tables, t', Held(l.tables), answer)
    requires forall i <- Held(l.tables) :: !answer(i).Declined?
    ensures Held(t') == Held(l.tables)
    ensures forall i: string :: 0.0 <= Slack(l.tables, i) ==> OpenExitRemaining(t'.orders, i) == Abs(PositionOf(t', i))
    ensures forall i: string :: !Uncovered(t', i)
  {
    var t := l.tables;
    forall i: string ensures !Uncovered(t', i)
      ensures 0.0 <= Slack(t, i) ==> OpenExitRemaining(t'.orders, i) == Abs(PositionOf(t', i))
    {
      ClaimsAreNonNegative(t.orders, i);
      ClaimsAreNonNegative(t'.orders, i);
    }
  }
}
