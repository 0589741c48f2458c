/** The account's positions recomputed from outside the engine, by the simplest
    route: raw applied fills, added up. */
module Adversary {
  import opened Common
  import opened Fixed
  import opened Positions
  import opened Books

  datatype Intent = Intent(instrument: string, side: Side, qty: I64)

  /** What the outsider has read so far. */
  datatype Tally = Tally(
    intents: map<string, Intent>, seen: set<string>, sums: map<string, I64>,
    states: map<string, string>, filled: map<string, I64>)

  const UNREAD := Tally(map[], {}, map[], map[], map[])

  function SumIn(sums: map<string, I64>, instrument: string): I64 {
    if instrument in sums then sums[instrument] else 0
  }

  /** What an order has been filled, clamped by nothing. */
  function FilledIn(t: Tally, id: string): I64 {
    if id in t.filled then t.filled[id] else 0
  }

  /** One more raw fill, if its order is known. */
  function Added(t: Tally, id: string, execId: string, qty: I64): Tally {
    if execId in t.seen then t
    else if id !in t.intents then t.(seen := t.seen + {execId})
    else
      var intent := t.intents[id];
      var sum := Wrap(0 + SumIn(t.sums, intent.instrument) + Wrap(Signed(intent.side, qty)));
      t.(seen := t.seen + {execId},
         sums := t.sums[intent.instrument := sum],
         filled := t.filled[id := Wrap(0 + FilledIn(t, id) + qty)])
  }

  function Tallied(t: Tally, r: Record): Tally {
    match r
    case IntentPersisted(id, instrument, side, qty) =>
      if id in t.intents then t
      else t.(intents := t.intents[id := Intent(instrument, side, qty)], states := t.states[id := "CREATED"])
    case OrderEvent(id, to, applied, kind) =>
      var stated := t.(states := t.states[id := to]);
      (match kind
       case FillReceived(execId, qty, _) => if applied then Added(stated, id, execId, qty) else stated
       case ReconcileResolved(_, filledQty) => stated.(filled := stated.filled[id := filledQty])
       case _ => stated)
    case Elsewhere => t
  }

  function Folding(journal: seq<Record>): View {
    if journal == [] then NEW else Folded(Folding(journal[..|journal| - 1]), journal[|journal| - 1])
  }

  function Tallying(journal: seq<Record>): Tally {
    if journal == [] then UNREAD
    else Tallied(Tallying(journal[..|journal| - 1]), journal[|journal| - 1])
  }

  /** Every fill the book takes keeps its position within int64. */
  ghost predicate StaysBookable(journal: seq<Record>) {
    forall k | 0 <= k < |journal| :: Bookable(Folding(journal[..k]), journal[k])
  }

  /** Book and outsider know the same orders, and the book has taken no
      execution the outsider has not heard of. */
  ghost predicate Follows(v: View, t: Tally) {
    && v.execs <= t.seen && t.intents.Keys == v.orders.Keys
    && (forall id <- t.intents :: t.intents[id] == Intent(v.orders[id].instrument, v.orders[id].side, v.orders[id].qty))
  }

  ghost predicate SameSums(v: View, t: Tally) {
    forall i: string :: HoldingIn(v, i).qty == SumIn(t.sums, i)
  }

  /** A record the book takes a fill from is news to the outsider too, and the
      book counts it as int64 adds; or it is a fill of nothing. */
  predicate ReadsRight(v: View, t: Tally, r: Record) {
    var b := Booking(v, r);
    b.Some? ==>
      var (instrument, f) := b.value;
      if r.kind.execId in t.seen then f.qty == 0 else CountsRight(SumIn(t.sums, instrument), f.side, f.qty)
  }

  lemma FollowsOn(v: View, t: Tally, r: Record)
    requires Follows(v, t)
    ensures Follows(Folded(v, r), Tallied(t, r))
  {
    hide Folded, Tallied, OrderAfter, Booking, Reports;
    var v', t' := Folded(v, r), Tallied(t, r);
    forall id: string
      ensures id in t'.intents <==> id in v'.orders
      ensures id in t'.intents ==>
                t'.intents[id] == Intent(v'.orders[id].instrument, v'.orders[id].side, v'.orders[id].qty)
    {
      OrderIn(v, r, id);
      OneIntentRead(t, r, id);
      if r.OrderEvent? && id in v.orders { KeepsAuthorisation(v.orders[id], r, Booking(v, r).Some?); }
    }
    forall execId | execId in v'.execs ensures execId in t'.seen {
      OneReportTaken(v, r, execId);
      OneReportHeard(t, r, execId);
    }
  }

  lemma KeepsAuthorisation(o: BookedOrder, r: Record, books: bool)
    requires r.OrderEvent?
    ensures OrderAfter(o, r, books).instrument == o.instrument && OrderAfter(o, r, books).side == o.side
    ensures OrderAfter(o, r, books).qty == o.qty
  {
  }

  /** What a record adds to the outsider's sums. */
  lemma SumsMove(v: View, t: Tally, r: Record)
    requires Follows(v, t)
    ensures
      var b := Booking(v, r);
      Tallied(t, r).sums ==
        if b.Some? && r.kind.execId !in t.seen then
          var (instrument, f) := b.value;
          t.sums[instrument := Wrap(SumIn(t.sums, instrument) + Wrap(Signed(f.side, f.qty)))]
        else t.sums
  {
    hide Wrap, SumIn, Signed;
  }

  lemma HoldingMoves(v: View, r: Record, instrument: string)
    ensures
      var b := Booking(v, r);
      HoldingIn(Folded(v, r), instrument) ==
        if b.Some? && b.value.0 == instrument then Booked(HoldingIn(v, instrument), b.value.1)
        else HoldingIn(v, instrument)
  {
    hide Booked, OrderAfter;
  }

  lemma SumOf(sums: map<string, I64>, at: string, sum: I64, i: string)
    ensures SumIn(sums[at := sum], i) == if i == at then sum else SumIn(sums, i)
  {
  }

  /** From agreement, one more record keeps it if and only if it reads right. */
  lemma AgreesOn(v: View, t: Tally, r: Record)
    requires Follows(v, t) && SameSums(v, t)
    ensures SameSums(Folded(v, r), Tallied(t, r)) <==> ReadsRight(v, t, r)
  {
    hide Booked, Wrap, Folded, Tallied, Booking, HoldingIn, SumIn, CountsRight, Signed;
    var v', t' := Folded(v, r), Tallied(t, r);
    SumsMove(v, t, r);
    forall i: string
      ensures HoldingIn(v', i) ==
        if Booking(v, r).Some? && Booking(v, r).value.0 == i then Booked(HoldingIn(v, i), Booking(v, r).value.1)
        else HoldingIn(v, i)
    {
      HoldingMoves(v, r, i);
    }
    if Booking(v, r).Some? {
      var (instrument, f) := Booking(v, r).value;
      var sum: I64 := Wrap(SumIn(t.sums, instrument) + Wrap(Signed(f.side, f.qty)));
      assert HoldingIn(v, instrument).qty == SumIn(t.sums, instrument);
      BookingFits(v, r);
      BookedQty(HoldingIn(v, instrument), f);
      forall i: string
        ensures SumIn(t.sums[instrument := sum], i) == if i == instrument then sum else SumIn(t.sums, i)
      {
        SumOf(t.sums, instrument, sum, i);
      }
      AgreeThere(v, v', t, t', r, instrument);
    } else {
      assert forall i: string :: HoldingIn(v', i).qty == HoldingIn(v, i).qty;
    }
  }

  lemma AgreeThere(v: View, v': View, t: Tally, t': Tally, r: Record, instrument: string)
    requires SameSums(v, t)
    requires forall i: string | i != instrument ::
        HoldingIn(v', i) == HoldingIn(v, i) && SumIn(t'.sums, i) == SumIn(t.sums, i)
    ensures SameSums(v', t') <==> HoldingIn(v', instrument).qty == SumIn(t'.sums, instrument)
  {
    hide HoldingIn, SumIn;
  }

  lemma BookingFits(v: View, r: Record)
    requires Booking(v, r).Some?
    ensures r.OrderEvent? && r.kind.FillReceived? && r.kind.qty == Booking(v, r).value.1.qty
    ensures FitsI64(Booking(v, r).value.1.qty)
  {
  }

  ghost predicate AgreeThroughout(journal: seq<Record>) {
    forall k | 0 <= k <= |journal| :: SameSums(Folding(journal[..k]), Tallying(journal[..k]))
  }

  lemma {:induction false} BookFollows(journal: seq<Record>)
    ensures Follows(Folding(journal), Tallying(journal))
  {
    if journal != [] {
      BookFollows(journal[..|journal| - 1]);
      FollowsOn(Folding(journal[..|journal| - 1]), Tallying(journal[..|journal| - 1]), journal[|journal| - 1]);
    }
  }

  /** Book and sums agree all the way if and only if every record reads right. */
  lemma {:induction false} AgreeExactly(journal: seq<Record>, upTo: nat)
    requires upTo <= |journal|
    ensures (forall k | 0 <= k <= upTo :: SameSums(Folding(journal[..k]), Tallying(journal[..k])))
       <==> (forall k | 0 <= k < upTo :: ReadsRight(Folding(journal[..k]), Tallying(journal[..k]), journal[k]))
  {
    hide Folded, Tallied, SameSums, ReadsRight, Follows, Folding, Tallying;
    if upTo == 0 {
      NothingRead(journal);
      NothingHeld();
    } else {
      AgreeExactly(journal, upTo - 1);
      BookFollows(journal[..upTo - 1]);
      ReadOn(journal, upTo - 1);
      if SameSums(Folding(journal[..upTo - 1]), Tallying(journal[..upTo - 1])) {
        AgreesOn(Folding(journal[..upTo - 1]), Tallying(journal[..upTo - 1]), journal[upTo - 1]);
      }
    }
  }

  lemma NothingHeld()
    ensures SameSums(NEW, UNREAD)
  {
  }

  // ---------------------------------------------------------------- the condition, read off the journal

  predicate Reports(r: Record, execId: string) {
    r.OrderEvent? && r.applied && r.kind.FillReceived? && r.kind.execId == execId
  }

  /** The order's intent is among the first `k` records. */
  predicate KnownAt(journal: seq<Record>, k: nat, id: string)
    requires k <= |journal|
  {
    exists j :: 0 <= j < k && journal[j].IntentPersisted? && journal[j].id == id
  }

  predicate HeardBy(journal: seq<Record>, k: nat, execId: string)
    requires k <= |journal|
  {
    exists j :: 0 <= j < k && Reports(journal[j], execId)
  }

  /** Among the first `k` records the execution is reported of an order known by then. */
  predicate TakenBy(journal: seq<Record>, k: nat, execId: string)
    requires k <= |journal|
  {
    exists j :: 0 <= j < k && Reports(journal[j], execId) && KnownAt(journal, j, journal[j].orderId)
  }

  /** The first report of an execution once its order is known. */
  predicate FirstTaken(journal: seq<Record>, k: nat)
    requires k < |journal|
  {
    && journal[k].OrderEvent? && journal[k].applied && journal[k].kind.FillReceived?
    && KnownAt(journal, k, journal[k].orderId) && !TakenBy(journal, k, journal[k].kind.execId)
  }

  function NamedIn(t: Tally, id: string): Intent {
    if id in t.intents then t.intents[id] else Intent("", Buy, 0)
  }

  /** The quantity of the `k`-th record is one the book counts as int64 adds. */
  predicate Countable(journal: seq<Record>, k: nat)
    requires k < |journal| && journal[k].OrderEvent? && journal[k].kind.FillReceived?
  {
    var r, t := journal[k], Tallying(journal[..k]);
    var intent := NamedIn(t, r.orderId);
    CountsRight(SumIn(t.sums, intent.instrument), intent.side, r.kind.qty)
  }

  /** An execution first reported of a known order was not reported before, when
      the order was not known, and its quantity can be counted; or it is of nothing. */
  predicate TakenRight(journal: seq<Record>, k: nat)
    requires k < |journal|
  {
    FirstTaken(journal, k) ==>
      if HeardBy(journal, k, journal[k].kind.execId) then journal[k].kind.qty == 0 else Countable(journal, k)
  }

  lemma OneMoreIsKnown(journal: seq<Record>, k: nat, id: string)
    requires k < |journal|
    ensures KnownAt(journal, k + 1, id) <==>
              KnownAt(journal, k, id) || (journal[k].IntentPersisted? && journal[k].id == id)
  {
  }

  lemma OneMoreIsHeard(journal: seq<Record>, k: nat, execId: string)
    requires k < |journal|
    ensures HeardBy(journal, k + 1, execId) <==> HeardBy(journal, k, execId) || Reports(journal[k], execId)
  {
    hide Reports;
  }

  lemma OneMoreIsTaken(journal: seq<Record>, k: nat, execId: string)
    requires k < |journal|
    ensures TakenBy(journal, k + 1, execId) <==>
              TakenBy(journal, k, execId)
              || (Reports(journal[k], execId) && KnownAt(journal, k, journal[k].orderId))
  {
    hide KnownAt;
  }

  lemma {:induction false} IntentsAreRead(journal: seq<Record>, k: nat, id: string)
    requires k <= |journal|
    ensures id in Tallying(journal[..k]).intents <==> KnownAt(journal, k, id)
  {
    hide Tallied, KnownAt, Tallying, Folding;
    if k == 0 {
      NothingRead(journal);
      NothingBefore(journal, id);
    } else {
      IntentsAreRead(journal, k - 1, id);
      ReadOn(journal, k - 1);
      OneIntentRead(Tallying(journal[..k - 1]), journal[k - 1], id);
      OneMoreIsKnown(journal, k - 1, id);
    }
  }

  lemma NothingBefore(journal: seq<Record>, name: string)
    ensures !KnownAt(journal, 0, name) && !HeardBy(journal, 0, name) && !TakenBy(journal, 0, name)
  {
  }

  lemma OneIntentRead(t: Tally, r: Record, id: string)
    ensures id in Tallied(t, r).intents <==> id in t.intents || (r.IntentPersisted? && r.id == id)
    ensures id in Tallied(t, r).intents ==>
              Tallied(t, r).intents[id] ==
                if id in t.intents then t.intents[id] else Intent(r.instrument, r.side, r.qty)
  {
    hide Wrap;
  }

  lemma {:induction false} ReportsAreHeard(journal: seq<Record>, k: nat, execId: string)
    requires k <= |journal|
    ensures execId in Tallying(journal[..k]).seen <==> HeardBy(journal, k, execId)
  {
    hide Tallied, HeardBy, Reports, Tallying, Folding;
    if k == 0 {
      NothingRead(journal);
      NothingBefore(journal, execId);
    } else {
      ReportsAreHeard(journal, k - 1, execId);
      ReadOn(journal, k - 1);
      OneReportHeard(Tallying(journal[..k - 1]), journal[k - 1], execId);
      OneMoreIsHeard(journal, k - 1, execId);
    }
  }

  lemma OneReportHeard(t: Tally, r: Record, execId: string)
    ensures execId in Tallied(t, r).seen <==> execId in t.seen || Reports(r, execId)
  {
    hide Wrap;
  }

  lemma {:induction false} ReportsAreTaken(journal: seq<Record>, k: nat, execId: string)
    requires k <= |journal|
    ensures execId in Folding(journal[..k]).execs <==> TakenBy(journal, k, execId)
  {
    hide Folded, KnownAt, TakenBy, Tallying, Folding;
    if k == 0 {
      NothingRead(journal);
      NothingBefore(journal, execId);
    } else {
      ReportsAreTaken(journal, k - 1, execId);
      ReadOn(journal, k - 1);
      OneReportTaken(Folding(journal[..k - 1]), journal[k - 1], execId);
      OneMoreIsTaken(journal, k - 1, execId);
      if Reports(journal[k - 1], execId) { OrdersAreKnown(journal, k - 1, journal[k - 1].orderId); }
    }
  }

  lemma OneReportTaken(v: View, r: Record, execId: string)
    ensures execId in Folded(v, r).execs <==> execId in v.execs || (Reports(r, execId) && r.orderId in v.orders)
  {
    hide Booked, OrderAfter;
  }

  lemma OrdersAreKnown(journal: seq<Record>, k: nat, id: string)
    requires k <= |journal|
    ensures id in Folding(journal[..k]).orders <==> KnownAt(journal, k, id)
    ensures id in Tallying(journal[..k]).intents <==> KnownAt(journal, k, id)
    ensures KnownAt(journal, k, id) ==>
              var o := Folding(journal[..k]).orders[id];
              NamedIn(Tallying(journal[..k]), id) == Intent(o.instrument, o.side, o.qty)
  {
    IntentsAreRead(journal, k, id);
    BookFollows(journal[..k]);
  }

  lemma TakenIsReadRight(journal: seq<Record>, k: nat)
    requires k < |journal|
    ensures TakenRight(journal, k) <==> ReadsRight(Folding(journal[..k]), Tallying(journal[..k]), journal[k])
  {
    hide KnownAt, TakenBy, HeardBy, Folding, Tallying, CountsRight, SumIn;
    var r := journal[k];
    if r.OrderEvent? && r.applied && r.kind.FillReceived? {
      OrdersAreKnown(journal, k, r.orderId);
      ReportsAreHeard(journal, k, r.kind.execId);
      ReportsAreTaken(journal, k, r.kind.execId);
    }
  }

  /** The book's running positions are the plain sums of the raw fills, instrument
      by instrument and all along the journal, through every duplicate, partial
      close and flip and whatever overflows in the basis, if and only if no
      execution was reported before its order's intent and is taken after it, and
      every quantity taken can be counted. */
  lemma PositionsAreSums(journal: seq<Record>)
    ensures AgreeThroughout(journal) <==> forall k | 0 <= k < |journal| :: TakenRight(journal, k)
  {
    AgreeExactly(journal, |journal|);
    hide Folding, Tallying, SameSums, ReadsRight, TakenRight;
    forall k | 0 <= k < |journal|
      ensures TakenRight(journal, k) <==> ReadsRight(Folding(journal[..k]), Tallying(journal[..k]), journal[k])
    {
      TakenIsReadRight(journal, k);
    }
  }

  /** Every event names an order whose intent is already in the journal. */
  predicate IntentsFirst(journal: seq<Record>) {
    forall k | 0 <= k < |journal| && journal[k].OrderEvent? :: KnownAt(journal, k, journal[k].orderId)
  }

  lemma HeardIsTaken(journal: seq<Record>, k: nat, execId: string)
    requires IntentsFirst(journal) && k <= |journal|
    ensures HeardBy(journal, k, execId) ==> TakenBy(journal, k, execId)
  {
    hide KnownAt;
  }

  /** Where intents come first only the quantities are left to decide. */
  lemma IntentsFirstAgree(journal: seq<Record>)
    requires IntentsFirst(journal)
    ensures AgreeThroughout(journal)
       <==> forall k | 0 <= k < |journal| && FirstTaken(journal, k) :: Countable(journal, k)
  {
    PositionsAreSums(journal);
    hide AgreeThroughout, Countable, KnownAt;
    forall k | 0 <= k < |journal|
      ensures TakenRight(journal, k) <==> (FirstTaken(journal, k) ==> Countable(journal, k))
    {
      if FirstTaken(journal, k) { HeardIsTaken(journal, k, journal[k].kind.execId); }
    }
  }

  /** An execution that arrives before its intent is spent for the outsider and
      still new to the book when it is repeated. */
  lemma LateIntentDisagrees()
    ensures
      var x := OrderEvent("A", "FILLED", true, FillReceived("X", 1, 0));
      var journal := [x, IntentPersisted("A", "BTC", Buy, 1), x];
      && HoldingIn(Folding(journal), "BTC").qty == 1 && SumIn(Tallying(journal).sums, "BTC") == 0
  {
    var x := OrderEvent("A", "FILLED", true, FillReceived("X", 1, 0));
    var intent := IntentPersisted("A", "BTC", Buy, 1);
    var order := BookedOrder("BTC", Buy, 1, 0, 1, "CREATED", "");
    ReadInTurn(x, intent, x);
    assert Folded(NEW, x) == NEW;
    assert Folded(NEW, intent) == View(map["A" := order], {}, map[]);
    BookedQty(FLAT, Fill(Buy, 1, 0));
    var t := Tallied(UNREAD, x);
    assert t.seen == {"X"} && t.sums == map[];
    hide Booked, Folding, Tallying, OrderAfter;
  }

  lemma ReadInTurn(a: Record, b: Record, c: Record)
    ensures Folding([a, b, c]) == Folded(Folded(Folded(NEW, a), b), c)
    ensures Tallying([a, b, c]) == Tallied(Tallied(Tallied(UNREAD, a), b), c)
  {
    hide Folded, Tallied;
    var journal := [a, b, c];
    NothingRead(journal);
    ReadOn(journal, 0);
    ReadOn(journal, 1);
    ReadOn(journal, 2);
    assert journal[..3] == journal;
    hide Folding, Tallying;
  }

  lemma NothingRead(journal: seq<Record>)
    ensures Folding(journal[..0]) == NEW && Tallying(journal[..0]) == UNREAD
  {
  }

  lemma ReadOn(journal: seq<Record>, k: nat)
    requires k < |journal|
    ensures Folding(journal[..k + 1]) == Folded(Folding(journal[..k]), journal[k])
    ensures Tallying(journal[..k + 1]) == Tallied(Tallying(journal[..k]), journal[k])
  {
    hide Folded, Tallied;
    assert journal[..k + 1][..k] == journal[..k];
  }

  // ---------------------------------------------------------------- orders

  /** Quantities the engine writes: never negative. */
  predicate Sized(r: Record) {
    match r
    case IntentPersisted(_, _, _, qty) => 0 <= qty
    case OrderEvent(_, _, _, FillReceived(_, qty, _)) => 0 <= qty
    case OrderEvent(_, _, _, ReconcileResolved(_, filledQty)) => 0 <= filledQty
    case _ => true
  }

  /** No order's raw fills add up past int64. */
  predicate FillFits(t: Tally, r: Record) {
    r.OrderEvent? && r.kind.FillReceived? ==> FilledIn(t, r.orderId) + r.kind.qty <= I64_MAX
  }

  /** The book's order is in the state last recorded of it, filled to the clamp of
      what the outsider has counted, with the rest remaining. */
  predicate OrderAgrees(v: View, t: Tally, id: string)
    requires id in v.orders
  {
    var o := v.orders[id];
    && 0 <= o.qty && 0 <= FilledIn(t, id)
    && id in t.states && o.state == t.states[id]
    && o.filled == (if FilledIn(t, id) > o.qty then o.qty else FilledIn(t, id))
    && o.remaining == o.qty - o.filled
  }

  ghost predicate OrdersAgree(v: View, t: Tally) {
    && (forall id <- v.orders :: OrderAgrees(v, t, id))
    && (forall id: string | id !in v.orders :: FilledIn(t, id) == 0)
  }

  /** One event of an order, against what is counted of it. */
  lemma OrderMoves(o: BookedOrder, r: Record, books: bool, counted: I64, after: I64)
    requires r.OrderEvent? && Sized(r) && 0 <= o.qty && 0 <= counted
    requires o.filled == (if counted > o.qty then o.qty else counted) && o.remaining == o.qty - o.filled
    requires match r.kind
             case FillReceived(_, qty, _) =>
               counted + qty <= I64_MAX && after == if books then counted + qty else counted
             case ReconcileResolved(_, filledQty) => after == filledQty
             case _ => after == counted
    ensures
      var n := OrderAfter(o, r, books);
      && n.qty == o.qty && n.state == r.to && 0 <= after
      && n.filled == (if after > o.qty then o.qty else after) && n.remaining == n.qty - n.filled
  {
  }

  /** What is counted of an order after one more record. */
  lemma CountMoves(t: Tally, r: Record, id: string)
    ensures
      FilledIn(Tallied(t, r), id) ==
        if !r.OrderEvent? || r.orderId != id then FilledIn(t, id)
        else match r.kind
             case FillReceived(execId, qty, _) =>
               if r.applied && execId !in t.seen && id in t.intents then Wrap(FilledIn(t, id) + qty)
               else FilledIn(t, id)
             case ReconcileResolved(_, filledQty) => filledQty
             case _ => FilledIn(t, id)
    ensures id in Tallied(t, r).states <==> id in t.states || (r.IntentPersisted? && r.id == id && id !in t.intents)
                                            || (r.OrderEvent? && r.orderId == id)
    ensures r.OrderEvent? && r.orderId == id ==> Tallied(t, r).states[id] == r.to
    ensures r.IntentPersisted? && r.id == id && id !in t.intents ==> Tallied(t, r).states[id] == "CREATED"
    ensures id in t.states && (r.OrderEvent? ==> r.orderId != id)
              && (r.IntentPersisted? ==> r.id != id || id in t.intents) ==>
            Tallied(t, r).states[id] == t.states[id]
  {
    hide Wrap, SumIn, Signed;
  }

  lemma OrderIn(v: View, r: Record, id: string)
    ensures
      var v' := Folded(v, r);
      if id in v.orders then
        id in v'.orders
        && v'.orders[id] == if r.OrderEvent? && r.orderId == id then OrderAfter(v.orders[id], r, Booking(v, r).Some?)
                            else v.orders[id]
      else
        && (id in v'.orders <==> r.IntentPersisted? && r.id == id)
        && (id in v'.orders ==> v'.orders[id] == BookedOrder(r.instrument, r.side, r.qty, 0, r.qty, "CREATED", ""))
  {
    hide Booked, OrderAfter, HoldingIn;
  }

  lemma OrdersAgreeOn(v: View, t: Tally, r: Record)
    requires Follows(v, t) && OrdersAgree(v, t) && Sized(r) && FillFits(t, r)
    requires r.OrderEvent? ==> r.orderId in v.orders
    requires r.OrderEvent? && r.kind.FillReceived? && r.applied ==>
               (r.kind.execId in t.seen <==> r.kind.execId in v.execs)
    ensures OrdersAgree(Folded(v, r), Tallied(t, r))
  {
    hide Booked, Wrap, Folded, Tallied, OrderAfter, FilledIn;
    var v', t' := Folded(v, r), Tallied(t, r);
    forall id: string
      ensures id in v'.orders ==> OrderAgrees(v', t', id)
      ensures id !in v'.orders ==> FilledIn(t', id) == 0
    {
      OrderIn(v, r, id);
      CountMoves(t, r, id);
      if id in v.orders {
        assert OrderAgrees(v, t, id);
        if r.OrderEvent? && r.orderId == id {
          OrderMoves(v.orders[id], r, Booking(v, r).Some?, FilledIn(t, id), FilledIn(t', id));
        }
      }
    }
  }

  /** In every journal whose intents come first, with quantities the engine can
      write, the book's orders say what the outsider counts: the state last
      recorded, the clamp of the raw fills since the last resolution, and what is
      left of the quantity. */
  lemma {:induction false} OrdersAreCounted(journal: seq<Record>)
    requires IntentsFirst(journal)
    requires forall k | 0 <= k < |journal| :: Sized(journal[k]) && FillFits(Tallying(journal[..k]), journal[k])
    ensures OrdersAgree(Folding(journal), Tallying(journal))
  {
    hide Folded, Tallied, OrderAgrees, Sized, FillFits, KnownAt;
    if journal != [] {
      var k := |journal| - 1;
      var before, r := journal[..k], journal[k];
      PrefixIsFirst(journal);
      forall j | 0 <= j < |before| ensures Sized(before[j]) && FillFits(Tallying(before[..j]), before[j]) {
        assert before[..j] == journal[..j];
      }
      OrdersAreCounted(before);
      BookFollows(before);
      if r.OrderEvent? {
        OrdersAreKnown(journal, k, r.orderId);
        if r.kind.FillReceived? {
          HeardIsTaken(journal, k, r.kind.execId);
          ReportsAreHeard(journal, k, r.kind.execId);
          ReportsAreTaken(journal, k, r.kind.execId);
          TakenIsHeard(journal, k, r.kind.execId);
        }
      }
      OrdersAgreeOn(Folding(before), Tallying(before), r);
    }
  }

  lemma TakenIsHeard(journal: seq<Record>, k: nat, execId: string)
    requires k <= |journal|
    ensures TakenBy(journal, k, execId) ==> HeardBy(journal, k, execId)
  {
    hide KnownAt;
  }

  lemma PrefixIsFirst(journal: seq<Record>)
    requires IntentsFirst(journal) && journal != []
    ensures IntentsFirst(journal[..|journal| - 1])
  {
    var before := journal[..|journal| - 1];
    forall k | 0 <= k < |before| && before[k].OrderEvent? ensures KnownAt(before, k, before[k].orderId) {
      assert KnownAt(journal, k, journal[k].orderId);
      var j :| 0 <= j < k && journal[j].IntentPersisted? && journal[j].id == journal[k].orderId;
      assert before[j] == journal[j];
    }
  }

  // ---------------------------------------------------------------- the check

  /** Fold the journal into a book and add the raw fills beside it; a breach is
      an instrument on which the two disagree, or an order filled past its size. */
  method Check(journal: seq<Record>) returns (breaches: set<string>, overfilled: set<string>)
    ensures forall name: string :: name in breaches <==>
              HoldingIn(Folding(journal), name).qty != SumIn(Tallying(journal).sums, name)
    ensures var t := Tallying(journal);
            forall id: string :: id in overfilled <==> id in t.intents && FilledIn(t, id) > t.intents[id].qty
  {
    hide Folded, Wrap, Folding, Tallied;
    var b := new Book();
    var fillSums: map<string, I64> := map[];
    var seenExec: set<string> := {};
    var intents: map<string, Intent> := map[];
    var states: map<string, string> := map[];
    var filled: map<string, I64> := map[];
    NothingRead(journal);
    for k := 0 to |journal|
      invariant b.Valid() && fresh(b) && fresh(b.positions.Values)
      invariant b.Contents() == Folding(journal[..k])
      invariant Tally(intents, seenExec, fillSums, states, filled) == Tallying(journal[..k])
    {
      var r := journal[k];
      ReadOn(journal, k);
      b.Apply(r);
      intents, seenExec, fillSums, states, filled := Count(intents, seenExec, fillSums, states, filled, r);
    }
    assert journal[..|journal|] == journal;
    var held := b.positions;
    var names := fillSums.Keys + (set i | i in held && held[i].qty != 0);
    breaches := set name | name in names && (if name in held then held[name].qty else 0) != SumIn(fillSums, name);
    assert forall name: string :: HoldingIn(b.Contents(), name).qty == if name in held then held[name].qty else 0;
    overfilled := set id | id in intents && (if id in filled then filled[id] else 0) > intents[id].qty;
  }

  /** The body of that loop: one record counted. */
  method Count(intents: map<string, Intent>, seenExec: set<string>, fillSums: map<string, I64>,
               states: map<string, string>, filled: map<string, I64>, r: Record)
    returns (intents': map<string, Intent>, seenExec': set<string>, fillSums': map<string, I64>,
             states': map<string, string>, filled': map<string, I64>)
    ensures Tally(intents', seenExec', fillSums', states', filled') ==
              Tallied(Tally(intents, seenExec, fillSums, states, filled), r)
  {
    hide Wrap;
    intents', seenExec', fillSums', states', filled' := intents, seenExec, fillSums, states, filled;
    match r {
      case IntentPersisted(id, instrument, side, qty) =>
        if id !in intents {
          intents' := intents[id := Intent(instrument, side, qty)];
          states' := states[id := "CREATED"];
        }
      case OrderEvent(id, to, applied, kind) =>
        states' := states[id := to];
        match kind {
          case FillReceived(execId, qty, _) =>
            if applied && execId !in seenExec {
              seenExec' := seenExec + {execId};
              if id in intents {
                var intent := intents[id];
                var signed := Wrap(Signed(intent.side, qty));
                fillSums' := fillSums[intent.instrument := Wrap(0 + SumIn(fillSums, intent.instrument) + signed)];
                filled' := filled[id := Wrap(0 + (if id in filled then filled[id] else 0) + qty)];
              }
            }
          case ReconcileResolved(_, filledQty) => filled' := filled[id := filledQty];
          case _ =>
        }
      case Elsewhere =>
    }
  }

  // ---------------------------------------------------------------- the book's holdings are runs of fills

  /** The fills the book takes on an instrument, in journal order. */
  function FillsOn(journal: seq<Record>, instrument: string): seq<Fill> {
    if journal == [] then []
    else
      var before := journal[..|journal| - 1];
      var booking := Booking(Folding(before), journal[|journal| - 1]);
      FillsOn(before, instrument) + if booking.Some? && booking.value.0 == instrument then [booking.value.1] else []
  }

  lemma PrefixIsBookable(journal: seq<Record>)
    requires StaysBookable(journal) && journal != []
    ensures StaysBookable(journal[..|journal| - 1])
    ensures Bookable(Folding(journal[..|journal| - 1]), journal[|journal| - 1])
  {
    hide Bookable, Folding;
    var before := journal[..|journal| - 1];
    forall k | 0 <= k < |before| ensures Bookable(Folding(before[..k]), before[k]) {
      assert before[..k] == journal[..k];
    }
  }

  lemma Drawable(h: Holding, f: Fill)
    requires InRange(h, f)
    ensures 0 < f.qty && 0 <= f.price
  {
  }

  /** Whatever is proved of any run of fills holds of every position in the book. */
  lemma {:induction false} HoldingsAreRuns(journal: seq<Record>, instrument: string)
    requires StaysBookable(journal)
    ensures Proper(FillsOn(journal, instrument))
    ensures HoldingIn(Folding(journal), instrument) == Run(FillsOn(journal, instrument))
  {
    if journal != [] {
      var before, r := journal[..|journal| - 1], journal[|journal| - 1];
      PrefixIsBookable(journal);
      HoldingsAreRuns(before, instrument);
      var booking := Booking(Folding(before), r);
      HoldingMoves(Folding(before), r, instrument);
      assert Folding(journal) == Folded(Folding(before), r);
      hide Filled, Booked, InRange, Folded, StaysBookable, Booking, Run, Proper, Folding;
      if booking.Some? && booking.value.0 == instrument {
        RunGoesOn(FillsOn(before, instrument), booking.value.1);
        BookingFits(Folding(before), r);
        BookedIsExact(HoldingIn(Folding(before), instrument), booking.value.1);
        Drawable(HoldingIn(Folding(before), instrument), booking.value.1);
      } else {
        assert FillsOn(journal, instrument) == FillsOn(before, instrument);
      }
    }
  }

  lemma RunGoesOn(fills: seq<Fill>, f: Fill)
    ensures Run(fills + [f]) == Filled(Run(fills), f)
    ensures Proper(fills) && 0 < f.qty && 0 <= f.price ==> Proper(fills + [f])
  {
    assert (fills + [f])[..|fills|] == fills;
  }
}
