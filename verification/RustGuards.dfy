/** The engine's exposure guards over an abstract book: what one instrument
    holds, and its orders in the sequence they were booked.  Quantities are
    int64 and saturate where the engine's do. */
module RustGuards {
  import opened Common
  import Ledger
  import PyGuards = Guards

  datatype BookedOrder = BookedOrder(id: string, live: bool, unprovable: bool, exit: bool, remaining: I64)

  datatype Book = Book(position: I64, orders: seq<BookedOrder>)

  datatype Command = Command(side: Side, qty: I64, authority: Authority)

  datatype Limits = Limits(maxPosition: Option<I64>, positionConfirmed: bool)

  datatype Refusal =
    | Halted
    | InstrumentLocked(heldBy: string)
    | EntryAlreadyLive(existing: string)
    | ExitExceedsPosition(requested: I64, available: I64)
    | ExceedsMaxPosition(wouldBe: I64, cap: I64)
    | PositionUnconfirmed

  datatype Verdict = Allow | Clamp(to: I64) | Refuse(refusal: Refusal)

  function SaturatingAbs(x: I64): I64 {
    if x == I64_MIN then I64_MAX else if x < 0 then -x else x
  }

  function SumOrMax(x: int): I64 {
    if FitsI64(x) then x else I64_MAX
  }

  /** The first order that is live and unprovable. */
  function LockingOrder(orders: seq<BookedOrder>): Option<string> {
    if orders == [] then None
    else if orders[0].live && orders[0].unprovable then Some(orders[0].id)
    else LockingOrder(orders[1..])
  }

  function LiveEntry(orders: seq<BookedOrder>): Option<string> {
    if orders == [] then None
    else if orders[0].live && !orders[0].exit then Some(orders[0].id)
    else LiveEntry(orders[1..])
  }

  function CommittedToExits(orders: seq<BookedOrder>): I64 {
    if orders == [] then 0
    else
      var last := orders[|orders| - 1];
      var sum := CommittedToExits(orders[..|orders| - 1]);
      if last.live && last.exit then SumOrMax(sum + last.remaining) else sum
  }

  function SignedQty(c: Command): int {
    if c.side.Buy? then c.qty else 0 - c.qty
  }

  function EvaluateEntry(book: Book, c: Command, limits: Limits, halted: bool): Verdict
    requires 0 < c.qty
  {
    if halted then Refuse(Halted)
    else if !limits.positionConfirmed then Refuse(PositionUnconfirmed)
    else if LockingOrder(book.orders).Some? then Refuse(InstrumentLocked(LockingOrder(book.orders).value))
    else if LiveEntry(book.orders).Some? then Refuse(EntryAlreadyLive(LiveEntry(book.orders).value))
    else if limits.maxPosition.Some? then
      var cap := limits.maxPosition.value;
      var wouldBe := SumOrMax(book.position + SignedQty(c));
      if SaturatingAbs(wouldBe) > cap then Refuse(ExceedsMaxPosition(wouldBe, cap)) else Allow
    else Allow
  }

  function EvaluateExit(book: Book, c: Command): Verdict
    requires 0 < c.qty
  {
    var held := SaturatingAbs(book.position);
    var rest := held - CommittedToExits(book.orders);
    var available: I64 := if FitsI64(rest) && rest > 0 then rest else 0;
    var closes := (book.position > 0) == (c.side == Sell);
    if held == 0 || !closes then Refuse(ExitExceedsPosition(c.qty, 0))
    else if available == 0 then Refuse(ExitExceedsPosition(c.qty, available))
    else if c.qty > available then Clamp(available)
    else Allow
  }

  function Evaluate(book: Book, c: Command, limits: Limits, halted: bool): Verdict
    requires 0 < c.qty
  {
    if c.authority == Entry then EvaluateEntry(book, c, limits, halted) else EvaluateExit(book, c)
  }

  // ---------------------------------------------------------------- what the book really holds

  predicate Sound(orders: seq<BookedOrder>) {
    forall i | 0 <= i < |orders| :: 0 <= orders[i].remaining
  }

  /** The claims of live exits, added up without a bound. */
  function Claims(orders: seq<BookedOrder>): int {
    if orders == [] then 0
    else
      var last := orders[|orders| - 1];
      Claims(orders[..|orders| - 1]) + if last.live && last.exit then last.remaining else 0
  }

  lemma {:induction false} CommittedSaturates(orders: seq<BookedOrder>)
    requires Sound(orders)
    ensures 0 <= Claims(orders)
    ensures CommittedToExits(orders) == if Claims(orders) <= I64_MAX then Claims(orders) else I64_MAX
  {
    if orders != [] { CommittedSaturates(orders[..|orders| - 1]); }
  }

  lemma {:induction false} FirstOrders(orders: seq<BookedOrder>)
    ensures LockingOrder(orders).None? <==> forall i | 0 <= i < |orders| :: !(orders[i].live && orders[i].unprovable)
    ensures LiveEntry(orders).None? <==> forall i | 0 <= i < |orders| :: !(orders[i].live && !orders[i].exit)
  {
    if orders != [] {
      FirstOrders(orders[1..]);
      assert forall i | 0 < i < |orders| :: orders[i] == orders[1..][i - 1];
    }
  }

  /** What a verdict sends to the venue. */
  function Sent(v: Verdict, c: Command): int {
    match v
    case Allow => c.qty
    case Clamp(to) => to
    case Refuse(_) => 0
  }

  /** An exit sends the most that closes and is not spoken for; it is refused
      exactly when that is nothing.  The engine's books cannot hold the most
      negative int64, whose magnitude saturates one unit short. */
  lemma ExitSendsWhatIsFree(book: Book, c: Command)
    requires Sound(book.orders) && 0 < c.qty
    ensures
      var held := SaturatingAbs(book.position);
      var free := held - Claims(book.orders);
      var closes := book.position != 0 && ((book.position > 0) == (c.side == Sell));
      var sent := Sent(EvaluateExit(book, c), c);
      && sent == (if closes && free > 0 then (if c.qty <= free then c.qty else free) else 0)
      && (EvaluateExit(book, c).Refuse? <==> !closes || free <= 0)
      && (sent > 0 ==> Claims(book.orders) + sent <= held)
  {
    CommittedSaturates(book.orders);
  }

  /** An entry is never shrunk; with a cap below the largest int64 an allowed
      entry keeps the exact position within it.  At that very cap the check is
      void, because an overflowing sum is read as the largest int64. */
  lemma EntryAllowedExactly(book: Book, c: Command, limits: Limits, halted: bool)
    requires 0 < c.qty
    ensures
      var after := book.position + SignedQty(c);
      var v := EvaluateEntry(book, c, limits, halted);
      && !v.Clamp?
      && (v == Allow <==>
            && !halted && limits.positionConfirmed
            && (forall i | 0 <= i < |book.orders| :: book.orders[i].live ==>
                !book.orders[i].unprovable && book.orders[i].exit)
            && (limits.maxPosition.Some? ==>
                  0 - limits.maxPosition.value <= after <= limits.maxPosition.value
                      || limits.maxPosition.value == I64_MAX))
  {
    FirstOrders(book.orders);
  }

  // ---------------------------------------------------------------- many commands, one book

  /** The book after a command: what was sent is a live order of its authority. */
  function Booked(book: Book, c: Command, v: Verdict): Book
    requires 0 < c.qty && FitsI64(Sent(v, c))
  {
    if v.Refuse? then book
    else book.(orders := book.orders + [BookedOrder("", true, false, c.authority == ProtectiveExit, Sent(v, c))])
  }

  function BookAll(book: Book, commands: seq<Command>, limits: Limits, halted: bool): Book
    requires forall i | 0 <= i < |commands| :: 0 < commands[i].qty
  {
    if commands == [] then book
    else
      var before := BookAll(book, commands[..|commands| - 1], limits, halted);
      var c := commands[|commands| - 1];
      Booked(before, c, Evaluate(before, c, limits, halted))
  }

  function LiveEntries(orders: seq<BookedOrder>): nat {
    if orders == [] then 0
    else
      var last := orders[|orders| - 1];
      LiveEntries(orders[..|orders| - 1]) + if last.live && !last.exit then 1 else 0
  }

  lemma {:induction false} NoLiveEntry(orders: seq<BookedOrder>)
    ensures LiveEntries(orders) == 0 <==> forall i | 0 <= i < |orders| :: !(orders[i].live && !orders[i].exit)
  {
    if orders != [] {
      var rest := orders[..|orders| - 1];
      NoLiveEntry(rest);
      assert forall i | 0 <= i < |rest| :: rest[i] == orders[i];
    }
  }

  /** Exits claim no more than is held, and at most one entry is live. */
  predicate Stacked(book: Book) {
    Sound(book.orders) && Claims(book.orders) <= SaturatingAbs(book.position) && LiveEntries(book.orders) <= 1
  }

  lemma SumsAfter(orders: seq<BookedOrder>, o: BookedOrder)
    requires Sound(orders) && 0 <= o.remaining
    ensures Sound(orders + [o])
    ensures Claims(orders + [o]) == Claims(orders) + if o.live && o.exit then o.remaining else 0
    ensures LiveEntries(orders + [o]) == LiveEntries(orders) + if o.live && !o.exit then 1 else 0
  {
    assert (orders + [o])[..|orders|] == orders;
  }

  /** Orders sent are live and in no doubt. */
  predicate OnlyProvable(orders: seq<BookedOrder>) {
    forall i | 0 <= i < |orders| :: orders[i].live && !orders[i].unprovable
  }

  lemma NothingToProve()
    ensures OnlyProvable([])
  {
  }

  lemma BothProvable(a: seq<BookedOrder>, b: seq<BookedOrder>)
    requires OnlyProvable(a) && OnlyProvable(b)
    ensures OnlyProvable(a + b)
  {
  }

  lemma StackedMeans(book: Book)
    ensures Stacked(book) ==> Claims(book.orders) <= SaturatingAbs(book.position) && LiveEntries(book.orders) <= 1
  {
  }

  lemma CommandStacks(book: Book, c: Command, limits: Limits, halted: bool)
    requires 0 < c.qty && Stacked(book)
    ensures
      var after := Booked(book, c, Evaluate(book, c, limits, halted));
      && Stacked(after) && after.position == book.position
      && book.orders <= after.orders && OnlyProvable(after.orders[|book.orders|..])
  {
    var v := Evaluate(book, c, limits, halted);
    if !v.Refuse? {
      if c.authority == Entry {
        FirstOrders(book.orders);
        NoLiveEntry(book.orders);
      } else {
        ExitSendsWhatIsFree(book, c);
      }
      hide EvaluateExit, Claims, LiveEntries, CommittedToExits, Sound, SaturatingAbs, LockingOrder;
      SumsAfter(book.orders, BookedOrder("", true, false, c.authority == ProtectiveExit, Sent(v, c)));
    }
  }

  /** However many commands arrive between two fills, the exits together never
      claim more than is held and at most one entry is live. */
  lemma {:induction false} CommandsStackSafely(book: Book, commands: seq<Command>, limits: Limits, halted: bool)
    requires forall i | 0 <= i < |commands| :: 0 < commands[i].qty
    requires Stacked(book)
    ensures
      var after := BookAll(book, commands, limits, halted);
      && Claims(after.orders) <= SaturatingAbs(after.position) && LiveEntries(after.orders) <= 1
      && Stacked(after) && after.position == book.position
      && book.orders <= after.orders && OnlyProvable(after.orders[|book.orders|..])
  {
    StackedMeans(BookAll(book, commands, limits, halted));
    hide Stacked, Evaluate, Booked, OnlyProvable;
    NothingToProve();
    if commands != [] {
      var before := BookAll(book, commands[..|commands| - 1], limits, halted);
      CommandsStackSafely(book, commands[..|commands| - 1], limits, halted);
      CommandStacks(before, commands[|commands| - 1], limits, halted);
      var after := BookAll(book, commands, limits, halted);
      BothProvable(before.orders[|book.orders|..], after.orders[|before.orders|..]);
      assert after.orders[|book.orders|..] == before.orders[|book.orders|..] + after.orders[|before.orders|..];
    } else {
      assert book.orders[|book.orders|..] == [];
    }
  }

  // ---------------------------------------------------------------- against the Python guards

  function Intended(c: Command): Ledger.Intent
    requires 0 < c.qty
  {
    Ledger.RawIntent("k", "", c.side, c.qty as real, c.authority, None)
  }

  /** On the closing side the two guards send the same quantity.  On the opening
      side the Python guard, which does not look at it, sends what the engine refuses. */
  lemma ExitGuardsAgreeWhenClosing(book: Book, c: Command)
    requires Sound(book.orders) && 0 < c.qty && c.authority == ProtectiveExit && book.position != I64_MIN
    ensures
      var python := PyGuards.ExitQty(book.position as real, Claims(book.orders) as real, Intended(c));
      var closes := (book.position > 0) == (c.side == Sell);
      && (closes ==> python == if EvaluateExit(book, c).Refuse? then None
          else Some(Sent(EvaluateExit(book, c), c) as real))
      && (!closes ==> EvaluateExit(book, c).Refuse?
                      && (python.Some? <==> SaturatingAbs(book.position) > Claims(book.orders)))
  {
    ExitSendsWhatIsFree(book, c);
    CommittedSaturates(book.orders);
  }

  /** Under a cap below the largest int64 the engine allows exactly the entries
      the Python guard leaves whole; those it shrinks, the engine refuses. */
  lemma EntryGuardsDifferInShrinking(book: Book, c: Command, cap: I64)
    requires 0 < c.qty && c.authority == Entry && 0 <= cap < I64_MAX
    requires LockingOrder(book.orders).None? && LiveEntry(book.orders).None?
    ensures
      var python := PyGuards.EntryQty(book.position as real, Intended(c), Some(cap as real));
      var engine := EvaluateEntry(book, c, Limits(Some(cap), true), false);
      engine == Allow <==> python == Some(c.qty as real)
  {
  }
}
