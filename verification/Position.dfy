/** A position as the Go book keeps it: signed quantity, cost basis and realised
    P&L in raw units, each updated in place with int64 arithmetic that wraps. */
module Positions {
  import opened Common
  import opened Fixed

  /** x times the sign of the side. */
  function Signed(side: Side, x: int): int {
    if side.Buy? then x else -x
  }

  /** Price times quantity, rescaled once, truncated toward zero. */
  function Notional(price: int, qty: int): int {
    TruncDiv(price * qty, SCALE)
  }

  datatype Holding = Holding(qty: int, basis: int, realized: int)

  const FLAT := Holding(0, 0, 0)

  datatype Fill = Fill(side: Side, qty: int, price: int)

  predicate Opening(h: Holding, side: Side, qty: int) {
    h.qty == 0 || ((h.qty > 0) == (Signed(side, qty) > 0))
  }

  function Closing(h: Holding, qty: int): int {
    if qty > Magnitude(h.qty) then Magnitude(h.qty) else qty
  }

  /** x times the direction of the holding. */
  function Directed(h: Holding, x: int): int {
    if h.qty < 0 then -x else x
  }

  /** The share of the basis that goes with the closed part; all of it with the last piece. */
  function Slice(h: Holding, closing: int): int
    requires h.qty != 0
  {
    if closing == Magnitude(h.qty) then Magnitude(h.basis)
    else TruncDiv(Magnitude(h.basis) * closing, Magnitude(h.qty))
  }

  /** A fill on unbounded integers: open or add, close in part or whole, or close
      and open the other side at the fill's own price. */
  function Filled(h: Holding, f: Fill): Holding {
    if Opening(h, f.side, f.qty) then
      h.(qty := h.qty + Signed(f.side, f.qty), basis := h.basis + Signed(f.side, Notional(f.price, f.qty)))
    else
      var closing := Closing(h, f.qty);
      var closed := Slice(h, closing);
      var realized := h.realized + Directed(h, Notional(f.price, closing) - closed);
      if f.qty > closing then
        Holding(Signed(f.side, f.qty - closing), Signed(f.side, Notional(f.price, f.qty - closing)), realized)
      else if closing == Magnitude(h.qty) then Holding(0, 0, realized)
      else Holding(h.qty - Directed(h, closing), h.basis - Directed(h, closed), realized)
  }

  /** The magnitude in int64, where the most negative value has none. */
  function AbsOf(d: int): int {
    if d < 0 then Wrap(0 - d) else d
  }

  function BookedSlice(basis: int, closing: int, held: int): int {
    if held == 0 then 0
    else if closing == held then AbsOf(basis)
    else Saturate(TruncDiv(AbsOf(basis) * closing, held))
  }

  /** A close on int64, and the other side opened if the fill is larger than the position. */
  function Settled(h: Holding, side: Side, closing: int, closed: int, proceeds: int, flipped: int,
                   reopened: int): Holding {
    var realized := Wrap(h.realized + Wrap(Directed(h, Wrap(proceeds - closed))));
    var rest := Wrap(h.qty - Wrap(Directed(h, closing)));
    if flipped > 0 then Holding(Wrap(Signed(side, flipped)), Wrap(Signed(side, reopened)), realized)
    else Holding(rest, if rest == 0 then 0 else Wrap(h.basis - Wrap(Directed(h, closed))), realized)
  }

  /** The same fill on int64: sums wrap, products saturate. */
  function Booked(h: Holding, f: Fill): Holding {
    var signed := Wrap(Signed(f.side, f.qty));
    if h.qty == 0 || ((h.qty > 0) == (signed > 0)) then
      h.(qty := Wrap(h.qty + signed), basis := Wrap(h.basis + Wrap(Signed(f.side, Saturate(Notional(f.price, f.qty))))))
    else
      var held := AbsOf(h.qty);
      var closing := if f.qty > held then held else f.qty;
      var flipped := Wrap(f.qty - closing);
      Settled(h, f.side, closing, BookedSlice(h.basis, closing, held), Saturate(Notional(f.price, closing)),
              flipped, Saturate(Notional(f.price, flipped)))
  }

  predicate Fits(h: Holding) {
    FitsI64(h.qty) && FitsI64(h.basis) && FitsI64(h.realized)
  }

  /** Everything the fill computes fits int64: a caller can check the holding
      before, the notional, and the exact holding after. */
  predicate InRange(h: Holding, f: Fill) {
    && Fits(h) && h.qty != I64_MIN && h.basis != I64_MIN
    && 0 < f.qty && 0 <= f.price && FitsI64(Notional(f.price, f.qty))
    && Fits(Filled(h, f))
  }

  lemma NotionalGrows(price: nat, q: nat, more: nat)
    ensures 0 <= Notional(price, q) <= Notional(price, q + more)
  {
    assert price * q <= price * (q + more);
    QuotientGrows(price * q, price * (q + more));
  }

  lemma QuotientGrows(m: nat, n: nat)
    requires m <= n
    ensures m / SCALE <= n / SCALE
  {
  }

  lemma TruncDivOfNats(n: nat, d: nat)
    requires d > 0
    ensures TruncDiv(n, d) == n / d && 0 <= n / d
  {
  }

  lemma MulGrows(x: nat, y: nat, z: nat)
    requires y <= z
    ensures 0 <= x * y <= x * z
  {
  }

  lemma SliceIsPart(basis: nat, closing: nat, held: nat)
    requires 0 < held && closing <= held
    ensures 0 <= TruncDiv(basis * closing, held) <= basis
  {
    MulGrows(basis, closing, held);
    TruncDivOfNats(basis * closing, held);
    QuotientBelow(basis * closing, held, basis + 1);
    Expand(basis, held);
  }

  lemma Expand(x: nat, y: nat)
    ensures (x + 1) * y == x * y + y
  {
  }

  /** Nothing on the way to a result that fits leaves int64. */
  lemma StaysInRange(h: Holding, f: Fill)
    requires InRange(h, f)
    ensures
      var closing := Closing(h, f.qty);
      && 0 <= Notional(f.price, f.qty) <= I64_MAX
      && (h.qty != 0 ==>
            && 0 <= Notional(f.price, closing) <= I64_MAX
            && 0 <= Notional(f.price, f.qty - closing) <= I64_MAX
            && 0 <= Slice(h, closing) <= Magnitude(h.basis)
            && (closing != Magnitude(h.qty) ==>
                0 <= TruncDiv(Magnitude(h.basis) * closing, Magnitude(h.qty)) <= I64_MAX))
  {
    hide TruncDiv, Notional, Filled;
    var closing := Closing(h, f.qty);
    NotionalGrows(f.price, closing, f.qty - closing);
    NotionalGrows(f.price, f.qty - closing, closing);
    if h.qty != 0 { SliceIsPart(Magnitude(h.basis), closing, Magnitude(h.qty)); }
  }

  lemma OpeningIsExact(h: Holding, f: Fill)
    requires InRange(h, f) && Opening(h, f.side, f.qty) && 0 <= Notional(f.price, f.qty) <= I64_MAX
    ensures Booked(h, f) == Filled(h, f)
  {
    hide Notional, Wrap;
  }

  lemma SliceIsExact(h: Holding, closing: int)
    requires Fits(h) && h.qty != 0 && h.qty != I64_MIN && h.basis != I64_MIN && 0 <= Slice(h, closing) <= I64_MAX
    ensures AbsOf(h.qty) == Magnitude(h.qty) && BookedSlice(h.basis, closing, Magnitude(h.qty)) == Slice(h, closing)
  {
    hide TruncDiv, Wrap;
  }

  lemma ReductionIs(h: Holding, f: Fill)
    requires Fits(h) && 0 < f.qty && FitsI64(f.qty) && !Opening(h, f.side, f.qty) && AbsOf(h.qty) == Magnitude(h.qty)
    requires 0 <= Notional(f.price, Closing(h, f.qty)) <= I64_MAX
    requires 0 <= Notional(f.price, f.qty - Closing(h, f.qty)) <= I64_MAX
    ensures
      var closing := Closing(h, f.qty);
      Booked(h, f) == Settled(h, f.side, closing,
                              BookedSlice(h.basis, closing, Magnitude(h.qty)), Notional(f.price, closing),
                              f.qty - closing, Notional(f.price, f.qty - closing))
  {
    hide Notional, Wrap, BookedSlice, Settled, AbsOf;
  }

  /** Where the exact result fits, the arithmetic that wraps is exact. */
  lemma BookedIsExact(h: Holding, f: Fill)
    requires InRange(h, f) && FitsI64(f.qty)
    ensures Booked(h, f) == Filled(h, f)
  {
    StaysInRange(h, f);
    hide Notional, TruncDiv, Wrap, Filled, Booked, Settled, Slice, BookedSlice, AbsOf;
    if Opening(h, f.side, f.qty) {
      OpeningIsExact(h, f);
    } else {
      SliceIsExact(h, Closing(h, f.qty));
      ReductionIs(h, f);
      SettledIsExact(h, f);
    }
  }

  lemma SettledIsExact(h: Holding, f: Fill)
    requires InRange(h, f) && !Opening(h, f.side, f.qty)
    ensures
      var closing := Closing(h, f.qty);
      Filled(h, f) == Settled(h, f.side, closing, Slice(h, closing), Notional(f.price, closing),
                              f.qty - closing, Notional(f.price, f.qty - closing))
  {
    StaysInRange(h, f);
    hide Notional, TruncDiv, Wrap, Slice;
  }

  // ---------------------------------------------------------------- the quantity, whatever overflows

  /** The fill moves the quantity by its signed size, as int64 adds. */
  predicate CountsRight(held: int, side: Side, amount: int) {
    && (held == I64_MIN && side == Buy ==> amount <= 0)
    && (I64_MIN < amount < 0 ==> if side.Buy? then held <= 0 else held >= 0 || held == I64_MIN)
  }

  lemma WrapIs(x: int)
    requires -TWO_64 <= x <= TWO_64
    ensures Wrap(x) == if x > I64_MAX then x - TWO_64 else if x < I64_MIN then x + TWO_64 else x
  {
  }

  function QtyAfter(held: I64, side: Side, amount: I64): I64 {
    var signed := Wrap(Signed(side, amount));
    if held == 0 || ((held > 0) == (signed > 0)) then Wrap(held + signed)
    else
      var closing := if amount > AbsOf(held) then AbsOf(held) else amount;
      var flipped := Wrap(amount - closing);
      if flipped > 0 then Wrap(Signed(side, flipped)) else Wrap(held - Wrap(if held < 0 then -closing else closing))
  }

  lemma BookedQtyIs(h: Holding, f: Fill)
    requires FitsI64(h.qty) && FitsI64(f.qty)
    ensures Booked(h, f).qty == QtyAfter(h.qty, f.side, f.qty)
  {
    hide Wrap, Notional, Saturate, BookedSlice;
  }

  predicate Right(held: I64, side: Side, amount: I64) {
    && (QtyAfter(held, side, amount) == Wrap(held + Wrap(Signed(side, amount))) <==> CountsRight(held, side, amount))
    && (QtyAfter(held, side, amount) == held <==> amount == 0)
  }

  lemma GoesOn(held: I64, side: Side, amount: I64)
    requires held == 0 || ((held > 0) == (Wrap(Signed(side, amount)) > 0))
    ensures Right(held, side, amount)
  {
    WrapIs(Signed(side, amount));
    hide Wrap;
    WrapIs(held + Wrap(Signed(side, amount)));
  }

  lemma BuysBack(held: I64, amount: I64)
    requires I64_MIN < held < 0 && 0 < amount
    ensures Right(held, Buy, amount)
  {
    hide Wrap;
    var flipped: int := if amount > -held then amount + held else 0;
    assert Wrap(amount - -held) == amount + held;
    assert QtyAfter(held, Buy, amount) == held + amount;
  }

  lemma BuysAtLeast(amount: I64)
    requires 0 < amount
    ensures Right(I64_MIN, Buy, amount)
  {
    WrapIs(0 - I64_MIN);
    WrapIs(amount - I64_MIN);
    hide Wrap;
  }

  lemma BuysLess(held: I64, amount: I64)
    requires 0 < held && amount <= 0
    ensures Right(held, Buy, amount)
  {
    WrapIs(held - amount);
    hide Wrap;
  }

  lemma SellsOff(held: I64, amount: I64)
    requires 0 < held && 0 <= amount
    ensures Right(held, Sell, amount)
  {
    hide Wrap;
  }

  lemma SellsLess(held: I64, amount: I64)
    requires 0 < held && amount == I64_MIN
    ensures Right(held, Sell, amount)
  {
    WrapIs(0 - amount);
    WrapIs(held - amount);
    hide Wrap;
  }

  lemma SellsBack(held: I64, amount: I64)
    requires held < 0 && I64_MIN < amount < 0
    ensures Right(held, Sell, amount)
  {
    WrapIs(0 - held);
    WrapIs(held - Wrap(0 - amount));
    WrapIs(held + amount);
    WrapIs(held - amount);
    hide Wrap;
  }

  lemma QtyAfterIs(held: I64, side: Side, amount: I64)
    ensures Right(held, side, amount)
  {
    WrapIs(Signed(side, amount));
    hide Right, Wrap;
    if held == 0 || ((held > 0) == (Wrap(Signed(side, amount)) > 0)) {
      GoesOn(held, side, amount);
    } else if side == Buy {
      if held > 0 {
        BuysLess(held, amount);
      } else if held == I64_MIN {
        BuysAtLeast(amount);
      } else {
        BuysBack(held, amount);
      }
    } else if held < 0 {
      SellsBack(held, amount);
    } else if amount == I64_MIN {
      SellsLess(held, amount);
    } else {
      SellsOff(held, amount);
    }
  }

  /** The book adds the fill to the quantity exactly where it counts right,
      whatever overflows elsewhere; and only a fill of nothing leaves it alone. */
  lemma BookedQty(h: Holding, f: Fill)
    requires FitsI64(h.qty) && FitsI64(f.qty)
    ensures Booked(h, f).qty == Wrap(h.qty + Wrap(Signed(f.side, f.qty))) <==> CountsRight(h.qty, f.side, f.qty)
    ensures Booked(h, f).qty == h.qty <==> f.qty == 0
  {
    hide Booked, QtyAfter, Wrap, CountsRight;
    BookedQtyIs(h, f);
    QtyAfterIs(h.qty, f.side, f.qty);
  }

  class Position {
    var qty: I64
    var costBasis: I64
    var realized: I64

    constructor ()
      ensures State() == FLAT
    {
      qty, costBasis, realized := 0, 0, 0;
    }

    function State(): Holding
      reads this
    {
      Holding(qty, costBasis, realized)
    }

    /** Mul of two fixed-point values: a saturating multiply-and-divide. */
    static method Mul(a: I64, b: I64) returns (r: I64)
      ensures r == Saturate(Notional(a, b))
    {
      r := MulDiv(a, b, SCALE);
    }

    /** Move the position. */
    method ApplyFill(side: Side, amount: I64, price: I64)
      modifies this
      ensures State() == Booked(old(State()), Fill(side, amount, price))
      ensures InRange(old(State()), Fill(side, amount, price)) ==>
          State() == Filled(old(State()), Fill(side, amount, price))
    {
      hide Notional, TruncDiv, Wrap, Saturate, Filled, InRange, BookedSlice;
      ghost var h, f := State(), Fill(side, amount, price);
      if InRange(h, f) { BookedIsExact(h, f); }
      var signed := Wrap(Signed(side, amount));
      var cost := Mul(price, amount);
      var signedCost := Wrap(Signed(side, cost));

      var opening := qty == 0 || ((qty > 0) == (signed > 0));
      if opening {
        qty := Wrap(qty + signed);
        costBasis := Wrap(costBasis + signedCost);
        return;
      }

      Reduce(side, amount, price);
    }

    /** Close in part or whole, or close and open the other side. */
    method Reduce(side: Side, amount: I64, price: I64)
      requires qty != 0 && (qty > 0) != (Wrap(Signed(side, amount)) > 0)
      modifies this
      ensures State() == Booked(old(State()), Fill(side, amount, price))
    {
      hide Notional, TruncDiv, Wrap, Saturate, BookedSlice;
      var held := AbsOf(qty);
      var closing: int := amount;
      if closing > held {
        closing := held;
      }
      var closedCost: int := SliceOfBasis(closing, held);
      var proceeds: int := Mul(price, closing);

      var gross: int := Wrap(proceeds - closedCost);
      realized := Wrap(realized + Wrap(Directed(State(), gross)));
      costBasis := Wrap(costBasis - Wrap(Directed(State(), closedCost)));
      qty := Wrap(qty - Wrap(Directed(State(), closing)));

      if qty == 0 {
        costBasis := 0;  // flat means flat
      }

      var flipped := Wrap(amount - closing);
      if flipped > 0 {
        var reopened := Mul(price, flipped);
        qty := Wrap(Signed(side, flipped));
        costBasis := Wrap(Signed(side, reopened));
      }
    }

    method SliceOfBasis(closing: I64, held: I64) returns (slice: I64)
      ensures slice == BookedSlice(costBasis, closing, held)
    {
      if held == 0 {
        return 0;
      }
      if closing == held {
        return AbsOf(costBasis);
      }
      slice := MulDiv(AbsOf(costBasis), closing, held);
    }

    /** Profit and loss at a mark; nothing when flat. */
    method Unrealized(mark: I64) returns (r: I64)
      ensures r == if qty == 0 then 0 else Wrap(Saturate(Notional(mark, qty)) - costBasis)
    {
      if qty == 0 {
        return 0;
      }
      var value := Mul(mark, qty);
      r := Wrap(0 + value - costBasis);
    }
  }

  // ---------------------------------------------------------------- laws of any number of fills

  predicate Proper(fills: seq<Fill>) {
    forall i | 0 <= i < |fills| :: 0 < fills[i].qty && 0 <= fills[i].price
  }

  function Run(fills: seq<Fill>): Holding {
    if fills == [] then FLAT else Filled(Run(fills[..|fills| - 1]), fills[|fills| - 1])
  }

  function NetQty(fills: seq<Fill>): int {
    if fills == [] then 0
    else var f := fills[|fills| - 1]; NetQty(fills[..|fills| - 1]) + Signed(f.side, f.qty)
  }

  /** What was paid for everything bought, less what was received for everything sold. */
  function Spent(fills: seq<Fill>): int {
    if fills == [] then 0
    else var f := fills[|fills| - 1]; Spent(fills[..|fills| - 1]) + Signed(f.side, Notional(f.price, f.qty))
  }

  predicate Flips(h: Holding, f: Fill) {
    !Opening(h, f.side, f.qty) && f.qty > Magnitude(h.qty)
  }

  function FlipCount(fills: seq<Fill>): nat {
    if fills == [] then 0
    else FlipCount(fills[..|fills| - 1]) + if Flips(Run(fills[..|fills| - 1]), fills[|fills| - 1]) then 1 else 0
  }

  /** The flip's two pieces, truncated apart, come to a unit less than the whole. */
  predicate Carries(h: Holding, f: Fill) {
    && Flips(h, f)
    && f.price * Magnitude(h.qty) % SCALE + f.price * (f.qty - Magnitude(h.qty)) % SCALE >= SCALE
  }

  function Carry(h: Holding, f: Fill): nat {
    if Carries(h, f) then 1 else 0
  }

  /** The units flips have lost, signed by the side of the flip. */
  function NetCarry(fills: seq<Fill>): int {
    if fills == [] then 0
    else
      var f := fills[|fills| - 1];
      NetCarry(fills[..|fills| - 1]) + Signed(f.side, Carry(Run(fills[..|fills| - 1]), f))
  }

  function CarryCount(fills: seq<Fill>): nat {
    if fills == [] then 0
    else CarryCount(fills[..|fills| - 1]) + Carry(Run(fills[..|fills| - 1]), fills[|fills| - 1])
  }

  /** Basis lies on the side of the quantity, and flat means flat. */
  predicate SharesSign(h: Holding) {
    && (h.qty == 0 ==> h.basis == 0)
    && (h.qty > 0 ==> h.basis >= 0)
    && (h.qty < 0 ==> h.basis <= 0)
  }

  lemma NotionalSplits(price: nat, a: nat, b: nat)
    ensures 0 <= Notional(price, a) && 0 <= Notional(price, b)
    ensures Notional(price, a + b) - Notional(price, a) - Notional(price, b) ==
              if price * a % SCALE + price * b % SCALE >= SCALE then 1 else 0
  {
    var x, y := price * a, price * b;
    assert price * (a + b) == x + y;
    QuotientSplits(x, y);
  }

  lemma QuotientSplits(x: nat, y: nat)
    ensures (x + y) / SCALE - x / SCALE - y / SCALE == if x % SCALE + y % SCALE >= SCALE then 1 else 0
  {
  }

  /** One fill moves quantity by its size and basis less realised by its
      notional, less the unit a flip that carries loses by being priced in two. */
  lemma FillLaw(h: Holding, f: Fill)
    requires SharesSign(h) && 0 < f.qty && 0 <= f.price
    ensures
      var h' := Filled(h, f);
      && SharesSign(h') && h'.qty == h.qty + Signed(f.side, f.qty)
      && h'.basis - h'.realized ==
           h.basis - h.realized + Signed(f.side, Notional(f.price, f.qty)) - Signed(f.side, Carry(h, f))
  {
    hide Notional, TruncDiv;
    NotionalSplits(f.price, f.qty, 0);
    if !Opening(h, f.side, f.qty) {
      var closing := Closing(h, f.qty);
      SliceIsPart(Magnitude(h.basis), closing, Magnitude(h.qty));
      NotionalSplits(f.price, closing, f.qty - closing);
    }
  }

  /** A flip is priced exactly if and only if the remainders of its two pieces
      do not make up a unit. */
  lemma FlipIsExact(h: Holding, f: Fill)
    requires SharesSign(h) && 0 < f.qty && 0 <= f.price && Flips(h, f)
    ensures
      var h' := Filled(h, f);
      h'.basis - h'.realized == h.basis - h.realized + Signed(f.side, Notional(f.price, f.qty))
      <==> f.price * Magnitude(h.qty) % SCALE + f.price * (f.qty - Magnitude(h.qty)) % SCALE < SCALE
  {
    hide Notional, Filled;
    FillLaw(h, f);
  }

  /** Any number of fills, through any mix of opens, partial closes, full closes
      and flips: the quantity is their signed sum, basis and quantity share a
      sign, and basis less realised is what was spent less what flips carried. */
  lemma {:induction false} RunLaws(fills: seq<Fill>)
    requires Proper(fills)
    ensures
      var h := Run(fills);
      && h.qty == NetQty(fills) && SharesSign(h)
      && h.basis - h.realized == Spent(fills) - NetCarry(fills)
      && Magnitude(NetCarry(fills)) <= CarryCount(fills) <= FlipCount(fills)
  {
    hide Notional, Filled, SharesSign, Carries;
    if fills != [] {
      RunLaws(fills[..|fills| - 1]);
      FillLaw(Run(fills[..|fills| - 1]), fills[|fills| - 1]);
      OnlyFlipsCarry(Run(fills[..|fills| - 1]), fills[|fills| - 1]);
    } else {
      NothingIsShared();
    }
  }

  lemma OnlyFlipsCarry(h: Holding, f: Fill)
    ensures Carries(h, f) ==> Flips(h, f)
  {
  }

  lemma NothingIsShared()
    ensures SharesSign(FLAT)
  {
  }

  /** The P&L at any mark is the value of what is held less what was spent, plus
      what flips carried: exactly, whatever the fills, and within a unit for each
      flip whose remainders made up one. */
  lemma PnlIsConserved(fills: seq<Fill>, mark: int)
    requires Proper(fills)
    ensures
      var h := Run(fills);
      var unrealized := if h.qty == 0 then 0 else Notional(mark, h.qty) - h.basis;
      && h.realized + unrealized == Notional(mark, h.qty) - Spent(fills) + NetCarry(fills)
      && Magnitude(NetCarry(fills)) <= CarryCount(fills) <= FlipCount(fills)
  {
    hide Run, Spent, FlipCount, NetQty, Notional, Proper, NetCarry, CarryCount;
    RunLaws(fills);
    NothingIsWorthNothing(mark);
  }

  lemma NothingIsWorthNothing(mark: int)
    ensures Notional(mark, 0) == 0
  {
  }

  lemma TwoFills(a: Fill, b: Fill)
    ensures
      var first := Filled(FLAT, a);
      && Run([a, b]) == Filled(first, b)
      && Spent([a, b]) == Signed(a.side, Notional(a.price, a.qty)) + Signed(b.side, Notional(b.price, b.qty))
      && FlipCount([a, b]) == if Flips(first, b) then 1 else 0
  {
    hide Filled, Notional;
    assert [a, b][..1] == [a] && [a][..0] == [];
    assert Run([a]) == Filled(FLAT, a) && !Flips(FLAT, a) && FlipCount([a]) == 0;
    assert Spent([a]) == Signed(a.side, Notional(a.price, a.qty));
  }

  lemma Halves()
    ensures Notional(10_000_000, 5) == 0 && Notional(10_000_000, 10) == 1
  {
    TruncDivIsTowardZero(50_000_000, SCALE, 0);
    TruncDivIsTowardZero(100_000_000, SCALE, 1);
  }

  lemma OpenHalf()
    ensures Filled(FLAT, Fill(Buy, 5, 10_000_000)) == Holding(5, 0, 0)
  {
    Halves();
    hide Notional;
  }

  lemma FlipHalf()
    ensures Filled(Holding(5, 0, 0), Fill(Sell, 10, 10_000_000)) == Holding(-5, 0, 0)
  {
    Halves();
    hide Notional, TruncDiv;
  }

  /** A flip can lose a unit: five hundred-millionths at a tenth, in two pieces. */
  lemma FlipLosesAUnit()
    ensures
      var fills := [Fill(Buy, 5, 10_000_000), Fill(Sell, 10, 10_000_000)];
      && Proper(fills) && FlipCount(fills) == 1
      && Run(fills).basis - Run(fills).realized - Spent(fills) == 1
  {
    var a, b := Fill(Buy, 5, 10_000_000), Fill(Sell, 10, 10_000_000);
    TwoFills(a, b);
    Halves();
    OpenHalf();
    FlipHalf();
    hide *;
    FlipIs(a, b);
  }

  lemma FlipIs(a: Fill, b: Fill)
    requires a == Fill(Buy, 5, 10_000_000) && b == Fill(Sell, 10, 10_000_000)
    ensures Flips(Holding(5, 0, 0), b) && Proper([a, b])
    ensures Signed(Buy, 0) + Signed(Sell, 1) == -1
  {
  }
}
