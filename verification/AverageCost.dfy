/** The average-cost walk over the fills ledger, in exact decimals, and how far
    the Go book's truncating int64 accounting can stray from it. */
module AverageCost {
  import opened Common
  import opened Fixed
  import opened Positions

  /** One fill row joined with its order. */
  datatype Row = Row(instrument: string, side: Side, qty: real, price: real)

  datatype Walk = Walk(pos: real, avg: real, realized: real)

  const NOTHING := Walk(0.0, 0.0, 0.0)

  function SignedReal(side: Side, x: real): real {
    if side.Buy? then x else -x
  }

  predicate Increases(pos: real, signed: real) {
    pos == 0.0 || ((pos > 0.0) == (signed > 0.0))
  }

  /** The average cost of what is held and what is added to it. */
  function Averaged(avg: real, held: real, price: real, added: real): real
    requires held + added > 0.0
  {
    (avg * held + price * added) / (held + added)
  }

  function Gained(price: real, avg: real, closing: real): real {
    (price - avg) * closing
  }

  /** One row of the walk: re-average when increasing, realise when reducing. */
  function Walked(w: Walk, side: Side, qty: real, price: real): Walk
    requires qty > 0.0
  {
    var signed := SignedReal(side, qty);
    if Increases(w.pos, signed) then
      Walk(w.pos + signed, Averaged(w.avg, Abs(w.pos), price, qty), w.realized)
    else
      var closing := Min(qty, Abs(w.pos));
      var gain := Gained(price, w.avg, closing);
      Walk(w.pos + signed,
           if qty > closing then price else if w.pos + signed == 0.0 then 0.0 else w.avg,
           w.realized + if w.pos > 0.0 then gain else -gain)
  }

  predicate Positive(rows: seq<Row>) {
    forall i | 0 <= i < |rows| :: rows[i].qty > 0.0
  }

  /** The walk over the rows of one instrument, in ledger order. */
  function WalkOf(rows: seq<Row>, instrument: string): Walk
    requires Positive(rows)
  {
    if rows == [] then NOTHING
    else
      var before, r := WalkOf(rows[..|rows| - 1], instrument), rows[|rows| - 1];
      if r.instrument == instrument then Walked(before, r.side, r.qty, r.price) else before
  }

  /** All instruments in one pass over the rows.  A ledger row is never for zero. */
  method ComputeBasis(rows: seq<Row>) returns (state: map<string, Walk>)
    requires Positive(rows)
    ensures forall i: string :: i in state <==> exists k :: 0 <= k < |rows| && rows[k].instrument == i
    ensures forall i <- state :: state[i] == WalkOf(rows, i)
  {
    hide Walked;
    state := map[];
    for k := 0 to |rows|
      invariant forall i: string :: i in state <==> exists j :: 0 <= j < k && rows[j].instrument == i
      invariant forall i: string :: WalkOf(rows[..k], i) == if i in state then state[i] else NOTHING
    {
      var r := rows[k];
      assert rows[..k + 1][..k] == rows[..k];
      var w := Account(if r.instrument in state then state[r.instrument] else NOTHING, r);
      state := state[r.instrument := w];
    }
    assert rows[..|rows|] == rows;
  }

  /** The body of that loop: one row into its instrument's account. */
  method Account(w: Walk, r: Row) returns (next: Walk)
    requires r.qty > 0.0
    ensures next == Walked(w, r.side, r.qty, r.price)
  {
    hide Averaged, Gained;
    next := w;
    var signed := if r.side == Buy then r.qty else -r.qty;
    var pos, avg := w.pos, w.avg;
    if pos == 0.0 || ((pos > 0.0) == (signed > 0.0)) {
      next := next.(avg := Averaged(avg, Abs(pos), r.price, Abs(signed)));
      next := next.(pos := pos + signed);
    } else {
      var closing := Min(Abs(signed), Abs(pos));
      var direction := if pos > 0.0 then 1.0 else -1.0;
      var gain := Gained(r.price, avg, closing);
      Turned(gain);
      next := next.(realized := next.realized + gain * direction);
      next := next.(pos := pos + signed);
      var leftover := Abs(signed) - closing;
      if leftover > 0.0 {
        next := next.(avg := r.price);
      } else if next.pos == 0.0 {
        next := next.(avg := 0.0);
      }
    }
  }

  lemma Turned(x: real)
    ensures x * 1.0 == x && x * -1.0 == -x
  {
  }

  // ---------------------------------------------------------------- the same walk in raw units

  /** Quantity, cost basis and realised P&L in raw units, without rounding. */
  datatype Exact = Exact(qty: real, basis: real, realized: real)

  function ExactNotional(price: int, qty: int): real {
    (price * qty) as real / 100_000_000.0
  }

  function ExactFilled(x: Exact, h: Holding, f: Fill): Exact
    requires h.qty != 0 || Opening(h, f.side, f.qty)
  {
    var qty := x.qty + SignedReal(f.side, f.qty as real);
    if Opening(h, f.side, f.qty) then
      Exact(qty, x.basis + SignedReal(f.side, ExactNotional(f.price, f.qty)), x.realized)
    else
      var closing := Closing(h, f.qty);
      var share := x.basis * (closing as real / Magnitude(h.qty) as real);
      var proceeds := ExactNotional(f.price, closing);
      Exact(qty,
            if f.qty > closing then SignedReal(f.side, ExactNotional(f.price, f.qty - closing)) else x.basis - share,
            x.realized + (if h.qty < 0 then -proceeds else proceeds) - share)
  }

  /** The walk, with decimals read as raw units over 1e8. */
  predicate Reads(w: Walk, x: Exact, qty: int) {
    && w.pos * 100_000_000.0 == x.qty == qty as real
    && w.avg * w.pos * 100_000_000.0 == x.basis
    && w.realized * 100_000_000.0 == x.realized
  }

  function Decimal(raw: int): real {
    raw as real / 100_000_000.0
  }

  lemma AveragedBasis(avg: real, held: real, price: real, qty: real)
    requires held >= 0.0 && qty > 0.0
    ensures (avg * held + price * qty) / (held + qty) * (held + qty) == avg * held + price * qty
  {
  }

  lemma NotionalOfDecimals(price: int, qty: int)
    ensures Decimal(price) * Decimal(qty) * 100_000_000.0 == ExactNotional(price, qty)
  {
    assert (price * qty) as real == price as real * qty as real;
    Rescale(price as real, qty as real);
  }

  lemma Rescale(p: real, q: real)
    ensures (p / 100_000_000.0) * (q / 100_000_000.0) * 100_000_000.0 == p * q / 100_000_000.0
  {
    var a, b := p / 100_000_000.0, q / 100_000_000.0;
    assert p == a * 100_000_000.0 && q == b * 100_000_000.0;
    assert p * q == (a * b * 100_000_000.0) * 100_000_000.0;
  }

  /** What is taken from the basis with a closed part, at the average cost. */
  lemma ShareAtAverage(avg: real, pos: real, held: int, closing: int)
    requires held > 0 && (pos * 100_000_000.0 == held as real || pos * 100_000_000.0 == -(held as real))
    ensures
      var share := avg * pos * 100_000_000.0 * (closing as real / held as real);
      share == if pos > 0.0 then avg * closing as real else -(avg * closing as real)
  {
    var c, h := closing as real, held as real;
    var t := c / h;
    assert t * h == c;
    if pos > 0.0 {
      assert avg * pos * 100_000_000.0 == avg * h;
      assert avg * h * t == avg * c;
    } else {
      assert avg * pos * 100_000_000.0 == -(avg * h);
      assert (-(avg * h)) * t == -(avg * c);
    }
  }

  lemma WalkOpens(w: Walk, x: Exact, h: Holding, f: Fill)
    requires Reads(w, x, h.qty) && 0 < f.qty && Opening(h, f.side, f.qty)
    ensures Reads(Walked(w, f.side, Decimal(f.qty), Decimal(f.price)), ExactFilled(x, h, f),
                  h.qty + Signed(f.side, f.qty))
  {
    var q, p := Decimal(f.qty), Decimal(f.price);
    NotionalOfDecimals(f.price, f.qty);
    AveragedBasis(w.avg, Abs(w.pos), p, q);
    var w' := Walked(w, f.side, q, p);
    hide ExactNotional, Notional;
    assert w'.avg * (Abs(w.pos) + q) == w.avg * Abs(w.pos) + p * q;
    if f.side.Buy? {
      assert w'.pos == Abs(w.pos) + q;
      assert w.avg * Abs(w.pos) == w.avg * w.pos;
    } else {
      assert w'.pos == -(Abs(w.pos) + q);
      assert w'.avg * w'.pos == -(w'.avg * (Abs(w.pos) + q));
      assert w.avg * Abs(w.pos) == -(w.avg * w.pos);
    }
  }

  lemma Gain(price: real, avg: real, closing: real, proceeds: real, taken: real)
    requires proceeds == price * closing * 100_000_000.0 && taken == avg * (closing * 100_000_000.0)
    ensures (price - avg) * closing * 100_000_000.0 == proceeds - taken
  {
  }

  lemma WholeShare(basis: real, held: int)
    requires held > 0
    ensures basis * (held as real / held as real) == basis
  {
    assert held as real / held as real == 1.0;
  }

  lemma PartShare(avg: real, pos: real, basis: real, held: int, closing: int)
    requires held > 0 && avg * pos * 100_000_000.0 == basis
    requires pos * 100_000_000.0 == held as real || pos * 100_000_000.0 == -(held as real)
    ensures
      var left := if pos > 0.0 then pos - Decimal(closing) else pos + Decimal(closing);
      avg * left * 100_000_000.0 == basis - basis * (closing as real / held as real)
  {
    ShareAtAverage(avg, pos, held, closing);
    var c := Decimal(closing);
    if pos > 0.0 {
      assert avg * (pos - c) == avg * pos - avg * c;
    } else {
      assert avg * (pos + c) == avg * pos + avg * c;
    }
    assert avg * c * 100_000_000.0 == avg * closing as real;
  }

  /** What a reducing fill realises. */
  lemma RealizedReads(w: Walk, x: Exact, h: Holding, f: Fill)
    requires Reads(w, x, h.qty) && 0 < f.qty && !Opening(h, f.side, f.qty)
    ensures
      var w' := Walked(w, f.side, Decimal(f.qty), Decimal(f.price));
      && Min(Decimal(f.qty), Abs(w.pos)) == Decimal(Closing(h, f.qty))
      && w'.realized * 100_000_000.0 == ExactFilled(x, h, f).realized
      && w'.pos * 100_000_000.0 == ExactFilled(x, h, f).qty == (h.qty + Signed(f.side, f.qty)) as real
  {
    var p, closing, held := Decimal(f.price), Closing(h, f.qty), Magnitude(h.qty);
    assert Min(Decimal(f.qty), Abs(w.pos)) == Decimal(closing);
    NotionalOfDecimals(f.price, closing);
    ShareAtAverage(w.avg, w.pos, held, closing);
    Gain(p, w.avg, Decimal(closing), ExactNotional(f.price, closing), w.avg * closing as real);
    hide ExactNotional;
  }

  lemma FlippedBasisReads(w: Walk, x: Exact, h: Holding, f: Fill)
    requires Reads(w, x, h.qty) && Flips(h, f)
    ensures
      var w' := Walked(w, f.side, Decimal(f.qty), Decimal(f.price));
      w'.avg * w'.pos * 100_000_000.0 == ExactFilled(x, h, f).basis
  {
    var p, rest := Decimal(f.price), Decimal(f.qty - Closing(h, f.qty));
    RealizedReads(w, x, h, f);
    NotionalOfDecimals(f.price, f.qty - Closing(h, f.qty));
    var w' := Walked(w, f.side, Decimal(f.qty), p);
    assert w'.avg == p && w'.pos == SignedReal(f.side, rest);
    hide ExactNotional, Walked;
    Opposite(p, rest);
  }

  lemma Opposite(p: real, q: real)
    ensures p * -q == -(p * q)
  {
  }

  lemma ReducedBasisReads(w: Walk, x: Exact, h: Holding, f: Fill)
    requires Reads(w, x, h.qty) && 0 < f.qty && !Opening(h, f.side, f.qty) && !Flips(h, f)
    ensures
      var w' := Walked(w, f.side, Decimal(f.qty), Decimal(f.price));
      w'.avg * w'.pos * 100_000_000.0 == ExactFilled(x, h, f).basis
  {
    var closing, held := f.qty, Magnitude(h.qty);
    RealizedReads(w, x, h, f);
    var w' := Walked(w, f.side, Decimal(f.qty), Decimal(f.price));
    if closing == held {
      WholeShare(x.basis, held);
      assert w'.pos == 0.0;
    } else {
      PartShare(w.avg, w.pos, x.basis, held, closing);
      assert w'.avg == w.avg;
    }
    hide ExactNotional;
  }

  lemma WalkReads(w: Walk, x: Exact, h: Holding, f: Fill)
    requires Reads(w, x, h.qty) && 0 < f.qty
    ensures Reads(Walked(w, f.side, Decimal(f.qty), Decimal(f.price)), ExactFilled(x, h, f),
                  h.qty + Signed(f.side, f.qty))
  {
    if Opening(h, f.side, f.qty) {
      WalkOpens(w, x, h, f);
    } else {
      RealizedReads(w, x, h, f);
      if Flips(h, f) { FlippedBasisReads(w, x, h, f); } else { ReducedBasisReads(w, x, h, f); }
    }
    hide Walked, ExactFilled;
  }

  // ---------------------------------------------------------------- how far truncation strays

  lemma Scales(t: real, u: real, d: real)
    requires d > 0.0
    ensures t < u <==> t * d < u * d
  {
    if t < u {
      assert (u - t) * d > 0.0;
    } else {
      assert (t - u) * d >= 0.0;
    }
  }

  lemma FloorGap(n: nat, d: nat)
    requires d > 0
    ensures 0.0 <= n as real / d as real - (n / d) as real < 1.0
  {
    var q := n / d;
    QuotientIsUnique(n, d, q);
    var t := n as real / d as real;
    assert t * d as real == n as real;
    assert q as real * d as real == (q * d) as real;
    assert (q + 1) as real * d as real == ((q + 1) * d) as real;
    Scales(t, q as real, d as real);
    Scales(t, (q + 1) as real, d as real);
  }

  lemma TruncationGap(price: nat, qty: nat)
    ensures 0.0 <= ExactNotional(price, qty) - Notional(price, qty) as real < 1.0
  {
    assert price * qty >= 0;
    TruncDivOfNats(price * qty, SCALE);
    FloorGap(price * qty, SCALE);
  }

  /** A slice truncated leaves the open part less than a unit over its share. */
  lemma SliceGap(basis: nat, exact: real, closing: nat, held: nat, error: real)
    requires closing <= held && held > 0 && -error <= basis as real - exact <= error
    ensures
      var left := (basis - basis * closing / held) as real;
      -error - 1.0 <= left - (exact - exact * (closing as real / held as real)) <= error + 1.0
  {
    assert basis * closing >= 0;
    FloorGap(basis * closing, held);
    var t := closing as real / held as real;
    PartOf(closing, held);
    assert (basis * closing) as real / held as real == basis as real * t;
    var gap := basis as real - exact;
    ShrinksTo(gap, 1.0 - t, error);
    assert (basis as real - basis as real * t) - (exact - exact * t) == gap * (1.0 - t);
  }

  lemma PartOf(closing: nat, held: nat)
    requires closing <= held && held > 0
    ensures 0.0 <= closing as real / held as real <= 1.0
  {
    var t := closing as real / held as real;
    assert t * held as real == closing as real;
    Scales(t, 0.0, held as real);
    Scales(1.0, t, held as real);
  }

  lemma ShrinksTo(gap: real, part: real, error: real)
    requires 0.0 <= part <= 1.0 && -error <= gap <= error
    ensures -error <= gap * part <= error
  {
    assert 0.0 <= error;
    if gap >= 0.0 {
      assert gap * part <= gap;
    } else {
      assert gap * part >= gap;
    }
  }

  predicate Near(a: int, b: real, error: real) {
    -error <= a as real - b <= error
  }

  /** Each fill adds at most one unit to the distance between the two bases. */
  lemma BasisStrays(h: Holding, x: Exact, f: Fill, error: real)
    requires SharesSign(h) && 0 < f.qty && 0 <= f.price && Near(h.basis, x.basis, error)
    ensures Near(Filled(h, f).basis, ExactFilled(x, h, f).basis, error + 1.0)
  {
    if Opening(h, f.side, f.qty) {
      TruncationGap(f.price, f.qty);
      hide Notional, ExactNotional;
    } else if Flips(h, f) {
      TruncationGap(f.price, f.qty - Closing(h, f.qty));
      hide Notional, ExactNotional, Slice;
    } else {
      ReducedStrays(h, x, f, error);
    }
  }

  lemma ReducedStrays(h: Holding, x: Exact, f: Fill, error: real)
    requires SharesSign(h) && 0 < f.qty && 0 <= f.price && Near(h.basis, x.basis, error)
    requires !Opening(h, f.side, f.qty) && !Flips(h, f)
    ensures Near(Filled(h, f).basis, ExactFilled(x, h, f).basis, error + 1.0)
  {
    var closing, held := f.qty, Magnitude(h.qty);
    if closing == held {
      hide Notional, ExactNotional, TruncDiv;
      WholeShare(x.basis, held);
    } else {
      SharesApart(Magnitude(h.basis), if h.qty < 0 then -x.basis else x.basis, closing, held, error);
      ExactReduced(x, h, f);
      hide ExactFilled, Share, TruncDiv, Notional;
      Reduced(h, f);
    }
  }

  /** A part of an exact amount. */
  function Share(x: real, part: nat, whole: nat): real
    requires whole > 0
  {
    x * (part as real / whole as real)
  }

  lemma SharesApart(basis: nat, exact: real, closing: nat, held: nat, error: real)
    requires closing <= held && held > 0 && -error <= basis as real - exact <= error
    ensures
      var left := (basis - TruncDiv(basis * closing, held)) as real;
      -error - 1.0 <= left - (exact - Share(exact, closing, held)) <= error + 1.0
  {
    MulGrows(basis, closing, held);
    TruncDivOfNats(basis * closing, held);
    SliceGap(basis, exact, closing, held, error);
  }

  lemma ExactReduced(x: Exact, h: Holding, f: Fill)
    requires 0 < f.qty && !Opening(h, f.side, f.qty) && f.qty < Magnitude(h.qty)
    ensures ExactFilled(x, h, f).basis == x.basis - Share(x.basis, f.qty, Magnitude(h.qty))
    ensures Share(-x.basis, f.qty, Magnitude(h.qty)) == -Share(x.basis, f.qty, Magnitude(h.qty))
  {
    hide Notional, ExactNotional;
    Negated(x.basis, f.qty as real / Magnitude(h.qty) as real);
  }

  lemma Reduced(h: Holding, f: Fill)
    requires 0 < f.qty && !Opening(h, f.side, f.qty) && f.qty < Magnitude(h.qty)
    ensures Filled(h, f).basis == h.basis - Directed(h, TruncDiv(Magnitude(h.basis) * f.qty, Magnitude(h.qty)))
  {
    hide Notional, TruncDiv;
  }

  lemma Negated(x: real, y: real)
    ensures -x * y == -(x * y)
  {
  }

  // ---------------------------------------------------------------- any number of fills

  function ExactRun(fills: seq<Fill>): Exact
    requires Proper(fills)
  {
    if fills == [] then Exact(0.0, 0.0, 0.0)
    else
      var before, f := fills[..|fills| - 1], fills[|fills| - 1];
      ExactFilled(ExactRun(before), Run(before), f)
  }

  function ExactSpent(fills: seq<Fill>): real {
    if fills == [] then 0.0
    else
      var f := fills[|fills| - 1];
      ExactSpent(fills[..|fills| - 1]) + SignedReal(f.side, ExactNotional(f.price, f.qty))
  }

  lemma ExactNotionalSplits(price: int, a: int, b: int)
    ensures ExactNotional(price, a + b) == ExactNotional(price, a) + ExactNotional(price, b)
  {
    assert price * (a + b) == price * a + price * b;
  }

  /** Without rounding, basis less realised moves by exactly the notional. */
  lemma ExactLaw(x: Exact, h: Holding, f: Fill)
    requires 0 < f.qty
    ensures
      var x' := ExactFilled(x, h, f);
      x'.basis - x'.realized == x.basis - x.realized + SignedReal(f.side, ExactNotional(f.price, f.qty))
  {
    if !Opening(h, f.side, f.qty) {
      var closing := Closing(h, f.qty);
      ExactNotionalSplits(f.price, closing, f.qty - closing);
      if f.qty > closing { WholeShare(x.basis, closing); }
    }
    hide ExactNotional;
  }

  lemma {:induction false} ExactIsConserved(fills: seq<Fill>)
    requires Proper(fills)
    ensures ExactRun(fills).basis - ExactRun(fills).realized == ExactSpent(fills)
  {
    if fills != [] {
      var before := fills[..|fills| - 1];
      ExactIsConserved(before);
      ExactLaw(ExactRun(before), Run(before), fills[|fills| - 1]);
    }
  }

  lemma {:induction false} SpentStrays(fills: seq<Fill>)
    requires Proper(fills)
    ensures Near(Spent(fills), ExactSpent(fills), |fills| as real)
  {
    if fills != [] {
      var f := fills[|fills| - 1];
      SpentStrays(fills[..|fills| - 1]);
      TruncationGap(f.price, f.qty);
      hide Notional, ExactNotional;
    }
  }

  lemma {:induction false} BasisStaysNear(fills: seq<Fill>)
    requires Proper(fills)
    ensures Near(Run(fills).basis, ExactRun(fills).basis, |fills| as real)
  {
    if fills != [] {
      var before := fills[..|fills| - 1];
      BasisStaysNear(before);
      RunLaws(before);
      BasisStrays(Run(before), ExactRun(before), fills[|fills| - 1], |before| as real);
    }
  }

  lemma {:induction false} FlipsAreFills(fills: seq<Fill>)
    ensures FlipCount(fills) <= |fills|
  {
    if fills != [] { FlipsAreFills(fills[..|fills| - 1]); }
  }

  function Ledgered(fills: seq<Fill>, instrument: string): seq<Row> {
    seq(|fills|, k requires 0 <= k < |fills| =>
                   Row(instrument, fills[k].side, Decimal(fills[k].qty), Decimal(fills[k].price)))
  }

  lemma {:induction false} WalkIsExact(fills: seq<Fill>, instrument: string)
    requires Proper(fills)
    ensures Positive(Ledgered(fills, instrument))
    ensures Reads(WalkOf(Ledgered(fills, instrument), instrument), ExactRun(fills), Run(fills).qty)
  {
    var rows := Ledgered(fills, instrument);
    if fills != [] {
      var before, f := fills[..|fills| - 1], fills[|fills| - 1];
      WalkIsExact(before, instrument);
      assert rows[..|rows| - 1] == Ledgered(before, instrument);
      RunLaws(before);
      FillLaw(Run(before), f);
      WalkReads(WalkOf(Ledgered(before, instrument), instrument), ExactRun(before), Run(before), f);
    }
  }

  /** What the open position cost, at its average. */
  function CostOf(w: Walk): real {
    w.avg * w.pos
  }

  lemma ThreeErrors(h: Holding, x: Exact, spent: int, carry: int, exactSpent: real, n: nat)
    requires Near(h.basis, x.basis, n as real) && Near(spent, exactSpent, n as real)
    requires h.basis - h.realized == spent - carry && Magnitude(carry) <= n && x.basis - x.realized == exactSpent
    ensures Near(h.realized, x.realized, 3.0 * n as real)
  {
  }

  lemma ReadsMeans(w: Walk, x: Exact, qty: int)
    requires Reads(w, x, qty)
    ensures w.pos * 100_000_000.0 == qty as real
    ensures x.basis == CostOf(w) * 100_000_000.0 && x.realized == w.realized * 100_000_000.0
  {
  }

  /** After any n fills, through any mix of opens, partial closes, full closes
      and flips: the quantity is exact, the cost basis within n raw units of the
      average-cost basis the ledger walk computes, and the realised P&L within 3n. */
  lemma BookTracksAverageCost(fills: seq<Fill>, instrument: string)
    requires Proper(fills)
    ensures Positive(Ledgered(fills, instrument))
    ensures
      var h, w, n := Run(fills), WalkOf(Ledgered(fills, instrument), instrument), |fills| as real;
      && h.qty == NetQty(fills) && w.pos * 100_000_000.0 == h.qty as real
      && Near(h.basis, CostOf(w) * 100_000_000.0, n)
      && Near(h.realized, w.realized * 100_000_000.0, 3.0 * n)
  {
    hide *;
    WalkIsExact(fills, instrument);
    RunLaws(fills);
    BasisStaysNear(fills);
    ExactIsConserved(fills);
    SpentStrays(fills);
    FlipsAreFills(fills);
    ThreeErrors(Run(fills), ExactRun(fills), Spent(fills), NetCarry(fills), ExactSpent(fills), |fills|);
    ReadsMeans(WalkOf(Ledgered(fills, instrument), instrument), ExactRun(fills), Run(fills).qty);
  }
}
