/** Fixed-point decimals: int64 in units of 1e-8.  Arithmetic on int64 wraps;
    products are held in 128 bits as two uint64 words. */
module Fixed {
  import opened Common

  const SCALE: int := 100_000_000
  const SCALE_DIGITS := 8
  const TWO_63: int := 0x8000_0000_0000_0000

  type U64 = x: int | 0 <= x < TWO_64

  /** What int64 arithmetic keeps of an exact result. */
  function Wrap(x: int): (w: I64)
    ensures FitsI64(x) ==> w == x
  {
    (x + TWO_63) % TWO_64 - TWO_63
  }

  function Saturate(x: int): I64 {
    if x < I64_MIN then I64_MIN else if x > I64_MAX then I64_MAX else x
  }

  function Magnitude(x: int): nat {
    if x < 0 then -x else x
  }

  /** Division as Go does it: the quotient of the magnitudes, with the sign put back. */
  function TruncDiv(n: int, d: int): int
    requires d != 0
  {
    var q := Magnitude(n) / Magnitude(d);
    if (n < 0) != (d < 0) then -q else q
  }

  function TruncMod(n: int, d: int): int
    requires d != 0
  {
    n - d * TruncDiv(n, d)
  }

  /** Truncation is the one quotient that is not beyond the exact value and
      within one unit of it. */
  lemma TruncDivIsTowardZero(n: int, d: int, q: int)
    requires d != 0
    ensures q == TruncDiv(n, d) <==>
              && Magnitude(q) * Magnitude(d) <= Magnitude(n) < (Magnitude(q) + 1) * Magnitude(d)
              && (q == 0 || ((q < 0) == ((n < 0) != (d < 0))))
  {
    var m, e, k := Magnitude(n), Magnitude(d), Magnitude(q);
    QuotientIsUnique(m, e, k);
  }

  lemma QuotientIsUnique(m: nat, e: nat, k: nat)
    requires e > 0
    ensures k == m / e <==> k * e <= m < (k + 1) * e
  {
    var r := m / e;
    assert m == r * e + m % e;
    if k < r {
      assert (k + 1) * e <= r * e;
    } else if k > r {
      assert (r + 1) * e <= k * e;
    }
  }

  // ---------------------------------------------------------------- 128-bit products

  /** bits.Mul64: the high and low words of the product. */
  function Mul64(x: U64, y: U64): (words: (U64, U64))
    ensures words.0 * TWO_64 + words.1 == x * y
  {
    ProductFits(x, y);
    (x * y / TWO_64, x * y % TWO_64)
  }

  lemma ProductFits(x: U64, y: U64)
    ensures 0 <= x * y < TWO_64 * TWO_64
  {
    assert x * y <= x * TWO_64 <= TWO_64 * TWO_64;
    if y < TWO_64 && x > 0 { assert x * y < x * TWO_64; }
  }

  /** bits.Div64: it panics unless the quotient fits in a word. */
  function Div64(hi: U64, lo: U64, y: U64): (r: (U64, U64))
    requires hi < y
  {
    QuotientFits(hi, lo, y);
    (Quotient(hi, lo, y), (hi * TWO_64 + lo) % y)
  }

  /** Two words over one. */
  function Quotient(hi: U64, lo: U64, y: U64): nat
    requires 0 < y
  {
    (hi * TWO_64 + lo) / y
  }

  lemma QuotientFits(hi: U64, lo: U64, y: U64)
    requires 0 < y
    ensures Quotient(hi, lo, y) < TWO_64 <==> hi < y
  {
    var n := hi * TWO_64 + lo;
    assert n < TWO_64 * y <==> hi < y;
    QuotientBelow(n, y, TWO_64);
  }

  lemma QuotientBelow(n: nat, y: nat, w: nat)
    requires y > 0
    ensures n / y < w <==> n < w * y
  {
    var q := n / y;
    QuotientIsUnique(n, y, q);
    if q < w {
      assert (q + 1) * y <= w * y;
    } else {
      assert w * y <= q * y;
    }
  }

  /** The magnitude as a word, which the most negative value needs. */
  method Abs64(v: I64) returns (u: U64)
    ensures u == Magnitude(v)
  {
    if v < 0 {
      return Wrap(-(v + 1)) + 1;
    }
    return v;
  }

  /** The exact quotient, truncated toward zero and clamped to int64; 0 over 0. */
  method MulDiv(a: I64, b: I64, d: I64) returns (r: I64)
    ensures r == if d == 0 then 0 else Saturate(TruncDiv(a * b, d))
  {
    hide Quotient, Magnitude, Wrap, TruncDiv;
    if d == 0 {
      return 0;
    }
    var negative := (a < 0) != (b < 0);
    var divisor := d;
    if divisor < 0 {
      negative := !negative;
      divisor := Wrap(0 - divisor);
    }
    var ua := Abs64(a);
    var ub := Abs64(b);
    var (hi, lo) := Mul64(ua, ub);
    DivisorIs(d);
    var ud: U64 := divisor % TWO_64;  // uint64(d)
    QuotientIs(a, b, d, hi, lo, ud);
    QuotientFits(hi, lo, ud);
    if hi >= ud {
      if negative {
        return I64_MIN;
      }
      return I64_MAX;
    }
    var (quotient, _) := Div64(hi, lo, ud);
    if negative {
      if quotient > TWO_63 {
        return I64_MIN;
      }
      NegatedWord(quotient);
      return Wrap(0 - Wrap(quotient));
    }
    if quotient > I64_MAX {
      return I64_MAX;
    }
    return quotient;
  }

  /** Negated where negative and reinterpreted as uint64, the divisor is its magnitude. */
  lemma DivisorIs(d: I64)
    ensures (if d < 0 then Wrap(0 - d) else d) % TWO_64 == Magnitude(d)
    ensures d != 0 ==> Magnitude(d) > 0
  {
  }

  lemma NegatedWord(q: U64)
    requires q <= TWO_63
    ensures Wrap(0 - Wrap(q)) == 0 - q
  {
  }

  /** The signed quotient, from the words of the magnitudes' product. */
  lemma QuotientIs(a: I64, b: I64, d: I64, hi: U64, lo: U64, ud: U64)
    requires d != 0 && hi * TWO_64 + lo == Magnitude(a) * Magnitude(b) && ud == Magnitude(d)
    ensures
      var q := Quotient(hi, lo, ud);
      TruncDiv(a * b, d) == if ((a < 0) != (b < 0)) != (d < 0) then 0 - q else q
  {
    MagnitudeOfProduct(a, b);
    if a * b == 0 { QuotientIsUnique(0, Magnitude(d), 0); }
  }

  lemma MagnitudeOfProduct(a: int, b: int)
    ensures Magnitude(a * b) == Magnitude(a) * Magnitude(b)
    ensures a * b != 0 ==> ((a * b < 0) <==> ((a < 0) != (b < 0)))
    ensures a * b == 0 <==> a == 0 || b == 0
  {
  }
}
