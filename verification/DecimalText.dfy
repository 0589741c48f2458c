/** The text form of a fixed-point decimal: what `Parse` accepts and what it
    means, and that `String` writes what `Parse` reads back. */
module DecimalText {
  import opened Common
  import opened Fixed

  datatype Error = Empty | Malformed | TooPrecise | OutOfRange

  datatype Result = Ok(raw: I64) | Err(error: Error)

  const MAX_WHOLE := 92_233_720_368  // the whole part of 2^63 / SCALE

  // ---------------------------------------------------------------- digits

  predicate IsDigit(c: char) {
    '0' <= c <= '9'
  }

  predicate AllDigits(s: string) {
    forall i | 0 <= i < |s| :: IsDigit(s[i])
  }

  function DigitValue(c: char): nat
    requires IsDigit(c)
  {
    c as int - '0' as int
  }

  /** The number a string of digits stands for. */
  function Value(s: string): nat
    requires AllDigits(s)
  {
    if s == "" then 0 else Value(s[..|s| - 1]) * 10 + DigitValue(s[|s| - 1])
  }

  function Pow10(n: nat): (p: nat)
    ensures p >= 1
  {
    if n == 0 then 1 else 10 * Pow10(n - 1)
  }

  lemma ValueSnoc(s: string, k: nat)
    requires k < |s| && AllDigits(s[..k + 1])
    ensures AllDigits(s[..k]) && Value(s[..k + 1]) == Value(s[..k]) * 10 + DigitValue(s[k])
  {
    assert s[..k + 1][..k] == s[..k];
    forall i | 0 <= i < k ensures IsDigit(s[i]) { assert s[..k + 1][i] == s[i]; }
    assert s[..k + 1][k] == s[k];
  }

  lemma {:induction false} ValueGrows(s: string, k: nat)
    requires AllDigits(s) && k <= |s|
    ensures AllDigits(s[..k]) && Value(s[..k]) <= Value(s)
  {
    if k == |s| {
      assert s[..k] == s;
    } else {
      var rest := s[..|s| - 1];
      assert rest[..k] == s[..k];
      ValueGrows(rest, k);
    }
  }

  lemma {:induction false} ValueOfConcat(a: string, b: string)
    requires AllDigits(a) && AllDigits(b)
    ensures AllDigits(a + b) && Value(a + b) == Value(a) * Pow10(|b|) + Value(b)
  {
    if b == "" {
      assert a + b == a;
    } else {
      var rest := b[..|b| - 1];
      ValueOfConcat(a, rest);
      assert (a + b)[..|a + b| - 1] == a + rest;
      assert Pow10(|b|) == 10 * Pow10(|rest|);
      TimesTen(Value(a), Pow10(|rest|), Value(rest));
    }
  }

  lemma TimesTen(x: int, p: int, y: int)
    ensures (x * p + y) * 10 == x * (10 * p) + y * 10
  {
  }

  lemma {:induction false} ValueBelow(s: string)
    requires AllDigits(s)
    ensures Value(s) < Pow10(|s|)
  {
    if s != "" { ValueBelow(s[..|s| - 1]); }
  }

  // ---------------------------------------------------------------- the shape of a decimal

  predicate Negative(s: string) {
    s != "" && s[0] == '-'
  }

  predicate Signed(s: string) {
    s != "" && (s[0] == '-' || s[0] == '+')
  }

  function Unsigned(s: string): string {
    if Signed(s) then s[1..] else s
  }

  /** Where the first point is, or the length. */
  function Dot(b: string): (k: nat)
    ensures k <= |b| && (k < |b| ==> b[k] == '.') && forall i | 0 <= i < k :: b[i] != '.'
  {
    if b == "" || b[0] == '.' then 0 else 1 + Dot(b[1..])
  }

  function Whole(b: string): string {
    b[..Dot(b)]
  }

  function Fraction(b: string): string {
    if Dot(b) < |b| then b[Dot(b) + 1..] else ""
  }

  predicate Over(whole: string) {
    exists k | 0 <= k <= |whole| :: AllDigits(whole[..k]) && Value(whole[..k]) > MAX_WHOLE
  }

  /** A digit beyond the scale that carries value, reached before anything malformed. */
  predicate TooFine(fraction: string) {
    exists k | SCALE_DIGITS <= k < |fraction| :: AllDigits(fraction[..k]) && IsDigit(fraction[k]) && fraction[k] != '0'
  }

  function Kept(fraction: string): string {
    if |fraction| <= SCALE_DIGITS then fraction else fraction[..SCALE_DIGITS]
  }

  /** The fraction in raw units: eight places, missing ones being zero. */
  function FractionRaw(kept: string): nat
    requires AllDigits(kept) && |kept| <= SCALE_DIGITS
  {
    Value(kept) * Pow10(SCALE_DIGITS - |kept|)
  }

  function ErrorOf(s: string): Option<Error> {
    var b := Unsigned(s);
    var whole, fraction := Whole(b), Fraction(b);
    if b == "" then Some(Empty)
    else if Over(whole) then Some(OutOfRange)
    else if !AllDigits(whole) then Some(Malformed)
    else if Dot(b) == |b| then None
    else if fraction == "" then Some(Malformed)
    else if TooFine(fraction) then Some(TooPrecise)
    else if !AllDigits(fraction) then Some(Malformed)
    else None
  }

  lemma AcceptedIsDigits(s: string)
    requires ErrorOf(s).None?
    ensures AllDigits(Whole(Unsigned(s))) && AllDigits(Fraction(Unsigned(s))) && AllDigits(Kept(Fraction(Unsigned(s))))
  {
  }

  /** The exact value in raw units of a string that is accepted. */
  function Exact(s: string): int
    requires ErrorOf(s).None?
  {
    AcceptedIsDigits(s);
    var b := Unsigned(s);
    var magnitude := Value(Whole(b)) * SCALE + FractionRaw(Kept(Fraction(b)));
    if Negative(s) then -magnitude else magnitude
  }

  function Meaning(s: string): Result {
    if ErrorOf(s).Some? then Err(ErrorOf(s).value) else Ok(Wrap(Exact(s)))
  }

  // ---------------------------------------------------------------- reading

  /** One pass over the text: sign, digits before the point, digits after it. */
  method Parse(s: string) returns (r: Result)
    ensures r == Meaning(s)
  {
    hide Value, Pow10, FractionRaw, Kept, Meaning, ErrorOf, Wrap, AllDigits, Over, TooFine, Exact, GoodWhole,
         RawSoFar, Dot, Magnitude, Fraction, Whole;
    if s == "" {
      NothingThere(s);
      return Err(Empty);
    }
    var i, negative := 0, false;
    if s[0] == '-' {
      negative, i := true, 1;
    } else if s[0] == '+' {
      i := 1;
    }
    if i >= |s| {
      NothingThere(s);
      return Err(Empty);
    }
    assert Unsigned(s) == s[i..];
    hide Unsigned, Signed;
    var seenDigit := s[i] != '.';
    var read, stop := ParseWhole(s, i);
    if read.Err? {
      return read;
    }
    if stop >= |s| {
      WholeIsAll(s);
    } else {
      FractionFollows(Unsigned(s));
      read := ParseFraction(s, stop + 1, read.raw);
      if read.Err? {
        return read;
      }
      seenDigit := true;  // a point is followed by at least one digit
    }
    if !seenDigit {
      return Err(Empty);
    }
    WrapNegates(s, read.raw);
    if negative {
      return Ok(Wrap(0 - read.raw));
    }
    return read;
  }

  /** The digits before the point, in whole units. */
  method ParseWhole(s: string, start: nat) returns (r: Result, i: nat)
    requires start < |s| && Unsigned(s) == s[start..]
    ensures r.Err? ==> r == Meaning(s)
    ensures r.Ok? ==>
      var b := Unsigned(s);
      GoodWhole(b) && r.raw == Value(Whole(b)) * SCALE && i == start + Dot(b)
  {
    hide Value, Meaning, AllDigits, GoodWhole, Dot, Fraction, Whole, Unsigned;
    ghost var b := Unsigned(s);
    var magnitude: I64 := 0;
    i := start;
    NoDigitsYet(b);
    while i < |s| && s[i] != '.'
      invariant start <= i <= |s| && i - start <= Dot(b)
      invariant AllDigits(b[..i - start]) && magnitude == Value(b[..i - start]) <= MAX_WHOLE
    {
      ghost var k := i - start;
      assert b[k] == s[i];
      if !IsDigit(s[i]) {
        WholeIsMalformed(s, k);
        return Err(Malformed), i;
      }
      NextDigit(b, k);
      if magnitude * 10 + DigitValue(s[i]) > MAX_WHOLE {
        WholeIsOver(s, k + 1);
        return Err(OutOfRange), i;
      }
      magnitude := magnitude * 10 + DigitValue(s[i]);
      i := i + 1;
    }
    assert i < |s| ==> b[i - start] == '.';
    WholeEnds(b, i - start);
    return Ok(magnitude * SCALE), i;
  }

  /** The digits after the point, added to the magnitude a place at a time. */
  method ParseFraction(s: string, start: nat, units: I64) returns (r: Result)
    requires var b := Unsigned(s);
             && b != "" && GoodWhole(b) && Dot(b) < |b| && units == Value(Whole(b)) * SCALE
             && start <= |s| && s[start..] == Fraction(b)
    ensures r.Err? ==> r == Meaning(s)
    ensures r.Ok? ==> ErrorOf(s).None? && r.raw == Wrap(Magnitude(Exact(s)))
  {
    hide Value, Pow10, FractionRaw, Kept, Meaning, ErrorOf, Wrap, AllDigits, Over, TooFine, Exact, GoodWhole,
         RawSoFar, Dot, Magnitude, Fraction, Whole, Unsigned;
    ghost var fraction := s[start..];
    var magnitude: I64 := units;
    var i, place, digits := start, SCALE, 0;
    FractionStarts(fraction, magnitude);
    while i < |s|
      invariant start <= i <= |s| && digits == i - start
      invariant AllDigits(fraction[..digits])
      invariant forall k | SCALE_DIGITS <= k < digits :: fraction[k] == '0'
      invariant place == Pow10(SCALE_DIGITS - if digits <= SCALE_DIGITS then digits else SCALE_DIGITS)
      invariant RawSoFar(fraction, digits, units, magnitude)
    {
      ghost var k := digits;
      assert s[i] == fraction[k];
      if !IsDigit(s[i]) {
        FractionIsMalformed(s, k);
        return Err(Malformed);
      }
      NextDigit(fraction, k);
      digits := digits + 1;
      if digits > SCALE_DIGITS {
        if s[i] != '0' {
          FractionIsTooFine(s, k);
          return Err(TooPrecise);
        }
        ExtraZero(fraction, k, units);
      } else {
        place := place / 10;
        NextPlace(fraction, k, units);
        magnitude := Wrap(magnitude + DigitValue(s[i]) * place);
      }
      i := i + 1;
    }
    if digits == 0 {
      NoFraction(s);
      return Err(Malformed);
    }
    assert fraction[..digits] == fraction;
    WholeAndFraction(s, magnitude);
    return Ok(magnitude);
  }

  // ---------------------------------------------------------------- each way out

  lemma NothingThere(s: string)
    requires Unsigned(s) == ""
    ensures Meaning(s) == Err(Empty)
  {
  }

  lemma NoDigitsYet(b: string)
    ensures AllDigits(b[..0]) && Value(b[..0]) == 0
  {
  }

  lemma NextDigit(b: string, k: nat)
    requires k < |b| && AllDigits(b[..k]) && IsDigit(b[k])
    ensures AllDigits(b[..k + 1]) && Value(b[..k + 1]) == Value(b[..k]) * 10 + DigitValue(b[k])
  {
    assert b[..k + 1] == b[..k] + [b[k]];
    ValueSnoc(b, k);
  }

  lemma WholeEnds(b: string, k: nat)
    requires k <= Dot(b) && (k < |b| ==> b[k] == '.')
    ensures k == Dot(b) && Whole(b) == b[..k]
    ensures AllDigits(b[..k]) && Value(b[..k]) <= MAX_WHOLE ==> GoodWhole(b)
  {
  }

  lemma FractionFollows(b: string)
    requires Dot(b) < |b|
    ensures Fraction(b) == b[Dot(b) + 1..]
  {
  }

  lemma WholeIsMalformed(s: string, k: nat)
    requires var b := Unsigned(s);
             k < |b| && k < Dot(b) && AllDigits(b[..k]) && Value(b[..k]) <= MAX_WHOLE && !IsDigit(b[k])
    ensures Meaning(s) == Err(Malformed)
  {
    var b := Unsigned(s);
    var whole := Whole(b);
    assert whole[k] == b[k] && whole[..k] == b[..k];
    forall j | k < j <= |whole| ensures !AllDigits(whole[..j]) {
      assert whole[..j][k] == b[k];
    }
    forall j | 0 <= j <= k ensures AllDigits(whole[..j]) && Value(whole[..j]) <= MAX_WHOLE {
      assert whole[..j] == whole[..k][..j];
      ValueGrows(whole[..k], j);
    }
    hide Value;
  }

  lemma WholeIsOver(s: string, k: nat)
    requires var b := Unsigned(s); b != "" && k <= Dot(b) && AllDigits(b[..k]) && Value(b[..k]) > MAX_WHOLE
    ensures Meaning(s) == Err(OutOfRange)
  {
    assert Whole(Unsigned(s))[..k] == Unsigned(s)[..k];
  }

  predicate GoodWhole(b: string) {
    AllDigits(Whole(b)) && Value(Whole(b)) <= MAX_WHOLE
  }

  lemma GoodIsNotOver(b: string)
    requires GoodWhole(b)
    ensures !Over(Whole(b))
  {
    forall j | 0 <= j <= |Whole(b)| ensures AllDigits(Whole(b)[..j]) && Value(Whole(b)[..j]) <= MAX_WHOLE {
      ValueGrows(Whole(b), j);
    }
  }

  lemma FractionIsMalformed(s: string, k: nat)
    requires var b := Unsigned(s); b != "" && GoodWhole(b) && Dot(b) < |b|
    requires var f := Fraction(Unsigned(s));
             && k < |f| && AllDigits(f[..k]) && !IsDigit(f[k])
             && forall j | SCALE_DIGITS <= j < k :: f[j] == '0'
    ensures Meaning(s) == Err(Malformed)
  {
    GoodIsNotOver(Unsigned(s));
    var f := Fraction(Unsigned(s));
    forall j | k < j < |f| ensures !AllDigits(f[..j]) {
      assert f[..j][k] == f[k];
    }
    hide Value;
  }

  lemma FractionIsTooFine(s: string, k: nat)
    requires var b := Unsigned(s); b != "" && GoodWhole(b) && Dot(b) < |b|
    requires var f := Fraction(Unsigned(s));
             SCALE_DIGITS <= k < |f| && AllDigits(f[..k]) && IsDigit(f[k]) && f[k] != '0'
    ensures Meaning(s) == Err(TooPrecise)
  {
    GoodIsNotOver(Unsigned(s));
    hide Value;
  }

  lemma NoFraction(s: string)
    requires var b := Unsigned(s); b != "" && GoodWhole(b) && Dot(b) < |b| && Fraction(b) == ""
    ensures Meaning(s) == Err(Malformed)
  {
    GoodIsNotOver(Unsigned(s));
  }

  lemma WholeIsAll(s: string)
    requires var b := Unsigned(s); b != "" && GoodWhole(b) && Dot(b) == |b|
    ensures ErrorOf(s).None? && Wrap(Magnitude(Exact(s))) == Value(Whole(Unsigned(s))) * SCALE
  {
    GoodIsNotOver(Unsigned(s));
    ScaleIsPow10();
  }

  /** The magnitude after `digits` digits of the fraction; more than eight add nothing. */
  predicate RawSoFar(fraction: string, digits: nat, units: nat, magnitude: I64) {
    && digits <= |fraction| && AllDigits(Kept(fraction[..digits]))
    && magnitude == Wrap(units + FractionRaw(Kept(fraction[..digits])))
  }

  lemma FractionStarts(fraction: string, magnitude: I64)
    requires 0 <= magnitude
    ensures AllDigits(fraction[..0]) && Pow10(SCALE_DIGITS) == SCALE && RawSoFar(fraction, 0, magnitude, magnitude)
  {
    ScaleIsPow10();
  }

  lemma ScaleIsPow10()
    ensures Pow10(8) == SCALE && Pow10(0) == 1
  {
    assert Pow10(4) == 10_000;
    assert Pow10(8) == 10 * (10 * (10 * (10 * Pow10(4))));
  }

  lemma ExtraZero(fraction: string, k: nat, units: nat)
    requires SCALE_DIGITS <= k < |fraction|
    ensures forall m: I64 | RawSoFar(fraction, k, units, m) :: RawSoFar(fraction, k + 1, units, m)
  {
    assert Kept(fraction[..k + 1]) == Kept(fraction[..k]);
  }

  lemma NextPlace(fraction: string, k: nat, units: nat)
    requires k < SCALE_DIGITS && k < |fraction| && AllDigits(fraction[..k + 1])
    ensures Pow10(SCALE_DIGITS - k) / 10 == Pow10(SCALE_DIGITS - k - 1)
    ensures forall m: I64 | RawSoFar(fraction, k, units, m) ::
              RawSoFar(fraction, k + 1, units, Wrap(m + DigitValue(fraction[k]) * Pow10(SCALE_DIGITS - k - 1)))
  {
    ValueSnoc(fraction, k);
    var p := Pow10(SCALE_DIGITS - k - 1);
    var v, d := Value(fraction[..k]), DigitValue(fraction[k]);
    assert Pow10(SCALE_DIGITS - k) == 10 * p;
    Spread(v, d, p);
    assert FractionRaw(fraction[..k + 1]) == FractionRaw(fraction[..k]) + d * p;
    WrapAdds(units + FractionRaw(fraction[..k]), d * p);
    hide FractionRaw, Wrap, Value, Pow10;
  }

  lemma Spread(v: int, d: int, p: int)
    ensures (v * 10 + d) * p == v * (10 * p) + d * p
  {
  }

  lemma WrapAdds(x: int, y: int)
    ensures Wrap(Wrap(x) + y) == Wrap(x + y)
    ensures Wrap(0 - Wrap(x)) == Wrap(-x)
  {
    var k := (x - Wrap(x)) / TWO_64;
    assert x == Wrap(x) + k * TWO_64;
    WrapRepeats(Wrap(x) + y, k);
    WrapRepeats(0 - Wrap(x), -k);
    hide Wrap;
  }

  lemma WrapRepeats(x: int, k: int)
    ensures Wrap(x + k * TWO_64) == Wrap(x)
  {
    var m := x + TWO_63;
    assert m + k * TWO_64 == (m / TWO_64 + k) * TWO_64 + m % TWO_64;
  }

  lemma WholeAndFraction(s: string, magnitude: I64)
    requires var b := Unsigned(s);
             b != "" && GoodWhole(b) && Dot(b) < |b| && Fraction(b) != "" && AllDigits(Fraction(b))
    requires var f := Fraction(Unsigned(s));
             && (forall k | SCALE_DIGITS <= k < |f| :: f[k] == '0')
             && RawSoFar(f, |f|, Value(Whole(Unsigned(s))) * SCALE, magnitude)
    ensures ErrorOf(s).None? && magnitude == Wrap(Magnitude(Exact(s)))
  {
    GoodIsNotOver(Unsigned(s));
    var f := Fraction(Unsigned(s));
    assert f[..|f|] == f;
  }

  lemma WrapNegates(s: string, magnitude: I64)
    requires ErrorOf(s).None? && magnitude == Wrap(Magnitude(Exact(s)))
    ensures Meaning(s) == Ok(if Negative(s) then Wrap(0 - magnitude) else magnitude)
  {
    hide ErrorOf;
    WrapAdds(Magnitude(Exact(s)), 0);
    hide Wrap;
  }

  // ---------------------------------------------------------------- exactness

  lemma {:induction false} Pow10Adds(a: nat, b: nat)
    ensures Pow10(a + b) == Pow10(a) * Pow10(b)
  {
    if a > 0 {
      Pow10Adds(a - 1, b);
      TimesTen(Pow10(a - 1), Pow10(b), 0);
    }
  }

  lemma {:induction false} ZerosAddNothing(z: string)
    requires forall i | 0 <= i < |z| :: z[i] == '0'
    ensures AllDigits(z) && Value(z) == 0
  {
    if z != "" { ZerosAddNothing(z[..|z| - 1]); }
  }

  /** The fraction's raw units are its digits read at the scale. */
  lemma FractionIsExact(f: string)
    requires AllDigits(f) && forall i | SCALE_DIGITS <= i < |f| :: f[i] == '0'
    ensures AllDigits(Kept(f)) && FractionRaw(Kept(f)) * Pow10(|f|) == Value(f) * SCALE
  {
    ScaleIsPow10();
    var k := Kept(f);
    if |f| <= SCALE_DIGITS {
      Pow10Adds(SCALE_DIGITS - |f|, |f|);
      Reassociate(Value(f), Pow10(SCALE_DIGITS - |f|), Pow10(|f|));
    } else {
      var rest := f[SCALE_DIGITS..];
      assert f == k + rest;
      ZerosAddNothing(rest);
      ValueOfConcat(k, rest);
      Pow10Adds(|rest|, SCALE_DIGITS);
      Reassociate(Value(k), Pow10(|rest|), SCALE);
    }
  }

  lemma Reassociate(x: int, y: int, z: int)
    ensures x * y * z == x * (y * z)
  {
  }

  /** An accepted text denotes its digits over a power of ten, and that is what
      `Parse` returns exactly when it fits; otherwise the result has wrapped once. */
  lemma ParseIsExact(s: string)
    requires ErrorOf(s).None?
    ensures
      var whole, fraction := Whole(Unsigned(s)), Fraction(Unsigned(s));
      && AllDigits(whole + fraction)
      && Magnitude(Exact(s)) * Pow10(|fraction|) == Value(whole + fraction) * SCALE
      && (Exact(s) < 0 ==> Negative(s)) && (Exact(s) > 0 ==> !Negative(s))
    ensures Meaning(s).Ok?
    ensures Meaning(s).raw == Exact(s) <==> FitsI64(Exact(s))
    ensures !FitsI64(Exact(s)) ==> Meaning(s).raw == Exact(s) + if Negative(s) then TWO_64 else -TWO_64
  {
    hide ErrorOf, Wrap;
    AcceptedIsDigits(s);
    AcceptedFraction(s);
    var whole, f := Whole(Unsigned(s)), Fraction(Unsigned(s));
    ValueOfConcat(whole, f);
    FractionIsExact(f);
    WholeInRange(s);
    FractionInRange(Kept(f));
    WrapsOnce(Exact(s));
    hide Value, Pow10, FractionRaw, Whole, Fraction, Unsigned, Kept, AllDigits;
    AddExactly(Value(whole), Pow10(|f|), FractionRaw(Kept(f)));
  }

  lemma AcceptedFraction(s: string)
    requires ErrorOf(s).None?
    ensures var f := Fraction(Unsigned(s)); forall i | SCALE_DIGITS <= i < |f| :: f[i] == '0'
  {
    AcceptedIsDigits(s);
    var f := Fraction(Unsigned(s));
    forall i | SCALE_DIGITS <= i < |f| ensures f[i] == '0' {
      assert IsDigit(f[i]) && AllDigits(f[..i]);
    }
  }

  lemma WrapsOnce(x: int)
    requires -TWO_64 < x < TWO_64
    ensures Wrap(x) == x <==> FitsI64(x)
    ensures !FitsI64(x) ==> Wrap(x) == x + if x < 0 then TWO_64 else -TWO_64
  {
  }

  lemma AddExactly(v: int, p: int, raw: int)
    ensures (v * SCALE + raw) * p == (v * p) * SCALE + raw * p
  {
  }

  lemma WholeInRange(s: string)
    requires ErrorOf(s).None?
    ensures AllDigits(Whole(Unsigned(s))) && Value(Whole(Unsigned(s))) <= MAX_WHOLE
  {
    AcceptedIsDigits(s);
    var whole := Whole(Unsigned(s));
    assert whole[..|whole|] == whole;
  }

  lemma FractionInRange(kept: string)
    requires AllDigits(kept) && |kept| <= SCALE_DIGITS
    ensures FractionRaw(kept) < SCALE
  {
    ValueBelow(kept);
    ScaleIsPow10();
    Pow10Adds(|kept|, SCALE_DIGITS - |kept|);
    var p := Pow10(SCALE_DIGITS - |kept|);
    assert Value(kept) * p < Pow10(|kept|) * p;
  }

  /** The fraction is not range-checked: an accepted amount above the largest
      representable one reads back as a negative number. */
  lemma OverflowIsSilent()
    ensures Meaning("92233720368" + ("." + "99999999")) == Ok(-9_223_372_036_809_551_617)
  {
    hide Value, Meaning, FractionRaw, AllDigits, Text, Wrap;
    LargestWhole();
    EightNines();
    TextMeans(false, "92233720368", "99999999");
    FullWidth("99999999");
    PlainText("92233720368", "99999999");
    WrapsOnce(9_223_372_036_899_999_999);
  }

  lemma PlainText(whole: string, digits: string)
    requires digits != ""
    ensures Text(false, whole, digits) == whole + ("." + digits)
  {
  }

  lemma LargestWhole()
    ensures AllDigits("92233720368") && Value("92233720368") == MAX_WHOLE
  {
    var w := "92233720368";
    NoDigitsYet(w);
    hide Value;
    NextDigit(w, 0); NextDigit(w, 1); NextDigit(w, 2); NextDigit(w, 3); NextDigit(w, 4); NextDigit(w, 5);
    NextDigit(w, 6); NextDigit(w, 7); NextDigit(w, 8); NextDigit(w, 9); NextDigit(w, 10);
    assert w[..11] == w;
  }

  lemma EightNines()
    ensures AllDigits("99999999") && Value("99999999") == 99_999_999
  {
    var f := "99999999";
    NoDigitsYet(f);
    hide Value;
    NextDigit(f, 0); NextDigit(f, 1); NextDigit(f, 2); NextDigit(f, 3);
    NextDigit(f, 4); NextDigit(f, 5); NextDigit(f, 6); NextDigit(f, 7);
    assert f[..8] == f;
  }

  lemma {:induction false} DotAfter(whole: string, f: string)
    requires AllDigits(whole)
    ensures Dot(whole + "." + f) == |whole|
    ensures Whole(whole + "." + f) == whole && Fraction(whole + "." + f) == f
  {
    if whole != "" {
      DotAfter(whole[1..], f);
      assert (whole + "." + f)[1..] == whole[1..] + "." + f;
    }
  }

  // ---------------------------------------------------------------- writing

  function DigitChar(d: nat): char
    requires d < 10
  {
    ('0' as int + d) as char
  }

  /** The shortest run of digits for a number. */
  function Decimal(n: nat): (s: string)
    ensures AllDigits(s) && s != "" && Value(s) == n && (s[0] == '0' ==> n == 0 && s == "0")
  {
    if n < 10 then
      var s := [DigitChar(n)];
      assert s[..0] == "" && Value(s) == n;
      s
    else
      var s := Decimal(n / 10) + [DigitChar(n % 10)];
      assert s[..|s| - 1] == Decimal(n / 10);
      s
  }

  /** Exactly `width` digits, with leading zeros. */
  function Padded(n: nat, width: nat): (s: string)
    requires n < Pow10(width)
    ensures |s| == width && AllDigits(s) && Value(s) == n
  {
    if width == 0 then ""
    else
      var s := Padded(n / 10, width - 1) + [DigitChar(n % 10)];
      assert s[..width - 1] == Padded(n / 10, width - 1);
      s
  }

  /** No sign but a minus, no padding on either side. */
  predicate Canonical(s: string) {
    var b := Unsigned(s);
    && (Signed(s) ==> Negative(s))
    && Whole(b) != "" && (Whole(b)[0] == '0' ==> Whole(b) == "0")
    && |Fraction(b)| <= SCALE_DIGITS
    && (Fraction(b) != "" ==> Fraction(b)[|Fraction(b)| - 1] != '0')
  }

  /** Write the value so that `Parse` returns it: Parse(String(d)) == d for every
      int64, the most negative included. */
  method String(d: I64) returns (s: string)
    ensures Meaning(s) == Ok(d)
    ensures Canonical(s) && ErrorOf(s).None? && Exact(s) == d && (Negative(s) ==> d < 0)
  {
    hide Meaning, Value, Dot, Padded, Decimal, FractionRaw, Exact, ErrorOf;
    var negative := d < 0;
    var whole, frac: int;
    if negative {
      whole := -TruncDiv(d, SCALE);
      frac := -TruncMod(d, SCALE);
    } else {
      whole := TruncDiv(d, SCALE);
      frac := TruncMod(d, SCALE);
    }
    assert Magnitude(d) == whole * SCALE + frac && 0 <= frac < SCALE && 0 <= whole <= MAX_WHOLE;
    s := if negative then "-" else "";
    s := s + Decimal(whole);
    ghost var digits := "";
    if frac != 0 {
      ScaleIsPow10();
      var tail := Padded(frac, SCALE_DIGITS);
      FullWidth(tail);
      tail := TrimZeros(tail);
      NoFractionRaw();
      assert tail != "";
      digits := tail;
      s := s + ("." + tail);
    } else {
      NoFractionRaw();
    }
    assert s == Text(negative, Decimal(whole), digits);
    TextSplits(negative, Decimal(whole), digits);
    TextMeans(negative, Decimal(whole), digits);
  }

  /** strings.TrimRight(digits, "0") */
  method TrimZeros(digits: string) returns (t: string)
    requires AllDigits(digits) && |digits| <= SCALE_DIGITS
    ensures AllDigits(t) && t <= digits
    ensures FractionRaw(t) == FractionRaw(digits)
    ensures t != "" ==> t[|t| - 1] != '0'
  {
    t := digits;
    while t != "" && t[|t| - 1] == '0'
      invariant t <= digits && AllDigits(t)
      invariant FractionRaw(t) == FractionRaw(digits)
      decreases |t|
    {
      TrailingZero(t);
      t := t[..|t| - 1];
    }
  }

  lemma FullWidth(t: string)
    requires AllDigits(t) && |t| == SCALE_DIGITS
    ensures FractionRaw(t) == Value(t)
  {
  }

  lemma TrailingZero(t: string)
    requires AllDigits(t) && t != "" && |t| <= SCALE_DIGITS && t[|t| - 1] == '0'
    ensures AllDigits(t[..|t| - 1]) && FractionRaw(t[..|t| - 1]) == FractionRaw(t)
  {
    var rest := t[..|t| - 1];
    var p := Pow10(SCALE_DIGITS - |t|);
    assert Pow10(SCALE_DIGITS - |rest|) == 10 * p;
    Spread(Value(rest), 0, p);
  }

  function Text(negative: bool, whole: string, digits: string): string {
    (if negative then "-" else "") + whole + if digits == "" then "" else "." + digits
  }

  lemma TextSplits(negative: bool, whole: string, digits: string)
    requires AllDigits(whole) && whole != "" && AllDigits(digits)
    ensures
      var s := Text(negative, whole, digits);
      var b := Unsigned(s);
      && Negative(s) == negative && (Signed(s) ==> Negative(s))
      && b != "" && Whole(b) == whole && Fraction(b) == digits
      && (Dot(b) == |b| <==> digits == "")
  {
    var s := Text(negative, whole, digits);
    assert s[0] == '-' || IsDigit(s[0]);
    if digits == "" {
      assert Unsigned(s) == whole;
      NoDot(whole);
    } else {
      assert Unsigned(s) == whole + "." + digits;
      DotAfter(whole, digits);
    }
  }

  lemma {:induction false} NoDot(whole: string)
    requires AllDigits(whole)
    ensures Dot(whole) == |whole| && Whole(whole) == whole
  {
    if whole != "" { NoDot(whole[1..]); }
  }

  lemma TextIsRead(negative: bool, whole: string, digits: string)
    requires AllDigits(whole) && whole != "" && Value(whole) <= MAX_WHOLE
    requires AllDigits(digits) && |digits| <= SCALE_DIGITS
    ensures GoodWhole(Unsigned(Text(negative, whole, digits)))
    ensures RawSoFar(digits, |digits|, Value(whole) * SCALE, Wrap(Value(whole) * SCALE + FractionRaw(digits)))
  {
    hide Value, FractionRaw, Wrap, Unsigned, Text;
    TextSplits(negative, whole, digits);
    assert digits[..|digits|] == digits && Kept(digits) == digits;
  }

  lemma TextMeans(negative: bool, whole: string, digits: string)
    requires AllDigits(whole) && whole != "" && Value(whole) <= MAX_WHOLE
    requires AllDigits(digits) && |digits| <= SCALE_DIGITS
    ensures
      var s := Text(negative, whole, digits);
      var magnitude := Value(whole) * SCALE + FractionRaw(digits);
      && ErrorOf(s).None? && Exact(s) == (if negative then -magnitude else magnitude)
      && Meaning(s) == Ok(Wrap(if negative then -magnitude else magnitude))
  {
    hide Text, Unsigned, Whole, Fraction, Dot, Value, FractionRaw, Exact, ErrorOf, Meaning, Negative, Signed, Wrap,
         Magnitude, GoodWhole, RawSoFar, Kept, AllDigits;
    TextSplits(negative, whole, digits);
    TextIsRead(negative, whole, digits);
    var s := Text(negative, whole, digits);
    var magnitude := Value(whole) * SCALE + FractionRaw(digits);
    if digits == "" {
      NoFractionRaw();
      WholeIsAll(s);
    } else {
      WholeAndFraction(s, Wrap(magnitude));
    }
    WrapNegates(s, Wrap(magnitude));
    WrapAdds(magnitude, 0);
    TextIsExact(negative, whole, digits);
  }

  lemma TextIsExact(negative: bool, whole: string, digits: string)
    requires AllDigits(whole) && whole != "" && AllDigits(digits) && |digits| <= SCALE_DIGITS
    requires ErrorOf(Text(negative, whole, digits)).None?
    ensures
      var magnitude := Value(whole) * SCALE + FractionRaw(digits);
      Exact(Text(negative, whole, digits)) == if negative then -magnitude else magnitude
  {
    hide Value, FractionRaw, ErrorOf, Text, Unsigned, Whole, Fraction, Dot, Negative, Signed;
    TextSplits(negative, whole, digits);
  }

  lemma NoFractionRaw()
    ensures FractionRaw("") == 0
  {
  }

  // ---------------------------------------------------------------- how short the text is

  /** Sign, whole part, point and fraction, of a text that is accepted. */
  lemma LengthIs(s: string)
    requires ErrorOf(s).None?
    ensures
      var b := Unsigned(s);
      && |s| == (if Signed(s) then 1 else 0) + |Whole(b)| + (if Dot(b) == |b| then 0 else 1 + |Fraction(b)|)
      && (Dot(b) < |b| ==> Fraction(b) != "") && (Dot(b) == |b| ==> Fraction(b) == "" && Whole(b) != "")
  {
  }

  lemma ExactParts(s: string)
    requires ErrorOf(s).None?
    ensures
      var b := Unsigned(s);
      && AllDigits(Whole(b)) && AllDigits(Fraction(b)) && AllDigits(Kept(Fraction(b)))
      && |Kept(Fraction(b))| <= SCALE_DIGITS && |Kept(Fraction(b))| <= |Fraction(b)|
      && FractionRaw(Kept(Fraction(b))) < SCALE
      && Value(Whole(b)) == Magnitude(Exact(s)) / SCALE
      && FractionRaw(Kept(Fraction(b))) == Magnitude(Exact(s)) % SCALE
      && (Exact(s) < 0 ==> Negative(s))
  {
    AcceptedIsDigits(s);
    var b := Unsigned(s);
    FractionInRange(Kept(Fraction(b)));
    hide Value, FractionRaw, ErrorOf, Unsigned, Whole, Fraction, Dot, Negative, Signed, Kept;
    DivideBack(Value(Whole(b)), FractionRaw(Kept(Fraction(b))));
  }

  lemma DivideBack(w: nat, f: nat)
    requires f < SCALE
    ensures (w * SCALE + f) / SCALE == w && (w * SCALE + f) % SCALE == f
  {
  }

  lemma {:induction false} Pow10Grows(a: nat, b: nat)
    requires a <= b
    ensures Pow10(a) <= Pow10(b)
  {
    if a < b { Pow10Grows(a, b - 1); }
  }

  /** Without a leading zero a number has no more digits than it needs. */
  lemma {:induction false} NoLeadingZero(w: string)
    requires AllDigits(w) && w != "" && w[0] != '0'
    ensures Pow10(|w| - 1) <= Value(w)
  {
    if |w| > 1 {
      NoLeadingZero(w[..|w| - 1]);
    } else {
      assert w[..0] == "" && Value(w) == DigitValue(w[0]);
    }
  }

  lemma WholeIsShortest(w: string, v: string)
    requires AllDigits(w) && AllDigits(v) && Value(w) == Value(v)
    requires w != "" && (w[0] == '0' ==> w == "0")
    ensures Value(w) != 0 || v != "" ==> |w| <= |v|
    ensures w == "0" <==> Value(w) == 0
  {
    hide Value;
    if w == "0" {
      ZeroIsNothing();
      ValueBelow(v);
    } else {
      NoLeadingZero(w);
      ValueBelow(v);
      if |v| <= |w| - 1 { Pow10Grows(|v|, |w| - 1); }
    }
  }

  lemma ZeroIsNothing()
    ensures Value("0") == 0 && Value("") == 0
  {
    assert "0"[..0] == "";
  }

  /** Without a trailing zero a fraction has no more places than it needs. */
  lemma FractionIsShortest(f: string, g: string)
    requires AllDigits(f) && AllDigits(g) && |f| <= SCALE_DIGITS && |g| <= SCALE_DIGITS
    requires f != "" ==> f[|f| - 1] != '0'
    requires FractionRaw(f) == FractionRaw(g)
    ensures |f| <= |g| && (FractionRaw(f) == 0 ==> f == "")
  {
    if |g| < |f| {
      var k, extra := Pow10(SCALE_DIGITS - |f|), |f| - |g|;
      Pow10Adds(SCALE_DIGITS - |f|, extra);
      assert Value(f) * k == Value(g) * (k * Pow10(extra));
      Cancels(Value(f), Value(g) * Pow10(extra), k) by { Regrouped(Value(g), k, Pow10(extra)); }
      assert Pow10(extra) == 10 * Pow10(extra - 1);
      TenTimes(Value(g), Pow10(extra - 1));
      LastDigit(f);
    }
    if f != "" {
      LastDigit(f);
      PositiveFraction(f);
    }
  }

  lemma PositiveFraction(f: string)
    requires AllDigits(f) && |f| <= SCALE_DIGITS && Value(f) != 0
    ensures FractionRaw(f) != 0
  {
    var k := Pow10(SCALE_DIGITS - |f|);
    assert Value(f) * k >= k;
  }

  lemma Cancels(x: int, y: int, k: nat)
    requires k > 0 && x * k == y * k
    ensures x == y
  {
    MoreOf(x, y, k);
    MoreOf(y, x, k);
  }

  lemma MoreOf(x: int, y: int, k: nat)
    requires k > 0
    ensures x < y ==> x * k < y * k
  {
    if x < y { assert (y - x) * k > 0; }
  }

  lemma Regrouped(x: int, k: int, y: int)
    ensures x * (k * y) == (x * y) * k
  {
  }

  lemma TenTimes(x: int, p: int)
    ensures (x * (10 * p)) % 10 == 0
  {
    assert x * (10 * p) == 10 * (x * p);
  }

  lemma LastDigit(f: string)
    requires AllDigits(f) && f != "" && f[|f| - 1] != '0'
    ensures Value(f) % 10 != 0
  {
    var rest, digit := Value(f[..|f| - 1]), DigitValue(f[|f| - 1]);
    assert Value(f) == rest * 10 + digit && 0 < digit <= 9;
    hide *;
    OnesPlace(rest, digit);
  }

  lemma OnesPlace(rest: nat, digit: nat)
    requires digit <= 9
    ensures (rest * 10 + digit) % 10 == digit
  {
  }

  /** What the text of a whole amount, or of nothing, is no longer than. */
  lemma NoTextIsShorter(s: string, r: string)
    requires ErrorOf(s).None? && ErrorOf(r).None? && Exact(r) == Exact(s)
    requires Canonical(s) && (Negative(s) ==> Exact(s) < 0)
    requires Exact(s) == 0 || Magnitude(Exact(s)) >= SCALE
    ensures |s| <= |r|
  {
    ExactParts(s);
    ExactParts(r);
    LengthIs(s);
    LengthIs(r);
    SignedIfNegative(s);
    SignedIfNegative(r);
    var b, c := Unsigned(s), Unsigned(r);
    CanonicalParts(s);
    hide Exact, ErrorOf, Unsigned, Whole, Fraction, Dot, Kept, Value, FractionRaw, Negative, Signed, Canonical,
         AllDigits;
    WholeIsShortest(Whole(b), Whole(c));
    FractionIsShortest(Fraction(b), Kept(Fraction(c)));
  }

  lemma SignedIfNegative(s: string)
    ensures Negative(s) ==> Signed(s)
  {
  }

  lemma CanonicalParts(s: string)
    requires Canonical(s)
    ensures
      var b := Unsigned(s);
      && (Signed(s) ==> Negative(s)) && Whole(b) != "" && (Whole(b)[0] == '0' ==> Whole(b) == "0")
      && |Fraction(b)| <= SCALE_DIGITS && Kept(Fraction(b)) == Fraction(b)
      && (Fraction(b) != "" ==> Fraction(b)[|Fraction(b)| - 1] != '0')
  {
    hide Dot;
  }

  /** An amount less than one can be written without its leading zero. */
  lemma LeadingZeroIsIdle(s: string) returns (r: string)
    requires ErrorOf(s).None? && Canonical(s) && (Negative(s) ==> Exact(s) < 0)
    requires 0 < Magnitude(Exact(s)) < SCALE
    ensures ErrorOf(r).None? && Exact(r) == Exact(s) && |r| == |s| - 1
  {
    var b := Unsigned(s);
    ExactParts(s);
    LengthIs(s);
    CanonicalParts(s);
    SignedIfNegative(s);
    var f := Fraction(b);
    r := (if Negative(s) then "-" else "") + "." + f;
    hide Value;
    WholeIsShortest(Whole(b), "0") by { ZeroIsNothing(); }
    PointFirst(Negative(s), f) by { if f == "" { NoFractionRaw(); } }
    SignOf(s);
  }

  lemma SignOf(s: string)
    requires ErrorOf(s).None? && Exact(s) != 0
    ensures Negative(s) <==> Exact(s) < 0
  {
    hide ErrorOf, Value, FractionRaw;
  }

  lemma PointFirst(negative: bool, f: string)
    requires AllDigits(f) && f != "" && |f| <= SCALE_DIGITS
    ensures
      var r := (if negative then "-" else "") + "." + f;
      ErrorOf(r).None? && Exact(r) == if negative then 0 - FractionRaw(f) else FractionRaw(f)
  {
    var r := (if negative then "-" else "") + "." + f;
    assert Unsigned(r) == "." + f && Dot("." + f) == 0;
    assert Whole(Unsigned(r)) == "" && Fraction(Unsigned(r)) == f && Negative(r) == negative;
    ZeroIsNothing();
    hide Unsigned, Dot, FractionRaw;
  }

  /** No accepted text of the same amount is shorter than what `String` writes if
      and only if the amount is nothing or at least one. */
  lemma ShortestExactly(s: string)
    requires ErrorOf(s).None? && Canonical(s) && (Negative(s) ==> Exact(s) < 0)
    ensures (forall r: string | ErrorOf(r).None? && Exact(r) == Exact(s) :: |s| <= |r|)
       <==> Exact(s) == 0 || Magnitude(Exact(s)) >= SCALE
  {
    hide ErrorOf, Exact, Canonical, Negative;
    if Exact(s) == 0 || Magnitude(Exact(s)) >= SCALE {
      forall r: string | ErrorOf(r).None? && Exact(r) == Exact(s) ensures |s| <= |r| {
        NoTextIsShorter(s, r);
      }
    } else {
      var r := LeadingZeroIsIdle(s);
    }
  }
}
