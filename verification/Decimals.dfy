/**
Arbitrary-precision decimals: a sign, a whole coefficient and a power of ten, as in
Python's `decimal`, with the 28-digit half-even rounding of its default context.
*/
module Decimals {
  import opened Rounding

  datatype Decimal = Decimal(negative: bool, coefficient: nat, exponent: int)

  const ZERO: Decimal := Decimal(false, 0, 0)

  // ---------- powers of ten ----------

  function Scale(e: int): (s: real)
    ensures s > 0.0
  {
    if e >= 0 then PowerOfTen(e) as real else 1.0 / PowerOfTen(-e) as real
  }

  lemma {:induction false} PowersAdd(a: nat, b: nat)
    ensures PowerOfTen(a + b) == PowerOfTen(a) * PowerOfTen(b)
  {
    if a > 0 {
      PowersAdd(a - 1, b);
      assert PowerOfTen(a + b) == 10 * PowerOfTen(a + b - 1);
      assert 10 * (PowerOfTen(a - 1) * PowerOfTen(b)) == (10 * PowerOfTen(a - 1)) * PowerOfTen(b);
    }
  }

  lemma {:induction false} PowersMonotone(a: nat, b: nat)
    requires a <= b
    ensures PowerOfTen(a) <= PowerOfTen(b)
  {
    if a < b {
      PowersMonotone(a, b - 1);
    }
  }

  lemma ScaleStep(e: int)
    ensures Scale(e + 1) == 10.0 * Scale(e)
  {
    if e < 0 {
      var p, q := PowerOfTen(-e), PowerOfTen(-e - 1);
      assert p == 10 * q && p as real == 10.0 * q as real;
      TenthOf(q as real);
      assert Scale(e) == 1.0 / p as real;
      assert Scale(e + 1) == 1.0 / q as real;
    }
  }

  lemma TenthOf(q: real)
    requires q > 0.0
    ensures 1.0 / q == 10.0 * (1.0 / (10.0 * q))
  {
  }

  lemma {:induction false} ScaleShift(e: int, k: nat)
    ensures Scale(e + k) == Product(PowerOfTen(k) as real, Scale(e))
  {
    hide Product, Scale;
    if k == 0 {
      OneTimes(Scale(e));
    } else {
      ScaleShift(e, k - 1);
      ScaleStep(e + k - 1);
      assert PowerOfTen(k) == 10 * PowerOfTen(k - 1);
      TenTimes(PowerOfTen(k - 1), Scale(e));
    }
  }

  lemma OneTimes(x: real)
    ensures Product(1.0, x) == x
  {
  }

  lemma TenTimes(p: nat, x: real)
    ensures Product((10 * p) as real, x) == 10.0 * Product(p as real, x)
  {
    assert (10 * p) as real == 10.0 * p as real;
  }

  // ---------- values ----------

  function Signed(negative: bool, magnitude: nat): int {
    var m: int := magnitude;
    if negative then -m else m
  }

  /** A whole number of steps of 10^exponent. */
  function Steps(count: int, exponent: int): real { Product(count as real, Scale(exponent)) }

  function Value(d: Decimal): real { Steps(Signed(d.negative, d.coefficient), d.exponent) }

  /** The definition, for proofs that hide it. */
  lemma ValueOf(d: Decimal)
    ensures Value(d) == Steps(Signed(d.negative, d.coefficient), d.exponent)
  {
  }

  /** The same value written with a smaller exponent. */
  lemma StepsShift(count: int, exponent: int, k: nat)
    ensures Steps(count, exponent + k) == Steps(count * PowerOfTen(k), exponent)
  {
    hide Product, Scale, PowerOfTen;
    ScaleShift(exponent, k);
    TimesProduct(count, PowerOfTen(k), Scale(exponent));
  }

  lemma TimesProduct(a: int, b: int, x: real)
    ensures Product(a as real, Product(b as real, x)) == Product((a * b) as real, x)
  {
    assert (a * b) as real == a as real * b as real;
  }

  lemma StepsInjective(a: int, b: int, exponent: int)
    ensures Steps(a, exponent) == Steps(b, exponent) <==> a == b
    ensures Steps(a, exponent) < Steps(b, exponent) <==> a < b
    ensures Steps(a, exponent) == 0.0 <==> a == 0
  {
    ProductOrder(a as real, b as real, Scale(exponent));
    ProductOrder(b as real, a as real, Scale(exponent));
    ProductOrder(a as real, 0.0, Scale(exponent));
    ProductOrder(0.0, a as real, Scale(exponent));
    assert Product(0.0, Scale(exponent)) == 0.0;
  }

  lemma ProductOrder(a: real, b: real, c: real)
    requires c > 0.0
    ensures Product(a, c) < Product(b, c) <==> a < b
  {
    if a < b {
      assert (b - a) * c > 0.0;
    } else {
      assert (a - b) * c >= 0.0;
    }
  }

  lemma StepsAdd(a: int, b: int, exponent: int)
    ensures Steps(a, exponent) + Steps(b, exponent) == Steps(a + b, exponent)
    ensures Steps(-a, exponent) == -Steps(a, exponent)
  {
    assert (a + b) as real == a as real + b as real;
    assert (-a) as real == -(a as real);
  }

  // ---------- arithmetic of the default context ----------

  const PRECISION: nat := 28

  function DigitCount(n: nat): (k: nat)
    ensures k >= 1
  {
    if n < 10 then 1 else DigitCount(n / 10) + 1
  }

  lemma {:induction false} DigitCountBounds(n: nat)
    ensures n < PowerOfTen(DigitCount(n))
    ensures n > 0 ==> PowerOfTen(DigitCount(n) - 1) <= n
  {
    if n >= 10 {
      DigitCountBounds(n / 10);
    }
  }

  /** What is kept after dropping the last digits, rounded half-even. */
  function Kept(c: nat, dropped: nat): (kept: nat) {
    RoundHalfEven(Ratio(c as real, PowerOfTen(dropped) as real))
  }

  /** Half-even rounding to at most 28 significant digits. */
  function RoundToContext(d: Decimal): Decimal {
    var digits := DigitCount(d.coefficient);
    if digits <= PRECISION then d
    else
      var dropped := digits - PRECISION;
      var kept := Kept(d.coefficient, dropped);
      if kept == PowerOfTen(PRECISION) then
        Decimal(d.negative, PowerOfTen(PRECISION - 1), d.exponent + dropped + 1)
      else Decimal(d.negative, kept, d.exponent + dropped)
  }

  /** The exact sum, at the smaller of the two exponents. */
  function Sum(a: Decimal, b: Decimal): (d: Decimal)
    ensures Value(d) == Value(a) + Value(b)
  {
    var common := if a.exponent <= b.exponent then a.exponent else b.exponent;
    var left := Signed(a.negative, a.coefficient) * PowerOfTen(a.exponent - common);
    var right := Signed(b.negative, b.coefficient) * PowerOfTen(b.exponent - common);
    StepsShift(Signed(a.negative, a.coefficient), common, a.exponent - common);
    StepsShift(Signed(b.negative, b.coefficient), common, b.exponent - common);
    StepsAdd(left, right, common);
    if left + right < 0 then Decimal(true, -(left + right), common)
    else Decimal(false, left + right, common)
  }

  // ---------- what the context can represent ----------

  /** A value with at most 28 significant digits. */
  ghost predicate Representable(v: real) {
    exists count, exponent :: v == Steps(count, exponent) && Magnitude(count) < PowerOfTen(PRECISION)
  }

  function Magnitude(count: int): (m: nat)
    ensures m == count || m == -count
  {
    if count < 0 then -count else count
  }

  lemma ProductMonotone(a: int, b: int, p: nat)
    requires a <= b
    ensures a * p <= b * p
  {
  }

  lemma CancelFactor(a: int, b: int, p: nat)
    requires p > 0
    ensures a * p <= b * p ==> a <= b
  {
    if b < a {
      ProductMonotone(b + 1, a, p);
    }
  }

  lemma KeptFits(c: nat)
    requires DigitCount(c) > PRECISION
    ensures Kept(c, DigitCount(c) - PRECISION) <= PowerOfTen(PRECISION)
  {
    hide PowerOfTen, DigitCount, RoundHalfEven, Ratio;
    var k := DigitCount(c) - PRECISION;
    DigitCountBounds(c);
    PowersAdd(PRECISION, k);
    QuotientAtMost(c, PowerOfTen(PRECISION), PowerOfTen(k));
    RoundMonotone(Ratio(c as real, PowerOfTen(k) as real), PowerOfTen(PRECISION) as real);
    RoundFixesGrid(PowerOfTen(PRECISION));
  }

  lemma KeptAtLeast(c: nat, q: nat, dropped: nat)
    requires q * PowerOfTen(dropped) <= c
    ensures Kept(c, dropped) >= q
  {
    var p := PowerOfTen(dropped);
    KeptOfMultiple(q, dropped);
    DivideMonotone((q * p) as real, c as real, p as real);
    RoundMonotone(Ratio((q * p) as real, p as real), Ratio(c as real, p as real));
  }

  lemma DivideMonotone(a: real, b: real, p: real)
    requires a <= b && p > 0.0
    ensures Ratio(a, p) <= Ratio(b, p)
  {
  }

  lemma QuotientAtMost(c: nat, q: nat, p: nat)
    requires p > 0 && c <= q * p
    ensures Ratio(c as real, p as real) <= q as real
  {
    assert (q * p) as real == q as real * p as real;
    assert c as real <= q as real * p as real;
  }

  lemma KeptOfMultiple(n: nat, dropped: nat)
    ensures Kept(n * PowerOfTen(dropped), dropped) == n
  {
    var p := PowerOfTen(dropped);
    assert (n * p) as real == n as real * p as real;
    assert Ratio((n * p) as real, p as real) == n as real by { DivideOut(n as real, p as real); }
    RoundFixesGrid(n);
  }

  lemma DivideOut(a: real, b: real)
    requires b > 0.0
    ensures Ratio(a * b, b) == a
  {
  }

  lemma PowerOne()
    ensures PowerOfTen(1) == 10
  {
    assert PowerOfTen(1) == 10 * PowerOfTen(0);
  }

  /** Rounding drops digits half-even and renormalizes; only the first step can change the value. */
  lemma RoundedValue(d: Decimal)
    requires DigitCount(d.coefficient) > PRECISION
    ensures var k := DigitCount(d.coefficient) - PRECISION;
      Value(RoundToContext(d)) == Steps(Signed(d.negative, Kept(d.coefficient, k)), d.exponent + k)
    ensures RoundToContext(d).coefficient < PowerOfTen(PRECISION)
  {
    hide Steps, PowerOfTen, Kept;
    var k := DigitCount(d.coefficient) - PRECISION;
    var kept := Kept(d.coefficient, k);
    KeptFits(d.coefficient);
    assert PowerOfTen(PRECISION) == PowerOfTen(PRECISION - 1) * PowerOfTen(1) by { PowersAdd(PRECISION - 1, 1); }
    assert PowerOfTen(1) == 10 by { PowerOne(); }
    if kept == PowerOfTen(PRECISION) {
      StepsShift(Signed(d.negative, PowerOfTen(PRECISION - 1)), d.exponent + k, 1);
    }
  }

  /** A 28-digit count whose unit is finer than the last kept digit would be too large. */
  lemma CoarseEnough(c: nat, e: int, m: int, g: int)
    requires DigitCount(c) > PRECISION
    requires Steps(c, e) == Steps(Magnitude(m), g)
    ensures g >= e + (DigitCount(c) - PRECISION) || Magnitude(m) >= PowerOfTen(PRECISION)
  {
    hide Steps, PowerOfTen, DigitCount;
    var k := DigitCount(c) - PRECISION;
    DigitCountBounds(c);
    CoefficientPositive(c);
    if g <= e {
      StepsShift(c, g, e - g);
      StepsInjective(c * PowerOfTen(e - g), Magnitude(m), g);
      ProductMonotone(1, PowerOfTen(e - g), c);
      PowersMonotone(PRECISION, DigitCount(c) - 1);
    } else if g < e + k {
      StepsShift(Magnitude(m), e, g - e);
      StepsInjective(c, Magnitude(m) * PowerOfTen(g - e), e);
      PowersAdd(PRECISION, k - 1);
      PowersMonotone(g - e, k - 1);
      ProductMonotone(PowerOfTen(g - e), PowerOfTen(k - 1), PowerOfTen(PRECISION));
      CancelFactor(PowerOfTen(PRECISION), Magnitude(m), PowerOfTen(g - e));
    }
  }

  lemma CoefficientPositive(c: nat)
    requires DigitCount(c) > 1
    ensures c > 0
  {
  }

  lemma SignedMagnitude(d: Decimal, m: int, g: int)
    requires Value(d) == Steps(m, g)
    ensures Steps(d.coefficient, d.exponent) == Steps(Magnitude(m), g)
  {
    var s := Signed(d.negative, d.coefficient);
    hide Steps;
    StepsAdd(s, 0, d.exponent);
    StepsAdd(m, 0, g);
    StepsInjective(s, 0, d.exponent);
    StepsInjective(m, 0, g);
    StepsInjective(0, s, d.exponent);
    StepsInjective(0, m, g);
    StepsInjective(0, 0, d.exponent);
    StepsInjective(0, 0, g);
  }

  /** Rounding to the context keeps a value exactly when 28 significant digits can hold it. */
  lemma RoundingExactIff(d: Decimal)
    ensures Value(RoundToContext(d)) == Value(d) <==> Representable(Value(d))
    ensures Representable(Value(RoundToContext(d)))
  {
    hide Steps, PowerOfTen, Kept, DigitCount;
    var r := RoundToContext(d);
    DigitCountBounds(d.coefficient);
    if DigitCount(d.coefficient) > PRECISION {
      RoundedValue(d);
    } else {
      PowersMonotone(DigitCount(d.coefficient), PRECISION);
    }
    assert Value(r) == Steps(Signed(r.negative, r.coefficient), r.exponent);
    if DigitCount(d.coefficient) > PRECISION && Representable(Value(d)) {
      var m, g :| Value(d) == Steps(m, g) && Magnitude(m) < PowerOfTen(PRECISION);
      RepresentableKept(d, m, g);
    }
  }

  lemma RepresentableKept(d: Decimal, m: int, g: int)
    requires DigitCount(d.coefficient) > PRECISION
    requires Value(d) == Steps(m, g) && Magnitude(m) < PowerOfTen(PRECISION)
    ensures Value(RoundToContext(d)) == Value(d)
  {
    hide Steps, PowerOfTen, Kept, DigitCount, RoundToContext;
    var e := d.exponent;
    var k := DigitCount(d.coefficient) - PRECISION;
    SignedMagnitude(d, m, g);
    CoarseEnough(d.coefficient, e, m, g);
    var n := Magnitude(m) * PowerOfTen(g - e - k);
    StepsShift(Magnitude(m), e + k, g - e - k);
    StepsShift(n, e, k);
    StepsInjective(d.coefficient, n * PowerOfTen(k), e);
    KeptOfMultiple(n, k);
    RoundedValue(d);
    StepsAdd(n, 0, e + k);
    StepsAdd(d.coefficient, 0, e);
  }

  // ---------- one value, many spellings ----------

  /** Decimals of equal non-zero value differ only by trailing zeros of the coefficient. */
  lemma SameValueShifts(a: Decimal, b: Decimal)
    requires Value(a) == Value(b) && a.coefficient > 0 && a.exponent <= b.exponent
    ensures a.negative == b.negative
    ensures a.coefficient == b.coefficient * PowerOfTen(b.exponent - a.exponent)
  {
    hide Steps;
    var k := b.exponent - a.exponent;
    StepsShift(Signed(b.negative, b.coefficient), a.exponent, k);
    StepsInjective(Signed(a.negative, a.coefficient), Signed(b.negative, b.coefficient) * PowerOfTen(k), a.exponent);
    SignOut(b.negative, b.coefficient, PowerOfTen(k));
  }

  lemma SignOut(negative: bool, c: nat, p: nat)
    ensures Signed(negative, c) * p == Signed(negative, c * p)
  {
  }

  lemma ShiftKeepsValue(d: Decimal, k: nat)
    ensures Value(Decimal(d.negative, d.coefficient * PowerOfTen(k), d.exponent - k)) == Value(d)
  {
    hide Steps;
    StepsShift(Signed(d.negative, d.coefficient), d.exponent - k, k);
    SignOut(d.negative, d.coefficient, PowerOfTen(k));
  }

  lemma ValueZero(d: Decimal)
    ensures Value(d) == 0.0 <==> d.coefficient == 0
  {
    StepsInjective(Signed(d.negative, d.coefficient), 0, d.exponent);
  }

  lemma {:induction false} ShiftedDigitCount(c: nat, k: nat)
    requires c > 0
    ensures DigitCount(c * PowerOfTen(k)) == DigitCount(c) + k
  {
    if k > 0 {
      ShiftedDigitCount(c, k - 1);
      var p := PowerOfTen(k - 1);
      ProductMonotone(1, p, c);
      assert c * PowerOfTen(k) == 10 * (c * p);
    } else {
      assert c * PowerOfTen(0) == c;
    }
  }

  lemma CancelRatio(c: nat, p: nat, q: nat)
    requires p > 0 && q > 0
    ensures p * q > 0 && Ratio((c * q) as real, (p * q) as real) == Ratio(c as real, p as real)
  {
    assert (c * q) as real == c as real * q as real && (p * q) as real == p as real * q as real;
    ProductMonotone(1, q, p);
    CancelReal(c as real, p as real, q as real);
  }

  lemma CancelReal(a: real, b: real, c: real)
    requires b > 0.0 && c > 0.0
    ensures b * c > 0.0 && Ratio(a * c, b * c) == Ratio(a, b)
  {
    DivideOut(Ratio(a, b), b * c);
    assert Ratio(a, b) * (b * c) == (Ratio(a, b) * b) * c == a * c;
  }

  /** Rounding looks at the value alone, not at how many trailing zeros it is written with. */
  lemma RoundingRespectsValue(a: Decimal, b: Decimal)
    requires Value(a) == Value(b) && a.exponent <= b.exponent
    ensures Value(RoundToContext(a)) == Value(RoundToContext(b))
  {
    hide Value, RoundToContext, PowerOfTen, DigitCount;
    RoundingExactIff(a);
    RoundingExactIff(b);
    ValueZero(a);
    if !Representable(Value(a)) {
      RoundedBeyond(a);
      RoundedBeyond(b);
      var j := b.exponent - a.exponent;
      ZeroRepresentable(a);
      SameValueShifts(a, b);
      ShiftedDigitCount(b.coefficient, j);
      var k := DigitCount(b.coefficient) - PRECISION;
      PowersAdd(k, j);
      CancelRatio(b.coefficient, PowerOfTen(k), PowerOfTen(j));
      RoundedValue(a);
      RoundedValue(b);
      ValueOf(a);
      ValueOf(b);
    }
  }

  lemma RoundedBeyond(d: Decimal)
    requires Value(RoundToContext(d)) != Value(d)
    ensures DigitCount(d.coefficient) > PRECISION
  {
  }

  lemma ZeroRepresentable(d: Decimal)
    ensures d.coefficient == 0 ==> Representable(Value(d))
  {
    hide Value, PowerOfTen;
    ValueZero(d);
    StepsInjective(0, 0, 0);
    assert Magnitude(0) < PowerOfTen(PRECISION);
  }
}
