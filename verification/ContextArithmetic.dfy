/**
Arithmetic of the default decimal context on values: every result is rounded half-even
to 28 significant digits.
*/
module ContextArithmetic {
  import opened Decimals
  import opened Rounding

  // ---------- orders of magnitude ----------

  function OrderUp(x: real): nat
    requires x >= 1.0
    decreases x.Floor
  {
    if x < 10.0 then 0 else OrderUp(x / 10.0) + 1
  }

  function OrderDown(x: real): (places: int)
    requires 0.0 < x < 1.0
    ensures places >= 1
    decreases (1.0 / x).Floor
  {
    if 10.0 * x >= 1.0 then 1
    else
      TenfoldCloser(x);
      OrderDown(10.0 * x) + 1
  }

  lemma TenfoldCloser(x: real)
    requires 0.0 < x < 0.1
    ensures (1.0 / (10.0 * x)).Floor < (1.0 / x).Floor
  {
    TenthOf(x);
    var y := 1.0 / x;
    assert y * x == 1.0;
    assert y > 10.0;
  }

  /** The power of ten at or just below a positive number. */
  function Order(x: real): int
    requires x > 0.0
  {
    if x >= 1.0 then OrderUp(x) else -OrderDown(x)
  }

  lemma {:induction false} OrderUpBounds(x: real)
    requires x >= 1.0
    ensures Scale(OrderUp(x)) <= x < Scale(OrderUp(x) + 1)
    decreases x.Floor
  {
    hide Scale;
    if x < 10.0 {
      ScaleOfOne();
      ScaleStep(0);
    } else {
      OrderUpBounds(x / 10.0);
      ScaleStep(OrderUp(x / 10.0));
      ScaleStep(OrderUp(x / 10.0) + 1);
    }
  }

  lemma {:induction false} OrderDownBounds(x: real)
    requires 0.0 < x < 1.0
    ensures Scale(-OrderDown(x)) <= x < Scale(-OrderDown(x) + 1)
    decreases (1.0 / x).Floor
  {
    hide Scale;
    if 10.0 * x >= 1.0 {
      ScaleOfOne();
      ScaleStep(-1);
    } else {
      TenfoldCloser(x);
      OrderDownBounds(10.0 * x);
      var o := OrderDown(10.0 * x);
      ScaleStep(-o - 1);
      ScaleStep(-o);
    }
  }

  lemma ScaleOfOne()
    ensures Scale(0) == 1.0
  {
  }

  lemma OrderBounds(x: real)
    requires x > 0.0
    ensures Scale(Order(x)) <= x < Scale(Order(x) + 1)
  {
    if x >= 1.0 {
      OrderUpBounds(x);
    } else {
      OrderDownBounds(x);
    }
  }

  lemma ScaleOrder(a: int, b: int)
    ensures Scale(a) < Scale(b) <==> a < b
  {
    hide Scale;
    if a < b {
      ScaleGrows(a, b - a);
    } else {
      ScaleGrows(b, a - b);
    }
  }

  lemma {:induction false} ScaleGrows(a: int, k: nat)
    ensures Scale(a + k) >= Scale(a) && (k > 0 ==> Scale(a + k) > Scale(a))
  {
    hide Scale;
    if k > 0 {
      ScaleGrows(a, k - 1);
      ScaleStep(a + k - 1);
    }
  }

  // ---------- rounding ----------

  /** The exponent of the last of 28 digits. */
  function LastPlace(x: real): int
    requires x > 0.0
  {
    Order(x) - (PRECISION - 1)
  }

  function RoundedAt(x: real, exponent: int): real {
    Steps(RoundHalfEven(Ratio(x, Scale(exponent))), exponent)
  }

  /** What the context makes of an exact result. */
  function Context(x: real): real {
    if x == 0.0 then 0.0
    else if x < 0.0 then -RoundedAt(-x, LastPlace(-x))
    else RoundedAt(x, LastPlace(x))
  }

  lemma ScaledCount(count: int, exponent: int)
    ensures Ratio(Steps(count, exponent), Scale(exponent)) == count as real
  {
    DivideOut(count as real, Scale(exponent));
  }

  /** A positive whole number of steps, at most 10^28 of them, is kept. */
  lemma PositiveExact(count: nat, exponent: int)
    requires 0 < count <= PowerOfTen(PRECISION)
    ensures Context(Steps(count, exponent)) == Steps(count, exponent)
  {
    hide Scale, Steps, PowerOfTen, Order, Ratio, RoundHalfEven;
    var x := Steps(count, exponent);
    StepsInjective(0, count, exponent);
    StepsInjective(0, 0, exponent);
    OrderBounds(x);
    WithinOneMore(count, exponent);
    ScaleOrder(Order(x), exponent + PRECISION);
    ScaleOrder(exponent + PRECISION, Order(x));
    var last := LastPlace(x);
    if last <= exponent {
      StepsShift(count, last, exponent - last);
      ScaledCount(count * PowerOfTen(exponent - last), last);
      RoundFixesGrid(count * PowerOfTen(exponent - last));
    } else {
      FullCount(count, exponent);
      ScaledCount(PowerOfTen(PRECISION - 1), last);
      RoundFixesGrid(PowerOfTen(PRECISION - 1));
    }
  }

  lemma WithinOneMore(count: nat, exponent: int)
    requires count <= PowerOfTen(PRECISION)
    ensures Steps(count, exponent) <= Scale(exponent + PRECISION)
    ensures count < PowerOfTen(PRECISION) ==> Steps(count, exponent) < Scale(exponent + PRECISION)
  {
    hide Scale, PowerOfTen;
    ScaleShift(exponent, PRECISION);
    ProductOrder(count as real, PowerOfTen(PRECISION) as real, Scale(exponent));
    ProductOrder(PowerOfTen(PRECISION) as real, count as real, Scale(exponent));
  }

  /** Only 10^28 itself reaches the next order, and it is written with one digit fewer. */
  lemma FullCount(count: nat, exponent: int)
    requires 0 < count <= PowerOfTen(PRECISION)
    requires Steps(count, exponent) > 0.0 && LastPlace(Steps(count, exponent)) > exponent
    ensures LastPlace(Steps(count, exponent)) == exponent + 1
    ensures Steps(count, exponent) == Steps(PowerOfTen(PRECISION - 1), exponent + 1)
  {
    hide Scale, Steps, PowerOfTen, Order;
    var x := Steps(count, exponent);
    OrderBounds(x);
    WithinOneMore(count, exponent);
    ScaleOrder(Order(x), exponent + PRECISION);
    ScaleOrder(exponent + PRECISION, Order(x));
    PowersAdd(PRECISION - 1, 1);
    PowerOne();
    StepsShift(PowerOfTen(PRECISION - 1), exponent, 1);
  }

  /** Whatever 28 digits hold is kept. */
  lemma ContextExact(count: int, exponent: int)
    requires Magnitude(count) <= PowerOfTen(PRECISION)
    ensures Context(Steps(count, exponent)) == Steps(count, exponent)
  {
    hide Steps, PowerOfTen, RoundedAt, LastPlace;
    StepsInjective(count, 0, exponent);
    StepsInjective(0, 0, exponent);
    if count > 0 {
      PositiveExact(count, exponent);
    } else if count < 0 {
      StepsAdd(count, 0, exponent);
      StepsInjective(0, -count, exponent);
      PositiveExact(-count, exponent);
    }
  }

  lemma WholeSteps(count: int)
    ensures Steps(count, 0) == count as real
  {
  }

  /** In particular whole amounts. */
  lemma ContextWhole(n: int)
    requires Magnitude(n) <= PowerOfTen(PRECISION)
    ensures Context(n as real) == n as real
  {
    hide PowerOfTen, Context;
    WholeSteps(n);
    hide Steps;
    ContextExact(n, 0);
  }

  /** On decimals it is the rounding of the decimal itself. */
  lemma ContextAgrees(d: Decimal)
    ensures Context(Value(d)) == Value(RoundToContext(d))
  {
    hide Steps, PowerOfTen, DigitCount, Kept, Context;
    ValueOf(d);
    DigitCountBounds(d.coefficient);
    if DigitCount(d.coefficient) <= PRECISION {
      PowersMonotone(DigitCount(d.coefficient), PRECISION);
      ContextExact(Signed(d.negative, d.coefficient), d.exponent);
    } else {
      CoefficientPositive(d.coefficient);
      LongPlace(d.coefficient, d.exponent);
      RoundedValue(d);
      hide Value, RoundToContext;
      var k := DigitCount(d.coefficient) - PRECISION;
      LongRounds(d.coefficient, d.exponent);
      StepsAdd(d.coefficient, 0, d.exponent);
      StepsAdd(Kept(d.coefficient, k), 0, d.exponent + k);
      StepsInjective(0, d.coefficient, d.exponent);
      StepsInjective(0, 0, d.exponent);
      ContextOdd(Steps(d.coefficient, d.exponent));
    }
  }

  lemma ContextOdd(x: real)
    ensures Context(-x) == -Context(x)
  {
    hide RoundedAt, LastPlace;
  }

  lemma LongPlace(c: nat, exponent: int)
    requires DigitCount(c) > PRECISION
    ensures Steps(c, exponent) > 0.0
    ensures LastPlace(Steps(c, exponent)) == exponent + (DigitCount(c) - PRECISION)
  {
    hide Steps, PowerOfTen, DigitCount, Order, Scale;
    var n := DigitCount(c);
    DigitCountBounds(c);
    CoefficientPositive(c);
    StepsInjective(0, c, exponent);
    StepsInjective(0, 0, exponent);
    OrderBounds(Steps(c, exponent));
    PowerSteps(n, exponent);
    PowerSteps(n - 1, exponent);
    StepsInjective(c, PowerOfTen(n), exponent);
    StepsInjective(c, PowerOfTen(n - 1), exponent);
    ScaleOrder(Order(Steps(c, exponent)), exponent + n);
    ScaleOrder(exponent + n - 1, Order(Steps(c, exponent)) + 1);
  }

  lemma PowerSteps(n: nat, exponent: int)
    ensures Steps(PowerOfTen(n), exponent) == Scale(exponent + n)
  {
    hide Scale, PowerOfTen;
    ScaleShift(exponent, n);
  }

  lemma LongRounds(c: nat, exponent: int)
    requires DigitCount(c) > PRECISION
    ensures var k := DigitCount(c) - PRECISION;
      Context(Steps(c, exponent)) == Steps(Kept(c, k), exponent + k)
  {
    hide Steps, PowerOfTen, DigitCount, RoundHalfEven, LastPlace, Ratio;
    var k := DigitCount(c) - PRECISION;
    LongPlace(c, exponent);
    DroppedRatio(c, exponent, k);
  }

  lemma DroppedRatio(c: nat, exponent: int, k: nat)
    ensures Ratio(Steps(c, exponent), Scale(exponent + k)) == Ratio(c as real, PowerOfTen(k) as real)
  {
    hide Scale, PowerOfTen, Ratio;
    var unit, power := Scale(exponent), PowerOfTen(k) as real;
    ScaleShift(exponent, k);
    CancelReal(c as real, power, unit);
    assert Steps(c, exponent) == c as real * unit && Scale(exponent + k) == power * unit;
  }

  // ---------- what rounding cannot change ----------

  /** Rounding moves a result by at most half a unit of its last place. */
  lemma ContextNear(x: real)
    requires x > 0.0
    ensures 2.0 * Product(PowerOfTen(PRECISION - 1) as real, Abs(Context(x) - x)) <= x
  {
    hide PowerOfTen, Order, Scale, RoundHalfEven;
    var unit := Scale(LastPlace(x));
    OrderBounds(x);
    ScaleShift(LastPlace(x), PRECISION - 1);
    RoundedNear(x, LastPlace(x));
    HalfUnit(PowerOfTen(PRECISION - 1) as real, Abs(Context(x) - x), unit, x);
  }

  lemma RoundedNear(x: real, exponent: int)
    ensures 2.0 * Abs(RoundedAt(x, exponent) - x) <= Scale(exponent)
  {
    hide Scale, RoundHalfEven;
    var unit := Scale(exponent);
    var q := Ratio(x, unit);
    assert q * unit == x;
    var n := RoundHalfEven(q) as real;
    hide Ratio;
    HalfStep(q, n, unit);
  }

  lemma HalfStep(q: real, n: real, unit: real)
    requires unit > 0.0 && q - 0.5 <= n <= q + 0.5
    ensures 2.0 * Abs(Product(n, unit) - q * unit) <= unit
  {
    DifferenceScaled(n, q, unit);
    hide Product;
    HalfOf(n - q, unit);
    HalfOf(q - n, unit);
    DifferenceScaled(q, n, unit);
  }

  lemma DifferenceScaled(a: real, b: real, unit: real)
    ensures Product(a - b, unit) == Product(a, unit) - b * unit == Product(a, unit) - Product(b, unit)
  {
  }

  lemma HalfOf(part: real, unit: real)
    requires unit > 0.0 && part <= 0.5
    ensures 2.0 * Product(part, unit) <= unit
  {
    ScaleMonotone(unit, part, 0.5);
  }

  lemma HalfUnit(power: real, moved: real, unit: real, x: real)
    requires power > 0.0 && 2.0 * moved <= unit && Product(power, unit) <= x
    ensures 2.0 * Product(power, moved) <= x
  {
    ScaleMonotone(power, 2.0 * moved, unit);
    assert power * (2.0 * moved) == 2.0 * (power * moved);
  }

  /**
  A quotient of whole numbers keeps its order to a bound with g decimals as long as its
  numerator has room for those decimals: the rounding is finer than their distance.
  */
  lemma ContextKeepsOrder(a: nat, b: nat, c: nat, g: int)
    requires b > 0 && g >= 0
    requires a * PowerOfTen(g) < 2 * PowerOfTen(PRECISION - 1) && c <= PowerOfTen(PRECISION)
    ensures var q, bound := Ratio(a as real, b as real), Steps(c, -g);
      && (q < bound <==> Context(q) < bound)
      && (q == bound <==> Context(q) == bound)
  {
    hide PowerOfTen, Context;
    var q, bound := Ratio(a as real, b as real), Steps(c, -g);
    if q == bound {
      hide Steps;
      ContextExact(c, -g);
    } else if a == 0 {
      ZeroStays();
    } else {
      RatioPositive(a, b);
      ContextNear(q);
      if Context(q) <= bound < q || q < bound <= Context(q) {
        FarApart(a, b, c, g, Abs(Context(q) - q));
      }
    }
  }

  lemma ZeroStays()
    ensures Context(0.0) == 0.0
  {
  }

  lemma RatioPositive(a: nat, b: nat)
    requires a > 0 && b > 0
    ensures Ratio(a as real, b as real) > 0.0
  {
  }

  /** Two such fractions that differ, differ by more than the rounding moves. */
  lemma FarApart(a: nat, b: nat, c: nat, g: int, moved: real)
    requires a > 0 && b > 0 && g >= 0
    requires Ratio(a as real, b as real) != Steps(c, -g)
    requires moved >= Abs(Ratio(a as real, b as real) - Steps(c, -g))
    requires 2.0 * Product(PowerOfTen(PRECISION - 1) as real, moved) <= Ratio(a as real, b as real)
    ensures a * PowerOfTen(g) >= 2 * PowerOfTen(PRECISION - 1)
  {
    hide PowerOfTen, Steps, Ratio, Product;
    var p, d, q := PowerOfTen(PRECISION - 1), PowerOfTen(g), Ratio(a as real, b as real);
    DecimalFraction(c, g);
    Gap(a, b, c, d);
    ScaleMonotone(Product(b as real, d as real), Abs(q - Ratio(c as real, d as real)), moved);
    Spread(p as real, moved, a as real, b as real, d as real);
    assert (a * d) as real == a as real * d as real;
    assert (2 * p) as real == 2.0 * p as real;
  }

  lemma DecimalFraction(c: nat, g: int)
    requires g >= 0
    ensures Steps(c, -g) == Ratio(c as real, PowerOfTen(g) as real)
  {
    if g == 0 {
      assert PowerOfTen(0) == 1;
    }
  }

  /** Different fractions are at least the reciprocal of their denominators apart. */
  lemma Gap(a: nat, b: nat, c: nat, d: nat)
    requires b > 0 && d > 0 && Ratio(a as real, b as real) != Ratio(c as real, d as real)
    ensures Product(b as real, d as real) * Abs(Ratio(a as real, b as real) - Ratio(c as real, d as real)) >= 1.0
  {
    var x, y := a as real / b as real, c as real / d as real;
    var m := a * d - c * b;
    assert x * b as real == a as real && y * d as real == c as real;
    CrossProducts(a, b, c, d, x, y);
    if m == 0 {
      SameFraction(b as real, d as real, x, y);
    }
    assert (b as real * d as real) * (x - y) == m as real;
    if x >= y {
      assert m as real >= 1.0 by { SignOfGap(b as real * d as real, x - y, m); }
    } else {
      SignOfGap(b as real * d as real, y - x, -m);
    }
  }

  lemma CrossProducts(a: nat, b: nat, c: nat, d: nat, x: real, y: real)
    requires x * b as real == a as real && y * d as real == c as real
    ensures (b as real * d as real) * (x - y) == (a * d - c * b) as real
  {
    assert (a * d) as real == a as real * d as real;
    assert (c * b) as real == c as real * b as real;
    assert (b as real * d as real) * x == (x * b as real) * d as real;
    assert (b as real * d as real) * y == (y * d as real) * b as real;
  }

  lemma SameFraction(b: real, d: real, x: real, y: real)
    requires b > 0.0 && d > 0.0 && (b * d) * (x - y) == 0.0
    ensures x == y
  {
    assert b * d > 0.0;
  }

  lemma SignOfGap(p: real, difference: real, m: int)
    requires p > 0.0 || p == 0.0
    requires difference >= 0.0 && p * difference == m as real && m != 0
    ensures m as real >= 1.0
  {
    assert p * difference >= 0.0;
  }

  lemma Spread(p: real, moved: real, a: real, b: real, d: real)
    requires b > 0.0 && d > 0.0 && p > 0.0 && a > 0.0
    requires Product(b, d) * moved >= 1.0
    requires 2.0 * Product(p, moved) <= Ratio(a, b)
    ensures a * d >= 2.0 * p
  {
    var bd := b * d;
    ScaleMonotone(bd, 2.0 * (p * moved), a / b);
    assert bd * (a / b) == (a / b * b) * d == a * d;
    assert bd * (2.0 * (p * moved)) == (2.0 * p) * (bd * moved);
    ScaleMonotone(2.0 * p, 1.0, bd * moved);
  }

  /** Nor does rounding carry such a quotient over a whole number. */
  lemma ContextFloor(a: nat, b: nat)
    requires b > 0 && a < PowerOfTen(PRECISION - 1)
    ensures Context(Ratio(a as real, b as real)).Floor == Ratio(a as real, b as real).Floor
  {
    hide PowerOfTen, Context;
    var q := Ratio(a as real, b as real);
    FloorWithin(a, b);
    PowersMonotone(PRECISION - 1, PRECISION);
    UnitPower();
    WholeSteps(q.Floor);
    WholeSteps(q.Floor + 1);
    hide Steps, Ratio;
    ContextKeepsOrder(a, b, q.Floor, 0);
    ContextKeepsOrder(a, b, q.Floor + 1, 0);
  }

  lemma UnitPower()
    ensures PowerOfTen(0) == 1
  {
  }

  lemma FloorWithin(a: nat, b: nat)
    requires b > 0
    ensures 0 <= Ratio(a as real, b as real).Floor <= a
  {
    var q := a as real / b as real;
    assert q * b as real == a as real;
    assert q <= a as real;
  }
}
