/**
Exact summing of decimals at their smallest exponent, and the tolerance test built on it.
*/
module ExactSum {
  import opened Decimals
  import opened Rounding

  /** The true total of a measure of decimals, usually of their values. */
  function Total(measure: Decimal -> real, ds: seq<Decimal>): real {
    if ds == [] then 0.0 else Total(measure, ds[..|ds| - 1]) + measure(ds[|ds| - 1])
  }

  function Minimum(a: int, b: int): int { if a <= b then a else b }

  function SmallestExponent(ds: seq<Decimal>): (e: int)
    requires ds != []
    ensures forall d | d in ds :: e <= d.exponent
  {
    var last := ds[|ds| - 1];
    if |ds| == 1 then last.exponent
    else
      var rest := ds[..|ds| - 1];
      assert forall d | d in ds :: d in rest || d == last;
      Minimum(SmallestExponent(rest), last.exponent)
  }

  function OfSteps(count: int, exponent: int): Decimal {
    Decimal(count < 0, Magnitude(count), exponent)
  }

  lemma OfStepsValue(count: int, exponent: int)
    ensures Value(OfSteps(count, exponent)) == Steps(count, exponent)
  {
  }

  /** One more amount, raised to the common exponent, adds its value. */
  lemma OneMoreRaised(values: seq<Decimal>, i: nat, total: int, common: int)
    requires i < |values| && common <= values[i].exponent
    requires Steps(total, common) == Total(Value, values[..i])
    ensures var d := values[i];
      Steps(total + Signed(d.negative, d.coefficient) * PowerOfTen(d.exponent - common), common)
      == Total(Value, values[..i + 1])
  {
    hide Value, Steps, PowerOfTen;
    var d := values[i];
    var raised := Signed(d.negative, d.coefficient) * PowerOfTen(d.exponent - common);
    StepsShift(Signed(d.negative, d.coefficient), common, d.exponent - common);
    StepsAdd(total, raised, common);
    ValueOf(d);
    assert values[..i + 1][..i] == values[..i];
  }

  method ExactDecimalSum(values: seq<Decimal>) returns (sum: Decimal)
    ensures Value(sum) == Total(Value, values)
    ensures sum.exponent == if values == [] then 0 else SmallestExponent(values)
  {
    hide Value, Steps, PowerOfTen;
    if values == [] {
      StepsInjective(0, 0, 0);
      assert Value(ZERO) == 0.0 by { ValueZero(ZERO); }
      return ZERO;
    }
    var common := values[0].exponent;
    var i := 1;
    assert values[..1] == [values[0]];
    while i < |values|
      invariant 1 <= i <= |values|
      invariant common == SmallestExponent(values[..i])
    {
      common := Minimum(common, values[i].exponent);
      i := i + 1;
      assert values[..i][..i - 1] == values[..i - 1];
    }
    assert values[..|values|] == values;
    hide SmallestExponent, Signed, Total;
    TotalOfNone(Value);
    var total := 0;
    StepsInjective(0, 0, common);
    i := 0;
    while i < |values|
      invariant 0 <= i <= |values|
      invariant Steps(total, common) == Total(Value, values[..i])
    {
      var d := values[i];
      assert d in values;
      OneMoreRaised(values, i, total, common);
      total := total + Signed(d.negative, d.coefficient) * PowerOfTen(d.exponent - common);
      i := i + 1;
    }
    OfStepsValue(total, common);
    sum := OfSteps(total, common);
  }

  /** The test decides exactly whether two amounts differ by more than the tolerance. */
  method DecimalDifferenceExceeds(left: Decimal, right: Decimal, tolerance: Decimal) returns (exceeds: bool)
    ensures exceeds <==> Abs(Value(left) - Value(right)) > Value(tolerance)
  {
    var negated := right.(negative := !right.negative);
    var sum := ExactDecimalSum([left, negated]);
    TotalOfTwo(left, negated);
    NegatedValue(right);
    AbsoluteValue(sum);
    var difference := sum.(negative := false);
    exceeds := Value(difference) > Value(tolerance);
  }

  lemma TotalOfTwo(a: Decimal, b: Decimal)
    ensures Total(Value, [a, b]) == Value(a) + Value(b)
  {
    assert [a, b] == [a] + [b];
    TotalSplits(Value, [a], [b]);
    TotalOfOne(Value, a);
    TotalOfOne(Value, b);
  }

  lemma NegatedValue(d: Decimal)
    ensures Value(d.(negative := !d.negative)) == -Value(d)
  {
    StepsAdd(Signed(d.negative, d.coefficient), 0, d.exponent);
  }

  lemma AbsoluteValue(d: Decimal)
    ensures Value(d.(negative := false)) == Abs(Value(d))
  {
    StepsAdd(Signed(d.negative, d.coefficient), 0, d.exponent);
    StepsInjective(0, Signed(d.negative, d.coefficient), d.exponent);
    StepsInjective(0, 0, d.exponent);
  }

  // ---------- order does not matter ----------

  lemma {:induction false} TotalSplits(measure: Decimal -> real, a: seq<Decimal>, b: seq<Decimal>)
    ensures Total(measure, a + b) == Total(measure, a) + Total(measure, b)
  {
    if b == [] {
      assert a + b == a;
    } else {
      TotalSplits(measure, a, b[..|b| - 1]);
      assert (a + b)[..|a + b| - 1] == a + b[..|b| - 1];
    }
  }

  lemma TotalOfNone(measure: Decimal -> real)
    ensures Total(measure, []) == 0.0
  {
  }

  lemma TotalOfOne(measure: Decimal -> real, d: Decimal)
    ensures Total(measure, [d]) == measure(d)
  {
    assert [d][..0] == [];
  }

  /** The total depends on the collection of amounts, not on their order. */
  lemma {:induction false} TotalIgnoresOrder(measure: Decimal -> real, a: seq<Decimal>, b: seq<Decimal>)
    requires multiset(a) == multiset(b)
    ensures Total(measure, a) == Total(measure, b)
    decreases |a|
  {
    if a == [] {
      assert |b| == |multiset(b)| == 0;
    } else {
      var front, last := a[..|a| - 1], a[|a| - 1];
      assert a == front + [last];
      assert last in multiset(b);
      var i :| 0 <= i < |b| && b[i] == last;
      assert b == b[..i] + [last] + b[i + 1..];
      assert multiset(a) == multiset(front) + multiset{last};
      assert multiset(b) == multiset(b[..i] + b[i + 1..]) + multiset{last};
      assert multiset(front) == multiset(a) - multiset{last};
      TotalIgnoresOrder(measure, front, b[..i] + b[i + 1..]);
      TotalSplits(measure, b[..i], b[i + 1..]);
      TotalSplits(measure, b[..i] + [last], b[i + 1..]);
      TotalSplits(measure, b[..i], [last]);
      TotalOfOne(measure, last);
    }
  }
}
