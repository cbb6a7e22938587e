/**
Rounding of exact amounts to the integer grid of money quanta.

`RoundHalfEven` is the tie rule of Python's `round` and of `ROUND_HALF_EVEN`.
Almost every proof about rounded money needs only that it is monotone, that it
fixes grid points, and that it moves an amount by at most one half.
*/
module Rounding {

  function PowerOfTen(n: nat): (p: nat)
    ensures p >= 1
  {
    if n == 0 then 1 else 10 * PowerOfTen(n - 1)
  }

  function RoundHalfEven(x: real): (n: int)
    ensures x - 0.5 <= n as real <= x + 0.5
  {
    var f := x.Floor;
    var d := x - f as real;
    if d < 0.5 then f
    else if d > 0.5 then f + 1
    else if f % 2 == 0 then f else f + 1
  }

  lemma RoundFixesGrid(k: int)
    ensures RoundHalfEven(k as real) == k
  {
  }

  /** A number less than a half away from a whole one rounds to it. */
  lemma RoundsTo(x: real, k: int)
    requires k as real - 0.5 < x < k as real + 0.5
    ensures RoundHalfEven(x) == k
  {
  }

  lemma RoundMonotone(x: real, y: real)
    requires x <= y
    ensures RoundHalfEven(x) <= RoundHalfEven(y)
  {
  }

  /** A positive amount keeps a positive rounded value exactly above one half. */
  lemma RoundPositive(x: real)
    ensures RoundHalfEven(x) > 0 <==> x > 0.5
  {
  }

  /** Two amounts more than one quantum apart stay apart. */
  lemma RoundSeparates(x: real, y: real)
    requires x + 1.0 < y
    ensures RoundHalfEven(x) < RoundHalfEven(y)
  {
  }

  // Products and quotients of amounts are named, so that proofs that do not depend
  // on their arithmetic can hide it.

  function Product(a: real, b: real): real {
    a * b
  }

  function Ratio(part: real, whole: real): real
    requires whole != 0.0
  {
    part / whole
  }

  /** The exact worth of a number of units at one price. */
  function Times(units: int, price: real): real {
    Product(units as real, price)
  }

  lemma TimesAdds(a: int, b: int, price: real)
    ensures Times(a, price) + Times(b, price) == Times(a + b, price)
    ensures Times(0, price) == 0.0 && Times(1, price) == price
  {
    assert (a + b) as real == a as real + b as real;
  }

  lemma TimesMonotone(a: int, b: int, price: real)
    requires a <= b && price >= 0.0
    ensures Times(a, price) <= Times(b, price)
  {
    ScaleMonotone(price, a as real, b as real);
  }

  lemma ScaleMonotone(k: real, a: real, b: real)
    requires k >= 0.0 && a <= b
    ensures k * a <= k * b
  {
  }

  function Max(a: real, b: real): (m: real)
    ensures m >= a && m >= b && (m == a || m == b)
  {
    if a >= b then a else b
  }

  function Min(a: real, b: real): (m: real)
    ensures m <= a && m <= b && (m == a || m == b)
  {
    if a <= b then a else b
  }

  function MaxInt(a: int, b: int): (m: int)
    ensures m >= a && m >= b && (m == a || m == b)
  {
    if a >= b then a else b
  }

  function Abs(a: real): (m: real)
    ensures m >= 0.0 && (m == a || m == -a)
  {
    if a >= 0.0 then a else -a
  }

  /** The nearest whole number, and of two equally near the even one. */
  lemma RoundsToNearestEven(x: real, n: int)
    ensures RoundHalfEven(x) == n <==>
      || n as real - 0.5 < x < n as real + 0.5
      || (n % 2 == 0 && (x == n as real - 0.5 || x == n as real + 0.5))
  {
  }
}
