/**
The integer bisection shared by the order-sizing loop, its LEAN mirror and the
benchmark purchase: probe the middle, remember it and go right when it is
accepted, go left otherwise.
*/
module Bisection {
  import opened Options

  /** The value a bisection over [low, high] ends with, `best` being the last accepted probe. */
  function Bisect(accept: int -> bool, low: int, high: int, best: Option<int>): Option<int>
    decreases high - low + 1
  {
    if low > high then best
    else
      var middle := (low + high) / 2;
      if accept(middle) then Bisect(accept, middle + 1, high, Some(middle))
      else Bisect(accept, low, middle - 1, best)
  }

  /** The loop all three searches run. */
  method Search(accept: int -> bool, low: int, high: int) returns (best: Option<int>)
    ensures best == Bisect(accept, low, high, None)
  {
    best := None;
    var lowest, highest := low, high;
    while lowest <= highest
      invariant Bisect(accept, lowest, highest, best) == Bisect(accept, low, high, None)
      decreases highest - lowest + 1
    {
      var candidate := (lowest + highest) / 2;
      if accept(candidate) {
        best := Some(candidate);
        lowest := candidate + 1;
      } else {
        highest := candidate - 1;
      }
    }
  }

  ghost predicate DownwardClosed(accept: int -> bool, low: int, high: int) {
    forall a, b :: low <= a <= b <= high && accept(b) ==> accept(a)
  }

  ghost predicate IsGreatestAccepted(accept: int -> bool, low: int, high: int, m: int) {
    low <= m <= high && accept(m) && forall k :: m < k <= high ==> !accept(k)
  }

  /** On a downward closed acceptance set bisection finds the greatest accepted value. */
  lemma {:induction false} BisectFindsGreatest(accept: int -> bool, low: int, high: int, best: Option<int>)
    requires DownwardClosed(accept, low, high)
    ensures var r := Bisect(accept, low, high, best);
      if exists k :: low <= k <= high && accept(k)
      then r.Some? && IsGreatestAccepted(accept, low, high, r.value)
      else r == best
    decreases high - low + 1
  {
    if low <= high {
      var middle := (low + high) / 2;
      if accept(middle) {
        BisectFindsGreatest(accept, middle + 1, high, Some(middle));
      } else {
        BisectFindsGreatest(accept, low, middle - 1, best);
        assert forall k :: middle <= k <= high ==> !accept(k);
      }
    }
  }

  /** Whatever the acceptance set, the result is accepted, in range, or the initial value. */
  lemma {:induction false} BisectInRange(accept: int -> bool, low: int, high: int, best: Option<int>)
    ensures var r := Bisect(accept, low, high, best);
      r == best || (r.Some? && low <= r.value <= high && accept(r.value))
    decreases high - low + 1
  {
    if low <= high {
      var middle := (low + high) / 2;
      if accept(middle) {
        BisectInRange(accept, middle + 1, high, Some(middle));
      } else {
        BisectInRange(accept, low, middle - 1, best);
      }
    }
  }

  /** A laxer acceptance test never ends below the greatest value of a stricter one. */
  lemma {:induction false} BisectDominates(
    strict: int -> bool, lax: int -> bool, low: int, high: int, best: Option<int>, m: int)
    requires forall k :: low <= k <= high && strict(k) ==> lax(k)
    requires DownwardClosed(strict, low, high)
    requires low <= m <= high && strict(m)
    ensures Bisect(lax, low, high, best).Some? && Bisect(lax, low, high, best).value >= m
    decreases high - low + 1
  {
    var middle := (low + high) / 2;
    if lax(middle) {
      if m <= middle {
        BisectInRange(lax, middle + 1, high, Some(middle));
      } else {
        BisectDominates(strict, lax, middle + 1, high, Some(middle), m);
      }
    } else {
      assert !strict(middle);
      BisectDominates(strict, lax, low, middle - 1, best, m);
    }
  }

  /**
  When the top value is accepted but the values below it form their own downward
  closed set, bisection ends at the top exactly if its neighbour is accepted.
  */
  lemma {:induction false} BisectReachesTop(accept: int -> bool, low: int, high: int, best: Option<int>)
    requires low < high
    requires DownwardClosed(accept, low, high - 1)
    requires accept(high)
    requires best != Some(high)
    ensures Bisect(accept, low, high, best) == Some(high) <==> accept(high - 1)
    decreases high - low
  {
    var middle := (low + high) / 2;
    assert low <= middle <= high - 1;
    if accept(middle) {
      if middle + 1 < high {
        BisectReachesTop(accept, middle + 1, high, Some(middle));
      } else {
        assert Bisect(accept, high, high, Some(middle)) == Some(high);
      }
    } else {
      assert !accept(high - 1);
      BisectInRange(accept, low, middle - 1, best);
    }
  }

  /** Every probe below `goal` that a bisection makes on its way there is accepted. */
  predicate WayIsAccepted(accept: int -> bool, low: int, high: int, goal: int)
    decreases high - low + 1
  {
    low > high ||
    var middle := (low + high) / 2;
    if goal < middle then WayIsAccepted(accept, low, middle - 1, goal)
    else goal == middle || (accept(middle) && WayIsAccepted(accept, middle + 1, high, goal))
  }

  /** Whatever the acceptance set, bisection ends at its greatest value exactly if every smaller probe was accepted. */
  lemma {:induction false} BisectReachesIff(
    accept: int -> bool, low: int, high: int, best: Option<int>, goal: int)
    requires IsGreatestAccepted(accept, low, high, goal) && best != Some(goal)
    ensures Bisect(accept, low, high, best) == Some(goal) <==> WayIsAccepted(accept, low, high, goal)
    decreases high - low + 1
  {
    var middle := (low + high) / 2;
    if goal < middle {
      BisectReachesIff(accept, low, middle - 1, best, goal);
    } else if goal == middle {
      BisectInRange(accept, middle + 1, high, Some(middle));
    } else if accept(middle) {
      BisectReachesIff(accept, middle + 1, high, Some(middle), goal);
    } else {
      BisectInRange(accept, low, middle - 1, best);
    }
  }

  /** No probe lies below the lowest value. */
  lemma {:induction false} WayToLowest(accept: int -> bool, low: int, high: int)
    ensures WayIsAccepted(accept, low, high, low)
    decreases high - low + 1
  {
    if low <= high {
      WayToLowest(accept, low, (low + high) / 2 - 1);
    }
  }

  /** Bisections over tests that agree on the interval agree. */
  lemma {:induction false} BisectAgrees(
    left: int -> bool, right: int -> bool, low: int, high: int, best: Option<int>)
    requires forall k :: low <= k <= high ==> left(k) == right(k)
    ensures Bisect(left, low, high, best) == Bisect(right, low, high, best)
    decreases high - low + 1
  {
    if low <= high {
      var middle := (low + high) / 2;
      BisectAgrees(left, right, middle + 1, high, Some(middle));
      BisectAgrees(left, right, low, middle - 1, best);
    }
  }
}
