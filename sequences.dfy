/** `from_to_by`: the inclusive arithmetic sequence that places grid
    vertices along one axis.

    The element count is `round((stop - start) / step) + 1` and element `i`
    is `round(start + step * i, digits)`. Because the count is rounded, the
    last element is the multiple of `step` nearest to `stop`: it may fall up
    to half a step short of `stop` or up to half a step beyond it. */
module Sequences {
  import opened Wrappers
  import opened Rounding

  /** The one exception `from_to_by` raises: the division by a zero step. */
  datatype ArithmeticError = ZeroDivisionError

  /** The number of whole steps from `start` to `stop`, rounded half to even;
      the sequence has this many elements plus one. */
  function StepCount(start: real, stop: real, step: real): int
    requires step != 0.0
  {
    RoundHalfEven((stop - start) / step)
  }

  /** `from_to_by(start, stop, step, digits)`. Python's `range` of a negative
      length is empty, so a negative count gives the empty sequence. */
  function FromToBy(start: real, stop: real, step: real, digits: int): (r: Result<seq<real>, ArithmeticError>)
    ensures r.Failure? <==> step == 0.0
    ensures step != 0.0 && |r.value| > 0 ==> CountFits((stop - start) / step, |r.value| - 1)
  {
    if step == 0.0 then Failure(ZeroDivisionError)
    else
      var length := StepCount(start, stop, step);
      var count := if length + 1 < 0 then 0 else length + 1;
      Success(seq(count, i => RoundDigits(Unrounded(start, step, i), digits)))
  }

  /** `k` is the rounded number of steps for the exact quotient `q`: the
      integer nearest to `q`, and the even one when `q` is halfway between
      two integers. */
  predicate CountFits(q: real, k: int)
  {
    k as real - 0.5 <= q <= k as real + 0.5 &&
    (q == k as real - 0.5 || q == k as real + 0.5 ==> k % 2 == 0)
  }

  /** The element count is determined by the quotient alone: if `k` is at
      least zero and fits `(stop - start) / step`, there are `k + 1`
      elements. */
  lemma FromToByCount(start: real, stop: real, step: real, digits: int, k: nat)
    requires step != 0.0 && CountFits((stop - start) / step, k)
    ensures |FromToBy(start, stop, step, digits).value| == k + 1
  {
    RoundHalfEvenUnique((stop - start) / step, k);
  }

  /** At a tie the count is even: from 0 to 2.5 by 1 gives 0, 1 and 2,
      because 2.5 steps round to 2, and the sequence falls half a step
      short of `stop`. */
  lemma FromToByTie()
    ensures FromToBy(0.0, 2.5, 1.0, 0).value == [0.0, 1.0, 2.0]
  {
    FromToByCount(0.0, 2.5, 1.0, 0, 2);
    var xs := FromToBy(0.0, 2.5, 1.0, 0).value;
    forall i | 0 <= i < 3
      ensures xs[i] == i as real
    {
      FromToByElement(0.0, 2.5, 1.0, 0, i);
      RoundDigitsOnLattice(i as real, 0);
    }
  }

  /** The elements before rounding: `start + step * i`. */
  function Unrounded(start: real, step: real, i: int): real
  {
    start + step * i as real
  }

  /** The sequence is non-empty exactly when `stop` lies no more than half a
      step behind `start`, measured in the direction of `step`. */
  lemma FromToByNonEmpty(start: real, stop: real, step: real, digits: int)
    requires step != 0.0
    ensures |FromToBy(start, stop, step, digits).value| > 0 <==> (stop - start) / step >= -0.5
  {
    var q := (stop - start) / step;
    if q >= -0.5 {
      RoundHalfEvenMonotone(-0.5, q);
      assert RoundHalfEven(-0.5) == 0;
    }
  }

  /** Element `i` is `start + step * i` rounded to `digits` places. */
  lemma FromToByElement(start: real, stop: real, step: real, digits: int, i: nat)
    requires step != 0.0
    requires i < |FromToBy(start, stop, step, digits).value|
    ensures FromToBy(start, stop, step, digits).value[i] == RoundDigits(Unrounded(start, step, i), digits)
  {
    var xs := FromToBy(start, stop, step, digits).value;
    var length := StepCount(start, stop, step);
    var count := if length + 1 < 0 then 0 else length + 1;
    assert xs == seq(count, j => RoundDigits(Unrounded(start, step, j), digits));
  }

  /** A non-empty sequence starts at `round(start, digits)`. */
  lemma FromToByFirst(start: real, stop: real, step: real, digits: int)
    requires step != 0.0
    requires |FromToBy(start, stop, step, digits).value| > 0
    ensures FromToBy(start, stop, step, digits).value[0] == RoundDigits(start, digits)
  {
    FromToByElement(start, stop, step, digits, 0);
    assert Unrounded(start, step, 0) == start;
  }

  /** The last element, before rounding, is within half a step of `stop`:
      the count makes it the multiple of `step` nearest to `stop`. This is how
      far the sequence can overshoot (or fall short of) its end. */
  lemma FromToByEndpoint(start: real, stop: real, step: real, digits: int)
    requires step != 0.0
    requires |FromToBy(start, stop, step, digits).value| > 0
    ensures var last := Unrounded(start, step, |FromToBy(start, stop, step, digits).value| - 1);
            -Abs(step) / 2.0 <= last - stop <= Abs(step) / 2.0
    ensures var q, k := (stop - start) / step, |FromToBy(start, stop, step, digits).value| - 1;
            q == k as real - 0.5 || q == k as real + 0.5 ==> k % 2 == 0
  {
    var q := (stop - start) / step;
    var n := StepCount(start, stop, step);
    assert n as real - 0.5 <= q <= n as real + 0.5;
    StepError(start, stop, step, n);
  }

  function Abs(x: real): (a: real)
    ensures a >= 0.0 && (a == x || a == -x)
  {
    if x < 0.0 then -x else x
  }

  /** `start + step * n - stop` is `step` times the error of `n` as an
      estimate of `(stop - start) / step`. */
  lemma StepError(start: real, stop: real, step: real, n: int)
    requires step != 0.0
    requires n as real - 0.5 <= (stop - start) / step <= n as real + 0.5
    ensures -Abs(step) / 2.0 <= Unrounded(start, step, n) - stop <= Abs(step) / 2.0
  {
    var q := (stop - start) / step;
    var e := n as real - q;
    assert step * q == stop - start;
    assert Unrounded(start, step, n) - stop == step * e;
    assert -0.5 <= e <= 0.5;
    if step > 0.0 {
      assert step * e <= step * 0.5;
      assert step * (-0.5) <= step * e;
    } else {
      assert step * e <= step * (-0.5);
      assert step * 0.5 <= step * e;
    }
  }

  /** When `stop` is exactly `k` steps from `start`, the sequence has `k + 1`
      elements and ends at `round(stop, digits)`. */
  lemma FromToByExact(start: real, stop: real, step: real, digits: int, k: nat)
    requires step != 0.0
    requires stop == start + step * k as real
    ensures |FromToBy(start, stop, step, digits).value| == k + 1
    ensures FromToBy(start, stop, step, digits).value[k] == RoundDigits(stop, digits)
  {
    assert (stop - start) / step == k as real;
    RoundHalfEvenOfInt(k);
    FromToByElement(start, stop, step, digits, k);
  }

  lemma UnroundedMonotone(start: real, step: real, i: int, j: int)
    requires step > 0.0 && i <= j
    ensures Unrounded(start, step, i) <= Unrounded(start, step, j)
  {
    assert step * j as real - step * i as real == step * (j - i) as real;
  }

  /** With a positive step the sequence is non-decreasing. */
  lemma FromToBySorted(start: real, stop: real, step: real, digits: int)
    requires step > 0.0
    ensures var xs := FromToBy(start, stop, step, digits).value;
            forall i, j :: 0 <= i <= j < |xs| ==> xs[i] <= xs[j]
  {
    var xs := FromToBy(start, stop, step, digits).value;
    forall i, j | 0 <= i <= j < |xs|
      ensures xs[i] <= xs[j]
    {
      FromToByElement(start, stop, step, digits, i);
      FromToByElement(start, stop, step, digits, j);
      UnroundedMonotone(start, step, i, j);
      RoundDigitsMonotone(Unrounded(start, step, i), Unrounded(start, step, j), digits);
    }
  }

  /** With a positive step and bounds that already have at most `digits`
      decimal places, a `stop` an exact number of steps from `start` keeps
      every element between the two bounds. */
  lemma FromToByWithinBounds(start: real, stop: real, step: real, digits: int, k: nat)
    requires step > 0.0
    requires OnLattice(start, digits) && OnLattice(stop, digits)
    requires stop == start + step * k as real
    ensures var xs := FromToBy(start, stop, step, digits).value;
            forall i :: 0 <= i < |xs| ==> start <= xs[i] <= stop
  {
    var xs := FromToBy(start, stop, step, digits).value;
    FromToByExact(start, stop, step, digits, k);
    forall i | 0 <= i < |xs|
      ensures start <= xs[i] <= stop
    {
      FromToByElement(start, stop, step, digits, i);
      UnroundedMonotone(start, step, 0, i);
      UnroundedMonotone(start, step, i, k);
      RoundDigitsBetween(start, Unrounded(start, step, i), stop, digits);
    }
  }

  /** The rounded count can carry the sequence past `stop`: from 179 to 179.9
      by 0.6 is one and a half steps, which rounds to two, so the sequence has
      three elements and the last is 180.2 rounded, beyond 179.9 and also
      outside the longitude range [-180, 180). */
  lemma FromToByOvershoots()
    ensures var xs := FromToBy(179.0, 179.9, 0.6, 8).value;
            |xs| == 3 && xs[2] > 179.9 && xs[2] >= 180.0
  {
    var xs := FromToBy(179.0, 179.9, 0.6, 8).value;
    assert (179.9 - 179.0) / 0.6 == 1.5;
    assert RoundHalfEven(1.5) == 2;
    assert Scale(8) == 100000000.0;
    assert xs[2] == RoundDigits(180.2, 8);
  }
}
