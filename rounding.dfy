/** Python's built-in `round`, on exact real numbers.

    `round(x)` returns the integer nearest to `x`, and on a tie (a fractional
    part of exactly one half) the even one. `round(x, d)` rounds to the
    nearest multiple of 10^-d with the same tie rule. Binary floating point is
    not modelled: the numbers here are exact. */
module Rounding {

  /** `round(x)`: the nearest integer, ties to the even neighbour. */
  function RoundHalfEven(x: real): (n: int)
    ensures n as real - 0.5 <= x <= n as real + 0.5
    ensures x == n as real - 0.5 || x == n as real + 0.5 ==> n % 2 == 0
  {
    var f := x.Floor;
    var frac := x - f as real;
    if frac < 0.5 then f
    else if frac > 0.5 then f + 1
    else if f % 2 == 0 then f
    else f + 1
  }

  /** The two postconditions of RoundHalfEven determine its result: any
      integer within one half of `x`, and even on a tie, is that result. */
  lemma RoundHalfEvenUnique(x: real, n: int)
    requires n as real - 0.5 <= x <= n as real + 0.5
    requires x == n as real - 0.5 || x == n as real + 0.5 ==> n % 2 == 0
    ensures RoundHalfEven(x) == n
  {
  }

  /** Rounding an integer gives it back. */
  lemma RoundHalfEvenOfInt(k: int)
    ensures RoundHalfEven(k as real) == k
  {
    RoundHalfEvenUnique(k as real, k);
  }

  /** Rounding is monotone. */
  lemma RoundHalfEvenMonotone(x: real, y: real)
    requires x <= y
    ensures RoundHalfEven(x) <= RoundHalfEven(y)
  {
  }

  function Pow10(n: nat): (p: nat)
    ensures p >= 1
  {
    if n == 0 then 1 else 10 * Pow10(n - 1)
  }

  /** The number of lattice steps per unit when rounding to `digits` decimal
      places: 10^digits, which is a fraction when `digits` is negative. */
  function Scale(digits: int): (s: real)
    ensures s > 0.0
  {
    if digits >= 0 then Pow10(digits) as real else 1.0 / Pow10(-digits) as real
  }

  /** `x` is a whole number of steps of size 1/s. */
  predicate OnGrid(x: real, s: real)
    requires s > 0.0
  {
    (x * s).Floor as real == x * s
  }

  /** If `x` lies exactly halfway between two grid points, `r` is the one
      that is an even number of steps of size 1/s from zero. */
  predicate TieToEven(x: real, r: real, s: real)
  {
    x * s == r * s - 0.5 || x * s == r * s + 0.5 ==> (r * s).Floor % 2 == 0
  }

  /** Rounds `x` to the nearest whole number of steps of size 1/s, ties to an
      even number of steps. */
  function RoundTo(x: real, s: real): (r: real)
    requires s > 0.0
    ensures OnGrid(r, s)
    ensures x - 0.5 / s <= r <= x + 0.5 / s
    ensures TieToEven(x, r, s)
  {
    var n := RoundHalfEven(x * s);
    GridPoint(n, s);
    WithinHalfStep(x, n, s);
    n as real / s
  }

  lemma GridPoint(n: int, s: real)
    requires s > 0.0
    ensures OnGrid(n as real / s, s)
  {
    Cancel(n as real, s);
    assert (n as real / s) * s == n as real;
    assert (n as real).Floor == n;
  }

  lemma WithinHalfStep(x: real, n: int, s: real)
    requires s > 0.0
    requires n as real - 0.5 <= x * s <= n as real + 0.5
    ensures x - 0.5 / s <= n as real / s <= x + 0.5 / s
  {
    DivideMonotone(n as real - 0.5, x * s, s);
    DivideMonotone(x * s, n as real + 0.5, s);
    Cancel(x, s);
  }

  lemma DivideMonotone(a: real, b: real, s: real)
    requires s > 0.0 && a <= b
    ensures a / s <= b / s
  {
  }

  lemma Cancel(a: real, s: real)
    requires s > 0.0
    ensures (a / s) * s == a
    ensures (a * s) / s == a
  {
  }

  lemma ScaleMonotone(x: real, y: real, s: real)
    requires s > 0.0 && x <= y
    ensures x * s <= y * s
  {
  }

  /** A value already on the grid is left unchanged. */
  lemma RoundToOnGrid(x: real, s: real)
    requires s > 0.0 && OnGrid(x, s)
    ensures RoundTo(x, s) == x
  {
    var k := (x * s).Floor;
    RoundHalfEvenOfInt(k);
    Cancel(x, s);
  }

  lemma RoundToMonotone(x: real, y: real, s: real)
    requires s > 0.0 && x <= y
    ensures RoundTo(x, s) <= RoundTo(y, s)
  {
    ScaleMonotone(x, y, s);
    RoundHalfEvenMonotone(x * s, y * s);
    DivideMonotone(RoundHalfEven(x * s) as real, RoundHalfEven(y * s) as real, s);
  }

  /** `x` has at most `digits` decimal places: it is a multiple of 10^-digits. */
  predicate OnLattice(x: real, digits: int)
  {
    OnGrid(x, Scale(digits))
  }

  /** `round(x, digits)`. */
  function RoundDigits(x: real, digits: int): (r: real)
    ensures OnLattice(r, digits)
    ensures x - 0.5 / Scale(digits) <= r <= x + 0.5 / Scale(digits)
    ensures TieToEven(x, r, Scale(digits))
  {
    RoundTo(x, Scale(digits))
  }

  /** The three postconditions of RoundDigits determine its result: a number
      with at most `digits` decimals, within half a unit in the last place of
      `x`, and an even number of units on a tie, is `round(x, digits)`. */
  lemma RoundDigitsUnique(x: real, y: real, digits: int)
    requires OnLattice(y, digits)
    requires x - 0.5 / Scale(digits) <= y <= x + 0.5 / Scale(digits)
    requires TieToEven(x, y, Scale(digits))
    ensures RoundDigits(x, digits) == y
  {
    RoundToUnique(x, y, Scale(digits));
  }

  /** The postconditions of RoundTo determine its result. */
  lemma RoundToUnique(x: real, y: real, s: real)
    requires s > 0.0 && OnGrid(y, s)
    requires x - 0.5 / s <= y <= x + 0.5 / s
    requires TieToEven(x, y, s)
    ensures RoundTo(x, s) == y
  {
    var n := (y * s).Floor;
    HalfStepScaled(x, y, s);
    RoundHalfEvenUnique(x * s, n);
    Cancel(y, s);
  }

  /** Scaling "within half a step of `x`" by `s`. */
  lemma HalfStepScaled(x: real, y: real, s: real)
    requires s > 0.0 && x - 0.5 / s <= y <= x + 0.5 / s
    ensures x * s - 0.5 <= y * s <= x * s + 0.5
  {
    ScaleMonotone(x - 0.5 / s, y, s);
    ScaleMonotone(y, x + 0.5 / s, s);
    Cancel(0.5, s);
    assert (x - 0.5 / s) * s == x * s - (0.5 / s) * s;
    assert (x + 0.5 / s) * s == x * s + (0.5 / s) * s;
  }

  /** A tie is rounded to the even neighbour: `round(0.125, 2)` is 0.12. */
  lemma RoundDigitsTie()
    ensures RoundDigits(0.125, 2) == 0.12
  {
    RoundDigitsUnique(0.125, 0.12, 2);
  }

  /** A number that already has at most `digits` decimal places is left
      unchanged by `round(x, digits)`. */
  lemma RoundDigitsOnLattice(x: real, digits: int)
    requires OnLattice(x, digits)
    ensures RoundDigits(x, digits) == x
  {
    RoundToOnGrid(x, Scale(digits));
  }

  /** `round(x, digits)` is monotone in `x`. */
  lemma RoundDigitsMonotone(x: real, y: real, digits: int)
    requires x <= y
    ensures RoundDigits(x, digits) <= RoundDigits(y, digits)
  {
    RoundToMonotone(x, y, Scale(digits));
  }

  /** Rounding twice to the same precision is rounding once. */
  lemma RoundDigitsIdempotent(x: real, digits: int)
    ensures RoundDigits(RoundDigits(x, digits), digits) == RoundDigits(x, digits)
  {
    RoundDigitsOnLattice(RoundDigits(x, digits), digits);
  }

  /** Rounding stays between two lattice points that bracket `x`. */
  lemma RoundDigitsBetween(lo: real, x: real, hi: real, digits: int)
    requires OnLattice(lo, digits) && OnLattice(hi, digits)
    requires lo <= x <= hi
    ensures lo <= RoundDigits(x, digits) <= hi
  {
    RoundDigitsMonotone(lo, x, digits);
    RoundDigitsMonotone(x, hi, digits);
    RoundDigitsOnLattice(lo, digits);
    RoundDigitsOnLattice(hi, digits);
  }
}
