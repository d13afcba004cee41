/**
  IEEE 754 binary64 ("double") rounding, the arithmetic of JavaScript numbers,
  for the non-negative magnitudes the risk aggregator works with: zero and
  values in [0.5, 1024). A double there has 53 significant bits, so
  neighbouring doubles are `BinadeStart(x) / 2^52` apart; an exact result is
  rounded to the nearest one, a tie going to the even significand.
*/
module Doubles {

  const TwoTo52: real := 4503599627370496.0

  /** The double nearest to the decimal literal `1.2`. */
  const OnePointTwo: real := 5404319552844595.0 / TwoTo52

  /** The double nearest to the decimal literal `0.8`. */
  const ZeroPointEight: real := 3602879701896397.0 / TwoTo52

  /** The magnitudes this model rounds. */
  predicate InRange(x: real) {
    x == 0.0 || 0.5 <= x < 1024.0
  }

  /** The largest power of two not above `x`. */
  function BinadeStart(x: real): (b: real)
    requires 0.5 <= x < 1024.0
    ensures b <= x < 2.0 * b
    ensures 0.5 <= b <= 512.0
  {
    if x < 1.0 then 0.5
    else if x < 2.0 then 1.0
    else if x < 4.0 then 2.0
    else if x < 8.0 then 4.0
    else if x < 16.0 then 8.0
    else if x < 32.0 then 16.0
    else if x < 64.0 then 32.0
    else if x < 128.0 then 64.0
    else if x < 256.0 then 128.0
    else if x < 512.0 then 256.0
    else 512.0
  }

  /** The gap between the doubles around `x`. */
  function Ulp(x: real): (u: real)
    requires 0.5 <= x < 1024.0
    ensures 0.0 < u <= x / TwoTo52
  {
    BinadeStart(x) / TwoTo52
  }

  /** `n` rounded to an integer: to nearest, a tie to the even neighbour. */
  function RoundTiesEven(n: real): (r: int)
    ensures -0.5 <= r as real - n <= 0.5
  {
    var f := n.Floor;
    var frac := n - f as real;
    if frac > 0.5 || (frac == 0.5 && f % 2 == 1) then f + 1 else f
  }

  /** The double a JavaScript operation with exact result `x` yields. */
  function RoundDouble(x: real): (d: real)
    requires InRange(x)
    ensures x == 0.0 ==> d == 0.0
    ensures x != 0.0 ==> -Ulp(x) / 2.0 <= d - x <= Ulp(x) / 2.0
    ensures x != 0.0 ==> -x / TwoTo52 <= d - x <= x / TwoTo52
  {
    if x == 0.0 then 0.0
    else
      var u := Ulp(x);
      var n := x / u;
      var r := RoundTiesEven(n);
      ErrorScales(r as real - n, u);
      assert r as real * u - x == (r as real - n) * u;
      r as real * u
  }

  /** An error of at most half a unit, scaled by the unit. */
  lemma ErrorScales(e: real, u: real)
    requires -0.5 <= e <= 0.5 && u > 0.0
    ensures -u / 2.0 <= e * u <= u / 2.0
  {
  }

  /** The source's decimal literals `1.2` and `0.8` denote the doubles used here. */
  lemma LiteralsRounded()
    ensures RoundDouble(1.2) == OnePointTwo
    ensures RoundDouble(0.8) == ZeroPointEight
  {
    RoundsTo(1.2, 5404319552844595);
    RoundsTo(0.8, 7205759403792794);
  }

  /** `x` rounds to `k` units when `k` is its nearest multiple of the unit, clear of a tie. */
  lemma RoundsTo(x: real, k: int)
    requires 0.5 <= x < 1024.0
    requires -0.5 < k as real - x / Ulp(x) < 0.5
    ensures RoundDouble(x) == k as real * Ulp(x)
  {
    var n := x / Ulp(x);
    if k as real <= n {
      assert n.Floor == k;
    } else {
      assert n.Floor == k - 1;
    }
  }

  /** `x` exactly halfway between `k` and `k + 1` units, `k` even, rounds down to `k` units. */
  lemma RoundsTie(x: real, k: int)
    requires 0.5 <= x < 1024.0
    requires x / Ulp(x) == k as real + 0.5 && k % 2 == 0
    ensures RoundDouble(x) == k as real * Ulp(x)
  {
    var n := x / Ulp(x);
    assert n.Floor == k;
  }
}
