/**
  The weighted score of `analyzeListingRisk` (`lib/sps-rules.ts`) as the
  source computes it: on IEEE doubles, left to right. It stays within a
  thousandth of the exact score, so the rounded risk score never differs;
  but an exact score on a tier boundary can land just below it, in the tier
  beneath.
*/
module FloatScore {
  import opened Seqs
  import opened Rounding
  import opened Doubles
  import opened RiskModel
  import opened ListingRisk

  /** The double `1.2` is a little below 1.2. */
  lemma ScaleContent(c: real)
    ensures c * OnePointTwo == 1.2 * c - 0.2 * c / TwoTo52
  {
  }

  /** The double `0.8` is a little above 0.8. */
  lemma ScaleCompliance(m: real)
    ensures m * ZeroPointEight == 0.8 * m + 0.2 * m / TwoTo52
  {
  }

  /** The rounding error of a value at most `hi` is at most `hi / 2^52`. */
  lemma RoundedNear(x: real, hi: real)
    requires InRange(x) && x <= hi
    ensures -hi / TwoTo52 <= RoundDouble(x) - x <= hi / TwoTo52
    ensures x != 0.0 ==> RoundDouble(x) >= x / 2.0
  {
  }

  /** The tolerance the steps below keep to, far above any rounding error here. */
  const Tiny: real := 0.0001

  /** `c * 1.2` on doubles: zero for zero, otherwise near 1.2 c. */
  lemma ContentStep(c: nat)
    requires c <= ContentCap
    ensures InRange(c as real * OnePointTwo)
    ensures -Tiny < RoundDouble(c as real * OnePointTwo) - 1.2 * c as real < Tiny
    ensures c == 0 ==> RoundDouble(c as real * OnePointTwo) == 0.0
  {
    ScaleContent(c as real);
    RoundedNear(c as real * OnePointTwo, 80.0);
  }

  /** Adding `p` to a rounded content term near 1.2 c. */
  lemma PerformanceStep(c: nat, a: real, p: nat)
    requires c <= ContentCap && p <= PerformanceCap
    requires -Tiny < a - 1.2 * c as real < Tiny && (c == 0 ==> a == 0.0)
    ensures InRange(a + p as real)
    ensures -2.0 * Tiny < RoundDouble(a + p as real) - (1.2 * c as real + p as real) < 2.0 * Tiny
    ensures c == 0 && p == 0 ==> RoundDouble(a + p as real) == 0.0
  {
    RoundedNear(a + p as real, 130.0);
  }

  /** `m * 0.8` on doubles: zero for zero, otherwise near 0.8 m. */
  lemma ComplianceStep(m: nat)
    requires m <= ComplianceCap
    ensures InRange(m as real * ZeroPointEight)
    ensures -Tiny < RoundDouble(m as real * ZeroPointEight) - 0.8 * m as real < Tiny
    ensures m == 0 ==> RoundDouble(m as real * ZeroPointEight) == 0.0
  {
    ScaleCompliance(m as real);
    RoundedNear(m as real * ZeroPointEight, 30.0);
  }

  /** The final sum of the two rounded terms. */
  lemma SumStep(x: real, b: real, mm: real, y: real)
    requires 0.0 <= x <= 1.2 * 60.0 + 40.0 && 0.0 <= y <= 0.8 * 30.0
    requires -2.0 * Tiny < b - x < 2.0 * Tiny && (x == 0.0 ==> b == 0.0) && (x != 0.0 ==> x >= 1.0)
    requires -Tiny < mm - y < Tiny && (y == 0.0 ==> mm == 0.0) && (y != 0.0 ==> y >= 0.8)
    ensures InRange(b + mm)
    ensures -4.0 * Tiny < RoundDouble(b + mm) - (x + y) < 4.0 * Tiny
  {
    RoundedNear(b + mm, 160.0);
  }

  /**
    `c * 1.2 + p * 1.0 + m * 0.8` on doubles: `c * 1.2` rounded, plus `p`
    (times 1.0, exact) rounded, plus the rounded `m * 0.8`, rounded.
  */
  function SumAsWritten(c: nat, p: nat, m: nat): (s: real)
    requires c <= ContentCap && p <= PerformanceCap && m <= ComplianceCap
    ensures -0.001 < s - (1.2 * c as real + p as real + 0.8 * m as real) < 0.001
    ensures s >= 0.0
  {
    ContentStep(c);
    var a := RoundDouble(c as real * OnePointTwo);
    PerformanceStep(c, a, p);
    var b := RoundDouble(a + p as real);
    ComplianceStep(m);
    var mm := RoundDouble(m as real * ZeroPointEight);
    SumStep(1.2 * c as real + p as real, b, mm, 0.8 * m as real);
    RoundDouble(b + mm)
  }

  /** `Math.min(sum, 100)` on the floating-point sum. */
  function WeightedScoreAsWritten(c: nat, p: nat, m: nat): (y: real)
    requires c <= ContentCap && p <= PerformanceCap && m <= ComplianceCap
    ensures -0.001 < y - WeightedScore(c, p, m) < 0.001
  {
    RealMin(SumAsWritten(c, p, m), 100.0)
  }

  /** Floating point never changes the rounded risk score: the exact score is never within 0.1 of a half. */
  lemma AsWrittenRounds(c: nat, p: nat, m: nat)
    requires c <= ContentCap && p <= PerformanceCap && m <= ComplianceCap
    ensures RoundHalfUp(WeightedScoreAsWritten(c, p, m)) == RoundHalfUp(WeightedScore(c, p, m))
  {
    var t := Min(12 * c + 10 * p + 8 * m, 1000);
    TenfoldIsWeighted(c, p, m);
    RoundTenfold(t);
    RoundsNearTenth(WeightedScoreAsWritten(c, p, m), t);
  }

  /** A value within a thousandth of an even number of tenths rounds as that number of tenths does. */
  lemma RoundsNearTenth(y: real, t: int)
    requires t % 2 == 0
    requires -0.001 < y - t as real / 10.0 < 0.001
    ensures RoundHalfUp(y) == (t + 5) / 10
  {
    var q := (t + 5) / 10;
    assert 10 * q - 4 <= t <= 10 * q + 4;
    assert q as real <= y + 0.5 < q as real + 1.0;
  }

  /** The score levels at which the tier changes. */
  predicate Boundary(x: real) {
    x == 30.0 || x == 50.0 || x == 70.0 || x == 85.0
  }

  /**
    Floating point changes the tier only for an exact score on a boundary,
    and then to the tier just below.
  */
  lemma AsWrittenTier(c: nat, p: nat, m: nat)
    requires c <= ContentCap && p <= PerformanceCap && m <= ComplianceCap
    ensures var x, y := WeightedScore(c, p, m), WeightedScoreAsWritten(c, p, m);
      LevelOf(y) == LevelOf(x) || (Boundary(x) && y < x && LevelOf(y).Rank() + 1 == LevelOf(x).Rank())
  {
    var t := Min(12 * c + 10 * p + 8 * m, 1000);
    TenfoldIsWeighted(c, p, m);
  }

  /**
    Content 18, performance 22, compliance 8 weigh exactly 50, a medium
    risk; on doubles the sum is 49.99999999999999, a low risk. So do
    content 23, performance 8, compliance 18.
  */
  lemma AsWrittenTierDrops()
    ensures WeightedScore(18, 22, 8) == 50.0 && LevelOf(WeightedScore(18, 22, 8)) == MediumRisk
    ensures WeightedScoreAsWritten(18, 22, 8) < 50.0 && LevelOf(WeightedScoreAsWritten(18, 22, 8)) == LowRisk
    ensures WeightedScore(23, 8, 18) == 50.0 && LevelOf(WeightedScore(23, 8, 18)) == MediumRisk
    ensures WeightedScoreAsWritten(23, 8, 18) < 50.0 && LevelOf(WeightedScoreAsWritten(23, 8, 18)) == LowRisk
  {
    SumFirst();
    SumSecond();
  }

  /** `x` in the binade starting at `b` rounds to `k` units of that binade, clear of a tie. */
  lemma RoundsIn(x: real, b: real, k: int)
    requires b == 4.0 || b == 8.0 || b == 16.0 || b == 32.0
    requires b <= x < 2.0 * b
    requires -0.5 < k as real - x * TwoTo52 / b < 0.5
    ensures RoundDouble(x) == k as real * b / TwoTo52
  {
    assert BinadeStart(x) == b;
    RoundsTo(x, k);
  }

  /** `x` in the binade starting at `b`, halfway between `k` and `k + 1` units with `k` even, rounds to `k` units. */
  lemma TiesIn(x: real, b: real, k: int)
    requires b == 32.0
    requires b <= x < 2.0 * b
    requires x * TwoTo52 / b == k as real + 0.5 && k % 2 == 0
    ensures RoundDouble(x) == k as real * b / TwoTo52
  {
    assert BinadeStart(x) == b;
    RoundsTie(x, k);
  }

  /** The sum, unfolded into its four roundings. */
  lemma SumSteps(c: nat, p: nat, m: nat)
    requires c <= ContentCap && p <= PerformanceCap && m <= ComplianceCap
    ensures InRange(c as real * OnePointTwo) && InRange(m as real * ZeroPointEight)
    ensures InRange(RoundDouble(c as real * OnePointTwo) + p as real)
    ensures InRange(RoundDouble(RoundDouble(c as real * OnePointTwo) + p as real) + RoundDouble(m as real * ZeroPointEight))
    ensures SumAsWritten(c, p, m)
         == RoundDouble(RoundDouble(RoundDouble(c as real * OnePointTwo) + p as real) + RoundDouble(m as real * ZeroPointEight))
  {
    ContentStep(c);
    var a := RoundDouble(c as real * OnePointTwo);
    PerformanceStep(c, a, p);
    var b := RoundDouble(a + p as real);
    ComplianceStep(m);
    var mm := RoundDouble(m as real * ZeroPointEight);
    SumStep(1.2 * c as real + p as real, b, mm, 0.8 * m as real);
  }

  /** Given the value of each of the four roundings, the sum is the last of them. */
  lemma SumFrom(c: nat, p: nat, m: nat, a: real, b: real, mm: real, total: real)
    requires c <= ContentCap && p <= PerformanceCap && m <= ComplianceCap
    requires InRange(c as real * OnePointTwo) && InRange(m as real * ZeroPointEight)
    requires RoundDouble(c as real * OnePointTwo) == a
    requires RoundDouble(m as real * ZeroPointEight) == mm
    requires InRange(a + p as real) && RoundDouble(a + p as real) == b
    requires InRange(b + mm) && RoundDouble(b + mm) == total
    ensures SumAsWritten(c, p, m) == total
  {
    SumSteps(c, p, m);
  }

  lemma FirstContent()
    ensures RoundDouble(18.0 * OnePointTwo) == 6079859496950169.0 * 16.0 / TwoTo52
  {
    RoundsIn(18.0 * OnePointTwo, 16.0, 6079859496950169);
  }

  lemma FirstPerformance()
    ensures RoundDouble(6079859496950169.0 * 16.0 / TwoTo52 + 22.0) == 6136154492292300.0 * 32.0 / TwoTo52
  {
    TiesIn(6079859496950169.0 * 16.0 / TwoTo52 + 22.0, 32.0, 6136154492292300);
  }

  lemma FirstCompliance()
    ensures RoundDouble(8.0 * ZeroPointEight) == 7205759403792794.0 * 4.0 / TwoTo52
  {
    RoundsIn(8.0 * ZeroPointEight, 4.0, 7205759403792794);
  }

  lemma FirstTotal()
    ensures RoundDouble(6136154492292300.0 * 32.0 / TwoTo52 + 7205759403792794.0 * 4.0 / TwoTo52)
         == 7036874417766399.0 / 140737488355328.0
  {
    RoundsIn(6136154492292300.0 * 32.0 / TwoTo52 + 7205759403792794.0 * 4.0 / TwoTo52, 32.0, 7036874417766399);
  }

  /** The steps of `18 * 1.2 + 22 * 1.0 + 8 * 0.8` on doubles. */
  lemma SumFirst()
    ensures SumAsWritten(18, 22, 8) == 7036874417766399.0 / 140737488355328.0
  {
    FirstContent();
    FirstPerformance();
    FirstCompliance();
    FirstTotal();
    SumFrom(18, 22, 8, 6079859496950169.0 * 16.0 / TwoTo52, 6136154492292300.0 * 32.0 / TwoTo52,
            7205759403792794.0 * 4.0 / TwoTo52, 7036874417766399.0 / 140737488355328.0);
  }

  lemma SecondContent()
    ensures RoundDouble(23.0 * OnePointTwo) == 7768709357214105.0 * 16.0 / TwoTo52
  {
    RoundsIn(23.0 * OnePointTwo, 16.0, 7768709357214105);
  }

  lemma SecondPerformance()
    ensures RoundDouble(7768709357214105.0 * 16.0 / TwoTo52 + 8.0) == 5010254585449676.0 * 32.0 / TwoTo52
  {
    TiesIn(7768709357214105.0 * 16.0 / TwoTo52 + 8.0, 32.0, 5010254585449676);
  }

  lemma SecondCompliance()
    ensures RoundDouble(18.0 * ZeroPointEight) == 8106479329266893.0 * 8.0 / TwoTo52
  {
    RoundsIn(18.0 * ZeroPointEight, 8.0, 8106479329266893);
  }

  lemma SecondTotal()
    ensures RoundDouble(5010254585449676.0 * 32.0 / TwoTo52 + 8106479329266893.0 * 8.0 / TwoTo52)
         == 7036874417766399.0 / 140737488355328.0
  {
    RoundsIn(5010254585449676.0 * 32.0 / TwoTo52 + 8106479329266893.0 * 8.0 / TwoTo52, 32.0, 7036874417766399);
  }

  /** The steps of `23 * 1.2 + 8 * 1.0 + 18 * 0.8` on doubles. */
  lemma SumSecond()
    ensures SumAsWritten(23, 8, 18) == 7036874417766399.0 / 140737488355328.0
  {
    SecondContent();
    SecondPerformance();
    SecondCompliance();
    SecondTotal();
    SumFrom(23, 8, 18, 7768709357214105.0 * 16.0 / TwoTo52, 5010254585449676.0 * 32.0 / TwoTo52,
            8106479329266893.0 * 8.0 / TwoTo52, 7036874417766399.0 / 140737488355328.0);
  }
}
