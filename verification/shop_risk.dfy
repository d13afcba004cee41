/**
  The shop-level score (`calculateShopRisk` in `lib/sps-rules.ts`): the
  rounded weighted mean of the listings' risk scores, where a critical
  listing counts three times, a high one twice and any other once.
*/
module ShopRisk {
  import opened Rounding
  import opened RiskModel

  /** How many times a listing of this tier counts. */
  function TierWeight(level: RiskLevel): (w: nat)
    ensures 1 <= w <= 3
    ensures w == 3 <==> level == CriticalRisk
    ensures w == 2 <==> level == HighRisk
  {
    if level == CriticalRisk then 3 else if level == HighRisk then 2 else 1
  }

  /** The sum of each risk score times its tier weight. */
  function WeightedSum(listings: seq<RiskAnalysis>): int
    decreases |listings|
  {
    if |listings| == 0 then 0
    else listings[0].riskScore * TierWeight(listings[0].riskLevel) + WeightedSum(listings[1..])
  }

  /** The sum of the tier weights. */
  function TotalWeight(listings: seq<RiskAnalysis>): (w: nat)
    ensures w >= |listings|
    decreases |listings|
  {
    if |listings| == 0 then 0 else TierWeight(listings[0].riskLevel) + TotalWeight(listings[1..])
  }

  /** 0 for no listings, otherwise the weighted mean of the risk scores, rounded as `Math.round` does. */
  function CalculateShopRisk(listings: seq<RiskAnalysis>): (r: int)
    ensures |listings| == 0 ==> r == 0
  {
    if |listings| == 0 then 0
    else RoundHalfUp(WeightedSum(listings) as real / TotalWeight(listings) as real)
  }

  // ------------------------------------------------------------------ bounds

  /** Every risk score lies in `[lo, hi]`. */
  predicate ScoresWithin(listings: seq<RiskAnalysis>, lo: int, hi: int) {
    forall i :: 0 <= i < |listings| ==> lo <= listings[i].riskScore <= hi
  }

  /** With scores in `[lo, hi]`, the weighted sum lies between `lo` and `hi` times the total weight. */
  lemma {:induction false} WeightedSumWithin(listings: seq<RiskAnalysis>, lo: int, hi: int)
    requires ScoresWithin(listings, lo, hi)
    ensures lo * TotalWeight(listings) <= WeightedSum(listings) <= hi * TotalWeight(listings)
    decreases |listings|
  {
    if |listings| > 0 {
      var w, s := TierWeight(listings[0].riskLevel), listings[0].riskScore;
      WithinTail(listings, lo, hi);
      WeightedSumWithin(listings[1..], lo, hi);
      ScaleWithin(s, w, lo, hi);
      AddWithin(s * w, w, WeightedSum(listings[1..]), TotalWeight(listings[1..]), lo, hi);
    }
  }

  lemma WithinTail(listings: seq<RiskAnalysis>, lo: int, hi: int)
    requires |listings| > 0 && ScoresWithin(listings, lo, hi)
    ensures ScoresWithin(listings[1..], lo, hi)
    ensures lo <= listings[0].riskScore <= hi
  {
    forall i | 0 <= i < |listings[1..]| ensures lo <= listings[1..][i].riskScore <= hi {
      assert listings[1..][i] == listings[i + 1];
    }
  }

  /** Bounds on two parts add up to bounds on the whole. */
  lemma AddWithin(a: int, u: int, b: int, v: int, lo: int, hi: int)
    requires lo * u <= a <= hi * u && lo * v <= b <= hi * v
    ensures lo * (u + v) <= a + b <= hi * (u + v)
  {
    assert lo * (u + v) == lo * u + lo * v;
    assert hi * (u + v) == hi * u + hi * v;
  }

  /** Multiplying by a non-negative weight keeps the bounds. */
  lemma ScaleWithin(s: int, w: nat, lo: int, hi: int)
    requires lo <= s <= hi
    ensures lo * w <= s * w <= hi * w
  {
    var k := w;
    while k > 0
      invariant 0 <= k <= w
      invariant lo * (w - k) <= s * (w - k) <= hi * (w - k)
      decreases k
    {
      k := k - 1;
    }
  }

  /** A quotient of a sum within `lo` and `hi` times a positive count lies within `lo` and `hi`. */
  lemma DivideWithin(s: int, w: nat, lo: int, hi: int)
    requires w > 0 && lo * w <= s <= hi * w
    ensures lo as real <= s as real / w as real <= hi as real
  {
    var q := s as real / w as real;
    assert q * w as real == s as real;
    assert (lo * w) as real == lo as real * w as real;
    assert (hi * w) as real == hi as real * w as real;
  }

  /** The mean of a shop lies between its lowest and highest listing score. */
  lemma ShopRiskWithin(listings: seq<RiskAnalysis>, lo: int, hi: int)
    requires |listings| > 0 && ScoresWithin(listings, lo, hi)
    ensures lo <= CalculateShopRisk(listings) <= hi
  {
    var s, w := WeightedSum(listings), TotalWeight(listings);
    WeightedSumWithin(listings, lo, hi);
    DivideWithin(s, w, lo, hi);
    RoundWithin(s as real / w as real, lo, hi);
  }

  /** Risk scores of 0 to 100 give a shop score of 0 to 100. */
  lemma ShopRiskRange(listings: seq<RiskAnalysis>)
    requires ScoresWithin(listings, 0, 100)
    ensures 0 <= CalculateShopRisk(listings) <= 100
  {
    if |listings| > 0 {
      ShopRiskWithin(listings, 0, 100);
    }
  }

  /** A shop whose listings all score `s` scores `s`. */
  lemma ShopRiskUniform(listings: seq<RiskAnalysis>, s: int)
    requires |listings| > 0 && ScoresWithin(listings, s, s)
    ensures CalculateShopRisk(listings) == s
  {
    ShopRiskWithin(listings, s, s);
  }

  // ------------------------------------------------------------------ the weighted mean as a plain mean

  /** `n` copies of `x`. */
  function Copies(x: int, n: nat): (xs: seq<int>)
    ensures |xs| == n
  {
    if n == 0 then [] else [x] + Copies(x, n - 1)
  }

  function Sum(xs: seq<int>): int
    decreases |xs|
  {
    if |xs| == 0 then 0 else xs[0] + Sum(xs[1..])
  }

  /** Each listing's score written out as many times as its tier weight. */
  function Expand(listings: seq<RiskAnalysis>): seq<int>
    decreases |listings|
  {
    if |listings| == 0 then []
    else Copies(listings[0].riskScore, TierWeight(listings[0].riskLevel)) + Expand(listings[1..])
  }

  lemma {:induction false} SumAppend(a: seq<int>, b: seq<int>)
    ensures Sum(a + b) == Sum(a) + Sum(b)
    decreases |a|
  {
    if |a| == 0 {
      assert a + b == b;
    } else {
      assert (a + b)[1..] == a[1..] + b;
      SumAppend(a[1..], b);
    }
  }

  lemma {:induction false} SumCopies(x: int, n: nat)
    ensures Sum(Copies(x, n)) == x * n
    decreases n
  {
    if n > 0 {
      SumCopies(x, n - 1);
    }
  }

  /** The expanded list has the total weight as length and the weighted sum as sum. */
  lemma {:induction false} ExpandMatches(listings: seq<RiskAnalysis>)
    ensures |Expand(listings)| == TotalWeight(listings)
    ensures Sum(Expand(listings)) == WeightedSum(listings)
    decreases |listings|
  {
    if |listings| > 0 {
      var c := Copies(listings[0].riskScore, TierWeight(listings[0].riskLevel));
      ExpandMatches(listings[1..]);
      SumAppend(c, Expand(listings[1..]));
      SumCopies(listings[0].riskScore, TierWeight(listings[0].riskLevel));
    }
  }

  /** The shop score is the rounded plain mean of the scores with high listings doubled and critical ones tripled. */
  lemma ShopRiskIsMean(listings: seq<RiskAnalysis>)
    requires |listings| > 0
    ensures CalculateShopRisk(listings) == RoundHalfUp(Sum(Expand(listings)) as real / |Expand(listings)| as real)
  {
    ExpandMatches(listings);
  }

  /** Without high or critical listings, every score counts once: the expansion is the scores themselves. */
  lemma {:induction false} ExpandPlain(listings: seq<RiskAnalysis>)
    requires forall i :: 0 <= i < |listings| ==> listings[i].riskLevel.Rank() <= 2
    ensures |Expand(listings)| == |listings|
    ensures forall i :: 0 <= i < |listings| ==> Expand(listings)[i] == listings[i].riskScore
    decreases |listings|
  {
    if |listings| > 0 {
      assert forall i :: 0 <= i < |listings[1..]| ==> listings[1..][i] == listings[i + 1];
      ExpandPlain(listings[1..]);
      assert TierWeight(listings[0].riskLevel) == 1;
    }
  }
}
