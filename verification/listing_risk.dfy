/**
  The full analysis of one listing (`analyzeListingRisk` in
  `lib/sps-rules.ts`): the three analyzers' scores are weighted 1.2, 1.0 and
  0.8, capped at 100, rounded for the risk score and bucketed into a tier;
  the violations of the three analyzers are concatenated in order.

  `Combine` computes the weighted score exactly; the source computes it in
  binary floating point, which module `FloatScore` models.
*/
module ListingRisk {
  import opened Seqs
  import opened Strings
  import opened Rounding
  import opened RiskModel
  import opened ContentRisk
  import opened PerformanceRisk
  import opened ComplianceRisk

  function RealMin(a: real, b: real): (r: real)
    ensures r <= a && r <= b
    ensures r == a || r == b
  {
    if a <= b then a else b
  }

  /** The weighted score `1.2 c + 1.0 p + 0.8 m`, capped at 100, on exact decimals. */
  function WeightedScore(content: int, performance: int, compliance: int): real {
    RealMin(1.2 * (content as real) + 1.0 * (performance as real) + 0.8 * (compliance as real), 100.0)
  }

  /**
    Combines the three analyzer results. The weighted score is computed
    ten-fold in integers; the risk score is its rounding and the tier comes
    from the unrounded value.
  */
  function Combine(content: Analysis, performance: Analysis, compliance: Analysis): (r: RiskAnalysis)
    ensures var x := WeightedScore(content.score, performance.score, compliance.score);
      && r.riskScore == RoundHalfUp(x)
      && r.riskLevel == LevelOf(x)
    ensures 0 <= r.riskScore <= 100
    ensures r.violations == content.violations + performance.violations + compliance.violations
    ensures r.factors == Factors(content.score, performance.score, compliance.score)
  {
    var tenfold := Min(12 * content.score + 10 * performance.score + 8 * compliance.score, 1000);
    TenfoldIsWeighted(content.score, performance.score, compliance.score);
    RoundTenfold(tenfold);
    RiskAnalysis(
      (tenfold + 5) / 10,
      LevelOf(tenfold as real / 10.0),
      content.violations + performance.violations + compliance.violations,
      Factors(RoundHalfUp(content.score as real),
              RoundHalfUp(performance.score as real),
              RoundHalfUp(compliance.score as real)))
  }

  /** The integer ten-fold sum is ten times the decimal weighted score, and even. */
  lemma TenfoldIsWeighted(c: int, p: int, m: int)
    ensures Min(12 * c + 10 * p + 8 * m, 1000) as real / 10.0 == WeightedScore(c, p, m)
    ensures Min(12 * c + 10 * p + 8 * m, 1000) % 2 == 0
  {
  }

  /** An even ten-fold value is never a tie for rounding, and `(t + 5) / 10` rounds it. */
  lemma RoundTenfold(tenfold: int)
    requires tenfold % 2 == 0
    ensures RoundHalfUp(tenfold as real / 10.0) == (tenfold + 5) / 10
  {
    var q := (tenfold + 5) / 10;
    assert 10 * q <= tenfold + 5 < 10 * q + 10;
    assert 10 * q != tenfold + 5;
  }

  /** The full analysis of one listing. */
  function AnalyzeListingRisk(l: Listing, patterns: seq<Pattern>): (r: RiskAnalysis)
    ensures r.factors == Factors(AnalyzeContentRisk(l, patterns).score, AnalyzePerformanceRisk(l).score,
                                 AnalyzeComplianceRisk(l).score)
    ensures 0 <= r.factors.contentRisk <= ContentCap
    ensures 0 <= r.factors.performanceRisk <= PerformanceCap
    ensures 0 <= r.factors.complianceRisk <= ComplianceCap
    ensures 0 <= r.riskScore <= 100
    ensures r.riskScore == RoundHalfUp(WeightedScore(r.factors.contentRisk, r.factors.performanceRisk, r.factors.complianceRisk))
    ensures r.riskLevel == LevelOf(WeightedScore(r.factors.contentRisk, r.factors.performanceRisk, r.factors.complianceRisk))
    ensures r.violations == AnalyzeContentRisk(l, patterns).violations
                            + AnalyzePerformanceRisk(l).violations
                            + AnalyzeComplianceRisk(l).violations
  {
    Combine(AnalyzeContentRisk(l, patterns), AnalyzePerformanceRisk(l), AnalyzeComplianceRisk(l))
  }

  // ------------------------------------------------------------------ properties of the aggregate

  /** Higher analyzer scores never give a lower risk score or tier. */
  lemma CombineMonotone(c: int, p: int, m: int, c': int, p': int, m': int)
    requires c <= c' && p <= p' && m <= m'
    ensures RoundHalfUp(WeightedScore(c, p, m)) <= RoundHalfUp(WeightedScore(c', p', m'))
    ensures LevelOf(WeightedScore(c, p, m)).Rank() <= LevelOf(WeightedScore(c', p', m')).Rank()
  {
    RoundMonotone(WeightedScore(c, p, m), WeightedScore(c', p', m'));
    LevelMonotone(WeightedScore(c, p, m), WeightedScore(c', p', m'));
  }

  /**
    The tier is taken before rounding, so it is not a function of the risk
    score: content 18 and compliance 10 weigh 29.6, reported as risk score 30
    but tier safe, while content 25 weighs exactly 30, risk score 30 and tier low.
  */
  lemma TierBeforeRounding()
    ensures Combine(Analysis(18, []), Analysis(0, []), Analysis(10, [])).riskScore == 30
    ensures Combine(Analysis(18, []), Analysis(0, []), Analysis(10, [])).riskLevel == SafeRisk
    ensures Combine(Analysis(25, []), Analysis(0, []), Analysis(0, [])).riskScore == 30
    ensures Combine(Analysis(25, []), Analysis(0, []), Analysis(0, [])).riskLevel == LowRisk
  {
  }

  /** Every violation is worth at least 5 points, so a non-empty list weighs at least 5. */
  lemma {:induction false} WeightAtLeast(vs: seq<Violation>)
    ensures |vs| > 0 ==> Weight(vs) >= 5
    ensures |vs| == 0 ==> Weight(vs) == 0
    decreases |vs|
  {
    if |vs| > 0 {
      WeightAtLeast(vs[1..]);
    }
  }

  /** An analyzer with a positive cap scores 0 exactly when it reports nothing. */
  lemma ZeroScoreClean(a: Analysis, cap: nat)
    requires cap >= 5 && a.score == Min(Weight(a.violations), cap)
    ensures a.score == 0 <==> a.violations == []
    ensures a.score == 0 || a.score >= 5
  {
    WeightAtLeast(a.violations);
  }

  /** Three priced analyzer results combine to 0 exactly when none reports anything, and then to a safe tier. */
  lemma CombineCleanIffZero(c: Analysis, p: Analysis, m: Analysis)
    requires c.score == Min(Weight(c.violations), ContentCap)
    requires p.score == Min(Weight(p.violations), PerformanceCap)
    requires m.score == Min(Weight(m.violations), ComplianceCap)
    ensures Combine(c, p, m).riskScore == 0 <==> Combine(c, p, m).violations == []
    ensures Combine(c, p, m).violations == [] ==> Combine(c, p, m).riskLevel == SafeRisk
  {
    ZeroScoreClean(c, ContentCap);
    ZeroScoreClean(p, PerformanceCap);
    ZeroScoreClean(m, ComplianceCap);
    var x := WeightedScore(c.score, p.score, m.score);
    if c.score > 0 || p.score > 0 || m.score > 0 {
      assert x >= 4.0;
      RoundMonotone(4.0, x);
    } else {
      assert x == 0.0;
    }
  }

  /** A listing scores 0, and is then safe, exactly when no rule fires. */
  lemma CleanIffZero(l: Listing, patterns: seq<Pattern>)
    ensures AnalyzeListingRisk(l, patterns).riskScore == 0 <==> AnalyzeListingRisk(l, patterns).violations == []
    ensures AnalyzeListingRisk(l, patterns).violations == [] ==> AnalyzeListingRisk(l, patterns).riskLevel == SafeRisk
  {
    ContentScore(l, patterns);
    PerformanceScore(l);
    ComplianceScore(l);
    CombineCleanIffZero(AnalyzeContentRisk(l, patterns), AnalyzePerformanceRisk(l), AnalyzeComplianceRisk(l));
  }

  /** Three analyzer results, each reporting only its own analyzer's types. */
  predicate AnalyzerParts(c: Analysis, p: Analysis, m: Analysis) {
    TypesIn(c, ContentTypes) && TypesIn(p, PerformanceTypes) && TypesIn(m, ComplianceTypes)
  }

  /** In the concatenation of the three, a violation comes from the analyzer of its type. */
  lemma PartsByType(c: Analysis, p: Analysis, m: Analysis, w: Violation)
    requires AnalyzerParts(c, p, m)
    ensures w.Type() in ContentTypes ==> (w in c.violations + p.violations + m.violations <==> w in c.violations)
    ensures w.Type() in PerformanceTypes ==> (w in c.violations + p.violations + m.violations <==> w in p.violations)
    ensures w.Type() in ComplianceTypes ==> (w in c.violations + p.violations + m.violations <==> w in m.violations)
  {
    if w.Type() !in ContentTypes {
      Absent(c, ContentTypes, w);
    }
    if w.Type() !in PerformanceTypes {
      Absent(p, PerformanceTypes, w);
    }
    if w.Type() !in ComplianceTypes {
      Absent(m, ComplianceTypes, w);
    }
  }

  /** A content violation occurs in the concatenation as often as in the content result. */
  lemma PartsContentCount(c: Analysis, p: Analysis, m: Analysis, w: Violation)
    requires AnalyzerParts(c, p, m) && w.Type() in ContentTypes
    ensures multiset(c.violations + p.violations + m.violations)[w] == multiset(c.violations)[w]
  {
    Absent(p, PerformanceTypes, w);
    Absent(m, ComplianceTypes, w);
  }

  lemma ListingParts(l: Listing, patterns: seq<Pattern>)
    ensures AnalyzerParts(AnalyzeContentRisk(l, patterns), AnalyzePerformanceRisk(l), AnalyzeComplianceRisk(l))
  {
    ContentScore(l, patterns);
    PerformanceScore(l);
    ComplianceScore(l);
  }

  /** A violation of one analyzer's types is in the listing's violations exactly when that analyzer reports it. */
  lemma ViolationsByType(l: Listing, patterns: seq<Pattern>, w: Violation)
    ensures w.Type() in ContentTypes ==>
      (w in AnalyzeListingRisk(l, patterns).violations <==> w in AnalyzeContentRisk(l, patterns).violations)
    ensures w.Type() in PerformanceTypes ==>
      (w in AnalyzeListingRisk(l, patterns).violations <==> w in AnalyzePerformanceRisk(l).violations)
    ensures w.Type() in ComplianceTypes ==>
      (w in AnalyzeListingRisk(l, patterns).violations <==> w in AnalyzeComplianceRisk(l).violations)
  {
    ListingParts(l, patterns);
    PartsByType(AnalyzeContentRisk(l, patterns), AnalyzePerformanceRisk(l), AnalyzeComplianceRisk(l), w);
  }

  /** In the whole analysis, a forbidden keyword the text contains appears exactly once; any other keyword never. */
  lemma ListingKeywordOnce(l: Listing, patterns: seq<Pattern>, k: string)
    ensures multiset(AnalyzeListingRisk(l, patterns).violations)[ForbiddenKeyword(k)]
         == if k in ForbiddenKeywords && Contains(FullText(l), Lower(k)) then 1 else 0
  {
    ListingParts(l, patterns);
    PartsContentCount(AnalyzeContentRisk(l, patterns), AnalyzePerformanceRisk(l), AnalyzeComplianceRisk(l), ForbiddenKeyword(k));
    KeywordFindings(l, patterns, k);
  }
}
