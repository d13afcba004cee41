/**
  The performance analyzer of the risk engine (`analyzePerformanceRisk` in
  `lib/sps-rules.ts`): return rate, rating, late shipments and shipping time,
  each adding fixed points; the sum is capped at 40. A metric that is absent
  or zero is falsy in JavaScript and never judged.

  Each check reads only the fields it needs, so that its proofs never see
  the rest of the listing.
*/
module PerformanceRisk {
  import opened Wrappers
  import opened Seqs
  import opened RiskModel

  // ------------------------------------------------------------------ the checks

  /**
    Above 15% critical, otherwise above 8% a warning: the source's
    `if`/`else if`, written as two checks with exclusive conditions.
  */
  function ReturnRateCheck(returnRate: Option<real>): Analysis {
    var rate := returnRate.GetOr(0.0);
    var high := TruthyReal(returnRate) && rate > 0.15;
    Then(When(high, HighReturnRate(rate)),
         When(!high && TruthyReal(returnRate) && rate > 0.08, ElevatedReturnRate(rate)))
  }

  /** More than 10 reviews, a truthy count. */
  predicate Reviewed(reviewCount: Option<int>) {
    TruthyInt(reviewCount) && reviewCount.value > 10
  }

  /** Judged only with a truthy rating and more than 10 reviews: below 3.5 critical, below 4.0 a warning. */
  function RatingCheck(rating: Option<real>, reviewCount: Option<int>): Analysis {
    var x := rating.GetOr(0.0);
    var judged := TruthyReal(rating) && Reviewed(reviewCount);
    Then(When(judged && x < 3.5, LowRating(x)),
         When(judged && !(x < 3.5) && x < 4.0, BelowAverageRating(x)))
  }

  /** A truthy late-shipment rate above 10%. */
  function LateShipmentCheck(lateShipmentRate: Option<real>): Analysis {
    var rate := lateShipmentRate.GetOr(0.0);
    When(TruthyReal(lateShipmentRate) && rate > 0.10, LateShipments(rate))
  }

  /** A truthy shipping time above 7 days. */
  function ShippingTimeCheck(shippingDays: Option<int>): Analysis {
    var days := shippingDays.GetOr(0);
    When(TruthyInt(shippingDays) && days > 7, SlowShipping(days))
  }

  /** Every performance check, in the source's order. */
  function PerformanceChecks(l: Listing): Analysis {
    Then(ReturnRateCheck(l.returnRate),
    Then(RatingCheck(l.rating, l.reviewCount),
    Then(LateShipmentCheck(l.lateShipmentRate),
         ShippingTimeCheck(l.shippingDays))))
  }

  /** The performance analyzer: every performance check, capped at 40. */
  function AnalyzePerformanceRisk(l: Listing): (a: Analysis)
    ensures a.score <= PerformanceCap
    ensures a.violations == PerformanceChecks(l).violations
  {
    Capped(PerformanceChecks(l), PerformanceCap)
  }

  // ------------------------------------------------------------------ each check on its own

  /** The return-rate check is priced, reports only return-rate violations, and at most one. */
  lemma ReturnRateChecked(returnRate: Option<real>)
    ensures Priced(ReturnRateCheck(returnRate)) && TypesIn(ReturnRateCheck(returnRate), {ReturnRate})
    ensures |ReturnRateCheck(returnRate).violations| <= 1
  {
    var rate := returnRate.GetOr(0.0);
    var high := TruthyReal(returnRate) && rate > 0.15;
    var elevated := !high && TruthyReal(returnRate) && rate > 0.08;
    WhenChecked(high, HighReturnRate(rate), {ReturnRate});
    WhenChecked(elevated, ElevatedReturnRate(rate), {ReturnRate});
    ThenChecked(When(high, HighReturnRate(rate)), When(elevated, ElevatedReturnRate(rate)), {ReturnRate});
  }

  /** The rating check is priced, reports only rating violations, and at most one. */
  lemma RatingChecked(rating: Option<real>, reviewCount: Option<int>)
    ensures Priced(RatingCheck(rating, reviewCount)) && TypesIn(RatingCheck(rating, reviewCount), {Rating})
    ensures |RatingCheck(rating, reviewCount).violations| <= 1
  {
    var x := rating.GetOr(0.0);
    var judged := TruthyReal(rating) && Reviewed(reviewCount);
    WhenChecked(judged && x < 3.5, LowRating(x), {Rating});
    WhenChecked(judged && !(x < 3.5) && x < 4.0, BelowAverageRating(x), {Rating});
    ThenChecked(When(judged && x < 3.5, LowRating(x)), When(judged && !(x < 3.5) && x < 4.0, BelowAverageRating(x)), {Rating});
  }

  lemma LateShipmentChecked(lateShipmentRate: Option<real>)
    ensures Priced(LateShipmentCheck(lateShipmentRate)) && TypesIn(LateShipmentCheck(lateShipmentRate), {Shipping})
  {
    var rate := lateShipmentRate.GetOr(0.0);
    WhenChecked(TruthyReal(lateShipmentRate) && rate > 0.10, LateShipments(rate), {Shipping});
  }

  lemma ShippingTimeChecked(shippingDays: Option<int>)
    ensures Priced(ShippingTimeCheck(shippingDays)) && TypesIn(ShippingTimeCheck(shippingDays), {ShippingTime})
  {
    var days := shippingDays.GetOr(0);
    WhenChecked(TruthyInt(shippingDays) && days > 7, SlowShipping(days), {ShippingTime});
  }

  /** The return-rate check reports each level exactly for its band of a present rate. */
  lemma ReturnRateBands(returnRate: Option<real>, x: real)
    ensures HighReturnRate(x) in ReturnRateCheck(returnRate).violations <==> returnRate == Some(x) && x > 0.15
    ensures ElevatedReturnRate(x) in ReturnRateCheck(returnRate).violations <==> returnRate == Some(x) && 0.08 < x <= 0.15
  {
    var rate := returnRate.GetOr(0.0);
    var high := TruthyReal(returnRate) && rate > 0.15;
    WhenFinds(high, HighReturnRate(rate));
    WhenFinds(!high && TruthyReal(returnRate) && rate > 0.08, ElevatedReturnRate(rate));
  }

  /** The rating check reports each level exactly for its band of a non-zero rating with more than 10 reviews. */
  lemma RatingBands(rating: Option<real>, reviewCount: Option<int>, x: real)
    ensures LowRating(x) in RatingCheck(rating, reviewCount).violations
        <==> rating == Some(x) && x != 0.0 && x < 3.5 && reviewCount.Some? && reviewCount.value > 10
    ensures BelowAverageRating(x) in RatingCheck(rating, reviewCount).violations
        <==> rating == Some(x) && 3.5 <= x < 4.0 && reviewCount.Some? && reviewCount.value > 10
  {
    var r := rating.GetOr(0.0);
    var judged := TruthyReal(rating) && Reviewed(reviewCount);
    WhenFinds(judged && r < 3.5, LowRating(r));
    WhenFinds(judged && !(r < 3.5) && r < 4.0, BelowAverageRating(r));
  }

  /** The shipping checks report exactly past their thresholds. */
  lemma ShippingBands(lateShipmentRate: Option<real>, shippingDays: Option<int>, x: real, d: int)
    ensures LateShipments(x) in LateShipmentCheck(lateShipmentRate).violations <==> lateShipmentRate == Some(x) && x > 0.10
    ensures SlowShipping(d) in ShippingTimeCheck(shippingDays).violations <==> shippingDays == Some(d) && d > 7
  {
    var rate, days := lateShipmentRate.GetOr(0.0), shippingDays.GetOr(0);
    WhenFinds(TruthyReal(lateShipmentRate) && rate > 0.10, LateShipments(rate));
    WhenFinds(TruthyInt(shippingDays) && days > 7, SlowShipping(days));
  }

  // ------------------------------------------------------------------ the checks together

  /** Return-rate, rating, late-shipment and shipping-time checks, each reporting only its own type. */
  predicate PerformanceParts(r: Analysis, g: Analysis, s: Analysis, t: Analysis) {
    TypesIn(r, {ReturnRate}) && TypesIn(g, {Rating}) && TypesIn(s, {Shipping}) && TypesIn(t, {ShippingTime})
  }

  /** A violation is reported by the four checks together exactly when the check of its type reports it. */
  lemma PartReports(r: Analysis, g: Analysis, s: Analysis, t: Analysis, w: Violation)
    requires PerformanceParts(r, g, s, t)
    ensures var vs := Then(r, Then(g, Then(s, t))).violations;
      && (w.Type() == ReturnRate ==> (w in vs <==> w in r.violations))
      && (w.Type() == Rating ==> (w in vs <==> w in g.violations))
      && (w.Type() == Shipping ==> (w in vs <==> w in s.violations))
      && (w.Type() == ShippingTime ==> (w in vs <==> w in t.violations))
  {
  }

  /** Of the four checks, only the first reports return rates and only the second ratings. */
  lemma PartCounts(r: Analysis, g: Analysis, s: Analysis, t: Analysis)
    requires PerformanceParts(r, g, s, t)
    ensures Filter(Then(r, Then(g, Then(s, t))).violations, OfType(ReturnRate)) == r.violations
    ensures Filter(Then(r, Then(g, Then(s, t))).violations, OfType(Rating)) == g.violations
  {
    Disjoint(g, {Rating}, ReturnRate);
    Disjoint(s, {Shipping}, ReturnRate);
    Disjoint(t, {ShippingTime}, ReturnRate);
    FirstOnly(r, Then(g, Then(s, t)), ReturnRate);
    Disjoint(r, {ReturnRate}, Rating);
    Disjoint(s, {Shipping}, Rating);
    Disjoint(t, {ShippingTime}, Rating);
    OnlyFrom(r, g, Then(s, t), Rating);
  }

  lemma ChecksParts(l: Listing)
    ensures PerformanceParts(ReturnRateCheck(l.returnRate), RatingCheck(l.rating, l.reviewCount),
                             LateShipmentCheck(l.lateShipmentRate), ShippingTimeCheck(l.shippingDays))
  {
    ReturnRateChecked(l.returnRate);
    RatingChecked(l.rating, l.reviewCount);
    LateShipmentChecked(l.lateShipmentRate);
    ShippingTimeChecked(l.shippingDays);
  }

  // ------------------------------------------------------------------ what the analyzer reports

  /** The performance score is the worth of the reported violations, capped at 40; all are performance violations. */
  lemma PerformanceScore(l: Listing)
    ensures AnalyzePerformanceRisk(l).score == Min(Weight(AnalyzePerformanceRisk(l).violations), PerformanceCap)
    ensures TypesIn(AnalyzePerformanceRisk(l), PerformanceTypes)
  {
    var r, g := ReturnRateCheck(l.returnRate), RatingCheck(l.rating, l.reviewCount);
    var s, t := LateShipmentCheck(l.lateShipmentRate), ShippingTimeCheck(l.shippingDays);
    ReturnRateChecked(l.returnRate);
    RatingChecked(l.rating, l.reviewCount);
    LateShipmentChecked(l.lateShipmentRate);
    ShippingTimeChecked(l.shippingDays);
    Widen(r, {ReturnRate}, PerformanceTypes);
    Widen(g, {Rating}, PerformanceTypes);
    Widen(s, {Shipping}, PerformanceTypes);
    Widen(t, {ShippingTime}, PerformanceTypes);
    ThenChecked(s, t, PerformanceTypes);
    ThenChecked(g, Then(s, t), PerformanceTypes);
    ThenChecked(r, Then(g, Then(s, t)), PerformanceTypes);
  }

  /** A high return rate is reported for a rate above 15%, an elevated one for a rate in (8%, 15%]. */
  lemma ReturnRateFindings(l: Listing, x: real)
    ensures HighReturnRate(x) in AnalyzePerformanceRisk(l).violations <==> l.returnRate == Some(x) && x > 0.15
    ensures ElevatedReturnRate(x) in AnalyzePerformanceRisk(l).violations <==> l.returnRate == Some(x) && 0.08 < x <= 0.15
  {
    var r, g := ReturnRateCheck(l.returnRate), RatingCheck(l.rating, l.reviewCount);
    var s, t := LateShipmentCheck(l.lateShipmentRate), ShippingTimeCheck(l.shippingDays);
    ChecksParts(l);
    ReturnRateBands(l.returnRate, x);
    PartReports(r, g, s, t, HighReturnRate(x));
    PartReports(r, g, s, t, ElevatedReturnRate(x));
  }

  /** A rating is judged only when non-zero with more than 10 reviews: below 3.5 low, in [3.5, 4.0) below average. */
  lemma RatingFindings(l: Listing, x: real)
    ensures LowRating(x) in AnalyzePerformanceRisk(l).violations
        <==> l.rating == Some(x) && x != 0.0 && x < 3.5 && l.reviewCount.Some? && l.reviewCount.value > 10
    ensures BelowAverageRating(x) in AnalyzePerformanceRisk(l).violations
        <==> l.rating == Some(x) && 3.5 <= x < 4.0 && l.reviewCount.Some? && l.reviewCount.value > 10
  {
    var r, g := ReturnRateCheck(l.returnRate), RatingCheck(l.rating, l.reviewCount);
    var s, t := LateShipmentCheck(l.lateShipmentRate), ShippingTimeCheck(l.shippingDays);
    ChecksParts(l);
    RatingBands(l.rating, l.reviewCount, x);
    PartReports(r, g, s, t, LowRating(x));
    PartReports(r, g, s, t, BelowAverageRating(x));
  }

  /** Late shipments are reported for a rate above 10%, slow shipping for more than 7 days. */
  lemma ShippingFindings(l: Listing, x: real, d: int)
    ensures LateShipments(x) in AnalyzePerformanceRisk(l).violations <==> l.lateShipmentRate == Some(x) && x > 0.10
    ensures SlowShipping(d) in AnalyzePerformanceRisk(l).violations <==> l.shippingDays == Some(d) && d > 7
  {
    var r, g := ReturnRateCheck(l.returnRate), RatingCheck(l.rating, l.reviewCount);
    var s, t := LateShipmentCheck(l.lateShipmentRate), ShippingTimeCheck(l.shippingDays);
    ChecksParts(l);
    ShippingBands(l.lateShipmentRate, l.shippingDays, x, d);
    PartReports(r, g, s, t, LateShipments(x));
    PartReports(r, g, s, t, SlowShipping(d));
  }

  /** The `else if` bands exclude each other: at most one return-rate and one rating violation. */
  lemma OneLevelEach(l: Listing)
    ensures Count(AnalyzePerformanceRisk(l).violations, OfType(ReturnRate)) <= 1
    ensures Count(AnalyzePerformanceRisk(l).violations, OfType(Rating)) <= 1
  {
    ChecksParts(l);
    ReturnRateChecked(l.returnRate);
    RatingChecked(l.rating, l.reviewCount);
    PartCounts(ReturnRateCheck(l.returnRate), RatingCheck(l.rating, l.reviewCount),
               LateShipmentCheck(l.lateShipmentRate), ShippingTimeCheck(l.shippingDays));
  }
}
