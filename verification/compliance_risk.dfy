/**
  The compliance analyzer of the risk engine (`analyzeComplianceRisk` in
  `lib/sps-rules.ts`): description length, price range and product image,
  each adding fixed points; the sum is capped at 30. The price is judged only
  when truthy, so a price of 0 draws no price violation.
*/
module ComplianceRisk {
  import opened Wrappers
  import opened Seqs
  import opened Strings
  import opened RiskModel

  // ------------------------------------------------------------------ the checks

  /** An empty description, or one shorter than 50 UTF-16 code units. */
  predicate DescriptionShort(description: string) {
    description == "" || Utf16Length(description) < 50
  }

  /** A truthy price under 1. */
  predicate PriceLow(price: Option<real>) {
    TruthyReal(price) && price.value < 1.0
  }

  /** A truthy price over 10000; both price checks run, as two separate `if`s. */
  predicate PriceHigh(price: Option<real>) {
    TruthyReal(price) && price.value > 10000.0
  }

  /** A missing or empty image URL. */
  predicate ImageMissing(imageUrl: Option<string>) {
    !TruthyText(imageUrl)
  }

  /** The four compliance checks with the given findings, in the source's order. */
  function Rules(d: bool, lo: bool, hi: bool, im: bool): Analysis {
    Then(When(d, ShortDescription), Then(When(lo, LowPrice), Then(When(hi, HighPrice), When(im, NoImage))))
  }

  /** Every compliance check of a listing, in the source's order. */
  function ComplianceChecks(l: Listing): Analysis {
    Rules(DescriptionShort(l.description), PriceLow(l.price), PriceHigh(l.price), ImageMissing(l.imageUrl))
  }

  /** The compliance analyzer: every compliance check, capped at 30. */
  function AnalyzeComplianceRisk(l: Listing): (a: Analysis)
    ensures a.score <= ComplianceCap
    ensures a.violations == ComplianceChecks(l).violations
  {
    Capped(ComplianceChecks(l), ComplianceCap)
  }

  // ------------------------------------------------------------------ what the analyzer reports

  /** The four checks are priced and report compliance types only. */
  lemma ChecksPriced(d: bool, lo: bool, hi: bool, im: bool)
    ensures Priced(Rules(d, lo, hi, im)) && TypesIn(Rules(d, lo, hi, im), ComplianceTypes)
  {
    WhenChecked(d, ShortDescription, ComplianceTypes);
    WhenChecked(lo, LowPrice, ComplianceTypes);
    WhenChecked(hi, HighPrice, ComplianceTypes);
    WhenChecked(im, NoImage, ComplianceTypes);
    ThenChecked(When(hi, HighPrice), When(im, NoImage), ComplianceTypes);
    ThenChecked(When(lo, LowPrice), Then(When(hi, HighPrice), When(im, NoImage)), ComplianceTypes);
    ThenChecked(When(d, ShortDescription), Then(When(lo, LowPrice), Then(When(hi, HighPrice), When(im, NoImage))), ComplianceTypes);
  }

  /** The compliance score is the worth of the reported violations, capped at 30; all are compliance violations. */
  lemma ComplianceScore(l: Listing)
    ensures AnalyzeComplianceRisk(l).score == Min(Weight(AnalyzeComplianceRisk(l).violations), ComplianceCap)
    ensures TypesIn(AnalyzeComplianceRisk(l), ComplianceTypes)
  {
    ChecksPriced(DescriptionShort(l.description), PriceLow(l.price), PriceHigh(l.price), ImageMissing(l.imageUrl));
  }

  lemma ReportsDescription(d: bool, lo: bool, hi: bool, im: bool)
    ensures ShortDescription in Rules(d, lo, hi, im).violations <==> d
  {
  }

  lemma ReportsLowPrice(d: bool, lo: bool, hi: bool, im: bool)
    ensures LowPrice in Rules(d, lo, hi, im).violations <==> lo
  {
  }

  lemma ReportsHighPrice(d: bool, lo: bool, hi: bool, im: bool)
    ensures HighPrice in Rules(d, lo, hi, im).violations <==> hi
  {
  }

  lemma ReportsImage(d: bool, lo: bool, hi: bool, im: bool)
    ensures NoImage in Rules(d, lo, hi, im).violations <==> im
  {
  }

  /** Each compliance rule is in `vs` exactly when its condition holds. */
  predicate ComplianceFound(l: Listing, vs: seq<Violation>) {
    && (ShortDescription in vs <==> Utf16Length(l.description) < 50)
    && (LowPrice in vs <==> l.price.Some? && l.price.value != 0.0 && l.price.value < 1.0)
    && (HighPrice in vs <==> l.price.Some? && l.price.value > 10000.0)
    && (NoImage in vs <==> l.imageUrl.None? || l.imageUrl.value == "")
  }

  /** Which compliance violations a listing draws. */
  lemma ComplianceFindings(l: Listing)
    ensures ComplianceFound(l, AnalyzeComplianceRisk(l).violations)
  {
    var d, lo, hi, im := DescriptionShort(l.description), PriceLow(l.price), PriceHigh(l.price), ImageMissing(l.imageUrl);
    ReportsDescription(d, lo, hi, im);
    ReportsLowPrice(d, lo, hi, im);
    ReportsHighPrice(d, lo, hi, im);
    ReportsImage(d, lo, hi, im);
    assert d <==> Utf16Length(l.description) < 50;
  }

  /** No listing is flagged both for a low and for a high price. */
  lemma PriceBandsExclusive(l: Listing)
    ensures !(LowPrice in AnalyzeComplianceRisk(l).violations && HighPrice in AnalyzeComplianceRisk(l).violations)
  {
    ComplianceFindings(l);
  }
}
