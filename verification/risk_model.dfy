/**
  The data of the listing risk engine (`lib/sps-rules.ts`): listings,
  violations, analyses and risk tiers, and the two combinators every analyzer
  is built from.

  Each rule of the engine is one constructor of `Violation`; the record the
  source fills in (`type`, `severity`, `title`, `description`, `suggestion`)
  is given by member functions, so that proofs about scores and types never
  look at the texts.
*/
module RiskModel {
  import opened Wrappers
  import opened Seqs
  import opened Strings
  import opened Rounding

  // ------------------------------------------------------------------ data model

  datatype Severity = Info | Warning | Critical

  /** The `type` tag of a violation. */
  datatype ViolationType =
    | Keyword | Pattern | TitleLength | Caps | Punctuation | Category
    | ReturnRate | Rating | Shipping | ShippingTime
    | MissingInfo | Price | MissingImage
  {
    /** The tag as the source spells it. */
    function Tag(): string {
      match this
      case Keyword => "keyword"
      case Pattern => "pattern"
      case TitleLength => "title_length"
      case Caps => "caps"
      case Punctuation => "punctuation"
      case Category => "category"
      case ReturnRate => "return_rate"
      case Rating => "rating"
      case Shipping => "shipping"
      case ShippingTime => "shipping_time"
      case MissingInfo => "missing_info"
      case Price => "price"
      case MissingImage => "missing_image"
    }
  }

  /** One finding of the engine: which rule fired, with the value its title quotes. */
  datatype Violation =
    | ForbiddenKeyword(keyword: string)
    | SuspiciousClaim
    | TitleTooShort
    | TitleTooLong
    | ExcessiveCaps
    | TooManyExclamations
    | HighRiskCategory
    | HighReturnRate(rate: real)
    | ElevatedReturnRate(rate: real)
    | LowRating(rating: real)
    | BelowAverageRating(rating: real)
    | LateShipments(rate: real)
    | SlowShipping(days: int)
    | ShortDescription
    | LowPrice
    | HighPrice
    | NoImage
  {
    function Type(): ViolationType {
      match this
      case ForbiddenKeyword(_) => Keyword
      case SuspiciousClaim => Pattern
      case TitleTooShort => TitleLength
      case TitleTooLong => TitleLength
      case ExcessiveCaps => Caps
      case TooManyExclamations => Punctuation
      case HighRiskCategory => Category
      case HighReturnRate(_) => ReturnRate
      case ElevatedReturnRate(_) => ReturnRate
      case LowRating(_) => Rating
      case BelowAverageRating(_) => Rating
      case LateShipments(_) => Shipping
      case SlowShipping(_) => ShippingTime
      case ShortDescription => MissingInfo
      case LowPrice => Price
      case HighPrice => Price
      case NoImage => MissingImage
    }

    function Severity(): Severity {
      match this
      case ForbiddenKeyword(_) => Critical
      case SuspiciousClaim => Warning
      case TitleTooShort => Info
      case TitleTooLong => Info
      case ExcessiveCaps => Warning
      case TooManyExclamations => Info
      case HighRiskCategory => Warning
      case HighReturnRate(_) => Critical
      case ElevatedReturnRate(_) => Warning
      case LowRating(_) => Critical
      case BelowAverageRating(_) => Warning
      case LateShipments(_) => Critical
      case SlowShipping(_) => Warning
      case ShortDescription => Warning
      case LowPrice => Critical
      case HighPrice => Warning
      case NoImage => Warning
    }

    /** What the rule adds to its analyzer's score. */
    function Points(): nat {
      match this
      case ForbiddenKeyword(_) => 15
      case SuspiciousClaim => 10
      case TitleTooShort => 5
      case TitleTooLong => 5
      case ExcessiveCaps => 8
      case TooManyExclamations => 5
      case HighRiskCategory => 12
      case HighReturnRate(_) => 20
      case ElevatedReturnRate(_) => 10
      case LowRating(_) => 25
      case BelowAverageRating(_) => 12
      case LateShipments(_) => 15
      case SlowShipping(_) => 8
      case ShortDescription => 10
      case LowPrice => 15
      case HighPrice => 8
      case NoImage => 12
    }

    function Title(): string {
      match this
      case ForbiddenKeyword(k) => "Forbidden keyword detected: \"" + k + "\""
      case SuspiciousClaim => "Suspicious claim detected"
      case TitleTooShort => "Title too short"
      case TitleTooLong => "Title too long"
      case ExcessiveCaps => "Excessive capitalization"
      case TooManyExclamations => "Too many exclamation marks"
      case HighRiskCategory => "High-risk category detected"
      case HighReturnRate(r) => "High return rate: " + ToFixed1(r * 100.0) + "%"
      case ElevatedReturnRate(r) => "Elevated return rate: " + ToFixed1(r * 100.0) + "%"
      case LowRating(x) => "Low rating: " + ToFixed1(x) + "/5.0"
      case BelowAverageRating(x) => "Below average rating: " + ToFixed1(x) + "/5.0"
      case LateShipments(r) => "High late shipment rate: " + ToFixed1(r * 100.0) + "%"
      case SlowShipping(d) => "Slow shipping: " + IntToString(d) + " days"
      case ShortDescription => "Description too short"
      case LowPrice => "Suspiciously low price"
      case HighPrice => "Very high price"
      case NoImage => "Missing product image"
    }

    function Description(): string {
      match this
      case ForbiddenKeyword(k) =>
        "Your listing contains \"" + k + "\" which violates TikTok Shop policies. This can lead to immediate suspension."
      case SuspiciousClaim =>
        "Your listing contains language that may be flagged as misleading or making unverified claims."
      case TitleTooShort => "Titles under 20 characters may perform poorly and look spammy."
      case TitleTooLong => "Very long titles may be truncated and look unprofessional."
      case ExcessiveCaps => "Too many capital letters can be flagged as spammy or shouting."
      case TooManyExclamations => "Excessive exclamation marks look unprofessional and may trigger spam filters."
      case HighRiskCategory => "This product category is heavily regulated and frequently flagged for violations."
      case HighReturnRate(_) => "Return rates above 15% signal product quality issues or misleading descriptions."
      case ElevatedReturnRate(_) => "Return rate is higher than average. Monitor closely."
      case LowRating(_) => "Ratings below 3.5 can trigger account reviews and hurt visibility."
      case BelowAverageRating(_) => "Ratings below 4.0 may affect account health over time."
      case LateShipments(_) => "Late shipments above 10% violate TikTok Shop performance standards."
      case SlowShipping(_) => "Shipping times over 7 days can lead to customer complaints and cancellations."
      case ShortDescription => "Detailed descriptions improve conversions and reduce violations."
      case LowPrice => "Prices under $1 may be flagged as scams or test listings."
      case HighPrice => "Extremely high prices may require additional verification."
      case NoImage => "Listings without images perform poorly and may be flagged as incomplete."
    }

    function Suggestion(): string {
      match this
      case ForbiddenKeyword(k) =>
        "Remove \"" + k + "\" and rephrase using compliant language. Avoid making absolute claims."
      case SuspiciousClaim => "Rewrite this section using factual, measurable descriptions without guarantees."
      case TitleTooShort => "Expand your title to 20-60 characters with descriptive keywords."
      case TitleTooLong => "Shorten your title to 60-80 characters focusing on key features."
      case ExcessiveCaps => "Use normal sentence case with capitals only for proper nouns."
      case TooManyExclamations => "Limit exclamation marks to 1-2 per listing."
      case HighRiskCategory =>
        "Ensure all claims are factual, avoid health/medical language, and include required warnings."
      case HighReturnRate(_) =>
        "Review product quality, improve descriptions, and consider removing this listing if returns continue."
      case ElevatedReturnRate(_) => "Check product descriptions match actual product. Consider adding more photos."
      case LowRating(_) =>
        "Address customer complaints, improve product quality, or consider removing this listing."
      case BelowAverageRating(_) =>
        "Monitor reviews, respond to complaints, and work to improve customer satisfaction."
      case LateShipments(_) => "Improve fulfillment speed, adjust handling time, or use faster shipping methods."
      case SlowShipping(_) => "Consider using faster shipping methods or partnering with fulfillment services."
      case ShortDescription =>
        "Add at least 200 characters describing features, materials, dimensions, and use cases."
      case LowPrice => "Set a realistic price that covers costs and appears legitimate."
      case HighPrice => "Ensure pricing is accurate. High-value items may need extra documentation."
      case NoImage => "Add at least 3-5 high-quality product images."
    }
  }

  /** A listing as handed to the engine; every metric may be absent. */
  datatype Listing = Listing(
    productId: string,
    title: string,
    description: string,
    category: Option<string>,
    price: Option<real>,
    imageUrl: Option<string>,
    views: Option<int>,
    orders: Option<int>,
    returnRate: Option<real>,
    rating: Option<real>,
    reviewCount: Option<int>,
    shippingDays: Option<int>,
    lateShipmentRate: Option<real>)

  datatype RiskLevel = SafeRisk | LowRisk | MediumRisk | HighRisk | CriticalRisk {
    /** The level as the source spells it. */
    function Name(): string {
      match this
      case SafeRisk => "safe"
      case LowRisk => "low"
      case MediumRisk => "medium"
      case HighRisk => "high"
      case CriticalRisk => "critical"
    }

    /** Position in the order safe < low < medium < high < critical. */
    function Rank(): nat {
      match this
      case SafeRisk => 0
      case LowRisk => 1
      case MediumRisk => 2
      case HighRisk => 3
      case CriticalRisk => 4
    }
  }

  datatype Factors = Factors(contentRisk: int, performanceRisk: int, complianceRisk: int)

  datatype RiskAnalysis = RiskAnalysis(
    riskScore: int,
    riskLevel: RiskLevel,
    violations: seq<Violation>,
    factors: Factors)

  /** What one analyzer, or one of its checks, reports. */
  datatype Analysis = Analysis(score: nat, violations: seq<Violation>)

  /** A risk pattern of the source, a case-insensitive regular expression, seen as a test on the lowercased text. */
  type Pattern = string -> bool

  // ------------------------------------------------------------------ rule data

  const ContentCap := 60
  const PerformanceCap := 40
  const ComplianceCap := 30

  const ContentTypes: set<ViolationType> := {Keyword, Pattern, TitleLength, Caps, Punctuation, Category}
  const PerformanceTypes: set<ViolationType> := {ReturnRate, Rating, Shipping, ShippingTime}
  const ComplianceTypes: set<ViolationType> := {MissingInfo, Price, MissingImage}

  /** The points of a list of violations. */
  function Weight(vs: seq<Violation>): nat
    decreases |vs|
  {
    if |vs| == 0 then 0 else vs[0].Points() + Weight(vs[1..])
  }

  lemma {:induction false} WeightAppend(a: seq<Violation>, b: seq<Violation>)
    ensures Weight(a + b) == Weight(a) + Weight(b)
    decreases |a|
  {
    if |a| == 0 {
      assert a + b == b;
    } else {
      assert (a + b)[1..] == a[1..] + b;
      WeightAppend(a[1..], b);
    }
  }

  // ------------------------------------------------------------------ JavaScript values

  /** JavaScript truthiness of an optional number: absent and zero are false. */
  predicate TruthyReal(o: Option<real>) { o.Some? && o.value != 0.0 }

  predicate TruthyInt(o: Option<int>) { o.Some? && o.value != 0 }

  /** JavaScript truthiness of an optional string: absent and empty are false. */
  predicate TruthyText(o: Option<string>) { o.Some? && o.value != "" }

  /** `x.toFixed(1)` on an exact value: the nearest tenth, a half rounded away from zero. */
  function ToFixed1(x: real): string {
    var magnitude := if x < 0.0 then -x else x;
    var tenths := RoundHalfUp(magnitude * 10.0);
    assert tenths >= 0;
    (if x < 0.0 then "-" else "") + NatToString(tenths / 10) + "." + NatToString(tenths % 10)
  }

  // ------------------------------------------------------------------ check combinators

  /** A check that found nothing. */
  const Clear := Analysis(0, [])

  /** A check for one rule: when `found`, it reports `v` and scores the rule's points. */
  function When(found: bool, v: Violation): Analysis {
    if found then Analysis(v.Points(), [v]) else Clear
  }

  /** Running two checks one after the other: points add up, violations keep their order. */
  function Then(a: Analysis, b: Analysis): Analysis {
    Analysis(a.score + b.score, a.violations + b.violations)
  }

  function Capped(a: Analysis, cap: nat): Analysis {
    Analysis(Min(a.score, cap), a.violations)
  }

  /** The points of a check are those its violations are worth. */
  predicate Priced(a: Analysis) {
    a.score == Weight(a.violations)
  }

  /** Every violation `a` reports has one of the types `ts`. */
  predicate TypesIn(a: Analysis, ts: set<ViolationType>) {
    forall v :: v in a.violations ==> v.Type() in ts
  }

  /** Running two priced checks that report types among `ts` gives another such check. */
  lemma ThenChecked(a: Analysis, b: Analysis, ts: set<ViolationType>)
    requires Priced(a) && Priced(b) && TypesIn(a, ts) && TypesIn(b, ts)
    ensures Priced(Then(a, b)) && TypesIn(Then(a, b), ts)
  {
    WeightAppend(a.violations, b.violations);
  }

  /** A check whose types are among `ts` has its types among any larger set. */
  lemma Widen(a: Analysis, ts: set<ViolationType>, us: set<ViolationType>)
    requires TypesIn(a, ts) && ts <= us
    ensures TypesIn(a, us)
  {
  }

  /** A check whose types are among `ts` reports no violation of another type. */
  lemma Absent(a: Analysis, ts: set<ViolationType>, w: Violation)
    requires TypesIn(a, ts) && w.Type() !in ts
    ensures w !in a.violations
  {
  }

  /** A check whose types are among `ts` reports nothing of type `t` outside `ts`. */
  lemma Disjoint(a: Analysis, ts: set<ViolationType>, t: ViolationType)
    requires TypesIn(a, ts) && t !in ts
    ensures NoneOfType(a, t)
  {
  }

  /** A single-rule check is priced, and reports only its rule's type. */
  lemma WhenChecked(found: bool, v: Violation, ts: set<ViolationType>)
    requires v.Type() in ts
    ensures Priced(When(found, v)) && TypesIn(When(found, v), ts)
  {
  }

  /** A single-rule check reports its violation exactly when `found`, and nothing else. */
  lemma WhenFinds(found: bool, v: Violation)
    ensures forall w :: w in When(found, v).violations <==> found && w == v
  {
  }

  /** Violations of one type, as a filter. */
  function OfType(t: ViolationType): Violation -> bool {
    (v: Violation) => v.Type() == t
  }

  /** `a` reports no violation of type `t`. */
  predicate NoneOfType(a: Analysis, t: ViolationType) {
    forall v :: v in a.violations ==> v.Type() != t
  }

  /** When only the first of two checks run in order reports type `t`, the violations of type `t` are its own. */
  lemma FirstOnly(a: Analysis, after: Analysis, t: ViolationType)
    requires TypesIn(a, {t}) && NoneOfType(after, t)
    ensures Filter(Then(a, after).violations, OfType(t)) == a.violations
  {
    var f := OfType(t);
    FilterAppend(a.violations, after.violations, f);
    FilterKeepsAll(a.violations, f);
    FilterDropsAll(after.violations, f);
    assert a.violations + [] == a.violations;
  }

  /** When only the middle one of three checks run in order reports type `t`, the violations of type `t` are its own. */
  lemma OnlyFrom(before: Analysis, a: Analysis, after: Analysis, t: ViolationType)
    requires TypesIn(a, {t}) && NoneOfType(before, t) && NoneOfType(after, t)
    ensures Filter(Then(before, Then(a, after)).violations, OfType(t)) == a.violations
  {
    var f := OfType(t);
    FilterAppend(before.violations, a.violations + after.violations, f);
    FilterAppend(a.violations, after.violations, f);
    FilterDropsAll(before.violations, f);
    FilterKeepsAll(a.violations, f);
    FilterDropsAll(after.violations, f);
    assert [] + (a.violations + []) == a.violations;
  }

  // ------------------------------------------------------------------ tiers

  /** The tier of a weighted score: below 30 safe, 50 low, 70 medium, 85 high, else critical. */
  function LevelOf(x: real): (level: RiskLevel)
    ensures level == SafeRisk <==> x < 30.0
    ensures level == CriticalRisk <==> x >= 85.0
  {
    if x < 30.0 then SafeRisk
    else if x < 50.0 then LowRisk
    else if x < 70.0 then MediumRisk
    else if x < 85.0 then HighRisk
    else CriticalRisk
  }

  /** A higher weighted score never lands in a lower tier. */
  lemma LevelMonotone(x: real, y: real)
    requires x <= y
    ensures LevelOf(x).Rank() <= LevelOf(y).Rank()
  {
  }
}
