/**
  The dashboard's risk summary cards (`components/dashboard/RiskScoreCards.tsx`):
  the wording, label and colour for an average risk score, and the shares of
  dangerous (high and critical) and safe (safe and low) listings.
*/
module ScoreCards {
  import opened Strings
  import opened Rounding
  import opened RiskModel
  import Utils

  /** The sentence under the average score; its cut points are the tiers'. */
  function RiskLevelText(score: real): (r: string)
    ensures r == "Your store is healthy" <==> LevelOf(score) == SafeRisk
    ensures r == "Minor issues detected" <==> LevelOf(score) == LowRisk
    ensures r == "Action recommended" <==> LevelOf(score) == MediumRisk
    ensures r == "Urgent attention needed" <==> LevelOf(score) == HighRisk
    ensures r == "Critical violations" <==> LevelOf(score) == CriticalRisk
  {
    if score < 30.0 then "Your store is healthy"
    else if score < 50.0 then "Minor issues detected"
    else if score < 70.0 then "Action recommended"
    else if score < 85.0 then "Urgent attention needed"
    else "Critical violations"
  }

  /** The label beside it. */
  function RiskLabel(score: real): (r: string)
  {
    if score < 30.0 then "SAFE"
    else if score < 50.0 then "LOW RISK"
    else if score < 70.0 then "MEDIUM RISK"
    else if score < 85.0 then "HIGH RISK"
    else "CRITICAL"
  }

  /** The label is the tier's name in capitals, with " RISK" after the three middle tiers. */
  lemma LabelIsTierName(score: real)
    ensures var level := LevelOf(score);
      RiskLabel(score) == Upper(level.Name()) + (if level == SafeRisk || level == CriticalRisk then "" else " RISK")
  {
    var level := LevelOf(score);
    var name := level.Name();
    var upper := Upper(name);
    match level
    case SafeRisk => assert upper == "SAFE";
    case LowRisk => assert upper == "LOW";
    case MediumRisk => assert upper == "MEDIUM";
    case HighRisk => assert upper == "HIGH";
    case CriticalRisk => assert upper == "CRITICAL";
  }

  /** The label's colour: one class per tier below 70, red from 70 on. */
  function CardRiskColor(score: real): (r: string)
    ensures r == "text-red-600" <==> LevelOf(score).Rank() >= 3
  {
    if score < 30.0 then "text-green-600"
    else if score < 50.0 then "text-yellow-600"
    else if score < 70.0 then "text-orange-600"
    else "text-red-600"
  }

  /** The card's colour is the text class of the shared risk colour, which adds a background. */
  lemma CardColorIsTextPart(score: real)
    ensures var shared := Utils.RiskColor(score);
      |CardRiskColor(score)| < |shared| && shared[..|CardRiskColor(score)|] == CardRiskColor(score)
  {
  }

  /** The share of high and critical listings, as a whole percentage; 0 without listings. */
  function DangerousPercentage(highRiskCount: nat, criticalCount: nat, totalListings: nat): (r: int)
    ensures totalListings > 0 && highRiskCount + criticalCount <= totalListings ==> 0 <= r <= 100
  {
    var dangerous := highRiskCount + criticalCount;
    if totalListings > 0 then
      var share := RoundHalfUp((dangerous as real / totalListings as real) * 100.0);
      assert dangerous <= totalListings ==> 0 <= share <= 100 by {
        if dangerous <= totalListings {
          Utils.PercentageWithin(dangerous as real, totalListings as real);
        }
      }
      share
    else 0
  }

  /** The share of safe and low listings, as a whole percentage; 0 without listings. */
  function SafePercentage(safeCount: nat, lowRiskCount: nat, totalListings: nat): (r: int)
    ensures totalListings > 0 && safeCount + lowRiskCount <= totalListings ==> 0 <= r <= 100
  {
    var safe := safeCount + lowRiskCount;
    if totalListings > 0 then
      var share := RoundHalfUp((safe as real / totalListings as real) * 100.0);
      assert safe <= totalListings ==> 0 <= share <= 100 by {
        if safe <= totalListings {
          Utils.PercentageWithin(safe as real, totalListings as real);
        }
      }
      share
    else 0
  }

  /** Both shares are the general percentage helper applied to listing counts. */
  lemma SharesArePercentages(safeCount: nat, lowRiskCount: nat, highRiskCount: nat, criticalCount: nat, totalListings: nat)
    ensures DangerousPercentage(highRiskCount, criticalCount, totalListings)
         == Utils.CalculatePercentage((highRiskCount + criticalCount) as real, totalListings as real)
    ensures SafePercentage(safeCount, lowRiskCount, totalListings)
         == Utils.CalculatePercentage((safeCount + lowRiskCount) as real, totalListings as real)
  {
  }

  /** With no dangerous listing the share is 0; but a share of 0 can still hide dangerous listings. */
  lemma DangerousShareRoundsAway()
    ensures forall total: nat :: DangerousPercentage(0, 0, total) == 0
    ensures DangerousPercentage(1, 0, 201) == 0
  {
    assert (1.0 / 201.0) * 100.0 < 0.5;
  }
}
