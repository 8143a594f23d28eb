/** The three-way banding of a score in [0, 1] that the risk model's
    training report, the risk endpoint and the no-show endpoint share:
    above 0.7 is High, above 0.4 is Medium, anything else is Low. Both
    thresholds are strict, so a score of exactly 0.7 is Medium and one of
    exactly 0.4 is Low. */
module Tiers {
  datatype Tier = Low | Medium | High

  const HighThreshold: real := 0.7
  const MediumThreshold: real := 0.4

  function TierOf(score: real): Tier {
    if score > HighThreshold then High
    else if score > MediumThreshold then Medium
    else Low
  }

  /** The order of the tiers. */
  function Rank(t: Tier): (n: nat)
    ensures n <= 2
  {
    match t
    case Low => 0
    case Medium => 1
    case High => 2
  }

  /** The label the endpoints return: each tier's own name. */
  function TierName(t: Tier): (name: string)
    ensures name in {"Low", "Medium", "High"}
    ensures name == "High" <==> t == High
    ensures name == "Low" <==> t == Low
  {
    match t
    case Low => "Low"
    case Medium => "Medium"
    case High => "High"
  }

  lemma TierNamesDistinct(a: Tier, b: Tier)
    requires a != b
    ensures TierName(a) != TierName(b)
  {
  }

  /** From score to reply: the label and the advice the risk endpoint
      returns for every score. */
  lemma ScoreLabels(score: real)
    ensures TierName(TierOf(score)) == "High" <==> score > 0.7
    ensures TierName(TierOf(score)) == "Medium" <==> 0.4 < score <= 0.7
    ensures TierName(TierOf(score)) == "Low" <==> score <= 0.4
    ensures RiskRecommendation(TierOf(score)) == "Immediate medical attention required" <==> score > 0.7
    ensures RiskRecommendation(TierOf(score)) == "Regular monitoring recommended" <==> 0.4 < score <= 0.7
    ensures RiskRecommendation(TierOf(score)) == "Continue routine checkups" <==> score <= 0.4
  {
    TierIntervals(score);
  }

  /** A higher score never lands in a lower tier. */
  lemma TierMonotone(a: real, b: real)
    requires a <= b
    ensures Rank(TierOf(a)) <= Rank(TierOf(b))
  {
  }

  /** Each tier is exactly one interval, both bounds stated. */
  lemma TierIntervals(score: real)
    ensures TierOf(score) == High <==> score > 0.7
    ensures TierOf(score) == Medium <==> 0.4 < score <= 0.7
    ensures TierOf(score) == Low <==> score <= 0.4
  {
  }

  /** The boundary values fall on the lower side. */
  lemma TierBoundaries()
    ensures TierOf(0.7) == Medium && TierOf(0.4) == Low
    ensures TierOf(0.71) == High && TierOf(0.55) == Medium && TierOf(0.39) == Low
  {
  }

  /** The advice the risk endpoint gives for each tier: urgent care for
      High, monitoring for Medium, routine checkups for Low. */
  function RiskRecommendation(t: Tier): (advice: string)
    ensures advice in {"Immediate medical attention required", "Regular monitoring recommended", "Continue routine checkups"}
    ensures advice == "Immediate medical attention required" <==> t == High
    ensures advice == "Continue routine checkups" <==> t == Low
  {
    match t
    case High => "Immediate medical attention required"
    case Medium => "Regular monitoring recommended"
    case Low => "Continue routine checkups"
  }

  /** The no-show endpoint's advice uses its own threshold of 0.5 rather
      than the tiers. */
  function NoShowRecommendation(noShowProbability: real): (advice: string)
    ensures advice == "Send reminder SMS" <==> noShowProbability > 0.5
    ensures advice in {"Send reminder SMS", "No action needed"}
  {
    if noShowProbability > 0.5 then "Send reminder SMS" else "No action needed"
  }

  /** Every High no-show risk gets a reminder, every Low one does not, and a
      Medium one gets a reminder only above 0.5. */
  lemma NoShowAdviceAgainstTiers(p: real)
    ensures TierOf(p) == High ==> NoShowRecommendation(p) == "Send reminder SMS"
    ensures TierOf(p) == Low ==> NoShowRecommendation(p) == "No action needed"
    ensures TierOf(p) == Medium ==> (NoShowRecommendation(p) == "Send reminder SMS" <==> p > 0.5)
  {
  }

  /** A Medium no-show risk can come without a reminder. */
  lemma MediumRiskWithoutReminder()
    ensures TierOf(0.45) == Medium && NoShowRecommendation(0.45) == "No action needed"
  {
  }
}
