/** Scoring constants and the end-of-round score (FunnyBoom/Domain/Rules/ScoreRules.swift). */
module ScoreRules {
  import opened Prelude
  import opened Board

  const RevealPoints := 1
  const EventPoints := 10
  const SpecialModePreparationDuration := 5
  const XrayActiveDuration := 8
  const SuperheroActiveDuration := 8
  const FunnyBoomPlayDuration := 8
  const TileScorePulseDuration := 2
  /** `clownDensity` (0.18) as a whole percentage; `specialTriggerProbability` (0.36) enters only as the outcome of the roll. */
  const ClownDensityPercent := 18

  /** The time bonus: three points per cell, minus five per elapsed second, never below zero. */
  function TimeBonus(elapsedSeconds: int, d: Dimensions): (bonus: int)
    ensures 0 <= bonus
    ensures elapsedSeconds >= 0 ==> bonus <= CellCount(d) * 3
    ensures elapsedSeconds * 5 >= CellCount(d) * 3 ==> bonus == 0
    ensures elapsedSeconds * 5 < CellCount(d) * 3 ==> bonus == CellCount(d) * 3 - elapsedSeconds * 5
  {
    Max(0, CellCount(d) * 3 - elapsedSeconds * 5)
  }

  /** `finalScore(points:elapsedSeconds:dimensions:)`. */
  function FinalScore(points: int, elapsedSeconds: int, d: Dimensions): (score: int)
    ensures score >= 0
    ensures points * 100 + TimeBonus(elapsedSeconds, d) >= 0 ==> score == points * 100 + TimeBonus(elapsedSeconds, d)
    ensures points >= 0 ==> score >= points * 100
  {
    Max(0, points * 100 + TimeBonus(elapsedSeconds, d))
  }

  /** Finishing later never scores more. */
  lemma FinalScoreNonIncreasingInTime(points: int, e1: int, e2: int, d: Dimensions)
    requires e1 <= e2
    ensures FinalScore(points, e2, d) <= FinalScore(points, e1, d)
  {
  }

  /** More points never score less. */
  lemma FinalScoreNonDecreasingInPoints(p1: int, p2: int, elapsedSeconds: int, d: Dimensions)
    requires p1 <= p2
    ensures FinalScore(p1, elapsedSeconds, d) <= FinalScore(p2, elapsedSeconds, d)
  {
  }
}
