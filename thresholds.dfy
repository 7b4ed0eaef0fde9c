/**
 * The threshold rules of the report: the success-rate bands behind the
 * result-row colour and the performance indicator, and the conditions
 * under which each recommendation is printed. Rates (in percent) and
 * average times (in ms) are inputs.
 */
module Thresholds {
  import opened Metrics

  const GOOD_RATE: real := 95.0
  const FAIR_RATE: real := 85.0
  const STRESS_FAILURE_RATE: real := 90.0

  /** The indicator printed beside a success rate (GetPerformanceIndicator). */
  function PerformanceIndicator(successRate: real): string
  {
    if successRate >= GOOD_RATE then "✅" else if successRate >= FAIR_RATE then "⚠️ " else "❌"
  }

  /** The colour of a success rate in the results row (DisplayResultRow). */
  function SuccessColor(successRate: real): ConsoleColor
  {
    if successRate >= GOOD_RATE then Green else if successRate >= FAIR_RATE then Yellow else Red
  }

  /** The three bands, for the indicator and for the colour alike. */
  lemma SuccessBands(successRate: real)
    ensures successRate >= 95.0 <==> PerformanceIndicator(successRate) == "✅" && SuccessColor(successRate) == Green
    ensures 85.0 <= successRate < 95.0 <==> PerformanceIndicator(successRate) == "⚠️ " && SuccessColor(successRate) == Yellow
    ensures successRate < 85.0 <==> PerformanceIndicator(successRate) == "❌" && SuccessColor(successRate) == Red
  {
  }

  function Goodness(c: ConsoleColor): nat
  {
    match c
    case Red => 0
    case Yellow => 1
    case Green => 2
  }

  /** A higher success rate never gets a worse colour. */
  lemma SuccessColorMonotone(a: real, b: real)
    requires a <= b
    ensures Goodness(SuccessColor(a)) <= Goodness(SuccessColor(b))
  {
  }

  /** The recommendation blocks DisplayPerformanceAnalysis can print, in printing order. */
  datatype Advice =
    | HighFailureUnderStress
    | DegradationUnderLoad
    | GoodResilience
    | BetterUnderStress

  /** The recommendations printed for the two phases' success rates and average times. */
  function Recommendations(loadRate: real, stressRate: real, loadAvgMs: real, stressAvgMs: real): seq<Advice>
  {
    (if stressRate < STRESS_FAILURE_RATE then [HighFailureUnderStress] else [])
    + (if stressAvgMs > loadAvgMs * 2.0 then [DegradationUnderLoad] else [])
    + (if loadRate >= GOOD_RATE && stressRate >= FAIR_RATE then [GoodResilience] else [])
    + (if stressAvgMs < loadAvgMs then [BetterUnderStress] else [])
  }

  /** Each block is printed exactly when its condition holds, at most once. */
  lemma RecommendationsIff(loadRate: real, stressRate: real, loadAvgMs: real, stressAvgMs: real)
    ensures var r := Recommendations(loadRate, stressRate, loadAvgMs, stressAvgMs);
      && (HighFailureUnderStress in r <==> stressRate < 90.0)
      && (DegradationUnderLoad in r <==> stressAvgMs > 2.0 * loadAvgMs)
      && (GoodResilience in r <==> loadRate >= 95.0 && stressRate >= 85.0)
      && (BetterUnderStress in r <==> stressAvgMs < loadAvgMs)
      && forall i, j | 0 <= i < j < |r| :: r[i] != r[j]
  {
  }

  /**
   * With non-negative average times the two timing blocks exclude each
   * other; the resilience and high-failure blocks both appear when the
   * stress rate lies in [85, 90).
   */
  lemma RecommendationsCombinations(loadRate: real, stressRate: real, loadAvgMs: real, stressAvgMs: real)
    requires loadAvgMs >= 0.0
    ensures var r := Recommendations(loadRate, stressRate, loadAvgMs, stressAvgMs);
      && !(DegradationUnderLoad in r && BetterUnderStress in r)
      && (GoodResilience in r && HighFailureUnderStress in r <==> loadRate >= 95.0 && 85.0 <= stressRate < 90.0)
  {
    RecommendationsIff(loadRate, stressRate, loadAvgMs, stressAvgMs);
  }
}
