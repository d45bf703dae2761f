/**
 * The rule-based score of the untrained detector: seven additive buckets read
 * off the fakeprint's features, three adjustments (kurtosis, high-frequency
 * energy, combined pattern) and an abundance bonus, clipped to [0, 100] and
 * turned into a verdict with a 50-point threshold.
 */
module HeuristicScorer {
  import opened Base
  import opened FeatureExtractor

  // ------------------------------------------------------------ buckets

  /**
   * Bucket 1, medium-peak count weighted by regularity: full 20 points in the
   * 50..150 band, 0.3 per peak below it, and a penalty of 0.1 per peak above
   * it capped at 20; all scaled by `1 + regularity`.
   */
  function PeakCountPoints(count: nat, regularity: real): (p: real)
    ensures regularity >= 0.0 ==> 0.0 <= p <= 20.0 * (1.0 + regularity)
    ensures 50 <= count <= 150 ==> p == 20.0 * (1.0 + regularity)
  {
    RegularityScaling(PeakCountBase(count), regularity);
    PeakCountBase(count) * (1.0 + regularity)
  }

  /** Bucket 1 before the regularity multiplier. */
  function PeakCountBase(count: nat): (b: real)
    ensures 0.0 <= b <= 20.0
    ensures b == 20.0 <==> 50 <= count <= 150
  {
    if 50 <= count <= 150 then 20.0
    else if count < 50 then count as real * 0.3
    else 20.0 - MinReal(20.0, (count - 150) as real * 0.1)
  }

  /** A value in [0, 20] scaled by `1 + regularity` stays in [0, 20 * (1 + regularity)]. */
  lemma RegularityScaling(b: real, regularity: real)
    requires 0.0 <= b <= 20.0
    ensures regularity >= 0.0 ==> 0.0 <= b * (1.0 + regularity) <= 20.0 * (1.0 + regularity)
  {
  }

  /** Bucket 2, strong peaks: 15 points for 5..30, 3 per peak below, a penalty capped at 10 above. */
  function HighPeakPoints(count: nat): (p: real)
    ensures 0.0 <= p <= 15.0
    ensures count > 30 ==> 5.0 <= p
    ensures p == 15.0 <==> 5 <= count <= 30
  {
    if 5 <= count <= 30 then 15.0
    else if count < 5 then count as real * 3.0
    else 15.0 - MinReal(10.0, (count - 30) as real * 0.2)
  }

  /** Bucket 3, fakeprint mean: a narrow 0.06..0.10 band earns the full 15. */
  function MeanPoints(mean: real): (p: real)
    ensures p <= 15.0
    ensures mean >= 0.0 ==> 0.0 <= p
    ensures p == 15.0 <==> 0.06 <= mean <= 0.10
  {
    if 0.06 <= mean <= 0.10 then 15.0
    else if mean < 0.06 then mean * 250.0
    else if mean <= 0.12 then 10.0
    else MaxReal(0.0, 8.0 - (mean - 0.12) * 80.0)
  }

  /** Bucket 4, fakeprint maximum. */
  function MaxPoints(max: real): (p: real)
    ensures p <= 8.0
    ensures max >= 0.0 ==> 0.0 <= p
    ensures p == 8.0 <==> max > 0.8
  {
    if max > 0.8 then 8.0
    else if max > 0.6 then 6.0
    else max * 10.0
  }

  /** Bucket 5, 90th percentile: a 0.12..0.22 band earns the full 10. */
  function P90Points(p90: real): (p: real)
    ensures p <= 10.0
    ensures p90 >= 0.0 ==> 0.0 <= p
    ensures p == 10.0 <==> 0.12 <= p90 <= 0.22
  {
    if 0.12 <= p90 <= 0.22 then 10.0
    else if p90 < 0.12 then p90 * 80.0
    else if p90 <= 0.28 then 5.0
    else MaxReal(0.0, 3.0 - (p90 - 0.28) * 15.0)
  }

  /** Bucket 6, periodicity: steps of 12, 8, 4, 2 above 0.5, 0.4, 0.3, 0.2, linear below. */
  function PeriodicityPoints(periodicity: real): (p: real)
    ensures p <= 12.0
    ensures periodicity >= 0.0 ==> 0.0 <= p
    ensures p == 12.0 <==> periodicity > 0.5
  {
    if periodicity > 0.5 then 12.0
    else if periodicity > 0.40 then 8.0
    else if periodicity > 0.30 then 4.0
    else if periodicity > 0.20 then 2.0
    else periodicity * 8.0
  }

  /** Stronger periodicity never loses points. */
  lemma PeriodicityPointsMonotone(a: real, b: real)
    requires a <= b
    ensures PeriodicityPoints(a) <= PeriodicityPoints(b)
  {
  }

  /** Bucket 7, regularity: 20 points per unit of regularity score. */
  function RegularityPoints(regularity: real): (p: real)
    ensures 0.0 <= regularity <= RegularityCeiling ==> 0.0 <= p <= 20.0 * RegularityCeiling
  {
    regularity * 20.0
  }

  // -------------------------------------------------------- adjustments

  /** Rule 1, kurtosis bonus: nothing up to 4, then slopes 4, 1.75 and 1, capped at 20 above 15. */
  function KurtosisBonus(kurtosis: real): (b: real)
    ensures 0.0 <= b <= 20.0
    ensures kurtosis <= 4.0 ==> b == 0.0
    ensures b == 20.0 <==> kurtosis >= 15.0
  {
    if kurtosis > 15.0 then 20.0
    else if kurtosis > 10.0 then 15.0 + (kurtosis - 10.0) * 1.0
    else if kurtosis > 6.0 then 8.0 + (kurtosis - 6.0) * 1.75
    else if kurtosis > 4.0 then (kurtosis - 4.0) * 4.0
    else 0.0
  }

  /** A more peaked distribution never earns a smaller bonus. */
  lemma KurtosisBonusMonotone(k1: real, k2: real)
    requires k1 <= k2
    ensures KurtosisBonus(k1) <= KurtosisBonus(k2)
  {
  }

  /** No jumps: the bonus moves by at most 4 per unit of kurtosis, so the pieces meet. */
  lemma KurtosisBonusLipschitz(k1: real, k2: real)
    ensures Abs(KurtosisBonus(k1) - KurtosisBonus(k2)) <= 4.0 * Abs(k1 - k2)
  {
  }

  /** The bonus at the breakpoints, reached from either side. */
  lemma KurtosisBonusBreakpoints()
    ensures KurtosisBonus(4.0) == 0.0 && KurtosisBonus(6.0) == 8.0
    ensures KurtosisBonus(10.0) == 15.0 && KurtosisBonus(15.0) == 20.0
  {
  }

  /** Thresholds of the high-frequency energy rule. */
  const HfSilent: real := 0.0000001
  const HfVeryLow: real := 0.00001
  const HfLow: real := 0.00005

  /**
   * Rule 2, high-frequency energy: essentially none earns 10 when another
   * indicator (kurtosis bonus above 10 or regularity above 0.5) is present and
   * 3 otherwise; very low earns 2; low costs 3; normal changes nothing.
   */
  function HfAdjustment(hf: real, kurtosisBonus: real, regularity: real): (a: real)
    ensures a == 10.0 || a == 3.0 || a == 2.0 || a == -3.0 || a == 0.0
    ensures a == 10.0 <==> hf < HfSilent && (kurtosisBonus > 10.0 || regularity > 0.5)
    ensures a == 3.0 <==> hf < HfSilent && !(kurtosisBonus > 10.0 || regularity > 0.5)
    ensures a == 2.0 <==> HfSilent <= hf < HfVeryLow
    ensures a == -3.0 <==> HfVeryLow <= hf < HfLow
    ensures a == 0.0 <==> hf >= HfLow
  {
    if hf == 0.0 || hf < HfSilent then
      if kurtosisBonus > 10.0 || regularity > 0.5 then 10.0 else 3.0
    else if hf < HfVeryLow then 2.0
    else if hf < HfLow then -3.0
    else 0.0
  }

  /** Rule 3's pattern: moderately high kurtosis, low high-frequency energy and some regularity. */
  predicate CombinedIndicator(kurtosis: real, hf: real, regularity: real) {
    5.0 < kurtosis < 10.0 && hf < HfLow && regularity > 0.3
  }

  function CombinedBonus(kurtosis: real, hf: real, regularity: real): (b: real)
    ensures b == 15.0 <==> CombinedIndicator(kurtosis, hf, regularity)
    ensures b == 0.0 <==> !CombinedIndicator(kurtosis, hf, regularity)
  {
    if CombinedIndicator(kurtosis, hf, regularity) then 15.0 else 0.0
  }

  /** Rule 4: five points for abundant, regular medium peaks. */
  function AbundanceBonus(mediumCount: nat, regularity: real): (b: real)
    ensures b == 5.0 <==> mediumCount > 50 && regularity > 0.6
    ensures b == 0.0 <==> !(mediumCount > 50 && regularity > 0.6)
  {
    if mediumCount > 50 && regularity > 0.6 then 5.0 else 0.0
  }

  // -------------------------------------------------------------- score

  /** The unclipped score: the seven buckets, then the four adjustments, in the source's order. */
  function RawScore(f: Features): real {
    var kb := KurtosisBonus(f.kurtosis);
    PeakCountPoints(f.peakCountMedium, f.regularity)
    + HighPeakPoints(f.peakCountHigh)
    + MeanPoints(f.mean)
    + MaxPoints(f.max)
    + P90Points(f.p90)
    + PeriodicityPoints(f.periodicity)
    + RegularityPoints(f.regularity)
    + kb
    + HfAdjustment(f.highFreqEnergy, kb, f.regularity)
    + CombinedBonus(f.kurtosis, f.highFreqEnergy, f.regularity)
    + AbundanceBonus(f.peakCountMedium, f.regularity)
  }

  /**
   * Only the medium and strong peak counts, regularity, mean, maximum, 90th
   * percentile, periodicity, kurtosis and high-frequency energy enter the
   * score: the high-frequency ratio (and the densities, weak-peak count, std,
   * 75th percentile, spacing std and cv) are recorded and nothing more.
   */
  lemma ScoreIgnoresRecordedFields(f: Features, g: Features)
    requires f.peakCountMedium == g.peakCountMedium && f.peakCountHigh == g.peakCountHigh
    requires f.regularity == g.regularity && f.mean == g.mean && f.max == g.max
    requires f.p90 == g.p90 && f.periodicity == g.periodicity && f.kurtosis == g.kurtosis
    requires f.highFreqEnergy == g.highFreqEnergy
    ensures RawScore(f) == RawScore(g)
  {
  }

  /** `max(0.0, min(score, 100.0))`. */
  function ClipScore(s: real): (c: real)
    ensures 0.0 <= c <= 100.0
    ensures 0.0 <= s <= 100.0 ==> c == s
    ensures s < 0.0 ==> c == 0.0
    ensures s > 100.0 ==> c == 100.0
  {
    MaxReal(0.0, MinReal(s, 100.0))
  }

  datatype Verdict = Verdict(isAiGenerated: bool, confidence: real, aiProbability: real, humanProbability: real)

  /**
   * The reported verdict: the score clipped again as the AI probability,
   * AI above 50, confidence the distance from 50 scaled to [0, 1], and the
   * human probability the complement.
   */
  function VerdictOf(score: real): (v: Verdict)
    ensures 0.0 <= v.aiProbability <= 100.0
    ensures 0.0 <= score <= 100.0 ==> v.aiProbability == score
    ensures v.isAiGenerated <==> v.aiProbability > 50.0
    ensures 0.0 <= v.confidence <= 1.0
    ensures v.confidence * 50.0 == Abs(v.aiProbability - 50.0)
    ensures v.aiProbability + v.humanProbability == 100.0
  {
    var ai := ClipScore(score);
    Verdict(ai > 50.0, Abs(ai - 50.0) / 50.0, ai, 100.0 - ai)
  }

  /** The `details` dictionary of a heuristic prediction. */
  datatype Details = Details(
    peakCountHigh: nat, peakCountMedium: nat, peakCountLow: nat,
    peakDensityHigh: real, peakDensityMedium: real, peakDensityLow: real,
    regularity: real, spacingVariance: real, spacingCv: real,
    mean: real, max: real, std: real, kurtosis: real,
    periodicity: real, highFreqEnergy: real, highFreqRatio: real,
    kurtosisBonus: real, hfAdjustment: real, combinedIndicator: bool, combinedBonus: real,
    score: real)

  /** A prediction: the verdict, with details on the heuristic path only. */
  datatype Prediction = Prediction(verdict: Verdict, details: Option<Details>)

  /** What the scorer reports for features `f` and final score `score`. */
  function DetailsOf(f: Features, score: real): (d: Details)
    ensures d.score == score && d.highFreqRatio == f.highFreqRatio
    ensures d.combinedIndicator <==> CombinedIndicator(f.kurtosis, f.highFreqEnergy, f.regularity)
    ensures d.combinedBonus == 15.0 <==> d.combinedIndicator
  {
    var kb := KurtosisBonus(f.kurtosis);
    Details(
      f.peakCountHigh, f.peakCountMedium, f.peakCountLow,
      f.peakDensityHigh, f.peakDensityMedium, f.peakDensityLow,
      f.regularity, f.spacingStd, f.spacingCv,
      f.mean, f.max, f.std, f.kurtosis,
      f.periodicity, f.highFreqEnergy, f.highFreqRatio,
      kb, HfAdjustment(f.highFreqEnergy, kb, f.regularity),
      CombinedIndicator(f.kurtosis, f.highFreqEnergy, f.regularity),
      CombinedBonus(f.kurtosis, f.highFreqEnergy, f.regularity),
      score)
  }

  /**
   * The heuristic prediction for a fakeprint: features, clipped score,
   * verdict and details.
   */
  function HeuristicPrediction(fp: seq<real>, m: Measured, extra: map<string, real>): (p: Prediction)
    requires MeasuredFor(fp, m)
    ensures p.details.Some?
    ensures p.details.value.score == ClipScore(RawScore(ExtractFeatures(fp, m, extra)))
    ensures p.verdict == VerdictOf(p.details.value.score)
    ensures 0.0 <= p.details.value.score <= 100.0
    ensures p.verdict.aiProbability == p.details.value.score
    ensures p.verdict.isAiGenerated <==> p.details.value.score > 50.0
    ensures p.verdict.aiProbability + p.verdict.humanProbability == 100.0
    ensures 0.0 <= p.verdict.confidence <= 1.0
    ensures p.details.value.peakCountHigh <= p.details.value.peakCountMedium <= p.details.value.peakCountLow <= |fp|
  {
    var f := ExtractFeatures(fp, m, extra);
    var score := ClipScore(RawScore(f));
    Prediction(VerdictOf(score), Some(DetailsOf(f, score)))
  }

  // ---------------------------------------------------------- scenarios

  /**
   * Silence: an all-zero fakeprint with no high-frequency energy reported
   * scores exactly 3 (the high-frequency bonus alone) and is called human.
   */
  lemma SilenceIsHuman(fp: seq<real>, m: Measured, extra: map<string, real>)
    requires MeasuredFor(fp, m)
    requires forall i :: 0 <= i < |fp| ==> fp[i] == 0.0
    requires HighFreqKey !in extra
    ensures HeuristicPrediction(fp, m, extra).details.value.score == 3.0
    ensures !HeuristicPrediction(fp, m, extra).verdict.isAiGenerated
  {
    SilentFeatures(fp, m, extra);
    QuietScore(ExtractFeatures(fp, m, extra));
  }

  /** Features with no peaks, zero statistics and no high-frequency energy score 3. */
  lemma QuietScore(f: Features)
    requires f.peakCountHigh == 0 && f.peakCountMedium == 0 && f.regularity == 0.0
    requires f.mean == 0.0 && f.max == 0.0 && f.p90 == 0.0 && f.periodicity == 0.0
    requires f.kurtosis == 0.0 && f.highFreqEnergy == 0.0
    ensures RawScore(f) == 3.0
  {
  }

  /**
   * The combined rule stops at kurtosis 10, so the score is not monotone in
   * kurtosis: from 9.5 to 10.5, with no high-frequency energy and regularity
   * 0.4, the kurtosis bonus grows by 1.375 but the 15-point combined bonus is
   * lost.
   */
  lemma ScoreDropsAcrossKurtosisTen(f: Features)
    requires f.highFreqEnergy == 0.0 && f.regularity == 0.4 && f.kurtosis == 9.5
    ensures RawScore(f.(kurtosis := 10.5)) == RawScore(f) - 13.625
  {
  }
}
