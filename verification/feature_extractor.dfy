/**
 * The scalar descriptors the heuristic scorer reads off a fakeprint: peak
 * counts at three thresholds, the regularity of the medium-peak spacing,
 * distribution statistics, the autocorrelation periodicity and the
 * high-frequency energy ratio.  Square roots and percentiles come in as
 * measured values (`Measured`), tied to the fakeprint by `MeasuredFor`.
 */
module FeatureExtractor {
  import opened Base

  const HighThreshold: real := 0.5
  const MediumThreshold: real := 0.3
  const LowThreshold: real := 0.1
  /** Division guard of the kurtosis and of the high-frequency ratio. */
  const TinyEpsilon: real := 0.0000000001
  /** Key of the high-frequency energy in the extra-features dictionary. */
  const HighFreqKey: string := "high_freq_energy"
  /** Largest regularity score: reached at cv = 0, just above 1. */
  const RegularityCeiling: real := 0.8 + 0.3 * 0.67

  // ---------------------------------------------------------------- peaks

  /** Bins of the fakeprint strictly above `threshold`. */
  function Peaks(fp: seq<real>, threshold: real): seq<nat> {
    Where(fp, v => v > threshold)
  }

  /** A higher threshold finds a subset of the peaks a lower one finds, so never more of them. */
  lemma {:induction false} PeaksNested(fp: seq<real>, hi: real, lo: real)
    requires lo <= hi
    ensures |Peaks(fp, hi)| <= |Peaks(fp, lo)|
    ensures forall k :: 0 <= k < |Peaks(fp, hi)| ==> Peaks(fp, hi)[k] in Peaks(fp, lo)
  {
    WhereComplete(fp, v => v > lo);
    if fp != [] {
      PeaksNested(fp[..|fp| - 1], hi, lo);
    }
  }

  /** A fakeprint nowhere above the threshold has no peaks. */
  lemma {:induction false} NoPeaksAtOrBelow(fp: seq<real>, threshold: real)
    requires forall i :: 0 <= i < |fp| ==> fp[i] <= threshold
    ensures Peaks(fp, threshold) == []
  {
    if fp != [] {
      NoPeaksAtOrBelow(fp[..|fp| - 1], threshold);
    }
  }

  /** `count / len(fakeprint)`, or 0 for an empty fakeprint. */
  function Density(count: nat, len: nat): (d: real)
    requires count <= len
    ensures 0.0 <= d <= 1.0
  {
    if len > 0 then count as real / len as real else 0.0
  }

  // ---------------------------------------------------------- regularity

  /** `np.diff` of the peak positions. */
  function Spacings(p: seq<nat>): (d: seq<real>)
    requires |p| > 0
    ensures |d| == |p| - 1
    ensures forall i :: 0 <= i < |d| ==> d[i] == (p[i + 1] as int - p[i] as int) as real
  {
    seq(|p| - 1, i requires 0 <= i < |p| - 1 => (p[i + 1] as int - p[i] as int) as real)
  }

  function Mean(s: seq<real>): real
    requires |s| > 0
  {
    Sum(s) / |s| as real
  }

  /** Squared deviations from the mean. */
  function SquaredDeviations(s: seq<real>): (q: seq<real>)
    requires |s| > 0
    ensures |q| == |s|
    ensures forall i :: 0 <= i < |q| ==> q[i] >= 0.0
  {
    var m := Mean(s);
    var q := seq(|s|, i requires 0 <= i < |s| => Square(s[i] - m));
    assert forall i :: 0 <= i < |q| ==> q[i] == Square(s[i] - m);
    q
  }

  function Square(d: real): (r: real)
    ensures r >= 0.0
  {
    SquareNonNegative(d);
    d * d
  }

  lemma SquareNonNegative(d: real)
    ensures d * d >= 0.0
  {
    if d < 0.0 {
      assert d * d == (-d) * (-d);
    }
  }

  /** Population variance, as `np.var` (the square of `np.std`). */
  function Variance(s: seq<real>): (v: real)
    requires |s| > 0
    ensures v >= 0.0
  {
    SumNonNegative(SquaredDeviations(s));
    Mean(SquaredDeviations(s))
  }

  /** `s` is the standard deviation of `xs`: the non-negative square root of its variance. */
  predicate IsStd(s: real, xs: seq<real>)
    requires |xs| > 0
  {
    s >= 0.0 && s * s == Variance(xs)
  }

  /**
   * The coefficient-of-variation schedule: lower cv (more even spacing) gives
   * a higher score.
   */
  function RegularityScore(cv: real): (s: real)
    ensures cv >= 0.0 ==> 0.0 <= s <= RegularityCeiling
  {
    if cv < 0.3 then 0.8 + (0.3 - cv) * 0.67
    else if cv < 0.5 then 0.5 + (0.5 - cv) * 1.5
    else if cv < 0.7 then 0.3 + (0.7 - cv) * 1.0
    else MaxReal(0.0, 0.3 - (cv - 0.7) * 0.5)
  }

  /** More irregular spacing never earns a higher score. */
  lemma RegularityScoreNonIncreasing(c1: real, c2: real)
    requires c1 <= c2
    ensures RegularityScore(c1) >= RegularityScore(c2)
  {
  }

  /**
   * No jumps: the score moves by at most 1.5 per unit of cv, so the pieces
   * meet at 0.3 (0.8), 0.5 (0.5) and 0.7 (0.3).
   */
  lemma RegularityScoreLipschitz(c1: real, c2: real)
    ensures Abs(RegularityScore(c1) - RegularityScore(c2)) <= 1.5 * Abs(c1 - c2)
  {
  }

  /** The schedule's values at its breakpoints and at perfectly even spacing. */
  lemma RegularityScoreBreakpoints()
    ensures RegularityScore(0.0) == RegularityCeiling
    ensures RegularityScore(0.3) == 0.8 && RegularityScore(0.5) == 0.5 && RegularityScore(0.7) == 0.3
    ensures RegularityScore(1.3) == 0.0
  {
  }

  datatype Regularity = Regularity(score: real, spacingStd: real, cv: real)

  /**
   * The regularity block of the scorer: with more than three medium peaks,
   * cv = std / mean of their spacing and the score follows the schedule;
   * a non-positive mean spacing falls back to 0.5; otherwise all zero.
   */
  function SpacingRegularity(medium: seq<nat>, spacingStd: real): (r: Regularity)
    ensures |medium| <= 3 ==> r == Regularity(0.0, 0.0, 0.0)
    ensures spacingStd >= 0.0 ==> 0.0 <= r.score <= RegularityCeiling && r.cv >= 0.0
  {
    if |medium| > 3 then
      var meanSpacing := Mean(Spacings(medium));
      if meanSpacing > 0.0 then
        var cv := spacingStd / meanSpacing;
        Regularity(RegularityScore(cv), spacingStd, cv)
      else
        Regularity(0.5, spacingStd, 0.0)
    else
      Regularity(0.0, 0.0, 0.0)
  }

  /** Strictly increasing positions are at least one apart, so their mean spacing is at least 1. */
  lemma MeanSpacingAtLeastOne(p: seq<nat>)
    requires |p| > 1 && StrictlyIncreasing(p)
    ensures Mean(Spacings(p)) >= 1.0
  {
    var d := Spacings(p);
    SumAtLeast(d, 1.0);
    QuotientAtLeastOne(Sum(d), |d| as real);
  }

  lemma QuotientAtLeastOne(a: real, b: real)
    requires b > 0.0 && a >= b
    ensures a / b >= 1.0
  {
  }

  /**
   * Medium peaks come from `np.where`, so they strictly increase: with more
   * than three of them the mean spacing is at least 1 and the 0.5 fallback
   * never fires; the score is the schedule applied to cv.
   */
  lemma RegularityFallbackUnreachable(fp: seq<real>, spacingStd: real)
    ensures var medium := Peaks(fp, MediumThreshold);
      var r := SpacingRegularity(medium, spacingStd);
      |medium| > 3 ==> && Mean(Spacings(medium)) >= 1.0
                       && r.cv == spacingStd / Mean(Spacings(medium))
                       && r.score == RegularityScore(r.cv)
  {
    var medium := Peaks(fp, MediumThreshold);
    if |medium| > 3 {
      WhereIncreasing(fp, v => v > MediumThreshold);
      MeanSpacingAtLeastOne(medium);
    }
  }

  // ---------------------------------------------------------- statistics

  /** Fourth powers of the deviations from the mean. */
  function FourthPowers(s: seq<real>): (q: seq<real>)
    requires |s| > 0
    ensures |q| == |s|
    ensures forall i :: 0 <= i < |q| ==> q[i] >= 0.0
  {
    var sq := SquaredDeviations(s);
    seq(|s|, i requires 0 <= i < |s| => sq[i] * sq[i])
  }

  /**
   * `mean((x - mean)^4) / (std^4 + 1e-10)`, written with the variance squared
   * in place of std^4 (see `KurtosisFromStd`); no -3 offset.
   */
  function Kurtosis(s: seq<real>): (k: real)
    requires |s| > 0
    ensures k >= 0.0
  {
    var v := Variance(s);
    SumNonNegative(FourthPowers(s));
    Mean(FourthPowers(s)) / (v * v + TinyEpsilon)
  }

  /** With the measured standard deviation, the kurtosis is the source's formula exactly. */
  lemma KurtosisFromStd(s: seq<real>, std: real)
    requires |s| > 0 && IsStd(std, s)
    ensures Kurtosis(s) == Mean(FourthPowers(s)) / (std * std * std * std + TinyEpsilon)
  {
    assert std * std * std * std == Variance(s) * Variance(s);
  }

  /** The fakeprint minus its mean. */
  function Centered(s: seq<real>): (d: seq<real>)
    requires |s| > 0
    ensures |d| == |s|
  {
    var m := Mean(s);
    seq(|s|, i requires 0 <= i < |s| => s[i] - m)
  }

  /** Unnormalised autocorrelation at lag `k`: the sum of `d[j] * d[j + k]`. */
  function LagProduct(d: seq<real>, k: nat): (r: real)
    ensures k == 0 ==> r >= 0.0
    decreases |d|
  {
    if |d| <= k then 0.0 else d[0] * d[k] + LagProduct(d[1..], k)
  }

  /** Autocorrelation at lag `k`, normalised by lag 0 plus 1e-10. */
  function Autocorr(d: seq<real>, k: nat): real {
    LagProduct(d, k) / (LagProduct(d, 0) + TinyEpsilon)
  }

  /** Largest normalised autocorrelation over the lags `lo .. hi - 1`. */
  function MaxLag(d: seq<real>, lo: nat, hi: nat): (m: real)
    requires lo < hi
    ensures forall k :: lo <= k < hi ==> Autocorr(d, k) <= m
    ensures exists k :: lo <= k < hi && Autocorr(d, k) == m
    decreases hi - lo
  {
    if lo + 1 == hi then Autocorr(d, lo)
    else MaxReal(Autocorr(d, lo), MaxLag(d, lo + 1, hi))
  }

  /**
   * Periodicity score: the strongest secondary autocorrelation peak over the
   * lags 2 .. min(50, n) - 1, for fakeprints longer than 10 bins.
   */
  function Periodicity(fp: seq<real>): (p: real)
    requires |fp| > 0
    ensures |fp| <= 10 ==> p == 0.0
    ensures |fp| > 10 ==> exists k :: 2 <= k < 50 && k < |fp| && Autocorr(Centered(fp), k) == p
    ensures |fp| > 10 ==> forall k :: 2 <= k < 50 && k < |fp| ==> Autocorr(Centered(fp), k) <= p
  {
    if |fp| > 10 then
      var d := Centered(fp);
      if |d| > 5 then
        var hi := if 50 < |d| then 50 else |d|;
        if hi > 2 then MaxLag(d, 2, hi) else 0.0
      else 0.0
    else 0.0
  }

  /** A flat fakeprint (silence among them) has no periodicity. */
  lemma FlatHasNoPeriodicity(fp: seq<real>)
    requires |fp| > 0 && forall i :: 0 <= i < |fp| ==> fp[i] == fp[0]
    ensures Periodicity(fp) == 0.0
  {
    if |fp| > 10 {
      var d := Centered(fp);
      assert Mean(fp) == fp[0] by { MeanOfConstant(fp); }
      assert forall i :: 0 <= i < |d| ==> d[i] == 0.0;
      forall k: nat ensures LagProduct(d, k) == 0.0 {
        LagProductOfZeros(d, k);
      }
      var hi := if 50 < |d| then 50 else |d|;
      var m := MaxLag(d, 2, hi);
      var k :| 2 <= k < hi && Autocorr(d, k) == m;
      assert Autocorr(d, k) == 0.0;
    }
  }

  lemma {:induction false} LagProductOfZeros(d: seq<real>, k: nat)
    requires forall i :: 0 <= i < |d| ==> d[i] == 0.0
    ensures LagProduct(d, k) == 0.0
    decreases |d|
  {
    if |d| > k {
      LagProductOfZeros(d[1..], k);
    }
  }

  lemma MeanOfConstant(s: seq<real>)
    requires |s| > 0 && forall i :: 0 <= i < |s| ==> s[i] == s[0]
    ensures Mean(s) == s[0]
  {
    SumAtLeast(s, s[0]);
    SumAtMost(s, s[0]);
  }

  /** The mean lies between the smallest and the largest element. */
  lemma MeanBetweenMinAndMax(s: seq<real>)
    requires |s| > 0
    ensures SeqMin(s) <= Mean(s) <= SeqMax(s)
  {
    MeanWithin(s, SeqMin(s), SeqMax(s));
  }

  lemma MeanWithin(s: seq<real>, lo: real, hi: real)
    requires |s| > 0 && forall i :: 0 <= i < |s| ==> lo <= s[i] <= hi
    ensures lo <= Mean(s) <= hi
  {
    SumAtLeast(s, lo);
    SumAtMost(s, hi);
    ScaledBounds(Sum(s), lo, hi, |s| as real);
  }

  lemma ScaledBounds(total: real, lo: real, hi: real, n: real)
    requires n > 0.0 && lo * n <= total <= hi * n
    ensures lo <= total / n <= hi
  {
  }

  function SumOfSquares(s: seq<real>): (e: real)
    ensures e >= 0.0
  {
    LagProduct(s, 0)
  }

  // ------------------------------------------------------------ features

  /** Values the scorer needs that take a square root or a percentile. */
  datatype Measured = Measured(spacingStd: real, std: real, p75: real, p90: real)

  /**
   * `m` holds the values numpy computes from `fp`: the standard deviations of
   * the fakeprint and of its medium-peak spacing, and two percentiles, which
   * lie between the minimum and the maximum in increasing order.  numpy's max
   * and percentile fail on an empty fakeprint, hence `|fp| > 0`.
   */
  predicate MeasuredFor(fp: seq<real>, m: Measured) {
    && |fp| > 0
    && IsStd(m.std, fp)
    && (|Peaks(fp, MediumThreshold)| > 3 ==> IsStd(m.spacingStd, Spacings(Peaks(fp, MediumThreshold))))
    && SeqMin(fp) <= m.p75 <= m.p90 <= SeqMax(fp)
  }

  datatype Features = Features(
    peakCountHigh: nat, peakCountMedium: nat, peakCountLow: nat,
    peakDensityHigh: real, peakDensityMedium: real, peakDensityLow: real,
    regularity: real, spacingStd: real, spacingCv: real,
    mean: real, max: real, std: real, p75: real, p90: real, kurtosis: real,
    periodicity: real, highFreqEnergy: real, highFreqRatio: real)

  /** The high-frequency energy: `extra_features.get('high_freq_energy', 0.0)`. */
  function HighFreqEnergy(extra: map<string, real>): real {
    if HighFreqKey in extra then extra[HighFreqKey] else 0.0
  }

  /** Every descriptor the scorer reads, computed from the fakeprint as the scorer does. */
  function ExtractFeatures(fp: seq<real>, m: Measured, extra: map<string, real>): (f: Features)
    requires MeasuredFor(fp, m)
    ensures f.peakCountHigh <= f.peakCountMedium <= f.peakCountLow <= |fp|
    ensures 0.0 <= f.peakDensityHigh <= f.peakDensityMedium <= f.peakDensityLow <= 1.0
    ensures 0.0 <= f.regularity <= RegularityCeiling && f.spacingCv >= 0.0 && f.spacingStd >= 0.0
    ensures f.peakCountMedium <= 3 ==> f.regularity == 0.0 && f.spacingStd == 0.0 && f.spacingCv == 0.0
    ensures SeqMin(fp) <= f.mean <= f.max && f.max == SeqMax(fp)
    ensures SeqMin(fp) <= f.p90 <= f.max
    ensures f.kurtosis >= 0.0
    ensures |fp| <= 10 ==> f.periodicity == 0.0
    ensures f.highFreqEnergy == HighFreqEnergy(extra)
    ensures f.highFreqEnergy >= 0.0 ==> f.highFreqRatio >= 0.0
  {
    var high := Peaks(fp, HighThreshold);
    var medium := Peaks(fp, MediumThreshold);
    var low := Peaks(fp, LowThreshold);
    PeaksNested(fp, HighThreshold, MediumThreshold);
    PeaksNested(fp, MediumThreshold, LowThreshold);
    var reg := SpacingRegularity(medium, m.spacingStd);
    MeanBetweenMinAndMax(fp);
    var hf := HighFreqEnergy(extra);
    var ratio := hf / (SumOfSquares(fp) + TinyEpsilon);
    assert hf >= 0.0 ==> ratio >= 0.0;
    var n := |fp|;
    assert Density(|high|, n) <= Density(|medium|, n) <= Density(|low|, n) by {
      QuotientMonotone(|high| as real, |medium| as real, n as real);
      QuotientMonotone(|medium| as real, |low| as real, n as real);
    }
    Features(
      |high|, |medium|, |low|,
      Density(|high|, n), Density(|medium|, n), Density(|low|, n),
      reg.score, reg.spacingStd, reg.cv,
      Mean(fp), SeqMax(fp), m.std, m.p75, m.p90, Kurtosis(fp),
      Periodicity(fp), hf, ratio)
  }

  /**
   * An all-zero fakeprint with no high-frequency entry: no peaks, zero mean,
   * maximum, 90th percentile, periodicity, kurtosis and energy.
   */
  lemma SilentFeatures(fp: seq<real>, m: Measured, extra: map<string, real>)
    requires MeasuredFor(fp, m)
    requires forall i :: 0 <= i < |fp| ==> fp[i] == 0.0
    requires HighFreqKey !in extra
    ensures var f := ExtractFeatures(fp, m, extra);
      && f.peakCountHigh == 0 && f.peakCountMedium == 0 && f.regularity == 0.0
      && f.mean == 0.0 && f.max == 0.0 && f.p90 == 0.0 && f.periodicity == 0.0
      && f.kurtosis == 0.0 && f.highFreqEnergy == 0.0
  {
    NoPeaksAtOrBelow(fp, MediumThreshold);
    PeaksNested(fp, HighThreshold, MediumThreshold);
    MeanOfConstant(fp);
    FlatHasNoPeriodicity(fp);
    var fourth := FourthPowers(fp);
    assert forall i :: 0 <= i < |fourth| ==> fourth[i] == 0.0;
    SumZeros(fourth);
  }
}
