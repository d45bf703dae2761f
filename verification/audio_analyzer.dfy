/**
 * The signal side of the detector: the lower envelope ("hull") of a spectral
 * curve, the residual above it inside the 5-16 kHz band, and its normalisation
 * into a fakeprint.  The STFT, the dB conversion and the quadratic
 * interpolation of the hull are external numerics and enter as inputs.
 */
module AudioAnalyzer {
  import opened Base

  /** Band limits and floor clip of `curve_profile`, clip ceiling of `max_normalize`. */
  const FMin: real := 5000.0
  const FMax: real := 16000.0
  const MinDb: real := -45.0
  const MaxDb: real := 5.0
  /** Window width `area` that `curve_profile` passes to `lower_hull`. */
  const HullArea: nat := 10
  /** Sample rate the analyzer is built with; frequency bins run up to SampleRate / 2. */
  const SampleRate: real := 16000.0
  /** Division guard of `max_normalize`. */
  const NormEpsilon: real := 0.000001

  /** Position of the FIRST minimum of a non-empty patch, as `np.argmin`. */
  function ArgMin(patch: seq<real>): (r: nat)
    requires |patch| > 0
    ensures r < |patch|
    ensures forall j :: 0 <= j < |patch| ==> patch[r] <= patch[j]
    ensures forall j :: 0 <= j < r ==> patch[r] < patch[j]
  {
    if |patch| == 1 then 0
    else
      var r' := ArgMin(patch[1..]);
      assert forall j :: 1 <= j < |patch| ==> patch[1..][j - 1] == patch[j];
      if patch[0] <= patch[1..][r'] then 0 else r' + 1
  }

  /** Absolute index of the first minimum of the window `x[w..w + area]`. */
  function WindowMin(x: seq<real>, area: nat, w: nat): (r: nat)
    requires 1 <= area && w + area <= |x|
    ensures w <= r < w + area
  {
    ArgMin(x[w..w + area]) + w
  }

  /** The window's first minimum: no value in the window is smaller, none before it is as small. */
  lemma WindowMinIsFirstMinimum(x: seq<real>, area: nat, w: nat)
    requires 1 <= area && w + area <= |x|
    ensures forall j :: w <= j < w + area ==> x[WindowMin(x, area, w)] <= x[j]
    ensures forall j :: w <= j < WindowMin(x, area, w) ==> x[WindowMin(x, area, w)] < x[j]
  {
    var patch := x[w..w + area];
    assert forall j :: w <= j < w + area ==> patch[j - w] == x[j];
  }

  /** Sliding the window one step never moves the first minimum to the left. */
  lemma WindowMinMonotone(x: seq<real>, area: nat, w: nat)
    requires 1 <= area && w + 1 + area <= |x|
    ensures WindowMin(x, area, w) <= WindowMin(x, area, w + 1)
  {
    WindowMinIsFirstMinimum(x, area, w);
    WindowMinIsFirstMinimum(x, area, w + 1);
  }

  /**
   * The indices the loop of `lower_hull` has collected after its first `k`
   * windows.  Because the window minima never move left, the latest window's
   * minimum is always the last one collected, and no earlier one exceeds it.
   */
  function Collected(x: seq<real>, area: nat, k: nat): (c: seq<nat>)
    requires 1 <= area && k + area <= |x| + 1
    ensures |c| <= k
    ensures forall j :: 0 <= j < |c| ==> c[j] < |x|
    ensures k > 0 ==> |c| > 0 && c[|c| - 1] == WindowMin(x, area, k - 1)
    ensures forall j :: 0 <= j < |c| ==> c[j] <= c[|c| - 1]
  {
    if k == 0 then []
    else
      var p := Collected(x, area, k - 1);
      var a := WindowMin(x, area, k - 1);
      LastBelowNext(x, area, k, p);
      AppendBounded(p, a, |x|);
      Record(p, a)
  }

  /** One step of the loop: a window's minimum is appended unless already collected. */
  function Record(p: seq<nat>, a: nat): seq<nat> {
    if a in p then p else p + [a]
  }

  /**
   * The windows' first minima never move left, so the last index collected so
   * far is at most the next window's first minimum.
   */
  lemma LastBelowNext(x: seq<real>, area: nat, k: nat, p: seq<nat>)
    requires 1 <= area && 0 < k && k + area <= |x| + 1
    requires |p| <= k - 1
    requires k > 1 ==> |p| > 0 && p[|p| - 1] == WindowMin(x, area, k - 2)
    ensures |p| > 0 ==> p[|p| - 1] <= WindowMin(x, area, k - 1)
  {
    if k > 1 {
      WindowMinMonotone(x, area, k - 2);
    }
  }

  /** The collected indices strictly increase: a repeated minimum is never appended twice. */
  lemma {:induction false} CollectedIncreasing(x: seq<real>, area: nat, k: nat)
    requires 1 <= area && k + area <= |x| + 1
    ensures StrictlyIncreasing(Collected(x, area, k))
  {
    if k > 0 {
      CollectedIncreasing(x, area, k - 1);
      var p := Collected(x, area, k - 1);
      var a := WindowMin(x, area, k - 1);
      LastBelowNext(x, area, k, p);
      AppendNewIncreasing(p, a);
    }
  }

  /** Appending an element not yet present and at least the last keeps a sequence strictly increasing. */
  lemma AppendNewIncreasing(p: seq<nat>, a: nat)
    requires StrictlyIncreasing(p)
    requires |p| > 0 ==> p[|p| - 1] <= a
    ensures StrictlyIncreasing(Record(p, a))
  {
    if a !in p {
      AppendIncreasing(p, a);
    }
  }

  /** Appending an element in range, and at least every earlier one, keeps the bounds and the maximum at the end. */
  lemma AppendBounded(p: seq<nat>, a: nat, n: nat)
    requires a < n && forall j :: 0 <= j < |p| ==> p[j] < n
    requires p != [] ==> forall j :: 0 <= j < |p| ==> p[j] <= a
    ensures forall j :: 0 <= j < |p + [a]| ==> (p + [a])[j] < n && (p + [a])[j] <= a
  {
    assert forall j :: 0 <= j < |p| ==> (p + [a])[j] == p[j];
  }

  /** The collected indices after `k` windows: those after `k - 1` and the `k`-th window's minimum. */
  lemma CollectedGrows(x: seq<real>, area: nat, k: nat)
    requires 1 <= area && 0 < k && k + area <= |x| + 1
    ensures forall e :: e in Collected(x, area, k) <==> e in Collected(x, area, k - 1) || e == WindowMin(x, area, k - 1)
  {
    var p := Collected(x, area, k - 1);
    var a := WindowMin(x, area, k - 1);
    assert Collected(x, area, k) == if a in p then p else p + [a];
  }

  /** Every visited window's first minimum has been collected. */
  lemma {:induction false} CollectedComplete(x: seq<real>, area: nat, k: nat)
    requires 1 <= area && k + area <= |x| + 1
    ensures forall w :: 0 <= w < k ==> WindowMin(x, area, w) in Collected(x, area, k)
  {
    if k > 0 {
      CollectedComplete(x, area, k - 1);
      CollectedGrows(x, area, k);
      forall w | 0 <= w < k
        ensures WindowMin(x, area, w) in Collected(x, area, k)
      {
        if w < k - 1 {
          assert WindowMin(x, area, w) in Collected(x, area, k - 1);
        }
      }
    }
  }

  /** Every collected index is the first minimum of a visited window; none is invented. */
  lemma {:induction false} CollectedSound(x: seq<real>, area: nat, k: nat)
    requires 1 <= area && k + area <= |x| + 1
    ensures forall e :: e in Collected(x, area, k) ==> exists w :: 0 <= w < k && WindowMin(x, area, w) == e
  {
    if k > 0 {
      CollectedSound(x, area, k - 1);
      CollectedGrows(x, area, k);
      forall e | e in Collected(x, area, k)
        ensures exists w :: 0 <= w < k && WindowMin(x, area, w) == e
      {
        if e !in Collected(x, area, k - 1) {
          assert WindowMin(x, area, k - 1) == e;
        }
      }
    }
  }

  /** Number of windows the loop visits: `range(len(x) - area + 1)`. */
  function WindowCount(x: seq<real>, area: nat): nat
    requires 1 <= area <= |x|
  {
    |x| - area + 1
  }

  /** Insert index 0 in front and the last index at the back when they are missing. */
  function Anchor(idx: seq<nat>, n: nat): (r: seq<nat>)
    requires |idx| > 0 && n > 0
    requires forall j :: 0 <= j < |idx| ==> idx[j] < n
    ensures |r| > 0 && r[0] == 0 && r[|r| - 1] == n - 1
    ensures forall j :: 0 <= j < |r| ==> r[j] < n
  {
    var front := if idx[0] != 0 then [0] + idx else idx;
    if front[|front| - 1] != n - 1 then front + [n - 1] else front
  }

  /** Anchoring a strictly increasing index list keeps it strictly increasing. */
  lemma AnchorIncreasing(idx: seq<nat>, n: nat)
    requires |idx| > 0 && n > 0
    requires forall j :: 0 <= j < |idx| ==> idx[j] < n
    requires StrictlyIncreasing(idx)
    ensures StrictlyIncreasing(Anchor(idx, n))
  {
    var front := if idx[0] != 0 then [0] + idx else idx;
    if idx[0] != 0 {
      PrependIncreasing(idx, 0);
    }
    assert forall j :: 0 <= j < |front| ==> front[j] < n;
    if front[|front| - 1] != n - 1 {
      AppendIncreasing(front, n - 1);
    }
  }

  /** Putting an element below the first in front keeps a sequence strictly increasing. */
  lemma PrependIncreasing(p: seq<nat>, a: nat)
    requires StrictlyIncreasing(p)
    requires p != [] ==> a < p[0]
    ensures StrictlyIncreasing([a] + p)
  {
  }

  /**
   * The indices `lower_hull` returns: from 0 to the last index of the curve,
   * each within the curve.
   */
  function HullIndices(x: seq<real>, area: nat): (idx: seq<nat>)
    requires 1 <= area <= |x|
    ensures |idx| > 0 && idx[0] == 0 && idx[|idx| - 1] == |x| - 1
    ensures forall j :: 0 <= j < |idx| ==> idx[j] < |x|
  {
    Anchor(Collected(x, area, WindowCount(x, area)), |x|)
  }

  /** The hull indices strictly increase. */
  lemma HullIndicesIncreasing(x: seq<real>, area: nat)
    requires 1 <= area <= |x|
    ensures StrictlyIncreasing(HullIndices(x, area))
  {
    CollectedIncreasing(x, area, WindowCount(x, area));
    AnchorIncreasing(Collected(x, area, WindowCount(x, area)), |x|);
  }

  /**
   * The hull indices are exactly the two endpoints together with the
   * first-minimum positions of the sliding windows.
   */
  lemma HullIndicesMembers(x: seq<real>, area: nat)
    requires 1 <= area <= |x|
    ensures forall e :: e in HullIndices(x, area) <==>
      e == 0 || e == |x| - 1 || exists w :: 0 <= w < WindowCount(x, area) && WindowMin(x, area, w) == e
  {
    AnchorMembers(Collected(x, area, WindowCount(x, area)), |x|);
    CollectedComplete(x, area, WindowCount(x, area));
    CollectedSound(x, area, WindowCount(x, area));
  }

  /** Anchoring adds the two endpoints and nothing else. */
  lemma AnchorMembers(idx: seq<nat>, n: nat)
    requires |idx| > 0 && n > 0
    requires forall j :: 0 <= j < |idx| ==> idx[j] < n
    ensures forall e :: e in Anchor(idx, n) <==> e == 0 || e == n - 1 || e in idx
  {
    var front := if idx[0] != 0 then [0] + idx else idx;
    assert forall e :: e in front <==> e == 0 || e in idx;
    assert Anchor(idx, n) == if front[|front| - 1] != n - 1 then front + [n - 1] else front;
  }

  /** `hull` holds the curve's values at the positions `idx`, one for one. */
  predicate Samples(x: seq<real>, idx: seq<nat>, hull: seq<real>) {
    |hull| == |idx| && forall k :: 0 <= k < |idx| ==> idx[k] < |x| && hull[k] == x[idx[k]]
  }

  lemma SamplesAppend(x: seq<real>, idx: seq<nat>, hull: seq<real>, i: nat)
    requires Samples(x, idx, hull) && i < |x|
    ensures Samples(x, idx + [i], hull + [x[i]])
  {
    assert forall k :: 0 <= k < |idx| ==> (idx + [i])[k] == idx[k] && (hull + [x[i]])[k] == hull[k];
  }

  lemma SamplesPrepend(x: seq<real>, idx: seq<nat>, hull: seq<real>, i: nat)
    requires Samples(x, idx, hull) && i < |x|
    ensures Samples(x, [i] + idx, [x[i]] + hull)
  {
    assert forall k :: 0 < k <= |idx| ==> ([i] + idx)[k] == idx[k - 1] && ([x[i]] + hull)[k] == hull[k - 1];
  }

  /** Position `r` of the slice `x[lo..hi]` is position `lo + r` of `x`. */
  lemma SliceAt(x: seq<real>, lo: nat, hi: nat, r: nat)
    requires lo <= hi <= |x| && r < hi - lo
    ensures x[lo..hi][r] == x[lo + r]
  {
  }

  /** One more window: its first minimum is appended unless it was already collected. */
  lemma CollectedNext(x: seq<real>, area: nat, i: nat)
    requires 1 <= area && i + 1 + area <= |x| + 1
    ensures var p := Collected(x, area, i);
      var a := WindowMin(x, area, i);
      Collected(x, area, i + 1) == if a in p then p else p + [a]
  {
  }

  /**
   * `lower_hull`: slide a window of width `area` over `x`, keep each window's
   * first-minimum position the first time it is seen, then anchor both ends.
   * With fewer than `area` samples the loop runs zero times and the source fails
   * on `idx[0]`, hence the requires.
   */
  method LowerHull(x: seq<real>, area: nat) returns (idx: seq<nat>, hull: seq<real>)
    requires 1 <= area <= |x|
    ensures idx == HullIndices(x, area)
    ensures StrictlyIncreasing(idx) && |idx| > 0 && idx[0] == 0 && idx[|idx| - 1] == |x| - 1
    ensures |hull| == |idx|
    ensures forall k :: 0 <= k < |idx| ==> idx[k] < |x| && hull[k] == x[idx[k]]
  {
    idx, hull := CollectMinima(x, area);
    idx, hull := AnchorEnds(x, idx, hull);
    HullIndicesIncreasing(x, area);
  }

  /** The loop of `lower_hull`: each window's first minimum and its value, the first time it is seen. */
  method CollectMinima(x: seq<real>, area: nat) returns (idx: seq<nat>, hull: seq<real>)
    requires 1 <= area <= |x|
    ensures idx == Collected(x, area, WindowCount(x, area))
    ensures |idx| > 0 && Samples(x, idx, hull)
  {
    idx, hull := [], [];
    var i := 0;
    while i < |x| - area + 1
      invariant 0 <= i <= |x| - area + 1
      invariant idx == Collected(x, area, i)
      invariant Samples(x, idx, hull)
    {
      idx, hull := ScanWindow(x, area, i, idx, hull);
      i := i + 1;
    }
  }

  /** One iteration: the window's first minimum is recorded, with its value, unless already present. */
  method ScanWindow(x: seq<real>, area: nat, i: nat, idx: seq<nat>, hull: seq<real>)
    returns (idx': seq<nat>, hull': seq<real>)
    requires 1 <= area && i + area <= |x|
    requires idx == Collected(x, area, i) && Samples(x, idx, hull)
    ensures idx' == Collected(x, area, i + 1) && Samples(x, idx', hull')
  {
    var patch := x[i..i + area];
    var relIdx := ArgMin(patch);
    var absIdx := relIdx + i;
    assert absIdx == WindowMin(x, area, i);
    SliceAt(x, i, i + area, relIdx);
    CollectedNext(x, area, i);
    idx', hull' := idx, hull;
    if absIdx !in idx {
      SamplesAppend(x, idx, hull, absIdx);
      idx' := idx + [absIdx];
      hull' := hull + [patch[relIdx]];
    }
  }

  /** The second half of `lower_hull`: insert the first point and append the last one when missing. */
  method AnchorEnds(x: seq<real>, idx0: seq<nat>, hull0: seq<real>) returns (idx: seq<nat>, hull: seq<real>)
    requires |x| > 0 && |idx0| > 0 && Samples(x, idx0, hull0)
    ensures idx == Anchor(idx0, |x|)
    ensures Samples(x, idx, hull)
  {
    idx, hull := InsertFirst(x, idx0, hull0);
    idx, hull := AppendLast(x, idx, hull);
  }

  /** `idx.insert(0, 0)` and `hull.insert(0, x[0])` when the first point is missing. */
  method InsertFirst(x: seq<real>, idx0: seq<nat>, hull0: seq<real>) returns (idx: seq<nat>, hull: seq<real>)
    requires |x| > 0 && |idx0| > 0 && Samples(x, idx0, hull0)
    ensures idx == if idx0[0] != 0 then [0] + idx0 else idx0
    ensures Samples(x, idx, hull)
  {
    idx, hull := idx0, hull0;
    if idx[0] != 0 {
      SamplesPrepend(x, idx, hull, 0);
      idx := [0] + idx;
      hull := [x[0]] + hull;
    }
  }

  /** `idx.append(len(x) - 1)` and `hull.append(x[-1])` when the last point is missing. */
  method AppendLast(x: seq<real>, idx0: seq<nat>, hull0: seq<real>) returns (idx: seq<nat>, hull: seq<real>)
    requires |x| > 0 && |idx0| > 0 && Samples(x, idx0, hull0)
    ensures idx == if idx0[|idx0| - 1] != |x| - 1 then idx0 + [|x| - 1] else idx0
    ensures Samples(x, idx, hull)
  {
    idx, hull := idx0, hull0;
    if idx[|idx| - 1] != |x| - 1 {
      SamplesAppend(x, idx, hull, |x| - 1);
      idx := idx + [|x| - 1];
      hull := hull + [x[|x| - 1]];
    }
  }

  /** `np.clip(v, 0, max_db)`. */
  function ClipDb(v: real): real {
    MinReal(MaxReal(v, 0.0), MaxDb)
  }

  /**
   * `max_normalize`: clip into [0, 5] and divide by the clipped maximum plus
   * 1e-6.  numpy's `max` fails on an empty array, hence the requires.
   */
  function MaxNormalize(x: seq<real>): (r: seq<real>)
    requires |x| > 0
    ensures |r| == |x|
    ensures forall i :: 0 <= i < |r| ==> 0.0 <= r[i] < 1.0
    ensures (forall i :: 0 <= i < |x| ==> x[i] <= 0.0) ==> forall i :: 0 <= i < |r| ==> r[i] == 0.0
    ensures forall i, j :: 0 <= i < |x| && 0 <= j < |x| && x[i] <= x[j] ==> r[i] <= r[j]
  {
    var c := seq(|x|, i requires 0 <= i < |x| => ClipDb(x[i]));
    var m := SeqMax(c);
    var d := NormEpsilon + m;
    assert d > 0.0 by { assert c[0] >= 0.0; }
    forall i | 0 <= i < |x| ensures 0.0 <= c[i] / d < 1.0 {
      QuotientBelowOne(c[i], d);
    }
    forall i, j | 0 <= i < |x| && 0 <= j < |x| && x[i] <= x[j] ensures c[i] / d <= c[j] / d {
      QuotientMonotone(c[i], c[j], d);
    }
    seq(|x|, i requires 0 <= i < |x| => c[i] / d)
  }

  lemma QuotientBelowOne(a: real, d: real)
    requires 0.0 <= a < d
    ensures 0.0 <= a / d < 1.0
  {
  }

  /**
   * The normalised maximum is the clipped maximum over itself plus 1e-6: it is
   * reached at some bin, and it is strictly below 1, so a fakeprint never holds
   * an exact 1.
   */
  lemma MaxNormalizePeak(x: seq<real>)
    requires |x| > 0
    ensures var m := SeqMax(seq(|x|, i requires 0 <= i < |x| => ClipDb(x[i])));
      && (exists i :: 0 <= i < |x| && MaxNormalize(x)[i] == m / (NormEpsilon + m))
      && m / (NormEpsilon + m) < 1.0
  {
    var c := seq(|x|, i requires 0 <= i < |x| => ClipDb(x[i]));
    var m := SeqMax(c);
    var i :| 0 <= i < |x| && c[i] == m;
    assert MaxNormalize(x)[i] == m / (NormEpsilon + m);
    QuotientBelowOne(m, NormEpsilon + m);
  }

  /** Bins strictly inside (fmin, fmax), in their original order. */
  function BandIndices(freqs: seq<real>): seq<nat> {
    Where(freqs, f => FMin < f < FMax)
  }

  /** `x[idx]` for an index array `idx`. */
  function Gather(x: seq<real>, idx: seq<nat>): (r: seq<real>)
    requires forall k :: 0 <= k < |idx| ==> idx[k] < |x|
    ensures |r| == |idx| && forall k :: 0 <= k < |idx| ==> r[k] == x[idx[k]]
  {
    seq(|idx|, k requires 0 <= k < |idx| => x[idx[k]])
  }

  /**
   * The quadratic extrapolating interpolation of the hull: given the knot
   * frequencies, the knot values and a query frequency, the floor value there.
   */
  type Interpolator = (seq<real>, seq<real>, real) -> real

  /** A quadratic interpolation needs at least this many knots; with fewer it raises. */
  const QuadraticKnots: nat := 3

  /** The hull of a band-limited curve has enough knots for the quadratic interpolation. */
  predicate HullFits(curveCut: seq<real>)
    requires |curveCut| >= HullArea
  {
    |HullIndices(curveCut, HullArea)| >= QuadraticKnots
  }

  /**
   * From 12 band bins on, the hull always has enough knots: the minimum of the
   * second window lies strictly between the two ends, which are knots too.
   */
  lemma TwelveBinsFit(curveCut: seq<real>)
    requires |curveCut| >= HullArea + 2
    ensures HullFits(curveCut)
  {
    var idx := HullIndices(curveCut, HullArea);
    var m := WindowMin(curveCut, HullArea, 1);
    HullIndicesMembers(curveCut, HullArea);
    assert 1 < WindowCount(curveCut, HullArea);
    assert m in idx;
    // With at most two entries, every entry would be the first (0) or the last (len - 1).
    assert |idx| >= QuadraticKnots;
  }

  /**
   * A 10-bin band whose first bin is its unique minimum has only the two end
   * knots, so the quadratic interpolation of its hull fails.
   */
  lemma TenBinsMayNotFit(curveCut: seq<real>)
    requires |curveCut| == HullArea
    requires forall j :: 0 < j < |curveCut| ==> curveCut[0] < curveCut[j]
    ensures HullIndices(curveCut, HullArea) == [0, HullArea - 1]
    ensures !HullFits(curveCut)
  {
    assert WindowCount(curveCut, HullArea) == 1;
    assert curveCut[0..HullArea] == curveCut;
    assert WindowMin(curveCut, HullArea, 0) == 0;
    assert Collected(curveCut, HullArea, 1) == [0];
  }

  /** The noise floor of a band-limited curve: the interpolated hull, clipped below at min_db only. */
  function NoiseFloor(freqsCut: seq<real>, curveCut: seq<real>, interp: Interpolator): (floor: seq<real>)
    requires |freqsCut| == |curveCut| >= HullArea && HullFits(curveCut)
    ensures |floor| == |curveCut|
    ensures forall k :: 0 <= k < |floor| ==> floor[k] >= MinDb
  {
    var idx := HullIndices(curveCut, HullArea);
    ClippedInterpolation(Gather(freqsCut, idx), Gather(curveCut, idx), freqsCut, interp)
  }

  /** `np.clip(interp1d(knotsX, knotsY)(at), min_db, None)`. */
  function ClippedInterpolation(knotsX: seq<real>, knotsY: seq<real>, at: seq<real>, interp: Interpolator): (floor: seq<real>)
    requires |knotsX| == |knotsY| >= QuadraticKnots
    ensures |floor| == |at|
    ensures forall k :: 0 <= k < |floor| ==> floor[k] >= MinDb
  {
    var floor := seq(|at|, k requires 0 <= k < |at| => MaxReal(interp(knotsX, knotsY, at[k]), MinDb));
    assert forall k :: 0 <= k < |floor| ==> floor[k] == MaxReal(interp(knotsX, knotsY, at[k]), MinDb);
    floor
  }

  /**
   * The floor at every bin is the interpolation through the hull knots
   * (band frequencies and curve values at the hull indices), raised to
   * min_db where it falls below; values above min_db are kept unchanged.
   */
  lemma NoiseFloorClipsInterpolation(freqsCut: seq<real>, curveCut: seq<real>, interp: Interpolator)
    requires |freqsCut| == |curveCut| >= HullArea && HullFits(curveCut)
    ensures var idx := HullIndices(curveCut, HullArea);
      var floor := NoiseFloor(freqsCut, curveCut, interp);
      forall k :: 0 <= k < |floor| ==>
        var raw := interp(Gather(freqsCut, idx), Gather(curveCut, idx), freqsCut[k]);
        floor[k] == (if raw < MinDb then MinDb else raw)
  {
  }

  /**
   * `curve_profile`: the band-limited frequencies and the residual of the
   * band-limited curve above its noise floor.  The hull needs at least
   * `area` bins in the band and the quadratic interpolation at least three
   * hull knots (the source fails otherwise), and `curve` is indexed by the
   * band positions found in `freqs`.
   */
  function CurveProfile(freqs: seq<real>, curve: seq<real>, interp: Interpolator): (r: (seq<real>, seq<real>))
    requires |freqs| <= |curve|
    requires |BandIndices(freqs)| >= HullArea
    requires HullFits(Gather(curve, BandIndices(freqs)))
    ensures |r.0| == |BandIndices(freqs)| && |r.1| == |BandIndices(freqs)|
    ensures r.0 == Gather(freqs, BandIndices(freqs))
    ensures r.1 == Residual(Gather(curve, BandIndices(freqs)),
                            NoiseFloor(Gather(freqs, BandIndices(freqs)), Gather(curve, BandIndices(freqs)), interp))
    ensures forall k :: 0 <= k < |r.0| ==> r.0[k] == freqs[BandIndices(freqs)[k]] && FMin < r.0[k] < FMax
    ensures forall k :: 0 <= k < |r.1| ==> 0.0 <= r.1[k] <= MaxReal(0.0, curve[BandIndices(freqs)[k]] - MinDb)
  {
    BandInRange(freqs);
    ProfileOfBand(freqs, curve, BandIndices(freqs), interp)
  }

  /** Every band position lies within the spectrum and its frequency strictly inside (fmin, fmax). */
  lemma BandInRange(freqs: seq<real>)
    ensures var band := BandIndices(freqs);
      forall k :: 0 <= k < |band| ==> band[k] < |freqs| && FMin < freqs[band[k]] < FMax
  {
  }

  /**
   * The profile over given band positions: the frequencies there, and the
   * residual of the curve there above the noise floor of those samples.
   */
  function ProfileOfBand(freqs: seq<real>, curve: seq<real>, band: seq<nat>, interp: Interpolator): (r: (seq<real>, seq<real>))
    requires |freqs| <= |curve| && |band| >= HullArea
    requires forall k :: 0 <= k < |band| ==> band[k] < |freqs|
    requires HullFits(Gather(curve, band))
    ensures |r.0| == |band| && |r.1| == |band|
    ensures r.0 == Gather(freqs, band)
    ensures r.1 == Residual(Gather(curve, band), NoiseFloor(Gather(freqs, band), Gather(curve, band), interp))
    ensures forall k :: 0 <= k < |r.0| ==> r.0[k] == freqs[band[k]]
    ensures forall k :: 0 <= k < |r.1| ==> 0.0 <= r.1[k] <= MaxReal(0.0, curve[band[k]] - MinDb)
  {
    var freqsCut := Gather(freqs, band);
    var curveCut := Gather(curve, band);
    var floor := NoiseFloor(freqsCut, curveCut, interp);
    ResidualWithinHeadroom(curve, band, floor);
    (freqsCut, Residual(curveCut, floor))
  }

  /** Over a floor at or above min_db, the residual never exceeds the curve's height above min_db. */
  lemma ResidualWithinHeadroom(curve: seq<real>, band: seq<nat>, floor: seq<real>)
    requires |band| == |floor| && forall k :: 0 <= k < |band| ==> band[k] < |curve|
    requires forall k :: 0 <= k < |floor| ==> floor[k] >= MinDb
    ensures forall k :: 0 <= k < |band| ==>
      0.0 <= Residual(Gather(curve, band), floor)[k] <= MaxReal(0.0, curve[band[k]] - MinDb)
  {
  }

  /** `np.clip(curve - floor, 0, None)`. */
  function Residual(curve: seq<real>, floor: seq<real>): (p: seq<real>)
    requires |curve| == |floor|
    ensures |p| == |curve|
    ensures forall k :: 0 <= k < |p| ==> p[k] >= 0.0
    ensures forall k :: 0 <= k < |p| ==> (p[k] > 0.0 <==> curve[k] > floor[k])
    ensures forall k :: 0 <= k < |p| ==> p[k] >= curve[k] - floor[k]
    ensures forall k :: 0 <= k < |p| ==> (p[k] == curve[k] - floor[k] || p[k] == 0.0)
  {
    seq(|curve|, k requires 0 <= k < |curve| => MaxReal(curve[k] - floor[k], 0.0))
  }

  /** `np.linspace(0, stop, num)`: `num` evenly spaced points, both ends included. */
  function Linspace(stop: real, num: nat): (r: seq<real>)
    ensures |r| == num
    ensures num >= 1 ==> r[0] == 0.0
    ensures num >= 2 ==> r[num - 1] == stop
    ensures stop > 0.0 ==> forall i, j :: 0 <= i < j < num ==> r[i] < r[j]
  {
    if num == 0 then []
    else if num == 1 then [0.0]
    else
      var step := stop / (num - 1) as real;
      assert stop > 0.0 ==> step > 0.0;
      var r := seq(num, i requires 0 <= i < num => i as real * step);
      forall i, j | 0 <= i < j < num && stop > 0.0 ensures r[i] < r[j] {
        ScaleMonotone(i as real, j as real, step);
      }
      assert r[num - 1] == stop by {
        assert (num - 1) as real * step == stop;
      }
      r
  }

  lemma ScaleMonotone(a: real, b: real, step: real)
    requires a < b && step > 0.0
    ensures a * step < b * step
  {
  }

  /** `np.mean(spec, axis=1)`: the average of each frequency row over time. */
  function MeanOverTime(spec: seq<seq<real>>): (m: seq<real>)
    requires forall f :: 0 <= f < |spec| ==> |spec[f]| > 0
    ensures |m| == |spec|
    ensures forall f :: 0 <= f < |spec| ==> m[f] == Sum(spec[f]) / |spec[f]| as real
  {
    seq(|spec|, f requires 0 <= f < |spec| => Sum(spec[f]) / |spec[f]| as real)
  }

  /**
   * `compute_fakeprint`: average the dB spectrogram over time, lay the bins on
   * 0 .. SampleRate / 2, take the band residual and max-normalise it.  The
   * spectrogram itself comes from the external STFT and dB conversion.
   */
  function ComputeFakeprint(spec: seq<seq<real>>, interp: Interpolator): (fp: seq<real>)
    requires forall f :: 0 <= f < |spec| ==> |spec[f]| > 0
    requires |BandIndices(Linspace(SampleRate / 2.0, |spec|))| >= HullArea
    requires HullFits(Gather(MeanOverTime(spec), BandIndices(Linspace(SampleRate / 2.0, |spec|))))
    ensures fp == MaxNormalize(CurveProfile(Linspace(SampleRate / 2.0, |spec|), MeanOverTime(spec), interp).1)
    ensures |fp| == |BandIndices(Linspace(SampleRate / 2.0, |spec|))|
    ensures |fp| >= HullArea
    ensures forall i :: 0 <= i < |fp| ==> 0.0 <= fp[i] < 1.0
  {
    var meanSpec := MeanOverTime(spec);
    var freqs := Linspace(SampleRate / 2.0, |meanSpec|);
    var profile := CurveProfile(freqs, meanSpec, interp).1;
    MaxNormalize(profile)
  }

  /**
   * A fakeprint bin is non-zero exactly when the time-averaged curve at that
   * band bin lies above the noise floor: the hull interpolation through the
   * band, clipped below at min_db.
   */
  lemma FakeprintAboveFloor(spec: seq<seq<real>>, interp: Interpolator)
    requires forall f :: 0 <= f < |spec| ==> |spec[f]| > 0
    requires |BandIndices(Linspace(SampleRate / 2.0, |spec|))| >= HullArea
    requires HullFits(Gather(MeanOverTime(spec), BandIndices(Linspace(SampleRate / 2.0, |spec|))))
    ensures var mean := MeanOverTime(spec);
      var freqs := Linspace(SampleRate / 2.0, |spec|);
      var band := BandIndices(freqs);
      var floor := NoiseFloor(Gather(freqs, band), Gather(mean, band), interp);
      var fp := ComputeFakeprint(spec, interp);
      forall k :: 0 <= k < |fp| ==> (fp[k] > 0.0 <==> mean[band[k]] > floor[k])
  {
    var mean := MeanOverTime(spec);
    var freqs := Linspace(SampleRate / 2.0, |spec|);
    var profile := CurveProfile(freqs, mean, interp).1;
    MaxNormalizePositive(profile);
  }

  /** Normalisation keeps exactly the positive bins positive. */
  lemma MaxNormalizePositive(x: seq<real>)
    requires |x| > 0
    ensures forall i :: 0 <= i < |x| ==> (MaxNormalize(x)[i] > 0.0 <==> x[i] > 0.0)
  {
    var c := seq(|x|, i requires 0 <= i < |x| => ClipDb(x[i]));
    var d := NormEpsilon + SeqMax(c);
    assert d > 0.0 by { assert c[0] >= 0.0; }
    forall i | 0 <= i < |x|
      ensures MaxNormalize(x)[i] > 0.0 <==> x[i] > 0.0
    {
      assert MaxNormalize(x)[i] == c[i] / d;
      QuotientPositive(c[i], d);
    }
  }

  lemma QuotientPositive(a: real, d: real)
    requires 0.0 <= a && d > 0.0
    ensures a / d > 0.0 <==> a > 0.0
  {
  }
}
