/**
 * The detector object.  It holds a model slot and an `isTrained` flag: while
 * the flag is false, predictions come from the heuristic scorer; once a model
 * is loaded or trained, the flag turns true for good and predictions come
 * from the model.  The logistic regression itself is abstract: fitting is a
 * function that may fail, and classifying is a function from coefficients and
 * features to a label and class probabilities.  Model files are a map from
 * path to stored estimator.
 */
module Classifier {
  import opened Base
  import opened FeatureExtractor
  import opened HeuristicScorer

  /** Coefficients of a fitted logistic regression. */
  type Params = seq<real>

  /** The estimator in the model slot: created, and fitted only if `fit` succeeded. */
  datatype Estimator = Unfitted | Fitted(params: Params)

  /** `predict` and `predict_proba` of the model on one feature vector. */
  datatype ModelOutput = ModelOutput(predicted: int, probHuman: real, probAi: real)

  /** `predict` on an estimator whose `fit` raised. */
  datatype PredictError = NotFitted

  datatype TrainOutcome = ExtractionFailed | StackFailed | FitFailed | Trained

  /**
   * The verdict of the trained path: AI when the predicted class is 1, the
   * probabilities scaled to percent, the confidence the larger probability.
   */
  function ModelVerdict(o: ModelOutput): (v: Verdict)
    ensures v.isAiGenerated <==> o.predicted == 1
    ensures v.aiProbability == o.probAi * 100.0 && v.humanProbability == o.probHuman * 100.0
    ensures v.confidence >= o.probHuman && v.confidence >= o.probAi
    ensures v.confidence == o.probHuman || v.confidence == o.probAi
  {
    Verdict(o.predicted == 1, MaxReal(o.probHuman, o.probAi), o.probAi * 100.0, o.probHuman * 100.0)
  }

  /**
   * For a genuine two-class probability vector, the two percentages add to
   * 100 and the confidence lies in [0.5, 1].
   */
  lemma ModelVerdictComplement(o: ModelOutput)
    requires 0.0 <= o.probHuman && 0.0 <= o.probAi && o.probHuman + o.probAi == 1.0
    ensures ModelVerdict(o).aiProbability + ModelVerdict(o).humanProbability == 100.0
    ensures 0.5 <= ModelVerdict(o).confidence <= 1.0
  {
  }

  /** Class labels of the training set: 0 for every real song, then 1 for every synthetic one. */
  function Labels(nReal: nat, nSynth: nat): (y: seq<real>)
    ensures |y| == nReal + nSynth
    ensures forall i :: 0 <= i < nReal ==> y[i] == 0.0
    ensures forall i :: nReal <= i < |y| ==> y[i] == 1.0
  {
    seq(nReal, _ => 0.0) + seq(nSynth, _ => 1.0)
  }

  /** Every extraction produced a feature vector. */
  predicate AllExtracted(xs: seq<Option<seq<real>>>) {
    forall i :: 0 <= i < |xs| ==> xs[i].Some?
  }

  /** The extracted feature vectors. */
  function Values(xs: seq<Option<seq<real>>>): (v: seq<seq<real>>)
    requires AllExtracted(xs)
    ensures |v| == |xs|
    ensures forall i :: 0 <= i < |xs| ==> v[i] == xs[i].value
  {
    seq(|xs|, i requires 0 <= i < |xs| => xs[i].value)
  }

  /**
   * `np.stack` of each class and their concatenation succeed: both classes are
   * non-empty and every vector has the width of the first.
   */
  predicate Stackable(realSongs: seq<seq<real>>, synthSongs: seq<seq<real>>) {
    && |realSongs| > 0 && |synthSongs| > 0
    && (forall i :: 0 <= i < |realSongs| ==> |realSongs[i]| == |realSongs[0]|)
    && (forall i :: 0 <= i < |synthSongs| ==> |synthSongs[i]| == |realSongs[0]|)
  }

  class AIDetector {
    var model: Option<Estimator>
    var isTrained: bool

    /** Only a loaded or trained detector is in trained mode, and it then holds a model. */
    predicate Valid()
      reads this
    {
      isTrained ==> model.Some?
    }

    /**
     * A detector starts untrained with no model, unless it is given a
     * non-empty path to an existing model file, which it loads.
     */
    constructor (modelPath: Option<string>, store: map<string, Estimator>)
      ensures Valid()
      ensures isTrained <==> modelPath.Some? && modelPath.value != "" && modelPath.value in store
      ensures isTrained ==> model == Some(store[modelPath.value])
      ensures !isTrained ==> model == None
    {
      model := None;
      isTrained := false;
      new;
      if modelPath.Some? && modelPath.value != "" && modelPath.value in store {
        var _ := LoadModel(modelPath.value, store);
        isTrained := true;
      }
    }

    /**
     * Reads a model file: a missing file raises before anything changes;
     * otherwise the stored estimator goes into the slot and the detector is
     * in trained mode.
     */
    method LoadModel(path: string, store: map<string, Estimator>) returns (loaded: bool)
      modifies this
      ensures loaded <==> path in store
      ensures loaded ==> model == Some(store[path]) && isTrained
      ensures !loaded ==> model == old(model) && isTrained == old(isTrained)
      ensures old(Valid()) ==> Valid()
    {
      if path !in store {
        return false;
      }
      model := Some(store[path]);
      isTrained := true;
      return true;
    }

    /** Writes the model to a file; with an empty slot it raises. */
    method SaveModel(path: string, store: map<string, Estimator>) returns (r: Result<map<string, Estimator>, string>)
      ensures model.None? <==> r.Err?
      ensures r.Ok? ==> r.value == store[path := model.value]
      ensures r.Ok? ==> path in r.value && r.value[path] == model.value
    {
      if model.None? {
        return Err("No hay modelo para guardar");
      }
      return Ok(store[path := model.value]);
    }

    /**
     * Trains on the features extracted from the real and synthetic songs (one
     * entry per file, `None` where extraction raised).  A failed extraction or
     * an unstackable set raises with nothing changed; otherwise a fresh
     * estimator takes the slot and is fitted on the real vectors labelled 0
     * followed by the synthetic ones labelled 1; only a successful fit turns
     * trained mode on.
     */
    method Train(realFeatures: seq<Option<seq<real>>>, synthFeatures: seq<Option<seq<real>>>,
                 fit: (seq<seq<real>>, seq<real>) -> Option<Params>)
      returns (outcome: TrainOutcome)
      modifies this
      ensures outcome == ExtractionFailed <==> !AllExtracted(realFeatures) || !AllExtracted(synthFeatures)
      ensures outcome == StackFailed <==>
        AllExtracted(realFeatures) && AllExtracted(synthFeatures)
        && !Stackable(Values(realFeatures), Values(synthFeatures))
      ensures (outcome == ExtractionFailed || outcome == StackFailed) ==>
        model == old(model) && isTrained == old(isTrained)
      ensures (outcome == FitFailed || outcome == Trained) ==>
        var xs := Values(realFeatures) + Values(synthFeatures);
        var ys := Labels(|realFeatures|, |synthFeatures|);
        && (outcome == Trained <==> fit(xs, ys).Some?)
        && (outcome == Trained ==> model == Some(Fitted(fit(xs, ys).value)) && isTrained)
        && (outcome == FitFailed ==> model == Some(Unfitted) && isTrained == old(isTrained))
      ensures old(isTrained) ==> isTrained
      ensures old(Valid()) ==> Valid()
    {
      if !AllExtracted(realFeatures) || !AllExtracted(synthFeatures) {
        return ExtractionFailed;
      }
      var realSongs := Values(realFeatures);
      var synthSongs := Values(synthFeatures);
      if !Stackable(realSongs, synthSongs) {
        return StackFailed;
      }
      var xs := realSongs + synthSongs;
      var ys := Labels(|realSongs|, |synthSongs|);
      model := Some(Unfitted);
      var fitted := fit(xs, ys);
      if fitted.None? {
        return FitFailed;
      }
      model := Some(Fitted(fitted.value));
      isTrained := true;
      return Trained;
    }

    /**
     * The additions of the heuristic: the seven buckets, then the kurtosis
     * bonus, the high-frequency adjustment, the combined bonus and the
     * abundance bonus, each recorded where the details report it.
     */
    method AccumulateScore(f: Features)
      returns (score: real, kurtosisBonus: real, hfAdjustment: real, combined: bool, combinedBonus: real)
      ensures score == RawScore(f)
      ensures kurtosisBonus == KurtosisBonus(f.kurtosis)
      ensures hfAdjustment == HfAdjustment(f.highFreqEnergy, kurtosisBonus, f.regularity)
      ensures combined == CombinedIndicator(f.kurtosis, f.highFreqEnergy, f.regularity)
      ensures combinedBonus == CombinedBonus(f.kurtosis, f.highFreqEnergy, f.regularity)
    {
      score := 0.0;
      score := score + PeakCountPoints(f.peakCountMedium, f.regularity);
      score := score + HighPeakPoints(f.peakCountHigh);
      score := score + MeanPoints(f.mean);
      score := score + MaxPoints(f.max);
      score := score + P90Points(f.p90);
      score := score + PeriodicityPoints(f.periodicity);
      score := score + RegularityPoints(f.regularity);

      kurtosisBonus := KurtosisBonus(f.kurtosis);
      score := score + kurtosisBonus;
      hfAdjustment := HfAdjustment(f.highFreqEnergy, kurtosisBonus, f.regularity);
      score := score + hfAdjustment;

      combined := false;
      combinedBonus := 0.0;
      if 5.0 < f.kurtosis < 10.0 && f.highFreqEnergy < HfLow && f.regularity > 0.3 {
        combined := true;
        combinedBonus := 15.0;
        score := score + combinedBonus;
      }
      if f.peakCountMedium > 50 && f.regularity > 0.6 {
        score := score + 5.0;
      }
    }

    /**
     * The heuristic prediction, accumulating the score bucket by bucket and
     * adjustment by adjustment, then clipping it and deriving the verdict.
     */
    method ComputeHeuristicPrediction(fp: seq<real>, m: Measured, extra: map<string, real>)
      returns (p: Prediction)
      requires MeasuredFor(fp, m)
      ensures p == HeuristicPrediction(fp, m, extra)
    {
      var f := ExtractFeatures(fp, m, extra);
      var score, kurtosisBonus, hfAdjustment, combined, combinedBonus := AccumulateScore(f);
      score := MaxReal(0.0, MinReal(score, 100.0));

      var ai := ClipScore(score);
      var verdict := Verdict(ai > 50.0, Abs(ai - 50.0) / 50.0, ai, 100.0 - ai);
      var details := Details(
        f.peakCountHigh, f.peakCountMedium, f.peakCountLow,
        f.peakDensityHigh, f.peakDensityMedium, f.peakDensityLow,
        f.regularity, f.spacingStd, f.spacingCv,
        f.mean, f.max, f.std, f.kurtosis,
        f.periodicity, f.highFreqEnergy, f.highFreqRatio,
        kurtosisBonus, hfAdjustment, combined, combinedBonus,
        score);
      assert details == DetailsOf(f, score);
      assert verdict == VerdictOf(score);
      p := Prediction(verdict, Some(details));
    }

    /**
     * Predicts one song.  Untrained: the heuristic on its fakeprint.  Trained:
     * the model on its feature vector, which raises when the slot holds an
     * estimator whose fit failed.  Both paths compute the fakeprint of the same
     * audio file: `fp` and `features` are that one fakeprint, passed twice so
     * that each path names the input it reads.
     */
    method Predict(fp: seq<real>, m: Measured, extra: map<string, real>, features: seq<real>,
                   classify: (Params, seq<real>) -> ModelOutput)
      returns (r: Result<Prediction, PredictError>)
      requires Valid()
      requires !isTrained ==> MeasuredFor(fp, m)
      ensures !isTrained ==> r == Ok(HeuristicPrediction(fp, m, extra))
      ensures isTrained && model.value.Fitted? ==>
        r == Ok(Prediction(ModelVerdict(classify(model.value.params, features)), None))
      ensures isTrained && model.value.Unfitted? ==> r == Err(NotFitted)
      ensures r.Ok? ==> (r.value.details.Some? <==> !isTrained)
    {
      if !isTrained {
        var p := ComputeHeuristicPrediction(fp, m, extra);
        return Ok(p);
      }
      match model
      case None =>
        assert false;
      case Some(Unfitted) =>
        return Err(NotFitted);
      case Some(Fitted(params)) =>
        var out := classify(params, features);
        return Ok(Prediction(ModelVerdict(out), None));
    }
  }

  // ------------------------------------------------------------ quality

  datatype Quality = Low | Medium | High | Lossless

  /** Bitrate in kbit/s from the file size in bytes and the duration in seconds; 0 for no duration. */
  function BitrateKbps(fileSize: nat, duration: real): (b: real)
    ensures b >= 0.0
    ensures duration <= 0.0 ==> b == 0.0
  {
    if duration > 0.0 then (fileSize * 8) as real / (duration * 1000.0) else 0.0
  }

  /** The quality bucket: 320 kbit/s and up is lossless, 192 high, 128 medium, below that low. */
  function QualityOf(bitrateKbps: real): (q: Quality)
    ensures q == Lossless <==> bitrateKbps >= 320.0
    ensures q == High <==> 192.0 <= bitrateKbps < 320.0
    ensures q == Medium <==> 128.0 <= bitrateKbps < 192.0
    ensures q == Low <==> bitrateKbps < 128.0
  {
    if bitrateKbps >= 320.0 then Lossless
    else if bitrateKbps >= 192.0 then High
    else if bitrateKbps >= 128.0 then Medium
    else Low
  }

  function Rank(q: Quality): nat {
    match q
    case Low => 0
    case Medium => 1
    case High => 2
    case Lossless => 3
  }

  /** A higher bitrate never gives a lower quality. */
  lemma QualityMonotone(b1: real, b2: real)
    requires b1 <= b2
    ensures Rank(QualityOf(b1)) <= Rank(QualityOf(b2))
  {
  }

  /** A song of no measurable duration is rated low quality. */
  lemma ZeroDurationIsLow(fileSize: nat, duration: real)
    requires duration <= 0.0
    ensures QualityOf(BitrateKbps(fileSize, duration)) == Low
  {
  }
}
