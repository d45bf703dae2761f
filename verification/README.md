# AI song detector: a verified model of the fakeprint-to-verdict core

The detector takes an audio file and decides whether it is AI-generated. It
works in four stages:

1. It averages a high-resolution spectrogram over time.
2. It cuts the 5–16 kHz band out of that average.
3. It subtracts a noise floor, interpolated through a sliding-window lower
   hull of the curve.
4. It normalises the residual into the *fakeprint*.

An untrained detector scores the fakeprint with a hand-tuned rule set: peak
counts at three thresholds, the regularity of the peak spacing, distribution
statistics, autocorrelation periodicity, high-frequency energy, and a few
adjustments. It clips the score to [0, 100] and calls AI above 50. A trained
detector asks a logistic regression instead. A small web service validates
uploads and runs batches. A training script trains on a split corpus and
reports confusion counts and rates.

This project models that core in Dafny and proves its properties. It has one
module per source file, plus a shared `Base` module:

| file | module | models |
|---|---|---|
| `base.dfy` | `Base` | `Option`/`Result`, `np.where`, sums, max/min, last occurrence in a text |
| `audio_analyzer.dfy` | `AudioAnalyzer` | lower hull (imperative), band selection, floor clip, residual, max-normalisation, fakeprint composition |
| `feature_extractor.dfy` | `FeatureExtractor` | the descriptors the scorer reads off the fakeprint |
| `heuristic_scorer.dfy` | `HeuristicScorer` | the score buckets, adjustments, clip and verdict |
| `classifier.dfy` | `Classifier` | class `AIDetector` (model slot, `isTrained` flag, train/load/save/predict, the step-by-step score accumulation), quality buckets |
| `app.dfy` | `App` | allowed extensions, `allowed_file`, single-upload validation, the batch loop |
| `training.dfy` | `Training` | the minimum-corpus check, the evaluation loops, confusion counts, rates |

Numbers are exact `real`s. Foreign numerics enter as inputs:

- A standard deviation is a given `s` with `s >= 0 && s * s == variance`.
- The two percentiles are given values between the minimum and the maximum.
- The quadratic interpolation is a function parameter.
- The spectrogram is given in dB.
- The logistic regression is a `fit` function that may fail and a
  `classify` function.
- Model files are a map from path to estimator.

The kurtosis needs no square root. Its denominator `std**4` equals the
variance squared, and `KurtosisFromStd` proves that.

Where the source's own comments and its code disagree, the model follows the
code:

- The comments at classifier.py:355 and classifier.py:360 give the
  regularity score a range of 0.8 to 1.0 for cv below 0.3. The code at
  classifier.py:360 reaches 0.8 + 0.3·0.67 = 1.001 at cv = 0.
- The docstring at audio_analyzer.py:149 says the normalised signal lies in
  [0, 1]. The code at audio_analyzer.py:151-152 divides by `1e-6 + max`, so the
  largest value is `m / (m + 1e-6)`: strictly below 1 and never exactly 1
  (`MaxNormalizePeak`).
- The comment at classifier.py:344-345 speaks of a variance. The value stored
  as `peak_spacing_variance` (classifier.py:346, reported at classifier.py:663)
  is `np.std`, a standard deviation.

Other facts about the code that the model keeps:

- A band of fewer than 10 bins leaves the loop of `lower_hull` without
  iterations, and `idx[0]` (audio_analyzer.py:95) then raises. The model
  requires at least 10 band bins.
- When the mean peak spacing is 0, the code sets the regularity score to 0.5
  (classifier.py:370-371). That branch is unreachable
  (`RegularityFallbackUnreachable`).
- `train` sets `is_trained` (classifier.py:57), so trained mode is reached by
  training as well as by loading.
- `train` puts a fresh estimator in the slot before fitting
  (classifier.py:55-56). When `fit` raises, the slot keeps an unfitted
  estimator and `is_trained` keeps its value. If it was already true, later
  predictions raise (`Predict` returns `Err(NotFitted)`).
- The high-frequency rule adds 3 points when no high-frequency energy is
  reported and no other signal is strong (classifier.py:544-550). An all-zero
  fakeprint therefore scores 3 (`SilenceIsHuman`).
- The evaluation in train_model.py prints `classification_report` with two
  target names (train_model.py:190-195), which raises when the true and
  predicted labels together hold fewer than two classes. The model is then not
  saved. With both classes present the confusion matrix is two by two, so
  the rates of train_model.py:204-219 are always computed.

## Model

| member | source | states |
|---|---|---|
| Base.Where | classifier.py:317-319 | `np.where` indices: in range, each satisfying the condition |
| Base.WhereIncreasing | classifier.py:317-319 | `np.where` indices are strictly increasing |
| Base.WhereComplete | audio_analyzer.py:118 | every index whose element satisfies the condition is returned |
| Base.SeqMax | classifier.py:378 | `np.max` is an upper bound attained by some element |
| Base.SeqMin | classifier.py:382-383 | the minimum, bounding the percentiles from below |
| AudioAnalyzer.ArgMin | audio_analyzer.py:87 | `np.argmin` returns the first position of the minimum |
| AudioAnalyzer.WindowMin | audio_analyzer.py:86-88 | the absolute index `argmin(patch) + i` lies inside window `x[w:w+area]` |
| AudioAnalyzer.WindowMinIsFirstMinimum | audio_analyzer.py:86-88 | no value in the window is below the one at that index, and none before it is as small |
| AudioAnalyzer.WindowMinMonotone | audio_analyzer.py:85-88 | first minima of consecutive windows never move left |
| AudioAnalyzer.Collected | audio_analyzer.py:85-93 | the de-duplicated loop indices are in range, no more than the windows visited, and end with the last window's minimum, which is the largest |
| AudioAnalyzer.CollectedIncreasing | audio_analyzer.py:85-93 | the collected indices strictly increase: a minimum already seen is never appended again |
| AudioAnalyzer.AppendNewIncreasing | audio_analyzer.py:90-91 | the `not in` guard keeps a strictly increasing list strictly increasing when the new index is at least the last |
| AudioAnalyzer.CollectedComplete | audio_analyzer.py:85-93 | every window's first minimum is collected |
| AudioAnalyzer.CollectedSound | audio_analyzer.py:85-93 | every collected index is some window's first minimum |
| AudioAnalyzer.Anchor | audio_analyzer.py:95-100 | after inserting 0 and appending len−1 when missing, the indices run from 0 to len−1, all in range |
| AudioAnalyzer.AnchorIncreasing | audio_analyzer.py:95-100 | anchoring a strictly increasing index list keeps it strictly increasing |
| AudioAnalyzer.AnchorMembers | audio_analyzer.py:95-100 | anchoring adds exactly the two endpoints |
| AudioAnalyzer.HullIndices | audio_analyzer.py:70-102 | hull indices are non-empty, in range, start at 0 and end at len−1 |
| AudioAnalyzer.HullIndicesIncreasing | audio_analyzer.py:85-100 | hull indices are strictly increasing |
| AudioAnalyzer.HullIndicesMembers | audio_analyzer.py:85-100 | an index is in the hull iff it is an endpoint or some window's first minimum |
| AudioAnalyzer.LowerHull | audio_analyzer.py:70-102 | the loop and anchoring compute `HullIndices`, with `hull[k] == x[idx[k]]` for loop-found and inserted points |
| AudioAnalyzer.CollectMinima | audio_analyzer.py:82-93 | the loop computes `Collected` over every window and keeps `hull[k] == x[idx[k]]` |
| AudioAnalyzer.ScanWindow | audio_analyzer.py:86-93 | one iteration takes the window's first minimum and records it with its value unless already present, extending the collected list exactly as `Collected` does by one window |
| AudioAnalyzer.AnchorEnds | audio_analyzer.py:95-100 | the in-place insert/append computes `Anchor` and keeps `hull[k] == x[idx[k]]` |
| AudioAnalyzer.MaxNormalize | audio_analyzer.py:140-152 | every element in [0,1), all zeros for all-nonpositive input, order between elements preserved |
| AudioAnalyzer.MaxNormalizePeak | audio_analyzer.py:151-152 | the largest element is `m/(1e-6+m)` and is strictly below 1 |
| AudioAnalyzer.Gather | audio_analyzer.py:119-120 | fancy indexing `x[idx]`: one value per index, the element at that index (also the hull values beside the hull indices) |
| AudioAnalyzer.TwelveBinsFit | audio_analyzer.py:82-128 | a band of 12 or more bins always yields at least three hull knots: the second window's minimum lies strictly between the two ends |
| AudioAnalyzer.TenBinsMayNotFit | audio_analyzer.py:82-128 | a 10-bin band whose first bin is its unique minimum has hull `[0, 9]` only, so the interpolation raises |
| AudioAnalyzer.NoiseFloor | audio_analyzer.py:123-133 | over a hull with at least three knots, one floor value per band bin, none below −45 dB |
| AudioAnalyzer.NoiseFloorClipsInterpolation | audio_analyzer.py:126-133 | each floor value is the interpolation through the hull knots, raised to −45 dB where it falls below and unchanged otherwise |
| AudioAnalyzer.CurveProfile | audio_analyzer.py:104-138 | the band frequencies `freqs[band]`, and the profile equal to the residual of `curve[band]` above the noise floor of the band; each frequency lies strictly inside (5000, 16000) and each residual between 0 and the curve's height above −45 dB |
| AudioAnalyzer.BandInRange | audio_analyzer.py:118 | every band position is a bin of the spectrum whose frequency lies strictly inside (5000, 16000) |
| AudioAnalyzer.ProfileOfBand | audio_analyzer.py:119-138 | for given band positions: the frequencies there, and the residual of the curve there above the noise floor of those samples, between 0 and the curve's height above −45 dB |
| AudioAnalyzer.ResidualWithinHeadroom | audio_analyzer.py:133-136 | over a floor at or above −45 dB, each residual lies between 0 and the curve's height above −45 dB |
| AudioAnalyzer.Residual | audio_analyzer.py:136 | `max(0, curve − floor)`: non-negative, positive iff the curve is above the floor |
| AudioAnalyzer.Linspace | audio_analyzer.py:173 | starts at 0, ends at sr/2, strictly increasing |
| AudioAnalyzer.MeanOverTime | audio_analyzer.py:170 | each bin is the time average of its row |
| AudioAnalyzer.ComputeFakeprint | audio_analyzer.py:154-183 | the fakeprint is the max-normalised band profile of the time-averaged spectrogram laid on 0 .. sr/2: one value in [0,1) per band bin, at least 10 of them |
| AudioAnalyzer.FakeprintAboveFloor | audio_analyzer.py:165-177 | a fakeprint bin is non-zero exactly when the time-averaged curve at that band bin lies above the noise floor |
| AudioAnalyzer.MaxNormalizePositive | audio_analyzer.py:151-152 | normalisation keeps exactly the positive bins positive |
| FeatureExtractor.PeaksNested | classifier.py:317-323 | peaks above a higher threshold are among those above a lower one, so high ≤ medium ≤ low |
| FeatureExtractor.NoPeaksAtOrBelow | classifier.py:317-319 | a fakeprint nowhere above a threshold has no peaks there |
| FeatureExtractor.Density | classifier.py:326-328 | peak densities lie in [0,1] |
| FeatureExtractor.Spacings | classifier.py:342 | `np.diff` of the peak positions |
| FeatureExtractor.Variance | classifier.py:346 | the population variance is non-negative |
| FeatureExtractor.RegularityScore | classifier.py:358-369 | for cv ≥ 0 the score lies in [0, 0.8+0.3·0.67] |
| FeatureExtractor.RegularityScoreNonIncreasing | classifier.py:358-369 | higher cv never gives a higher score |
| FeatureExtractor.RegularityScoreLipschitz | classifier.py:358-369 | the schedule has no jumps (slope at most 1.5), so the pieces agree at 0.3, 0.5 and 0.7 |
| FeatureExtractor.RegularityScoreBreakpoints | classifier.py:358-369 | values 1.001, 0.8, 0.5, 0.3 and 0 at cv = 0, 0.3, 0.5, 0.7, 1.3 |
| FeatureExtractor.SpacingRegularity | classifier.py:336-371 | with ≤3 medium peaks, score, spacing std and cv are all 0; otherwise the score is in range |
| FeatureExtractor.MeanSpacingAtLeastOne | classifier.py:342-349 | strictly increasing positions have mean spacing ≥ 1 |
| FeatureExtractor.RegularityFallbackUnreachable | classifier.py:340-371 | with more than three medium peaks the 0.5 fallback never fires and the score is the schedule at cv |
| FeatureExtractor.Kurtosis | classifier.py:387-390 | the kurtosis statistic is non-negative |
| FeatureExtractor.KurtosisFromStd | classifier.py:388 | with the measured std, the model's variance-squared form equals `mean((x−μ)^4)/(std^4+1e-10)` |
| FeatureExtractor.LagProduct | classifier.py:410-413 | the lag-0 autocorrelation is non-negative |
| FeatureExtractor.MaxLag | classifier.py:418-419 | the largest normalised autocorrelation over a lag range, attained at some lag |
| FeatureExtractor.Periodicity | classifier.py:407-419 | 0 for ≤10 bins; otherwise the maximum autocorrelation over lags 2..min(50,n)−1 |
| FeatureExtractor.FlatHasNoPeriodicity | classifier.py:407-419 | a constant fakeprint has periodicity 0 |
| FeatureExtractor.MeanBetweenMinAndMax | classifier.py:377-378 | the fakeprint mean lies between its minimum and maximum |
| FeatureExtractor.ExtractFeatures | classifier.py:317-400 | nested counts ≤ length, ordered densities in [0,1], regularity range, mean ≤ max, p90 within range, kurtosis ≥ 0, missing HF energy defaults to 0 |
| FeatureExtractor.SilentFeatures | classifier.py:317-400 | silence: no peaks, and zero mean, max, p90, periodicity, kurtosis and HF energy |
| HeuristicScorer.PeakCountPoints | classifier.py:432-447 | for non-negative regularity, in [0, 20·(1+regularity)] in all three branches; exactly 20·(1+regularity) for 50..150 medium peaks |
| HeuristicScorer.HighPeakPoints | classifier.py:451-459 | in [0,15], at least 5 above 30 peaks, exactly 15 iff 5..30 peaks |
| HeuristicScorer.MeanPoints | classifier.py:463-473 | at most 15, non-negative for a non-negative mean, 15 iff the mean is in [0.06,0.10] |
| HeuristicScorer.MaxPoints | classifier.py:477-482 | at most 8, non-negative for a non-negative max, 8 iff max > 0.8 |
| HeuristicScorer.P90Points | classifier.py:486-496 | at most 10, non-negative for a non-negative p90, 10 iff p90 in [0.12,0.22] |
| HeuristicScorer.PeriodicityPoints | classifier.py:501-510 | at most 12, non-negative for a non-negative score, 12 iff periodicity > 0.5 |
| HeuristicScorer.PeriodicityPointsMonotone | classifier.py:501-510 | stronger periodicity never earns fewer points |
| HeuristicScorer.RegularityPoints | classifier.py:514-515 | regularity points lie in [0, 20·1.001] |
| HeuristicScorer.KurtosisBonus | classifier.py:524-535 | in [0,20], 0 for kurtosis ≤ 4, 20 iff kurtosis ≥ 15 |
| HeuristicScorer.KurtosisBonusMonotone | classifier.py:524-535 | non-decreasing in kurtosis |
| HeuristicScorer.KurtosisBonusLipschitz | classifier.py:524-535 | no jumps (slope at most 4): continuous at 6, 10, 15 |
| HeuristicScorer.KurtosisBonusBreakpoints | classifier.py:524-535 | 0, 8, 15, 20 at kurtosis 4, 6, 10, 15 |
| HeuristicScorer.HfAdjustment | classifier.py:543-557 | one of {10,3,2,−3,0}: 10 iff energy < 1e-7 with kurtosis bonus > 10 or regularity > 0.5, 3 iff energy < 1e-7 otherwise, 2 iff in [1e-7,1e-5), −3 iff in [1e-5,5e-5), 0 iff ≥ 5e-5 |
| HeuristicScorer.CombinedBonus | classifier.py:563-573 | 15 exactly when the combined indicator holds, otherwise 0 |
| HeuristicScorer.AbundanceBonus | classifier.py:576-577 | 5 exactly when medium peaks > 50 and regularity > 0.6, otherwise 0 |
| HeuristicScorer.ScoreIgnoresRecordedFields | classifier.py:396-577 | the HF ratio, densities, weak-peak count, std, p75, spacing std and cv never affect the score |
| HeuristicScorer.ClipScore | classifier.py:580 | the clipped score lies in [0,100] and equals an in-range score |
| HeuristicScorer.VerdictOf | classifier.py:641-651 | AI iff probability > 50, confidence = \|p−50\|/50 in [0,1], probabilities sum to 100 |
| HeuristicScorer.DetailsOf | classifier.py:652-687 | details record the score and HF ratio; combined flag iff indicator, bonus 15 iff flagged |
| HeuristicScorer.HeuristicPrediction | classifier.py:300-688 | the reported score is the rule-set score `RawScore` of the extracted features clipped to [0,100], and the verdict is derived from it: AI probability equal to the score, AI iff > 50, probabilities sum to 100, confidence in [0,1]; the peak counts are nested |
| HeuristicScorer.SilenceIsHuman | classifier.py:300-688 | an all-zero fakeprint without HF energy scores exactly 3 and is called human |
| HeuristicScorer.QuietScore | classifier.py:428-580 | features with no peaks, zero statistics and zero HF energy score 3 |
| HeuristicScorer.ScoreDropsAcrossKurtosisTen | classifier.py:524-573 | the score is not monotone in kurtosis: from 9.5 to 10.5 it drops by 13.625 |
| Classifier.ModelVerdict | classifier.py:98-110 | AI iff predicted class 1, probabilities ×100, confidence the larger probability |
| Classifier.ModelVerdictComplement | classifier.py:101-110 | for a probability pair, percentages sum to 100 and confidence lies in [0.5,1] |
| Classifier.Labels | classifier.py:51 | labels are 0 for real songs then 1 for synthetic ones |
| Classifier.Values | classifier.py:41-48 | the extracted feature vectors, in order |
| Classifier.AIDetector.constructor | classifier.py:17-30 | starts untrained with no model unless given a non-empty existing path, which is loaded |
| Classifier.AIDetector.LoadModel | classifier.py:704-714 | missing file changes nothing; otherwise the stored model is loaded and trained mode is on |
| Classifier.AIDetector.SaveModel | classifier.py:690-702 | fails iff the slot is empty; otherwise writes the model under the path |
| Classifier.AIDetector.Train | classifier.py:32-58 | extraction or stacking failure changes nothing; a fresh estimator is fitted on real (0) then synthetic (1) vectors; only a successful fit turns trained mode on; trained mode is never reset |
| Classifier.AIDetector.AccumulateScore | classifier.py:428-578 | the step-by-step `score +=` accumulation equals `RawScore`, with the kurtosis bonus, high-frequency adjustment and combined indicator recorded as the details report them |
| Classifier.AIDetector.ComputeHeuristicPrediction | classifier.py:300-688 | the accumulation, the clip and the result equal `HeuristicPrediction` |
| Classifier.AIDetector.Predict | classifier.py:60-115 | the heuristic path is taken exactly when untrained; trained mode uses the model, and an unfitted model raises |
| Classifier.BitrateKbps | classifier.py:150 | bitrate is non-negative and 0 without duration |
| Classifier.QualityOf | classifier.py:152-159 | Lossless ≥ 320, High ≥ 192, Medium ≥ 128, else Low |
| Classifier.QualityMonotone | classifier.py:152-159 | a higher bitrate never gives a lower quality |
| Classifier.ZeroDurationIsLow | classifier.py:150-159 | zero duration is rated Low |
| App.Split | app.py:32 | `str.split(',')` gives at least one piece, none containing the separator |
| App.JoinSplit | app.py:32 | joining the split pieces restores the configured text |
| App.SplitJoin | app.py:32 | separator-free pieces are recovered by split after join |
| App.AllowedExtensions | app.py:32 | every allowed extension is comma-free; when the configured text (or the default) is comma-separated pieces joined with commas, the set is exactly those pieces, untrimmed and in their own case |
| App.JoinDeterminesSplit | app.py:32 | a text joining separator-free pieces splits back into exactly those pieces |
| App.DefaultExtensionsText | app.py:32 | the default setting is the text `mp3,wav,ogg,m4a,flac,aac` |
| App.DefaultAllowedExtensions | app.py:32 | the default set is exactly mp3, wav, ogg, m4a, flac, aac |
| App.Lower | app.py:52 | lowercasing keeps the length and lowercases each character; no uppercase ASCII letter remains |
| Base.LastIndexOf | app.py:52 | the last occurrence, −1 iff absent |
| App.Extension | app.py:52 | `rsplit('.', 1)[1]` is the dot-free text after some dot |
| App.NoDotNotAllowed | app.py:52 | a name without a dot is rejected |
| App.ExtensionAfterLastDot | app.py:52 | the extension of `stem.ext` is `ext` whatever the stem holds |
| App.LastExtensionDecides | app.py:52 | only the lowercased text after the last dot decides |
| App.LastExtensionAnyCase | app.py:52 | `a.tar.MP3` is accepted with the default set |
| App.UppercaseEntryNeverMatches | app.py:32-52 | a configured entry with an uppercase letter never matches |
| App.AnalyzeAudio | app.py:65-130 | missing field, empty name, bad extension answer 400 in that order, before anything is saved; otherwise saved under the safe name and predicted (200 or 500) |
| App.KeptFiles | app.py:152-154 | the analysed files all pass the checks |
| App.KeptFilesAppend | app.py:150-154 | the analysed files of a concatenation are those of each part, in order: with `KeptFilesSingle`, the analysed files are the input files that pass, in input order and with their repeats |
| App.KeptFilesSingle | app.py:152-154 | a single file is analysed exactly when it passes the checks |
| App.KeptFilesComplete | app.py:152-154 | every file that passes the checks is analysed |
| App.KeptFilesAll | app.py:152-154 | with nothing skipped, every file is analysed in order |
| App.EntryFor | app.py:156-171 | an entry is a success iff the prediction succeeds, under the safe name |
| App.BatchResults | app.py:150-171 | one entry per kept file, in input order |
| App.BatchOneEntryPerFile | app.py:150-171 | with nothing skipped, entry i is file i's own outcome, a failure isolated |
| App.BatchAnalyze | app.py:133-181 | empty list answers 400; otherwise the loop builds `BatchResults` and total equals the entry count |
| Training.PredictedClass | train_model.py:157 | predicted class 1 iff `is_ai_generated` |
| Training.Rows | train_model.py:153-174 | one row per successful prediction, labelled with its class, prediction in {0,1} |
| Training.RowsAllSucceed | train_model.py:153-161 | without failures there is one row per file |
| Training.EvaluateFiles | train_model.py:153-161 | the loop appends exactly the rows of the successful predictions to all three lists |
| Training.ProjectionsAppend | train_model.py:146-174 | the lists of the combined rows are the concatenated lists |
| Training.RowsLabelledInOrder | train_model.py:153-174 | human rows (0) come before AI rows (1) |
| Training.CountPair | train_model.py:199 | confusion counts never exceed the number of rows |
| Training.ConfusionPartitions | train_model.py:199-207 | tn+fp+fn+tp equals the number of evaluated files |
| Training.Rate | train_model.py:210-219 | a zero-guarded rate lies in [0,1] and is 0 for an empty denominator |
| Training.RatesOf | train_model.py:210-219 | all four rates in [0,1], and 0 when their class is empty |
| Training.RatesComplement | train_model.py:210-219 | tpr + fnr = 1 and tnr + fpr = 1 over non-empty classes |
| Training.EvaluationOf | train_model.py:146-219 | the evaluation completes iff both classes occur among the true and predicted labels (the report raises otherwise); then the lists come from the rows, the confusion from the lists and the rates from the confusion |
| Training.OneClassRaises | train_model.py:190-195 | when every test row is an AI song predicted AI, the report raises and the evaluation does not complete |
| Training.BothTruthsComplete | train_model.py:190-219 | a human row and an AI row among the test rows make the evaluation complete |
| Training.Evaluate | train_model.py:146-219 | the two loops and the metrics compute `EvaluationOf` the human then AI rows, failing where the report raises |
| Training.ExtractAll | classifier.py:41-44 | one extraction per training file, in order |
| Training.FittedParams | train_model.py:116-138 | training yields coefficients only when it is fittable, and then exactly what `fit` returns on the real-then-AI training vectors and their 0/1 labels |
| Training.FittedParamsCases | train_model.py:116-138 | training succeeds iff both classes have at least 10 files, every training extraction succeeds, the vectors stack and `fit` succeeds |
| Training.TrainingSet | classifier.py:46-50 | one label per training vector, real songs then AI songs |
| Training.DirName | train_model.py:231 | POSIX `os.path.dirname`: a prefix of the path, empty exactly when the path holds no `/` |
| Training.TrainAndEvaluate | train_model.py:95-244 | succeeds iff training yields coefficients, the evaluation of the human then AI test rows under them completes, and the output path has a directory part (`os.makedirs('')` raises otherwise); the evaluation is reported iff training yields coefficients and the evaluation completes, including when the save then raises; on success it saves exactly the fitted coefficients under the output path; on failure nothing is saved |

## Left out

- librosa decoding, STFT and the dB conversion (audio_analyzer.py:33-68): the spectrogram enters `ComputeFakeprint` as a given matrix in dB.
- `extract_additional_features` (audio_analyzer.py:199-241): its dictionary enters as a given map; only `high_freq_energy` is read.
- scipy's quadratic extrapolating `interp1d`: it is the `Interpolator` parameter; only the clip of its output and the residual are modelled.
- `np.std` and `np.percentile`: the values are given inputs tied to the fakeprint by `MeasuredFor`.
- IEEE-754 rounding and `nan_to_num`: all arithmetic is on exact reals.
- `_extract_audio_metadata` apart from the quality bucket: BPM, key, danceability and energy come from librosa, and their merge into the result is not modelled.
- The logistic regression, pickle, `train_test_split`, accuracy and the classification report: the model is `fit`/`classify` parameters, the file store is a map, the split is a function parameter, confusion counts are computed directly, and of the classification report only its raising on fewer than two classes is modelled.
- Flask routing, CORS, dotenv, `secure_filename`, and the temporary file save and remove: the safe name is a function parameter, and saving is recorded as the name saved under.
- The health and info endpoints, the visualizer, `collect_audio_files` and all `print` logging: they are I/O with no effect on results.
- App.Lower: lowercases ASCII letters only, while Python's `str.lower` also folds non-ASCII letters.
- AudioAnalyzer.NoiseFloor: requires a hull of at least three knots, because the source's quadratic `interp1d` raises with fewer; this happens only for bands of 10 or 11 bins (`TwelveBinsFit`, `TenBinsMayNotFit`).
- AudioAnalyzer.CurveProfile: requires at least 10 band bins, because the source raises on shorter bands (an empty hull index list), and a hull of at least three knots, as `NoiseFloor` does.
- AudioAnalyzer.ProfileOfBand: the same two requirements as `CurveProfile`, for the same reasons.
- AudioAnalyzer.ComputeFakeprint: the same two requirements as `CurveProfile`, for the same reasons.
- Training.TrainAndEvaluate: `os.makedirs` on a non-empty directory is taken to succeed; file-system failures (permissions, a file in the way) are not modelled.
- FeatureExtractor.Periodicity: does not prove the autocorrelation lies in [−1, 1], because that needs Cauchy–Schwarz.
- FeatureExtractor.MeasuredFor: the percentile is constrained only to lie between the minimum and the maximum, with p75 ≤ p90; numpy's linear interpolation rule is not modelled.
- Classifier.AIDetector.constructor: a file that exists but cannot be unpickled would raise; the store holds loadable models only.
- Classifier.Stackable: approximates numpy's stacking rule by requiring non-empty classes and equal vector widths.
