/**
 * The training script's bookkeeping: the minimum corpus check, training a
 * fresh detector on the training split, the two evaluation loops over the
 * human and AI test files, the confusion counts and the zero-guarded rates.
 * The train/test split, feature extraction and the model are abstract
 * functions; the sklearn reports are left out.
 */
module Training {
  import opened Base
  import opened FeatureExtractor
  import opened HeuristicScorer
  import opened Classifier

  /** Files each class needs before anything is trained. */
  const MinFilesPerClass: nat := 10

  /** One evaluated test file: its true class, the predicted class and the AI probability. */
  datatype Row = Row(truth: int, predicted: int, probability: real)

  /** The verdict for a test file, or `None` when extracting its features raises. */
  function FileVerdict(file: string, params: Params, extract: string -> Option<seq<real>>,
                       classify: (Params, seq<real>) -> ModelOutput): Option<Verdict>
  {
    match extract(file)
    case Some(features) => Some(ModelVerdict(classify(params, features)))
    case None => None
  }

  /** Predicted class of a verdict: 1 for AI, 0 for human. */
  function PredictedClass(v: Verdict): (c: int)
    ensures c == 1 <==> v.isAiGenerated
    ensures c == 0 <==> !v.isAiGenerated
  {
    if v.isAiGenerated then 1 else 0
  }

  /** The rows a loop over `files` appends: one per file whose prediction succeeds, in order. */
  function Rows(files: seq<string>, truth: int, params: Params, extract: string -> Option<seq<real>>,
                classify: (Params, seq<real>) -> ModelOutput): (rows: seq<Row>)
    ensures |rows| <= |files|
    ensures forall k :: 0 <= k < |rows| ==> rows[k].truth == truth
    ensures forall k :: 0 <= k < |rows| ==> rows[k].predicted == 0 || rows[k].predicted == 1
  {
    if files == [] then []
    else
      var rows' := Rows(files[..|files| - 1], truth, params, extract, classify);
      match FileVerdict(files[|files| - 1], params, extract, classify)
      case Some(v) => rows' + [Row(truth, PredictedClass(v), v.aiProbability)]
      case None => rows'
  }

  /** When every prediction succeeds, there is one row per file. */
  lemma {:induction false} RowsAllSucceed(files: seq<string>, truth: int, params: Params,
                                          extract: string -> Option<seq<real>>,
                                          classify: (Params, seq<real>) -> ModelOutput)
    requires forall i :: 0 <= i < |files| ==> extract(files[i]).Some?
    ensures |Rows(files, truth, params, extract, classify)| == |files|
  {
    if files != [] {
      RowsAllSucceed(files[..|files| - 1], truth, params, extract, classify);
    }
  }

  function Truths(rows: seq<Row>): (t: seq<int>)
    ensures |t| == |rows| && forall k :: 0 <= k < |rows| ==> t[k] == rows[k].truth
  {
    seq(|rows|, k requires 0 <= k < |rows| => rows[k].truth)
  }

  function Predictions(rows: seq<Row>): (p: seq<int>)
    ensures |p| == |rows| && forall k :: 0 <= k < |rows| ==> p[k] == rows[k].predicted
  {
    seq(|rows|, k requires 0 <= k < |rows| => rows[k].predicted)
  }

  function Probabilities(rows: seq<Row>): (q: seq<real>)
    ensures |q| == |rows| && forall k :: 0 <= k < |rows| ==> q[k] == rows[k].probability
  {
    seq(|rows|, k requires 0 <= k < |rows| => rows[k].probability)
  }

  /**
   * One evaluation loop: predicts every file with the trained detector,
   * appending its true class, predicted class and AI probability when the
   * prediction succeeds and nothing when it raises.
   */
  method EvaluateFiles(detector: AIDetector, files: seq<string>, truth: int,
                       extract: string -> Option<seq<real>>, classify: (Params, seq<real>) -> ModelOutput,
                       yTrue0: seq<int>, yPred0: seq<int>, yProb0: seq<real>)
    returns (yTrue: seq<int>, yPred: seq<int>, yProb: seq<real>)
    requires detector.Valid() && detector.isTrained && detector.model.value.Fitted?
    ensures var rows := Rows(files, truth, detector.model.value.params, extract, classify);
      && yTrue == yTrue0 + Truths(rows)
      && yPred == yPred0 + Predictions(rows)
      && yProb == yProb0 + Probabilities(rows)
  {
    var params := detector.model.value.params;
    yTrue, yPred, yProb := yTrue0, yPred0, yProb0;
    var i := 0;
    while i < |files|
      invariant 0 <= i <= |files|
      invariant var rows := Rows(files[..i], truth, params, extract, classify);
        && yTrue == yTrue0 + Truths(rows)
        && yPred == yPred0 + Predictions(rows)
        && yProb == yProb0 + Probabilities(rows)
    {
      assert files[..i + 1][..i] == files[..i];
      var features := extract(files[i]);
      if features.Some? {
        // The fakeprint, its measured statistics and the extra features feed only the
        // heuristic path; once `isTrained` holds, `Predict` reads the feature vector
        // alone, so the empty placeholders below do not affect the verdict.
        var unused := Measured(0.0, 0.0, 0.0, 0.0);
        var r := detector.Predict([], unused, map[], features.value, classify);
        var v := r.value.verdict;
        ghost var rows := Rows(files[..i], truth, params, extract, classify);
        assert Truths(rows + [Row(truth, PredictedClass(v), v.aiProbability)]) == Truths(rows) + [truth];
        assert Predictions(rows + [Row(truth, PredictedClass(v), v.aiProbability)]) == Predictions(rows) + [PredictedClass(v)];
        assert Probabilities(rows + [Row(truth, PredictedClass(v), v.aiProbability)]) == Probabilities(rows) + [v.aiProbability];
        yTrue := yTrue + [truth];
        yPred := yPred + [PredictedClass(v)];
        yProb := yProb + [v.aiProbability];
      }
      i := i + 1;
    }
    assert files[..i] == files;
  }

  // ---------------------------------------------------------- metrics

  /** Number of positions where the true class is `t` and the predicted class `p`. */
  function CountPair(yTrue: seq<int>, yPred: seq<int>, t: int, p: int): (n: nat)
    requires |yTrue| == |yPred|
    ensures n <= |yTrue|
  {
    if yTrue == [] then 0
    else
      var last := |yTrue| - 1;
      CountPair(yTrue[..last], yPred[..last], t, p) + (if yTrue[last] == t && yPred[last] == p then 1 else 0)
  }

  datatype Confusion = Confusion(tn: nat, fp: nat, fn: nat, tp: nat)

  /** The two-by-two confusion counts. */
  function ConfusionOf(yTrue: seq<int>, yPred: seq<int>): Confusion
    requires |yTrue| == |yPred|
  {
    Confusion(CountPair(yTrue, yPred, 0, 0), CountPair(yTrue, yPred, 0, 1),
              CountPair(yTrue, yPred, 1, 0), CountPair(yTrue, yPred, 1, 1))
  }

  /** With binary classes, the four counts partition the evaluated files. */
  lemma {:induction false} ConfusionPartitions(yTrue: seq<int>, yPred: seq<int>)
    requires |yTrue| == |yPred|
    requires forall k :: 0 <= k < |yTrue| ==> (yTrue[k] == 0 || yTrue[k] == 1) && (yPred[k] == 0 || yPred[k] == 1)
    ensures var c := ConfusionOf(yTrue, yPred); c.tn + c.fp + c.fn + c.tp == |yTrue|
  {
    if yTrue != [] {
      var last := |yTrue| - 1;
      ConfusionPartitions(yTrue[..last], yPred[..last]);
    }
  }

  /**
   * The classification report names two classes; it raises unless the true
   * and predicted labels together hold both of them.
   */
  predicate BothClassesSeen(yTrue: seq<int>, yPred: seq<int>) {
    (0 in yTrue || 0 in yPred) && (1 in yTrue || 1 in yPred)
  }

  /** `num / den`, or 0 when the denominator is 0. */
  function Rate(num: nat, den: nat): (r: real)
    requires num <= den
    ensures 0.0 <= r <= 1.0
    ensures den == 0 ==> r == 0.0
    ensures den > 0 ==> r * den as real == num as real
  {
    if den > 0 then num as real / den as real else 0.0
  }

  datatype Rates = Rates(tpr: real, tnr: real, fpr: real, fnr: real)

  /** Sensitivity, specificity and the two error rates, each guarded against an empty class. */
  function RatesOf(c: Confusion): (r: Rates)
    ensures 0.0 <= r.tpr <= 1.0 && 0.0 <= r.tnr <= 1.0 && 0.0 <= r.fpr <= 1.0 && 0.0 <= r.fnr <= 1.0
    ensures c.tp + c.fn == 0 ==> r.tpr == 0.0 && r.fnr == 0.0
    ensures c.tn + c.fp == 0 ==> r.tnr == 0.0 && r.fpr == 0.0
  {
    Rates(Rate(c.tp, c.tp + c.fn), Rate(c.tn, c.tn + c.fp), Rate(c.fp, c.fp + c.tn), Rate(c.fn, c.fn + c.tp))
  }

  /** Over a non-empty class, the hit rate and the miss rate add up to one. */
  lemma RatesComplement(c: Confusion)
    ensures c.tp + c.fn > 0 ==> RatesOf(c).tpr + RatesOf(c).fnr == 1.0
    ensures c.tn + c.fp > 0 ==> RatesOf(c).tnr + RatesOf(c).fpr == 1.0
  {
    var r := RatesOf(c);
    if c.tp + c.fn > 0 {
      SharesOfWhole(c.tp, c.fn);
    }
    if c.tn + c.fp > 0 {
      SharesOfWhole(c.tn, c.fp);
    }
  }

  lemma SharesOfWhole(a: nat, b: nat)
    requires a + b > 0
    ensures Rate(a, a + b) + Rate(b, b + a) == 1.0
  {
    var d := (a + b) as real;
    assert a as real / d + b as real / d == (a as real + b as real) / d;
  }

  // --------------------------------------------------------- pipeline

  /** What a completed evaluation produces. */
  datatype Evaluation = Evaluation(yTrue: seq<int>, yPred: seq<int>, yProb: seq<real>,
                                   confusion: Confusion, rates: Rates)

  /**
   * The metrics computed from the evaluation rows, or `None` when the
   * classification report raises.  With both classes present the confusion
   * matrix is two by two, so the rates are always computed.
   */
  function EvaluationOf(rows: seq<Row>): (e: Option<Evaluation>)
    ensures e.Some? <==> BothClassesSeen(Truths(rows), Predictions(rows))
    ensures e.Some? ==>
      && e.value.yTrue == Truths(rows) && e.value.yPred == Predictions(rows)
      && e.value.yProb == Probabilities(rows)
    ensures e.Some? ==>
      && e.value.confusion == ConfusionOf(e.value.yTrue, e.value.yPred)
      && e.value.rates == RatesOf(e.value.confusion)
  {
    var yTrue, yPred := Truths(rows), Predictions(rows);
    if BothClassesSeen(yTrue, yPred) then
      var confusion := ConfusionOf(yTrue, yPred);
      Some(Evaluation(yTrue, yPred, Probabilities(rows), confusion, RatesOf(confusion)))
    else
      None
  }

  /**
   * When every test row is an AI song predicted AI (for instance because
   * every human test file failed), the report raises.
   */
  lemma OneClassRaises(rows: seq<Row>)
    requires forall k :: 0 <= k < |rows| ==> rows[k].truth == 1 && rows[k].predicted == 1
    ensures EvaluationOf(rows).None?
  {
    assert 0 !in Truths(rows) && 0 !in Predictions(rows);
  }

  /** A human row and an AI row among the test rows are enough for the evaluation to complete. */
  lemma BothTruthsComplete(rows: seq<Row>, i: nat, j: nat)
    requires i < |rows| && j < |rows| && rows[i].truth == 0 && rows[j].truth == 1
    ensures EvaluationOf(rows).Some?
  {
    assert Truths(rows)[i] == 0 && Truths(rows)[j] == 1;
  }

  /** The three lists of concatenated rows are the concatenated lists. */
  lemma ProjectionsAppend(a: seq<Row>, b: seq<Row>)
    ensures Truths(a + b) == Truths(a) + Truths(b)
    ensures Predictions(a + b) == Predictions(a) + Predictions(b)
    ensures Probabilities(a + b) == Probabilities(a) + Probabilities(b)
  {
  }

  /** Both evaluation loops, human test files first, then the metrics; `None` when the report raises. */
  method Evaluate(detector: AIDetector, realTest: seq<string>, aiTest: seq<string>,
                  extract: string -> Option<seq<real>>, classify: (Params, seq<real>) -> ModelOutput)
    returns (e: Option<Evaluation>)
    requires detector.Valid() && detector.isTrained && detector.model.value.Fitted?
    ensures e == EvaluationOf(Rows(realTest, 0, detector.model.value.params, extract, classify)
                              + Rows(aiTest, 1, detector.model.value.params, extract, classify))
  {
    var params := detector.model.value.params;
    ghost var rowsReal := Rows(realTest, 0, params, extract, classify);
    ghost var rowsAi := Rows(aiTest, 1, params, extract, classify);
    var yTrue, yPred, yProb := EvaluateFiles(detector, realTest, 0, extract, classify, [], [], []);
    assert yTrue == Truths(rowsReal) && yPred == Predictions(rowsReal) && yProb == Probabilities(rowsReal);
    yTrue, yPred, yProb := EvaluateFiles(detector, aiTest, 1, extract, classify, yTrue, yPred, yProb);
    ProjectionsAppend(rowsReal, rowsAi);
    assert yTrue == Truths(rowsReal + rowsAi);
    assert yPred == Predictions(rowsReal + rowsAi);
    assert yProb == Probabilities(rowsReal + rowsAi);

    if !BothClassesSeen(yTrue, yPred) {
      return None;
    }
    var confusion := ConfusionOf(yTrue, yPred);
    e := Some(Evaluation(yTrue, yPred, yProb, confusion, RatesOf(confusion)));
  }

  /** Features of each training file, `None` where extraction raises. */
  function ExtractAll(files: seq<string>, extract: string -> Option<seq<real>>): (xs: seq<Option<seq<real>>>)
    ensures |xs| == |files| && forall i :: 0 <= i < |files| ==> xs[i] == extract(files[i])
  {
    seq(|files|, i requires 0 <= i < |files| => extract(files[i]))
  }

  /** The extracted training features of both classes and the minimum-corpus check allow a fit. */
  predicate Fittable(realFiles: seq<string>, aiFiles: seq<string>,
                     split: seq<string> -> (seq<string>, seq<string>), extract: string -> Option<seq<real>>)
  {
    var realX := ExtractAll(split(realFiles).0, extract);
    var aiX := ExtractAll(split(aiFiles).0, extract);
    && |realFiles| >= MinFilesPerClass && |aiFiles| >= MinFilesPerClass
    && AllExtracted(realX) && AllExtracted(aiX)
    && Stackable(Values(realX), Values(aiX))
  }

  /** The training vectors and labels `fit` receives: real songs (0) then AI songs (1). */
  function TrainingSet(realFiles: seq<string>, aiFiles: seq<string>,
                       split: seq<string> -> (seq<string>, seq<string>), extract: string -> Option<seq<real>>)
    : (ts: (seq<seq<real>>, seq<real>))
    requires Fittable(realFiles, aiFiles, split, extract)
    ensures |ts.0| == |ts.1| == |split(realFiles).0| + |split(aiFiles).0|
  {
    var realX := ExtractAll(split(realFiles).0, extract);
    var aiX := ExtractAll(split(aiFiles).0, extract);
    (Values(realX) + Values(aiX), Labels(|realX|, |aiX|))
  }

  /** The coefficients of a successful fit on the training set, `None` when training cannot complete. */
  function FittedParams(realFiles: seq<string>, aiFiles: seq<string>,
                        split: seq<string> -> (seq<string>, seq<string>), extract: string -> Option<seq<real>>,
                        fit: (seq<seq<real>>, seq<real>) -> Option<Params>): (p: Option<Params>)
    ensures p.Some? ==> Fittable(realFiles, aiFiles, split, extract)
    ensures Fittable(realFiles, aiFiles, split, extract) ==>
      p == fit(TrainingSet(realFiles, aiFiles, split, extract).0, TrainingSet(realFiles, aiFiles, split, extract).1)
  {
    if Fittable(realFiles, aiFiles, split, extract) then
      var (xs, ys) := TrainingSet(realFiles, aiFiles, split, extract);
      fit(xs, ys)
    else None
  }

  /** The test rows of both classes under the given coefficients, human rows first. */
  function TestRows(realFiles: seq<string>, aiFiles: seq<string>, params: Params,
                    split: seq<string> -> (seq<string>, seq<string>), extract: string -> Option<seq<real>>,
                    classify: (Params, seq<real>) -> ModelOutput): seq<Row>
  {
    Rows(split(realFiles).1, 0, params, extract, classify) + Rows(split(aiFiles).1, 1, params, extract, classify)
  }

  /**
   * POSIX `os.path.dirname`: the text up to the last `/`, with trailing
   * slashes removed unless it consists of slashes only.
   */
  function DirName(path: string): (d: string)
    ensures |d| <= |path| && d == path[..|d|]
    ensures d == [] <==> '/' !in path
  {
    var i := LastIndexOf(path, '/');
    var head := path[..i + 1];
    if forall k :: 0 <= k < |head| ==> head[k] == '/' then head
    else
      var d := TrimSlashes(head);
      assert d == path[..|d|];
      d
  }

  /** `s.rstrip('/')` of a text that holds some other character: it stays non-empty. */
  function TrimSlashes(s: string): (t: string)
    requires exists k :: 0 <= k < |s| && s[k] != '/'
    ensures 0 < |t| <= |s| && t == s[..|t|] && t[|t| - 1] != '/'
  {
    if s[|s| - 1] == '/' then
      var init := s[..|s| - 1];
      assert exists k :: 0 <= k < |init| && init[k] != '/' by {
        var k :| 0 <= k < |s| && s[k] != '/';
        assert init[k] == s[k];
      }
      var t := TrimSlashes(init);
      assert t == s[..|t|];
      t
    else s
  }

  /**
   * `train_and_evaluate`: with fewer than ten files in either class it stops
   * before training; it trains a fresh detector on the training split of each
   * class and stops if training raises; otherwise it evaluates the human test
   * files (class 0) and then the AI test files (class 1), which raises unless
   * both classes occur, and saves the fitted model after
   * `os.makedirs(os.path.dirname(path), exist_ok=True)`, which raises for a
   * path without a directory part (`makedirs('')`), after the evaluation has
   * been printed.  `ok` is false when the script returns False or raises;
   * `evaluation` is what it printed.
   */
  method TrainAndEvaluate(realFiles: seq<string>, aiFiles: seq<string>, outputPath: string,
                          store: map<string, Estimator>,
                          split: seq<string> -> (seq<string>, seq<string>),
                          extract: string -> Option<seq<real>>,
                          fit: (seq<seq<real>>, seq<real>) -> Option<Params>,
                          classify: (Params, seq<real>) -> ModelOutput)
    returns (ok: bool, evaluation: Option<Evaluation>, saved: map<string, Estimator>)
    ensures var params := FittedParams(realFiles, aiFiles, split, extract, fit);
      ok <==> && params.Some?
              && EvaluationOf(TestRows(realFiles, aiFiles, params.value, split, extract, classify)).Some?
              && DirName(outputPath) != []
    ensures ok ==> var params := FittedParams(realFiles, aiFiles, split, extract, fit).value;
      && evaluation == EvaluationOf(TestRows(realFiles, aiFiles, params, split, extract, classify))
      && saved == store[outputPath := Fitted(params)]
    ensures var params := FittedParams(realFiles, aiFiles, split, extract, fit);
      evaluation.Some? <==>
        params.Some? && EvaluationOf(TestRows(realFiles, aiFiles, params.value, split, extract, classify)).Some?
    ensures evaluation.Some? ==> var params := FittedParams(realFiles, aiFiles, split, extract, fit).value;
      evaluation == EvaluationOf(TestRows(realFiles, aiFiles, params, split, extract, classify))
    ensures !ok ==> saved == store
  {
    saved := store;
    evaluation := None;
    if |realFiles| < MinFilesPerClass || |aiFiles| < MinFilesPerClass {
      return false, evaluation, saved;
    }
    var (realTrain, realTest) := split(realFiles);
    var (aiTrain, aiTest) := split(aiFiles);

    var detector := new AIDetector(None, map[]);
    var outcome := detector.Train(ExtractAll(realTrain, extract), ExtractAll(aiTrain, extract), fit);
    if outcome != Trained {
      return false, evaluation, saved;
    }
    var e := Evaluate(detector, realTest, aiTest, extract, classify);
    if e.None? {
      return false, evaluation, saved;
    }
    if DirName(outputPath) == [] {
      return false, e, saved;
    }
    var written := detector.SaveModel(outputPath, store);
    saved := written.value;
    return true, e, saved;
  }

  /**
   * Training fails outright with fewer than ten files in a class, and
   * otherwise exactly when an extraction raises, the vectors cannot be
   * stacked, or `fit` raises.
   */
  lemma FittedParamsCases(realFiles: seq<string>, aiFiles: seq<string>,
                          split: seq<string> -> (seq<string>, seq<string>), extract: string -> Option<seq<real>>,
                          fit: (seq<seq<real>>, seq<real>) -> Option<Params>)
    ensures |realFiles| < MinFilesPerClass || |aiFiles| < MinFilesPerClass ==>
      FittedParams(realFiles, aiFiles, split, extract, fit).None?
    ensures FittedParams(realFiles, aiFiles, split, extract, fit).Some? <==>
      && |realFiles| >= MinFilesPerClass && |aiFiles| >= MinFilesPerClass
      && AllExtracted(ExtractAll(split(realFiles).0, extract))
      && AllExtracted(ExtractAll(split(aiFiles).0, extract))
      && Stackable(Values(ExtractAll(split(realFiles).0, extract)), Values(ExtractAll(split(aiFiles).0, extract)))
      && fit(Values(ExtractAll(split(realFiles).0, extract)) + Values(ExtractAll(split(aiFiles).0, extract)),
             Labels(|split(realFiles).0|, |split(aiFiles).0|)).Some?
  {
  }

  /**
   * The evaluation lists: human rows first, all labelled 0, then AI rows,
   * all labelled 1; a predicted class is 1 exactly when the verdict says AI.
   */
  lemma {:induction false} RowsLabelledInOrder(realTest: seq<string>, aiTest: seq<string>, params: Params,
                                               extract: string -> Option<seq<real>>,
                                               classify: (Params, seq<real>) -> ModelOutput)
    ensures var nReal := |Rows(realTest, 0, params, extract, classify)|;
      var yTrue := Truths(Rows(realTest, 0, params, extract, classify) + Rows(aiTest, 1, params, extract, classify));
      && (forall k :: 0 <= k < nReal ==> yTrue[k] == 0)
      && (forall k :: nReal <= k < |yTrue| ==> yTrue[k] == 1)
  {
  }
}
