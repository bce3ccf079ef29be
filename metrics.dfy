/**
  Evaluation metrics over ground-truth labels and predicted scores.

  Scores are binarised at a strict 0.5 threshold, then accuracy, recall,
  precision and F1 are computed as the metric library defines them for binary
  labels with positive class 1: accuracy is the fraction of matching labels,
  recall TP/(TP+FN), precision TP/(TP+FP) and F1 2TP/(2TP+FP+FN).
*/
module Metrics {

  const Threshold: real := 0.5

  predicate IsBinary(labels: seq<int>) {
    forall i :: 0 <= i < |labels| ==> labels[i] == 0 || labels[i] == 1
  }

  /** `score > 0.5` as an integer label. */
  function Binarize(score: real): (predicted: int)
    ensures predicted == 1 <==> score > Threshold
    ensures predicted == 0 || predicted == 1
  {
    if score > Threshold then 1 else 0
  }

  /** `(y_pred > 0.5).astype(int)` on a whole array. */
  function BinarizeAll(scores: seq<real>): (labels: seq<int>)
    ensures |labels| == |scores|
    ensures forall i :: 0 <= i < |scores| ==> labels[i] == Binarize(scores[i])
    ensures IsBinary(labels)
  {
    seq(|scores|, i requires 0 <= i < |scores| => Binarize(scores[i]))
  }

  /** Integer labels seen as scores (the array handed back to the metrics). */
  function AsScores(labels: seq<int>): (scores: seq<real>)
    ensures |scores| == |labels|
    ensures forall i :: 0 <= i < |labels| ==> scores[i] == labels[i] as real
  {
    seq(|labels|, i requires 0 <= i < |labels| => labels[i] as real)
  }

  /** Binarising labels that are already 0/1 gives them back, so binarising twice
      is the same as binarising once. */
  lemma BinarizeIdempotent(scores: seq<real>)
    ensures BinarizeAll(AsScores(BinarizeAll(scores))) == BinarizeAll(scores)
  {
    var once := BinarizeAll(scores);
    var twice := BinarizeAll(AsScores(once));
    assert forall i :: 0 <= i < |once| ==> twice[i] == once[i];
  }

  /** Number of positions where the truth is `t` and the prediction is `p`. */
  function CountPairs(yTrue: seq<int>, yPred: seq<int>, t: int, p: int): (n: nat)
    requires |yTrue| == |yPred|
    ensures n <= |yTrue|
  {
    if |yTrue| == 0 then 0
    else
      CountPairs(yTrue[..|yTrue| - 1], yPred[..|yPred| - 1], t, p)
      + (if yTrue[|yTrue| - 1] == t && yPred[|yPred| - 1] == p then 1 else 0)
  }

  /** Number of positions where prediction and truth agree. */
  function CountMatches(yTrue: seq<int>, yPred: seq<int>): (n: nat)
    requires |yTrue| == |yPred|
    ensures n <= |yTrue|
  {
    if |yTrue| == 0 then 0
    else
      CountMatches(yTrue[..|yTrue| - 1], yPred[..|yPred| - 1])
      + (if yTrue[|yTrue| - 1] == yPred[|yPred| - 1] then 1 else 0)
  }

  /** Number of positions holding `v`. */
  function CountOf(s: seq<int>, v: int): (n: nat)
    ensures n <= |s|
  {
    if |s| == 0 then 0 else CountOf(s[..|s| - 1], v) + (if s[|s| - 1] == v then 1 else 0)
  }

  function TP(yTrue: seq<int>, yPred: seq<int>): nat requires |yTrue| == |yPred| { CountPairs(yTrue, yPred, 1, 1) }
  function TN(yTrue: seq<int>, yPred: seq<int>): nat requires |yTrue| == |yPred| { CountPairs(yTrue, yPred, 0, 0) }
  function FP(yTrue: seq<int>, yPred: seq<int>): nat requires |yTrue| == |yPred| { CountPairs(yTrue, yPred, 0, 1) }
  function FN(yTrue: seq<int>, yPred: seq<int>): nat requires |yTrue| == |yPred| { CountPairs(yTrue, yPred, 1, 0) }

  /** For binary labels and predictions the four confusion counts split the
      input; matches are TP+TN; positives in the truth are TP+FN; positive
      predictions are TP+FP. */
  lemma {:induction false} ConfusionPartition(yTrue: seq<int>, yPred: seq<int>)
    requires |yTrue| == |yPred| && IsBinary(yTrue) && IsBinary(yPred)
    ensures TP(yTrue, yPred) + TN(yTrue, yPred) + FP(yTrue, yPred) + FN(yTrue, yPred) == |yTrue|
    ensures CountMatches(yTrue, yPred) == TP(yTrue, yPred) + TN(yTrue, yPred)
    ensures CountOf(yTrue, 1) == TP(yTrue, yPred) + FN(yTrue, yPred)
    ensures CountOf(yPred, 1) == TP(yTrue, yPred) + FP(yTrue, yPred)
    decreases |yTrue|
  {
    if |yTrue| > 0 {
      var a, b := yTrue[..|yTrue| - 1], yPred[..|yPred| - 1];
      assert forall i :: 0 <= i < |a| ==> a[i] == yTrue[i] && b[i] == yPred[i];
      ConfusionPartition(a, b);
    }
  }

  /** `x / y` for counts. */
  function Ratio(x: nat, y: nat): (r: real)
    requires y > 0
    ensures x <= y ==> 0.0 <= r <= 1.0
  {
    x as real / y as real
  }

  /** `accuracy_score`: the fraction of matching labels. */
  function Accuracy(yTrue: seq<int>, yPred: seq<int>): (r: real)
    requires |yTrue| == |yPred| > 0
    ensures 0.0 <= r <= 1.0
  {
    Ratio(CountMatches(yTrue, yPred), |yTrue|)
  }

  /** `recall_score`: TP / (TP + FN). */
  function Recall(yTrue: seq<int>, yPred: seq<int>): (r: real)
    requires |yTrue| == |yPred|
    requires TP(yTrue, yPred) + FN(yTrue, yPred) > 0
    ensures 0.0 <= r <= 1.0
  {
    Ratio(TP(yTrue, yPred), TP(yTrue, yPred) + FN(yTrue, yPred))
  }

  /** `precision_score`: TP / (TP + FP). */
  function Precision(yTrue: seq<int>, yPred: seq<int>): (r: real)
    requires |yTrue| == |yPred|
    requires TP(yTrue, yPred) + FP(yTrue, yPred) > 0
    ensures 0.0 <= r <= 1.0
  {
    Ratio(TP(yTrue, yPred), TP(yTrue, yPred) + FP(yTrue, yPred))
  }

  /** `f1_score`: 2TP / (2TP + FP + FN). */
  function F1(yTrue: seq<int>, yPred: seq<int>): (r: real)
    requires |yTrue| == |yPred|
    requires 2 * TP(yTrue, yPred) + FP(yTrue, yPred) + FN(yTrue, yPred) > 0
    ensures 0.0 <= r <= 1.0
  {
    Ratio(2 * TP(yTrue, yPred), 2 * TP(yTrue, yPred) + FP(yTrue, yPred) + FN(yTrue, yPred))
  }

  /** Accuracy is (TP + TN) / n. */
  lemma AccuracyFromConfusion(yTrue: seq<int>, yPred: seq<int>)
    requires |yTrue| == |yPred| > 0 && IsBinary(yTrue) && IsBinary(yPred)
    ensures Accuracy(yTrue, yPred)
         == (TP(yTrue, yPred) + TN(yTrue, yPred)) as real
            / (TP(yTrue, yPred) + TN(yTrue, yPred) + FP(yTrue, yPred) + FN(yTrue, yPred)) as real
  {
    ConfusionPartition(yTrue, yPred);
  }

  /** F1 is the harmonic mean of precision and recall whenever there is a true positive. */
  lemma F1IsHarmonicMean(yTrue: seq<int>, yPred: seq<int>)
    requires |yTrue| == |yPred|
    requires TP(yTrue, yPred) > 0
    ensures F1(yTrue, yPred)
         == 2.0 * Precision(yTrue, yPred) * Recall(yTrue, yPred) / (Precision(yTrue, yPred) + Recall(yTrue, yPred))
  {
    var tp, fp, fn := TP(yTrue, yPred) as real, FP(yTrue, yPred) as real, FN(yTrue, yPred) as real;
    var p, r := tp / (tp + fp), tp / (tp + fn);
    assert p * (tp + fp) == tp && p > 0.0;
    assert r * (tp + fn) == tp && r > 0.0;
    HarmonicMeanAlgebra(tp, fp, fn, p, r);
  }

  lemma HarmonicMeanAlgebra(tp: real, fp: real, fn: real, p: real, r: real)
    requires tp > 0.0 && fp >= 0.0 && fn >= 0.0
    requires p > 0.0 && r > 0.0
    requires p * (tp + fp) == tp && r * (tp + fn) == tp
    ensures 2.0 * tp / (2.0 * tp + fp + fn) == 2.0 * p * r / (p + r)
  {
    // 2pr (2tp + fp + fn) = 2pr(tp + fp) + 2pr(tp + fn) = 2tp r + 2tp p = 2tp (p + r)
    calc {
      2.0 * p * r * (2.0 * tp + fp + fn);
      2.0 * r * (p * (tp + fp)) + 2.0 * p * (r * (tp + fn));
      2.0 * r * tp + 2.0 * p * tp;
      2.0 * tp * (p + r);
    }
  }

  /** `calculate_metrics`: accuracy, recall and F1 of the binarised scores. */
  function CalculateMetrics(yTrue: seq<int>, yPred: seq<real>): (m: (real, real, real))
    requires |yTrue| == |yPred| > 0 && IsBinary(yTrue)
    requires CountOf(yTrue, 1) > 0
    ensures 0.0 <= m.0 <= 1.0 && 0.0 <= m.1 <= 1.0 && 0.0 <= m.2 <= 1.0
  {
    var labels := BinarizeAll(yPred);
    ConfusionPartition(yTrue, labels);
    (Accuracy(yTrue, labels), Recall(yTrue, labels), F1(yTrue, labels))
  }

  /** The three metrics in terms of the confusion counts of the binarised scores:
      accuracy (TP+TN)/n, recall TP over the number of positive labels, and
      F1 2TP/(2TP+FP+FN); the four counts partition the input. */
  lemma CalculateMetricsFromConfusion(yTrue: seq<int>, yPred: seq<real>)
    requires |yTrue| == |yPred| > 0 && IsBinary(yTrue)
    requires CountOf(yTrue, 1) > 0
    ensures var labels := BinarizeAll(yPred);
            var tp, tn, fp, fn := TP(yTrue, labels), TN(yTrue, labels), FP(yTrue, labels), FN(yTrue, labels);
            var m := CalculateMetrics(yTrue, yPred);
            && tp + tn + fp + fn == |yTrue|
            && tp + fn == CountOf(yTrue, 1)
            && m.0 == Ratio(tp + tn, |yTrue|)
            && m.1 == Ratio(tp, CountOf(yTrue, 1))
            && m.2 == Ratio(2 * tp, 2 * tp + fp + fn)
  {
    var labels := BinarizeAll(yPred);
    ConfusionPartition(yTrue, labels);
  }

  /** The report returned by `calculate_metrics_4`. */
  datatype MetricReport = MetricReport(accuracy: real, recall: real, f1Score: real, precision: real)

  /** `calculate_metrics_4`: the same three metrics plus precision. */
  function CalculateMetrics4(yTrue: seq<int>, yPred: seq<real>): (m: MetricReport)
    requires |yTrue| == |yPred| > 0 && IsBinary(yTrue)
    requires CountOf(yTrue, 1) > 0
    requires CountOf(BinarizeAll(yPred), 1) > 0
    ensures (m.accuracy, m.recall, m.f1Score) == CalculateMetrics(yTrue, yPred)
    ensures var labels := BinarizeAll(yPred);
            m.precision == Ratio(TP(yTrue, labels), CountOf(labels, 1))
    ensures 0.0 <= m.precision <= 1.0
  {
    var labels := BinarizeAll(yPred);
    ConfusionPartition(yTrue, labels);
    MetricReport(Accuracy(yTrue, labels), Recall(yTrue, labels), F1(yTrue, labels), Precision(yTrue, labels))
  }

  /** One more position extends each count by that position's contribution. */
  lemma CountsSnoc(yTrue: seq<int>, yPred: seq<int>, k: nat, t: int, p: int)
    requires |yTrue| == |yPred| && k < |yTrue|
    ensures CountPairs(yTrue[..k + 1], yPred[..k + 1], t, p)
         == CountPairs(yTrue[..k], yPred[..k], t, p) + (if yTrue[k] == t && yPred[k] == p then 1 else 0)
    ensures CountMatches(yTrue[..k + 1], yPred[..k + 1])
         == CountMatches(yTrue[..k], yPred[..k]) + (if yTrue[k] == yPred[k] then 1 else 0)
  {
    assert yTrue[..k + 1][..k] == yTrue[..k];
    assert yPred[..k + 1][..k] == yPred[..k];
  }

  /** Perfectly separated scores: every metric is 1. */
  lemma PerfectScoresScenario()
    ensures CalculateMetrics4([0, 0, 1, 1], [0.1, 0.4, 0.6, 0.9]) == MetricReport(1.0, 1.0, 1.0, 1.0)
  {
    var yTrue, labels := [0, 0, 1, 1], BinarizeAll([0.1, 0.4, 0.6, 0.9]);
    assert labels == yTrue;
    PerfectCounts(yTrue);
    ConfusionPartition(yTrue, yTrue);
  }

  lemma PerfectCounts(yTrue: seq<int>)
    requires yTrue == [0, 0, 1, 1]
    ensures TP(yTrue, yTrue) == 2 && TN(yTrue, yTrue) == 2 && FP(yTrue, yTrue) == 0 && FN(yTrue, yTrue) == 0
    ensures CountMatches(yTrue, yTrue) == 4
  {
    assert yTrue[..0] == [] && yTrue[..4] == yTrue;
    CountsSnoc(yTrue, yTrue, 0, 1, 1); CountsSnoc(yTrue, yTrue, 1, 1, 1);
    CountsSnoc(yTrue, yTrue, 2, 1, 1); CountsSnoc(yTrue, yTrue, 3, 1, 1);
    CountsSnoc(yTrue, yTrue, 0, 0, 0); CountsSnoc(yTrue, yTrue, 1, 0, 0);
    CountsSnoc(yTrue, yTrue, 2, 0, 0); CountsSnoc(yTrue, yTrue, 3, 0, 0);
    CountsSnoc(yTrue, yTrue, 0, 0, 1); CountsSnoc(yTrue, yTrue, 1, 0, 1);
    CountsSnoc(yTrue, yTrue, 2, 0, 1); CountsSnoc(yTrue, yTrue, 3, 0, 1);
    CountsSnoc(yTrue, yTrue, 0, 1, 0); CountsSnoc(yTrue, yTrue, 1, 1, 0);
    CountsSnoc(yTrue, yTrue, 2, 1, 0); CountsSnoc(yTrue, yTrue, 3, 1, 0);
  }

  /** A score of exactly 0.5 is a negative prediction. */
  lemma ThresholdIsStrict()
    ensures Binarize(0.5) == 0
    ensures CalculateMetrics([1], [0.5]) == (0.0, 0.0, 0.0)
  {
    assert BinarizeAll([0.5]) == [0];
  }
}
