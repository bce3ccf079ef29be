/**
  Equal error rate from the points of a ROC curve.

  The ROC construction itself (thresholds from the sorted scores, dropping of
  collinear points) belongs to the metric library; the model starts from the
  false-positive and true-positive rates it returns.  The false-negative rate
  is 1 - TPR, the operating point is the first index where |FNR - FPR| is
  smallest, and the EER is the mean of FPR and FNR there.
*/
module Eer {

  function Abs(x: real): (a: real)
    ensures a >= 0.0 && (a == x || a == -x)
  {
    if x < 0.0 then -x else x
  }

  /** `fnr = 1 - tpr`: the miss rate at each threshold. */
  function Fnr(tpr: seq<real>): (fnr: seq<real>)
    ensures |fnr| == |tpr|
    ensures forall i :: 0 <= i < |tpr| ==> fnr[i] + tpr[i] == 1.0
    ensures AllRates(tpr) ==> AllRates(fnr)
  {
    seq(|tpr|, i requires 0 <= i < |tpr| => 1.0 - tpr[i])
  }

  /** Taking the complement twice gives the true-positive rates back. */
  lemma FnrInvolutive(tpr: seq<real>)
    ensures Fnr(Fnr(tpr)) == tpr
  {
  }

  /** `np.abs(fnr - fpr)`: non-negative, and zero exactly where the two rates meet. */
  function Gaps(fpr: seq<real>, fnr: seq<real>): (g: seq<real>)
    requires |fpr| == |fnr|
    ensures |g| == |fpr|
    ensures forall i :: 0 <= i < |fpr| ==> g[i] >= 0.0 && (g[i] == 0.0 <==> fpr[i] == fnr[i])
    ensures forall i :: 0 <= i < |fpr| ==> g[i] == fnr[i] - fpr[i] || g[i] == fpr[i] - fnr[i]
  {
    seq(|fpr|, i requires 0 <= i < |fpr| => Abs(fnr[i] - fpr[i]))
  }

  /** `i` is the first index holding the minimum of `s`. */
  ghost predicate IsFirstMin(s: seq<real>, i: int) {
    && 0 <= i < |s|
    && (forall j :: 0 <= j < |s| ==> s[i] <= s[j])
    && (forall j :: 0 <= j < i ==> s[j] > s[i])
  }

  /** `np.nanargmin` on a sequence without NaN: the first index of the minimum. */
  function ArgMin(s: seq<real>): (i: nat)
    requires |s| > 0
    ensures IsFirstMin(s, i)
  {
    if |s| == 1 then 0
    else
      var pre := s[..|s| - 1];
      var k := ArgMin(pre);
      assert forall j :: 0 <= j < |pre| ==> pre[j] == s[j];
      if s[|s| - 1] < s[k] then |s| - 1 else k
  }

  /** The index of the EER operating point. */
  function EerIndex(fpr: seq<real>, tpr: seq<real>): (i: nat)
    requires |fpr| == |tpr| > 0
    ensures IsFirstMin(Gaps(fpr, Fnr(tpr)), i)
  {
    ArgMin(Gaps(fpr, Fnr(tpr)))
  }

  /** `calculate_eer` from the ROC rates. */
  function CalculateEer(fpr: seq<real>, tpr: seq<real>): (eer: real)
    requires |fpr| == |tpr| > 0
    ensures exists i :: IsFirstMin(Gaps(fpr, Fnr(tpr)), i) && eer == (fpr[i] + (1.0 - tpr[i])) / 2.0
  {
    var fnr := Fnr(tpr);
    var i := EerIndex(fpr, tpr);
    (fpr[i] + fnr[i]) / 2.0
  }

  predicate AllRates(s: seq<real>) {
    forall i :: 0 <= i < |s| ==> 0.0 <= s[i] <= 1.0
  }

  /** With rates in [0, 1] the EER is in [0, 1]. */
  lemma EerInUnitInterval(fpr: seq<real>, tpr: seq<real>)
    requires |fpr| == |tpr| > 0 && AllRates(fpr) && AllRates(tpr)
    ensures 0.0 <= CalculateEer(fpr, tpr) <= 1.0
  {
    var i := EerIndex(fpr, tpr);
    assert 0.0 <= fpr[i] <= 1.0 && 0.0 <= tpr[i] <= 1.0;
  }

  /** When the curve has a point where FPR equals FNR, the operating point is
      such a point and the EER is that common rate. */
  lemma EerAtCrossing(fpr: seq<real>, tpr: seq<real>, j: nat)
    requires |fpr| == |tpr| && j < |fpr|
    requires fpr[j] == 1.0 - tpr[j]
    ensures var i := EerIndex(fpr, tpr);
            fpr[i] == 1.0 - tpr[i] && CalculateEer(fpr, tpr) == fpr[i]
  {
    var g := Gaps(fpr, Fnr(tpr));
    var i := EerIndex(fpr, tpr);
    assert g[j] == 0.0;
    assert g[i] <= g[j];
  }

  /** The EER is never further from either rate than half the smallest gap:
      both rates at the operating point are within `|FNR - FPR| / 2` of it. */
  lemma EerWithinHalfGap(fpr: seq<real>, tpr: seq<real>)
    requires |fpr| == |tpr| > 0
    ensures var i := EerIndex(fpr, tpr);
            var gap := Abs((1.0 - tpr[i]) - fpr[i]);
            && (forall j :: 0 <= j < |fpr| ==> gap <= Abs((1.0 - tpr[j]) - fpr[j]))
            && Abs(CalculateEer(fpr, tpr) - fpr[i]) == gap / 2.0
            && Abs(CalculateEer(fpr, tpr) - (1.0 - tpr[i])) == gap / 2.0
  {
    var g := Gaps(fpr, Fnr(tpr));
    var i := EerIndex(fpr, tpr);
    assert forall j :: 0 <= j < |fpr| ==> g[j] == Abs((1.0 - tpr[j]) - fpr[j]);
  }

  predicate NonDecreasing(s: seq<real>) {
    forall i, j :: 0 <= i < j < |s| ==> s[i] <= s[j]
  }

  /** A ROC curve whose false-positive rates are non-negative and never
      decrease, and which reaches the corner FPR 0, TPR 1, has EER 0: the gap
      is 0 at the corner, so the operating point is at or before it, where the
      false-positive rate is still 0. */
  lemma EerZeroThroughCorner(fpr: seq<real>, tpr: seq<real>, j: nat)
    requires |fpr| == |tpr| && j < |fpr|
    requires AllRates(fpr) && NonDecreasing(fpr)
    requires fpr[j] == 0.0 && tpr[j] == 1.0
    ensures CalculateEer(fpr, tpr) == 0.0
  {
    EerAtCrossing(fpr, tpr, j);
    var i := EerIndex(fpr, tpr);
    assert Gaps(fpr, Fnr(tpr))[j] == 0.0;
    assert i <= j;
    assert fpr[i] <= fpr[j];
  }

  /** Perfectly separated scores: the ROC points (0, 0), (0, 1), (1, 1) give EER 0. */
  lemma PerfectSeparationScenario()
    ensures CalculateEer([0.0, 0.0, 1.0], [0.0, 1.0, 1.0]) == 0.0
  {
    EerZeroThroughCorner([0.0, 0.0, 1.0], [0.0, 1.0, 1.0], 1);
  }

  /** Maximally wrong scores: the operating point has FPR 1 and FNR 1, so the EER is 1. */
  lemma MaximallyWrongScenario()
    ensures CalculateEer([0.0, 1.0, 1.0], [0.0, 0.0, 1.0]) == 1.0
  {
    EerAtCrossing([0.0, 1.0, 1.0], [0.0, 0.0, 1.0], 1);
  }
}
