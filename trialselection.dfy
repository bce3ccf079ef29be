/**
  Model selection during the hyperparameter search.

  Within one trial, `Objective` runs the epoch loop: after each epoch it keeps
  the smallest validation loss seen so far, saves a checkpoint whenever that
  loss strictly improves, feeds the loss to an early-stopping monitor and
  leaves the loop once the monitor says stop.  Across trials,
  `BestModelTracker` is the pair of module-level variables that the
  end-of-trial callback keeps: the best validation loss (seeded with 1000000)
  and the checkpoint path of the trial that reached it.

  The per-epoch validation losses are given as a parameter: training,
  evaluation and the loss computation belong to the numeric framework.
*/
module TrialSelection {
  import opened Common
  import opened EarlyStop

  /** Seed of the cross-trial best validation loss. */
  const InitialBestValidationLoss: real := 1000000.0

  /** Where a trial's best checkpoint is written. */
  function CheckpointPath(trialNumber: nat): (p: string)
    ensures |p| > |"checkpoints/tmp_model_trial_.pth"|
    ensures p[..|"checkpoints/tmp_model_trial_"|] == "checkpoints/tmp_model_trial_"
    ensures EndsWith(p, ".pth")
  {
    "checkpoints/tmp_model_trial_" + NatToString(trialNumber) + ".pth"
  }

  /** Each trial checkpoints to a file of its own. */
  lemma CheckpointPathsDistinct(a: nat, b: nat)
    ensures a != b ==> CheckpointPath(a) != CheckpointPath(b)
  {
    if CheckpointPath(a) == CheckpointPath(b) {
      var pre := "checkpoints/tmp_model_trial_";
      var p := CheckpointPath(a);
      assert |NatToString(a)| == |NatToString(b)| == |p| - |pre| - 4;
      assert NatToString(a) == p[|pre|..|p| - 4] == NatToString(b);
      NatToStringInjective(a, b);
    }
  }

  // ---------------------------------------------------------------------------
  // Within one trial
  // ---------------------------------------------------------------------------

  /** Epoch `i` sets a new record: its loss is strictly below every earlier one. */
  predicate IsRecord(s: seq<real>, i: int)
    requires 0 <= i < |s|
  {
    forall j :: 0 <= j < i ==> s[j] > s[i]
  }

  /** The epochs, in order, at which a strictly smaller loss than all earlier ones is seen. */
  function Records(s: seq<real>): (r: seq<nat>)
    ensures forall k :: 0 <= k < |r| ==> r[k] < |s|
    ensures forall i: int :: i in r <==> 0 <= i < |s| && IsRecord(s, i)
    ensures forall a, b :: 0 <= a < b < |r| ==> r[a] < r[b]
    ensures |s| > 0 ==> |r| > 0 && r[0] == 0
  {
    if |s| == 0 then []
    else
      var pre := s[..|s| - 1];
      assert forall i :: 0 <= i < |pre| ==> pre[i] == s[i];
      assert forall i :: 0 <= i < |pre| ==> (IsRecord(pre, i) <==> IsRecord(s, i));
      Records(pre) + (if IsRecord(s, |s| - 1) then [|s| - 1] else [])
  }

  /** The last record is the first epoch that reaches the minimum loss: the
      checkpoint file, overwritten at every record, ends up holding that epoch. */
  lemma {:induction false} LastRecordIsFirstMinimum(s: seq<real>)
    requires |s| > 0
    ensures |Records(s)| > 0
    ensures s[Records(s)[|Records(s)| - 1]] == SeqMin(s)
    ensures forall j :: 0 <= j < Records(s)[|Records(s)| - 1] ==> s[j] > SeqMin(s)
  {
    var r := Records(s);
    var last := r[|r| - 1];
    assert last in r;
    // the minimum is reached somewhere; its first occurrence is a record
    var i :| 0 <= i < |s| && s[i] == SeqMin(s);
    var f := FirstAtMost(s, SeqMin(s), i);
    assert IsRecord(s, f);
    assert f in r;
    // no record comes after f: every later loss is at least the minimum
    var k :| 0 <= k < |r| && r[k] == f;
    assert f <= last;
    assert IsRecord(s, last);
    assert last == f;
  }

  /** The first index whose value is at most `m`, given that index `i` has one. */
  function FirstAtMost(s: seq<real>, m: real, i: nat): (f: nat)
    requires i < |s| && s[i] <= m
    ensures f <= i && s[f] <= m
    ensures forall j :: 0 <= j < f ==> s[j] > m
  {
    if exists j :: 0 <= j < i && s[j] <= m then
      var j :| 0 <= j < i && s[j] <= m;
      FirstAtMost(s, m, j)
    else i
  }

  /** Number of epochs the loop runs when its monitor starts in state `m` and
      epochs `k..` remain: it leaves after the first call that sets the stop flag. */
  function FirstStop(m: Monitor, vs: seq<real>, k: nat): (n: nat)
    requires k <= |vs|
    ensures k <= n <= |vs|
    ensures forall j :: k < j < n ==> !Run(m, vs[..j]).earlyStop
    ensures n < |vs| ==> k < n && Run(m, vs[..n]).earlyStop
    ensures k < |vs| ==> k < n
    decreases |vs| - k
  {
    if k == |vs| then k
    else if Run(m, vs[..k + 1]).earlyStop then k + 1
    else FirstStop(m, vs, k + 1)
  }

  /** What a finished trial leaves in its user attributes (absent keys are None). */
  datatype TrialAttrs = TrialAttrs(bestValLoss: Option<ExtReal>, bestModelPath: Option<string>)

  /** The epoch loop of one trial, restricted to model selection.  `valLosses[e]`
      is the validation loss after epoch `e`; `|valLosses|` plays `EPOCHS`.
      Returns the trial's best loss, its user attributes, the number of epochs
      run and the epochs at which a checkpoint was saved. */
  method Objective(trialNumber: nat, valLosses: seq<real>)
    returns (bestTrialLoss: ExtReal, attrs: TrialAttrs, epochsRun: nat, checkpoints: seq<nat>)
    ensures epochsRun == FirstStop(Fresh(Patience, 0.0), valLosses, 0)
    ensures epochsRun == 0 <==> |valLosses| == 0
    ensures bestTrialLoss == if epochsRun == 0 then PosInf else Fin(SeqMin(valLosses[..epochsRun]))
    ensures checkpoints == Records(valLosses[..epochsRun])
    ensures attrs.bestValLoss == Some(bestTrialLoss)
    ensures attrs.bestModelPath == if epochsRun == 0 then None else Some(CheckpointPath(trialNumber))
  {
    bestTrialLoss := PosInf;
    var bestModelPath: Option<string> := None;
    checkpoints := [];
    var earlyStopping := new EarlyStopping(Patience);
    ghost var m0 := Fresh(Patience, 0.0);
    epochsRun := 0;
    while epochsRun < |valLosses|
      invariant 0 <= epochsRun <= |valLosses|
      invariant earlyStopping.State() == Run(m0, valLosses[..epochsRun])
      invariant FirstStop(m0, valLosses, epochsRun) == FirstStop(m0, valLosses, 0)
      invariant bestTrialLoss == if epochsRun == 0 then PosInf else Fin(SeqMin(valLosses[..epochsRun]))
      invariant bestModelPath == if epochsRun == 0 then None else Some(CheckpointPath(trialNumber))
      invariant checkpoints == Records(valLosses[..epochsRun])
    {
      var valLoss := valLosses[epochsRun];
      EpochStep(m0, valLosses, epochsRun);
      if Fin(valLoss).Less(bestTrialLoss) {
        bestTrialLoss := Fin(valLoss);
        bestModelPath := Some(CheckpointPath(trialNumber));
        checkpoints := checkpoints + [epochsRun];
      }
      earlyStopping.Call(valLoss);
      epochsRun := epochsRun + 1;
      if earlyStopping.earlyStop {
        break;
      }
    }
    attrs := TrialAttrs(Some(bestTrialLoss), bestModelPath);
  }

  /** How one more epoch extends the running minimum, the records and the monitor. */
  lemma EpochStep(m: Monitor, vs: seq<real>, e: nat)
    requires e < |vs|
    ensures Run(m, vs[..e + 1]) == Step(Run(m, vs[..e]), vs[e])
    ensures Records(vs[..e + 1]) == Records(vs[..e]) + (if IsRecord(vs[..e + 1], e) then [e] else [])
    ensures e == 0 ==> IsRecord(vs[..e + 1], e) && SeqMin(vs[..e + 1]) == vs[e]
    ensures e > 0 ==> SeqMin(vs[..e + 1]) == MinReal(SeqMin(vs[..e]), vs[e])
    ensures e > 0 ==> (IsRecord(vs[..e + 1], e) <==> vs[e] < SeqMin(vs[..e]))
  {
    var pre := vs[..e];
    var cur := vs[..e + 1];
    assert cur[..e] == pre;
    assert cur[e] == vs[e];
    if e > 0 {
      assert forall j :: 0 <= j < e ==> cur[j] == pre[j];
      if vs[e] < SeqMin(pre) {
        assert IsRecord(cur, e);
      }
    }
  }

  // ---------------------------------------------------------------------------
  // Across trials
  // ---------------------------------------------------------------------------

  /** The cross-trial record: best validation loss and the checkpoint that reached it. */
  datatype Best = Best(loss: real, path: Option<string>)

  /** What one callback invocation did.  A missing user attribute raises a
      KeyError before anything is assigned. */
  datatype CallbackOutcome = Replaced | Kept | MissingAttr(key: string)

  function Initial(): Best {
    Best(InitialBestValidationLoss, None)
  }

  /** The end-of-trial callback on the record `b`. */
  function Consider(b: Best, t: TrialAttrs): (r: (Best, CallbackOutcome))
    ensures r.1.Replaced? <==> t.bestValLoss.Some? && t.bestModelPath.Some? && t.bestValLoss.value.Less(Fin(b.loss))
    ensures r.1.MissingAttr? <==> t.bestValLoss.None? || t.bestModelPath.None?
    ensures !r.1.Replaced? ==> r.0 == b
    ensures r.1.Replaced? ==> r.0.loss < b.loss && Fin(r.0.loss) == t.bestValLoss.value && r.0.path == t.bestModelPath
  {
    match t.bestValLoss
    case None => (b, MissingAttr("best_val_loss"))
    case Some(loss) =>
      match t.bestModelPath
      case None => (b, MissingAttr("best_model_path"))
      case Some(path) =>
        if loss.Less(Fin(b.loss)) then (Best(loss.r, Some(path)), Replaced) else (b, Kept)
  }

  predicate HasAttrs(t: TrialAttrs) {
    t.bestValLoss.Some? && t.bestModelPath.Some?
  }

  function LossOf(t: TrialAttrs): ExtReal
    requires HasAttrs(t)
  {
    t.bestValLoss.value
  }

  /** The record after the callback ran for each trial in order.  The second
      component is false once a callback raised: the search stops there and
      the record keeps its value from before that trial. */
  function Reduce(b: Best, ts: seq<TrialAttrs>): (Best, bool)
  {
    if |ts| == 0 then (b, true)
    else
      var (prev, ok) := Reduce(b, ts[..|ts| - 1]);
      if !ok then (prev, false)
      else
        var (next, outcome) := Consider(prev, ts[|ts| - 1]);
        (next, !outcome.MissingAttr?)
  }

  /** `r` is the running minimum of `init` and the finite losses of `ts`, and
      its path is that of the earliest trial reaching it (or the initial path
      when no trial got strictly below the initial loss). */
  ghost predicate IsBestOf(init: Best, ts: seq<TrialAttrs>, r: Best)
    requires forall i :: 0 <= i < |ts| ==> HasAttrs(ts[i])
  {
    && r.loss <= init.loss
    && (forall i :: 0 <= i < |ts| && LossOf(ts[i]).Fin? ==> r.loss <= LossOf(ts[i]).r)
    && ((r == init && forall i :: 0 <= i < |ts| && LossOf(ts[i]).Fin? ==> init.loss <= LossOf(ts[i]).r)
        || exists i :: 0 <= i < |ts| && LossOf(ts[i]) == Fin(r.loss) && r.loss < init.loss
                       && r.path == ts[i].bestModelPath
                       && forall j :: 0 <= j < i ==> LossOf(ts[j]) != Fin(r.loss))
  }

  /** When every trial left its attributes, the reduction never fails and its
      record is the running minimum with the earliest trial's path. */
  lemma {:induction false} ReduceIsRunningMinimum(init: Best, ts: seq<TrialAttrs>)
    requires forall i :: 0 <= i < |ts| ==> HasAttrs(ts[i])
    ensures Reduce(init, ts).1
    ensures IsBestOf(init, ts, Reduce(init, ts).0)
    decreases |ts|
  {
    if |ts| > 0 {
      var pre := ts[..|ts| - 1];
      var t := ts[|ts| - 1];
      assert forall i :: 0 <= i < |pre| ==> pre[i] == ts[i];
      ReduceIsRunningMinimum(init, pre);
      var prev := Reduce(init, pre).0;
      var (next, outcome) := Consider(prev, t);
      assert Reduce(init, ts).0 == next;
      if outcome.Replaced? {
        var l := next.loss;
        assert forall j :: 0 <= j < |pre| ==> LossOf(ts[j]) != Fin(l);
        assert LossOf(ts[|ts| - 1]) == Fin(l) && l < init.loss && next.path == ts[|ts| - 1].bestModelPath;
      } else {
        assert next == prev;
        if prev == init && forall i :: 0 <= i < |pre| && LossOf(pre[i]).Fin? ==> init.loss <= LossOf(pre[i]).r {
        } else {
          var i :| 0 <= i < |pre| && LossOf(pre[i]) == Fin(prev.loss) && prev.loss < init.loss
                   && prev.path == pre[i].bestModelPath
                   && forall j :: 0 <= j < i ==> LossOf(pre[j]) != Fin(prev.loss);
          assert ts[i] == pre[i];
        }
      }
    }
  }

  /** The reduction fails exactly when some trial lacks an attribute. */
  lemma {:induction false} ReduceFailsIffMissing(init: Best, ts: seq<TrialAttrs>)
    ensures !Reduce(init, ts).1 <==> exists i :: 0 <= i < |ts| && !HasAttrs(ts[i])
    decreases |ts|
  {
    if |ts| > 0 {
      var pre := ts[..|ts| - 1];
      assert forall i :: 0 <= i < |pre| ==> pre[i] == ts[i];
      ReduceFailsIffMissing(init, pre);
      if exists i :: 0 <= i < |ts| && !HasAttrs(ts[i]) {
        var i :| 0 <= i < |ts| && !HasAttrs(ts[i]);
        if i < |pre| {
          assert !HasAttrs(pre[i]);
        }
      }
    }
  }

  /** Trials with best losses 0.5, 0.3, 0.4, 0.2: the record is replaced by the
      first, second and fourth trial and kept by the third. */
  lemma FourTrialScenario(p1: string, p2: string, p3: string, p4: string)
    ensures Consider(Initial(), TrialAttrs(Some(Fin(0.5)), Some(p1))) == (Best(0.5, Some(p1)), Replaced)
    ensures Consider(Best(0.5, Some(p1)), TrialAttrs(Some(Fin(0.3)), Some(p2))) == (Best(0.3, Some(p2)), Replaced)
    ensures Consider(Best(0.3, Some(p2)), TrialAttrs(Some(Fin(0.4)), Some(p3))) == (Best(0.3, Some(p2)), Kept)
    ensures Consider(Best(0.3, Some(p2)), TrialAttrs(Some(Fin(0.2)), Some(p4))) == (Best(0.2, Some(p4)), Replaced)
  {
  }

  /** The module-level best-model variables and the study attribute the callback sets. */
  class BestModelTracker {
    var bestValidationLoss: real
    var bestModelPath: Option<string>
    /** The study's "best_model_path" user attribute. */
    var studyBestModelPath: Option<string>

    function State(): Best
      reads this
    {
      Best(bestValidationLoss, bestModelPath)
    }

    /** The seeding done before the search starts; `studyAttr` is what a
        reloaded study already holds. */
    constructor (studyAttr: Option<string>)
      ensures State() == Initial()
      ensures studyBestModelPath == studyAttr
    {
      bestValidationLoss := InitialBestValidationLoss;
      bestModelPath := None;
      studyBestModelPath := studyAttr;
    }

    /** The end-of-trial callback. */
    method SaveBestModelCallback(attrs: TrialAttrs) returns (outcome: CallbackOutcome)
      modifies this
      ensures (State(), outcome) == Consider(old(State()), attrs)
      ensures studyBestModelPath == if outcome.Replaced? then bestModelPath else old(studyBestModelPath)
    {
      if attrs.bestValLoss.None? {
        return MissingAttr("best_val_loss");
      }
      var thisTrialLoss := attrs.bestValLoss.value;
      if attrs.bestModelPath.None? {
        return MissingAttr("best_model_path");
      }
      var thisTrialModelPath := attrs.bestModelPath.value;
      if thisTrialLoss.Less(Fin(bestValidationLoss)) {
        bestValidationLoss := thisTrialLoss.r;
        bestModelPath := Some(thisTrialModelPath);
        studyBestModelPath := Some(thisTrialModelPath);
        outcome := Replaced;
      } else {
        outcome := Kept;
      }
    }
  }
}
