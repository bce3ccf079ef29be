/**
  The early-stopping monitor of the training loop.

  An `EarlyStopping` object holds a fixed `patience` and `delta`, the best
  validation loss seen so far (none before the first call), a counter of
  calls without improvement and a stop flag.  It is fed one validation loss
  per epoch.  `Monitor` is a snapshot of its fields; `Step` and `Run` are the
  value-level specification that the class method is proved against.
*/
module EarlyStop {
  import opened Common

  /** Default constructor arguments of the monitor. */
  const DefaultPatience: int := 5
  const DefaultDelta: real := 0.0

  /** The patience the training loop passes in (PATIENCE in the configuration). */
  const Patience: int := 4

  datatype Monitor = Monitor(patience: int, delta: real, bestLoss: Option<real>, counter: nat, earlyStop: bool)

  /** A freshly constructed monitor. */
  function Fresh(patience: int, delta: real): (m: Monitor)
    ensures m.patience == patience && m.delta == delta
    ensures m.bestLoss == None && m.counter == 0 && !m.earlyStop
  {
    Monitor(patience, delta, None, 0, false)
  }

  /** A call with loss `v` against best loss `best` counts as an improvement:
      it is not above `best - delta`.  With `delta == 0` an equal loss improves. */
  predicate Improves(best: real, delta: real, v: real) {
    !(v > best - delta)
  }

  /** One call of the monitor on validation loss `v`. */
  function Step(m: Monitor, v: real): (r: Monitor)
    // patience and delta are never reassigned
    ensures r.patience == m.patience && r.delta == m.delta
    // the stop flag is a latch
    ensures m.earlyStop ==> r.earlyStop
    // once a best loss exists, there always is one
    ensures r.bestLoss.Some?
    // the first call only records the loss
    ensures m.bestLoss.None? ==> r == m.(bestLoss := Some(v))
    // later calls: the counter is reset exactly when the call improves
    ensures m.bestLoss.Some? ==> (r.counter == 0 <==> Improves(m.bestLoss.value, m.delta, v))
  {
    match m.bestLoss
    case None => m.(bestLoss := Some(v))
    case Some(best) =>
      if v > best - m.delta then
        var c := m.counter + 1;
        m.(counter := c, earlyStop := if c >= m.patience then true else m.earlyStop)
      else
        m.(bestLoss := Some(v), counter := 0)
  }

  /** The monitor after a sequence of calls, in order. */
  function Run(m: Monitor, vs: seq<real>): Monitor
  {
    if |vs| == 0 then m else Step(Run(m, vs[..|vs| - 1]), vs[|vs| - 1])
  }

  /** What a single non-improving call does, in full. */
  lemma StaleStep(m: Monitor, v: real)
    requires m.bestLoss.Some? && !Improves(m.bestLoss.value, m.delta, v)
    ensures Step(m, v).bestLoss == m.bestLoss
    ensures Step(m, v).counter == m.counter + 1
    ensures Step(m, v).earlyStop == (m.earlyStop || m.counter + 1 >= m.patience)
  {
  }

  /** What a single improving call does, in full. */
  lemma ImprovingStep(m: Monitor, v: real)
    requires m.bestLoss.Some? && Improves(m.bestLoss.value, m.delta, v)
    ensures Step(m, v) == m.(bestLoss := Some(v), counter := 0)
  {
  }

  /** Running on a concatenation is running on each part in turn. */
  lemma {:induction false} RunAppend(m: Monitor, a: seq<real>, b: seq<real>)
    ensures Run(m, a + b) == Run(Run(m, a), b)
    decreases |b|
  {
    if |b| == 0 {
      assert a + b == a;
    } else {
      var ab := a + b;
      assert ab[..|ab| - 1] == a + b[..|b| - 1];
      assert ab[|ab| - 1] == b[|b| - 1];
      RunAppend(m, a, b[..|b| - 1]);
    }
  }

  /** Patience and delta survive any call sequence, and a set stop flag stays set. */
  lemma {:induction false} RunKeepsConfigAndLatch(m: Monitor, vs: seq<real>)
    ensures Run(m, vs).patience == m.patience && Run(m, vs).delta == m.delta
    ensures m.earlyStop ==> Run(m, vs).earlyStop
    ensures |vs| > 0 ==> Run(m, vs).bestLoss.Some?
    decreases |vs|
  {
    if |vs| > 0 {
      RunKeepsConfigAndLatch(m, vs[..|vs| - 1]);
    }
  }

  /** With a non-negative delta the best loss never goes up. */
  lemma {:induction false} RunBestNonIncreasing(m: Monitor, vs: seq<real>)
    requires m.delta >= 0.0 && m.bestLoss.Some?
    ensures Run(m, vs).bestLoss.Some?
    ensures Run(m, vs).bestLoss.value <= m.bestLoss.value
    decreases |vs|
  {
    if |vs| > 0 {
      RunBestNonIncreasing(m, vs[..|vs| - 1]);
      RunKeepsConfigAndLatch(m, vs[..|vs| - 1]);
    }
  }

  /** The best loss is always one of the losses seen, and (for delta >= 0) no larger
      than the first one. */
  lemma {:induction false} RunBestIsSeen(p: int, d: real, vs: seq<real>)
    requires |vs| > 0
    ensures Run(Fresh(p, d), vs).bestLoss.Some?
    ensures exists i :: 0 <= i < |vs| && Run(Fresh(p, d), vs).bestLoss.value == vs[i]
    ensures d >= 0.0 ==> Run(Fresh(p, d), vs).bestLoss.value <= vs[0]
    decreases |vs|
  {
    var pre := vs[..|vs| - 1];
    if |pre| == 0 {
      assert Run(Fresh(p, d), vs) == Step(Fresh(p, d), vs[0]);
    } else {
      RunBestIsSeen(p, d, pre);
      RunKeepsConfigAndLatch(Fresh(p, d), pre);
      var i :| 0 <= i < |pre| && Run(Fresh(p, d), pre).bestLoss.value == pre[i];
      var m := Run(Fresh(p, d), pre);
      if Improves(m.bestLoss.value, d, vs[|vs| - 1]) {
        assert Run(Fresh(p, d), vs).bestLoss.value == vs[|vs| - 1];
      } else {
        assert Run(Fresh(p, d), vs).bestLoss.value == vs[i];
      }
    }
  }

  /** A run of non-improving calls leaves the best loss alone, adds its length to
      the counter, and sets the stop flag iff the counter reaches the patience. */
  lemma {:induction false} StaleRun(m: Monitor, vs: seq<real>)
    requires m.bestLoss.Some?
    requires forall i :: 0 <= i < |vs| ==> !Improves(m.bestLoss.value, m.delta, vs[i])
    ensures Run(m, vs).bestLoss == m.bestLoss
    ensures Run(m, vs).counter == m.counter + |vs|
    ensures Run(m, vs).earlyStop == (m.earlyStop || (|vs| > 0 && m.counter + |vs| >= m.patience))
    ensures Run(m, vs).patience == m.patience && Run(m, vs).delta == m.delta
    decreases |vs|
  {
    if |vs| > 0 {
      var pre := vs[..|vs| - 1];
      assert forall i :: 0 <= i < |pre| ==> pre[i] == vs[i];
      StaleRun(m, pre);
      StaleStep(Run(m, pre), vs[|vs| - 1]);
    }
  }

  /** The counter is the number of calls since the last call that reset it (the
      first call or an improvement): if the calls `done` left the counter at 0
      and every call of `rest` fails to improve, the counter ends at `|rest|`
      and the best loss is the one recorded at the reset. */
  lemma {:induction false} CounterSinceLastReset(m: Monitor, done: seq<real>, rest: seq<real>)
    requires Run(m, done).bestLoss.Some? && Run(m, done).counter == 0
    requires forall j :: 0 <= j < |rest| ==>
      !Improves(Run(m, done).bestLoss.value, m.delta, rest[j])
    ensures Run(m, done + rest).counter == |rest|
    ensures Run(m, done + rest).bestLoss == Run(m, done).bestLoss
  {
    var mk := Run(m, done);
    RunKeepsConfigAndLatch(m, done);
    assert mk.delta == m.delta;
    assert forall j :: 0 <= j < |rest| ==> !Improves(mk.bestLoss.value, mk.delta, rest[j]);
    StaleRun(mk, rest);
    RunAppend(m, done, rest);
  }

  /** From a fresh monitor with patience at least 1: after a first call and `k`
      further non-improving calls, the stop flag is set exactly when `k` reaches
      the patience, so it is raised on the patience-th non-improving call. */
  lemma {:induction false} StopsAfterPatienceStaleCalls(p: int, d: real, vs: seq<real>, k: nat)
    requires p >= 1 && k < |vs|
    requires forall j :: 0 < j < |vs| ==> !Improves(vs[0], d, vs[j])
    ensures Run(Fresh(p, d), vs[..k + 1]).earlyStop <==> k >= p
    ensures Run(Fresh(p, d), vs[..k + 1]).counter == k
  {
    var first := Run(Fresh(p, d), vs[..1]);
    assert vs[..1][..0] == [] && vs[..1][0] == vs[0];
    assert Run(Fresh(p, d), vs[..1][..0]) == Fresh(p, d);
    assert first == Fresh(p, d).(bestLoss := Some(vs[0]));
    var rest := vs[1..k + 1];
    assert vs[..k + 1] == vs[..1] + rest;
    RunAppend(Fresh(p, d), vs[..1], rest);
    assert forall i :: 0 <= i < |rest| ==> rest[i] == vs[1 + i];
    StaleRun(first, rest);
  }

  /** When every call after the first improves on the previous loss by at least
      delta, the monitor never stops and its best loss is the latest loss. */
  lemma {:induction false} ImprovingNeverStops(p: int, d: real, vs: seq<real>)
    requires forall i :: 0 < i < |vs| ==> Improves(vs[i - 1], d, vs[i])
    ensures !Run(Fresh(p, d), vs).earlyStop
    ensures Run(Fresh(p, d), vs).counter == 0
    ensures |vs| > 0 ==> Run(Fresh(p, d), vs).bestLoss == Some(vs[|vs| - 1])
    decreases |vs|
  {
    if |vs| > 0 {
      var pre := vs[..|vs| - 1];
      assert forall i :: 0 <= i < |pre| ==> pre[i] == vs[i];
      ImprovingNeverStops(p, d, pre);
      RunKeepsConfigAndLatch(Fresh(p, d), pre);
      if |pre| > 0 {
        ImprovingStep(Run(Fresh(p, d), pre), vs[|vs| - 1]);
      }
    }
  }

  /** Patience 2, delta 0, losses [1.0, 1.0, 1.0]: equal losses count as
      improvements, so the counter never moves and the monitor never stops. */
  lemma EqualLossesNeverStop()
    ensures Run(Fresh(2, 0.0), [1.0, 1.0, 1.0]) == Monitor(2, 0.0, Some(1.0), 0, false)
  {
    ImprovingNeverStops(2, 0.0, [1.0, 1.0, 1.0]);
    RunKeepsConfigAndLatch(Fresh(2, 0.0), [1.0, 1.0, 1.0]);
  }

  /** Patience 4 (the configured value): one improvement by an equal loss after
      three stale calls resets the counter; four stale calls then stop. */
  lemma ConfiguredPatienceScenario()
    ensures Run(Fresh(Patience, 0.0), [0.5, 0.6, 0.7, 0.6, 0.5]).counter == 0
    ensures !Run(Fresh(Patience, 0.0), [0.5, 0.6, 0.7, 0.6, 0.5]).earlyStop
    ensures Run(Fresh(Patience, 0.0), [0.5, 0.6, 0.6, 0.6, 0.6]).earlyStop
    ensures !Run(Fresh(Patience, 0.0), [0.5, 0.6, 0.6, 0.6]).earlyStop
  {
    var m0 := Fresh(Patience, 0.0);
    var a := [0.5, 0.6, 0.7, 0.6, 0.5];
    assert a[..1][..0] == [] && a[..2][..1] == a[..1] && a[..3][..2] == a[..2];
    assert a[..4][..3] == a[..3] && a[..4] == a[..|a| - 1];
    assert Run(m0, a[..1]) == Monitor(4, 0.0, Some(0.5), 0, false);
    assert Run(m0, a[..2]) == Monitor(4, 0.0, Some(0.5), 1, false);
    assert Run(m0, a[..3]) == Monitor(4, 0.0, Some(0.5), 2, false);
    assert Run(m0, a[..4]) == Monitor(4, 0.0, Some(0.5), 3, false);
    assert Run(m0, a) == Monitor(4, 0.0, Some(0.5), 0, false);
    var b := [0.5, 0.6, 0.6, 0.6, 0.6];
    assert b[..1][..0] == [] && b[..2][..1] == b[..1] && b[..3][..2] == b[..2];
    assert b[..4][..3] == b[..3] && b[..4] == b[..|b| - 1];
    assert Run(m0, b[..1]) == Monitor(4, 0.0, Some(0.5), 0, false);
    assert Run(m0, b[..2]) == Monitor(4, 0.0, Some(0.5), 1, false);
    assert Run(m0, b[..3]) == Monitor(4, 0.0, Some(0.5), 2, false);
    assert Run(m0, b[..4]) == Monitor(4, 0.0, Some(0.5), 3, false);
    assert [0.5, 0.6, 0.6, 0.6] == b[..4];
    assert Run(m0, b) == Monitor(4, 0.0, Some(0.5), 4, true);
  }

  /** The monitor object.  `patience` and `delta` are constants: the source
      never reassigns them. */
  class EarlyStopping {
    const patience: int
    const delta: real
    var bestLoss: Option<real>
    var counter: nat
    var earlyStop: bool

    function State(): Monitor
      reads this
    {
      Monitor(patience, delta, bestLoss, counter, earlyStop)
    }

    constructor (patience: int := DefaultPatience, delta: real := DefaultDelta)
      ensures State() == Fresh(patience, delta)
    {
      this.patience := patience;
      this.delta := delta;
      bestLoss := None;
      counter := 0;
      earlyStop := false;
    }

    /** Feed one validation loss. */
    method Call(valLoss: real)
      modifies this
      ensures State() == Step(old(State()), valLoss)
    {
      if bestLoss.None? {
        bestLoss := Some(valLoss);
      } else if valLoss > bestLoss.value - delta {
        counter := counter + 1;
        if counter >= patience {
          earlyStop := true;
        }
      } else {
        bestLoss := Some(valLoss);
        counter := 0;
      }
    }
  }
}
