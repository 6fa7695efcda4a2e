// What FusionEKF::ProcessMeasurement promises, stated over the Step
// function that its method contract is tied to: first the effect of one
// call, then the effect of a whole sequence of measurements.
module FusionProperties {
  import opened Matrices
  import opened Kinematics
  import opened Kalman
  import opened Fusion

  /** The first measurement initialises the filter and runs no Kalman
      operation: x_ comes from the measurement (velocity placeholder 0.8),
      F_ becomes the identity, the timestamp is recorded, and P_, Q_, H_, R_
      stay as they were. */
  lemma FirstMeasurement(k: KalmanAlgebra, ext: External, s: FilterState, m: Measurement)
    requires Consistent(s) && !s.initialized && Admissible(s, m)
    ensures var t := Step(k, ext, s, m);
      t.initialized && t.previousTimestamp == m.timestamp && t.F == Identity4 &&
      t.calls == s.calls && t.P == s.P && t.Q == s.Q && t.H == s.H && t.R == s.R &&
      |t.x| == 4 && t.x[2] == 0.8 && t.x[3] == 0.8 &&
      (m.sensor == Laser ==> t.x[0] == m.raw[0] && t.x[1] == m.raw[1]) &&
      (m.sensor == Radar ==>
        t.x[0] == m.raw[0] * ext.cos(m.raw[1]) && t.x[1] == m.raw[0] * ext.sin(m.raw[1])) &&
      (m.sensor == Unknown ==> t.x[0] == 1.0 && t.x[1] == 1.0)
  {
  }

  /** A later measurement: dt comes from the old timestamp, which is then
      replaced; F_ and Q_ are rebuilt for dt; Predict runs once, first; then
      exactly one update runs, UpdateEKF with the Jacobian at the predicted
      state and R_radar_ for radar, Update with H_laser_ and R_laser_ for
      every other sensor. */
  lemma LaterMeasurement(k: KalmanAlgebra, ext: External, s: FilterState, m: Measurement)
    requires Consistent(s) && s.initialized
    ensures var t := Step(k, ext, s, m);
      var dt := ElapsedSeconds(s.previousTimestamp, m.timestamp);
      var predicted := k.predict(Estimate(s.x, s.P), Transition(dt), ProcessNoise(dt));
      t.initialized && t.previousTimestamp == m.timestamp &&
      t.F == Transition(dt) && t.Q == ProcessNoise(dt) &&
      |t.calls| == |s.calls| + 2 && t.calls[..|s.calls|] == s.calls &&
      t.calls[|s.calls|] == Predicted(t.F, t.Q) &&
      (m.sensor == Radar ==>
        t.H == ext.calculateJacobian(predicted.x) && t.R == RRadar &&
        t.calls[|s.calls| + 1] == UpdatedEKF(m.raw, t.H, t.R) &&
        Estimate(t.x, t.P) == k.updateEKF(predicted, m.raw, t.H, t.R)) &&
      (m.sensor != Radar ==>
        t.H == HLaser && t.R == RLaser &&
        t.calls[|s.calls| + 1] == Updated(m.raw, t.H, t.R) &&
        Estimate(t.x, t.P) == k.update(predicted, m.raw, t.H, t.R))
  {
    Retime(s.F, ElapsedSeconds(s.previousTimestamp, m.timestamp));
  }

  /** Two measurements with the same timestamp: F_ is the identity and Q_
      is zero, so the prediction has nothing to integrate. */
  lemma SameTimestamp(k: KalmanAlgebra, ext: External, s: FilterState, m: Measurement)
    requires Consistent(s) && s.initialized && m.timestamp == s.previousTimestamp
    ensures Step(k, ext, s, m).F == Identity4
    ensures Step(k, ext, s, m).Q == Zero(4, 4)
  {
    LaterMeasurement(k, ext, s, m);
    TransitionAtZero();
    ProcessNoiseAtZero();
  }

  /** H_laser_ selects the position (px, py) of the state. */
  lemma LaserMatrixSelectsPosition(x: Vec)
    requires |x| == 4
    ensures MatVec(HLaser, x) == [x[0], x[1]]
  {
    var r := MatVec(HLaser, x);
    Dot4(HLaser[0], x);
    Dot4(HLaser[1], x);
    assert r[0] == Dot(HLaser[0], x) == x[0];
    assert r[1] == Dot(HLaser[1], x) == x[1];
  }

  /** The initial covariance and both noise covariances are symmetric. */
  lemma ConstantCovariancesSymmetric()
    ensures IsSymmetric(PInitial) && IsSymmetric(RLaser) && IsSymmetric(RRadar)
  {
  }

  /** ProcessMeasurement applied to each measurement of ms in turn. */
  function Run(k: KalmanAlgebra, ext: External, s: FilterState, ms: seq<Measurement>): (t: FilterState)
    requires Consistent(s) && (ms != [] ==> Admissible(s, ms[0]))
    ensures Consistent(t)
    ensures ms != [] ==> t.initialized && t.previousTimestamp == ms[|ms| - 1].timestamp
    decreases |ms|
  {
    if ms == [] then s else Run(k, ext, Step(k, ext, s, ms[0]), ms[1..])
  }

  /** The update call a measurement must cause. */
  predicate UpdateMatches(c: Call, m: Measurement) {
    if m.sensor == Radar then c.UpdatedEKF? && c.z == m.raw && c.R == RRadar
    else c == Updated(m.raw, HLaser, RLaser)
  }

  /** `calls` is one Predict followed by one matching update per measurement
      of ms, each Predict with the F_ and Q_ of that measurement's dt. */
  predicate Cycles(calls: seq<Call>, previous: int, ms: seq<Measurement>)
    decreases ms
  {
    if ms == [] then calls == []
    else
      var dt := ElapsedSeconds(previous, ms[0].timestamp);
      |calls| >= 2 &&
      calls[0] == Predicted(Transition(dt), ProcessNoise(dt)) &&
      UpdateMatches(calls[1], ms[0]) &&
      Cycles(calls[2..], ms[0].timestamp, ms[1..])
  }

  /** The elapsed time of the last measurement of a non-empty ms. */
  function LastElapsed(previous: int, ms: seq<Measurement>): (dt: real)
    requires ms != []
  {
    ElapsedSeconds(if |ms| == 1 then previous else ms[|ms| - 2].timestamp, ms[|ms| - 1].timestamp)
  }

  /** A later measurement appends one cycle to the call log. */
  lemma StepAppendsCycle(k: KalmanAlgebra, ext: External, s: FilterState, m: Measurement)
    requires Consistent(s) && s.initialized
    ensures var t := Step(k, ext, s, m);
      var dt := ElapsedSeconds(s.previousTimestamp, m.timestamp);
      |t.calls| == |s.calls| + 2 && t.calls[..|s.calls|] == s.calls &&
      t.calls[|s.calls|] == Predicted(Transition(dt), ProcessNoise(dt)) &&
      UpdateMatches(t.calls[|s.calls| + 1], m) && t.F == Transition(dt)
  {
    LaterMeasurement(k, ext, s, m);
  }

  /** From a running filter, a sequence of measurements appends exactly its
      predict/update cycles to the call log. */
  lemma {:induction false} RunningCycles(k: KalmanAlgebra, ext: External, s: FilterState, ms: seq<Measurement>)
    requires Consistent(s) && s.initialized
    ensures var t := Run(k, ext, s, ms);
      |s.calls| <= |t.calls| && t.calls[..|s.calls|] == s.calls &&
      Cycles(t.calls[|s.calls|..], s.previousTimestamp, ms)
    decreases |ms|
  {
    if ms == [] {
      assert Run(k, ext, s, ms).calls[|s.calls|..] == [];
    } else {
      var s1 := Step(k, ext, s, ms[0]);
      StepAppendsCycle(k, ext, s, ms[0]);
      RunningCycles(k, ext, s1, ms[1..]);
      var t := Run(k, ext, s1, ms[1..]);
      assert Run(k, ext, s, ms) == t;
      var n, n1 := |s.calls|, |s1.calls|;
      assert t.calls[..n] == t.calls[..n1][..n] == s1.calls[..n] == s.calls;
      var tail := t.calls[n..];
      assert tail[0] == s1.calls[n] && tail[1] == s1.calls[n + 1];
      assert tail[2..] == t.calls[n1..];
    }
  }

  /** From a running filter, a non-empty sequence of measurements leaves F_
      at the transition matrix of the last measurement's dt. */
  lemma {:induction false} RunningTransition(k: KalmanAlgebra, ext: External, s: FilterState, ms: seq<Measurement>)
    requires Consistent(s) && s.initialized && ms != []
    ensures Run(k, ext, s, ms).F == Transition(LastElapsed(s.previousTimestamp, ms))
    decreases |ms|
  {
    var s1 := Step(k, ext, s, ms[0]);
    StepAppendsCycle(k, ext, s, ms[0]);
    assert Run(k, ext, s, ms) == Run(k, ext, s1, ms[1..]);
    if |ms| > 1 {
      RunningTransition(k, ext, s1, ms[1..]);
      assert LastElapsed(s1.previousTimestamp, ms[1..]) == LastElapsed(s.previousTimestamp, ms);
    }
  }

  /** From a fresh (uninitialised) filter: the first measurement only
      initialises, every later one adds one predict/update cycle; afterwards
      the filter is initialised, holds the last timestamp, and F_ is the
      identity after one measurement and the transition matrix of the last
      dt after more. */
  lemma FromStart(k: KalmanAlgebra, ext: External, s: FilterState, ms: seq<Measurement>)
    requires Consistent(s) && !s.initialized && ms != [] && Admissible(s, ms[0])
    ensures var t := Run(k, ext, s, ms);
      t.initialized && t.previousTimestamp == ms[|ms| - 1].timestamp &&
      |s.calls| <= |t.calls| && t.calls[..|s.calls|] == s.calls &&
      Cycles(t.calls[|s.calls|..], ms[0].timestamp, ms[1..]) &&
      t.F == (if |ms| == 1 then Identity4 else Transition(LastElapsed(ms[0].timestamp, ms[1..])))
  {
    var s1 := Step(k, ext, s, ms[0]);
    FirstMeasurement(k, ext, s, ms[0]);
    RunningCycles(k, ext, s1, ms[1..]);
    if |ms| > 1 {
      RunningTransition(k, ext, s1, ms[1..]);
    }
    assert Run(k, ext, s, ms) == Run(k, ext, s1, ms[1..]);
  }

  /** Number of Predict calls in a log. */
  function PredictCount(calls: seq<Call>): (n: nat) {
    if calls == [] then 0
    else (if calls[0].Predicted? then 1 else 0) + PredictCount(calls[1..])
  }

  /** In a log of cycles, Predict runs exactly once per measurement, every
      Predict is directly followed by an update, and every update directly
      follows a Predict. */
  lemma {:induction false} CyclesShape(calls: seq<Call>, previous: int, ms: seq<Measurement>)
    requires Cycles(calls, previous, ms)
    ensures |calls| == 2 * |ms| && PredictCount(calls) == |ms|
    ensures forall i :: 0 <= i < |calls| && calls[i].Predicted? ==> i + 1 < |calls| && !calls[i + 1].Predicted?
    ensures forall i :: 0 <= i < |calls| && !calls[i].Predicted? ==> 0 < i && calls[i - 1].Predicted?
    decreases ms
  {
    if ms != [] {
      var rest := calls[2..];
      CyclesShape(rest, ms[0].timestamp, ms[1..]);
      assert calls[1..][1..] == rest;
      assert PredictCount(calls) == 1 + PredictCount(calls[1..]) == 1 + PredictCount(rest);
      forall i | 2 <= i < |calls|
        ensures calls[i] == rest[i - 2]
      {
      }
    }
  }
}

// A client of the FusionEKF class: the two-measurement scenario of a laser
// reading at t = 0 followed by a radar reading 0.1 s later.
module FusionScenario {
  import opened Matrices
  import opened Kinematics
  import opened Kalman
  import opened Fusion
  import opened FusionProperties

  /** The laser reading only initialises; the radar reading builds F_ and Q_
      for dt = 0.1, predicts once, then runs UpdateEKF with R_radar_. */
  method LaserThenRadar(algebra: KalmanAlgebra, ext: External) returns (F: Mat, Q: Mat, R: Mat, position: Vec)
    ensures F == Transition(0.1) && Q == ProcessNoise(0.1) && R == RRadar
    ensures position == [1.0, 1.0]
  {
    var filter := new FusionEKF(algebra, ext);
    var laser := Measurement(Laser, [1.0, 1.0], 0);
    ghost var start := filter.Snapshot();
    filter.ProcessMeasurement(laser);
    FirstMeasurement(algebra, ext, start, laser);
    position := filter.ekf.x[..2];
    assert filter.ekf.calls == [];
    var radar := Measurement(Radar, [2.0, 0.0, 0.0], 100000);
    ghost var before := filter.Snapshot();
    filter.ProcessMeasurement(radar);
    LaterMeasurement(algebra, ext, before, radar);
    assert ElapsedSeconds(0, 100000) == 0.1;
    assert filter.ekf.calls == [Predicted(Transition(0.1), ProcessNoise(0.1)), UpdatedEKF(radar.raw, filter.ekf.H, RRadar)];
    F, Q, R := filter.ekf.F, filter.ekf.Q, filter.ekf.R;
  }
}
