// The measurement-processing controller FusionEKF (src/FusionEKF.cpp): a
// two-state machine (uninitialized, running) that initialises the Kalman
// core from the first measurement and, on every later one, rebuilds F_ and
// Q_ from the elapsed time, predicts, and dispatches to the update routine
// of the measurement's sensor.
module Fusion {
  import opened Matrices
  import opened Kinematics
  import opened Kalman

  /** The sensor tag of a measurement. `Unknown` stands for a tag that is
      neither of the two the controller tests for. */
  datatype SensorType = Laser | Radar | Unknown

  /** A measurement package: laser raw values are (px, py), radar raw values
      are (rho, phi, rho_dot); the timestamp is in microseconds. */
  datatype Measurement = Measurement(sensor: SensorType, raw: Vec, timestamp: int)

  /** Code outside this file that the controller calls: the Jacobian its
      `tools` member computes (`Tools::CalculateJacobian`), and cos/sin of
      the C math library. */
  datatype External = External(calculateJacobian: Vec -> Mat, cos: real -> real, sin: real -> real)

  /** Fixed measurement matrices and noise covariances. */
  const RLaser: Mat := [[0.0225, 0.0],
                        [0.0, 0.0225]]
  const RRadar: Mat := [[0.09, 0.0, 0.0],
                        [0.0, 0.0009, 0.0],
                        [0.0, 0.0, 0.09]]
  const HLaser: Mat := [[1.0, 0.0, 0.0, 0.0],
                        [0.0, 1.0, 0.0, 0.0]]
  /** Initial state covariance. */
  const PInitial: Mat := [[1.0, 0.0, 0.0, 0.0],
                          [0.0, 1.0, 0.0, 0.0],
                          [0.0, 0.0, 1000.0, 0.0],
                          [0.0, 0.0, 0.0, 1000.0]]
  /** The transition matrix the constructor installs (couplings set to 1). */
  const FInitial: Mat := [[1.0, 0.0, 1.0, 0.0],
                          [0.0, 1.0, 0.0, 1.0],
                          [0.0, 0.0, 1.0, 0.0],
                          [0.0, 0.0, 0.0, 1.0]]

  /** Everything the controller and its Kalman core hold, as one value. */
  datatype FilterState = FilterState(
    initialized: bool,
    previousTimestamp: int,
    x: Vec, P: Mat, F: Mat, Q: Mat, H: Mat, R: Mat,
    calls: seq<Call>)

  /** The transition matrix is always of the constant-velocity form. */
  predicate Consistent(s: FilterState) {
    IsTransition(s.F)
  }

  /** The first measurement is read at raw[0] and raw[1] when it comes from
      a laser or a radar; the source indexes them unchecked. */
  predicate Admissible(s: FilterState, m: Measurement) {
    s.initialized || m.sensor == Unknown || |m.raw| >= 2
  }

  /** The state vector set from the first measurement: velocity is the
      placeholder (0.8, 0.8); radar gives the position in Cartesian form,
      laser gives it directly, any other sensor leaves the placeholder (1, 1). */
  function FirstState(ext: External, m: Measurement): (x: Vec)
    requires m.sensor == Unknown || |m.raw| >= 2
    ensures |x| == 4
  {
    if m.sensor == Radar then
      var rho, phi := m.raw[0], m.raw[1];
      [rho * ext.cos(phi), rho * ext.sin(phi), 0.8, 0.8]
    else if m.sensor == Laser then
      [m.raw[0], m.raw[1], 0.8, 0.8]
    else
      [1.0, 1.0, 0.8, 0.8]
  }

  /** The initialisation section: x_ from the measurement, F_ the identity,
      the timestamp recorded, the filter initialised; no Kalman operation. */
  function InitStage(ext: External, s: FilterState, m: Measurement): (t: FilterState)
    requires m.sensor == Unknown || |m.raw| >= 2
    ensures t.initialized && t.previousTimestamp == m.timestamp
    ensures t.x == FirstState(ext, m) && t.F == Identity4
    ensures t.P == s.P && t.Q == s.Q && t.H == s.H && t.R == s.R && t.calls == s.calls
  {
    s.(initialized := true, previousTimestamp := m.timestamp,
       x := FirstState(ext, m), F := Identity4)
  }

  /** The prediction section: dt from the old timestamp, which is then
      replaced; F_ retimed in place, Q_ rebuilt; one Predict. */
  function PredictStage(k: KalmanAlgebra, s: FilterState, m: Measurement): (t: FilterState)
    requires Consistent(s)
    ensures var dt := ElapsedSeconds(s.previousTimestamp, m.timestamp);
      t.F == Transition(dt) && t.Q == ProcessNoise(dt) &&
      Estimate(t.x, t.P) == k.predict(Estimate(s.x, s.P), t.F, t.Q) &&
      t.calls == s.calls + [Predicted(t.F, t.Q)]
    ensures t.initialized == s.initialized && t.previousTimestamp == m.timestamp
    ensures t.H == s.H && t.R == s.R
  {
    var dt := ElapsedSeconds(s.previousTimestamp, m.timestamp);
    var F := SetEntry(SetEntry(s.F, 0, 2, dt), 1, 3, dt);
    var Q := ProcessNoise(dt);
    var e := k.predict(Estimate(s.x, s.P), F, Q);
    Retime(s.F, dt);
    s.(previousTimestamp := m.timestamp, x := e.x, P := e.P, F := F, Q := Q,
       calls := s.calls + [Predicted(F, Q)])
  }

  /** The update section: radar stages the Jacobian at the current x_ and
      R_radar_ and runs UpdateEKF; every other sensor stages H_laser_ and
      R_laser_ and runs Update. */
  function UpdateStage(k: KalmanAlgebra, ext: External, s: FilterState, m: Measurement): (t: FilterState)
    ensures m.sensor == Radar ==>
      t.H == ext.calculateJacobian(s.x) && t.R == RRadar &&
      Estimate(t.x, t.P) == k.updateEKF(Estimate(s.x, s.P), m.raw, t.H, t.R) &&
      t.calls == s.calls + [UpdatedEKF(m.raw, t.H, t.R)]
    ensures m.sensor != Radar ==>
      t.H == HLaser && t.R == RLaser &&
      Estimate(t.x, t.P) == k.update(Estimate(s.x, s.P), m.raw, t.H, t.R) &&
      t.calls == s.calls + [Updated(m.raw, t.H, t.R)]
    ensures t.initialized == s.initialized && t.previousTimestamp == s.previousTimestamp
    ensures t.F == s.F && t.Q == s.Q
  {
    if m.sensor == Radar then
      var H := ext.calculateJacobian(s.x);
      var e := k.updateEKF(Estimate(s.x, s.P), m.raw, H, RRadar);
      s.(x := e.x, P := e.P, H := H, R := RRadar, calls := s.calls + [UpdatedEKF(m.raw, H, RRadar)])
    else
      var e := k.update(Estimate(s.x, s.P), m.raw, HLaser, RLaser);
      s.(x := e.x, P := e.P, H := HLaser, R := RLaser, calls := s.calls + [Updated(m.raw, HLaser, RLaser)])
  }

  /** One call of ProcessMeasurement, as a function of the state before it. */
  function Step(k: KalmanAlgebra, ext: External, s: FilterState, m: Measurement): (t: FilterState)
    requires Consistent(s) && Admissible(s, m)
    ensures Consistent(t)
    ensures t.initialized && t.previousTimestamp == m.timestamp
  {
    if !s.initialized then
      TransitionAtZero();
      InitStage(ext, s, m)
    else
      UpdateStage(k, ext, PredictStage(k, s, m), m)
  }

  class FusionEKF {
    var isInitialized: bool
    var previousTimestamp: int
    var rLaser: Mat
    var rRadar: Mat
    var hLaser: Mat
    const ekf: KalmanFilter
    const ext: External

    /** The sensor-fixed matrices keep their constructor values and F_ is
        always of the constant-velocity form. */
    ghost predicate Valid()
      reads this, ekf
    {
      rLaser == RLaser && rRadar == RRadar && hLaser == HLaser && IsTransition(ekf.F)
    }

    ghost function Snapshot(): FilterState
      reads this, ekf
    {
      FilterState(isInitialized, previousTimestamp,
                  ekf.x, ekf.P, ekf.F, ekf.Q, ekf.H, ekf.R, ekf.calls)
    }

    constructor (algebra: KalmanAlgebra, ext: External)
      ensures Valid() && fresh(ekf)
      ensures !isInitialized && previousTimestamp == 0
      ensures rLaser == Diag([0.0225, 0.0225])
      ensures rRadar == Diag([0.09, 0.0009, 0.09])
      ensures hLaser == HLaser
      ensures ekf.P == Diag([1.0, 1.0, 1000.0, 1000.0])
      ensures ekf.F == Transition(1.0)
      ensures ekf.x == [] && ekf.Q == [] && ekf.H == [] && ekf.R == [] && ekf.calls == []
      ensures ekf.algebra == algebra && this.ext == ext
    {
      isInitialized := false;
      previousTimestamp := 0;
      rLaser := RLaser;
      rRadar := RRadar;
      hLaser := HLaser;
      ekf := new KalmanFilter(algebra);
      this.ext := ext;
      new;
      ekf.P := PInitial;
      ekf.F := FInitial;
      assert Transition(1.0) == FInitial;
      Extensionality(Diag([0.0225, 0.0225]), RLaser, 2, 2);
      Extensionality(Diag([0.09, 0.0009, 0.09]), RRadar, 3, 3);
      Extensionality(Diag([1.0, 1.0, 1000.0, 1000.0]), PInitial, 4, 4);
    }

    /** Processes one measurement: the first one initialises the filter,
        every later one predicts and then updates. */
    method ProcessMeasurement(m: Measurement)
      requires Valid() && Admissible(Snapshot(), m)
      modifies this, ekf
      ensures Valid()
      ensures Snapshot() == Step(ekf.algebra, ext, old(Snapshot()), m)
    {
      if !isInitialized {
        InitializeFrom(m);
        return;
      }
      PredictFor(m);
      UpdateFor(m);
    }

    /** The initialisation section of ProcessMeasurement. */
    method InitializeFrom(m: Measurement)
      requires Valid() && !isInitialized && (m.sensor == Unknown || |m.raw| >= 2)
      modifies this, ekf
      ensures Valid()
      ensures Snapshot() == InitStage(ext, old(Snapshot()), m)
    {
      // placeholder position (1, 1), overwritten for radar and laser
      var px, py := 1.0, 1.0;
      if m.sensor == Radar {
        var rho := m.raw[0];
        var phi := m.raw[1];
        px := rho * ext.cos(phi);
        py := rho * ext.sin(phi);
      } else if m.sensor == Laser {
        px := m.raw[0];
        py := m.raw[1];
      }
      ekf.x := [px, py, 0.8, 0.8];
      ghost var x0 := FirstState(ext, m);
      assert px == x0[0] && py == x0[1] && 0.8 == x0[2] == x0[3];
      ekf.F := Identity4;
      previousTimestamp := m.timestamp;
      isInitialized := true;
      TransitionAtZero();
    }

    /** The prediction section of ProcessMeasurement. */
    method PredictFor(m: Measurement)
      requires Valid() && isInitialized
      modifies this, ekf
      ensures Valid() && isInitialized
      ensures Snapshot() == PredictStage(ekf.algebra, old(Snapshot()), m)
    {
      var dt := ElapsedSeconds(previousTimestamp, m.timestamp);
      previousTimestamp := m.timestamp;
      Retime(ekf.F, dt);
      ekf.F := SetEntry(ekf.F, 0, 2, dt);
      ekf.F := SetEntry(ekf.F, 1, 3, dt);
      ekf.Q := ProcessNoise(dt);
      ekf.Predict();
    }

    /** The update section of ProcessMeasurement. */
    method UpdateFor(m: Measurement)
      requires Valid()
      modifies ekf
      ensures Valid()
      ensures Snapshot() == UpdateStage(ekf.algebra, ext, old(Snapshot()), m)
    {
      if m.sensor == Radar {
        ekf.H := ext.calculateJacobian(ekf.x);
        ekf.R := rRadar;
        ekf.UpdateEKF(m.raw);
      } else {
        ekf.H := hLaser;
        ekf.R := rLaser;
        ekf.Update(m.raw);
      }
    }
  }
}
