# FusionEKF controller: a Dafny model

This project models the measurement-processing controller `FusionEKF` of a
lidar/radar Extended Kalman Filter tracker (src/FusionEKF.cpp). The
controller is a two-state machine, uninitialised and running, tracked by
`is_initialized_`. It also keeps `previous_timestamp_`, and it owns a Kalman
core object `ekf_` whose fields are `x_`, `P_`, `F_`, `Q_`, `H_` and `R_`.

- The constructor fixes the sensor matrices `R_laser_`, `R_radar_` and
  `H_laser_`. It also sets `P_`, and sets `F_` to the constant-velocity
  matrix with couplings 1.
- The first measurement fills `x_` from the raw values. It sets `F_` to the
  identity, records the timestamp and makes the filter initialised. It calls
  no Kalman operation.
- Every later measurement computes `dt = (timestamp - previous_timestamp_) / 1e6`
  from the old timestamp and then stores the new one. It writes `dt` into
  `F_(0,2)` and `F_(1,3)` in place and rebuilds `Q_` from `dt` with noise
  intensities 9 and 9. It calls `Predict`. Then, for radar, it stages the
  Jacobian at the predicted state and `R_radar_` and calls `UpdateEKF`. For
  every other sensor it stages `H_laser_` and `R_laser_` and calls `Update`.

Layout:

- `matrices.dfy` (module `Matrices`): matrices and vectors as `seq<seq<real>>`
  and `seq<real>` values. Eigen copies on assignment, so value semantics is
  faithful.
- `kinematics.dfy` (module `Kinematics`): the elapsed time, the transition
  matrix `F` and the process noise `Q`, with their properties.
- `kalman_filter.dfy` (module `Kalman`): the class `KalmanFilter` for `ekf_`.
  Its `Predict`, `Update` and `UpdateEKF` apply uninterpreted operations
  (function-valued fields of `KalmanAlgebra`). They also append a `Call`
  record to a ghost log, `calls`.
- `fusion_ekf.dfy` (module `Fusion`): the class `FusionEKF`. The pure
  function `Step` gives the whole state after one `ProcessMeasurement`.
  The method's postcondition is `Snapshot() == Step(..., old(Snapshot()), m)`.
  The method is split into the three sections the source marks:
  initialisation, prediction and update.
- `fusion_properties.dfy` (modules `FusionProperties`, `FusionScenario`):
  lemmas about one `Step` and about `Run`, which processes a whole sequence
  of measurements. It also holds a client that drives the class through a
  laser-then-radar scenario.

Calls into code outside src/FusionEKF.cpp are parameters. These are
the Jacobian from the `tools` member and `cos`/`sin` (datatype `External`), and the three
Kalman operations (datatype `KalmanAlgebra`). So every contract speaks about
what the controller stages, and in what order it calls these operations.

Behaviour of the code worth noting:

- The first state's velocity is the placeholder (0.8, 0.8).
- A sensor tag that is neither radar nor laser keeps the placeholder
  position (1, 1) on the first measurement. On later measurements it takes
  the laser path, because the update dispatch is `if radar ... else`.
- There is no rejection of malformed measurements and no check that
  timestamps increase. A decreasing timestamp gives a negative `dt`.
- The constructor's `F_` has 1 at (0,2) and (1,3). That is `Transition(1)`,
  not the identity. The first measurement replaces it with the identity.
- This file has no Jacobian division-by-zero guard. tools.cpp is not part
  of this model.

## Model

| member | source | states |
|---|---|---|
| Kinematics.ElapsedSeconds | src/FusionEKF.cpp:122 | dt·10⁶ equals the timestamp difference; dt is zero exactly when the timestamps are equal and positive exactly when the new one is later |
| Kinematics.Transition | src/FusionEKF.cpp:129-131 | a 4×4 matrix whose entries (0,2) and (1,3) are dt and whose every other entry equals the identity's |
| Kinematics.TransitionAtZero | src/FusionEKF.cpp:94-99 | the transition matrix for dt = 0 is the identity the first measurement installs |
| Kinematics.Retime | src/FusionEKF.cpp:130-131 | writing dt into entries (0,2) and (1,3) of any constant-velocity matrix gives exactly the transition matrix for dt, so no other entry changes or remembers an earlier cycle |
| Kinematics.ProcessNoise | src/FusionEKF.cpp:125-143 | Q is 4×4 and symmetric, its diagonal is non-negative for every dt, and it is zero wherever an x-component meets a y-component |
| Kinematics.ProcessNoiseAtZero | src/FusionEKF.cpp:139-143 | Q is the zero matrix when dt = 0 |
| Kinematics.ProcessNoiseNotAdditive | src/FusionEKF.cpp:139-143 | for non-zero a and b, the vx-variance of Q(a + b) differs from the sum of those of Q(a) and Q(b), so Q is not additive in dt |
| Kalman.KalmanFilter.constructor | src/FusionEKF.cpp:12 | the core starts with every Eigen member default-constructed (empty) and an empty call log, before FusionEKF's constructor sets P_ and F_ |
| Kalman.KalmanFilter.Predict | src/FusionEKF.cpp:145 | the estimate (x_, P_) becomes the predict operation applied to the old estimate and the staged F_, Q_; one Predict call is logged; F_, Q_, H_, R_ are unchanged |
| Kalman.KalmanFilter.Update | src/FusionEKF.cpp:170-172 | the estimate becomes the linear update of the old one with z and the staged H_, R_; one Update call is logged; F_, Q_, H_, R_ are unchanged |
| Kalman.KalmanFilter.UpdateEKF | src/FusionEKF.cpp:161-166 | the estimate becomes the extended update of the old one with z and the staged H_, R_; one UpdateEKF call is logged; F_, Q_, H_, R_ are unchanged |
| Fusion.FirstState | src/FusionEKF.cpp:75-92 | the first state vector has four components (its values are stated by FusionProperties.FirstMeasurement) |
| Fusion.InitStage | src/FusionEKF.cpp:65-108 | the state after the initialisation section: initialised, the measurement's timestamp, x_ = FirstState of the measurement, F_ the identity; P_, Q_, H_, R_ and the call log unchanged (through Step, also stated by FusionProperties.FirstMeasurement) |
| Fusion.PredictStage | src/FusionEKF.cpp:122-145 | the state after the prediction section: previous_timestamp_ is the new timestamp, F_ = Transition(dt) and Q_ = ProcessNoise(dt) for dt from the old timestamp, the estimate is predict of the old one with those F_ and Q_, one Predict call appended; H_, R_ and the initialised flag unchanged |
| Fusion.UpdateStage | src/FusionEKF.cpp:157-173 | the state after the update section: for radar H_ is the Jacobian at the current x_, R_ = R_radar_ and the estimate is the extended update, with one UpdateEKF call appended; for every other sensor H_ = H_laser_, R_ = R_laser_ and the estimate is the linear update, with one Update call appended; F_, Q_, the timestamp and the flag unchanged (through Step, also stated by FusionProperties.LaterMeasurement) |
| Fusion.Step | src/FusionEKF.cpp:60-179 | after any measurement F_ is still of constant-velocity form, the filter is initialised, and previous_timestamp_ is that measurement's timestamp |
| Fusion.FusionEKF.constructor | src/FusionEKF.cpp:12-53 | uninitialised, previous_timestamp_ = 0, R_laser_ = diag(0.0225, 0.0225), R_radar_ = diag(0.09, 0.0009, 0.09), H_laser_ selects px and py, P_ = diag(1, 1, 1000, 1000), F_ = Transition(1), an empty call log |
| Fusion.FusionEKF.ProcessMeasurement | src/FusionEKF.cpp:60-179 | keeps the object invariant: the sensor matrices are unchanged and F_ is of constant-velocity form; the new state of controller and core is Step of the old state |
| Fusion.FusionEKF.InitializeFrom | src/FusionEKF.cpp:65-108 | the initialisation section: x_ from the measurement, F_ the identity, timestamp recorded, initialised, nothing else changed |
| Fusion.FusionEKF.PredictFor | src/FusionEKF.cpp:122-145 | the prediction section: dt from the old timestamp, the new timestamp stored, F_ retimed in place, Q_ rebuilt, one Predict |
| Fusion.FusionEKF.UpdateFor | src/FusionEKF.cpp:157-173 | the update section: radar stages the Jacobian at the current x_ and R_radar_ and calls UpdateEKF; otherwise H_laser_ and R_laser_ are staged and Update is called |
| FusionProperties.FirstMeasurement | src/FusionEKF.cpp:65-108 | the first measurement makes the filter initialised and records its timestamp; F_ becomes the identity; no Kalman call is made; P_, Q_, H_, R_ are kept; velocity is (0.8, 0.8); the position is (raw[0], raw[1]) for laser, (rho·cos phi, rho·sin phi) for radar, and (1, 1) for any other sensor |
| FusionProperties.LaterMeasurement | src/FusionEKF.cpp:122-173 | a later measurement: dt from the old timestamp, which is then replaced; F_ = Transition(dt), Q_ = ProcessNoise(dt); exactly two calls are appended, Predict first; radar gets the Jacobian of the post-predict x_ and R_radar_ with UpdateEKF; every other sensor gets H_laser_ and R_laser_ with Update |
| FusionProperties.SameTimestamp | src/FusionEKF.cpp:122-143 | a measurement with the previous timestamp leaves F_ as the identity and Q_ as the zero matrix |
| FusionProperties.LaserMatrixSelectsPosition | src/FusionEKF.cpp:29-31 | H_laser_ · x = (px, py) for every 4-component state |
| FusionProperties.ConstantCovariancesSymmetric | src/FusionEKF.cpp:17-45 | the initial P_ and both measurement noise covariances are symmetric |
| FusionProperties.Run | src/FusionEKF.cpp:60-179 | after a non-empty sequence of measurements the filter is initialised and holds the last measurement's timestamp, and F_ is of constant-velocity form |
| FusionProperties.StepAppendsCycle | src/FusionEKF.cpp:145-173 | a later measurement extends the call log by a Predict with Transition(dt) and ProcessNoise(dt), followed by the update call that matches the sensor |
| FusionProperties.RunningCycles | src/FusionEKF.cpp:122-173 | from a running filter, any sequence of measurements extends the call log by exactly one cycle per measurement: a Predict with that measurement's F_ and Q_, then its matching update |
| FusionProperties.RunningTransition | src/FusionEKF.cpp:122-131 | from a running filter, F_ after a non-empty sequence is the transition matrix for the last measurement's dt |
| FusionProperties.FromStart | src/FusionEKF.cpp:60-179 | from an uninitialised filter, the first measurement adds no call and each later one adds one cycle; afterwards the filter is initialised, holds the last timestamp, and F_ is the identity after one measurement and Transition(last dt) after more |
| FusionProperties.CyclesShape | src/FusionEKF.cpp:145-173 | in a log of cycles, Predict runs exactly once per measurement, every Predict is directly followed by an update, and every update directly follows a Predict |
| FusionScenario.LaserThenRadar | src/FusionEKF.cpp:60-179 | a laser reading (1, 1) at t = 0 sets position (1, 1); a radar reading at t = 100000 µs then leaves F_ = Transition(0.1), Q_ = ProcessNoise(0.1) and R_ = R_radar_ |

## Left out

- The bodies of `Predict`, `Update` and `UpdateEKF` (kalman_filter.cpp) are not part of this model. They are uninterpreted operations, so nothing is said about their algebra. This includes the symmetry of `P_` after an update and the bearing normalisation in `UpdateEKF`.
- The read/write frame of `Predict`, `Update` and `UpdateEKF` is assumed, not derived: the model takes each of them to write only `x_` and `P_`, and to compute its result only from `x_`, `P_`, the staged matrices and `z`. The facts that `F_` stays `Transition(dt)` after a cycle, that `H_` stays the staged Jacobian, and that the object invariant survives `ProcessMeasurement` rest on this assumption.
- `CalculateJacobian` (tools.cpp) is not part of this model. It is an uninterpreted function, so its division-by-zero guard is not modelled.
- `cos` and `sin` in the radar initialisation are uninterpreted functions.
- Floating point is not modelled. `float dt`, `dt_2`, `dt_3`, `dt_4`, `noise_ax`, `noise_ay` and the `float` copies of `rho` and `phi` are exact `real`s, so their rounding is not captured.
- Timestamps are unbounded integers. The 64-bit subtraction in the `dt` computation cannot overflow in the model.
- Eigen's dynamic sizing is not modelled. Matrices are fixed nested sequences. `x_`, `Q_`, `H_` and `R_` start as empty sequences, which stand for default-constructed Eigen objects. The shapes of the values the uninterpreted operations return are not constrained.
- The constructor of `KalmanFilter` (kalman_filter.cpp) is not part of this model. The core is taken to start with default-constructed, empty members; this file writes `x_`, `Q_`, `H_` and `R_` before anything reads them.
- The `Hj_` placeholder (src/FusionEKF.cpp:34) is left out. It is allocated and never read.
- The empty destructor is left out.
- The commented-out console output is left out.
- Parsing of `MeasurementPackage` is left out. The sensor header is not part of this model, so a third tag `Unknown` stands for any value other than the two the code tests.
- The first measurement must carry at least two raw values when it is laser or radar (`Admissible`), because the source reads them unchecked. Later measurements pass their raw values only to the update operations, so they need nothing.
- Fusion.Step: it states the new state as a whole. The one-step facts are stated as separate lemmas (FirstMeasurement, LaterMeasurement) instead of in its own postcondition.
- Fusion.FirstState: its own contract states only the length. Its values are stated in FusionProperties.FirstMeasurement.
