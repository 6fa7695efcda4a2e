// The time-dependent matrices of the constant-velocity motion model that
// FusionEKF::ProcessMeasurement rebuilds on every cycle (src/FusionEKF.cpp).
// The state is (px, py, vx, vy): indices 0 and 2 are x-components, 1 and 3
// are y-components.
module Kinematics {
  import opened Matrices

  /** Timestamps are in microseconds; dt is in seconds. */
  const MicrosPerSecond: real := 1000000.0

  /** Acceleration noise intensities, fixed in the source. */
  const NoiseAx: real := 9.0
  const NoiseAy: real := 9.0

  /** dt = (now - previous) / 1e6, from the previous (old) timestamp. */
  function ElapsedSeconds(previous: int, now: int): (dt: real)
    ensures dt * MicrosPerSecond == (now - previous) as real
    ensures (dt == 0.0) <==> (now == previous)
    ensures (dt > 0.0) <==> (now > previous)
  {
    (now - previous) as real / MicrosPerSecond
  }

  /** The state transition matrix for elapsed time dt. */
  function Transition(dt: real): (F: Mat)
    ensures IsMat(F, 4, 4)
    ensures F[0][2] == dt && F[1][3] == dt
    ensures forall i, j :: 0 <= i < 4 && 0 <= j < 4 && !(i == 0 && j == 2) && !(i == 1 && j == 3) ==>
      F[i][j] == Identity4[i][j]
  {
    [[1.0, 0.0, dt, 0.0],
     [0.0, 1.0, 0.0, dt],
     [0.0, 0.0, 1.0, 0.0],
     [0.0, 0.0, 0.0, 1.0]]
  }

  /** F is the identity except for one shared coupling value at (0,2) and (1,3). */
  predicate IsTransition(F: Mat) {
    IsMat(F, 4, 4) && F == Transition(F[0][2])
  }

  /** With no elapsed time the transition matrix is the identity. */
  lemma TransitionAtZero()
    ensures Transition(0.0) == Identity4
  {
    var F, I := Transition(0.0), Identity4;
    forall i | 0 <= i < 4
      ensures F[i] == I[i]
    {
      assert |F[i]| == |I[i]| == 4;
    }
  }

  /** Writing dt into entries (0,2) and (1,3) of a transition matrix, as the
      source does in place, yields the transition matrix for dt: no other
      entry depends on the previous cycle. */
  lemma {:induction false} Retime(F: Mat, dt: real)
    requires IsTransition(F)
    ensures SetEntry(SetEntry(F, 0, 2, dt), 1, 3, dt) == Transition(dt)
  {
    var G, T := SetEntry(SetEntry(F, 0, 2, dt), 1, 3, dt), Transition(dt);
    forall i | 0 <= i < 4
      ensures G[i] == T[i]
    {
      assert |G[i]| == |T[i]| == 4;
      forall j | 0 <= j < 4
        ensures G[i][j] == T[i][j]
      {
        if !(i == 0 && j == 2) && !(i == 1 && j == 3) {
          assert G[i][j] == F[i][j] == Transition(F[0][2])[i][j] == Identity4[i][j];
        }
      }
    }
  }

  lemma FourthPowerNonNegative(dt: real)
    ensures dt * dt * dt * dt >= 0.0
  {
    assert dt * dt * dt * dt == (dt * dt) * (dt * dt);
  }

  /** The process noise covariance for elapsed time dt: the discretised
      white-noise acceleration model with intensities NoiseAx, NoiseAy. */
  function ProcessNoise(dt: real): (Q: Mat)
    ensures IsMat(Q, 4, 4)
    ensures IsSymmetric(Q)
    ensures forall i :: 0 <= i < 4 ==> Q[i][i] >= 0.0
    ensures forall i, j :: 0 <= i < 4 && 0 <= j < 4 && i % 2 != j % 2 ==> Q[i][j] == 0.0
  {
    var dt2 := dt * dt;
    var dt3 := dt2 * dt;
    var dt4 := dt3 * dt;
    FourthPowerNonNegative(dt);
    [[dt4 / 4.0 * NoiseAx, 0.0, dt3 / 2.0 * NoiseAx, 0.0],
     [0.0, dt4 / 4.0 * NoiseAy, 0.0, dt3 / 2.0 * NoiseAy],
     [dt3 / 2.0 * NoiseAx, 0.0, dt2 * NoiseAx, 0.0],
     [0.0, dt3 / 2.0 * NoiseAy, 0.0, dt2 * NoiseAy]]
  }

  /** With no elapsed time there is no process noise. */
  lemma ProcessNoiseAtZero()
    ensures ProcessNoise(0.0) == Zero(4, 4)
  {
    var Q, Z := ProcessNoise(0.0), Zero(4, 4);
    forall i | 0 <= i < 4
      ensures Q[i] == Z[i]
    {
      assert |Q[i]| == |Z[i]| == 4;
    }
  }

  /** Q is not additive in dt: two short cycles do not add up to one long one. */
  lemma ProcessNoiseNotAdditive(a: real, b: real)
    requires a != 0.0 && b != 0.0
    ensures ProcessNoise(a + b)[2][2] != ProcessNoise(a)[2][2] + ProcessNoise(b)[2][2]
  {
    assert (a + b) * (a + b) == a * a + b * b + 2.0 * a * b;
    assert a * b != 0.0;
  }
}
