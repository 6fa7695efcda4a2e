// The Kalman core object `ekf_` that FusionEKF owns and drives. Its
// Predict, Update and UpdateEKF bodies (kalman_filter.cpp) are not part of
// this model: each is an uninterpreted operation supplied as a function
// value, and every call is recorded in a ghost log so that contracts can
// speak about which operations ran, with which staged matrices, in which
// order.
module Kalman {
  import opened Matrices

  /** The filter's estimate: state vector x_ and state covariance P_. */
  datatype Estimate = Estimate(x: Vec, P: Mat)

  /** The abstract effect of the three Kalman operations on the estimate. */
  datatype KalmanAlgebra = KalmanAlgebra(
    predict: (Estimate, Mat, Mat) -> Estimate,          // estimate, F_, Q_
    update: (Estimate, Vec, Mat, Mat) -> Estimate,      // estimate, z, H_, R_
    updateEKF: (Estimate, Vec, Mat, Mat) -> Estimate)   // estimate, z, H_, R_

  /** One call into the Kalman core, with the matrices staged for it. */
  datatype Call =
    | Predicted(F: Mat, Q: Mat)
    | Updated(z: Vec, H: Mat, R: Mat)
    | UpdatedEKF(z: Vec, H: Mat, R: Mat)

  class KalmanFilter {
    var x: Vec
    var P: Mat
    var F: Mat
    var Q: Mat
    var H: Mat
    var R: Mat
    const algebra: KalmanAlgebra
    /** Every call to Predict, Update and UpdateEKF so far, oldest first. */
    ghost var calls: seq<Call>

    /** A fresh core: every Eigen member is default-constructed (empty). */
    constructor (algebra: KalmanAlgebra)
      ensures this.algebra == algebra
      ensures x == [] && P == [] && F == [] && Q == [] && H == [] && R == []
      ensures calls == []
    {
      this.algebra := algebra;
      x, P, F, Q, H, R := [], [], [], [], [], [];
      calls := [];
    }

    /** Time update with the staged F_ and Q_. */
    method Predict()
      modifies this
      ensures Estimate(x, P) == algebra.predict(old(Estimate(x, P)), F, Q)
      ensures calls == old(calls) + [Predicted(F, Q)]
      ensures F == old(F) && Q == old(Q) && H == old(H) && R == old(R)
    {
      var e := algebra.predict(Estimate(x, P), F, Q);
      x, P := e.x, e.P;
      calls := calls + [Predicted(F, Q)];
    }

    /** Linear measurement update with the staged H_ and R_. */
    method Update(z: Vec)
      modifies this
      ensures Estimate(x, P) == algebra.update(old(Estimate(x, P)), z, H, R)
      ensures calls == old(calls) + [Updated(z, H, R)]
      ensures F == old(F) && Q == old(Q) && H == old(H) && R == old(R)
    {
      var e := algebra.update(Estimate(x, P), z, H, R);
      x, P := e.x, e.P;
      calls := calls + [Updated(z, H, R)];
    }

    /** Extended (linearised) measurement update with the staged H_ and R_. */
    method UpdateEKF(z: Vec)
      modifies this
      ensures Estimate(x, P) == algebra.updateEKF(old(Estimate(x, P)), z, H, R)
      ensures calls == old(calls) + [UpdatedEKF(z, H, R)]
      ensures F == old(F) && Q == old(Q) && H == old(H) && R == old(R)
    {
      var e := algebra.updateEKF(Estimate(x, P), z, H, R);
      x, P := e.x, e.P;
      calls := calls + [UpdatedEKF(z, H, R)];
    }
  }
}
