/** The constant-velocity Kalman filter over the state [x, vx, y, vy], measuring x and y. */
module Kalman {
  import opened Matrices

  /** Process noise on the position and on the velocity components. */
  const QPos: real := 1e-5
  const QVel: real := 1e-3
  /** Measurement noise on each coordinate. */
  const MeasNoise: real := 1e-6
  /** Covariance scale of a fresh filter, and of a filter seeded from a measurement. */
  const InitialCov: real := 1e3
  const SeedCov: real := 1e-1

  /** The transition over dt seconds: each position advances by its velocity times dt. */
  function Transition(dt: real): (F: Matrix)
    ensures IsMatrix(F, 4, 4)
  {
    [[1.0, dt, 0.0, 0.0],
     [0.0, 1.0, 0.0, 0.0],
     [0.0, 0.0, 1.0, dt],
     [0.0, 0.0, 0.0, 1.0]]
  }

  function ProcessNoise(): (Q: Matrix)
    ensures IsMatrix(Q, 4, 4)
  {
    [[QPos, 0.0, 0.0, 0.0],
     [0.0, QVel, 0.0, 0.0],
     [0.0, 0.0, QPos, 0.0],
     [0.0, 0.0, 0.0, QVel]]
  }

  /** The measurement picks the two positions out of the state. */
  function Observation(): (H: Matrix)
    ensures IsMatrix(H, 2, 4)
  {
    [[1.0, 0.0, 0.0, 0.0],
     [0.0, 0.0, 1.0, 0.0]]
  }

  function MeasurementNoise(): (R: Matrix)
    ensures IsMatrix(R, 2, 2)
  {
    [[MeasNoise, 0.0], [0.0, MeasNoise]]
  }

  function Zeros(m: nat, n: nat): (Z: Matrix)
    ensures IsMatrix(Z, m, n)
    ensures forall i, j :: 0 <= i < m && 0 <= j < n ==> Z[i][j] == 0.0
  {
    seq(m, _ => seq(n, _ => 0.0))
  }

  /** A state vector built from its four components. */
  function StateVector(px: real, vx: real, py: real, vy: real): (s: Matrix)
    ensures IsMatrix(s, 4, 1)
  {
    [[px], [vx], [py], [vy]]
  }

  /** The state after a prediction step: F x. */
  function PredictedState(x: Matrix, dt: real): (x': Matrix)
    requires IsMatrix(x, 4, 1)
    ensures IsMatrix(x', 4, 1)
  {
    Product(Transition(dt), x)
  }

  /** The covariance after a prediction step: F P F^T + Q. */
  function PredictedCov(P: Matrix, dt: real): (P': Matrix)
    requires IsMatrix(P, 4, 4)
    ensures IsMatrix(P', 4, 4)
  {
    var FP := Product(Transition(dt), P);
    Add(Product(FP, Transpose(Transition(dt))), ProcessNoise())
  }

  /** The innovation covariance H P H^T + R. */
  function InnovationCov(P: Matrix): (S: Matrix)
    requires IsMatrix(P, 4, 4)
    ensures IsMatrix(S, 2, 2)
  {
    Add(Product(Product(Observation(), P), Transpose(Observation())), MeasurementNoise())
  }

  /** The gain P H^T S^-1, with the inverse of `inv2x2`. */
  function Gain(P: Matrix): (K: Matrix)
    requires IsMatrix(P, 4, 4)
    ensures IsMatrix(K, 4, 2)
  {
    Product(Product(P, Transpose(Observation())), Inv2x2(InnovationCov(P)))
  }

  /** The measurement residual z - H x. */
  function Innovation(x: Matrix, z: Matrix): (r: Matrix)
    requires IsMatrix(x, 4, 1) && IsMatrix(z, 2, 1)
    ensures IsMatrix(r, 2, 1)
  {
    Sub(z, Product(Observation(), x))
  }

  /** The state after an update: x + K (z - H x). */
  function UpdatedState(x: Matrix, P: Matrix, z: Matrix): (x': Matrix)
    requires IsMatrix(x, 4, 1) && IsMatrix(P, 4, 4) && IsMatrix(z, 2, 1)
    ensures IsMatrix(x', 4, 1)
  {
    Add(x, Product(Gain(P), Innovation(x, z)))
  }

  /** The covariance after an update: (I - K H) P. */
  function UpdatedCov(P: Matrix): (P': Matrix)
    requires IsMatrix(P, 4, 4)
    ensures IsMatrix(P', 4, 4)
  {
    Product(Sub(Identity(4, 1.0), Product(Gain(P), Observation())), P)
  }

  /** A four-term inner product written out. */
  lemma Dot4(A: Matrix, B: Matrix, i: nat, j: nat)
    requires Conformable(A, B) && |B| == 4 && i < |A| && j < |B[0]|
    ensures Dot(A, B, i, j, 4) == A[i][0] * B[0][j] + A[i][1] * B[1][j] + A[i][2] * B[2][j] + A[i][3] * B[3][j]
  {
    assert Dot(A, B, i, j, 2) == A[i][0] * B[0][j] + A[i][1] * B[1][j] by {
      assert Dot(A, B, i, j, 1) == A[i][0] * B[0][j];
    }
  }

  /** Prediction is the constant-velocity motion: each position advances by its velocity
      times dt and the velocities are kept. */
  lemma PredictAdvancesPositions(x: Matrix, dt: real)
    requires IsMatrix(x, 4, 1)
    ensures PredictedState(x, dt) == StateVector(x[0][0] + dt * x[1][0], x[1][0], x[2][0] + dt * x[3][0], x[3][0])
  {
    var F := Transition(dt);
    var y := PredictedState(x, dt);
    var e := StateVector(x[0][0] + dt * x[1][0], x[1][0], x[2][0] + dt * x[3][0], x[3][0]);
    forall i, j | 0 <= i < 4 && 0 <= j < 1 ensures y[i][j] == e[i][j] {
      Dot4(F, x, i, 0);
    }
    EqualEntries(y, e, 4, 1);
  }

  /** The observation reads the two positions out of a state vector. */
  lemma ObservationReadsPositions(x: Matrix)
    requires IsMatrix(x, 4, 1)
    ensures Conformable(Observation(), x)
    ensures Product(Observation(), x) == [[x[0][0]], [x[2][0]]]
  {
    var H := Observation();
    var y := Product(H, x);
    var e := [[x[0][0]], [x[2][0]]];
    forall i, j | 0 <= i < 2 && 0 <= j < 1 ensures y[i][j] == e[i][j] {
      Dot4(H, x, i, 0);
    }
    EqualEntries(y, e, 2, 1);
  }

  /** Any matrix times a zero matrix is zero. */
  lemma {:induction false} DotZero(A: Matrix, B: Matrix, i: nat, j: nat, k: nat)
    requires Conformable(A, B) && i < |A| && j < |B[0]| && k <= |B|
    requires forall t :: 0 <= t < |B| ==> B[t][j] == 0.0
    ensures Dot(A, B, i, j, k) == 0.0
  {
    if k > 0 {
      DotZero(A, B, i, j, k - 1);
    }
  }

  /** A measurement that matches the predicted position exactly leaves the state unchanged,
      whatever the gain. */
  lemma ZeroInnovationKeepsState(x: Matrix, P: Matrix, z: Matrix)
    requires IsMatrix(x, 4, 1) && IsMatrix(P, 4, 4) && IsMatrix(z, 2, 1)
    requires z[0][0] == x[0][0] && z[1][0] == x[2][0]
    ensures UpdatedState(x, P, z) == x
  {
    ObservationReadsPositions(x);
    var r := Innovation(x, z);
    assert forall t :: 0 <= t < 2 ==> r[t][0] == 0.0;
    var K := Gain(P);
    var Kr := Product(K, r);
    forall i | 0 <= i < 4 ensures Kr[i][0] == 0.0 {
      DotZero(K, r, i, 0, 2);
    }
    var x' := UpdatedState(x, P, z);
    EqualEntries(x', x, 4, 1);
  }

  /** A filter seeded from a measurement and then updated with that same measurement still
      holds the measured position and zero velocity. */
  lemma SeededUpdateKeepsMeasurement(z: Matrix, P: Matrix)
    requires IsMatrix(z, 2, 1) && IsMatrix(P, 4, 4)
    ensures UpdatedState(StateVector(z[0][0], 0.0, z[1][0], 0.0), P, z) == StateVector(z[0][0], 0.0, z[1][0], 0.0)
  {
    ZeroInnovationKeepsState(StateVector(z[0][0], 0.0, z[1][0], 0.0), P, z);
  }

  /** What `getState` reports. */
  datatype State = State(x: real, vx: real, y: real, vy: real)

  /** The reading of a state vector: position and velocity on each axis. */
  function Reported(x: Matrix): State
    requires IsMatrix(x, 4, 1)
  {
    State(x[0][0], x[1][0], x[2][0], x[3][0])
  }

  /** After a prediction, the reported positions have moved by velocity times dt and the
      reported velocities are unchanged. */
  lemma ReportsPrediction(x: Matrix, dt: real)
    requires IsMatrix(x, 4, 1)
    ensures var r := Reported(x);
      Reported(PredictedState(x, dt)) == State(r.x + dt * r.vx, r.vx, r.y + dt * r.vy, r.vy)
  {
    PredictAdvancesPositions(x, dt);
  }

  /** The filter object of `createKalman`: state vector x (4 by 1) and covariance P (4 by 4). */
  class Filter {
    var x: Matrix
    var P: Matrix

    ghost predicate Valid()
      reads this
    {
      IsMatrix(x, 4, 1) && IsMatrix(P, 4, 4)
    }

    /** A fresh filter: zero state, covariance 1000 times the identity. */
    constructor ()
      ensures Valid()
      ensures x == Zeros(4, 1) && P == Identity(4, InitialCov)
    {
      x := Zeros(4, 1);
      P := Identity(4, InitialCov);
    }

    /** `predict(dt)`. */
    method Predict(dt: real)
      requires Valid()
      modifies this
      ensures Valid()
      ensures x == PredictedState(old(x), dt) && P == PredictedCov(old(P), dt)
      ensures GetState() == State(old(GetState()).x + dt * old(GetState()).vx, old(GetState()).vx,
                                  old(GetState()).y + dt * old(GetState()).vy, old(GetState()).vy)
    {
      ReportsPrediction(x, dt);
      var F := Transition(dt);
      x := MatMul(F, x);
      var FP := MatMul(F, P);
      var FPFt := MatMul(FP, Transpose(F));
      P := Add(FPFt, ProcessNoise());
    }

    /** `update(z)` with z the measured position as a 2-by-1 matrix. */
    method Update(z: Matrix)
      requires Valid() && IsMatrix(z, 2, 1)
      modifies this
      ensures Valid()
      ensures x == UpdatedState(old(x), old(P), z) && P == UpdatedCov(old(P))
    {
      var H := Observation();
      var Hx := MatMul(H, x);
      var residual := Sub(z, Hx);
      var HP := MatMul(H, P);
      var HPHt := MatMul(HP, Transpose(H));
      var S := Add(HPHt, MeasurementNoise());
      var PHt := MatMul(P, Transpose(H));
      var K := MatMul(PHt, Inv2x2(S));
      var Kr := MatMul(K, residual);
      x := Add(x, Kr);
      var I := Identity(4, 1.0);
      var KH := MatMul(K, H);
      P := MatMul(Sub(I, KH), P);
    }

    /** `setFromMeasurement(z)`: position from z, zero velocity, covariance 0.1 times the
        identity. */
    method SetFromMeasurement(z: Matrix)
      requires IsMatrix(z, 2, 1)
      modifies this
      ensures Valid()
      ensures x == StateVector(z[0][0], 0.0, z[1][0], 0.0) && P == Identity(4, SeedCov)
      ensures GetState() == State(z[0][0], 0.0, z[1][0], 0.0)
    {
      x := [[z[0][0]], [0.0], [z[1][0]], [0.0]];
      P := Identity(4, SeedCov);
    }

    /** `getState`. */
    function GetState(): State
      reads this
      requires Valid()
    {
      Reported(x)
    }
  }
}
