/** The sensor-fusion controller of the Extended Kalman Filter
    (src/FusionEKF.cpp): it owns the filter's state, seeds it from the first
    measurement, resets it after a gap longer than a minute, rebuilds the
    transition and process-noise matrices for every elapsed time, runs the
    prediction and dispatches the correction by sensor type.

    The Kalman filter's own operations (Predict, Update, UpdateEKF), the
    radar Jacobian and cos/sin are not part of this model: they are given to
    the controller as the functions of a `Collaborators` value, and the model
    says only when and with what arguments they are called. */
module Fusion {
  import opened LinAlg
  import opened MotionModel

  datatype Option<T> = None | Some(value: T)

  /** The two sensor types of a measurement package. */
  datatype Sensor = Radar | Laser

  /** One timestamped measurement: laser raw values are (px, py), radar raw
      values are (ρ, θ, ρ̇); the timestamp counts microseconds. */
  datatype Measurement = Measurement(sensor: Sensor, raw: Vec, timestamp: int)

  /** The raw values that seeding reads are present. */
  predicate Readable(m: Measurement) {
    match m.sensor
    case Radar => |m.raw| >= 3
    case Laser => |m.raw| >= 2
  }

  /** Laser measurement matrix H_laser_: it observes the position. */
  const LaserH: Mat := [[1.0, 0.0, 0.0, 0.0],
                        [0.0, 1.0, 0.0, 0.0]]
  /** Laser measurement covariance R_laser_. */
  const LaserR: Mat := [[0.0225, 0.0],
                        [0.0, 0.0225]]
  /** Radar measurement covariance R_radar_. */
  const RadarR: Mat := [[0.09, 0.0, 0.0],
                        [0.0, 0.0009, 0.0],
                        [0.0, 0.0, 0.09]]
  /** The state covariance the constructor installs: positions known to 1,
      velocities to 1000. */
  const InitialP: Mat := [[1.0, 0.0, 0.0, 0.0],
                          [0.0, 1.0, 0.0, 0.0],
                          [0.0, 0.0, 1000.0, 0.0],
                          [0.0, 0.0, 0.0, 1000.0]]
  /** The transition matrix the constructor installs (coupling time 1). */
  const InitialF: Mat := CvTransition(1.0)

  /** The filter mean and covariance an opaque filter operation produces. */
  datatype Moments = Moments(x: Vec, P: Mat)

  /** The code the controller calls but that is not modelled here.
      - predict(x, P, F, Q): KalmanFilter::Predict
      - update(x, P, H, R, z): KalmanFilter::Update (the linear correction)
      - updateEKF(x, P, H, R, z): KalmanFilter::UpdateEKF (the radar correction)
      - jacobian(x): Tools::CalculateJacobian; None where it throws
        std::invalid_argument
      - cos, sin: the trigonometric functions used to seed from radar */
  datatype Collaborators = Collaborators(
    predict: (Vec, Mat, Mat, Mat) -> Moments,
    update: (Vec, Mat, Mat, Mat, Vec) -> Moments,
    updateEKF: (Vec, Mat, Mat, Mat, Vec) -> Moments,
    jacobian: Vec -> Option<Mat>,
    cos: real -> real,
    sin: real -> real)

  /** A call into the Kalman filter: the model matrices and the measurement
      it was given (besides the current x and P), and the mean and covariance
      it returned. */
  datatype Call =
    | Predicted(F: Mat, Q: Mat, out: Moments)
    | Updated(H: Mat, R: Mat, z: Vec, out: Moments)
    | UpdatedEKF(H: Mat, R: Mat, z: Vec, out: Moments)

  /** Everything the controller keeps between measurements: its lifecycle
      flag and last timestamp, the members of the embedded Kalman filter
      (x, P, F, Q, H, R) and the calls made into that filter so far. */
  datatype Filter = Filter(
    initialized: bool,
    previousTimestamp: int,
    x: Vec, P: Mat, F: Mat, Q: Mat, H: Mat, R: Mat,
    calls: seq<Call>)

  /** A radar reading (ρ, θ, ρ̇) turned into a Cartesian state: the
      position at range ρ along bearing θ, and the range rate taken as the
      whole velocity, pointing along the same bearing. */
  function PolarToCartesian(rho: real, theta: real, rhoDot: real, ops: Collaborators): (x: Vec)
    ensures |x| == 4
  {
    [ops.cos(theta) * rho, ops.sin(theta) * rho, ops.cos(theta) * rhoDot, ops.sin(theta) * rhoDot]
  }

  /** The state vector a first measurement seeds: the laser position with
      zero velocity, or the radar reading turned Cartesian. */
  function Seed(m: Measurement, ops: Collaborators): (x: Vec)
    requires Readable(m)
    ensures |x| == 4
  {
    match m.sensor
    case Radar => PolarToCartesian(m.raw[0], m.raw[1], m.raw[2], ops)
    case Laser => [m.raw[0], m.raw[1], 0.0, 0.0]
  }

  /** What one call of ProcessMeasurement does to the controller's state. */
  function Step(s: Filter, m: Measurement, ops: Collaborators): (r: Filter)
    requires IsMatrix(s.F, 4, 4)
    requires !s.initialized ==> Readable(m)
    ensures IsMatrix(r.F, 4, 4)
  {
    if !s.initialized then
      s.(initialized := true, previousTimestamp := m.timestamp, x := Seed(m, ops))
    else
      var dt := ElapsedSeconds(s.previousTimestamp, m.timestamp);
      if dt > MaxDt then
        s.(initialized := false)
      else
        var F := s.F[0 := s.F[0][2 := dt]][1 := s.F[1][3 := dt]];
        var Q := ProcessNoise(dt, NoiseAx, NoiseAy);
        var predicted := ops.predict(s.x, s.P, F, Q);
        var t := s.(previousTimestamp := m.timestamp, F := F, Q := Q,
                    x := predicted.x, P := predicted.P,
                    calls := s.calls + [Predicted(F, Q, predicted)]);
        match m.sensor
        case Radar =>
          (match ops.jacobian(t.x)
           case None => t
           case Some(Hj) =>
             var u := ops.updateEKF(t.x, t.P, Hj, RadarR, m.raw);
             t.(H := Hj, R := RadarR, x := u.x, P := u.P,
                calls := t.calls + [UpdatedEKF(Hj, RadarR, m.raw, u)]))
        case Laser =>
          var u := ops.update(t.x, t.P, LaserH, LaserR, m.raw);
          t.(H := LaserH, R := LaserR, x := u.x, P := u.P,
             calls := t.calls + [Updated(LaserH, LaserR, m.raw, u)])
  }

  /** The controller after it has processed `ms` in order, one at a time. */
  function Run(s: Filter, ms: seq<Measurement>, ops: Collaborators): (r: Filter)
    requires IsMatrix(s.F, 4, 4)
    requires forall i :: 0 <= i < |ms| ==> Readable(ms[i])
    ensures IsMatrix(r.F, 4, 4)
    decreases |ms|
  {
    if ms == [] then s else Run(Step(s, ms[0], ops), ms[1..], ops)
  }

  /** Call `i` of `calls` is one the controller can make: a prediction over
      at most MaxDt seconds whose F and Q come from one and the same elapsed
      time, or a correction that directly follows a prediction and uses the
      sensor's fixed measurement noise (and, for laser, H_laser_). */
  ghost predicate CallSound(calls: seq<Call>, i: nat)
    requires i < |calls|
  {
    match calls[i]
    case Predicted(F, Q, _) =>
      IsTransition(F) && F[0][2] <= MaxDt && Q == ProcessNoise(F[0][2], NoiseAx, NoiseAy)
    case Updated(H, R, _, _) =>
      0 < i && calls[i - 1].Predicted? && H == LaserH && R == LaserR
    case UpdatedEKF(_, R, _, _) =>
      0 < i && calls[i - 1].Predicted? && R == RadarR
  }

  /** The invariant the controller keeps: F is always a constant-velocity
      transition, and every call made into the filter was sound. */
  ghost predicate Invariant(s: Filter) {
    IsTransition(s.F) && forall i :: 0 <= i < |s.calls| ==> CallSound(s.calls, i)
  }

  /** The fusion controller FusionEKF. */
  class FusionEKF {
    /** is_initialized_: whether the state has been seeded. */
    var isInitialized: bool
    /** previous_timestamp_: the last timestamp processed, in microseconds. */
    var previousTimestamp: int
    /** The members of the embedded Kalman filter ekf_. */
    var x: Vec
    var P: Mat
    var F: Mat
    var Q: Mat
    var H: Mat
    var R: Mat
    /** The calls made into the Kalman filter, oldest first. */
    ghost var calls: seq<Call>
    /** The operations of the Kalman filter, the Jacobian and cos/sin. */
    const ops: Collaborators

    ghost function State(): Filter
      reads this
    {
      Filter(isInitialized, previousTimestamp, x, P, F, Q, H, R, calls)
    }

    ghost predicate Valid()
      reads this
    {
      Invariant(State())
    }

    /** Builds an unseeded controller with the fixed prior covariance and
        the initial transition matrix. The storage of x, Q, H and R is left
        uninitialised by the constructor; the model fills it with zeros and
        promises nothing about it. */
    constructor (ops: Collaborators)
      ensures Valid()
      ensures !isInitialized && previousTimestamp == 0
      ensures P == InitialP && F == InitialF && calls == []
      ensures this.ops == ops
    {
      this.ops := ops;
      isInitialized := false;
      previousTimestamp := 0;
      x := [0.0, 0.0, 0.0, 0.0];
      P := InitialP;
      F := InitialF;
      Q := [[0.0, 0.0, 0.0, 0.0], [0.0, 0.0, 0.0, 0.0], [0.0, 0.0, 0.0, 0.0], [0.0, 0.0, 0.0, 0.0]];
      H := [];
      R := [];
      calls := [];
    }

    /** KalmanFilter::Predict, applied to the members it reads and writes. */
    method Predict()
      modifies this`x, this`P, this`calls
      ensures x == ops.predict(old(x), old(P), F, Q).x
      ensures P == ops.predict(old(x), old(P), F, Q).P
      ensures calls == old(calls) + [Predicted(F, Q, ops.predict(old(x), old(P), F, Q))]
    {
      var u := ops.predict(x, P, F, Q);
      x, P := u.x, u.P;
      calls := calls + [Predicted(F, Q, u)];
    }

    /** KalmanFilter::Update with measurement `z`, using the current H and R. */
    method Update(z: Vec)
      modifies this`x, this`P, this`calls
      ensures x == ops.update(old(x), old(P), H, R, z).x
      ensures P == ops.update(old(x), old(P), H, R, z).P
      ensures calls == old(calls) + [Updated(H, R, z, ops.update(old(x), old(P), H, R, z))]
    {
      var u := ops.update(x, P, H, R, z);
      x, P := u.x, u.P;
      calls := calls + [Updated(H, R, z, u)];
    }

    /** KalmanFilter::UpdateEKF with measurement `z`, using the current H and R. */
    method UpdateEKF(z: Vec)
      modifies this`x, this`P, this`calls
      ensures x == ops.updateEKF(old(x), old(P), H, R, z).x
      ensures P == ops.updateEKF(old(x), old(P), H, R, z).P
      ensures calls == old(calls) + [UpdatedEKF(H, R, z, ops.updateEKF(old(x), old(P), H, R, z))]
    {
      var u := ops.updateEKF(x, P, H, R, z);
      x, P := u.x, u.P;
      calls := calls + [UpdatedEKF(H, R, z, u)];
    }

    /** Processes one measurement: the new state is `Step` of the old one,
        whose branches are spelled out by StepSeeds, StepResetsAfterGap,
        StepPredicts, StepCorrectsLaser, StepCorrectsRadar and
        StepKeepsPredictionWithoutJacobian. */
    method ProcessMeasurement(m: Measurement)
      requires Valid()
      requires !isInitialized ==> Readable(m)
      modifies this
      ensures Valid()
      ensures State() == Step(old(State()), m, ops)
    {
      ghost var s := State();
      StepKeepsInvariant(s, m, ops);
      if !isInitialized {
        x := [1.0, 1.0, 1.0, 1.0];
        match m.sensor {
          case Radar =>
            var rho, theta, rhoDot := m.raw[0], m.raw[1], m.raw[2];
            x := PolarToCartesian(rho, theta, rhoDot, ops);
          case Laser =>
            x := [m.raw[0], m.raw[1], 0.0, 0.0];
        }
        previousTimestamp := m.timestamp;
        isInitialized := true;
        assert State() == s.(initialized := true, previousTimestamp := m.timestamp, x := Seed(m, ops));
        return;
      }

      var dt := ElapsedSeconds(previousTimestamp, m.timestamp);
      if dt > MaxDt {
        isInitialized := false;
        assert State() == s.(initialized := false);
        return;
      }

      previousTimestamp := m.timestamp;
      F := F[0 := F[0][2 := dt]];
      F := F[1 := F[1][3 := dt]];
      Q := ProcessNoise(dt, NoiseAx, NoiseAy);
      Predict();
      ghost var t := State();
      assert t == s.(previousTimestamp := m.timestamp, F := F, Q := Q,
                     x := ops.predict(s.x, s.P, F, Q).x, P := ops.predict(s.x, s.P, F, Q).P,
                     calls := s.calls + [Predicted(F, Q, ops.predict(s.x, s.P, F, Q))]);

      if m.sensor == Radar {
        var jacobian := ops.jacobian(x);
        if jacobian.Some? {
          H := jacobian.value;
          R := RadarR;
          UpdateEKF(m.raw);
          ghost var u := ops.updateEKF(t.x, t.P, H, R, m.raw);
          assert State() == t.(H := H, R := R, x := u.x, P := u.P,
                               calls := t.calls + [UpdatedEKF(H, R, m.raw, u)]);
        }
      } else {
        H := LaserH;
        R := LaserR;
        Update(m.raw);
        ghost var u := ops.update(t.x, t.P, H, R, m.raw);
        assert State() == t.(H := H, R := R, x := u.x, P := u.P,
                             calls := t.calls + [Updated(H, R, m.raw, u)]);
      }
    }
  }

  /** Rewriting the coupling entries of a constant-velocity transition gives
      the constant-velocity transition for the new time. */
  lemma RecoupleTransition(F: Mat, dt: real)
    requires IsTransition(F)
    ensures F[0 := F[0][2 := dt]][1 := F[1][3 := dt]] == CvTransition(dt)
  {
    assert F[0][2 := dt] == [1.0, 0.0, dt, 0.0];
    assert F[1][3 := dt] == [0.0, 1.0, 0.0, dt];
  }

  /** Unseeded: seed x from the measurement and take its timestamp; nothing
      else changes and no filter operation runs. */
  lemma StepSeeds(s: Filter, m: Measurement, ops: Collaborators)
    requires IsMatrix(s.F, 4, 4) && !s.initialized && Readable(m)
    ensures var r := Step(s, m, ops);
      r.initialized && r.previousTimestamp == m.timestamp && r.x == Seed(m, ops) &&
      r.P == s.P && r.F == s.F && r.Q == s.Q && r.H == s.H && r.R == s.R && r.calls == s.calls
  {
  }

  /** Seeded, and more than MaxDt seconds since the last timestamp: become
      unseeded and drop the measurement; nothing else changes. */
  lemma StepResetsAfterGap(s: Filter, m: Measurement, ops: Collaborators)
    requires IsMatrix(s.F, 4, 4) && s.initialized
    requires m.timestamp - s.previousTimestamp > 60000000
    ensures var r := Step(s, m, ops);
      !r.initialized && r.previousTimestamp == s.previousTimestamp && r.x == s.x &&
      r.P == s.P && r.F == s.F && r.Q == s.Q && r.H == s.H && r.R == s.R && r.calls == s.calls
  {
  }

  /** Seeded otherwise, including zero and negative elapsed times: take the
      timestamp, make F the constant-velocity transition and Q the process
      noise for the elapsed time, and predict exactly once before anything
      else is called. */
  lemma StepPredicts(s: Filter, m: Measurement, ops: Collaborators)
    requires IsTransition(s.F) && s.initialized
    requires m.timestamp - s.previousTimestamp <= 60000000
    ensures var dt := ElapsedSeconds(s.previousTimestamp, m.timestamp);
      var r := Step(s, m, ops);
      r.initialized && r.previousTimestamp == m.timestamp &&
      r.F == CvTransition(dt) && r.Q == ProcessNoise(dt, NoiseAx, NoiseAy) &&
      |r.calls| > |s.calls| &&
      var F, Q := CvTransition(dt), ProcessNoise(dt, NoiseAx, NoiseAy);
      r.calls[..|s.calls| + 1] == s.calls + [Predicted(F, Q, ops.predict(s.x, s.P, F, Q))]
  {
    var dt := ElapsedSeconds(s.previousTimestamp, m.timestamp);
    RecoupleTransition(s.F, dt);
    var r := Step(s, m, ops);
    assert r.calls[..|s.calls| + 1] == s.calls + [Predicted(r.F, r.Q, ops.predict(s.x, s.P, r.F, r.Q))];
  }

  /** A laser measurement in a tracking cycle corrects the prediction with
      H_laser_ and R_laser_. */
  lemma StepCorrectsLaser(s: Filter, m: Measurement, ops: Collaborators)
    requires IsTransition(s.F) && s.initialized && m.sensor == Laser
    requires m.timestamp - s.previousTimestamp <= 60000000
    ensures var dt := ElapsedSeconds(s.previousTimestamp, m.timestamp);
      var F, Q := CvTransition(dt), ProcessNoise(dt, NoiseAx, NoiseAy);
      var predicted := ops.predict(s.x, s.P, F, Q);
      var u := ops.update(predicted.x, predicted.P, LaserH, LaserR, m.raw);
      var r := Step(s, m, ops);
      r.H == LaserH && r.R == LaserR && r.x == u.x && r.P == u.P &&
      r.calls == s.calls + [Predicted(F, Q, predicted), Updated(LaserH, LaserR, m.raw, u)]
  {
    RecoupleTransition(s.F, ElapsedSeconds(s.previousTimestamp, m.timestamp));
  }

  /** A radar measurement in a tracking cycle whose Jacobian exists at the
      predicted state corrects with that Jacobian and R_radar_. */
  lemma StepCorrectsRadar(s: Filter, m: Measurement, ops: Collaborators)
    requires IsTransition(s.F) && s.initialized && m.sensor == Radar
    requires m.timestamp - s.previousTimestamp <= 60000000
    ensures var dt := ElapsedSeconds(s.previousTimestamp, m.timestamp);
      var F, Q := CvTransition(dt), ProcessNoise(dt, NoiseAx, NoiseAy);
      var predicted := ops.predict(s.x, s.P, F, Q);
      ops.jacobian(predicted.x).Some? ==>
        var Hj := ops.jacobian(predicted.x).value;
        var u := ops.updateEKF(predicted.x, predicted.P, Hj, RadarR, m.raw);
        var r := Step(s, m, ops);
        r.H == Hj && r.R == RadarR && r.x == u.x && r.P == u.P &&
        r.calls == s.calls + [Predicted(F, Q, predicted), UpdatedEKF(Hj, RadarR, m.raw, u)]
  {
    RecoupleTransition(s.F, ElapsedSeconds(s.previousTimestamp, m.timestamp));
  }

  /** A radar measurement whose Jacobian fails at the predicted state leaves
      the prediction as the cycle's result, and H and R as they were. */
  lemma StepKeepsPredictionWithoutJacobian(s: Filter, m: Measurement, ops: Collaborators)
    requires IsTransition(s.F) && s.initialized && m.sensor == Radar
    requires m.timestamp - s.previousTimestamp <= 60000000
    ensures var dt := ElapsedSeconds(s.previousTimestamp, m.timestamp);
      var F, Q := CvTransition(dt), ProcessNoise(dt, NoiseAx, NoiseAy);
      var predicted := ops.predict(s.x, s.P, F, Q);
      ops.jacobian(predicted.x).None? ==>
        var r := Step(s, m, ops);
        r.initialized && r.x == predicted.x && r.P == predicted.P && r.H == s.H && r.R == s.R &&
        r.calls == s.calls + [Predicted(F, Q, predicted)]
  {
    RecoupleTransition(s.F, ElapsedSeconds(s.previousTimestamp, m.timestamp));
  }

  /** One step keeps the invariant. */
  lemma {:induction false} StepKeepsInvariant(s: Filter, m: Measurement, ops: Collaborators)
    requires Invariant(s)
    requires !s.initialized ==> Readable(m)
    ensures IsMatrix(s.F, 4, 4)
    ensures Invariant(Step(s, m, ops))
  {
    var r := Step(s, m, ops);
    if s.initialized {
      var dt := ElapsedSeconds(s.previousTimestamp, m.timestamp);
      if dt <= MaxDt {
        RecoupleTransition(s.F, dt);
        assert r.F == CvTransition(dt);
        var k := |s.calls|;
        assert r.calls[..k] == s.calls;
        assert r.calls[k].Predicted? && r.calls[k].F == r.F && r.calls[k].Q == ProcessNoise(dt, NoiseAx, NoiseAy);
        forall i | 0 <= i < |r.calls|
          ensures CallSound(r.calls, i)
        {
          if i < k {
            assert r.calls[i] == s.calls[i];
            assert i > 0 ==> r.calls[i - 1] == s.calls[i - 1];
            assert CallSound(s.calls, i);
          }
        }
      }
    }
  }
}
