/** Properties of the fusion controller over whole runs of measurements,
    of its seeding and of its constants, and end-to-end scenarios: a laser
    track, a radar seed and a stale gap. All are stated on the specification
    function `Fusion.Step`. */
module FusionProperties {
  import opened LinAlg
  import opened MotionModel
  import opened Fusion

  /** However many measurements are processed, F stays a constant-velocity
      transition and every call into the filter is sound: each prediction
      gets F and Q built from one elapsed time of at most MaxDt seconds, and
      each correction directly follows a prediction and uses its sensor's
      fixed noise. */
  lemma {:induction false} RunKeepsInvariant(s: Filter, ms: seq<Measurement>, ops: Collaborators)
    requires Invariant(s)
    requires forall i :: 0 <= i < |ms| ==> Readable(ms[i])
    ensures IsMatrix(s.F, 4, 4)
    ensures Invariant(Run(s, ms, ops))
    decreases |ms|
  {
    if ms != [] {
      StepKeepsInvariant(s, ms[0], ops);
      RunKeepsInvariant(Step(s, ms[0], ops), ms[1..], ops);
    }
  }

  /** The controller never writes P itself: over any run the call log only
      grows; if no filter operation was called P is what it was, and
      otherwise P is exactly the covariance the last filter call returned. */
  lemma {:induction false} CovarianceChangesOnlyThroughFilterCalls(s: Filter, ms: seq<Measurement>, ops: Collaborators)
    requires IsMatrix(s.F, 4, 4)
    requires forall i :: 0 <= i < |ms| ==> Readable(ms[i])
    ensures var r := Run(s, ms, ops);
      s.calls <= r.calls &&
      (|r.calls| == |s.calls| ==> r.P == s.P) &&
      (|r.calls| > |s.calls| ==> r.P == r.calls[|r.calls| - 1].out.P)
    decreases |ms|
  {
    if ms != [] {
      var t := Step(s, ms[0], ops);
      StepCovarianceIsFilterOutput(s, ms[0], ops);
      CovarianceChangesOnlyThroughFilterCalls(t, ms[1..], ops);
      var r := Run(t, ms[1..], ops);
      assert r == Run(s, ms, ops);
      if |r.calls| == |t.calls| {
        assert r.calls == t.calls;
      }
    }
  }

  /** One step either makes no filter call and keeps P, or leaves P equal
      to the covariance its last filter call returned. */
  lemma StepCovarianceIsFilterOutput(s: Filter, m: Measurement, ops: Collaborators)
    requires IsMatrix(s.F, 4, 4)
    requires !s.initialized ==> Readable(m)
    ensures var r := Step(s, m, ops);
      s.calls <= r.calls &&
      (|r.calls| == |s.calls| ==> r.P == s.P) &&
      (|r.calls| > |s.calls| ==> r.P == r.calls[|r.calls| - 1].out.P)
  {
    var r := Step(s, m, ops);
    assert s.calls <= r.calls;
  }

  /** Every process noise matrix handed to a prediction is a covariance:
      symmetric and positive semi-definite. */
  lemma PredictedNoiseIsCovariance(calls: seq<Call>, i: nat)
    requires i < |calls| && CallSound(calls, i) && calls[i].Predicted?
    ensures IsMatrix(calls[i].Q, 4, 4)
    ensures Symmetric(calls[i].Q) && PositiveSemiDefinite(calls[i].Q)
  {
    ProcessNoisePsd(calls[i].F[0][2], NoiseAx, NoiseAy);
  }

  /** The prior covariance of the constructor is a covariance. */
  lemma InitialCovarianceIsCovariance()
    ensures IsMatrix(InitialP, 4, 4) && Symmetric(InitialP) && PositiveSemiDefinite(InitialP)
  {
    InitialCovarianceSymmetric();
    forall v: Vec | |v| == 4
      ensures QuadraticForm(InitialP, v) >= 0.0
    {
      InitialQuadraticForm(v);
    }
  }

  /** The prior covariance is a symmetric 4×4 matrix. */
  lemma InitialCovarianceSymmetric()
    ensures IsMatrix(InitialP, 4, 4) && Symmetric(InitialP)
  {
    var P := InitialP;
    assert P[0] == [1.0, 0.0, 0.0, 0.0] && P[1] == [0.0, 1.0, 0.0, 0.0];
    assert P[2] == [0.0, 0.0, 1000.0, 0.0] && P[3] == [0.0, 0.0, 0.0, 1000.0];
    forall i, j | 0 <= i < 4 && 0 <= j < 4
      ensures P[i][j] == P[j][i]
    {
      assert P[i][j] == if i == j then P[i][i] else 0.0;
    }
  }

  /** vᵀ·P₀·v for the prior covariance P₀ is a sum of weighted squares. */
  lemma InitialQuadraticForm(v: Vec)
    requires |v| == 4
    ensures QuadraticForm(InitialP, v) >= 0.0
  {
    var P := InitialP;
    var w := MatVec(P, v);
    Dot4(P[0], v);
    Dot4(P[1], v);
    Dot4(P[2], v);
    Dot4(P[3], v);
    Dot4(v, w);
    AxisQuadratic(1.0, 1.0, 0.0, v[0], 0.0, w[0], 0.0, v[0]);
    AxisQuadratic(1.0, 1.0, 0.0, v[1], 0.0, w[1], 0.0, v[1]);
    AxisQuadratic(1000.0, 0.0, 1.0, 0.0, v[2], 0.0, w[2], v[2]);
    AxisQuadratic(1000.0, 0.0, 1.0, 0.0, v[3], 0.0, w[3], v[3]);
  }

  /** Seeding from a laser measurement and observing the seed through
      H_laser_ gives back exactly the measured position. */
  lemma LaserSeedObservedExactly(m: Measurement, ops: Collaborators)
    requires m.sensor == Laser && Readable(m)
    ensures MatVec(LaserH, Seed(m, ops)) == m.raw[..2]
  {
    var x := Seed(m, ops);
    Dot4(LaserH[0], x);
    Dot4(LaserH[1], x);
  }

  /** When cos and sin lie on the unit circle, the radar seed is at range ρ,
      its speed is |ρ̇|, and its velocity is parallel to its position (the
      seed takes all motion to be radial). */
  lemma RadarSeedKeepsRange(rho: real, theta: real, rhoDot: real, ops: Collaborators)
    requires ops.cos(theta) * ops.cos(theta) + ops.sin(theta) * ops.sin(theta) == 1.0
    ensures var x := PolarToCartesian(rho, theta, rhoDot, ops);
      x[0] * x[0] + x[1] * x[1] == rho * rho &&
      x[2] * x[2] + x[3] * x[3] == rhoDot * rhoDot &&
      x[0] * x[3] == x[1] * x[2]
  {
    var c, s := ops.cos(theta), ops.sin(theta);
    var x := PolarToCartesian(rho, theta, rhoDot, ops);
    assert x[0] == c * rho && x[1] == s * rho && x[2] == c * rhoDot && x[3] == s * rhoDot;
    calc {
      x[0] * x[0] + x[1] * x[1];
      (c * c + s * s) * (rho * rho);
      rho * rho;
    }
    calc {
      x[2] * x[2] + x[3] * x[3];
      (c * c + s * s) * (rhoDot * rhoDot);
      rhoDot * rhoDot;
    }
  }

  /** A reset leaves the controller unseeded, so the next measurement seeds
      it again, whatever that measurement's timestamp; the covariance is not
      reset to the prior and no filter operation runs in either step. */
  lemma StaleGapThenReseed(s: Filter, m1: Measurement, m2: Measurement, ops: Collaborators)
    requires IsMatrix(s.F, 4, 4) && s.initialized && Readable(m2)
    requires m1.timestamp - s.previousTimestamp > 60000000
    ensures var r := Step(Step(s, m1, ops), m2, ops);
      r.initialized && r.previousTimestamp == m2.timestamp && r.x == Seed(m2, ops) &&
      r.P == s.P && r.F == s.F && r.Q == s.Q && r.calls == s.calls
  {
  }

  /** Scenario: a first laser measurement (1, 1) at time 0 seeds
      (1, 1, 0, 0), keeps the prior covariance and predicts nothing; a second
      one (1.1, 1.1) 100000 µs later predicts over 0.1 s and then corrects
      with H_laser_ and R_laser_. */
  lemma LaserTrackScenario(s: Filter, ops: Collaborators)
    requires !s.initialized && s.P == InitialP && s.F == InitialF
    ensures var m1 := Measurement(Laser, [1.0, 1.0], 0);
      var r1 := Step(s, m1, ops);
      r1.initialized && r1.x == [1.0, 1.0, 0.0, 0.0] && r1.P == InitialP && r1.calls == s.calls
    ensures var m1 := Measurement(Laser, [1.0, 1.0], 0);
      var m2 := Measurement(Laser, [1.1, 1.1], 100000);
      var r2 := Step(Step(s, m1, ops), m2, ops);
      r2.F == CvTransition(0.1) && r2.Q == ProcessNoise(0.1, NoiseAx, NoiseAy) &&
      r2.H == LaserH && r2.R == LaserR && r2.previousTimestamp == 100000 &&
      var F, Q := CvTransition(0.1), ProcessNoise(0.1, NoiseAx, NoiseAy);
      var predicted := ops.predict([1.0, 1.0, 0.0, 0.0], InitialP, F, Q);
      var u := ops.update(predicted.x, predicted.P, LaserH, LaserR, [1.1, 1.1]);
      r2.x == u.x && r2.P == u.P &&
      r2.calls == s.calls + [Predicted(F, Q, predicted), Updated(LaserH, LaserR, [1.1, 1.1], u)]
  {
    var m1 := Measurement(Laser, [1.0, 1.0], 0);
    var r1 := Step(s, m1, ops);
    assert ElapsedSeconds(0, 100000) == 0.1;
    RecoupleTransition(r1.F, 0.1);
  }

  /** Scenario: a first radar measurement (5, 0, 0) seeds (5, 0, 0, 0). */
  lemma RadarSeedScenario(s: Filter, ops: Collaborators)
    requires !s.initialized && IsMatrix(s.F, 4, 4)
    requires ops.cos(0.0) == 1.0 && ops.sin(0.0) == 0.0
    ensures Step(s, Measurement(Radar, [5.0, 0.0, 0.0], 0), ops).x == [5.0, 0.0, 0.0, 0.0]
  {
  }

  /** Scenario: a measurement 120 s after the previous one resets the
      controller and runs no prediction or update. */
  lemma StaleGapScenario(s: Filter, m: Measurement, ops: Collaborators)
    requires s.initialized && IsMatrix(s.F, 4, 4)
    requires m.timestamp == s.previousTimestamp + 120000000
    ensures Step(s, m, ops) == s.(initialized := false)
  {
  }
}
