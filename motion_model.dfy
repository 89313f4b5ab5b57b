/** The constant-velocity motion model that the fusion controller rebuilds
    on every tracking cycle (src/FusionEKF.cpp:115-136): the elapsed time
    between two measurements, the transition matrix F and the process noise
    covariance Q. The state is (px, py, vx, vy). */
module MotionModel {
  import opened LinAlg

  /** Acceleration noise intensity on the x axis (noise_ax_). */
  const NoiseAx: real := 9.0
  /** Acceleration noise intensity on the y axis (noise_ay_). */
  const NoiseAy: real := 9.0
  /** Largest elapsed time, in seconds, that is still predicted over. */
  const MaxDt: real := 60.0
  /** Timestamps count microseconds. */
  const MicrosPerSecond: real := 1000000.0

  /** Seconds from `previous` to `current`, both in microseconds.
      Negative when the timestamps run backwards. */
  function ElapsedSeconds(previous: int, current: int): (dt: real)
    ensures dt * MicrosPerSecond == (current - previous) as real
    ensures dt > MaxDt <==> current - previous > 60000000
    ensures dt <= 0.0 <==> current <= previous
  {
    (current - previous) as real / MicrosPerSecond
  }

  /** The constant-velocity transition over `dt` seconds: the identity
      with `dt` coupling each position to its velocity. */
  function CvTransition(dt: real): (F: Mat)
    ensures IsMatrix(F, 4, 4)
  {
    [[1.0, 0.0, dt, 0.0],
     [0.0, 1.0, 0.0, dt],
     [0.0, 0.0, 1.0, 0.0],
     [0.0, 0.0, 0.0, 1.0]]
  }

  /** `F` is a constant-velocity transition; its coupling time is F[0][2]. */
  ghost predicate IsTransition(F: Mat) {
    |F| == 4 && |F[0]| == 4 && F == CvTransition(F[0][2])
  }

  /** The noise gain column of one axis: how a unit acceleration held for
      `dt` seconds moves the position (dt²/2) and the velocity (dt). */
  function AxisGain(dt: real, axis: nat): (g: Vec)
    requires axis < 2
    ensures |g| == 4
  {
    if axis == 0 then [dt * dt / 2.0, 0.0, dt, 0.0]
    else [0.0, dt * dt / 2.0, 0.0, dt]
  }

  /** The process noise covariance Q for an elapsed time `dt` and the
      acceleration intensities `ax`, `ay`, as the controller writes it
      entry by entry from dt², dt³ and dt⁴. */
  function ProcessNoise(dt: real, ax: real, ay: real): (Q: Mat)
    ensures IsMatrix(Q, 4, 4)
    ensures Symmetric(Q)
    // no entry couples the x axis (indices 0, 2) with the y axis (1, 3)
    ensures forall i, j :: 0 <= i < 4 && 0 <= j < 4 && i % 2 != j % 2 ==> Q[i][j] == 0.0
    ensures ax >= 0.0 && ay >= 0.0 ==> forall i :: 0 <= i < 4 ==> Q[i][i] >= 0.0
  {
    var dt2 := dt * dt;
    var dt3 := dt2 * dt;
    var dt4 := dt3 * dt;
    assert dt4 == dt2 * dt2 && dt2 >= 0.0 && dt4 >= 0.0 by {
      SquareNonNegative(dt);
      SquareNonNegative(dt2);
    }
    assert ax >= 0.0 && ay >= 0.0 ==>
      dt4 / 4.0 * ax >= 0.0 && dt4 / 4.0 * ay >= 0.0 && dt2 * ax >= 0.0 && dt2 * ay >= 0.0;
    [[dt4 / 4.0 * ax, 0.0, dt3 / 2.0 * ax, 0.0],
     [0.0, dt4 / 4.0 * ay, 0.0, dt3 / 2.0 * ay],
     [dt3 / 2.0 * ax, 0.0, dt2 * ax, 0.0],
     [0.0, dt3 / 2.0 * ay, 0.0, dt2 * ay]]
  }

  /** Q is the covariance that white acceleration noise of intensities
      `ax` and `ay` induces through the per-axis gains gx and gy, that is
      Q = ax·gx·gxᵀ + ay·gy·gyᵀ: its quadratic form is
      vᵀ·Q·v = ax·(gx·v)² + ay·(gy·v)². */
  lemma {:induction false} ProcessNoiseFactors(dt: real, ax: real, ay: real, v: Vec)
    requires |v| == 4
    ensures QuadraticForm(ProcessNoise(dt, ax, ay), v)
         == ax * (Dot(AxisGain(dt, 0), v) * Dot(AxisGain(dt, 0), v))
          + ay * (Dot(AxisGain(dt, 1), v) * Dot(AxisGain(dt, 1), v))
  {
    var Q := ProcessNoise(dt, ax, ay);
    var p := dt * dt / 2.0;
    ProcessNoiseTimes(dt, ax, ay, v);
    Dot4(AxisGain(dt, 0), v);
    Dot4(AxisGain(dt, 1), v);
    TwoAxes(ax, ay, p, dt, v, MatVec(Q, v), Dot(AxisGain(dt, 0), v), Dot(AxisGain(dt, 1), v));
  }

  /** The quadratic form v·w of a matrix whose product with v is w, when the
      matrix couples only entries 0 with 2 and 1 with 3, each through the
      block c·(p, d)ᵀ·(p, d). */
  lemma TwoAxes(cx: real, cy: real, p: real, d: real, v: Vec, w: Vec, a: real, b: real)
    requires |v| == 4 && |w| == 4
    requires w[0] == cx * (p * p) * v[0] + cx * (p * d) * v[2]
    requires w[2] == cx * (p * d) * v[0] + cx * (d * d) * v[2]
    requires w[1] == cy * (p * p) * v[1] + cy * (p * d) * v[3]
    requires w[3] == cy * (p * d) * v[1] + cy * (d * d) * v[3]
    requires a == p * v[0] + 0.0 * v[1] + d * v[2] + 0.0 * v[3]
    requires b == 0.0 * v[0] + p * v[1] + 0.0 * v[2] + d * v[3]
    ensures Dot(v, w) == cx * (a * a) + cy * (b * b)
  {
    Dot4(v, w);
    AxisQuadratic(cx, p, d, v[0], v[2], w[0], w[2], a);
    AxisQuadratic(cy, p, d, v[1], v[3], w[1], w[3], b);
  }

  /** Q·v written out with p = dt²/2: each axis mixes only its own
      position and velocity components. */
  lemma ProcessNoiseTimes(dt: real, ax: real, ay: real, v: Vec)
    requires |v| == 4
    ensures var w, p := MatVec(ProcessNoise(dt, ax, ay), v), dt * dt / 2.0;
      w[0] == ax * (p * p) * v[0] + ax * (p * dt) * v[2] &&
      w[2] == ax * (p * dt) * v[0] + ax * (dt * dt) * v[2] &&
      w[1] == ay * (p * p) * v[1] + ay * (p * dt) * v[3] &&
      w[3] == ay * (p * dt) * v[1] + ay * (dt * dt) * v[3]
  {
    var Q := ProcessNoise(dt, ax, ay);
    var p := dt * dt / 2.0;
    PowersOfDt(dt);
    assert Q[0][0] == ax * (p * p) && Q[0][2] == ax * (p * dt) && Q[2][2] == ax * (dt * dt);
    assert Q[1][1] == ay * (p * p) && Q[1][3] == ay * (p * dt) && Q[3][3] == ay * (dt * dt);
    assert Q[2][0] == ax * (p * dt) && Q[3][1] == ay * (p * dt);
    assert Q[0][1] == 0.0 && Q[0][3] == 0.0 && Q[2][1] == 0.0 && Q[2][3] == 0.0;
    assert Q[1][0] == 0.0 && Q[1][2] == 0.0 && Q[3][0] == 0.0 && Q[3][2] == 0.0;
    Dot4(Q[0], v);
    Dot4(Q[1], v);
    Dot4(Q[2], v);
    Dot4(Q[3], v);
  }

  /** The powers of dt in Q are products of the gain entries dt²/2 and dt. */
  lemma PowersOfDt(dt: real)
    ensures dt * dt * dt * dt / 4.0 == (dt * dt / 2.0) * (dt * dt / 2.0)
    ensures dt * dt * dt / 2.0 == (dt * dt / 2.0) * dt
  {
  }

  /** With non-negative intensities Q is a covariance: positive
      semi-definite. */
  lemma {:induction false} ProcessNoisePsd(dt: real, ax: real, ay: real)
    requires ax >= 0.0 && ay >= 0.0
    ensures PositiveSemiDefinite(ProcessNoise(dt, ax, ay))
  {
    forall v: Vec | |v| == 4
      ensures QuadraticForm(ProcessNoise(dt, ax, ay), v) >= 0.0
    {
      ProcessNoiseFactors(dt, ax, ay, v);
      var a, b := Dot(AxisGain(dt, 0), v), Dot(AxisGain(dt, 1), v);
      SquareNonNegative(a);
      SquareNonNegative(b);
      assert ax * (a * a) >= 0.0 && ay * (b * b) >= 0.0;
    }
  }

  /** One axis of a quadratic form whose 2×2 block on that axis is
      c·(p, d)ᵀ·(p, d): it contributes c·a² with a = p·v0 + d·v2, never
      negative when c is not. */
  lemma AxisQuadratic(c: real, p: real, d: real, v0: real, v2: real, w0: real, w2: real, a: real)
    requires w0 == c * (p * p) * v0 + c * (p * d) * v2
    requires w2 == c * (p * d) * v0 + c * (d * d) * v2
    requires a == p * v0 + d * v2
    ensures v0 * w0 + v2 * w2 == c * (a * a)
    ensures c >= 0.0 ==> v0 * w0 + v2 * w2 >= 0.0
  {
    assert v0 * w0 + v2 * w2 == c * (a * a);
    SquareNonNegative(a);
    assert c >= 0.0 ==> c * (a * a) >= 0.0;
  }

  /** Applying the transition moves each position by its velocity times
      `dt` and keeps the velocities. */
  lemma {:induction false} TransitionAdvances(dt: real, x: Vec)
    requires |x| == 4
    ensures MatVec(CvTransition(dt), x) == [x[0] + dt * x[2], x[1] + dt * x[3], x[2], x[3]]
  {
    var F := CvTransition(dt);
    Dot4(F[0], x);
    Dot4(F[1], x);
    Dot4(F[2], x);
    Dot4(F[3], x);
    var r := MatVec(F, x);
    assert r[0] == x[0] + dt * x[2] && r[1] == x[1] + dt * x[3] && r[2] == x[2] && r[3] == x[3];
  }
}
