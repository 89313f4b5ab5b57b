# FusionEKF controller, modelled in Dafny

This project models the sensor-fusion controller of an Extended Kalman
Filter that tracks one object from laser and radar measurements
(`src/FusionEKF.cpp`). The controller owns the filter's state: the mean
`x = (px, py, vx, vy)`, the covariance `P`, the transition matrix `F`, the
process noise `Q` and the active measurement model `H`, `R`. For each
measurement, the controller does one of three things:

- it seeds the state from the first measurement;
- it resets itself after a gap of more than 60 seconds;
- otherwise it rebuilds `F` and `Q` for the elapsed time, predicts once,
  and then corrects with the sensor's own measurement model.

The Kalman filter operations (`Predict`, `Update`, `UpdateEKF`), the radar
Jacobian and `cos`/`sin` are not part of this model. They are passed to the
controller as the function fields of a `Collaborators` value. The model
records, in a ghost call log, every call made into the filter: the model
matrices (F and Q, or H and R) and the measurement it was given, and the
mean and covariance it returned. The x and P it was given are not logged;
they are the controller's fields at the time of the call.

Files:

- `linalg.dfy` (module `LinAlg`): vectors and matrices as sequences of
  reals, with inner product, matrix-vector product, quadratic form,
  symmetry and positive semi-definiteness.
- `motion_model.dfy` (module `MotionModel`): the elapsed time, the
  constant-velocity transition `F` and the process noise `Q`, with what is
  proved about them.
- `fusion_ekf.dfy` (module `Fusion`):
  - the class `FusionEKF`, which has the controller's fields, its
    constructor and `ProcessMeasurement`;
  - the pure function `Step`, which says what one call does to the state;
  - `Run` over a sequence of measurements;
  - the invariant the controller keeps;
  - one lemma per branch of `Step`.
- `fusion_properties.dfy` (module `FusionProperties`): properties over
  whole runs, of the constants and of the seeding, plus end-to-end
  scenarios.

`ProcessMeasurement` changes the object's fields in place, as the C++ does.
Its contract is `State() == Step(old(State()), m, ops)` together with the
invariant `Valid()`. Everything else is proved about `Step`.

## Model

| member | source | states |
|---|---|---|
| Fusion.FusionEKF.constructor | src/FusionEKF.cpp:14-62 | the controller starts unseeded with timestamp 0, P = diag(1, 1, 1000, 1000), F the identity with 1 at (0,2) and (1,3), no filter call made, the invariant established, and the collaborators it was given as the ones it calls |
| Fusion.FusionEKF.ProcessMeasurement | src/FusionEKF.cpp:69-192 | the new state of every field and of the call log is `Step` of the old state and the measurement, and the invariant is kept |
| Fusion.FusionEKF.Predict | src/FusionEKF.cpp:138 | x and P become the prediction from the current x, P, F and Q; F, Q, H and R are untouched; the call is logged with F, Q and the returned moments |
| Fusion.FusionEKF.Update | src/FusionEKF.cpp:184 | x and P become the linear correction with the current H, R and the raw measurement; the call is logged with H, R, the measurement and the returned moments |
| Fusion.FusionEKF.UpdateEKF | src/FusionEKF.cpp:163 | x and P become the extended correction with the current H, R and the raw measurement; the call is logged with H, R, the measurement and the returned moments |
| Fusion.Seed | src/FusionEKF.cpp:78-102 | seeding always yields a 4-vector: the laser position with zero velocity, or the radar reading made Cartesian |
| Fusion.PolarToCartesian | src/FusionEKF.cpp:85-94 | the radar seed is a 4-vector (its geometry is stated by FusionProperties.RadarSeedKeepsRange) |
| Fusion.Step | src/FusionEKF.cpp:69-192 | one measurement keeps F a 4×4 matrix |
| Fusion.Run | src/FusionEKF.cpp:69-192 | processing measurements one after another keeps F a 4×4 matrix |
| Fusion.StepSeeds | src/FusionEKF.cpp:74-108 | an unseeded controller becomes seeded, takes the timestamp, sets x to the seed and changes nothing else; P is not reset and no filter call is made |
| Fusion.StepResetsAfterGap | src/FusionEKF.cpp:115-121 | more than 60 000 000 µs after the last timestamp, the controller becomes unseeded and every other field, including the timestamp, stays as it was |
| Fusion.StepPredicts | src/FusionEKF.cpp:115-138 | with at most 60 s elapsed, including zero and negative times, the timestamp advances, F becomes the constant-velocity transition and Q the process noise for dt, and the first new filter call is one prediction with exactly that F and Q |
| Fusion.StepCorrectsLaser | src/FusionEKF.cpp:168-185 | a laser cycle sets H to H_laser_ and R to R_laser_, and corrects the prediction with the raw measurement; the log gains exactly a prediction and that update |
| Fusion.StepCorrectsRadar | src/FusionEKF.cpp:144-163 | a radar cycle whose Jacobian exists at the predicted state sets H to that Jacobian and R to R_radar_, and applies the extended correction; the log gains exactly a prediction and that update |
| Fusion.StepKeepsPredictionWithoutJacobian | src/FusionEKF.cpp:146-166 | when the Jacobian fails, the prediction stands, H and R are unchanged, the controller stays seeded, and the log gains only the prediction |
| Fusion.RecoupleTransition | src/FusionEKF.cpp:129-131 | writing dt at (0,2) and (1,3) of a constant-velocity transition gives the constant-velocity transition for dt, so no other entry of F ever changes |
| Fusion.StepKeepsInvariant | src/FusionEKF.cpp:69-192 | one step keeps F a constant-velocity transition and keeps every logged call sound: each prediction has F and Q built from one dt ≤ 60 s, and each correction directly follows a prediction and uses its sensor's fixed R (and H_laser_ for laser) |
| FusionProperties.RunKeepsInvariant | src/FusionEKF.cpp:69-192 | the invariant holds after any number of measurements |
| FusionProperties.CovarianceChangesOnlyThroughFilterCalls | src/FusionEKF.cpp:69-192 | over any run the call log only grows; if no filter call was made P is exactly what it was, and otherwise P is exactly the covariance the last filter call returned: the controller never writes P itself |
| FusionProperties.StepCovarianceIsFilterOutput | src/FusionEKF.cpp:69-192 | after one measurement, P is either unchanged (no filter call) or exactly the covariance returned by the last filter call |
| FusionProperties.PredictedNoiseIsCovariance | src/FusionEKF.cpp:133-136 | every Q given to a prediction is symmetric and positive semi-definite |
| FusionProperties.InitialCovarianceIsCovariance | src/FusionEKF.cpp:42-46 | the prior P is a symmetric positive semi-definite 4×4 matrix |
| FusionProperties.InitialCovarianceSymmetric | src/FusionEKF.cpp:42-46 | the prior P is a symmetric 4×4 matrix |
| FusionProperties.InitialQuadraticForm | src/FusionEKF.cpp:43-46 | vᵀ·P·v ≥ 0 for the prior P and every 4-vector v |
| FusionProperties.LaserSeedObservedExactly | src/FusionEKF.cpp:97-102 | observing the laser seed through H_laser_ gives back exactly the measured position |
| FusionProperties.RadarSeedKeepsRange | src/FusionEKF.cpp:85-94 | when cos²θ + sin²θ = 1, the radar seed lies at range ρ, has speed \|ρ̇\|, and has velocity parallel to its position |
| FusionProperties.StaleGapThenReseed | src/FusionEKF.cpp:74-121 | after a reset the next measurement seeds again, whatever its timestamp; P, F, Q and the call log are what they were before the gap |
| FusionProperties.LaserTrackScenario | src/FusionEKF.cpp:74-185 | laser (1, 1) at t = 0 seeds (1, 1, 0, 0) with the prior P; laser (1.1, 1.1) at t = 100 000 µs predicts over dt = 0.1 s, then updates with H_laser_ and R_laser_; x and P are that update's result and the log holds exactly those two calls |
| FusionProperties.RadarSeedScenario | src/FusionEKF.cpp:81-96 | a first radar reading (5, 0, 0) seeds (5, 0, 0, 0) when cos 0 = 1 and sin 0 = 0 |
| FusionProperties.StaleGapScenario | src/FusionEKF.cpp:115-121 | a measurement 120 s after the last one only clears the seeded flag |
| MotionModel.ElapsedSeconds | src/FusionEKF.cpp:115-117 | dt is the timestamp difference divided by 10⁶; dt > 60 exactly when the difference exceeds 60 000 000 µs; dt ≤ 0 exactly when the timestamps do not increase |
| MotionModel.CvTransition | src/FusionEKF.cpp:48-53 | the constant-velocity transition is a 4×4 matrix |
| MotionModel.TransitionAdvances | src/FusionEKF.cpp:129-131 | the transition for dt moves each position by dt times its velocity and keeps the velocities |
| MotionModel.ProcessNoise | src/FusionEKF.cpp:125-136 | Q is a symmetric 4×4 matrix; no entry couples the x axis with the y axis; its diagonal is non-negative when the intensities are |
| MotionModel.ProcessNoiseFactors | src/FusionEKF.cpp:125-136 | Q = ax·gx·gxᵀ + ay·gy·gyᵀ, where gx = (dt²/2, 0, dt, 0) and gy = (0, dt²/2, 0, dt) are the acceleration gains; stated as vᵀQv = ax·(gx·v)² + ay·(gy·v)² for every v |
| MotionModel.ProcessNoiseTimes | src/FusionEKF.cpp:133-136 | Q·v, written per axis with p = dt²/2 |
| MotionModel.ProcessNoisePsd | src/FusionEKF.cpp:133-136 | with non-negative intensities, Q is positive semi-definite |

## Left out

- The bodies of KalmanFilter::Predict, Update and UpdateEKF, and of Tools::CalculateJacobian: these files are not part of this model. They are opaque functions, and the model states only when they are called and with which arguments.
- Exceptions: std::invalid_argument from the Jacobian is modelled as a `None` result.
- cos and sin are opaque functions. The radar seed's geometry is proved under the assumption cos²θ + sin²θ = 1.
- Floating point: every quantity is an exact real and timestamps are unbounded integers. The source computes dt, dt², dt³, dt⁴ and the radar seed in 32-bit `float`.
- MotionModel.ElapsedSeconds: because of `float` rounding in the source, a gap slightly above 60 000 000 µs (up to about 60.000002 s) is not reset there. The model resets every gap above 60 000 000 µs.
- Console output (`cout`) is I/O and is left out, as is the commented-out code (the print statements and the residual reset blocks).
- Uninitialised storage: the constructor allocates x_ and Q_ without values, and H_ and R_ of the filter are empty. The model fills them with zeros and empty matrices, and states nothing about them.
- Hj_ and the constants noise_ax_ and noise_ay_: Hj_ is allocated but never used, so it is left out. The noise intensities are the constants `MotionModel.NoiseAx` and `MotionModel.NoiseAy` (both 9), not fields.
- The `(1, 1, 1, 1)` default seed: the sensor type has exactly two values, so this value is always overwritten. The method still writes it first, as the source does.
- The covariance on reseed: a reseed does not reset P to the prior. The code writes P only in the constructor, so the model keeps P on every seed, as `Fusion.StepSeeds` and `FusionProperties.StaleGapThenReseed` state.
- Kalman blending (the corrected position lies between the prediction and the measurement) and the properties of prediction and correction depend on the filter bodies, which are not part of this model.
