# CubeSat state-derivative model

This project models the exact algebra at the core of a small CubeSat simulator. That algebra is the right-hand side of the equations of motion that the adaptive ODE solver queries. The model covers two Python files:

- `helper_functions.py` holds the hand-written 3-D cross product, the scalar-first Hamilton product, the quaternion kinematic rate and point-mass gravity `-mu/|r|^3 * r`.
- `dynamics.py` holds `dynamics(t, state, spacecraft)`. It unpacks the 13-element state `[r(0:3), v(3:6), q(6:10), w(10:13)]` and renormalises `q`. It then computes `dr/dt = v`, `dv/dt = gravity` and `dq/dt` from the quaternion rate. It computes `dw/dt` from Euler's rigid-body equation `I_inv (tau - w x (I w))` and packs the four blocks back into 13 slots.

Floating-point numbers are modelled as ideal reals (`real`). `np.linalg.norm` is a square root, so it is not computed. It becomes a parameter `n` constrained by `n > 0 && n * n == x*x + y*y + z*z` (predicates `IsNorm` and `IsQNorm`). The caller of the dynamics supplies the norm of the position block and the norm of the attitude block.

The files:

- `vectors.dfy` (module `Vectors`) holds 3-vectors, quaternions, 3x3 matrices by rows, the numpy arithmetic the dynamics use, and facts about norms and the matrix product.
- `constants.dfy` holds the modules `Constants` and `SpacecraftConfig`: the gravitational parameter `G * M_earth`, the configured diagonal inertia and its inverse, and the initial position, velocity, attitude and angular velocity.
- `helpers.dfy` (module `HelperFunctions`) holds the helper functions and their algebraic properties.
- `dynamics.dfy` (module `Dynamics`) holds the spacecraft record, the packed-state layout and `StateDerivative`, which is the model of `dynamics`, with its properties.

Notes on conventions:

- `quaternion_derivative` computes ½([0, w] ⊗ q), with the rate on the LEFT of the attitude. The usual body-rate kinematics, ½(q ⊗ [0, w]), puts it on the right. The model follows the code. `QuaternionDerivativeConvention` proves the two agree exactly when the vector part of `q` is parallel to `w`. `QuaternionDerivativeConventionWitness` gives an attitude and a rate where they differ.
- A zero-norm position or quaternion raises no error in the code: numpy's division by zero yields Inf/NaN values. The model keeps a nonzero norm as a precondition and does not model the NaN path.
- The attitude control laws (an error-quaternion PD law and a B-dot law) are not part of the code. The code calls `spacecraft.adcs.rw_control(q, w)` and `spacecraft.adcs.mt_control(w)`, and `subsystems/ADCS.py` defines neither. `main.py` attaches `ADCS(sensors, actuators)`, which has no `rw_control`, so as written the call in `dynamics.py` would fail with an AttributeError. The model's opaque, total `rwControl` and `mtControl` fields of the `Adcs` record stand for control laws that the repository's files do not contain. `rw_control` receives the renormalised attitude, as in the code.
- `state` and `spacecraft` are Dafny values. So the dynamics cannot change the caller's state, which is why the model has no frame conditions.

## Model

| member | source | states |
|---|---|---|
| Vectors.NormalizedIsUnit | dynamics.py:29 | Dividing a nonzero quaternion by its norm gives a quaternion whose squared norm is exactly 1 |
| Vectors.ScaledNorm | dynamics.py:29 | If the norm of q is n and c > 0, the norm of c·q is c·n (a square root is unique) |
| Vectors.NormalizeScaleInvariant | dynamics.py:29 | Renormalising c·q gives the same unit quaternion as renormalising q, for every c > 0 |
| Vectors.DotMatVecSymmetric | dynamics.py:43 | For a symmetric matrix m, a·(m b) == b·(m a) for all a, b |
| Vectors.MatVecInverse | spacecraft_config.py:10 | When I @ I_inv is the identity, I @ (I_inv @ x) == x for every x |
| Constants.MuEarthPositive | constants.py:7-13 | mu_earth = G * M_earth is positive |
| SpacecraftConfig.InertiaInverseCorrect | spacecraft_config.py:9-10 | The configured inertia is diagonal and symmetric, and diag(100, 100, 50) is its inverse on both sides |
| SpacecraftConfig.InitialAttitudeIsUnit | spacecraft_config.py:15 | The initial attitude [1, 0, 0, 0] is the identity quaternion and has unit norm |
| HelperFunctions.Cross | helper_functions.py:74-78 | The cross product as written in the code; it carries no contract of its own, and its properties are the five Cross lemmas below |
| HelperFunctions.CrossOrthogonal | helper_functions.py:74-78 | a x b is orthogonal to a and to b |
| HelperFunctions.CrossAnticommutative | helper_functions.py:74-78 | a x b == -(b x a) for all a, b |
| HelperFunctions.CrossSelfZero | helper_functions.py:74-78 | a x a is the zero vector |
| HelperFunctions.CrossParallelZero | helper_functions.py:74-78 | a x (k a) is the zero vector for every scalar k |
| HelperFunctions.CrossLagrangeIdentity | helper_functions.py:74-78 | ‖a x b‖² == ‖a‖²‖b‖² - (a·b)² |
| HelperFunctions.QuaternionMultiply | helper_functions.py:52-60 | The four component formulas of the code; it carries no contract of its own, and its properties are the QuaternionMultiply lemmas below |
| HelperFunctions.QuaternionMultiplyVectorForm | helper_functions.py:52-60 | The product is the Hamilton product: scalar p0 q0 - p·q, vector p0 q + q0 p + p x q |
| HelperFunctions.QuaternionMultiplyIdentity | helper_functions.py:52-60 | [1, 0, 0, 0] is a left and a right identity |
| HelperFunctions.QuaternionConjugateProduct | helper_functions.py:55-58 | q ⊗ conj(q) == conj(q) ⊗ q == [‖q‖², 0, 0, 0] |
| HelperFunctions.UnitQuaternionInverse | helper_functions.py:55-58 | For a unit quaternion, q ⊗ conj(q) and conj(q) ⊗ q are both the identity |
| HelperFunctions.QuaternionMultiplyNotCommutative | helper_functions.py:55-58 | i ⊗ j == k while j ⊗ i == -k |
| HelperFunctions.QuaternionMultiplyCommutator | helper_functions.py:55-58 | Swapping the factors keeps the scalar part and changes the vector part by 2 (p x q) |
| HelperFunctions.QuaternionDerivative | helper_functions.py:36-46 | The rate equals ½([0, w] ⊗ q) component by component, and it is orthogonal to q (it preserves the norm) |
| HelperFunctions.QuaternionDerivativeAtRest | helper_functions.py:39-44 | With w = 0 the rate is the zero quaternion |
| HelperFunctions.QuaternionDerivativeConvention | helper_functions.py:39-44 | The rate equals ½(q ⊗ [0, w]) if and only if vec(q) x w == 0 |
| HelperFunctions.QuaternionDerivativeConventionWitness | helper_functions.py:39-44 | For q = j and w = (1, 0, 0) the code's rate differs from ½(q ⊗ [0, w]) |
| HelperFunctions.CalculateAG | helper_functions.py:18-23 | For r ≠ 0 with norm ‖r‖: the acceleration is parallel to r (r x a = 0), points toward the centre (r·a < 0), and has magnitude mu/‖r‖² |
| Dynamics.Pack | dynamics.py:46-50 | The packed vector has 13 slots: r in 0..2, v in 3..5, q in 6..9, w in 10..12 |
| Dynamics.UnpackPack | dynamics.py:23-26 | Unpacking a packed vector gives back each of the four blocks |
| Dynamics.PackUnpack | dynamics.py:46-50 | Packing the four unpacked blocks of a 13-vector gives back the vector |
| Dynamics.TotalTorque | dynamics.py:39-41 | The total torque is the sum of the two actuators' torques: taking either one away leaves exactly the other |
| Dynamics.Normalize | dynamics.py:29 | The renormalised attitude has unit norm, and scaling it by qMag gives q back |
| Dynamics.StateDerivative | dynamics.py:10-52 | The result has 13 slots. Slots 0..2 are input slots 3..5, and slots 3..5 are the gravity at input slots 0..2. Slots 6..9 are the quaternion rate of the renormalised attitude and w. Slots 10..12 are I_inv (rw + mt - w x (I w)) |
| Dynamics.StateDerivativeTimeInvariant | dynamics.py:10-52 | The derivative is the same at any two times t1 and t2 |
| Dynamics.StateDerivativeAttitudeScaleInvariant | dynamics.py:29-36 | Multiplying the attitude slots by any c > 0 leaves the whole derivative unchanged |
| Dynamics.EulerEquation | dynamics.py:43 | With I @ I_inv = identity, the angular block solves I dw/dt + w x (I w) == rw + mt |
| Dynamics.RotationalPowerBalance | dynamics.py:43 | With I @ I_inv = identity, w·(I dw/dt) == w·(rw + mt) |
| Dynamics.TorqueFreeEnergyConserved | dynamics.py:39-43 | With zero total torque, I @ I_inv = identity and a symmetric I: w·(I dw/dt) == 0, and the rate of the kinetic energy ½ w·(I w), that is ½(dw/dt·(I w) + w·(I dw/dt)), is zero |
| Dynamics.PrincipalAxisSpinSteady | dynamics.py:43 | With zero torque, a diagonal I and w along one axis, slots 10..12 are zero |
| Dynamics.AttitudeRateOrthogonal | dynamics.py:36 | The attitude rate is orthogonal to the renormalised attitude |
| Dynamics.TranslationalBlocks | dynamics.py:32-33 | dr/dt is the input velocity; dv/dt is parallel to r and points toward the centre |
| Dynamics.ConfiguredState | simulator.py:50-55 | The configured start packs r0 = (7000e3, 0, 0), v0 = (0, 7.5e3, 0), q0 = [1, 0, 0, 0] and w0 = (0.1, 0, 0) into the four blocks of a 13-vector |
| Dynamics.ConfiguredScenarioWellFormed | spacecraft_config.py:9-16 | The configured start and inertia meet every precondition of the dynamics and the rotational lemmas: ‖r0‖ = 7000e3, ‖q0‖ = 1, I diagonal and symmetric with I @ I_inv = identity, w0 along a body axis, and renormalising q0 by its norm 1 gives q0 back |
| Dynamics.ConfiguredSpinSteady | spacecraft_config.py:9-16 | If the control laws give zero total torque at (q0, w0), the angular block of the derivative at the configured start is zero: the spin about the body x axis is steady |

## Left out

- `simulator.py` is not modelled, except for the stacking of `r`, `v`, `q` and `w` into the start vector (`Dynamics.ConfiguredState`). It hands `dynamics` to scipy's adaptive LSODA integrator (`solve_ivp`), and that numerical integration is a foreign call. Two facts about it are not modelled: its evenly spaced sample times include the endpoint `duration`, and it writes whole trajectory histories into new attributes `position`, `velocity`, `attitude` and `angular_velocity` of the spacecraft, not the final sample into `r`, `v`, `q` and `w`.
- Floating-point rounding, NaN/Inf propagation (a zero-norm position or quaternion) and the solver tolerances are not modelled. Every number is an ideal real.
- `np.linalg.norm` is a square root. It is replaced by norm parameters with the precondition `n > 0 && n * n == sum of squares`.
- `np.linalg.inv` is a matrix inversion. The configured inverse is written as the literal diag(100, 100, 50), and `InertiaInverseCorrect` proves it is the inverse. In general the model requires `I @ I_inv = identity` only where a lemma uses it.
- The reaction-wheel and magnetorquer control laws are opaque parameters (`Adcs.rwControl` and `Adcs.mtControl`). `subsystems/ADCS.py` defines only a constructor that stores the sensor and actuator lists, so no control-law property (saturation, zero torque at the target) is stated.
- `main.py` builds the scenario and prints, and `visualisation.py` plots with matplotlib. Neither is modelled. `main.py` also imports `subsystems.power`, which is not part of this model.
- `ground_station.py` is a passive record with a getter that the dynamics never read, so it is not modelled.
- `satellite.py` is used only as the shape of the `Spacecraft` record passed to the dynamics. Its constructor just stores its arguments.
