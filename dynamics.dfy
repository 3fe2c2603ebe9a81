/**
 * The right-hand side of the CubeSat's equations of motion: the map from
 * the packed 13-element state [r, v, q, w] to its time derivative in the
 * same layout.
 */
module Dynamics {
  import opened Vectors
  import opened HelperFunctions
  import SpacecraftConfig

  // ---------------------------------------------------------------------
  // The spacecraft record handed to the dynamics
  // ---------------------------------------------------------------------

  /**
   * The attitude determination and control system: the two capability
   * lists it stores, and the two control laws the dynamics query. The
   * laws are not defined by the simulation, so they are opaque here: the
   * reaction-wheel torque of the (normalised) attitude and the rate, and
   * the magnetorquer torque of the rate.
   */
  datatype Adcs = Adcs(
    sensors: seq<string>,
    actuators: seq<string>,
    rwControl: (Quat, Vec3) -> Vec3,
    mtControl: Vec3 -> Vec3)

  /** The CubeSat record: physical properties, stored state and subsystems. */
  datatype Spacecraft = Spacecraft(
    mass: real,
    dimensions: (real, real, real),
    r: Vec3,
    v: Vec3,
    q: Quat,
    w: Vec3,
    inertia: Mat3,
    inertiaInv: Mat3,
    adcs: Adcs)

  // ---------------------------------------------------------------------
  // The packed state layout [r(0:3), v(3:6), q(6:10), w(10:13)]
  // ---------------------------------------------------------------------

  const StateSize: nat := 13

  function Vec3At(s: seq<real>, i: nat): Vec3
    requires i + 3 <= |s|
  {
    Vec3(s[i], s[i + 1], s[i + 2])
  }

  function QuatAt(s: seq<real>, i: nat): Quat
    requires i + 4 <= |s|
  {
    Quat(s[i], s[i + 1], s[i + 2], s[i + 3])
  }

  function Position(s: seq<real>): Vec3 requires |s| == StateSize { Vec3At(s, 0) }
  function Velocity(s: seq<real>): Vec3 requires |s| == StateSize { Vec3At(s, 3) }
  function Attitude(s: seq<real>): Quat requires |s| == StateSize { QuatAt(s, 6) }
  function AngularVelocity(s: seq<real>): Vec3 requires |s| == StateSize { Vec3At(s, 10) }

  function Vec3Seq(a: Vec3): seq<real> { [a.x, a.y, a.z] }
  function QuatSeq(q: Quat): seq<real> { [q.w, q.x, q.y, q.z] }

  /** Packs the four blocks into one 13-element vector. */
  function Pack(r: Vec3, v: Vec3, q: Quat, w: Vec3): (s: seq<real>)
    ensures |s| == StateSize
    ensures s[0..3] == Vec3Seq(r) && s[3..6] == Vec3Seq(v)
    ensures s[6..10] == QuatSeq(q) && s[10..13] == Vec3Seq(w)
  {
    Vec3Seq(r) + Vec3Seq(v) + QuatSeq(q) + Vec3Seq(w)
  }

  /** Unpacking a packed vector gives back each block. */
  lemma UnpackPack(r: Vec3, v: Vec3, q: Quat, w: Vec3)
    ensures Position(Pack(r, v, q, w)) == r
    ensures Velocity(Pack(r, v, q, w)) == v
    ensures Attitude(Pack(r, v, q, w)) == q
    ensures AngularVelocity(Pack(r, v, q, w)) == w
  {
  }

  /** Packing the unpacked blocks gives back the vector. */
  lemma PackUnpack(s: seq<real>)
    requires |s| == StateSize
    ensures Pack(Position(s), Velocity(s), Attitude(s), AngularVelocity(s)) == s
  {
    var p := Pack(Position(s), Velocity(s), Attitude(s), AngularVelocity(s));
    assert forall i | 0 <= i < StateSize :: p[i] == s[i];
  }

  // ---------------------------------------------------------------------
  // The state derivative
  // ---------------------------------------------------------------------

  /**
   * The torque the dynamics apply: reaction wheels plus magnetorquers.
   * Taking either actuator's torque away leaves exactly the other one's.
   */
  function TotalTorque(sc: Spacecraft, q: Quat, w: Vec3): (tau: Vec3)
    ensures Sub(tau, sc.adcs.mtControl(w)) == sc.adcs.rwControl(q, w)
    ensures Sub(tau, sc.adcs.rwControl(q, w)) == sc.adcs.mtControl(w)
  {
    Add(sc.adcs.rwControl(q, w), sc.adcs.mtControl(w))
  }

  /**
   * The attitude with its norm `qMag` divided out: a unit quaternion that
   * gives `q` back when multiplied by that norm.
   */
  function Normalize(q: Quat, qMag: real): (u: Quat)
    requires IsQNorm(qMag, q)
    ensures QNormSq(u) == 1.0
    ensures QScale(qMag, u) == q
  {
    NormalizedIsUnit(q, qMag);
    QDiv(q, qMag)
  }

  /**
   * The time derivative of `state` at time `t`. `rMag` and `qMag` are the
   * norms of the position and of the attitude block; both must be nonzero.
   */
  function StateDerivative(t: real, state: seq<real>, sc: Spacecraft, rMag: real, qMag: real): (d: seq<real>)
    requires |state| == StateSize
    requires IsNorm(rMag, Position(state))
    requires IsQNorm(qMag, Attitude(state))
    ensures |d| == StateSize
    ensures d[0..3] == state[3..6]
    ensures Velocity(d) == CalculateAG(Position(state), rMag)
    ensures Attitude(d) == QuaternionDerivative(Normalize(Attitude(state), qMag), AngularVelocity(state))
    ensures AngularVelocity(d)
         == MatVec(sc.inertiaInv, Sub(TotalTorque(sc, Normalize(Attitude(state), qMag), AngularVelocity(state)),
                                      Cross(AngularVelocity(state), MatVec(sc.inertia, AngularVelocity(state)))))
  {
    var r := Position(state);
    var v := Velocity(state);
    var q := Normalize(Attitude(state), qMag);
    var w := AngularVelocity(state);
    var drdt := v;
    var dvdt := CalculateAG(r, rMag);
    var dqdt := QuaternionDerivative(q, w);
    var dwdt := MatVec(sc.inertiaInv, Sub(TotalTorque(sc, q, w), Cross(w, MatVec(sc.inertia, w))));
    UnpackPack(drdt, dvdt, dqdt, dwdt);
    Pack(drdt, dvdt, dqdt, dwdt)
  }

  // ---------------------------------------------------------------------
  // Properties of the state derivative
  // ---------------------------------------------------------------------

  /** The derivative does not depend on the time at which it is asked for. */
  lemma StateDerivativeTimeInvariant(t1: real, t2: real, state: seq<real>, sc: Spacecraft, rMag: real, qMag: real)
    requires |state| == StateSize
    requires IsNorm(rMag, Position(state))
    requires IsQNorm(qMag, Attitude(state))
    ensures StateDerivative(t1, state, sc, rMag, qMag) == StateDerivative(t2, state, sc, rMag, qMag)
  {
  }

  /** The state with its attitude block multiplied by `c`. */
  function ScaleAttitude(state: seq<real>, c: real): (s: seq<real>)
    requires |state| == StateSize
    ensures |s| == StateSize
    ensures s[0..6] == state[0..6] && s[10..13] == state[10..13]
    ensures Attitude(s) == QScale(c, Attitude(state))
  {
    var s := Pack(Position(state), Velocity(state), QScale(c, Attitude(state)), AngularVelocity(state));
    UnpackPack(Position(state), Velocity(state), QScale(c, Attitude(state)), AngularVelocity(state));
    s
  }

  /**
   * Because the attitude block is renormalised before use, multiplying it
   * by any positive constant leaves the whole derivative unchanged.
   */
  lemma {:induction false} StateDerivativeAttitudeScaleInvariant(
    t: real, state: seq<real>, sc: Spacecraft, rMag: real, qMag: real, c: real, scaledMag: real)
    requires |state| == StateSize
    requires IsNorm(rMag, Position(state))
    requires IsQNorm(qMag, Attitude(state))
    requires c > 0.0 && IsQNorm(scaledMag, QScale(c, Attitude(state)))
    ensures IsNorm(rMag, Position(ScaleAttitude(state, c)))
    ensures StateDerivative(t, ScaleAttitude(state, c), sc, rMag, scaledMag) == StateDerivative(t, state, sc, rMag, qMag)
  {
    var scaled := ScaleAttitude(state, c);
    assert Position(scaled) == Position(state);
    assert AngularVelocity(scaled) == AngularVelocity(state);
    NormalizeScaleInvariant(Attitude(state), qMag, c, scaledMag);
    var d1 := StateDerivative(t, scaled, sc, rMag, scaledMag);
    var d2 := StateDerivative(t, state, sc, rMag, qMag);
    PackUnpack(d1);
    PackUnpack(d2);
  }

  /**
   * With `inertiaInv` a right inverse of `inertia`, the angular block
   * solves Euler's rotational equation I dw/dt + w x (I w) == torque.
   */
  lemma EulerEquation(t: real, state: seq<real>, sc: Spacecraft, rMag: real, qMag: real)
    requires |state| == StateSize
    requires IsNorm(rMag, Position(state))
    requires IsQNorm(qMag, Attitude(state))
    requires IsInverse(sc.inertia, sc.inertiaInv)
    ensures
      var w := AngularVelocity(state);
      var dwdt := AngularVelocity(StateDerivative(t, state, sc, rMag, qMag));
      Add(MatVec(sc.inertia, dwdt), Cross(w, MatVec(sc.inertia, w)))
        == TotalTorque(sc, Normalize(Attitude(state), qMag), w)
  {
    var w := AngularVelocity(state);
    var tau := TotalTorque(sc, Normalize(Attitude(state), qMag), w);
    var gyro := Cross(w, MatVec(sc.inertia, w));
    MatVecInverse(sc.inertia, sc.inertiaInv, Sub(tau, gyro));
  }

  /**
   * The rotational power balance: w . (I dw/dt) == w . torque, because the
   * gyroscopic term is orthogonal to w. For a symmetric I (the diagonal
   * tensor of the configuration) the left side is the rate of change of
   * the rotational kinetic energy 1/2 w . (I w).
   */
  lemma RotationalPowerBalance(t: real, state: seq<real>, sc: Spacecraft, rMag: real, qMag: real)
    requires |state| == StateSize
    requires IsNorm(rMag, Position(state))
    requires IsQNorm(qMag, Attitude(state))
    requires IsInverse(sc.inertia, sc.inertiaInv)
    ensures
      var w := AngularVelocity(state);
      var dwdt := AngularVelocity(StateDerivative(t, state, sc, rMag, qMag));
      Dot(w, MatVec(sc.inertia, dwdt)) == Dot(w, TotalTorque(sc, Normalize(Attitude(state), qMag), w))
  {
    var w := AngularVelocity(state);
    var dwdt := AngularVelocity(StateDerivative(t, state, sc, rMag, qMag));
    var tau := TotalTorque(sc, Normalize(Attitude(state), qMag), w);
    var gyro := Cross(w, MatVec(sc.inertia, w));
    EulerEquation(t, state, sc, rMag, qMag);
    CrossOrthogonal(w, MatVec(sc.inertia, w));
    assert MatVec(sc.inertia, dwdt) == Sub(tau, gyro);
  }

  /**
   * Without torque, and with a symmetric inertia tensor, the rotational
   * kinetic energy 1/2 w . (I w) does not change: its time derivative
   * 1/2 (dw/dt . (I w) + w . (I dw/dt)) is zero.
   */
  lemma TorqueFreeEnergyConserved(t: real, state: seq<real>, sc: Spacecraft, rMag: real, qMag: real)
    requires |state| == StateSize
    requires IsNorm(rMag, Position(state))
    requires IsQNorm(qMag, Attitude(state))
    requires IsInverse(sc.inertia, sc.inertiaInv) && IsSymmetric(sc.inertia)
    requires TotalTorque(sc, Normalize(Attitude(state), qMag), AngularVelocity(state)) == Zero
    ensures
      var w := AngularVelocity(state);
      var dwdt := AngularVelocity(StateDerivative(t, state, sc, rMag, qMag));
      Dot(w, MatVec(sc.inertia, dwdt)) == 0.0
      && Dot(dwdt, MatVec(sc.inertia, w)) + Dot(w, MatVec(sc.inertia, dwdt)) == 0.0
  {
    var w := AngularVelocity(state);
    var dwdt := AngularVelocity(StateDerivative(t, state, sc, rMag, qMag));
    RotationalPowerBalance(t, state, sc, rMag, qMag);
    DotMatVecSymmetric(sc.inertia, dwdt, w);
  }

  /** `w` lies along one coordinate axis. */
  predicate OnCoordinateAxis(w: Vec3)
  {
    (w.y == 0.0 && w.z == 0.0) || (w.x == 0.0 && w.z == 0.0) || (w.x == 0.0 && w.y == 0.0)
  }

  /**
   * A torque-free spin about a principal axis of a diagonal inertia tensor
   * is steady: the angular block of the derivative is zero.
   */
  lemma PrincipalAxisSpinSteady(t: real, state: seq<real>, sc: Spacecraft, rMag: real, qMag: real)
    requires |state| == StateSize
    requires IsNorm(rMag, Position(state))
    requires IsQNorm(qMag, Attitude(state))
    requires IsDiagonal(sc.inertia)
    requires OnCoordinateAxis(AngularVelocity(state))
    requires TotalTorque(sc, Normalize(Attitude(state), qMag), AngularVelocity(state)) == Zero
    ensures AngularVelocity(StateDerivative(t, state, sc, rMag, qMag)) == Zero
  {
    var w := AngularVelocity(state);
    var iw := MatVec(sc.inertia, w);
    assert Cross(w, iw) == Zero;
  }

  /**
   * The attitude block of the derivative is orthogonal to the normalised
   * attitude, so it keeps the attitude's norm to first order.
   */
  lemma AttitudeRateOrthogonal(t: real, state: seq<real>, sc: Spacecraft, rMag: real, qMag: real)
    requires |state| == StateSize
    requires IsNorm(rMag, Position(state))
    requires IsQNorm(qMag, Attitude(state))
    ensures QDot(Normalize(Attitude(state), qMag), Attitude(StateDerivative(t, state, sc, rMag, qMag))) == 0.0
  {
  }

  /** The translational blocks: dr/dt is the velocity, dv/dt points at the centre. */
  lemma TranslationalBlocks(t: real, state: seq<real>, sc: Spacecraft, rMag: real, qMag: real)
    requires |state| == StateSize
    requires IsNorm(rMag, Position(state))
    requires IsQNorm(qMag, Attitude(state))
    ensures Position(StateDerivative(t, state, sc, rMag, qMag)) == Velocity(state)
    ensures Cross(Position(state), Velocity(StateDerivative(t, state, sc, rMag, qMag))) == Zero
    ensures Dot(Position(state), Velocity(StateDerivative(t, state, sc, rMag, qMag))) < 0.0
  {
  }

  /** The configured start [r0, v0, q0, w0] as a packed state vector. */
  function ConfiguredState(): (s: seq<real>)
    ensures |s| == StateSize
    ensures Position(s) == SpacecraftConfig.InitialPosition && Velocity(s) == SpacecraftConfig.InitialVelocity
    ensures Attitude(s) == SpacecraftConfig.InitialAttitude && AngularVelocity(s) == SpacecraftConfig.InitialAngularVelocity
  {
    UnpackPack(SpacecraftConfig.InitialPosition, SpacecraftConfig.InitialVelocity,
               SpacecraftConfig.InitialAttitude, SpacecraftConfig.InitialAngularVelocity);
    Pack(SpacecraftConfig.InitialPosition, SpacecraftConfig.InitialVelocity,
         SpacecraftConfig.InitialAttitude, SpacecraftConfig.InitialAngularVelocity)
  }

  /**
   * The configured start meets every precondition of the dynamics: r0 has
   * norm 7000e3 and q0 has norm 1. The configured inertia is diagonal, so
   * symmetric, and inverted by the configured inverse.
   */
  lemma ConfiguredScenarioWellFormed(sc: Spacecraft)
    requires sc.inertia == SpacecraftConfig.Inertia && sc.inertiaInv == SpacecraftConfig.InertiaInverse
    ensures IsNorm(7000e3, Position(ConfiguredState()))
    ensures IsQNorm(1.0, Attitude(ConfiguredState()))
    ensures IsInverse(sc.inertia, sc.inertiaInv) && IsSymmetric(sc.inertia) && IsDiagonal(sc.inertia)
    ensures OnCoordinateAxis(AngularVelocity(ConfiguredState()))
    ensures Normalize(Attitude(ConfiguredState()), 1.0) == SpacecraftConfig.InitialAttitude
  {
    var s := ConfiguredState();
    assert IsNorm(7000e3, Position(s));
    SpacecraftConfig.InitialAttitudeIsUnit();
    assert IsQNorm(1.0, Attitude(s));
    SpacecraftConfig.InertiaInverseCorrect();
  }

  /**
   * Under zero torque the configured start, a spin about the body x axis
   * (a principal axis of the configured inertia), is steady: the angular
   * block of the derivative is zero.
   */
  lemma ConfiguredSpinSteady(t: real, sc: Spacecraft)
    requires sc.inertia == SpacecraftConfig.Inertia && sc.inertiaInv == SpacecraftConfig.InertiaInverse
    requires TotalTorque(sc, SpacecraftConfig.InitialAttitude, SpacecraftConfig.InitialAngularVelocity) == Zero
    ensures AngularVelocity(StateDerivative(t, ConfiguredState(), sc, 7000e3, 1.0)) == Zero
  {
    var s := ConfiguredState();
    ConfiguredScenarioWellFormed(sc);
    PrincipalAxisSpinSteady(t, s, sc, 7000e3, 1.0);
  }
}
