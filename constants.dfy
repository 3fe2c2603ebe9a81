/** The physical constants the gravity model reads. */
module Constants {

  /** Gravitational constant, m^3 kg^-1 s^-2. */
  const G: real := 6.67430e-11

  /** Mass of the Earth, kg. */
  const EarthMass: real := 5.972e24

  /** The Earth's standard gravitational parameter, m^3 s^-2. */
  const MuEarth: real := G * EarthMass

  lemma MuEarthPositive()
    ensures MuEarth > 0.0
  {
  }
}

/** The literal configuration of the 1U CubeSat used by the simulation. */
module SpacecraftConfig {
  import opened Vectors

  /** The diagonal inertia tensor, kg m^2. */
  const Inertia: Mat3 := Diag(0.01, 0.01, 0.02)

  /** Its inverse, which the configuration obtains from a matrix inversion. */
  const InertiaInverse: Mat3 := Diag(100.0, 100.0, 50.0)

  /**
   * The configured tensor is diagonal (so symmetric), and the configured
   * inverse is its inverse on both sides.
   */
  lemma InertiaInverseCorrect()
    ensures IsDiagonal(Inertia) && IsSymmetric(Inertia)
    ensures IsInverse(Inertia, InertiaInverse) && IsInverse(InertiaInverse, Inertia)
  {
  }

  /** Initial conditions: position (m), velocity (m/s), attitude, rate (rad/s). */
  const InitialPosition: Vec3 := Vec3(7000e3, 0.0, 0.0)
  const InitialVelocity: Vec3 := Vec3(0.0, 7.5e3, 0.0)
  const InitialAttitude: Quat := Quat(1.0, 0.0, 0.0, 0.0)
  const InitialAngularVelocity: Vec3 := Vec3(0.1, 0.0, 0.0)

  /** The initial attitude [1, 0, 0, 0] is the identity, a unit quaternion. */
  lemma InitialAttitudeIsUnit()
    ensures InitialAttitude == IdentityQuat && QNormSq(InitialAttitude) == 1.0
  {
  }
}
