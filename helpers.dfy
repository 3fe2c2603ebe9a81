/**
 * The vector and quaternion helpers of the simulation: the hand-written
 * cross product, the Hamilton product, the quaternion kinematic rate and
 * point-mass gravity.
 */
module HelperFunctions {
  import opened Vectors
  import Constants

  // ---------------------------------------------------------------------
  // Cross product
  // ---------------------------------------------------------------------

  /** The 3-D cross product `a x b`, written out component by component. */
  function Cross(a: Vec3, b: Vec3): Vec3
  {
    Vec3(a.y * b.z - a.z * b.y,
         a.z * b.x - a.x * b.z,
         a.x * b.y - a.y * b.x)
  }

  /** `a x b` is orthogonal to both of its factors. */
  lemma CrossOrthogonal(a: Vec3, b: Vec3)
    ensures Dot(a, Cross(a, b)) == 0.0 && Dot(b, Cross(a, b)) == 0.0
  {
  }

  lemma CrossAnticommutative(a: Vec3, b: Vec3)
    ensures Cross(a, b) == Scale(-1.0, Cross(b, a))
  {
  }

  lemma CrossSelfZero(a: Vec3)
    ensures Cross(a, a) == Zero
  {
  }

  /** A vector crossed with any multiple of itself gives zero. */
  lemma CrossParallelZero(a: Vec3, k: real)
    ensures Cross(a, Scale(k, a)) == Zero
  {
  }

  /** Lagrange's identity: |a x b|^2 == |a|^2 |b|^2 - (a . b)^2. */
  lemma CrossLagrangeIdentity(a: Vec3, b: Vec3)
    ensures Dot(Cross(a, b), Cross(a, b)) == Dot(a, a) * Dot(b, b) - Dot(a, b) * Dot(a, b)
  {
  }

  // ---------------------------------------------------------------------
  // Hamilton product
  // ---------------------------------------------------------------------

  /** The Hamilton product `p (x) q` of two scalar-first quaternions. */
  function QuaternionMultiply(p: Quat, q: Quat): Quat
  {
    Quat(p.w * q.w - p.x * q.x - p.y * q.y - p.z * q.z,
         p.w * q.x + p.x * q.w + p.y * q.z - p.z * q.y,
         p.w * q.y - p.x * q.z + p.y * q.w + p.z * q.x,
         p.w * q.z + p.x * q.y - p.y * q.x + p.z * q.w)
  }

  /**
   * The product in scalar-vector form:
   * (p0, p) (x) (q0, q) == (p0 q0 - p . q, p0 q + q0 p + p x q).
   */
  lemma QuaternionMultiplyVectorForm(p: Quat, q: Quat)
    ensures QuaternionMultiply(p, q).w == p.w * q.w - Dot(VecPart(p), VecPart(q))
    ensures VecPart(QuaternionMultiply(p, q))
         == Add(Add(Scale(p.w, VecPart(q)), Scale(q.w, VecPart(p))), Cross(VecPart(p), VecPart(q)))
  {
  }

  /** [1, 0, 0, 0] is a two-sided identity of the product. */
  lemma QuaternionMultiplyIdentity(q: Quat)
    ensures QuaternionMultiply(IdentityQuat, q) == q
    ensures QuaternionMultiply(q, IdentityQuat) == q
  {
  }

  /** `q (x) conj(q) == [|q|^2, 0, 0, 0]`, on both sides. */
  lemma QuaternionConjugateProduct(q: Quat)
    ensures QuaternionMultiply(q, Conjugate(q)) == Quat(QNormSq(q), 0.0, 0.0, 0.0)
    ensures QuaternionMultiply(Conjugate(q), q) == Quat(QNormSq(q), 0.0, 0.0, 0.0)
  {
  }

  /** The conjugate of a unit quaternion is its inverse. */
  lemma UnitQuaternionInverse(q: Quat)
    requires QNormSq(q) == 1.0
    ensures QuaternionMultiply(q, Conjugate(q)) == IdentityQuat
    ensures QuaternionMultiply(Conjugate(q), q) == IdentityQuat
  {
    QuaternionConjugateProduct(q);
  }

  /** The product is not commutative: i (x) j == k but j (x) i == -k. */
  lemma QuaternionMultiplyNotCommutative()
    ensures QuaternionMultiply(Quat(0.0, 1.0, 0.0, 0.0), Quat(0.0, 0.0, 1.0, 0.0)) == Quat(0.0, 0.0, 0.0, 1.0)
    ensures QuaternionMultiply(Quat(0.0, 0.0, 1.0, 0.0), Quat(0.0, 1.0, 0.0, 0.0)) == Quat(0.0, 0.0, 0.0, -1.0)
  {
    // Hint: settling the first product on its own keeps the solver within its limit.
    assert QuaternionMultiply(Quat(0.0, 1.0, 0.0, 0.0), Quat(0.0, 0.0, 1.0, 0.0)) == Quat(0.0, 0.0, 0.0, 1.0);
  }

  /** Swapping the factors changes the vector part by twice their cross product. */
  lemma QuaternionMultiplyCommutator(p: Quat, q: Quat)
    ensures VecPart(QuaternionMultiply(p, q))
         == Add(VecPart(QuaternionMultiply(q, p)), Scale(2.0, Cross(VecPart(p), VecPart(q))))
    ensures QuaternionMultiply(p, q).w == QuaternionMultiply(q, p).w
  {
    // Hint: settling the scalar part on its own keeps the solver within its limit.
    assert QuaternionMultiply(p, q).w == QuaternionMultiply(q, p).w;
  }

  // ---------------------------------------------------------------------
  // Quaternion kinematics
  // ---------------------------------------------------------------------

  /**
   * The attitude rate dq/dt for attitude `q` and angular velocity `w`.
   * Its coefficients are those of 1/2 ([0, w] (x) q), the rate written
   * with `w` on the left of the attitude.
   */
  function QuaternionDerivative(q: Quat, w: Vec3): (d: Quat)
    ensures d == QScale(0.5, QuaternionMultiply(Pure(w), q))
    ensures QDot(q, d) == 0.0
  {
    QScale(0.5, Quat(-w.x * q.x - w.y * q.y - w.z * q.z,
                      w.x * q.w + w.y * q.z - w.z * q.y,
                     -w.x * q.z + w.y * q.w + w.z * q.x,
                      w.x * q.y - w.y * q.x + w.z * q.w))
  }

  /** At rest the attitude does not change. */
  lemma QuaternionDerivativeAtRest(q: Quat)
    ensures QuaternionDerivative(q, Zero) == Quat(0.0, 0.0, 0.0, 0.0)
  {
  }

  /**
   * The rate equals 1/2 (q (x) [0, w]), the other order of the factors,
   * exactly when the vector part of `q` is parallel to `w`.
   */
  lemma QuaternionDerivativeConvention(q: Quat, w: Vec3)
    ensures QuaternionDerivative(q, w) == QScale(0.5, QuaternionMultiply(q, Pure(w)))
        <==> Cross(VecPart(q), w) == Zero
  {
    QuaternionMultiplyCommutator(q, Pure(w));
  }

  /**
   * For the attitude j = [0, 0, 1, 0] and the rate w = (1, 0, 0) the two
   * orders give different rates, so the convention of the code matters.
   */
  lemma QuaternionDerivativeConventionWitness()
    ensures QuaternionDerivative(Quat(0.0, 0.0, 1.0, 0.0), Vec3(1.0, 0.0, 0.0))
         != QScale(0.5, QuaternionMultiply(Quat(0.0, 0.0, 1.0, 0.0), Pure(Vec3(1.0, 0.0, 0.0))))
  {
    QuaternionDerivativeConvention(Quat(0.0, 0.0, 1.0, 0.0), Vec3(1.0, 0.0, 0.0));
    assert Cross(Vec3(0.0, 1.0, 0.0), Vec3(1.0, 0.0, 0.0)).z == -1.0;
  }

  // ---------------------------------------------------------------------
  // Gravity
  // ---------------------------------------------------------------------

  /**
   * Point-mass gravitational acceleration at position `r`, whose norm is
   * `rMag`: -mu / |r|^3 * r.
   */
  function CalculateAG(r: Vec3, rMag: real): (a: Vec3)
    requires IsNorm(rMag, r)
    ensures Cross(r, a) == Zero
    ensures Dot(r, a) < 0.0
    ensures Dot(a, a) == (Constants.MuEarth / (rMag * rMag)) * (Constants.MuEarth / (rMag * rMag))
  {
    Constants.MuEarthPositive();
    var k := -Constants.MuEarth / (rMag * rMag * rMag);
    CrossParallelZero(r, k);
    assert Dot(r, Scale(k, r)) == k * (rMag * rMag);
    assert k < 0.0;
    assert Dot(Scale(k, r), Scale(k, r)) == k * k * (rMag * rMag);
    Scale(k, r)
  }
}
