/**
 * The numpy array arithmetic the simulator relies on, over ideal reals:
 * 3-vectors, scalar-first quaternions and 3x3 matrices stored by rows.
 * Only the operations the dynamics use are defined (`+`, `-`, scalar `*`,
 * division by a scalar, the dot product and the `@` matrix-vector product).
 */
module Vectors {

  datatype Vec3 = Vec3(x: real, y: real, z: real)

  /** A quaternion [q0, q1, q2, q3] with the scalar part first. */
  datatype Quat = Quat(w: real, x: real, y: real, z: real)

  /** A 3x3 matrix given by its three rows. */
  datatype Mat3 = Mat3(row0: Vec3, row1: Vec3, row2: Vec3)

  const Zero: Vec3 := Vec3(0.0, 0.0, 0.0)

  function Add(a: Vec3, b: Vec3): Vec3
  {
    Vec3(a.x + b.x, a.y + b.y, a.z + b.z)
  }

  function Sub(a: Vec3, b: Vec3): Vec3
  {
    Vec3(a.x - b.x, a.y - b.y, a.z - b.z)
  }

  function Scale(k: real, a: Vec3): Vec3
  {
    Vec3(k * a.x, k * a.y, k * a.z)
  }

  function Dot(a: Vec3, b: Vec3): real
  {
    a.x * b.x + a.y * b.y + a.z * b.z
  }

  /** `n` is the Euclidean norm of `a`, and it is not zero. */
  predicate IsNorm(n: real, a: Vec3)
  {
    n > 0.0 && n * n == Dot(a, a)
  }

  function QScale(k: real, q: Quat): Quat
  {
    Quat(k * q.w, k * q.x, k * q.y, k * q.z)
  }

  /** Component-wise division of a quaternion by a nonzero scalar. */
  function QDiv(q: Quat, n: real): Quat
    requires n != 0.0
  {
    Quat(q.w / n, q.x / n, q.y / n, q.z / n)
  }

  function QDot(p: Quat, q: Quat): real
  {
    p.w * q.w + p.x * q.x + p.y * q.y + p.z * q.z
  }

  function QNormSq(q: Quat): real
  {
    QDot(q, q)
  }

  /** `n` is the Euclidean norm of `q`, and it is not zero. */
  predicate IsQNorm(n: real, q: Quat)
  {
    n > 0.0 && n * n == QNormSq(q)
  }

  /** The vector part of a quaternion. */
  function VecPart(q: Quat): Vec3
  {
    Vec3(q.x, q.y, q.z)
  }

  /** The pure quaternion [0, v]. */
  function Pure(v: Vec3): Quat
  {
    Quat(0.0, v.x, v.y, v.z)
  }

  function Conjugate(q: Quat): Quat
  {
    Quat(q.w, -q.x, -q.y, -q.z)
  }

  const IdentityQuat: Quat := Quat(1.0, 0.0, 0.0, 0.0)

  const Identity3: Mat3 := Mat3(Vec3(1.0, 0.0, 0.0), Vec3(0.0, 1.0, 0.0), Vec3(0.0, 0.0, 1.0))

  function Diag(a: real, b: real, c: real): Mat3
  {
    Mat3(Vec3(a, 0.0, 0.0), Vec3(0.0, b, 0.0), Vec3(0.0, 0.0, c))
  }

  predicate IsDiagonal(m: Mat3)
  {
    m.row0.y == 0.0 && m.row0.z == 0.0
    && m.row1.x == 0.0 && m.row1.z == 0.0
    && m.row2.x == 0.0 && m.row2.y == 0.0
  }

  predicate IsSymmetric(m: Mat3)
  {
    m.row0.y == m.row1.x && m.row0.z == m.row2.x && m.row1.z == m.row2.y
  }

  function Column0(m: Mat3): Vec3 { Vec3(m.row0.x, m.row1.x, m.row2.x) }
  function Column1(m: Mat3): Vec3 { Vec3(m.row0.y, m.row1.y, m.row2.y) }
  function Column2(m: Mat3): Vec3 { Vec3(m.row0.z, m.row1.z, m.row2.z) }

  /** The matrix-vector product `m @ v`. */
  function MatVec(m: Mat3, v: Vec3): Vec3
  {
    Vec3(Dot(m.row0, v), Dot(m.row1, v), Dot(m.row2, v))
  }

  /** The matrix product `a @ b`. */
  function MatMul(a: Mat3, b: Mat3): Mat3
  {
    Mat3(
      Vec3(Dot(a.row0, Column0(b)), Dot(a.row0, Column1(b)), Dot(a.row0, Column2(b))),
      Vec3(Dot(a.row1, Column0(b)), Dot(a.row1, Column1(b)), Dot(a.row1, Column2(b))),
      Vec3(Dot(a.row2, Column0(b)), Dot(a.row2, Column1(b)), Dot(a.row2, Column2(b))))
  }

  /** `inv` is a right inverse of `m`: `m @ inv` is the identity matrix. */
  predicate IsInverse(m: Mat3, inv: Mat3)
  {
    MatMul(m, inv) == Identity3
  }

  /** Two positive reals with the same square are equal: a norm is unique. */
  lemma PositiveSquareRootUnique(a: real, b: real)
    requires a > 0.0 && b > 0.0 && a * a == b * b
    ensures a == b
  {
    assert (a - b) * (a + b) == a * a - b * b == 0.0;
    assert a + b != 0.0;
  }

  /** Scaling a quaternion by c > 0 scales its norm by c. */
  lemma {:induction false} ScaledNorm(q: Quat, n: real, c: real, m: real)
    requires IsQNorm(n, q) && c > 0.0 && IsQNorm(m, QScale(c, q))
    ensures m == c * n
  {
    calc {
      m * m;
      QNormSq(QScale(c, q));
      c * c * QNormSq(q);
      (c * n) * (c * n);
    }
    assert c * n > 0.0;
    PositiveSquareRootUnique(m, c * n);
  }

  /** Dividing a quaternion by its norm gives a unit quaternion. */
  lemma NormalizedIsUnit(q: Quat, n: real)
    requires IsQNorm(n, q)
    ensures QNormSq(QDiv(q, n)) == 1.0
  {
    var u := QDiv(q, n);
    assert QScale(n, u) == q;
    calc {
      n * n * QNormSq(u);
      QNormSq(QScale(n, u));
      QNormSq(q);
      n * n;
    }
  }

  /** Division by the norm does not see a positive rescaling of the input. */
  lemma {:induction false} NormalizeScaleInvariant(q: Quat, n: real, c: real, m: real)
    requires IsQNorm(n, q) && c > 0.0 && IsQNorm(m, QScale(c, q))
    ensures QDiv(QScale(c, q), m) == QDiv(q, n)
  {
    ScaledNorm(q, n, c, m);
    CancelFactor(q.w, c, n);
    CancelFactor(q.x, c, n);
    CancelFactor(q.y, c, n);
    CancelFactor(q.z, c, n);
  }

  /** A common nonzero factor of numerator and denominator cancels. */
  lemma CancelFactor(a: real, c: real, n: real)
    requires c != 0.0 && n != 0.0
    ensures (c * a) / (c * n) == a / n
  {
    var x := a / n;
    assert x * n == a;
    assert (c * n) * x == c * a;
  }

  /** `a @ (b @ v) == (a @ b) @ v`. */
  lemma MatVecMatMul(a: Mat3, b: Mat3, v: Vec3)
    ensures MatVec(a, MatVec(b, v)) == MatVec(MatMul(a, b), v)
  {
  }

  /** A symmetric matrix can be moved across the dot product: a . (m b) == b . (m a). */
  lemma DotMatVecSymmetric(m: Mat3, a: Vec3, b: Vec3)
    requires IsSymmetric(m)
    ensures Dot(a, MatVec(m, b)) == Dot(b, MatVec(m, a))
  {
  }

  /** Applying a right inverse, then the matrix, gives the vector back. */
  lemma MatVecInverse(m: Mat3, inv: Mat3, v: Vec3)
    requires IsInverse(m, inv)
    ensures MatVec(m, MatVec(inv, v)) == v
  {
    MatVecMatMul(m, inv, v);
  }
}
