/**
 * Vectors, matrices and the floating-point helpers of the viewer.
 *
 * Coordinates are modelled as `real`. The helpers whose results depend on
 * floating-point square roots and trigonometry (normalisation, length, the
 * trigonometric functions, and the matrix builders lookAt, perspective and
 * ortho) are uninterpreted constants: the model knows nothing about them
 * except that each is a (total) function, so every property proved below
 * holds whatever these functions compute.
 */
module Geometry {

  datatype Vec3 = Vec3(x: real, y: real, z: real)
  datatype Vec2 = Vec2(x: real, y: real)

  const Zero3: Vec3 := Vec3(0.0, 0.0, 0.0)
  const Zero2: Vec2 := Vec2(0.0, 0.0)

  function Add(a: Vec3, b: Vec3): Vec3 { Vec3(a.x + b.x, a.y + b.y, a.z + b.z) }
  function Sub(a: Vec3, b: Vec3): Vec3 { Vec3(a.x - b.x, a.y - b.y, a.z - b.z) }
  function Scale(v: Vec3, s: real): Vec3 { Vec3(v.x * s, v.y * s, v.z * s) }

  /** Midpoint `(a + b) * 0.5`, as getCenter computes it. */
  function Midpoint(a: Vec3, b: Vec3): Vec3 { Scale(Add(a, b), 0.5) }

  /** QVector3D::crossProduct. */
  function Cross(a: Vec3, b: Vec3): Vec3 {
    Vec3(a.y * b.z - a.z * b.y, a.z * b.x - a.x * b.z, a.x * b.y - a.y * b.x)
  }

  /** QVector3D::dotProduct. */
  function Dot(a: Vec3, b: Vec3): real { a.x * b.x + a.y * b.y + a.z * b.z }

  /** The cross product is orthogonal to both of its operands. */
  lemma CrossOrthogonal(a: Vec3, b: Vec3)
    ensures Dot(Cross(a, b), a) == 0.0 && Dot(Cross(a, b), b) == 0.0
  {
  }

  /** Qt's qMin and qMax: `a < b ? a : b` and `a < b ? b : a`. */
  function QMin(a: real, b: real): real { if a < b then a else b }
  function QMax(a: real, b: real): real { if a < b then b else a }

  /** Qt's qBound(lo, v, hi) = qMax(lo, qMin(hi, v)). */
  function QBound(lo: real, v: real, hi: real): (r: real)
    requires lo <= hi
    ensures lo <= r <= hi
    ensures lo <= v <= hi ==> r == v
    ensures v < lo ==> r == lo
    ensures hi < v ==> r == hi
  {
    QMax(lo, QMin(hi, v))
  }

  /** float(M_PI), as a decimal. */
  const Pi: real := 3.1415927

  /** qDegreesToRadians. */
  function DegreesToRadians(deg: real): real { deg * (Pi / 180.0) }

  /** A 4x4 matrix, row-major: entry (row, col) is at index 4 * row + col. */
  type Mat4 = m: seq<real> | |m| == 16
    witness [1.0, 0.0, 0.0, 0.0, 0.0, 1.0, 0.0, 0.0, 0.0, 0.0, 1.0, 0.0, 0.0, 0.0, 0.0, 1.0]

  const Identity: Mat4 :=
    [1.0, 0.0, 0.0, 0.0, 0.0, 1.0, 0.0, 0.0, 0.0, 0.0, 1.0, 0.0, 0.0, 0.0, 0.0, 1.0]

  /** The matrix product `a * b` of QMatrix4x4. */
  function MatMul(a: Mat4, b: Mat4): Mat4 {
    seq(16, k requires 0 <= k < 16 =>
      var r, c := k / 4, k % 4;
      a[4 * r] * b[c] + a[4 * r + 1] * b[4 + c] + a[4 * r + 2] * b[8 + c] + a[4 * r + 3] * b[12 + c])
  }

  // Uninterpreted floating-point helpers (no property of them is assumed).

  /** QVector3D::normalized. */
  const Normalized: Vec3 -> Vec3
  /** QVector3D::length. */
  const Length: Vec3 -> real
  /** qAtan2(y, x), qAcos, qSin, qCos, qTan. */
  const Atan2: (real, real) -> real
  const Acos: real -> real
  const Sin: real -> real
  const Cos: real -> real
  const Tan: real -> real
  /** QMatrix4x4::lookAt(eye, center, up) applied to the identity. */
  const LookAtMatrix: (Vec3, Vec3, Vec3) -> Mat4
  /** QMatrix4x4::perspective(fov, aspect, near, far) applied to the identity. */
  const PerspectiveMatrix: (real, real, real, real) -> Mat4
  /** QMatrix4x4::ortho(left, right, bottom, top, near, far) applied to the identity. */
  const OrthoMatrix: (real, real, real, real, real, real) -> Mat4
}
