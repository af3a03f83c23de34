/** Exact-real stand-ins for the single-precision vector, quaternion and matrix
    types the camera controller works with.

    Vector sums, differences and scalings are written out. Everything else —
    sine, cosine, square root, the quaternion product, rotating a vector,
    rotation matrices, the cross product and the matrix-to-quaternion
    conversion — is supplied by a `Kernel` value, and the model is stated for
    every kernel. Where a property needs the kernel to behave like the exact
    operation at some point, that is a named predicate on the kernel. */
module Geometry {

  datatype Vec2 = Vec2(x: real, y: real)

  datatype Vec3 = Vec3(x: real, y: real, z: real)

  /** A quaternion `x i + y j + z k + w`. */
  datatype Quat = Quat(x: real, y: real, z: real, w: real)

  /** A 3x3 matrix given by its columns. */
  datatype Mat3 = Mat3(xAxis: Vec3, yAxis: Vec3, zAxis: Vec3)

  /** An entity's local placement: translation, rotation and scale. */
  datatype Transform = Transform(translation: Vec3, rotation: Quat, scale: Vec3)

  /** An entity's world placement as an affine map: linear part and translation. */
  datatype GlobalTransform = GlobalTransform(matrix3: Mat3, translation: Vec3)

  const Zero2: Vec2 := Vec2(0.0, 0.0)
  const Zero3: Vec3 := Vec3(0.0, 0.0, 0.0)
  const UnitX: Vec3 := Vec3(1.0, 0.0, 0.0)
  const UnitY: Vec3 := Vec3(0.0, 1.0, 0.0)
  const UnitZ: Vec3 := Vec3(0.0, 0.0, 1.0)
  const Identity: Quat := Quat(0.0, 0.0, 0.0, 1.0)

  /** The decimal expansion the single-precision constant is rounded from. */
  const Pi: real := 3.14159265358979323846

  function Add2(a: Vec2, b: Vec2): Vec2 {
    Vec2(a.x + b.x, a.y + b.y)
  }

  function LengthSquared2(v: Vec2): real {
    v.x * v.x + v.y * v.y
  }

  function Abs(r: real): real {
    if r < 0.0 then -r else r
  }

  function Max(a: real, b: real): real {
    if a < b then b else a
  }

  function Add(a: Vec3, b: Vec3): Vec3 {
    Vec3(a.x + b.x, a.y + b.y, a.z + b.z)
  }

  function Sub(a: Vec3, b: Vec3): Vec3 {
    Vec3(a.x - b.x, a.y - b.y, a.z - b.z)
  }

  function Scale(v: Vec3, s: real): Vec3 {
    Vec3(v.x * s, v.y * s, v.z * s)
  }

  function Dot(a: Vec3, b: Vec3): real {
    a.x * b.x + a.y * b.y + a.z * b.z
  }

  /** The floating-point geometry the controller calls into, supplied from
      outside and otherwise unconstrained:
      - `sin`, `cos`, `sqrt` on scalars;
      - `mul`, the quaternion product `a * b` (the rotation `b`, then `a`);
      - `rotate`, a vector rotated by a quaternion (`q * v`);
      - `matFromQuat`, the rotation matrix of a quaternion, and `mulVec`,
        a matrix applied to a vector;
      - `cross`, the vector cross product;
      - `quatFromMat3`, the rotation a matrix's columns describe. */
  datatype Kernel = Kernel(
    sin: real -> real,
    cos: real -> real,
    sqrt: real -> real,
    mul: (Quat, Quat) -> Quat,
    rotate: (Quat, Vec3) -> Vec3,
    matFromQuat: Quat -> Mat3,
    mulVec: (Mat3, Vec3) -> Vec3,
    cross: (Vec3, Vec3) -> Vec3,
    quatFromMat3: Mat3 -> Quat)

  /** Rotation by `angle` radians about the world x axis. */
  function FromRotationX(k: Kernel, angle: real): Quat {
    Quat(k.sin(angle * 0.5), 0.0, 0.0, k.cos(angle * 0.5))
  }

  /** Rotation by `angle` radians about the world y axis. */
  function FromRotationY(k: Kernel, angle: real): Quat {
    Quat(0.0, k.sin(angle * 0.5), 0.0, k.cos(angle * 0.5))
  }

  function Length(k: Kernel, v: Vec3): real {
    k.sqrt(Dot(v, v))
  }

  /** The kernel's sine and cosine are exact at zero, so a rotation by a zero
      angle is the identity. */
  ghost predicate ExactAtZero(k: Kernel) {
    k.sin(0.0) == 0.0 && k.cos(0.0) == 1.0
  }

  /** The identity is neutral for the kernel's quaternion product. */
  ghost predicate IdentityNeutral(k: Kernel) {
    forall q :: k.mul(Identity, q) == q && k.mul(q, Identity) == q
  }

  /** The kernel rotates by the identity without change. */
  ghost predicate IdentityFixes(k: Kernel) {
    forall v :: k.rotate(Identity, v) == v
  }

  lemma ProductNonNegative(a: real, b: real)
    requires a >= 0.0 && b >= 0.0
    ensures a * b >= 0.0
  {
  }

  lemma DivCancel(a: real, n: real)
    requires n != 0.0
    ensures (a * n) / n == a
  {
  }

  lemma MulCancel(a: real, b: real, n: real)
    requires n != 0.0 && a * n == b * n
    ensures a == b
  {
    DivCancel(a, n);
    DivCancel(b, n);
  }

  lemma ScaleCancel(a: Vec3, b: Vec3, n: real)
    requires n != 0.0 && Scale(a, n) == Scale(b, n)
    ensures a == b
  {
    MulCancel(a.x, b.x, n);
    MulCancel(a.y, b.y, n);
    MulCancel(a.z, b.z, n);
  }

  lemma MulSucc(a: real, n: real)
    ensures a * (n + 1.0) == a * n + a
  {
  }

  lemma ScaleSucc(p: Vec3, n: real)
    ensures Scale(p, n + 1.0) == Add(Scale(p, n), p)
  {
    MulSucc(p.x, n);
    MulSucc(p.y, n);
    MulSucc(p.z, n);
  }
}
