/** Three-component vectors (the source's GLTVector3) over the reals, with the
    cross product that the camera code uses to derive its right axis. */
module Vectors {

  datatype Vec3 = Vec3(x: real, y: real, z: real)

  const Zero: Vec3 := Vec3(0.0, 0.0, 0.0)

  /** The world axes. */
  const UnitX: Vec3 := Vec3(1.0, 0.0, 0.0)
  const UnitY: Vec3 := Vec3(0.0, 1.0, 0.0)
  const UnitZ: Vec3 := Vec3(0.0, 0.0, 1.0)

  function Add(u: Vec3, v: Vec3): Vec3 {
    Vec3(u.x + v.x, u.y + v.y, u.z + v.z)
  }

  function Scale(k: real, v: Vec3): Vec3 {
    Vec3(k * v.x, k * v.y, k * v.z)
  }

  function Neg(v: Vec3): Vec3 {
    Vec3(-v.x, -v.y, -v.z)
  }

  function Dot(u: Vec3, v: Vec3): real {
    u.x * v.x + u.y * v.y + u.z * v.z
  }

  function LengthSq(v: Vec3): real {
    Dot(v, v)
  }

  /** gltVectorCrossProduct, component by component as the source writes it. */
  function Cross(u: Vec3, v: Vec3): Vec3 {
    Vec3(u.y * v.z - v.y * u.z,
         -u.x * v.z + v.x * u.z,
         u.x * v.y - v.x * u.y)
  }

  /** The cross product is perpendicular to both operands. */
  lemma CrossOrthogonal(u: Vec3, v: Vec3)
    ensures Dot(Cross(u, v), u) == 0.0 && Dot(Cross(u, v), v) == 0.0
  {
  }

  /** Swapping the operands negates the cross product. */
  lemma CrossAnticommutative(u: Vec3, v: Vec3)
    ensures Cross(v, u) == Neg(Cross(u, v))
  {
  }

  /** The right-handed basis: x cross y is z. */
  lemma CrossOfBasis()
    ensures Cross(UnitX, UnitY) == UnitZ
  {
  }

  /** Lagrange's identity: |u x v|^2 = |u|^2 |v|^2 - (u . v)^2. */
  lemma LagrangeIdentity(u: Vec3, v: Vec3)
    ensures LengthSq(Cross(u, v)) == LengthSq(u) * LengthSq(v) - Dot(u, v) * Dot(u, v)
  {
  }

  // Linearity of the operations, used to show that the rotation matrix is
  // Rodrigues' formula applied to any vector.

  lemma ScaleAdd(k: real, u: Vec3, w: Vec3)
    ensures Scale(k, Add(u, w)) == Add(Scale(k, u), Scale(k, w))
  {
  }

  lemma AddScale(a: real, b: real, u: Vec3)
    ensures Scale(a + b, u) == Add(Scale(a, u), Scale(b, u))
  {
  }

  lemma ScaleScale(a: real, b: real, u: Vec3)
    ensures Scale(a, Scale(b, u)) == Scale(a * b, u)
  {
  }

  lemma ScaleCommute(a: real, b: real, u: Vec3)
    ensures Scale(a, Scale(b, u)) == Scale(b, Scale(a, u))
  {
  }

  lemma ScaleThree(k: real, a: Vec3, b: Vec3, d: Vec3)
    ensures Scale(k, Add(Add(a, b), d)) == Add(Add(Scale(k, a), Scale(k, b)), Scale(k, d))
  {
    ScaleAdd(k, Add(a, b), d);
    ScaleAdd(k, a, b);
  }

  /** Reorders a sum of three pairs into the sum of the pairs' first and
      second members. */
  lemma RegroupSix(a: Vec3, b: Vec3, c: Vec3, d: Vec3, e: Vec3, f: Vec3)
    ensures Add(Add(Add(a, b), Add(c, d)), Add(e, f)) == Add(Add(Add(a, c), e), Add(Add(b, d), f))
  {
  }

  lemma DotAdd(n: Vec3, u: Vec3, w: Vec3)
    ensures Dot(n, Add(u, w)) == Dot(n, u) + Dot(n, w)
  {
  }

  lemma DotScale(n: Vec3, k: real, u: Vec3)
    ensures Dot(n, Scale(k, u)) == k * Dot(n, u)
  {
  }

  /** The cross product distributes over a sum in its second operand. */
  lemma CrossAdd(n: Vec3, u: Vec3, w: Vec3)
    ensures Cross(n, Add(u, w)) == Add(Cross(n, u), Cross(n, w))
  {
  }

  lemma CrossScaleX(n: Vec3, k: real, u: Vec3)
    ensures Cross(n, Scale(k, u)).x == k * Cross(n, u).x
  {
  }

  lemma CrossScaleY(n: Vec3, k: real, u: Vec3)
    ensures Cross(n, Scale(k, u)).y == k * Cross(n, u).y
  {
  }

  lemma CrossScaleZ(n: Vec3, k: real, u: Vec3)
    ensures Cross(n, Scale(k, u)).z == k * Cross(n, u).z
  {
  }

  /** Scaling the second operand scales the cross product. */
  lemma CrossScale(n: Vec3, k: real, u: Vec3)
    ensures Cross(n, Scale(k, u)) == Scale(k, Cross(n, u))
  {
    CrossScaleX(n, k, u);
    CrossScaleY(n, k, u);
    CrossScaleZ(n, k, u);
  }
}
