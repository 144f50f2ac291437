/** The source's GLTMatrix utilities: a 4x4 matrix stored as sixteen floats in
    column-major order, the identity, the axis-angle rotation matrix and the
    rotation of a 3-vector by the upper-left 3x3 block. */
module Matrices {
  import opened Vectors

  /** A GLTMatrix: entry (row, col) is stored at index col * 4 + row. */
  type Matrix = m: seq<real> | |m| == 16 witness seq(16, _ => 0.0)

  const Identity: Matrix :=
    [1.0, 0.0, 0.0, 0.0,
     0.0, 1.0, 0.0, 0.0,
     0.0, 0.0, 1.0, 0.0,
     0.0, 0.0, 0.0, 1.0]

  function Entry(m: Matrix, row: nat, col: nat): real
    requires row < 4 && col < 4
  {
    m[col * 4 + row]
  }

  /** The identity has ones on the diagonal and zeros elsewhere. */
  lemma IdentityEntries(row: nat, col: nat)
    requires row < 4 && col < 4
    ensures Entry(Identity, row, col) == if row == col then 1.0 else 0.0
  {
  }

  /** The last row and the last column are (0, 0, 0, 1): the matrix neither
      translates nor projects. */
  predicate NoTranslation(m: Matrix) {
    && (forall i :: 0 <= i < 3 ==> Entry(m, 3, i) == 0.0 && Entry(m, i, 3) == 0.0)
    && Entry(m, 3, 3) == 1.0
  }

  /** The first three entries of one of the first three rows. */
  function RowOf(m: Matrix, row: nat): Vec3
    requires row < 3
  {
    Vec3(Entry(m, row, 0), Entry(m, row, 1), Entry(m, row, 2))
  }

  /** A 3x3 block, by rows. */
  datatype Block = Block(r0: Vec3, r1: Vec3, r2: Vec3)

  /** The 3x3 block applied to a vector: one dot product per row. */
  function Apply(b: Block, v: Vec3): Vec3 {
    Vec3(Dot(b.r0, v), Dot(b.r1, v), Dot(b.r2, v))
  }

  /** The matrix laid out column by column, as the source fills it, from the
      block b: the block's rows are the matrix's first three rows, and the
      last row and column are (0, 0, 0, 1). */
  function FromBlock(b: Block): (m: Matrix)
    ensures RowOf(m, 0) == b.r0 && RowOf(m, 1) == b.r1 && RowOf(m, 2) == b.r2
    ensures NoTranslation(m)
  {
    [b.r0.x, b.r1.x, b.r2.x, 0.0,
     b.r0.y, b.r1.y, b.r2.y, 0.0,
     b.r0.z, b.r1.z, b.r2.z, 0.0,
     0.0, 0.0, 0.0, 1.0]
  }

  /** The block of the world axes gives the identity. */
  lemma FromBasisIsIdentity()
    ensures FromBlock(Block(UnitX, UnitY, UnitZ)) == Identity
  {
  }

  /** gltRotateVector: the upper-left 3x3 block times v. Each component of the
      result is the dot product of a matrix row, read in column-major order,
      with v. */
  function RotateVector(v: Vec3, m: Matrix): (r: Vec3)
    ensures r == Vec3(Dot(RowOf(m, 0), v), Dot(RowOf(m, 1), v), Dot(RowOf(m, 2), v))
  {
    Vec3(m[0] * v.x + m[4] * v.y + m[8] * v.z,
         m[1] * v.x + m[5] * v.y + m[9] * v.z,
         m[2] * v.x + m[6] * v.y + m[10] * v.z)
  }

  /** Rotating by a matrix built from a block applies the block. */
  lemma RotateVectorOfBlock(v: Vec3, b: Block)
    ensures RotateVector(v, FromBlock(b)) == Apply(b, v)
  {
  }

  /** The identity leaves every vector unchanged. */
  lemma RotateVectorIdentity(v: Vec3)
    ensures RotateVector(v, Identity) == v
  {
  }

  /** Only the upper-left 3x3 block is read: two matrices that agree there
      rotate every vector alike, whatever their other entries hold. */
  lemma RotateVectorReadsUpperLeft(v: Vec3, m: Matrix, m': Matrix)
    requires forall row, col :: 0 <= row < 3 && 0 <= col < 3 ==> Entry(m, row, col) == Entry(m', row, col)
    ensures RotateVector(v, m) == RotateVector(v, m')
  {
    assert RowOf(m, 0) == RowOf(m', 0) && RowOf(m, 1) == RowOf(m', 1) && RowOf(m, 2) == RowOf(m', 2);
  }

  /** The rotation block gltRotationMatrix computes for a normalised axis n,
      given the sine s and the cosine c of the angle. The zero angle gives the
      unit block, and the skew-symmetric part of the block is 2 s n, the sine
      part of the rotation about n. */
  function AxisAngleBlock(n: Vec3, s: real, c: real): (b: Block)
    ensures s == 0.0 && c == 1.0 ==> b == Block(UnitX, UnitY, UnitZ)
    ensures b.r2.y - b.r1.z == 2.0 * (n.x * s)
    ensures b.r0.z - b.r2.x == 2.0 * (n.y * s)
    ensures b.r1.x - b.r0.y == 2.0 * (n.z * s)
  {
    var t := 1.0 - c;
    var xx, yy, zz := n.x * n.x, n.y * n.y, n.z * n.z;
    var xy, yz, zx := n.x * n.y, n.y * n.z, n.z * n.x;
    var xs, ys, zs := n.x * s, n.y * s, n.z * s;
    Block(Vec3(t * xx + c, t * xy - zs, t * zx + ys),
          Vec3(t * xy + zs, t * yy + c, t * yz - xs),
          Vec3(t * zx - ys, t * yz + xs, t * zz + c))
  }

  /** The rotation matrix for the normalised axis n neither translates nor
      projects, and the zero angle (sine 0, cosine 1) gives the identity about
      any axis. */
  function AxisAngleMatrix(n: Vec3, s: real, c: real): (m: Matrix)
    ensures NoTranslation(m)
    ensures s == 0.0 && c == 1.0 ==> m == Identity
  {
    FromBlock(AxisAngleBlock(n, s, c))
  }

  /** Rodrigues' rotation formula: c v + s (n x v) + (1 - c) (n . v) n. */
  function Rodrigues(n: Vec3, s: real, c: real, v: Vec3): Vec3 {
    Add(Add(Scale(c, v), Scale(s, Cross(n, v))), Scale(1.0 - c, Scale(Dot(n, v), n)))
  }

  /** k.x u + k.y v + k.z w. */
  function Combine(k: Vec3, u: Vec3, v: Vec3, w: Vec3): Vec3 {
    Add(Add(Scale(k.x, u), Scale(k.y, v)), Scale(k.z, w))
  }

  /** The first three entries of a column. */
  function ColumnOf(m: Matrix, col: nat): Vec3
    requires col < 3
  {
    Vec3(Entry(m, 0, col), Entry(m, 1, col), Entry(m, 2, col))
  }

  /** Rotating a vector combines the matrix's columns with the vector's
      components as weights. */
  lemma RotateVectorByColumns(v: Vec3, m: Matrix)
    ensures RotateVector(v, m) == Combine(v, ColumnOf(m, 0), ColumnOf(m, 1), ColumnOf(m, 2))
  {
  }

  /** The columns of a matrix built from a block are the block's columns. */
  lemma FromBlockColumns(b: Block)
    ensures ColumnOf(FromBlock(b), 0) == Vec3(b.r0.x, b.r1.x, b.r2.x)
    ensures ColumnOf(FromBlock(b), 1) == Vec3(b.r0.y, b.r1.y, b.r2.y)
    ensures ColumnOf(FromBlock(b), 2) == Vec3(b.r0.z, b.r1.z, b.r2.z)
  {
  }

  /** Entry (i, j) of the rotation block is component i of the image of the
      j-th world axis under Rodrigues' formula. */
  lemma AxisAngleEntry0X(n: Vec3, s: real, c: real)
    ensures AxisAngleBlock(n, s, c).r0.x == Rodrigues(n, s, c, UnitX).x
  {
  }

  lemma AxisAngleEntry1X(n: Vec3, s: real, c: real)
    ensures AxisAngleBlock(n, s, c).r1.x == Rodrigues(n, s, c, UnitX).y
  {
  }

  lemma AxisAngleEntry2X(n: Vec3, s: real, c: real)
    ensures AxisAngleBlock(n, s, c).r2.x == Rodrigues(n, s, c, UnitX).z
  {
  }

  lemma AxisAngleEntry0Y(n: Vec3, s: real, c: real)
    ensures AxisAngleBlock(n, s, c).r0.y == Rodrigues(n, s, c, UnitY).x
  {
  }

  lemma AxisAngleEntry1Y(n: Vec3, s: real, c: real)
    ensures AxisAngleBlock(n, s, c).r1.y == Rodrigues(n, s, c, UnitY).y
  {
  }

  lemma AxisAngleEntry2Y(n: Vec3, s: real, c: real)
    ensures AxisAngleBlock(n, s, c).r2.y == Rodrigues(n, s, c, UnitY).z
  {
  }

  lemma AxisAngleEntry0Z(n: Vec3, s: real, c: real)
    ensures AxisAngleBlock(n, s, c).r0.z == Rodrigues(n, s, c, UnitZ).x
  {
  }

  lemma AxisAngleEntry1Z(n: Vec3, s: real, c: real)
    ensures AxisAngleBlock(n, s, c).r1.z == Rodrigues(n, s, c, UnitZ).y
  {
  }

  lemma AxisAngleEntry2Z(n: Vec3, s: real, c: real)
    ensures AxisAngleBlock(n, s, c).r2.z == Rodrigues(n, s, c, UnitZ).z
  {
  }

  /** Column j of the rotation block is the image of the j-th world axis. */
  lemma AxisAngleColumnX(n: Vec3, s: real, c: real)
    ensures Vec3(AxisAngleBlock(n, s, c).r0.x, AxisAngleBlock(n, s, c).r1.x, AxisAngleBlock(n, s, c).r2.x)
         == Rodrigues(n, s, c, UnitX)
  {
    AxisAngleEntry0X(n, s, c);
    AxisAngleEntry1X(n, s, c);
    AxisAngleEntry2X(n, s, c);
  }

  lemma AxisAngleColumnY(n: Vec3, s: real, c: real)
    ensures Vec3(AxisAngleBlock(n, s, c).r0.y, AxisAngleBlock(n, s, c).r1.y, AxisAngleBlock(n, s, c).r2.y)
         == Rodrigues(n, s, c, UnitY)
  {
    AxisAngleEntry0Y(n, s, c);
    AxisAngleEntry1Y(n, s, c);
    AxisAngleEntry2Y(n, s, c);
  }

  lemma AxisAngleColumnZ(n: Vec3, s: real, c: real)
    ensures Vec3(AxisAngleBlock(n, s, c).r0.z, AxisAngleBlock(n, s, c).r1.z, AxisAngleBlock(n, s, c).r2.z)
         == Rodrigues(n, s, c, UnitZ)
  {
    AxisAngleEntry0Z(n, s, c);
    AxisAngleEntry1Z(n, s, c);
    AxisAngleEntry2Z(n, s, c);
  }

  /** So the rotation matrix applies Rodrigues' formula to each world axis and
      combines the results linearly. */
  lemma AxisAngleIsRodrigues(n: Vec3, s: real, c: real, v: Vec3)
    ensures RotateVector(v, AxisAngleMatrix(n, s, c))
         == Combine(v, Rodrigues(n, s, c, UnitX), Rodrigues(n, s, c, UnitY), Rodrigues(n, s, c, UnitZ))
  {
    RotateVectorByColumns(v, AxisAngleMatrix(n, s, c));
    FromBlockColumns(AxisAngleBlock(n, s, c));
    AxisAngleColumnX(n, s, c);
    AxisAngleColumnY(n, s, c);
    AxisAngleColumnZ(n, s, c);
  }

  /** The three terms of Rodrigues' formula, named for the proofs below. */
  lemma RodriguesTerms(n: Vec3, s: real, c: real, v: Vec3)
    ensures Rodrigues(n, s, c, v)
         == Add(Add(Scale(c, v), Scale(s, Cross(n, v))), Scale(1.0 - c, Scale(Dot(n, v), n)))
  {
  }

  /** The projection onto n of a sum is the sum of the projections. */
  lemma ProjectAdd(n: Vec3, u: Vec3, w: Vec3)
    ensures Scale(Dot(n, Add(u, w)), n) == Add(Scale(Dot(n, u), n), Scale(Dot(n, w), n))
  {
    DotAdd(n, u, w);
    AddScale(Dot(n, u), Dot(n, w), n);
  }

  /** Rodrigues' formula on a sum, each of its three terms split in two. */
  lemma AddParts(n: Vec3, s: real, c: real, u: Vec3, w: Vec3)
    ensures Rodrigues(n, s, c, Add(u, w))
         == Add(Add(Add(Scale(c, u), Scale(c, w)), Add(Scale(s, Cross(n, u)), Scale(s, Cross(n, w)))),
                Add(Scale(1.0 - c, Scale(Dot(n, u), n)), Scale(1.0 - c, Scale(Dot(n, w), n))))
  {
    RodriguesTerms(n, s, c, Add(u, w));
    ScaleAdd(c, u, w);
    CrossAdd(n, u, w);
    ScaleAdd(s, Cross(n, u), Cross(n, w));
    ProjectAdd(n, u, w);
    ScaleAdd(1.0 - c, Scale(Dot(n, u), n), Scale(Dot(n, w), n));
  }

  lemma RegroupedIsSum(n: Vec3, s: real, c: real, u: Vec3, w: Vec3)
    ensures Add(Add(Add(Scale(c, u), Scale(s, Cross(n, u))), Scale(1.0 - c, Scale(Dot(n, u), n))),
                Add(Add(Scale(c, w), Scale(s, Cross(n, w))), Scale(1.0 - c, Scale(Dot(n, w), n))))
         == Add(Rodrigues(n, s, c, u), Rodrigues(n, s, c, w))
  {
    RodriguesTerms(n, s, c, u);
    RodriguesTerms(n, s, c, w);
  }

  /** Rodrigues' formula is additive in the rotated vector. */
  lemma RodriguesAdd(n: Vec3, s: real, c: real, u: Vec3, w: Vec3)
    ensures Rodrigues(n, s, c, Add(u, w)) == Add(Rodrigues(n, s, c, u), Rodrigues(n, s, c, w))
  {
    AddParts(n, s, c, u, w);
    RegroupSix(Scale(c, u), Scale(c, w), Scale(s, Cross(n, u)), Scale(s, Cross(n, w)),
               Scale(1.0 - c, Scale(Dot(n, u), n)), Scale(1.0 - c, Scale(Dot(n, w), n)));
    RegroupedIsSum(n, s, c, u, w);
  }

  lemma ProjectScale(n: Vec3, k: real, u: Vec3)
    ensures Scale(Dot(n, Scale(k, u)), n) == Scale(k, Scale(Dot(n, u), n))
  {
    DotScale(n, k, u);
    ScaleScale(k, Dot(n, u), n);
  }

  /** Rodrigues' formula on a scaled vector, the factor moved out of each term. */
  lemma ScaleParts(n: Vec3, s: real, c: real, k: real, u: Vec3)
    ensures Rodrigues(n, s, c, Scale(k, u))
         == Add(Add(Scale(k, Scale(c, u)), Scale(k, Scale(s, Cross(n, u)))),
                Scale(k, Scale(1.0 - c, Scale(Dot(n, u), n))))
  {
    RodriguesTerms(n, s, c, Scale(k, u));
    ScaleCommute(c, k, u);
    CrossScale(n, k, u);
    ScaleCommute(s, k, Cross(n, u));
    ProjectScale(n, k, u);
    ScaleCommute(1.0 - c, k, Scale(Dot(n, u), n));
  }

  lemma ScaledIsScale(n: Vec3, s: real, c: real, k: real, u: Vec3)
    ensures Add(Add(Scale(k, Scale(c, u)), Scale(k, Scale(s, Cross(n, u)))),
                Scale(k, Scale(1.0 - c, Scale(Dot(n, u), n))))
         == Scale(k, Rodrigues(n, s, c, u))
  {
    RodriguesTerms(n, s, c, u);
    ScaleThree(k, Scale(c, u), Scale(s, Cross(n, u)), Scale(1.0 - c, Scale(Dot(n, u), n)));
  }

  /** Rodrigues' formula commutes with scaling the rotated vector. */
  lemma RodriguesScale(n: Vec3, s: real, c: real, k: real, u: Vec3)
    ensures Rodrigues(n, s, c, Scale(k, u)) == Scale(k, Rodrigues(n, s, c, u))
  {
    ScaleParts(n, s, c, k, u);
    ScaledIsScale(n, s, c, k, u);
  }

  /** Every vector is the combination of the world axes by its components. */
  lemma ByAxes(v: Vec3)
    ensures v == Combine(v, UnitX, UnitY, UnitZ)
  {
  }

  /** Rodrigues' formula is linear: its value on v is fixed by its values on
      the world axes. */
  lemma RodriguesLinear(n: Vec3, s: real, c: real, v: Vec3)
    ensures Rodrigues(n, s, c, v)
         == Combine(v, Rodrigues(n, s, c, UnitX), Rodrigues(n, s, c, UnitY), Rodrigues(n, s, c, UnitZ))
  {
    ByAxes(v);
    RodriguesAdd(n, s, c, Add(Scale(v.x, UnitX), Scale(v.y, UnitY)), Scale(v.z, UnitZ));
    RodriguesAdd(n, s, c, Scale(v.x, UnitX), Scale(v.y, UnitY));
    RodriguesScale(n, s, c, v.x, UnitX);
    RodriguesScale(n, s, c, v.y, UnitY);
    RodriguesScale(n, s, c, v.z, UnitZ);
  }

  /** The rotation matrix applies Rodrigues' formula to every vector. */
  lemma AxisAngleRotates(n: Vec3, s: real, c: real, v: Vec3)
    ensures RotateVector(v, AxisAngleMatrix(n, s, c)) == Rodrigues(n, s, c, v)
  {
    AxisAngleIsRodrigues(n, s, c, v);
    RodriguesLinear(n, s, c, v);
  }

  /** Whether len is what the source's sqrt returns for the axis: the
      non-negative root of its squared length, positive for a non-zero axis. */
  predicate IsLengthOf(len: real, v: Vec3) {
    len >= 0.0 && len * len == LengthSq(v) && (v != Zero ==> len > 0.0)
  }

  /** The axis divided by its length, as the source rescales x, y and z. */
  function Normalized(v: Vec3, len: real): (n: Vec3)
    requires len != 0.0
    ensures Scale(len, n) == v
  {
    Vec3(v.x / len, v.y / len, v.z / len)
  }

  /** The matrix gltRotationMatrix produces for the axis (x, y, z), given the
      axis length and the sine and cosine of the angle: the identity for the
      zero axis, and otherwise the axis-angle matrix about the normalised axis.
      On both branches it neither translates nor projects, and the zero angle
      gives the identity. */
  function RotationOf(axis: Vec3, len: real, s: real, c: real): (m: Matrix)
    requires IsLengthOf(len, axis)
    ensures axis == Zero ==> m == Identity
    ensures NoTranslation(m)
    ensures s == 0.0 && c == 1.0 ==> m == Identity
  {
    if axis == Zero then Identity else AxisAngleMatrix(Normalized(axis, len), s, c)
  }

  lemma MulDiv(x: real, len: real)
    requires len != 0.0
    ensures len * (x / len) == x
  {
  }

  lemma SquareOfProduct(l: real, q: real, a: real)
    requires l * q == a
    ensures (l * l) * (q * q) == a * a
  {
  }

  lemma SumOfSquares(len: real, p: real, q: real, r: real, x: real, y: real, z: real)
    requires len * p == x && len * q == y && len * r == z
    ensures (len * len) * (p * p + q * q + r * r) == x * x + y * y + z * z
  {
    SquareOfProduct(len, p, x);
    SquareOfProduct(len, q, y);
    SquareOfProduct(len, r, z);
  }

  lemma CancelBy(d: real, s: real, t: real)
    requires d != 0.0 && d * s == d * t
    ensures s == t
  {
  }

  /** If (x, y, z) is len times (p, q, r) and len is its length, then
      (p, q, r) has length 1. */
  lemma UnitParts(len: real, p: real, q: real, r: real, x: real, y: real, z: real)
    requires len != 0.0 && len * len == x * x + y * y + z * z
    requires len * p == x && len * q == y && len * r == z
    ensures p * p + q * q + r * r == 1.0
  {
    SumOfSquares(len, p, q, r, x, y, z);
    CancelBy(len, len * (p * p + q * q + r * r), len);
    CancelBy(len, p * p + q * q + r * r, 1.0);
  }

  /** The rescaled axis has unit length and points the way of the axis:
      scaled back by the length, it is the axis again. */
  lemma NormalizedIsUnit(v: Vec3, len: real)
    requires IsLengthOf(len, v) && v != Zero
    ensures LengthSq(Normalized(v, len)) == 1.0
    ensures Scale(len, Normalized(v, len)) == v
  {
    var n := Normalized(v, len);
    MulDiv(v.x, len);
    MulDiv(v.y, len);
    MulDiv(v.z, len);
    UnitParts(len, n.x, n.y, n.z, v.x, v.y, v.z);
  }

  /** Rotating a scaled vector gives the scaled rotation. */
  lemma RotateVectorScale(k: real, v: Vec3, m: Matrix)
    ensures RotateVector(Scale(k, v), m) == Scale(k, RotateVector(v, m))
  {
    DotScale(RowOf(m, 0), k, v);
    DotScale(RowOf(m, 1), k, v);
    DotScale(RowOf(m, 2), k, v);
  }

  /** Rodrigues' formula leaves a unit axis where it is. */
  lemma RodriguesFixesAxis(n: Vec3, s: real, c: real)
    requires LengthSq(n) == 1.0
    ensures Rodrigues(n, s, c, n) == n
  {
    RodriguesTerms(n, s, c, n);
    assert Cross(n, n) == Zero;
    assert Scale(Dot(n, n), n) == n;
  }

  /** The matrix gltRotationMatrix builds leaves its own axis fixed, whatever
      the sine and cosine passed in. */
  lemma RotationFixesAxis(axis: Vec3, len: real, s: real, c: real)
    requires IsLengthOf(len, axis)
    ensures RotateVector(axis, RotationOf(axis, len, s, c)) == axis
  {
    if axis == Zero {
      RotateVectorIdentity(axis);
    } else {
      var n := Normalized(axis, len);
      NormalizedIsUnit(axis, len);
      RotateVectorScale(len, n, AxisAngleMatrix(n, s, c));
      AxisAngleRotates(n, s, c, n);
      RodriguesFixesAxis(n, s, c);
    }
  }

  /** gltLoadIdentityMatrix: copies the identity into m. */
  method LoadIdentityMatrix(m: array<real>)
    requires m.Length == 16
    modifies m
    ensures m[..] == Identity
  {
    forall i | 0 <= i < 16 {
      m[i] := Identity[i];
    }
  }

  /** Writes the sixteen entries of FromBlock(b) into m, as gltRotationMatrix
      and gltApplyCameraTransform both do entry by entry. */
  method StoreBlock(b: Block, m: array<real>)
    requires m.Length == 16
    modifies m
    ensures m[..] == FromBlock(b)
  {
    forall i | 0 <= i < 16 {
      m[i] := FromBlock(b)[i];
    }
  }

  /** gltRotationMatrix, with the square root of the axis's squared length and
      the sine and cosine of the angle passed in. The entry formulas are those
      of AxisAngleBlock, stored in the layout of FromBlock. */
  method RotationMatrix(x: real, y: real, z: real, vecLength: real, sinSave: real, cosSave: real,
                        m: array<real>)
    requires m.Length == 16
    requires IsLengthOf(vecLength, Vec3(x, y, z))
    modifies m
    ensures m[..] == RotationOf(Vec3(x, y, z), vecLength, sinSave, cosSave)
  {
    if x == 0.0 && y == 0.0 && z == 0.0 {
      LoadIdentityMatrix(m);
      return;
    }
    var n := Normalized(Vec3(x, y, z), vecLength);
    StoreBlock(AxisAngleBlock(n, sinSave, cosSave), m);
  }
}
