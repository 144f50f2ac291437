/** The two meshes the scene draws (the source's Ground and Cube records): a
    40 x 40 field of unit quads at height -0.4 and a cube of side 2, each kept
    as three parallel buffers of vertex floats, texture-coordinate floats and
    indices. */
module Meshes {
  import opened Vectors

  /** A Ground or Cube record; the builders append to its buffers. */
  class Mesh {
    var vertices: seq<real>
    var textures: seq<real>
    var indices: seq<nat>

    constructor ()
      ensures vertices == [] && textures == [] && indices == []
    {
      vertices, textures, indices := [], [], [];
    }
  }

  /** The indices 0, 1, ..., n - 1 in order. */
  function Iota(n: nat): seq<nat> {
    seq(n, i requires 0 <= i => i as nat)
  }

  /** Appending the next index extends the run. */
  lemma IotaStep(n: nat)
    ensures Iota(n + 1) == Iota(n) + [n]
  {
    assert Iota(n + 1)[..n] == Iota(n);
  }

  /** Element k of block n of a sequence cut into blocks of twelve (or of
      eighteen) is element 12 n + k (or 18 n + k). */
  lemma Block12(n: nat, k: nat)
    requires k < 12
    ensures (12 * n + k) / 12 == n && (12 * n + k) % 12 == k
  {
  }

  lemma Block18(n: nat, k: nat)
    requires k < 18
    ensures (18 * n + k) / 18 == n && (18 * n + k) % 18 == k
  {
  }

  /** n copies of a pattern of twelve texture floats (six (s, t) pairs), one
      after the other: both meshes lay their texture coordinates out so. */
  function Repeat(p: seq<real>, n: nat): seq<real>
    requires |p| == 12
  {
    seq(12 * n, k requires 0 <= k => p[k % 12])
  }

  /** One more copy appends the pattern. */
  lemma RepeatStep(p: seq<real>, n: nat)
    requires |p| == 12
    ensures Repeat(p, n + 1) == Repeat(p, n) + p
  {
    forall k | 0 <= k < 12
      ensures Repeat(p, n + 1)[12 * n + k] == p[k]
    {
      Block12(n, k);
    }
    assert Repeat(p, n + 1)[..12 * n] == Repeat(p, n);
  }

  /** Copy m of the pattern starts at float 12 m. */
  lemma RepeatIndex(p: seq<real>, n: nat, m: nat, j: nat)
    requires |p| == 12 && m < n && j < 12
    ensures |Repeat(p, n)| == 12 * n && Repeat(p, n)[12 * m + j] == p[j]
  {
    Block12(m, j);
  }

  // ---------------------------------------------------------------- ground

  /** The height of the field. */
  const GroundHeight: real := -0.4

  /** The field has 40 rows of 40 quads. */
  const QuadsPerRow: nat := 40
  const QuadCount: nat := 1600

  /** initField's outer loop runs z from 20 down to -19 and its inner loop x
      from -20 up to 19; quad number q in that order lies at (QuadX(q),
      QuadZ(q)), inside the ranges the loops run over. */
  function QuadX(q: nat): (x: int)
    ensures -20 <= x <= 19
  {
    -20 + q % QuadsPerRow
  }

  function QuadZ(q: nat): (z: int)
    ensures z <= 20
    ensures q < QuadCount ==> -19 <= z
  {
    20 - q / QuadsPerRow
  }

  /** The quad at (x, z), -20 <= x <= 19, -19 <= z <= 20, is quad number
      40 (20 - z) + (x + 20); so the quads tile [-20, 20] x [-20, 20]. */
  lemma QuadNumber(x: int, z: int)
    requires -20 <= x <= 19 && -19 <= z <= 20
    ensures QuadsPerRow * (20 - z) + (x + 20) < QuadCount
    ensures QuadX(QuadsPerRow * (20 - z) + (x + 20)) == x
    ensures QuadZ(QuadsPerRow * (20 - z) + (x + 20)) == z
  {
  }

  /** The loop order: a later quad lies in a lower row, or in the same row
      further along x. */
  lemma QuadOrder(q: nat, q': nat)
    requires q < q' < QuadCount
    ensures QuadZ(q) > QuadZ(q') || (QuadZ(q) == QuadZ(q') && QuadX(q) < QuadX(q'))
  {
  }

  /** The six corners initField emits for the quad at (x, z), as offsets: the
      triangles (x, z), (x + 1, z), (x + 1, z - 1) and (x, z), (x + 1, z - 1),
      (x, z - 1). */
  function CornerDx(c: nat): int {
    if c == 1 || c == 2 || c == 4 then 1 else 0
  }

  function CornerDz(c: nat): int {
    if c == 2 || c == 4 || c == 5 then -1 else 0
  }

  /** The three floats initField pushes for the ground point (x, z). */
  function GroundPoint(x: int, z: int): seq<real> {
    [x as real, GroundHeight, z as real]
  }

  /** The eighteen vertex floats of the quad at (x, z), corner by corner. */
  function QuadVertices(x: int, z: int): (v: seq<real>)
    ensures |v| == 18
    ensures forall i :: 0 <= i < 18 && i % 3 == 1 ==> v[i] == GroundHeight
  {
    GroundPoint(x, z) + GroundPoint(x + 1, z) + GroundPoint(x + 1, z - 1) +
    GroundPoint(x, z) + GroundPoint(x + 1, z - 1) + GroundPoint(x, z - 1)
  }

  /** Six pushes in a row append their concatenation. */
  lemma AppendSix(a: seq<real>, t0: seq<real>, t1: seq<real>, t2: seq<real>, t3: seq<real>, t4: seq<real>, t5: seq<real>)
    ensures a + t0 + t1 + t2 + t3 + t4 + t5 == a + (t0 + t1 + t2 + t3 + t4 + t5)
  {
  }

  /** Appending the next piece of a sequence to a prefix of it. */
  lemma ExtendPrefix(a: seq<real>, p: seq<real>, piece: seq<real>, p': seq<real>)
    requires p' == p + piece
    ensures a + p + piece == a + p'
  {
  }

  /** Corner c of the quad at (x, z) is (x + CornerDx(c), GroundHeight,
      z + CornerDz(c)). */
  lemma QuadCorner(x: int, z: int, c: nat)
    requires c < 6
    ensures |QuadVertices(x, z)| == 18
    ensures QuadVertices(x, z)[3 * c] == (x + CornerDx(c)) as real
    ensures QuadVertices(x, z)[3 * c + 1] == GroundHeight
    ensures QuadVertices(x, z)[3 * c + 2] == (z + CornerDz(c)) as real
  {
    var v := QuadVertices(x, z);
    if c == 0 {
      assert v[0] == x as real && v[1] == GroundHeight && v[2] == z as real;
    } else if c == 1 {
      assert v[3] == (x + 1) as real && v[4] == GroundHeight && v[5] == z as real;
    } else if c == 2 {
      assert v[6] == (x + 1) as real && v[7] == GroundHeight && v[8] == (z - 1) as real;
    } else if c == 3 {
      assert v[9] == x as real && v[10] == GroundHeight && v[11] == z as real;
    } else if c == 4 {
      assert v[12] == (x + 1) as real && v[13] == GroundHeight && v[14] == (z - 1) as real;
    } else {
      assert v[15] == x as real && v[16] == GroundHeight && v[17] == (z - 1) as real;
    }
  }

  /** The vertex floats initField appends: the quads in loop order, eighteen
      floats each. */
  function FieldVertices(): seq<real> {
    seq(18 * QuadCount, k requires 0 <= k => QuadVertices(QuadX(k / 18), QuadZ(k / 18))[k % 18])
  }

  /** One texture pattern per quad: (0,0) (1,0) (1,1) (0,0) (1,1) (0,1). */
  const GroundTexturePattern: seq<real> :=
    [0.0, 0.0, 1.0, 0.0, 1.0, 1.0, 0.0, 0.0, 1.0, 1.0, 0.0, 1.0]

  function FieldTextures(): seq<real> {
    Repeat(GroundTexturePattern, QuadCount)
  }

  /** One index per vertex. */
  function FieldIndices(): seq<nat> {
    Iota(6 * QuadCount)
  }

  /** The first q + 1 quads are the first q followed by quad q. */
  lemma FieldPrefixStep(q: nat)
    requires q < QuadCount
    ensures FieldVertices()[..18 * (q + 1)] == FieldVertices()[..18 * q] + QuadVertices(QuadX(q), QuadZ(q))
  {
    var f := FieldVertices();
    forall k | 0 <= k < 18
      ensures f[18 * q + k] == QuadVertices(QuadX(q), QuadZ(q))[k]
    {
      Block18(q, k);
    }
  }

  /** The same step, for the quad at (x, z) as the loops reach it. */
  lemma FieldStepAt(x: int, z: int)
    requires -20 <= x <= 19 && -19 <= z <= 20
    ensures var q := QuadsPerRow * (20 - z) + (x + 20);
      q < QuadCount && FieldVertices()[..18 * (q + 1)] == FieldVertices()[..18 * q] + QuadVertices(x, z)
  {
    QuadNumber(x, z);
    FieldPrefixStep(QuadsPerRow * (20 - z) + (x + 20));
  }

  /** Corner c of quad q is vertex 6 q + c, i.e. floats 18 q + 3 c onwards:
      (QuadX(q) + CornerDx(c), GroundHeight, QuadZ(q) + CornerDz(c)). */
  lemma FieldVertex(q: nat, c: nat)
    requires q < QuadCount && c < 6
    ensures |FieldVertices()| == 28800
    ensures FieldVertices()[18 * q + 3 * c] == (QuadX(q) + CornerDx(c)) as real
    ensures FieldVertices()[18 * q + 3 * c + 1] == GroundHeight
    ensures FieldVertices()[18 * q + 3 * c + 2] == (QuadZ(q) + CornerDz(c)) as real
  {
    Block18(q, 3 * c);
    Block18(q, 3 * c + 1);
    Block18(q, 3 * c + 2);
    QuadCorner(QuadX(q), QuadZ(q), c);
  }

  /** The field's sizes: 9600 vertices of three floats, 9600 texture
      coordinates of two floats and 9600 indices, so there are as many
      texture pairs and indices as vertex triples. */
  lemma FieldSizes()
    ensures |FieldVertices()| == 28800
    ensures |FieldTextures()| == 19200
    ensures |FieldIndices()| == 9600
    ensures |FieldTextures()| / 2 == |FieldVertices()| / 3 == |FieldIndices()|
  {
  }

  /** Index i names vertex i, so every index is below the vertex count. */
  lemma FieldIndexIdentity(i: nat)
    requires i < 9600
    ensures |FieldIndices()| == 9600 && FieldIndices()[i] == i
    ensures FieldIndices()[i] < |FieldVertices()| / 3
  {
  }

  /** Every field vertex lies at height -0.4, and its x and z are integers
      between -20 and 20. */
  lemma FieldVertexRange(q: nat, c: nat)
    requires q < QuadCount && c < 6
    ensures |FieldVertices()| == 28800
    ensures FieldVertices()[18 * q + 3 * c + 1] == GroundHeight
    ensures -20.0 <= FieldVertices()[18 * q + 3 * c] <= 20.0
    ensures FieldVertices()[18 * q + 3 * c] == FieldVertices()[18 * q + 3 * c].Floor as real
    ensures -20.0 <= FieldVertices()[18 * q + 3 * c + 2] <= 20.0
    ensures FieldVertices()[18 * q + 3 * c + 2] == FieldVertices()[18 * q + 3 * c + 2].Floor as real
  {
    FieldVertex(q, c);
  }

  /** The ground pattern gives corner c the texture coordinate
      (CornerDx(c), -CornerDz(c)). */
  lemma GroundPatternEntry(c: nat)
    requires c < 6
    ensures GroundTexturePattern[2 * c] == CornerDx(c) as real
    ensures GroundTexturePattern[2 * c + 1] == (-CornerDz(c)) as real
  {
    if c == 0 {
      assert GroundTexturePattern[0] == 0.0 && GroundTexturePattern[1] == 0.0;
    } else if c == 1 {
      assert GroundTexturePattern[2] == 1.0 && GroundTexturePattern[3] == 0.0;
    } else if c == 2 {
      assert GroundTexturePattern[4] == 1.0 && GroundTexturePattern[5] == 1.0;
    } else if c == 3 {
      assert GroundTexturePattern[6] == 0.0 && GroundTexturePattern[7] == 0.0;
    } else if c == 4 {
      assert GroundTexturePattern[8] == 1.0 && GroundTexturePattern[9] == 1.0;
    } else {
      assert GroundTexturePattern[10] == 0.0 && GroundTexturePattern[11] == 1.0;
    }
  }

  /** The texture coordinate of each quad corner is its offset inside the
      quad, (x - QuadX(q), QuadZ(q) - z): the texture is one unit square
      mapped onto each quad, and a corner shared by the two triangles gets the
      same texture coordinate in both. */
  lemma FieldTextureMatchesCorner(q: nat, c: nat)
    requires q < QuadCount && c < 6
    ensures |FieldVertices()| == 28800 && |FieldTextures()| == 19200
    ensures FieldTextures()[12 * q + 2 * c] == FieldVertices()[18 * q + 3 * c] - QuadX(q) as real
    ensures FieldTextures()[12 * q + 2 * c + 1] == QuadZ(q) as real - FieldVertices()[18 * q + 3 * c + 2]
  {
    FieldVertex(q, c);
    RepeatIndex(GroundTexturePattern, QuadCount, q, 2 * c);
    RepeatIndex(GroundTexturePattern, QuadCount, q, 2 * c + 1);
    GroundPatternEntry(c);
  }

  /** initField's two nested loops, row by row from the far edge z = 20 down
      to z = -19, counting the vertices and the quads as they go. */
  method PushFieldQuads(ground: Mesh) returns (counterOfIndices: nat, counterOfTextures: nat)
    modifies ground
    ensures counterOfTextures == QuadCount && counterOfIndices == 6 * QuadCount
    ensures ground.vertices == old(ground.vertices) + FieldVertices()
    ensures ground.textures == old(ground.textures) && ground.indices == old(ground.indices)
  {
    counterOfIndices, counterOfTextures := 0, 0;
    var z := 20;
    while z >= -19
      invariant -20 <= z <= 20
      invariant counterOfTextures == QuadsPerRow * (20 - z)
      invariant counterOfIndices == 6 * counterOfTextures
      invariant ground.vertices == old(ground.vertices) + FieldVertices()[..18 * counterOfTextures]
      invariant ground.textures == old(ground.textures) && ground.indices == old(ground.indices)
    {
      counterOfIndices, counterOfTextures := PushFieldRow(ground, z, old(ground.vertices), counterOfIndices, counterOfTextures);
      z := z - 1;
    }
  }

  /** initField's inner loop for row z, over x from -20 to 19: six vertices
      per quad, appended after the base and the quads before this row. */
  method PushFieldRow(ground: Mesh, z: int, ghost base: seq<real>, counterOfIndices: nat, counterOfTextures: nat)
    returns (indicesAfter: nat, texturesAfter: nat)
    requires -19 <= z <= 20
    requires counterOfTextures == QuadsPerRow * (20 - z) && counterOfIndices == 6 * counterOfTextures
    requires ground.vertices == base + FieldVertices()[..18 * counterOfTextures]
    modifies ground
    ensures texturesAfter == counterOfTextures + QuadsPerRow && indicesAfter == 6 * texturesAfter
    ensures ground.vertices == base + FieldVertices()[..18 * texturesAfter]
    ensures ground.textures == old(ground.textures) && ground.indices == old(ground.indices)
  {
    indicesAfter, texturesAfter := counterOfIndices, counterOfTextures;
    var x := -20;
    while x <= 19
      invariant -20 <= x <= 20
      invariant texturesAfter == QuadsPerRow * (20 - z) + (x + 20)
      invariant indicesAfter == 6 * texturesAfter
      invariant ground.vertices == base + FieldVertices()[..18 * texturesAfter]
      invariant ground.textures == old(ground.textures) && ground.indices == old(ground.indices)
    {
      ghost var q := texturesAfter;
      ghost var start := ground.vertices;
      FieldStepAt(x, z);
      indicesAfter := indicesAfter + 6;
      texturesAfter := texturesAfter + 1;
      ground.vertices := ground.vertices + [x as real, GroundHeight, z as real];
      ground.vertices := ground.vertices + [(x + 1) as real, GroundHeight, z as real];
      ground.vertices := ground.vertices + [(x + 1) as real, GroundHeight, (z - 1) as real];
      ground.vertices := ground.vertices + [x as real, GroundHeight, z as real];
      ground.vertices := ground.vertices + [(x + 1) as real, GroundHeight, (z - 1) as real];
      ground.vertices := ground.vertices + [x as real, GroundHeight, (z - 1) as real];
      AppendSix(start, GroundPoint(x, z), GroundPoint(x + 1, z), GroundPoint(x + 1, z - 1),
                GroundPoint(x, z), GroundPoint(x + 1, z - 1), GroundPoint(x, z - 1));
      assert ground.vertices == start + QuadVertices(x, z);
      ExtendPrefix(base, FieldVertices()[..18 * q], QuadVertices(x, z), FieldVertices()[..18 * (q + 1)]);
      x := x + 1;
    }
  }

  /** initField, appending to the ground's buffers. */
  method InitField(ground: Mesh)
    modifies ground
    ensures ground.vertices == old(ground.vertices) + FieldVertices()
    ensures ground.textures == old(ground.textures) + FieldTextures()
    ensures ground.indices == old(ground.indices) + FieldIndices()
  {
    var counterOfIndices, counterOfTextures := PushFieldQuads(ground);

    var i: nat := 0;
    while i < counterOfIndices
      invariant i <= counterOfIndices == 6 * QuadCount
      invariant ground.vertices == old(ground.vertices) + FieldVertices()
      invariant ground.indices == old(ground.indices) + Iota(i)
      invariant ground.textures == old(ground.textures)
    {
      IotaStep(i);
      ground.indices := ground.indices + [i];
      i := i + 1;
    }

    i := 0;
    while i < counterOfTextures
      invariant i <= counterOfTextures == QuadCount
      invariant ground.vertices == old(ground.vertices) + FieldVertices()
      invariant ground.indices == old(ground.indices) + FieldIndices()
      invariant ground.textures == old(ground.textures) + Repeat(GroundTexturePattern, i)
    {
      RepeatStep(GroundTexturePattern, i);
      ground.textures := ground.textures + [0.0, 0.0];
      ground.textures := ground.textures + [1.0, 0.0];
      ground.textures := ground.textures + [1.0, 1.0];
      ground.textures := ground.textures + [0.0, 0.0];
      ground.textures := ground.textures + [1.0, 1.0];
      ground.textures := ground.textures + [0.0, 1.0];
      i := i + 1;
    }
  }

  // ------------------------------------------------------------------ cube

  /** Vertex v (v = 0 .. 35) of the cube, in the order initCube emits them:
      six faces of two triangles each. */
  function CubeCorner(v: nat): (p: Vec3)
    requires v < 36
    ensures (p.x == 1.0 || p.x == -1.0) && (p.y == 1.0 || p.y == -1.0) && (p.z == 1.0 || p.z == -1.0)
  {
    match v
    case 0 => Vec3(-1.0, -1.0,  1.0)
    case 1 => Vec3( 1.0, -1.0,  1.0)
    case 2 => Vec3(-1.0,  1.0,  1.0)
    case 3 => Vec3( 1.0, -1.0,  1.0)
    case 4 => Vec3( 1.0,  1.0,  1.0)
    case 5 => Vec3(-1.0,  1.0,  1.0)
    case 6 => Vec3( 1.0, -1.0,  1.0)
    case 7 => Vec3( 1.0, -1.0, -1.0)
    case 8 => Vec3( 1.0,  1.0,  1.0)
    case 9 => Vec3( 1.0, -1.0, -1.0)
    case 10 => Vec3( 1.0,  1.0, -1.0)
    case 11 => Vec3( 1.0,  1.0,  1.0)
    case 12 => Vec3( 1.0, -1.0, -1.0)
    case 13 => Vec3(-1.0, -1.0, -1.0)
    case 14 => Vec3( 1.0,  1.0, -1.0)
    case 15 => Vec3(-1.0, -1.0, -1.0)
    case 16 => Vec3(-1.0,  1.0, -1.0)
    case 17 => Vec3( 1.0,  1.0, -1.0)
    case 18 => Vec3(-1.0, -1.0, -1.0)
    case 19 => Vec3(-1.0, -1.0,  1.0)
    case 20 => Vec3(-1.0,  1.0, -1.0)
    case 21 => Vec3(-1.0, -1.0,  1.0)
    case 22 => Vec3(-1.0,  1.0,  1.0)
    case 23 => Vec3(-1.0,  1.0, -1.0)
    case 24 => Vec3(-1.0, -1.0, -1.0)
    case 25 => Vec3( 1.0, -1.0, -1.0)
    case 26 => Vec3(-1.0, -1.0,  1.0)
    case 27 => Vec3( 1.0, -1.0, -1.0)
    case 28 => Vec3( 1.0, -1.0,  1.0)
    case 29 => Vec3(-1.0, -1.0,  1.0)
    case 30 => Vec3(-1.0,  1.0,  1.0)
    case 31 => Vec3( 1.0,  1.0,  1.0)
    case 32 => Vec3(-1.0,  1.0, -1.0)
    case 33 => Vec3( 1.0,  1.0,  1.0)
    case 34 => Vec3( 1.0,  1.0, -1.0)
    case _ => Vec3(-1.0,  1.0, -1.0)
  }

  /** Coordinate a (0 = x, 1 = y, 2 = z) of a point. */
  function Coordinate(p: Vec3, a: nat): real {
    if a == 0 then p.x else if a == 1 then p.y else p.z
  }

  lemma Block3(n: nat, k: nat)
    requires k < 3
    ensures (3 * n + k) / 3 == n && (3 * n + k) % 3 == k
  {
  }

  /** The 108 vertex floats initCube appends: the 36 corners, three floats
      each. */
  function CubeVertices(): seq<real> {
    seq(108, k requires 0 <= k < 108 => Coordinate(CubeCorner(k / 3), k % 3))
  }

  /** The indices initCube appends, 0 to 35. */
  function CubeIndices(): seq<nat> {
    Iota(36)
  }

  /** The texture pattern of one cube face: (0,0) (1,0) (0,1) (1,0) (1,1)
      (0,1). It differs from the ground's. */
  const CubeTexturePattern: seq<real> :=
    [0.0, 0.0, 1.0, 0.0, 0.0, 1.0, 1.0, 0.0, 1.0, 1.0, 0.0, 1.0]

  const CubeFaceCount: nat := 6

  function CubeTextures(): seq<real> {
    Repeat(CubeTexturePattern, CubeFaceCount)
  }

  /** The cube's sizes: 36 vertices of three floats, 36 texture coordinates
      of two floats and 36 indices. */
  lemma CubeSizes()
    ensures |CubeVertices()| == 108 && |CubeTextures()| == 72 && |CubeIndices()| == 36
    ensures |CubeTextures()| / 2 == |CubeVertices()| / 3 == |CubeIndices()|
  {
  }

  /** Index i names vertex i, so every index is below the vertex count. */
  lemma CubeIndexIdentity(i: nat)
    requires i < 36
    ensures |CubeIndices()| == 36 && CubeIndices()[i] == i && CubeIndices()[i] < |CubeVertices()| / 3
  {
  }

  /** Floats 3 v .. 3 v + 2 are the coordinates of corner v. */
  lemma CubeVertexFloats(v: nat, a: nat)
    requires v < 36 && a < 3
    ensures |CubeVertices()| == 108 && CubeVertices()[3 * v + a] == Coordinate(CubeCorner(v), a)
  {
    Block3(v, a);
  }

  /** Every coordinate is 1 or -1: all vertices are corners of the cube of
      side 2 about the origin. */
  lemma CubeCoordinates(i: nat)
    requires i < 108
    ensures |CubeVertices()| == 108 && (CubeVertices()[i] == 1.0 || CubeVertices()[i] == -1.0)
  {
    CubeVertexFloats(i / 3, i % 3);
  }

  /** The faces in emission order: face f is vertices 6 f .. 6 f + 5, which
      all have coordinate FaceAxis(f) equal to FaceSide(f). */
  function FaceAxis(f: nat): nat {
    if f == 0 || f == 2 then 2 else if f == 1 || f == 3 then 0 else 1
  }

  function FaceSide(f: nat): real {
    if f == 0 || f == 1 || f == 5 then 1.0 else -1.0
  }

  lemma CubeFacePlanes(f: nat, j: nat)
    requires f < CubeFaceCount && j < 6
    ensures Coordinate(CubeCorner(6 * f + j), FaceAxis(f)) == FaceSide(f)
  {
  }

  /** The six faces lie in six different planes, so each side of the cube is
      drawn once. */
  lemma CubeFacesDistinct(f: nat, g: nat)
    requires f < g < CubeFaceCount
    ensures FaceAxis(f) != FaceAxis(g) || FaceSide(f) != FaceSide(g)
  {
  }

  /** On face f the texture coordinate (s, t) of a vertex is an affine function
      of two of its coordinates: s = (1 + SSign(f) * p[SAxis(f)]) / 2 and
      t = (1 + TSign(f) * p[TAxis(f)]) / 2. So the texture covers each face
      once, and a corner shared by the face's two triangles gets the same
      texture coordinate both times. */
  function SAxis(f: nat): nat {
    if f == 1 || f == 3 then 2 else 0
  }

  function SSign(f: nat): real {
    if f == 1 || f == 2 then -1.0 else 1.0
  }

  function TAxis(f: nat): nat {
    if f < 4 then 1 else 2
  }

  function TSign(f: nat): real {
    if f == 5 then -1.0 else 1.0
  }

  /** The face pattern's (s, t) for the face's vertex j: s is 1 at vertices
      1, 3 and 4, t at vertices 2, 4 and 5. */
  function PatternS(j: nat): real {
    if j == 1 || j == 3 || j == 4 then 1.0 else 0.0
  }

  function PatternT(j: nat): real {
    if j == 2 || j == 4 || j == 5 then 1.0 else 0.0
  }

  lemma CubePatternEntry(j: nat)
    requires j < 6
    ensures CubeTexturePattern[2 * j] == PatternS(j) && CubeTexturePattern[2 * j + 1] == PatternT(j)
  {
    if j == 0 {
      assert CubeTexturePattern[0] == 0.0 && CubeTexturePattern[1] == 0.0;
    } else if j == 1 {
      assert CubeTexturePattern[2] == 1.0 && CubeTexturePattern[3] == 0.0;
    } else if j == 2 {
      assert CubeTexturePattern[4] == 0.0 && CubeTexturePattern[5] == 1.0;
    } else if j == 3 {
      assert CubeTexturePattern[6] == 1.0 && CubeTexturePattern[7] == 0.0;
    } else if j == 4 {
      assert CubeTexturePattern[8] == 1.0 && CubeTexturePattern[9] == 1.0;
    } else {
      assert CubeTexturePattern[10] == 0.0 && CubeTexturePattern[11] == 1.0;
    }
  }

  /** The pattern's (s, t) are the affine functions of the face's coordinates. */
  lemma FaceTextureAxes(f: nat, j: nat)
    requires f < CubeFaceCount && j < 6
    ensures PatternS(j) == (1.0 + SSign(f) * Coordinate(CubeCorner(6 * f + j), SAxis(f))) / 2.0
    ensures PatternT(j) == (1.0 + TSign(f) * Coordinate(CubeCorner(6 * f + j), TAxis(f))) / 2.0
  {
  }

  lemma CubeTextureMapping(f: nat, j: nat)
    requires f < CubeFaceCount && j < 6
    ensures |CubeTextures()| == 72
    ensures CubeTextures()[12 * f + 2 * j] == (1.0 + SSign(f) * Coordinate(CubeCorner(6 * f + j), SAxis(f))) / 2.0
    ensures CubeTextures()[12 * f + 2 * j + 1] == (1.0 + TSign(f) * Coordinate(CubeCorner(6 * f + j), TAxis(f))) / 2.0
  {
    RepeatIndex(CubeTexturePattern, CubeFaceCount, f, 2 * j);
    RepeatIndex(CubeTexturePattern, CubeFaceCount, f, 2 * j + 1);
    CubePatternEntry(j);
    FaceTextureAxes(f, j);
  }

  /** initCube, appending to the cube's buffers: the 36 corners, the indices
      0 to 35, and the face texture pattern six times. */
  method InitCube(cube: Mesh)
    modifies cube
    ensures cube.vertices == old(cube.vertices) + CubeVertices()
    ensures cube.indices == old(cube.indices) + CubeIndices()
    ensures cube.textures == old(cube.textures) + CubeTextures()
  {
    cube.vertices := cube.vertices + CubeVertices();
    cube.indices := cube.indices + CubeIndices();
    var i: nat := 0;
    while i < CubeFaceCount
      invariant i <= CubeFaceCount
      invariant cube.vertices == old(cube.vertices) + CubeVertices()
      invariant cube.indices == old(cube.indices) + CubeIndices()
      invariant cube.textures == old(cube.textures) + Repeat(CubeTexturePattern, i)
    {
      RepeatStep(CubeTexturePattern, i);
      ghost var start := cube.textures;
      cube.textures := cube.textures + [0.0, 0.0];
      cube.textures := cube.textures + [1.0, 0.0];
      cube.textures := cube.textures + [0.0, 1.0];
      cube.textures := cube.textures + [1.0, 0.0];
      cube.textures := cube.textures + [1.0, 1.0];
      cube.textures := cube.textures + [0.0, 1.0];
      AppendSix(start, [0.0, 0.0], [1.0, 0.0], [0.0, 1.0], [1.0, 0.0], [1.0, 1.0], [0.0, 1.0]);
      assert cube.textures == start + CubeTexturePattern;
      i := i + 1;
    }
  }
}
