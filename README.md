# Christmas-tree scene: meshes, camera frame and matrices

This project models the computational core of `Scene.cpp`, the OpenGL scene
widget of a small Qt program that draws a textured ground field and a cube
and lets a camera walk over them. The model covers two parts.

- **The mesh builders.**
  - `initField` fills the ground record with a 40 x 40 field of unit quads at height -0.4.
  - `initCube` fills the cube record with the 36 vertices of a cube of side 2.
  - Each record (`Ground.h`, `Cube.h`) holds three parallel buffers: vertex floats, texture-coordinate floats and indices. The builders only append to them.
- **The camera frame and 4 x 4 matrix utilities.**
  - The camera frame (`GLTFrame`) has a location, an up vector and a forward vector.
  - The utilities are the cross product, frame initialisation, marching forward, turning about the local up axis, the axis-angle rotation matrix, the identity matrix and matrix-vector rotation.
  - Also modelled: the view matrix that `gltApplyCameraTransform` fills, and the key dispatch of `keyPressEvent`.

The model is split into four modules.

- **`Vectors`** (`vectors.dfy`): three-component vectors over `real` and the cross product.
- **`Matrices`** (`matrices.dfy`): a `GLTMatrix` is a `seq<real>` of 16 entries in column-major order (entry (row, col) at index `col * 4 + row`).
  - The pure parts are functions: `RotateVector`, `AxisAngleBlock`, `RotationOf`.
  - The routines that write an output matrix are methods on an `array<real>` of length 16: `LoadIdentityMatrix`, `RotationMatrix`.
  - Each method is proved to leave exactly the matrix its specification function describes.
  - The axis-angle matrix is proved to apply Rodrigues' formula to every vector (`AxisAngleRotates`) and to leave its own axis fixed (`RotationFixesAxis`).
- **`Camera`** (`camera.dfy`):
  - `FrameState` is the value of a frame. `Frame` is the class whose fields the source updates through a pointer.
  - The frame operations are specified by pure functions (`MovedForward`, `TurnedLocalY`, `CameraMatrix`, `AfterKey`) and implemented by methods on `Frame`.
- **`Meshes`** (`meshes.dfy`):
  - `Mesh` is the ground/cube record, a class with three `seq` fields.
  - The builders are methods with the source's loops and counters. Their loop invariants tie each buffer to a prefix of a specification sequence: `FieldVertices`, `FieldTextures`, `FieldIndices`, `CubeVertices`, `CubeTextures`, `CubeIndices`.
  - The properties of the meshes are lemmas about those sequences.

The square root, sine and cosine that `gltRotationMatrix` computes are parameters:

- the axis length `len` must satisfy `IsLengthOf(len, axis)`: non-negative, its square equal to the squared length, and positive for a non-zero axis;
- `s` and `c` stand for the sine and cosine of the angle.

All arithmetic is over exact reals.

## Model

| member | source | states |
|---|---|---|
| Vectors.CrossOrthogonal | Scene.cpp:497-504 | the cross product is perpendicular to both operands |
| Vectors.CrossAnticommutative | Scene.cpp:497-504 | swapping the operands negates the cross product |
| Vectors.CrossOfBasis | Scene.cpp:497-504 | (1,0,0) x (0,1,0) = (0,0,1): the product is right-handed |
| Vectors.LagrangeIdentity | Scene.cpp:497-504 | the squared length of u x v is \|u\|^2 \|v\|^2 - (u . v)^2 |
| Vectors.Cross | Scene.cpp:501-503 | no contract: the body is the three component formulas of gltVectorCrossProduct; its properties are the lemmas CrossOrthogonal, CrossAnticommutative, CrossOfBasis, LagrangeIdentity, CrossAdd and CrossScale |
| Vectors.CrossAdd | Scene.cpp:501-503 | the cross product distributes over a sum in its second operand |
| Vectors.CrossScale | Scene.cpp:501-503 | scaling the second operand by k scales the cross product by k |
| Matrices.IdentityEntries | Scene.cpp:609-612 | the identity matrix has ones on the diagonal and zeros everywhere else |
| Matrices.LoadIdentityMatrix | Scene.cpp:607-615 | afterwards the 16 entries of the output matrix are exactly the identity |
| Matrices.FromBlock | Scene.cpp:584-602 | the column-major layout the rotation entries are stored in puts the block's rows in the matrix's first three rows; entries 3, 7, 11, 12, 13 and 14 are 0 and entry 15 is 1 |
| Matrices.FromBasisIsIdentity | Scene.cpp:584-614 | the block of the world axes, laid out so, is the identity gltLoadIdentityMatrix copies |
| Matrices.StoreBlock | Scene.cpp:584-602 | afterwards the output matrix holds the given 3x3 block in that layout, with no translation |
| Matrices.RotateVector | Scene.cpp:618-625 | each output component is the dot product of one matrix row, read in column-major order, with the input vector |
| Matrices.RotateVectorByColumns | Scene.cpp:618-625 | the output combines the first three matrix columns, weighted by the input's components |
| Matrices.RotateVectorOfBlock | Scene.cpp:618-625 | rotating by a matrix built from a block applies that block |
| Matrices.RotateVectorIdentity | Scene.cpp:618-625 | the identity matrix maps every vector to itself |
| Matrices.RotateVectorReadsUpperLeft | Scene.cpp:622-624 | two matrices that agree on the upper-left 3x3 block rotate every vector alike: the translation column and the last row are ignored |
| Matrices.AxisAngleBlock | Scene.cpp:574-596 | the nine products gltRotationMatrix stores; with sine 0 and cosine 1 the block is the unit block whatever the axis, and its skew-symmetric part is 2 s n (entry (2,1) minus entry (1,2) is 2 s n.x, and so on). The entries are matched with Rodrigues' formula by the AxisAngleEntry lemmas and AxisAngleRotates |
| Matrices.AxisAngleEntry0X | Scene.cpp:584 | the entry stored in row 0, column 0 equals the first component of Rodrigues' formula c v + s (n x v) + (1 - c)(n . v) n applied to v = (1,0,0) |
| Matrices.AxisAngleEntry1X | Scene.cpp:589 | the entry stored in row 1, column 0 equals the second component of Rodrigues' formula c v + s (n x v) + (1 - c)(n . v) n applied to v = (1,0,0) |
| Matrices.AxisAngleEntry2X | Scene.cpp:594 | the entry stored in row 2, column 0 equals the third component of Rodrigues' formula c v + s (n x v) + (1 - c)(n . v) n applied to v = (1,0,0) |
| Matrices.AxisAngleEntry0Y | Scene.cpp:585 | the entry stored in row 0, column 1 equals the first component of Rodrigues' formula c v + s (n x v) + (1 - c)(n . v) n applied to v = (0,1,0) |
| Matrices.AxisAngleEntry1Y | Scene.cpp:590 | the entry stored in row 1, column 1 equals the second component of Rodrigues' formula c v + s (n x v) + (1 - c)(n . v) n applied to v = (0,1,0) |
| Matrices.AxisAngleEntry2Y | Scene.cpp:595 | the entry stored in row 2, column 1 equals the third component of Rodrigues' formula c v + s (n x v) + (1 - c)(n . v) n applied to v = (0,1,0) |
| Matrices.AxisAngleEntry0Z | Scene.cpp:586 | the entry stored in row 0, column 2 equals the first component of Rodrigues' formula c v + s (n x v) + (1 - c)(n . v) n applied to v = (0,0,1) |
| Matrices.AxisAngleEntry1Z | Scene.cpp:591 | the entry stored in row 1, column 2 equals the second component of Rodrigues' formula c v + s (n x v) + (1 - c)(n . v) n applied to v = (0,0,1) |
| Matrices.AxisAngleEntry2Z | Scene.cpp:596 | the entry stored in row 2, column 2 equals the third component of Rodrigues' formula c v + s (n x v) + (1 - c)(n . v) n applied to v = (0,0,1) |
| Matrices.AxisAngleColumnX | Scene.cpp:584-596 | column 0 of the axis-angle block is the whole image of (1,0,0) under Rodrigues' formula |
| Matrices.AxisAngleColumnY | Scene.cpp:584-596 | column 1 of the axis-angle block is the whole image of (0,1,0) under Rodrigues' formula |
| Matrices.AxisAngleColumnZ | Scene.cpp:584-596 | column 2 of the axis-angle block is the whole image of (0,0,1) under Rodrigues' formula |
| Matrices.AxisAngleIsRodrigues | Scene.cpp:574-602 | rotating any vector by the axis-angle matrix is the linear combination of Rodrigues' images of the three world axes |
| Matrices.RodriguesLinear | Scene.cpp:574-596 | Rodrigues' formula is linear in the rotated vector, so its images of the three world axes determine it |
| Matrices.AxisAngleRotates | Scene.cpp:574-602 | rotating any vector by the axis-angle matrix gives exactly Rodrigues' formula c v + s (n x v) + (1 - c)(n . v) n |
| Matrices.AxisAngleMatrix | Scene.cpp:570-602 | the axis-angle matrix has entries 3, 7, 11, 12, 13, 14 equal to 0 and entry 15 equal to 1; with sine 0 and cosine 1 it is the identity, whatever the axis |
| Matrices.RotationOf | Scene.cpp:556-602 | the zero axis yields exactly the identity matrix; on both branches the matrix neither translates nor projects, and the zero angle yields the identity |
| Matrices.Normalized | Scene.cpp:563-568 | the axis divided by its length, component by component; multiplied back by the length it is the axis again (unit length is NormalizedIsUnit) |
| Matrices.NormalizedIsUnit | Scene.cpp:563-568 | for a non-zero axis and its length, the rescaled axis has squared length 1 and points the way of the axis |
| Matrices.RotateVectorScale | Scene.cpp:618-625 | rotating k v gives k times the rotation of v |
| Matrices.RotationFixesAxis | Scene.cpp:549-602 | the matrix built for an axis maps that axis to itself, for the zero axis and for every sine and cosine |
| Matrices.RotationMatrix | Scene.cpp:549-603 | afterwards the output matrix is the identity for the zero axis, and otherwise the axis-angle matrix about the axis divided by its length |
| Camera.MoveThenBack | Scene.cpp:526-531 | marching by d and then by -d restores the frame |
| Camera.MovesAdd | Scene.cpp:526-531 | marching by a and then by b is marching by a + b |
| Camera.MovedForward | Scene.cpp:526-531 | marching changes neither the up nor the forward vector |
| Camera.TurnedLocalY | Scene.cpp:535-545 | turning changes neither the location nor the up vector; with sine 0 and cosine 1, or about a zero up vector, it changes nothing |
| Camera.TurnIsRodrigues | Scene.cpp:535-545 | about a non-zero up vector, the new forward vector is Rodrigues' formula applied to the old one, about the up vector divided by its length |
| Camera.CameraMatrix | Scene.cpp:454-485 | the view matrix's rows are up x (-forward), up and -forward, and its last row and column are (0,0,0,1) |
| Camera.CameraBlock | Scene.cpp:459-480 | no contract: the body is the right vector up x (-forward), the up vector and the flipped forward vector as the three rows; CameraMatrix, CameraBlockOrthogonal and InitialCameraBlock carry its properties |
| Camera.CameraBlockOrthogonal | Scene.cpp:459-467 | the derived right vector is perpendicular to both the up vector and the flipped forward vector, for every frame |
| Camera.CameraMatrixOfInitialFrame | Scene.cpp:454-485 | the frame gltInitFrame sets up gives the identity view matrix |
| Camera.AfterKey | Scene.cpp:114-127 | no key changes the up vector; Up/Down change only the location; Left/Right change only the forward vector; other keys change nothing |
| Camera.UpDownCancel | Scene.cpp:114-120 | Up then Down, or Down then Up, returns the camera to where it was |
| Camera.AfterKeys | Scene.cpp:112-130 | over any run of key events the up vector never changes, and a run of non-arrow keys changes nothing |
| Camera.MarchingKeys | Scene.cpp:114-120 | a run of Up and Down presses, in any order, marches the camera along its unchanged forward vector by 0.1 per Up minus 0.1 per Down |
| Camera.Frame.InitFrame | Scene.cpp:508-521 | afterwards location = (0,0,0), up = (0,1,0) and forward = (0,0,-1) |
| Camera.Frame.MoveFrameForward | Scene.cpp:526-531 | the location advances by step times forward; up and forward are unchanged |
| Camera.Frame.RotateFrameLocalY | Scene.cpp:535-545 | the forward vector becomes its rotation by the matrix about the current up vector; location and up are unchanged |
| Camera.ApplyCameraTransform | Scene.cpp:450-485 | afterwards the output matrix is the frame's view matrix |
| Camera.KeyPressEvent | Scene.cpp:112-130 | the camera frame becomes the key's image under the key dispatch map |
| Meshes.QuadNumber | Scene.cpp:157-160 | the quad the loops reach at (x, z) is number 40 (20 - z) + (x + 20), which is below 1600 and maps back to (x, z) |
| Meshes.QuadX | Scene.cpp:158 | every quad's x lies in the inner loop's range -20 .. 19 |
| Meshes.QuadZ | Scene.cpp:157 | every one of the 1600 quads has its z in the outer loop's range -19 .. 20 |
| Meshes.QuadOrder | Scene.cpp:157-158 | a later quad lies in a lower row, or in the same row further along x |
| Meshes.GroundPoint | Scene.cpp:162-164 | no contract: the body is the three floats pushed at Scene.cpp:162-164; QuadVertices, QuadCorner and FieldVertex carry its properties |
| Meshes.QuadVertices | Scene.cpp:161-189 | one quad pushes 18 floats, and every third float, the y coordinate of a corner, is the ground height -0.4 (the corners themselves are QuadCorner) |
| Meshes.QuadCorner | Scene.cpp:161-189 | corner c of the quad at (x, z) is the float triple (x + dx, -0.4, z + dz), with the offsets of the six corners pushed in order |
| Meshes.FieldPrefixStep | Scene.cpp:158-190 | the vertex floats of the first q + 1 quads are those of the first q followed by the 18 floats of quad q |
| Meshes.FieldVertex | Scene.cpp:161-189 | corner c of quad q occupies floats 18 q + 3 c onwards and is (x + dx, -0.4, z + dz), with the offsets of the corners (x,z), (x+1,z), (x+1,z-1), (x,z), (x+1,z-1), (x,z-1) |
| Meshes.FieldSizes | Scene.cpp:157-216 | 28800 vertex floats, 19200 texture floats and 9600 indices: as many texture pairs and indices as vertex triples |
| Meshes.FieldIndexIdentity | Scene.cpp:193-195 | index i is i, so every index is below the number of vertices |
| Meshes.FieldVertexRange | Scene.cpp:157-189 | every ground vertex has y = -0.4, and its x and z are integers in [-20, 20] |
| Meshes.RepeatIndex | Scene.cpp:198-216 | the texture floats of quad m are the 12-float pattern, i.e. float 12 m + j is pattern element j |
| Meshes.FieldTextureMatchesCorner | Scene.cpp:161-216 | each quad corner's texture coordinate is its offset inside the quad, so the two triangles agree on their shared corners |
| Meshes.PushFieldQuads | Scene.cpp:157-191 | the nested loops append exactly the field's vertex floats and leave the counters at 1600 quads and 9600 indices |
| Meshes.PushFieldRow | Scene.cpp:158-190 | one pass of the inner loop appends the row's 40 quads and advances the counters by 40 and 240 |
| Meshes.InitField | Scene.cpp:152-217 | each ground buffer becomes its old content followed by the field's vertex, texture or index sequence |
| Meshes.CubeSizes | Scene.cpp:221-445 | 108 vertex floats, 72 texture floats and 36 indices: as many texture pairs and indices as vertex triples |
| Meshes.CubeIndexIdentity | Scene.cpp:378-424 | index i is i, so every index is below the number of vertices |
| Meshes.CubeVertexFloats | Scene.cpp:221-375 | floats 3 v, 3 v + 1 and 3 v + 2 are the coordinates of cube vertex v |
| Meshes.CubeCorner | Scene.cpp:221-375 | each of the 36 vertices has every coordinate equal to 1 or -1 |
| Meshes.CubeCoordinates | Scene.cpp:221-375 | every one of the 108 vertex floats is 1 or -1 |
| Meshes.CubeFacePlanes | Scene.cpp:221-375 | the six vertices of face f all lie in the plane where one coordinate equals +1 or -1 |
| Meshes.CubeFacesDistinct | Scene.cpp:221-375 | the six faces lie in six different planes |
| Meshes.CubeTextureMapping | Scene.cpp:221-445 | on each face the texture coordinate of a vertex is an affine function of two of its coordinates, so each face gets the whole texture once |
| Meshes.InitCube | Scene.cpp:219-446 | each cube buffer becomes its old content followed by the cube's vertex, index or texture sequence |

## Left out

- Floating point: all arithmetic is over exact reals. `float` rounding is not modelled.
  - The constant -0.4f is the real -0.4.
  - The integer-to-float casts in `initField` are exact for the values involved.
- Square root, sine and cosine: `gltRotationMatrix`'s `sqrt`, `sin` and `cos` are inputs to the model.
  - The axis length arrives with the predicate `IsLengthOf`, and the sine and cosine as two reals.
  - Nothing is assumed about the sine and cosine. Axis-fixing holds for any sine and cosine and is proved (`RotationFixesAxis`). Orthonormality and length preservation hold only when s^2 + c^2 = 1, which the model does not assume, so they are not proved.
  - The model also does not prove that turning left and then right cancels.
- Camera.KeyPressEvent: the Right key passes -0.1 to `gltRotateFrameLocalY`. The model takes this to mean sine -sinStep and cosine cosStep, i.e. it relies on sine being odd and cosine even.
- Camera.Frame.RotateFrameLocalY: the first call to `gltRotationMatrix` at `Scene.cpp:540` is not modelled. It uses the fixed axis (0, 1, 0). The call at line 541 overwrites all sixteen entries, and `RotationMatrix` is proved to determine every entry, so the first call has no effect.
- Camera.Frame.RotateFrameLocalY: the angle at line 541 is passed as given, and its sine and cosine are the caller's. The dead line 540 converts degrees to radians and line 541 does not, despite the comment at line 548. The model follows line 541.
- Matrices.RotationMatrix and Camera.ApplyCameraTransform: the sixteen entries are stored by one parallel assignment. The source writes them one at a time in a fixed order; nothing reads the matrix in between, so that order is not captured.
- Matrices.LoadIdentityMatrix: the `memcpy` of a static identity is an entry-wise copy.
- Meshes.InitCube: the 108 vertex pushes and the 36 index pushes are each one append of the whole literal sequence. The texture loop keeps its six iterations.
- Meshes.InitField: the inner loop is the method `PushFieldRow` and the two nested loops are `PushFieldQuads`. They run in the same order as the source's loops, with the same counters.
- The texture-coordinate patterns follow the code: the ground pattern is (0,0) (1,0) (1,1) (0,0) (1,1) (0,1) and the cube pattern is (0,0) (1,0) (0,1) (1,0) (1,1) (0,1). The two differ.
- The OpenGL and Qt parts are not part of this model: widget setup, the timer and its tick, `initializeGL`, `paintGL`, `resizeGL`, `drawGround`, `drawCube`, `genTexture`, the `glMultMatrixf`/`glTranslatef` calls that end `gltApplyCameraTransform`, and the `updateGL` call that ends `keyPressEvent`.
- The unused `m_vertices`, `m_textures` and `m_indices` members of `Scene` are not modelled.
- `unsigned int` indices are `nat`. No index comes near 2^32, so wrap-around never arises.
