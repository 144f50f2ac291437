/** The camera's frame of reference (the source's GLTFrame): initialising it,
    marching it forward, turning it about its own up vector, the view matrix
    built from it, and the key dispatch that drives these. */
module Camera {
  import opened Vectors
  import opened Matrices

  /** The value of a GLTFrame: where the camera is, which way is up and which
      way it looks. */
  datatype FrameState = FrameState(location: Vec3, up: Vec3, forward: Vec3)

  /** gltInitFrame's frame: at the origin, up along +y, looking down -z. */
  const InitialFrame: FrameState := FrameState(Zero, UnitY, Vec3(0.0, 0.0, -1.0))

  /** gltMoveFrameForward: the location advances step times the forward
      vector; the orientation stays as it was. */
  function MovedForward(f: FrameState, step: real): (r: FrameState)
    ensures r.up == f.up && r.forward == f.forward
  {
    f.(location := Add(f.location, Scale(step, f.forward)))
  }

  /** gltRotateFrameLocalY: the forward vector is rotated about the up vector;
      upLength is the square root the rotation takes of the up vector's
      squared length, s and c the sine and cosine of the angle. Only the
      forward vector can change, and it does not when the angle is zero or
      the up vector is zero (the rotation is then the identity). */
  function TurnedLocalY(f: FrameState, upLength: real, s: real, c: real): (r: FrameState)
    requires IsLengthOf(upLength, f.up)
    ensures r.location == f.location && r.up == f.up
    ensures s == 0.0 && c == 1.0 ==> r == f
    ensures f.up == Zero ==> r == f
  {
    var rotation := RotationOf(f.up, upLength, s, c);
    RotateVectorIdentity(f.forward);
    f.(forward := RotateVector(f.forward, rotation))
  }

  /** About a non-zero up vector, the turn maps the forward vector by
      Rodrigues' formula about the normalised up axis. */
  lemma TurnIsRodrigues(f: FrameState, upLength: real, s: real, c: real)
    requires IsLengthOf(upLength, f.up) && f.up != Zero
    ensures TurnedLocalY(f, upLength, s, c).forward
         == Rodrigues(Normalized(f.up, upLength), s, c, f.forward)
  {
    AxisAngleRotates(Normalized(f.up, upLength), s, c, f.forward);
  }

  /** The matrix gltApplyCameraTransform fills: its rows are the right vector
      up x (-forward), the up vector and the flipped forward vector, and its
      last row and column are (0, 0, 0, 1). */
  function CameraMatrix(f: FrameState): (m: Matrix)
    ensures RowOf(m, 0) == Cross(f.up, Neg(f.forward))
    ensures RowOf(m, 1) == f.up
    ensures RowOf(m, 2) == Neg(f.forward)
    ensures NoTranslation(m)
  {
    FromBlock(CameraBlock(f))
  }

  /** The rotation block of the camera matrix: the right vector, the up vector
      and the flipped forward vector. */
  function CameraBlock(f: FrameState): Block {
    var zFlipped := Neg(f.forward);
    Block(Cross(f.up, zFlipped), f.up, zFlipped)
  }

  /** The right vector of the camera block is perpendicular to its other two
      rows, whatever the frame. */
  lemma CameraBlockOrthogonal(f: FrameState)
    ensures Dot(CameraBlock(f).r0, CameraBlock(f).r1) == 0.0
    ensures Dot(CameraBlock(f).r0, CameraBlock(f).r2) == 0.0
  {
    CrossOrthogonal(f.up, Neg(f.forward));
  }

  /** Marching by d and then by -d returns to the starting frame. */
  lemma MoveThenBack(f: FrameState, d: real)
    ensures MovedForward(MovedForward(f, d), -d) == f
  {
  }

  /** Two marches add up to one. */
  lemma MovesAdd(f: FrameState, a: real, b: real)
    ensures MovedForward(MovedForward(f, a), b) == MovedForward(f, a + b)
  {
  }

  /** The initial frame gives the identity view. */
  lemma CameraMatrixOfInitialFrame()
    ensures CameraMatrix(InitialFrame) == Identity
  {
    InitialCameraBlock();
    FromBasisIsIdentity();
  }

  lemma InitialCameraBlock()
    ensures CameraBlock(InitialFrame) == Block(UnitX, UnitY, UnitZ)
  {
    WorldAlignedBlock(InitialFrame.up, InitialFrame.forward);
  }

  /** Up along the world y axis and looking down the negative z axis, the
      camera block is the world axes. InitialCameraBlock goes through this
      lemma rather than evaluating the constant frame directly, because the
      solver handles the computation much more reliably with the frame's
      vectors as parameters than with the constant InitialFrame. */
  lemma WorldAlignedBlock(up: Vec3, forward: Vec3)
    requires up == UnitY && forward == Vec3(0.0, 0.0, -1.0)
    ensures Block(Cross(up, Neg(forward)), up, Neg(forward)) == Block(UnitX, UnitY, UnitZ)
  {
  }

  /** The keys the scene reacts to. */
  datatype Key = KeyUp | KeyDown | KeyLeft | KeyRight | OtherKey

  /** The distance one key press marches and the angle one key press turns
      (passed as is, in radians, to the sine and cosine). */
  const MoveStep: real := 0.1
  const TurnStep: real := 0.1

  /** keyPressEvent: Up and Down march by plus or minus MoveStep, Left and
      Right turn by plus or minus TurnStep; any other key leaves the frame
      alone. sinStep and cosStep stand for sin(TurnStep) and cos(TurnStep),
      which gltRotationMatrix computes (Scene.cpp:570-571) from the angle the
      key handler passes (Scene.cpp:122 and 125); the Right key's turn by
      -TurnStep is passed as -sinStep and cosStep, the sine being odd and the
      cosine even. No key changes the up vector, Up and Down change only the
      location, and Left and Right only the forward vector. */
  function AfterKey(f: FrameState, key: Key, upLength: real, sinStep: real, cosStep: real): (r: FrameState)
    requires IsLengthOf(upLength, f.up)
    ensures r.up == f.up
    ensures (key.KeyUp? || key.KeyDown?) ==> r.forward == f.forward
    ensures (key.KeyLeft? || key.KeyRight?) ==> r.location == f.location
    ensures key.OtherKey? ==> r == f
  {
    match key
    case KeyUp => MovedForward(f, MoveStep)
    case KeyDown => MovedForward(f, -MoveStep)
    case KeyLeft => TurnedLocalY(f, upLength, sinStep, cosStep)
    case KeyRight => TurnedLocalY(f, upLength, -sinStep, cosStep)
    case OtherKey => f
  }

  /** The frame after a run of key events, one keyPressEvent per key, in
      order. Since no key changes the up vector, its length stays what it was
      for the whole run; keys that are neither arrows change nothing. */
  function AfterKeys(f: FrameState, keys: seq<Key>, upLength: real, sinStep: real, cosStep: real): (r: FrameState)
    requires IsLengthOf(upLength, f.up)
    ensures r.up == f.up
    ensures (forall i :: 0 <= i < |keys| ==> keys[i].OtherKey?) ==> r == f
    decreases |keys|
  {
    if keys == [] then f
    else AfterKeys(AfterKey(f, keys[0], upLength, sinStep, cosStep), keys[1..], upLength, sinStep, cosStep)
  }

  /** The net distance a run of Up and Down presses marches: MoveStep per Up,
      minus MoveStep per Down. */
  function NetMarch(keys: seq<Key>): real
    decreases |keys|
  {
    if keys == [] then 0.0
    else (if keys[0].KeyUp? then MoveStep else if keys[0].KeyDown? then -MoveStep else 0.0) + NetMarch(keys[1..])
  }

  /** A run of Up and Down presses, in any order, marches the camera by the
      net distance along the unchanged forward vector. */
  lemma {:induction false} MarchingKeys(f: FrameState, keys: seq<Key>, upLength: real, sinStep: real, cosStep: real)
    requires IsLengthOf(upLength, f.up)
    requires forall i :: 0 <= i < |keys| ==> keys[i].KeyUp? || keys[i].KeyDown?
    ensures AfterKeys(f, keys, upLength, sinStep, cosStep) == MovedForward(f, NetMarch(keys))
    decreases |keys|
  {
    if keys != [] {
      var step := if keys[0].KeyUp? then MoveStep else -MoveStep;
      var g := AfterKey(f, keys[0], upLength, sinStep, cosStep);
      assert g == MovedForward(f, step);
      MarchingKeys(g, keys[1..], upLength, sinStep, cosStep);
      MovesAdd(f, step, NetMarch(keys[1..]));
    }
  }

  /** Up followed by Down, or Down followed by Up, returns to the starting
      frame. */
  lemma UpDownCancel(f: FrameState, upLength: real, sinStep: real, cosStep: real)
    requires IsLengthOf(upLength, f.up)
    ensures AfterKey(AfterKey(f, KeyUp, upLength, sinStep, cosStep), KeyDown, upLength, sinStep, cosStep) == f
    ensures AfterKey(AfterKey(f, KeyDown, upLength, sinStep, cosStep), KeyUp, upLength, sinStep, cosStep) == f
  {
    MoveThenBack(f, MoveStep);
    MoveThenBack(f, -MoveStep);
  }

  /** A GLTFrame, updated in place through the operations below. */
  class Frame {
    var location: Vec3
    var up: Vec3
    var forward: Vec3

    function State(): FrameState
      reads this
    {
      FrameState(location, up, forward)
    }

    constructor (state: FrameState)
      ensures State() == state
    {
      location, up, forward := state.location, state.up, state.forward;
    }

    /** gltInitFrame. */
    method InitFrame()
      modifies this
      ensures State() == InitialFrame
    {
      location := Vec3(0.0, 0.0, 0.0);
      up := Vec3(0.0, 1.0, 0.0);
      forward := Vec3(0.0, 0.0, -1.0);
    }

    /** gltMoveFrameForward: each location component grows by the forward
        component times the step (Scale multiplies component-wise). */
    method MoveFrameForward(step: real)
      modifies this
      ensures State() == MovedForward(old(State()), step)
      ensures up == old(up) && forward == old(forward)
    {
      location := Add(location, Scale(step, forward));
    }

    /** gltRotateFrameLocalY: builds the rotation about the current up vector
        into a fresh matrix and rotates the forward vector by it. */
    method RotateFrameLocalY(upLength: real, sinAngle: real, cosAngle: real)
      requires IsLengthOf(upLength, up)
      modifies this
      ensures State() == TurnedLocalY(old(State()), upLength, sinAngle, cosAngle)
      ensures location == old(location) && up == old(up)
    {
      var rotation := new real[16];
      RotationMatrix(up.x, up.y, up.z, upLength, sinAngle, cosAngle, rotation);
      forward := RotateVector(forward, rotation[..]);
    }
  }

  /** The matrix-filling part of gltApplyCameraTransform, into m: right, up
      and -forward become the rows of the upper-left block. */
  method ApplyCameraTransform(camera: Frame, m: array<real>)
    requires m.Length == 16
    modifies m
    ensures m[..] == CameraMatrix(camera.State())
  {
    var b := CameraBlock(camera.State());
    StoreBlock(b, m);
  }

  /** keyPressEvent on the scene's camera frame. */
  method KeyPressEvent(camera: Frame, key: Key, upLength: real, sinStep: real, cosStep: real)
    requires IsLengthOf(upLength, camera.up)
    modifies camera
    ensures camera.State() == AfterKey(old(camera.State()), key, upLength, sinStep, cosStep)
  {
    match key
    case KeyUp => camera.MoveFrameForward(MoveStep);
    case KeyDown => camera.MoveFrameForward(-MoveStep);
    case KeyLeft => camera.RotateFrameLocalY(upLength, sinStep, cosStep);
    case KeyRight => camera.RotateFrameLocalY(upLength, -sinStep, cosStep);
    case OtherKey =>
  }
}
