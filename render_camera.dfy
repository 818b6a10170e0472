/** The quaternion camera of src/engine/render/camera.rs: a position, an
    orientation and the projection parameters.  Moving changes only the
    position, rotating changes only the orientation, and the view matrix is
    the inverse rigid motion written out entry by entry. */
module RenderCamera {
  import opened Numeric
  import opened Matrix
  import opened CorePrimitives

  /** The matrix `get_view_matrix` writes out for a rotation matrix `rot`
      and the negated position `pos`: `rot` read column-wise in the upper
      block, `rot` applied to `pos` in row 3, and (0, 0, 0, 1) in column 3. */
  function ViewLayout(rot: Mat, pos: Vec3): (m: Mat)
    requires IsSquare(rot, 3)
    ensures IsSquare(m, 4)
  {
    var tx := rot[0][0] * pos.x + rot[0][1] * pos.y + rot[0][2] * pos.z;
    var ty := rot[1][0] * pos.x + rot[1][1] * pos.y + rot[1][2] * pos.z;
    var tz := rot[2][0] * pos.x + rot[2][1] * pos.y + rot[2][2] * pos.z;
    [[rot[0][0], rot[1][0], rot[2][0], 0.0],
     [rot[0][1], rot[1][1], rot[2][1], 0.0],
     [rot[0][2], rot[1][2], rot[2][2], 0.0],
     [tx, ty, tz, 1.0]]
  }

  /** The view matrix of a camera at `position` with orientation
      `rotation`: the layout above for the conjugate rotation. */
  function ViewMatrix(position: Vec3, rotation: Quat): (m: Mat)
    ensures IsSquare(m, 4)
  {
    ViewLayout(rotation.Conjugate().ToMat3(), position.Neg())
  }

  /** Column 3 is (0, 0, 0, 1), and the upper 3x3 block is the rotation's
      own matrix: transposing the conjugate's matrix undoes the
      conjugation. */
  lemma ViewMatrixLayout(position: Vec3, rotation: Quat)
    ensures forall i :: 0 <= i < 3 ==> ViewMatrix(position, rotation)[i][3] == 0.0
    ensures ViewMatrix(position, rotation)[3][3] == 1.0
    ensures forall i, j :: 0 <= i < 3 && 0 <= j < 3 ==>
      ViewMatrix(position, rotation)[i][j] == rotation.ToMat3()[i][j]
  {
    ToMat3OfConjugate(rotation);
  }

  /** A point p taken through a 4x4 matrix as the row vector (p, 1). */
  function TransformPoint(m: Mat, p: Vec3): Vec3
    requires IsSquare(m, 4)
  {
    Vec3(p.x * m[0][0] + p.y * m[1][0] + p.z * m[2][0] + m[3][0],
         p.x * m[0][1] + p.y * m[1][1] + p.z * m[2][1] + m[3][1],
         p.x * m[0][2] + p.y * m[1][2] + p.z * m[2][2] + m[3][2])
  }

  /** For any rotation matrix, the layout built from its transpose and the
      exactly negated eye takes the eye to the origin. */
  lemma ViewLayoutMapsEyeToOrigin(rot: Mat, eye: Vec3)
    requires IsSquare(rot, 3)
    ensures TransformPoint(ViewLayout(Transpose(rot, 3), Vec3(-eye.x, -eye.y, -eye.z)), eye) == Vec3.ZERO
  {
    var t := Transpose(rot, 3);
    assert t[0][0] == rot[0][0] && t[0][1] == rot[1][0] && t[0][2] == rot[2][0];
    assert t[1][0] == rot[0][1] && t[1][1] == rot[1][1] && t[1][2] == rot[2][1];
    assert t[2][0] == rot[0][2] && t[2][1] == rot[1][2] && t[2][2] == rot[2][2];
  }

  /** When cleaning leaves the position alone (as it does for every
      position the camera reaches by moving), the view matrix takes the
      eye to the origin. */
  lemma ViewMapsEyeToOrigin(position: Vec3, rotation: Quat)
    ensures position.Clean() == position ==>
      TransformPoint(ViewMatrix(position, rotation), position) == Vec3.ZERO
  {
    if position.Clean() == position {
      NegOfStableVector(position);
      ToMat3OfConjugate(rotation);
      ViewLayoutMapsEyeToOrigin(rotation.ToMat3(), position);
    }
  }

  /** With the identity orientation the view matrix is a pure translation
      by the negated position. */
  lemma ViewOfUnrotatedCamera(position: Vec3)
    ensures ViewMatrix(position, Quat.ZERO)
      == [[1.0, 0.0, 0.0, 0.0], [0.0, 1.0, 0.0, 0.0], [0.0, 0.0, 1.0, 0.0],
          [position.Neg().x, position.Neg().y, position.Neg().z, 1.0]]
  {
    assert Quat.ZERO.Conjugate() == Quat.ZERO;
    var rot := Quat.ZERO.ToMat3();
    assert rot == [[1.0, 0.0, 0.0], [0.0, 1.0, 0.0], [0.0, 0.0, 1.0]];
    var p := position.Neg();
    assert ViewLayout(rot, p) == [[1.0, 0.0, 0.0, 0.0], [0.0, 1.0, 0.0, 0.0], [0.0, 0.0, 1.0, 0.0],
      [p.x, p.y, p.z, 1.0]];
  }

  /** An orientation turned by `angle` about `axis`: the axis-angle
      quaternion multiplied on the left, then renormalized. */
  function TurnedAbout(rotation: Quat, axis: Vec3, angle: real, lib: Libm): Quat {
    Quat.FromAxisAngle(axis, angle, lib).Mul(rotation).Normalize(lib)
  }

  /** A quaternion turned by the zero angle, for sine and cosine that take
      their values at zero, is only normalized. */
  lemma RotateByZeroAngle(axis: Vec3, rotation: Quat, lib: Libm)
    requires lib.Sin(0.0) == 0.0 && lib.Cos(0.0) == 1.0
    ensures TurnedAbout(rotation, axis, 0.0, lib) == rotation.Normalize(lib)
  {
    assert Quat.FromAxisAngle(axis, 0.0, lib) == Quat.ZERO;
    QuatZeroIsUnit(rotation);
  }

  /** Moving a stable position by a zero distance leaves it where it is;
      any move lands on a position cleaning leaves alone. */
  lemma MoveKeepsStablePosition(position: Vec3, axis: Vec3, dist: real)
    ensures position.Add(axis.Scale(dist)).Clean() == position.Add(axis.Scale(dist))
    ensures position.Clean() == position ==> position.Add(axis.Scale(0.0)) == position
  {
    CleanVectorIsStable(Vec3(position.x + axis.Scale(dist).x, position.y + axis.Scale(dist).y,
      position.z + axis.Scale(dist).z));
    assert axis.Scale(0.0) == Vec3.ZERO;
  }

  class Camera {
    var position: Vec3
    var rotation: Quat
    var fov: real
    var near: real
    var far: real

    /** Every position the camera reaches by moving is one that cleaning
        leaves alone, and so is the default one. */
    predicate StablePosition()
      reads this
    {
      position.Clean() == position
    }

    /** `Camera::new` stores its arguments as given. */
    constructor (position: Vec3, rotation: Quat, fov: real, near: real, far: real)
      ensures this.position == position && this.rotation == rotation
      ensures this.fov == fov && this.near == near && this.far == far
    {
      this.position := position;
      this.rotation := rotation;
      this.fov := fov;
      this.near := near;
      this.far := far;
    }

    /** `Default`: a fixed starting pose, a 90 degree field of view and the
        clipping planes 0.1 and 100. */
    constructor Default()
      ensures position == Vec3(-1.52, 3.77, 1.55) && StablePosition()
      ensures rotation == Quat(-0.44, -0.34, -0.19, 0.81)
      ensures fov == 90.0 && near == 0.1 && far == 100.0
    {
      var start := Vec3.New(-1.52, 3.77, 1.55);
      assert start == Vec3(-1.52, 3.77, 1.55) by {
        assert Round(-1.52 * 1000.0) == -1520;
        assert Round(3.77 * 1000.0) == 3770;
        assert Round(1.55 * 1000.0) == 1550;
      }
      CleanVectorIsStable(Vec3(-1.52, 3.77, 1.55));
      position := start;
      rotation := Quat(-0.44, -0.34, -0.19, 0.81);
      fov := 90.0;
      near := 0.1;
      far := 100.0;
    }

    /** `get_view_matrix`. */
    function GetViewMatrix(): (m: Mat)
      reads this
      ensures IsSquare(m, 4)
      ensures forall i :: 0 <= i < 3 ==> m[i][3] == 0.0
      ensures m[3][3] == 1.0
      ensures forall i, j :: 0 <= i < 3 && 0 <= j < 3 ==> m[i][j] == rotation.ToMat3()[i][j]
      ensures StablePosition() ==> TransformPoint(m, position) == Vec3.ZERO
    {
      ViewMatrixLayout(position, rotation);
      ViewMapsEyeToOrigin(position, rotation);
      ViewMatrix(position, rotation)
    }

    /** The camera's local axes: the orientation applied to X, Y and -Z. */
    function Right(): Vec3
      reads this
    {
      rotation.Rotate(Vec3.X)
    }

    function Up(): Vec3
      reads this
    {
      rotation.Rotate(Vec3.Y)
    }

    function Forward(): Vec3
      reads this
    {
      rotation.Rotate(Vec3.Z.Neg())
    }

    /** Without rotation the local axes are exactly X, Y and -Z. */
    lemma UnrotatedAxes()
      requires rotation == Quat.ZERO
      ensures Right() == Vec3(1.0, 0.0, 0.0)
      ensures Up() == Vec3(0.0, 1.0, 0.0)
      ensures Forward() == Vec3(0.0, 0.0, -1.0)
    {
      RotateAxesByZero();
    }

    method MoveRight(dist: real)
      modifies this
      ensures position == old(position.Add(Right().Scale(dist))) && StablePosition()
      ensures unchanged(this`rotation, this`fov, this`near, this`far)
    {
      var axis := Right();
      var moved := position.Add(axis.Scale(dist));
      MoveKeepsStablePosition(position, axis, dist);
      position := moved;
    }

    method MoveUp(dist: real)
      modifies this
      ensures position == old(position.Add(Up().Scale(dist))) && StablePosition()
      ensures unchanged(this`rotation, this`fov, this`near, this`far)
    {
      var axis := Up();
      var moved := position.Add(axis.Scale(dist));
      MoveKeepsStablePosition(position, axis, dist);
      position := moved;
    }

    method MoveForward(dist: real)
      modifies this
      ensures position == old(position.Add(Forward().Scale(dist))) && StablePosition()
      ensures unchanged(this`rotation, this`fov, this`near, this`far)
    {
      var axis := Forward();
      var moved := position.Add(axis.Scale(dist));
      MoveKeepsStablePosition(position, axis, dist);
      position := moved;
    }

    /** The rotations turn the orientation about the camera's own current
        axis, multiplying on the left, and renormalize. */
    method RotatePitch(angle: real, lib: Libm)
      modifies this
      ensures rotation == TurnedAbout(old(rotation), old(Right()), angle, lib)
      ensures unchanged(this`position, this`fov, this`near, this`far)
    {
      rotation := TurnedAbout(rotation, Right(), angle, lib);
    }

    method RotateYaw(angle: real, lib: Libm)
      modifies this
      ensures rotation == TurnedAbout(old(rotation), old(Up()), angle, lib)
      ensures unchanged(this`position, this`fov, this`near, this`far)
    {
      rotation := TurnedAbout(rotation, Up(), angle, lib);
    }

    method RotateRoll(angle: real, lib: Libm)
      modifies this
      ensures rotation == TurnedAbout(old(rotation), old(Forward()), angle, lib)
      ensures unchanged(this`position, this`fov, this`near, this`far)
    {
      rotation := TurnedAbout(rotation, Forward(), angle, lib);
    }
  }
}
