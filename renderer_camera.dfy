/** The older look-at camera of src/engine/renderer.rs: a position, a
    viewing direction and an up vector over the plain (uncleaned) vectors of
    src/engine/primitives.rs.  The view and projection matrices start from
    `Mat4::default()`, the identity, and have their entries overwritten one
    by one. */
module RendererCamera {
  import opened Numeric
  import opened Matrix
  import opened EnginePrimitives

  /** The view matrix for the side, true-up and forward axes s, u, f and
      the eye: s, u and -f as columns, their products with the eye in
      row 3, and (0, 0, 0, 1) in column 3. */
  function LookAt(s: Vec3, u: Vec3, f: Vec3, eye: Vec3): (m: Mat)
    ensures IsSquare(m, 4)
    ensures m[0][3] == 0.0 && m[1][3] == 0.0 && m[2][3] == 0.0 && m[3][3] == 1.0
  {
    LookAtLayout(s, u, f, Vec3(-s.Dot(eye), -u.Dot(eye), f.Dot(eye)))
  }

  /** The matrix with s, u and -f as columns over the row t. */
  function LookAtLayout(s: Vec3, u: Vec3, f: Vec3, t: Vec3): (m: Mat)
    ensures IsSquare(m, 4)
  {
    [[s.x, u.x, -f.x, 0.0],
     [s.y, u.y, -f.y, 0.0],
     [s.z, u.z, -f.z, 0.0],
     [t.x, t.y, t.z, 1.0]]
  }

  /** Under `mul_vec4` the eye goes to the origin, whatever the axes. */
  lemma LookAtMapsEyeToOrigin(s: Vec3, u: Vec3, f: Vec3, eye: Vec3)
    ensures Mat4MulVec4(LookAt(s, u, f, eye), Vec4(eye.x, eye.y, eye.z, 1.0)) == Vec4(0.0, 0.0, 0.0, 1.0)
  {
  }

  /** A direction orthogonal to the side and up axes lands on the -Z axis. */
  lemma LookAtForward(s: Vec3, u: Vec3, f: Vec3, eye: Vec3)
    requires s.Dot(f) == 0.0 && u.Dot(f) == 0.0
    ensures Mat4MulVec4(LookAt(s, u, f, eye), Vec4(f.x, f.y, f.z, 0.0)) == Vec4(0.0, 0.0, -f.Dot(f), 0.0)
  {
    LayoutForward(s, u, f, Vec3(-s.Dot(eye), -u.Dot(eye), f.Dot(eye)));
  }

  /** Whatever row 3 holds, the columns applied to the direction f give
      the dot products of s, u and -f with f. */
  lemma LayoutForward(s: Vec3, u: Vec3, f: Vec3, t: Vec3)
    ensures Mat4MulVec4(LookAtLayout(s, u, f, t), Vec4(f.x, f.y, f.z, 0.0))
      == Vec4(s.Dot(f), u.Dot(f), -f.Dot(f), 0.0)
  {
    var m := LookAtLayout(s, u, f, t);
    assert m[3][0] * 0.0 == 0.0 && m[3][1] * 0.0 == 0.0 && m[3][2] * 0.0 == 0.0;
    ProductSigns(f.x, f.x);
    ProductSigns(f.y, f.y);
    ProductSigns(f.z, f.z);
  }

  /** Normalizing keeps a vector orthogonal to whatever it was orthogonal
      to. */
  lemma NormalizeKeepsOrthogonal(v: Vec3, w: Vec3, lib: Libm)
    requires v.Dot(w) == 0.0
    ensures v.Normalize(lib).Dot(w) == 0.0
  {
    var len := v.Length(lib);
    if len != 0.0 {
      calc {
        v.Div(len).Dot(w);
        (v.x * w.x + v.y * w.y + v.z * w.z) / len;
        0.0;
      }
    }
  }

  /** The forward direction of `get_view_matrix`. */
  function Forward(direction: Vec3, lib: Libm): Vec3 {
    direction.Normalize(lib)
  }

  /** The side axis: forward crossed with up, normalized. */
  function Side(direction: Vec3, up: Vec3, lib: Libm): (s: Vec3)
    ensures s.Dot(Forward(direction, lib)) == 0.0
  {
    var f := Forward(direction, lib);
    Vec3CrossProperties(f, up);
    NormalizeKeepsOrthogonal(f.Cross(up), f, lib);
    f.Cross(up).Normalize(lib)
  }

  /** The true up axis: side crossed with forward. */
  function TrueUp(direction: Vec3, up: Vec3, lib: Libm): (u: Vec3)
    ensures u.Dot(Forward(direction, lib)) == 0.0
  {
    var s, f := Side(direction, up, lib), Forward(direction, lib);
    Vec3CrossProperties(s, f);
    s.Cross(f)
  }

  /** The view matrix of a camera. */
  function ViewMatrix(position: Vec3, direction: Vec3, up: Vec3, lib: Libm): (m: Mat)
    ensures IsSquare(m, 4)
  {
    LookAt(Side(direction, up, lib), TrueUp(direction, up, lib), Forward(direction, lib), position)
  }

  /** The camera looks down -Z: a displacement along its forward direction
      keeps x = y = 0 and gets a negative z (unless it is zero), and the eye
      is the origin of view space. */
  lemma ViewLooksDownMinusZ(position: Vec3, direction: Vec3, up: Vec3, lib: Libm)
    ensures var f := Forward(direction, lib);
      Mat4MulVec4(ViewMatrix(position, direction, up, lib), Vec4(f.x, f.y, f.z, 0.0))
        == Vec4(0.0, 0.0, -f.Dot(f), 0.0)
    ensures Mat4MulVec4(ViewMatrix(position, direction, up, lib), Vec4(position.x, position.y, position.z, 1.0))
      == Vec4(0.0, 0.0, 0.0, 1.0)
  {
    var f := Forward(direction, lib);
    var s, u := Side(direction, up, lib), TrueUp(direction, up, lib);
    LookAtForward(s, u, f, position);
    LookAtMapsEyeToOrigin(s, u, f, position);
  }

  /** `fov.to_radians()`: the angle times PI / 180. */
  function ToRadians(degrees: real): real {
    degrees * (PI / 180.0)
  }

  /** The matrix `get_projection_matrix` leaves: the identity with the
      focal scale on the diagonal, the depth mapping in column 2 and the
      perspective divide in column 3. */
  function Perspective(f: real, aspect: real, near: real, far: real): (m: Mat)
    requires aspect != 0.0 && near != far
    ensures IsSquare(m, 4)
  {
    [[f / aspect, 0.0, 0.0, 0.0],
     [0.0, f, 0.0, 0.0],
     [0.0, 0.0, far / (near - far), -1.0],
     [0.0, 0.0, (near * far) / (near - far), 0.0]]
  }

  /** The projection puts the near plane at depth 0 and the far plane at
      depth 1 (z over w), and keeps the focal scales in the ratio of the
      aspect. */
  lemma PerspectiveDepthRange(f: real, aspect: real, near: real, far: real)
    requires aspect != 0.0 && near != far
    ensures Perspective(f, aspect, near, far)[0][0] * aspect == Perspective(f, aspect, near, far)[1][1]
    ensures Mat4MulVec4(Perspective(f, aspect, near, far), Vec4(0.0, 0.0, -near, 1.0)) == Vec4(0.0, 0.0, 0.0, near)
    ensures Mat4MulVec4(Perspective(f, aspect, near, far), Vec4(0.0, 0.0, -far, 1.0)) == Vec4(0.0, 0.0, far, far)
  {
    DepthAtFar(near, far);
  }

  /** The depth row of the projection sends the far plane to w = far:
      -far * far/(near - far) + near*far/(near - far) = far. */
  lemma DepthAtFar(near: real, far: real)
    requires near != far
    ensures -far * (far / (near - far)) + (near * far) / (near - far) == far
  {
    var d := near - far;
    var a := far / d;
    var b := (near * far) / d;
    assert a * d == far;
    assert b * d == near * far;
    assert (-far * a + b) * d == far * d by {
      assert (-far * a + b) * d == -far * (a * d) + b * d;
    }
    CancelNonzero(-far * a + b, far, d);
  }

  /** A nonzero factor can be cancelled from both sides. */
  lemma CancelNonzero(x: real, y: real, d: real)
    requires d != 0.0 && x * d == y * d
    ensures x == y
  {
    assert (x - y) * d == 0.0;
  }

  class Camera {
    var position: Vec3
    var direction: Vec3
    var up: Vec3
    var fov: real
    var near: real
    var far: real

    /** `Camera::new` stores its arguments as given. */
    constructor (position: Vec3, direction: Vec3, up: Vec3, fov: real, near: real, far: real)
      ensures this.position == position && this.direction == direction && this.up == up
      ensures this.fov == fov && this.near == near && this.far == far
    {
      this.position := position;
      this.direction := direction;
      this.up := up;
      this.fov := fov;
      this.near := near;
      this.far := far;
    }

    /** `Default`: at the origin, looking down +Z with +Y up, a 90 degree
        field of view and the clipping planes 0.1 and 100. */
    constructor Default()
      ensures position == Vec3(0.0, 0.0, 0.0) && direction == Vec3(0.0, 0.0, 1.0) && up == Vec3(0.0, 1.0, 0.0)
      ensures fov == 90.0 && near == 0.1 && far == 100.0
    {
      position := Vec3(0.0, 0.0, 0.0);
      direction := Vec3(0.0, 0.0, 1.0);
      up := Vec3(0.0, 1.0, 0.0);
      fov := 90.0;
      near := 0.1;
      far := 100.0;
    }

    /** `get_view_matrix`: the entries overwritten column by column. */
    method GetViewMatrix(lib: Libm) returns (result: Mat)
      ensures result == ViewMatrix(position, direction, up, lib)
    {
      var f := direction.Normalize(lib);
      var s := f.Cross(up).Normalize(lib);
      var u := s.Cross(f);
      result := Identity(4);
      result := result[0 := result[0][0 := s.x]];
      result := result[1 := result[1][0 := s.y]];
      result := result[2 := result[2][0 := s.z]];
      result := result[3 := result[3][0 := -s.Dot(position)]];
      result := result[0 := result[0][1 := u.x]];
      result := result[1 := result[1][1 := u.y]];
      result := result[2 := result[2][1 := u.z]];
      result := result[3 := result[3][1 := -u.Dot(position)]];
      result := result[0 := result[0][2 := -f.x]];
      result := result[1 := result[1][2 := -f.y]];
      result := result[2 := result[2][2 := -f.z]];
      result := result[3 := result[3][2 := f.Dot(position)]];
      result := result[0 := result[0][3 := 0.0]];
      result := result[1 := result[1][3 := 0.0]];
      result := result[2 := result[2][3 := 0.0]];
      result := result[3 := result[3][3 := 1.0]];
      var want := ViewMatrix(position, direction, up, lib);
      assert result[0] == want[0] && result[1] == want[1] && result[2] == want[2] && result[3] == want[3];
    }

    /** `get_projection_matrix`: the focal scale is the cotangent of half
        the field of view; the entries not written keep the identity's
        values. */
    method GetProjectionMatrix(aspectRatio: real, lib: Libm) returns (result: Mat)
      requires lib.Tan(ToRadians(fov) / 2.0) != 0.0 && aspectRatio != 0.0 && near != far
      ensures result == Perspective(1.0 / lib.Tan(ToRadians(fov) / 2.0), aspectRatio, near, far)
    {
      var fovRad := ToRadians(fov);
      var f := 1.0 / lib.Tan(fovRad / 2.0);
      result := Identity(4);
      result := result[0 := result[0][0 := f / aspectRatio]];
      result := result[1 := result[1][1 := f]];
      result := result[2 := result[2][2 := far / (near - far)]];
      result := result[3 := result[3][2 := (near * far) / (near - far)]];
      result := result[2 := result[2][3 := -1.0]];
      result := result[3 := result[3][3 := 0.0]];
      var want := Perspective(f, aspectRatio, near, far);
      assert result[0] == want[0] && result[1] == want[1] && result[2] == want[2] && result[3] == want[3];
    }

    /** The right axis used by the sideways moves and the pitch. */
    function Right(lib: Libm): (r: Vec3)
      reads this
      ensures r.Dot(direction) == 0.0 && r.Dot(up) == 0.0
    {
      Vec3CrossProperties(direction, up);
      NormalizeKeepsOrthogonal(direction.Cross(up), direction, lib);
      NormalizeKeepsOrthogonal(direction.Cross(up), up, lib);
      direction.Cross(up).Normalize(lib)
    }

    method MoveForward(dist: real)
      modifies this
      ensures position == old(position).Add(direction.Scale(dist))
      ensures unchanged(this`direction, this`up, this`fov, this`near, this`far)
    {
      position := position.Add(direction.Scale(dist));
    }

    method MoveBackward(dist: real)
      modifies this
      ensures position == old(position).Sub(direction.Scale(dist))
      ensures unchanged(this`direction, this`up, this`fov, this`near, this`far)
    {
      position := position.Sub(direction.Scale(dist));
    }

    method MoveRight(dist: real, lib: Libm)
      modifies this
      ensures position == old(position).Add(Right(lib).Scale(dist))
      ensures unchanged(this`direction, this`up, this`fov, this`near, this`far)
    {
      var right := direction.Cross(up).Normalize(lib);
      position := position.Add(right.Scale(dist));
    }

    method MoveLeft(dist: real, lib: Libm)
      modifies this
      ensures position == old(position).Sub(Right(lib).Scale(dist))
      ensures unchanged(this`direction, this`up, this`fov, this`near, this`far)
    {
      var right := direction.Cross(up).Normalize(lib);
      position := position.Sub(right.Scale(dist));
    }

    /** The yaw turns the direction about the up vector. */
    method RotateYaw(angle: real, lib: Libm)
      modifies this
      ensures direction == Quat.FromAxisAngle(up, angle, lib).RotateVec3(old(direction))
      ensures unchanged(this`position, this`up, this`fov, this`near, this`far)
    {
      var rotation := Quat.FromAxisAngle(up, angle, lib);
      direction := rotation.RotateVec3(direction);
    }

    /** The pitch turns the direction about the right axis, then
        renormalizes it. */
    method RotatePitch(angle: real, lib: Libm)
      modifies this
      ensures direction == Quat.FromAxisAngle(old(Right(lib)), angle, lib).RotateVec3(old(direction)).Normalize(lib)
      ensures unchanged(this`position, this`up, this`fov, this`near, this`far)
    {
      var right := direction.Cross(up).Normalize(lib);
      var rotation := Quat.FromAxisAngle(right, angle, lib);
      direction := rotation.RotateVec3(direction);
      direction := direction.Normalize(lib);
    }
  }

  /** A move forward followed by a move backward by the same distance (or
      right then left) returns the camera to where it was: the moves leave
      the direction and the up vector alone, so both steps use the same
      offset. */
  lemma MoveRoundTrip(position: Vec3, axis: Vec3, dist: real)
    ensures position.Add(axis.Scale(dist)).Sub(axis.Scale(dist)) == position
    ensures position.Sub(axis.Scale(dist)).Add(axis.Scale(dist)) == position
  {
  }

  /** A zero-angle yaw, for sine and cosine that take their values at zero,
      leaves the direction as it is. */
  lemma YawByZeroAngle(up: Vec3, direction: Vec3, lib: Libm)
    requires lib.Sin(0.0) == 0.0 && lib.Cos(0.0) == 1.0
    ensures Quat.FromAxisAngle(up, 0.0, lib).RotateVec3(direction) == direction
  {
    QuatFromAxisAngleZero(up, lib);
    QuatRotateFixedPoints(Quat.IDENTITY, direction);
  }
}
