/** The older linear-algebra library of the engine
    (src/engine/primitives.rs): plain `f32` vectors and quaternions with no
    snapping, a quaternion whose `IDENTITY` is (0,0,0,1) and whose inverse
    divides the conjugate by the squared norm, 3x3 and 4x4 matrices filled by
    loops, and the `Mesh` record of positions and `u32` indices. */
module EnginePrimitives {
  import opened Numeric
  import opened Matrix

  datatype Vec2 = Vec2(x: real, y: real) {

    static const ZERO: Vec2 := Vec2(0.0, 0.0)

    function Dot(other: Vec2): real {
      x * other.x + y * other.y
    }

    function LengthSquared(): (r: real)
      ensures r >= 0.0
    {
      Dot(this)
    }

    function Length(lib: Libm): real {
      lib.Sqrt(Dot(this))
    }

    function Add(rhs: Vec2): Vec2 {
      Vec2(x + rhs.x, y + rhs.y)
    }

    function Sub(rhs: Vec2): Vec2 {
      Vec2(x - rhs.x, y - rhs.y)
    }

    /** `mul_scalar` and `Mul<f32>`, which compute the same thing. */
    function MulScalar(s: real): Vec2 {
      Vec2(x * s, y * s)
    }

    /** `div_scalar` and `Div<f32>`. */
    function DivScalar(s: real): Vec2
      requires s != 0.0
    {
      Vec2(x / s, y / s)
    }

    function Neg(): Vec2 {
      Vec2(-x, -y)
    }

    /** A vector of length zero is returned unchanged. */
    function Normalize(lib: Libm): (r: Vec2)
      ensures Length(lib) == 0.0 ==> r == this
      ensures this == ZERO ==> r == ZERO
    {
      var len := Length(lib);
      if len != 0.0 then DivScalar(len) else this
    }

    function Lerp(to: Vec2, t: real): Vec2 {
      MulScalar(1.0 - t).Add(to.MulScalar(t))
    }

    function Reflect(normal: Vec2): Vec2 {
      Sub(normal.MulScalar(2.0 * Dot(normal)))
    }
  }

  /** `lerp` starts at `self` and ends at `to`. */
  lemma Vec2LerpEndpoints(a: Vec2, b: Vec2)
    ensures a.Lerp(b, 0.0) == a
    ensures a.Lerp(b, 1.0) == b
  {
  }

  /** Adding and then subtracting a vector gives back the start. */
  lemma Vec2SubUndoesAdd(a: Vec2, b: Vec2)
    ensures a.Add(b).Sub(b) == a
    ensures a.Add(b.Neg()) == a.Sub(b)
  {
  }

  /** `div_scalar` undoes `mul_scalar`, negation is an involution and
      scales by -1, the dot product is symmetric and scales with either
      argument, and `length` is the library square root of `length_squared`. */
  lemma Vec2ScaleAndDot(a: Vec2, b: Vec2, s: real, lib: Libm)
    ensures s != 0.0 ==> a.MulScalar(s).DivScalar(s) == a
    ensures a.Neg().Neg() == a && a.Neg() == a.MulScalar(-1.0)
    ensures a.Dot(b) == b.Dot(a) && a.MulScalar(s).Dot(b) == s * a.Dot(b)
    ensures a.Length(lib) == lib.Sqrt(a.LengthSquared())
  {
  }

  /** Reflection about a unit normal flips the normal component, so
      reflecting twice gives back the vector. */
  lemma Vec2ReflectTwice(v: Vec2, n: Vec2)
    requires n.Dot(n) == 1.0
    ensures v.Reflect(n).Dot(n) == -v.Dot(n)
    ensures v.Reflect(n).Reflect(n) == v
  {
    var d := v.Dot(n);
    var k := 2.0 * d;
    var r := v.Reflect(n);
    assert r == v.Sub(n.MulScalar(k));
    ReflectedDot(v, n, k);
    assert r.Reflect(n) == r.Sub(n.MulScalar(-k));
    SubScaledTwice(v, n, k);
  }

  /** Moving v by k along a unit normal n moves its dot product with n by
      k. */
  lemma ReflectedDot(v: Vec2, n: Vec2, k: real)
    requires n.Dot(n) == 1.0
    ensures v.Sub(n.MulScalar(k)).Dot(n) == v.Dot(n) - k
  {
    assert k * (n.x * n.x + n.y * n.y) == k * 1.0;
  }

  /** Moving by k along n and then by -k along n is no move. */
  lemma SubScaledTwice(v: Vec2, n: Vec2, k: real)
    ensures v.Sub(n.MulScalar(k)).Sub(n.MulScalar(-k)) == v
  {
  }

  datatype Vec3 = Vec3(x: real, y: real, z: real) {

    static const ZERO: Vec3 := Vec3(0.0, 0.0, 0.0)
    static const X: Vec3 := Vec3(1.0, 0.0, 0.0)
    static const Y: Vec3 := Vec3(0.0, 1.0, 0.0)
    static const Z: Vec3 := Vec3(0.0, 0.0, 1.0)

    function Dot(other: Vec3): real {
      x * other.x + y * other.y + z * other.z
    }

    function LengthSquared(): (r: real)
      ensures r >= 0.0
    {
      Dot(this)
    }

    function Length(lib: Libm): real {
      lib.Sqrt(Dot(this))
    }

    function Cross(other: Vec3): Vec3 {
      Vec3(y * other.z - z * other.y, z * other.x - x * other.z, x * other.y - y * other.x)
    }

    function Add(rhs: Vec3): Vec3 {
      Vec3(x + rhs.x, y + rhs.y, z + rhs.z)
    }

    function Sub(rhs: Vec3): Vec3 {
      Vec3(x - rhs.x, y - rhs.y, z - rhs.z)
    }

    /** `Mul<f32>`. */
    function Scale(s: real): Vec3 {
      Vec3(x * s, y * s, z * s)
    }

    /** `Div<f32>`. */
    function Div(s: real): Vec3
      requires s != 0.0
    {
      Vec3(x / s, y / s, z / s)
    }

    function Neg(): Vec3 {
      Vec3(-x, -y, -z)
    }

    /** A vector of length zero is returned unchanged. */
    function Normalize(lib: Libm): (r: Vec3)
      ensures Length(lib) == 0.0 ==> r == this
      ensures this == ZERO ==> r == ZERO
    {
      var len := Length(lib);
      if len != 0.0 then Div(len) else this
    }
  }

  /** The cross product is anti-symmetric, vanishes on equal arguments and
      is orthogonal to both arguments. */
  lemma Vec3CrossProperties(a: Vec3, b: Vec3)
    ensures a.Cross(b) == b.Cross(a).Neg()
    ensures a.Cross(a) == Vec3.ZERO
    ensures a.Cross(b).Dot(a) == 0.0 && a.Cross(b).Dot(b) == 0.0
  {
  }

  lemma Vec3SubUndoesAdd(a: Vec3, b: Vec3)
    ensures a.Add(b).Sub(b) == a
    ensures a.Add(b.Neg()) == a.Sub(b)
  {
  }

  /** `Div<f32>` undoes `Mul<f32>`, negation is an involution and scales
      by -1, the dot product is symmetric and scales with either argument,
      and `length` is the library square root of `length_squared`. */
  lemma Vec3ScaleAndDot(a: Vec3, b: Vec3, s: real, lib: Libm)
    ensures s != 0.0 ==> a.Scale(s).Div(s) == a
    ensures a.Neg().Neg() == a && a.Neg() == a.Scale(-1.0)
    ensures a.Dot(b) == b.Dot(a) && a.Scale(s).Dot(b) == s * a.Dot(b)
    ensures a.Length(lib) == lib.Sqrt(a.LengthSquared())
  {
  }

  datatype Vec4 = Vec4(x: real, y: real, z: real, w: real) {

    static const ZERO: Vec4 := Vec4(0.0, 0.0, 0.0, 0.0)

    function Dot(other: Vec4): real {
      x * other.x + y * other.y + z * other.z + w * other.w
    }

    function LengthSquared(): (r: real)
      ensures r >= 0.0
    {
      Dot(this)
    }

    function Length(lib: Libm): real {
      lib.Sqrt(Dot(this))
    }

    function Add(rhs: Vec4): Vec4 {
      Vec4(x + rhs.x, y + rhs.y, z + rhs.z, w + rhs.w)
    }

    function Sub(rhs: Vec4): Vec4 {
      Vec4(x - rhs.x, y - rhs.y, z - rhs.z, w - rhs.w)
    }

    /** `mul_scalar`, which `Mul<f32>` calls. */
    function MulScalar(s: real): Vec4 {
      Vec4(x * s, y * s, z * s, w * s)
    }

    /** `div_scalar`, which `Div<f32>` calls. */
    function DivScalar(s: real): Vec4
      requires s != 0.0
    {
      Vec4(x / s, y / s, z / s, w / s)
    }

    function Neg(): Vec4 {
      Vec4(-x, -y, -z, -w)
    }

    /** A vector of length zero is returned unchanged. */
    function Normalize(lib: Libm): (r: Vec4)
      ensures Length(lib) == 0.0 ==> r == this
      ensures this == ZERO ==> r == ZERO
    {
      var len := Length(lib);
      if len != 0.0 then DivScalar(len) else this
    }
  }

  lemma Vec4SubUndoesAdd(a: Vec4, b: Vec4)
    ensures a.Add(b).Sub(b) == a
    ensures a.Add(b.Neg()) == a.Sub(b)
  {
  }

  /** `div_scalar` undoes `mul_scalar`, negation is an involution and
      scales by -1, the dot product is symmetric and scales with either
      argument, and `length` is the library square root of `length_squared`. */
  lemma Vec4ScaleAndDot(a: Vec4, b: Vec4, s: real, lib: Libm)
    ensures s != 0.0 ==> a.MulScalar(s).DivScalar(s) == a
    ensures a.Neg().Neg() == a && a.Neg() == a.MulScalar(-1.0)
    ensures a.Dot(b) == b.Dot(a) && a.MulScalar(s).Dot(b) == s * a.Dot(b)
    ensures a.Length(lib) == lib.Sqrt(a.LengthSquared())
  {
  }

  /** `a * (b + b)`: `to_mat3` doubles each coordinate (`x2 = x + x`) and
      multiplies, so every entry is built from these products. */
  function Doubled(a: real, b: real): real {
    a * (b + b)
  }

  lemma DoubledSigns(a: real, b: real)
    ensures Doubled(-a, -b) == Doubled(a, b)
    ensures Doubled(a, -b) == -Doubled(a, b)
    ensures Doubled(-a, b) == -Doubled(a, b)
  {
  }

  lemma DoubledZero(a: real)
    ensures Doubled(0.0, a) == 0.0 && Doubled(a, 0.0) == 0.0
  {
  }

  /** The rotation matrix laid out row by row from the nine doubled
      products `to_mat3` computes. */
  function RotationLayout(xx: real, yy: real, zz: real, xy: real, xz: real, yz: real,
    wx: real, wy: real, wz: real): (r: Mat)
    ensures IsSquare(r, 3)
  {
    [[1.0 - (yy + zz), xy + wz, xz - wy],
     [xy - wz, 1.0 - (xx + zz), yz + wx],
     [xz + wy, yz - wx, 1.0 - (xx + yy)]]
  }

  datatype Quat = Quat(x: real, y: real, z: real, w: real) {

    static const IDENTITY: Quat := Quat(0.0, 0.0, 0.0, 1.0)

    function Dot(other: Quat): real {
      x * other.x + y * other.y + z * other.z + w * other.w
    }

    function Length(lib: Libm): real {
      lib.Sqrt(x * x + y * y + z * z + w * w)
    }

    /** `Mul<f32>`. */
    function Scale(s: real): Quat {
      Quat(x * s, y * s, z * s, w * s)
    }

    /** `Div<f32>`. */
    function Div(s: real): Quat
      requires s != 0.0
    {
      Quat(x / s, y / s, z / s, w / s)
    }

    function Add(rhs: Quat): Quat {
      Quat(x + rhs.x, y + rhs.y, z + rhs.z, w + rhs.w)
    }

    function Sub(rhs: Quat): Quat {
      Quat(x - rhs.x, y - rhs.y, z - rhs.z, w - rhs.w)
    }

    function Neg(): Quat {
      Quat(-x, -y, -z, -w)
    }

    /** A quaternion of length zero is returned unchanged. */
    function Normalize(lib: Libm): (r: Quat)
      ensures Length(lib) == 0.0 ==> r == this
      ensures this == Quat(0.0, 0.0, 0.0, 0.0) ==> r == this
    {
      var len := Length(lib);
      if len != 0.0 then Div(len) else this
    }

    function Conjugate(): (r: Quat)
      ensures r.x == -x && r.y == -y && r.z == -z && r.w == w
    {
      Quat(-x, -y, -z, w)
    }

    /** The conjugate over the squared norm; a quaternion of norm zero is
        returned unchanged. */
    function Inverse(): (r: Quat)
      ensures Dot(this) == 0.0 ==> r == this
      ensures Dot(this) != 0.0 ==> r == Conjugate().Scale(1.0 / Dot(this))
    {
      var normSq := Dot(this);
      if normSq != 0.0 then Conjugate().Div(normSq) else this
    }

    /** The Hamilton product `self * rhs`. */
    function Mul(rhs: Quat): Quat {
      Quat(w * rhs.x + x * rhs.w + y * rhs.z - z * rhs.y,
           w * rhs.y - x * rhs.z + y * rhs.w + z * rhs.x,
           w * rhs.z + x * rhs.y - y * rhs.x + z * rhs.w,
           w * rhs.w - x * rhs.x - y * rhs.y - z * rhs.z)
    }

    /** `self * (v, 0) * self.inverse()`, keeping the vector part. */
    function RotateVec3(v: Vec3): Vec3 {
      var res := Mul(Quat(v.x, v.y, v.z, 0.0)).Mul(Inverse());
      Vec3(res.x, res.y, res.z)
    }

    /** The rotation by `angle` about the normalized `axis`. */
    static function FromAxisAngle(axis: Vec3, angle: real, lib: Libm): (r: Quat)
      ensures r.w == lib.Cos(angle * 0.5)
      ensures Vec3(r.x, r.y, r.z) == axis.Normalize(lib).Scale(lib.Sin(angle * 0.5))
      ensures Vec3(r.x, r.y, r.z).Cross(axis) == Vec3.ZERO
      ensures axis.LengthSquared() > 0.0 && axis.Length(lib) * axis.Length(lib) == axis.LengthSquared()
        && lib.Sin(angle * 0.5) * lib.Sin(angle * 0.5) + lib.Cos(angle * 0.5) * lib.Cos(angle * 0.5) == 1.0
        ==> r.Dot(r) == 1.0
    {
      var half := angle * 0.5;
      var sin := lib.Sin(half);
      var cos := lib.Cos(half);
      var v := axis.Normalize(lib).Scale(sin);
      AxisAngleParts(axis, sin, lib);
      Quat(v.x, v.y, v.z, cos)
    }

    function Lerp(other: Quat, t: real, lib: Libm): Quat {
      Scale(1.0 - t).Add(other.Scale(t)).Normalize(lib)
    }

    /** The rotation matrix, written row by row as the source lists it. */
    function ToMat3(): (r: Mat)
      ensures IsSquare(r, 3)
    {
      RotationLayout(Doubled(x, x), Doubled(y, y), Doubled(z, z),
        Doubled(x, y), Doubled(x, z), Doubled(y, z),
        Doubled(w, x), Doubled(w, y), Doubled(w, z))
    }
  }

  /** A multiple of a vector is parallel to it. */
  lemma ParallelCross(a: Vec3, k: real)
    ensures a.Scale(k).Cross(a) == Vec3.ZERO
  {
    assert (a.y * k) * a.z == (a.z * k) * a.y;
    assert (a.z * k) * a.x == (a.x * k) * a.z;
    assert (a.x * k) * a.y == (a.y * k) * a.x;
  }

  /** Scaling a vector by k scales its squared length by k * k. */
  lemma ScaledLengthSquared(a: Vec3, k: real)
    ensures a.Scale(k).LengthSquared() == k * k * a.LengthSquared()
  {
  }

  /** Dividing by `len` and then scaling by `s` is scaling by `s / len`. */
  lemma DivThenScale(a: Vec3, len: real, s: real)
    requires len != 0.0
    ensures a.Div(len).Scale(s) == a.Scale(s / len)
  {
    var k := s / len;
    assert a.x / len * s == a.x * k;
    assert a.y / len * s == a.y * k;
    assert a.z / len * s == a.z * k;
  }

  /** The square of `s / len`, times the square of `len`, is the square of `s`. */
  lemma RatioSquared(s: real, len: real)
    requires len != 0.0
    ensures (s / len) * (s / len) * (len * len) == s * s
  {
    var k := s / len;
    assert k * len == s;
    assert k * k * (len * len) == (k * len) * (k * len);
  }

  /** The vector part `from_axis_angle` builds, the normalized axis times
      the sine, is parallel to the axis, and its squared length is the
      squared sine when the library's square root is exact on the axis. */
  lemma AxisAngleParts(axis: Vec3, s: real, lib: Libm)
    ensures axis.Normalize(lib).Scale(s).Cross(axis) == Vec3.ZERO
    ensures axis.LengthSquared() > 0.0 && axis.Length(lib) * axis.Length(lib) == axis.LengthSquared()
      ==> axis.Normalize(lib).Scale(s).LengthSquared() == s * s
  {
    var len := axis.Length(lib);
    if len != 0.0 {
      DivThenScale(axis, len, s);
      ParallelCross(axis, s / len);
      ScaledLengthSquared(axis, s / len);
      RatioSquared(s, len);
    } else {
      ParallelCross(axis, s);
    }
  }

  lemma QuatConjugateInvolution(q: Quat)
    ensures q.Conjugate().Conjugate() == q
  {
  }

  /** The component-wise quaternion operations: subtraction undoes
      addition, division undoes scaling, negation is an involution, the dot
      product is symmetric and non-negative on the diagonal, and `length`
      is the library square root of it. */
  lemma QuatArithmetic(p: Quat, q: Quat, s: real, lib: Libm)
    ensures p.Add(q).Sub(q) == p && p.Add(q.Neg()) == p.Sub(q)
    ensures s != 0.0 ==> p.Scale(s).Div(s) == p
    ensures p.Neg().Neg() == p && p.Neg() == p.Scale(-1.0)
    ensures p.Dot(q) == q.Dot(p) && p.Dot(p) >= 0.0
    ensures p.Length(lib) == lib.Sqrt(p.Dot(p))
  {
  }

  /** `IDENTITY` is a unit of the Hamilton product on both sides. */
  lemma QuatIdentityIsUnit(q: Quat)
    ensures Quat.IDENTITY.Mul(q) == q
    ensures q.Mul(Quat.IDENTITY) == q
  {
  }

  /** The conjugate of a product is the product of the conjugates, swapped. */
  lemma QuatConjugateOfProduct(a: Quat, b: Quat)
    ensures a.Mul(b).Conjugate() == b.Conjugate().Mul(a.Conjugate())
  {
    assert a == Quat(a.x, a.y, a.z, a.w) && b == Quat(b.x, b.y, b.z, b.w);
    assert a.Conjugate() == Quat(-a.x, -a.y, -a.z, a.w) && b.Conjugate() == Quat(-b.x, -b.y, -b.z, b.w);
    HamiltonConjugate(a.x, a.y, a.z, a.w, b.x, b.y, b.z, b.w);
  }

  /** The identity above for quaternions given by their components. */
  lemma HamiltonConjugate(x1: real, y1: real, z1: real, w1: real, x2: real, y2: real, z2: real, w2: real)
    ensures Quat(x1, y1, z1, w1).Mul(Quat(x2, y2, z2, w2)).Conjugate()
      == Quat(-x2, -y2, -z2, w2).Mul(Quat(-x1, -y1, -z1, w1))
  {
    var l := Quat(x1, y1, z1, w1).Mul(Quat(x2, y2, z2, w2)).Conjugate();
    var r := Quat(-x2, -y2, -z2, w2).Mul(Quat(-x1, -y1, -z1, w1));
    ConjugateVectorTerm(w1, x1, y1, z1, w2, x2, y2, z2);
    ConjugateVectorTerm(w1, y1, z1, x1, w2, y2, z2, x2);
    ConjugateVectorTerm(w1, z1, x1, y1, w2, z2, x2, y2);
    ConjugateScalarTerm(w1, x1, y1, z1, w2, x2, y2, z2);
    assert l.x == r.x && l.y == r.y && l.z == r.z && l.w == r.w;
  }

  /** One vector component of the product, with its two cross terms taken
      in cyclic order (i, j, k). */
  lemma ConjugateVectorTerm(w1: real, i1: real, j1: real, k1: real, w2: real, i2: real, j2: real, k2: real)
    ensures -(w1 * i2 + i1 * w2 + j1 * k2 - k1 * j2) == w2 * (-i1) + (-i2) * w1 + (-j2) * (-k1) - (-k2) * (-j1)
  {
    ProductSigns(w2, i1); ProductSigns(i2, w1); ProductSigns(j2, k1); ProductSigns(k2, j1);
  }

  /** The scalar component of the product. */
  lemma ConjugateScalarTerm(w1: real, x1: real, y1: real, z1: real, w2: real, x2: real, y2: real, z2: real)
    ensures w1 * w2 - x1 * x2 - y1 * y2 - z1 * z2 == w2 * w1 - (-x2) * (-x1) - (-y2) * (-y1) - (-z2) * (-z1)
  {
    ProductSigns(w2, w1); ProductSigns(x2, x1); ProductSigns(y2, y1); ProductSigns(z2, z1);
  }

  /** A quaternion of non-zero norm times its inverse is the identity, on
      either side. */
  lemma QuatMulInverse(q: Quat)
    requires q.Dot(q) != 0.0
    ensures q.Mul(q.Inverse()) == Quat.IDENTITY
    ensures q.Inverse().Mul(q) == Quat.IDENTITY
  {
    var n := q.Dot(q);
    var c := 1.0 / n;
    assert n * c == 1.0;
    assert q.Inverse() == Quat(-q.x * c, -q.y * c, -q.z * c, q.w * c);
  }

  /** The inverse of the identity is the identity, so rotating by it leaves
      every vector alone; the zero vector is fixed by every rotation. */
  lemma QuatRotateFixedPoints(q: Quat, v: Vec3)
    ensures Quat.IDENTITY.Inverse() == Quat.IDENTITY
    ensures Quat.IDENTITY.RotateVec3(v) == v
    ensures q.RotateVec3(Vec3.ZERO) == Vec3.ZERO
  {
  }

  /** `lerp` starts at the normalized `self` and ends at the normalized
      `other`; interpolating a quaternion with itself only normalizes it. */
  lemma QuatLerpEndpoints(a: Quat, b: Quat, t: real, lib: Libm)
    ensures a.Lerp(b, 0.0, lib) == a.Normalize(lib)
    ensures a.Lerp(b, 1.0, lib) == b.Normalize(lib)
    ensures a.Lerp(a, t, lib) == a.Normalize(lib)
  {
    assert a.Scale(1.0 - 0.0).Add(b.Scale(0.0)) == a;
    assert a.Scale(1.0 - 1.0).Add(b.Scale(1.0)) == b;
    assert a.Scale(1.0 - t).Add(a.Scale(t)) == a;
  }

  /** The zero-angle rotation is the identity, for sine and cosine that
      take their values at zero. */
  lemma QuatFromAxisAngleZero(axis: Vec3, lib: Libm)
    requires lib.Sin(0.0) == 0.0 && lib.Cos(0.0) == 1.0
    ensures Quat.FromAxisAngle(axis, 0.0, lib) == Quat.IDENTITY
  {
  }

  /** The identity quaternion gives `Mat3::IDENTITY`. */
  lemma QuatToMat3OfIdentity()
    ensures Quat.IDENTITY.ToMat3() == Identity(3)
  {
    DoubledZero(0.0);
    DoubledZero(1.0);
    IdentityLiterals();
    assert Quat.IDENTITY.ToMat3() == RotationLayout(0.0, 0.0, 0.0, 0.0, 0.0, 0.0, 0.0, 0.0, 0.0);
  }

  lemma QuatToMat3OfConjugate(q: Quat)
    ensures q.Conjugate().ToMat3() == Transpose(q.ToMat3(), 3)
  {
    var m := q.ToMat3();
    var a := q.Conjugate().ToMat3();
    var b := Transpose(m, 3);
    var x, y, z, w := q.x, q.y, q.z, q.w;
    DoubledSigns(x, x); DoubledSigns(y, y); DoubledSigns(z, z);
    DoubledSigns(x, y); DoubledSigns(x, z); DoubledSigns(y, z);
    DoubledSigns(w, x); DoubledSigns(w, y); DoubledSigns(w, z);
    forall i | 0 <= i < 3 ensures a[i] == b[i] {
      forall j | 0 <= j < 3 ensures a[i][j] == b[i][j] {
        assert b[i][j] == m[j][i];
      }
    }
  }

  /** `Mat3::mul_vec3`: the vector times the matrix read column-wise. */
  function Mat3MulVec3(m: Mat, v: Vec3): Vec3
    requires IsSquare(m, 3)
  {
    Vec3(m[0][0] * v.x + m[1][0] * v.y + m[2][0] * v.z,
         m[0][1] * v.x + m[1][1] * v.y + m[2][1] * v.z,
         m[0][2] * v.x + m[1][2] * v.y + m[2][2] * v.z)
  }

  /** `Mat3::mul_mat3` and `Mul for Mat3`: the triple loop over a default
      (identity) result. */
  method MulMat3(a: Mat, b: Mat) returns (r: Mat)
    requires IsSquare(a, 3) && IsSquare(b, 3)
    ensures IsSquare(r, 3)
    ensures forall i, j :: 0 <= i < 3 && 0 <= j < 3 ==> r[i][j] == RowTimesColumn(a, b, 3, i, j, 3)
  {
    r := Multiply(a, b, 3);
  }

  /** `Mat4::mul_mat4` and `Mul for Mat4`. */
  method MulMat4(a: Mat, b: Mat) returns (r: Mat)
    requires IsSquare(a, 4) && IsSquare(b, 4)
    ensures IsSquare(r, 4)
    ensures forall i, j :: 0 <= i < 4 && 0 <= j < 4 ==> r[i][j] == RowTimesColumn(a, b, 4, i, j, 4)
  {
    r := Multiply(a, b, 4);
  }

  /** `Mat4::mul_vec4`: component c is the sum over rows r of data[r][c]
      times the r-th component of `v`. */
  function Mat4MulVec4(m: Mat, v: Vec4): Vec4
    requires IsSquare(m, 4)
  {
    Vec4(m[0][0] * v.x + m[1][0] * v.y + m[2][0] * v.z + m[3][0] * v.w,
         m[0][1] * v.x + m[1][1] * v.y + m[2][1] * v.z + m[3][1] * v.w,
         m[0][2] * v.x + m[1][2] * v.y + m[2][2] * v.z + m[3][2] * v.w,
         m[0][3] * v.x + m[1][3] * v.y + m[2][3] * v.z + m[3][3] * v.w)
  }

  /** Row i < 3 of the matrix `from_transform` fills. */
  function TrsRow(rot: Mat, i: nat, scale: Vec3): (row: seq<real>)
    requires IsSquare(rot, 3) && i < 3
    ensures |row| == 4 && row[3] == 0.0
  {
    [rot[i][0] * scale.x, rot[i][1] * scale.y, rot[i][2] * scale.z, 0.0]
  }

  /** `IDENTITY` maps every vector to itself, through either product. */
  lemma MulVecIdentity(u: Vec3, v: Vec4)
    ensures Mat3MulVec3(Identity(3), u) == u
    ensures Mat4MulVec4(Identity(4), v) == v
  {
    IdentityLiterals();
  }

  /** The matrix `from_transform` fills: row i < 3 is row i of the rotation
      matrix with its columns scaled by x, y and z and 0 in column 3; row 3
      is the translation followed by 1. */
  function TrsLayout(rot: Mat, translation: Vec3, scale: Vec3): (m: Mat)
    requires IsSquare(rot, 3)
    ensures IsSquare(m, 4)
    ensures m[3] == [translation.x, translation.y, translation.z, 1.0]
    ensures forall i :: 0 <= i < 3 ==> m[i][3] == 0.0
  {
    [TrsRow(rot, 0, scale), TrsRow(rot, 1, scale), TrsRow(rot, 2, scale),
     [translation.x, translation.y, translation.z, 1.0]]
  }

  /** `Mat4::from_transform`: a zero matrix filled row by row. */
  method FromTransform(translation: Vec3, rotation: Quat, scale: Vec3) returns (m: Mat)
    ensures IsSquare(m, 4)
    ensures m == TrsLayout(rotation.ToMat3(), translation, scale)
  {
    var rot := rotation.ToMat3();
    m := ScaledRotationRows(rot, scale);
    m := m[3 := m[3][0 := translation.x]];
    m := m[3 := m[3][1 := translation.y]];
    m := m[3 := m[3][2 := translation.z]];
    m := m[3 := m[3][3 := 1.0]];
    var layout := TrsLayout(rot, translation, scale);
    assert m[0] == layout[0] && m[1] == layout[1] && m[2] == layout[2] && m[3] == layout[3];
  }

  /** The loop of `from_transform`: rows 0 to 2 of a zero matrix become the
      rotation rows scaled column-wise, and row 3 stays zero. */
  method ScaledRotationRows(rot: Mat, scale: Vec3) returns (m: Mat)
    requires IsSquare(rot, 3)
    ensures IsSquare(m, 4)
    ensures forall i :: 0 <= i < 3 ==> m[i] == TrsRow(rot, i, scale)
    ensures m[3] == [0.0, 0.0, 0.0, 0.0]
  {
    m := seq(4, _ => [0.0, 0.0, 0.0, 0.0]);
    for i := 0 to 3
      invariant IsSquare(m, 4)
      invariant forall i' :: 0 <= i' < i ==> m[i'] == TrsRow(rot, i', scale)
      invariant m[3] == [0.0, 0.0, 0.0, 0.0]
    {
      var row := m[i];
      assert |row| == 4;
      row := row[0 := rot[i][0] * scale.x];
      row := row[1 := rot[i][1] * scale.y];
      row := row[2 := rot[i][2] * scale.z];
      row := row[3 := 0.0];
      var want := TrsRow(rot, i, scale);
      assert row[0] == want[0];
      assert row[1] == want[1];
      assert row[2] == want[2];
      assert row[3] == want[3];
      assert row == want;
      m := m[i := row];
    }
  }

  /** Under `mul_vec4`, the translation is added in proportion to w, and w
      itself is kept. */
  lemma TrsTranslates(rot: Mat, t: Vec3, scale: Vec3, v: Vec4)
    requires IsSquare(rot, 3)
    ensures Mat4MulVec4(TrsLayout(rot, t, scale), v)
      == Mat4MulVec4(TrsLayout(rot, Vec3.ZERO, scale), v).Add(Vec4(t.x * v.w, t.y * v.w, t.z * v.w, 0.0))
    ensures Mat4MulVec4(TrsLayout(rot, t, scale), v).w == v.w
  {
    var m, n := TrsLayout(rot, t, scale), TrsLayout(rot, Vec3.ZERO, scale);
    assert m[0] == n[0] && m[1] == n[1] && m[2] == n[2];
    assert n[3] == [0.0, 0.0, 0.0, 1.0];
    RowThreeTranslates(m, n, t, v);
  }

  /** Two 4x4 matrices that differ only in row 3, the second's being
      (0, 0, 0, 1), differ under `mul_vec4` by row 3 scaled by w; with 0 in
      column 3 above a final 1, w is kept. */
  lemma RowThreeTranslates(m: Mat, n: Mat, t: Vec3, v: Vec4)
    requires IsSquare(m, 4) && IsSquare(n, 4)
    requires m[0] == n[0] && m[1] == n[1] && m[2] == n[2]
    requires n[3] == [0.0, 0.0, 0.0, 1.0] && m[3] == [t.x, t.y, t.z, 1.0]
    requires m[0][3] == 0.0 && m[1][3] == 0.0 && m[2][3] == 0.0
    ensures Mat4MulVec4(m, v) == Mat4MulVec4(n, v).Add(Vec4(t.x * v.w, t.y * v.w, t.z * v.w, 0.0))
    ensures Mat4MulVec4(m, v).w == v.w
  {
  }

  /** A point (w = 1) is moved by the translation; a direction (w = 0)
      ignores it. */
  lemma TrsPointsAndDirections(rot: Mat, t: Vec3, scale: Vec3, p: Vec3)
    requires IsSquare(rot, 3)
    ensures Mat4MulVec4(TrsLayout(rot, t, scale), Vec4(p.x, p.y, p.z, 1.0))
      == Mat4MulVec4(TrsLayout(rot, Vec3.ZERO, scale), Vec4(p.x, p.y, p.z, 1.0)).Add(Vec4(t.x, t.y, t.z, 0.0))
    ensures Mat4MulVec4(TrsLayout(rot, t, scale), Vec4(p.x, p.y, p.z, 0.0))
      == Mat4MulVec4(TrsLayout(rot, Vec3.ZERO, scale), Vec4(p.x, p.y, p.z, 0.0))
  {
    TrsTranslates(rot, t, scale, Vec4(p.x, p.y, p.z, 1.0));
    TrsTranslates(rot, t, scale, Vec4(p.x, p.y, p.z, 0.0));
  }

  /** The rotation matrix of `Quat::IDENTITY` (see `QuatToMat3OfIdentity`)
      with unit scale leaves only the translation: no translation gives
      `Mat4::IDENTITY`, and otherwise points are shifted by it. */
  lemma TrsOfIdentityRotation(t: Vec3, p: Vec3)
    ensures TrsLayout(Identity(3), t, Vec3(1.0, 1.0, 1.0))
      == [[1.0, 0.0, 0.0, 0.0], [0.0, 1.0, 0.0, 0.0], [0.0, 0.0, 1.0, 0.0], [t.x, t.y, t.z, 1.0]]
    ensures TrsLayout(Identity(3), Vec3.ZERO, Vec3(1.0, 1.0, 1.0)) == Identity(4)
    ensures Mat4MulVec4(TrsLayout(Identity(3), t, Vec3(1.0, 1.0, 1.0)), Vec4(p.x, p.y, p.z, 1.0))
      == Vec4(p.x + t.x, p.y + t.y, p.z + t.z, 1.0)
  {
    IdentityLiterals();
    var rot, one := Identity(3), Vec3(1.0, 1.0, 1.0);
    assert TrsRow(rot, 0, one) == [1.0, 0.0, 0.0, 0.0];
    assert TrsRow(rot, 1, one) == [0.0, 1.0, 0.0, 0.0];
    assert TrsRow(rot, 2, one) == [0.0, 0.0, 1.0, 0.0];
  }

  /** `Mesh`: positions and `u32` indices, both empty by default. */
  datatype Mesh = Mesh(vertices: seq<Vec3>, indices: seq<u32>) {
    static const DEFAULT: Mesh := Mesh([], [])

    /** `Mesh::new` keeps both buffers as given. */
    static function New(vertices: seq<Vec3>, indices: seq<u32>): (m: Mesh)
      ensures m.vertices == vertices && m.indices == indices
    {
      Mesh(vertices, indices)
    }
  }

  /** The default mesh is the one `Mesh::new` builds from two empty
      buffers, and every mesh is rebuilt by `Mesh::new` from its own
      buffers. */
  lemma MeshDefaultAndNew(m: Mesh)
    ensures Mesh.DEFAULT == Mesh.New([], []) && |Mesh.DEFAULT.vertices| == 0 && |Mesh.DEFAULT.indices| == 0
    ensures Mesh.New(m.vertices, m.indices) == m
  {
  }
}
