/** The current linear-algebra library of the engine
    (src/engine/core/primitives.rs): a `Vec3` whose constructor and
    arithmetic snap tiny components to zero and round to three decimals,
    a quaternion whose `ZERO` constant is the identity rotation, and
    row-major 3x3 and 4x4 matrices. */
module CorePrimitives {
  import opened Numeric
  import opened Matrix

  const CLEAN_EPSILON: real := 0.001

  /** `clean_f32`: magnitudes below 1e-3 become 0, everything else is
      rounded to the nearest thousandth. */
  function CleanF32(value: real): (r: real)
    ensures r == 0.0 <==> Abs(value) < CLEAN_EPSILON
    ensures r == 0.0 || Abs(r) >= CLEAN_EPSILON
    ensures Abs(value) >= CLEAN_EPSILON ==> Abs(r - value) <= CLEAN_EPSILON / 2.0
  {
    if Abs(value) < CLEAN_EPSILON then 0.0 else (Round(value * 1000.0) as real) / 1000.0
  }

  /** Cleaning a cleaned value changes nothing. */
  lemma CleanF32Idempotent(value: real)
    ensures CleanF32(CleanF32(value)) == CleanF32(value)
  {
    var r := CleanF32(value);
    if r != 0.0 {
      var k := Round(value * 1000.0);
      assert r == k as real / 1000.0;
      assert r * 1000.0 == k as real;
      RoundInteger(k);
    }
  }

  /** Rounding halves away from zero makes cleaning odd. */
  lemma CleanF32Odd(value: real)
    ensures CleanF32(-value) == -CleanF32(value)
  {
    if Abs(value) >= CLEAN_EPSILON {
      assert Round(-value * 1000.0) == -Round(value * 1000.0);
    }
  }

  /** Every component is 0 or at least 1e-3 in magnitude. */
  predicate IsClean(c: real) {
    c == 0.0 || Abs(c) >= CLEAN_EPSILON
  }

  datatype Vec3 = Vec3(x: real, y: real, z: real) {

    static const ZERO: Vec3 := Vec3(0.0, 0.0, 0.0)
    static const IDENTITY: Vec3 := Vec3(1.0, 1.0, 1.0)
    static const X: Vec3 := Vec3(1.0, 0.0, 0.0)
    static const Y: Vec3 := Vec3(0.0, 1.0, 0.0)
    static const Z: Vec3 := Vec3(0.0, 0.0, 1.0)

    predicate Cleaned() {
      IsClean(x) && IsClean(y) && IsClean(z)
    }

    function Clean(): (r: Vec3)
      ensures r.Cleaned()
    {
      Vec3(CleanF32(x), CleanF32(y), CleanF32(z))
    }

    /** `Vec3::new` cleans its arguments. */
    static function New(x: real, y: real, z: real): (r: Vec3)
      ensures r.Cleaned()
    {
      Vec3(x, y, z).Clean()
    }

    function Dot(other: Vec3): real {
      x * other.x + y * other.y + z * other.z
    }

    function Length(lib: Libm): real {
      lib.Sqrt(Dot(this))
    }

    /** `cross` builds the struct directly, without cleaning. */
    function Cross(other: Vec3): Vec3 {
      Vec3(y * other.z - z * other.y, z * other.x - x * other.z, x * other.y - y * other.x)
    }

    function Add(rhs: Vec3): (r: Vec3)
      ensures r.Cleaned()
    {
      New(x + rhs.x, y + rhs.y, z + rhs.z)
    }

    function Sub(rhs: Vec3): (r: Vec3)
      ensures r.Cleaned()
    {
      New(x - rhs.x, y - rhs.y, z - rhs.z)
    }

    /** `Mul<f32>`. */
    function Scale(s: real): (r: Vec3)
      ensures r.Cleaned()
    {
      Vec3(x * s, y * s, z * s).Clean()
    }

    /** `Div<f32>`. */
    function Div(s: real): (r: Vec3)
      requires s != 0.0
      ensures r.Cleaned()
    {
      Vec3(x / s, y / s, z / s).Clean()
    }

    function Neg(): (r: Vec3)
      ensures r.Cleaned()
    {
      New(-x, -y, -z)
    }

    /** A vector of length zero comes back unchanged; the zero vector stays
        zero whatever the square root returns. */
    function Normalize(lib: Libm): (r: Vec3)
      ensures Length(lib) == 0.0 ==> r == this
      ensures Length(lib) != 0.0 ==> r.Cleaned()
      ensures this == ZERO ==> r == ZERO
    {
      var len := Length(lib);
      if len != 0.0 then Div(len) else this
    }
  }

  /** A vector built by `Vec3::new` is left alone by cleaning again. */
  lemma CleanVectorIsStable(v: Vec3)
    ensures v.Clean().Clean() == v.Clean()
  {
    CleanF32Idempotent(v.x);
    CleanF32Idempotent(v.y);
    CleanF32Idempotent(v.z);
  }

  /** Negating a vector that cleaning leaves alone is exact. */
  lemma NegOfStableVector(v: Vec3)
    requires v.Clean() == v
    ensures v.Neg() == Vec3(-v.x, -v.y, -v.z)
  {
    CleanF32Odd(v.x);
    CleanF32Odd(v.y);
    CleanF32Odd(v.z);
  }

  /** Cleaning a vector whose components are integers is the identity. */
  lemma CleanIntegerVector(a: int, b: int, c: int)
    ensures Vec3.New(a as real, b as real, c as real) == Vec3(a as real, b as real, c as real)
  {
    RoundInteger(a * 1000);
    RoundInteger(b * 1000);
    RoundInteger(c * 1000);
  }

  /** A vector crossed with itself is zero. */
  lemma CrossSelfIsZero(a: Vec3)
    ensures a.Cross(a) == Vec3.ZERO
  {
  }

  /** Unlike the other operations, `cross` can produce a component below the
      cleaning threshold. */
  lemma CrossIsNotCleaned()
    ensures Vec3(0.01, 0.0, 0.0).Cleaned() && Vec3(0.0, 0.01, 0.0).Cleaned()
    ensures !Vec3(0.01, 0.0, 0.0).Cross(Vec3(0.0, 0.01, 0.0)).Cleaned()
  {
  }

  datatype Quat = Quat(x: real, y: real, z: real, w: real) {

    /** Despite its name, `Quat::ZERO` is the identity rotation. */
    static const ZERO: Quat := Quat(0.0, 0.0, 0.0, 1.0)

    function Dot(other: Quat): real {
      x * other.x + y * other.y + z * other.z + w * other.w
    }

    function Length(lib: Libm): real {
      lib.Sqrt(x * x + y * y + z * z + w * w)
    }

    function Scale(s: real): Quat {
      Quat(x * s, y * s, z * s, w * s)
    }

    function Div(s: real): Quat
      requires s != 0.0
    {
      Quat(x / s, y / s, z / s, w / s)
    }

    function Add(rhs: Quat): Quat {
      Quat(x + rhs.x, y + rhs.y, z + rhs.z, w + rhs.w)
    }

    function Sub(rhs: Quat): Quat {
      Quat(x - rhs.x, y - rhs.y, z - rhs.z, w - rhs.w)
    }

    function Neg(): Quat {
      Quat(-x, -y, -z, -w)
    }

    function Normalize(lib: Libm): (r: Quat)
      ensures Length(lib) == 0.0 ==> r == this
      ensures this == Quat(0.0, 0.0, 0.0, 0.0) ==> r == this
    {
      var len := Length(lib);
      if len != 0.0 then Div(len) else this
    }

    function Conjugate(): (r: Quat)
      ensures r.w == w && r.x == -x && r.y == -y && r.z == -z
    {
      Quat(-x, -y, -z, w)
    }

    /** The Hamilton product `self * rhs`. */
    function Mul(rhs: Quat): Quat {
      Quat(w * rhs.x + x * rhs.w + y * rhs.z - z * rhs.y,
           w * rhs.y - x * rhs.z + y * rhs.w + z * rhs.x,
           w * rhs.z + x * rhs.y - y * rhs.x + z * rhs.w,
           w * rhs.w - x * rhs.x - y * rhs.y - z * rhs.z)
    }

    static function FromAxisAngle(axis: Vec3, angle: real, lib: Libm): Quat {
      var half := angle * 0.5;
      var s := lib.Sin(half);
      var c := lib.Cos(half);
      var a := axis.Normalize(lib);
      Quat(a.x * s, a.y * s, a.z * s, c)
    }

    function Lerp(other: Quat, t: real, lib: Libm): Quat {
      Scale(1.0 - t).Add(other.Scale(t)).Normalize(lib)
    }

    /** The rotation matrix of the quaternion, in the column-vector layout. */
    function ToMat3(): (r: Mat)
      ensures IsSquare(r, 3)
    {
      [[1.0 - 2.0 * (y * y) - 2.0 * (z * z), 2.0 * (x * y) - 2.0 * (w * z), 2.0 * (x * z) + 2.0 * (w * y)],
       [2.0 * (x * y) + 2.0 * (w * z), 1.0 - 2.0 * (x * x) - 2.0 * (z * z), 2.0 * (y * z) - 2.0 * (w * x)],
       [2.0 * (x * z) - 2.0 * (w * y), 2.0 * (y * z) + 2.0 * (w * x), 1.0 - 2.0 * (x * x) - 2.0 * (y * y)]]
    }

    /** `Mul<Vec3>`: v + 2s(u x v) + 2(u x (u x v)), through the cleaning
        `Vec3` operations (u itself is built with `Vec3::new`). */
    function Rotate(v: Vec3): Vec3 {
      var u := Vec3.New(x, y, z);
      var cross1 := u.Cross(v);
      var cross2 := u.Cross(cross1);
      v.Add(cross1.Scale(2.0 * w)).Add(cross2.Scale(2.0))
    }
  }

  /** Conjugation is an involution. */
  lemma ConjugateInvolution(q: Quat)
    ensures q.Conjugate().Conjugate() == q
  {
  }

  /** `Quat::ZERO` is a two-sided unit of the Hamilton product. */
  lemma QuatZeroIsUnit(q: Quat)
    ensures Quat.ZERO.Mul(q) == q
    ensures q.Mul(Quat.ZERO) == q
  {
  }

  /** The component-wise quaternion operations, which do not clean:
      subtraction undoes addition, division undoes scaling, negation is an
      involution, and the dot product is symmetric and gives the squared
      norm under the square root of `length`. */
  lemma QuatArithmetic(p: Quat, q: Quat, s: real, lib: Libm)
    ensures p.Add(q).Sub(q) == p && p.Add(q.Neg()) == p.Sub(q)
    ensures s != 0.0 ==> p.Scale(s).Div(s) == p
    ensures p.Neg().Neg() == p && p.Neg() == p.Scale(-1.0)
    ensures p.Dot(q) == q.Dot(p) && p.Dot(p) >= 0.0
    ensures p.Length(lib) == lib.Sqrt(p.Dot(p))
  {
  }

  /** `lerp` at t = 0 and t = 1 gives the normalized endpoints, and between
      a quaternion and itself it gives that quaternion normalized. */
  lemma QuatLerpEndpoints(a: Quat, b: Quat, t: real, lib: Libm)
    ensures a.Lerp(b, 0.0, lib) == a.Normalize(lib)
    ensures a.Lerp(b, 1.0, lib) == b.Normalize(lib)
    ensures a.Lerp(a, t, lib) == a.Normalize(lib)
  {
    assert a.Scale(1.0 - 0.0).Add(b.Scale(0.0)) == a;
    assert a.Scale(1.0 - 1.0).Add(b.Scale(1.0)) == b;
    assert a.Scale(1.0 - t).Add(a.Scale(t)) == a;
  }

  /** For sine and cosine that take their values at zero, the zero angle
      gives `Quat::ZERO`, the identity rotation, whatever the axis. */
  lemma FromAxisAngleOfZero(axis: Vec3, lib: Libm)
    requires lib.Sin(0.0) == 0.0 && lib.Cos(0.0) == 1.0
    ensures Quat.FromAxisAngle(axis, 0.0, lib) == Quat.ZERO
  {
  }

  /** The dot product is symmetric, a vector's dot with itself is never
      negative, and `length` is the library square root of it. */
  lemma DotFacts(a: Vec3, b: Vec3, lib: Libm)
    ensures a.Dot(b) == b.Dot(a)
    ensures a.Dot(a) >= 0.0
    ensures a.Length(lib) == lib.Sqrt(a.Dot(a))
  {
  }

  /** The matrix of the conjugate is the transpose of the matrix. */
  lemma ToMat3OfConjugate(q: Quat)
    ensures q.Conjugate().ToMat3() == Transpose(q.ToMat3(), 3)
  {
    var m := q.ToMat3();
    TransposeOfThree(m);
    var x, y, z, w := q.x, q.y, q.z, q.w;
    ProductSigns(x, x); ProductSigns(y, y); ProductSigns(z, z);
    ProductSigns(x, y); ProductSigns(x, z); ProductSigns(y, z);
    ProductSigns(w, x); ProductSigns(w, y); ProductSigns(w, z);
    var a := q.Conjugate().ToMat3();
    assert a[0][0] == m[0][0] && a[0][1] == m[1][0] && a[0][2] == m[2][0];
    assert a[1][0] == m[0][1] && a[1][1] == m[1][1] && a[1][2] == m[2][1];
    assert a[2][0] == m[0][2] && a[2][1] == m[1][2] && a[2][2] == m[2][2];
    assert a[0] == [m[0][0], m[1][0], m[2][0]];
    assert a[1] == [m[0][1], m[1][1], m[2][1]];
    assert a[2] == [m[0][2], m[1][2], m[2][2]];
  }

  /** `Quat::ZERO.to_mat3()` is `Mat3::IDENTITY`. */
  lemma ToMat3OfZero()
    ensures Quat.ZERO.ToMat3() == Identity(3)
  {
    var a := Quat.ZERO.ToMat3();
    var b := Identity(3);
    forall i | 0 <= i < 3 ensures a[i] == b[i] {
      assert |a[i]| == |b[i]| == 3;
    }
  }

  /** The identity rotation leaves the three unit axes (and minus Z) exactly
      where they are, cleaning included. */
  lemma RotateAxesByZero()
    ensures Quat.ZERO.Rotate(Vec3.X) == Vec3.X
    ensures Quat.ZERO.Rotate(Vec3.Y) == Vec3.Y
    ensures Quat.ZERO.Rotate(Vec3.Z.Neg()) == Vec3(0.0, 0.0, -1.0)
  {
    CleanIntegerVector(0, 0, -1);
    RotateIntegerByZero(1, 0, 0);
    RotateIntegerByZero(0, 1, 0);
    RotateIntegerByZero(0, 0, -1);
  }

  /** The identity rotation keeps a vector with integer components. */
  lemma RotateIntegerByZero(a: int, b: int, c: int)
    ensures Quat.ZERO.Rotate(Vec3(a as real, b as real, c as real)) == Vec3(a as real, b as real, c as real)
  {
    var v := Vec3(a as real, b as real, c as real);
    CleanIntegerVector(0, 0, 0);
    CleanIntegerVector(a, b, c);
    var u := Vec3.New(0.0, 0.0, 0.0);
    assert u == Vec3.ZERO;
    assert u.Cross(v) == Vec3.ZERO;
    assert u.Cross(Vec3.ZERO) == Vec3.ZERO;
    assert Vec3.ZERO.Scale(2.0) == Vec3.ZERO;
    assert v.Add(Vec3.ZERO) == Vec3.New(a as real, b as real, c as real);
  }

  /** `Mat4::from_transform`: the rotation matrix read column-wise, each
      column scaled by one component of the scale, the position in column 3
      and (0, 0, 0, 1) as the last row. */
  function FromTransform(position: Vec3, rotation: Quat, scale: Vec3): (r: Mat)
    ensures IsSquare(r, 4)
  {
    var rot := rotation.ToMat3();
    [[rot[0][0] * scale.x, rot[1][0] * scale.y, rot[2][0] * scale.z, position.x],
     [rot[0][1] * scale.x, rot[1][1] * scale.y, rot[2][1] * scale.z, position.y],
     [rot[0][2] * scale.x, rot[1][2] * scale.y, rot[2][2] * scale.z, position.z],
     [0.0, 0.0, 0.0, 1.0]]
  }

  /** The layout of the model matrix: homogeneous last row, translation in
      column 3, and with unit scale an upper block equal to the transposed
      rotation matrix, which is the matrix of the conjugate rotation. */
  lemma FromTransformLayout(position: Vec3, rotation: Quat, scale: Vec3)
    ensures FromTransform(position, rotation, scale)[3] == [0.0, 0.0, 0.0, 1.0]
    ensures FromTransform(position, rotation, scale)[0][3] == position.x
    ensures FromTransform(position, rotation, scale)[1][3] == position.y
    ensures FromTransform(position, rotation, scale)[2][3] == position.z
    ensures scale == Vec3.IDENTITY ==>
      forall i, j :: 0 <= i < 3 && 0 <= j < 3 ==>
        FromTransform(position, rotation, scale)[i][j] == rotation.Conjugate().ToMat3()[i][j]
  {
    ToMat3OfConjugate(rotation);
  }

  /** Position zero, rotation `Quat::ZERO`, scale one: the identity. */
  lemma FromTransformOfIdentity()
    ensures FromTransform(Vec3.ZERO, Quat.ZERO, Vec3.IDENTITY) == Identity(4)
  {
    ToMat3OfZero();
    var a := FromTransform(Vec3.ZERO, Quat.ZERO, Vec3.IDENTITY);
    var b := Identity(4);
    forall i | 0 <= i < 4 ensures a[i] == b[i] {
      assert |a[i]| == |b[i]| == 4;
    }
  }

  /** `Mat3::mul_mat3`. */
  method MulMat3(a: Mat, b: Mat) returns (r: Mat)
    requires IsSquare(a, 3) && IsSquare(b, 3)
    ensures IsSquare(r, 3)
    ensures forall i, j :: 0 <= i < 3 && 0 <= j < 3 ==> r[i][j] == RowTimesColumn(a, b, 3, i, j, 3)
  {
    r := Multiply(a, b, 3);
  }

  /** `Mat4::to_uniform`: every entry is copied to its mirror position. */
  method ToUniform(m: Mat) returns (r: Mat)
    requires IsSquare(m, 4)
    ensures r == Transpose(m, 4)
  {
    r := Identity(4);
    for i := 0 to 4
      invariant IsSquare(r, 4)
      invariant forall i', j :: 0 <= i' < i && 0 <= j < 4 ==> r[j][i'] == m[i'][j]
    {
      for j := 0 to 4
        invariant IsSquare(r, 4)
        invariant forall i', j' :: 0 <= i' < i && 0 <= j' < 4 ==> r[j'][i'] == m[i'][j']
        invariant forall j' :: 0 <= j' < j ==> r[j'][i] == m[i][j']
      {
        r := r[j := r[j][i := m[i][j]]];
      }
    }
    var t := Transpose(m, 4);
    forall k | 0 <= k < 4 ensures r[k] == t[k] {
      assert |r[k]| == |t[k]| == 4;
    }
  }

  /** `Mul for Mat4`: each entry is the four-term row-by-column sum. */
  method MulMat4(a: Mat, b: Mat) returns (r: Mat)
    requires IsSquare(a, 4) && IsSquare(b, 4)
    ensures IsSquare(r, 4)
    ensures forall i, j :: 0 <= i < 4 && 0 <= j < 4 ==> r[i][j] == RowTimesColumn(a, b, 4, i, j, 4)
  {
    r := Identity(4);
    for row := 0 to 4
      invariant IsSquare(r, 4)
      invariant forall i, j :: 0 <= i < row && 0 <= j < 4 ==> r[i][j] == RowTimesColumn(a, b, 4, i, j, 4)
    {
      for col := 0 to 4
        invariant IsSquare(r, 4)
        invariant forall i, j :: 0 <= i < row && 0 <= j < 4 ==> r[i][j] == RowTimesColumn(a, b, 4, i, j, 4)
        invariant forall j :: 0 <= j < col ==> r[row][j] == RowTimesColumn(a, b, 4, row, j, 4)
      {
        var sum := a[row][0] * b[0][col] + a[row][1] * b[1][col] + a[row][2] * b[2][col] + a[row][3] * b[3][col];
        RowTimesColumnOfFour(a, b, row, col);
        assert sum == Term(a, b, 4, row, col, 0) + Term(a, b, 4, row, col, 1)
          + Term(a, b, 4, row, col, 2) + Term(a, b, 4, row, col, 3);
        r := r[row := r[row][col := sum]];
      }
    }
  }
}
