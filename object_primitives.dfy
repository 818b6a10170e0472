/** The second-generation point and vector of
    src/engine/objects/primitives.rs: structs with named fields, mutated in
    place, plus the planar rotations of `Vec3`, whose results are rounded to
    three decimals by `round_to_threshold` (src/utils.rs). */
module ObjectPrimitives {
  import opened Numeric
  import opened Coordinates

  /** `DEG_TO_RAD`. */
  const DEG_TO_RAD: real := PI / 180.0

  /** `10_f32.powi(ROUND_THRESHOLD)` with `ROUND_THRESHOLD` = 3. */
  const ROUND_FACTOR: real := 1000.0

  /** `round_to_threshold`: the nearest multiple of 1/1000, halves rounded
      away from zero. */
  function RoundToThreshold(x: real): (r: real)
    ensures Abs(r - x) <= 0.5 / ROUND_FACTOR
  {
    (Round(x * ROUND_FACTOR) as real) / ROUND_FACTOR
  }

  /** Rounding twice rounds once; multiples of 1/1000 are left alone. */
  lemma RoundToThresholdIdempotent(x: real)
    ensures RoundToThreshold(RoundToThreshold(x)) == RoundToThreshold(x)
    ensures RoundToThreshold(0.0) == 0.0
  {
    var k := Round(x * ROUND_FACTOR);
    assert RoundToThreshold(x) * ROUND_FACTOR == k as real;
    RoundInteger(k);
    RoundInteger(0);
  }

  /** An angle in degrees converted to radians. */
  function Radians(degrees: real): real {
    degrees * DEG_TO_RAD
  }

  /** The two coordinates of (a, b) turned by the angle whose cosine and
      sine are given. */
  function TurnedFirst(a: real, b: real, cos: real, sin: real): real {
    a * cos - b * sin
  }

  function TurnedSecond(a: real, b: real, cos: real, sin: real): real {
    a * sin + b * cos
  }

  /** The planar rotation by `angle` degrees of the pair (a, b), each
      result rounded: (a cos - b sin, a sin + b cos). */
  function RotatePair(a: real, b: real, angle: real, lib: Libm): (real, real) {
    var cos := lib.Cos(Radians(angle));
    var sin := lib.Sin(Radians(angle));
    (RoundToThreshold(TurnedFirst(a, b, cos, sin)), RoundToThreshold(TurnedSecond(a, b, cos, sin)))
  }

  /** A zero-degree rotation, for sine and cosine that take their values at
      zero, only rounds the pair. */
  lemma RotatePairByZero(a: real, b: real, lib: Libm)
    requires lib.Sin(Radians(0.0)) == 0.0 && lib.Cos(Radians(0.0)) == 1.0
    ensures RotatePair(a, b, 0.0, lib) == (RoundToThreshold(a), RoundToThreshold(b))
  {
  }

  /** A quarter turn, for sine and cosine that take their values at PI/2,
      maps (a, b) to (-b, a), rounded. */
  lemma RotatePairQuarterTurn(a: real, b: real, lib: Libm)
    requires lib.Sin(Radians(90.0)) == 1.0 && lib.Cos(Radians(90.0)) == 0.0
    ensures RotatePair(a, b, 90.0, lib) == (RoundToThreshold(-b), RoundToThreshold(a))
  {
    var cos := lib.Cos(Radians(90.0));
    var sin := lib.Sin(Radians(90.0));
    assert TurnedFirst(a, b, cos, sin) == -b;
    assert TurnedSecond(a, b, cos, sin) == a;
  }

  /** A value within half a thousandth of k/1000 rounds to exactly k/1000:
      rounding absorbs small errors of the inputs. */
  lemma RoundToThresholdNear(x: real, k: int)
    requires Abs(x * ROUND_FACTOR - k as real) < 0.5
    ensures RoundToThreshold(x) == k as real / ROUND_FACTOR
  {
    var r := Round(x * ROUND_FACTOR);
    assert Abs(r as real - x * ROUND_FACTOR) <= 0.5;
    assert -1 < r - k < 1;
  }

  /** The values src/tests.rs expects of the quarter-turn rotations and of
      `scale`.  Each rotation test turns the unit vector of its plane's
      first axis, (1, 0), to (0, 1); it does so whenever sine and cosine at
      90 degrees are within half a thousandth of 1 and 0, as the rounding
      then absorbs the error of `f32` sine and cosine. */
  lemma ObjectTestValues(lib: Libm)
    requires Abs(lib.Cos(Radians(90.0))) < 0.0005
    requires Abs(lib.Sin(Radians(90.0)) - 1.0) < 0.0005
    ensures RotatePair(1.0, 0.0, 90.0, lib) == (0.0, 1.0)
    ensures Coords(1.0, 2.0, 3.0).Times(Coords(2.0, 0.5, -1.0)) == Coords(2.0, 1.0, -3.0)
  {
    var cos := lib.Cos(Radians(90.0));
    var sin := lib.Sin(Radians(90.0));
    assert TurnedFirst(1.0, 0.0, cos, sin) == cos;
    assert TurnedSecond(1.0, 0.0, cos, sin) == sin;
    RoundToThresholdNear(cos, 0);
    RoundToThresholdNear(sin, 1000);
  }

  class Point {
    var x: real
    var y: real
    var z: real

    function Coordinates(): Coords
      reads this
    {
      Coords(x, y, z)
    }

    /** `Point::new`. */
    constructor (x: real, y: real, z: real)
      ensures Coordinates() == Coords(x, y, z)
    {
      this.x, this.y, this.z := x, y, z;
    }

    constructor Default()
      ensures Coordinates() == Coords.ORIGIN
    {
      x, y, z := 0.0, 0.0, 0.0;
    }

    method AddVector(vector: Vec3)
      modifies this
      ensures Coordinates() == old(Coordinates()).Plus(vector.Coordinates())
    {
      x := x + vector.x;
      y := y + vector.y;
      z := z + vector.z;
    }

    method SubtractVector(vector: Vec3)
      modifies this
      ensures Coordinates() == old(Coordinates()).Minus(vector.Coordinates())
    {
      x := x - vector.x;
      y := y - vector.y;
      z := z - vector.z;
    }

    method Set(x: real, y: real, z: real)
      modifies this
      ensures Coordinates() == Coords(x, y, z)
    {
      this.x := x;
      this.y := y;
      this.z := z;
    }

    method AddPoint(point: Point)
      modifies this
      ensures Coordinates() == old(Coordinates()).Plus(old(point.Coordinates()))
    {
      var px, py, pz := point.x, point.y, point.z;
      x := x + px;
      y := y + py;
      z := z + pz;
    }

    method SubtractPoint(point: Point)
      modifies this
      ensures Coordinates() == old(Coordinates()).Minus(old(point.Coordinates()))
    {
      var px, py, pz := point.x, point.y, point.z;
      x := x - px;
      y := y - py;
      z := z - pz;
    }

    method ToVec3() returns (v: Vec3)
      ensures fresh(v) && v.Coordinates() == Coordinates()
    {
      v := new Vec3(x, y, z);
    }
  }

  class Vec3 {
    var x: real
    var y: real
    var z: real

    function Coordinates(): Coords
      reads this
    {
      Coords(x, y, z)
    }

    /** `Vec3::new`. */
    constructor (x: real, y: real, z: real)
      ensures Coordinates() == Coords(x, y, z)
    {
      this.x, this.y, this.z := x, y, z;
    }

    constructor Default()
      ensures Coordinates() == Coords.ORIGIN
    {
      x, y, z := 0.0, 0.0, 0.0;
    }

    method AddVector(vector: Vec3)
      modifies this
      ensures Coordinates() == old(Coordinates()).Plus(old(vector.Coordinates()))
    {
      var vx, vy, vz := vector.x, vector.y, vector.z;
      x := x + vx;
      y := y + vy;
      z := z + vz;
    }

    method SubtractVector(vector: Vec3)
      modifies this
      ensures Coordinates() == old(Coordinates()).Minus(old(vector.Coordinates()))
    {
      var vx, vy, vz := vector.x, vector.y, vector.z;
      x := x - vx;
      y := y - vy;
      z := z - vz;
    }

    method Set(x: real, y: real, z: real)
      modifies this
      ensures Coordinates() == Coords(x, y, z)
    {
      this.x := x;
      this.y := y;
      this.z := z;
    }

    method ToPoint() returns (p: Point)
      ensures fresh(p) && p.Coordinates() == Coordinates()
    {
      p := new Point(x, y, z);
    }

    /** Rotation in the xy plane: z is untouched. */
    method RotateXY(angle: real, lib: Libm)
      modifies this
      ensures (x, y) == RotatePair(old(x), old(y), angle, lib)
      ensures unchanged(this`z)
    {
      var rad := Radians(angle);
      var cos := lib.Cos(rad);
      var sin := lib.Sin(rad);
      var nx := TurnedFirst(x, y, cos, sin);
      var ny := TurnedSecond(x, y, cos, sin);
      x := RoundToThreshold(nx);
      y := RoundToThreshold(ny);
    }

    /** Rotation in the yz plane: x is untouched. */
    method RotateYZ(angle: real, lib: Libm)
      modifies this
      ensures (y, z) == RotatePair(old(y), old(z), angle, lib)
      ensures unchanged(this`x)
    {
      var rad := Radians(angle);
      var cos := lib.Cos(rad);
      var sin := lib.Sin(rad);
      var ny := TurnedFirst(y, z, cos, sin);
      var nz := TurnedSecond(y, z, cos, sin);
      y := RoundToThreshold(ny);
      z := RoundToThreshold(nz);
    }

    /** Rotation in the xz plane: y is untouched. */
    method RotateXZ(angle: real, lib: Libm)
      modifies this
      ensures (x, z) == RotatePair(old(x), old(z), angle, lib)
      ensures unchanged(this`y)
    {
      var rad := Radians(angle);
      var cos := lib.Cos(rad);
      var sin := lib.Sin(rad);
      var nx := TurnedFirst(x, z, cos, sin);
      var nz := TurnedSecond(x, z, cos, sin);
      x := RoundToThreshold(nx);
      z := RoundToThreshold(nz);
    }

    /** `scale`: each field times its own factor. */
    method Scale(factor: (real, real, real))
      modifies this
      ensures Coordinates() == old(Coordinates()).Times(Coords(factor.0, factor.1, factor.2))
    {
      x := x * factor.0;
      y := y * factor.1;
      z := z * factor.2;
    }
  }
}
