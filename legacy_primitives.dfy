/** The first-generation point and vector of src/primitives.rs: tuple
    structs of three `f32` (fields `.0`, `.1`, `.2`, called x, y and z
    here) whose trait methods update them in place. */
module LegacyPrimitives {
  import opened Coordinates

  class Point {
    var x: real
    var y: real
    var z: real

    function Coordinates(): Coords
      reads this
    {
      Coords(x, y, z)
    }

    /** The tuple constructor `Point(a, b, c)`. */
    constructor (x: real, y: real, z: real)
      ensures Coordinates() == Coords(x, y, z)
    {
      this.x, this.y, this.z := x, y, z;
    }

    /** `Default`: the origin. */
    constructor Default()
      ensures Coordinates() == Coords.ORIGIN
    {
      x, y, z := 0.0, 0.0, 0.0;
    }

    method AddVector(vector: Vec3)
      modifies this
      ensures Coordinates() == old(Coordinates()).Plus(vector.Coordinates())
    {
      x := x + vector.x;
      y := y + vector.y;
      z := z + vector.z;
    }

    method SubtractVector(vector: Vec3)
      modifies this
      ensures Coordinates() == old(Coordinates()).Minus(vector.Coordinates())
    {
      x := x - vector.x;
      y := y - vector.y;
      z := z - vector.z;
    }

    /** Adding a point to itself doubles it: the argument's old
        coordinates are the ones added. */
    method AddPoint(point: Point)
      modifies this
      ensures Coordinates() == old(Coordinates()).Plus(old(point.Coordinates()))
    {
      var px, py, pz := point.x, point.y, point.z;
      x := x + px;
      y := y + py;
      z := z + pz;
    }

    method SubtractPoint(point: Point)
      modifies this
      ensures Coordinates() == old(Coordinates()).Minus(old(point.Coordinates()))
    {
      var px, py, pz := point.x, point.y, point.z;
      x := x - px;
      y := y - py;
      z := z - pz;
    }

    method ToVec3() returns (v: Vec3)
      ensures fresh(v) && v.Coordinates() == Coordinates()
    {
      v := new Vec3(x, y, z);
    }

    method Set(point: Point)
      modifies this
      ensures Coordinates() == old(point.Coordinates())
    {
      var px, py, pz := point.x, point.y, point.z;
      x, y, z := px, py, pz;
    }
  }

  class Vec3 {
    var x: real
    var y: real
    var z: real

    function Coordinates(): Coords
      reads this
    {
      Coords(x, y, z)
    }

    /** The tuple constructor `Vec3(a, b, c)`. */
    constructor (x: real, y: real, z: real)
      ensures Coordinates() == Coords(x, y, z)
    {
      this.x, this.y, this.z := x, y, z;
    }

    constructor Default()
      ensures Coordinates() == Coords.ORIGIN
    {
      x, y, z := 0.0, 0.0, 0.0;
    }

    method AddVector(vector: Vec3)
      modifies this
      ensures Coordinates() == old(Coordinates()).Plus(old(vector.Coordinates()))
    {
      var vx, vy, vz := vector.x, vector.y, vector.z;
      x := x + vx;
      y := y + vy;
      z := z + vz;
    }

    method SubtractVector(vector: Vec3)
      modifies this
      ensures Coordinates() == old(Coordinates()).Minus(old(vector.Coordinates()))
    {
      var vx, vy, vz := vector.x, vector.y, vector.z;
      x := x - vx;
      y := y - vy;
      z := z - vz;
    }

    method ToPoint() returns (p: Point)
      ensures fresh(p) && p.Coordinates() == Coordinates()
    {
      p := new Point(x, y, z);
    }

    method Set(vector: Vec3)
      modifies this
      ensures Coordinates() == old(vector.Coordinates())
    {
      var vx, vy, vz := vector.x, vector.y, vector.z;
      x, y, z := vx, vy, vz;
    }
  }

  /** The values src/tests.rs asserts for `add_vector`, `subtract_vector`,
      `add_point` and `subtract_point`, with every operand a dyadic value
      that `f32` holds exactly. */
  lemma LegacyTestValues()
    ensures Coords(1.0, 2.0, 3.0).Plus(Coords(0.5, -1.0, 2.0)) == Coords(1.5, 1.0, 5.0)
    ensures Coords(1.0, 2.0, 3.0).Minus(Coords(1.0, 1.0, 1.0)) == Coords(0.0, 1.0, 2.0)
    ensures Coords(1.0, 2.0, 3.0).Plus(Coords(4.0, 5.0, 6.0)) == Coords(5.0, 7.0, 9.0)
    ensures Coords(4.0, 5.0, 6.0).Minus(Coords(1.0, 2.0, 3.0)) == Coords(3.0, 3.0, 3.0)
    ensures Coords(1.0, 1.0, 1.0).Plus(Coords(2.0, 3.0, 4.0)) == Coords(3.0, 4.0, 5.0)
    ensures Coords(5.0, 6.0, 7.0).Minus(Coords(2.0, 2.0, 2.0)) == Coords(3.0, 4.0, 5.0)
  {
  }
}
