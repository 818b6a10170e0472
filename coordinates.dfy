/** Three coordinates as a value: what the mutable `Point` and `Vec3`
    structs of src/primitives.rs and src/engine/objects/primitives.rs hold,
    and what their componentwise operations compute. */
module Coordinates {

  datatype Coords = Coords(x: real, y: real, z: real) {

    static const ORIGIN: Coords := Coords(0.0, 0.0, 0.0)

    function Plus(other: Coords): (r: Coords)
      ensures r.x - x == other.x && r.y - y == other.y && r.z - z == other.z
    {
      Coords(x + other.x, y + other.y, z + other.z)
    }

    function Minus(other: Coords): (r: Coords)
      ensures r.x + other.x == x && r.y + other.y == y && r.z + other.z == z
    {
      Coords(x - other.x, y - other.y, z - other.z)
    }

    /** Componentwise product, as `scale` multiplies each field by its own
        factor. */
    function Times(factor: Coords): (r: Coords)
      ensures factor == Coords(1.0, 1.0, 1.0) ==> r == this
      ensures factor == ORIGIN ==> r == ORIGIN
    {
      Coords(x * factor.x, y * factor.y, z * factor.z)
    }
  }

  /** Subtracting what was added, or adding what was subtracted, gives back
      the original coordinates. */
  lemma PlusMinusInverse(c: Coords, d: Coords)
    ensures c.Plus(d).Minus(d) == c
    ensures c.Minus(d).Plus(d) == c
  {
  }
}
