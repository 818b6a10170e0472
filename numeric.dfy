/** Numbers as the engine sees them: `f32` is modelled as `real`, the
    fixed-width integer types used for mesh indices as newtypes, and the
    transcendental functions of Rust's standard library as parameters. */
module Numeric {

  /** `u16`: the element type of every index buffer the generators build.
      Arithmetic on it is checked, like a debug build of the engine. */
  newtype u16 = x: int | 0 <= x < 0x1_0000

  /** `u32`: the type of draw counts and of the wire-frame indices. */
  newtype u32 = x: int | 0 <= x < 0x1_0000_0000

  const U32_MODULUS: int := 0x1_0000_0000

  /** `f32::consts::PI` and `f32::consts::TAU`, as reals. */
  const PI: real := 3.14159265358979323846
  const TAU: real := 2.0 * PI

  /** The functions of `f32` whose values the model does not compute.
      Every operation that calls one of them takes a `Libm`; nothing in the
      model depends on what these functions return unless a lemma says so
      in its requires. */
  datatype Libm = Libm(sqrt: real -> real, sin: real -> real, cos: real -> real, tan: real -> real) {
    function Sqrt(x: real): real { sqrt(x) }
    function Sin(x: real): real { sin(x) }
    function Cos(x: real): real { cos(x) }
    function Tan(x: real): real { tan(x) }
  }

  function Abs(x: real): real {
    if x < 0.0 then -x else x
  }

  /** `f32::round`: the nearest integer, halves rounded away from zero. */
  function Round(x: real): (r: int)
    ensures Abs(r as real - x) <= 0.5
    ensures x >= 0.0 ==> x - 0.5 < r as real <= x + 0.5
    ensures x < 0.0 ==> x - 0.5 <= r as real < x + 0.5
    ensures x >= 1.0 ==> r >= 1
    ensures x <= -1.0 ==> r <= -1
  {
    if x >= 0.0 then (x + 0.5).Floor else -((0.5 - x).Floor)
  }

  /** Products of reals commute, and negating a factor negates the product. */
  lemma ProductSigns(p: real, q: real)
    ensures p * q == q * p
    ensures (-p) * q == -(p * q) && p * (-q) == -(p * q) && (-p) * (-q) == p * q
  {
  }

  /** Ties go away from zero: k + 1/2 rounds up to k + 1 and -(k + 1/2)
      down to -(k + 1). */
  lemma RoundHalfAwayFromZero(k: nat)
    ensures Round(k as real + 0.5) == k + 1
    ensures Round(-(k as real) - 0.5) == -(k + 1)
  {
  }

  /** Rounding an integer leaves it alone. */
  lemma RoundInteger(k: int)
    ensures Round(k as real) == k
  {
    if k >= 0 {
      assert (k as real + 0.5).Floor == k;
    } else {
      assert (0.5 - k as real).Floor == -k;
    }
  }

  /** `as u32` on a `usize`: the low 32 bits. */
  function TruncateU32(n: nat): (r: u32)
    ensures n < U32_MODULUS ==> r as int == n
  {
    (n % U32_MODULUS) as u32
  }
}
