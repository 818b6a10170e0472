/** Square matrices of reals stored row by row (`data[row][col]`), the
    shape of both `[[f32; 3]; 3]` and `[[f32; 4]; 4]` in the engine.  The
    engine's two generations of `Mat3`/`Mat4` share the product written here. */
module Matrix {

  type Mat = seq<seq<real>>

  predicate IsSquare(m: Mat, n: nat) {
    |m| == n && forall i :: 0 <= i < n ==> |m[i]| == n
  }

  function Identity(n: nat): (r: Mat)
    ensures IsSquare(r, n)
  {
    seq(n, i => seq(n, j => if i == j then 1.0 else 0.0))
  }

  /** `Mat3::IDENTITY` and `Mat4::IDENTITY` as the sources write them. */
  lemma IdentityLiterals()
    ensures Identity(3) == [[1.0, 0.0, 0.0], [0.0, 1.0, 0.0], [0.0, 0.0, 1.0]]
    ensures Identity(4) == [[1.0, 0.0, 0.0, 0.0], [0.0, 1.0, 0.0, 0.0], [0.0, 0.0, 1.0, 0.0], [0.0, 0.0, 0.0, 1.0]]
  {
    var a, b := Identity(3), Identity(4);
    assert a[0] == [1.0, 0.0, 0.0] && a[1] == [0.0, 1.0, 0.0] && a[2] == [0.0, 0.0, 1.0];
    assert b[0] == [1.0, 0.0, 0.0, 0.0] && b[1] == [0.0, 1.0, 0.0, 0.0];
    assert b[2] == [0.0, 0.0, 1.0, 0.0] && b[3] == [0.0, 0.0, 0.0, 1.0];
  }

  /** One term a[i][k]*b[k][j] of an entry of the product. */
  function Term(a: Mat, b: Mat, n: nat, i: nat, j: nat, k: nat): real
    requires IsSquare(a, n) && IsSquare(b, n)
    requires i < n && j < n && k < n
  {
    a[i][k] * b[k][j]
  }

  /** a[i][0]*b[0][j] + ... + a[i][k-1]*b[k-1][j], summed left to right. */
  function RowTimesColumn(a: Mat, b: Mat, n: nat, i: nat, j: nat, k: nat): real
    requires IsSquare(a, n) && IsSquare(b, n)
    requires i < n && j < n && k <= n
  {
    if k == 0 then 0.0 else RowTimesColumn(a, b, n, i, j, k - 1) + Term(a, b, n, i, j, k - 1)
  }

  /** A 4x4 product entry is the sum of its four terms, as `Mat4` writes it out. */
  lemma RowTimesColumnOfFour(a: Mat, b: Mat, i: nat, j: nat)
    requires IsSquare(a, 4) && IsSquare(b, 4) && i < 4 && j < 4
    ensures RowTimesColumn(a, b, 4, i, j, 4)
      == Term(a, b, 4, i, j, 0) + Term(a, b, 4, i, j, 1) + Term(a, b, 4, i, j, 2) + Term(a, b, 4, i, j, 3)
  {
    assert RowTimesColumn(a, b, 4, i, j, 1) == Term(a, b, 4, i, j, 0);
    assert RowTimesColumn(a, b, 4, i, j, 2) == RowTimesColumn(a, b, 4, i, j, 1) + Term(a, b, 4, i, j, 1);
    assert RowTimesColumn(a, b, 4, i, j, 3) == RowTimesColumn(a, b, 4, i, j, 2) + Term(a, b, 4, i, j, 2);
  }

  function Transpose(m: Mat, n: nat): (r: Mat)
    requires IsSquare(m, n)
    ensures IsSquare(r, n)
    ensures forall i, j :: 0 <= i < n && 0 <= j < n ==> r[j][i] == m[i][j]
  {
    seq(n, i requires 0 <= i < n => seq(n, j requires 0 <= j < n => m[j][i]))
  }

  /** The transpose of a 3x3 matrix, entry by entry. */
  lemma TransposeOfThree(m: Mat)
    requires IsSquare(m, 3)
    ensures Transpose(m, 3) == [[m[0][0], m[1][0], m[2][0]], [m[0][1], m[1][1], m[2][1]], [m[0][2], m[1][2], m[2][2]]]
  {
    var t := Transpose(m, 3);
    assert t[0] == [m[0][0], m[1][0], m[2][0]];
    assert t[1] == [m[0][1], m[1][1], m[2][1]];
    assert t[2] == [m[0][2], m[1][2], m[2][2]];
  }

  /** Transposing twice gives back the matrix. */
  lemma TransposeInvolution(m: Mat, n: nat)
    requires IsSquare(m, n)
    ensures Transpose(Transpose(m, n), n) == m
  {
    var t := Transpose(Transpose(m, n), n);
    forall i | 0 <= i < n
      ensures t[i] == m[i]
    {
      assert |t[i]| == |m[i]|;
      forall j | 0 <= j < n ensures t[i][j] == m[i][j] { }
    }
  }

  /** Partial sums against the identity pick out one entry. */
  lemma {:induction false} IdentityRowTimesColumn(b: Mat, n: nat, i: nat, j: nat, k: nat)
    requires IsSquare(b, n) && i < n && j < n && k <= n
    ensures RowTimesColumn(Identity(n), b, n, i, j, k) == if i < k then b[i][j] else 0.0
  {
    if k > 0 {
      IdentityRowTimesColumn(b, n, i, j, k - 1);
    }
  }

  lemma {:induction false} RowTimesColumnIdentity(a: Mat, n: nat, i: nat, j: nat, k: nat)
    requires IsSquare(a, n) && i < n && j < n && k <= n
    ensures RowTimesColumn(a, Identity(n), n, i, j, k) == if j < k then a[i][j] else 0.0
  {
    if k > 0 {
      RowTimesColumnIdentity(a, n, i, j, k - 1);
    }
  }

  /** The identity is a left and a right unit of the product. */
  lemma IdentityIsUnit(a: Mat, n: nat)
    requires IsSquare(a, n)
    ensures forall i, j :: 0 <= i < n && 0 <= j < n ==>
      RowTimesColumn(Identity(n), a, n, i, j, n) == a[i][j] &&
      RowTimesColumn(a, Identity(n), n, i, j, n) == a[i][j]
  {
    forall i, j | 0 <= i < n && 0 <= j < n
      ensures RowTimesColumn(Identity(n), a, n, i, j, n) == a[i][j]
      ensures RowTimesColumn(a, Identity(n), n, i, j, n) == a[i][j]
    {
      IdentityRowTimesColumn(a, n, i, j, n);
      RowTimesColumnIdentity(a, n, i, j, n);
    }
  }

  /** The triple loop of `mul_mat3`/`mul_mat4`: start from the default
      (identity) matrix, reset each entry to zero, then accumulate. */
  method Multiply(a: Mat, b: Mat, n: nat) returns (r: Mat)
    requires IsSquare(a, n) && IsSquare(b, n)
    ensures IsSquare(r, n)
    ensures forall i, j :: 0 <= i < n && 0 <= j < n ==> r[i][j] == RowTimesColumn(a, b, n, i, j, n)
  {
    r := Identity(n);
    for i := 0 to n
      invariant IsSquare(r, n)
      invariant forall i', j :: 0 <= i' < i && 0 <= j < n ==> r[i'][j] == RowTimesColumn(a, b, n, i', j, n)
    {
      for j := 0 to n
        invariant IsSquare(r, n)
        invariant forall i', j' :: 0 <= i' < i && 0 <= j' < n ==> r[i'][j'] == RowTimesColumn(a, b, n, i', j', n)
        invariant forall j' :: 0 <= j' < j ==> r[i][j'] == RowTimesColumn(a, b, n, i, j', n)
      {
        r := r[i := r[i][j := 0.0]];
        for k := 0 to n
          invariant IsSquare(r, n)
          invariant forall i', j' :: 0 <= i' < i && 0 <= j' < n ==> r[i'][j'] == RowTimesColumn(a, b, n, i', j', n)
          invariant forall j' :: 0 <= j' < j ==> r[i][j'] == RowTimesColumn(a, b, n, i, j', n)
          invariant r[i][j] == RowTimesColumn(a, b, n, i, j, k)
        {
          r := r[i := r[i][j := r[i][j] + a[i][k] * b[k][j]]];
        }
      }
    }
  }
}
