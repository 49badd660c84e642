// The fixed-size (4-dimensional) vectors and matrices of the object
// tracker's filter: state (x, y, z, theta), control and measurement are all
// 4-vectors, the covariances 4x4 matrices. Only the shapes the tracker
// builds are modelled, not matrix algebra.
module Linear {

  type Vector = seq<real>
  type Matrix = seq<seq<real>>

  ghost predicate IsVector4(v: Vector) {
    |v| == 4
  }

  ghost predicate IsMatrix4(m: Matrix) {
    |m| == 4 && forall i :: 0 <= i < 4 ==> |m[i]| == 4
  }

  /** The zero 4-vector (the Zero() control vector and the initial state). */
  function ZeroVector(): (v: Vector)
    ensures IsVector4(v)
    ensures forall i :: 0 <= i < 4 ==> v[i] == 0.0
  {
    seq(4, _ => 0.0)
  }

  /** The 4x4 matrix with `s` on the diagonal and 0 elsewhere. */
  function ScaledIdentity(s: real): (m: Matrix)
    ensures IsMatrix4(m)
    ensures forall i, j :: 0 <= i < 4 && 0 <= j < 4 ==> m[i][j] == (if i == j then s else 0.0)
  {
    seq(4, i requires 0 <= i < 4 => seq(4, j requires 0 <= j < 4 => if i == j then s else 0.0))
  }

  /** `m` has non-zero entries only on its diagonal. */
  ghost predicate IsDiagonal(m: Matrix)
    requires IsMatrix4(m)
  {
    forall i, j :: 0 <= i < 4 && 0 <= j < 4 && i != j ==> m[i][j] == 0.0
  }

  /** The sum of the diagonal. */
  function Trace(m: Matrix): real
    requires IsMatrix4(m)
  {
    m[0][0] + m[1][1] + m[2][2] + m[3][3]
  }

  /**
   * The noise matrices built from one reconfigured variance are diagonal,
   * non-negative when the variance is, and carry four times the variance as
   * their trace.
   */
  lemma ScaledIdentityIsDiagonal(s: real)
    ensures IsDiagonal(ScaledIdentity(s))
    ensures Trace(ScaledIdentity(s)) == 4.0 * s
    ensures s >= 0.0 ==> forall i, j :: 0 <= i < 4 && 0 <= j < 4 ==> ScaledIdentity(s)[i][j] >= 0.0
  {
  }

  /**
   * A 16-element array read row by row into a 4x4 matrix, the order in which
   * Eigen's comma initialiser fills a matrix.
   */
  function RowMajor(c: seq<real>): (m: Matrix)
    requires |c| == 16
    ensures IsMatrix4(m)
    ensures forall i, j :: 0 <= i < 4 && 0 <= j < 4 ==> m[i][j] == c[4 * i + j]
  {
    seq(4, i requires 0 <= i < 4 => c[4 * i .. 4 * i + 4])
  }

  /** The 16 entries of a 4x4 matrix, row by row. */
  function Flatten(m: Matrix): (c: seq<real>)
    requires IsMatrix4(m)
    ensures |c| == 16
  {
    m[0] + m[1] + m[2] + m[3]
  }

  lemma FlattenAt(m: Matrix, i: int, j: int)
    requires IsMatrix4(m) && 0 <= i < 4 && 0 <= j < 4
    ensures Flatten(m)[4 * i + j] == m[i][j]
  {
    assert Flatten(m) == ((m[0] + m[1]) + m[2]) + m[3];
  }

  /** Reading a 16-array row-major and flattening it again gives the array back. */
  lemma FlattenRowMajor(c: seq<real>)
    requires |c| == 16
    ensures Flatten(RowMajor(c)) == c
  {
    var m := RowMajor(c);
    forall k | 0 <= k < 16
      ensures Flatten(m)[k] == c[k]
    {
      FlattenAt(m, k / 4, k % 4);
    }
  }

  /** Flattening a 4x4 matrix and reading it back row-major gives the matrix back. */
  lemma RowMajorFlatten(m: Matrix)
    requires IsMatrix4(m)
    ensures RowMajor(Flatten(m)) == m
  {
    var r := RowMajor(Flatten(m));
    forall i | 0 <= i < 4
      ensures r[i] == m[i]
    {
      forall j | 0 <= j < 4
        ensures r[i][j] == m[i][j]
      {
        FlattenAt(m, i, j);
      }
    }
  }
}
