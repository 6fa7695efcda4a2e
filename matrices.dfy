// Fixed-size real matrices and vectors, as the filter uses them.
// Eigen's MatrixXd/VectorXd copy on assignment, so plain sequence values
// have the same meaning; a default-constructed Eigen object is the empty
// sequence.
module Matrices {

  type Vec = seq<real>
  type Mat = seq<seq<real>>

  /** m has `rows` rows of `cols` entries each. */
  predicate IsMat(m: Mat, rows: nat, cols: nat) {
    |m| == rows && forall i :: 0 <= i < rows ==> |m[i]| == cols
  }

  /** m is square and equal to its transpose. */
  predicate IsSymmetric(m: Mat) {
    IsMat(m, |m|, |m|) &&
    forall i, j :: 0 <= i < |m| && 0 <= j < |m| ==> m[i][j] == m[j][i]
  }

  function Zero(rows: nat, cols: nat): (z: Mat)
    ensures IsMat(z, rows, cols)
    ensures forall i, j :: 0 <= i < rows && 0 <= j < cols ==> z[i][j] == 0.0
  {
    seq(rows, i => seq(cols, j => 0.0))
  }

  /** The 4x4 identity matrix. */
  const Identity4: Mat := [[1.0, 0.0, 0.0, 0.0],
                           [0.0, 1.0, 0.0, 0.0],
                           [0.0, 0.0, 1.0, 0.0],
                           [0.0, 0.0, 0.0, 1.0]]

  /** The square matrix with d on its diagonal and zeros elsewhere. */
  function Diag(d: Vec): (m: Mat)
    ensures IsMat(m, |d|, |d|)
    ensures forall i, j :: 0 <= i < |d| && 0 <= j < |d| ==> m[i][j] == if i == j then d[i] else 0.0
  {
    seq(|d|, i requires 0 <= i < |d| => seq(|d|, j => if i == j then d[i] else 0.0))
  }

  /** Eigen's `m(i, j) = v`: one entry replaced, every other entry kept. */
  function SetEntry(m: Mat, i: nat, j: nat, v: real): (r: Mat)
    requires i < |m| && j < |m[i]|
    ensures |r| == |m| && forall k :: 0 <= k < |m| ==> |r[k]| == |m[k]|
    ensures r[i][j] == v
    ensures forall a, b :: 0 <= a < |m| && 0 <= b < |m[a]| && (a != i || b != j) ==> r[a][b] == m[a][b]
  {
    m[i := m[i][j := v]]
  }

  function Dot(a: Vec, b: Vec): (d: real)
    requires |a| == |b|
  {
    if a == [] then 0.0 else a[0] * b[0] + Dot(a[1..], b[1..])
  }

  /** The dot product of two 4-vectors, written out. */
  lemma Dot4(a: Vec, b: Vec)
    requires |a| == |b| == 4
    ensures Dot(a, b) == a[0] * b[0] + a[1] * b[1] + a[2] * b[2] + a[3] * b[3]
  {
    var a1, b1 := a[1..], b[1..];
    var a2, b2 := a1[1..], b1[1..];
    var a3, b3 := a2[1..], b2[1..];
    assert a3[1..] == [] && b3[1..] == [];
    assert Dot(a3, b3) == a[3] * b[3];
    assert Dot(a2, b2) == a[2] * b[2] + a[3] * b[3];
    assert Dot(a1, b1) == a[1] * b[1] + a[2] * b[2] + a[3] * b[3];
  }

  /** Matrix-vector product m * v. */
  function MatVec(m: Mat, v: Vec): (r: Vec)
    requires IsMat(m, |m|, |v|)
    ensures |r| == |m|
  {
    seq(|m|, i requires 0 <= i < |m| => Dot(m[i], v))
  }

  /** Two matrices of one shape that agree entry by entry are equal. */
  lemma Extensionality(a: Mat, b: Mat, rows: nat, cols: nat)
    requires IsMat(a, rows, cols) && IsMat(b, rows, cols)
    requires forall i, j :: 0 <= i < rows && 0 <= j < cols ==> a[i][j] == b[i][j]
    ensures a == b
  {
    forall i | 0 <= i < rows
      ensures a[i] == b[i]
    {
      assert |a[i]| == |b[i]| == cols;
    }
  }
}
