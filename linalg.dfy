/** Dense vectors and matrices over exact reals, standing in for the
    fixed-size Eigen types (VectorXd, MatrixXd) of the filter. Matrices are
    values: assigning one member to another copies it, as Eigen does. */
module LinAlg {

  type Vec = seq<real>
  type Mat = seq<seq<real>>

  /** `M` has `rows` rows of `cols` entries each. */
  ghost predicate IsMatrix(M: Mat, rows: nat, cols: nat) {
    |M| == rows && forall i :: 0 <= i < rows ==> |M[i]| == cols
  }

  /** A square matrix equal to its transpose. */
  ghost predicate Symmetric(M: Mat)
    requires IsMatrix(M, |M|, |M|)
  {
    forall i, j :: 0 <= i < |M| && 0 <= j < |M| ==> M[i][j] == M[j][i]
  }

  /** Inner product of two vectors of equal length. */
  function Dot(u: Vec, v: Vec): real
    requires |u| == |v|
    decreases |u|
  {
    if |u| == 0 then 0.0 else u[0] * v[0] + Dot(u[1..], v[1..])
  }

  /** Matrix-vector product: entry i is row i of `M` dotted with `v`. */
  function MatVec(M: Mat, v: Vec): (r: Vec)
    requires forall i :: 0 <= i < |M| ==> |M[i]| == |v|
    ensures |r| == |M|
    ensures forall i :: 0 <= i < |M| ==> r[i] == Dot(M[i], v)
  {
    seq(|M|, i requires 0 <= i < |M| => Dot(M[i], v))
  }

  /** The quadratic form vᵀ·M·v. */
  ghost function QuadraticForm(M: Mat, v: Vec): real
    requires IsMatrix(M, |v|, |v|)
  {
    Dot(v, MatVec(M, v))
  }

  /** `M` is positive semi-definite: vᵀ·M·v is never negative. */
  ghost predicate PositiveSemiDefinite(M: Mat)
    requires IsMatrix(M, |M|, |M|)
  {
    forall v: Vec :: |v| == |M| ==> QuadraticForm(M, v) >= 0.0
  }

  /** The inner product of two 4-vectors written out term by term. */
  lemma {:induction false} Dot4(u: Vec, v: Vec)
    requires |u| == 4 && |v| == 4
    ensures Dot(u, v) == u[0] * v[0] + u[1] * v[1] + u[2] * v[2] + u[3] * v[3]
  {
    assert u[3..][1..] == u[4..] && v[3..][1..] == v[4..];
    assert Dot(u[3..], v[3..]) == u[3] * v[3];
    assert u[2..][1..] == u[3..] && v[2..][1..] == v[3..];
    assert Dot(u[2..], v[2..]) == u[2] * v[2] + u[3] * v[3];
    assert u[1..][1..] == u[2..] && v[1..][1..] == v[2..];
    assert Dot(u[1..], v[1..]) == u[1] * v[1] + u[2] * v[2] + u[3] * v[3];
  }

  /** A square of a real is never negative. */
  lemma SquareNonNegative(a: real)
    ensures a * a >= 0.0
  {
    if a < 0.0 {
      assert a * a == (-a) * (-a);
    }
  }
}
