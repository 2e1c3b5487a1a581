/**
  `torch.diag` of an eigenvalue vector, the matrix `DiagonalOperation._matrix` builds.
  Stated over an abstract element type `E` with a distinguished `zero`, since the
  eigenvalues themselves are not modelled. Matrices are sequences of rows. Every concrete
  diagonal gate class overrides `_matrix`, so no gate of the catalogue reaches this path.
*/
module DiagonalMatrix {

  /** `m` is an n-by-n matrix. */
  predicate IsSquare<E>(m: seq<seq<E>>, n: nat)
  {
    |m| == n && forall i | 0 <= i < n :: |m[i]| == n
  }

  /** Every entry of the square matrix `m` off its main diagonal is `zero`. */
  ghost predicate IsDiagonal<E>(m: seq<seq<E>>, zero: E)
    requires IsSquare(m, |m|)
  {
    forall i, j | 0 <= i < |m| && 0 <= j < |m| && i != j :: m[i][j] == zero
  }

  function Zeros<E>(n: nat, zero: E): (z: seq<E>)
    ensures |z| == n && forall j | 0 <= j < n :: z[j] == zero
  {
    seq(n, _ => zero)
  }

  /**
    `torch.diag` of a vector: built as a block matrix, the first eigenvalue in the top-left
    corner and the diagonal matrix of the remaining ones below and to the right of it.
  */
  function Diag<E>(eigvals: seq<E>, zero: E): (m: seq<seq<E>>)
    ensures IsSquare(m, |eigvals|)
    ensures forall i, j | 0 <= i < |eigvals| && 0 <= j < |eigvals| ::
      m[i][j] == if i == j then eigvals[i] else zero
    decreases |eigvals|
  {
    if eigvals == [] then []
    else
      var rest := Diag(eigvals[1..], zero);
      [[eigvals[0]] + Zeros(|rest|, zero)] + seq(|rest|, i requires 0 <= i < |rest| => [zero] + rest[i])
  }

  /** `torch.diag` of a square matrix: its main diagonal. */
  function DiagonalOf<E>(m: seq<seq<E>>): (d: seq<E>)
    requires IsSquare(m, |m|)
    ensures |d| == |m|
  {
    seq(|m|, i requires 0 <= i < |m| => m[i][i])
  }

  /** `torch.diag` of an eigenvalue vector is a diagonal matrix, and its diagonal gives back the vector. */
  lemma DiagRoundTrip<E>(eigvals: seq<E>, zero: E)
    ensures IsSquare(Diag(eigvals, zero), |eigvals|)
    ensures IsDiagonal(Diag(eigvals, zero), zero)
    ensures DiagonalOf(Diag(eigvals, zero)) == eigvals
  {
  }

  /** Conversely, every diagonal matrix is `Diag` of its own diagonal. */
  lemma DiagOfDiagonal<E>(m: seq<seq<E>>, zero: E)
    requires IsSquare(m, |m|) && IsDiagonal(m, zero)
    ensures Diag(DiagonalOf(m), zero) == m
  {
    var d := Diag(DiagonalOf(m), zero);
    assert |d| == |m|;
    forall i | 0 <= i < |m|
      ensures d[i] == m[i]
    {
      assert |d[i]| == |m[i]|;
      forall j | 0 <= j < |m|
        ensures d[i][j] == m[i][j]
      {
      }
    }
  }
}
