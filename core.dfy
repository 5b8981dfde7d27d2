/**
 * hydrosolver/core.py: the basic routines of the linear system `A x = b`.
 * A matrix is a sequence of rows.
 */
module Core {
  import opened Vectors

  type Matrix = seq<Vector>

  /** Every row of `A` has `cols` entries. */
  predicate IsMatrix(A: Matrix, cols: nat)
  {
    forall i :: 0 <= i < |A| ==> |A[i]| == cols
  }

  /** `A @ x` for a matrix and a vector. */
  function MatVec(A: Matrix, x: Vector): (y: Vector)
    requires IsMatrix(A, |x|)
    ensures |y| == |A|
  {
    seq(|A|, i requires 0 <= i < |A| => Dot(A[i], x))
  }

  /** Column `j` of `A`. */
  function Column(A: Matrix, cols: nat, j: nat): (c: Vector)
    requires IsMatrix(A, cols) && j < cols
    ensures |c| == |A|
  {
    seq(|A|, i requires 0 <= i < |A| => A[i][j])
  }

  /** `u @ A` (the same as `A.T @ u`): the rows of `A` combined with the weights `u`. */
  function VecMat(u: Vector, A: Matrix, cols: nat): (y: Vector)
    requires |u| == |A| && IsMatrix(A, cols)
    ensures |y| == cols
    decreases |A|
  {
    if A == [] then Zeros(cols)
    else Plus(Scaled(u[0], A[0]), VecMat(u[1..], A[1..], cols))
  }

  /** `residual(A, b, x) = A @ x - b`. */
  function Residual(A: Matrix, b: Vector, x: Vector): (r: Vector)
    requires IsMatrix(A, |x|) && |b| == |A|
    ensures |r| == |A|
  {
    Minus(MatVec(A, x), b)
  }

  /** `gradient(A, b, x) = 2 * (A @ x - b).transpose() @ A`, one entry per column of `A`. */
  function Gradient(A: Matrix, b: Vector, x: Vector): (g: Vector)
    requires IsMatrix(A, |x|) && |b| == |A|
    ensures |g| == |x|
  {
    VecMat(Scaled(2.0, Residual(A, b, x)), A, |x|)
  }

  /** `norm2(v) = np.dot(v, v)`: never negative, and zero exactly at the zero vector. */
  function Norm2(v: Vector): (n: real)
    ensures n >= 0.0
    ensures n == 0.0 <==> v == Zeros(|v|)
  {
    DotSelfNonNegative(v);
    DotSelfZeroIff(v);
    Dot(v, v)
  }

  // ---------------------------------------------------------------------
  // Lemmas

  /** Entry `j` of `u @ A` is the dot product of `u` with column `j`. */
  lemma {:induction false} VecMatEntry(u: Vector, A: Matrix, cols: nat, j: nat)
    requires |u| == |A| && IsMatrix(A, cols) && j < cols
    ensures VecMat(u, A, cols)[j] == Dot(u, Column(A, cols, j))
  {
    if A != [] {
      VecMatEntry(u[1..], A[1..], cols, j);
      assert Column(A, cols, j)[1..] == Column(A[1..], cols, j);
    }
  }

  lemma {:induction false} VecMatScaled(k: real, u: Vector, A: Matrix, cols: nat)
    requires |u| == |A| && IsMatrix(A, cols)
    ensures VecMat(Scaled(k, u), A, cols) == Scaled(k, VecMat(u, A, cols))
  {
    var lhs := VecMat(Scaled(k, u), A, cols);
    var rhs := Scaled(k, VecMat(u, A, cols));
    if A == [] {
      forall j | 0 <= j < cols ensures lhs[j] == rhs[j] {
        assert lhs[j] == 0.0 && rhs[j] == k * 0.0;
      }
    } else {
      ScaledTail(k, u);
      VecMatScaled(k, u[1..], A[1..], cols);
      var rest := VecMat(u[1..], A[1..], cols);
      assert Scaled(k, u)[0] == k * u[0];
      assert VecMat(Scaled(k, u)[1..], A[1..], cols) == Scaled(k, rest);
      assert lhs == Plus(Scaled(k * u[0], A[0]), Scaled(k, rest));
      forall j | 0 <= j < cols ensures lhs[j] == rhs[j] {
        Distributes(k, u[0], A[0][j], rest[j]);
      }
    }
    assert lhs == rhs;
  }

  lemma Distributes(k: real, a: real, b: real, c: real)
    ensures (k * a) * b + k * c == k * (a * b + c)
  {
  }

  /** `0 @ A` is the zero vector. */
  lemma {:induction false} VecMatZeros(A: Matrix, cols: nat)
    requires IsMatrix(A, cols)
    ensures VecMat(Zeros(|A|), A, cols) == Zeros(cols)
  {
    if A != [] {
      assert Zeros(|A|)[1..] == Zeros(|A| - 1);
      VecMatZeros(A[1..], cols);
    }
  }

  /** Moving `A` across a dot product: `u . (A d) == (u @ A) . d`. */
  lemma {:induction false} DotMatVec(u: Vector, A: Matrix, d: Vector)
    requires |u| == |A| && IsMatrix(A, |d|)
    ensures Dot(u, MatVec(A, d)) == Dot(VecMat(u, A, |d|), d)
  {
    if A == [] {
      DotZerosLeft(d);
    } else {
      assert MatVec(A, d)[1..] == MatVec(A[1..], d);
      DotMatVec(u[1..], A[1..], d);
      var rest := VecMat(u[1..], A[1..], |d|);
      DotPlusLeft(Scaled(u[0], A[0]), rest, d);
      DotScaledLeft(u[0], A[0], d);
    }
  }

  /** `A (x + t d) == A x + t (A d)`. */
  lemma MatVecAffine(A: Matrix, x: Vector, t: real, d: Vector)
    requires |x| == |d| && IsMatrix(A, |x|)
    ensures MatVec(A, Plus(x, Scaled(t, d))) == Plus(MatVec(A, x), Scaled(t, MatVec(A, d)))
  {
    forall i | 0 <= i < |A|
      ensures MatVec(A, Plus(x, Scaled(t, d)))[i] == Plus(MatVec(A, x), Scaled(t, MatVec(A, d)))[i]
    {
      DotPlusRight(A[i], x, Scaled(t, d));
      DotScaledRight(A[i], t, d);
    }
  }

  /** The residual vanishes exactly when `x` solves `A x = b`. */
  lemma ResidualZeroIff(A: Matrix, b: Vector, x: Vector)
    requires IsMatrix(A, |x|) && |b| == |A|
    ensures Residual(A, b, x) == Zeros(|A|) <==> MatVec(A, x) == b
  {
    var r := Residual(A, b, x);
    if r == Zeros(|A|) {
      forall i | 0 <= i < |A| ensures MatVec(A, x)[i] == b[i] {
        assert r[i] == 0.0;
      }
    }
  }

  /** Entry `j` of the gradient is `2 * sum_i (A x - b)_i * A[i][j]`. */
  lemma GradientEntry(A: Matrix, b: Vector, x: Vector, j: nat)
    requires IsMatrix(A, |x|) && |b| == |A| && j < |x|
    ensures Gradient(A, b, x)[j] == 2.0 * Dot(Residual(A, b, x), Column(A, |x|, j))
  {
    VecMatEntry(Scaled(2.0, Residual(A, b, x)), A, |x|, j);
    DotScaledLeft(2.0, Residual(A, b, x), Column(A, |x|, j));
  }

  /** Where the residual vanishes the gradient vanishes too. */
  lemma GradientAtSolution(A: Matrix, b: Vector, x: Vector)
    requires IsMatrix(A, |x|) && |b| == |A|
    requires Residual(A, b, x) == Zeros(|A|)
    ensures Gradient(A, b, x) == Zeros(|x|)
  {
    assert Scaled(2.0, Zeros(|A|)) == Zeros(|A|);
    VecMatZeros(A, |x|);
  }
}
