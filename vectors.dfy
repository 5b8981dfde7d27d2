/**
 * Real vectors as sequences, with the elementwise numpy operations the
 * modelled code uses (`+`, `-`, scalar `*`, `np.dot`, `np.maximum(., 0)`,
 * `sum`) and the algebraic facts about sums and dot products the other
 * modules rely on.
 */
module Vectors {

  type Vector = seq<real>

  /** `sum(v)` / `v.sum()`. */
  function Sum(v: Vector): real
  {
    if v == [] then 0.0 else v[0] + Sum(v[1..])
  }

  /** `np.zeros(n)`. */
  function Zeros(n: nat): (z: Vector)
    ensures |z| == n
  {
    seq(n, _ => 0.0)
  }

  /** `np.ones(n)`. */
  function Ones(n: nat): (z: Vector)
    ensures |z| == n
  {
    seq(n, _ => 1.0)
  }

  function Plus(a: Vector, b: Vector): (c: Vector)
    requires |a| == |b|
    ensures |c| == |a|
  {
    seq(|a|, i requires 0 <= i < |a| => a[i] + b[i])
  }

  function Minus(a: Vector, b: Vector): (c: Vector)
    requires |a| == |b|
    ensures |c| == |a|
  {
    seq(|a|, i requires 0 <= i < |a| => a[i] - b[i])
  }

  function Scaled(k: real, v: Vector): (c: Vector)
    ensures |c| == |v|
  {
    seq(|v|, i requires 0 <= i < |v| => k * v[i])
  }

  function Negated(v: Vector): (c: Vector)
    ensures |c| == |v|
  {
    seq(|v|, i requires 0 <= i < |v| => -v[i])
  }

  /** Elementwise product `a * b` of two numpy arrays of one shape. */
  function Hadamard(a: Vector, b: Vector): (c: Vector)
    requires |a| == |b|
    ensures |c| == |a|
  {
    seq(|a|, i requires 0 <= i < |a| => a[i] * b[i])
  }

  /** `np.dot(a, b)` (also `np.inner`) for vectors of one length. */
  function Dot(a: Vector, b: Vector): real
    requires |a| == |b|
  {
    if a == [] then 0.0 else a[0] * b[0] + Dot(a[1..], b[1..])
  }

  /** `np.maximum(x, 0)` on one entry. */
  function Max0(x: real): real
  {
    if x > 0.0 then x else 0.0
  }

  predicate NonNegative(v: Vector)
  {
    forall i :: 0 <= i < |v| ==> v[i] >= 0.0
  }

  lemma ScaledTail(k: real, v: Vector)
    requires v != []
    ensures Scaled(k, v)[1..] == Scaled(k, v[1..])
  {
    assert forall i :: 0 <= i < |v| - 1 ==> Scaled(k, v)[1..][i] == Scaled(k, v[1..])[i];
  }

  lemma HadamardTail(a: Vector, b: Vector)
    requires |a| == |b| && a != []
    ensures Hadamard(a, b)[1..] == Hadamard(a[1..], b[1..])
  {
    assert forall i :: 0 <= i < |a| - 1 ==> Hadamard(a, b)[1..][i] == Hadamard(a[1..], b[1..])[i];
  }

  // ---------------------------------------------------------------------
  // Sums

  lemma {:induction false} SumAppend(a: Vector, b: Vector)
    ensures Sum(a + b) == Sum(a) + Sum(b)
  {
    if a == [] {
      assert a + b == b;
    } else {
      assert (a + b)[1..] == a[1..] + b;
      SumAppend(a[1..], b);
    }
  }

  lemma {:induction false} SumPlus(a: Vector, b: Vector)
    requires |a| == |b|
    ensures Sum(Plus(a, b)) == Sum(a) + Sum(b)
  {
    if a != [] {
      assert Plus(a, b)[1..] == Plus(a[1..], b[1..]);
      SumPlus(a[1..], b[1..]);
    }
  }

  lemma {:induction false} SumScaled(k: real, v: Vector)
    ensures Sum(Scaled(k, v)) == k * Sum(v)
  {
    if v != [] {
      ScaledTail(k, v);
      SumScaled(k, v[1..]);
    }
  }

  lemma SumNegated(v: Vector)
    ensures Sum(Negated(v)) == -Sum(v)
  {
    assert Negated(v) == Scaled(-1.0, v);
    SumScaled(-1.0, v);
  }

  lemma {:induction false} SumZeros(n: nat)
    ensures Sum(Zeros(n)) == 0.0
  {
    if n > 0 {
      assert Zeros(n)[1..] == Zeros(n - 1);
      SumZeros(n - 1);
    }
  }

  /** A sum of entries none of which is negative is not negative. */
  lemma {:induction false} SumNonNegative(v: Vector)
    requires NonNegative(v)
    ensures Sum(v) >= 0.0
  {
    if v != [] {
      SumNonNegative(v[1..]);
    }
  }

  /** Sums are monotone in every entry. */
  lemma {:induction false} SumMonotone(a: Vector, b: Vector)
    requires |a| == |b|
    requires forall i :: 0 <= i < |a| ==> a[i] <= b[i]
    ensures Sum(a) <= Sum(b)
  {
    if a != [] {
      SumMonotone(a[1..], b[1..]);
    }
  }

  /** ... and strictly monotone when one entry is strictly smaller. */
  lemma {:induction false} SumStrictlyMonotone(a: Vector, b: Vector, k: nat)
    requires |a| == |b| && k < |a|
    requires forall i :: 0 <= i < |a| ==> a[i] <= b[i]
    requires a[k] < b[k]
    ensures Sum(a) < Sum(b)
  {
    if k == 0 {
      SumMonotone(a[1..], b[1..]);
    } else {
      SumStrictlyMonotone(a[1..], b[1..], k - 1);
    }
  }

  // ---------------------------------------------------------------------
  // Dot products

  lemma {:induction false} DotZerosLeft(b: Vector)
    ensures Dot(Zeros(|b|), b) == 0.0
  {
    if b != [] {
      assert Zeros(|b|)[1..] == Zeros(|b| - 1);
      DotZerosLeft(b[1..]);
    }
  }

  lemma {:induction false} DotCommutes(a: Vector, b: Vector)
    requires |a| == |b|
    ensures Dot(a, b) == Dot(b, a)
  {
    if a != [] {
      DotCommutes(a[1..], b[1..]);
    }
  }

  lemma {:induction false} DotPlusRight(a: Vector, b: Vector, c: Vector)
    requires |a| == |b| == |c|
    ensures Dot(a, Plus(b, c)) == Dot(a, b) + Dot(a, c)
  {
    if a != [] {
      assert Plus(b, c)[1..] == Plus(b[1..], c[1..]);
      DotPlusRight(a[1..], b[1..], c[1..]);
    }
  }

  lemma {:induction false} DotMinusRight(a: Vector, b: Vector, c: Vector)
    requires |a| == |b| == |c|
    ensures Dot(a, Minus(b, c)) == Dot(a, b) - Dot(a, c)
  {
    if a != [] {
      assert Minus(b, c)[1..] == Minus(b[1..], c[1..]);
      DotMinusRight(a[1..], b[1..], c[1..]);
    }
  }

  lemma {:induction false} DotScaledRight(a: Vector, k: real, b: Vector)
    requires |a| == |b|
    ensures Dot(a, Scaled(k, b)) == k * Dot(a, b)
  {
    if a != [] {
      ScaledTail(k, b);
      DotScaledRight(a[1..], k, b[1..]);
    }
  }

  lemma {:induction false} DotScaledLeft(k: real, a: Vector, b: Vector)
    requires |a| == |b|
    ensures Dot(Scaled(k, a), b) == k * Dot(a, b)
  {
    if a != [] {
      ScaledTail(k, a);
      DotScaledLeft(k, a[1..], b[1..]);
    }
  }

  lemma {:induction false} DotPlusLeft(a: Vector, b: Vector, c: Vector)
    requires |a| == |b| == |c|
    ensures Dot(Plus(a, b), c) == Dot(a, c) + Dot(b, c)
  {
    if a != [] {
      assert Plus(a, b)[1..] == Plus(a[1..], b[1..]);
      DotPlusLeft(a[1..], b[1..], c[1..]);
    }
  }

  /** Dotting with a vector of ones sums the entries. */
  lemma {:induction false} DotOnesLeft(b: Vector)
    ensures Dot(Ones(|b|), b) == Sum(b)
  {
    if b != [] {
      assert Ones(|b|)[1..] == Ones(|b| - 1);
      DotOnesLeft(b[1..]);
    }
  }

  /** The dot product of a vector with itself is a sum of squares. */
  lemma {:induction false} DotSelfNonNegative(v: Vector)
    ensures Dot(v, v) >= 0.0
  {
    if v != [] {
      DotSelfNonNegative(v[1..]);
    }
  }

  /** ... and vanishes exactly at the zero vector. */
  lemma {:induction false} DotSelfZeroIff(v: Vector)
    ensures Dot(v, v) == 0.0 <==> v == Zeros(|v|)
  {
    if v != [] {
      DotSelfZeroIff(v[1..]);
      DotSelfNonNegative(v[1..]);
      assert Dot(v, v) == v[0] * v[0] + Dot(v[1..], v[1..]);
      if Dot(v, v) == 0.0 {
        var square := Square(v[0]);
        assert v[0] == 0.0;
        assert v[1..] == Zeros(|v| - 1);
        assert v == [v[0]] + v[1..];
      }
      if v == Zeros(|v|) {
        assert v[1..] == Zeros(|v| - 1);
      }
    }
  }

  // Facts about products are stated through a named result: the solver
  // loses the sign of a square once it is compared with a literal directly.

  lemma Product(a: real, b: real) returns (p: real)
    ensures p == a * b
    ensures a > 0.0 && b > 0.0 ==> p > 0.0
    ensures a < 0.0 && b < 0.0 ==> p > 0.0
    ensures a >= 0.0 && b >= 0.0 ==> p >= 0.0
  {
    p := a * b;
    if a < 0.0 && b < 0.0 {
      assert p == (-a) * (-b);
    }
  }

  lemma Square(x: real) returns (s: real)
    ensures s == x * x
    ensures s >= 0.0
    ensures x != 0.0 ==> s > 0.0
  {
    s := Product(x, x);
    if x < 0.0 {
      var t := Product(-x, -x);
      assert t == s;
    }
  }
}
