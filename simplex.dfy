/**
 * `project_simplex` of hydrosolver/optimization.py: a map onto the scaled
 * simplex `{x | x >= 0, sum(x) = m}` by sorting, prefix sums and a
 * threshold (Algorithm 2 of Blondel, Fujino and Ueda, "Large-scale
 * Multiclass Support Vector Machine Training via Euclidean Projection onto
 * the Simplex", ICPR 2014). What is proved here is that its result lies on
 * the simplex, that it leaves points of the simplex where they are, and
 * when the threshold is missing; that the result is the nearest point of
 * the simplex is the cited paper's theorem and is not proved here.
 */
module Simplex {
  import opened Wrappers
  import opened Vectors

  // ---------------------------------------------------------------------
  // Sorting: `np.flip(np.sort(v))`

  predicate SortedDescending(u: Vector)
  {
    forall i, j :: 0 <= i < j < |u| ==> u[i] >= u[j]
  }

  /** `x` inserted into the descending sequence `s`. */
  function Insert(x: real, s: Vector): (r: Vector)
    requires SortedDescending(s)
    ensures SortedDescending(r) && multiset(r) == multiset(s) + multiset{x}
    ensures |r| == |s| + 1
  {
    if s == [] || x >= s[0] then
      [x] + s
    else
      var rest := Insert(x, s[1..]);
      assert s == [s[0]] + s[1..];
      HeadDominates(s[0], x, s[1..], rest);
      [s[0]] + rest
  }

  /** `h`, above `x` and every entry of `t`, is above every entry of a rearrangement of `t` and `x`. */
  lemma HeadDominates(h: real, x: real, t: Vector, rest: Vector)
    requires h > x && forall i :: 0 <= i < |t| ==> h >= t[i]
    requires multiset(rest) == multiset(t) + multiset{x}
    ensures forall i :: 0 <= i < |rest| ==> h >= rest[i]
  {
    forall i | 0 <= i < |rest| ensures h >= rest[i] {
      assert rest[i] in multiset(rest);
      if rest[i] != x {
        assert rest[i] in multiset(t);
        var j :| 0 <= j < |t| && t[j] == rest[i];
      }
    }
  }

  /** The entries of `v` from the largest to the smallest. */
  function SortDescending(v: Vector): (u: Vector)
    ensures SortedDescending(u) && multiset(u) == multiset(v) && |u| == |v|
  {
    if v == [] then []
    else
      assert v == [v[0]] + v[1..];
      Insert(v[0], SortDescending(v[1..]))
  }

  // ---------------------------------------------------------------------
  // The threshold

  /** `pi[k] = (cumsum(u)[k] - m) / (k + 1)`. */
  function Pi(u: Vector, m: real, k: nat): real
    requires k < |u|
  {
    (Sum(u[..k + 1]) - m) / ((k + 1) as real)
  }

  /** Index `k` passes the filter `u_sorted - pi > 0`. */
  predicate Qualifies(u: Vector, m: real, k: nat)
    requires k < |u|
  {
    u[k] - Pi(u, m, k) > 0.0
  }

  /** The last index below `k` that passes the filter, as `[...][-1]` picks it. */
  function LastQualifying(u: Vector, m: real, k: nat): (r: Option<nat>)
    requires k <= |u|
    ensures r.Some? ==> r.value < k && Qualifies(u, m, r.value)
    ensures r.Some? ==> forall j :: r.value < j < k ==> !Qualifies(u, m, j)
    ensures r.None? ==> forall j :: 0 <= j < k ==> !Qualifies(u, m, j)
  {
    if k == 0 then None
    else if Qualifies(u, m, k - 1) then Some(k - 1)
    else LastQualifying(u, m, k - 1)
  }

  /** `np.maximum(v - theta, 0)`. */
  function Shrink(v: Vector, theta: real): (r: Vector)
    ensures |r| == |v| && NonNegative(r)
  {
    seq(|v|, i requires 0 <= i < |v| => Max0(v[i] - theta))
  }

  /**
   * `theta`, or nothing where Python raises `IndexError` because no index
   * passes the filter. A threshold lies below the largest entry, so the
   * projection keeps at least that entry positive.
   */
  function Threshold(v: Vector, m: real): (r: Option<real>)
    ensures r.Some? ==> |v| > 0 && SortDescending(v)[0] > r.value
    ensures r.None? ==> forall k :: 0 <= k < |v| ==> !Qualifies(SortDescending(v), m, k)
  {
    var u := SortDescending(v);
    match LastQualifying(u, m, |u|)
    case None => None
    case Some(rho) => Some(Pi(u, m, rho))
  }

  /**
   * `project_simplex(v, m)`: for a positive mass the projection exists and
   * lies on the simplex; for a mass that is not positive no index passes
   * the filter and Python raises `IndexError`.
   */
  function ProjectSimplex(v: Vector, m: real): (r: Option<Vector>)
    ensures r.Some? ==> |r.value| == |v| && NonNegative(r.value) && Sum(r.value) == m
    ensures r.Some? <==> m > 0.0 && |v| > 0
  {
    ThresholdExists(v, m);
    match Threshold(v, m)
    case None => None
    case Some(theta) =>
      ThresholdSum(v, m);
      Some(Shrink(v, theta))
  }

  // ---------------------------------------------------------------------
  // Existence of the threshold

  /** A threshold is found exactly for a positive mass and a non-empty vector. */
  lemma ThresholdExists(v: Vector, m: real)
    ensures Threshold(v, m).Some? <==> m > 0.0 && |v| > 0
  {
    var u := SortDescending(v);
    if m > 0.0 && |v| > 0 {
      FirstQualifies(u, m);
    }
    if m <= 0.0 {
      NoneQualifies(u, m);
    }
  }

  /** For a positive mass index 0 passes the filter: `u[0] - (u[0] - m) = m`. */
  lemma FirstQualifies(u: Vector, m: real)
    requires |u| > 0 && m > 0.0
    ensures Qualifies(u, m, 0)
  {
    assert u[..1] == [u[0]];
    assert Sum(u[..1]) == u[0] + Sum(u[..1][1..]);
  }

  /** For a mass that is not positive no index passes the filter. */
  lemma NoneQualifies(u: Vector, m: real)
    requires SortedDescending(u) && m <= 0.0
    ensures forall k :: 0 <= k < |u| ==> !Qualifies(u, m, k)
  {
    forall k | 0 <= k < |u| ensures !Qualifies(u, m, k) {
      PrefixSumAtLeast(u, k);
      NotAboveMean(u[k], Sum(u[..k + 1]), m, (k + 1) as real);
    }
  }

  /** In a descending sequence the first `k + 1` entries sum to at least `(k + 1) u[k]`. */
  lemma PrefixSumAtLeast(u: Vector, k: nat)
    requires SortedDescending(u) && k < |u|
    ensures Sum(u[..k + 1]) >= ((k + 1) as real) * u[k]
  {
    var c := Scaled(u[k], Ones(k + 1));
    SumScaled(u[k], Ones(k + 1));
    SumOnes(k + 1);
    SumMonotone(c, u[..k + 1]);
  }

  lemma {:induction false} SumOnes(n: nat)
    ensures Sum(Ones(n)) == n as real
  {
    if n > 0 {
      assert Ones(n)[1..] == Ones(n - 1);
      SumOnes(n - 1);
    }
  }

  lemma NotAboveMean(y: real, s: real, m: real, c: real)
    requires c > 0.0 && s >= c * y && m <= 0.0
    ensures !(y - (s - m) / c > 0.0)
  {
    var q := (s - m) / c;
    assert c * q == s - m;
    var d := Product(c, y - q);
    assert d == c * y - c * q;
  }

  // ---------------------------------------------------------------------
  // The projection sums to m

  /** Entries up to `rho` lie above the threshold, the others at or below it. */
  lemma ThresholdSeparates(u: Vector, m: real, rho: nat)
    requires SortedDescending(u) && rho < |u| && Qualifies(u, m, rho)
    requires rho + 1 == |u| || !Qualifies(u, m, rho + 1)
    ensures forall i :: 0 <= i <= rho ==> u[i] > Pi(u, m, rho)
    ensures forall i :: rho < i < |u| ==> u[i] <= Pi(u, m, rho)
  {
    if rho + 1 < |u| {
      assert u[..rho + 2] == u[..rho + 1] + [u[rho + 1]];
      SumAppend(u[..rho + 1], [u[rho + 1]]);
      assert Sum([u[rho + 1]]) == u[rho + 1];
      NextNotAbove(u[rho + 1], Sum(u[..rho + 1]), m, (rho + 1) as real);
    }
  }

  /** `y <= (s + y - m) / (c + 1)` means `y <= (s - m) / c`. */
  lemma NextNotAbove(y: real, s: real, m: real, c: real)
    requires c > 0.0
    requires !(y - (s + y - m) / (c + 1.0) > 0.0)
    ensures y <= (s - m) / c
  {
    var p := (s + y - m) / (c + 1.0);
    var q := (s - m) / c;
    assert (c + 1.0) * p == s + y - m;
    assert c * q == s - m;
    var d := Product(c, y - q);
    var e := Product(c + 1.0, p - y);
    assert d == c * y - c * q;
    assert e == (c + 1.0) * p - c * y - y;
  }

  /** For the threshold found in `u`, the shrunk entries of `u` sum to `m`. */
  lemma ShrinkSortedSum(u: Vector, m: real, rho: nat)
    requires SortedDescending(u) && rho < |u| && Qualifies(u, m, rho)
    requires rho + 1 == |u| || !Qualifies(u, m, rho + 1)
    ensures Sum(Shrink(u, Pi(u, m, rho))) == m
  {
    var theta := Pi(u, m, rho);
    ThresholdSeparates(u, m, rho);
    var head, tail := u[..rho + 1], u[rho + 1..];
    assert u == head + tail;
    ShrinkAppend(head, tail, theta);
    SumAppend(Shrink(head, theta), Shrink(tail, theta));
    ShrinkAbove(head, theta);
    ShrinkBelow(tail, theta);
    MeanTimesCount(Sum(head), m, (rho + 1) as real);
  }

  lemma ShrinkAppend(a: Vector, b: Vector, theta: real)
    ensures Shrink(a + b, theta) == Shrink(a, theta) + Shrink(b, theta)
  {
  }

  /** Entries above the threshold each lose exactly `theta`. */
  lemma {:induction false} ShrinkAbove(a: Vector, theta: real)
    requires forall i :: 0 <= i < |a| ==> a[i] > theta
    ensures Sum(Shrink(a, theta)) == Sum(a) - (|a| as real) * theta
  {
    if a != [] {
      ShrinkCons(a[0], a[1..], theta);
      assert [a[0]] + a[1..] == a;
      ShrinkAbove(a[1..], theta);
    }
  }

  /** Entries at or below the threshold vanish. */
  lemma {:induction false} ShrinkBelow(a: Vector, theta: real)
    requires forall i :: 0 <= i < |a| ==> a[i] <= theta
    ensures Sum(Shrink(a, theta)) == 0.0
  {
    if a != [] {
      ShrinkCons(a[0], a[1..], theta);
      assert [a[0]] + a[1..] == a;
      ShrinkBelow(a[1..], theta);
    }
  }

  lemma MeanTimesCount(s: real, m: real, c: real)
    requires c > 0.0
    ensures s - c * ((s - m) / c) == m
  {
  }

  /** The shrunk entries of `v` sum to `m` whenever a threshold is found. */
  lemma ThresholdSum(v: Vector, m: real)
    requires Threshold(v, m).Some?
    ensures Sum(Shrink(v, Threshold(v, m).value)) == m
  {
    var u := SortDescending(v);
    var rho := LastQualifying(u, m, |u|).value;
    ShrinkSortedSum(u, m, rho);
    ShrinkSumSorted(v, Pi(u, m, rho));
  }

  // ---------------------------------------------------------------------
  // Sorting does not change sums of shrunk entries

  lemma ShrinkCons(x: real, s: Vector, theta: real)
    ensures Sum(Shrink([x] + s, theta)) == Max0(x - theta) + Sum(Shrink(s, theta))
  {
    assert Shrink([x] + s, theta)[1..] == Shrink(s, theta);
  }

  lemma {:induction false} ShrinkSumInsert(x: real, s: Vector, theta: real)
    requires SortedDescending(s)
    ensures Sum(Shrink(Insert(x, s), theta)) == Max0(x - theta) + Sum(Shrink(s, theta))
  {
    if s == [] || x >= s[0] {
      ShrinkCons(x, s, theta);
    } else {
      ShrinkSumInsert(x, s[1..], theta);
      ShrinkCons(s[0], Insert(x, s[1..]), theta);
      ShrinkCons(s[0], s[1..], theta);
      assert [s[0]] + s[1..] == s;
    }
  }

  lemma {:induction false} ShrinkSumSorted(v: Vector, theta: real)
    ensures Sum(Shrink(SortDescending(v), theta)) == Sum(Shrink(v, theta))
  {
    if v != [] {
      ShrinkSumSorted(v[1..], theta);
      ShrinkSumInsert(v[0], SortDescending(v[1..]), theta);
      ShrinkCons(v[0], v[1..], theta);
      assert [v[0]] + v[1..] == v;
    }
  }

  // ---------------------------------------------------------------------
  // Points of the simplex are left in place

  /** Shrinking a non-negative vector at zero changes nothing. */
  lemma ShrinkZero(v: Vector)
    requires NonNegative(v)
    ensures Shrink(v, 0.0) == v
  {
  }

  /** A positive threshold strictly lowers the sum when some entry exceeds it. */
  lemma ShrinkLowers(u: Vector, theta: real)
    requires NonNegative(u) && |u| > 0 && theta > 0.0 && u[0] > theta
    ensures Sum(Shrink(u, theta)) < Sum(u)
  {
    var s := Shrink(u, theta);
    forall i | 0 <= i < |u| ensures s[i] <= u[i] {
      assert s[i] == Max0(u[i] - theta);
    }
    SumStrictlyMonotone(s, u, 0);
  }

  /** A negative threshold strictly raises the sum. */
  lemma ShrinkRaises(u: Vector, theta: real)
    requires NonNegative(u) && |u| > 0 && theta < 0.0
    ensures Sum(u) < Sum(Shrink(u, theta))
  {
    var s := Shrink(u, theta);
    forall i | 0 <= i < |u| ensures u[i] < s[i] {
      assert s[i] == Max0(u[i] - theta);
    }
    SumStrictlyMonotone(u, s, 0);
  }

  lemma SortedNonNegative(v: Vector)
    requires NonNegative(v)
    ensures NonNegative(SortDescending(v))
  {
    var u := SortDescending(v);
    forall i | 0 <= i < |u| ensures u[i] >= 0.0 {
      assert u[i] in multiset(v);
      var j :| 0 <= j < |v| && v[j] == u[i];
    }
  }

  /** A point already on the simplex is its own projection. */
  lemma ProjectSimplexFixesFeasible(v: Vector, m: real)
    requires NonNegative(v) && Sum(v) == m && m > 0.0
    ensures ProjectSimplex(v, m) == Some(v)
  {
    if v != [] {
      ThresholdExists(v, m);
      var u := SortDescending(v);
      var rho := LastQualifying(u, m, |u|).value;
      var theta := Pi(u, m, rho);
      SortedNonNegative(v);
      ThresholdSeparates(u, m, rho);
      ShrinkSortedSum(u, m, rho);
      ShrinkSumSorted(v, 0.0);
      ShrinkZero(v);
      ShrinkZero(u);
      SignOfThreshold(u, theta, m);
    }
  }

  /** The only threshold at which a point of the simplex keeps its sum is zero. */
  lemma SignOfThreshold(u: Vector, theta: real, m: real)
    requires NonNegative(u) && |u| > 0 && u[0] > theta
    requires Sum(u) == m && Sum(Shrink(u, theta)) == m
    ensures theta == 0.0
  {
    if theta > 0.0 {
      ShrinkLowers(u, theta);
    } else if theta < 0.0 {
      ShrinkRaises(u, theta);
    }
  }

  /** Projecting twice is projecting once. */
  lemma ProjectSimplexIdempotent(v: Vector, m: real)
    requires ProjectSimplex(v, m).Some?
    ensures ProjectSimplex(ProjectSimplex(v, m).value, m) == ProjectSimplex(v, m)
  {
    ProjectSimplexFixesFeasible(ProjectSimplex(v, m).value, m);
  }
}
