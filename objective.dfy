/**
 * hydrosolver/optimization.py, lines 64-139: the weighted least squares
 * objective, the optimization problem built from a solution and a target
 * composition, and the waypoints of the descent.
 *
 * A problem carries its objective functional as a pair of partial
 * functions, so that the descent holds for any functional; `optimize`
 * uses the weighted least squares one.
 */
module Objective {
  import opened Wrappers
  import opened Vectors
  import opened Core
  import Compositions
  import opened Solutions

  // ---------------------------------------------------------------------
  // Weights

  /**
   * `WLSObjectiveFunctional(weights)` as evidently intended: no weights
   * means one unit weight per nutrient of the stencil.
   */
  function Weights(weights: Option<Vector>): (w: Vector)
    ensures weights.None? ==> w == Ones(Compositions.StencilLength) && |w| == 13
    ensures weights.Some? ==> w == weights.value
  {
    if weights.None? then Ones(Compositions.StencilLength) else weights.value
  }

  /**
   * `WLSObjectiveFunctional(weights)` as written: the default looks up
   * `composition.nutrients_stencil`, which the composition module does not
   * define.
   */
  function WeightsAsWritten(weights: Option<Vector>): (r: Result<Vector>)
    ensures r.Err? <==> weights.None?
    ensures r.Ok? ==> r.value == Weights(weights)
  {
    if weights.None? then Err(AttributeError("module 'composition' has no attribute 'nutrients_stencil'"))
    else Ok(weights.value)
  }

  /** The default objective raises as written, and is the unweighted one as intended. */
  lemma DefaultWeightsAsWritten()
    ensures WeightsAsWritten(None).Err? && WeightsAsWritten(None).error.AttributeError?
    ensures forall i :: 0 <= i < |Weights(None)| ==> Weights(None)[i] == 1.0
  {
  }

  predicate Positive(w: Vector)
  {
    forall i :: 0 <= i < |w| ==> w[i] > 0.0
  }

  // ---------------------------------------------------------------------
  // The weighted least squares objective

  /** `cost(A, b, x) = np.inner(w, (A @ x - b)**2)`. */
  function WlsCost(w: Vector, A: Matrix, b: Vector, x: Vector): (c: real)
    requires IsMatrix(A, |x|) && |b| == |A| && |w| == |A|
    ensures NonNegative(w) ==> c >= 0.0
    ensures Positive(w) ==> (c == 0.0 <==> MatVec(A, x) == b)
  {
    var r := Residual(A, b, x);
    WeightedSquaresSign(w, r);
    ResidualZeroIff(A, b, x);
    Dot(w, Hadamard(r, r))
  }

  /** `grad(A, b, x) = 2 * w * (A @ x - b) @ A`. */
  function WlsGrad(w: Vector, A: Matrix, b: Vector, x: Vector): (g: Vector)
    requires IsMatrix(A, |x|) && |b| == |A| && |w| == |A|
    ensures |g| == |x|
    ensures MatVec(A, x) == b ==> g == Zeros(|x|)
  {
    var r := Residual(A, b, x);
    ResidualZeroIff(A, b, x);
    WeightedGradAtZero(w, A, r, |x|);
    VecMat(Scaled(2.0, Hadamard(w, r)), A, |x|)
  }

  /**
   * With unit weights the objective is the squared norm of the residual
   * and its gradient the one of core.py.
   */
  lemma UnitWeights(A: Matrix, b: Vector, x: Vector)
    requires IsMatrix(A, |x|) && |b| == |A|
    ensures WlsCost(Ones(|A|), A, b, x) == Norm2(Residual(A, b, x))
    ensures WlsGrad(Ones(|A|), A, b, x) == Gradient(A, b, x)
  {
    var r := Residual(A, b, x);
    DotOnesHadamard(r, r);
    assert Hadamard(Ones(|A|), r) == r;
  }

  /**
   * The gradient is the derivative of the cost: along `x + t d` the cost is
   * the quadratic whose slope at `t = 0` is `grad(x) . d`.
   */
  lemma {:induction false} CostAlongLine(w: Vector, A: Matrix, b: Vector, x: Vector, t: real, d: Vector)
    requires |x| == |d| && IsMatrix(A, |x|) && |b| == |A| && |w| == |A|
    ensures WlsCost(w, A, b, Plus(x, Scaled(t, d)))
         == Quadratic(WlsCost(w, A, b, x), Dot(WlsGrad(w, A, b, x), d), WlsCost(w, A, Zeros(|A|), d), t)
  {
    CostShifted(w, A, b, x, t, d);
    SlopeAlong(w, A, b, x, d);
    CostOfDirection(w, A, d);
    WeightedSquaresAlongLine(w, Residual(A, b, x), MatVec(A, d), t);
  }

  /** `c0 + c1 t + c2 t^2`. */
  function Quadratic(c0: real, c1: real, c2: real, t: real): real
  {
    c0 + c1 * t + c2 * (t * t)
  }

  lemma {:induction false} CostShifted(w: Vector, A: Matrix, b: Vector, x: Vector, t: real, d: Vector)
    requires |x| == |d| && IsMatrix(A, |x|) && |b| == |A| && |w| == |A|
    ensures var r := Residual(A, b, x); var q := MatVec(A, d);
      WlsCost(w, A, b, Plus(x, Scaled(t, d))) == Dot(w, Hadamard(Plus(r, Scaled(t, q)), Plus(r, Scaled(t, q))))
  {
    var r := Residual(A, b, x);
    var q := MatVec(A, d);
    MatVecAffine(A, x, t, d);
    assert Residual(A, b, Plus(x, Scaled(t, d))) == Plus(r, Scaled(t, q));
  }

  lemma {:induction false} SlopeAlong(w: Vector, A: Matrix, b: Vector, x: Vector, d: Vector)
    requires |x| == |d| && IsMatrix(A, |x|) && |b| == |A| && |w| == |A|
    ensures Dot(WlsGrad(w, A, b, x), d) == 2.0 * Dot(w, Hadamard(Residual(A, b, x), MatVec(A, d)))
  {
    var r := Residual(A, b, x);
    var q := MatVec(A, d);
    DotMatVec(Scaled(2.0, Hadamard(w, r)), A, d);
    DotScaledLeft(2.0, Hadamard(w, r), q);
    DotHadamardShift(w, r, q);
  }

  lemma {:induction false} CostOfDirection(w: Vector, A: Matrix, d: Vector)
    requires IsMatrix(A, |d|) && |w| == |A|
    ensures WlsCost(w, A, Zeros(|A|), d) == Dot(w, Hadamard(MatVec(A, d), MatVec(A, d)))
  {
    assert Residual(A, Zeros(|A|), d) == MatVec(A, d);
  }

  // Facts about weighted sums of squares behind the objective.

  lemma WeightedSquaresSign(w: Vector, r: Vector)
    requires |w| == |r|
    ensures NonNegative(w) ==> Dot(w, Hadamard(r, r)) >= 0.0
    ensures Positive(w) ==> (Dot(w, Hadamard(r, r)) == 0.0 <==> r == Zeros(|r|))
  {
    if NonNegative(w) {
      SquaresNonNegative(r);
      DotNonNegative(w, Hadamard(r, r));
    }
    if Positive(w) {
      WeightedSquaresZeroIff(w, r);
    }
  }

  lemma WeightedGradAtZero(w: Vector, A: Matrix, r: Vector, cols: nat)
    requires |w| == |r| == |A| && IsMatrix(A, cols)
    ensures r == Zeros(|A|) ==> VecMat(Scaled(2.0, Hadamard(w, r)), A, cols) == Zeros(cols)
  {
    if r == Zeros(|A|) {
      assert Scaled(2.0, Hadamard(w, r)) == Zeros(|A|);
      VecMatZeros(A, cols);
    }
  }

  lemma SquaresNonNegative(r: Vector)
    ensures NonNegative(Hadamard(r, r))
  {
    forall i | 0 <= i < |r| ensures Hadamard(r, r)[i] >= 0.0 {
      var s := Square(r[i]);
    }
  }

  lemma {:induction false} DotNonNegative(a: Vector, b: Vector)
    requires |a| == |b| && NonNegative(a) && NonNegative(b)
    ensures Dot(a, b) >= 0.0
  {
    if a != [] {
      DotNonNegative(a[1..], b[1..]);
      var p := Product(a[0], b[0]);
    }
  }

  lemma {:induction false} DotOnesHadamard(a: Vector, b: Vector)
    requires |a| == |b|
    ensures Dot(Ones(|a|), Hadamard(a, b)) == Dot(a, b)
  {
    if a != [] {
      assert Ones(|a|)[1..] == Ones(|a| - 1);
      HadamardTail(a, b);
      DotOnesHadamard(a[1..], b[1..]);
    }
  }

  /** With positive weights the weighted sum of squares vanishes only at zero. */
  lemma {:induction false} WeightedSquaresZeroIff(w: Vector, r: Vector)
    requires |w| == |r| && Positive(w)
    ensures Dot(w, Hadamard(r, r)) == 0.0 <==> r == Zeros(|r|)
  {
    if r != [] {
      HadamardTail(r, r);
      WeightedSquaresZeroIff(w[1..], r[1..]);
      SquaresNonNegative(r[1..]);
      DotNonNegative(w[1..], Hadamard(r[1..], r[1..]));
      var s := Square(r[0]);
      var head := Product(w[0], s);
      assert Dot(w, Hadamard(r, r)) == head + Dot(w[1..], Hadamard(r[1..], r[1..]));
      if Dot(w, Hadamard(r, r)) == 0.0 {
        assert r[0] == 0.0;
        assert r == [r[0]] + r[1..];
      }
      if r == Zeros(|r|) {
        assert r[1..] == Zeros(|r| - 1);
      }
    }
  }

  lemma {:induction false} WeightedSquaresAlongLine(w: Vector, r: Vector, q: Vector, t: real)
    requires |w| == |r| == |q|
    ensures Dot(w, Hadamard(Plus(r, Scaled(t, q)), Plus(r, Scaled(t, q))))
         == Quadratic(Dot(w, Hadamard(r, r)), 2.0 * Dot(w, Hadamard(r, q)), Dot(w, Hadamard(q, q)), t)
  {
    SquaresAlongLine(r, q, t);
    DotCombination(w, Hadamard(r, r), 2.0 * t, Hadamard(r, q), t * t, Hadamard(q, q));
    QuadraticForm(Dot(w, Hadamard(r, r)), Dot(w, Hadamard(r, q)), Dot(w, Hadamard(q, q)), t);
  }

  lemma QuadraticForm(a: real, b: real, c: real, t: real)
    ensures a + 2.0 * t * b + t * t * c == Quadratic(a, 2.0 * b, c, t)
  {
  }

  lemma {:induction false} DotCombination(w: Vector, a: Vector, k: real, b: Vector, l: real, c: Vector)
    requires |w| == |a| == |b| == |c|
    ensures Dot(w, Plus(Plus(a, Scaled(k, b)), Scaled(l, c))) == Dot(w, a) + k * Dot(w, b) + l * Dot(w, c)
  {
    DotPlusRight(w, Plus(a, Scaled(k, b)), Scaled(l, c));
    DotPlusRight(w, a, Scaled(k, b));
    DotScaledRight(w, k, b);
    DotScaledRight(w, l, c);
  }
  lemma {:induction false} SquaresAlongLine(r: Vector, q: Vector, t: real)
    requires |r| == |q|
    ensures Hadamard(Plus(r, Scaled(t, q)), Plus(r, Scaled(t, q)))
         == Plus(Plus(Hadamard(r, r), Scaled(2.0 * t, Hadamard(r, q))), Scaled(t * t, Hadamard(q, q)))
  {
    forall i | 0 <= i < |r|
      ensures Hadamard(Plus(r, Scaled(t, q)), Plus(r, Scaled(t, q)))[i]
           == Plus(Plus(Hadamard(r, r), Scaled(2.0 * t, Hadamard(r, q))), Scaled(t * t, Hadamard(q, q)))[i]
    {
      SquaresAlongLineEntry(r, q, t, i);
    }
  }
  lemma {:induction false} SquaresAlongLineEntry(r: Vector, q: Vector, t: real, i: nat)
    requires |r| == |q| && i < |r|
    ensures Hadamard(Plus(r, Scaled(t, q)), Plus(r, Scaled(t, q)))[i]
         == Plus(Plus(Hadamard(r, r), Scaled(2.0 * t, Hadamard(r, q))), Scaled(t * t, Hadamard(q, q)))[i]
  {
    var u := Plus(r, Scaled(t, q));
    var ri, qi := r[i], q[i];
    assert u[i] == ri + t * qi;
    SquareExpand(ri, qi, t);
    assert Hadamard(u, u)[i] == u[i] * u[i];
    assert u[i] * u[i] == ri * ri + 2.0 * t * (ri * qi) + t * t * (qi * qi);
  }
  lemma SquareExpand(r: real, q: real, t: real)
    ensures (r + t * q) * (r + t * q) == r * r + 2.0 * t * (r * q) + t * t * (q * q)
  {
  }

  lemma {:induction false} DotHadamardShift(w: Vector, r: Vector, q: Vector)
    requires |w| == |r| == |q|
    ensures Dot(Hadamard(w, r), q) == Dot(w, Hadamard(r, q))
  {
    if w != [] {
      HadamardTail(w, r);
      HadamardTail(r, q);
      DotHadamardShift(w[1..], r[1..], q[1..]);
    }
  }

  // ---------------------------------------------------------------------
  // Objective functionals

  /**
   * `ObjectiveFunctional`: the cost of a formulation `x` for the matrix `A`
   * and the target `b`, and its gradient, each defined where the shapes
   * suit it.
   */
  datatype Functional = Functional(cost: (Matrix, Vector, Vector) --> real, grad: (Matrix, Vector, Vector) --> Vector)

  /**
   * The functional is defined at every formulation of `n` entries for `A`
   * and `b`, and its gradient there has `n` entries.
   */
  ghost predicate DefinedFor(f: Functional, A: Matrix, b: Vector, n: nat)
  {
    (forall x: Vector {:trigger f.cost.requires(A, b, x)} :: |x| == n ==> f.cost.requires(A, b, x)) &&
    (forall x: Vector {:trigger f.grad.requires(A, b, x)} :: |x| == n ==> f.grad.requires(A, b, x) && |f.grad(A, b, x)| == n)
  }

  /**
   * `WLSObjectiveFunctional(w)`: where the shapes of `w`, `A`, `b` and `x`
   * agree, its `cost` and `grad` are the weighted least squares ones.
   */
  function Wls(w: Vector): (f: Functional)
    ensures forall A: Matrix, b: Vector, x: Vector :: IsMatrix(A, |x|) && |b| == |A| && |w| == |A| ==>
      f.cost.requires(A, b, x) && f.cost(A, b, x) == WlsCost(w, A, b, x) &&
      f.grad.requires(A, b, x) && f.grad(A, b, x) == WlsGrad(w, A, b, x)
  {
    Functional((A: Matrix, b: Vector, x: Vector) requires IsMatrix(A, |x|) && |b| == |A| && |w| == |A| => WlsCost(w, A, b, x),
               (A: Matrix, b: Vector, x: Vector) requires IsMatrix(A, |x|) && |b| == |A| && |w| == |A| => WlsGrad(w, A, b, x))
  }

  /** With one weight per row of `A` the weighted least squares functional is defined at every formulation. */
  lemma WlsDefined(w: Vector, A: Matrix, b: Vector, n: nat)
    requires IsMatrix(A, n) && |b| == |A| && |w| == |A|
    ensures DefinedFor(Wls(w), A, b, n)
  {
  }

  // ---------------------------------------------------------------------
  // The optimization problem

  /** `OptimizationProblem`: the matrix, the target masses, the start and the objective functional. */
  datatype Problem = Problem(A: Matrix, b: Vector, xInit: Vector, objective: Functional)
  {
    /** The shapes numpy needs for `cost` and `grad` to be defined. */
    ghost predicate WellFormed()
    {
      IsMatrix(A, |xInit|) && |b| == |A| && DefinedFor(objective, A, b, |xInit|)
    }

    /** `cost(x)`: under the weighted least squares functional, the WLS cost, never negative for non-negative weights. */
    function Cost(x: Vector): (c: real)
      requires WellFormed() && |x| == |xInit|
      ensures forall w: Vector {:trigger Wls(w)} :: objective == Wls(w) && |w| == |A| ==>
        c == WlsCost(w, A, b, x) && (NonNegative(w) ==> c >= 0.0)
    {
      objective.cost(A, b, x)
    }

    function Grad(x: Vector): (g: Vector)
      requires WellFormed() && |x| == |xInit|
      ensures |g| == |xInit|
    {
      objective.grad(A, b, x)
    }
  }

  /** Under the weighted least squares functional with non-negative weights no formulation costs less than zero. */
  lemma WlsProblemCost(p: Problem, w: Vector, x: Vector)
    requires p.WellFormed() && p.objective == Wls(w) && |w| == |p.A| && |x| == |p.xInit|
    ensures p.Cost(x) == WlsCost(w, p.A, p.b, x)
    ensures NonNegative(w) ==> p.Cost(x) >= 0.0
    ensures p.Grad(x) == WlsGrad(w, p.A, p.b, x)
  {
  }

  /**
   * `OptimizationProblem(solution_init, composition_target, objective)`:
   * the matrix of the solution, the target nutrient masses for the
   * solution's total mass, and the solution's formulation as the start.
   */
  function MakeProblem(s: Solution, target: Compositions.Composition, objective: Functional): (r: Result<Problem>)
    requires s.Valid()
    ensures r.Ok? <==> Stackable(s.compositions)
    ensures r.Ok? ==> r.value.A == SystemMatrix(s.compositions).value && r.value.xInit == s.formulation
    ensures r.Ok? ==> r.value.b == Scaled(s.Mass(), target.NutrientVector()) && r.value.objective == objective
    ensures r.Ok? ==> IsMatrix(r.value.A, |r.value.xInit|)
    ensures r.Ok? && |target.NutrientVector()| == |r.value.A| ==>
      (DefinedFor(objective, r.value.A, r.value.b, |r.value.xInit|) ==> r.value.WellFormed())
  {
    match SystemMatrix(s.compositions)
    case Err(e) => Err(e)
    case Ok(A) => Ok(Problem(A, Scaled(s.Mass(), target.NutrientVector()), s.formulation, objective))
  }

  /**
   * The residual of the problem vanishes at the initial formulation exactly
   * when the solution already has the target composition.
   */
  lemma ProblemSolvedIffTarget(s: Solution, target: Compositions.Composition, objective: Functional)
    requires s.Valid() && Stackable(s.compositions) && s.Mass() != 0.0
    requires |target.NutrientVector()| == |MakeProblem(s, target, objective).value.A|
    ensures var p := MakeProblem(s, target, objective).value;
      (Residual(p.A, p.b, p.xInit) == Zeros(|p.A|) <==> Resulting(s).value.NutrientVector() == target.NutrientVector())
  {
    var p := MakeProblem(s, target, objective).value;
    ResidualZeroIff(p.A, p.b, p.xInit);
    ScaledEqualIff(s.Mass(), MatVec(p.A, p.xInit), target.NutrientVector());
  }

  /** Scaling by a non-zero `m` and by `1 / m` undo each other. */
  lemma ScaledEqualIff(m: real, y: Vector, t: Vector)
    requires m != 0.0 && |y| == |t|
    ensures y == Scaled(m, t) <==> Scaled(1.0 / m, y) == t
  {
    if y == Scaled(m, t) {
      forall i | 0 <= i < |t| ensures Scaled(1.0 / m, y)[i] == t[i] {
        Inverse(m, t[i]);
      }
    }
    if Scaled(1.0 / m, y) == t {
      forall i | 0 <= i < |t| ensures y[i] == Scaled(m, t)[i] {
        Inverse(m, y[i]);
      }
    }
  }

  lemma Inverse(m: real, x: real)
    requires m != 0.0
    ensures (1.0 / m) * (m * x) == x && m * ((1.0 / m) * x) == x
  {
  }

  // ---------------------------------------------------------------------
  // Waypoints

  /** `OptimizationWaypoint`: a formulation of the problem it belongs to. */
  datatype Waypoint = Waypoint(problem: Problem, x: Vector)
  {
    ghost predicate WellFormed()
    {
      problem.WellFormed() && |x| == |problem.xInit|
    }

    /** `cost`: the problem's cost at this point, so the WLS cost under the weighted least squares functional. */
    function Cost(): (c: real)
      requires WellFormed()
      ensures forall w: Vector {:trigger Wls(w)} :: problem.objective == Wls(w) && |w| == |problem.A| ==>
        c == WlsCost(w, problem.A, problem.b, x) && (NonNegative(w) ==> c >= 0.0)
    {
      problem.Cost(x)
    }

    function Grad(): (g: Vector)
      requires WellFormed()
      ensures |g| == |x|
    {
      problem.Grad(x)
    }

    /** `grad_norm2`: never negative, zero exactly at a stationary point. */
    function GradNorm2(): (n: real)
      requires WellFormed()
      ensures n >= 0.0
      ensures n == 0.0 <==> Grad() == Zeros(|x|)
    {
      Norm2(Grad())
    }

    /** `spawn(x)`: a waypoint of the same problem. */
    function Spawn(x': Vector): (w: Waypoint)
      ensures w.problem == problem && w.x == x'
      ensures |x'| == |x| && WellFormed() ==> w.WellFormed()
    {
      Waypoint(problem, x')
    }
  }

  /** `OptimizationWaypoint(problem)`: the waypoint at the initial formulation. */
  function InitialWaypoint(p: Problem): (w: Waypoint)
    ensures w.problem == p && w.x == p.xInit
    ensures p.WellFormed() ==> w.WellFormed()
  {
    Waypoint(p, p.xInit)
  }
}
