/**
 * `projected_gradient_descent` and `optimize` of
 * hydrosolver/optimization.py: gradient steps with Armijo backtracking,
 * each trial projected back onto the simplex of the initial total mass.
 *
 * `Backtrack`, `Pass` and `Descend` are the three loops written as
 * recursive functions (`Descend` over any loop body that keeps points
 * well formed); the methods `LineSearch`, `Iterate` and
 * `ProjectedGradientDescent` are the loops themselves, each proved to
 * compute its function. The properties of the run are lemmas about
 * `Trajectory`, the run of `Descend` with the body `Pass`. The projection
 * and the objective functional are parameters, so these lemmas hold for any
 * projection onto the simplex and any objective.
 */
module Descent {
  import opened Wrappers
  import opened Vectors
  import Compositions
  import opened Solutions
  import opened Objective
  import opened Simplex

  /** How the descent ended. */
  datatype Termination =
    | IterationLimit     // the `for` loop ran out
    | ToleranceReached   // `DescendToleranceException`
    | Looped             // `DescendLoopException`
    | Interrupted        // `KeyboardInterrupt`, arriving at the start of an iteration
    | BacktrackLimit     // the line search gave up (the source has no such bound)
    | ProjectionFailed   // `project_simplex` raised `IndexError`, which escapes the function

  /**
   * A projection onto the simplex, with what `project_simplex` promises
   * of it: a result exactly when the mass is positive and the vector
   * non-empty, of the same length, non-negative and summing to the mass.
   */
  type Projection = (Vector, real) -> Option<Vector>

  ghost predicate OntoSimplex(project: Projection)
  {
    forall v: Vector, m: real ::
      (project(v, m).Some? <==> m > 0.0 && |v| > 0) &&
      (project(v, m).Some? ==>
        |project(v, m).value| == |v| && NonNegative(project(v, m).value) && Sum(project(v, m).value) == m)
  }

  /** `project_simplex` is such a projection. */
  lemma ProjectSimplexOntoSimplex()
    ensures OntoSimplex(ProjectSimplex)
  {
    forall v: Vector, m: real
      ensures (ProjectSimplex(v, m).Some? <==> m > 0.0 && |v| > 0) &&
        (ProjectSimplex(v, m).Some? ==>
          (|ProjectSimplex(v, m).value| == |v| &&
           NonNegative(ProjectSimplex(v, m).value) && Sum(ProjectSimplex(v, m).value) == m))
    {
    }
  }

  /**
   * The keyword arguments of `projected_gradient_descent`; the projection
   * it calls; the number of rejected trials after which the line search
   * gives up; and the iteration, if any, at whose start the user interrupts.
   */
  datatype Settings = Settings(
    iterMax: nat, stepInit: real, tolerance: real, sigma: real, beta: real, stepPrediction: bool,
    maxBacktracks: nat, interruptAt: Option<nat>, project: Projection)
  {
    ghost predicate Valid()
    {
      beta != 0.0 && OntoSimplex(project)
    }
  }

  // ---------------------------------------------------------------------
  // One trial of the line search

  function Pow(x: real, n: nat): real
  {
    if n == 0 then 1.0 else Pow(x, n - 1) * x
  }

  lemma {:induction false} PowPositive(x: real, n: nat)
    requires x > 0.0
    ensures Pow(x, n) > 0.0
  {
    if n > 0 {
      PowPositive(x, n - 1);
      var p := Product(Pow(x, n - 1), x);
    }
  }

  /** The step after `rejections` multiplications by `beta`. */
  function StepAt(start: real, beta: real, rejections: nat): real
  {
    start * Pow(beta, rejections)
  }

  lemma StepAtNonNegative(start: real, beta: real, j: nat)
    requires start >= 0.0 && beta > 0.0
    ensures StepAt(start, beta, j) >= 0.0
  {
    PowPositive(beta, j);
    var p := Product(start, Pow(beta, j));
  }

  /**
   * `point.grad_norm < tolerance`, with the square root squared away: never
   * for a tolerance that is not positive, and always for a positive one at
   * a stationary point.
   */
  predicate Converged(point: Waypoint, tolerance: real)
    requires point.WellFormed()
    ensures tolerance <= 0.0 ==> !Converged(point, tolerance)
    ensures point.Grad() == Zeros(|point.x|) ==> (Converged(point, tolerance) <==> tolerance > 0.0)
  {
    assert point.Grad() == Zeros(|point.x|) && tolerance > 0.0 ==> point.GradNorm2() < tolerance * tolerance by {
      if point.Grad() == Zeros(|point.x|) && tolerance > 0.0 {
        var square := Product(tolerance, tolerance);
      }
    }
    tolerance > 0.0 && point.GradNorm2() < tolerance * tolerance
  }

  /** The trial point for `step`, or nothing where the projection raises. */
  function Trial(point: Waypoint, mass: real, step: real, settings: Settings): (r: Option<Waypoint>)
    requires point.WellFormed() && settings.Valid()
    ensures r.Some? <==> mass > 0.0 && |point.x| > 0
    ensures r.Some? ==> r.value.problem == point.problem && r.value.WellFormed()
    ensures r.Some? ==> NonNegative(r.value.x) && Sum(r.value.x) == mass
  {
    match settings.project(Minus(point.x, Scaled(step, point.Grad())), mass)
    case None => None
    case Some(x) => Some(point.Spawn(x))
  }

  /**
   * The Armijo sufficient-decrease test; with `sigma` zero, or at a
   * stationary point, it asks only for a lower cost.
   */
  predicate Armijo(point: Waypoint, trial: Waypoint, sigma: real, step: real)
    requires point.WellFormed() && trial.WellFormed()
    ensures sigma == 0.0 ==> (Armijo(point, trial, sigma, step) <==> trial.Cost() < point.Cost())
    ensures point.Grad() == Zeros(|point.x|) ==> (Armijo(point, trial, sigma, step) <==> trial.Cost() < point.Cost())
  {
    trial.Cost() < point.Cost() - sigma * step * point.GradNorm2()
  }

  /** A point that passes the Armijo test with a non-negative decrease term costs less. */
  lemma ArmijoDecreases(point: Waypoint, trial: Waypoint, sigma: real, step: real)
    requires point.WellFormed() && trial.WellFormed() && Armijo(point, trial, sigma, step)
    requires sigma >= 0.0 && step >= 0.0
    ensures trial.Cost() < point.Cost()
  {
    var p := Product(sigma, step);
    var q := Product(p, point.GradNorm2());
  }

  /** The verdict on one trial of the inner loop. */
  datatype Verdict =
    | NoProjection    // the projection raises
    | Stall           // the trial is the current point: the loop test fires
    | Reject          // the trial fails the Armijo test
    | Accept(trial: Waypoint)

  /** One pass through the body of the inner `while True` loop at `step`. */
  function Judge(point: Waypoint, mass: real, step: real, settings: Settings): (v: Verdict)
    requires point.WellFormed() && settings.Valid()
    ensures v.NoProjection? <==> !(mass > 0.0 && |point.x| > 0)
    ensures v.Accept? ==> v.trial.WellFormed() && v.trial.problem == point.problem
  {
    match Trial(point, mass, step, settings)
    case None => NoProjection
    case Some(t) =>
      if t.x == point.x then Stall
      else if Armijo(point, t, settings.sigma, step) then Accept(t)
      else Reject
  }

  /** An accepted trial stays on the simplex of `mass`, moves, and passes the Armijo test. */
  lemma AcceptedTrial(point: Waypoint, mass: real, step: real, settings: Settings)
    requires point.WellFormed() && settings.Valid()
    ensures Judge(point, mass, step, settings).Accept? ==>
      var t := Judge(point, mass, step, settings).trial;
      t.problem == point.problem && t.WellFormed() &&
      NonNegative(t.x) && Sum(t.x) == mass && t.x != point.x &&
      Armijo(point, t, settings.sigma, step)
  {
  }

  // ---------------------------------------------------------------------
  // The inner loop

  /** What one run of the inner `while True` loop ends with. */
  datatype Search =
    | Accepted(trial: Waypoint, rejections: nat)
    | Stalled(rejections: nat)
    | Exhausted
    | Infeasible

  /**
   * The inner loop from its `j`-th trial on, the `n`-th trial being made at
   * `step` times `beta` to the `n`; it gives up after `maxBacktracks`
   * rejections.
   */
  function Backtrack(point: Waypoint, mass: real, step: real, settings: Settings, j: nat): (o: Search)
    requires point.WellFormed() && settings.Valid() && j <= settings.maxBacktracks + 1
    ensures o.Accepted? ==> o.trial.WellFormed() && o.trial.problem == point.problem
    decreases settings.maxBacktracks + 1 - j
  {
    if j > settings.maxBacktracks then Exhausted
    else
      var v := Judge(point, mass, StepAt(step, settings.beta, j), settings);
      if v.Accept? then Accepted(v.trial, j)
      else if v.Stall? then Stalled(j)
      else if v.NoProjection? then Infeasible
      else Backtrack(point, mass, step, settings, j + 1)
  }

  /**
   * The inner loop ends at the first trial, from the `j`-th on, that is not
   * rejected, or gives up once every trial up to the bound was rejected.
   */
  lemma {:induction false} BacktrackFacts(point: Waypoint, mass: real, step: real, settings: Settings, j: nat)
    requires point.WellFormed() && settings.Valid() && j <= settings.maxBacktracks + 1
    ensures var o := Backtrack(point, mass, step, settings, j);
      (o.Accepted? ==>
        (j <= o.rejections <= settings.maxBacktracks &&
         Judge(point, mass, StepAt(step, settings.beta, o.rejections), settings) == Accept(o.trial))) &&
      (o.Stalled? ==>
        (j <= o.rejections <= settings.maxBacktracks &&
         Judge(point, mass, StepAt(step, settings.beta, o.rejections), settings) == Stall)) &&
      (o.Accepted? || o.Stalled? ==>
        forall n :: j <= n < o.rejections ==> Judge(point, mass, StepAt(step, settings.beta, n), settings) == Reject) &&
      (o.Infeasible? <==> j <= settings.maxBacktracks && !(mass > 0.0 && |point.x| > 0)) &&
      (o.Exhausted? ==>
        forall n :: j <= n <= settings.maxBacktracks ==> Judge(point, mass, StepAt(step, settings.beta, n), settings) == Reject)
    decreases settings.maxBacktracks + 1 - j
  {
    if j <= settings.maxBacktracks && Judge(point, mass, StepAt(step, settings.beta, j), settings) == Reject {
      BacktrackFacts(point, mass, step, settings, j + 1);
    }
  }

  /** Rejected trials are passed over: the loop goes on from the first one that is not. */
  lemma {:induction false} BacktrackSkips(point: Waypoint, mass: real, step: real, settings: Settings, j: nat, r: nat)
    requires point.WellFormed() && settings.Valid() && j <= r <= settings.maxBacktracks + 1
    requires forall n :: j <= n < r ==> Judge(point, mass, StepAt(step, settings.beta, n), settings) == Reject
    ensures Backtrack(point, mass, step, settings, j) == Backtrack(point, mass, step, settings, r)
    decreases r - j
  {
    if j < r {
      BacktrackSkips(point, mass, step, settings, j + 1, r);
    }
  }

  /** The inner `while True` loop, with the step multiplied by `beta` after each rejected trial. */
  method LineSearch(point: Waypoint, mass: real, step: real, settings: Settings) returns (outcome: Search)
    requires point.WellFormed() && settings.Valid()
    ensures outcome == Backtrack(point, mass, step, settings, 0)
  {
    var j: nat := 0;
    while j <= settings.maxBacktracks
      invariant j <= settings.maxBacktracks + 1
      invariant Backtrack(point, mass, step, settings, j) == Backtrack(point, mass, step, settings, 0)
    {
      var verdict := Judge(point, mass, StepAt(step, settings.beta, j), settings);
      match verdict
      case NoProjection =>
        return Infeasible;
      case Stall =>
        return Stalled(j);
      case Accept(trial) =>
        return Accepted(trial, j);
      case Reject =>
        j := j + 1;
    }
    outcome := Exhausted;
  }

  // ---------------------------------------------------------------------
  // One iteration of the outer loop

  /**
   * The step an accepted iteration hands to the next one: rescaled by the
   * ratio of squared gradient norms under `step_prediction`, and grown by
   * `1 / beta` after an iteration without rejections. Without prediction
   * the step is kept after rejections and undoes one factor `beta`
   * otherwise.
   */
  function NextStep(step: real, rejections: nat, beta: real, stepPrediction: bool, point: Waypoint, trial: Waypoint): (r: real)
    requires point.WellFormed() && trial.WellFormed() && beta != 0.0
    ensures !stepPrediction && rejections > 0 ==> r == step
    ensures !stepPrediction && rejections == 0 ==> r * beta == step
  {
    var predicted :=
      if stepPrediction && trial.GradNorm2() != 0.0 then step * (point.GradNorm2() / trial.GradNorm2()) else step;
    if rejections == 0 then predicted / beta else predicted
  }

  lemma NextStepNonNegative(step: real, rejections: nat, beta: real, stepPrediction: bool, point: Waypoint, trial: Waypoint)
    requires point.WellFormed() && trial.WellFormed() && beta > 0.0 && step >= 0.0
    ensures NextStep(step, rejections, beta, stepPrediction, point, trial) >= 0.0
  {
    var ratio := if trial.GradNorm2() != 0.0 then point.GradNorm2() / trial.GradNorm2() else 0.0;
    var p := Product(step, ratio);
  }

  /** How one pass of the `for` loop's body ends. */
  datatype Iteration =
    | Stop(termination: Termination)
    | Advance(next: Waypoint, rejections: nat, nextStep: real)

  /** One pass of the `for` loop's body from `point` with the current `step`. */
  function Pass(point: Waypoint, mass: real, step: real, settings: Settings): (it: Iteration)
    requires point.WellFormed() && settings.Valid()
    ensures it.Advance? ==> it.next.problem == point.problem && it.next.WellFormed()
  {
    if Converged(point, settings.tolerance) then Stop(ToleranceReached)
    else
      match Backtrack(point, mass, step, settings, 0)
      case Infeasible => Stop(ProjectionFailed)
      case Exhausted => Stop(BacktrackLimit)
      case Stalled(_) => Stop(Looped)
      case Accepted(trial, j) =>
        Advance(trial, j, NextStep(StepAt(step, settings.beta, j), j, settings.beta, settings.stepPrediction, point, trial))
  }

  /**
   * A pass stops at once when the gradient norm is below the tolerance,
   * and otherwise with `IndexError` exactly when the simplex is empty.
   */
  lemma PassStops(point: Waypoint, mass: real, step: real, settings: Settings)
    requires point.WellFormed() && settings.Valid()
    ensures var it := Pass(point, mass, step, settings);
      (it.Stop? ==> it.termination in {ToleranceReached, Looped, BacktrackLimit, ProjectionFailed}) &&
      (it == Stop(ToleranceReached) <==> Converged(point, settings.tolerance)) &&
      (it == Stop(ProjectionFailed) <==> !Converged(point, settings.tolerance) && !(mass > 0.0 && |point.x| > 0))
  {
    BacktrackFacts(point, mass, step, settings, 0);
  }

  /**
   * A pass raises `DescendLoopException` exactly when, above the
   * tolerance, some trial within the bound returns the current point after
   * every earlier trial was rejected.
   */
  lemma PassLoops(point: Waypoint, mass: real, step: real, settings: Settings)
    requires point.WellFormed() && settings.Valid()
    ensures Pass(point, mass, step, settings) == Stop(Looped) <==>
      !Converged(point, settings.tolerance) &&
      exists r: nat :: r <= settings.maxBacktracks &&
        Judge(point, mass, StepAt(step, settings.beta, r), settings) == Stall &&
        forall n :: 0 <= n < r ==> Judge(point, mass, StepAt(step, settings.beta, n), settings) == Reject
  {
    BacktrackFacts(point, mass, step, settings, 0);
    var o := Backtrack(point, mass, step, settings, 0);
    forall r: nat | r <= settings.maxBacktracks && Judge(point, mass, StepAt(step, settings.beta, r), settings) == Stall &&
      forall n :: 0 <= n < r ==> Judge(point, mass, StepAt(step, settings.beta, n), settings) == Reject
      ensures o.Stalled?
    {
      BacktrackSkips(point, mass, step, settings, 0, r);
    }
  }

  /**
   * The line search gives up exactly when, above the tolerance, every
   * trial within the bound is rejected.
   */
  lemma PassGivesUp(point: Waypoint, mass: real, step: real, settings: Settings)
    requires point.WellFormed() && settings.Valid()
    ensures Pass(point, mass, step, settings) == Stop(BacktrackLimit) <==>
      !Converged(point, settings.tolerance) &&
      forall n :: 0 <= n <= settings.maxBacktracks ==> Judge(point, mass, StepAt(step, settings.beta, n), settings) == Reject
  {
    BacktrackFacts(point, mass, step, settings, 0);
    if forall n :: 0 <= n <= settings.maxBacktracks ==> Judge(point, mass, StepAt(step, settings.beta, n), settings) == Reject {
      BacktrackSkips(point, mass, step, settings, 0, settings.maxBacktracks + 1);
    }
  }

  /**
   * The loop body at `point` with the current `step` moves to `next`: above
   * the tolerance, it rejects the first `rejections` trials, accepts the
   * next one, which is `next`, and hands on `nextStep`.
   */
  ghost predicate Moves(point: Waypoint, mass: real, step: real, settings: Settings,
                        rejections: nat, next: Waypoint, nextStep: real)
    requires point.WellFormed() && settings.Valid()
  {
    !Converged(point, settings.tolerance) && rejections <= settings.maxBacktracks &&
    Judge(point, mass, StepAt(step, settings.beta, rejections), settings) == Accept(next) &&
    (forall n :: 0 <= n < rejections ==> Judge(point, mass, StepAt(step, settings.beta, n), settings) == Reject) &&
    nextStep == NextStep(StepAt(step, settings.beta, rejections), rejections, settings.beta,
                         settings.stepPrediction, point, next)
  }

  /** A pass advances to `next` with `nextStep` after `rejections` rejected trials exactly when the loop body moves there. */
  lemma PassAdvances(point: Waypoint, mass: real, step: real, settings: Settings,
                     rejections: nat, next: Waypoint, nextStep: real)
    requires point.WellFormed() && settings.Valid()
    ensures Pass(point, mass, step, settings) == Advance(next, rejections, nextStep) <==>
      Moves(point, mass, step, settings, rejections, next, nextStep)
  {
    BacktrackFacts(point, mass, step, settings, 0);
    if Moves(point, mass, step, settings, rejections, next, nextStep) {
      BacktrackSkips(point, mass, step, settings, 0, rejections);
    }
  }

  /** The point the loop body moves to stays on the simplex of `mass`, differs from the current one, and passes the Armijo test. */
  lemma MovesOnto(point: Waypoint, mass: real, step: real, settings: Settings,
                  rejections: nat, next: Waypoint, nextStep: real)
    requires point.WellFormed() && settings.Valid()
    requires Moves(point, mass, step, settings, rejections, next, nextStep)
    ensures next.problem == point.problem && next.WellFormed()
    ensures NonNegative(next.x) && Sum(next.x) == mass && next.x != point.x
    ensures Armijo(point, next, settings.sigma, StepAt(step, settings.beta, rejections))
  {
    AcceptedTrial(point, mass, StepAt(step, settings.beta, rejections), settings);
  }

  /** With a non-negative `sigma`, step and `beta`, a move lowers the cost and hands on a non-negative step. */
  lemma MovesDecreases(point: Waypoint, mass: real, step: real, settings: Settings,
                       rejections: nat, next: Waypoint, nextStep: real)
    requires point.WellFormed() && settings.Valid() && settings.beta > 0.0 && settings.sigma >= 0.0 && step >= 0.0
    requires Moves(point, mass, step, settings, rejections, next, nextStep)
    ensures next.Cost() < point.Cost() && nextStep >= 0.0
  {
    MovesOnto(point, mass, step, settings, rejections, next, nextStep);
    var used := StepAt(step, settings.beta, rejections);
    StepAtNonNegative(step, settings.beta, rejections);
    ArmijoDecreases(point, next, settings.sigma, used);
    NextStepNonNegative(used, rejections, settings.beta, settings.stepPrediction, point, next);
  }

  /**
   * The body of the `for` loop: the tolerance test, the line search, and
   * the step size for the next iteration.
   */
  method Iterate(point: Waypoint, mass: real, step: real, settings: Settings) returns (it: Iteration)
    requires point.WellFormed() && settings.Valid()
    ensures it == Pass(point, mass, step, settings)
  {
    if Converged(point, settings.tolerance) {
      return Stop(ToleranceReached);
    }
    var search := LineSearch(point, mass, step, settings);
    match search
    case Infeasible =>
      it := Stop(ProjectionFailed);
    case Exhausted =>
      it := Stop(BacktrackLimit);
    case Stalled(_) =>
      it := Stop(Looped);
    case Accepted(trial, j) =>
      var nextStep := StepAt(step, settings.beta, j);
      if settings.stepPrediction && trial.GradNorm2() != 0.0 {
        nextStep := nextStep * (point.GradNorm2() / trial.GradNorm2());
      }
      if j == 0 {
        nextStep := nextStep / settings.beta;
      }
      assert nextStep == NextStep(StepAt(step, settings.beta, j), j, settings.beta, settings.stepPrediction, point, trial);
      it := Advance(trial, j, nextStep);
  }

  // ---------------------------------------------------------------------
  // The outer loop

  /**
   * A run of the `for` loop: the waypoints from the start, the step in
   * effect at each of them, the number of trials each accepted iteration
   * rejected, and how the loop ended.
   */
  datatype Run = Run(points: seq<Waypoint>, steps: seq<real>, rejections: seq<nat>, termination: Termination)

  /** The loop body may run at every well-formed point, and advances to a well-formed point. */
  ghost predicate Keeps(pass: (Waypoint, real) -> Iteration)
  {
    forall p: Waypoint, s: real :: p.WellFormed() && pass(p, s).Advance? ==> pass(p, s).next.WellFormed()
  }

  /**
   * The `for` loop from iteration `i` on, at `point` with the current
   * `step`, where `pass` is the loop body; a `KeyboardInterrupt` arrives at
   * the start of iteration `settings.interruptAt`, if any.
   */
  function Descend(pass: (Waypoint, real) -> Iteration, point: Waypoint, step: real, i: nat, settings: Settings): (r: Run)
    requires Keeps(pass) && point.WellFormed()
    ensures |r.points| >= 1 && r.points[0] == point && |r.steps| == |r.points| && r.steps[0] == step
    ensures |r.rejections| == |r.points| - 1
    ensures forall k :: 0 <= k < |r.points| ==> r.points[k].WellFormed()
    decreases settings.iterMax + 1 - i
  {
    if i > settings.iterMax then Run([point], [step], [], IterationLimit)
    else if settings.interruptAt == Some(i) then Run([point], [step], [], Interrupted)
    else
      match pass(point, step)
      case Stop(t) => Run([point], [step], [], t)
      case Advance(next, j, nextStep) =>
        var rest := Descend(pass, next, nextStep, i + 1, settings);
        Run([point] + rest.points, [step] + rest.steps, [j] + rest.rejections, rest.termination)
  }

  /** Each point of a run is where the loop body advanced to from the point before it. */
  ghost predicate Linked(pass: (Waypoint, real) -> Iteration, r: Run)
  {
    |r.steps| == |r.points| && |r.rejections| == |r.points| - 1 &&
    forall k :: 0 <= k < |r.points| - 1 ==>
      pass(r.points[k], r.steps[k]) == Advance(r.points[k + 1], r.rejections[k], r.steps[k + 1])
  }

  lemma {:induction false} DescendLinks(pass: (Waypoint, real) -> Iteration, point: Waypoint, step: real, i: nat,
                                        settings: Settings)
    requires Keeps(pass) && point.WellFormed()
    ensures Linked(pass, Descend(pass, point, step, i, settings))
    decreases settings.iterMax + 1 - i
  {
    if i <= settings.iterMax && settings.interruptAt != Some(i) && pass(point, step).Advance? {
      var it := pass(point, step);
      DescendLinks(pass, it.next, it.nextStep, i + 1, settings);
      var r := Descend(pass, point, step, i, settings);
      var rest := Descend(pass, it.next, it.nextStep, i + 1, settings);
      assert r.points == [point] + rest.points && r.steps == [step] + rest.steps;
      assert r.rejections == [it.rejections] + rest.rejections;
      forall k | 1 <= k < |r.points| - 1
        ensures pass(r.points[k], r.steps[k]) == Advance(r.points[k + 1], r.rejections[k], r.steps[k + 1])
      {
        assert r.points[k] == rest.points[k - 1] && r.steps[k] == rest.steps[k - 1];
        assert r.points[k + 1] == rest.points[k] && r.steps[k + 1] == rest.steps[k];
        assert r.rejections[k] == rest.rejections[k - 1];
      }
    }
  }

  /**
   * A run keeps at most one point per remaining iteration plus the start;
   * it ends by running out of iterations exactly when it has that many,
   * and otherwise by an interrupt at the iteration after its last point or
   * by the loop body stopping there.
   */
  lemma {:induction false} DescendEnds(pass: (Waypoint, real) -> Iteration, point: Waypoint, step: real, i: nat,
                                       settings: Settings)
    requires Keeps(pass) && point.WellFormed() && i <= settings.iterMax + 1
    ensures var r := Descend(pass, point, step, i, settings);
      var n := |r.points| - 1;
      i + n <= settings.iterMax + 1 &&
      (i + n == settings.iterMax + 1 ==> r.termination == IterationLimit) &&
      (i + n <= settings.iterMax ==>
        (settings.interruptAt == Some(i + n) && r.termination == Interrupted) ||
        (settings.interruptAt != Some(i + n) && pass(r.points[n], r.steps[n]) == Stop(r.termination))) &&
      (settings.interruptAt.Some? && i <= settings.interruptAt.value ==> i + n <= settings.interruptAt.value)
    decreases settings.iterMax + 1 - i
  {
    if i <= settings.iterMax && settings.interruptAt != Some(i) && pass(point, step).Advance? {
      var it := pass(point, step);
      DescendEnds(pass, it.next, it.nextStep, i + 1, settings);
    }
  }

  /** The loop body of `projected_gradient_descent` for the simplex of `mass`. */
  ghost function PassOf(mass: real, settings: Settings): (pass: (Waypoint, real) -> Iteration)
    requires settings.Valid()
    ensures Keeps(pass)
  {
    (p: Waypoint, s: real) => if p.WellFormed() then Pass(p, mass, s, settings) else Stop(ProjectionFailed)
  }

  /** The whole run of `projected_gradient_descent`, from the initial formulation. */
  ghost function Trajectory(problem: Problem, settings: Settings): (r: Run)
    requires problem.WellFormed() && settings.Valid()
    ensures |r.points| >= 1 && |r.steps| == |r.points| && |r.rejections| == |r.points| - 1
    ensures r.points[0] == InitialWaypoint(problem) && r.steps[0] == settings.stepInit
    ensures forall k :: 0 <= k < |r.points| ==> r.points[k].WellFormed()
  {
    Descend(PassOf(Sum(problem.xInit), settings), InitialWaypoint(problem), settings.stepInit, 1, settings)
  }

  /**
   * `projected_gradient_descent(problem, iter_max, step_init, tolerance,
   * sigma, beta, step_prediction)`: the list of waypoints and how the loop
   * ended.
   */
  method ProjectedGradientDescent(problem: Problem, settings: Settings)
    returns (descent: seq<Waypoint>, termination: Termination)
    requires problem.WellFormed() && settings.Valid()
    ensures descent == Trajectory(problem, settings).points
    ensures termination == Trajectory(problem, settings).termination
  {
    var point := InitialWaypoint(problem);
    var mass := Sum(point.x);
    var step := settings.stepInit;
    ghost var whole := Trajectory(problem, settings);
    RunEnds(problem, settings);
    descent := [point];
    var i := 1;
    while i <= settings.iterMax
      invariant 1 <= i <= settings.iterMax + 1 && i <= |whole.points|
      invariant descent == whole.points[..i] && point == whole.points[i - 1] && step == whole.steps[i - 1]
      decreases settings.iterMax + 1 - i
    {
      if settings.interruptAt == Some(i) {
        assert whole.points[..i] == whole.points;
        return descent, Interrupted;
      }
      var it := Iterate(point, mass, step, settings);
      RunStep(problem, settings, i, it);
      if it.Stop? {
        assert whole.points[..i] == whole.points;
        return descent, it.termination;
      }
      assert whole.points[..i + 1] == whole.points[..i] + [it.next];
      descent := descent + [it.next];
      point, step := it.next, it.nextStep;
      i := i + 1;
    }
    assert whole.points[..i] == whole.points;
    termination := IterationLimit;
  }

  /**
   * The run has room for at most `iter_max` iterations; it ends by running
   * out of them exactly when it has that many points after the first, and
   * an interrupt ends it at the iteration after its last point.
   */
  lemma RunEnds(problem: Problem, settings: Settings)
    requires problem.WellFormed() && settings.Valid()
    ensures var r := Trajectory(problem, settings);
      |r.points| <= settings.iterMax + 1 &&
      (|r.points| == settings.iterMax + 1 ==> r.termination == IterationLimit) &&
      (settings.interruptAt.Some? && 1 <= settings.interruptAt.value <= settings.iterMax ==>
        |r.points| <= settings.interruptAt.value &&
        (|r.points| == settings.interruptAt.value ==> r.termination == Interrupted))
  {
    DescendEnds(PassOf(Sum(problem.xInit), settings), InitialWaypoint(problem), settings.stepInit, 1, settings);
  }

  /**
   * At the `i`-th iteration, on the run's point and step, the loop body
   * either stops the run there with its reason or advances to the run's
   * next point and step.
   */
  lemma RunStep(problem: Problem, settings: Settings, i: nat, it: Iteration)
    requires problem.WellFormed() && settings.Valid()
    requires var r := Trajectory(problem, settings);
      1 <= i <= settings.iterMax && i <= |r.points| && settings.interruptAt != Some(i) &&
      it == Pass(r.points[i - 1], Sum(problem.xInit), r.steps[i - 1], settings)
    ensures var r := Trajectory(problem, settings);
      (it.Stop? ==> i == |r.points| && it.termination == r.termination) &&
      (it.Advance? ==> i < |r.points| && it.next == r.points[i] && it.nextStep == r.steps[i])
  {
    var r := Trajectory(problem, settings);
    var pass := PassOf(Sum(problem.xInit), settings);
    assert it == pass(r.points[i - 1], r.steps[i - 1]);
    DescendStep(pass, InitialWaypoint(problem), settings.stepInit, settings, i, it);
  }

  /** `RunStep` for a run of any loop body. */
  lemma DescendStep(pass: (Waypoint, real) -> Iteration, point: Waypoint, step: real, settings: Settings,
                    i: nat, it: Iteration)
    requires Keeps(pass) && point.WellFormed()
    requires var r := Descend(pass, point, step, 1, settings);
      1 <= i <= settings.iterMax && i <= |r.points| && settings.interruptAt != Some(i) &&
      it == pass(r.points[i - 1], r.steps[i - 1])
    ensures var r := Descend(pass, point, step, 1, settings);
      (it.Stop? ==> i == |r.points| && it.termination == r.termination) &&
      (it.Advance? ==> i < |r.points| && it.next == r.points[i] && it.nextStep == r.steps[i])
  {
    var r := Descend(pass, point, step, 1, settings);
    DescendLinks(pass, point, step, 1, settings);
    DescendEnds(pass, point, step, 1, settings);
    if i < |r.points| {
      assert it == Advance(r.points[i], r.rejections[i - 1], r.steps[i]);
    }
  }

  // ---------------------------------------------------------------------
  // Properties of the run

  /** Along a run of the loop body for the simplex of `mass`, each point moves to the next. */
  lemma LinkedMoves(r: Run, mass: real, settings: Settings)
    requires settings.Valid() && Linked(PassOf(mass, settings), r)
    requires forall k :: 0 <= k < |r.points| ==> r.points[k].WellFormed()
    ensures forall k :: 0 <= k < |r.points| - 1 ==>
      Moves(r.points[k], mass, r.steps[k], settings, r.rejections[k], r.points[k + 1], r.steps[k + 1])
  {
    forall k | 0 <= k < |r.points| - 1
      ensures Moves(r.points[k], mass, r.steps[k], settings, r.rejections[k], r.points[k + 1], r.steps[k + 1])
    {
      PassAdvances(r.points[k], mass, r.steps[k], settings, r.rejections[k], r.points[k + 1], r.steps[k + 1]);
    }
  }

  /**
   * Each iteration but the last stays above the tolerance, rejects
   * `rejections[k]` trials from the step `steps[k]` and accepts the next
   * point; the step then carried on is the one `NextStep` gives.
   */
  lemma TrajectoryMoves(problem: Problem, settings: Settings)
    requires problem.WellFormed() && settings.Valid()
    ensures var r := Trajectory(problem, settings);
      r.points[0] == InitialWaypoint(problem) && r.steps[0] == settings.stepInit &&
      forall k :: 0 <= k < |r.points| - 1 ==>
        Moves(r.points[k], Sum(problem.xInit), r.steps[k], settings, r.rejections[k], r.points[k + 1], r.steps[k + 1])
  {
    var mass := Sum(problem.xInit);
    DescendLinks(PassOf(mass, settings), InitialWaypoint(problem), settings.stepInit, 1, settings);
    LinkedMoves(Trajectory(problem, settings), mass, settings);
  }

  /** Every point after the first lies on the simplex of `mass`, and all share one problem. */
  lemma {:induction false} MovesOntoSimplex(ps: seq<Waypoint>, steps: seq<real>, rejections: seq<nat>,
                                            mass: real, settings: Settings)
    requires settings.Valid() && |steps| == |ps| && |rejections| == |ps| - 1
    requires forall k :: 0 <= k < |ps| ==> ps[k].WellFormed()
    requires forall k :: 0 <= k < |ps| - 1 ==>
      Moves(ps[k], mass, steps[k], settings, rejections[k], ps[k + 1], steps[k + 1])
    ensures forall k :: 0 <= k < |ps| ==> ps[k].problem == ps[0].problem
    ensures forall k :: 1 <= k < |ps| ==> NonNegative(ps[k].x) && Sum(ps[k].x) == mass
  {
    if |ps| > 1 {
      var n := |ps| - 1;
      MovesOntoSimplex(ps[..n], steps[..n], rejections[..n - 1], mass, settings);
      MovesOnto(ps[n - 1], mass, steps[n - 1], settings, rejections[n - 1], ps[n], steps[n]);
      assert ps[..n][0] == ps[0] && ps[..n][n - 1] == ps[n - 1];
    }
  }

  /**
   * The run starts at the initial formulation and keeps at most
   * `iter_max + 1` points, exactly that many when the iterations ran out;
   * every point belongs to the same problem, and every point after the
   * first lies on the simplex of the initial mass.
   */
  lemma TrajectoryShape(problem: Problem, settings: Settings)
    requires problem.WellFormed() && settings.Valid()
    ensures var r := Trajectory(problem, settings);
      var ps := r.points;
      1 <= |ps| <= settings.iterMax + 1 && ps[0] == InitialWaypoint(problem) &&
      (r.termination == IterationLimit <==> |ps| == settings.iterMax + 1) &&
      (forall k :: 0 <= k < |ps| ==> ps[k].problem == problem) &&
      (forall k :: 1 <= k < |ps| ==> NonNegative(ps[k].x) && Sum(ps[k].x) == Sum(problem.xInit))
  {
    var mass := Sum(problem.xInit);
    var r := Trajectory(problem, settings);
    var n := |r.points| - 1;
    DescendEnds(PassOf(mass, settings), InitialWaypoint(problem), settings.stepInit, 1, settings);
    if n + 1 <= settings.iterMax && settings.interruptAt != Some(n + 1) {
      PassStops(r.points[n], mass, r.steps[n], settings);
    }
    TrajectoryMoves(problem, settings);
    MovesOntoSimplex(r.points, r.steps, r.rejections, mass, settings);
  }

  /**
   * With a non-negative `sigma`, `step_init` and `beta` every step stays
   * non-negative and the cost strictly decreases along the run.
   */
  lemma TrajectoryDecreasing(problem: Problem, settings: Settings)
    requires problem.WellFormed() && settings.Valid() && settings.beta > 0.0 && settings.sigma >= 0.0
    requires settings.stepInit >= 0.0
    ensures var r := Trajectory(problem, settings);
      (forall k :: 0 <= k < |r.steps| ==> r.steps[k] >= 0.0) &&
      forall k, l :: 0 <= k < l < |r.points| ==> r.points[l].Cost() < r.points[k].Cost()
  {
    var r := Trajectory(problem, settings);
    TrajectoryMoves(problem, settings);
    MovesDecrease(r.points, r.steps, r.rejections, Sum(problem.xInit), settings);
  }

  /**
   * Along points that each move to the next, from a non-negative step, the
   * steps stay non-negative and the cost falls from every point to every
   * later one.
   */
  lemma {:induction false} MovesDecrease(ps: seq<Waypoint>, steps: seq<real>, rejections: seq<nat>,
                                         mass: real, settings: Settings)
    requires settings.Valid() && settings.beta > 0.0 && settings.sigma >= 0.0
    requires |steps| == |ps| && |rejections| == |ps| - 1 && steps[0] >= 0.0
    requires forall k :: 0 <= k < |ps| ==> ps[k].WellFormed()
    requires forall k :: 0 <= k < |ps| - 1 ==>
      Moves(ps[k], mass, steps[k], settings, rejections[k], ps[k + 1], steps[k + 1])
    ensures forall k :: 0 <= k < |steps| ==> steps[k] >= 0.0
    ensures forall k, l :: 0 <= k < l < |ps| ==> ps[l].Cost() < ps[k].Cost()
  {
    if |ps| > 1 {
      var n := |ps| - 1;
      MovesDecrease(ps[..n], steps[..n], rejections[..n - 1], mass, settings);
      assert steps[..n][n - 1] == steps[n - 1] && ps[..n][n - 1] == ps[n - 1];
      MovesDecreases(ps[n - 1], mass, steps[n - 1], settings, rejections[n - 1], ps[n], steps[n]);
      forall k, l | 0 <= k < l < |ps| ensures ps[l].Cost() < ps[k].Cost() {
        assert ps[..n][k] == ps[k];
        if l < n {
          assert ps[..n][l] == ps[l];
        } else if k < n - 1 {
          assert ps[..n][n - 1] == ps[n - 1];
        }
      }
    }
  }

  /**
   * How the run ended, read off its last point: below the tolerance; at
   * the interrupted iteration; at a trial that returned the point itself;
   * or after every trial within the bound was rejected.
   */
  lemma TrajectoryEnd(problem: Problem, settings: Settings)
    requires problem.WellFormed() && settings.Valid()
    ensures var r := Trajectory(problem, settings);
      var mass := Sum(problem.xInit);
      var n := |r.points| - 1;
      var last := r.points[n];
      (r.termination == ToleranceReached ==> Converged(last, settings.tolerance)) &&
      (r.termination == Interrupted ==> settings.interruptAt == Some(n + 1)) &&
      (r.termination == Looped ==>
        (!Converged(last, settings.tolerance) &&
         exists j: nat :: j <= settings.maxBacktracks &&
           Judge(last, mass, StepAt(r.steps[n], settings.beta, j), settings) == Stall)) &&
      (r.termination == BacktrackLimit ==>
        (!Converged(last, settings.tolerance) &&
         forall j :: 0 <= j <= settings.maxBacktracks ==>
           Judge(last, mass, StepAt(r.steps[n], settings.beta, j), settings) == Reject))
  {
    var mass := Sum(problem.xInit);
    var r := Trajectory(problem, settings);
    var n := |r.points| - 1;
    DescendEnds(PassOf(mass, settings), InitialWaypoint(problem), settings.stepInit, 1, settings);
    if n + 1 <= settings.iterMax && settings.interruptAt != Some(n + 1) {
      var last := r.points[n];
      PassStops(last, mass, r.steps[n], settings);
      PassLoops(last, mass, r.steps[n], settings);
      PassGivesUp(last, mass, r.steps[n], settings);
    }
  }

  /**
   * The run raises `IndexError` exactly when the first iteration starts,
   * above the tolerance, on an empty simplex; it then holds the initial
   * point alone.
   */
  lemma TrajectoryInfeasible(problem: Problem, settings: Settings)
    requires problem.WellFormed() && settings.Valid()
    ensures var r := Trajectory(problem, settings);
      var mass := Sum(problem.xInit);
      (r.termination == ProjectionFailed <==>
        settings.iterMax >= 1 && settings.interruptAt != Some(1) &&
        !Converged(InitialWaypoint(problem), settings.tolerance) && !(mass > 0.0 && |problem.xInit| > 0)) &&
      (r.termination == ProjectionFailed ==> |r.points| == 1)
  {
    var mass := Sum(problem.xInit);
    var p0 := InitialWaypoint(problem);
    var r := Trajectory(problem, settings);
    var n := |r.points| - 1;
    DescendEnds(PassOf(mass, settings), p0, settings.stepInit, 1, settings);
    if 1 <= settings.iterMax && settings.interruptAt != Some(1) {
      PassStops(p0, mass, settings.stepInit, settings);
    }
    if n > 0 {
      TrajectoryAdvances(problem, settings);
      if n + 1 <= settings.iterMax && settings.interruptAt != Some(n + 1) {
        PassStops(r.points[n], mass, r.steps[n], settings);
      }
    }
  }

  /**
   * A run that advanced at all started from a positive mass on a
   * non-empty formulation, and its last point keeps both.
   */
  lemma TrajectoryAdvances(problem: Problem, settings: Settings)
    requires problem.WellFormed() && settings.Valid()
    ensures var r := Trajectory(problem, settings);
      var last := r.points[|r.points| - 1];
      |r.points| > 1 ==>
        (Sum(problem.xInit) > 0.0 && |problem.xInit| > 0 && Sum(last.x) > 0.0 && |last.x| > 0)
  {
    var r := Trajectory(problem, settings);
    if |r.points| > 1 {
      var mass := Sum(problem.xInit);
      TrajectoryMoves(problem, settings);
      MovesOnto(r.points[0], mass, r.steps[0], settings, r.rejections[0], r.points[1], r.steps[1]);
      TrajectoryShape(problem, settings);
    }
  }

  // ---------------------------------------------------------------------
  // optimize

  /** The keyword defaults `optimize` runs the descent with. */
  function DefaultSettings(maxBacktracks: nat, interruptAt: Option<nat>): (settings: Settings)
    ensures settings.Valid() && settings.beta > 0.0 && settings.sigma >= 0.0 && settings.stepInit >= 0.0
  {
    ProjectSimplexOntoSimplex();
    Settings(100, 0.1, 0.0000000001, 0.01, 0.5, false, maxBacktracks, interruptAt, ProjectSimplex)
  }

  /**
   * The descent `optimize` runs: from the solution's formulation, under the
   * weighted least squares functional of `weights`.
   */
  ghost function OptimizeRun(s: Solution, target: Compositions.Composition, weights: Option<Vector>,
                             settings: Settings): (run: Run)
    requires s.Valid() && Stackable(s.compositions) && settings.Valid()
    requires |s.compositions[0].NutrientVector()| == |target.NutrientVector()| == |Weights(weights)|
    ensures |run.points| >= 1 && run.points[0].x == s.formulation
  {
    var p := MakeProblem(s, target, Wls(Weights(weights))).value;
    WlsDefined(Weights(weights), p.A, p.b, |p.xInit|);
    Trajectory(p, settings)
  }

  /**
   * What `optimize` returns: the `ValueError` of `np.stack`, the
   * `IndexError` that escapes the descent, or the solution of the same
   * compositions at the descent's last point.
   */
  ghost function Optimized(s: Solution, target: Compositions.Composition, weights: Option<Vector>,
                           settings: Settings): (r: Result<Solution>)
    requires s.Valid() && settings.Valid()
    requires |s.compositions| > 0 ==> |s.compositions[0].NutrientVector()| == |target.NutrientVector()|
    requires |Weights(weights)| == |target.NutrientVector()|
    ensures r.Ok? ==> Stackable(s.compositions) && r.value.Valid() && r.value.compositions == s.compositions
  {
    if !Stackable(s.compositions) then Err(SystemMatrix(s.compositions).error)
    else
      var run := OptimizeRun(s, target, weights, settings);
      if run.termination == ProjectionFailed then Err(IndexError("index -1 is out of bounds for axis 0 with size 0"))
      else Spawn(s, run.points[|run.points| - 1].x)
  }

  /**
   * `optimize(solution_init, composition_target, weights)`, with the
   * default weights as intended: runs the descent from the solution under
   * the keyword defaults and spawns its last point.
   */
  method Optimize(s: Solution, target: Compositions.Composition, weights: Option<Vector>,
                  maxBacktracks: nat, interruptAt: Option<nat>)
    returns (r: Result<Solution>)
    requires s.Valid()
    requires |s.compositions| > 0 ==> |s.compositions[0].NutrientVector()| == |target.NutrientVector()|
    requires |Weights(weights)| == |target.NutrientVector()|
    ensures r == Optimized(s, target, weights, DefaultSettings(maxBacktracks, interruptAt))
  {
    var problem := MakeProblem(s, target, Wls(Weights(weights)));
    if problem.Err? {
      return Err(problem.error);
    }
    var p := problem.value;
    WlsDefined(Weights(weights), p.A, p.b, |p.xInit|);
    var settings := DefaultSettings(maxBacktracks, interruptAt);
    var descent, termination := ProjectedGradientDescent(p, settings);
    assert OptimizeRun(s, target, weights, settings) == Trajectory(p, settings);
    if termination == ProjectionFailed {
      return Err(IndexError("index -1 is out of bounds for axis 0 with size 0"));
    }
    r := Spawn(s, descent[|descent| - 1].x);
  }

  /**
   * `optimize` fails with `ValueError` when the compositions do not stack,
   * and succeeds when they do and the mass is positive; its result keeps
   * the compositions and the total mass, and never costs more than the
   * initial formulation.
   */
  lemma OptimizedKeeps(s: Solution, target: Compositions.Composition, weights: Option<Vector>,
                       maxBacktracks: nat, interruptAt: Option<nat>)
    requires s.Valid()
    requires |s.compositions| > 0 ==> |s.compositions[0].NutrientVector()| == |target.NutrientVector()|
    requires |Weights(weights)| == |target.NutrientVector()|
    ensures var r := Optimized(s, target, weights, DefaultSettings(maxBacktracks, interruptAt));
      (!Stackable(s.compositions) ==> r.Err? && r.error.ValueError?) &&
      (Stackable(s.compositions) && s.Mass() > 0.0 ==> r.Ok?) &&
      (r.Ok? ==> r.value.Mass() == s.Mass()) &&
      (r.Ok? ==>
        var p := MakeProblem(s, target, Wls(Weights(weights))).value;
        WlsCost(Weights(weights), p.A, p.b, r.value.formulation) <= WlsCost(Weights(weights), p.A, p.b, s.formulation))
  {
    var settings := DefaultSettings(maxBacktracks, interruptAt);
    if Stackable(s.compositions) {
      var p := MakeProblem(s, target, Wls(Weights(weights))).value;
      var w := Weights(weights);
      WlsDefined(w, p.A, p.b, |p.xInit|);
      assert OptimizeRun(s, target, weights, settings) == Trajectory(p, settings);
      if s.Mass() > 0.0 {
        TrajectoryFeasible(p, settings);
      }
      TrajectoryLast(p, settings);
      var run := Trajectory(p, settings);
      WlsProblemCost(p, w, run.points[|run.points| - 1].x);
      WlsProblemCost(p, w, p.xInit);
    }
  }

  /** From a positive mass on a non-empty formulation the projection never raises. */
  lemma TrajectoryFeasible(problem: Problem, settings: Settings)
    requires problem.WellFormed() && settings.Valid() && Sum(problem.xInit) > 0.0 && |problem.xInit| > 0
    ensures Trajectory(problem, settings).termination != ProjectionFailed
  {
    TrajectoryInfeasible(problem, settings);
  }

  /**
   * The last point of a run with non-negative `sigma` and `step_init` and a
   * positive `beta` belongs to the problem, keeps the initial mass and
   * costs no more than the start.
   */
  lemma TrajectoryLast(problem: Problem, settings: Settings)
    requires problem.WellFormed() && settings.Valid() && settings.beta > 0.0 && settings.sigma >= 0.0
    requires settings.stepInit >= 0.0
    ensures var r := Trajectory(problem, settings);
      var last := r.points[|r.points| - 1];
      last.problem == problem && |last.x| == |problem.xInit| && Sum(last.x) == Sum(problem.xInit) &&
      last.Cost() <= problem.Cost(problem.xInit)
  {
    TrajectoryShape(problem, settings);
    TrajectoryDecreasing(problem, settings);
  }
}
