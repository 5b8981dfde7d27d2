# hydrosolver in Dafny

hydrosolver mixes hydroponic nutrient solutions. A *composition* is the mass
ratio of 13 nutrients: 7 macronutrients and 6 micronutrients. A *solution*
pairs a list of compositions (fertilizers plus the water) with a
*formulation*, which gives the mass of each composition in kilograms. From a
solution and a target composition the program builds the linear system
`A x = b`:
- column `j` of `A` is the nutrient vector of composition `j`;
- `b` is the target for the solution's total mass.

It then searches for the formulation that best meets the target. The search
is a projected gradient descent:
- the objective is a weighted least squares objective;
- steps are found by Armijo backtracking;
- every trial point is projected back onto the simplex of formulations with
  the initial total mass.

The project models the following, one module per concern:
- `Compositions` (composition.py): compositions, their arithmetic, and their
  dictionary form `dump`/`load`/`load_db`. A Python dict is a sequence of
  entries in insertion order.
- `Solutions` (solution.py): solutions, their arithmetic, the system matrix
  and the resulting composition.
- `Core` (core.py): the residual, the least squares gradient and the squared
  norm.
- `Objective` (optimization.py): objective functionals, the weighted least
  squares one, the optimization problem and its waypoints.
- `Simplex` (optimization.py): `project_simplex`.
- `Descent` (optimization.py): `projected_gradient_descent` and `optimize`.
- `Vectors` and `Wrappers`: vector arithmetic over `seq<real>`, and
  `Option`/`Result`, where the errors carry the Python exception kind.

`Descent` takes the projection and the objective functional as parameters:
- the projection need only satisfy `OntoSimplex`;
- the objective need only be defined on the problem's shapes.

Its properties therefore hold for any such projection and functional.
`Optimize` passes `ProjectSimplex` and `Wls(Weights(weights))`, and the
corresponding facts are proved about both. `Optimize` is specified by the
function `Optimized`: the solution spawned at the last point of that
descent. The lemma `OptimizedKeeps` states what this result keeps and
improves.

Three loops are written twice, once as a recursive function and once as a
method that is proved to compute that function:
- the inner `while True` loop is `Backtrack` and `LineSearch`;
- the body of the `for` loop is `Pass` and `Iterate`;
- the `for` loop itself is `Descend` and `ProjectedGradientDescent`.

## Model

| member | source | states |
|---|---|---|
| Compositions.Composition.NutrientVector | hydrosolver/composition.py:101-104 | `vector` is the macronutrients followed by the micronutrients: the prefix and suffix give the two groups back, and a stencil-shaped composition has 13 entries |
| Compositions.Default | hydrosolver/composition.py:45-53 | the default composition has an empty name and the stencil's shape, and every ratio is zero |
| Compositions.Add | hydrosolver/composition.py:87-92 | `a + b` is named `a + b`, and its nutrient vector is half the sum of the two vectors |
| Compositions.Scale | hydrosolver/composition.py:94-99 | `number * a` scales every ratio by `number` and names the result after the factor and `a` |
| Compositions.AddCommutes | hydrosolver/composition.py:87-92 | mixing `a` with `b` gives the same ratios as mixing `b` with `a` |
| Compositions.AddSelf | hydrosolver/composition.py:87-92 | mixing a composition with itself gives its own ratios |
| Compositions.Dump | hydrosolver/composition.py:106-126 | `dump` gives one entry under the composition's name, holding the two nutrient groups keyed by the stencil's nutrient names |
| Compositions.Loaded | hydrosolver/composition.py:33-41 | `load` succeeds exactly when the dict is non-empty and its last entry has both nutrient groups; otherwise it raises `KeyError`; the loaded composition carries that entry's name |
| Compositions.Load | hydrosolver/composition.py:33-41 | the field-by-field load computes `Loaded`, and `popitem` leaves the dict without its last entry, also when a group turns out to be missing |
| Compositions.LoadDb | hydrosolver/composition.py:25-31 | `load_db` succeeds exactly when every entry has both groups; it then keeps every key in order, names each composition after its key, and holds for each entry the composition `load` makes of that entry alone |
| Compositions.LoadDump | hydrosolver/composition.py:33-41 | `load(dump(c))` is `c`, with each group truncated to the stencil's names |
| Compositions.LoadDumpStencil | hydrosolver/composition.py:106-126 | for a composition of at most the stencil's shape, `load(dump(c))` has the same name and the same ratios as `c` |
| Compositions.LoadDbDump | hydrosolver/composition.py:25-31 | a database written by `dump` reads back through `load_db` as that composition under its name |
| Solutions.New | hydrosolver/solution.py:11-27 | the constructor succeeds exactly when there is one mass per composition, and raises `ValueError` otherwise |
| Solutions.Dissolve | hydrosolver/solution.py:29-51 | `dissolve` appends the water, gives it the mass the other amounts leave, and so makes the total mass `mass`; no formulation means zero of every other composition; a formulation of the wrong length raises `ValueError` |
| Solutions.Spawn | hydrosolver/solution.py:108-116 | `spawn` keeps the compositions and takes the new amounts, and fails exactly when their number differs |
| Solutions.Add | hydrosolver/solution.py:53-58 | `a + b` is defined exactly for the same compositions (otherwise `ArithmeticError`); it keeps them, its formulation is the entry-wise sum of the two, and the masses add |
| Solutions.Neg | hydrosolver/solution.py:60-61 | `-s` keeps the compositions, negates every amount, and so negates the mass |
| Solutions.Sub | hydrosolver/solution.py:63-64 | `a - b` is defined exactly for the same compositions; its formulation is the entry-wise difference of the two, and the masses subtract |
| Solutions.Scale | hydrosolver/solution.py:66-67 | `number * s` keeps the compositions, scales every amount by `number`, and so scales the mass |
| Solutions.Solution.Mass | hydrosolver/solution.py:88-90 | the mass of a non-negative formulation is never negative, and an empty formulation has mass zero |
| Solutions.SubSelf | hydrosolver/solution.py:63-64 | a solution minus itself has every amount zero |
| Solutions.SystemMatrix | hydrosolver/solution.py:92-95 | `A` exists exactly when the nutrient vectors stack; it has one row per nutrient, and column `j` is the vector of composition `j` |
| Solutions.FromVector | hydrosolver/composition.py:45-53 | a nutrient vector split at the stencil's macronutrient count gives back a composition with exactly that vector |
| Solutions.Resulting | hydrosolver/solution.py:97-106 | the resulting composition is the default one for zero mass; otherwise it is `A @ formulation / mass`, defined exactly when `A` is, and named `Resulting composition` |
| Solutions.ResultingAsWritten | hydrosolver/solution.py:97-106 | as written, the zero-mass case agrees with `Resulting`, and every other case raises |
| Solutions.ResultingAsWrittenPlainWater | hydrosolver/solution.py:103-106 | water dissolved alone raises `TypeError` as written, although the intended resulting composition exists |
| Solutions.ResultingUniform | hydrosolver/solution.py:97-106 | any amounts of one and the same composition result in that composition |
| Solutions.ResultingScaleInvariant | hydrosolver/solution.py:97-106 | scaling every amount by one non-zero factor leaves the resulting composition unchanged |
| Solutions.ResultingEqualParts | hydrosolver/solution.py:97-106 | equal masses of two compositions result in their mix `a + b` of composition.py |
| Core.MatVec | hydrosolver/core.py:6-7 | `A @ x` has one entry per row of `A` |
| Core.VecMat | hydrosolver/core.py:9-14 | `u @ A` has one entry per column of `A` |
| Core.Residual | hydrosolver/core.py:6-7 | `residual` has one entry per row of `A` |
| Core.Gradient | hydrosolver/core.py:9-14 | `gradient` has one entry per unknown |
| Core.Norm2 | hydrosolver/core.py:22-23 | `norm2` is never negative, and is zero exactly at the zero vector |
| Core.VecMatEntry | hydrosolver/core.py:9-14 | entry `j` of `u @ A` is `u` dotted with column `j` |
| Core.VecMatScaled | hydrosolver/core.py:9-14 | `(k u) @ A == k (u @ A)` |
| Core.VecMatZeros | hydrosolver/core.py:9-14 | the zero vector times `A` is zero |
| Core.DotMatVec | hydrosolver/core.py:9-14 | `u . (A x) == (u @ A) . x`, the transpose identity the gradient rests on |
| Core.MatVecAffine | hydrosolver/core.py:6-7 | `A (x + t d) == A x + t A d` |
| Core.ResidualZeroIff | hydrosolver/core.py:6-7 | the residual is zero exactly when `A x == b` |
| Core.GradientEntry | hydrosolver/core.py:9-14 | entry `j` of the gradient is twice the residual dotted with column `j` |
| Core.GradientAtSolution | hydrosolver/core.py:9-14 | where the residual vanishes, the gradient vanishes |
| Objective.Weights | hydrosolver/optimization.py:78-81 | no weights means 13 unit weights, one per stencil nutrient; given weights are kept |
| Objective.WeightsAsWritten | hydrosolver/optimization.py:78-81 | as written, no weights raises `AttributeError`; given weights agree with `Weights` |
| Objective.DefaultWeightsAsWritten | hydrosolver/optimization.py:80 | the default raises `AttributeError` as written, and is all ones as intended |
| Objective.WlsCost | hydrosolver/optimization.py:83-84 | with non-negative weights the cost is never negative; with positive weights it is zero exactly when `A x == b` |
| Objective.WlsGrad | hydrosolver/optimization.py:86-87 | the gradient has one entry per unknown, and is zero wherever `A x == b` |
| Objective.UnitWeights | hydrosolver/optimization.py:83-87 | with unit weights the cost is `norm2(residual)` and the gradient is `gradient` of core.py |
| Objective.CostAlongLine | hydrosolver/optimization.py:83-87 | along `x + t d` the cost is a quadratic in `t` whose slope at `t = 0` is `grad(x) . d`: the gradient is the cost's derivative |
| Objective.Wls | hydrosolver/optimization.py:75-87 | on the shapes numpy accepts, the functional's `cost` and `grad` are defined and are `WlsCost` and `WlsGrad` with the functional's weights |
| Objective.WlsDefined | hydrosolver/optimization.py:75-87 | with one weight per row of `A`, the WLS functional is defined at every formulation of the right length, and its gradient has that length |
| Objective.Problem.Cost | hydrosolver/optimization.py:104-105 | under a WLS functional with one weight per row, the problem's cost is `WlsCost` at `A`, `b`, and is never negative for non-negative weights |
| Objective.Problem.Grad | hydrosolver/optimization.py:107-108 | the problem's gradient has one entry per unknown |
| Objective.WlsProblemCost | hydrosolver/optimization.py:104-108 | under the WLS functional the problem's cost and gradient are `WlsCost` and `WlsGrad`, and the cost is never negative for non-negative weights |
| Objective.MakeProblem | hydrosolver/optimization.py:90-102 | the problem exists exactly when `A` does; `A` is the solution's matrix, `b` is the target vector times the solution's mass, the start is the formulation, and the functional is the one given |
| Objective.ProblemSolvedIffTarget | hydrosolver/optimization.py:99-101 | the residual vanishes at the start exactly when the solution already has the target composition |
| Objective.Waypoint.Cost | hydrosolver/optimization.py:122-124 | a waypoint's cost is its problem's WLS cost at its point, never negative for non-negative weights |
| Objective.Waypoint.Grad | hydrosolver/optimization.py:126-128 | a waypoint's gradient has one entry per unknown |
| Objective.Waypoint.GradNorm2 | hydrosolver/optimization.py:130-132 | `grad_norm2` is never negative, and zero exactly where the gradient is |
| Objective.Waypoint.Spawn | hydrosolver/optimization.py:138-139 | `spawn` keeps the problem and takes the new point |
| Objective.InitialWaypoint | hydrosolver/optimization.py:115-120 | the first waypoint is the problem's initial formulation |
| Simplex.Insert | hydrosolver/optimization.py:147 | inserting into a descending sequence keeps it descending and adds exactly that entry |
| Simplex.SortDescending | hydrosolver/optimization.py:147 | `np.flip(np.sort(v))` is descending and a permutation of `v` |
| Simplex.LastQualifying | hydrosolver/optimization.py:149 | the index `[-1]` picks passes the filter, and no later index does; nothing is picked exactly when no index passes |
| Simplex.Threshold | hydrosolver/optimization.py:148-149 | a found `theta` lies below the largest entry; when none is found, no index passes the filter |
| Simplex.Shrink | hydrosolver/optimization.py:150 | `np.maximum(v - theta, 0)` has the length of `v` and is non-negative |
| Simplex.ProjectSimplex | hydrosolver/optimization.py:142-152 | the projection exists exactly when the mass is positive and `v` non-empty; it then has the length of `v`, is non-negative and sums to the mass |
| Simplex.ThresholdExists | hydrosolver/optimization.py:148-149 | `theta` is found exactly for a positive mass and a non-empty vector; otherwise `[-1]` raises `IndexError` |
| Simplex.ThresholdSum | hydrosolver/optimization.py:148-150 | shrinking by `theta` leaves exactly the mass |
| Simplex.ProjectSimplexFixesFeasible | hydrosolver/optimization.py:142-152 | a point already on the simplex is its own projection |
| Simplex.ProjectSimplexIdempotent | hydrosolver/optimization.py:142-152 | projecting twice gives the same as projecting once |
| Descent.ProjectSimplexOntoSimplex | hydrosolver/optimization.py:142-152 | `project_simplex` is a projection onto the simplex in the sense the descent relies on |
| Descent.Trial | hydrosolver/optimization.py:208 | a trial point exists exactly for a positive mass and a non-empty formulation; it belongs to the same problem and lies on the simplex of the mass |
| Descent.Converged | hydrosolver/optimization.py:201-202 | a non-positive tolerance never stops the descent, and at a zero gradient it stops exactly when the tolerance is positive |
| Descent.Armijo | hydrosolver/optimization.py:216-217 | with `sigma == 0`, or at a zero gradient, the Armijo test is exactly a strict decrease of the cost |
| Descent.ArmijoDecreases | hydrosolver/optimization.py:216-217 | a trial that passes the Armijo test, with non-negative `sigma` and step, costs strictly less |
| Descent.Judge | hydrosolver/optimization.py:208-217 | one trial fails to project exactly when the simplex is empty, and an accepted trial belongs to the same problem |
| Descent.AcceptedTrial | hydrosolver/optimization.py:208-217 | an accepted trial lies on the simplex, differs from the current point, and passes the Armijo test |
| Descent.Backtrack | hydrosolver/optimization.py:204-221 | an accepted trial of the inner loop belongs to the same problem |
| Descent.BacktrackFacts | hydrosolver/optimization.py:204-221 | the inner loop ends at the first trial that is not rejected, tried at `step * beta^j`; all earlier trials were rejected; it raises exactly when the simplex is empty; it gives up only after every trial within the bound was rejected |
| Descent.BacktrackSkips | hydrosolver/optimization.py:218-221 | after rejected trials the loop goes on as if started from the first trial that is not rejected, with the step multiplied by `beta` per rejection |
| Descent.LineSearch | hydrosolver/optimization.py:204-221 | the `while True` loop computes `Backtrack` |
| Descent.StepAtNonNegative | hydrosolver/optimization.py:220-221 | a non-negative step multiplied by a positive `beta` any number of times stays non-negative |
| Descent.NextStep | hydrosolver/optimization.py:223-227 | without step prediction the step is kept after rejections, and divided by `beta` after an iteration without any |
| Descent.NextStepNonNegative | hydrosolver/optimization.py:223-227 | the step handed to the next iteration stays non-negative |
| Descent.Pass | hydrosolver/optimization.py:200-230 | an iteration that advances stays in the same problem |
| Descent.PassStops | hydrosolver/optimization.py:201-211 | an iteration stops on the tolerance exactly when `grad_norm < tolerance`, and with `IndexError` exactly when, above the tolerance, the simplex is empty |
| Descent.PassLoops | hydrosolver/optimization.py:210-211 | an iteration raises `DescendLoopException` exactly when, above the tolerance, some trial within the bound returns the current point after every earlier trial was rejected |
| Descent.PassGivesUp | hydrosolver/optimization.py:204-221 | the line search gives up exactly when, above the tolerance, every trial within the bound is rejected |
| Descent.PassAdvances | hydrosolver/optimization.py:200-230 | an iteration advances to `next` with `nextStep` after `j` rejections exactly when trial `j` is accepted, all earlier trials are rejected, and `nextStep` is the adjusted step |
| Descent.MovesOnto | hydrosolver/optimization.py:208-217 | the accepted point lies on the simplex of the mass, differs from the current point, and satisfies the Armijo condition at the step it was tried with |
| Descent.MovesDecreases | hydrosolver/optimization.py:216-227 | with non-negative `sigma`, step and `beta`, an accepted iteration strictly lowers the cost and hands on a non-negative step |
| Descent.Iterate | hydrosolver/optimization.py:200-230 | the body of the `for` loop computes `Pass` |
| Descent.Descend | hydrosolver/optimization.py:199-240 | the run starts at the given point and step, keeps one step per point and one rejection count per iteration, and every point is well formed |
| Descent.DescendLinks | hydrosolver/optimization.py:229-230 | each point of the run is where the loop body advanced to from the point before it |
| Descent.DescendEnds | hydrosolver/optimization.py:200 | the run keeps at most one point per remaining iteration plus the start; it runs out of iterations exactly when it has that many; otherwise it ends with an interrupt or with the body stopping at its last point |
| Descent.PassOf | hydrosolver/optimization.py:200-230 | the loop body keeps points well formed |
| Descent.ProjectedGradientDescent | hydrosolver/optimization.py:155-244 | the loop returns the points and the termination of `Trajectory` |
| Descent.RunEnds | hydrosolver/optimization.py:200 | the descent holds at most `iter_max + 1` points, exactly that many when the iterations ran out, and stops no later than an interrupt |
| Descent.RunStep | hydrosolver/optimization.py:200-230 | at iteration `i` the loop body either stops the descent there with its reason, or advances to the descent's next point and step |
| Descent.LinkedMoves | hydrosolver/optimization.py:204-230 | along a run of the loop body, every iteration is an accepted line search |
| Descent.Trajectory | hydrosolver/optimization.py:190-231 | the descent is non-empty, starts at the initial waypoint with `step_init`, keeps one step per point and one rejection count per iteration, and every point is well formed |
| Descent.TrajectoryAdvances | hydrosolver/optimization.py:204-230 | a descent that moves at all started from a non-empty formulation of positive mass, and its last point is one too |
| Descent.TrajectoryMoves | hydrosolver/optimization.py:190-230 | the descent starts at the initial formulation with `step_init`; every iteration but the last rejects some trials, accepts the next point and hands on the adjusted step |
| Descent.MovesOntoSimplex | hydrosolver/optimization.py:191 | all points share one problem, and every point after the first lies on the simplex of the initial mass |
| Descent.TrajectoryShape | hydrosolver/optimization.py:190-244 | the descent is non-empty, starts at the initial formulation, and has at most `iter_max + 1` points, exactly that many when the iterations ran out; all points belong to the problem, and every point after the first is non-negative with the initial mass |
| Descent.MovesDecrease | hydrosolver/optimization.py:216-227 | along accepted iterations the steps stay non-negative and the cost strictly decreases from every point to every later one |
| Descent.TrajectoryDecreasing | hydrosolver/optimization.py:199-230 | with non-negative `sigma`, `step_init` and positive `beta`, the cost strictly decreases along the descent |
| Descent.TrajectoryEnd | hydrosolver/optimization.py:199-240 | the descent ends on the tolerance only below it, on an interrupt only at the iteration after its last point, on the loop test only when a trial returned the last point, and on the bound only when every trial was rejected |
| Descent.TrajectoryInfeasible | hydrosolver/optimization.py:199-244 | `IndexError` escapes exactly when the first iteration starts above the tolerance on an empty simplex, and the descent then holds the initial point alone |
| Descent.DefaultSettings | hydrosolver/optimization.py:155-163 | the keyword defaults of `projected_gradient_descent` satisfy what the descent's properties require |
| Descent.TrajectoryFeasible | hydrosolver/optimization.py:199-244 | a descent from a non-empty formulation of positive mass never ends with the escaping `IndexError` |
| Descent.TrajectoryLast | hydrosolver/optimization.py:190-244 | the last point of the descent belongs to the problem, has the initial length and mass, and costs no more than the initial formulation |
| Descent.OptimizeRun | hydrosolver/optimization.py:267-272 | the descent `optimize` runs is non-empty and starts at the solution's formulation |
| Descent.Optimized | hydrosolver/optimization.py:247-274 | a result of `optimize` means `A` stacks, and the result is a valid solution with the same compositions |
| Descent.OptimizedKeeps | hydrosolver/optimization.py:247-274 | `optimize` fails with `ValueError` when `A` does not stack and succeeds when it stacks and the mass is positive; the result keeps the total mass, and its WLS cost is no more than the initial formulation's |
| Descent.Optimize | hydrosolver/optimization.py:247-274 | `optimize` computes `Optimized`: the `ValueError` of `np.stack`, the `IndexError` that escapes the descent, or the solution spawned at the descent's last point; no weights means the corrected default weights of `Objective.Weights` |

## Left out

- Floating point.
  - All arithmetic is exact over the reals.
  - `np.allclose(x_trial, point.x)` is modelled as exact equality.
  - `grad_norm < tolerance` is written as `tolerance > 0 && grad_norm2 < tolerance^2`, which is the same test without the square root.
  - `np.linalg.lstsq`, `norm` and `sqrt` are not modelled.
- Step prediction at a trial with a zero gradient: the model keeps the step. numpy would divide by zero and produce `inf` or `nan`.
- `while True`: the inner loop of `projected_gradient_descent` has no bound in the source.
  - The model gives up after `maxBacktracks` rejected trials and ends the descent with `BacktrackLimit`.
  - Backtracking that never ends is not modelled.
- `KeyboardInterrupt` is the parameter `interruptAt`. An interrupt can arrive only at the start of an iteration, not in the middle of one.
- `beta == 0` would raise `ZeroDivisionError` after an iteration without rejections. The model requires a non-zero `beta`.
- numpy shape errors. Mismatched lengths in `A @ x`, `-`, `np.inner` and the weights are preconditions (`IsMatrix`, equal lengths), or are stated through `DefinedFor`, instead of modelled exceptions. The exception is `np.stack`, whose `ValueError` is modelled.
- Objective.WlsDefined: a Dafny partial lambda exposes only one direction of its precondition. So the lemma states that the WLS functional is defined on the right shapes, but not that it is undefined elsewhere.
- `ObjectiveFunctional.test`, which only raises `NotImplementedError`, is not modelled. The base class's `cost` and `grad`, which return `None`, are not modelled either: a problem's functional is any pair of functions.
- Equality of compositions. `Solution.__add__` compares composition lists with `==`, which for objects without `__eq__` compares identity. The model compares values.
- Caching: `cached_property` on waypoints is not modelled; cost and gradient are recomputed.
- `Compositions.Scale` takes Python's rendering of `number` in the name as a parameter (`numberText`).
- Output: logging, `__repr__`, `__str__`, tables, argument parsing, YAML database files, and the repository's scripts (`run.py`, `hakaphos.py`, `masterblend.py`, the `optimization.py` demo) are not modelled.
- `project_simplex` for `m == 0`. No index passes the filter, so `[-1]` raises `IndexError`; the model follows the code here, not a projection onto `{0}`.
- An `IndexError` raised inside `projected_gradient_descent` escapes it. The model ends the descent with `ProjectionFailed`, and `Optimize` returns `Err(IndexError)`.
- Compositions.Loaded: `load` stores the two groups as Python lists, whereas `__init__` stores numpy arrays. On loaded compositions `a + b` therefore joins the lists and then raises `TypeError` at `.5 * list`, and `number * c` repeats the list for an integer and raises `TypeError` for a float. The model does not tell lists from arrays, so its arithmetic on loaded compositions is the arithmetic on arrays.
- Descent.Optimize: no weights means the corrected default weights of `Objective.Weights`. As written, `optimize(solution, target)` raises `AttributeError` (see Findings).
- Simplex.ProjectSimplex: the result is proved to lie on the simplex, and points of the simplex are proved to be fixed. That it is the nearest point of the simplex, the theorem of Blondel, Fujino and Ueda, is not proved.
- hydrosolver/utils.py and hydrosolver/database are not part of this model.

## Findings

| source | as written | input that shows it | evidently intended | confidence | as-written member | corrected member |
|---|---|---|---|---|---|---|
| hydrosolver/solution.py:103-106 | `composition` passes `vector=` to `Composition()`, whose constructor has no such parameter, so every solution of non-zero mass raises `TypeError` | `Solution.dissolve(1.0, water, [])` then `.composition` | the mix `A @ formulation / mass` as a `Composition` | high, not executed | Solutions.ResultingAsWritten | Solutions.Resulting |
| hydrosolver/optimization.py:80 | the default weights read `composition.nutrients_stencil`, which composition.py does not define, so `WLSObjectiveFunctional()` raises `AttributeError` | `optimize(solution, target)` with no weights | one unit weight per stencil nutrient, 13 in all | high, not executed | Objective.WeightsAsWritten | Objective.Weights |
