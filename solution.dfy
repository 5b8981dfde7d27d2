/**
 * hydrosolver/solution.py: a solution is a list of compositions together
 * with the mass (kg) of each of them in the mix (the formulation); the
 * last composition is conventionally the water.
 */
module Solutions {
  import opened Wrappers
  import opened Vectors
  import opened Core
  import Compositions

  type Composition = Compositions.Composition

  const ResultingName: string := "Resulting composition"

  datatype Solution = Solution(compositions: seq<Composition>, formulation: Vector)
  {
    /** What the constructor checks: one mass per composition. */
    predicate Valid()
    {
      |compositions| == |formulation|
    }

    /**
     * `mass`: the total mass of the solution, which no negative amount
     * means is never negative, and which is zero for an empty solution.
     */
    function Mass(): (m: real)
      ensures NonNegative(formulation) ==> m >= 0.0
      ensures formulation == [] ==> m == 0.0
    {
      assert NonNegative(formulation) ==> Sum(formulation) >= 0.0 by {
        if NonNegative(formulation) {
          SumNonNegative(formulation);
        }
      }
      Sum(formulation)
    }
  }

  /** `Solution(compositions, formulation)`, or the `ValueError` it raises. */
  function New(compositions: seq<Composition>, formulation: Vector): (r: Result<Solution>)
    ensures r.Ok? <==> |compositions| == |formulation|
    ensures r.Ok? ==> r.value.Valid() && r.value.compositions == compositions && r.value.formulation == formulation
    ensures r.Err? ==> r.error.ValueError?
  {
    if |compositions| != |formulation| then
      Err(ValueError("The formulation is inconsistent with the number of compositions."))
    else
      Ok(Solution(compositions, formulation))
  }

  /**
   * `Solution.dissolve(mass, water, compositions_, formulation_)`: the water
   * is appended to the compositions and takes up whatever mass the others
   * leave; no formulation means none of the other compositions is used.
   */
  function Dissolve(mass: real, water: Composition, compositions: seq<Composition>, formulation: Option<Vector>): (r: Result<Solution>)
    ensures r.Ok? <==> formulation.None? || |formulation.value| == |compositions|
    ensures r.Err? ==> r.error.ValueError?
    ensures r.Ok? ==> r.value.Valid() && r.value.compositions == compositions + [water]
    ensures r.Ok? ==> r.value.Mass() == mass
    ensures r.Ok? && formulation.Some? ==> r.value.formulation[..|compositions|] == formulation.value
    ensures r.Ok? && formulation.None? ==> r.value.formulation == Zeros(|compositions|) + [mass]
  {
    var given := if formulation.None? then Zeros(|compositions|) else formulation.value;
    var full := given + [mass - Sum(given)];
    SumAppend(given, [mass - Sum(given)]);
    assert full[..|given|] == given;
    SumZeros(|compositions|);
    New(compositions + [water], full)
  }

  /** `spawn(formulation_new)`: the same compositions in new amounts. */
  function Spawn(s: Solution, formulation: Vector): (r: Result<Solution>)
    ensures r.Ok? <==> |formulation| == |s.compositions|
    ensures r.Ok? ==> r.value.Valid() && r.value.compositions == s.compositions && r.value.formulation == formulation
  {
    New(s.compositions, formulation)
  }

  /**
   * `a + b`: defined only for solutions of the same compositions, whose
   * amounts then add up.
   */
  function Add(a: Solution, b: Solution): (r: Result<Solution>)
    requires a.Valid() && b.Valid()
    ensures r.Ok? <==> a.compositions == b.compositions
    ensures r.Err? ==> r.error.ArithmeticError?
    ensures r.Ok? ==> r.value.Valid() && r.value.compositions == a.compositions
    ensures r.Ok? ==> r.value.formulation == Plus(a.formulation, b.formulation)
    ensures r.Ok? ==> r.value.Mass() == a.Mass() + b.Mass()
  {
    if a.compositions == b.compositions then
      SumPlus(a.formulation, b.formulation);
      Spawn(a, Plus(a.formulation, b.formulation))
    else
      Err(ArithmeticError("Only solutions of the same compositions can be added or subtracted."))
  }

  /** `-s` */
  function Neg(s: Solution): (r: Solution)
    requires s.Valid()
    ensures r.Valid() && r.compositions == s.compositions
    ensures r.formulation == Negated(s.formulation)
    ensures r.Mass() == -s.Mass()
  {
    SumNegated(s.formulation);
    Spawn(s, Negated(s.formulation)).value
  }

  /** `a - b`, that is `a + (-b)`. */
  function Sub(a: Solution, b: Solution): (r: Result<Solution>)
    requires a.Valid() && b.Valid()
    ensures r.Ok? <==> a.compositions == b.compositions
    ensures r.Err? ==> r.error.ArithmeticError?
    ensures r.Ok? ==> r.value.Valid() && r.value.compositions == a.compositions
    ensures r.Ok? ==> r.value.formulation == Minus(a.formulation, b.formulation)
    ensures r.Ok? ==> r.value.Mass() == a.Mass() - b.Mass()
  {
    assert |a.formulation| == |b.formulation| ==>
      Plus(a.formulation, Negated(b.formulation)) == Minus(a.formulation, b.formulation);
    Add(a, Neg(b))
  }

  /** `number * s`: every amount scaled. */
  function Scale(number: real, s: Solution): (r: Solution)
    requires s.Valid()
    ensures r.Valid() && r.compositions == s.compositions
    ensures r.formulation == Scaled(number, s.formulation)
    ensures r.Mass() == number * s.Mass()
  {
    SumScaled(number, s.formulation);
    Spawn(s, Scaled(number, s.formulation)).value
  }

  /** A solution minus itself has nothing left in it. */
  lemma SubSelf(s: Solution)
    requires s.Valid()
    ensures Sub(s, s).Ok? && Sub(s, s).value.formulation == Zeros(|s.formulation|)
  {
    var d := Sub(s, s).value;
    assert forall i :: 0 <= i < |d.formulation| ==> d.formulation[i] == 0.0;
  }

  // ---------------------------------------------------------------------
  // The linear system

  /** `np.stack` succeeds: at least one composition, all vectors of one length. */
  predicate Stackable(compositions: seq<Composition>)
  {
    |compositions| > 0 &&
    forall j :: 0 <= j < |compositions| ==>
      |compositions[j].NutrientVector()| == |compositions[0].NutrientVector()|
  }

  /**
   * `A`: the matrix whose column `j` is the nutrient vector of composition
   * `j`, so that `A @ formulation` is the nutrient mass in the solution.
   */
  function SystemMatrix(compositions: seq<Composition>): (r: Result<Matrix>)
    ensures r.Ok? <==> Stackable(compositions)
    ensures r.Err? ==> r.error.ValueError?
    ensures r.Ok? ==> |r.value| == |compositions[0].NutrientVector()| && IsMatrix(r.value, |compositions|)
    ensures r.Ok? ==> forall j :: 0 <= j < |compositions| ==>
      Column(r.value, |compositions|, j) == compositions[j].NutrientVector()
  {
    if !Stackable(compositions) then
      Err(ValueError("all input arrays must have the same shape"))
    else
      var n := |compositions|;
      var rows := |compositions[0].NutrientVector()|;
      var A := seq(rows, i requires 0 <= i < rows =>
                 seq(n, j requires 0 <= j < n => compositions[j].NutrientVector()[i]));
      assert forall j :: 0 <= j < n ==> Column(A, n, j) == compositions[j].NutrientVector() by {
        forall j | 0 <= j < n ensures Column(A, n, j) == compositions[j].NutrientVector() {
          assert forall i :: 0 <= i < rows ==> Column(A, n, j)[i] == compositions[j].NutrientVector()[i];
        }
      }
      Ok(A)
  }

  /** The ratios of the mix: the nutrient masses divided by the total mass. */
  function MixVector(s: Solution): (v: Vector)
    requires s.Valid() && Stackable(s.compositions) && s.Mass() != 0.0
    ensures |v| == |s.compositions[0].NutrientVector()|
  {
    Scaled(1.0 / s.Mass(), MatVec(SystemMatrix(s.compositions).value, s.formulation))
  }

  /** The stencil split of a nutrient vector back into its two groups. */
  function FromVector(name: string, v: Vector): (c: Composition)
    ensures c.name == name && c.NutrientVector() == v
    ensures |v| == Compositions.StencilLength ==> c.Stenciled()
  {
    var k := Compositions.Min(|Compositions.MacronutrientsDesc|, |v|);
    assert v[..k] + v[k..] == v;
    Compositions.Composition(name, v[..k], v[k..])
  }

  /**
   * `composition` as evidently intended: the default composition for an
   * empty solution, otherwise the mass-weighted mix of the compositions.
   */
  function Resulting(s: Solution): (r: Result<Composition>)
    requires s.Valid()
    ensures s.Mass() == 0.0 ==> r.Ok? && r.value.NutrientVector() == Zeros(Compositions.StencilLength)
    ensures s.Mass() != 0.0 ==> (r.Ok? <==> Stackable(s.compositions))
    ensures r.Ok? ==> r.value.name == ResultingName
    ensures r.Ok? && s.Mass() != 0.0 ==> r.value.NutrientVector() == MixVector(s)
  {
    if s.Mass() == 0.0 then
      Ok(Compositions.Default().(name := ResultingName))
    else if !Stackable(s.compositions) then
      Err(SystemMatrix(s.compositions).error)
    else
      Ok(FromVector(ResultingName, MixVector(s)))
  }

  /**
   * `composition` as written: a non-empty solution passes `vector=` to the
   * `Composition` constructor, which takes no such argument.
   */
  function ResultingAsWritten(s: Solution): (r: Result<Composition>)
    requires s.Valid()
    ensures s.Mass() == 0.0 ==> r == Resulting(s)
    ensures s.Mass() != 0.0 ==> r.Err?
  {
    if s.Mass() == 0.0 then
      Ok(Compositions.Default().(name := ResultingName))
    else if !Stackable(s.compositions) then
      Err(SystemMatrix(s.compositions).error)
    else
      Err(TypeError("__init__() got an unexpected keyword argument 'vector'"))
  }

  /** Water dissolved on its own: the intended result is the water, the written code raises. */
  lemma ResultingAsWrittenPlainWater(mass: real, water: Composition)
    requires mass != 0.0
    ensures Dissolve(mass, water, [], None).Ok?
    ensures ResultingAsWritten(Dissolve(mass, water, [], None).value).Err?
    ensures ResultingAsWritten(Dissolve(mass, water, [], None).value).error.TypeError?
    ensures Resulting(Dissolve(mass, water, [], None).value).Ok?
  {
    var s := Dissolve(mass, water, [], None).value;
    assert Stackable(s.compositions);
  }

  // ---------------------------------------------------------------------
  // Properties of the resulting composition

  /** Row `i` of `A` for compositions that all have the same vector `v`. */
  lemma UniformRow(s: Solution, v: Vector, i: nat)
    requires s.Valid() && Stackable(s.compositions)
    requires forall j :: 0 <= j < |s.compositions| ==> s.compositions[j].NutrientVector() == v
    requires i < |v|
    ensures SystemMatrix(s.compositions).value[i] == Scaled(v[i], Ones(|s.formulation|))
  {
    var A := SystemMatrix(s.compositions).value;
    var n := |s.compositions|;
    forall j | 0 <= j < n ensures A[i][j] == Scaled(v[i], Ones(n))[j] {
      assert Column(A, n, j)[i] == A[i][j];
    }
  }

  /** Mixing any amounts of one composition gives that composition back. */
  lemma ResultingUniform(s: Solution, v: Vector)
    requires s.Valid() && |s.compositions| > 0 && s.Mass() != 0.0
    requires forall j :: 0 <= j < |s.compositions| ==> s.compositions[j].NutrientVector() == v
    ensures Resulting(s).Ok? && Resulting(s).value.NutrientVector() == v
  {
    var mix := MixVector(s);
    forall i | 0 <= i < |v| ensures mix[i] == v[i] {
      UniformEntry(s, v, i);
    }
  }

  /** One entry of `ResultingUniform`. */
  lemma UniformEntry(s: Solution, v: Vector, i: nat)
    requires s.Valid() && |s.compositions| > 0 && s.Mass() != 0.0
    requires forall j :: 0 <= j < |s.compositions| ==> s.compositions[j].NutrientVector() == v
    requires i < |v|
    ensures Stackable(s.compositions) && i < |MixVector(s)| && MixVector(s)[i] == v[i]
  {
    var A := SystemMatrix(s.compositions).value;
    var m := s.Mass();
    UniformRow(s, v, i);
    DotScaledLeft(v[i], Ones(|s.formulation|), s.formulation);
    DotOnesLeft(s.formulation);
    assert MatVec(A, s.formulation)[i] == v[i] * m;
    assert MixVector(s)[i] == (1.0 / m) * (v[i] * m);
  }

  /** Rescaling every amount by the same non-zero factor does not change the mix. */
  lemma ResultingScaleInvariant(k: real, s: Solution)
    requires s.Valid() && Stackable(s.compositions) && s.Mass() != 0.0 && k != 0.0
    ensures Scale(k, s).Mass() != 0.0
    ensures Resulting(Scale(k, s)) == Resulting(s)
  {
    var t := Scale(k, s);
    var A := SystemMatrix(s.compositions).value;
    var m := s.Mass();
    assert t.Mass() == k * m;
    var mixK := MixVector(t);
    var mix := MixVector(s);
    forall i | 0 <= i < |mix| ensures mixK[i] == mix[i] {
      DotScaledRight(A[i], k, s.formulation);
      var y := Dot(A[i], s.formulation);
      assert mixK[i] == (1.0 / (k * m)) * (k * y);
      assert (1.0 / (k * m)) * (k * y) == (1.0 / m) * y;
    }
    assert mixK == mix;
  }

  /**
   * Equal masses of two compositions give the composition `a + b` of
   * composition.py, the average of the two.
   */
  lemma ResultingEqualParts(a: Composition, b: Composition, mass: real)
    requires |a.macronutrients| == |b.macronutrients| && |a.micronutrients| == |b.micronutrients|
    requires mass != 0.0
    ensures Resulting(Solution([a, b], [mass, mass])).Ok?
    ensures Resulting(Solution([a, b], [mass, mass])).value.NutrientVector() == Compositions.Add(a, b).NutrientVector()
  {
    var s := Solution([a, b], [mass, mass]);
    assert s.formulation[1..] == [mass] && [mass][1..] == [];
    assert Sum([mass]) == mass;
    assert s.Mass() == mass + mass;
    assert Stackable(s.compositions);
    var A := SystemMatrix(s.compositions).value;
    var mix := MixVector(s);
    var avg := Compositions.Add(a, b).NutrientVector();
    forall i | 0 <= i < |mix| ensures mix[i] == avg[i] {
      assert Column(A, 2, 0)[i] == A[i][0] && Column(A, 2, 1)[i] == A[i][1];
      var x := a.NutrientVector()[i];
      var y := b.NutrientVector()[i];
      assert A[i] == [x, y];
      assert [x, y][1..] == [y] && [y][1..] == [];
      assert Dot([y], [mass]) == y * mass;
      assert Dot(A[i], s.formulation) == x * mass + y * mass;
      assert mix[i] == (1.0 / (mass + mass)) * (x * mass + y * mass);
      assert (1.0 / (mass + mass)) * (x * mass + y * mass) == 0.5 * (x + y);
    }
    assert mix == avg;
  }
}
