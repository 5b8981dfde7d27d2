/**
 * hydrosolver/composition.py: a named nutrient composition, split into the
 * 7 macronutrient ratios and the 6 micronutrient ratios of the stencil, its
 * arithmetic, and its conversion to and from the nested dictionary the
 * database files hold.
 *
 * A Python dict is modelled as the sequence of its (key, value) entries in
 * insertion order.
 */
module Compositions {
  import opened Wrappers
  import opened Vectors

  const MacronutrientsDesc: seq<string> := ["N (NO3-)", "N (NH4+)", "P", "K", "Mg", "Ca", "S"]
  const MicronutrientsDesc: seq<string> := ["Fe", "Zn", "B", "Mn", "Cu", "Mo"]

  /** The number of nutrients in the stencil, 7 + 6. */
  const StencilLength: nat := |MacronutrientsDesc| + |MicronutrientsDesc|

  const MacronutrientsKey: string := "macronutrients"
  const MicronutrientsKey: string := "micronutrients"

  type Dict<V> = seq<(string, V)>

  /** The nutrient amounts of one group, keyed by nutrient description. */
  type Amounts = Dict<real>
  /** `{'macronutrients': ..., 'micronutrients': ...}` */
  type Groups = Dict<Amounts>

  datatype Composition = Composition(name: string, macronutrients: Vector, micronutrients: Vector)
  {
    /** The ratios have the stencil's 7 + 6 entries. */
    predicate Stenciled()
    {
      |macronutrients| == |MacronutrientsDesc| && |micronutrients| == |MicronutrientsDesc|
    }

    /** `vector`: the macronutrients followed by the micronutrients. */
    function NutrientVector(): (v: Vector)
      ensures |v| == |macronutrients| + |micronutrients|
      ensures v[..|macronutrients|] == macronutrients && v[|macronutrients|..] == micronutrients
      ensures Stenciled() ==> |v| == StencilLength
    {
      macronutrients + micronutrients
    }
  }

  /** `Composition()` with its default arguments: empty name, every ratio zero. */
  function Default(): (c: Composition)
    ensures c.Stenciled() && c.name == ""
    ensures c.NutrientVector() == Zeros(StencilLength)
  {
    Composition("", Zeros(|MacronutrientsDesc|), Zeros(|MicronutrientsDesc|))
  }

  /** `a + b`: the mixture of equal masses of `a` and `b`. */
  function Add(a: Composition, b: Composition): (c: Composition)
    requires |a.macronutrients| == |b.macronutrients| && |a.micronutrients| == |b.micronutrients|
    ensures c.name == a.name + " + " + b.name
    ensures c.NutrientVector() == Scaled(0.5, Plus(a.NutrientVector(), b.NutrientVector()))
  {
    var c := Composition(a.name + " + " + b.name,
                         Scaled(0.5, Plus(a.macronutrients, b.macronutrients)),
                         Scaled(0.5, Plus(a.micronutrients, b.micronutrients)));
    assert c.NutrientVector() == Scaled(0.5, Plus(a.NutrientVector(), b.NutrientVector()));
    c
  }

  /**
   * `number * a`. Python renders `number` into the name with its float
   * formatting; `numberText` is that rendering.
   */
  function Scale(number: real, numberText: string, a: Composition): (c: Composition)
    ensures c.name == numberText + " * (" + a.name + ")"
    ensures c.NutrientVector() == Scaled(number, a.NutrientVector())
  {
    var c := Composition(numberText + " * (" + a.name + ")",
                         Scaled(number, a.macronutrients), Scaled(number, a.micronutrients));
    assert forall i :: 0 <= i < |a.NutrientVector()| ==>
      c.NutrientVector()[i] == Scaled(number, a.NutrientVector())[i];
    c
  }

  lemma AddCommutes(a: Composition, b: Composition)
    requires |a.macronutrients| == |b.macronutrients| && |a.micronutrients| == |b.micronutrients|
    ensures Add(a, b).NutrientVector() == Add(b, a).NutrientVector()
  {
  }

  lemma AddSelf(a: Composition)
    ensures Add(a, a).NutrientVector() == a.NutrientVector()
  {
    var v := Add(a, a).NutrientVector();
    assert forall i :: 0 <= i < |v| ==> v[i] == a.NutrientVector()[i];
  }

  // ---------------------------------------------------------------------
  // Dictionaries

  function Min(a: nat, b: nat): nat
  {
    if a <= b then a else b
  }

  /** `{k: v for k, v in zip(keys, values)}` */
  function Zip<V>(keys: seq<string>, values: seq<V>): (d: Dict<V>)
    ensures |d| == Min(|keys|, |values|)
  {
    seq(Min(|keys|, |values|), i requires 0 <= i < Min(|keys|, |values|) => (keys[i], values[i]))
  }

  /** `list(d.values())` */
  function Values<V>(d: Dict<V>): (vs: seq<V>)
    ensures |vs| == |d|
  {
    seq(|d|, i requires 0 <= i < |d| => d[i].1)
  }

  /** `d[key]`, or nothing when `key` is missing (a later entry wins, as in a dict display). */
  function Lookup<V>(d: Dict<V>, key: string): Option<V>
  {
    if d == [] then None
    else if d[|d| - 1].0 == key then Some(d[|d| - 1].1)
    else Lookup(d[..|d| - 1], key)
  }

  predicate HasGroups(groups: Groups)
  {
    Lookup(groups, MacronutrientsKey).Some? && Lookup(groups, MicronutrientsKey).Some?
  }

  /** `dump`: `{name: {'macronutrients': {...}, 'micronutrients': {...}}}` in stencil order. */
  function Dump(c: Composition): (d: Dict<Groups>)
    ensures |d| == 1 && d[0].0 == c.name && HasGroups(d[0].1)
    ensures Lookup(d[0].1, MacronutrientsKey) == Some(Zip(MacronutrientsDesc, c.macronutrients))
    ensures Lookup(d[0].1, MicronutrientsKey) == Some(Zip(MicronutrientsDesc, c.micronutrients))
  {
    [(c.name, [(MacronutrientsKey, Zip(MacronutrientsDesc, c.macronutrients)),
               (MicronutrientsKey, Zip(MicronutrientsDesc, c.micronutrients))])]
  }

  /**
   * What `load` returns: the last entry of the dictionary (the one `popitem`
   * removes) read as a composition, or the `KeyError` Python raises when the
   * dictionary is empty or a nutrient group is missing.
   */
  function Loaded(d: Dict<Groups>): (r: Result<Composition>)
    ensures r.Ok? <==> d != [] && HasGroups(d[|d| - 1].1)
    ensures r.Ok? ==> r.value.name == d[|d| - 1].0
  {
    if d == [] then Err(KeyError("popitem(): dictionary is empty"))
    else
      var (name, groups) := d[|d| - 1];
      match Lookup(groups, MacronutrientsKey)
      case None => Err(KeyError(MacronutrientsKey))
      case Some(macro) =>
        match Lookup(groups, MicronutrientsKey)
        case None => Err(KeyError(MicronutrientsKey))
        case Some(micro) => Ok(Composition(name, Values(macro), Values(micro)))
  }

  /**
   * `load(composition_dict)`: starts from a default composition and assigns
   * its fields one by one. `popitem` removes the entry it reads from the
   * caller's dictionary, even when a nutrient group turns out to be missing;
   * `remaining` is the dictionary afterwards.
   */
  method Load(d: Dict<Groups>) returns (r: Result<Composition>, remaining: Dict<Groups>)
    ensures r == Loaded(d)
    ensures remaining == if d == [] then d else d[..|d| - 1]
  {
    remaining := d;
    if remaining == [] {
      return Err(KeyError("popitem(): dictionary is empty")), remaining;
    }
    var composition := Default();
    var entry := remaining[|remaining| - 1];
    remaining := remaining[..|remaining| - 1];
    composition := composition.(name := entry.0);
    var groups := entry.1;
    var macro := Lookup(groups, MacronutrientsKey);
    if macro.None? {
      return Err(KeyError(MacronutrientsKey)), remaining;
    }
    composition := composition.(macronutrients := Values(macro.value));
    var micro := Lookup(groups, MicronutrientsKey);
    if micro.None? {
      return Err(KeyError(MicronutrientsKey)), remaining;
    }
    composition := composition.(micronutrients := Values(micro.value));
    r := Ok(composition);
  }

  /**
   * `load_db`: every entry of the database read as a composition under the
   * same key, in the same order; the first entry lacking a nutrient group
   * makes the whole call fail.
   */
  function LoadDb(db: Dict<Groups>): (r: Result<Dict<Composition>>)
    ensures r.Ok? <==> forall i :: 0 <= i < |db| ==> HasGroups(db[i].1)
    ensures r.Ok? ==> |r.value| == |db|
    ensures r.Ok? ==> forall i :: 0 <= i < |db| ==> r.value[i].0 == db[i].0 && r.value[i].1.name == db[i].0
    ensures r.Ok? ==> forall i :: 0 <= i < |db| ==> Loaded([db[i]]) == Ok(r.value[i].1)
  {
    if db == [] then Ok([])
    else
      match Loaded([db[0]])
      case Err(e) => Err(e)
      case Ok(c) =>
        match LoadDb(db[1..])
        case Err(e) => Err(e)
        case Ok(rest) =>
          assert forall i :: 1 <= i < |db| ==> db[i] == db[1..][i - 1];
          Ok([(db[0].0, c)] + rest)
  }

  // ---------------------------------------------------------------------
  // Round trip

  lemma ValuesOfZip(keys: seq<string>, values: seq<real>)
    ensures Values(Zip(keys, values)) == values[..Min(|keys|, |values|)]
  {
  }

  /**
   * `load(dump(c))` gives `c` back, except that `dump` keeps no more ratios
   * than the stencil has names for.
   */
  lemma LoadDump(c: Composition)
    ensures Loaded(Dump(c)) == Ok(Composition(c.name,
                                              c.macronutrients[..Min(|MacronutrientsDesc|, |c.macronutrients|)],
                                              c.micronutrients[..Min(|MicronutrientsDesc|, |c.micronutrients|)]))
  {
    ValuesOfZip(MacronutrientsDesc, c.macronutrients);
    ValuesOfZip(MicronutrientsDesc, c.micronutrients);
  }

  /** For a composition of the stencil's shape the round trip is exact. */
  lemma LoadDumpStencil(c: Composition)
    requires |c.macronutrients| <= |MacronutrientsDesc| && |c.micronutrients| <= |MicronutrientsDesc|
    ensures Loaded(Dump(c)) == Ok(c)
  {
    LoadDump(c);
    assert c.macronutrients[..|c.macronutrients|] == c.macronutrients;
    assert c.micronutrients[..|c.micronutrients|] == c.micronutrients;
  }

  /** A database written by `dump` reads back under the same name. */
  lemma LoadDbDump(c: Composition)
    requires c.Stenciled()
    ensures LoadDb(Dump(c)) == Ok([(c.name, c)])
  {
    var db := Dump(c);
    LoadDumpStencil(c);
    assert [db[0]] == db;
    assert db[1..] == [];
    assert LoadDb(db[1..]) == Ok([]);
    assert [(db[0].0, c)] + [] == [(c.name, c)];
  }
}
