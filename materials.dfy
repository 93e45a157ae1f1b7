/**
 * The per-layer gas materials: the composition setting read as (element, fraction) pairs,
 * and one material per layer carrying that layer's resampled density and temperature.
 */
module Materials {
  import opened Wrappers
  import opened Toolkit
  import opened Configuration

  /** An element symbol and its mass fraction (a percentage times perCent). */
  datatype Component = Component(element: string, fraction: real)

  datatype Material = Material(density: real, temperature: real, components: seq<Component>)

  datatype MaterialError =
    | MissingFraction  // odd number of entries: the last element has no percentage
    | NotAnElement     // a percentage stands where an element symbol belongs
    | NotANumber       // an element symbol stands where a percentage belongs

  /** The composition is well formed: symbol, percentage, symbol, percentage, ... */
  ghost predicate Alternating(comp: seq<CompEntry>)
    decreases |comp|
  {
    |comp| == 0 || (|comp| >= 2 && comp[0].Symbol? && comp[1].Number? && Alternating(comp[2..]))
  }

  /** The symbol of an entry ("" for a percentage). */
  function SymbolOf(e: CompEntry): string {
    if e.Symbol? then e.name else ""
  }

  /** The percentage of an entry (0 for a symbol). */
  function PercentOf(e: CompEntry): real {
    if e.Number? then e.value else 0.0
  }

  /**
   * Reads the composition two entries at a time into (element, percentage * perCent) pairs,
   * in order; fails on an odd count or an entry of the wrong kind.
   */
  function PairComposition(comp: seq<CompEntry>): (r: Result<seq<Component>, MaterialError>)
    ensures r.Success? <==> Alternating(comp)
    ensures r.Success? ==> |r.value| * 2 == |comp|
    ensures r.Success? ==> forall k :: 0 <= k < |r.value| ==>
      r.value[k] == Component(SymbolOf(comp[2 * k]), PercentOf(comp[2 * k + 1]) * perCent)
    decreases |comp|
  {
    if |comp| == 0 then Success([])
    else if |comp| == 1 then Failure(MissingFraction)
    else if !comp[0].Symbol? then Failure(NotAnElement)
    else if !comp[1].Number? then Failure(NotANumber)
    else
      var rest := PairComposition(comp[2..]);
      if rest.Failure? then Failure(rest.error)
      else
        var pairs := [Component(comp[0].name, comp[1].value * perCent)] + rest.value;
        assert forall k :: 0 <= k < |pairs| ==>
          pairs[k] == Component(SymbolOf(comp[2 * k]), PercentOf(comp[2 * k + 1]) * perCent) by {
          forall k | 0 <= k < |pairs|
            ensures pairs[k] == Component(SymbolOf(comp[2 * k]), PercentOf(comp[2 * k + 1]) * perCent)
          {
            if k > 0 {
              var j := k - 1;
              assert pairs[k] == rest.value[j];
              assert comp[2 * k] == comp[2..][2 * j];
              assert comp[2 * k + 1] == comp[2..][2 * j + 1];
            }
          }
        }
        Success(pairs)
  }

  /** One material per layer: layer i's density and temperature in toolkit units, the components shared. */
  function LayerMaterials(density: seq<real>, temperature: seq<real>, components: seq<Component>): (r: seq<Material>)
    requires |density| == |temperature|
    ensures |r| == |density|
    ensures forall i :: 0 <= i < |r| ==>
      && r[i].density == density[i] * (kg / m3)
      && r[i].temperature == temperature[i] * kelvin
      && r[i].components == components
  {
    seq(|density|, i requires 0 <= i < |density| =>
      Material(density[i] * (kg / m3), temperature[i] * kelvin, components))
  }

  /**
   * The layer materials, in layer order, every layer sharing the composition read from the
   * setting; a malformed composition is an error.
   */
  function DefineMaterials(density: seq<real>, temperature: seq<real>, comp: seq<CompEntry>): (r: Result<seq<Material>, MaterialError>)
    requires |density| == |temperature|
    ensures r.Success? <==> Alternating(comp)
    ensures r.Success? ==> PairComposition(comp).Success? && |r.value| == |density|
    ensures r.Success? ==> forall i :: 0 <= i < |density| ==>
      && r.value[i].density == density[i] * (kg / m3)
      && r.value[i].temperature == temperature[i] * kelvin
      && r.value[i].components == PairComposition(comp).value
  {
    var pairs := PairComposition(comp);
    if pairs.Failure? then Failure(pairs.error)
    else Success(LayerMaterials(density, temperature, pairs.value))
  }

  /** The default composition, N 70 O 27 Ar 3, gives three components with fractions 0.70, 0.27 and 0.03. */
  lemma DefaultComposition()
    ensures var r := PairComposition([Symbol("N"), Number(70.0), Symbol("O"), Number(27.0), Symbol("Ar"), Number(3.0)]);
      r.Success? && r.value == [Component("N", 0.7), Component("O", 0.27), Component("Ar", 0.03)]
  {
    var comp := [Symbol("N"), Number(70.0), Symbol("O"), Number(27.0), Symbol("Ar"), Number(3.0)];
    assert Alternating(comp) by {
      assert comp[2..][2..][2..] == [];
    }
    var r := PairComposition(comp);
    assert |r.value| == 3;
    assert r.value[0] == Component("N", 0.7);
    assert r.value[1] == Component(SymbolOf(comp[2]), PercentOf(comp[3]) * perCent);
    assert r.value[2] == Component(SymbolOf(comp[4]), PercentOf(comp[5]) * perCent);
  }
}
