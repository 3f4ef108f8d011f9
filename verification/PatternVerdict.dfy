/** When a pattern is built, and what it is refused for. */
module PatternVerdict {
  import opened Prelude
  import opened Solids
  import opened CadDocument
  import opened KernelModel
  import opened BodyTable
  import opened Adapter
  import opened FeatureMaterial

  ghost predicate PlacesSome(f: Inputs) { exists n: nat :: Kept(f, n) }

  /** Every pattern on the way states a step that makes sense and places something. */
  ghost predicate Spaced(k: Kernel, chain: seq<Feature>) {
    forall i :: 0 <= i < |chain| ==> k.spacing(chain[i]).None? && PlacesSome(chain[i].inputs)
  }

  /** A chain of patterns that are on, down to a feature whose tool can be made again on this part. */
  predicate Reaches(k: Kernel, sources: map<string, Feature>, f: Feature, part: Solid, planes: map<string, Plane>,
                    chain: seq<Feature>, plain: Feature)
  {
    && Chain(sources, f, chain, plain) && plain.inputs.MakesTool()
    && ToolOf(k, plain, Some(part), planes, Unnamed(|plain.inputs.Sketches()|)).Ok?
  }

  // ----- a chain does not come back ------------------------------------------------------

  /** The names a chain goes through. */
  function OnTheWay(f: Feature, chain: seq<Feature>): set<string>
    decreases |chain|
  {
    (if f.inputs.Pattern? then {f.inputs.of} else {}) + (if chain == [] then {} else OnTheWay(chain[0], chain[1..]))
  }

  lemma {:induction false} SameLength(sources: map<string, Feature>, f: Feature, chain: seq<Feature>, plain: Feature,
                                      f': Feature, chain': seq<Feature>, plain': Feature)
    requires Chain(sources, f, chain, plain) && Chain(sources, f', chain', plain') && f.inputs.of == f'.inputs.of
    ensures |chain| == |chain'|
    decreases |chain|
  {
    if chain != [] && chain' != [] { SameLength(sources, chain[0], chain[1..], plain, chain'[0], chain'[1..], plain'); }
  }

  lemma {:induction false} FromThere(sources: map<string, Feature>, f: Feature, chain: seq<Feature>, plain: Feature,
                                     name: string) returns (g: Feature, rest: seq<Feature>)
    requires Chain(sources, f, chain, plain) && name in OnTheWay(f, chain)
    ensures Chain(sources, g, rest, plain) && g.inputs.of == name && |rest| <= |chain|
    decreases |chain|
  {
    if name == f.inputs.of {
      g, rest := f, chain;
    } else {
      g, rest := FromThere(sources, chain[0], chain[1..], plain, name);
    }
  }

  lemma NoReturn(sources: map<string, Feature>, f: Feature, chain: seq<Feature>, plain: Feature)
    requires Chain(sources, f, chain, plain) && chain != []
    ensures f.inputs.of !in OnTheWay(chain[0], chain[1..])
  {
    if f.inputs.of in OnTheWay(chain[0], chain[1..]) {
      var g, rest := FromThere(sources, chain[0], chain[1..], plain, f.inputs.of);
      SameLength(sources, f, chain, plain, g, rest, plain);
    }
  }

  // ----- what is repeated, and what it is refused for ------------------------------------

  lemma PlacedExactly(f: Feature)
    requires f.inputs.Pattern?
    ensures Ordinals(f.inputs, Count(f.inputs.spec)) != [] <==> PlacesSome(f.inputs)
  {
    var all := Ordinals(f.inputs, Count(f.inputs.spec));
    OrdinalsExact(f.inputs);
    if all != [] { assert all[0] in all; }
  }

  lemma {:induction false} RepeatedOnlyIf(k: Kernel, sources: map<string, Feature>, f: Feature, part: Solid,
                                          planes: map<string, Plane>, seen: set<string>)
      returns (chain: seq<Feature>, plain: Feature)
    requires f.inputs.Pattern? && Repeated(k, sources, f, part, planes, seen).Ok?
    ensures Reaches(k, sources, f, part, planes, chain, plain) && Spaced(k, chain)
    decreases sources.Keys - seen
  {
    hide Ordinals, Together, ToolOf;
    var source := sources[f.inputs.of];
    if !source.inputs.Pattern? {
      chain, plain := [], source;
      assert ToolOf(k, plain, Some(part), planes, Unnamed(|plain.inputs.Sketches()|)).Ok?;
      OnlyToolMakers(k, plain, part, planes);
    } else {
      var rest;
      rest, plain := RepeatedOnlyIf(k, sources, source, part, planes, seen + {f.inputs.of});
      PlacedExactly(source);
      chain := [source] + rest;
      assert chain[1..] == rest;
    }
  }

  lemma OnlyToolMakers(k: Kernel, plain: Feature, part: Solid, planes: map<string, Plane>)
    requires ToolOf(k, plain, Some(part), planes, Unnamed(|plain.inputs.Sketches()|)).Ok?
    ensures plain.inputs.MakesTool()
  {
  }

  lemma {:induction false} RepeatedIf(k: Kernel, sources: map<string, Feature>, f: Feature, part: Solid,
                                      planes: map<string, Plane>, seen: set<string>, chain: seq<Feature>,
                                      plain: Feature)
    requires Reaches(k, sources, f, part, planes, chain, plain) && Spaced(k, chain)
    requires seen !! OnTheWay(f, chain)
    ensures Repeated(k, sources, f, part, planes, seen).Ok?
    decreases |chain|
  {
    hide Ordinals, Together, ToolOf;
    if chain != [] {
      NoReturn(sources, f, chain, plain);
      RepeatedIf(k, sources, chain[0], part, planes, seen + {f.inputs.of}, chain[1..], plain);
      PlacedExactly(chain[0]);
    }
  }

  /** The innermost step that makes no sense is what the whole is refused for. */
  lemma {:induction false} RepeatedRefused(k: Kernel, sources: map<string, Feature>, f: Feature, part: Solid,
                                           planes: map<string, Plane>, seen: set<string>, chain: seq<Feature>,
                                           plain: Feature, j: nat)
    requires Reaches(k, sources, f, part, planes, chain, plain) && seen !! OnTheWay(f, chain)
    requires j < |chain| && k.spacing(chain[j]).Some? && Spaced(k, chain[j + 1..])
    ensures Repeated(k, sources, f, part, planes, seen) == Err(k.spacing(chain[j]).value)
    decreases |chain|
  {
    hide Ordinals, Together, ToolOf;
    NoReturn(sources, f, chain, plain);
    if j == 0 {
      RepeatedIf(k, sources, chain[0], part, planes, seen + {f.inputs.of}, chain[1..], plain);
    } else {
      assert chain[1..][j - 1] == chain[j] && chain[1..][j..] == chain[j + 1..];
      RepeatedRefused(k, sources, chain[0], part, planes, seen + {f.inputs.of}, chain[1..], plain, j - 1);
    }
  }

  // ----- a pattern on the table ----------------------------------------------------------

  ghost predicate Buildable(k: Kernel, d: Document, m: Machine, f: Feature, part: Solid) {
    k.spacing(f).None?
    && exists chain, plain :: Reaches(k, Sources(d.features), f, part, m.planes, chain, plain) && Spaced(k, chain)
  }

  /** A pattern that has a body to go to is built if and only if its own step makes sense and so do the
      steps of all patterns between it and a feature whose tool can be made again. */
  lemma PatternBuiltExactly(k: Kernel, d: Document, m: Machine, f: Feature, i: nat)
    requires ActiveOk(m.table) && f.enabled && f.inputs.Pattern?
    requires PatternTarget(Sources(d.features), f, m.table) == Ok(i) && i < |m.table.bodies|
    ensures Step(k, d, m, f).Ok? <==> Buildable(k, d, m, f, m.table.bodies[i].solid)
  {
    hide Repeated, Stamp, Reaches, Spaced;
    var sources, part := Sources(d.features), m.table.bodies[i].solid;
    if Repeated(k, sources, f, part, m.planes, {}).Ok? {
      var chain, plain := RepeatedOnlyIf(k, sources, f, part, m.planes, {});
    }
    if chain, plain :| Reaches(k, sources, f, part, m.planes, chain, plain) && Spaced(k, chain) {
      RepeatedIf(k, sources, f, part, m.planes, {}, chain, plain);
    }
  }

  /** It is refused for its own step when everything below it is sound, and otherwise for the innermost
      step that makes no sense. */
  lemma StepRefused(k: Kernel, d: Document, m: Machine, f: Feature, i: nat, chain: seq<Feature>, plain: Feature, j: nat)
    requires ActiveOk(m.table) && f.enabled && f.inputs.Pattern?
    requires PatternTarget(Sources(d.features), f, m.table) == Ok(i) && i < |m.table.bodies|
    requires Reaches(k, Sources(d.features), f, m.table.bodies[i].solid, m.planes, chain, plain)
    requires j <= |chain| && Spaced(k, chain[j..])
    ensures j == 0 && k.spacing(f).Some? ==> Step(k, d, m, f) == Err(k.spacing(f).value)
    ensures j > 0 && k.spacing(chain[j - 1]).Some? ==> Step(k, d, m, f) == Err(k.spacing(chain[j - 1]).value)
  {
    hide Repeated, Stamp, Reaches, Spaced;
    var sources, part := Sources(d.features), m.table.bodies[i].solid;
    if j == 0 {
      assert chain[0..] == chain;
      RepeatedIf(k, sources, f, part, m.planes, {}, chain, plain);
    } else if k.spacing(chain[j - 1]).Some? {
      RepeatedRefused(k, sources, f, part, m.planes, {}, chain, plain, j - 1);
    }
  }
}
