/** What one feature makes of the material, point by point: the tool it joins or cuts, and the copies
    a pattern adds. */
module FeatureMaterial {
  import opened Prelude
  import opened Solids
  import opened CadDocument
  import opened KernelModel
  import opened BodyTable
  import opened Booleans
  import opened Adapter

  // ----- tools ---------------------------------------------------------------------------

  /** Where the point is after joining or cutting. */
  predicate After(before: bool, inTool: bool, cut: bool) { if cut then before && !inTool else before || inTool }

  /** A body more, which is the tool; or one body with the tool joined to it or cut from it. */
  ghost predicate ToolApplied(t: Table, t': Table, at: Option<nat>, cut: bool, tool: Solid, p: Point) {
    match at
    case None =>
      && |t'.bodies| == |t.bodies| + 1 && t'.active == Some(|t.bodies|)
      && (p in t'.bodies[|t.bodies|].solid <==> p in tool)
    case Some(i) =>
      && i < |t.bodies| == |t'.bodies| && t'.active == Some(i)
      && (p in t'.bodies[i].solid <==> After(p in t.bodies[i].solid, p in tool, cut))
  }

  /** Whatever is added may start a body; of what is cut only a revolve, which alone has the field. */
  predicate MeansNewBody(f: Inputs)
    requires f.MakesTool()
  {
    match f
    case Revolve(_, _, _, _, _, newBody) => newBody
    case _ => f.newBody && !f.cut
  }

  function BaseAt(t: Table, at: Option<nat>): Option<Solid>
    requires at.Some? ==> at.value < |t.bodies|
  {
    if at.None? then None else Some(t.bodies[at.value].solid)
  }

  /** A body is made exactly by a feature that starts one, or names none while there is none; otherwise
      the body it means has every point it had and every point of the tool, or, for a cut, every
      point it had but those of the tool. */
  lemma ToolStepMeans(k: Kernel, d: Document, m: Machine, f: Feature, p: Point) returns (at: Option<nat>, tool: Solid)
    requires ActiveOk(m.table) && f.enabled && f.inputs.MakesTool() && Step(k, d, m, f).Ok?
    ensures at.None? <==> MeansNewBody(f.inputs) || (f.inputs.sourceBody.None? && m.table.bodies == [])
    ensures at.Some? ==> Locate(m.table, f.inputs.sourceBody) == Ok(at) && at.value < |m.table.bodies|
    ensures ToolOf(k, f, BaseAt(m.table, at), m.planes, Carriers(m.table, f.inputs.Sketches())) == Ok(tool)
    ensures ToolApplied(m.table, Step(k, d, m, f).value.table, at, f.inputs.cut, tool, p)
  {
    at := if f.inputs.StartsBody() then None else Locate(m.table, f.inputs.Source()).value;
    tool := ToolOf(k, f, BaseAt(m.table, at), m.planes, Carriers(m.table, f.inputs.Sketches())).value;
    if at.None? { BodyMade(k, d, m, f, tool, p); } else { BodyWritten(k, d, m, f, at.value, tool, p); }
  }

  lemma BodyMade(k: Kernel, d: Document, m: Machine, f: Feature, tool: Solid, p: Point)
    requires ActiveOk(m.table) && f.enabled && f.inputs.MakesTool() && Step(k, d, m, f).Ok?
    requires f.inputs.StartsBody() || Locate(m.table, f.inputs.Source()) == Ok(None)
    requires ToolOf(k, f, None, m.planes, Carriers(m.table, f.inputs.Sketches())) == Ok(tool)
    ensures ToolApplied(m.table, Step(k, d, m, f).value.table, None, f.inputs.cut, tool, p)
  {
  }

  lemma BodyWritten(k: Kernel, d: Document, m: Machine, f: Feature, i: nat, tool: Solid, p: Point)
    requires ActiveOk(m.table) && f.enabled && f.inputs.MakesTool() && Step(k, d, m, f).Ok?
    requires !f.inputs.StartsBody() && Locate(m.table, f.inputs.Source()) == Ok(Some(i)) && i < |m.table.bodies|
    requires ToolOf(k, f, Some(m.table.bodies[i].solid), m.planes, Carriers(m.table, f.inputs.Sketches())) == Ok(tool)
    ensures ToolApplied(m.table, Step(k, d, m, f).value.table, Some(i), f.inputs.cut, tool, p)
  {
  }

  /** The same of a whole run: the `n`th feature of a document. */
  lemma ToolMeans(k: Kernel, d: Document, n: nat, p: Point) returns (at: Option<nat>, tool: Solid)
    requires n < |d.features| && d.features[n].enabled && d.features[n].inputs.MakesTool() && RunTo(k, d, n + 1).Ok?
    ensures RunTo(k, d, n).Ok?
    ensures var f, m := d.features[n], RunTo(k, d, n).value;
            && (at.None? <==> MeansNewBody(f.inputs) || (f.inputs.sourceBody.None? && m.table.bodies == []))
            && (at.Some? ==> Locate(m.table, f.inputs.sourceBody) == Ok(at) && at.value < |m.table.bodies|)
            && ToolOf(k, f, BaseAt(m.table, at), m.planes, Carriers(m.table, f.inputs.Sketches())) == Ok(tool)
            && ToolApplied(m.table, RunTo(k, d, n + 1).value.table, at, f.inputs.cut, tool, p)
  {
    at, tool := ToolStepMeans(k, d, RunTo(k, d, n).value, d.features[n], p);
  }

  // ----- where a tool is drawn -----------------------------------------------------------

  /** Whether a sketch stands on a plane: the one it names, or a face of the body its selector names,
      or, when nothing carries that name, of the body being worked on. */
  predicate StandsOn(k: Kernel, f: Feature, s: Sketch, planes: map<string, Plane>, part: Option<Solid>,
                     carrier: Option<Solid>, plane: Plane)
  {
    if f.inputs.Sweep? && f.inputs.path.HelicalPath? then k.pathPlane(f) == Ok(plane)
    else match s.plane
      case OnBase(name) => BasePlane(name) == Some(plane)
      case OnDatum(result) => result in planes && planes[result] == plane
      case OnFace(face) =>
        (match carrier
         case Some(named) => k.facePlane(face, named) == Ok(plane)
         case None => part.Some? && k.facePlane(face, part.value) == Ok(plane))
      case OnPathStart => false
  }

  /** A sketch that passed its checks, on that plane. */
  predicate Drawn(k: Kernel, f: Feature, i: nat, planes: map<string, Plane>, part: Option<Solid>,
                  carriers: seq<Option<Solid>>, plane: Plane)
    requires i < |f.inputs.Sketches()| == |carriers|
  {
    var s := f.inputs.Sketches()[i];
    k.assertions(s).None? && k.face(f.inputs, s).None? && StandsOn(k, f, s, planes, part, carriers[i], plane)
  }

  lemma {:induction false} PlacedMeans(k: Kernel, f: Feature, n: nat, planes: map<string, Plane>, part: Option<Solid>,
                                       carriers: seq<Option<Solid>>)
    requires n <= |f.inputs.Sketches()| == |carriers| && Placed(k, f, n, planes, part, carriers).Ok?
    ensures var at := Placed(k, f, n, planes, part, carriers).value;
            |at| == n && forall i :: 0 <= i < n ==> Drawn(k, f, i, planes, part, carriers, at[i])
  {
    if n > 0 { PlacedMeans(k, f, n - 1, planes, part, carriers); }
  }

  /** The tool is what the kernel makes of the feature's sketches, each drawn where the document says,
      beside the body worked on; without one nothing is cut. */
  lemma ToolIsDrawn(k: Kernel, f: Feature, part: Option<Solid>, planes: map<string, Plane>,
                    carriers: seq<Option<Solid>>) returns (at: seq<Plane>)
    requires |carriers| == |f.inputs.Sketches()| && ToolOf(k, f, part, planes, carriers).Ok?
    ensures |at| == |carriers| && forall i :: 0 <= i < |at| ==> Drawn(k, f, i, planes, part, carriers, at[i])
    ensures k.profile(f, at).None? && k.solid(f, at, part) == ToolOf(k, f, part, planes, carriers)
    ensures f.inputs.MakesTool() && (f.inputs.cut ==> part.Some?)
  {
    at := Placed(k, f, |carriers|, planes, part, carriers).value;
    PlacedMeans(k, f, |carriers|, planes, part, carriers);
  }

  // ----- copies --------------------------------------------------------------------------

  /** The ordinals a pattern places: a mirror has two, the others their count but those skipped. */
  predicate Kept(f: Inputs, n: nat) {
    f.Pattern? && (if f.spec.Mirror? then n < 2 else n < f.spec.count && n !in f.skip)
  }

  /** The first of them stands already. */
  predicate First(f: Inputs, n: nat) { Kept(f, n) && forall m: nat :: m < n ==> !Kept(f, m) }

  /** The point is in copy `n` of the solid; copy zero is the solid itself. */
  predicate InCopy(k: Kernel, f: Feature, n: nat, solid: Solid, p: Point) {
    if n == 0 then p in solid else p in k.place(f, n, solid)
  }

  lemma {:induction false} OrdinalsTo(f: Inputs, n: nat)
    requires f.Pattern?
    ensures forall i: nat :: i in Ordinals(f, n) <==> i < n && (f.spec.Mirror? || i !in f.skip)
    ensures forall i, j :: 0 <= i < j < |Ordinals(f, n)| ==> Ordinals(f, n)[i] < Ordinals(f, n)[j]
  {
    if n > 0 {
      OrdinalsTo(f, n - 1);
      assert Ordinals(f, n) == Ordinals(f, n - 1) + if f.spec.Mirror? || n - 1 !in f.skip then [n - 1] else [];
      forall i, j | 0 <= i < j < |Ordinals(f, n)| ensures Ordinals(f, n)[i] < Ordinals(f, n)[j] {
        assert Ordinals(f, n)[i] == Ordinals(f, n - 1)[i] && Ordinals(f, n - 1)[i] in Ordinals(f, n - 1);
      }
    }
  }

  /** All of them in order, and all but the first. */
  lemma OrdinalsExact(f: Inputs)
    requires f.Pattern?
    ensures var all := Ordinals(f, Count(f.spec));
            && (forall n: nat :: n in all <==> Kept(f, n))
            && (forall n: nat :: n in (if all == [] then [] else all[1..]) <==> Kept(f, n) && !First(f, n))
  {
    var all := Ordinals(f, Count(f.spec));
    OrdinalsTo(f, Count(f.spec));
    if all != [] {
      assert all[0] in all;
      assert First(f, all[0]) by { forall m: nat | m < all[0] ensures !Kept(f, m) { NotBeforeFirst(all, m); } }
      forall n: nat ensures n in all[1..] <==> Kept(f, n) && !First(f, n) { AfterFirst(all, n); }
    }
  }

  lemma NotBeforeFirst(all: seq<nat>, m: nat)
    requires Ascending(all) && all != [] && m < all[0]
    ensures m !in all
  {
  }

  lemma AfterFirst(all: seq<nat>, n: nat)
    requires Ascending(all) && all != []
    ensures n in all[1..] <==> n in all && n != all[0]
  {
    assert all == [all[0]] + all[1..];
  }

  /** Some copy of these ordinals holds the point. */
  predicate InAny(k: Kernel, f: Feature, ordinals: seq<nat>, solid: Solid, p: Point) {
    exists n :: n in ordinals && InCopy(k, f, n, solid, p)
  }

  lemma InOneMore(k: Kernel, f: Feature, front: seq<nat>, last: nat, solid: Solid, p: Point)
    ensures InAny(k, f, front + [last], solid, p) <==> InAny(k, f, front, solid, p) || InCopy(k, f, last, solid, p)
  {
    assert last in front + [last];
    if n :| n in front && InCopy(k, f, n, solid, p) { assert n in front + [last]; }
  }

  lemma {:induction false} TogetherMeans(k: Kernel, f: Feature, ordinals: seq<nat>, solid: Solid, p: Point)
    ensures p in Together(k, f, ordinals, solid) <==> InAny(k, f, ordinals, solid, p)
  {
    if ordinals != [] {
      var front, last := ordinals[..|ordinals| - 1], ordinals[|ordinals| - 1];
      TogetherMeans(k, f, front, solid, p);
      InOneMore(k, f, front, last, solid, p);
      assert ordinals == front + [last];
    }
  }

  lemma {:induction false} StampMeans(k: Kernel, f: Feature, ordinals: seq<nat>, part: Solid, solid: Solid, cut: bool,
                                      p: Point)
    ensures p in Stamp(k, f, ordinals, part, solid, cut) <==>
            After(p in part, InAny(k, f, ordinals, solid, p), cut)
  {
    if ordinals != [] {
      var front, last := ordinals[..|ordinals| - 1], ordinals[|ordinals| - 1];
      StampMeans(k, f, front, part, solid, cut, p);
      InOneMore(k, f, front, last, solid, p);
      assert ordinals == front + [last];
    }
  }

  // ----- chains --------------------------------------------------------------------------

  /** From a pattern through the patterns it repeats to the feature that builds something, all on. */
  predicate Chain(sources: map<string, Feature>, f: Feature, chain: seq<Feature>, plain: Feature)
    decreases |chain|
  {
    && f.inputs.Pattern? && f.inputs.of in sources
    && var source := sources[f.inputs.of];
       source.enabled
       && if chain == [] then source == plain && !plain.inputs.Pattern?
          else source == chain[0] && Chain(sources, chain[0], chain[1..], plain)
  }

  /** Some copy a pattern places of what it repeats holds the point. */
  ghost predicate Copied(k: Kernel, f: Feature, repeated: Solid, p: Point) {
    exists n: nat :: Kept(f.inputs, n) && InCopy(k, f, n, repeated, p)
  }

  /** What a chain of patterns makes of a tool: of every pattern, every copy of what it repeats, the
      original included. */
  ghost function Spread(k: Kernel, chain: seq<Feature>, tool: Solid): Solid {
    if chain == [] then tool
    else iset p | Copied(k, chain[0], Spread(k, chain[1..], tool), p)
  }

  /** What a pattern repeats, whatever patterns it repeats it through. */
  lemma {:induction false} RepeatedMeans(k: Kernel, sources: map<string, Feature>, f: Feature, part: Solid,
                                         planes: map<string, Plane>, seen: set<string>)
      returns (chain: seq<Feature>, plain: Feature, tool: Solid)
    requires f.inputs.Pattern? && Repeated(k, sources, f, part, planes, seen).Ok?
    ensures Chain(sources, f, chain, plain) && plain.inputs.MakesTool()
    ensures ToolOf(k, plain, Some(part), planes, Unnamed(|plain.inputs.Sketches()|)) == Ok(tool)
    ensures Repeated(k, sources, f, part, planes, seen).value == (Spread(k, chain, tool), plain.inputs.cut)
    decreases sources.Keys - seen
  {
    var source := sources[f.inputs.of];
    if !source.inputs.Pattern? {
      chain, plain := [], source;
      tool := ToolOf(k, plain, Some(part), planes, Unnamed(|plain.inputs.Sketches()|)).value;
    } else {
      var rest;
      rest, plain, tool := RepeatedMeans(k, sources, source, part, planes, seen + {f.inputs.of});
      chain := [source] + rest;
      assert chain[1..] == rest;
      InnerMeans(k, sources, f, part, planes, seen, source, rest, tool, plain.inputs.cut);
    }
  }

  lemma InnerMeans(k: Kernel, sources: map<string, Feature>, f: Feature, part: Solid, planes: map<string, Plane>,
                   seen: set<string>, source: Feature, rest: seq<Feature>, tool: Solid, cut: bool)
    requires f.inputs.Pattern? && Repeated(k, sources, f, part, planes, seen).Ok?
    requires f.inputs.of in sources && sources[f.inputs.of] == source && source.inputs.Pattern?
    requires Repeated(k, sources, source, part, planes, seen + {f.inputs.of}) == Ok((Spread(k, rest, tool), cut))
    ensures Repeated(k, sources, f, part, planes, seen).value == (Spread(k, [source] + rest, tool), cut)
  {
    var inner, all := Spread(k, rest, tool), Ordinals(source.inputs, Count(source.inputs.spec));
    OrdinalsExact(source.inputs);
    assert ([source] + rest)[1..] == rest;
    forall p ensures p in Together(k, source, all, inner) <==> p in Spread(k, [source] + rest, tool) {
      TogetherMeans(k, source, all, inner, p);
      assert InAny(k, source, all, inner, p) <==> Copied(k, source, inner, p);
    }
    assert Together(k, source, all, inner) == Spread(k, [source] + rest, tool);
  }

  // ----- a pattern on the table ----------------------------------------------------------

  /** Some copy the pattern adds, other than the one that stands, holds the point. */
  ghost predicate InAdded(k: Kernel, f: Feature, repeated: Solid, p: Point) {
    exists n: nat :: Kept(f.inputs, n) && !First(f.inputs, n) && InCopy(k, f, n, repeated, p)
  }

  lemma PatternedMeans(k: Kernel, sources: map<string, Feature>, f: Feature, part: Solid, planes: map<string, Plane>,
                       p: Point) returns (chain: seq<Feature>, plain: Feature, tool: Solid)
    requires f.inputs.Pattern? && Patterned(k, sources, f, part, planes).Ok?
    ensures Chain(sources, f, chain, plain) && plain.inputs.MakesTool()
    ensures ToolOf(k, plain, Some(part), planes, Unnamed(|plain.inputs.Sketches()|)) == Ok(tool)
    ensures p in Patterned(k, sources, f, part, planes).value <==>
            After(p in part, InAdded(k, f, Spread(k, chain, tool), p), plain.inputs.cut)
  {
    chain, plain, tool := RepeatedMeans(k, sources, f, part, planes, {});
    var all := Ordinals(f.inputs, Count(f.inputs.spec));
    OrdinalsExact(f.inputs);
    StampMeans(k, f, if all == [] then [] else all[1..], part, Spread(k, chain, tool), plain.inputs.cut, p);
  }

  /** A pattern on the table: the body it means has, beside what it had, every copy but the standing one
      of all that the chain below it makes of its last feature's tool; for a cut it has lost them. */
  lemma PatternStepMeans(k: Kernel, d: Document, m: Machine, f: Feature, p: Point)
      returns (i: nat, chain: seq<Feature>, plain: Feature, tool: Solid)
    requires ActiveOk(m.table) && f.enabled && f.inputs.Pattern? && Step(k, d, m, f).Ok?
    ensures PatternTarget(Sources(d.features), f, m.table) == Ok(i) && i < |m.table.bodies|
    ensures Chain(Sources(d.features), f, chain, plain) && plain.inputs.MakesTool()
    ensures ToolOf(k, plain, Some(m.table.bodies[i].solid), m.planes, Unnamed(|plain.inputs.Sketches()|)) == Ok(tool)
    ensures var t' := Step(k, d, m, f).value.table;
            && |t'.bodies| == |m.table.bodies| && t'.active == Some(i)
            && (p in t'.bodies[i].solid <==>
                  After(p in m.table.bodies[i].solid, InAdded(k, f, Spread(k, chain, tool), p), plain.inputs.cut))
  {
    i := PatternTarget(Sources(d.features), f, m.table).value;
    chain, plain, tool := PatternedMeans(k, Sources(d.features), f, m.table.bodies[i].solid, m.planes, p);
  }

  lemma PatternMeans(k: Kernel, d: Document, n: nat, p: Point)
      returns (i: nat, chain: seq<Feature>, plain: Feature, tool: Solid)
    requires n < |d.features| && d.features[n].enabled && d.features[n].inputs.Pattern? && RunTo(k, d, n + 1).Ok?
    ensures RunTo(k, d, n).Ok? && Chain(Sources(d.features), d.features[n], chain, plain) && plain.inputs.MakesTool()
    ensures var f, m, t' := d.features[n], RunTo(k, d, n).value, RunTo(k, d, n + 1).value.table;
            && PatternTarget(Sources(d.features), f, m.table) == Ok(i) && i < |m.table.bodies| == |t'.bodies|
            && ToolOf(k, plain, Some(m.table.bodies[i].solid), m.planes, Unnamed(|plain.inputs.Sketches()|)) == Ok(tool)
            && (p in t'.bodies[i].solid <==>
                  After(p in m.table.bodies[i].solid, InAdded(k, f, Spread(k, chain, tool), p), plain.inputs.cut))
  {
    i, chain, plain, tool := PatternStepMeans(k, d, RunTo(k, d, n).value, d.features[n], p);
  }

  /** A grid: two of a row of three of one hole. The second row gets three holes. */
  predicate TwoRowsOfThree(sources: map<string, Feature>, grid: Feature, row: Feature, hole: Feature) {
    && grid.enabled && grid.inputs.Pattern? && grid.inputs.spec == Linear(2) && grid.inputs.skip == {}
    && row.inputs.Pattern? && row.inputs.spec == Linear(3) && row.inputs.skip == {}
    && hole.inputs.MakesTool() && hole.inputs.cut
    && grid.inputs.of in sources && sources[grid.inputs.of] == row
    && row.inputs.of in sources && sources[row.inputs.of] == hole
  }

  lemma GridHasBothRows(k: Kernel, d: Document, m: Machine, grid: Feature, row: Feature, hole: Feature, p: Point)
      returns (i: nat, tool: Solid, rowOfHoles: Solid)
    requires ActiveOk(m.table) && TwoRowsOfThree(Sources(d.features), grid, row, hole) && Step(k, d, m, grid).Ok?
    ensures i < |m.table.bodies| == |Step(k, d, m, grid).value.table.bodies|
    ensures ToolOf(k, hole, Some(m.table.bodies[i].solid), m.planes, Unnamed(|hole.inputs.Sketches()|)) == Ok(tool)
    ensures forall q :: q in rowOfHoles <==> q in tool || q in k.place(row, 1, tool) || q in k.place(row, 2, tool)
    ensures p in Step(k, d, m, grid).value.table.bodies[i].solid <==>
            p in m.table.bodies[i].solid && p !in k.place(grid, 1, rowOfHoles)
  {
    var chain, plain;
    i, chain, plain, tool := PatternStepMeans(k, d, m, grid, p);
    assert chain != [] && chain[0] == row && Chain(Sources(d.features), row, chain[1..], plain);
    if chain[1..] != [] { assert !Chain(Sources(d.features), chain[1..][0], chain[1..][1..], plain); }
    rowOfHoles := Spread(k, chain, tool);
    assert Spread(k, chain[1..], tool) == tool;
    forall q ensures q in rowOfHoles <==> q in tool || q in k.place(row, 1, tool) || q in k.place(row, 2, tool) {
      assert InCopy(k, row, 0, tool, q) <==> q in tool;
      assert InCopy(k, row, 1, tool, q) <==> q in k.place(row, 1, tool);
      assert InCopy(k, row, 2, tool, q) <==> q in k.place(row, 2, tool);
      assert Kept(row.inputs, 0) && Kept(row.inputs, 1) && Kept(row.inputs, 2);
    }
    assert Kept(grid.inputs, 0) && First(grid.inputs, 0) && Kept(grid.inputs, 1) && !First(grid.inputs, 1);
    assert InCopy(k, grid, 1, rowOfHoles, p) <==> p in k.place(grid, 1, rowOfHoles);
  }
}
