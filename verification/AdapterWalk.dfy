/** The walk over a document as the engine runs it, on the mutable table of bodies. */
module AdapterWalk {
  import opened Prelude
  import opened Solids
  import opened CadDocument
  import opened KernelModel
  import opened BodyTable
  import opened Booleans
  import opened Adapter
  import C = Capabilities

  method FindChainSource(sources: map<string, Feature>, f: Feature) returns (named: Option<string>)
    ensures named == ChainSource(sources, f)
  {
    var current, seen: set<string> := Some(f), {};
    while current.Some? && current.value.inputs.Pattern? && current.value.inputs.of !in seen
      invariant ChainEnd(sources, f, {}) == if current.None? then None else ChainEnd(sources, current.value, seen)
      decreases sources.Keys - seen, current.Some?
    {
      var name := current.value.inputs.of;
      seen := seen + {name};
      current := if name in sources then Some(sources[name]) else None;
    }
    named := if current.None? then None else current.value.inputs.Source();
  }

  method TargetPattern(sources: map<string, Feature>, f: Feature, b: Bodies) returns (r: Result<nat, Failure>)
    requires b.Valid()
    ensures r == PatternTarget(sources, f, b.Contents)
  {
    var named := FindChainSource(sources, f);
    var found := b.LocateBody(named);
    r := match found case Err(e) => Err(e)
         case Ok(None) => Err(Refused("UNSUPPORTED_FEATURE_SET"))
         case Ok(Some(i)) => Ok(i);
  }

  method FindCarriers(b: Bodies, sketches: seq<Sketch>) returns (c: seq<Option<Solid>>)
    requires b.Valid()
    ensures c == Carriers(b.Contents, sketches)
  {
    c := [];
    for i := 0 to |sketches|
      invariant c == Carriers(b.Contents, sketches[..i])
    {
      var found := None;
      if sketches[i].plane.OnFace? {
        found := b.FindSolid(sketches[i].plane.face.fromResult);
      }
      assert sketches[..i + 1][..i] == sketches[..i];
      c := c + [found];
    }
    assert sketches[..|sketches|] == sketches;
  }

  method ApplySolidFeature(k: Kernel, f: Feature, b: Bodies, planes: map<string, Plane>) returns (r: Option<Failure>)
    requires b.Valid() && f.inputs.MakesTool() && ActiveOk(b.Contents)
    modifies b.Repr
    ensures b.Valid() && fresh(b.Repr - old(b.Repr))
    ensures ApplySolid(k, f, Machine(old(b.Contents), planes)) == if r.None? then Ok(b.Contents) else Err(r.value)
  {
    var target: Option<nat> := None;
    if !f.inputs.StartsBody() {
      var found := b.LocateBody(f.inputs.Source());
      if found.Err? {
        return Some(found.error);
      }
      target := found.value;
    }
    var base := b.SolidAt(target);
    var carriers := FindCarriers(b, f.inputs.Sketches());
    var tool := ToolOf(k, f, base, planes, carriers);
    if tool.Err? {
      return Some(tool.error);
    }
    r := None;
    if target.None? {
      var made := b.CreateBody(tool.value, BodyNames(f));
      if made.Err? {
        r := Some(made.error);
      }
    } else {
      b.ReplaceSolid(target.value, Combined(base.value, tool.value, f.inputs.cut));
      if !f.inputs.cut {
        b.AddNames(target.value, BodyNames(f));
      }
    }
  }

  method ApplyRewriteFeature(k: Kernel, f: Feature, b: Bodies) returns (r: Option<Failure>)
    requires b.Valid() && f.inputs.Rewrites() && ActiveOk(b.Contents)
    modifies b.Repr
    ensures b.Valid() && b.Repr == old(b.Repr)
    ensures ApplyRewrite(k, f, old(b.Contents)) == if r.None? then Ok(b.Contents) else Err(r.value)
  {
    var found := b.LocateBody(Some(f.inputs.RewrittenBody()));
    if found.Err? {
      return Some(found.error);
    }
    var i := found.value.value;
    var solid := k.rewrite(f, b.bodies[i].solid);
    if solid.Err? {
      return Some(solid.error);
    }
    b.ReplaceSolid(i, solid.value);
    r := None;
  }

  method ApplyPatternFeature(k: Kernel, sources: map<string, Feature>, f: Feature, b: Bodies,
                             planes: map<string, Plane>)
      returns (r: Option<Failure>)
    requires b.Valid() && f.inputs.Pattern? && ActiveOk(b.Contents)
    modifies b.Repr
    ensures b.Valid() && b.Repr == old(b.Repr)
    ensures ApplyPattern(k, sources, f, Machine(old(b.Contents), planes))
            == if r.None? then Ok(b.Contents) else Err(r.value)
  {
    var target := TargetPattern(sources, f, b);
    if target.Err? {
      return Some(target.error);
    }
    var solid := Patterned(k, sources, f, b.bodies[target.value].solid, planes);
    if solid.Err? {
      return Some(solid.error);
    }
    b.ReplaceSolid(target.value, solid.value);
    r := None;
  }

  method ApplyFeature(k: Kernel, d: Document, sources: map<string, Feature>, f: Feature, b: Bodies,
                      planes: map<string, Plane>) returns (r: Result<map<string, Plane>, Failure>)
    requires b.Valid() && ActiveOk(b.Contents) && sources == Sources(d.features)
    modifies b.Repr
    ensures b.Valid() && fresh(b.Repr - old(b.Repr))
    ensures Step(k, d, Machine(old(b.Contents), planes), f)
            == if r.Ok? then Ok(Machine(b.Contents, r.value)) else Err(r.error)
  {
    if !f.enabled {
      return Ok(planes);
    }
    if f.inputs.Datum? {
      var plane := OffsetPlane(d, f, planes);
      if plane.Err? {
        return Err(plane.error);
      }
      return if f.produces == [] then Err(Refused("CAD_IR_INVALID"))
             else Ok(planes[f.produces[0].id := plane.value]);
    }
    var failed: Option<Failure>;
    if f.inputs.MakesTool() {
      failed := ApplySolidFeature(k, f, b, planes);
    } else if f.inputs.Pattern? {
      failed := ApplyPatternFeature(k, sources, f, b, planes);
    } else if f.inputs.Boolean? {
      failed := CombineBodies(k, f.inputs, b);
    } else {
      failed := ApplyRewriteFeature(k, f, b);
    }
    r := if failed.Some? then Err(failed.value) else Ok(planes);
  }

  method BuildNext(k: Kernel, d: Document, sources: map<string, Feature>, i: nat, b: Bodies, planes: map<string, Plane>)
      returns (r: Result<map<string, Plane>, Failure>)
    requires i < |d.features| && b.Valid() && sources == Sources(d.features)
    requires RunTo(k, d, i) == Ok(Machine(b.Contents, planes))
    modifies b.Repr
    ensures b.Valid() && fresh(b.Repr - old(b.Repr))
    ensures r.Ok? ==> RunTo(k, d, i + 1) == Ok(Machine(b.Contents, r.value))
    ensures r.Err? ==> RunTo(k, d, |d.features|) == Err(r.error)
  {
    r := ApplyFeature(k, d, sources, d.features[i], b, planes);
    if r.Err? {
      RunStops(k, d, i + 1, |d.features|);
    }
  }

  /** Every feature in the document's order; the first failure ends the walk. */
  method BuildEach(k: Kernel, d: Document, b: Bodies) returns (r: Result<map<string, Plane>, Failure>)
    requires b.Valid() && b.Contents == START.table
    modifies b.Repr
    ensures b.Valid() && fresh(b.Repr - old(b.Repr))
    ensures RunTo(k, d, |d.features|) == if r.Ok? then Ok(Machine(b.Contents, r.value)) else Err(r.error)
  {
    var planes := map[];
    var sources := Sources(d.features);
    for i := 0 to |d.features|
      invariant b.Valid() && fresh(b.Repr - old(b.Repr))
      invariant RunTo(k, d, i) == Ok(Machine(b.Contents, planes))
    {
      var after := BuildNext(k, d, sources, i, b, planes);
      if after.Err? {
        return Err(after.error);
      }
      planes := after.value;
    }
    r := Ok(planes);
  }

  /** The parameters once, then the features, then what is left on the table. */
  method BuildFeatures(k: Kernel, d: Document) returns (r: Result<seq<Solid>, Failure>)
    ensures r == Built(k, d)
  {
    var b := new Bodies();
    var params := CollectParameters(d.parameters);
    if params.Err? {
      return Err(params.error);
    }
    var planes := BuildEach(k, d, b);
    if planes.Err? {
      return Err(planes.error);
    }
    r := b.Result();
  }

  /** The gate on the whole document, before anything is built. */
  method BuildPart(k: Kernel, d: Document, disabled: set<C.Capability>) returns (r: Result<seq<Solid>, Failure>)
    ensures r == Build(k, d, disabled)
  {
    var needed := C.CollectRequirements(d);
    if exists key :: key in disabled && key in needed {
      return Err(Refused("CAPABILITY_DISABLED"));
    }
    r := BuildFeatures(k, d);
  }
}
