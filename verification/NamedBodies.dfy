/** What a document means without a table: bodies have identities that never move, and names are
    bound to identities. Nothing here mentions an index. */
module NamedBodies {
  import opened Prelude
  import opened Solids
  import opened CadDocument
  import opened KernelModel
  import B = Booleans
  import A = Adapter
  import opened NamedWorld

  datatype State = State(world: World, planes: map<string, Plane>)

  const START := State(World(map[], map[], None, 0), map[])

  function Carriers(w: World, sketches: seq<Sketch>): (c: seq<Option<Solid>>)
    requires WorldOk(w)
    ensures |c| == |sketches|
    ensures forall i :: 0 <= i < |c| ==>
              c[i] == if sketches[i].plane.OnFace? then Find(w, sketches[i].plane.face.fromResult) else None
  {
    if sketches == [] then []
    else
      var last := sketches[|sketches| - 1];
      Carriers(w, sketches[..|sketches| - 1])
      + [if last.plane.OnFace? then Find(w, last.plane.face.fromResult) else None]
  }

  function ApplySolid(k: Kernel, f: Feature, s: State): Result<World, Failure>
    requires f.inputs.MakesTool() && WorldOk(s.world)
  {
    var w := s.world;
    match if f.inputs.StartsBody() then Ok(None) else Locate(w, f.inputs.Source())
    case Err(e) => Err(e)
    case Ok(target) =>
      var base := if target.None? then None else Some(w.solids[target.value]);
      match A.ToolOf(k, f, base, s.planes, Carriers(w, f.inputs.Sketches()))
      case Err(e) => Err(e)
      case Ok(solid) =>
        if target.None? then Create(w, solid, BodyNames(f))
        else
          var joined := Reshape(w, target.value, Combined(base.value, solid, f.inputs.cut));
          Ok(if f.inputs.cut then joined else Alias(joined, target.value, BodyNames(f)))
  }

  function ApplyRewrite(k: Kernel, f: Feature, w: World): Result<World, Failure>
    requires f.inputs.Rewrites() && WorldOk(w)
  {
    if f.inputs.RewrittenBody() !in w.names then Err(Refused("FEATURE_RESULT_UNAVAILABLE"))
    else
      var id := w.names[f.inputs.RewrittenBody()];
      match k.rewrite(f, w.solids[id])
      case Err(e) => Err(e)
      case Ok(solid) => Ok(Reshape(w, id, solid))
  }

  function ApplyPattern(k: Kernel, sources: map<string, Feature>, f: Feature, s: State): Result<World, Failure>
    requires f.inputs.Pattern? && WorldOk(s.world)
  {
    match Locate(s.world, A.ChainSource(sources, f))
    case Err(e) => Err(e)
    case Ok(None) => Err(Refused("UNSUPPORTED_FEATURE_SET"))
    case Ok(Some(id)) =>
      match A.Patterned(k, sources, f, s.world.solids[id], s.planes)
      case Err(e) => Err(e)
      case Ok(solid) => Ok(Reshape(s.world, id, solid))
  }

  /** The target becomes the answer; the tools, unless kept, are gone. */
  function Combine(k: Kernel, f: Inputs, w: World): Result<World, Failure>
    requires f.Boolean? && WorldOk(w)
  {
    if f.target !in w.names then Err(Refused("FEATURE_RESULT_UNAVAILABLE"))
    else
      var target := w.names[f.target];
      match LocateAll(w, f.tools)
      case Err(e) => Err(e)
      case Ok(tools) =>
        match B.Fold(k, f.op, w.solids[target], SolidsAt(w, tools))
        case Err(e) => Err(e)
        case Ok(answer) =>
          if f.keepTools then Ok(Reshape(w, target, answer))
          else if target in tools then Err(Refused("FEATURE_RESULT_UNAVAILABLE"))
          else Ok(Reshape(Consume(w, Elements(tools)), target, answer))
  }

  function Step(k: Kernel, d: Document, s: State, f: Feature): Result<State, Failure>
    requires WorldOk(s.world)
  {
    if !f.enabled then Ok(s)
    else if f.inputs.Datum? then
      match A.OffsetPlane(d, f, s.planes)
      case Err(e) => Err(e)
      case Ok(plane) =>
        if f.produces == [] then Err(Refused("CAD_IR_INVALID"))
        else Ok(s.(planes := s.planes[f.produces[0].id := plane]))
    else
      match if f.inputs.MakesTool() then ApplySolid(k, f, s)
            else if f.inputs.Pattern? then ApplyPattern(k, Sources(d.features), f, s)
            else if f.inputs.Boolean? then Combine(k, f.inputs, s.world)
            else ApplyRewrite(k, f, s.world)
      case Err(e) => Err(e)
      case Ok(w) => Ok(s.(world := w))
  }

  lemma StepKeepsWorldOk(k: Kernel, d: Document, s: State, f: Feature)
    requires WorldOk(s.world)
    ensures Step(k, d, s, f).Ok? ==> WorldOk(Step(k, d, s, f).value.world)
  {
    if Step(k, d, s, f).Ok? && f.enabled && f.inputs.Boolean? {
      var w := s.world;
      var target := w.names[f.inputs.target];
      if !f.inputs.keepTools {
        assert target in Step(k, d, s, f).value.world.solids;
      }
    }
  }

  function RunTo(k: Kernel, d: Document, n: nat): (r: Result<State, Failure>)
    requires n <= |d.features|
    ensures r.Ok? ==> WorldOk(r.value.world)
  {
    if n == 0 then Ok(START)
    else match RunTo(k, d, n - 1)
      case Err(e) => Err(e)
      case Ok(s) => StepKeepsWorldOk(k, d, s, d.features[n - 1]); Step(k, d, s, d.features[n - 1])
  }

  lemma RunBefore(k: Kernel, d: Document, j: nat)
    requires j < |d.features| && RunTo(k, d, j + 1).Ok?
    ensures RunTo(k, d, j).Ok?
  {
  }

  lemma {:induction false} RunsBefore(k: Kernel, d: Document, i: nat, j: nat)
    requires i <= j <= |d.features| && RunTo(k, d, j).Ok?
    ensures RunTo(k, d, i).Ok?
  {
    hide Step, RunTo;
    if i < j {
      RunBefore(k, d, j - 1);
      RunsBefore(k, d, i, j - 1);
    }
  }

  /** The world after the first `n` features, when none of them failed. */
  function WorldAt(k: Kernel, d: Document, n: nat): (w: World)
    requires n <= |d.features| && RunTo(k, d, n).Ok?
    ensures WorldOk(w)
  {
    RunTo(k, d, n).value.world
  }

  function Built(k: Kernel, d: Document): Result<seq<Solid>, Failure> {
    match ParametersOf(d.parameters)
    case Err(e) => Err(e)
    case Ok(_) => match RunTo(k, d, |d.features|) case Err(e) => Err(e) case Ok(s) => Finished(s.world)
  }
}
