/** Building a document: a walk over its features that drives the table of bodies and the
    dictionary of datum planes. */
module Adapter {
  import opened Prelude
  import opened Solids
  import opened CadDocument
  import opened KernelModel
  import opened BodyTable
  import opened Booleans
  import C = Capabilities

  datatype Machine = Machine(table: Table, planes: map<string, Plane>)

  const START := Machine(EMPTY, map[])

  // ----- tools ---------------------------------------------------------------------------

  /** `carrier` is the body a face selector names, when the caller could look it up. */
  function SketchPlaneOf(k: Kernel, f: Feature, s: Sketch, planes: map<string, Plane>,
                         part: Option<Solid>, carrier: Option<Solid>): Result<Plane, Failure>
  {
    if f.inputs.Sweep? && f.inputs.path.HelicalPath? then k.pathPlane(f)
    else match s.plane
      case OnBase(name) =>
        (match BasePlane(name) case Some(p) => Ok(p) case None => Err(Refused("UNSUPPORTED_FEATURE")))
      case OnDatum(result) =>
        if result in planes then Ok(planes[result]) else Err(Refused("FEATURE_RESULT_UNAVAILABLE"))
      case OnFace(face) =>
        (match if carrier.Some? then carrier else part
         case None => Err(Refused("FEATURE_RESULT_UNAVAILABLE"))
         case Some(body) => k.facePlane(face, body))
      case OnPathStart => Err(Refused("UNSUPPORTED_FEATURE"))
  }

  /** Every sketch checked, placed and drawn, in order. */
  function Placed(k: Kernel, f: Feature, n: nat, planes: map<string, Plane>,
                  part: Option<Solid>, carriers: seq<Option<Solid>>): Result<seq<Plane>, Failure>
    requires n <= |f.inputs.Sketches()| == |carriers|
  {
    if n == 0 then Ok([])
    else match Placed(k, f, n - 1, planes, part, carriers)
      case Err(e) => Err(e)
      case Ok(before) =>
        var s := f.inputs.Sketches()[n - 1];
        match k.assertions(s)
        case Some(e) => Err(e)
        case None =>
          match SketchPlaneOf(k, f, s, planes, part, carriers[n - 1])
          case Err(e) => Err(e)
          case Ok(plane) =>
            match k.face(f.inputs, s)
            case Some(e) => Err(e)
            case None => Ok(before + [plane])
  }

  /** The solid a feature contributes; whether it is removed is `f.inputs.cut`. */
  function ToolOf(k: Kernel, f: Feature, part: Option<Solid>, planes: map<string, Plane>,
                  carriers: seq<Option<Solid>>): Result<Solid, Failure>
    requires |carriers| == |f.inputs.Sketches()|
  {
    if !f.inputs.MakesTool() then Err(Refused("UNSUPPORTED_FEATURE"))
    else match Placed(k, f, |carriers|, planes, part, carriers)
      case Err(e) => Err(e)
      case Ok(at) =>
        match k.profile(f, at)
        case Some(e) => Err(e)
        case None =>
          if f.inputs.cut && part.None? then Err(Refused("UNSUPPORTED_FEATURE_SET"))
          else k.solid(f, at, part)
  }

  /** The bodies the face selectors of a feature's sketches name. */
  function Carriers(t: Table, sketches: seq<Sketch>): (c: seq<Option<Solid>>)
    ensures |c| == |sketches|
    ensures forall i :: 0 <= i < |c| ==>
              c[i] == if sketches[i].plane.OnFace? then Find(t, sketches[i].plane.face.fromResult) else None
  {
    if sketches == [] then []
    else
      var last := sketches[|sketches| - 1];
      Carriers(t, sketches[..|sketches| - 1])
      + [if last.plane.OnFace? then Find(t, last.plane.face.fromResult) else None]
  }

  // ----- patterns ------------------------------------------------------------------------

  /** Follow `of` down to what actually builds something; a repeated name ends the walk. */
  function ChainEnd(sources: map<string, Feature>, current: Feature, seen: set<string>): Option<Feature>
    decreases sources.Keys - seen
  {
    if !current.inputs.Pattern? || current.inputs.of in seen then Some(current)
    else if current.inputs.of !in sources then None
    else ChainEnd(sources, sources[current.inputs.of], seen + {current.inputs.of})
  }

  function ChainSource(sources: map<string, Feature>, f: Feature): Option<string> {
    match ChainEnd(sources, f, {}) case None => None case Some(end) => end.inputs.Source()
  }

  function PatternTarget(sources: map<string, Feature>, f: Feature, t: Table): Result<nat, Failure> {
    match Locate(t, ChainSource(sources, f))
    case Err(e) => Err(e)
    case Ok(None) => Err(Refused("UNSUPPORTED_FEATURE_SET"))
    case Ok(Some(i)) => Ok(i)
  }

  function Count(spec: PatternSpec): nat {
    if spec.Mirror? then 2 else spec.count
  }

  /** The ordinals a pattern places, the original first; a mirror has nothing to skip. */
  function Ordinals(f: Inputs, n: nat): seq<nat>
    requires f.Pattern?
  {
    if n == 0 then []
    else Ordinals(f, n - 1) + (if f.spec.Mirror? || n - 1 !in f.skip then [n - 1] else [])
  }

  /** Instance zero stands where the original stands. */
  function Instance(k: Kernel, f: Feature, n: nat, solid: Solid): Solid {
    if n == 0 then solid else k.place(f, n, solid)
  }

  /** All instances as one solid. */
  function Together(k: Kernel, f: Feature, ordinals: seq<nat>, solid: Solid): Solid {
    if ordinals == [] then iset{}
    else Together(k, f, ordinals[..|ordinals| - 1], solid) + Instance(k, f, ordinals[|ordinals| - 1], solid)
  }

  /** The instances combined with the part one by one, each cut or joined as its source was. */
  function Stamp(k: Kernel, f: Feature, ordinals: seq<nat>, part: Solid, solid: Solid, cut: bool): Solid {
    if ordinals == [] then part
    else Combined(Stamp(k, f, ordinals[..|ordinals| - 1], part, solid, cut),
                  Instance(k, f, ordinals[|ordinals| - 1], solid), cut)
  }

  /** The solid a pattern makes copies of, and whether it is removed. A chain that returns to a
      feature it came from recurses without end in the host language. */
  function Repeated(k: Kernel, sources: map<string, Feature>, f: Feature, part: Solid,
                    planes: map<string, Plane>, seen: set<string>): Result<(Solid, bool), Failure>
    requires f.inputs.Pattern?
    decreases sources.Keys - seen
  {
    if f.inputs.of !in sources then Err(Refused("FEATURE_RESULT_UNAVAILABLE"))
    else
      var source := sources[f.inputs.of];
      if source.inputs.Datum? then Err(Refused("UNSUPPORTED_FEATURE"))
      else if !source.enabled then Err(Refused("UNSUPPORTED_FEATURE_SET"))
      else if !source.inputs.Pattern? then
        match ToolOf(k, source, Some(part), planes, Unnamed(|source.inputs.Sketches()|))
        case Err(e) => Err(e)
        case Ok(solid) => Ok((solid, source.inputs.cut))
      else if f.inputs.of in seen then Err(Crashed("RecursionError"))
      else
        match Repeated(k, sources, source, part, planes, seen + {f.inputs.of})
        case Err(e) => Err(e)
        case Ok((solid, cut)) =>
          if k.spacing(source).Some? then Err(k.spacing(source).value)
          else
            var all := Ordinals(source.inputs, Count(source.inputs.spec));
            if all == [] then Err(Crashed("TypeError")) else Ok((Together(k, source, all, solid), cut))
  }

  /** A pattern re-derives its source's tool without the table of bodies. */
  function Unnamed(n: nat): (c: seq<Option<Solid>>)
    ensures |c| == n && forall i :: 0 <= i < n ==> c[i] == None
  {
    if n == 0 then [] else Unnamed(n - 1) + [None]
  }

  /** The part with every instance but the original added. */
  function Patterned(k: Kernel, sources: map<string, Feature>, f: Feature, part: Solid,
                     planes: map<string, Plane>): Result<Solid, Failure>
    requires f.inputs.Pattern?
  {
    match Repeated(k, sources, f, part, planes, {})
    case Err(e) => Err(e)
    case Ok((solid, cut)) =>
      if k.spacing(f).Some? then Err(k.spacing(f).value)
      else
        var all := Ordinals(f.inputs, Count(f.inputs.spec));
        Ok(Stamp(k, f, if all == [] then [] else all[1..], part, solid, cut))
  }

  // ----- one feature ---------------------------------------------------------------------

  function OffsetPlane(d: Document, f: Feature, planes: map<string, Plane>): Result<Plane, Failure>
    requires f.inputs.Datum?
  {
    var base := if BasePlane(f.inputs.base).Some? then BasePlane(f.inputs.base)
                else if f.inputs.base in planes then Some(planes[f.inputs.base]) else None;
    if base.None? then Err(Refused("FEATURE_RESULT_UNAVAILABLE"))
    else match Resolve(f.inputs.offset, Values(d))
      case Err(e) => Err(e)
      case Ok(offset) => Ok(Along(base.value, if f.inputs.flip then -offset else offset))
  }

  /** One extrusion, revolve, sweep or loft, into the body the document says. */
  function ApplySolid(k: Kernel, f: Feature, m: Machine): (r: Result<Table, Failure>)
    requires f.inputs.MakesTool() && ActiveOk(m.table)
    ensures r.Ok? ==> ActiveOk(r.value)
  {
    var t := m.table;
    match if f.inputs.StartsBody() then Ok(None) else Locate(t, f.inputs.Source())
    case Err(e) => Err(e)
    case Ok(target) =>
      var base := if target.None? then None else Some(t.bodies[target.value].solid);
      match ToolOf(k, f, base, m.planes, Carriers(t, f.inputs.Sketches()))
      case Err(e) => Err(e)
      case Ok(solid) =>
        if target.None? then Create(t, solid, BodyNames(f))
        else
          var joined := Replace(t, target.value, Combined(base.value, solid, f.inputs.cut));
          Ok(if f.inputs.cut then joined else Alias(joined, target.value, BodyNames(f)))
  }

  /** A fillet, chamfer, shell or draft on the body its selector names. */
  function ApplyRewrite(k: Kernel, f: Feature, t: Table): (r: Result<Table, Failure>)
    requires f.inputs.Rewrites() && ActiveOk(t)
    ensures r.Ok? ==> ActiveOk(r.value)
  {
    match FirstNamed(t.bodies, f.inputs.RewrittenBody())
    case None => Err(Refused("FEATURE_RESULT_UNAVAILABLE"))
    case Some(i) =>
      match k.rewrite(f, t.bodies[i].solid)
      case Err(e) => Err(e)
      case Ok(solid) => Ok(Replace(t, i, solid))
  }

  function ApplyPattern(k: Kernel, sources: map<string, Feature>, f: Feature, m: Machine): (r: Result<Table, Failure>)
    requires f.inputs.Pattern? && ActiveOk(m.table)
    ensures r.Ok? ==> ActiveOk(r.value)
  {
    match PatternTarget(sources, f, m.table)
    case Err(e) => Err(e)
    case Ok(i) =>
      match Patterned(k, sources, f, m.table.bodies[i].solid, m.planes)
      case Err(e) => Err(e)
      case Ok(solid) => Ok(Replace(m.table, i, solid))
  }

  function Step(k: Kernel, d: Document, m: Machine, f: Feature): (r: Result<Machine, Failure>)
    requires ActiveOk(m.table)
    ensures r.Ok? ==> ActiveOk(r.value.table)
  {
    if !f.enabled then Ok(m)
    else if f.inputs.Datum? then
      match OffsetPlane(d, f, m.planes)
      case Err(e) => Err(e)
      case Ok(plane) =>
        if f.produces == [] then Err(Refused("CAD_IR_INVALID"))
        else Ok(m.(planes := m.planes[f.produces[0].id := plane]))
    else
      match if f.inputs.MakesTool() then ApplySolid(k, f, m)
            else if f.inputs.Pattern? then ApplyPattern(k, Sources(d.features), f, m)
            else if f.inputs.Boolean? then Combine(k, f.inputs, m.table)
            else ApplyRewrite(k, f, m.table)
      case Err(e) => Err(e)
      case Ok(t) => Ok(m.(table := t))
  }

  /** The machine after the first `n` features. */
  function RunTo(k: Kernel, d: Document, n: nat): (r: Result<Machine, Failure>)
    requires n <= |d.features|
    ensures r.Ok? ==> ActiveOk(r.value.table)
  {
    if n == 0 then Ok(START)
    else match RunTo(k, d, n - 1)
      case Err(e) => Err(e)
      case Ok(m) => Step(k, d, m, d.features[n - 1])
  }

  /** The finished part, or the first failure: a parameter without a number fails before any feature. */
  function Built(k: Kernel, d: Document): Result<seq<Solid>, Failure> {
    match ParametersOf(d.parameters)
    case Err(e) => Err(e)
    case Ok(_) =>
      match RunTo(k, d, |d.features|)
      case Err(e) => Err(e)
      case Ok(m) => Finished(m.table)
  }

  /** What the gate says of a document: refused whole, or built whole. */
  function Build(k: Kernel, d: Document, disabled: set<C.Capability>): Result<seq<Solid>, Failure> {
    if exists key :: key in disabled && key in C.Requirements(d) then Err(Refused("CAPABILITY_DISABLED"))
    else Built(k, d)
  }

  lemma {:induction false} RunStops(k: Kernel, d: Document, i: nat, n: nat)
    requires i <= n <= |d.features| && RunTo(k, d, i).Err?
    ensures RunTo(k, d, n) == RunTo(k, d, i)
  {
    if i < n {
      RunStops(k, d, i, n - 1);
    }
  }
}
