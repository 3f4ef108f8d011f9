/** Before bodies had names the engine kept one running solid. A document with no new bodies and
    no booleans still means that. */
module SingleSolid {
  import opened Prelude
  import opened Solids
  import opened CadDocument
  import opened KernelModel
  import opened BodyTable
  import opened Adapter

  datatype Running = Running(part: Option<Solid>, planes: map<string, Plane>)

  /** One feature of the old fold: everything joins, cuts or rewrites the one part. */
  function OldStep(k: Kernel, d: Document, r: Running, f: Feature): Result<Running, Failure> {
    if !f.enabled then Ok(r)
    else if f.inputs.Datum? then
      match OffsetPlane(d, f, r.planes)
      case Err(e) => Err(e)
      case Ok(plane) =>
        if f.produces == [] then Err(Refused("CAD_IR_INVALID"))
        else Ok(r.(planes := r.planes[f.produces[0].id := plane]))
    else if f.inputs.MakesTool() then
      match ToolOf(k, f, r.part, r.planes, Unnamed(|f.inputs.Sketches()|))
      case Err(e) => Err(e)
      case Ok(solid) => Ok(r.(part := Some(if r.part.None? then solid
                                           else Combined(r.part.value, solid, f.inputs.cut))))
    else if r.part.None? || f.inputs.Boolean? then Err(Refused("UNSUPPORTED_FEATURE_SET"))
    else
      match if f.inputs.Pattern? then Patterned(k, Sources(d.features), f, r.part.value, r.planes)
            else k.rewrite(f, r.part.value)
      case Err(e) => Err(e)
      case Ok(solid) => Ok(r.(part := Some(solid)))
  }

  function OldRunTo(k: Kernel, d: Document, n: nat): Result<Running, Failure>
    requires n <= |d.features|
  {
    if n == 0 then Ok(Running(None, map[]))
    else match OldRunTo(k, d, n - 1)
      case Err(e) => Err(e)
      case Ok(r) => OldStep(k, d, r, d.features[n - 1])
  }

  function OldBuilt(k: Kernel, d: Document): Result<seq<Solid>, Failure> {
    match ParametersOf(d.parameters)
    case Err(e) => Err(e)
    case Ok(_) =>
      match OldRunTo(k, d, |d.features|)
      case Err(e) => Err(e)
      case Ok(r) => if r.part.None? then Err(Refused("UNSUPPORTED_FEATURE_SET")) else Ok([r.part.value])
  }

  /** Nothing the document has switched on starts a body of its own or combines two. */
  predicate OneBody(d: Document) {
    forall f :: f in d.features && f.enabled ==> !f.inputs.StartsBody() && !f.inputs.Boolean?
  }

  /** The names the one body answers to after the first `n` features: the first additive feature
      creates it, and every later one adds its own. */
  function NamesSoFar(d: Document, n: nat): set<string>
    requires n <= |d.features|
  {
    if n == 0 then {}
    else NamesSoFar(d, n - 1)
         + if d.features[n - 1].enabled && d.features[n - 1].inputs.IsAdditive()
           then BodyNames(d.features[n - 1]) else {}
  }

  /** The body a feature refers to by name, if it refers to one. */
  function BodyReference(d: Document, f: Feature): Option<string> {
    if !f.enabled then None
    else if f.inputs.Rewrites() then Some(f.inputs.RewrittenBody())
    else if f.inputs.Pattern? then ChainSource(Sources(d.features), f)
    else f.inputs.Source()
  }

  /** Every body named by an enabled feature was declared by an enabled additive one before it. */
  predicate NamesBuilt(d: Document, n: nat)
    requires n <= |d.features|
  {
    forall i :: 0 <= i < n && BodyReference(d, d.features[i]).Some? ==>
      BodyReference(d, d.features[i]).value in NamesSoFar(d, i)
  }

  /** The table is the running solid under its names, or empty. */
  ghost predicate IsRunning(t: Table, part: Option<Solid>, names: set<string>) {
    if part.None? then t == EMPTY && names == {}
    else t == Table([Entry(part.value, names)], Some(0))
  }

  lemma {:induction false} OnePlaceToSketch(k: Kernel, f: Feature, n: nat, planes: map<string, Plane>,
                                            part: Option<Solid>,
                           carriers: seq<Option<Solid>>)
    requires n <= |f.inputs.Sketches()| == |carriers|
    requires forall i :: 0 <= i < |carriers| ==> carriers[i] == None || carriers[i] == part
    ensures Placed(k, f, n, planes, part, carriers) == Placed(k, f, n, planes, part, Unnamed(|carriers|))
  {
    if n > 0 { OnePlaceToSketch(k, f, n - 1, planes, part, carriers); }
  }

  lemma SameTool(k: Kernel, f: Feature, t: Table, part: Option<Solid>, names: set<string>, planes: map<string, Plane>)
    requires f.inputs.MakesTool() && IsRunning(t, part, names)
    ensures ToolOf(k, f, part, planes, Carriers(t, f.inputs.Sketches()))
            == ToolOf(k, f, part, planes, Unnamed(|f.inputs.Sketches()|))
  {
    var carriers := Carriers(t, f.inputs.Sketches());
    OnePlaceToSketch(k, f, |carriers|, planes, part, carriers);
  }

  /** The same failure, or the running solid under its names, beside the same planes. */
  ghost predicate SameStep(k: Kernel, d: Document, m: Machine, r: Running, names: set<string>, f: Feature)
    requires ActiveOk(m.table)
  {
    && (Step(k, d, m, f).Err? ==> OldStep(k, d, r, f) == Err(Step(k, d, m, f).error))
    && (Step(k, d, m, f).Ok? ==>
          && OldStep(k, d, r, f).Ok?
          && Step(k, d, m, f).value.planes == OldStep(k, d, r, f).value.planes
          && IsRunning(Step(k, d, m, f).value.table, OldStep(k, d, r, f).value.part,
                       names + if f.enabled && f.inputs.IsAdditive() then BodyNames(f) else {}))
  }

  lemma ToolIsOldStep(k: Kernel, d: Document, m: Machine, r: Running, names: set<string>, f: Feature)
    requires IsRunning(m.table, r.part, names) && m.planes == r.planes
    requires f.enabled && f.inputs.MakesTool() && !f.inputs.StartsBody()
    requires f.inputs.Source().Some? ==> f.inputs.Source().value in names
    ensures SameStep(k, d, m, r, names, f)
  {
    SameTool(k, f, m.table, r.part, names, m.planes);
    if Step(k, d, m, f).Ok? {
      var t := Step(k, d, m, f).value.table;
      assert names + {} == names && {} + BodyNames(f) == BodyNames(f);
      assert t.bodies == [t.bodies[0]];
    }
  }

  lemma StepIsOldStep(k: Kernel, d: Document, m: Machine, r: Running, names: set<string>, f: Feature)
    requires IsRunning(m.table, r.part, names) && m.planes == r.planes
    requires f.enabled ==> !f.inputs.StartsBody() && !f.inputs.Boolean?
    requires BodyReference(d, f).Some? ==> BodyReference(d, f).value in names
    ensures SameStep(k, d, m, r, names, f)
  {
    if f.enabled && f.inputs.MakesTool() {
      ToolIsOldStep(k, d, m, r, names, f);
    } else if Step(k, d, m, f).Ok? {
      var t := Step(k, d, m, f).value.table;
      assert names + {} == names;
      assert t.bodies == [] || t.bodies == [t.bodies[0]];
    }
  }

  lemma {:induction false} RunIsOldRun(k: Kernel, d: Document, n: nat)
    requires n <= |d.features| && OneBody(d) && NamesBuilt(d, n)
    ensures RunTo(k, d, n).Err? ==> OldRunTo(k, d, n) == Err(RunTo(k, d, n).error)
    ensures RunTo(k, d, n).Ok? ==> OldRunTo(k, d, n).Ok?
    ensures RunTo(k, d, n).Ok? ==> RunTo(k, d, n).value.planes == OldRunTo(k, d, n).value.planes
    ensures RunTo(k, d, n).Ok? ==> IsRunning(RunTo(k, d, n).value.table, OldRunTo(k, d, n).value.part, NamesSoFar(d, n))
  {
    if n > 0 {
      RunIsOldRun(k, d, n - 1);
      if RunTo(k, d, n - 1).Ok? {
        StepIsOldStep(k, d, RunTo(k, d, n - 1).value, OldRunTo(k, d, n - 1).value, NamesSoFar(d, n - 1),
                      d.features[n - 1]);
      }
    }
  }

  /** Whatever aliases its features declare, the document builds the old running solid. */
  lemma BuildsTheRunningSolid(k: Kernel, d: Document)
    requires OneBody(d) && NamesBuilt(d, |d.features|)
    ensures Built(k, d) == OldBuilt(k, d)
  {
    RunIsOldRun(k, d, |d.features|);
    if RunTo(k, d, |d.features|).Ok? {
      var t := RunTo(k, d, |d.features|).value.table;
      assert t.bodies != [] ==> SolidsOf(t.bodies) == [t.bodies[0].solid];
    }
  }

  /** Where the two part: a feature that names a body no enabled additive feature declared is
      refused now, and was built on the running solid then. */
  lemma UnbuiltNameIsRefused(k: Kernel, d: Document, i: nat)
    requires i < |d.features| && OneBody(d) && NamesBuilt(d, i) && RunTo(k, d, i).Ok?
    requires BodyReference(d, d.features[i]).Some? && BodyReference(d, d.features[i]).value !in NamesSoFar(d, i)
    ensures RunTo(k, d, i + 1) == Err(Refused("FEATURE_RESULT_UNAVAILABLE"))
  {
    hide OldStep, ToolOf, Patterned, Carriers, Combined;
    RunIsOldRun(k, d, i);
  }
}
