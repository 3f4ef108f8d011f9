/** When a feature's tool is made, and what it is refused for. */
module ToolVerdict {
  import opened Prelude
  import opened Solids
  import opened CadDocument
  import opened KernelModel
  import opened BodyTable
  import opened Adapter
  import opened FeatureMaterial

  /** What keeps a sketch off its plane. */
  predicate NoPlane(k: Kernel, f: Feature, s: Sketch, planes: map<string, Plane>, part: Option<Solid>,
                    carrier: Option<Solid>, e: Failure)
  {
    if f.inputs.Sweep? && f.inputs.path.HelicalPath? then k.pathPlane(f) == Err(e)
    else match s.plane
      case OnBase(name) => name !in {"XY", "XZ", "YZ"} && e == Refused("UNSUPPORTED_FEATURE")
      case OnDatum(result) => result !in planes && e == Refused("FEATURE_RESULT_UNAVAILABLE")
      case OnFace(face) =>
        if carrier.Some? then k.facePlane(face, carrier.value) == Err(e)
        else if part.Some? then k.facePlane(face, part.value) == Err(e)
        else e == Refused("FEATURE_RESULT_UNAVAILABLE")
      case OnPathStart => e == Refused("UNSUPPORTED_FEATURE")
  }

  /** What is wrong with a sketch: its statements are looked at first, then its plane, then its face. */
  ghost predicate Trouble(k: Kernel, f: Feature, i: nat, planes: map<string, Plane>, part: Option<Solid>,
                          carriers: seq<Option<Solid>>, e: Failure)
    requires i < |f.inputs.Sketches()| == |carriers|
  {
    var s := f.inputs.Sketches()[i];
    || k.assertions(s) == Some(e)
    || (k.assertions(s).None? && NoPlane(k, f, s, planes, part, carriers[i], e))
    || (k.assertions(s).None? && k.face(f.inputs, s) == Some(e) && HasPlane(k, f, s, planes, part, carriers[i]))
  }

  ghost predicate HasPlane(k: Kernel, f: Feature, s: Sketch, planes: map<string, Plane>, part: Option<Solid>,
                           carrier: Option<Solid>)
  {
    exists plane :: StandsOn(k, f, s, planes, part, carrier, plane)
  }

  lemma OnePlaneOrNone(k: Kernel, f: Feature, s: Sketch, planes: map<string, Plane>, part: Option<Solid>,
                       carrier: Option<Solid>)
    ensures forall plane ::
              StandsOn(k, f, s, planes, part, carrier, plane) <==>
              SketchPlaneOf(k, f, s, planes, part, carrier) == Ok(plane)
    ensures forall e ::
              NoPlane(k, f, s, planes, part, carrier, e) <==> SketchPlaneOf(k, f, s, planes, part, carrier) == Err(e)
  {
  }

  /** The first `n` sketches, each on its plane. */
  predicate AllDrawn(k: Kernel, f: Feature, n: nat, planes: map<string, Plane>, part: Option<Solid>,
                     carriers: seq<Option<Solid>>, at: seq<Plane>)
    requires n <= |f.inputs.Sketches()| == |carriers|
  {
    |at| == n && forall i :: 0 <= i < n ==> Drawn(k, f, i, planes, part, carriers, at[i])
  }

  /** The first sketch anything is wrong with. */
  ghost predicate FirstTrouble(k: Kernel, f: Feature, n: nat, planes: map<string, Plane>, part: Option<Solid>,
                               carriers: seq<Option<Solid>>, at: seq<Plane>, e: Failure)
    requires n <= |f.inputs.Sketches()| == |carriers|
  {
    |at| < n && AllDrawn(k, f, |at|, planes, part, carriers, at) && Trouble(k, f, |at|, planes, part, carriers, e)
  }

  lemma NextSketch(k: Kernel, f: Feature, n: nat, planes: map<string, Plane>, part: Option<Solid>,
                   carriers: seq<Option<Solid>>)
    requires 0 < n <= |f.inputs.Sketches()| == |carriers| && Placed(k, f, n - 1, planes, part, carriers).Ok?
    ensures var before, r := Placed(k, f, n - 1, planes, part, carriers).value, Placed(k, f, n, planes, part, carriers);
            && (r.Err? ==> Trouble(k, f, n - 1, planes, part, carriers, r.error))
            && (r.Ok? ==> |r.value| == |before| + 1 && r.value[..|before|] == before
                          && Drawn(k, f, n - 1, planes, part, carriers, r.value[|before|]))
  {
    OnePlaneOrNone(k, f, f.inputs.Sketches()[n - 1], planes, part, carriers[n - 1]);
  }

  /** All sketches are placed, or the first that cannot be says why. */
  lemma {:induction false} PlacedOrNot(k: Kernel, f: Feature, n: nat, planes: map<string, Plane>, part: Option<Solid>,
                                       carriers: seq<Option<Solid>>) returns (at: seq<Plane>)
    requires n <= |f.inputs.Sketches()| == |carriers|
    ensures match Placed(k, f, n, planes, part, carriers)
            case Ok(placed) => placed == at && AllDrawn(k, f, n, planes, part, carriers, at)
            case Err(e) => FirstTrouble(k, f, n, planes, part, carriers, at, e)
  {
    hide SketchPlaneOf, Trouble, Drawn;
    if n == 0 {
      at := [];
    } else {
      at := PlacedOrNot(k, f, n - 1, planes, part, carriers);
      if Placed(k, f, n - 1, planes, part, carriers).Ok? {
        NextSketch(k, f, n, planes, part, carriers);
        if Placed(k, f, n, planes, part, carriers).Ok? { at := Placed(k, f, n, planes, part, carriers).value; }
      }
    }
  }

  /** What comes of a feature's sketches once they are placed. */
  predicate Made(k: Kernel, f: Feature, part: Option<Solid>, at: seq<Plane>, r: Result<Solid, Failure>)
    requires f.inputs.MakesTool()
  {
    match k.profile(f, at)
    case Some(e) => r == Err(e)
    case None =>
      if f.inputs.cut && part.None? then r == Err(Refused("UNSUPPORTED_FEATURE_SET")) else r == k.solid(f, at, part)
  }

  /** A tool is refused for the first sketch anything is wrong with; then for its profile; then for
      cutting where nothing is; and then it is what the kernel makes of it. */
  lemma ToolExactly(k: Kernel, f: Feature, part: Option<Solid>, planes: map<string, Plane>,
                    carriers: seq<Option<Solid>>) returns (at: seq<Plane>)
    requires |carriers| == |f.inputs.Sketches()| && f.inputs.MakesTool()
    ensures var r := ToolOf(k, f, part, planes, carriers);
            || (AllDrawn(k, f, |carriers|, planes, part, carriers, at) && Made(k, f, part, at, r))
            || (r.Err? && FirstTrouble(k, f, |carriers|, planes, part, carriers, at, r.error))
  {
    at := PlacedOrNot(k, f, |carriers|, planes, part, carriers);
  }

  /** No sketch has two planes, or a plane and trouble: what happens to a tool is settled. */
  lemma Settled(k: Kernel, f: Feature, i: nat, planes: map<string, Plane>, part: Option<Solid>,
                carriers: seq<Option<Solid>>, plane: Plane, other: Plane, e: Failure, e': Failure)
    requires i < |f.inputs.Sketches()| == |carriers|
    ensures Drawn(k, f, i, planes, part, carriers, plane) ==> !Trouble(k, f, i, planes, part, carriers, e)
    ensures Drawn(k, f, i, planes, part, carriers, plane) && Drawn(k, f, i, planes, part, carriers, other) ==>
              plane == other
    ensures Trouble(k, f, i, planes, part, carriers, e) && Trouble(k, f, i, planes, part, carriers, e') ==> e == e'
  {
    OnePlaneOrNone(k, f, f.inputs.Sketches()[i], planes, part, carriers[i]);
  }

  // ----- on the table --------------------------------------------------------------------

  /** A feature that makes a tool is refused when the body it names is gone, when its tool is refused, or
      when it starts a body under a name that is taken; and for nothing else. */
  lemma ToolStepExactly(k: Kernel, d: Document, m: Machine, f: Feature) returns (at: Option<nat>)
    requires ActiveOk(m.table) && f.enabled && f.inputs.MakesTool()
    ensures var r := Step(k, d, m, f);
            if !MeansNewBody(f.inputs) && f.inputs.sourceBody.Some? && Find(m.table, f.inputs.sourceBody.value).None?
            then r == Err(Refused("FEATURE_RESULT_UNAVAILABLE"))
            else
              && (at.Some? ==> at.value < |m.table.bodies|)
              && (at.None? <==> MeansNewBody(f.inputs) || (f.inputs.sourceBody.None? && m.table.bodies == []))
              && match ToolOf(k, f, BaseAt(m.table, at), m.planes, Carriers(m.table, f.inputs.Sketches()))
                 case Err(e) => r == Err(e)
                 case Ok(_) =>
                   if at.None? && exists name :: name in BodyNames(f) && Find(m.table, name).Some?
                   then r == Err(Refused("CAD_IR_INVALID")) else r.Ok?
  {
    hide ToolOf, Carriers;
    at := if f.inputs.StartsBody() || Locate(m.table, f.inputs.Source()).Err? then None
          else Locate(m.table, f.inputs.Source()).value;
  }
}
