/** What a document asks of the engine, one capability at a time, collected in one pass before
    anything is built. */
module Capabilities {
  import opened Prelude
  import opened CadDocument

  datatype Capability =
    | SolidRectangularPrism | SolidContourProfile | SolidRevolve | CutRevolve | SolidSweep | CutSweep
    | SolidLoft | CutLoft | SketchArc | SketchSlot | SketchRegularPolygon | SketchIslands | SketchConstruction
    | SketchPlaneBase | SketchPlaneDatum | SketchPlaneFaceSelector | SketchConstraints | SketchDimensions
    | FeatureHoleSimpleThrough | FeatureBossAdditive | FeatureExtrudeSymmetric | FeatureExtrudeDraft
    | FeatureExtrudeUntilFace | FeatureSweepHelix | FeatureSweepHelixConical | FeatureSweepSpatialPath
    | FeatureBodyNew | BooleanUnion | BooleanSubtract | BooleanIntersect | FeaturePatternLinear
    | FeaturePatternCircular | FeatureMirror | FeatureFilletConstant | FeatureChamferEqual
    | FeatureChamferAsymmetric | FeatureShellInward | FeatureShellOutward | FeatureDraft
    | SelectorEdgeConvexity | ExportStep | ExportStl | ValidateManifold | ValidateBoundingBox
    | ValidateHoleCount | ValidateSurfaceFaceCount | ValidateTopology

  /** What in the document asks for a capability. */
  datatype Reason =
    | EveryBuild | StatedExpectation | InFeature(id: string) | InSketch(id: string) | InSelector(id: string)

  datatype Need = Need(capability: Capability, reason: Reason)

  // ----- the recursive selector walk -----------------------------------------------------

  /** A feature's inputs as the walk sees them: models with fields, lists, and selectors. */
  datatype Value = SelectorValue(selector: Selector) | Model(fields: seq<Value>) | Items(items: seq<Value>) | Atom

  function SelectorsOf(v: Value): seq<Selector>
    decreases v, 1
  {
    match v
    case SelectorValue(s) => [s]
    case Model(fields) => SelectorsOfAll(fields)
    case Items(items) => SelectorsOfAll(items)
    case Atom => []
  }

  function SelectorsOfAll(vs: seq<Value>): seq<Selector>
    decreases vs, 0
  {
    if vs == [] then [] else SelectorsOf(vs[0]) + SelectorsOfAll(vs[1..])
  }

  function PlaneValue(p: SketchPlane): Value {
    if p.OnFace? then Model([Atom, SelectorValue(p.face)]) else Model([Atom, Atom])
  }

  function SketchValue(s: Sketch): Value {
    Model([Atom, PlaneValue(s.plane), Atom, Items([]), Items([]), Items([]), Items([])])
  }

  function SketchValues(s: seq<Sketch>): (v: seq<Value>)
    ensures |v| == |s| && forall i :: 0 <= i < |v| ==> v[i] == SketchValue(s[i])
  {
    if s == [] then [] else SketchValues(s[..|s| - 1]) + [SketchValue(s[|s| - 1])]
  }

  function Optional(s: Option<Selector>): Value {
    if s.Some? then SelectorValue(s.value) else Atom
  }

  function InputsValue(f: Inputs): Value {
    match f
    case Extrude(_, sketch, _, until, _, _, _, _) =>
      Model([SketchValue(sketch), Atom, Atom, Optional(until), Atom, Atom, Atom, Atom])
    case Revolve(_, sketch, _, _, _, _) => Model([SketchValue(sketch), Model([Atom, Atom]), Atom, Atom, Atom])
    case Sweep(_, sketch, _, _, _) => Model([SketchValue(sketch), Model([Atom, Atom, Items([])]), Atom, Atom])
    case Loft(_, sections, _, _) => Model([Items(SketchValues(sections)), Atom, Atom, Atom])
    case Datum(_, _, _) => Model([Atom, Atom, Atom])
    case Pattern(_, _, _) => Model([Atom, Model([Atom, Atom]), Items([])])
    case Fillet(edges) => Model([SelectorValue(edges), Atom])
    case Chamfer(edges, _, _, measured) => Model([SelectorValue(edges), Atom, Atom, Atom, Optional(measured)])
    case Shell(faces, _) => Model([SelectorValue(faces), Atom, Atom])
    case Draft(faces, neutral) => Model([SelectorValue(faces), SelectorValue(neutral), Atom])
    case Boolean(_, _, _, _) => Model([Atom, Atom, Items([Atom]), Atom])
  }

  // ----- what one feature asks for -------------------------------------------------------

  function When(condition: bool, capability: Capability, reason: Reason): seq<Need> {
    if condition then [Need(capability, reason)] else []
  }

  function Flatten(chunks: seq<seq<Need>>): seq<Need> {
    if chunks == [] then [] else Flatten(chunks[..|chunks| - 1]) + chunks[|chunks| - 1]
  }

  /** Anything but the literal zero may turn out to be an angle. */
  predicate MayLean(s: Scalar) { s != Number(0.0) }

  function PlaneNeeds(s: Sketch): seq<Need> {
    match s.plane
    case OnBase(_) => [Need(SketchPlaneBase, InSketch(s.id))]
    case OnDatum(_) => [Need(SketchPlaneDatum, InSketch(s.id))]
    case OnFace(_) => [Need(SketchPlaneFaceSelector, InSketch(s.id))]
    case OnPathStart => []
  }

  function ContourNeeds(c: Contour, reason: Reason): seq<Need> {
    match c
    case PathContour(segments) =>
      [Need(SolidContourProfile, reason)] + When(ArcSegment in segments, SketchArc, reason)
    case Slot => [Need(SketchSlot, reason)]
    case RegularPolygon => [Need(SketchRegularPolygon, reason)]
    case Circle => []
    case Rectangle => []
  }

  function ContoursNeeds(cs: seq<Contour>, reason: Reason): seq<Need> {
    Flatten(seq(|cs|, i requires 0 <= i < |cs| => ContourNeeds(cs[i], reason)))
  }

  function StatementNeeds(s: Sketch, reason: Reason): seq<Need> {
    Flatten([When(s.inner != [], SketchIslands, reason),
             When(s.construction != [], SketchConstruction, reason),
             When(s.constraints != [], SketchConstraints, reason),
             When(s.dimensions != [], SketchDimensions, reason)])
  }

  function SketchNeeds(s: Sketch): seq<Need> {
    Flatten([PlaneNeeds(s),
             StatementNeeds(s, InSketch(s.id)),
             ContoursNeeds([s.outer] + s.inner, InSketch(s.id))])
  }

  function SketchesNeeds(s: seq<Sketch>): seq<Need> {
    Flatten(seq(|s|, i requires 0 <= i < |s| => SketchNeeds(s[i])))
  }

  function ConvexityNeeds(s: seq<Selector>): seq<Need> {
    Flatten(seq(|s|, i requires 0 <= i < |s| => When(s[i].convexity, SelectorEdgeConvexity, InSelector(s[i].id))))
  }

  function ExtrudeNeeds(f: Inputs, reason: Reason): seq<Need> {
    Flatten([When(f.Extrude? && f.both, FeatureExtrudeSymmetric, reason),
             When(f.Extrude? && MayLean(f.taper), FeatureExtrudeDraft, reason),
             When(f.Extrude? && f.untilFace.Some?, FeatureExtrudeUntilFace, reason)])
  }

  function PathNeeds(f: Inputs, reason: Reason): seq<Need> {
    Flatten([When(f.Sweep? && f.path.HelicalPath?, FeatureSweepHelix, reason),
             When(f.Sweep? && f.path.HelicalPath? && MayLean(f.path.cone), FeatureSweepHelixConical, reason),
             When(f.Sweep? && f.path.SpatialPath?, FeatureSweepSpatialPath, reason)])
  }

  /** Modes of an operation that have keys of their own. */
  function ModeNeeds(f: Inputs, reason: Reason): seq<Need> {
    Flatten([ExtrudeNeeds(f, reason), PathNeeds(f, reason), When(f.StartsBody(), FeatureBodyNew, reason)])
  }

  /** The operation itself. `solids` counts the enabled additive features before this one. */
  function KindNeeds(f: Inputs, solids: nat, reason: Reason): seq<Need> {
    match f
    case Extrude(cut, _, _, _, _, _, _, newBody) =>
      if cut then [Need(FeatureHoleSimpleThrough, reason)]
      else [Need(SolidRectangularPrism, reason)] + When(solids > 0 && !newBody, FeatureBossAdditive, reason)
    case Revolve(cut, _, _, _, _, _) => [Need(if cut then CutRevolve else SolidRevolve, reason)]
    case Sweep(cut, _, _, _, _) => [Need(if cut then CutSweep else SolidSweep, reason)]
    case Loft(cut, _, _, _) => [Need(if cut then CutLoft else SolidLoft, reason)]
    case Datum(_, _, _) => [Need(SketchPlaneDatum, reason)]
    case Pattern(_, spec, _) =>
      [Need(match spec case Linear(_) => FeaturePatternLinear case Circular(_) => FeaturePatternCircular
            case Mirror => FeatureMirror, reason)]
    case Fillet(_) => [Need(FeatureFilletConstant, reason)]
    case Chamfer(_, second, angle, _) =>
      [Need(if second.Some? || angle.Some? then FeatureChamferAsymmetric else FeatureChamferEqual, reason)]
    case Shell(_, inward) => [Need(if inward then FeatureShellInward else FeatureShellOutward, reason)]
    case Draft(_, _) => [Need(FeatureDraft, reason)]
    case Boolean(op, _, _, _) =>
      [Need(match op case Union => BooleanUnion case Subtract => BooleanSubtract case Intersect => BooleanIntersect,
            reason)]
  }

  function FeatureNeeds(f: Feature, solids: nat): seq<Need> {
    Flatten([ModeNeeds(f.inputs, InFeature(f.id)),
             KindNeeds(f.inputs, solids, InFeature(f.id)),
             ConvexityNeeds(SelectorsOf(InputsValue(f.inputs))),
             SketchesNeeds(f.inputs.Sketches())])
  }

  // ----- the whole document --------------------------------------------------------------

  const ALWAYS := [Need(ExportStep, EveryBuild), Need(ExportStl, EveryBuild), Need(ValidateManifold, EveryBuild),
                   Need(ValidateBoundingBox, EveryBuild), Need(ValidateTopology, EveryBuild)]

  function Expected(d: Document): seq<Need> {
    Flatten([ALWAYS,
             When(ThroughHoleCount in d.expectations, ValidateHoleCount, StatedExpectation),
             When(SurfaceFaceCount in d.expectations, ValidateSurfaceFaceCount, StatedExpectation)])
  }

  function SolidsBefore(d: Document, n: nat): nat
    requires n <= |d.features|
  {
    if n == 0 then 0
    else SolidsBefore(d, n - 1) + (if d.features[n - 1].enabled && d.features[n - 1].inputs.IsAdditive() then 1 else 0)
  }

  function NeedsAt(d: Document, i: nat): seq<Need>
    requires i < |d.features|
  {
    if d.features[i].enabled then FeatureNeeds(d.features[i], SolidsBefore(d, i)) else []
  }

  function EachNeeds(d: Document, n: nat): seq<seq<Need>>
    requires n <= |d.features|
  {
    seq(n, i requires 0 <= i < n => NeedsAt(d, i))
  }

  /** Everything asked for by the first `n` features, in the order the walk meets it. */
  function NeedsTo(d: Document, n: nat): seq<Need>
    requires n <= |d.features|
  {
    Expected(d) + Flatten(EachNeeds(d, n))
  }

  lemma NeedsToNext(d: Document, i: nat)
    requires i < |d.features|
    ensures NeedsTo(d, i + 1) == NeedsTo(d, i) + NeedsAt(d, i)
  {
    assert EachNeeds(d, i + 1)[..i] == EachNeeds(d, i);
  }

  /** `setdefault` over a list: the first reason stated for a capability is the one kept. */
  function FirstReasons(needs: seq<Need>, had: map<Capability, Reason>): map<Capability, Reason> {
    if needs == [] then had
    else FirstReasons(needs[1..],
           if needs[0].capability in had then had else had[needs[0].capability := needs[0].reason])
  }

  function Requirements(d: Document): map<Capability, Reason> {
    FirstReasons(NeedsTo(d, |d.features|), map[])
  }

  method AddNeeds(needs: seq<Need>, had: map<Capability, Reason>) returns (needed: map<Capability, Reason>)
    ensures needed == FirstReasons(needs, had)
  {
    needed := had;
    for i := 0 to |needs|
      invariant FirstReasons(needs, had) == FirstReasons(needs[i..], needed)
    {
      assert needs[i..][1..] == needs[i + 1..];
      if needs[i].capability !in needed {
        needed := needed[needs[i].capability := needs[i].reason];
      }
    }
  }

  /** The single pass: one dictionary filled first-come, one counter of solids so far. */
  method CollectRequirements(d: Document) returns (needed: map<Capability, Reason>)
    ensures needed == Requirements(d)
  {
    needed := AddNeeds(Expected(d), map[]);
    var solidsSoFar: nat := 0;
    assert NeedsTo(d, 0) == Expected(d);
    for i := 0 to |d.features|
      invariant solidsSoFar == SolidsBefore(d, i)
      invariant needed == FirstReasons(NeedsTo(d, i), map[])
    {
      var f := d.features[i];
      var asked := if f.enabled then FeatureNeeds(f, solidsSoFar) else [];
      NeedsToNext(d, i);
      FirstReasonsAppend(NeedsTo(d, i), asked, map[]);
      needed := AddNeeds(asked, needed);
      solidsSoFar := solidsSoFar + if f.enabled && f.inputs.IsAdditive() then 1 else 0;
    }
  }

  lemma {:induction false} FirstReasonsAppend(a: seq<Need>, b: seq<Need>, had: map<Capability, Reason>)
    ensures FirstReasons(a + b, had) == FirstReasons(b, FirstReasons(a, had))
    decreases |a|
  {
    if a == [] {
      assert a + b == b;
    } else {
      var next := if a[0].capability in had then had else had[a[0].capability := a[0].reason];
      assert (a + b)[1..] == a[1..] + b;
      FirstReasonsAppend(a[1..], b, next);
    }
  }
}
