/** The gate is decided by one walk over the document and the building is done by another. Every
    call on the kernel that a feature can cause was asked for by the first. */
module GateSoundness {
  import opened Prelude
  import opened CadDocument
  import C = Capabilities
  import M = CapabilityMeaning

  /** What a call on the kernel can be a part of. */
  datatype Act =
    | Combines(op: BooleanOp) | Repeats(spec: PatternSpec)
    | Rounds | Bevels(asymmetric: bool) | Hollows(inward: bool) | LeansWalls
    | Extrudes(cut: bool) | Revolves(cut: bool) | Sweeps(cut: bool) | Lofts(cut: bool)
    | GoesBothWays | Tapers | StopsAtFace | FollowsHelix | FollowsCone | LeavesItsPlane
    | SketchesOn(plane: SketchPlane) | Draws(contour: Contour) | DrawsIsland
    | ReadsConstruction | ChecksConstraints | ChecksDimensions | TestsConvexity

  /** The switch that stops an act, when there is one. */
  function KeyOf(a: Act): set<C.Capability> {
    match a
    case Combines(op) => {match op case Union => C.BooleanUnion case Subtract => C.BooleanSubtract
                          case Intersect => C.BooleanIntersect}
    case Repeats(spec) => {match spec case Linear(_) => C.FeaturePatternLinear
                           case Circular(_) => C.FeaturePatternCircular case Mirror => C.FeatureMirror}
    case Rounds => {C.FeatureFilletConstant}
    case Bevels(asymmetric) => {if asymmetric then C.FeatureChamferAsymmetric else C.FeatureChamferEqual}
    case Hollows(inward) => {if inward then C.FeatureShellInward else C.FeatureShellOutward}
    case LeansWalls => {C.FeatureDraft}
    case Extrudes(cut) => {if cut then C.FeatureHoleSimpleThrough else C.SolidRectangularPrism}
    case Revolves(cut) => {if cut then C.CutRevolve else C.SolidRevolve}
    case Sweeps(cut) => {if cut then C.CutSweep else C.SolidSweep}
    case Lofts(cut) => {if cut then C.CutLoft else C.SolidLoft}
    case GoesBothWays => {C.FeatureExtrudeSymmetric}
    case Tapers => {C.FeatureExtrudeDraft}
    case StopsAtFace => {C.FeatureExtrudeUntilFace}
    case FollowsHelix => {C.FeatureSweepHelix}
    case FollowsCone => {C.FeatureSweepHelixConical}
    case LeavesItsPlane => {C.FeatureSweepSpatialPath}
    case SketchesOn(OnBase(_)) => {C.SketchPlaneBase}
    case SketchesOn(OnDatum(_)) => {C.SketchPlaneDatum}
    case SketchesOn(OnFace(_)) => {C.SketchPlaneFaceSelector}
    case SketchesOn(OnPathStart) => {}
    case Draws(PathContour(segments)) => {C.SolidContourProfile} + if ArcSegment in segments then {C.SketchArc} else {}
    case Draws(Slot) => {C.SketchSlot}
    case Draws(RegularPolygon) => {C.SketchRegularPolygon}
    case Draws(Circle) => {}
    case Draws(Rectangle) => {}
    case DrawsIsland => {C.SketchIslands}
    case ReadsConstruction => {C.SketchConstruction}
    case ChecksConstraints => {C.SketchConstraints}
    case ChecksDimensions => {C.SketchDimensions}
    case TestsConvexity => {C.SelectorEdgeConvexity}
  }

  // ----- calls ---------------------------------------------------------------------------

  /** The calls on the kernel, by what they are given of the document. */
  datatype Call =
    | ChecksSketch(s: Sketch) | DrawsSketch(f: Inputs, s: Sketch) | FindsFace(face: Selector) | FindsPath(f: Inputs)
    | MakesSolid(f: Inputs) | RewritesBody(f: Inputs) | PlacesCopies(spec: PatternSpec) | CombinesSolids(op: BooleanOp)

  /** A scalar that comes out different from zero when it is resolved. */
  predicate ResolvesNonzero(s: Scalar, d: Document) {
    Resolve(s, Values(d)).Ok? && Resolve(s, Values(d)).value != 0.0
  }

  /** A sketch drawn where it lies; a loft draws no islands, a helix replaces the plane. */
  predicate Drawing(f: Inputs, s: Sketch, a: Act) {
    match a
    case SketchesOn(plane) => plane == s.plane && !(f.Sweep? && f.path.HelicalPath?)
    case Draws(contour) => contour == s.outer || (!f.Loft? && contour in s.inner)
    case DrawsIsland => !f.Loft? && s.inner != []
    case _ => false
  }

  /** The tool of a feature made from its placed profile. */
  predicate Making(d: Document, f: Inputs, a: Act) {
    match a
    case Extrudes(cut) => f.Extrude? && cut == f.cut
    case Revolves(cut) => f.Revolve? && cut == f.cut
    case Sweeps(cut) => f.Sweep? && cut == f.cut
    case Lofts(cut) => f.Loft? && cut == f.cut
    case GoesBothWays => f.Extrude? && f.both
    case Tapers => f.Extrude? && ResolvesNonzero(f.taper, d)
    case StopsAtFace => f.Extrude? && f.untilFace.Some?
    case TestsConvexity => f.Extrude? && f.untilFace.Some? && f.untilFace.value.convexity
    case FollowsHelix => f.Sweep? && f.path.HelicalPath?
    case FollowsCone => f.Sweep? && f.path.HelicalPath? && ResolvesNonzero(f.path.cone, d)
    case LeavesItsPlane => f.Sweep? && f.path.SpatialPath?
    case ReadsConstruction => f.Revolve? && f.axisEntity.Some? && f.axisEntity.value in f.sketch.construction
    case _ => false
  }

  /** A fillet, chamfer, shell or draft of the body its selector names. */
  predicate Rewriting(f: Inputs, a: Act) {
    match f
    case Fillet(edges) => a == Rounds || (a.TestsConvexity? && edges.convexity)
    case Chamfer(edges, second, angle, measured) =>
      || a == Bevels(second.Some? || angle.Some?)
      || (a.TestsConvexity? && (edges.convexity || (measured.Some? && measured.value.convexity)))
    case Shell(faces, inward) => a == Hollows(inward) || (a.TestsConvexity? && faces.convexity)
    case Draft(faces, neutral) => a == LeansWalls || (a.TestsConvexity? && (faces.convexity || neutral.convexity))
    case _ => false
  }

  predicate Does(d: Document, c: Call, a: Act) {
    match c
    case ChecksSketch(s) => (a.ChecksConstraints? && s.constraints != []) || (a.ChecksDimensions? && s.dimensions != [])
    case DrawsSketch(f, s) => Drawing(f, s, a)
    case FindsFace(face) => a == SketchesOn(OnFace(face)) || (a.TestsConvexity? && face.convexity)
    case FindsPath(f) => a.FollowsHelix? && f.Sweep? && f.path.HelicalPath?
    case MakesSolid(f) => Making(d, f, a)
    case RewritesBody(f) => Rewriting(f, a)
    case PlacesCopies(spec) => a == Repeats(spec)
    case CombinesSolids(op) => a == Combines(op)
  }

  /** No switch that would stop the call is off. */
  ghost predicate Allowed(d: Document, c: Call, disabled: set<C.Capability>) {
    forall a, key :: Does(d, c, a) && key in KeyOf(a) ==> key !in disabled
  }

  /** The calls a feature of these inputs causes, when it is built or repeated. */
  predicate Causes(f: Inputs, c: Call) {
    match c
    case ChecksSketch(s) => f.MakesTool() && s in f.Sketches()
    case DrawsSketch(g, s) => f.MakesTool() && g == f && s in f.Sketches()
    case FindsFace(face) => f.MakesTool() && exists s :: s in f.Sketches() && s.plane == OnFace(face)
    case FindsPath(g) => g == f && f.Sweep? && f.path.HelicalPath?
    case MakesSolid(g) => g == f && f.MakesTool()
    case RewritesBody(g) => g == f && f.Rewrites()
    case PlacesCopies(spec) => f.Pattern? && f.spec == spec
    case CombinesSolids(op) => f.Boolean? && f.op == op
  }

  // ----- every call was asked for --------------------------------------------------------

  ghost predicate Asked(d: Document, key: C.Capability) {
    exists i :: 0 <= i < |d.features| && M.EnabledAsks(d, i, key)
  }

  lemma AskedByFeature(d: Document, f: Feature, key: C.Capability)
    requires f in d.features && f.enabled && M.FeatureAsks(f.inputs, false, key)
    ensures Asked(d, key)
  {
    var i :| 0 <= i < |d.features| && d.features[i] == f;
    assert M.FeatureAsks(f.inputs, M.AdditiveBefore(d, i), key);
    assert M.EnabledAsks(d, i, key);
  }

  lemma HoldsItself(s: Selector)
    ensures M.Holds(C.SelectorValue(s), s)
  {
    assert M.SelectorAt(C.SelectorValue(s), [], s);
  }

  lemma SketchFaceHeld(s: Sketch)
    requires s.plane.OnFace?
    ensures M.Holds(C.SketchValue(s), s.plane.face)
  {
    var plane := [C.Atom, C.SelectorValue(s.plane.face)];
    HoldsItself(s.plane.face);
    M.ChildHolds(C.PlaneValue(s.plane), plane, 1, s.plane.face);
    var fields := [C.Atom, C.PlaneValue(s.plane), C.Atom, C.Items([]), C.Items([]), C.Items([]), C.Items([])];
    M.ChildHolds(C.SketchValue(s), fields, 1, s.plane.face);
  }

  /** The face a sketch stands on is found by the walk, in a loft's sections too. */
  lemma SketchFaceFound(f: Inputs, s: Sketch)
    requires f.MakesTool() && s in f.Sketches() && s.plane.OnFace?
    ensures M.Holds(C.InputsValue(f), s.plane.face)
  {
    SketchFaceHeld(s);
    var v := C.InputsValue(f);
    if f.Loft? {
      var i :| 0 <= i < |f.sections| && f.sections[i] == s;
      var sections := C.Items(C.SketchValues(f.sections));
      M.ChildHolds(sections, C.SketchValues(f.sections), i, s.plane.face);
      assert v.fields[0] == sections;
    }
    M.ChildHolds(v, v.fields, 0, s.plane.face);
  }

  lemma UntilFaceFound(f: Inputs)
    requires f.Extrude? && f.untilFace.Some?
    ensures M.Holds(C.InputsValue(f), f.untilFace.value)
  {
    HoldsItself(f.untilFace.value);
    M.ChildHolds(C.InputsValue(f), C.InputsValue(f).fields, 3, f.untilFace.value);
  }

  /** The selectors a fillet, chamfer, shell or draft names are found by the walk. */
  lemma NamedSelectorFound(f: Inputs, i: nat, s: Selector)
    requires f.Rewrites() && C.InputsValue(f).Model? && i < |C.InputsValue(f).fields|
    requires C.InputsValue(f).fields[i] == C.SelectorValue(s)
    ensures M.Holds(C.InputsValue(f), s)
  {
    HoldsItself(s);
    M.ChildHolds(C.InputsValue(f), C.InputsValue(f).fields, i, s);
  }

  lemma DrawnWasAsked(s: Sketch, contour: Contour, key: C.Capability)
    requires contour in [s.outer] + s.inner && key in KeyOf(Draws(contour))
    ensures M.SketchAsks(s, key)
  {
    assert M.ContourAsks(contour, key);
  }

  lemma PlaneWasAsked(s: Sketch, key: C.Capability)
    requires key in KeyOf(SketchesOn(s.plane))
    ensures M.SketchAsks(s, key)
  {
    match s.plane
    case OnBase(_) => assert key == C.SketchPlaneBase;
    case OnDatum(_) => assert key == C.SketchPlaneDatum;
    case OnFace(_) => assert key == C.SketchPlaneFaceSelector;
    case OnPathStart =>
  }

  lemma DrawingAsked(f: Inputs, s: Sketch, a: Act, key: C.Capability)
    requires f.MakesTool() && s in f.Sketches() && Drawing(f, s, a) && key in KeyOf(a)
    ensures M.FeatureAsks(f, false, key)
  {
    match a
    case Draws(contour) =>
      assert contour in [s.outer] + s.inner;
      DrawnWasAsked(s, contour, key);
    case SketchesOn(_) => PlaneWasAsked(s, key);
    case DrawsIsland => assert M.StatementAsks(s, key);
    case _ =>
  }

  lemma CheckingAsked(d: Document, f: Inputs, s: Sketch, a: Act, key: C.Capability)
    requires f.MakesTool() && s in f.Sketches() && Does(d, ChecksSketch(s), a) && key in KeyOf(a)
    ensures M.FeatureAsks(f, false, key)
  {
    assert M.StatementAsks(s, key);
  }

  lemma FaceAsked(d: Document, f: Inputs, s: Sketch, a: Act, key: C.Capability)
    requires f.MakesTool() && s in f.Sketches() && s.plane.OnFace?
    requires Does(d, FindsFace(s.plane.face), a) && key in KeyOf(a)
    ensures M.FeatureAsks(f, false, key)
  {
    if a.TestsConvexity? {
      SketchFaceFound(f, s);
    } else {
      PlaneWasAsked(s, key);
    }
  }

  lemma MakingAsked(d: Document, f: Inputs, a: Act, key: C.Capability)
    requires Making(d, f, a) && key in KeyOf(a)
    ensures M.FeatureAsks(f, false, key)
  {
    if a.TestsConvexity? {
      UntilFaceFound(f);
    } else if a.ReadsConstruction? {
      assert f.sketch in f.Sketches() && M.StatementAsks(f.sketch, key);
    } else {
      OwnActAsked(d, f, a, key);
    }
  }

  lemma OwnActAsked(d: Document, f: Inputs, a: Act, key: C.Capability)
    requires Making(d, f, a) && key in KeyOf(a) && !a.TestsConvexity? && !a.ReadsConstruction?
    ensures M.KindAsks(f, false, key) || M.ModeAsks(f, key)
  {
  }

  lemma RewritingAsked(f: Inputs, a: Act, key: C.Capability)
    requires f.Rewrites() && Rewriting(f, a) && key in KeyOf(a)
    ensures M.FeatureAsks(f, false, key)
  {
    if a.TestsConvexity? {
      match f
      case Fillet(edges) => NamedSelectorFound(f, 0, edges);
      case Chamfer(edges, _, _, measured) =>
        NamedSelectorFound(f, 0, edges);
        if measured.Some? { NamedSelectorFound(f, 4, measured.value); }
      case Shell(faces, _) => NamedSelectorFound(f, 0, faces);
      case Draft(faces, neutral) => NamedSelectorFound(f, 0, faces); NamedSelectorFound(f, 1, neutral);
    } else {
      assert M.KindAsks(f, false, key);
    }
  }

  /** Whatever a feature's calls are part of, the feature asks for. */
  lemma CallAsked(d: Document, f: Inputs, c: Call, a: Act, key: C.Capability)
    requires Causes(f, c) && Does(d, c, a) && key in KeyOf(a)
    ensures M.FeatureAsks(f, false, key)
  {
    match c
    case ChecksSketch(s) => CheckingAsked(d, f, s, a, key);
    case DrawsSketch(_, s) => DrawingAsked(f, s, a, key);
    case FindsFace(face) =>
      var s :| s in f.Sketches() && s.plane == OnFace(face);
      FaceAsked(d, f, s, a, key);
    case FindsPath(_) => assert M.ModeAsks(f, key);
    case MakesSolid(_) => MakingAsked(d, f, a, key);
    case RewritesBody(_) => RewritingAsked(f, a, key);
    case PlacesCopies(_) => assert M.KindAsks(f, false, key);
    case CombinesSolids(_) => assert M.KindAsks(f, false, key);
  }

  /** In a document the gate lets through, every call of an enabled feature is allowed. */
  lemma EnabledCallsAllowed(d: Document, disabled: set<C.Capability>, f: Feature, c: Call)
    requires forall key :: key in disabled ==> key !in C.Requirements(d)
    requires f in d.features && f.enabled && Causes(f.inputs, c)
    ensures Allowed(d, c, disabled)
  {
    forall a, key | Does(d, c, a) && key in KeyOf(a) ensures key !in disabled {
      CallAsked(d, f.inputs, c, a, key);
      AskedByFeature(d, f, key);
      M.RequirementsExact(d, key);
    }
  }
}
