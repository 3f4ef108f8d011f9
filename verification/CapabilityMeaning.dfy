/** What the single pass collects, read declaratively: a capability is asked for exactly when
    something in the document asks for it, and the reason kept is the first one met. */
module CapabilityMeaning {
  import opened Prelude
  import opened CadDocument
  import opened Capabilities

  predicate Asks(needs: seq<Need>, key: Capability) {
    exists i :: 0 <= i < |needs| && needs[i].capability == key
  }

  /** The reason kept is the first one stated. */
  predicate FirstAsked(needs: seq<Need>, key: Capability, reason: Reason) {
    exists i :: 0 <= i < |needs| && needs[i] == Need(key, reason)
                && forall j :: 0 <= j < i ==> needs[j].capability != key
  }

  lemma {:induction false} FirstReasonsExact(needs: seq<Need>, had: map<Capability, Reason>, key: Capability)
    ensures key in FirstReasons(needs, had) <==> key in had || Asks(needs, key)
    ensures key in had ==> FirstReasons(needs, had)[key] == had[key]
    ensures key !in had && Asks(needs, key) ==> FirstAsked(needs, key, FirstReasons(needs, had)[key])
    decreases |needs|
  {
    if needs != [] {
      var rest := needs[1..];
      var next := if needs[0].capability in had then had else had[needs[0].capability := needs[0].reason];
      FirstReasonsExact(rest, next, key);
      if Asks(rest, key) {
        var i :| 0 <= i < |rest| && rest[i].capability == key;
        assert needs[i + 1].capability == key;
      }
      if key !in had && Asks(needs, key) {
        var reason := FirstReasons(needs, had)[key];
        if needs[0].capability == key {
          assert needs[0] == Need(key, reason);
        } else {
          var j :| 0 <= j < |needs| && needs[j].capability == key;
          assert rest[j - 1].capability == key;
          assert FirstAsked(rest, key, reason);
          var i :| 0 <= i < |rest| && rest[i] == Need(key, reason)
                   && forall j :: 0 <= j < i ==> rest[j].capability != key;
          assert needs[i + 1] == Need(key, reason);
          forall j | 0 <= j < i + 1 ensures needs[j].capability != key {
            if j > 0 { assert rest[j - 1].capability != key; }
          }
        }
      }
    }
  }

  lemma {:induction false} AsksFlatten(chunks: seq<seq<Need>>, key: Capability)
    ensures Asks(Flatten(chunks), key) <==> exists i :: 0 <= i < |chunks| && Asks(chunks[i], key)
  {
    if chunks != [] {
      var last := |chunks| - 1;
      AsksFlatten(chunks[..last], key);
      AsksAppend(Flatten(chunks[..last]), chunks[last], key);
      if Asks(Flatten(chunks[..last]), key) {
        var i :| 0 <= i < last && Asks(chunks[..last][i], key);
        assert Asks(chunks[i], key);
      }
      if i :| 0 <= i < last && Asks(chunks[i], key) {
        assert Asks(chunks[..last][i], key);
      }
    }
  }

  lemma AsksAppend(a: seq<Need>, b: seq<Need>, key: Capability)
    ensures Asks(a + b, key) <==> Asks(a, key) || Asks(b, key)
  {
    if Asks(a, key) {
      var i :| 0 <= i < |a| && a[i].capability == key;
      assert (a + b)[i].capability == key;
    }
    if Asks(b, key) {
      var i :| 0 <= i < |b| && b[i].capability == key;
      assert (a + b)[|a| + i].capability == key;
    }
  }

  lemma AsksWhen(condition: bool, key: Capability, reason: Reason, asked: Capability)
    ensures Asks(When(condition, key, reason), asked) <==> condition && key == asked
  {
    if condition { assert When(condition, key, reason)[0].capability == key; }
  }

  lemma AsksOne(key: Capability, reason: Reason, asked: Capability)
    ensures Asks([Need(key, reason)], asked) <==> key == asked
  {
    assert [Need(key, reason)][0].capability == key;
  }

  // ----- one feature, key by key ---------------------------------------------------------

  predicate ModeAsks(f: Inputs, key: Capability) {
    match key
    case FeatureExtrudeSymmetric => f.Extrude? && f.both
    case FeatureExtrudeDraft => f.Extrude? && MayLean(f.taper)
    case FeatureExtrudeUntilFace => f.Extrude? && f.untilFace.Some?
    case FeatureSweepHelix => f.Sweep? && f.path.HelicalPath?
    case FeatureSweepHelixConical => f.Sweep? && f.path.HelicalPath? && MayLean(f.path.cone)
    case FeatureSweepSpatialPath => f.Sweep? && f.path.SpatialPath?
    case FeatureBodyNew => f.StartsBody()
    case _ => false
  }

  /** `fused`: an enabled additive feature stands before this one. */
  predicate KindAsks(f: Inputs, fused: bool, key: Capability) {
    match key
    case FeatureHoleSimpleThrough => f.Extrude? && f.cut
    case SolidRectangularPrism => f.Extrude? && !f.cut
    case FeatureBossAdditive => f.Extrude? && !f.cut && !f.newBody && fused
    case SolidRevolve => f.Revolve? && !f.cut
    case CutRevolve => f.Revolve? && f.cut
    case SolidSweep => f.Sweep? && !f.cut
    case CutSweep => f.Sweep? && f.cut
    case SolidLoft => f.Loft? && !f.cut
    case CutLoft => f.Loft? && f.cut
    case SketchPlaneDatum => f.Datum?
    case FeaturePatternLinear => f.Pattern? && f.spec.Linear?
    case FeaturePatternCircular => f.Pattern? && f.spec.Circular?
    case FeatureMirror => f.Pattern? && f.spec.Mirror?
    case FeatureFilletConstant => f.Fillet?
    case FeatureChamferAsymmetric => f.Chamfer? && (f.second.Some? || f.angle.Some?)
    case FeatureChamferEqual => f.Chamfer? && f.second.None? && f.angle.None?
    case FeatureShellInward => f.Shell? && f.inward
    case FeatureShellOutward => f.Shell? && !f.inward
    case FeatureDraft => f.Draft?
    case BooleanUnion => f.Boolean? && f.op.Union?
    case BooleanSubtract => f.Boolean? && f.op.Subtract?
    case BooleanIntersect => f.Boolean? && f.op.Intersect?
    case _ => false
  }

  predicate ContourAsks(c: Contour, key: Capability) {
    match key
    case SolidContourProfile => c.PathContour?
    case SketchArc => c.PathContour? && ArcSegment in c.segments
    case SketchSlot => c.Slot?
    case SketchRegularPolygon => c.RegularPolygon?
    case _ => false
  }

  predicate StatementAsks(s: Sketch, key: Capability) {
    (key == SketchIslands && s.inner != []) || (key == SketchConstruction && s.construction != [])
    || (key == SketchConstraints && s.constraints != []) || (key == SketchDimensions && s.dimensions != [])
  }

  predicate PlaneAsks(s: Sketch, key: Capability) {
    (key == SketchPlaneBase && s.plane.OnBase?) || (key == SketchPlaneDatum && s.plane.OnDatum?)
    || (key == SketchPlaneFaceSelector && s.plane.OnFace?)
  }

  predicate SketchAsks(s: Sketch, key: Capability) {
    PlaneAsks(s, key) || StatementAsks(s, key) || exists c :: c in [s.outer] + s.inner && ContourAsks(c, key)
  }

  lemma AsksThree(a: seq<Need>, b: seq<Need>, c: seq<Need>, key: Capability)
    ensures Asks(Flatten([a, b, c]), key) <==> Asks(a, key) || Asks(b, key) || Asks(c, key)
  {
    var chunks := [a, b, c];
    AsksFlatten(chunks, key);
    assert chunks[0] == a && chunks[1] == b && chunks[2] == c;
  }

  lemma AsksFour(a: seq<Need>, b: seq<Need>, c: seq<Need>, d: seq<Need>, key: Capability)
    ensures Asks(Flatten([a, b, c, d]), key) <==> Asks(a, key) || Asks(b, key) || Asks(c, key) || Asks(d, key)
  {
    var chunks := [a, b, c, d];
    AsksFlatten(chunks, key);
    assert chunks[0] == a && chunks[1] == b && chunks[2] == c && chunks[3] == d;
  }

  lemma ExtrudeNeedsExact(f: Inputs, reason: Reason, key: Capability)
    ensures Asks(ExtrudeNeeds(f, reason), key) <==>
            f.Extrude? && ((key == FeatureExtrudeSymmetric && f.both)
                           || (key == FeatureExtrudeDraft && MayLean(f.taper))
                           || (key == FeatureExtrudeUntilFace && f.untilFace.Some?))
  {
    AsksThree(When(f.Extrude? && f.both, FeatureExtrudeSymmetric, reason),
              When(f.Extrude? && MayLean(f.taper), FeatureExtrudeDraft, reason),
              When(f.Extrude? && f.untilFace.Some?, FeatureExtrudeUntilFace, reason), key);
    AsksWhen(f.Extrude? && f.both, FeatureExtrudeSymmetric, reason, key);
    AsksWhen(f.Extrude? && MayLean(f.taper), FeatureExtrudeDraft, reason, key);
    AsksWhen(f.Extrude? && f.untilFace.Some?, FeatureExtrudeUntilFace, reason, key);
  }

  lemma PathNeedsExact(f: Inputs, reason: Reason, key: Capability)
    ensures Asks(PathNeeds(f, reason), key) <==>
            f.Sweep? && ((key == FeatureSweepHelix && f.path.HelicalPath?)
                         || (key == FeatureSweepHelixConical && f.path.HelicalPath? && MayLean(f.path.cone))
                         || (key == FeatureSweepSpatialPath && f.path.SpatialPath?))
  {
    AsksThree(When(f.Sweep? && f.path.HelicalPath?, FeatureSweepHelix, reason),
              When(f.Sweep? && f.path.HelicalPath? && MayLean(f.path.cone), FeatureSweepHelixConical, reason),
              When(f.Sweep? && f.path.SpatialPath?, FeatureSweepSpatialPath, reason), key);
    AsksWhen(f.Sweep? && f.path.HelicalPath?, FeatureSweepHelix, reason, key);
    AsksWhen(f.Sweep? && f.path.HelicalPath? && MayLean(f.path.cone), FeatureSweepHelixConical, reason, key);
    AsksWhen(f.Sweep? && f.path.SpatialPath?, FeatureSweepSpatialPath, reason, key);
  }

  lemma ModeNeedsExact(f: Inputs, reason: Reason, key: Capability)
    ensures Asks(ModeNeeds(f, reason), key) <==> ModeAsks(f, key)
  {
    AsksThree(ExtrudeNeeds(f, reason), PathNeeds(f, reason), When(f.StartsBody(), FeatureBodyNew, reason), key);
    ExtrudeNeedsExact(f, reason, key);
    PathNeedsExact(f, reason, key);
    AsksWhen(f.StartsBody(), FeatureBodyNew, reason, key);
  }

  /** The one key that names the operation. */
  function KindOf(f: Inputs): Capability {
    match f
    case Extrude(cut, _, _, _, _, _, _, _) => if cut then FeatureHoleSimpleThrough else SolidRectangularPrism
    case Revolve(cut, _, _, _, _, _) => if cut then CutRevolve else SolidRevolve
    case Sweep(cut, _, _, _, _) => if cut then CutSweep else SolidSweep
    case Loft(cut, _, _, _) => if cut then CutLoft else SolidLoft
    case Datum(_, _, _) => SketchPlaneDatum
    case Pattern(_, spec, _) =>
      (match spec case Linear(_) => FeaturePatternLinear case Circular(_) => FeaturePatternCircular
       case Mirror => FeatureMirror)
    case Fillet(_) => FeatureFilletConstant
    case Chamfer(_, second, angle, _) =>
      if second.Some? || angle.Some? then FeatureChamferAsymmetric else FeatureChamferEqual
    case Shell(_, inward) => if inward then FeatureShellInward else FeatureShellOutward
    case Draft(_, _) => FeatureDraft
    case Boolean(op, _, _, _) => match op case Union => BooleanUnion case Subtract => BooleanSubtract
                                 case Intersect => BooleanIntersect
  }

  predicate Fuses(f: Inputs, fused: bool) { f.Extrude? && !f.cut && !f.newBody && fused }

  lemma KindAsksTool(f: Inputs, fused: bool, key: Capability)
    requires f.MakesTool()
    ensures KindAsks(f, fused, key) <==> key == KindOf(f) || (key == FeatureBossAdditive && Fuses(f, fused))
  {
  }

  lemma KindAsksOther(f: Inputs, fused: bool, key: Capability)
    requires !f.MakesTool()
    ensures KindAsks(f, fused, key) <==> key == KindOf(f)
  {
  }

  lemma KindAsksExact(f: Inputs, fused: bool, key: Capability)
    ensures KindAsks(f, fused, key) <==> key == KindOf(f) || (key == FeatureBossAdditive && Fuses(f, fused))
  {
    if f.MakesTool() { KindAsksTool(f, fused, key); } else { KindAsksOther(f, fused, key); }
  }

  lemma KindNeedsList(f: Inputs, solids: nat, reason: Reason)
    ensures KindNeeds(f, solids, reason)
         == [Need(KindOf(f), reason)] + When(Fuses(f, solids > 0), FeatureBossAdditive, reason)
  {
  }

  lemma KindNeedsExact(f: Inputs, solids: nat, reason: Reason, key: Capability)
    ensures Asks(KindNeeds(f, solids, reason), key) <==> KindAsks(f, solids > 0, key)
  {
    KindAsksExact(f, solids > 0, key);
    KindNeedsList(f, solids, reason);
    AsksAppend([Need(KindOf(f), reason)], When(Fuses(f, solids > 0), FeatureBossAdditive, reason), key);
    AsksOne(KindOf(f), reason, key);
    AsksWhen(Fuses(f, solids > 0), FeatureBossAdditive, reason, key);
  }

  lemma ContourNeedsExact(c: Contour, reason: Reason, key: Capability)
    ensures Asks(ContourNeeds(c, reason), key) <==> ContourAsks(c, key)
  {
    if c.PathContour? {
      AsksAppend([Need(SolidContourProfile, reason)], When(ArcSegment in c.segments, SketchArc, reason), key);
      AsksOne(SolidContourProfile, reason, key);
      AsksWhen(ArcSegment in c.segments, SketchArc, reason, key);
    } else if c.Slot? {
      AsksOne(SketchSlot, reason, key);
    } else if c.RegularPolygon? {
      AsksOne(SketchRegularPolygon, reason, key);
    }
  }

  lemma ContoursNeedsExact(cs: seq<Contour>, reason: Reason, key: Capability)
    ensures Asks(ContoursNeeds(cs, reason), key) <==> exists c :: c in cs && ContourAsks(c, key)
  {
    var chunks := seq(|cs|, i requires 0 <= i < |cs| => ContourNeeds(cs[i], reason));
    AsksFlatten(chunks, key);
    forall i | 0 <= i < |cs| ensures Asks(chunks[i], key) <==> ContourAsks(cs[i], key) {
      ContourNeedsExact(cs[i], reason, key);
    }
  }

  lemma StatementNeedsExact(s: Sketch, reason: Reason, key: Capability)
    ensures Asks(StatementNeeds(s, reason), key) <==> StatementAsks(s, key)
  {
    AsksFour(When(s.inner != [], SketchIslands, reason), When(s.construction != [], SketchConstruction, reason),
             When(s.constraints != [], SketchConstraints, reason),
             When(s.dimensions != [], SketchDimensions, reason), key);
    AsksWhen(s.inner != [], SketchIslands, reason, key);
    AsksWhen(s.construction != [], SketchConstruction, reason, key);
    AsksWhen(s.constraints != [], SketchConstraints, reason, key);
    AsksWhen(s.dimensions != [], SketchDimensions, reason, key);
  }

  lemma PlaneNeedsExact(s: Sketch, key: Capability)
    ensures Asks(PlaneNeeds(s), key) <==> PlaneAsks(s, key)
  {
    if !s.plane.OnPathStart? { AsksOne(PlaneNeeds(s)[0].capability, InSketch(s.id), key); }
  }

  lemma SketchNeedsExact(s: Sketch, key: Capability)
    ensures Asks(SketchNeeds(s), key) <==> SketchAsks(s, key)
  {
    var reason := InSketch(s.id);
    AsksThree(PlaneNeeds(s), StatementNeeds(s, reason), ContoursNeeds([s.outer] + s.inner, reason), key);
    PlaneNeedsExact(s, key);
    StatementNeedsExact(s, reason, key);
    ContoursNeedsExact([s.outer] + s.inner, reason, key);
  }

  lemma SketchesNeedsExact(sketches: seq<Sketch>, key: Capability)
    ensures Asks(SketchesNeeds(sketches), key) <==> exists s :: s in sketches && SketchAsks(s, key)
  {
    var chunks := seq(|sketches|, i requires 0 <= i < |sketches| => SketchNeeds(sketches[i]));
    AsksFlatten(chunks, key);
    forall i | 0 <= i < |sketches| ensures Asks(chunks[i], key) <==> SketchAsks(sketches[i], key) {
      SketchNeedsExact(sketches[i], key);
    }
  }

  // ----- the selector walk ---------------------------------------------------------------

  /** The selector found by following field and item positions down from `v`. */
  predicate SelectorAt(v: Value, path: seq<nat>, s: Selector)
    decreases |path|
  {
    match v
    case SelectorValue(found) => path == [] && found == s
    case Model(fields) => path != [] && path[0] < |fields| && SelectorAt(fields[path[0]], path[1..], s)
    case Items(items) => path != [] && path[0] < |items| && SelectorAt(items[path[0]], path[1..], s)
    case Atom => false
  }

  ghost predicate Holds(v: Value, s: Selector) {
    exists path :: SelectorAt(v, path, s)
  }

  lemma ChildHolds(v: Value, children: seq<Value>, i: nat, s: Selector)
    requires v == Model(children) || v == Items(children)
    requires i < |children| && Holds(children[i], s)
    ensures Holds(v, s)
  {
    var path :| SelectorAt(children[i], path, s);
    assert ([i] + path)[1..] == path;
    assert SelectorAt(v, [i] + path, s);
  }

  /** The walk yields a selector exactly when one stands at some path, however deep. */
  lemma {:induction false} WalkFindsEverySelector(v: Value, s: Selector)
    ensures s in SelectorsOf(v) <==> Holds(v, s)
    decreases v, 1
  {
    match v
    case SelectorValue(found) =>
      if found == s { assert SelectorAt(v, [], s); }
    case Model(fields) => WalkFindsBelow(v, fields, s);
    case Items(items) => WalkFindsBelow(v, items, s);
    case Atom =>
  }

  lemma {:induction false} WalkFindsBelow(v: Value, children: seq<Value>, s: Selector)
    requires v == Model(children) || v == Items(children)
    ensures s in SelectorsOfAll(children) <==> Holds(v, s)
    decreases v, 0
  {
    WalkFindsInEvery(children, s);
    if i :| 0 <= i < |children| && Holds(children[i], s) { ChildHolds(v, children, i, s); }
    if Holds(v, s) {
      var path :| SelectorAt(v, path, s);
      assert SelectorAt(children[path[0]], path[1..], s);
    }
  }

  lemma {:induction false} WalkFindsInEvery(vs: seq<Value>, s: Selector)
    ensures s in SelectorsOfAll(vs) <==> exists i :: 0 <= i < |vs| && Holds(vs[i], s)
    decreases vs, 0
  {
    if vs != [] {
      WalkFindsEverySelector(vs[0], s);
      WalkFindsInEvery(vs[1..], s);
      if i :| 0 <= i < |vs| && Holds(vs[i], s) {
        if i > 0 { assert vs[1..][i - 1] == vs[i]; }
      }
      if i :| 0 <= i < |vs[1..]| && Holds(vs[1..][i], s) { assert vs[i + 1] == vs[1..][i]; }
    }
  }

  lemma ConvexityNeedsExact(selectors: seq<Selector>, key: Capability)
    ensures Asks(ConvexityNeeds(selectors), key)
            <==> key == SelectorEdgeConvexity && exists s :: s in selectors && s.convexity
  {
    var chunks := seq(|selectors|, i requires 0 <= i < |selectors| =>
      When(selectors[i].convexity, SelectorEdgeConvexity, InSelector(selectors[i].id)));
    AsksFlatten(chunks, key);
    forall i | 0 <= i < |selectors|
      ensures Asks(chunks[i], key) <==> selectors[i].convexity && key == SelectorEdgeConvexity
    {
      AsksWhen(selectors[i].convexity, SelectorEdgeConvexity, InSelector(selectors[i].id), key);
    }
  }

  // ----- the document --------------------------------------------------------------------

  /** Something in the feature asks for the key: the declarative reading of one feature. */
  ghost predicate FeatureAsks(f: Inputs, fused: bool, key: Capability) {
    || ModeAsks(f, key)
    || KindAsks(f, fused, key)
    || (key == SelectorEdgeConvexity && exists s :: Holds(InputsValue(f), s) && s.convexity)
    || exists s :: s in f.Sketches() && SketchAsks(s, key)
  }

  lemma FeatureNeedsExact(f: Feature, solids: nat, key: Capability)
    ensures Asks(FeatureNeeds(f, solids), key) <==> FeatureAsks(f.inputs, solids > 0, key)
  {
    var reason, selectors := InFeature(f.id), SelectorsOf(InputsValue(f.inputs));
    AsksFour(ModeNeeds(f.inputs, reason), KindNeeds(f.inputs, solids, reason), ConvexityNeeds(selectors),
             SketchesNeeds(f.inputs.Sketches()), key);
    ModeNeedsExact(f.inputs, reason, key);
    KindNeedsExact(f.inputs, solids, reason, key);
    ConvexityNeedsExact(selectors, key);
    SketchesNeedsExact(f.inputs.Sketches(), key);
    forall s ensures s in selectors <==> Holds(InputsValue(f.inputs), s) {
      WalkFindsEverySelector(InputsValue(f.inputs), s);
    }
  }

  predicate AdditiveBefore(d: Document, n: nat)
    requires n <= |d.features|
  {
    exists i :: 0 <= i < n && d.features[i].enabled && d.features[i].inputs.IsAdditive()
  }

  lemma {:induction false} CounterCountsAdditive(d: Document, n: nat)
    requires n <= |d.features|
    ensures SolidsBefore(d, n) > 0 <==> AdditiveBefore(d, n)
  {
    if n > 0 {
      CounterCountsAdditive(d, n - 1);
      if d.features[n - 1].enabled && d.features[n - 1].inputs.IsAdditive() { assert AdditiveBefore(d, n); }
    }
  }

  /** What every build needs, and the checks the document states expectations for. */
  predicate BuildAsks(d: Document, key: Capability) {
    || key in {ExportStep, ExportStl, ValidateManifold, ValidateBoundingBox, ValidateTopology}
    || (key == ValidateHoleCount && ThroughHoleCount in d.expectations)
    || (key == ValidateSurfaceFaceCount && SurfaceFaceCount in d.expectations)
  }

  ghost predicate EnabledAsks(d: Document, i: nat, key: Capability)
    requires i < |d.features|
  {
    d.features[i].enabled && FeatureAsks(d.features[i].inputs, AdditiveBefore(d, i), key)
  }

  lemma AlwaysAsked(key: Capability)
    ensures Asks(ALWAYS, key) <==>
            key in {ExportStep, ExportStl, ValidateManifold, ValidateBoundingBox, ValidateTopology}
  {
    assert ALWAYS[0].capability == ExportStep && ALWAYS[1].capability == ExportStl
           && ALWAYS[2].capability == ValidateManifold && ALWAYS[3].capability == ValidateBoundingBox
           && ALWAYS[4].capability == ValidateTopology;
  }

  lemma ExpectedExact(d: Document, key: Capability)
    ensures Asks(Expected(d), key) <==> BuildAsks(d, key)
  {
    AsksThree(ALWAYS, When(ThroughHoleCount in d.expectations, ValidateHoleCount, StatedExpectation),
              When(SurfaceFaceCount in d.expectations, ValidateSurfaceFaceCount, StatedExpectation), key);
    AsksWhen(ThroughHoleCount in d.expectations, ValidateHoleCount, StatedExpectation, key);
    AsksWhen(SurfaceFaceCount in d.expectations, ValidateSurfaceFaceCount, StatedExpectation, key);
    AlwaysAsked(key);
  }

  lemma NeedsAtExact(d: Document, i: nat, key: Capability)
    requires i < |d.features|
    ensures Asks(EachNeeds(d, |d.features|)[i], key) <==> EnabledAsks(d, i, key)
  {
    FeatureNeedsExact(d.features[i], SolidsBefore(d, i), key);
    CounterCountsAdditive(d, i);
  }

  /** The one pass, with its counter and its first-come dictionary, collects a capability exactly
      when the build or an enabled feature asks for it, and keeps the first reason met. */
  lemma RequirementsExact(d: Document, key: Capability)
    ensures key in Requirements(d) <==>
            BuildAsks(d, key) || exists i :: 0 <= i < |d.features| && EnabledAsks(d, i, key)
    ensures key in Requirements(d) ==> FirstAsked(NeedsTo(d, |d.features|), key, Requirements(d)[key])
  {
    var chunks := EachNeeds(d, |d.features|);
    FirstReasonsExact(NeedsTo(d, |d.features|), map[], key);
    AsksAppend(Expected(d), Flatten(chunks), key);
    AsksFlatten(chunks, key);
    ExpectedExact(d, key);
    forall i | 0 <= i < |d.features| ensures Asks(chunks[i], key) <==> EnabledAsks(d, i, key) {
      NeedsAtExact(d, i, key);
    }
  }

  lemma NoSketchAsksBoss(s: Sketch)
    ensures !SketchAsks(s, FeatureBossAdditive)
  {
  }

  lemma BossAsksExact(f: Inputs, fused: bool)
    ensures FeatureAsks(f, fused, FeatureBossAdditive) <==> Fuses(f, fused)
  {
    KindAsksExact(f, fused, FeatureBossAdditive);
    forall s | s in f.Sketches() ensures !SketchAsks(s, FeatureBossAdditive) { NoSketchAsksBoss(s); }
  }

  /** The boss key: exactly when an enabled additive extrusion that starts no body of its own
      follows another enabled additive feature. */
  lemma BossKeyExact(d: Document)
    ensures FeatureBossAdditive in Requirements(d) <==>
            exists i :: 0 <= i < |d.features| && d.features[i].enabled
                        && Fuses(d.features[i].inputs, AdditiveBefore(d, i))
  {
    RequirementsExact(d, FeatureBossAdditive);
    forall i | 0 <= i < |d.features|
      ensures EnabledAsks(d, i, FeatureBossAdditive) <==>
              d.features[i].enabled && Fuses(d.features[i].inputs, AdditiveBefore(d, i))
    {
      BossAsksExact(d.features[i].inputs, AdditiveBefore(d, i));
    }
  }
}
