/** Nothing that is switched off matters: engines that agree wherever no switch is off build the same.
    The build is the interpreter's own, on kernels that may do anything at all with a call that a
    switch should have stopped. */
module GateIndependence {
  import opened Prelude
  import opened Solids
  import opened CadDocument
  import opened KernelModel
  import opened BodyTable
  import opened Booleans
  import opened Adapter
  import opened GateSoundness
  import C = Capabilities

  /** The two kernels answer alike every call on sketches and planes that no switch stops. */
  ghost predicate SameSketching(k: Kernel, k': Kernel, d: Document, disabled: set<C.Capability>) {
    && (forall s :: Allowed(d, ChecksSketch(s), disabled) ==> k.assertions(s) == k'.assertions(s))
    && (forall f, s :: Allowed(d, DrawsSketch(f, s), disabled) ==> k.face(f, s) == k'.face(f, s))
    && (forall face, body :: Allowed(d, FindsFace(face), disabled) ==>
          k.facePlane(face, body) == k'.facePlane(face, body))
    && (forall f: Feature :: Allowed(d, FindsPath(f.inputs), disabled) ==> k.pathPlane(f) == k'.pathPlane(f))
  }

  ghost predicate SameTools(k: Kernel, k': Kernel, d: Document, disabled: set<C.Capability>) {
    && (forall f: Feature, at :: Allowed(d, MakesSolid(f.inputs), disabled) ==> k.profile(f, at) == k'.profile(f, at))
    && (forall f: Feature, at, part :: Allowed(d, MakesSolid(f.inputs), disabled) ==>
          k.solid(f, at, part) == k'.solid(f, at, part))
    && (forall f: Feature, body :: Allowed(d, RewritesBody(f.inputs), disabled) ==>
          k.rewrite(f, body) == k'.rewrite(f, body))
  }

  ghost predicate SamePatterns(k: Kernel, k': Kernel, d: Document, disabled: set<C.Capability>) {
    && (forall f: Feature :: f.inputs.Pattern? && Allowed(d, PlacesCopies(f.inputs.spec), disabled) ==>
          k.spacing(f) == k'.spacing(f))
    && (forall f: Feature, n, body :: f.inputs.Pattern? && Allowed(d, PlacesCopies(f.inputs.spec), disabled) ==>
          k.place(f, n, body) == k'.place(f, n, body))
  }

  ghost predicate SameBooleans(k: Kernel, k': Kernel, d: Document, disabled: set<C.Capability>) {
    && (forall op, a, b :: Allowed(d, CombinesSolids(op), disabled) ==> k.refuses(op, a, b) == k'.refuses(op, a, b))
    && k.hasVolume == k'.hasVolume
  }

  ghost predicate Agree(k: Kernel, k': Kernel, d: Document, disabled: set<C.Capability>) {
    && SameSketching(k, k', d, disabled) && SameTools(k, k', d, disabled)
    && SamePatterns(k, k', d, disabled) && SameBooleans(k, k', d, disabled)
  }

  ghost predicate FeatureAllowed(d: Document, f: Inputs, disabled: set<C.Capability>) {
    forall c :: Causes(f, c) ==> Allowed(d, c, disabled)
  }

  /** Every call of every feature that is on. */
  ghost predicate AllAllowed(d: Document, disabled: set<C.Capability>) {
    forall f :: f in d.features && f.enabled ==> FeatureAllowed(d, f.inputs, disabled)
  }

  // ----- tools ---------------------------------------------------------------------------

  lemma SamePlane(k: Kernel, k': Kernel, d: Document, disabled: set<C.Capability>, f: Feature, s: Sketch,
                  planes: map<string, Plane>, part: Option<Solid>, carrier: Option<Solid>)
    requires SameSketching(k, k', d, disabled) && FeatureAllowed(d, f.inputs, disabled)
    requires f.inputs.MakesTool() && s in f.inputs.Sketches()
    ensures SketchPlaneOf(k, f, s, planes, part, carrier) == SketchPlaneOf(k', f, s, planes, part, carrier)
  {
    if f.inputs.Sweep? && f.inputs.path.HelicalPath? {
      assert Causes(f.inputs, FindsPath(f.inputs));
    } else if s.plane.OnFace? {
      assert Causes(f.inputs, FindsFace(s.plane.face));
    }
  }

  lemma {:induction false} SamePlaced(k: Kernel, k': Kernel, d: Document, disabled: set<C.Capability>, f: Feature,
                                      n: nat, planes: map<string, Plane>, part: Option<Solid>,
                                      carriers: seq<Option<Solid>>)
    requires SameSketching(k, k', d, disabled) && FeatureAllowed(d, f.inputs, disabled) && f.inputs.MakesTool()
    requires n <= |f.inputs.Sketches()| == |carriers|
    ensures Placed(k, f, n, planes, part, carriers) == Placed(k', f, n, planes, part, carriers)
  {
    if n > 0 {
      var s := f.inputs.Sketches()[n - 1];
      SamePlaced(k, k', d, disabled, f, n - 1, planes, part, carriers);
      SamePlane(k, k', d, disabled, f, s, planes, part, carriers[n - 1]);
      assert Causes(f.inputs, ChecksSketch(s)) && Causes(f.inputs, DrawsSketch(f.inputs, s));
    }
  }

  lemma SameTool(k: Kernel, k': Kernel, d: Document, disabled: set<C.Capability>, f: Feature, part: Option<Solid>,
                 planes: map<string, Plane>, carriers: seq<Option<Solid>>)
    requires Agree(k, k', d, disabled) && FeatureAllowed(d, f.inputs, disabled)
    requires |carriers| == |f.inputs.Sketches()|
    ensures ToolOf(k, f, part, planes, carriers) == ToolOf(k', f, part, planes, carriers)
  {
    if f.inputs.MakesTool() {
      SamePlaced(k, k', d, disabled, f, |carriers|, planes, part, carriers);
      assert Causes(f.inputs, MakesSolid(f.inputs));
    }
  }

  // ----- patterns ------------------------------------------------------------------------

  lemma {:induction false} SameTogether(k: Kernel, k': Kernel, d: Document, disabled: set<C.Capability>, f: Feature,
                                        ordinals: seq<nat>, solid: Solid)
    requires SamePatterns(k, k', d, disabled) && f.inputs.Pattern? && Allowed(d, PlacesCopies(f.inputs.spec), disabled)
    ensures Together(k, f, ordinals, solid) == Together(k', f, ordinals, solid)
  {
    if ordinals != [] { SameTogether(k, k', d, disabled, f, ordinals[..|ordinals| - 1], solid); }
  }

  lemma {:induction false} SameStamp(k: Kernel, k': Kernel, d: Document, disabled: set<C.Capability>, f: Feature,
                                     ordinals: seq<nat>, part: Solid, solid: Solid, cut: bool)
    requires SamePatterns(k, k', d, disabled) && f.inputs.Pattern? && Allowed(d, PlacesCopies(f.inputs.spec), disabled)
    ensures Stamp(k, f, ordinals, part, solid, cut) == Stamp(k', f, ordinals, part, solid, cut)
  {
    if ordinals != [] { SameStamp(k, k', d, disabled, f, ordinals[..|ordinals| - 1], part, solid, cut); }
  }

  lemma SourceAllowed(d: Document, disabled: set<C.Capability>, name: string)
    requires AllAllowed(d, disabled) && name in Sources(d.features) && Sources(d.features)[name].enabled
    ensures FeatureAllowed(d, Sources(d.features)[name].inputs, disabled)
  {
    SourcesAreFeatures(d.features, name);
  }

  /** A pattern repeats what is on: the chain stops at the first source that is not. */
  lemma {:induction false} SameRepeated(k: Kernel, k': Kernel, d: Document, disabled: set<C.Capability>, f: Feature,
                                        part: Solid, planes: map<string, Plane>, seen: set<string>)
    requires Agree(k, k', d, disabled) && AllAllowed(d, disabled) && f.inputs.Pattern?
    ensures Repeated(k, Sources(d.features), f, part, planes, seen)
         == Repeated(k', Sources(d.features), f, part, planes, seen)
    decreases Sources(d.features).Keys - seen
  {
    var sources := Sources(d.features);
    if f.inputs.of in sources && sources[f.inputs.of].enabled {
      var source := sources[f.inputs.of];
      SourceAllowed(d, disabled, f.inputs.of);
      if !source.inputs.Pattern? {
        SameTool(k, k', d, disabled, source, Some(part), planes, Unnamed(|source.inputs.Sketches()|));
      } else if f.inputs.of !in seen {
        SameRepeated(k, k', d, disabled, source, part, planes, seen + {f.inputs.of});
        assert Causes(source.inputs, PlacesCopies(source.inputs.spec));
        var made := Repeated(k, sources, source, part, planes, seen + {f.inputs.of});
        if made.Ok? {
          SameTogether(k, k', d, disabled, source, Ordinals(source.inputs, Count(source.inputs.spec)), made.value.0);
        }
      }
    }
  }

  lemma SamePatterned(k: Kernel, k': Kernel, d: Document, disabled: set<C.Capability>, f: Feature, part: Solid,
                      planes: map<string, Plane>)
    requires Agree(k, k', d, disabled) && AllAllowed(d, disabled) && f.inputs.Pattern?
    requires FeatureAllowed(d, f.inputs, disabled)
    ensures Patterned(k, Sources(d.features), f, part, planes) == Patterned(k', Sources(d.features), f, part, planes)
  {
    SameRepeated(k, k', d, disabled, f, part, planes, {});
    assert Causes(f.inputs, PlacesCopies(f.inputs.spec));
    var made, all := Repeated(k, Sources(d.features), f, part, planes, {}), Ordinals(f.inputs, Count(f.inputs.spec));
    if made.Ok? {
      SameStamp(k, k', d, disabled, f, if all == [] then [] else all[1..], part, made.value.0, made.value.1);
    }
  }

  // ----- booleans ------------------------------------------------------------------------

  lemma {:induction false} SameFold(k: Kernel, k': Kernel, d: Document, disabled: set<C.Capability>, op: BooleanOp,
                                    target: Solid, tools: seq<Solid>)
    requires SameBooleans(k, k', d, disabled) && Allowed(d, CombinesSolids(op), disabled)
    ensures Fold(k, op, target, tools) == Fold(k', op, target, tools)
    decreases |tools|
  {
    if tools != [] { SameFold(k, k', d, disabled, op, target, tools[..|tools| - 1]); }
  }

  lemma SameCombine(k: Kernel, k': Kernel, d: Document, disabled: set<C.Capability>, f: Inputs, t: Table)
    requires Agree(k, k', d, disabled) && f.Boolean? && FeatureAllowed(d, f, disabled)
    ensures Combine(k, f, t) == Combine(k', f, t)
  {
    assert Causes(f, CombinesSolids(f.op));
    if FirstNamed(t.bodies, f.target).Some? && LocateAll(t, f.tools).Ok? {
      SameFold(k, k', d, disabled, f.op, t.bodies[FirstNamed(t.bodies, f.target).value].solid,
               SolidsAt(t, LocateAll(t, f.tools).value));
    }
  }

  // ----- steps ---------------------------------------------------------------------------

  lemma SameSolid(k: Kernel, k': Kernel, d: Document, disabled: set<C.Capability>, f: Feature, m: Machine)
    requires Agree(k, k', d, disabled) && FeatureAllowed(d, f.inputs, disabled)
    requires f.inputs.MakesTool() && ActiveOk(m.table)
    ensures ApplySolid(k, f, m) == ApplySolid(k', f, m)
  {
    var t := m.table;
    var at := if f.inputs.StartsBody() then Ok(None) else Locate(t, f.inputs.Source());
    if at.Ok? {
      var base := if at.value.None? then None else Some(t.bodies[at.value.value].solid);
      SameTool(k, k', d, disabled, f, base, m.planes, Carriers(t, f.inputs.Sketches()));
    }
  }

  lemma SamePattern(k: Kernel, k': Kernel, d: Document, disabled: set<C.Capability>, f: Feature, m: Machine)
    requires Agree(k, k', d, disabled) && AllAllowed(d, disabled) && FeatureAllowed(d, f.inputs, disabled)
    requires f.inputs.Pattern? && ActiveOk(m.table)
    ensures ApplyPattern(k, Sources(d.features), f, m) == ApplyPattern(k', Sources(d.features), f, m)
  {
    var at := PatternTarget(Sources(d.features), f, m.table);
    if at.Ok? { SamePatterned(k, k', d, disabled, f, m.table.bodies[at.value].solid, m.planes); }
  }

  lemma SameRewrite(k: Kernel, k': Kernel, d: Document, disabled: set<C.Capability>, f: Feature, t: Table)
    requires Agree(k, k', d, disabled) && FeatureAllowed(d, f.inputs, disabled) && f.inputs.Rewrites() && ActiveOk(t)
    ensures ApplyRewrite(k, f, t) == ApplyRewrite(k', f, t)
  {
    assert Causes(f.inputs, RewritesBody(f.inputs));
  }

  lemma SameStep(k: Kernel, k': Kernel, d: Document, disabled: set<C.Capability>, f: Feature, m: Machine)
    requires Agree(k, k', d, disabled) && AllAllowed(d, disabled) && f in d.features && ActiveOk(m.table)
    ensures Step(k, d, m, f) == Step(k', d, m, f)
  {
    if f.enabled {
      if f.inputs.MakesTool() { SameSolid(k, k', d, disabled, f, m); }
      else if f.inputs.Pattern? { SamePattern(k, k', d, disabled, f, m); }
      else if f.inputs.Boolean? { SameCombine(k, k', d, disabled, f.inputs, m.table); }
      else if f.inputs.Rewrites() { SameRewrite(k, k', d, disabled, f, m.table); }
    }
  }

  lemma {:induction false} SameRun(k: Kernel, k': Kernel, d: Document, disabled: set<C.Capability>, n: nat)
    requires Agree(k, k', d, disabled) && AllAllowed(d, disabled) && n <= |d.features|
    ensures RunTo(k, d, n) == RunTo(k', d, n)
  {
    if n > 0 {
      SameRun(k, k', d, disabled, n - 1);
      if RunTo(k, d, n - 1).Ok? { SameStep(k, k', d, disabled, d.features[n - 1], RunTo(k, d, n - 1).value); }
    }
  }

  /** Whatever an engine does when an operation that is switched off is performed, no build shows it:
      the document is refused, or nothing of the kind is performed in it. Chains of patterns over
      sources, disabled ones among them, included. */
  lemma NothingDisabledMatters(k: Kernel, k': Kernel, d: Document, disabled: set<C.Capability>)
    requires Agree(k, k', d, disabled)
    ensures Build(k, d, disabled) == Build(k', d, disabled)
  {
    if forall key :: key in disabled ==> key !in C.Requirements(d) {
      forall f, c | f in d.features && f.enabled && Causes(f.inputs, c) ensures Allowed(d, c, disabled) {
        EnabledCallsAllowed(d, disabled, f, c);
      }
      SameRun(k, k', d, disabled, |d.features|);
    }
  }
}
