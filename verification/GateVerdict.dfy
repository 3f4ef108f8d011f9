/** What the gate says of a document: refused exactly when something switched off is needed. */
module GateVerdict {
  import opened Prelude
  import opened Solids
  import opened CadDocument
  import opened KernelModel
  import opened BodyTable
  import opened Adapter
  import C = Capabilities
  import M = CapabilityMeaning

  /** The build itself needs the key, or some feature that is on does. */
  ghost predicate Needs(d: Document, key: C.Capability) {
    M.BuildAsks(d, key) || exists i :: 0 <= i < |d.features| && M.EnabledAsks(d, i, key)
  }

  /** A document is refused, before anything is built, exactly when a switch it needs is off; switches it
      does not need change nothing. */
  lemma RefusedExactlyWhenNeeded(k: Kernel, d: Document, disabled: set<C.Capability>)
    ensures (exists key :: key in disabled && Needs(d, key)) ==>
              Build(k, d, disabled) == Err(Refused("CAPABILITY_DISABLED"))
    ensures (forall key :: key in disabled ==> !Needs(d, key)) ==> Build(k, d, disabled) == Built(k, d)
  {
    forall key | key in disabled ensures Needs(d, key) <==> key in C.Requirements(d) {
      M.RequirementsExact(d, key);
    }
  }

  /** A document of one plate, drawn on a base plane as a plain rectangle. */
  predicate OnePlate(d: Document) {
    && |d.features| == 1 && d.expectations == []
    && d.features[0].enabled && d.features[0].inputs.Extrude? && !d.features[0].inputs.cut
    && !d.features[0].inputs.both && !d.features[0].inputs.newBody && d.features[0].inputs.untilFace.None?
    && d.features[0].inputs.taper == Number(0.0)
    && var s := d.features[0].inputs.sketch;
       && s.plane.OnBase? && s.outer == Rectangle && s.inner == [] && s.construction == []
       && s.constraints == [] && s.dimensions == []
  }

  /** It needs no mirror, and is built with mirrors off. */
  lemma PlateNeedsNoMirror(k: Kernel, d: Document)
    requires OnePlate(d)
    ensures Build(k, d, {C.FeatureMirror}) == Built(k, d)
  {
    forall key | key in {C.FeatureMirror} ensures !Needs(d, key) {
      assert !M.SketchAsks(d.features[0].inputs.sketch, C.FeatureMirror);
    }
    RefusedExactlyWhenNeeded(k, d, {C.FeatureMirror});
  }
}
