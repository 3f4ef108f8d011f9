/** Three switches stop what no call on the kernel shows: building a plane, starting a body of its own,
    and joining an extrusion to a body. They hold of the interpreter's own table and planes. */
module GateStructure {
  import opened Prelude
  import opened CadDocument
  import opened KernelModel
  import opened BodyTable
  import opened Booleans
  import opened Adapter
  import BT = BooleanTheorems
  import C = Capabilities
  import M = CapabilityMeaning
  import N = BodyCounting

  lemma NotAsked(d: Document, i: nat, key: C.Capability)
    requires i < |d.features| && d.features[i].enabled && key !in C.Requirements(d)
    ensures !M.FeatureAsks(d.features[i].inputs, M.AdditiveBefore(d, i), key)
  {
    M.RequirementsExact(d, key);
    if M.FeatureAsks(d.features[i].inputs, M.AdditiveBefore(d, i), key) { assert M.EnabledAsks(d, i, key); }
  }

  // ----- planes --------------------------------------------------------------------------

  lemma NoDatum(d: Document, i: nat)
    requires i < |d.features| && C.SketchPlaneDatum !in C.Requirements(d)
    ensures !(d.features[i].enabled && d.features[i].inputs.Datum?)
  {
    if d.features[i].enabled {
      NotAsked(d, i, C.SketchPlaneDatum);
      assert M.KindAsks(d.features[i].inputs, M.AdditiveBefore(d, i), C.SketchPlaneDatum) <==>
             d.features[i].inputs.Datum?;
    }
  }

  lemma StepKeepsPlanes(k: Kernel, d: Document, m: Machine, f: Feature)
    requires ActiveOk(m.table) && Step(k, d, m, f).Ok? && !(f.enabled && f.inputs.Datum?)
    ensures Step(k, d, m, f).value.planes == m.planes
  {
  }

  lemma {:induction false} NoPlaneWithoutItsKey(k: Kernel, d: Document, n: nat)
    requires n <= |d.features| && RunTo(k, d, n).Ok? && C.SketchPlaneDatum !in C.Requirements(d)
    ensures RunTo(k, d, n).value.planes == map[]
  {
    hide Step, C.Requirements;
    if n > 0 {
      NoPlaneWithoutItsKey(k, d, n - 1);
      NoDatum(d, n - 1);
      StepKeepsPlanes(k, d, RunTo(k, d, n - 1).value, d.features[n - 1]);
    }
  }

  // ----- bodies --------------------------------------------------------------------------

  lemma CombineMakesNone(k: Kernel, f: Inputs, t: Table)
    requires f.Boolean? && Combine(k, f, t).Ok?
    ensures |Combine(k, f, t).value.bodies| <= |t.bodies|
  {
    var (target, tools, answer) := Answer(k, f, t).value;
    if !f.keepTools { BT.DropAllLength(Replace(t, target, answer), Descending(tools)); }
  }

  lemma SolidMakesOne(k: Kernel, f: Feature, m: Machine)
    requires f.inputs.MakesTool() && ActiveOk(m.table) && ApplySolid(k, f, m).Ok?
    ensures |ApplySolid(k, f, m).value.bodies| <= |m.table.bodies| + 1
    ensures !f.inputs.StartsBody() && m.table.bodies != [] ==> |ApplySolid(k, f, m).value.bodies| == |m.table.bodies|
  {
  }

  lemma StepMakesOne(k: Kernel, d: Document, m: Machine, f: Feature)
    requires ActiveOk(m.table) && Step(k, d, m, f).Ok? && !(f.enabled && f.inputs.StartsBody())
    ensures |Step(k, d, m, f).value.table.bodies| <= if m.table.bodies == [] then 1 else |m.table.bodies|
  {
    if f.enabled && f.inputs.MakesTool() { SolidMakesOne(k, f, m); }
    else if f.enabled && f.inputs.Boolean? { CombineMakesNone(k, f.inputs, m.table); }
  }

  lemma NoNewBody(d: Document, i: nat)
    requires i < |d.features| && C.FeatureBodyNew !in C.Requirements(d)
    ensures !(d.features[i].enabled && d.features[i].inputs.StartsBody())
  {
    if d.features[i].enabled {
      NotAsked(d, i, C.FeatureBodyNew);
      assert M.ModeAsks(d.features[i].inputs, C.FeatureBodyNew) <==> d.features[i].inputs.StartsBody();
    }
  }

  lemma {:induction false} OneBodyWithoutItsKey(k: Kernel, d: Document, n: nat)
    requires n <= |d.features| && RunTo(k, d, n).Ok? && C.FeatureBodyNew !in C.Requirements(d)
    ensures |RunTo(k, d, n).value.table.bodies| <= 1
  {
    hide Step, C.Requirements;
    if n > 0 {
      OneBodyWithoutItsKey(k, d, n - 1);
      NoNewBody(d, n - 1);
      StepMakesOne(k, d, RunTo(k, d, n - 1).value, d.features[n - 1]);
    }
  }

  // ----- joining -------------------------------------------------------------------------

  /** An additive extrusion joins a body that is already there. */
  predicate Fuses(t: Table, f: Feature) {
    && f.inputs.Extrude? && f.inputs.IsAdditive() && !f.inputs.StartsBody()
    && Locate(t, f.inputs.Source()).Ok? && Locate(t, f.inputs.Source()).value.Some?
  }

  /** When a feature succeeds, it fused an extrusion into a body exactly when the pass asked for
      the boss key on its account. */
  lemma BossMeansFusing(k: Kernel, d: Document, i: nat)
    requires i < |d.features| && d.features[i].enabled && RunTo(k, d, i + 1).Ok?
    ensures RunTo(k, d, i).Ok?
    ensures Fuses(RunTo(k, d, i).value.table, d.features[i]) <==>
            M.KindAsks(d.features[i].inputs, M.AdditiveBefore(d, i), C.FeatureBossAdditive)
  {
    N.BodiesComeFromAdditive(k, d, i);
  }

  lemma UnfusedAppends(k: Kernel, d: Document, m: Machine, f: Feature)
    requires ActiveOk(m.table) && Step(k, d, m, f).Ok? && f.enabled && f.inputs.Extrude? && f.inputs.IsAdditive()
    requires !Fuses(m.table, f)
    ensures var t' := Step(k, d, m, f).value.table;
            |t'.bodies| == |m.table.bodies| + 1 && t'.bodies[..|m.table.bodies|] == m.table.bodies
  {
  }

  /** Without the boss key no extrusion ever touches a body that is there: each makes one of its own. */
  lemma NothingJoinedWithoutItsKey(k: Kernel, d: Document, i: nat)
    requires i < |d.features| && d.features[i].enabled && d.features[i].inputs.Extrude?
             && d.features[i].inputs.IsAdditive()
    requires RunTo(k, d, i + 1).Ok? && C.FeatureBossAdditive !in C.Requirements(d)
    ensures RunTo(k, d, i).Ok?
    ensures var t, t' := RunTo(k, d, i).value.table, RunTo(k, d, i + 1).value.table;
            |t'.bodies| == |t.bodies| + 1 && t'.bodies[..|t.bodies|] == t.bodies
  {
    BossMeansFusing(k, d, i);
    NotAsked(d, i, C.FeatureBossAdditive);
    UnfusedAppends(k, d, RunTo(k, d, i).value, d.features[i]);
  }
}
