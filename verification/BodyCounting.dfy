/** There is a body exactly when an enabled additive feature has run: what the counter of the
    capability pass stands for while the machine runs. */
module BodyCounting {
  import opened Prelude
  import opened CadDocument
  import opened KernelModel
  import opened BodyTable
  import opened Booleans
  import opened Adapter
  import M = CapabilityMeaning

  predicate HasBodies(t: Table) { t.bodies != [] }

  /** A cut never starts a body: with nothing to cut, its tool is refused. */
  lemma SolidMakesBodies(k: Kernel, f: Feature, m: Machine)
    requires f.inputs.MakesTool() && ActiveOk(m.table) && ApplySolid(k, f, m).Ok?
    ensures HasBodies(ApplySolid(k, f, m).value)
    ensures !HasBodies(m.table) ==> f.inputs.IsAdditive()
  {
  }

  lemma RewriteKeepsBodies(k: Kernel, f: Feature, t: Table)
    requires f.inputs.Rewrites() && ActiveOk(t) && ApplyRewrite(k, f, t).Ok?
    ensures HasBodies(t) && HasBodies(ApplyRewrite(k, f, t).value)
  {
  }

  lemma PatternKeepsBodies(k: Kernel, sources: map<string, Feature>, f: Feature, m: Machine)
    requires f.inputs.Pattern? && ActiveOk(m.table) && ApplyPattern(k, sources, f, m).Ok?
    ensures HasBodies(m.table) && HasBodies(ApplyPattern(k, sources, f, m).value)
  {
  }

  lemma BooleanKeepsBodies(k: Kernel, f: Inputs, t: Table)
    requires f.Boolean? && Combine(k, f, t).Ok?
    ensures HasBodies(t) && HasBodies(Combine(k, f, t).value)
  {
  }

  lemma StepMakesBodies(k: Kernel, d: Document, m: Machine, f: Feature)
    requires ActiveOk(m.table) && Step(k, d, m, f).Ok?
    ensures HasBodies(Step(k, d, m, f).value.table) <==> HasBodies(m.table) || (f.enabled && f.inputs.IsAdditive())
  {
    if f.enabled {
      if f.inputs.MakesTool() { SolidMakesBodies(k, f, m); }
      else if f.inputs.Pattern? { PatternKeepsBodies(k, Sources(d.features), f, m); }
      else if f.inputs.Boolean? { BooleanKeepsBodies(k, f.inputs, m.table); }
      else if f.inputs.Rewrites() { RewriteKeepsBodies(k, f, m.table); }
    }
  }

  lemma AdditiveNext(d: Document, n: nat)
    requires n < |d.features|
    ensures M.AdditiveBefore(d, n + 1) <==>
            M.AdditiveBefore(d, n) || (d.features[n].enabled && d.features[n].inputs.IsAdditive())
  {
  }

  lemma {:induction false} BodiesComeFromAdditive(k: Kernel, d: Document, n: nat)
    requires n <= |d.features| && RunTo(k, d, n).Ok?
    ensures HasBodies(RunTo(k, d, n).value.table) <==> M.AdditiveBefore(d, n)
  {
    if n > 0 {
      BodiesComeFromAdditive(k, d, n - 1);
      StepMakesBodies(k, d, RunTo(k, d, n - 1).value, d.features[n - 1]);
      AdditiveNext(d, n - 1);
    }
  }
}
