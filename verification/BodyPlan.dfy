/** Which body each feature of a document goes to, read off the document alone. Bodies get identities
    in the order they are made; names and indices are those of the table, deletions by index included.
    The kernel decides whether a build fails and what its bodies are made of, never which body a name
    means or which one is active. */
module BodyPlan {
  import opened Prelude
  import opened Solids
  import opened CadDocument
  import opened KernelModel
  import opened BodyTable
  import opened Booleans
  import opened Adapter
  import opened Outlines

  /** The table with nothing in its bodies, and the identity of the body at each index. */
  datatype Plan = Plan(outline: Table, ids: seq<nat>, next: nat)

  const HOLLOW: Solid := iset{}

  const NO_BODIES := Plan(EMPTY, [], 0)

  predicate PlanOk(p: Plan) {
    && |p.ids| == |p.outline.bodies| && ActiveOk(p.outline) && Ascending(p.ids)
    && forall i :: 0 <= i < |p.ids| ==> p.ids[i] < p.next
  }

  /** The body a reference means: the one it names first, or the active one. */
  function Meant(p: Plan, name: Option<string>): Option<nat>
    requires PlanOk(p)
  {
    match Locate(p.outline, name) case Ok(Some(i)) => Some(p.ids[i]) case _ => None
  }

  /** The active body. */
  function Current(p: Plan): Option<nat>
    requires PlanOk(p)
  {
    Meant(p, None)
  }

  /** The reference that decides where a feature goes. */
  function Referred(d: Document, f: Feature): Option<string> {
    if f.inputs.Pattern? then ChainSource(Sources(d.features), f)
    else if f.inputs.Boolean? then Some(f.inputs.target)
    else if f.inputs.Rewrites() then Some(f.inputs.RewrittenBody())
    else f.inputs.Source()
  }

  /** The index of the body a feature writes; none when it makes one. */
  function Place(d: Document, p: Plan, f: Feature): Result<Option<nat>, Failure> {
    if f.inputs.StartsBody() then Ok(None) else Locate(p.outline, Referred(d, f))
  }

  /** A feature that builds something, as opposed to a plane or nothing. */
  predicate Touches(f: Feature) { f.enabled && !f.inputs.Datum? }

  function Made(p: Plan, names: set<string>): Plan {
    match Create(p.outline, HOLLOW, names)
    case Err(_) => p
    case Ok(t) => Plan(t, p.ids + [p.next], p.next + 1)
  }

  function Written(p: Plan, i: nat, f: Inputs, names: set<string>): Plan
    requires i < |p.outline.bodies|
  {
    var written := Replace(p.outline, i, HOLLOW);
    p.(outline := if f.IsAdditive() then Alias(written, i, names) else written)
  }

  function Merged(p: Plan, f: Inputs, target: nat): Plan
    requires f.Boolean? && target < |p.outline.bodies|
  {
    match LocateAll(p.outline, f.tools)
    case Err(_) => p
    case Ok(tools) =>
      match Settle(f, p.outline, target, tools, HOLLOW)
      case Err(_) => p
      case Ok(t) => Plan(t, if f.keepTools then p.ids else Deleted(p.ids, Descending(tools)), p.next)
  }

  function Next(d: Document, p: Plan, f: Feature): Plan
    requires PlanOk(p)
  {
    if !Touches(f) then p
    else
      match Place(d, p, f)
      case Err(_) => p
      case Ok(None) => Made(p, BodyNames(f))
      case Ok(Some(i)) =>
        if f.inputs.Boolean? then Merged(p, f.inputs, i) else Written(p, i, f.inputs, BodyNames(f))
  }

  lemma MergedOk(p: Plan, f: Inputs, target: nat)
    requires PlanOk(p) && f.Boolean? && target < |p.outline.bodies|
    ensures PlanOk(Merged(p, f, target))
  {
    if LocateAll(p.outline, f.tools).Ok? && !f.keepTools {
      var order := Descending(LocateAll(p.outline, f.tools).value);
      var replaced := Replace(p.outline, target, HOLLOW);
      if DropAll(replaced, order).Ok? {
        DropAllDeletes(replaced, order);
        DeletedAlike(replaced.bodies, p.ids, order);
        DeletedAscends(p.ids, order);
      }
    }
  }

  lemma MadeOk(p: Plan, names: set<string>)
    requires PlanOk(p)
    ensures PlanOk(Made(p, names))
  {
  }

  lemma WrittenOk(p: Plan, i: nat, f: Inputs, names: set<string>)
    requires PlanOk(p) && i < |p.outline.bodies|
    ensures PlanOk(Written(p, i, f, names))
  {
  }

  lemma NextOk(d: Document, p: Plan, f: Feature)
    requires PlanOk(p)
    ensures PlanOk(Next(d, p, f))
  {
    var at := Place(d, p, f);
    if Touches(f) && at.Ok? {
      if at.value.None? { MadeOk(p, BodyNames(f)); }
      else if f.inputs.Boolean? { MergedOk(p, f.inputs, at.value.value); }
      else { WrittenOk(p, at.value.value, f.inputs, BodyNames(f)); }
    }
  }

  function PlanAt(d: Document, n: nat): (p: Plan)
    requires n <= |d.features|
    ensures PlanOk(p)
  {
    if n == 0 then NO_BODIES
    else
      var before := PlanAt(d, n - 1);
      NextOk(d, before, d.features[n - 1]);
      Next(d, before, d.features[n - 1])
  }

  /** The body left active by the first `n` features. */
  function Owner(d: Document, n: nat): Option<nat>
    requires n <= |d.features|
  {
    Current(PlanAt(d, n))
  }

  // ----- the plan is the run -------------------------------------------------------------

  lemma SolidPlanned(k: Kernel, d: Document, f: Feature, m: Machine, p: Plan)
    requires f.enabled && f.inputs.MakesTool() && ActiveOk(m.table) && PlanOk(p) && Alike(m.table, p.outline)
    requires ApplySolid(k, f, m).Ok?
    ensures Alike(ApplySolid(k, f, m).value, Next(d, p, f).outline)
  {
    var t := m.table;
    SameLocated(t, p.outline, f.inputs.Source());
    var at := if f.inputs.StartsBody() then Ok(None) else Locate(t, f.inputs.Source());
    var base := if at.value.None? then None else Some(t.bodies[at.value.value].solid);
    var solid := ToolOf(k, f, base, m.planes, Carriers(t, f.inputs.Sketches())).value;
    if at.value.None? {
      CreateAlike(t, p.outline, solid, HOLLOW, BodyNames(f));
    } else {
      ReplaceAlike(t, p.outline, at.value.value, Combined(base.value, solid, f.inputs.cut), HOLLOW);
    }
  }

  lemma AnswerFinds(k: Kernel, f: Inputs, t: Table)
    requires f.Boolean? && Combine(k, f, t).Ok?
    ensures Answer(k, f, t).Ok?
    ensures FirstNamed(t.bodies, f.target) == Some(Answer(k, f, t).value.0)
    ensures LocateAll(t, f.tools) == Ok(Answer(k, f, t).value.1)
    ensures Settle(f, t, Answer(k, f, t).value.0, Answer(k, f, t).value.1, Answer(k, f, t).value.2)
            == Combine(k, f, t)
  {
  }

  lemma BooleanPlanned(k: Kernel, d: Document, f: Feature, t: Table, p: Plan)
    requires f.enabled && f.inputs.Boolean? && PlanOk(p) && Alike(t, p.outline) && Combine(k, f.inputs, t).Ok?
    ensures Alike(Combine(k, f.inputs, t).value, Next(d, p, f).outline)
  {
    hide Settle, Fold, SolidsAt, Descending, Deleted;
    SameFirst(t.bodies, p.outline.bodies, f.inputs.target);
    SameTools(t, p.outline, f.inputs.tools);
    var (target, tools, answer) := Answer(k, f.inputs, t).value;
    SettleAlike(f.inputs, t, p.outline, target, tools, answer, HOLLOW);
  }

  lemma RestPlanned(k: Kernel, d: Document, f: Feature, m: Machine, p: Plan)
    requires f.enabled && (f.inputs.Pattern? || f.inputs.Rewrites()) && ActiveOk(m.table)
    requires PlanOk(p) && Alike(m.table, p.outline) && Step(k, d, m, f).Ok?
    ensures Alike(Step(k, d, m, f).value.table, Next(d, p, f).outline)
  {
    SameLocated(m.table, p.outline, Referred(d, f));
  }

  lemma StepPlanned(k: Kernel, d: Document, m: Machine, p: Plan, f: Feature)
    requires ActiveOk(m.table) && PlanOk(p) && Alike(m.table, p.outline) && Step(k, d, m, f).Ok?
    ensures Alike(Step(k, d, m, f).value.table, Next(d, p, f).outline)
  {
    if Touches(f) {
      if f.inputs.MakesTool() { SolidPlanned(k, d, f, m, p); }
      else if f.inputs.Boolean? { BooleanPlanned(k, d, f, m.table, p); }
      else { RestPlanned(k, d, f, m, p); }
    }
  }

  /** Whatever the kernel answers, the table of a build that gets past `n` features has the planned
      bodies in the planned order under the planned names, and the planned one is active. */
  lemma {:induction false} PlanIsTheRun(k: Kernel, d: Document, n: nat)
    requires n <= |d.features| && RunTo(k, d, n).Ok?
    ensures Alike(RunTo(k, d, n).value.table, PlanAt(d, n).outline)
  {
    if n > 0 {
      PlanIsTheRun(k, d, n - 1);
      StepPlanned(k, d, RunTo(k, d, n - 1).value, PlanAt(d, n - 1), d.features[n - 1]);
    }
  }

  lemma {:induction false} RunsBefore(k: Kernel, d: Document, i: nat, j: nat)
    requires i <= j <= |d.features| && RunTo(k, d, j).Ok?
    ensures RunTo(k, d, i).Ok?
  {
    if RunTo(k, d, i).Err? { RunStops(k, d, i, j); }
  }

  // ----- tools ---------------------------------------------------------------------------

  /** No two of the names a boolean consumes are names of one body. */
  predicate EachToolOnce(p: Plan, f: Inputs) {
    f.Boolean? && !f.keepTools && LocateAll(p.outline, f.tools).Ok? ==> Distinct(LocateAll(p.outline, f.tools).value)
  }

  /** Feature `i` is on and consumes one body under two of its names. */
  predicate ToolTwice(d: Document, i: nat) {
    i < |d.features| && d.features[i].enabled && !EachToolOnce(PlanAt(d, i), d.features[i].inputs)
  }

  predicate NoToolTwiceBefore(d: Document, n: nat) { forall i: nat :: i < n ==> !ToolTwice(d, i) }

  predicate NoToolTwice(d: Document) { NoToolTwiceBefore(d, |d.features|) }
}
