/** What names mean over a whole run of the table: each means one body, by the identity it was made
    with, wherever in the table it has moved to. */
module NameTheorems {
  import opened Prelude
  import opened Solids
  import opened CadDocument
  import opened KernelModel
  import opened BodyTable
  import opened Booleans
  import opened Adapter
  import opened Outlines
  import opened BodyPlan
  import opened ActiveBody
  import NameSets

  /** The body a name means after the first `n` features: the first on the table that carries it. */
  function MeansAt(k: Kernel, d: Document, n: nat, name: string): Option<nat>
    requires n <= |d.features| && RunTo(k, d, n).Ok?
  {
    PlanIsTheRun(k, d, n);
    match FirstNamed(RunTo(k, d, n).value.table.bodies, name)
    case None => None
    case Some(i) => Some(PlanAt(d, n).ids[i])
  }

  lemma MeansAsPlanned(k: Kernel, d: Document, n: nat, name: string)
    requires n <= |d.features| && RunTo(k, d, n).Ok?
    ensures MeansAt(k, d, n, name) == Meant(PlanAt(d, n), Some(name))
  {
    PlanIsTheRun(k, d, n);
    SameFirst(RunTo(k, d, n).value.table.bodies, PlanAt(d, n).outline.bodies, name);
  }

  // ----- one step ------------------------------------------------------------------------

  /** From one plan to a later one a name means the same body, or that body is off the table. */
  predicate Kept(p: Plan, p': Plan, name: string)
    requires PlanOk(p) && PlanOk(p')
  {
    && (Meant(p', Some(name)).Some? ==> Meant(p, Some(name)) == Meant(p', Some(name)))
    && (Meant(p, Some(name)).Some? && Meant(p', Some(name)).None? ==> Meant(p, Some(name)).value !in p'.ids)
  }

  lemma CarrierIsMeant(p: Plan, known: set<string>, i: nat, name: string)
    requires PlanOk(p) && NameSets.Separate(p.outline.bodies, known)
    requires i < |p.ids| && name in p.outline.bodies[i].names
    ensures Meant(p, Some(name)) == Some(p.ids[i])
  {
    var first := FirstNamed(p.outline.bodies, name).value;
    assert name in p.outline.bodies[first].names;
  }

  /** Deletions by index, repeated ones included, leave every body with its names. */
  lemma MergedKeeps(p: Plan, f: Inputs, target: nat, known: set<string>, name: string)
    requires PlanOk(p) && f.Boolean? && NameSets.Separate(p.outline.bodies, known)
    requires FirstNamed(p.outline.bodies, f.target) == Some(target)
    ensures PlanOk(Merged(p, f, target)) && Kept(p, Merged(p, f, target), name)
  {
    MergedOk(p, f, target);
    var p' := Merged(p, f, target);
    if LocateAll(p.outline, f.tools).Ok? {
      var tools := LocateAll(p.outline, f.tools).value;
      if f.keepTools {
        SameFirst(p.outline.bodies, p'.outline.bodies, name);
      } else if Settle(f, p.outline, target, tools, HOLLOW).Ok? {
        SettledKeeps(p, f, target, tools, p', known, name);
      }
    }
  }

  /** A boolean that goes through, consuming its tools. */
  predicate Consumes(p: Plan, f: Inputs, target: nat, tools: seq<nat>) {
    && PlanOk(p) && f.Boolean? && !f.keepTools && FirstNamed(p.outline.bodies, f.target) == Some(target)
    && LocateAll(p.outline, f.tools) == Ok(tools) && Settle(f, p.outline, target, tools, HOLLOW).Ok?
  }

  /** What is planned at `j` afterwards was planned somewhere before, under the same names. */
  lemma ConsumedFrom(p: Plan, f: Inputs, target: nat, tools: seq<nat>, j: nat) returns (x: nat)
    requires Consumes(p, f, target, tools) && j < |Merged(p, f, target).outline.bodies|
    ensures PlanOk(Merged(p, f, target)) && x < |p.ids| && Merged(p, f, target).ids[j] == p.ids[x]
    ensures Merged(p, f, target).outline.bodies[j].names == p.outline.bodies[x].names
  {
    MergedOk(p, f, target);
    x := SettleWritesOne(f, p.outline, p.ids, target, tools, HOLLOW, j);
  }

  lemma StillMeant(p: Plan, f: Inputs, target: nat, tools: seq<nat>, p': Plan, known: set<string>, name: string)
    requires Consumes(p, f, target, tools) && NameSets.Separate(p.outline.bodies, known)
    requires p' == Merged(p, f, target) && PlanOk(p') && Meant(p', Some(name)).Some?
    ensures Meant(p, Some(name)) == Meant(p', Some(name))
  {
    var again := FirstNamed(p'.outline.bodies, name).value;
    var x := ConsumedFrom(p, f, target, tools, again);
    CarrierIsMeant(p, known, x, name);
  }

  lemma NoLongerThere(p: Plan, f: Inputs, target: nat, tools: seq<nat>, p': Plan, name: string)
    requires Consumes(p, f, target, tools) && p' == Merged(p, f, target) && PlanOk(p')
    requires Meant(p, Some(name)).Some? && Meant(p', Some(name)).None?
    ensures Meant(p, Some(name)).value !in p'.ids
  {
    hide Settle, LocateAll;
    var i := FirstNamed(p.outline.bodies, name).value;
    forall j | 0 <= j < |p'.ids| ensures p'.ids[j] != p.ids[i] {
      var x := ConsumedFrom(p, f, target, tools, j);
      assert name !in p'.outline.bodies[j].names;
    }
  }

  lemma SettledKeeps(p: Plan, f: Inputs, target: nat, tools: seq<nat>, p': Plan, known: set<string>, name: string)
    requires Consumes(p, f, target, tools) && NameSets.Separate(p.outline.bodies, known)
    requires p' == Merged(p, f, target) && PlanOk(p')
    ensures Kept(p, p', name)
  {
    if Meant(p', Some(name)).Some? {
      StillMeant(p, f, target, tools, p', known, name);
    } else if Meant(p, Some(name)).Some? {
      NoLongerThere(p, f, target, tools, p', name);
    }
  }

  lemma NextKeeps(d: Document, p: Plan, f: Feature, known: set<string>, name: string)
    requires PlanOk(p) && NameSets.Separate(p.outline.bodies, known) && name !in BodyNames(f)
    ensures PlanOk(Next(d, p, f)) && Kept(p, Next(d, p, f), name)
  {
    NextOk(d, p, f);
    if Touches(f) && Place(d, p, f).Ok? {
      if f.inputs.Boolean? {
        MergedKeeps(p, f.inputs, FirstNamed(p.outline.bodies, f.inputs.target).value, known, name);
      } else {
        SoleWriteKeeps(p, Next(d, p, f), name);
      }
    }
  }

  /** Writing one body, or making one, under other names. */
  lemma SoleWriteKeeps(p: Plan, p': Plan, name: string)
    requires PlanOk(p) && PlanOk(p') && p.ids <= p'.ids && |p'.ids| <= |p.ids| + 1
    requires forall i :: 0 <= i < |p.ids| ==>
               (name in p'.outline.bodies[i].names <==> name in p.outline.bodies[i].names)
    requires |p'.ids| > |p.ids| ==> name !in p'.outline.bodies[|p.ids|].names
    ensures Kept(p, p', name)
  {
    var i, j := FirstNamed(p.outline.bodies, name), FirstNamed(p'.outline.bodies, name);
    if i.Some? { assert name in p'.outline.bodies[i.value].names; }
    if j.Some? { assert name in p.outline.bodies[j.value].names; }
  }

  // ----- whole runs ----------------------------------------------------------------------

  lemma MergedAddsNone(p: Plan, f: Inputs, target: nat)
    requires PlanOk(p) && f.Boolean? && target < |p.outline.bodies|
    ensures Merged(p, f, target).next == p.next && forall id :: id in Merged(p, f, target).ids ==> id in p.ids
  {
    if LocateAll(p.outline, f.tools).Ok? {
      DeletedAscends(p.ids, Descending(LocateAll(p.outline, f.tools).value));
    }
  }

  /** Bodies are made with new identities, and nothing else enters the table. */
  lemma NextAddsOnlyNew(d: Document, p: Plan, f: Feature)
    requires PlanOk(p)
    ensures var p' := Next(d, p, f); p.next <= p'.next && forall id :: id in p'.ids ==> id in p.ids || id == p.next
  {
    if Touches(f) && f.inputs.Boolean? && FirstNamed(p.outline.bodies, f.inputs.target).Some? {
      MergedAddsNone(p, f.inputs, FirstNamed(p.outline.bodies, f.inputs.target).value);
    }
  }

  /** A body that has left the table never comes back. */
  lemma {:induction false} GoneForGood(d: Document, i: nat, j: nat, id: nat)
    requires i <= j <= |d.features|
    ensures PlanAt(d, i).next <= PlanAt(d, j).next
    ensures id < PlanAt(d, i).next && id !in PlanAt(d, i).ids ==> id !in PlanAt(d, j).ids
  {
    hide Next;
    if i < j {
      GoneForGood(d, i, j - 1, id);
      NextAddsOnlyNew(d, PlanAt(d, j - 1), d.features[j - 1]);
    }
  }

  predicate NoneBack(p: Plan, p': Plan) {
    forall id: nat :: id < p.next && id in p'.ids ==> id in p.ids
  }

  lemma KeptOn(p: Plan, p': Plan, p'': Plan, name: string)
    requires PlanOk(p) && PlanOk(p') && PlanOk(p'') && Kept(p, p', name) && Kept(p', p'', name)
    requires p.next <= p'.next && NoneBack(p', p'')
    ensures Kept(p, p'', name)
  {
  }

  lemma KeptItself(p: Plan, name: string)
    requires PlanOk(p)
    ensures Kept(p, p, name)
  {
  }

  /** From one plan to the next the name keeps its body, and no body comes back. */
  predicate KeptOver(p: Plan, p': Plan, name: string) {
    PlanOk(p) && PlanOk(p') && Kept(p, p', name) && NoneBack(p, p') && p.next <= p'.next
  }

  lemma NextIsKept(d: Document, p: Plan, f: Feature, known: set<string>, name: string)
    requires PlanOk(p) && name !in BodyNames(f) && NameSets.Separate(p.outline.bodies, known)
    ensures KeptOver(p, Next(d, p, f), name)
  {
    NextKeeps(d, p, f, known, name);
    NextAddsOnlyNew(d, p, f);
  }

  lemma {:induction false} KeptThroughout(plans: seq<Plan>, name: string)
    requires plans != [] && forall n :: 0 <= n < |plans| ==> PlanOk(plans[n])
    requires forall n :: 0 <= n < |plans| - 1 ==> KeptOver(plans[n], plans[n + 1], name)
    ensures Kept(plans[0], plans[|plans| - 1], name) && plans[0].next <= plans[|plans| - 1].next
  {
    var last := |plans| - 1;
    if last > 0 {
      KeptThroughout(plans[..last], name);
      assert KeptOver(plans[last - 1], plans[last - 1 + 1], name);
      KeptOn(plans[0], plans[last - 1], plans[last], name);
    }
  }

  lemma FeatureKeeps(k: Kernel, d: Document, i: nat, n: nat, p: Plan, name: string)
    requires UniqueResults(d) && i <= n < |d.features| && RunTo(k, d, n).Ok? && name in Declared(d, i)
    requires p == PlanAt(d, n)
    ensures KeptOver(p, Next(d, p, d.features[n]), name)
  {
    assert NameSets.Separate(p.outline.bodies, Declared(d, n)) by { PlanSeparate(k, d, n); }
    assert name !in BodyNames(d.features[n]) by { NotYetDeclared(d, i, n); }
    NextIsKept(d, p, d.features[n], Declared(d, n), name);
  }

  lemma FeatureKeptOver(k: Kernel, d: Document, i: nat, n: nat, name: string)
    requires UniqueResults(d) && i <= n < |d.features| && RunTo(k, d, n).Ok? && name in Declared(d, i)
    ensures KeptOver(PlanAt(d, n), PlanAt(d, n + 1), name)
  {
    FeatureKeeps(k, d, i, n, PlanAt(d, n), name);
  }

  function Plans(d: Document, i: nat, j: nat): (plans: seq<Plan>)
    requires i <= j <= |d.features|
    ensures |plans| == j - i + 1 && forall n :: 0 <= n < |plans| ==> plans[n] == PlanAt(d, i + n) && PlanOk(plans[n])
  {
    seq(j - i + 1, n requires 0 <= n <= j - i => PlanAt(d, i + n))
  }

  lemma PlannedNamesStay(k: Kernel, d: Document, i: nat, j: nat, name: string)
    requires UniqueResults(d) && i <= j <= |d.features| && RunTo(k, d, j).Ok? && name in Declared(d, i)
    ensures Kept(PlanAt(d, i), PlanAt(d, j), name)
  {
    hide Step, Next;
    var plans := Plans(d, i, j);
    forall n | 0 <= n < |plans| - 1 ensures KeptOver(plans[n], plans[n + 1], name) {
      RunsBefore(k, d, i + n, j);
      FeatureKeptOver(k, d, i, i + n, name);
      assert plans[n + 1] == PlanAt(d, i + n + 1);
    }
    KeptThroughout(plans, name);
  }

  /** Over every run of the table, whatever booleans delete in it: a name that resolves means the body
      it meant before, and a name stops resolving only when its body has left the table, for good. */
  lemma NamesNeverMove(k: Kernel, d: Document, i: nat, j: nat, name: string)
    requires UniqueResults(d) && i <= j <= |d.features| && RunTo(k, d, j).Ok? && name in Declared(d, i)
    ensures RunTo(k, d, i).Ok?
    ensures MeansAt(k, d, j, name).Some? ==> MeansAt(k, d, i, name) == MeansAt(k, d, j, name)
    ensures MeansAt(k, d, i, name).Some? && MeansAt(k, d, j, name).None? ==>
              forall n :: j <= n <= |d.features| ==> MeansAt(k, d, i, name).value !in PlanAt(d, n).ids
  {
    RunsBefore(k, d, i, j);
    PlannedNamesStay(k, d, i, j, name);
    MeansAsPlanned(k, d, i, name);
    MeansAsPlanned(k, d, j, name);
    if MeansAt(k, d, i, name).Some? && MeansAt(k, d, j, name).None? {
      forall n | j <= n <= |d.features| ensures MeansAt(k, d, i, name).value !in PlanAt(d, n).ids {
        GoneForGood(d, i, j, 0);
        GoneForGood(d, j, n, MeansAt(k, d, i, name).value);
      }
    }
  }

  /** The names of the solid bodies that enabled additive features among the first `n` declare. */
  function Added(d: Document, n: nat): set<string>
    requires n <= |d.features|
  {
    if n == 0 then {}
    else Added(d, n - 1)
         + if d.features[n - 1].enabled && d.features[n - 1].inputs.IsAdditive()
           then BodyNames(d.features[n - 1]) else {}
  }

  predicate NamesWithin(bodies: seq<Entry>, names: set<string>) {
    forall i :: 0 <= i < |bodies| ==> bodies[i].names <= names
  }

  lemma {:induction false} DropAllWithin(t: Table, order: seq<nat>, names: set<string>)
    requires NamesWithin(t.bodies, names) && DropAll(t, order).Ok?
    ensures NamesWithin(DropAll(t, order).value.bodies, names)
    decreases |order|
  {
    if order != [] { DropAllWithin(Drop(t, order[0]), order[1..], names); }
  }

  lemma SettleWithin(f: Inputs, t: Table, target: nat, tools: seq<nat>, answer: Solid, names: set<string>)
    requires f.Boolean? && target < |t.bodies| && NamesWithin(t.bodies, names)
    requires Settle(f, t, target, tools, answer).Ok?
    ensures NamesWithin(Settle(f, t, target, tools, answer).value.bodies, names)
  {
    if !f.keepTools { DropAllWithin(Replace(t, target, answer), Descending(tools), names); }
  }

  lemma StepWithin(k: Kernel, d: Document, m: Machine, f: Feature, names: set<string>)
    requires ActiveOk(m.table) && NamesWithin(m.table.bodies, names) && Step(k, d, m, f).Ok?
    ensures NamesWithin(Step(k, d, m, f).value.table.bodies,
                        names + if f.enabled && f.inputs.IsAdditive() then BodyNames(f) else {})
  {
    if f.enabled && f.inputs.Boolean? {
      AnswerFinds(k, f.inputs, m.table);
      var (target, tools, answer) := Answer(k, f.inputs, m.table).value;
      SettleWithin(f.inputs, m.table, target, tools, answer, names);
    }
  }

  lemma {:induction false} TableNames(k: Kernel, d: Document, n: nat)
    requires n <= |d.features| && RunTo(k, d, n).Ok?
    ensures NamesWithin(RunTo(k, d, n).value.table.bodies, Added(d, n))
  {
    if n > 0 {
      TableNames(k, d, n - 1);
      StepWithin(k, d, RunTo(k, d, n - 1).value, d.features[n - 1], Added(d, n - 1));
    }
  }

  /** Only a name that an enabled additive feature declared ever resolves: the result a cut or a
      disabled feature declares never does. */
  lemma OnlyAddedNamesResolve(k: Kernel, d: Document, n: nat, name: string)
    requires n <= |d.features| && RunTo(k, d, n).Ok?
    ensures Locate(RunTo(k, d, n).value.table, Some(name)).Ok? ==>
              name in Added(d, n) && exists i :: 0 <= i < n && DeclaresBody(d.features[i], name)
  {
    TableNames(k, d, n);
    if name in Added(d, n) { AddedByOne(d, n, name); }
  }

  /** An enabled feature that adds material and declares the name, as that of a solid body. */
  predicate DeclaresBody(f: Feature, name: string) {
    f.enabled && f.inputs.MakesTool() && !f.inputs.cut && Produced(name, SolidBody) in f.produces
  }

  lemma {:induction false} AddedByOne(d: Document, n: nat, name: string)
    requires n <= |d.features| && name in Added(d, n)
    ensures exists i :: 0 <= i < n && DeclaresBody(d.features[i], name)
  {
    if name in Added(d, n - 1) {
      AddedByOne(d, n - 1, name);
    } else {
      assert DeclaresBody(d.features[n - 1], name);
    }
  }

  /** Right after its feature such a name means the body the feature went to. */
  lemma BoundRightAfter(k: Kernel, d: Document, i: nat, name: string)
    requires UniqueResults(d) && i < |d.features| && RunTo(k, d, i + 1).Ok?
    requires d.features[i].enabled && d.features[i].inputs.IsAdditive() && name in BodyNames(d.features[i])
    ensures name in Declared(d, i + 1) && Owner(d, i + 1).Some?
    ensures MeansAt(k, d, i + 1, name) == Owner(d, i + 1)
  {
    RunsBefore(k, d, i, i + 1);
    PlanIsTheRun(k, d, i);
    PlanIsTheRun(k, d, i + 1);
    PlanSeparate(k, d, i + 1);
    MeansAsPlanned(k, d, i + 1, name);
    ActiveCarries(k, d, RunTo(k, d, i).value, d.features[i], name);
    CarrierIsMeant(PlanAt(d, i + 1), Declared(d, i + 1), PlanAt(d, i + 1).outline.active.value, name);
  }

  lemma ActiveCarries(k: Kernel, d: Document, m: Machine, f: Feature, name: string)
    requires ActiveOk(m.table) && Step(k, d, m, f).Ok? && f.enabled && f.inputs.IsAdditive() && name in BodyNames(f)
    ensures var t := Step(k, d, m, f).value.table; t.active.Some? && name in t.bodies[t.active.value].names
  {
  }

  lemma KeptExactly(p: Plan, q: Plan, name: string, body: nat)
    requires PlanOk(p) && PlanOk(q) && Kept(p, q, name) && Meant(p, Some(name)) == Some(body)
    ensures Meant(q, Some(name)) == if body in q.ids then Some(body) else None
  {
  }

  /** It resolves from then on, to that body, exactly as long as that body is on the table. */
  lemma AddedNamesResolve(k: Kernel, d: Document, i: nat, j: nat, name: string)
    requires UniqueResults(d) && i < j <= |d.features| && RunTo(k, d, j).Ok?
    requires d.features[i].enabled && d.features[i].inputs.IsAdditive() && name in BodyNames(d.features[i])
    ensures Owner(d, i + 1).Some?
    ensures MeansAt(k, d, j, name)
         == if Owner(d, i + 1).value in PlanAt(d, j).ids then Owner(d, i + 1) else None
  {
    hide Step, Next;
    BoundInPlan(k, d, i, j, name);
    assert Kept(PlanAt(d, i + 1), PlanAt(d, j), name) by { PlannedNamesStay(k, d, i + 1, j, name); }
    KeptExactly(PlanAt(d, i + 1), PlanAt(d, j), name, Owner(d, i + 1).value);
    MeansAsPlanned(k, d, j, name);
  }

  lemma BoundInPlan(k: Kernel, d: Document, i: nat, j: nat, name: string)
    requires UniqueResults(d) && i < j <= |d.features| && RunTo(k, d, j).Ok?
    requires d.features[i].enabled && d.features[i].inputs.IsAdditive() && name in BodyNames(d.features[i])
    ensures name in Declared(d, i + 1) && Owner(d, i + 1).Some?
    ensures Meant(PlanAt(d, i + 1), Some(name)) == Owner(d, i + 1)
  {
    hide Step, Next;
    RunsBefore(k, d, i + 1, j);
    BoundRightAfter(k, d, i, name);
    MeansAsPlanned(k, d, i + 1, name);
  }
}
