/** The body each feature writes on the table: the one left active, and no other. */
module ActiveBody {
  import opened Prelude
  import opened Solids
  import opened CadDocument
  import opened KernelModel
  import opened BodyTable
  import opened Booleans
  import opened Adapter
  import opened Outlines
  import opened BodyPlan
  import NameSets

  /** The table has this solid in the body of this identity. */
  ghost predicate Has(t: Table, ids: seq<nat>, id: nat, solid: Solid) {
    exists i :: 0 <= i < |ids| && i < |t.bodies| && ids[i] == id && t.bodies[i].solid == solid
  }

  /** Every body of the second table but the active one was in the first, as it is. */
  ghost predicate OthersFrom(t: Table, p: Plan, t': Table, p': Plan) {
    && t'.active.Some? && |p'.ids| == |t'.bodies|
    && forall j :: 0 <= j < |t'.bodies| && Some(j) != t'.active ==> Has(t, p.ids, p'.ids[j], t'.bodies[j].solid)
  }

  lemma SolidTouchesOne(k: Kernel, d: Document, m: Machine, f: Feature)
    requires ActiveOk(m.table) && Step(k, d, m, f).Ok? && f.enabled && f.inputs.MakesTool()
    ensures var t, t' := m.table, Step(k, d, m, f).value.table;
            && t'.active.Some?
            && forall j :: 0 <= j < |t'.bodies| && Some(j) != t'.active ==>
                 j < |t.bodies| && t'.bodies[j].solid == t.bodies[j].solid
  {
  }

  lemma SolidKeepsIds(d: Document, p: Plan, f: Feature)
    requires PlanOk(p) && f.enabled && f.inputs.MakesTool()
    ensures p.ids <= Next(d, p, f).ids
  {
  }

  lemma SolidWritesOne(k: Kernel, d: Document, m: Machine, p: Plan, f: Feature)
    requires ActiveOk(m.table) && PlanOk(p) && Alike(m.table, p.outline) && Step(k, d, m, f).Ok?
    requires f.enabled && f.inputs.MakesTool()
    ensures OthersFrom(m.table, p, Step(k, d, m, f).value.table, Next(d, p, f))
  {
    var t, t', p' := m.table, Step(k, d, m, f).value.table, Next(d, p, f);
    SolidTouchesOne(k, d, m, f);
    SolidKeepsIds(d, p, f);
    assert |p'.ids| == |t'.bodies| by {
      NextOk(d, p, f);
      SolidPlanned(k, d, f, m, p);
    }
    forall j | 0 <= j < |t'.bodies| && Some(j) != t'.active ensures Has(t, p.ids, p'.ids[j], t'.bodies[j].solid) {
      assert p'.ids[j] == p.ids[j] && t'.bodies[j].solid == t.bodies[j].solid;
    }
  }

  lemma RestWritesOne(k: Kernel, d: Document, m: Machine, p: Plan, f: Feature)
    requires ActiveOk(m.table) && PlanOk(p) && Alike(m.table, p.outline) && Step(k, d, m, f).Ok?
    requires f.enabled && (f.inputs.Pattern? || f.inputs.Rewrites())
    ensures OthersFrom(m.table, p, Step(k, d, m, f).value.table, Next(d, p, f))
  {
    SameLocated(m.table, p.outline, Referred(d, f));
    var t, t', p' := m.table, Step(k, d, m, f).value.table, Next(d, p, f);
    forall j | 0 <= j < |t'.bodies| && Some(j) != t'.active ensures Has(t, p.ids, p'.ids[j], t'.bodies[j].solid) {
      assert p'.ids[j] == p.ids[j] && t'.bodies[j].solid == t.bodies[j].solid;
    }
  }

  /** The body found again after the deletions is the target, or, where that was deleted too, another
      that carries its name; no other body that is left was written. */
  lemma SettleWritesOne(f: Inputs, t: Table, ids: seq<nat>, target: nat, tools: seq<nat>, answer: Solid, j: nat)
      returns (x: nat)
    requires f.Boolean? && !f.keepTools && FirstNamed(t.bodies, f.target) == Some(target)
    requires |ids| == |t.bodies| && Ascending(ids) && Settle(f, t, target, tools, answer).Ok?
    requires j < |Settle(f, t, target, tools, answer).value.bodies|
    ensures x < |ids| && |Deleted(ids, Descending(tools))| == |Settle(f, t, target, tools, answer).value.bodies|
    ensures var t' := Settle(f, t, target, tools, answer).value;
            && Deleted(ids, Descending(tools))[j] == ids[x] && t'.bodies[j].names == t.bodies[x].names
            && (Some(j) != t'.active ==> x != target && t'.bodies[j].solid == t.bodies[x].solid)
            && (Some(j) == t'.active ==> f.target in t.bodies[x].names)
  {
    var replaced, order := Replace(t, target, answer), Descending(tools);
    var dropped := DropAll(replaced, order).value;
    var again := FirstNamed(dropped.bodies, f.target).value;
    DropAllDeletes(replaced, order);
    DeletedAscends(ids, order);
    x := DeletedFrom(replaced.bodies, ids, order, j);
    var y := DeletedFrom(replaced.bodies, ids, order, again);
  }

  lemma NextIsMerged(d: Document, p: Plan, f: Feature, target: nat)
    requires f.enabled && f.inputs.Boolean? && PlanOk(p)
    requires FirstNamed(p.outline.bodies, f.inputs.target) == Some(target)
    ensures Next(d, p, f) == Merged(p, f.inputs, target)
  {
  }

  /** A boolean that succeeds on the table is planned with the indices it has there. */
  lemma BooleanPlannedAs(f: Inputs, t: Table, p: Plan, target: nat, tools: seq<nat>, answer: Solid)
    requires f.Boolean? && PlanOk(p) && Alike(t, p.outline)
    requires FirstNamed(t.bodies, f.target) == Some(target) && LocateAll(t, f.tools) == Ok(tools)
    requires Settle(f, t, target, tools, answer).Ok?
    ensures FirstNamed(p.outline.bodies, f.target) == Some(target)
    ensures LocateAll(p.outline, f.tools) == Ok(tools)
    ensures Settle(f, p.outline, target, tools, HOLLOW).Ok?
  {
    assert FirstNamed(p.outline.bodies, f.target) == Some(target) by {
      SameFirst(t.bodies, p.outline.bodies, f.target);
    }
    assert LocateAll(p.outline, f.tools) == Ok(tools) by { SameTools(t, p.outline, f.tools); }
    SettleAlike(f, t, p.outline, target, tools, answer, HOLLOW);
  }

  lemma SettleOthersFrom(f: Inputs, t: Table, p: Plan, target: nat, tools: seq<nat>, answer: Solid)
    requires f.Boolean? && PlanOk(p) && Alike(t, p.outline) && FirstNamed(t.bodies, f.target) == Some(target)
    requires Settle(f, t, target, tools, answer).Ok?
    requires LocateAll(p.outline, f.tools) == Ok(tools) && Settle(f, p.outline, target, tools, HOLLOW).Ok?
    ensures OthersFrom(t, p, Settle(f, t, target, tools, answer).value, Merged(p, f, target))
  {
    var t', p' := Settle(f, t, target, tools, answer).value, Merged(p, f, target);
    SettleAlike(f, t, p.outline, target, tools, answer, HOLLOW);
    MergedOk(p, f, target);
    forall j | 0 <= j < |t'.bodies| && Some(j) != t'.active ensures Has(t, p.ids, p'.ids[j], t'.bodies[j].solid) {
      var x := j;
      if !f.keepTools { x := SettleWritesOne(f, t, p.ids, target, tools, answer, j); }
      assert p.ids[x] == p'.ids[j] && t.bodies[x].solid == t'.bodies[j].solid;
    }
  }

  lemma BooleanWritesOne(k: Kernel, d: Document, m: Machine, p: Plan, f: Feature)
    requires ActiveOk(m.table) && PlanOk(p) && Alike(m.table, p.outline) && Step(k, d, m, f).Ok?
    requires f.enabled && f.inputs.Boolean?
    ensures OthersFrom(m.table, p, Step(k, d, m, f).value.table, Next(d, p, f))
  {
    AnswerFinds(k, f.inputs, m.table);
    var (target, tools, answer) := Answer(k, f.inputs, m.table).value;
    BooleanPlannedAs(f.inputs, m.table, p, target, tools, answer);
    NextIsMerged(d, p, f, target);
    SettleOthersFrom(f.inputs, m.table, p, target, tools, answer);
  }

  /** A feature that builds something writes one body and leaves it active; every other body that is
      left is as it was. */
  lemma StepWritesOne(k: Kernel, d: Document, i: nat)
    requires i < |d.features| && RunTo(k, d, i + 1).Ok? && Touches(d.features[i])
    ensures RunTo(k, d, i).Ok?
    ensures OthersFrom(RunTo(k, d, i).value.table, PlanAt(d, i), RunTo(k, d, i + 1).value.table, PlanAt(d, i + 1))
  {
    var m, f := RunTo(k, d, i).value, d.features[i];
    PlanIsTheRun(k, d, i);
    if f.inputs.MakesTool() { SolidWritesOne(k, d, m, PlanAt(d, i), f); }
    else if f.inputs.Boolean? { BooleanWritesOne(k, d, m, PlanAt(d, i), f); }
    else { RestWritesOne(k, d, m, PlanAt(d, i), f); }
  }

  /** The body an enabled feature means, or the next one to be made. */
  function Target(d: Document, p: Plan, f: Feature): nat
    requires PlanOk(p)
  {
    if f.inputs.StartsBody() || Meant(p, Referred(d, f)).None? then p.next else Meant(p, Referred(d, f)).value
  }

  lemma MergedTarget(p: Plan, f: Inputs, target: nat, known: set<string>)
    requires PlanOk(p) && f.Boolean? && NameSets.Separate(p.outline.bodies, known)
    requires FirstNamed(p.outline.bodies, f.target) == Some(target)
    requires LocateAll(p.outline, f.tools).Ok?
    requires Settle(f, p.outline, target, LocateAll(p.outline, f.tools).value, HOLLOW).Ok?
    ensures PlanOk(Merged(p, f, target)) && Current(Merged(p, f, target)) == Some(p.ids[target])
  {
    MergedOk(p, f, target);
    if !f.keepTools {
      hide Settle, LocateAll, FirstNamed, Deleted, Descending;
      var tools := LocateAll(p.outline, f.tools).value;
      var t' := Settle(f, p.outline, target, tools, HOLLOW).value;
      var x := SettleWritesOne(f, p.outline, p.ids, target, tools, HOLLOW, t'.active.value);
      assert f.target in p.outline.bodies[x].names && f.target in p.outline.bodies[target].names;
    }
  }

  lemma SameSeparate(a: seq<Entry>, b: seq<Entry>, known: set<string>)
    requires SameNames(a, b) && NameSets.Separate(a, known)
    ensures NameSets.Separate(b, known)
  {
  }

  /** No name is planned on two bodies. */
  lemma PlanSeparate(k: Kernel, d: Document, n: nat)
    requires UniqueResults(d) && n <= |d.features| && RunTo(k, d, n).Ok?
    ensures NameSets.Separate(PlanAt(d, n).outline.bodies, Declared(d, n))
  {
    NameSets.NameSetsDisjoint(k, d, n);
    PlanIsTheRun(k, d, n);
    SameSeparate(RunTo(k, d, n).value.table.bodies, PlanAt(d, n).outline.bodies, Declared(d, n));
  }

  lemma BooleanTarget(d: Document, f: Feature, t: Table, p: Plan, known: set<string>, target: nat, tools: seq<nat>,
                      answer: Solid)
    requires f.enabled && f.inputs.Boolean? && PlanOk(p) && Alike(t, p.outline)
    requires FirstNamed(t.bodies, f.inputs.target) == Some(target) && LocateAll(t, f.inputs.tools) == Ok(tools)
    requires Settle(f.inputs, t, target, tools, answer).Ok? && NameSets.Separate(p.outline.bodies, known)
    ensures PlanOk(Next(d, p, f)) && Current(Next(d, p, f)) == Some(Target(d, p, f))
  {
    BooleanPlannedAs(f.inputs, t, p, target, tools, answer);
    NextIsMerged(d, p, f, target);
    MergedTarget(p, f.inputs, target, known);
  }

  lemma StepTarget(k: Kernel, d: Document, m: Machine, p: Plan, f: Feature, known: set<string>)
    requires Touches(f) && ActiveOk(m.table) && PlanOk(p) && Alike(m.table, p.outline) && Step(k, d, m, f).Ok?
    requires NameSets.Separate(p.outline.bodies, known)
    ensures PlanOk(Next(d, p, f)) && Current(Next(d, p, f)) == Some(Target(d, p, f))
  {
    if f.inputs.Boolean? {
      AnswerFinds(k, f.inputs, m.table);
      var (target, tools, answer) := Answer(k, f.inputs, m.table).value;
      BooleanTarget(d, f, m.table, p, known, target, tools, answer);
    } else {
      OtherTarget(k, d, f, m, p);
    }
  }

  lemma OtherTarget(k: Kernel, d: Document, f: Feature, m: Machine, p: Plan)
    requires Touches(f) && !f.inputs.Boolean? && ActiveOk(m.table) && PlanOk(p) && Alike(m.table, p.outline)
    requires Step(k, d, m, f).Ok?
    ensures PlanOk(Next(d, p, f)) && Current(Next(d, p, f)) == Some(Target(d, p, f))
  {
    NextOk(d, p, f);
    SameLocated(m.table, p.outline, Referred(d, f));
    if f.inputs.MakesTool() { SolidPlanned(k, d, f, m, p); }
  }

  /** Where no two features declare one result, that is the body the feature means, or the next one. */
  lemma OwnerIsTarget(k: Kernel, d: Document, i: nat)
    requires UniqueResults(d) && i < |d.features| && RunTo(k, d, i + 1).Ok? && Touches(d.features[i])
    ensures Owner(d, i + 1) == Some(Target(d, PlanAt(d, i), d.features[i]))
  {
    var m, p, f := RunTo(k, d, i).value, PlanAt(d, i), d.features[i];
    assert Alike(m.table, p.outline) by { PlanIsTheRun(k, d, i); }
    assert NameSets.Separate(p.outline.bodies, Declared(d, i)) by { PlanSeparate(k, d, i); }
    StepTarget(k, d, m, p, f, Declared(d, i));
  }

  /** The last feature among the first `n` that builds something. */
  function LastTouch(d: Document, n: nat): (last: Option<nat>)
    requires n <= |d.features|
    ensures last.Some? ==> last.value < n && Touches(d.features[last.value])
    ensures last.Some? ==> forall i :: last.value < i < n ==> !Touches(d.features[i])
    ensures last.None? ==> forall i :: 0 <= i < n ==> !Touches(d.features[i])
  {
    if n == 0 then None else if Touches(d.features[n - 1]) then Some(n - 1) else LastTouch(d, n - 1)
  }

  lemma {:induction false} NothingSince(k: Kernel, d: Document, i: nat, n: nat)
    requires i <= n <= |d.features| && RunTo(k, d, n).Ok?
    requires forall j :: i <= j < n ==> !Touches(d.features[j])
    ensures RunTo(k, d, i).Ok? && RunTo(k, d, n).value.table == RunTo(k, d, i).value.table
    ensures PlanAt(d, n) == PlanAt(d, i)
  {
    if i < n {
      RunsBefore(k, d, n - 1, n);
      NothingSince(k, d, i, n - 1);
    }
  }

  /** Over every run of the table the active body is the one the last feature that builds something
      went to, and every other body is as it was before that feature; before there is one, there is no
      body. */
  lemma ActiveIsLastTouched(k: Kernel, d: Document, n: nat)
    requires n <= |d.features| && RunTo(k, d, n).Ok?
    ensures LastTouch(d, n).None? ==> RunTo(k, d, n).value.table == EMPTY
    ensures LastTouch(d, n).Some? ==>
              var last := LastTouch(d, n).value;
              && RunTo(k, d, last).Ok?
              && OthersFrom(RunTo(k, d, last).value.table, PlanAt(d, last), RunTo(k, d, n).value.table, PlanAt(d, n))
              && (UniqueResults(d) ==> Owner(d, n) == Some(Target(d, PlanAt(d, last), d.features[last])))
  {
    match LastTouch(d, n)
    case None => NothingSince(k, d, 0, n);
    case Some(last) =>
      NothingSince(k, d, last + 1, n);
      StepWritesOne(k, d, last);
      if UniqueResults(d) { OwnerIsTarget(k, d, last); }
  }
}
