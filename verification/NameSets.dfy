/** Over every run of the table itself, repeated tools included, no name belongs to two bodies. */
module NameSets {
  import opened Prelude
  import opened Solids
  import opened CadDocument
  import opened KernelModel
  import opened BodyTable
  import opened Booleans
  import A = Adapter

  /** No name is shared, and every name is one of these. */
  predicate Separate(bodies: seq<Entry>, known: set<string>) {
    && (forall i, j :: 0 <= i < j < |bodies| ==> bodies[i].names !! bodies[j].names)
    && (forall i :: 0 <= i < |bodies| ==> bodies[i].names <= known)
  }

  lemma FoundByName(bodies: seq<Entry>, name: string)
    ensures FirstNamed(bodies, name).None? ==> forall i :: 0 <= i < |bodies| ==> name !in bodies[i].names
  {
  }

  lemma CreateSeparates(t: Table, known: set<string>, solid: Solid, names: set<string>)
    requires Separate(t.bodies, known) && Create(t, solid, names).Ok?
    ensures Separate(Create(t, solid, names).value.bodies, known + names)
  {
    forall i | 0 <= i < |t.bodies| ensures t.bodies[i].names !! names {
      forall name | name in names ensures name !in t.bodies[i].names {
        assert Find(t, name).None?;
        FoundByName(t.bodies, name);
      }
    }
  }

  lemma AliasSeparates(t: Table, known: set<string>, i: nat, names: set<string>)
    requires Separate(t.bodies, known) && i < |t.bodies| && names !! known
    ensures Separate(Alias(t, i, names).bodies, known + names)
  {
    var bodies := Alias(t, i, names).bodies;
    forall a, b | 0 <= a < b < |bodies| ensures bodies[a].names !! bodies[b].names {
      assert t.bodies[a].names <= known && t.bodies[b].names <= known;
    }
  }

  lemma {:induction false} DropAllSeparates(t: Table, known: set<string>, order: seq<nat>)
    requires Separate(t.bodies, known) && DropAll(t, order).Ok?
    ensures Separate(DropAll(t, order).value.bodies, known)
    decreases |order|
  {
    if order != [] { DropAllSeparates(Drop(t, order[0]), known, order[1..]); }
  }

  lemma ReplaceSeparates(t: Table, known: set<string>, i: nat, solid: Solid)
    requires Separate(t.bodies, known) && i < |t.bodies|
    ensures Separate(Replace(t, i, solid).bodies, known)
  {
  }

  lemma SettleSeparates(f: Inputs, t: Table, target: nat, tools: seq<nat>, result: Solid, known: set<string>)
    requires f.Boolean? && Separate(t.bodies, known) && target < |t.bodies|
    requires Settle(f, t, target, tools, result).Ok?
    ensures Separate(Settle(f, t, target, tools, result).value.bodies, known)
  {
    var replaced := Replace(t, target, result);
    ReplaceSeparates(t, known, target, result);
    if !f.keepTools {
      DropAllSeparates(replaced, known, Descending(tools));
      var dropped := DropAll(replaced, Descending(tools)).value;
      ReplaceSeparates(dropped, known, FirstNamed(dropped.bodies, f.target).value, result);
    }
  }

  lemma CombineSeparates(k: Kernel, f: Inputs, t: Table, known: set<string>)
    requires f.Boolean? && Separate(t.bodies, known) && Combine(k, f, t).Ok?
    ensures Separate(Combine(k, f, t).value.bodies, known)
  {
    var (target, tools, result) := Answer(k, f, t).value;
    SettleSeparates(f, t, target, tools, result, known);
  }

  lemma SolidSeparates(k: Kernel, f: Feature, m: A.Machine, known: set<string>)
    requires f.inputs.MakesTool() && ActiveOk(m.table) && Separate(m.table.bodies, known) && BodyNames(f) !! known
    requires A.ApplySolid(k, f, m).Ok?
    ensures Separate(A.ApplySolid(k, f, m).value.bodies, known + BodyNames(f))
  {
    var t := m.table;
    var target := if f.inputs.StartsBody() then None else Locate(t, f.inputs.Source()).value;
    var base := if target.None? then None else Some(t.bodies[target.value].solid);
    var solid := A.ToolOf(k, f, base, m.planes, A.Carriers(t, f.inputs.Sketches())).value;
    if target.None? {
      CreateSeparates(t, known, solid, BodyNames(f));
    } else {
      AliasSeparates(Replace(t, target.value, Combined(base.value, solid, f.inputs.cut)), known, target.value,
                     BodyNames(f));
    }
  }

  lemma OneBodyChanges(k: Kernel, d: Document, m: A.Machine, f: Feature, known: set<string>)
    requires f.enabled && !f.inputs.MakesTool() && !f.inputs.Boolean?
    requires ActiveOk(m.table) && Separate(m.table.bodies, known) && A.Step(k, d, m, f).Ok?
    ensures Separate(A.Step(k, d, m, f).value.table.bodies, known)
  {
    var t := m.table;
    if f.inputs.Pattern? {
      var i := A.PatternTarget(Sources(d.features), f, t).value;
      ReplaceSeparates(t, known, i, A.Patterned(k, Sources(d.features), f, t.bodies[i].solid, m.planes).value);
    } else if f.inputs.Rewrites() {
      var i := FirstNamed(t.bodies, f.inputs.RewrittenBody()).value;
      ReplaceSeparates(t, known, i, k.rewrite(f, t.bodies[i].solid).value);
    }
  }

  lemma MoreKnown(bodies: seq<Entry>, known: set<string>, more: set<string>)
    requires Separate(bodies, known)
    ensures Separate(bodies, known + more)
  {
  }

  lemma StepSeparates(k: Kernel, d: Document, m: A.Machine, f: Feature, known: set<string>)
    requires ActiveOk(m.table) && Separate(m.table.bodies, known) && BodyNames(f) !! known
    requires A.Step(k, d, m, f).Ok?
    ensures Separate(A.Step(k, d, m, f).value.table.bodies, known + BodyNames(f))
  {
    if !f.enabled {
      MoreKnown(m.table.bodies, known, BodyNames(f));
    } else {
      if f.inputs.MakesTool() { SolidSeparates(k, f, m, known); }
      else if f.inputs.Boolean? { CombineSeparates(k, f.inputs, m.table, known); }
      else { OneBodyChanges(k, d, m, f, known); }
      if !f.inputs.MakesTool() { MoreKnown(A.Step(k, d, m, f).value.table.bodies, known, BodyNames(f)); }
    }
  }

  /** When no two features declare one result name, the bodies' name sets stay pairwise disjoint; the
      active index is valid exactly when there is a body. */
  lemma {:induction false} NameSetsDisjoint(k: Kernel, d: Document, n: nat)
    requires UniqueResults(d) && n <= |d.features| && A.RunTo(k, d, n).Ok?
    ensures Separate(A.RunTo(k, d, n).value.table.bodies, Declared(d, n))
    ensures ActiveOk(A.RunTo(k, d, n).value.table)
  {
    if n > 0 {
      NameSetsDisjoint(k, d, n - 1);
      NotYetDeclared(d, n - 1, n - 1);
      StepSeparates(k, d, A.RunTo(k, d, n - 1).value, d.features[n - 1], Declared(d, n - 1));
    }
  }

  /** The rule is needed: adding names checks nothing, so two features declaring one name leave it
      on two bodies, where only the first answers to it. */
  lemma AliasMayShare(plate: Solid, stud: Solid)
    ensures var t := Table([Entry(plate, {"plate"}), Entry(stud, {"stud"})], Some(1));
            !Separate(Alias(t, 1, {"plate"}).bodies, {"plate", "stud"})
            && Locate(Alias(t, 1, {"plate"}), Some("plate")) == Ok(Some(0))
  {
    var t := Table([Entry(plate, {"plate"}), Entry(stud, {"stud"})], Some(1));
    var bodies := Alias(t, 1, {"plate"}).bodies;
    assert "plate" in bodies[0].names && "plate" in bodies[1].names;
  }
}
