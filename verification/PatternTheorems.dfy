/** Patterns: where their instances go, and what the part becomes. */
module PatternTheorems {
  import opened Prelude
  import opened Solids
  import opened CadDocument
  import opened KernelModel
  import opened BodyTable
  import opened Booleans
  import opened Adapter
  import AB = ActiveBody
  import NT = NameTheorems
  import O = Outlines
  import P = BodyPlan

  // ----- which body ----------------------------------------------------------------------

  /** The canonical validator's rules for ids and patterns. */
  predicate UniqueIds(d: Document) {
    forall i, j :: 0 <= i < j < |d.features| ==> d.features[i].id != d.features[j].id
  }

  predicate RepeatsEarlier(d: Document, i: nat, j: nat) {
    i < j < |d.features| && d.features[j].inputs.Pattern? && d.features[i].id == d.features[j].inputs.of
  }

  predicate PatternsLookBack(d: Document) {
    forall j :: 0 <= j < |d.features| && d.features[j].inputs.Pattern? ==>
      exists i :: 0 <= i < j && RepeatsEarlier(d, i, j)
  }

  lemma SourceAt(d: Document, i: nat)
    requires UniqueIds(d) && i < |d.features|
    ensures d.features[i].id in Sources(d.features) && Sources(d.features)[d.features[i].id] == d.features[i]
  {
    SourcesAreFeatures(d.features, d.features[i].id);
    var f := Sources(d.features)[d.features[i].id];
    var j :| 0 <= j < |d.features| && d.features[j] == f;
    assert j == i;
  }

  /** In a validated document every chain of patterns ends at an earlier feature that is not a
      pattern; the guard against repeated names never fires. */
  lemma {:induction false} ChainsReachASource(d: Document, j: nat, seen: set<string>) returns (i: nat)
    requires UniqueIds(d) && PatternsLookBack(d) && j < |d.features|
    requires forall n :: 0 <= n < j ==> d.features[n].id !in seen
    ensures i <= j && !d.features[i].inputs.Pattern?
    ensures ChainEnd(Sources(d.features), d.features[j], seen) == Some(d.features[i])
  {
    i := j;
    if d.features[j].inputs.Pattern? {
      var n :| 0 <= n < j && RepeatsEarlier(d, n, j);
      SourceAt(d, n);
      i := ChainsReachASource(d, n, seen + {d.features[n].id});
    }
  }

  /** Feature `j` is a pattern that a chain of patterns leads back to the tool-making feature `i`. */
  predicate Repeats(d: Document, i: nat, j: nat) {
    && i < j < |d.features| && d.features[i].enabled && d.features[i].inputs.MakesTool()
    && d.features[j].inputs.Pattern?
    && ChainEnd(Sources(d.features), d.features[j], {}) == Some(d.features[i])
  }

  function Identity(p: P.Plan, at: nat): Option<nat> { if at < |p.ids| then Some(p.ids[at]) else None }

  /** The body a pattern goes into on the table, when it comes to its turn. */
  function PatternBody(k: Kernel, d: Document, j: nat): Result<Option<nat>, Failure>
    requires j < |d.features|
  {
    match RunTo(k, d, j)
    case Err(e) => Err(e)
    case Ok(m) =>
      match PatternTarget(Sources(d.features), d.features[j], m.table)
      case Err(e) => Err(e)
      case Ok(at) => Ok(Identity(P.PlanAt(d, j), at))
  }

  /** The body the first `n` features leave active on the table. */
  function ActiveBody(k: Kernel, d: Document, n: nat): Option<nat>
    requires n <= |d.features|
  {
    match RunTo(k, d, n)
    case Err(_) => None
    case Ok(m) => match m.table.active case None => None case Some(at) => Identity(P.PlanAt(d, n), at)
  }

  /** The pattern goes into the body its source went to. */
  predicate Follows(k: Kernel, d: Document, i: nat, j: nat)
    requires i < j < |d.features|
  {
    ActiveBody(k, d, i + 1).Some? && PatternBody(k, d, j) == Ok(ActiveBody(k, d, i + 1))
  }

  lemma ActiveIsOwner(k: Kernel, d: Document, n: nat)
    requires n <= |d.features| && RunTo(k, d, n).Ok?
    ensures ActiveBody(k, d, n) == P.Owner(d, n)
    ensures P.Owner(d, n).Some? <==> RunTo(k, d, n).value.table.active.Some?
  {
    P.PlanIsTheRun(k, d, n);
  }

  /** What the pattern's reference means on the table is what it means in the plan. */
  lemma PatternBodyPlanned(k: Kernel, d: Document, i: nat, j: nat)
    requires Repeats(d, i, j) && RunTo(k, d, j).Ok?
    ensures var meant := P.Meant(P.PlanAt(d, j), d.features[i].inputs.Source());
            && (PatternBody(k, d, j).Ok? <==> meant.Some?)
            && (meant.Some? ==> PatternBody(k, d, j) == Ok(meant))
            && (meant.None? && d.features[i].inputs.Source().Some? ==>
                  PatternBody(k, d, j) == Err(Refused("FEATURE_RESULT_UNAVAILABLE")))
  {
    P.PlanIsTheRun(k, d, j);
    O.SameLocated(RunTo(k, d, j).value.table, P.PlanAt(d, j).outline, d.features[i].inputs.Source());
  }

  lemma SolidLeavesActive(k: Kernel, f: Feature, m: Machine)
    requires f.inputs.MakesTool() && ActiveOk(m.table) && ApplySolid(k, f, m).Ok?
    ensures ApplySolid(k, f, m).value.active.Some?
  {
    hide ToolOf, Carriers, Combined;
  }

  lemma CombineLeavesActive(k: Kernel, f: Inputs, t: Table)
    requires f.Boolean? && Combine(k, f, t).Ok?
    ensures Combine(k, f, t).value.active.Some?
  {
    hide Answer, DropAll, Descending;
  }

  lemma PatternLeavesActive(k: Kernel, sources: map<string, Feature>, f: Feature, m: Machine)
    requires f.inputs.Pattern? && ActiveOk(m.table) && ApplyPattern(k, sources, f, m).Ok?
    ensures ApplyPattern(k, sources, f, m).value.active.Some?
  {
    hide Patterned, PatternTarget;
  }

  lemma StepLeavesActive(k: Kernel, d: Document, m: Machine, f: Feature)
    requires ActiveOk(m.table) && P.Touches(f) && Step(k, d, m, f).Ok?
    ensures Step(k, d, m, f).value.table.active.Some?
  {
    hide ApplySolid, Combine, ApplyPattern;
    if f.inputs.MakesTool() { SolidLeavesActive(k, f, m); }
    else if f.inputs.Boolean? { CombineLeavesActive(k, f.inputs, m.table); }
    else if f.inputs.Pattern? { PatternLeavesActive(k, Sources(d.features), f, m); }
  }

  lemma SourceLeavesActive(k: Kernel, d: Document, i: nat)
    requires i < |d.features| && RunTo(k, d, i + 1).Ok? && P.Touches(d.features[i])
    ensures RunTo(k, d, i + 1).value.table.active.Some?
  {
    StepLeavesActive(k, d, RunTo(k, d, i).value, d.features[i]);
  }

  lemma SourceWentSomewhere(k: Kernel, d: Document, i: nat, j: nat)
    requires i < j <= |d.features| && RunTo(k, d, j).Ok? && P.Touches(d.features[i])
    ensures RunTo(k, d, i + 1).Ok? && P.Owner(d, i + 1).Some? && ActiveBody(k, d, i + 1) == P.Owner(d, i + 1)
  {
    P.RunsBefore(k, d, i + 1, j);
    ActiveIsOwner(k, d, i + 1);
    SourceLeavesActive(k, d, i);
  }

  /** Whatever the document and its booleans: a pattern goes where its source went exactly when the
      reference its source gives still means that body, read off the document before anything is built. */
  lemma PatternFollowsItsSource(k: Kernel, d: Document, i: nat, j: nat)
    requires Repeats(d, i, j) && RunTo(k, d, j).Ok?
    ensures RunTo(k, d, i + 1).Ok? && P.Owner(d, i + 1).Some?
    ensures Follows(k, d, i, j) <==>
            P.Meant(P.PlanAt(d, j), d.features[i].inputs.Source()) == P.Owner(d, i + 1)
  {
    SourceWentSomewhere(k, d, i, j);
    PatternBodyPlanned(k, d, i, j);
  }

  /** A source that named no body leaves the choice to what is active by then: the pattern follows
      it exactly when the same body is active before the pattern as after the source. */
  lemma UnnamedSourceIsFollowedWhenActive(k: Kernel, d: Document, i: nat, j: nat)
    requires Repeats(d, i, j) && RunTo(k, d, j).Ok? && d.features[i].inputs.Source().None?
    ensures RunTo(k, d, i + 1).Ok? && (Follows(k, d, i, j) <==> P.Owner(d, j) == P.Owner(d, i + 1))
  {
    PatternFollowsItsSource(k, d, i, j);
  }

  lemma NamedWasFound(k: Kernel, d: Document, m: Machine, p: P.Plan, f: Feature, name: string)
    requires ActiveOk(m.table) && P.PlanOk(p) && O.Alike(m.table, p.outline) && Step(k, d, m, f).Ok?
    requires f.enabled && f.inputs.MakesTool() && !f.inputs.StartsBody() && f.inputs.Source() == Some(name)
    ensures Locate(m.table, Some(name)).Ok? && P.Meant(p, Some(name)).Some?
    ensures AB.Target(d, p, f) == P.Meant(p, Some(name)).value
  {
    O.SameLocated(m.table, p.outline, Some(name));
  }

  /** The source went to the body it named. */
  lemma WentToNamed(k: Kernel, d: Document, i: nat, p: P.Plan, name: string)
    requires UniqueResults(d) && i < |d.features| && RunTo(k, d, i + 1).Ok? && p == P.PlanAt(d, i)
    requires d.features[i].enabled && d.features[i].inputs.MakesTool() && !d.features[i].inputs.StartsBody()
    requires d.features[i].inputs.Source() == Some(name)
    ensures P.Meant(p, Some(name)).Some? && P.Meant(p, Some(name)) == P.Owner(d, i + 1) && name in Declared(d, i)
  {
    var m := RunTo(k, d, i).value;
    assert O.Alike(m.table, p.outline) by { P.PlanIsTheRun(k, d, i); }
    NamedWasFound(k, d, m, p, d.features[i], name);
    assert P.Owner(d, i + 1) == P.Meant(p, Some(name)) by { AB.OwnerIsTarget(k, d, i); }
    assert name in NT.Added(d, i) by { NT.OnlyAddedNamesResolve(k, d, i, name); }
    AddedAreDeclared(d, i);
  }

  lemma {:induction false} AddedAreDeclared(d: Document, n: nat)
    requires n <= |d.features|
    ensures NT.Added(d, n) <= Declared(d, n)
  {
    if n > 0 { AddedAreDeclared(d, n - 1); }
  }

  /** A source that named its body is followed exactly as long as that body is on the table, whichever way
      it may have left it; a pattern of a source whose body has left is refused. */
  lemma NamedSourceIsFollowedWhileAlive(k: Kernel, d: Document, i: nat, j: nat)
    requires UniqueResults(d) && Repeats(d, i, j) && RunTo(k, d, j).Ok?
    requires d.features[i].inputs.Source().Some? && !d.features[i].inputs.StartsBody()
    ensures RunTo(k, d, i + 1).Ok? && P.Owner(d, i + 1).Some?
    ensures Follows(k, d, i, j) <==> P.Owner(d, i + 1).value in P.PlanAt(d, j).ids
    ensures Follows(k, d, i, j) || PatternBody(k, d, j) == Err(Refused("FEATURE_RESULT_UNAVAILABLE"))
  {
    hide P.Meant, NT.Kept, Step, P.Next, RunTo, P.PlanAt;
    var name := d.features[i].inputs.Source().value;
    PatternFollowsItsSource(k, d, i, j);
    WentToNamed(k, d, i, P.PlanAt(d, i), name);
    NT.PlannedNamesStay(k, d, i, j, name);
    PatternBodyPlanned(k, d, i, j);
    ActiveIsOwner(k, d, i + 1);
    KeptWhileThere(P.PlanAt(d, i), P.PlanAt(d, j), name);
  }

  /** A name that stays means its body as long as that is there, and then nothing. */
  lemma KeptWhileThere(p: P.Plan, q: P.Plan, name: string)
    requires P.PlanOk(p) && P.PlanOk(q) && NT.Kept(p, q, name) && P.Meant(p, Some(name)).Some?
    ensures P.Meant(q, Some(name)) == if P.Meant(p, Some(name)).value in q.ids then P.Meant(p, Some(name)) else None
  {
  }

  /** A feature that starts a body of its own goes to one there was not before. */
  lemma NewBodyIsNew(k: Kernel, d: Document, i: nat)
    requires i < |d.features| && RunTo(k, d, i + 1).Ok?
    requires d.features[i].enabled && d.features[i].inputs.MakesTool() && d.features[i].inputs.StartsBody()
    ensures RunTo(k, d, i).Ok? && P.Owner(d, i + 1) == Some(P.PlanAt(d, i).next)
    ensures P.PlanAt(d, i).next !in P.PlanAt(d, i).ids && P.PlanAt(d, i + 1).next == P.PlanAt(d, i).next + 1
    ensures P.PlanAt(d, i + 1).ids == P.PlanAt(d, i).ids + [P.PlanAt(d, i).next]
  {
    hide Step, P.Next, P.Meant, O.Alike;
    P.RunsBefore(k, d, i, i + 1);
    P.PlanIsTheRun(k, d, i);
    MadeNew(k, d, RunTo(k, d, i).value, P.PlanAt(d, i), d.features[i]);
  }

  lemma MadeNew(k: Kernel, d: Document, m: Machine, p: P.Plan, f: Feature)
    requires ActiveOk(m.table) && P.PlanOk(p) && O.Alike(m.table, p.outline) && Step(k, d, m, f).Ok?
    requires f.enabled && f.inputs.MakesTool() && (f.inputs.StartsBody() || P.Meant(p, f.inputs.Source()).None?)
    ensures var p' := P.Next(d, p, f);
            P.PlanOk(p') && p'.ids == p.ids + [p.next] && p'.next == p.next + 1 && P.Current(p') == Some(p.next)
  {
    P.NextOk(d, p, f);
    O.SameLocated(m.table, p.outline, f.inputs.Source());
    P.SolidPlanned(k, d, f, m, p);
  }

  /** A source that starts a body and yet names one declared before it, which only a revolve may do, is
      never followed: its contribution is a body of its own, and the pattern goes into the other. */
  lemma NewBodyThatNamesAnother(k: Kernel, d: Document, i: nat, j: nat)
    requires UniqueResults(d) && Repeats(d, i, j) && RunTo(k, d, j).Ok?
    requires d.features[i].inputs.StartsBody() && d.features[i].inputs.Source().Some?
    requires d.features[i].inputs.Source().value in Declared(d, i)
    ensures RunTo(k, d, i + 1).Ok? && !Follows(k, d, i, j)
  {
    var name := d.features[i].inputs.Source().value;
    PatternFollowsItsSource(k, d, i, j);
    NewBodyNotMeant(k, d, i, j, P.PlanAt(d, i), P.PlanAt(d, j), name);
  }

  lemma NewBodyNotMeant(k: Kernel, d: Document, i: nat, j: nat, p: P.Plan, q: P.Plan, name: string)
    requires UniqueResults(d) && i < j < |d.features| && RunTo(k, d, j).Ok? && name in Declared(d, i)
    requires d.features[i].enabled && d.features[i].inputs.MakesTool() && d.features[i].inputs.StartsBody()
    requires RunTo(k, d, i + 1).Ok? && p == P.PlanAt(d, i) && q == P.PlanAt(d, j)
    ensures P.Meant(q, Some(name)) != P.Owner(d, i + 1)
  {
    assert P.Owner(d, i + 1) == Some(p.next) by { NewBodyIsNew(k, d, i); }
    NT.PlannedNamesStay(k, d, i, j, name);
    KeptIsOld(p, q, name);
  }

  /** A name that stays means no body that was yet to be made. */
  lemma KeptIsOld(p: P.Plan, q: P.Plan, name: string)
    requires P.PlanOk(p) && P.PlanOk(q) && NT.Kept(p, q, name)
    ensures P.Meant(q, Some(name)) != Some(p.next)
  {
  }

  /** A plate, a revolve beside it that names it, and a pattern of the revolve. */
  predicate PlateRevolvePattern(d: Document) {
    && |d.features| == 3 && UniqueIds(d)
    && d.features[0].enabled && d.features[0].inputs.IsAdditive() && d.features[0].inputs.Source().None?
    && d.features[1].enabled && d.features[1].inputs.Revolve? && d.features[1].inputs.StartsBody()
    && d.features[1].inputs.Source().Some? && d.features[1].inputs.Source().value in BodyNames(d.features[0])
    && d.features[2].inputs.Pattern? && d.features[2].inputs.of == d.features[1].id
  }

  /** The first feature makes body 0. */
  lemma PlateIsZero(k: Kernel, d: Document)
    requires |d.features| >= 1 && RunTo(k, d, 1).Ok?
    requires d.features[0].enabled && d.features[0].inputs.IsAdditive() && d.features[0].inputs.Source().None?
    ensures P.PlanAt(d, 1).ids == [0] && P.PlanAt(d, 1).next == 1 && P.Owner(d, 1) == Some(0)
  {
    assert RunTo(k, d, 0) == Ok(START) && P.PlanAt(d, 0) == P.NO_BODIES;
    MadeNew(k, d, START, P.NO_BODIES, d.features[0]);
  }

  /** The revolve is body 1; its repetitions go into the plate, body 0. */
  lemma RevolvePatternLandsInThePlate(k: Kernel, d: Document)
    requires PlateRevolvePattern(d) && UniqueResults(d) && RunTo(k, d, 2).Ok?
    ensures Repeats(d, 1, 2) && ActiveBody(k, d, 2) == Some(1) && PatternBody(k, d, 2) == Ok(Some(0))
  {
    var name := d.features[1].inputs.Source().value;
    assert Repeats(d, 1, 2) by {
      SourceAt(d, 1);
      assert ChainEnd(Sources(d.features), d.features[2], {}) == Some(d.features[1]);
    }
    PlateKeepsItsName(k, d, name);
    ActiveIsOwner(k, d, 2);
    PatternBodyPlanned(k, d, 1, 2);
  }

  lemma PlateKeepsItsName(k: Kernel, d: Document, name: string)
    requires PlateRevolvePattern(d) && UniqueResults(d) && RunTo(k, d, 2).Ok? && name in BodyNames(d.features[0])
    ensures P.Owner(d, 2) == Some(1) && P.Meant(P.PlanAt(d, 2), Some(name)) == Some(0)
  {
    P.RunsBefore(k, d, 1, 2);
    PlateIsZero(k, d);
    NewBodyIsNew(k, d, 1);
    NT.AddedNamesResolve(k, d, 0, 2, name);
    NT.MeansAsPlanned(k, d, 2, name);
  }

  /** A plate, a hole in it, a stud of its own, then a pattern of the hole; none names a body. */
  predicate PlateHoleStudPattern(d: Document) {
    && |d.features| == 4 && UniqueIds(d)
    && (forall i :: 0 <= i < 3 ==> d.features[i].enabled && d.features[i].inputs.MakesTool()
                                   && d.features[i].inputs.Source().None?)
    && d.features[0].inputs.IsAdditive() && !d.features[0].inputs.StartsBody()
    && !d.features[1].inputs.IsAdditive() && !d.features[1].inputs.StartsBody()
    && d.features[2].inputs.IsAdditive() && d.features[2].inputs.StartsBody()
    && d.features[3].inputs.Pattern? && d.features[3].inputs.of == d.features[1].id
  }

  lemma WrittenInPlace(d: Document, p: P.Plan, f: Feature)
    requires P.PlanOk(p) && P.Touches(f) && f.inputs.MakesTool() && !f.inputs.StartsBody()
    requires f.inputs.Source().None? && P.Current(p).Some?
    ensures var p' := P.Next(d, p, f);
            P.PlanOk(p') && p'.ids == p.ids && p'.next == p.next && P.Current(p') == P.Current(p)
  {
  }

  lemma HoleStaysInThePlate(k: Kernel, d: Document)
    requires PlateHoleStudPattern(d) && RunTo(k, d, 2).Ok?
    ensures P.PlanAt(d, 2).ids == [0] && P.PlanAt(d, 2).next == 1 && P.Owner(d, 2) == Some(0)
  {
    assert P.PlanAt(d, 1).ids == [0] && P.PlanAt(d, 1).next == 1 && P.Owner(d, 1) == Some(0) by {
      P.RunsBefore(k, d, 1, 2);
      PlateIsZero(k, d);
    }
    WrittenInPlace(d, P.PlanAt(d, 1), d.features[1]);
  }

  /** Where an unnamed source is not followed: the hole went into the plate, body 0; its repetitions go
      into the stud, body 1. */
  lemma PatternLandsInAnotherBody(k: Kernel, d: Document)
    requires PlateHoleStudPattern(d) && RunTo(k, d, 3).Ok?
    ensures Repeats(d, 1, 3) && ActiveBody(k, d, 2) == Some(0) && PatternBody(k, d, 3) == Ok(Some(1))
  {
    assert Repeats(d, 1, 3) by {
      SourceAt(d, 1);
      assert ChainEnd(Sources(d.features), d.features[3], {}) == Some(d.features[1]);
    }
    P.RunsBefore(k, d, 2, 3);
    HoleStaysInThePlate(k, d);
    ActiveIsOwner(k, d, 2);
    StudIsOne(k, d);
    PatternBodyPlanned(k, d, 1, 3);
  }

  lemma StudIsOne(k: Kernel, d: Document)
    requires PlateHoleStudPattern(d) && RunTo(k, d, 3).Ok? && P.PlanAt(d, 2).next == 1
    ensures P.Owner(d, 3) == Some(1)
  {
    NewBodyIsNew(k, d, 2);
  }

  // ----- what is repeated ----------------------------------------------------------------

  /** The walk that finds the body and the walk that makes the tool end at one feature: whatever a
      chain of patterns repeats is that feature's tool, joined or cut as it was, and it is enabled. */
  lemma {:induction false} RepeatsChainEnd(k: Kernel, sources: map<string, Feature>, f: Feature, part: Solid,
                                           planes: map<string, Plane>, seen: set<string>)
    requires f.inputs.Pattern? && Repeated(k, sources, f, part, planes, seen).Ok?
    requires forall name :: name in seen ==> name in sources && sources[name].inputs.Pattern?
    ensures var end := ChainEnd(sources, f, seen);
            && end.Some? && end.value.enabled && end.value.inputs.MakesTool()
            && Repeated(k, sources, f, part, planes, seen).value.1 == end.value.inputs.cut
    decreases sources.Keys - seen
  {
    var source := sources[f.inputs.of];
    if source.inputs.Pattern? {
      RepeatsChainEnd(k, sources, source, part, planes, seen + {f.inputs.of});
    } else {
      assert ChainEnd(sources, source, seen + {f.inputs.of}) == Some(source);
    }
  }

  // ----- what the part becomes -----------------------------------------------------------

  lemma {:induction false} StampIsTogether(k: Kernel, f: Feature, ordinals: seq<nat>, part: Solid, solid: Solid,
                                           cut: bool)
    ensures Stamp(k, f, ordinals, part, solid, cut) == Combined(part, Together(k, f, ordinals, solid), cut)
  {
    if ordinals != [] {
      StampIsTogether(k, f, ordinals[..|ordinals| - 1], part, solid, cut);
    }
  }

  lemma {:induction false} TogetherStartsWith(k: Kernel, f: Feature, first: nat, rest: seq<nat>, solid: Solid)
    ensures Together(k, f, [first] + rest, solid) == Instance(k, f, first, solid) + Together(k, f, rest, solid)
  {
    if rest == [] {
      assert [first] + rest == [first] && [first][..0] == [];
      assert Together(k, f, [first], solid) == Together(k, f, [], solid) + Instance(k, f, first, solid);
    } else {
      var all := [first] + rest;
      assert all[..|all| - 1] == [first] + rest[..|rest| - 1] && all[|all| - 1] == rest[|rest| - 1];
      TogetherStartsWith(k, f, first, rest[..|rest| - 1], solid);
    }
  }

  lemma {:induction false} OriginalIsFirst(f: Inputs, n: nat)
    requires f.Pattern? && n > 0 && (f.spec.Mirror? || 0 !in f.skip)
    ensures Ordinals(f, n) != [] && Ordinals(f, n)[0] == 0
  {
    if n > 1 { OriginalIsFirst(f, n - 1); }
  }

  /** Instance zero is already in the part: on a part its source has just been joined to or cut
      from, a pattern leaves the part with all of its instances joined or cut, the original
      included. */
  lemma PatternAddsTheRest(k: Kernel, sources: map<string, Feature>, f: Feature, before: Solid,
                           planes: map<string, Plane>, solid: Solid, cut: bool)
    requires f.inputs.Pattern? && Count(f.inputs.spec) > 0 && (f.inputs.spec.Mirror? || 0 !in f.inputs.skip)
    requires Repeated(k, sources, f, Combined(before, solid, cut), planes, {}) == Ok((solid, cut))
    requires k.spacing(f).None?
    ensures Patterned(k, sources, f, Combined(before, solid, cut), planes)
            == Ok(Combined(before, Together(k, f, Ordinals(f.inputs, Count(f.inputs.spec)), solid), cut))
  {
    var all, part := Ordinals(f.inputs, Count(f.inputs.spec)), Combined(before, solid, cut);
    OriginalIsFirst(f.inputs, Count(f.inputs.spec));
    assert all == [0] + all[1..];
    StampIsTogether(k, f, all[1..], part, solid, cut);
    TogetherStartsWith(k, f, 0, all[1..], solid);
    assert Combined(part, Together(k, f, all[1..], solid), cut) == Combined(before, Together(k, f, all, solid), cut);
  }
}
