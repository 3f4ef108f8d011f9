/** Running a document on the table of bodies is running it on the world of named bodies. */
module Refinement {
  import opened Prelude
  import opened Solids
  import opened CadDocument
  import opened KernelModel
  import opened TableShowsWorld
  import T = BodyTable
  import B = Booleans
  import A = Adapter
  import W = NamedWorld
  import N = NamedBodies
  import P = BodyPlan
  import O = Outlines
  import BT = BooleanTheorems
  import BC = BodyCounting

  lemma CarriersShow(t: T.Table, ids: seq<nat>, w: W.World, sketches: seq<Sketch>)
    requires Shows(t, ids, w)
    ensures A.Carriers(t, sketches) == N.Carriers(w, sketches)
  {
    forall i | 0 <= i < |sketches| ensures A.Carriers(t, sketches)[i] == N.Carriers(w, sketches)[i] {
      if sketches[i].plane.OnFace? {
        FirstNamedShows(t.bodies, ids, w, sketches[i].plane.face.fromResult);
      }
    }
  }

  /** The tools a boolean would consume are bodies each named once. */
  predicate ToolsDistinct(f: Inputs, w: W.World)
    requires f.Boolean? && W.WorldOk(w)
  {
    !f.keepTools && W.LocateAll(w, f.tools).Ok? ==> Distinct(W.LocateAll(w, f.tools).value)
  }

  lemma SameAnswer(k: Kernel, f: Inputs, t: T.Table, ids: seq<nat>, w: W.World)
    requires f.Boolean? && Shows(t, ids, w)
    ensures f.target in w.names && W.LocateAll(w, f.tools).Ok? ==>
              T.FirstNamed(t.bodies, f.target).Some? && B.LocateAll(t, f.tools).Ok?
              && B.SolidsAt(t, B.LocateAll(t, f.tools).value) == W.SolidsAt(w, W.LocateAll(w, f.tools).value)
  {
    FirstNamedShows(t.bodies, ids, w, f.target);
    LocateAllShows(t, ids, w, f.tools);
  }

  /** Index deletions never show: the target, the tools consumed and the refusals are the same. */
  lemma CombineShows(k: Kernel, f: Inputs, t: T.Table, ids: seq<nat>, w: W.World) returns (ids': seq<nat>)
    requires f.Boolean? && Shows(t, ids, w) && ToolsDistinct(f, w)
    ensures SameOutcome(B.Combine(k, f, t), ids', N.Combine(k, f, w))
  {
    ids' := ids;
    FirstNamedShows(t.bodies, ids, w, f.target);
    LocateAllShows(t, ids, w, f.tools);
    SameAnswer(k, f, t, ids, w);
    if B.Answer(k, f, t).Ok? {
      var (target, tools, answer) := B.Answer(k, f, t).value;
      ReplaceShows(t, ids, w, target, answer);
      if !f.keepTools {
        var named := W.LocateAll(w, f.tools).value;
        ids' := SettleShows(f, t, ids, w, target, tools, named, answer);
      }
    }
  }

  /** A table shows as many bodies as the world has. */
  lemma ShowsAsMany(t: T.Table, ids: seq<nat>, w: W.World)
    requires Shows(t, ids, w)
    ensures |t.bodies| == |w.solids.Keys|
  {
    assert Elements(ids) == w.solids.Keys;
    BT.FewerElements(ids);
    assert Distinct(ids);
  }

  lemma CombineCounts(k: Kernel, f: Inputs, w: W.World)
    requires f.Boolean? && !f.keepTools && W.WorldOk(w) && N.Combine(k, f, w).Ok?
    ensures |N.Combine(k, f, w).value.solids.Keys| == |w.solids.Keys| - |Elements(W.LocateAll(w, f.tools).value)|
  {
    var gone, w' := Elements(W.LocateAll(w, f.tools).value), N.Combine(k, f, w).value;
    assert gone <= w.solids.Keys && w'.solids.Keys == w.solids.Keys - gone;
  }

  lemma TableCounts(k: Kernel, f: Inputs, t: T.Table)
    requires f.Boolean? && !f.keepTools && B.Combine(k, f, t).Ok?
    ensures |B.Combine(k, f, t).value.bodies| == |t.bodies| - |f.tools|
  {
    var (target, tools, answer) := B.Answer(k, f, t).value;
    BT.DescendingFacts(tools);
    BT.DropAllLength(T.Replace(t, target, answer), B.Descending(tools));
  }

  lemma ToolTwiceNeverShown(k: Kernel, f: Inputs, t: T.Table, ids: seq<nat>, w: W.World, ids': seq<nat>)
    requires f.Boolean? && Shows(t, ids, w) && N.Combine(k, f, w).Ok? && !ToolsDistinct(f, w)
    ensures !SameOutcome(B.Combine(k, f, t), ids', N.Combine(k, f, w))
  {
    if SameOutcome(B.Combine(k, f, t), ids', N.Combine(k, f, w)) {
      ShowsAsMany(t, ids, w);
      ShowsAsMany(B.Combine(k, f, t).value, ids', N.Combine(k, f, w).value);
      TableCounts(k, f, t);
      CombineCounts(k, f, w);
      BT.FewerElements(W.LocateAll(w, f.tools).value);
    }
  }

  /** And only then: when a boolean consumes one body under two of its names, the table that comes
      out, if one does, shows no such world. */
  lemma CombineShowsExactly(k: Kernel, f: Inputs, t: T.Table, ids: seq<nat>, w: W.World)
    requires f.Boolean? && Shows(t, ids, w) && N.Combine(k, f, w).Ok?
    ensures (exists ids' :: SameOutcome(B.Combine(k, f, t), ids', N.Combine(k, f, w))) <==> ToolsDistinct(f, w)
  {
    if ToolsDistinct(f, w) {
      var after := CombineShows(k, f, t, ids, w);
    } else {
      forall ids': seq<nat> ensures !SameOutcome(B.Combine(k, f, t), ids', N.Combine(k, f, w)) {
        ToolTwiceNeverShown(k, f, t, ids, w, ids');
      }
    }
  }

  lemma ReshapeThenConsume(w: W.World, id: nat, answer: Solid, gone: set<nat>)
    requires id !in gone
    ensures W.Reshape(W.Consume(W.Reshape(w, id, answer), gone), id, answer)
            == W.Reshape(W.Consume(w, gone), id, answer)
  {
    assert W.Reshape(W.Consume(W.Reshape(w, id, answer), gone), id, answer).solids
           == W.Reshape(W.Consume(w, gone), id, answer).solids;
  }

  lemma SettleShows(f: Inputs, t: T.Table, ids: seq<nat>, w: W.World, target: nat, tools: seq<nat>,
                    named: seq<nat>, answer: Solid) returns (ids': seq<nat>)
    requires f.Boolean? && !f.keepTools && Shows(t, ids, w)
    requires f.target in w.names && target < |ids| && ids[target] == w.names[f.target]
    requires Distinct(named) && |named| == |tools|
    requires forall i :: 0 <= i < |tools| ==> tools[i] < |ids| && named[i] == ids[tools[i]]
    ensures SameOutcome(B.Settle(f, t, target, tools, answer), ids',
              if ids[target] in named then Err(Refused("FEATURE_RESULT_UNAVAILABLE"))
              else Ok(W.Reshape(W.Consume(w, Elements(named)), ids[target], answer)))
  {
    var replaced, shaped, gone := T.Replace(t, target, answer), W.Reshape(w, ids[target], answer), Elements(named);
    assert Shows(replaced, ids, shaped) by { ReplaceShows(t, ids, w, target, answer); }
    ids' := ToolsLeave(replaced, ids, shaped, tools, named);
    FoundAgain(f.target, B.DropAll(replaced, B.Descending(tools)).value, ids', shaped, gone, ids[target], answer);
    if ids[target] !in gone { ReshapeThenConsume(w, ids[target], answer, gone); }
  }

  /** After the deletions the target is wherever its name is now, or gone with its name. */
  lemma FoundAgain(name: string, t: T.Table, ids: seq<nat>, w: W.World, gone: set<nat>, target: nat, answer: Solid)
    requires W.WorldOk(w) && name in w.names && w.names[name] == target
    requires ShowsBodies(t.bodies, ids, W.Consume(w, gone))
    ensures target in gone ==> T.FirstNamed(t.bodies, name).None?
    ensures target !in gone ==> T.FirstNamed(t.bodies, name).Some?
    ensures target !in gone ==> Shows(T.Replace(t, T.FirstNamed(t.bodies, name).value, answer), ids,
                                      W.Reshape(W.Consume(w, gone), target, answer))
  {
    FirstNamedShows(t.bodies, ids, W.Consume(w, gone), name);
    if target !in gone {
      ReplaceShows(t, ids, W.Consume(w, gone), T.FirstNamed(t.bodies, name).value, answer);
    }
  }

  lemma ApplySolidShows(k: Kernel, f: Feature, m: A.Machine, ids: seq<nat>, s: N.State) returns (ids': seq<nat>)
    requires f.inputs.MakesTool() && Shows(m.table, ids, s.world) && m.planes == s.planes
    requires BodyNames(f) !! s.world.names.Keys
    ensures SameOutcome(A.ApplySolid(k, f, m), ids', N.ApplySolid(k, f, s))
  {
    ids' := ids;
    var t, w := m.table, s.world;
    if f.inputs.Source().Some? { FirstNamedShows(t.bodies, ids, w, f.inputs.Source().value); }
    CarriersShow(t, ids, w, f.inputs.Sketches());
    var at := if f.inputs.StartsBody() then Ok(None) else T.Locate(t, f.inputs.Source());
    if at.Ok? {
      var base := if at.value.None? then None else Some(t.bodies[at.value.value].solid);
      var tool := A.ToolOf(k, f, base, m.planes, A.Carriers(t, f.inputs.Sketches()));
      if tool.Ok? {
        if at.value.None? {
          CreateShows(t, ids, w, tool.value, BodyNames(f));
          ids' := ids + [w.next];
        } else {
          var joined := Combined(base.value, tool.value, f.inputs.cut);
          ReplaceShows(t, ids, w, at.value.value, joined);
          AliasShows(T.Replace(t, at.value.value, joined), ids, W.Reshape(w, ids[at.value.value], joined),
                     at.value.value, BodyNames(f));
        }
      }
    }
  }

  lemma ApplyPatternShows(k: Kernel, sources: map<string, Feature>, f: Feature, m: A.Machine, ids: seq<nat>, s: N.State)
    requires f.inputs.Pattern? && Shows(m.table, ids, s.world) && m.planes == s.planes
    ensures SameOutcome(A.ApplyPattern(k, sources, f, m), ids, N.ApplyPattern(k, sources, f, s))
  {
    var named := A.ChainSource(sources, f);
    if named.Some? { FirstNamedShows(m.table.bodies, ids, s.world, named.value); }
    var at := A.PatternTarget(sources, f, m.table);
    if at.Ok? {
      var after := A.Patterned(k, sources, f, m.table.bodies[at.value].solid, m.planes);
      if after.Ok? { ReplaceShows(m.table, ids, s.world, at.value, after.value); }
    }
  }

  lemma ApplyRewriteShows(k: Kernel, f: Feature, t: T.Table, ids: seq<nat>, w: W.World)
    requires f.inputs.Rewrites() && Shows(t, ids, w)
    ensures SameOutcome(A.ApplyRewrite(k, f, t), ids, N.ApplyRewrite(k, f, w))
  {
    FirstNamedShows(t.bodies, ids, w, f.inputs.RewrittenBody());
    if T.FirstNamed(t.bodies, f.inputs.RewrittenBody()).Some? {
      var i := T.FirstNamed(t.bodies, f.inputs.RewrittenBody()).value;
      var after := k.rewrite(f, t.bodies[i].solid);
      if after.Ok? { ReplaceShows(t, ids, w, i, after.value); }
    }
  }

  // ----- whole documents -----------------------------------------------------------------

  /** A step binds no name its feature does not declare. */
  lemma StepBinds(k: Kernel, d: Document, s: N.State, f: Feature)
    requires W.WorldOk(s.world)
    ensures N.Step(k, d, s, f).Ok? ==> N.Step(k, d, s, f).value.world.names.Keys <= s.world.names.Keys + BodyNames(f)
  {
  }

  /** Two names of one body on the table are two names of one body in the world. */
  lemma ToolsShown(t: T.Table, ids: seq<nat>, w: W.World, names: seq<string>)
    requires Shows(t, ids, w) && B.LocateAll(t, names).Ok?
    ensures W.LocateAll(w, names).Ok?
    ensures Distinct(W.LocateAll(w, names).value) <==> Distinct(B.LocateAll(t, names).value)
  {
    LocateAllShows(t, ids, w, names);
    var tools, named := B.LocateAll(t, names).value, W.LocateAll(w, names).value;
    forall a, b | 0 <= a < b < |names| ensures named[a] == named[b] <==> tools[a] == tools[b] {
      assert named[a] == ids[tools[a]] && named[b] == ids[tools[b]];
    }
  }

  /** What the document says of a boolean's tools is what the run finds. */
  lemma ToolsAsPlanned(k: Kernel, d: Document, i: nat, ids: seq<nat>, w: W.World)
    requires i < |d.features| && d.features[i].enabled && d.features[i].inputs.Boolean? && A.RunTo(k, d, i).Ok?
    requires Shows(A.RunTo(k, d, i).value.table, ids, w)
    ensures P.EachToolOnce(P.PlanAt(d, i), d.features[i].inputs) <==> ToolsDistinct(d.features[i].inputs, w)
  {
    var t, tools := A.RunTo(k, d, i).value.table, d.features[i].inputs.tools;
    P.PlanIsTheRun(k, d, i);
    O.SameTools(t, P.PlanAt(d, i).outline, tools);
    LocateAllShows(t, ids, w, tools);
    if B.LocateAll(t, tools).Ok? { ToolsShown(t, ids, w, tools); }
  }

  lemma StepShows(k: Kernel, d: Document, m: A.Machine, ids: seq<nat>, s: N.State, f: Feature) returns (ids': seq<nat>)
    requires Shows(m.table, ids, s.world) && m.planes == s.planes
    requires BodyNames(f) !! s.world.names.Keys
    requires f.enabled && f.inputs.Boolean? ==> ToolsDistinct(f.inputs, s.world)
    ensures A.Step(k, d, m, f).Err? ==> N.Step(k, d, s, f) == Err(A.Step(k, d, m, f).error)
    ensures A.Step(k, d, m, f).Ok? ==> N.Step(k, d, s, f).Ok?
    ensures A.Step(k, d, m, f).Ok? ==> A.Step(k, d, m, f).value.planes == N.Step(k, d, s, f).value.planes
    ensures A.Step(k, d, m, f).Ok? ==> Shows(A.Step(k, d, m, f).value.table, ids', N.Step(k, d, s, f).value.world)
  {
    ids' := ids;
    if f.enabled && f.inputs.MakesTool() {
      ids' := ApplySolidShows(k, f, m, ids, s);
    } else if f.enabled && f.inputs.Pattern? {
      ApplyPatternShows(k, Sources(d.features), f, m, ids, s);
    } else if f.enabled && f.inputs.Boolean? {
      ids' := CombineShows(k, f.inputs, m.table, ids, s.world);
    } else if f.enabled && f.inputs.Rewrites() {
      ApplyRewriteShows(k, f, m.table, ids, s.world);
    }
  }

  lemma {:induction false} RunShows(k: Kernel, d: Document, n: nat) returns (ids: seq<nat>)
    requires n <= |d.features| && UniqueResults(d) && P.NoToolTwiceBefore(d, n)
    ensures A.RunTo(k, d, n).Err? ==> N.RunTo(k, d, n) == Err(A.RunTo(k, d, n).error)
    ensures A.RunTo(k, d, n).Ok? ==> N.RunTo(k, d, n).Ok?
    ensures A.RunTo(k, d, n).Ok? ==> A.RunTo(k, d, n).value.planes == N.RunTo(k, d, n).value.planes
    ensures A.RunTo(k, d, n).Ok? ==> Shows(A.RunTo(k, d, n).value.table, ids, N.RunTo(k, d, n).value.world)
    ensures N.RunTo(k, d, n).Ok? ==> N.RunTo(k, d, n).value.world.names.Keys <= Declared(d, n)
  {
    ids := [];
    hide A.Step, N.Step;
    if n > 0 {
      ids := RunShows(k, d, n - 1);
      if A.RunTo(k, d, n - 1).Ok? {
        var m, s, f := A.RunTo(k, d, n - 1).value, N.RunTo(k, d, n - 1).value, d.features[n - 1];
        NotYetDeclared(d, n - 1, n - 1);
        assert !P.ToolTwice(d, n - 1);
        if f.enabled && f.inputs.Boolean? { ToolsAsPlanned(k, d, n - 1, ids, s.world); }
        ids := StepShows(k, d, m, ids, s, f);
        StepBinds(k, d, s, f);
      }
    }
  }

  /** The bodies an index table shows, all below `next` and none left out. */
  predicate ShownBelow(bodies: seq<T.Entry>, ids: seq<nat>, solids: map<nat, Solid>, next: nat) {
    && |ids| == |bodies| && Ascending(ids)
    && (forall i :: 0 <= i < |ids| ==> ids[i] < next && ids[i] in solids && solids[ids[i]] == bodies[i].solid)
    && forall id :: id in solids && id < next ==> id in ids
  }

  lemma LastShown(bodies: seq<T.Entry>, ids: seq<nat>, solids: map<nat, Solid>, next: nat)
    requires ShownBelow(bodies, ids, solids, next + 1) && next in solids
    ensures |ids| == |bodies| > 0 && solids[next] == bodies[|bodies| - 1].solid
    ensures ShownBelow(bodies[..|bodies| - 1], ids[..|ids| - 1], solids, next)
  {
    var n := |ids| - 1;
    assert ids[n] == next;
    forall id | id in solids && id < next ensures id in ids[..n] {
      var i :| 0 <= i < |ids| && ids[i] == id;
      assert ids[..n][i] == id;
    }
  }

  lemma NoneShown(bodies: seq<T.Entry>, ids: seq<nat>, solids: map<nat, Solid>)
    ensures ShownBelow(bodies, ids, solids, 0) ==> bodies == []
  {
    var first := if ids != [] then ids[0] else 0;
  }

  lemma NotShown(bodies: seq<T.Entry>, ids: seq<nat>, solids: map<nat, Solid>, next: nat)
    requires ShownBelow(bodies, ids, solids, next + 1) && next !in solids
    ensures ShownBelow(bodies, ids, solids, next)
  {
    forall i | 0 <= i < |ids| ensures ids[i] < next { assert ids[i] in solids; }
  }

  lemma {:induction false} InOrderShows(bodies: seq<T.Entry>, ids: seq<nat>, solids: map<nat, Solid>, next: nat)
    requires ShownBelow(bodies, ids, solids, next)
    ensures W.InOrder(solids, next) == T.SolidsOf(bodies)
  {
    hide ShownBelow;
    assert next == 0 ==> bodies == [] by { NoneShown(bodies, ids, solids); }
    if next > 0 {
      if next - 1 in solids {
        LastShown(bodies, ids, solids, next - 1);
        InOrderShows(bodies[..|bodies| - 1], ids[..|ids| - 1], solids, next - 1);
      } else {
        NotShown(bodies, ids, solids, next - 1);
        InOrderShows(bodies, ids, solids, next - 1);
      }
    }
  }

  /** What a document builds is what its names mean: no index shift is ever observable. */
  lemma BuiltAsNamed(k: Kernel, d: Document)
    requires UniqueResults(d) && P.NoToolTwice(d)
    ensures A.Built(k, d) == N.Built(k, d)
  {
    var ids := RunShows(k, d, |d.features|);
    if A.RunTo(k, d, |d.features|).Ok? {
      var t, w := A.RunTo(k, d, |d.features|).value.table, N.RunTo(k, d, |d.features|).value.world;
      InOrderShows(t.bodies, ids, w.solids, w.next);
      assert t.bodies == [] <==> w.solids == map[];
    }
  }

  // ----- where the two part --------------------------------------------------------------

  /** Once a boolean has taken one body too many the table has fewer bodies than the world. */
  predicate Fewer(t: T.Table, w: W.World) { 0 < |t.bodies| < |w.solids.Keys| }

  lemma BooleanStaysFewer(k: Kernel, f: Inputs, t: T.Table, w: W.World)
    requires f.Boolean? && W.WorldOk(w) && Fewer(t, w) && B.Combine(k, f, t).Ok? && N.Combine(k, f, w).Ok?
    ensures Fewer(B.Combine(k, f, t).value, N.Combine(k, f, w).value)
  {
    BC.BooleanKeepsBodies(k, f, t);
    if !f.keepTools {
      TableCounts(k, f, t);
      CombineCounts(k, f, w);
      BT.FewerElements(W.LocateAll(w, f.tools).value);
    } else {
      assert N.Combine(k, f, w).value.solids.Keys == w.solids.Keys;
    }
  }

  lemma SolidStaysFewer(k: Kernel, f: Feature, m: A.Machine, s: N.State)
    requires f.inputs.MakesTool() && T.ActiveOk(m.table) && W.WorldOk(s.world) && Fewer(m.table, s.world)
    requires A.ApplySolid(k, f, m).Ok? && N.ApplySolid(k, f, s).Ok?
    ensures Fewer(A.ApplySolid(k, f, m).value, N.ApplySolid(k, f, s).value)
  {
    hide A.ToolOf, A.Carriers, Combined;
    var w, w' := s.world, N.ApplySolid(k, f, s).value;
    if f.inputs.StartsBody() {
      assert w'.solids.Keys == w.solids.Keys + {w.next};
    } else {
      assert w'.solids.Keys == w.solids.Keys;
    }
  }

  lemma StepStaysFewer(k: Kernel, d: Document, m: A.Machine, s: N.State, f: Feature)
    requires T.ActiveOk(m.table) && W.WorldOk(s.world) && Fewer(m.table, s.world)
    requires A.Step(k, d, m, f).Ok? && N.Step(k, d, s, f).Ok?
    ensures Fewer(A.Step(k, d, m, f).value.table, N.Step(k, d, s, f).value.world)
  {
    if f.enabled && f.inputs.MakesTool() { SolidStaysFewer(k, f, m, s); }
    else if f.enabled && f.inputs.Boolean? { BooleanStaysFewer(k, f.inputs, m.table, s.world); }
    else { assert N.Step(k, d, s, f).value.world.solids.Keys == s.world.solids.Keys; }
  }

  /** After `n` features both are running, and the table has fewer bodies. */
  predicate BothRun(k: Kernel, d: Document, n: nat) {
    n <= |d.features| && A.RunTo(k, d, n).Ok? && N.RunTo(k, d, n).Ok?
  }

  predicate FewerAt(k: Kernel, d: Document, n: nat) {
    && BothRun(k, d, n)
    && Fewer(A.RunTo(k, d, n).value.table, N.RunTo(k, d, n).value.world)
  }

  lemma NextStaysFewer(k: Kernel, d: Document, n: nat)
    requires n < |d.features| && FewerAt(k, d, n)
    requires A.RunTo(k, d, n + 1).Ok? && N.RunTo(k, d, n + 1).Ok?
    ensures FewerAt(k, d, n + 1)
  {
    StepStaysFewer(k, d, A.RunTo(k, d, n).value, N.RunTo(k, d, n).value, d.features[n]);
  }

  lemma {:induction false} RunStaysFewer(k: Kernel, d: Document, i: nat, n: nat)
    requires i <= n <= |d.features| && FewerAt(k, d, i) && A.RunTo(k, d, n).Ok? && N.RunTo(k, d, n).Ok?
    ensures FewerAt(k, d, n)
    decreases n - i
  {
    if i < n {
      P.RunsBefore(k, d, i + 1, n);
      N.RunsBefore(k, d, i + 1, n);
      NextStaysFewer(k, d, i);
      RunStaysFewer(k, d, i + 1, n);
    }
  }

  /** The boolean that lists one body twice takes more from the table than from the world. */
  lemma CombineMakesFewer(k: Kernel, f: Inputs, t: T.Table, ids: seq<nat>, w: W.World)
    requires f.Boolean? && Shows(t, ids, w) && !ToolsDistinct(f, w)
    requires B.Combine(k, f, t).Ok? && N.Combine(k, f, w).Ok?
    ensures Fewer(B.Combine(k, f, t).value, N.Combine(k, f, w).value)
  {
    ShowsAsMany(t, ids, w);
    TableCounts(k, f, t);
    CombineCounts(k, f, w);
    BT.FewerElements(W.LocateAll(w, f.tools).value);
    BC.BooleanKeepsBodies(k, f, t);
  }

  lemma StepMakesFewer(k: Kernel, d: Document, m: A.Machine, s: N.State, f: Feature, ids: seq<nat>)
    requires f.enabled && f.inputs.Boolean? && Shows(m.table, ids, s.world) && !ToolsDistinct(f.inputs, s.world)
    requires A.Step(k, d, m, f).Ok? && N.Step(k, d, s, f).Ok?
    ensures Fewer(A.Step(k, d, m, f).value.table, N.Step(k, d, s, f).value.world)
  {
    hide B.Combine, N.Combine, Fewer, Shows, ToolsDistinct;
    CombineMakesFewer(k, f.inputs, m.table, ids, s.world);
  }

  /** What both hold after `n` features. */
  ghost predicate Reached(k: Kernel, d: Document, n: nat, m: A.Machine, s: N.State) {
    n <= |d.features| && A.RunTo(k, d, n) == Ok(m) && N.RunTo(k, d, n) == Ok(s)
  }

  lemma ReachedBefore(k: Kernel, d: Document, n: nat) returns (m: A.Machine, s: N.State)
    requires n < |d.features| && BothRun(k, d, n + 1)
    ensures Reached(k, d, n, m, s) && T.ActiveOk(m.table) && W.WorldOk(s.world)
    ensures A.Step(k, d, m, d.features[n]).Ok? && N.Step(k, d, s, d.features[n]).Ok?
    ensures Fewer(A.Step(k, d, m, d.features[n]).value.table, N.Step(k, d, s, d.features[n]).value.world) ==>
              FewerAt(k, d, n + 1)
  {
    m, s := A.RunTo(k, d, n).value, N.RunTo(k, d, n).value;
  }

  lemma ReachedShows(k: Kernel, d: Document, n: nat, m: A.Machine, s: N.State) returns (ids: seq<nat>)
    requires UniqueResults(d) && P.NoToolTwiceBefore(d, n) && Reached(k, d, n, m, s)
    ensures Shows(m.table, ids, s.world)
  {
    ids := RunShows(k, d, n);
  }

  lemma TwiceInReached(k: Kernel, d: Document, n: nat, m: A.Machine, s: N.State, ids: seq<nat>)
    requires P.ToolTwice(d, n) && Reached(k, d, n, m, s) && Shows(m.table, ids, s.world)
    ensures d.features[n].enabled && d.features[n].inputs.Boolean? && !ToolsDistinct(d.features[n].inputs, s.world)
  {
    ToolsAsPlanned(k, d, n, ids, s.world);
  }

  lemma TwiceMakesFewer(k: Kernel, d: Document, n: nat)
    requires UniqueResults(d) && P.ToolTwice(d, n) && P.NoToolTwiceBefore(d, n) && BothRun(k, d, n + 1)
    ensures FewerAt(k, d, n + 1)
  {
    var m, s := ReachedBefore(k, d, n);
    var ids := ReachedShows(k, d, n, m, s);
    TwiceInReached(k, d, n, m, s, ids);
    StepMakesFewer(k, d, m, s, d.features[n], ids);
  }

  lemma {:induction false} InOrderLength(solids: map<nat, Solid>, next: nat)
    ensures |W.InOrder(solids, next)| == |set id | id in solids && id < next|
  {
    var below := set id | id in solids && id < next;
    if next == 0 {
      assert below == {};
    } else {
      InOrderLength(solids, next - 1);
      var before := set id | id in solids && id < next - 1;
      assert below == before + if next - 1 in solids then {next - 1} else {};
    }
  }

  lemma FewerAreBuilt(k: Kernel, d: Document)
    requires FewerAt(k, d, |d.features|) && ParametersOf(d.parameters).Ok?
    ensures A.Built(k, d) != N.Built(k, d)
  {
    var w := N.WorldAt(k, d, |d.features|);
    InOrderLength(w.solids, w.next);
    assert (set id | id in w.solids && id < w.next) == w.solids.Keys;
  }

  lemma {:induction false} FirstTwice(d: Document, i: nat) returns (first: nat)
    requires P.ToolTwice(d, i)
    ensures first <= i && P.ToolTwice(d, first) && P.NoToolTwiceBefore(d, first)
  {
    if j: nat :| j < i && P.ToolTwice(d, j) { first := FirstTwice(d, j); } else { first := i; }
  }

  lemma FewerIsSeen(k: Kernel, d: Document, n: nat)
    requires FewerAt(k, d, n) && A.Built(k, d).Ok? && N.Built(k, d).Ok?
    ensures A.Built(k, d) != N.Built(k, d)
  {
    RunStaysFewer(k, d, n, |d.features|);
    FewerAreBuilt(k, d);
  }

  lemma BothRan(k: Kernel, d: Document, n: nat)
    requires n <= |d.features| && A.Built(k, d).Ok? && N.Built(k, d).Ok?
    ensures BothRun(k, d, n)
  {
    P.RunsBefore(k, d, n, |d.features|);
    N.RunsBefore(k, d, n, |d.features|);
  }

  lemma FewerSince(k: Kernel, d: Document) returns (n: nat)
    requires UniqueResults(d) && !P.NoToolTwice(d) && A.Built(k, d).Ok? && N.Built(k, d).Ok?
    ensures FewerAt(k, d, n)
  {
    var some: nat :| some < |d.features| && P.ToolTwice(d, some);
    var i := FirstTwice(d, some);
    n := i + 1;
    BothRan(k, d, n);
    TwiceMakesFewer(k, d, i);
  }

  lemma ToolTwiceIsSeen(k: Kernel, d: Document)
    requires UniqueResults(d) && N.Built(k, d).Ok? && !P.NoToolTwice(d)
    ensures A.Built(k, d) != N.Built(k, d)
  {
    if A.Built(k, d).Ok? {
      var n := FewerSince(k, d);
      FewerIsSeen(k, d, n);
    }
  }

  /** For every document with unique results: the table builds what the names mean, failures included,
      when no boolean consumes one body under two of its names; and where what the names mean can be built at all,
      only then. */
  lemma BuildMeansNames(k: Kernel, d: Document)
    requires UniqueResults(d)
    ensures P.NoToolTwice(d) ==> A.Built(k, d) == N.Built(k, d)
    ensures N.Built(k, d).Ok? ==> (A.Built(k, d) == N.Built(k, d) <==> P.NoToolTwice(d))
  {
    if P.NoToolTwice(d) { BuiltAsNamed(k, d); }
    else if N.Built(k, d).Ok? { ToolTwiceIsSeen(k, d); }
  }
}
