/** A document that loses a body nothing in it names: a plate, a stud beside it, a boss on the stud
    that gives it a second name, a rib, and a union of the plate with the stud under both. */
module RibLost {
  import opened Prelude
  import opened Solids
  import opened CadDocument
  import opened KernelModel
  import opened BodyTable
  import opened Booleans
  import opened Adapter
  import BT = BooleanTheorems
  import M = Material
  import N = NamedBodies
  import P = BodyPlan
  import PT = PatternTheorems
  import R = Refinement
  import S = TableShowsWorld
  import W = NamedWorld

  predicate Adds(f: Feature, name: string, source: Option<string>, newBody: bool) {
    && f.enabled && f.inputs.Extrude? && !f.inputs.cut && f.inputs.newBody == newBody
    && f.inputs.sourceBody == source && BodyNames(f) == {name}
  }

  predicate PlateStudPegRib(d: Document) {
    && |d.features| >= 5
    && Adds(d.features[0], "plate", None, false)
    && Adds(d.features[1], "stud", None, true)
    && Adds(d.features[2], "peg", Some("stud"), false)
    && Adds(d.features[3], "rib", None, true)
  }

  predicate Unites(f: Feature) { f.enabled && f.inputs == Boolean(Union, "plate", ["stud", "peg"], false) }

  predicate PlateStudPegRibUnion(d: Document) {
    PlateStudPegRib(d) && |d.features| == 5 && Unites(d.features[4])
  }

  lemma RunBefore(k: Kernel, d: Document, n: nat)
    requires n < |d.features| && RunTo(k, d, n + 1).Ok?
    ensures RunTo(k, d, n).Ok?
  {
  }

  lemma FirstBody(k: Kernel, d: Document)
    requires PlateStudPegRib(d) && RunTo(k, d, 1).Ok?
    ensures var t := RunTo(k, d, 1).value.table;
            |t.bodies| == 1 && t == Table([Entry(t.bodies[0].solid, {"plate"})], Some(0))
  {
    assert RunTo(k, d, 0) == Ok(START);
  }

  lemma NewBodyAppends(k: Kernel, d: Document, m: Machine, f: Feature, name: string)
    requires ActiveOk(m.table) && Adds(f, name, None, true) && Step(k, d, m, f).Ok?
    ensures var t, t' := m.table, Step(k, d, m, f).value.table;
            && |t'.bodies| == |t.bodies| + 1 && t'.active == Some(|t.bodies|)
            && t'.bodies == t.bodies + [Entry(t'.bodies[|t.bodies|].solid, {name})]
  {
  }

  lemma PegJoinsStud(k: Kernel, d: Document, m: Machine, f: Feature)
    requires ActiveOk(m.table) && Adds(f, "peg", Some("stud"), false) && Step(k, d, m, f).Ok?
    requires |m.table.bodies| == 2 && m.table.bodies[0].names == {"plate"} && m.table.bodies[1].names == {"stud"}
    ensures var t' := Step(k, d, m, f).value.table;
            |t'.bodies| == 2 && t'.bodies[0] == m.table.bodies[0] && t'.bodies[1].names == {"stud", "peg"}
  {
    assert "stud" !in m.table.bodies[0].names && "stud" in m.table.bodies[1].names;
    assert FirstNamed(m.table.bodies, "stud") == Some(1);
  }

  lemma PlateAndStud(k: Kernel, d: Document)
    requires PlateStudPegRib(d) && RunTo(k, d, 2).Ok?
    ensures var t := RunTo(k, d, 2).value.table;
            |t.bodies| == 2 && t.bodies[0].names == {"plate"} && t.bodies[1].names == {"stud"}
  {
    RunBefore(k, d, 1);
    FirstBody(k, d);
    NewBodyAppends(k, d, RunTo(k, d, 1).value, d.features[1], "stud");
  }

  lemma PlateAndPeg(k: Kernel, d: Document)
    requires PlateStudPegRib(d) && RunTo(k, d, 3).Ok?
    ensures var t := RunTo(k, d, 3).value.table;
            |t.bodies| == 2 && t.bodies[0].names == {"plate"} && t.bodies[1].names == {"stud", "peg"}
  {
    RunBefore(k, d, 2);
    PlateAndStud(k, d);
    PegJoinsStud(k, d, RunTo(k, d, 2).value, d.features[2]);
  }

  lemma RibAdded(k: Kernel, d: Document, m: Machine, f: Feature) returns (plate: Solid, stud: Solid, rib: Solid)
    requires ActiveOk(m.table) && Adds(f, "rib", None, true) && Step(k, d, m, f).Ok? && |m.table.bodies| == 2
    requires m.table.bodies[0].names == {"plate"} && m.table.bodies[1].names == {"stud", "peg"}
    ensures Step(k, d, m, f).value.table == BT.PlateStudRib(plate, stud, rib)
  {
    NewBodyAppends(k, d, m, f, "rib");
    var t := Step(k, d, m, f).value.table;
    plate, stud, rib := m.table.bodies[0].solid, m.table.bodies[1].solid, t.bodies[2].solid;
    assert m.table.bodies == [Entry(plate, {"plate"}), Entry(stud, {"stud", "peg"})];
  }

  lemma FourFeatures(k: Kernel, d: Document) returns (plate: Solid, stud: Solid, rib: Solid)
    requires PlateStudPegRib(d) && RunTo(k, d, 4).Ok?
    ensures RunTo(k, d, 4).value.table == BT.PlateStudRib(plate, stud, rib)
  {
    RunBefore(k, d, 3);
    PlateAndPeg(k, d);
    plate, stud, rib := RibAdded(k, d, RunTo(k, d, 3).value, d.features[3]);
  }

  /** One body is left, the plate. What only the rib held is held by nothing. */
  lemma RibIsLost(k: Kernel, d: Document, p: Point)
    requires PlateStudPegRibUnion(d) && RunTo(k, d, 5).Ok?
    ensures RunTo(k, d, 4).Ok? && |RunTo(k, d, 4).value.table.bodies| == 3
    ensures |RunTo(k, d, 5).value.table.bodies| == 1
    ensures RunTo(k, d, 5).value.table.bodies[0].names == {"plate"}
    ensures M.Owns(RunTo(k, d, 4).value.table, 2, p) ==> !M.Held(RunTo(k, d, 5).value.table, p)
  {
    RunBefore(k, d, 4);
    var m := RunTo(k, d, 4).value;
    var plate, stud, rib := FourFeatures(k, d);
    var answer := UnionOfThree(k, d, m, d.features[4], plate, stud, rib);
    if M.Owns(m.table, 2, p) { RibPointGone(k, plate, stud, rib, answer, p); }
  }

  lemma UnionOfThree(k: Kernel, d: Document, m: Machine, f: Feature, plate: Solid, stud: Solid, rib: Solid)
      returns (answer: Solid)
    requires m.table == BT.PlateStudRib(plate, stud, rib) && Step(k, d, m, f).Ok? && Unites(f)
    ensures Fold(k, Union, plate, [stud, stud]) == Ok(answer)
    ensures Step(k, d, m, f).value.table == Table([Entry(answer, {"plate"})], Some(0))
  {
    answer := PlateIsLeft(k, f.inputs, plate, stud, rib);
  }

  lemma PlateIsLeft(k: Kernel, f: Inputs, plate: Solid, stud: Solid, rib: Solid) returns (answer: Solid)
    requires f == Boolean(Union, "plate", ["stud", "peg"], false)
    requires Combine(k, f, BT.PlateStudRib(plate, stud, rib)).Ok?
    ensures Fold(k, Union, plate, [stud, stud]) == Ok(answer)
    ensures Combine(k, f, BT.PlateStudRib(plate, stud, rib)) == Ok(Table([Entry(answer, {"plate"})], Some(0)))
  {
    BT.ToolsOfPlateStudRib(plate, stud, rib);
    BT.InnocentBodyLost(k, plate, stud, rib);
    answer := Fold(k, Union, plate, [stud, stud]).value;
  }

  lemma RibPointGone(k: Kernel, plate: Solid, stud: Solid, rib: Solid, answer: Solid, p: Point)
    requires M.Owns(BT.PlateStudRib(plate, stud, rib), 2, p) && Fold(k, Union, plate, [stud, stud]) == Ok(answer)
    ensures !M.Held(Table([Entry(answer, {"plate"})], Some(0)), p)
  {
    var t := BT.PlateStudRib(plate, stud, rib);
    assert t.bodies[0].solid == plate && t.bodies[1].solid == stud;
    M.FoldMeans(k, Union, plate, [stud, stud], p);
  }

  // ----- what the names mean -------------------------------------------------------------

  lemma ToolsNamedOnce(t: Table, ids: seq<nat>, w: W.World)
    requires S.Shows(t, ids, w) && FirstNamed(t.bodies, "plate") == Some(0)
    requires LocateAll(t, ["stud", "peg"]) == Ok([1, 1])
    ensures "plate" in w.names && W.LocateAll(w, ["stud", "peg"]).Ok?
    ensures w.names["plate"] !in W.LocateAll(w, ["stud", "peg"]).value
    ensures |Elements(W.LocateAll(w, ["stud", "peg"]).value)| == 1
  {
    S.FirstNamedShows(t.bodies, ids, w, "plate");
    S.LocateAllShows(t, ids, w, ["stud", "peg"]);
    var named := W.LocateAll(w, ["stud", "peg"]).value;
    assert named[0] == ids[1] && named[1] == ids[1];
    assert Elements(named) == {ids[1]};
  }

  lemma NamesAllowIt(k: Kernel, f: Inputs, t: Table, ids: seq<nat>, w: W.World)
    requires S.Shows(t, ids, w) && f == Boolean(Union, "plate", ["stud", "peg"], false) && Combine(k, f, t).Ok?
    requires FirstNamed(t.bodies, "plate") == Some(0) && LocateAll(t, ["stud", "peg"]) == Ok([1, 1])
    ensures N.Combine(k, f, w).Ok? && |Elements(W.LocateAll(w, f.tools).value)| == 1
  {
    ToolsNamedOnce(t, ids, w);
    R.SameAnswer(k, f, t, ids, w);
    S.FirstNamedShows(t.bodies, ids, w, "plate");
  }

  lemma NamesLeaveTwo(k: Kernel, f: Feature, t: Table, ids: seq<nat>, w: W.World, plate: Solid, stud: Solid, rib: Solid)
    requires S.Shows(t, ids, w) && t == BT.PlateStudRib(plate, stud, rib) && Unites(f) && Combine(k, f.inputs, t).Ok?
    ensures N.Combine(k, f.inputs, w).Ok? && |N.Combine(k, f.inputs, w).value.solids.Keys| == 2
  {
    assert |w.solids.Keys| == 3 by { R.ShowsAsMany(t, ids, w); }
    BT.ToolsOfPlateStudRib(plate, stud, rib);
    NamesAllowIt(k, f.inputs, t, ids, w);
    R.CombineCounts(k, f.inputs, w);
  }

  lemma StepLeavesTwo(k: Kernel, d: Document, m: Machine, s: N.State, f: Feature, ids: seq<nat>,
                      plate: Solid, stud: Solid, rib: Solid)
    requires S.Shows(m.table, ids, s.world) && m.table == BT.PlateStudRib(plate, stud, rib) && Unites(f)
    requires Step(k, d, m, f).Ok?
    ensures N.Step(k, d, s, f).Ok? && |N.Step(k, d, s, f).value.world.solids.Keys| == 2
  {
    hide Combine, N.Combine, S.Shows, BT.PlateStudRib;
    NamesLeaveTwo(k, f, m.table, ids, s.world, plate, stud, rib);
  }

  lemma NoBooleanYet(d: Document)
    requires PlateStudPegRib(d)
    ensures P.NoToolTwiceBefore(d, 4)
  {
    forall i: nat | i < 4 ensures !P.ToolTwice(d, i) { assert d.features[i].inputs.Extrude?; }
  }

  lemma FourFeaturesShown(k: Kernel, d: Document, m: Machine) returns (s: N.State, ids: seq<nat>)
    requires PlateStudPegRibUnion(d) && UniqueResults(d) && RunTo(k, d, 4) == Ok(m)
    ensures N.RunTo(k, d, 4) == Ok(s) && S.Shows(m.table, ids, s.world)
  {
    hide Step;
    NoBooleanYet(d);
    ids := R.RunShows(k, d, 4);
    s := N.RunTo(k, d, 4).value;
  }

  /** By the meaning of its names the same document keeps two bodies, the rib among them. */
  lemma NamesKeepTheRib(k: Kernel, d: Document)
    requires PlateStudPegRibUnion(d) && UniqueResults(d) && RunTo(k, d, 5).Ok?
    ensures N.RunTo(k, d, 5).Ok? && |N.RunTo(k, d, 5).value.world.solids.Keys| == 2
  {
    var m := RunTo(k, d, 4).value;
    var plate, stud, rib := FourFeatures(k, d);
    var s, ids := FourFeaturesShown(k, d, m);
    StepLeavesTwo(k, d, m, s, d.features[4], ids, plate, stud, rib);
  }

  // ----- a pattern of the rib ------------------------------------------------------------

  /** The same four features, a cut that names the rib, the union, and a pattern of the cut. */
  predicate PatternOnTheRib(d: Document) {
    && PlateStudPegRib(d) && |d.features| == 7 && PT.UniqueIds(d)
    && d.features[4].enabled && d.features[4].inputs.Extrude? && d.features[4].inputs.cut
    && d.features[4].inputs.sourceBody == Some("rib")
    && Unites(d.features[5])
    && d.features[6].enabled && d.features[6].inputs.Pattern? && d.features[6].inputs.of == d.features[4].id
  }

  lemma RibIsCut(k: Kernel, d: Document, m: Machine, f: Feature, plate: Solid, stud: Solid, rib: Solid)
      returns (left: Solid)
    requires m.table == BT.PlateStudRib(plate, stud, rib) && Step(k, d, m, f).Ok?
    requires f.enabled && f.inputs.Extrude? && f.inputs.cut && f.inputs.sourceBody == Some("rib")
    ensures Step(k, d, m, f).value.table == BT.PlateStudRib(plate, stud, left)
  {
    var t := m.table;
    assert "rib" in t.bodies[2].names && "rib" !in t.bodies[0].names && "rib" !in t.bodies[1].names;
    assert FirstNamed(t.bodies, "rib") == Some(2);
    left := Step(k, d, m, f).value.table.bodies[2].solid;
  }

  lemma CutFeatures(k: Kernel, d: Document, m: Machine) returns (plate: Solid, stud: Solid, rib: Solid)
    requires PatternOnTheRib(d) && RunTo(k, d, 5) == Ok(m)
    ensures m.table == BT.PlateStudRib(plate, stud, rib)
  {
    RunBefore(k, d, 4);
    plate, stud, rib := FourFeatures(k, d);
    rib := RibIsCut(k, d, RunTo(k, d, 4).value, d.features[4], plate, stud, rib);
  }

  lemma UnionTakesTheRib(k: Kernel, d: Document, m: Machine, f: Feature, plate: Solid, stud: Solid, rib: Solid)
    requires m.table == BT.PlateStudRib(plate, stud, rib) && Step(k, d, m, f).Ok? && Unites(f)
    ensures FirstNamed(Step(k, d, m, f).value.table.bodies, "rib").None?
  {
    var answer := UnionOfThree(k, d, m, f, plate, stud, rib);
    assert FirstNamed([Entry(answer, {"plate"})], "rib").None?;
  }

  lemma RibIsGone(k: Kernel, d: Document)
    requires PatternOnTheRib(d) && RunTo(k, d, 6).Ok?
    ensures FirstNamed(RunTo(k, d, 6).value.table.bodies, "rib").None?
  {
    var m := RunTo(k, d, 5).value;
    var plate, stud, rib := CutFeatures(k, d, m);
    UnionTakesTheRib(k, d, m, d.features[5], plate, stud, rib);
  }

  /** No feature takes the rib, and yet the pattern of its cut is refused. */
  lemma PatternOnTheRibIsRefused(k: Kernel, d: Document)
    requires PatternOnTheRib(d) && RunTo(k, d, 6).Ok?
    ensures PT.Repeats(d, 4, 6) && RunTo(k, d, 7) == Err(Refused("FEATURE_RESULT_UNAVAILABLE"))
  {
    assert PT.Repeats(d, 4, 6) by {
      PT.SourceAt(d, 4);
      assert ChainEnd(Sources(d.features), d.features[6], {}) == Some(d.features[4]);
    }
    RibIsGone(k, d);
    RefusedUnnamed(k, d, RunTo(k, d, 6).value, d.features[6]);
  }

  lemma RefusedUnnamed(k: Kernel, d: Document, m: Machine, f: Feature)
    requires ActiveOk(m.table) && f.enabled && f.inputs.Pattern? && ChainSource(Sources(d.features), f) == Some("rib")
    requires FirstNamed(m.table.bodies, "rib").None?
    ensures Step(k, d, m, f) == Err(Refused("FEATURE_RESULT_UNAVAILABLE"))
  {
  }
}
