/** Where the material is after a step of the table, point by point. */
module Material {
  import opened Prelude
  import opened Solids
  import opened CadDocument
  import opened KernelModel
  import opened BodyTable
  import opened Booleans
  import opened Adapter
  import opened Outlines
  import AB = ActiveBody
  import BT = BooleanTheorems
  import NameSets
  import P = BodyPlan

  predicate InSome(p: Point, solids: seq<Solid>) { exists i :: 0 <= i < |solids| && p in solids[i] }

  predicate InEvery(p: Point, solids: seq<Solid>) { forall i :: 0 <= i < |solids| ==> p in solids[i] }

  predicate Answers(op: BooleanOp, p: Point, target: Solid, tools: seq<Solid>) {
    match op
    case Union => p in target || InSome(p, tools)
    case Subtract => p in target && !InSome(p, tools)
    case Intersect => p in target && InEvery(p, tools)
  }

  /** One tool at a time comes to the same as all at once. */
  lemma {:induction false} FoldMeans(k: Kernel, op: BooleanOp, target: Solid, tools: seq<Solid>, p: Point)
    requires Fold(k, op, target, tools).Ok?
    ensures p in Fold(k, op, target, tools).value <==> Answers(op, p, target, tools)
    decreases |tools|
  {
    if tools != [] {
      var front, last := tools[..|tools| - 1], tools[|tools| - 1];
      FoldMeans(k, op, target, front, p);
      assert InSome(p, tools) <==> InSome(p, front) || p in last by {
        if p in last { assert p in tools[|tools| - 1]; }
        if InSome(p, front) { var i :| 0 <= i < |front| && p in front[i]; assert p in tools[i]; }
      }
      assert InEvery(p, tools) <==> InEvery(p, front) && p in last by {
        if InEvery(p, tools) { assert forall i :: 0 <= i < |front| ==> front[i] == tools[i]; }
      }
    }
  }

  // ----- when a boolean is refused -------------------------------------------------------

  /** What the target has become after the first `i` tools. */
  ghost function Partial(op: BooleanOp, target: Solid, tools: seq<Solid>, i: nat): Solid
    requires i <= |tools|
  {
    iset p | Answers(op, p, target, tools[..i])
  }

  /** The kernel takes tool `i`, and something of volume is left. */
  ghost predicate Passes(k: Kernel, op: BooleanOp, target: Solid, tools: seq<Solid>, i: nat)
    requires i < |tools|
  {
    !k.refuses(op, Partial(op, target, tools, i), tools[i]) && k.hasVolume(Partial(op, target, tools, i + 1))
  }

  ghost function RefusalAt(k: Kernel, op: BooleanOp, target: Solid, tools: seq<Solid>, i: nat): string
    requires i < |tools|
  {
    if k.refuses(op, Partial(op, target, tools, i), tools[i]) then "BOOLEAN_FAILED" else "BOOLEAN_EMPTY"
  }

  /** The first tool that does not pass. */
  ghost predicate FirstRefused(k: Kernel, op: BooleanOp, target: Solid, tools: seq<Solid>, i: nat)
    requires i < |tools|
  {
    !Passes(k, op, target, tools, i) && forall j :: 0 <= j < i ==> Passes(k, op, target, tools, j)
  }

  lemma PartialIsFold(k: Kernel, op: BooleanOp, target: Solid, tools: seq<Solid>, i: nat)
    requires i <= |tools| && Fold(k, op, target, tools[..i]).Ok?
    ensures Fold(k, op, target, tools[..i]).value == Partial(op, target, tools, i)
  {
    var folded := Fold(k, op, target, tools[..i]).value;
    forall p ensures p in folded <==> p in Partial(op, target, tools, i) {
      FoldMeans(k, op, target, tools[..i], p);
    }
  }

  lemma PartialNext(op: BooleanOp, target: Solid, tools: seq<Solid>, i: nat, p: Point)
    requires i < |tools|
    ensures p in Partial(op, target, tools, i + 1) <==>
            match op
            case Union => p in Partial(op, target, tools, i) || p in tools[i]
            case Subtract => p in Partial(op, target, tools, i) && p !in tools[i]
            case Intersect => p in Partial(op, target, tools, i) && p in tools[i]
  {
    var front, more := tools[..i], tools[..i + 1];
    assert more == front + [tools[i]];
    if InSome(p, front) { var j :| 0 <= j < |front| && p in front[j]; assert p in more[j]; }
    if p in tools[i] { assert p in more[i]; }
    if InEvery(p, more) { assert forall j :: 0 <= j < |front| ==> front[j] == more[j]; assert p in more[i]; }
  }

  lemma NextPasses(k: Kernel, op: BooleanOp, target: Solid, tools: seq<Solid>, i: nat)
    requires i < |tools| && Fold(k, op, target, tools[..i]).Ok?
    ensures Fold(k, op, target, tools[..i + 1]).Ok? <==> Passes(k, op, target, tools, i)
    ensures !Passes(k, op, target, tools, i) ==>
              Fold(k, op, target, tools[..i + 1]) == Err(Refused(RefusalAt(k, op, target, tools, i)))
  {
    PartialIsFold(k, op, target, tools, i);
    FoldNext(k, op, target, tools, i);
    forall p
      ensures p in Meet(op, Partial(op, target, tools, i), tools[i]) <==> p in Partial(op, target, tools, i + 1)
    {
      PartialNext(op, target, tools, i, p);
    }
    assert Meet(op, Partial(op, target, tools, i), tools[i]) == Partial(op, target, tools, i + 1);
  }

  lemma {:induction false} FoldPasses(k: Kernel, op: BooleanOp, target: Solid, tools: seq<Solid>, i: nat)
    requires i <= |tools|
    ensures Fold(k, op, target, tools[..i]).Ok? <==> forall j :: 0 <= j < i ==> Passes(k, op, target, tools, j)
  {
    if i > 0 {
      FoldPasses(k, op, target, tools, i - 1);
      if Fold(k, op, target, tools[..i - 1]).Ok? {
        NextPasses(k, op, target, tools, i - 1);
      } else {
        assert tools[..i][..i - 1] == tools[..i - 1];
      }
    }
  }

  lemma RefusedFirst(k: Kernel, op: BooleanOp, target: Solid, tools: seq<Solid>, i: nat)
    requires i < |tools| && FirstRefused(k, op, target, tools, i)
    ensures Fold(k, op, target, tools) == Err(Refused(RefusalAt(k, op, target, tools, i)))
  {
    FoldPasses(k, op, target, tools, i);
    NextPasses(k, op, target, tools, i);
    FoldStops(k, op, target, tools, i + 1);
  }

  lemma AnswerIsFold(k: Kernel, f: Inputs, t: Table, target: nat, tools: seq<nat>)
    requires f.Boolean? && FirstNamed(t.bodies, f.target) == Some(target) && LocateAll(t, f.tools) == Ok(tools)
    ensures var folded := Fold(k, f.op, t.bodies[target].solid, SolidsAt(t, tools));
            (Answer(k, f, t).Ok? <==> folded.Ok?) && (folded.Err? ==> Combine(k, f, t) == Err(folded.error))
  {
  }

  /** A boolean whose bodies are found goes on exactly when no tool is refused on what came before it and
      none leaves nothing of volume; the first that does decides the code, and nothing is written. */
  lemma AnswerExactly(k: Kernel, f: Inputs, t: Table, target: nat, tools: seq<nat>)
    requires f.Boolean? && FirstNamed(t.bodies, f.target) == Some(target) && LocateAll(t, f.tools) == Ok(tools)
    ensures var from, solids := t.bodies[target].solid, SolidsAt(t, tools);
            && (Answer(k, f, t).Ok? <==> forall i :: 0 <= i < |solids| ==> Passes(k, f.op, from, solids, i))
            && (forall i :: 0 <= i < |solids| && FirstRefused(k, f.op, from, solids, i) ==>
                  Combine(k, f, t) == Err(Refused(RefusalAt(k, f.op, from, solids, i))))
  {
    hide Answer, Combine, Fold;
    var from, solids := t.bodies[target].solid, SolidsAt(t, tools);
    AnswerIsFold(k, f, t, target, tools);
    FoldPasses(k, f.op, from, solids, |solids|);
    assert solids[..|solids|] == solids;
    forall i | 0 <= i < |solids| && FirstRefused(k, f.op, from, solids, i)
      ensures Combine(k, f, t) == Err(Refused(RefusalAt(k, f.op, from, solids, i)))
    {
      RefusedFirst(k, f.op, from, solids, i);
    }
  }

  // ----- which bodies a boolean takes -----------------------------------------------------

  /** What one boolean takes from a table where no name is on two bodies, when it succeeds. */
  ghost predicate Succeeds(k: Kernel, f: Inputs, t: Table, known: set<string>, target: nat, tools: seq<nat>,
                           answer: Solid)
  {
    && f.Boolean? && NameSets.Separate(t.bodies, known)
    && Answer(k, f, t) == Ok((target, tools, answer)) && Combine(k, f, t).Ok?
  }

  lemma Taken(k: Kernel, f: Inputs, t: Table, known: set<string>, target: nat, tools: seq<nat>, answer: Solid)
    requires Succeeds(k, f, t, known, target, tools, answer)
    ensures FirstNamed(t.bodies, f.target) == Some(target) && LocateAll(t, f.tools) == Ok(tools)
    ensures Fold(k, f.op, t.bodies[target].solid, SolidsAt(t, tools)) == Ok(answer)
    ensures Settle(f, t, target, tools, answer) == Combine(k, f, t)
    ensures forall i :: 0 <= i < |tools| ==> tools[i] < |t.bodies|
  {
  }

  function Upto(n: nat): (ids: seq<nat>)
    ensures |ids| == n && forall i :: 0 <= i < n ==> ids[i] == i
  {
    if n == 0 then [] else Upto(n - 1) + [n - 1]
  }

  /** The indices of the bodies that the deletions leave. */
  function Left(t: Table, tools: seq<nat>): seq<nat> { Deleted(Upto(|t.bodies|), Descending(tools)) }

  /** A body the boolean names in no way and takes all the same. */
  predicate Innocent(t: Table, target: nat, tools: seq<nat>, i: nat) {
    i < |t.bodies| && i != target && i !in tools && i !in Left(t, tools)
  }

  /** Whatever else goes, an index that is listed goes, when deletions are made from the highest down. */
  lemma {:induction false} ListedIsDeleted(ids: seq<nat>, order: seq<nat>, i: nat)
    requires Ascending(ids) && NonIncreasing(order) && i in order && i < |ids|
    requires |Deleted(ids, order)| == |ids| - |order|
    ensures ids[i] !in Deleted(ids, order)
    decreases |order|
  {
    WithoutIndex(ids, order[0]);
    DeletedAscends(Without(ids, order[0]), order[1..]);
    if i != order[0] {
      assert i in order[1..] && Without(ids, order[0])[i] == ids[i];
      ListedIsDeleted(Without(ids, order[0]), order[1..], i);
    }
  }

  lemma LeftFacts(k: Kernel, f: Inputs, t: Table, known: set<string>, target: nat, tools: seq<nat>, answer: Solid)
    requires Succeeds(k, f, t, known, target, tools, answer) && !f.keepTools
    ensures Ascending(Left(t, tools)) && |Left(t, tools)| == |t.bodies| - |tools|
    ensures |Combine(k, f, t).value.bodies| == |Left(t, tools)|
    ensures forall i :: i in Left(t, tools) ==> i < |t.bodies| && i !in tools
  {
    Taken(k, f, t, known, target, tools, answer);
    var ids, order, replaced := Upto(|t.bodies|), Descending(tools), Replace(t, target, answer);
    BT.DescendingFacts(tools);
    BT.DropAllLength(replaced, order);
    DropAllDeletes(replaced, order);
    DeletedAlike(replaced.bodies, ids, order);
    DeletedAscends(ids, order);
    forall i | i in Left(t, tools) ensures i < |t.bodies| && i !in tools {
      assert i in ids;
      if i in tools {
        DescendingElements(tools, i);
        ListedIsDeleted(ids, order, i);
      }
    }
  }

  /** What stands at `j` afterwards stood at `x`: the active one is the target, the others are as they were. */
  lemma StoodAt(k: Kernel, f: Inputs, t: Table, known: set<string>, target: nat, tools: seq<nat>, answer: Solid,
                j: nat) returns (x: nat)
    requires Succeeds(k, f, t, known, target, tools, answer) && !f.keepTools
    requires j < |Combine(k, f, t).value.bodies|
    ensures |Left(t, tools)| == |Combine(k, f, t).value.bodies| && Left(t, tools)[j] == x < |t.bodies|
    ensures var t' := Combine(k, f, t).value;
            && t'.bodies[j].names == t.bodies[x].names && (Some(j) == t'.active <==> x == target)
            && t'.bodies[j].solid == if x == target then answer else t.bodies[x].solid
  {
    hide Combine, Answer, Deleted, Descending, Fold, DropAll;
    Taken(k, f, t, known, target, tools, answer);
    x := AB.SettleWritesOne(f, t, Upto(|t.bodies|), target, tools, answer, j);
    if f.target in t.bodies[x].names { assert f.target in t.bodies[target].names; }
  }

  lemma TargetIsLeft(k: Kernel, f: Inputs, t: Table, known: set<string>, target: nat, tools: seq<nat>, answer: Solid)
    requires Succeeds(k, f, t, known, target, tools, answer) && !f.keepTools
    ensures target in Left(t, tools) && target !in tools
  {
    var x := StoodAt(k, f, t, known, target, tools, answer, Combine(k, f, t).value.active.value);
    LeftFacts(k, f, t, known, target, tools, answer);
  }

  lemma AscendingIsDistinct(s: seq<nat>)
    requires Ascending(s)
    ensures Distinct(s)
  {
  }

  lemma UptoElements(n: nat)
    ensures |Elements(Upto(n))| == n
  {
    assert Ascending(Upto(n));
    BT.FewerElements(Upto(n));
  }

  lemma SameWhenAsMany(a: set<nat>, b: set<nat>)
    requires a <= b && |a| == |b|
    ensures a == b
  {
    assert b == a + (b - a) && |b - a| == 0;
  }

  lemma NamedBelow(n: nat, left: seq<nat>, tools: seq<nat>)
    requires forall i :: i in left + tools ==> i < n
    ensures Elements(left) + Elements(tools) <= Elements(Upto(n)) && |Elements(Upto(n))| == n
  {
    UptoElements(n);
    forall i | i in Elements(left) + Elements(tools) ensures i in Elements(Upto(n)) {
      assert i in left + tools && Upto(n)[i] == i;
    }
  }

  lemma NamedCount(left: seq<nat>, tools: seq<nat>)
    requires Distinct(left) && Elements(left) !! Elements(tools)
    ensures |Elements(left) + Elements(tools)| == |left| + |Elements(tools)|
  {
    BT.FewerElements(left);
  }

  lemma NoneMissed(n: nat, left: seq<nat>, tools: seq<nat>, i: nat)
    requires Elements(left) + Elements(tools) <= Elements(Upto(n)) && i < n
    requires |Elements(left) + Elements(tools)| == |Elements(Upto(n))|
    ensures i in left || i in tools
  {
    SameWhenAsMany(Elements(left) + Elements(tools), Elements(Upto(n)));
    assert Upto(n)[i] == i && i in Elements(Upto(n));
  }

  lemma OneMissed(n: nat, left: seq<nat>, tools: seq<nat>) returns (i: nat)
    requires Elements(left) + Elements(tools) <= Elements(Upto(n))
    requires |Elements(left) + Elements(tools)| < |Elements(Upto(n))|
    ensures i < n && i !in left && i !in tools
  {
    var named, all := Elements(left) + Elements(tools), Elements(Upto(n));
    assert all == named + (all - named) && |all - named| > 0;
    i :| i in all - named;
    assert i in Upto(n);
  }

  /** Some number below `n` is in neither list exactly when the second repeats itself. */
  lemma MissedExactly(n: nat, left: seq<nat>, tools: seq<nat>)
    requires Distinct(left) && |left| == n - |tools| && Elements(left) !! Elements(tools)
    requires forall i :: i in left + tools ==> i < n
    ensures (exists i: nat :: i < n && i !in left && i !in tools) <==> !Distinct(tools)
  {
    NamedBelow(n, left, tools);
    NamedCount(left, tools);
    BT.FewerElements(tools);
    if Distinct(tools) {
      forall i: nat | i < n ensures i in left || i in tools { NoneMissed(n, left, tools, i); }
    } else {
      var i := OneMissed(n, left, tools);
    }
  }

  /** Nothing that is left is listed. */
  lemma LeftApart(k: Kernel, f: Inputs, t: Table, known: set<string>, target: nat, tools: seq<nat>, answer: Solid)
    requires Succeeds(k, f, t, known, target, tools, answer) && !f.keepTools
    ensures var left := Left(t, tools);
            && Distinct(left) && |left| == |t.bodies| - |tools| && Elements(left) !! Elements(tools)
            && forall i :: i in left + tools ==> i < |t.bodies|
  {
    hide Succeeds, Left;
    LeftFacts(k, f, t, known, target, tools, answer);
    Taken(k, f, t, known, target, tools, answer);
    AscendingIsDistinct(Left(t, tools));
  }

  lemma InnocentIsMissed(t: Table, target: nat, tools: seq<nat>)
    requires target in Left(t, tools)
    ensures (exists i: nat :: Innocent(t, target, tools, i)) <==>
            exists i: nat :: i < |t.bodies| && i !in Left(t, tools) && i !in tools
  {
    hide Left;
    if i: nat :| i < |t.bodies| && i !in Left(t, tools) && i !in tools { assert Innocent(t, target, tools, i); }
  }

  /** A boolean that consumes its tools takes a body it does not name exactly when it lists one twice. */
  lemma InnocentsExactly(k: Kernel, f: Inputs, t: Table, known: set<string>, target: nat, tools: seq<nat>,
                         answer: Solid)
    requires Succeeds(k, f, t, known, target, tools, answer) && !f.keepTools
    ensures (exists i: nat :: Innocent(t, target, tools, i)) <==> !Distinct(tools)
  {
    hide Succeeds, Left, Innocent, Distinct, Elements;
    LeftApart(k, f, t, known, target, tools, answer);
    TargetIsLeft(k, f, t, known, target, tools, answer);
    InnocentIsMissed(t, target, tools);
    MissedExactly(|t.bodies|, Left(t, tools), tools);
  }

  // ----- booleans ------------------------------------------------------------------------

  /** What a boolean is meant to leave: the target is the answer and active, the tools are gone with
      their names, every other body is as it was. */
  function MeantTable(f: Inputs, t: Table, target: nat, tools: seq<nat>, answer: Solid): Table
    requires f.Boolean? && target < |t.bodies|
  {
    if f.keepTools then Replace(t, target, answer) else BT.ToolsRemoved(t, target, tools, answer)
  }

  lemma LeavesAsMeant(k: Kernel, f: Inputs, t: Table, known: set<string>, target: nat, tools: seq<nat>, answer: Solid)
    requires Succeeds(k, f, t, known, target, tools, answer)
    ensures target < |t.bodies|
    ensures Combine(k, f, t).value == MeantTable(f, t, target, tools, answer) <==> f.keepTools || Distinct(tools)
  {
    Taken(k, f, t, known, target, tools, answer);
    if !f.keepTools {
      TargetIsLeft(k, f, t, known, target, tools, answer);
      BT.RemovesExactlyItsTools(f, t, target, tools, answer);
    }
  }

  /** The target becomes point by point the answer, keeps its names and is active. */
  lemma TargetAnswers(k: Kernel, f: Inputs, t: Table, known: set<string>, target: nat, tools: seq<nat>, answer: Solid,
                      p: Point)
    requires Succeeds(k, f, t, known, target, tools, answer)
    ensures target < |t.bodies| && forall i :: 0 <= i < |tools| ==> tools[i] < |t.bodies|
    ensures var t' := Combine(k, f, t).value;
            && t'.active.Some? && t'.active.value < |t'.bodies|
            && t'.bodies[t'.active.value].names == t.bodies[target].names
            && (p in t'.bodies[t'.active.value].solid <==>
                  Answers(f.op, p, t.bodies[target].solid, SolidsAt(t, tools)))
  {
    hide Answers, Fold, DropAll, Descending, Combine, Answer;
    Taken(k, f, t, known, target, tools, answer);
    FoldMeans(k, f.op, t.bodies[target].solid, SolidsAt(t, tools), p);
    if !f.keepTools {
      var x := StoodAt(k, f, t, known, target, tools, answer, Combine(k, f, t).value.active.value);
    }
  }

  /** One table is what a boolean makes of another. The target is point by point the answer and active,
      under its names; every other body is as it was, with its names, and the tools are gone with theirs
      unless they were kept, if and only if the tools that go are pairwise distinct bodies. */
  ghost predicate IsCombined(f: Inputs, t: Table, t': Table, target: nat, tools: seq<nat>, answer: Solid, p: Point)
    requires f.Boolean?
  {
    && ActiveOk(t') && t'.active.Some? && target < |t.bodies|
    && (forall i :: 0 <= i < |tools| ==> tools[i] < |t.bodies|)
    && (p in t'.bodies[t'.active.value].solid <==> Answers(f.op, p, t.bodies[target].solid, SolidsAt(t, tools)))
    && t'.bodies[t'.active.value].names == t.bodies[target].names
    && (t' == MeantTable(f, t, target, tools, answer) <==> f.keepTools || Distinct(tools))
  }

  /** A boolean of a document, in full, on the table. */
  lemma BooleanMeans(k: Kernel, d: Document, n: nat, p: Point) returns (target: nat, tools: seq<nat>, answer: Solid)
    requires UniqueResults(d) && n < |d.features| && RunTo(k, d, n + 1).Ok?
    requires d.features[n].enabled && d.features[n].inputs.Boolean?
    ensures RunTo(k, d, n).Ok?
    ensures Answer(k, d.features[n].inputs, RunTo(k, d, n).value.table) == Ok((target, tools, answer))
    ensures IsCombined(d.features[n].inputs, RunTo(k, d, n).value.table, RunTo(k, d, n + 1).value.table,
                       target, tools, answer, p)
  {
    var m := RunTo(k, d, n).value;
    NameSets.NameSetsDisjoint(k, d, n);
    target, tools, answer := TableBooleanMeans(k, d, m, d.features[n], Declared(d, n), p);
  }

  lemma StepCombines(k: Kernel, d: Document, m: Machine, f: Feature)
    requires ActiveOk(m.table) && f.enabled && f.inputs.Boolean? && Step(k, d, m, f).Ok?
    ensures Answer(k, f.inputs, m.table).Ok? && Combine(k, f.inputs, m.table) == Ok(Step(k, d, m, f).value.table)
  {
    hide Answer, Settle;
  }

  lemma TableBooleanMeans(k: Kernel, d: Document, m: Machine, f: Feature, known: set<string>, p: Point)
      returns (target: nat, tools: seq<nat>, answer: Solid)
    requires ActiveOk(m.table) && NameSets.Separate(m.table.bodies, known) && f.enabled && f.inputs.Boolean?
    requires Step(k, d, m, f).Ok?
    ensures Answer(k, f.inputs, m.table) == Ok((target, tools, answer))
    ensures IsCombined(f.inputs, m.table, Step(k, d, m, f).value.table, target, tools, answer, p)
  {
    hide Step, Combine, Answer, MeantTable, Answers, Distinct;
    StepCombines(k, d, m, f);
    var taken := Answer(k, f.inputs, m.table).value;
    target, tools, answer := taken.0, taken.1, taken.2;
    TargetAnswers(k, f.inputs, m.table, known, target, tools, answer, p);
    LeavesAsMeant(k, f.inputs, m.table, known, target, tools, answer);
  }

  // ----- unions --------------------------------------------------------------------------

  /** Some body holds the point. */
  predicate Held(t: Table, p: Point) { exists i :: 0 <= i < |t.bodies| && p in t.bodies[i].solid }

  /** Some body that is not taken unnamed holds the point. */
  predicate Covered(t: Table, target: nat, tools: seq<nat>, p: Point) {
    exists i: nat :: i < |t.bodies| && p in t.bodies[i].solid && !Innocent(t, target, tools, i)
  }

  lemma HeldAfter(k: Kernel, f: Inputs, t: Table, known: set<string>, target: nat, tools: seq<nat>, answer: Solid,
                  p: Point)
    requires Succeeds(k, f, t, known, target, tools, answer) && f.op.Union? && !f.keepTools
    requires Held(Combine(k, f, t).value, p)
    ensures Covered(t, target, tools, p)
  {
    var t' := Combine(k, f, t).value;
    var j: nat :| j < |t'.bodies| && p in t'.bodies[j].solid;
    var x := StoodAt(k, f, t, known, target, tools, answer, j);
    TargetAnswers(k, f, t, known, target, tools, answer, p);
    if x != target {
      assert !Innocent(t, target, tools, x);
    } else if p in t.bodies[target].solid {
      assert !Innocent(t, target, tools, target);
    } else {
      var i :| 0 <= i < |tools| && p in SolidsAt(t, tools)[i];
      assert !Innocent(t, target, tools, tools[i]);
    }
  }

  lemma TakenIsHeld(k: Kernel, f: Inputs, t: Table, known: set<string>, target: nat, tools: seq<nat>, answer: Solid,
                    i: nat, p: Point)
    requires Succeeds(k, f, t, known, target, tools, answer) && f.op.Union?
    requires i < |t.bodies| && p in t.bodies[i].solid && (i == target || i in tools)
    ensures Held(Combine(k, f, t).value, p)
  {
    TargetAnswers(k, f, t, known, target, tools, answer, p);
    if i in tools {
      var a :| 0 <= a < |tools| && tools[a] == i;
      assert p in SolidsAt(t, tools)[a];
    }
  }

  lemma LeftIsHeld(k: Kernel, f: Inputs, t: Table, known: set<string>, target: nat, tools: seq<nat>, answer: Solid,
                   i: nat, p: Point)
    requires Succeeds(k, f, t, known, target, tools, answer) && !f.keepTools
    requires i < |t.bodies| && p in t.bodies[i].solid && i != target && i in Left(t, tools)
    ensures Held(Combine(k, f, t).value, p)
  {
    LeftFacts(k, f, t, known, target, tools, answer);
    var j :| 0 <= j < |Left(t, tools)| && Left(t, tools)[j] == i;
    var x := StoodAt(k, f, t, known, target, tools, answer, j);
  }

  lemma StaysHeld(k: Kernel, f: Inputs, t: Table, known: set<string>, target: nat, tools: seq<nat>, answer: Solid,
                  p: Point)
    requires Succeeds(k, f, t, known, target, tools, answer) && f.op.Union? && !f.keepTools
    requires Covered(t, target, tools, p)
    ensures Held(Combine(k, f, t).value, p)
  {
    var i: nat :| i < |t.bodies| && p in t.bodies[i].solid && !Innocent(t, target, tools, i);
    if i == target || i in tools {
      TakenIsHeld(k, f, t, known, target, tools, answer, i, p);
    } else {
      LeftIsHeld(k, f, t, known, target, tools, answer, i, p);
    }
  }

  lemma KeptUnionHolds(k: Kernel, f: Inputs, t: Table, known: set<string>, target: nat, tools: seq<nat>,
                       answer: Solid, p: Point)
    requires Succeeds(k, f, t, known, target, tools, answer) && f.op.Union? && f.keepTools
    ensures Held(Combine(k, f, t).value, p) <==> Held(t, p)
  {
    var t' := Combine(k, f, t).value;
    Taken(k, f, t, known, target, tools, answer);
    TargetAnswers(k, f, t, known, target, tools, answer, p);
    if Held(t, p) {
      var i: nat :| i < |t.bodies| && p in t.bodies[i].solid;
      assert p in t'.bodies[i].solid;
    }
    if Held(t', p) {
      var i: nat :| i < |t'.bodies| && p in t'.bodies[i].solid;
      if i == target && p !in t.bodies[target].solid {
        var a :| 0 <= a < |tools| && p in SolidsAt(t, tools)[a];
        assert p in t.bodies[tools[a]].solid;
      }
    }
  }

  /** Every point held before is held after, and no other. */
  ghost predicate SameMaterial(t: Table, t': Table) { forall p :: Held(t', p) <==> Held(t, p) }

  /** What a union may take unnamed is covered by the bodies it does not. */
  ghost predicate NothingUncovered(t: Table, target: nat, tools: seq<nat>) {
    forall p :: Held(t, p) ==> Covered(t, target, tools, p)
  }

  /** This body holds the point, and no other does. */
  predicate Owns(t: Table, i: nat, p: Point) {
    && i < |t.bodies| && p in t.bodies[i].solid
    && forall j :: 0 <= j < |t.bodies| && j != i ==> p !in t.bodies[j].solid
  }

  ghost predicate OwnsSome(t: Table, i: nat) { exists p :: Owns(t, i, p) }

  /** Every body holds a point that no other holds. */
  ghost predicate Apart(t: Table) { forall i: nat :: i < |t.bodies| ==> OwnsSome(t, i) }

  lemma UnionOnTable(k: Kernel, f: Inputs, t: Table, known: set<string>, target: nat, tools: seq<nat>, answer: Solid)
    requires Succeeds(k, f, t, known, target, tools, answer) && f.op.Union?
    ensures SameMaterial(t, Combine(k, f, t).value) <==> f.keepTools || NothingUncovered(t, target, tools)
  {
    var t' := Combine(k, f, t).value;
    if f.keepTools {
      forall p ensures Held(t', p) <==> Held(t, p) { KeptUnionHolds(k, f, t, known, target, tools, answer, p); }
    } else {
      forall p ensures Held(t', p) <==> Covered(t, target, tools, p) {
        if Held(t', p) { HeldAfter(k, f, t, known, target, tools, answer, p); }
        if Covered(t, target, tools, p) { StaysHeld(k, f, t, known, target, tools, answer, p); }
      }
      forall p | Covered(t, target, tools, p) ensures Held(t, p) {}
    }
  }

  lemma NoInnocents(t: Table, target: nat, tools: seq<nat>)
    requires forall i :: !Innocent(t, target, tools, i)
    ensures NothingUncovered(t, target, tools)
  {
    forall p | Held(t, p) ensures Covered(t, target, tools, p) {
      var i: nat :| i < |t.bodies| && p in t.bodies[i].solid;
      assert !Innocent(t, target, tools, i);
    }
  }

  lemma InnocentUncovered(t: Table, target: nat, tools: seq<nat>, i: nat)
    requires Apart(t) && Innocent(t, target, tools, i)
    ensures !NothingUncovered(t, target, tools)
  {
    assert OwnsSome(t, i);
    var p :| Owns(t, i, p);
    assert Held(t, p);
    assert !Covered(t, target, tools, p);
  }

  lemma ApartUncovered(k: Kernel, f: Inputs, t: Table, known: set<string>, target: nat, tools: seq<nat>, answer: Solid)
    requires Succeeds(k, f, t, known, target, tools, answer) && !f.keepTools
    ensures Distinct(tools) ==> NothingUncovered(t, target, tools)
    ensures Apart(t) && NothingUncovered(t, target, tools) ==> Distinct(tools)
  {
    InnocentsExactly(k, f, t, known, target, tools, answer);
    if Distinct(tools) {
      NoInnocents(t, target, tools);
    } else if Apart(t) {
      var i :| Innocent(t, target, tools, i);
      InnocentUncovered(t, target, tools, i);
    }
  }

  /** A union of a document loses no material and makes none exactly when whatever it takes unnamed is
      covered by the rest; so it does when no body is listed twice, and where bodies lie apart only then. */
  lemma UnionConserves(k: Kernel, d: Document, n: nat) returns (target: nat, tools: seq<nat>)
    requires UniqueResults(d) && n < |d.features| && RunTo(k, d, n + 1).Ok?
    requires d.features[n].enabled && d.features[n].inputs.Boolean? && d.features[n].inputs.op.Union?
    ensures RunTo(k, d, n).Ok?
    ensures var f, t, t' := d.features[n].inputs, RunTo(k, d, n).value.table, RunTo(k, d, n + 1).value.table;
            && FirstNamed(t.bodies, f.target) == Some(target) && LocateAll(t, f.tools) == Ok(tools)
            && (SameMaterial(t, t') <==> f.keepTools || NothingUncovered(t, target, tools))
            && (f.keepTools || Distinct(tools) ==> SameMaterial(t, t'))
            && (Apart(t) ==> (SameMaterial(t, t') <==> f.keepTools || Distinct(tools)))
  {
    var f, t := d.features[n].inputs, RunTo(k, d, n).value.table;
    NameSets.NameSetsDisjoint(k, d, n);
    P.AnswerFinds(k, f, t);
    target, tools := Answer(k, f, t).value.0, Answer(k, f, t).value.1;
    var answer := Answer(k, f, t).value.2;
    UnionOnTable(k, f, t, Declared(d, n), target, tools, answer);
    if !f.keepTools { ApartUncovered(k, f, t, Declared(d, n), target, tools, answer); }
  }

  // ----- tools ---------------------------------------------------------------------------

  /** A feature that adds material takes none away, a cut adds none, and neither touches any body but
      the one left active or moves any. */
  lemma ToolsOnlyAddOrRemove(k: Kernel, d: Document, m: Machine, f: Feature, i: nat, p: Point)
    requires ActiveOk(m.table) && f.enabled && f.inputs.MakesTool() && Step(k, d, m, f).Ok? && i < |m.table.bodies|
    ensures var t, t' := m.table, Step(k, d, m, f).value.table;
            && i < |t'.bodies| && t'.active.Some?
            && (t'.active.value != i ==> t'.bodies[i] == t.bodies[i])
            && (f.inputs.IsAdditive() ==> (p in t.bodies[i].solid ==> p in t'.bodies[i].solid))
            && (!f.inputs.IsAdditive() ==> (p in t'.bodies[i].solid ==> p in t.bodies[i].solid))
            && (!f.inputs.IsAdditive() ==> |t'.bodies| == |t.bodies| && t'.bodies[i].names == t.bodies[i].names)
  {
  }
}
