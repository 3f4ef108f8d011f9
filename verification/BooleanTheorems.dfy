/** What a boolean does to the table: exactly when it removes its tools and nothing else. */
module BooleanTheorems {
  import opened Prelude
  import opened Solids
  import opened CadDocument
  import opened KernelModel
  import opened BodyTable
  import opened Booleans

  // ----- filtering -----------------------------------------------------------------------

  lemma {:induction false} KeepBeyond<T>(s: seq<T>, gone: set<nat>, i: nat)
    requires |s| <= i
    ensures Keep(s, gone + {i}) == Keep(s, gone)
  {
    if s != [] { KeepBeyond(s[..|s| - 1], gone, i); }
  }

  /** Removing one index above all the others, then the others, is removing them all. */
  lemma {:induction false} KeepWithout<T>(s: seq<T>, gone: set<nat>, i: nat)
    requires i < |s| && forall j :: j in gone ==> j < i
    ensures Keep(Without(s, i), gone) == Keep(s, gone + {i})
  {
    var front := s[..|s| - 1];
    if i == |s| - 1 {
      assert Without(s, i) == front;
      KeepBeyond(front, gone, i);
    } else {
      assert Without(s, i)[..|s| - 2] == Without(front, i);
      KeepWithout(front, gone, i);
    }
  }

  lemma {:induction false} KeepAll<T>(s: seq<T>)
    ensures Keep(s, {}) == s
  {
    if s != [] { KeepAll(s[..|s| - 1]); }
  }

  lemma {:induction false} KeepLength<T>(s: seq<T>, gone: set<nat>)
    requires forall j :: j in gone ==> j < |s|
    ensures |Keep(s, gone)| == |s| - |gone|
  {
    if s == [] {
      assert gone == {};
    } else {
      var last := |s| - 1;
      if last in gone {
        KeepBeyond(s[..last], gone - {last}, last);
        assert gone == (gone - {last}) + {last};
        KeepLength(s[..last], gone - {last});
      } else {
        KeepLength(s[..last], gone);
      }
    }
  }

  /** A kept element stands after exactly the kept elements that stood before it. */
  lemma {:induction false} KeepAt<T>(s: seq<T>, gone: set<nat>, i: nat)
    requires i < |s| && i !in gone
    ensures Keep(s[..i], gone) <= Keep(s, gone) && |Keep(s[..i], gone)| < |Keep(s, gone)|
    ensures Keep(s, gone)[|Keep(s[..i], gone)|] == s[i]
  {
    if i < |s| - 1 {
      assert s[..|s| - 1][..i] == s[..i];
      KeepAt(s[..|s| - 1], gone, i);
    }
  }

  lemma {:induction false} KeepIsFrom<T>(s: seq<T>, gone: set<nat>, x: T)
    ensures x in Keep(s, gone) ==> x in s
  {
    if s != [] { KeepIsFrom(s[..|s| - 1], gone, x); }
  }

  // ----- deletions -----------------------------------------------------------------------

  lemma {:induction false} DropAllKeeps(t: Table, order: seq<nat>)
    requires forall i, j :: 0 <= i < j < |order| ==> order[i] > order[j]
    requires forall i :: 0 <= i < |order| ==> order[i] < |t.bodies|
    ensures DropAll(t, order).Ok? && DropAll(t, order).value.bodies == Keep(t.bodies, Elements(order))
    decreases |order|
  {
    if order == [] {
      assert Elements(order) == {};
      KeepAll(t.bodies);
    } else {
      var rest := order[1..];
      DropAllKeeps(Drop(t, order[0]), rest);
      KeepWithout(t.bodies, Elements(rest), order[0]);
      assert Elements(order) == Elements(rest) + {order[0]};
    }
  }

  lemma {:induction false} DropAllLength(t: Table, order: seq<nat>)
    ensures DropAll(t, order).Ok? ==> |DropAll(t, order).value.bodies| == |t.bodies| - |order|
    decreases |order|
  {
    if order != [] && order[0] < |t.bodies| { DropAllLength(Drop(t, order[0]), order[1..]); }
  }

  lemma {:induction false} FewerElements(s: seq<nat>)
    ensures |Elements(s)| <= |s|
    ensures |Elements(s)| == |s| <==> Distinct(s)
  {
    if s != [] {
      var front, last := s[..|s| - 1], s[|s| - 1];
      FewerElements(front);
      assert Elements(s) == Elements(front) + {last};
      if last in front {
        assert Elements(s) == Elements(front);
        var i :| 0 <= i < |front| && front[i] == last;
        assert s[i] == s[|s| - 1];
      } else {
        assert |Elements(s)| == |Elements(front)| + 1;
        if Distinct(front) {
          forall i, j | 0 <= i < j < |s| ensures s[i] != s[j] {
            if j < |front| { assert front[i] != front[j]; } else { assert s[i] == front[i]; }
          }
        }
        if Distinct(s) {
          forall i, j | 0 <= i < j < |front| ensures front[i] != front[j] { assert s[i] != s[j]; }
        }
      }
    }
  }

  lemma DescendingFacts(tools: seq<nat>)
    ensures |Descending(tools)| == |tools| && Elements(Descending(tools)) == Elements(tools)
  {
    assert |multiset(Descending(tools))| == |multiset(tools)|;
    forall x: nat { DescendingElements(tools, x); }
  }

  // ----- one boolean ---------------------------------------------------------------------

  /** The old table with the tool bodies filtered out, the target holding the answer, and the
      target active at whatever index it has now. */
  function ToolsRemoved(t: Table, target: nat, tools: seq<nat>, answer: Solid): Table
    requires target < |t.bodies|
  {
    Table(Keep(Replace(t, target, answer).bodies, Elements(tools)),
          Some(|Keep(t.bodies[..target], Elements(tools))|))
  }

  /** The first body carrying the target's name is still the target after the filter. */
  lemma TargetFoundAgain(t: Table, name: string, gone: set<nat>, answer: Solid)
    requires FirstNamed(t.bodies, name).Some? && FirstNamed(t.bodies, name).value !in gone
    ensures var target := FirstNamed(t.bodies, name).value;
            var kept := Keep(Replace(t, target, answer).bodies, gone);
            FirstNamed(kept, name) == Some(|Keep(t.bodies[..target], gone)|)
            && kept[|Keep(t.bodies[..target], gone)|].solid == answer
  {
    var target := FirstNamed(t.bodies, name).value;
    var bodies := Replace(t, target, answer).bodies;
    var kept := Keep(bodies, gone);
    assert bodies[..target] == t.bodies[..target];
    KeepAt(bodies, gone, target);
    var rank := |Keep(bodies[..target], gone)|;
    forall j | 0 <= j < rank ensures name !in kept[j].names {
      assert kept[j] == Keep(bodies[..target], gone)[j];
      KeepIsFrom(bodies[..target], gone, kept[j]);
    }
    assert name in kept[rank].names;
  }

  /** Without `keep_tools`, a boolean whose tools are not its target removes exactly its tools if
      and only if they are pairwise distinct bodies: a body listed under two of its names takes
      another body with it, or crashes. */
  lemma RemovesExactlyItsTools(f: Inputs, t: Table, target: nat, tools: seq<nat>, answer: Solid)
    requires f.Boolean? && !f.keepTools
    requires FirstNamed(t.bodies, f.target) == Some(target) && target !in tools
    requires forall i :: 0 <= i < |tools| ==> tools[i] < |t.bodies|
    ensures Settle(f, t, target, tools, answer) == Ok(ToolsRemoved(t, target, tools, answer)) <==> Distinct(tools)
  {
    var replaced, order, gone := Replace(t, target, answer), Descending(tools), Elements(tools);
    DescendingFacts(tools);
    FewerElements(tools);
    TargetFoundAgain(t, f.target, gone, answer);
    if Distinct(tools) {
      DescendingDistinct(tools);
      assert forall i :: 0 <= i < |order| ==> order[i] in Elements(order);
      DropAllKeeps(replaced, order);
      var kept := DropAll(replaced, order).value;
      var rank := |Keep(t.bodies[..target], gone)|;
      assert kept.bodies[rank := kept.bodies[rank].(solid := answer)] == kept.bodies;
    } else {
      DropAllLength(replaced, order);
      KeepLength(replaced.bodies, gone);
    }
  }

  /** A target consumed as one of its own tools is refused: its name no longer resolves. */
  lemma ConsumedTargetIsRefused(f: Inputs, t: Table, target: nat, tools: seq<nat>, answer: Solid)
    requires f.Boolean? && !f.keepTools && Distinct(tools) && target in tools
    requires forall i :: 0 <= i < |tools| ==> tools[i] < |t.bodies|
    requires forall i :: 0 <= i < |t.bodies| ==> (f.target in t.bodies[i].names <==> i == target)
    ensures Settle(f, t, target, tools, answer) == Err(Refused("FEATURE_RESULT_UNAVAILABLE"))
  {
    var replaced, order, gone := Replace(t, target, answer), Descending(tools), Elements(tools);
    DescendingFacts(tools);
    DescendingDistinct(tools);
    assert forall i :: 0 <= i < |order| ==> order[i] in Elements(order);
    DropAllKeeps(replaced, order);
    KeepLacks(replaced.bodies, gone, f.target);
  }

  lemma {:induction false} KeepLacks(bodies: seq<Entry>, gone: set<nat>, name: string)
    requires forall i :: 0 <= i < |bodies| && name in bodies[i].names ==> i in gone
    ensures forall j :: 0 <= j < |Keep(bodies, gone)| ==> name !in Keep(bodies, gone)[j].names
  {
    if bodies != [] { KeepLacks(bodies[..|bodies| - 1], gone, name); }
  }

  function PlateStudRib(plate: Solid, stud: Solid, rib: Solid): Table {
    Table([Entry(plate, {"plate"}), Entry(stud, {"stud", "peg"}), Entry(rib, {"rib"})], Some(2))
  }

  lemma SettleLosesTheRib(plate: Solid, stud: Solid, rib: Solid, answer: Solid)
    ensures Settle(Boolean(Union, "plate", ["stud", "peg"], false), PlateStudRib(plate, stud, rib), 0, [1, 1], answer)
         == Ok(Table([Entry(answer, {"plate"})], Some(0)))
  {
    var replaced := Replace(PlateStudRib(plate, stud, rib), 0, answer);
    DescendingPair(1);
    var once := Drop(replaced, 1);
    assert once.bodies == [Entry(answer, {"plate"}), Entry(rib, {"rib"})];
    var last := Drop(once, 1);
    assert last == Table([Entry(answer, {"plate"})], Some(0));
    assert [1, 1][1..] == [1] && [1][1..] == [];
    assert DropAll(last, []) == Ok(last);
    assert DropAll(once, [1]) == DropAll(last, []);
    assert DropAll(replaced, [1, 1]) == DropAll(once, [1]);
    assert "plate" in last.bodies[0].names && FirstNamed(last.bodies, "plate") == Some(0);
    assert Replace(last, 0, answer) == last;
  }

  lemma ToolsOfPlateStudRib(plate: Solid, stud: Solid, rib: Solid)
    ensures var t := PlateStudRib(plate, stud, rib);
            && FirstNamed(t.bodies, "plate") == Some(0)
            && LocateAll(t, ["stud", "peg"]) == Ok([1, 1]) && SolidsAt(t, [1, 1]) == [stud, stud]
  {
    var t := PlateStudRib(plate, stud, rib);
    assert "plate" in t.bodies[0].names;
    assert "stud" in t.bodies[1].names && "stud" !in t.bodies[0].names;
    assert "peg" in t.bodies[1].names && "peg" !in t.bodies[0].names;
    assert FirstNamed(t.bodies, "stud") == Some(1) && FirstNamed(t.bodies, "peg") == Some(1);
    var names := ["stud", "peg"];
    assert names[0] == "stud" && names[1] == "peg";
    assert LocateAll(t, names).Ok? && LocateAll(t, names).value == [1, 1];
    assert SolidsAt(t, [1, 1]) == [stud, stud];
  }

  /** The repeated index at work: the plate is joined with the stud under both its names, the stud
      goes, and the rib, which nothing named, goes with it. */
  lemma InnocentBodyLost(k: Kernel, plate: Solid, stud: Solid, rib: Solid)
    requires Fold(k, Union, plate, [stud, stud]).Ok?
    ensures Combine(k, Boolean(Union, "plate", ["stud", "peg"], false), PlateStudRib(plate, stud, rib))
         == Ok(Table([Entry(Fold(k, Union, plate, [stud, stud]).value, {"plate"})], Some(0)))
  {
    ToolsOfPlateStudRib(plate, stud, rib);
    SettleLosesTheRib(plate, stud, rib, Fold(k, Union, plate, [stud, stud]).value);
  }

  lemma DescendingPair(n: nat)
    ensures Descending([n, n]) == [n, n]
  {
    assert [n, n][..1] == [n] && [n][..0] == [];
    assert Descending([n]) == InsertDescending(n, Descending([]));
  }
}
