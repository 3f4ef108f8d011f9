/** What a table does with names and indices does not depend on what its bodies are made of: two
    tables with the same names in the same order and the same active index stay so. */
module Outlines {
  import opened Prelude
  import opened Solids
  import opened CadDocument
  import opened BodyTable
  import opened Booleans

  predicate SameNames(a: seq<Entry>, b: seq<Entry>) {
    |a| == |b| && forall i :: 0 <= i < |a| ==> a[i].names == b[i].names
  }

  predicate Alike(t: Table, u: Table) { SameNames(t.bodies, u.bodies) && t.active == u.active }

  predicate AlikeOutcome(t: Result<Table, Failure>, u: Result<Table, Failure>) {
    match t case Err(e) => u == Err(e) case Ok(table) => u.Ok? && Alike(table, u.value)
  }

  lemma SameFirst(a: seq<Entry>, b: seq<Entry>, name: string)
    requires SameNames(a, b)
    ensures FirstNamed(a, name) == FirstNamed(b, name)
  {
    var i, j := FirstNamed(a, name), FirstNamed(b, name);
    if i.Some? { assert name in b[i.value].names; }
    if j.Some? { assert name in a[j.value].names; }
  }

  lemma SameLocated(t: Table, u: Table, name: Option<string>)
    requires Alike(t, u)
    ensures Locate(t, name) == Locate(u, name)
  {
    if name.Some? { SameFirst(t.bodies, u.bodies, name.value); }
  }

  lemma {:induction false} SameTools(t: Table, u: Table, names: seq<string>)
    requires Alike(t, u)
    ensures LocateAll(t, names) == LocateAll(u, names)
  {
    if names != [] {
      SameTools(t, u, names[..|names| - 1]);
      SameFirst(t.bodies, u.bodies, names[|names| - 1]);
    }
  }

  lemma CreateAlike(t: Table, u: Table, solid: Solid, hollow: Solid, names: set<string>)
    requires Alike(t, u)
    ensures AlikeOutcome(Create(t, solid, names), Create(u, hollow, names))
  {
    forall name | name in names ensures Find(t, name).Some? <==> Find(u, name).Some? {
      SameFirst(t.bodies, u.bodies, name);
    }
  }

  lemma ReplaceAlike(t: Table, u: Table, i: nat, solid: Solid, hollow: Solid)
    requires Alike(t, u) && i < |t.bodies|
    ensures Alike(Replace(t, i, solid), Replace(u, i, hollow))
  {
  }

  lemma {:induction false} DropAllAlike(t: Table, u: Table, order: seq<nat>)
    requires Alike(t, u)
    ensures AlikeOutcome(DropAll(t, order), DropAll(u, order))
    decreases |order|
  {
    if order != [] && order[0] < |t.bodies| { DropAllAlike(Drop(t, order[0]), Drop(u, order[0]), order[1..]); }
  }

  lemma SettleAlike(f: Inputs, t: Table, u: Table, target: nat, tools: seq<nat>, answer: Solid, hollow: Solid)
    requires f.Boolean? && Alike(t, u) && target < |t.bodies|
    ensures AlikeOutcome(Settle(f, t, target, tools, answer), Settle(f, u, target, tools, hollow))
  {
    var replaced, outline := Replace(t, target, answer), Replace(u, target, hollow);
    ReplaceAlike(t, u, target, answer, hollow);
    DropAllAlike(replaced, outline, Descending(tools));
    if DropAll(replaced, Descending(tools)).Ok? {
      var dropped, left := DropAll(replaced, Descending(tools)).value, DropAll(outline, Descending(tools)).value;
      SameFirst(dropped.bodies, left.bodies, f.target);
    }
  }

  // ----- deletions -----------------------------------------------------------------------

  lemma {:induction false} DropAllDeletes(t: Table, order: seq<nat>)
    requires DropAll(t, order).Ok?
    ensures DropAll(t, order).value.bodies == Deleted(t.bodies, order)
    decreases |order|
  {
    if order != [] { DropAllDeletes(Drop(t, order[0]), order[1..]); }
  }

  /** What stands at `j` after the deletions stood somewhere before them, with whatever stood beside it. */
  lemma {:induction false} DeletedFrom<S, T>(s: seq<S>, t: seq<T>, order: seq<nat>, j: nat) returns (i: nat)
    requires |s| == |t| && j < |Deleted(s, order)|
    ensures i < |s| && |Deleted(t, order)| == |Deleted(s, order)|
    ensures Deleted(s, order)[j] == s[i] && Deleted(t, order)[j] == t[i]
    decreases |order|
  {
    i := j;
    if order != [] && order[0] < |s| {
      i := DeletedFrom(Without(s, order[0]), Without(t, order[0]), order[1..], j);
      i := if i < order[0] then i else i + 1;
    }
  }

  lemma {:induction false} DeletedAlike<S, T>(s: seq<S>, t: seq<T>, order: seq<nat>)
    requires |s| == |t|
    ensures |Deleted(s, order)| == |Deleted(t, order)|
    decreases |order|
  {
    if order != [] && order[0] < |s| { DeletedAlike(Without(s, order[0]), Without(t, order[0]), order[1..]); }
  }

  lemma {:induction false} DeletedAscends(ids: seq<nat>, order: seq<nat>)
    requires Ascending(ids)
    ensures Ascending(Deleted(ids, order))
    ensures forall j :: 0 <= j < |Deleted(ids, order)| ==> Deleted(ids, order)[j] in ids
    decreases |order|
  {
    if order != [] && order[0] < |ids| {
      WithoutIndex(ids, order[0]);
      DeletedAscends(Without(ids, order[0]), order[1..]);
    }
  }
}
