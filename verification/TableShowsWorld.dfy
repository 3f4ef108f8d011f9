/** The table of bodies shows the world of named bodies: the same solids under the same names in
    the order of creation, wherever each one has moved to. */
module TableShowsWorld {
  import opened Prelude
  import opened Solids
  import T = BodyTable
  import B = Booleans
  import N = NamedWorld

  function NamesOf(names: map<string, nat>, id: nat): set<string> {
    set name | name in names && names[name] == id
  }

  /** `ids[i]` is the identity of the body now at index `i`. */
  ghost predicate ShowsBodies(bodies: seq<T.Entry>, ids: seq<nat>, w: N.World) {
    && |ids| == |bodies|
    && Ascending(ids)
    && (forall i :: 0 <= i < |ids| ==> ids[i] in w.solids && w.solids[ids[i]] == bodies[i].solid)
    && (forall id :: id in w.solids ==> id in ids)
    && (forall name :: name in w.names ==> w.names[name] in w.solids)
    && (forall i :: 0 <= i < |ids| ==> bodies[i].names == NamesOf(w.names, ids[i]))
  }

  ghost predicate Shows(t: T.Table, ids: seq<nat>, w: N.World) {
    && ShowsBodies(t.bodies, ids, w)
    && N.WorldOk(w) && T.ActiveOk(t)
    && (t.active.Some? <==> w.active.Some?)
    && (t.active.Some? ==> w.active.value == ids[t.active.value])
  }

  lemma FirstNamedShows(bodies: seq<T.Entry>, ids: seq<nat>, w: N.World, name: string)
    requires ShowsBodies(bodies, ids, w)
    ensures T.FirstNamed(bodies, name).Some? <==> name in w.names
    ensures name in w.names ==> ids[T.FirstNamed(bodies, name).value] == w.names[name]
  {
    if name in w.names {
      var i :| 0 <= i < |ids| && ids[i] == w.names[name];
      assert name in bodies[i].names;
    }
    if T.FirstNamed(bodies, name).Some? {
      assert name in bodies[T.FirstNamed(bodies, name).value].names;
    }
  }

  /** The new body shows its names, and the others show theirs. */
  lemma CreatedNames(bodies: seq<T.Entry>, ids: seq<nat>, w: N.World, names: set<string>, i: nat)
    requires ShowsBodies(bodies, ids, w) && N.WorldOk(w) && names !! w.names.Keys && i <= |ids|
    ensures NamesOf(w.names + N.Bound(names, w.next), (ids + [w.next])[i])
         == if i < |ids| then bodies[i].names else names
  {
    if i < |ids| { assert ids[i] in w.solids; }
  }

  lemma CreateShows(t: T.Table, ids: seq<nat>, w: N.World, solid: Solid, names: set<string>)
    requires Shows(t, ids, w)
    ensures T.Create(t, solid, names).Err? <==> N.Create(w, solid, names).Err?
    ensures T.Create(t, solid, names).Err? ==> T.Create(t, solid, names).error == N.Create(w, solid, names).error
    ensures T.Create(t, solid, names).Ok? ==>
              Shows(T.Create(t, solid, names).value, ids + [w.next], N.Create(w, solid, names).value)
  {
    CreateAgrees(t, ids, w, solid, names);
    if N.Create(w, solid, names).Ok? {
      var ids', bodies' := ids + [w.next], t.bodies + [T.Entry(solid, names)];
      var bound := w.names + N.Bound(names, w.next);
      forall i | 0 <= i < |ids'| ensures bodies'[i].names == NamesOf(bound, ids'[i]) {
        CreatedNames(t.bodies, ids, w, names, i);
      }
      assert ids'[|ids|] == w.next;
      assert ShowsBodies(bodies', ids', N.Create(w, solid, names).value);
    }
  }

  lemma CreateAgrees(t: T.Table, ids: seq<nat>, w: N.World, solid: Solid, names: set<string>)
    requires Shows(t, ids, w)
    ensures T.Create(t, solid, names).Err? <==> N.Create(w, solid, names).Err?
  {
    forall name | name in names ensures T.Find(t, name).Some? <==> name in w.names {
      FirstNamedShows(t.bodies, ids, w, name);
    }
  }

  lemma ReplaceShows(t: T.Table, ids: seq<nat>, w: N.World, i: nat, solid: Solid)
    requires ShowsBodies(t.bodies, ids, w) && i < |ids|
    requires forall id :: id in w.solids ==> id < w.next
    ensures Shows(T.Replace(t, i, solid), ids, N.Reshape(w, ids[i], solid))
  {
    assert ids[i] in N.Reshape(w, ids[i], solid).solids;
  }

  lemma AliasShows(t: T.Table, ids: seq<nat>, w: N.World, i: nat, names: set<string>)
    requires Shows(t, ids, w) && i < |ids|
    requires forall name :: name in names && name in w.names ==> w.names[name] == ids[i]
    ensures Shows(T.Alias(t, i, names), ids, N.Alias(w, ids[i], names))
  {
    var bound := w.names + N.Bound(names, ids[i]);
    assert NamesOf(bound, ids[i]) == NamesOf(w.names, ids[i]) + names;
    forall j | 0 <= j < |ids| && j != i ensures NamesOf(bound, ids[j]) == NamesOf(w.names, ids[j]) {}
  }

  /** What the index `j` shows after the body at `i` has left. */
  lemma DropShowsAt(bodies: seq<T.Entry>, ids: seq<nat>, w: N.World, i: nat, j: nat)
    requires ShowsBodies(bodies, ids, w) && i < |ids| && j < |ids| - 1
    ensures Without(bodies, i)[j].names == NamesOf(N.Consume(w, {ids[i]}).names, Without(ids, i)[j])
    ensures Without(ids, i)[j] in w.solids && Without(ids, i)[j] != ids[i]
    ensures w.solids[Without(ids, i)[j]] == Without(bodies, i)[j].solid
  {
    var at := if j < i then j else j + 1;
    assert ids[at] != ids[i] && Without(ids, i)[j] == ids[at] && Without(bodies, i)[j] == bodies[at];
    assert NamesOf(N.Unbound(w.names, {ids[i]}), ids[at]) == NamesOf(w.names, ids[at]);
  }

  /** One deletion by index is the departure of one identity. */
  lemma DropShows(bodies: seq<T.Entry>, ids: seq<nat>, w: N.World, i: nat)
    requires ShowsBodies(bodies, ids, w) && i < |ids|
    ensures ShowsBodies(Without(bodies, i), Without(ids, i), N.Consume(w, {ids[i]}))
  {
    WithoutIndex(ids, i);
    forall j | 0 <= j < |ids| - 1 { DropShowsAt(bodies, ids, w, i, j); }
  }

  ghost function Picked(ids: seq<nat>, order: seq<nat>): set<nat>
    requires forall i :: 0 <= i < |order| ==> order[i] < |ids|
  {
    set i | 0 <= i < |order| :: ids[order[i]]
  }

  lemma ConsumeTwice(w: N.World, a: set<nat>, b: set<nat>)
    ensures N.Consume(N.Consume(w, a), b) == N.Consume(w, a + b)
  {
    assert N.Consume(N.Consume(w, a), b).solids == N.Consume(w, a + b).solids;
    assert N.Consume(N.Consume(w, a), b).names == N.Consume(w, a + b).names;
  }

  lemma PickedAfterDrop(ids: seq<nat>, order: seq<nat>)
    requires order != [] && Ascending(ids)
    requires forall i, j :: 0 <= i < j < |order| ==> order[i] > order[j]
    requires forall i :: 0 <= i < |order| ==> order[i] < |ids|
    ensures forall j :: 1 <= j < |order| ==> order[j] < |ids| - 1 && Without(ids, order[0])[order[j]] == ids[order[j]]
    ensures Picked(ids, order) == {ids[order[0]]} + Picked(Without(ids, order[0]), order[1..])
  {
    var rest := order[1..];
    assert forall j :: 0 <= j < |rest| ==> rest[j] == order[j + 1] < order[0];
    forall x | x in Picked(ids, order) ensures x in {ids[order[0]]} + Picked(Without(ids, order[0]), rest) {
      var j :| 0 <= j < |order| && ids[order[j]] == x;
      if j > 0 { assert Without(ids, order[0])[rest[j - 1]] == x; }
    }
  }

  /** Deleting from the highest index down removes exactly the identities first found there. */
  lemma {:induction false} DropAllShows(t: T.Table, ids: seq<nat>, w: N.World, order: seq<nat>) returns (ids': seq<nat>)
    requires ShowsBodies(t.bodies, ids, w)
    requires forall i, j :: 0 <= i < j < |order| ==> order[i] > order[j]
    requires forall i :: 0 <= i < |order| ==> order[i] < |ids|
    ensures B.DropAll(t, order).Ok?
    ensures ShowsBodies(B.DropAll(t, order).value.bodies, ids', N.Consume(w, Picked(ids, order)))
    decreases |order|
  {
    if order == [] {
      ids' := ids;
      assert N.Consume(w, {}).solids == w.solids && N.Consume(w, {}).names == w.names;
    } else {
      DropShows(t.bodies, ids, w, order[0]);
      PickedAfterDrop(ids, order);
      ids' := DropAllShows(T.Drop(t, order[0]), Without(ids, order[0]), N.Consume(w, {ids[order[0]]}), order[1..]);
      ConsumeTwice(w, {ids[order[0]]}, Picked(Without(ids, order[0]), order[1..]));
    }
  }

  lemma {:induction false} LocateAllShows(t: T.Table, ids: seq<nat>, w: N.World, names: seq<string>)
    requires Shows(t, ids, w)
    ensures B.LocateAll(t, names).Ok? <==> N.LocateAll(w, names).Ok?
    ensures B.LocateAll(t, names).Err? ==> B.LocateAll(t, names).error == N.LocateAll(w, names).error
    ensures B.LocateAll(t, names).Ok? ==>
              forall i :: 0 <= i < |names| ==> N.LocateAll(w, names).value[i] == ids[B.LocateAll(t, names).value[i]]
  {
    if names != [] {
      LocateAllShows(t, ids, w, names[..|names| - 1]);
      FirstNamedShows(t.bodies, ids, w, names[|names| - 1]);
    }
  }

  lemma PickedAll(ids: seq<nat>, tools: seq<nat>, order: seq<nat>, named: seq<nat>)
    requires |named| == |tools| && forall x: nat :: x in order <==> x in tools
    requires forall i :: 0 <= i < |tools| ==> tools[i] < |ids| && named[i] == ids[tools[i]]
    ensures forall i :: 0 <= i < |order| ==> order[i] < |ids|
    ensures Picked(ids, order) == Elements(named)
  {
    forall i | 0 <= i < |order| ensures order[i] < |ids| && ids[order[i]] in named {
      assert order[i] in order && order[i] in tools;
      var j :| 0 <= j < |tools| && tools[j] == order[i];
      assert named[j] == ids[order[i]];
    }
    forall i | 0 <= i < |named| ensures named[i] in Picked(ids, order) {
      assert tools[i] in tools && tools[i] in order;
      var j :| 0 <= j < |order| && order[j] == tools[i];
      assert ids[order[j]] == named[i];
    }
  }

  lemma DistinctTools(ids: seq<nat>, tools: seq<nat>, named: seq<nat>)
    requires |named| == |tools| && Distinct(named)
    requires forall i :: 0 <= i < |tools| ==> tools[i] < |ids| && named[i] == ids[tools[i]]
    ensures Distinct(tools)
  {
    forall i, j | 0 <= i < j < |tools| ensures tools[i] != tools[j] { assert named[i] != named[j]; }
  }

  /** The consumed tools leave with their names, and nothing else moves. */
  lemma ToolsLeave(t: T.Table, ids: seq<nat>, w: N.World, tools: seq<nat>, named: seq<nat>) returns (ids': seq<nat>)
    requires ShowsBodies(t.bodies, ids, w) && Distinct(named) && |named| == |tools|
    requires forall i :: 0 <= i < |tools| ==> tools[i] < |ids| && named[i] == ids[tools[i]]
    ensures B.DropAll(t, B.Descending(tools)).Ok?
    ensures ShowsBodies(B.DropAll(t, B.Descending(tools)).value.bodies, ids', N.Consume(w, Elements(named)))
  {
    var order := B.Descending(tools);
    DistinctTools(ids, tools, named);
    B.DescendingDistinct(tools);
    forall x: nat { B.DescendingElements(tools, x); }
    PickedAll(ids, tools, order, named);
    ids' := DropAllShows(t, ids, w, order);
  }

  /** The same failure, or tables that show the same world. */
  ghost predicate SameOutcome(t: Result<T.Table, Failure>, ids: seq<nat>, w: Result<N.World, Failure>) {
    match t
    case Err(e) => w == Err(e)
    case Ok(table) => w.Ok? && Shows(table, ids, w.value)
  }
}
