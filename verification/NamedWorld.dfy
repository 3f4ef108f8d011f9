/** The world of named bodies: identities that never move, and names bound to identities. */
module NamedWorld {
  import opened Prelude
  import opened Solids

  datatype World = World(solids: map<nat, Solid>, names: map<string, nat>, active: Option<nat>, next: nat)

  /** Names are bound to living bodies, and so is the active one, whenever there is a body. */
  predicate WorldOk(w: World) {
    && (forall name :: name in w.names ==> w.names[name] in w.solids)
    && (forall id :: id in w.solids ==> id < w.next)
    && (w.active.Some? ==> w.active.value in w.solids)
    && (w.active.None? <==> w.solids == map[])
  }

  function Locate(w: World, name: Option<string>): Result<Option<nat>, Failure> {
    if name.None? then Ok(w.active)
    else if name.value in w.names then Ok(Some(w.names[name.value]))
    else Err(Refused("FEATURE_RESULT_UNAVAILABLE"))
  }

  function Find(w: World, name: string): Option<Solid>
    requires WorldOk(w)
  {
    if name in w.names then Some(w.solids[w.names[name]]) else None
  }

  function Bound(names: set<string>, id: nat): map<string, nat> {
    map name | name in names :: id
  }

  function Create(w: World, solid: Solid, names: set<string>): Result<World, Failure> {
    if exists name :: name in names && name in w.names then Err(Refused("CAD_IR_INVALID"))
    else Ok(World(w.solids[w.next := solid], w.names + Bound(names, w.next), Some(w.next), w.next + 1))
  }

  function Reshape(w: World, id: nat, solid: Solid): World {
    w.(solids := w.solids[id := solid], active := Some(id))
  }

  function Alias(w: World, id: nat, names: set<string>): World {
    w.(names := w.names + Bound(names, id))
  }

  function Unbound(names: map<string, nat>, gone: set<nat>): map<string, nat> {
    map name | name in names && names[name] !in gone :: names[name]
  }

  /** Consumed bodies leave with every name they had. */
  function Consume(w: World, gone: set<nat>): World {
    w.(solids := w.solids - gone, names := Unbound(w.names, gone))
  }

  /** The bodies a list of names is bound to. */
  function LocateAll(w: World, names: seq<string>): (r: Result<seq<nat>, Failure>)
    requires WorldOk(w)
    ensures r.Ok? ==> |r.value| == |names| && forall i :: 0 <= i < |names| ==> r.value[i] in w.solids
  {
    if names == [] then Ok([])
    else match LocateAll(w, names[..|names| - 1])
      case Err(e) => Err(e)
      case Ok(before) =>
        var last := names[|names| - 1];
        if last in w.names then Ok(before + [w.names[last]]) else Err(Refused("FEATURE_RESULT_UNAVAILABLE"))
  }

  function SolidsAt(w: World, ids: seq<nat>): (s: seq<Solid>)
    requires forall i :: 0 <= i < |ids| ==> ids[i] in w.solids
    ensures |s| == |ids| && forall i :: 0 <= i < |s| ==> s[i] == w.solids[ids[i]]
  {
    if ids == [] then [] else SolidsAt(w, ids[..|ids| - 1]) + [w.solids[ids[|ids| - 1]]]
  }

  /** The living bodies in the order they were created. */
  function InOrder(solids: map<nat, Solid>, next: nat): seq<Solid> {
    if next == 0 then []
    else InOrder(solids, next - 1) + if next - 1 in solids then [solids[next - 1]] else []
  }

  function Finished(w: World): Result<seq<Solid>, Failure> {
    if w.solids == map[] then Err(Refused("UNSUPPORTED_FEATURE_SET")) else Ok(InOrder(w.solids, w.next))
  }
}
