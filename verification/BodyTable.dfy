/** The engine's table of bodies: a list, the names each body answers to, and the index of the
    active one. `Table` is the value of the mutable `Bodies` and the functions on it say what
    each method does. */
module BodyTable {
  import opened Prelude
  import opened Solids

  datatype Entry = Entry(solid: Solid, names: set<string>)

  datatype Table = Table(bodies: seq<Entry>, active: Option<nat>)

  const EMPTY := Table([], None)

  /** The active index is valid exactly when there is a body to be active. */
  predicate ActiveOk(t: Table) {
    && (t.active.Some? <==> t.bodies != [])
    && (t.active.Some? ==> t.active.value < |t.bodies|)
  }

  /** The first body a name belongs to. */
  function FirstNamed(bodies: seq<Entry>, name: string): (r: Option<nat>)
    ensures r.Some? ==> r.value < |bodies| && name in bodies[r.value].names
    ensures r.Some? ==> forall j :: 0 <= j < r.value ==> name !in bodies[j].names
    ensures r.None? ==> forall j :: 0 <= j < |bodies| ==> name !in bodies[j].names
  {
    if bodies == [] then None
    else if name in bodies[0].names then Some(0)
    else match FirstNamed(bodies[1..], name)
      case None => None
      case Some(i) => assert bodies[i + 1] == bodies[1..][i]; Some(i + 1)
  }

  function Find(t: Table, name: string): Option<Solid> {
    match FirstNamed(t.bodies, name) case None => None case Some(i) => Some(t.bodies[i].solid)
  }

  /** The body a feature means: the one it names, or the active one. */
  function Locate(t: Table, name: Option<string>): Result<Option<nat>, Failure> {
    match name
    case None => Ok(t.active)
    case Some(n) =>
      match FirstNamed(t.bodies, n)
      case Some(i) => Ok(Some(i))
      case None => Err(Refused("FEATURE_RESULT_UNAVAILABLE"))
  }

  function Create(t: Table, solid: Solid, names: set<string>): Result<Table, Failure> {
    if exists name :: name in names && Find(t, name).Some? then Err(Refused("CAD_IR_INVALID"))
    else Ok(Table(t.bodies + [Entry(solid, names)], Some(|t.bodies|)))
  }

  function Replace(t: Table, i: nat, solid: Solid): Table
    requires i < |t.bodies|
  {
    Table(t.bodies[i := t.bodies[i].(solid := solid)], Some(i))
  }

  function Alias(t: Table, i: nat, names: set<string>): Table
    requires i < |t.bodies|
  {
    t.(bodies := t.bodies[i := t.bodies[i].(names := t.bodies[i].names + names)])
  }

  /** Removing a body leaves the active index alone unless it now points past the end. */
  function Drop(t: Table, i: nat): Table
    requires i < |t.bodies|
  {
    var rest := Without(t.bodies, i);
    Table(rest, if t.active.Some? && t.active.value >= |rest|
                then (if rest == [] then None else Some(|rest| - 1)) else t.active)
  }

  /** What the document gets: one solid, or every remaining body in creation order. */
  function Finished(t: Table): Result<seq<Solid>, Failure> {
    if t.bodies == [] then Err(Refused("UNSUPPORTED_FEATURE_SET"))
    else Ok(SolidsOf(t.bodies))
  }

  function SolidsOf(bodies: seq<Entry>): (s: seq<Solid>)
    ensures |s| == |bodies| && forall i :: 0 <= i < |s| ==> s[i] == bodies[i].solid
  {
    if bodies == [] then [] else SolidsOf(bodies[..|bodies| - 1]) + [bodies[|bodies| - 1].solid]
  }

  /** One body, and every name the document can call it by. */
  class Body {
    var solid: Solid
    var names: set<string>

    constructor (solid: Solid, names: set<string>)
      ensures this.solid == solid && this.names == names
    {
      this.solid, this.names := solid, names;
    }
  }

  class Bodies {
    var bodies: seq<Body>
    var active: Option<nat>
    /** The value of the table, tied to the objects by `Valid`. */
    ghost var Contents: Table
    ghost var Repr: set<object>

    ghost predicate Valid()
      reads this, Repr
      ensures Valid() ==> this in Repr
    {
      && this in Repr
      && (forall i :: 0 <= i < |bodies| ==> bodies[i] in Repr)
      && Distinct(bodies)
      && Contents.active == active
      && |Contents.bodies| == |bodies|
      && forall i :: 0 <= i < |bodies| ==> Contents.bodies[i] == Entry(bodies[i].solid, bodies[i].names)
    }

    constructor ()
      ensures Valid() && fresh(Repr) && Contents == EMPTY
    {
      bodies, active, Contents, Repr := [], None, EMPTY, {this};
    }

    method SolidAt(index: Option<nat>) returns (r: Option<Solid>)
      requires Valid() && (index.Some? ==> index.value < |Contents.bodies|)
      ensures r == if index.None? then None else Some(Contents.bodies[index.value].solid)
    {
      r := if index.None? then None else Some(bodies[index.value].solid);
    }

    method FirstIndex(name: string) returns (r: Option<nat>)
      requires Valid()
      ensures r == FirstNamed(Contents.bodies, name)
    {
      r := None;
      for i := 0 to |bodies|
        invariant forall j :: 0 <= j < i ==> name !in Contents.bodies[j].names
      {
        if name in bodies[i].names {
          return Some(i);
        }
      }
    }

    method FindSolid(name: string) returns (r: Option<Solid>)
      requires Valid()
      ensures r == Find(Contents, name)
    {
      var i := FirstIndex(name);
      r := SolidAt(i);
    }

    method LocateBody(name: Option<string>) returns (r: Result<Option<nat>, Failure>)
      requires Valid()
      ensures r == Locate(Contents, name)
    {
      if name.None? {
        return Ok(active);
      }
      var i := FirstIndex(name.value);
      r := if i.Some? then Ok(i) else Err(Refused("FEATURE_RESULT_UNAVAILABLE"));
    }

    method CreateBody(solid: Solid, names: set<string>) returns (r: Result<nat, Failure>)
      requires Valid()
      modifies Repr
      ensures Valid() && fresh(Repr - old(Repr))
      ensures match Create(old(Contents), solid, names)
              case Ok(t) => r == Ok(old(|Contents.bodies|)) && Contents == t
              case Err(e) => r == Err(e) && Contents == old(Contents)
    {
      var left := names;
      while left != {}
        invariant left <= names
        invariant forall name :: name in names - left ==> Find(Contents, name).None?
        modifies {}
        decreases left
      {
        var name :| name in left;
        var found := FindSolid(name);
        if found.Some? {
          assert name in names && Find(Contents, name).Some?;
          return Err(Refused("CAD_IR_INVALID"));
        }
        left := left - {name};
      }
      assert names - left == names;
      var body := new Body(solid, names);
      r := Ok(|bodies|);
      bodies, active := bodies + [body], Some(|bodies|);
      Contents, Repr := Create(Contents, solid, names).value, Repr + {body};
    }

    method ReplaceSolid(index: nat, solid: Solid)
      requires Valid() && index < |Contents.bodies|
      modifies Repr
      ensures Valid() && Repr == old(Repr)
      ensures Contents == Replace(old(Contents), index, solid)
    {
      bodies[index].solid := solid;
      active := Some(index);
      Contents := Replace(Contents, index, solid);
    }

    method AddNames(index: nat, names: set<string>)
      requires Valid() && index < |Contents.bodies|
      modifies Repr
      ensures Valid() && Repr == old(Repr)
      ensures Contents == Alias(old(Contents), index, names)
    {
      bodies[index].names := bodies[index].names + names;
      Contents := Alias(Contents, index, names);
    }

    method DropBody(index: nat)
      requires Valid() && index < |Contents.bodies|
      modifies Repr
      ensures Valid() && Repr == old(Repr)
      ensures Contents == Drop(old(Contents), index)
    {
      bodies := bodies[..index] + bodies[index + 1..];
      if active.Some? && active.value >= |bodies| {
        active := if bodies != [] then Some(|bodies| - 1) else None;
      }
      Contents := Drop(Contents, index);
    }

    method Result() returns (r: Result<seq<Solid>, Failure>)
      requires Valid()
      ensures r == Finished(Contents)
    {
      if bodies == [] {
        return Err(Refused("UNSUPPORTED_FEATURE_SET"));
      }
      var solids := [];
      for i := 0 to |bodies|
        invariant |solids| == i && forall j :: 0 <= j < i ==> solids[j] == bodies[j].solid
      {
        solids := solids + [bodies[i].solid];
      }
      assert solids == SolidsOf(Contents.bodies);
      r := Ok(solids);
    }
  }
}
