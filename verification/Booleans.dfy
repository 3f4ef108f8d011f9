/** Union, subtract, intersect between bodies the document has named. */
module Booleans {
  import opened Prelude
  import opened Solids
  import opened CadDocument
  import opened KernelModel
  import opened BodyTable

  function Meet(op: BooleanOp, a: Solid, b: Solid): Solid {
    match op
    case Union => a + b
    case Subtract => a - b
    case Intersect => a * b
  }

  /** One kernel boolean, with its refusals typed. */
  function Apply(k: Kernel, op: BooleanOp, target: Solid, tool: Solid): Result<Solid, Failure> {
    if k.refuses(op, target, tool) then Err(Refused("BOOLEAN_FAILED"))
    else if !k.hasVolume(Meet(op, target, tool)) then Err(Refused("BOOLEAN_EMPTY"))
    else Ok(Meet(op, target, tool))
  }

  /** The tools applied one after another, left to right. */
  function Fold(k: Kernel, op: BooleanOp, target: Solid, tools: seq<Solid>): Result<Solid, Failure>
    decreases |tools|
  {
    if tools == [] then Ok(target)
    else match Fold(k, op, target, tools[..|tools| - 1])
      case Err(e) => Err(e)
      case Ok(soFar) => Apply(k, op, soFar, tools[|tools| - 1])
  }

  function LocateAll(t: Table, names: seq<string>): (r: Result<seq<nat>, Failure>)
    ensures r.Ok? ==> |r.value| == |names|
    ensures r.Ok? ==> forall i :: 0 <= i < |names| ==> FirstNamed(t.bodies, names[i]) == Some(r.value[i])
    ensures r.Ok? ==> forall i :: 0 <= i < |names| ==> r.value[i] < |t.bodies|
    ensures r.Err? <==> exists i :: 0 <= i < |names| && FirstNamed(t.bodies, names[i]).None?
    ensures r.Err? ==> r.error == Refused("FEATURE_RESULT_UNAVAILABLE")
  {
    if names == [] then Ok([])
    else match LocateAll(t, names[..|names| - 1])
      case Err(e) => Err(e)
      case Ok(before) =>
        match FirstNamed(t.bodies, names[|names| - 1])
        case None => Err(Refused("FEATURE_RESULT_UNAVAILABLE"))
        case Some(i) => Ok(before + [i])
  }

  function SolidsAt(t: Table, indices: seq<nat>): (s: seq<Solid>)
    requires forall i :: 0 <= i < |indices| ==> indices[i] < |t.bodies|
    ensures |s| == |indices| && forall i :: 0 <= i < |s| ==> s[i] == t.bodies[indices[i]].solid
  {
    if indices == [] then []
    else SolidsAt(t, indices[..|indices| - 1]) + [t.bodies[indices[|indices| - 1]].solid]
  }

  predicate NonIncreasing(s: seq<nat>) {
    forall i, j :: 0 <= i < j < |s| ==> s[i] >= s[j]
  }

  function InsertDescending(n: nat, s: seq<nat>): (r: seq<nat>)
    requires NonIncreasing(s)
    ensures NonIncreasing(r)
    ensures |r| == |s| + 1 && r[0] == if s == [] || n >= s[0] then n else s[0]
    ensures multiset(r) == multiset(s) + multiset{n}
  {
    if s == [] || n >= s[0] then [n] + s
    else
      assert s == [s[0]] + s[1..];
      var rest := InsertDescending(n, s[1..]);
      [s[0]] + rest
  }

  /** `sorted(indices, reverse=True)`. */
  function Descending(s: seq<nat>): (r: seq<nat>)
    ensures NonIncreasing(r)
    ensures multiset(r) == multiset(s)
  {
    if s == [] then []
    else
      assert s == s[..|s| - 1] + [s[|s| - 1]];
      InsertDescending(s[|s| - 1], Descending(s[..|s| - 1]))
  }

  lemma DescendingDistinct(tools: seq<nat>)
    requires Distinct(tools)
    ensures |Descending(tools)| == |tools|
    ensures forall i, j :: 0 <= i < j < |tools| ==> Descending(tools)[i] > Descending(tools)[j]
  {
    hide Descending;
    var order := Descending(tools);
    assert |multiset(order)| == |multiset(tools)|;
    DistinctInAnyOrder(tools, order);
  }

  lemma DescendingElements(s: seq<nat>, x: nat)
    ensures x in Descending(s) <==> x in s
  {
    var order := Descending(s);
    assert x in order <==> x in multiset(order);
    assert x in s <==> x in multiset(s);
  }

  /** Delete by index, in the order given. An index past the end is an `IndexError`. */
  function DropAll(t: Table, order: seq<nat>): Result<Table, Failure>
    decreases |order|
  {
    if order == [] then Ok(t)
    else if order[0] >= |t.bodies| then Err(Crashed("IndexError"))
    else DropAll(Drop(t, order[0]), order[1..])
  }

  /** What the target becomes, before anything is written. */
  function Answer(k: Kernel, f: Inputs, t: Table): Result<(nat, seq<nat>, Solid), Failure>
    requires f.Boolean?
  {
    match FirstNamed(t.bodies, f.target)
    case None => Err(Refused("FEATURE_RESULT_UNAVAILABLE"))
    case Some(target) =>
      match LocateAll(t, f.tools)
      case Err(e) => Err(e)
      case Ok(tools) =>
        match Fold(k, f.op, t.bodies[target].solid, SolidsAt(t, tools))
        case Err(e) => Err(e)
        case Ok(result) => Ok((target, tools, result))
  }

  /** The target takes the answer, the tools go, and the target is found again by name. */
  function Settle(f: Inputs, t: Table, target: nat, tools: seq<nat>, result: Solid): (r: Result<Table, Failure>)
    requires f.Boolean? && target < |t.bodies|
    ensures r.Ok? ==> ActiveOk(r.value)
  {
    var replaced := Replace(t, target, result);
    if f.keepTools then Ok(replaced)
    else match DropAll(replaced, Descending(tools))
      case Err(e) => Err(e)
      case Ok(dropped) =>
        match FirstNamed(dropped.bodies, f.target)
        case None => Err(Refused("FEATURE_RESULT_UNAVAILABLE"))
        case Some(i) => Ok(Replace(dropped, i, result))
  }

  function Combine(k: Kernel, f: Inputs, t: Table): (r: Result<Table, Failure>)
    requires f.Boolean?
    ensures r.Ok? ==> ActiveOk(r.value)
  {
    match Answer(k, f, t)
    case Err(e) => Err(e)
    case Ok((target, tools, result)) => Settle(f, t, target, tools, result)
  }

  method ToolIndices(b: Bodies, names: seq<string>) returns (r: Result<seq<nat>, Failure>)
    requires b.Valid()
    ensures r == LocateAll(b.Contents, names)
  {
    ghost var t := b.Contents;
    var tools: seq<nat> := [];
    for i := 0 to |names|
      invariant |tools| == i
      invariant forall j :: 0 <= j < i ==> FirstNamed(t.bodies, names[j]) == Some(tools[j])
    {
      var found := b.FirstIndex(names[i]);
      if found.None? {
        return Err(Refused("FEATURE_RESULT_UNAVAILABLE"));
      }
      tools := tools + [found.value];
    }
    assert LocateAll(t, names).Ok? && tools == LocateAll(t, names).value;
    r := Ok(tools);
  }

  method FoldTools(k: Kernel, op: BooleanOp, b: Bodies, target: Solid, tools: seq<nat>)
      returns (r: Result<Solid, Failure>)
    requires b.Valid() && forall i :: 0 <= i < |tools| ==> tools[i] < |b.Contents.bodies|
    ensures r == Fold(k, op, target, SolidsAt(b.Contents, tools))
  {
    var result := target;
    ghost var solids := SolidsAt(b.Contents, tools);
    for i := 0 to |tools|
      invariant Fold(k, op, target, solids[..i]) == Ok(result)
    {
      FoldNext(k, op, target, solids, i);
      r := Apply(k, op, result, b.bodies[tools[i]].solid);
      if r.Err? {
        FoldStops(k, op, target, solids, i + 1);
        return;
      }
      result := r.value;
    }
    assert solids[..|tools|] == solids;
    r := Ok(result);
  }

  method DropTools(b: Bodies, order: seq<nat>) returns (r: Option<Failure>)
    requires b.Valid()
    modifies b.Repr
    ensures b.Valid() && b.Repr == old(b.Repr)
    ensures DropAll(old(b.Contents), order) == if r.None? then Ok(b.Contents) else Err(r.value)
  {
    for i := 0 to |order|
      invariant b.Valid() && b.Repr == old(b.Repr)
      invariant DropAll(old(b.Contents), order) == DropAll(b.Contents, order[i..])
    {
      assert order[i..][1..] == order[i + 1..];
      if order[i] >= |b.bodies| {
        return Some(Crashed("IndexError"));
      }
      b.DropBody(order[i]);
    }
    r := None;
  }

  method SettleBodies(f: Inputs, b: Bodies, target: nat, tools: seq<nat>, result: Solid) returns (r: Option<Failure>)
    requires b.Valid() && f.Boolean? && target < |b.Contents.bodies|
    modifies b.Repr
    ensures b.Valid() && b.Repr == old(b.Repr)
    ensures Settle(f, old(b.Contents), target, tools, result) == if r.None? then Ok(b.Contents) else Err(r.value)
  {
    b.ReplaceSolid(target, result);
    if f.keepTools {
      return None;
    }
    r := DropTools(b, Descending(tools));
    if r.Some? {
      return;
    }
    var again := b.FirstIndex(f.target);
    if again.None? {
      return Some(Refused("FEATURE_RESULT_UNAVAILABLE"));
    }
    b.ReplaceSolid(again.value, result);
  }

  /** Apply one boolean to the table. A refusal before the first write leaves it untouched. */
  method CombineBodies(k: Kernel, f: Inputs, b: Bodies) returns (r: Option<Failure>)
    requires b.Valid() && f.Boolean?
    modifies b.Repr
    ensures b.Valid() && b.Repr == old(b.Repr)
    ensures Combine(k, f, old(b.Contents)) == if r.None? then Ok(b.Contents) else Err(r.value)
    ensures Answer(k, f, old(b.Contents)).Err? ==> b.Contents == old(b.Contents)
  {
    var target := b.FirstIndex(f.target);
    if target.None? {
      return Some(Refused("FEATURE_RESULT_UNAVAILABLE"));
    }
    var tools := ToolIndices(b, f.tools);
    if tools.Err? {
      return Some(tools.error);
    }
    var folded := FoldTools(k, f.op, b, b.bodies[target.value].solid, tools.value);
    if folded.Err? {
      return Some(folded.error);
    }
    r := SettleBodies(f, b, target.value, tools.value, folded.value);
  }

  lemma FoldNext(k: Kernel, op: BooleanOp, target: Solid, tools: seq<Solid>, i: nat)
    requires i < |tools| && Fold(k, op, target, tools[..i]).Ok?
    ensures Fold(k, op, target, tools[..i + 1]) == Apply(k, op, Fold(k, op, target, tools[..i]).value, tools[i])
  {
    assert tools[..i + 1][..i] == tools[..i];
  }

  /** The first refusal decides the fold. */
  lemma FoldStops(k: Kernel, op: BooleanOp, target: Solid, tools: seq<Solid>, i: nat)
    requires i <= |tools| && Fold(k, op, target, tools[..i]).Err?
    ensures Fold(k, op, target, tools) == Fold(k, op, target, tools[..i])
    decreases |tools| - i
  {
    if i < |tools| {
      assert tools[..i + 1][..i] == tools[..i];
      FoldStops(k, op, target, tools, i + 1);
    } else {
      assert tools[..i] == tools;
    }
  }
}
