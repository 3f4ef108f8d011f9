/** Scoring a delivered part against its drawing: sizes are compared sorted, because which axis is
    which is the document's choice. */
module LabelledBox {
  import opened Prelude

  const SIZE_TOLERANCE := 0.05
  const VOLUME_TOLERANCE := 0.001

  datatype Label = Label(box: seq<real>, volume: real, holes: int)

  /** What was measured of the delivered files; any of it may be missing. */
  datatype Found = Found(box: Option<seq<real>>, volume: Option<real>, genus: Option<int>)

  datatype Problem = NoBox | WrongBox | NoVolume | WrongVolume | WrongGenus

  predicate Near(a: real, b: real, tolerance: real) {
    -tolerance <= a - b <= tolerance
  }

  predicate Ascending(s: seq<real>) {
    forall i, j :: 0 <= i < j < |s| ==> s[i] <= s[j]
  }

  function Insert(x: real, s: seq<real>): (r: seq<real>)
    requires Ascending(s)
    ensures Ascending(r)
    ensures |r| == |s| + 1 && r[0] == if s == [] || x <= s[0] then x else s[0]
  {
    if s == [] || x <= s[0] then [x] + s else [s[0]] + Insert(x, s[1..])
  }

  function Sorted(s: seq<real>): (r: seq<real>)
    ensures Ascending(r) && |r| == |s|
  {
    if s == [] then [] else Insert(s[0], Sorted(s[1..]))
  }

  lemma {:induction false} InsertKeeps(x: real, s: seq<real>)
    requires Ascending(s)
    ensures multiset(Insert(x, s)) == multiset(s) + multiset{x}
  {
    if s != [] && x > s[0] {
      InsertKeeps(x, s[1..]);
      assert s == [s[0]] + s[1..];
    }
  }

  lemma {:induction false} SortedKeeps(s: seq<real>)
    ensures multiset(Sorted(s)) == multiset(s)
  {
    if s != [] {
      SortedKeeps(s[1..]);
      InsertKeeps(s[0], Sorted(s[1..]));
      assert s == [s[0]] + s[1..];
    }
  }

  /** `zip` stops at the shorter of the two. */
  predicate PairsNear(a: seq<real>, b: seq<real>, tolerance: real) {
    forall i :: 0 <= i < |a| && i < |b| ==> Near(a[i], b[i], tolerance)
  }

  predicate BoxFits(box: seq<real>, stated: seq<real>, tolerance: real) {
    PairsNear(Sorted(box), Sorted(stated), tolerance)
  }

  method Disagreements(stated: Label, found: Found) returns (problems: seq<Problem>)
    ensures NoBox in problems <==> found.box.None?
    ensures WrongBox in problems <==> found.box.Some? && !BoxFits(found.box.value, stated.box, 0.05)
    ensures NoVolume in problems <==> found.volume.None?
    ensures WrongVolume in problems <==>
            found.volume.Some? && !(stated.volume - 0.001 <= found.volume.value <= stated.volume + 0.001)
    ensures WrongGenus in problems <==> found.genus != Some(stated.holes)
    ensures Distinct(problems)
  {
    problems := [];
    if found.box.None? {
      problems := problems + [NoBox];
    } else if !BoxFits(found.box.value, stated.box, SIZE_TOLERANCE) {
      problems := problems + [WrongBox];
    }
    if found.volume.None? {
      problems := problems + [NoVolume];
    } else if !Near(found.volume.value, stated.volume, VOLUME_TOLERANCE) {
      problems := problems + [WrongVolume];
    }
    if found.genus != Some(stated.holes) {
      problems := problems + [WrongGenus];
    }
  }

  // ----- sorted comparison against every way of pairing the axes -------------------------

  /** Every side of the one is the other's, give or take the tolerance. */
  predicate Alike(box: seq<real>, stated: seq<real>, tolerance: real) {
    |box| == |stated| && forall i :: 0 <= i < |box| ==> stated[i] - tolerance <= box[i] <= stated[i] + tolerance
  }

  /** Some way of pairing the sides puts every pair within the tolerance. */
  ghost predicate FitsSomeWay(box: seq<real>, stated: seq<real>, tolerance: real) {
    exists turned: seq<real> ::
      multiset(turned) == multiset(stated) && Alike(box, turned, tolerance)
  }

  lemma PairBefore(p: real, s: seq<real>, q: real, t: seq<real>, tolerance: real)
    requires |s| == |t| && PairsNear(s, t, tolerance) && Near(p, q, tolerance)
    ensures PairsNear([p] + s, [q] + t, tolerance)
  {
  }

  lemma TailsNear(s: seq<real>, t: seq<real>, tolerance: real)
    requires |s| == |t| && s != [] && PairsNear(s, t, tolerance)
    ensures Near(s[0], t[0], tolerance) && PairsNear(s[1..], t[1..], tolerance)
  {
  }

  lemma HeadInserts(s: seq<real>)
    requires Ascending(s) && s != []
    ensures Insert(s[0], s[1..]) == s
  {
    assert s == [s[0]] + s[1..];
  }

  lemma {:induction false} InsertNear(x: real, s: seq<real>, y: real, t: seq<real>, tolerance: real)
    requires Ascending(s) && Ascending(t) && |s| == |t|
    requires PairsNear(s, t, tolerance) && Near(x, y, tolerance)
    ensures PairsNear(Insert(x, s), Insert(y, t), tolerance)
    decreases |s|
  {
    if s == [] || (x <= s[0] && y <= t[0]) {
      PairBefore(x, s, y, t, tolerance);
    } else {
      TailsNear(s, t, tolerance);
      if x > s[0] && y > t[0] {
        InsertNear(x, s[1..], y, t[1..], tolerance);
        PairBefore(s[0], Insert(x, s[1..]), t[0], Insert(y, t[1..]), tolerance);
      } else if y > t[0] {
        // x goes first; the old head of s is then as good as inserted beside y
        InsertNear(s[0], s[1..], y, t[1..], tolerance);
        HeadInserts(s);
        PairBefore(x, s, t[0], Insert(y, t[1..]), tolerance);
      } else {
        InsertNear(x, s[1..], t[0], t[1..], tolerance);
        HeadInserts(t);
        PairBefore(s[0], Insert(x, s[1..]), y, t, tolerance);
      }
    }
  }

  lemma {:induction false} SortingKeepsNear(a: seq<real>, b: seq<real>, tolerance: real)
    requires |a| == |b| && PairsNear(a, b, tolerance)
    ensures PairsNear(Sorted(a), Sorted(b), tolerance)
  {
    if a != [] {
      SortingKeepsNear(a[1..], b[1..], tolerance);
      InsertNear(a[0], Sorted(a[1..]), b[0], Sorted(b[1..]), tolerance);
    }
  }

  lemma {:induction false} OneSortedOrder(s: seq<real>, t: seq<real>)
    requires Ascending(s) && Ascending(t) && multiset(s) == multiset(t)
    ensures s == t
    decreases |s|
  {
    assert |s| == |multiset(s)| == |multiset(t)| == |t|;
    if s != [] {
      assert s[0] in multiset(t) && t[0] in multiset(s);
      assert s[0] == t[0];
      assert s == [s[0]] + s[1..] && t == [t[0]] + t[1..];
      assert multiset(s[1..]) == multiset(s) - multiset{s[0]};
      OneSortedOrder(s[1..], t[1..]);
    }
  }

  lemma WithoutOne(s: seq<real>, k: nat)
    requires k < |s|
    ensures multiset(Without(s, k)) == multiset(s) - multiset{s[k]}
  {
    assert s == s[..k] + [s[k]] + s[k + 1..];
  }

  lemma PairsWithout(s: seq<real>, t: seq<real>, k: nat, tolerance: real)
    requires |s| == |t| && k < |s| && PairsNear(s, t, tolerance)
    ensures PairsNear(Without(s, k), Without(t, k), tolerance)
  {
  }

  lemma PutBack(rest: seq<real>, t: seq<real>, k: nat)
    requires k < |t| && multiset(rest) == multiset(Without(t, k))
    ensures multiset([t[k]] + rest) == multiset(t)
  {
    WithoutOne(t, k);
  }

  lemma SameWithout(a: seq<real>, s: seq<real>, k: nat)
    requires a != [] && k < |s| && s[k] == a[0] && multiset(a) == multiset(s)
    ensures multiset(a[1..]) == multiset(Without(s, k))
  {
    WithoutOne(s, k);
    WithoutOne(a, 0);
    assert Without(a, 0) == a[1..];
  }

  /** Pairs chosen between `s` and `t` stay pairs when `s` is put in another order. */
  lemma {:induction false} TurnPairs(a: seq<real>, s: seq<real>, t: seq<real>, tolerance: real) returns (c: seq<real>)
    requires |a| == |s| == |t| && multiset(a) == multiset(s) && PairsNear(s, t, tolerance)
    ensures multiset(c) == multiset(t) && |c| == |a| && PairsNear(a, c, tolerance)
    decreases |a|
  {
    if a == [] {
      c := [];
    } else {
      assert a[0] in multiset(s);
      var k :| 0 <= k < |s| && s[k] == a[0];
      SameWithout(a, s, k);
      PairsWithout(s, t, k, tolerance);
      var rest := TurnPairs(a[1..], Without(s, k), Without(t, k), tolerance);
      PairBefore(a[0], a[1..], t[k], rest, tolerance);
      PutBack(rest, t, k);
      assert a == [a[0]] + a[1..];
      c := [t[k]] + rest;
    }
  }

  /** Comparing the sorted sizes decides whether some pairing of the axes fits. */
  lemma SortedDecidesFit(box: seq<real>, stated: seq<real>, tolerance: real)
    requires |box| == |stated|
    ensures BoxFits(box, stated, tolerance) <==> FitsSomeWay(box, stated, tolerance)
  {
    SortedKeeps(box);
    SortedKeeps(stated);
    if BoxFits(box, stated, tolerance) {
      var turned := TurnPairs(box, Sorted(box), Sorted(stated), tolerance);
      assert Alike(box, turned, tolerance);
    }
    if turned: seq<real> :|
      multiset(turned) == multiset(stated) && Alike(box, turned, tolerance) {
      SortingKeepsNear(box, turned, tolerance);
      SortedKeeps(turned);
      OneSortedOrder(Sorted(turned), Sorted(stated));
    }
  }

  /** The verdict does not depend on which axis is which, on either side. */
  lemma AxesMayBeTurned(box: seq<real>, turned: seq<real>, stated: seq<real>, relabelled: seq<real>, tolerance: real)
    requires multiset(box) == multiset(turned) && multiset(stated) == multiset(relabelled)
    ensures BoxFits(box, stated, tolerance) == BoxFits(turned, relabelled, tolerance)
  {
    SortedKeeps(box);
    SortedKeeps(turned);
    SortedKeeps(stated);
    SortedKeeps(relabelled);
    OneSortedOrder(Sorted(box), Sorted(turned));
    OneSortedOrder(Sorted(stated), Sorted(relabelled));
  }

  /** With sides missing, only the smallest ones are compared: a box of one side fits any label
      whose smallest side is near it. */
  lemma MissingSidesAreNotMissed(side: real, stated: seq<real>, tolerance: real)
    requires stated != []
    ensures BoxFits([side], stated, tolerance) <==>
            Sorted(stated)[0] - tolerance <= side <= Sorted(stated)[0] + tolerance
    ensures forall other :: other in stated ==> Sorted(stated)[0] <= other
  {
    assert Sorted([side]) == [side];
    SortedKeeps(stated);
    forall other | other in stated ensures Sorted(stated)[0] <= other {
      assert other in multiset(Sorted(stated));
    }
  }
}
