/** Planes and reach: which way an extrusion travels, and whether a cut through all leaves the body
    on both sides. */
module ThroughAll {
  import opened Prelude
  import opened Solids

  function Minus(a: Point, b: Point): Point { Point(a.x - b.x, a.y - b.y, a.z - b.z) }

  function Scaled(k: real, a: Point): Point { Point(k * a.x, k * a.y, k * a.z) }

  /** How far a point stands from the plane, along its normal. */
  function Distance(plane: Plane, p: Point): real { Dot(plane.normal, Minus(p, plane.origin)) }

  // ----- direction -----------------------------------------------------------------------

  datatype Direction = PlusX | MinusX | PlusY | MinusY | PlusZ | MinusZ

  function AxisOf(d: Direction): Point {
    match d
    case PlusX => Point(1.0, 0.0, 0.0)
    case MinusX => Point(-1.0, 0.0, 0.0)
    case PlusY => Point(0.0, 1.0, 0.0)
    case MinusY => Point(0.0, -1.0, 0.0)
    case PlusZ => Point(0.0, 0.0, 1.0)
    case MinusZ => Point(0.0, 0.0, -1.0)
  }

  /** Along the normal or against it; a direction in the plane is refused. */
  function Sense(d: Direction, plane: Plane): Result<real, Failure> {
    var along := Dot(AxisOf(d), plane.normal);
    if -0.000000001 < along < 0.000000001 then Err(Refused("UNSUPPORTED_FEATURE_SET"))
    else Ok(if along > 0.0 then 1.0 else -1.0)
  }

  /** Base planes and everything offset from them face along an axis. */
  predicate FacesAxis(plane: Plane) {
    || plane.normal == Point(0.0, 0.0, 1.0)
    || plane.normal == Point(0.0, -1.0, 0.0)
    || plane.normal == Point(1.0, 0.0, 0.0)
  }

  lemma AxisComponent(d: Direction, n: Point)
    ensures Dot(AxisOf(d), n) == match d case PlusX => n.x case MinusX => -n.x case PlusY => n.y
                                         case MinusY => -n.y case PlusZ => n.z case MinusZ => -n.z
    ensures Dot(n, AxisOf(d)) == Dot(AxisOf(d), n)
  {
  }

  lemma Reversed(n: Point)
    ensures Scaled(1.0, n) == n && Scaled(-1.0, n) == Point(-n.x, -n.y, -n.z)
  {
  }

  /** On any plane an extrusion never travels against the direction named. */
  lemma NeverAgainst(d: Direction, plane: Plane)
    requires Sense(d, plane).Ok?
    ensures Dot(Scaled(Sense(d, plane).value, plane.normal), AxisOf(d)) > 0.0
  {
    Reversed(plane.normal);
    AxisComponent(d, plane.normal);
    AxisComponent(d, Point(-plane.normal.x, -plane.normal.y, -plane.normal.z));
  }

  /** On a plane that faces an axis it travels exactly the way the document names, whichever way the
      plane faces; it is refused exactly when that way lies in the plane. */
  lemma TravelsAsNamed(d: Direction, plane: Plane)
    requires FacesAxis(plane)
    ensures Sense(d, plane).Err? <==> Dot(AxisOf(d), plane.normal) == 0.0
    ensures Sense(d, plane).Ok? ==> Scaled(Sense(d, plane).value, plane.normal) == AxisOf(d)
  {
    hide Dot, Scaled;
    Reversed(plane.normal);
    AxisComponent(d, plane.normal);
  }

  // ----- reach ---------------------------------------------------------------------------

  datatype Box = Box(low: Point, high: Point)
  {
    predicate Valid() { low.x <= high.x && low.y <= high.y && low.z <= high.z }

    predicate Has(p: Point) {
      low.x <= p.x <= high.x && low.y <= p.y <= high.y && low.z <= p.z <= high.z
    }
  }

  function Max(a: real, b: real): real { if a >= b then a else b }

  function Reach(box: Box): real {
    Max(box.high.x - box.low.x, Max(box.high.y - box.low.y, box.high.z - box.low.z)) + 1.0
  }

  /** The body's own box: it holds the body, and the body touches each of its six sides. */
  ghost predicate Tight(box: Box, part: Solid) {
    && (forall p :: p in part ==> box.Has(p))
    && (exists p :: p in part && p.x == box.low.x) && (exists p :: p in part && p.x == box.high.x)
    && (exists p :: p in part && p.y == box.low.y) && (exists p :: p in part && p.y == box.high.y)
    && (exists p :: p in part && p.z == box.low.z) && (exists p :: p in part && p.z == box.high.z)
  }

  /** Where the plane's normal through a point meets the plane. */
  function Foot(plane: Plane, p: Point): Point { Minus(p, Scaled(Distance(plane, p), plane.normal)) }

  /** The endless prism over a profile drawn on the plane. */
  ghost function Prism(profile: Solid, plane: Plane): Solid { iset p | Foot(plane, p) in profile }

  function Plus(a: Point, b: Point): Point { Point(a.x + b.x, a.y + b.y, a.z + b.z) }

  lemma Distributes(n: real, u: real, v: real)
    ensures n * (u + v) == n * u + n * v
  {
  }

  lemma MovedDistance(plane: Plane, p: Point, t: real)
    requires Dot(plane.normal, plane.normal) == 1.0
    ensures Distance(plane, Plus(p, Scaled(t, plane.normal))) == Distance(plane, p) + t
  {
    var n, m := plane.normal, Minus(p, plane.origin);
    Distributes(n.x, m.x, t * n.x);
    Distributes(n.y, m.y, t * n.y);
    Distributes(n.z, m.z, t * n.z);
    assert n.x * (t * n.x) + n.y * (t * n.y) + n.z * (t * n.z) == t * Dot(n, n) by {
      Distributes(t, n.x * n.x, n.y * n.y);
      Distributes(t, n.x * n.x + n.y * n.y, n.z * n.z);
      Reassociates(n.x, t);
      Reassociates(n.y, t);
      Reassociates(n.z, t);
    }
    assert Minus(Plus(p, Scaled(t, n)), plane.origin) == Point(m.x + t * n.x, m.y + t * n.y, m.z + t * n.z);
  }

  lemma Reassociates(n: real, t: real)
    ensures n * (t * n) == t * (n * n)
  {
  }

  lemma FootStays(n: real, d: real, t: real, x: real)
    ensures (x + t * n) - (d + t) * n == x - d * n
  {
  }

  lemma FootAlong(n: Point, d: real, t: real, p: Point)
    ensures Minus(Plus(p, Scaled(t, n)), Scaled(d + t, n)) == Minus(p, Scaled(d, n))
  {
    FootStays(n.x, d, t, p.x);
    FootStays(n.y, d, t, p.y);
    FootStays(n.z, d, t, p.z);
  }

  lemma FootAt(plane: Plane, p: Point, d: real)
    requires Distance(plane, p) == d
    ensures Foot(plane, p) == Minus(p, Scaled(d, plane.normal))
  {
  }

  lemma MovedFoot(plane: Plane, p: Point, t: real)
    requires Dot(plane.normal, plane.normal) == 1.0
    ensures Foot(plane, Plus(p, Scaled(t, plane.normal))) == Foot(plane, p)
  {
    MovedDistance(plane, p, t);
    FootAt(plane, p, Distance(plane, p));
    FootAt(plane, Plus(p, Scaled(t, plane.normal)), Distance(plane, p) + t);
    FootAlong(plane.normal, Distance(plane, p), t, p);
  }

  /** It goes on in both directions along the normal. */
  lemma PrismIsEndless(profile: Solid, plane: Plane, p: Point, t: real)
    requires Dot(plane.normal, plane.normal) == 1.0
    ensures p in Prism(profile, plane) <==> Plus(p, Scaled(t, plane.normal)) in Prism(profile, plane)
  {
    MovedFoot(plane, p, t);
  }

  /** The prism cut off at the reach on both sides of the plane: the tool of a cut through all. */
  ghost function Tool(profile: Solid, plane: Plane, reach: real): Solid {
    iset p | Foot(plane, p) in profile && -reach <= Distance(plane, p) <= reach
  }

  /** A through-all cut of the body, whatever the profile, removes what the endless prism would. */
  ghost predicate CutsThroughPart(part: Solid, box: Box, plane: Plane) {
    forall profile: Solid :: part - Tool(profile, plane, Reach(box)) == part - Prism(profile, plane)
  }

  /** And so it is for every body of that box. */
  ghost predicate CutsThrough(box: Box, plane: Plane) {
    forall part: Solid :: Tight(box, part) ==> CutsThroughPart(part, box, plane)
  }

  predicate Within(box: Box, plane: Plane, p: Point) {
    box.Has(p) ==> -Reach(box) <= Distance(plane, p) <= Reach(box)
  }

  ghost predicate ReachesAll(box: Box, plane: Plane) { forall p :: Within(box, plane, p) }

  /** The least and the greatest of `n * (x - o)` for `x` between `a` and `b`. */
  function Least(n: real, o: real, a: real, b: real): real { if n >= 0.0 then n * (a - o) else n * (b - o) }

  function Greatest(n: real, o: real, a: real, b: real): real { if n >= 0.0 then n * (b - o) else n * (a - o) }

  lemma Ordered(n: real, u: real, v: real)
    requires u <= v
    ensures n >= 0.0 ==> n * u <= n * v
    ensures n <= 0.0 ==> n * v <= n * u
  {
    assert n * (v - u) == n * v - n * u;
  }

  lemma Between(n: real, o: real, a: real, b: real, x: real)
    requires a <= x <= b
    ensures Least(n, o, a, b) <= n * (x - o) <= Greatest(n, o, a, b)
  {
    Ordered(n, a - o, x - o);
    Ordered(n, x - o, b - o);
  }

  function Nearest(box: Box, plane: Plane): real {
    Least(plane.normal.x, plane.origin.x, box.low.x, box.high.x)
    + Least(plane.normal.y, plane.origin.y, box.low.y, box.high.y)
    + Least(plane.normal.z, plane.origin.z, box.low.z, box.high.z)
  }

  function Farthest(box: Box, plane: Plane): real {
    Greatest(plane.normal.x, plane.origin.x, box.low.x, box.high.x)
    + Greatest(plane.normal.y, plane.origin.y, box.low.y, box.high.y)
    + Greatest(plane.normal.z, plane.origin.z, box.low.z, box.high.z)
  }

  lemma DistanceByAxis(plane: Plane, p: Point)
    ensures Distance(plane, p) == plane.normal.x * (p.x - plane.origin.x) + plane.normal.y * (p.y - plane.origin.y)
                                  + plane.normal.z * (p.z - plane.origin.z)
  {
  }

  lemma DistancesInBox(box: Box, plane: Plane, p: Point)
    requires box.Has(p)
    ensures Nearest(box, plane) <= Distance(plane, p) <= Farthest(box, plane)
  {
    DistanceByAxis(plane, p);
    Between(plane.normal.x, plane.origin.x, box.low.x, box.high.x, p.x);
    Between(plane.normal.y, plane.origin.y, box.low.y, box.high.y, p.y);
    Between(plane.normal.z, plane.origin.z, box.low.z, box.high.z, p.z);
  }

  /** Two corners stand nearest and farthest. */
  lemma Corners(box: Box, plane: Plane) returns (near: Point, far: Point)
    requires box.Valid()
    ensures box.Has(near) && Distance(plane, near) == Nearest(box, plane)
    ensures box.Has(far) && Distance(plane, far) == Farthest(box, plane)
  {
    var n := plane.normal;
    near := Point(if n.x >= 0.0 then box.low.x else box.high.x, if n.y >= 0.0 then box.low.y else box.high.y,
                  if n.z >= 0.0 then box.low.z else box.high.z);
    far := Point(if n.x >= 0.0 then box.high.x else box.low.x, if n.y >= 0.0 then box.high.y else box.low.y,
                 if n.z >= 0.0 then box.high.z else box.low.z);
  }

  lemma ReachesAllExactly(box: Box, plane: Plane)
    requires box.Valid()
    ensures ReachesAll(box, plane) <==> -Reach(box) <= Nearest(box, plane) && Farthest(box, plane) <= Reach(box)
  {
    var near, far := Corners(box, plane);
    if ReachesAll(box, plane) {
      assert Within(box, plane, near) && Within(box, plane, far);
    }
    if -Reach(box) <= Nearest(box, plane) && Farthest(box, plane) <= Reach(box) {
      forall p ensures Within(box, plane, p) { if box.Has(p) { DistancesInBox(box, plane, p); } }
    }
  }

  /** What the body is cut through by, seen on the plane: its own shadow. */
  ghost function Shadow(part: Solid, plane: Plane): Solid { iset p | p in part :: Foot(plane, p) }

  /** One body is cut through exactly when all of it is within reach of the sketch plane; when it is
      not, already a profile that is the body's own shadow leaves something of it. */
  lemma PartCutsThroughExactly(part: Solid, box: Box, plane: Plane)
    ensures CutsThroughPart(part, box, plane) <==>
            forall p :: p in part ==> -Reach(box) <= Distance(plane, p) <= Reach(box)
  {
    if forall p :: p in part ==> -Reach(box) <= Distance(plane, p) <= Reach(box) {
      forall profile: Solid
        ensures part - Tool(profile, plane, Reach(box)) == part - Prism(profile, plane)
      {
        assert forall p :: p in part ==> (p in Tool(profile, plane, Reach(box)) <==> p in Prism(profile, plane));
      }
    }
    if CutsThroughPart(part, box, plane) {
      var profile := Shadow(part, plane);
      assert part - Tool(profile, plane, Reach(box)) == part - Prism(profile, plane);
      forall p | p in part ensures -Reach(box) <= Distance(plane, p) <= Reach(box) {
        assert Foot(plane, p) in profile && p in Prism(profile, plane);
        assert p !in part - Prism(profile, plane);
        assert p in Tool(profile, plane, Reach(box));
      }
    }
  }

  ghost function Full(box: Box): Solid { iset p | box.Has(p) }

  lemma FullIsTight(box: Box)
    requires box.Valid()
    ensures Tight(box, Full(box))
  {
    assert box.low in Full(box) && box.high in Full(box);
  }

  lemma CutsThroughWhenReached(box: Box, plane: Plane)
    requires box.Valid()
    ensures CutsThrough(box, plane) <==> ReachesAll(box, plane)
  {
    if ReachesAll(box, plane) {
      forall part: Solid | Tight(box, part) ensures CutsThroughPart(part, box, plane) {
        forall p | p in part ensures -Reach(box) <= Distance(plane, p) <= Reach(box) { assert Within(box, plane, p); }
        PartCutsThroughExactly(part, box, plane);
      }
    }
    if CutsThrough(box, plane) {
      FullIsTight(box);
      PartCutsThroughExactly(Full(box), box, plane);
      forall p ensures Within(box, plane, p) { if box.Has(p) { assert p in Full(box); } }
    }
  }

  /** Every body of a box is cut through, as the endless prism would, exactly when both extreme corners
      of the box are within reach of the sketch plane; the block that fills the box needs it. */
  lemma CutsThroughExactly(box: Box, plane: Plane)
    requires box.Valid()
    ensures CutsThrough(box, plane) <==> -Reach(box) <= Nearest(box, plane) && Farthest(box, plane) <= Reach(box)
  {
    CutsThroughWhenReached(box, plane);
    ReachesAllExactly(box, plane);
  }

  /** The plane passes through the box. */
  ghost predicate Meets(plane: Plane, box: Box) { exists p :: box.Has(p) && Distance(plane, p) == 0.0 }

  /** On a base plane, or any stack of planes offset from one, meeting the box is enough. */
  lemma AxisPlaneCutsThrough(box: Box, plane: Plane)
    requires FacesAxis(plane) && Meets(plane, box)
    ensures CutsThrough(box, plane)
  {
    var q :| box.Has(q) && Distance(plane, q) == 0.0;
    CutsThroughExactly(box, plane);
  }

  // ----- a slanted face ------------------------------------------------------------------

  function Cube(side: real): Box { Box(Point(0.0, 0.0, 0.0), Point(side, side, side)) }

  /** Along the bevel's outward slope, three to four. */
  function Slope(p: Point): real { 0.6 * p.x + 0.8 * p.y }

  /** A cube with the edge at the origin bevelled off, `cut` deep. */
  ghost function Bevelled(side: real, cut: real): Solid { iset p | Cube(side).Has(p) && Slope(p) >= cut }

  /** The plane of the bevel, facing out of the body; the frame on it starts at the bottom corner. */
  function BevelPlane(cut: real): Plane { Plane(Point(0.0, 1.25 * cut, 0.0), Point(-0.6, -0.8, 0.0), "face") }

  lemma BevelDistance(cut: real, p: Point)
    ensures Distance(BevelPlane(cut), p) == cut - Slope(p)
  {
    var m := Minus(p, BevelPlane(cut).origin);
    assert Distance(BevelPlane(cut), p) == -0.6 * m.x + -0.8 * m.y + 0.0 * m.z;
    assert 0.8 * (1.25 * cut) == cut;
  }

  lemma BevelIsUnit(cut: real)
    ensures Dot(BevelPlane(cut).normal, BevelPlane(cut).normal) == 1.0
  {
    assert (-0.6) * (-0.6) + (-0.8) * (-0.8) + 0.0 * 0.0 == 1.0;
  }

  lemma BevelledIsTight(side: real, cut: real)
    requires 0.0 < cut < 0.6 * side
    ensures Tight(Cube(side), Bevelled(side, cut))
  {
    assert Point(0.0, side, 0.0) in Bevelled(side, cut);
    assert Point(side, 0.0, 0.0) in Bevelled(side, cut);
    assert Point(side, side, side) in Bevelled(side, cut);
  }

  /** The bevel is a face of the body: the body lies behind the plane, and what it has on the plane is
      the whole strip between two sides of the cube, from bottom to top. */
  lemma BevelIsAFace(side: real, cut: real, p: Point)
    requires 0.0 < cut < 0.6 * side
    ensures p in Bevelled(side, cut) ==> Distance(BevelPlane(cut), p) <= 0.0
    ensures p in Bevelled(side, cut) && Distance(BevelPlane(cut), p) == 0.0 <==>
            Slope(p) == cut && 0.0 <= p.x && 0.0 <= p.y && 0.0 <= p.z <= side
  {
    BevelDistance(cut, p);
  }

  /** From that face a cut through all leaves the body on the other side only up to a point: the corner
      across from the bevel is out of reach of any cube wider than that. */
  lemma SlantedFaceFallsShort(side: real, cut: real)
    requires 0.0 < cut < 0.6 * side
    ensures Tight(Cube(side), Bevelled(side, cut)) && Dot(BevelPlane(cut).normal, BevelPlane(cut).normal) == 1.0
    ensures CutsThroughPart(Bevelled(side, cut), Cube(side), BevelPlane(cut)) <==> 0.4 * side <= 1.0 + cut
  {
    BevelledIsTight(side, cut);
    BevelIsUnit(cut);
    var part, box, plane := Bevelled(side, cut), Cube(side), BevelPlane(cut);
    CubeReach(side);
    PartCutsThroughExactly(part, box, plane);
    FarCorner(side, cut);
    if 0.4 * side <= 1.0 + cut {
      forall p | p in part ensures -Reach(box) <= Distance(plane, p) <= Reach(box) { SlopeInCube(side, cut, p); }
    }
  }

  lemma CubeReach(side: real)
    requires side > 0.0
    ensures Reach(Cube(side)) == side + 1.0
  {
  }

  lemma FarCorner(side: real, cut: real)
    requires 0.0 < cut < 0.6 * side
    ensures Point(side, side, side) in Bevelled(side, cut)
    ensures Distance(BevelPlane(cut), Point(side, side, side)) == cut - 1.4 * side
  {
    BevelDistance(cut, Point(side, side, side));
  }

  lemma SlopeInCube(side: real, cut: real, p: Point)
    requires p in Bevelled(side, cut)
    ensures cut - 1.4 * side <= Distance(BevelPlane(cut), p) <= 0.0
  {
    BevelDistance(cut, p);
  }
}
