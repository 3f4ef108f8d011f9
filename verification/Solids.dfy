/** A solid is the set of points it occupies. Joining, cutting and intersecting are the set
    operations; the kernel's `clean` changes faces and not material, so it is the identity. */
module Solids {
  import opened Prelude

  datatype Point = Point(x: real, y: real, z: real)

  type Solid = iset<Point>

  /** A plane: a point on it, its normal, and the name of the in-plane frame it keeps. */
  datatype Plane = Plane(origin: Point, normal: Point, frame: string)

  function BasePlane(name: string): Option<Plane> {
    match name
    case "XY" => Some(Plane(Point(0.0, 0.0, 0.0), Point(0.0, 0.0, 1.0), "XY"))
    case "XZ" => Some(Plane(Point(0.0, 0.0, 0.0), Point(0.0, -1.0, 0.0), "XZ"))
    case "YZ" => Some(Plane(Point(0.0, 0.0, 0.0), Point(1.0, 0.0, 0.0), "YZ"))
    case _ => None
  }

  function Dot(a: Point, b: Point): real {
    a.x * b.x + a.y * b.y + a.z * b.z
  }

  function Along(p: Plane, distance: real): Plane {
    p.(origin := Point(p.origin.x + distance * p.normal.x,
                       p.origin.y + distance * p.normal.y,
                       p.origin.z + distance * p.normal.z))
  }

  /** One combination of a feature's solid with what came before. */
  function Combined(part: Solid, solid: Solid, cut: bool): Solid {
    if cut then part - solid else part + solid
  }
}
