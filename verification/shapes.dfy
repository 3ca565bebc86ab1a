/**
 Geometry values of the jitter tool: planar coordinates, displacement vectors,
 the four supported shape types and the geometry variant built from them.
 */
module Shapes {
  import opened Wrappers

  /** A vertex in the dataset's native planar units. */
  datatype Coord = Coord(x: real, y: real)

  /** A displacement vector applied to every vertex of one feature. */
  datatype Offset = Offset(dx: real, dy: real)

  /** One ring, line or run of points of a multi-part geometry, in order. */
  type Part = seq<Coord>

  /** The closed set of shape types the tool accepts. */
  datatype ShapeType = Polygon | Polyline | Point | Multipoint

  /**
   A feature's geometry: a point geometry holds one vertex directly and has no
   parts; the other three shape types hold an ordered sequence of parts.
   */
  datatype Geometry =
    | PointGeometry(point: Coord)
    | MultiPart(kind: ShapeType, parts: seq<Part>)

  /** The shape type name the data access library reports for `t`. */
  function TypeName(t: ShapeType): string
  {
    match t
    case Polygon => "Polygon"
    case Polyline => "Polyline"
    case Point => "Point"
    case Multipoint => "Multipoint"
  }

  /** The set of shape type names the lookup table has keys for. */
  function SupportedNames(): set<string>
  {
    {"Polygon", "Polyline", "Point", "Multipoint"}
  }

  /** The geometry lookup table: maps a reported shape type name to its shape type. */
  function LookupShapeType(name: string): (r: Option<ShapeType>)
    ensures r.Some? <==> name in SupportedNames()
    ensures r.Some? ==> TypeName(r.value) == name
  {
    if name == "Polygon" then Some(Polygon)
    else if name == "Polyline" then Some(Polyline)
    else if name == "Point" then Some(Point)
    else if name == "Multipoint" then Some(Multipoint)
    else None
  }

  /** Every shape type is found again under its own name. */
  lemma LookupTypeName(t: ShapeType)
    ensures LookupShapeType(TypeName(t)) == Some(t)
  {
  }

  /**
   A geometry fits a feature class of shape type `t`: a point class holds point
   geometries, the others hold multi-part geometries of that kind.
   */
  predicate Conforms(g: Geometry, t: ShapeType)
  {
    if t == Point then g.PointGeometry? else g.MultiPart? && g.kind == t
  }

  /** `c` moved by `d`. */
  function Shift(c: Coord, d: Offset): Coord
  {
    Coord(c.x + d.dx, c.y + d.dy)
  }

  /** The vector from `b` to `a`. */
  function Diff(a: Coord, b: Coord): Offset
  {
    Offset(a.x - b.x, a.y - b.y)
  }

  function Zero(): Offset
  {
    Offset(0.0, 0.0)
  }

  function Add(d1: Offset, d2: Offset): Offset
  {
    Offset(d1.dx + d2.dx, d1.dy + d2.dy)
  }

  function Negate(d: Offset): Offset
  {
    Offset(-d.dx, -d.dy)
  }

  function Abs(r: real): real
  {
    if r < 0.0 then -r else r
  }
}
