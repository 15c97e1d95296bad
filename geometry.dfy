/** Planar coordinates and the measures used to state what a square buffer is:
    bounding extents, vertex centroid, edge lengths and signed area. */
module Geometry {

  /** A coordinate pair; exact reals stand in for the source's floats. */
  datatype Coord = Coord(x: real, y: real)

  /** A polygon boundary as its list of vertices. */
  type Ring = seq<Coord>

  function Abs(v: real): real { if v < 0.0 then -v else v }

  function Min(a: real, b: real): real { if a <= b then a else b }

  function Max(a: real, b: real): real { if a <= b then b else a }

  /** A ring is closed when it has at least four vertices and ends where it starts
      (the rule the polygon constructor imposes on its shell). */
  predicate IsClosed(ring: Ring) {
    |ring| >= 4 && ring[|ring| - 1] == ring[0]
  }

  function MinX(vs: seq<Coord>): real
    requires |vs| > 0
  {
    if |vs| == 1 then vs[0].x else Min(vs[0].x, MinX(vs[1..]))
  }

  function MaxX(vs: seq<Coord>): real
    requires |vs| > 0
  {
    if |vs| == 1 then vs[0].x else Max(vs[0].x, MaxX(vs[1..]))
  }

  function MinY(vs: seq<Coord>): real
    requires |vs| > 0
  {
    if |vs| == 1 then vs[0].y else Min(vs[0].y, MinY(vs[1..]))
  }

  function MaxY(vs: seq<Coord>): real
    requires |vs| > 0
  {
    if |vs| == 1 then vs[0].y else Max(vs[0].y, MaxY(vs[1..]))
  }

  /** Width of the bounding box. */
  function Width(vs: seq<Coord>): real
    requires |vs| > 0
  {
    MaxX(vs) - MinX(vs)
  }

  /** Height of the bounding box. */
  function Height(vs: seq<Coord>): real
    requires |vs| > 0
  {
    MaxY(vs) - MinY(vs)
  }

  /** Componentwise sum of a list of vertices. */
  function VertexSum(vs: seq<Coord>): Coord {
    if |vs| == 0 then Coord(0.0, 0.0)
    else
      var s := VertexSum(vs[..|vs| - 1]);
      Coord(s.x + vs[|vs| - 1].x, s.y + vs[|vs| - 1].y)
  }

  /** Mean of the distinct vertices of a closed ring (every vertex but the
      repeated last one). */
  function Centroid(ring: Ring): Coord
    requires |ring| >= 2
  {
    var n := (|ring| - 1) as real;
    var s := VertexSum(ring[..|ring| - 1]);
    Coord(s.x / n, s.y / n)
  }

  /** Twice the signed area enclosed by a ring (the shoelace sum over consecutive
      vertices); positive for a counter-clockwise ring. */
  function TwiceSignedArea(ring: Ring): real {
    if |ring| < 2 then 0.0
    else ring[0].x * ring[1].y - ring[1].x * ring[0].y + TwiceSignedArea(ring[1..])
  }

  /** The edge from a to b is parallel to an axis. */
  predicate AxisAligned(a: Coord, b: Coord) {
    a.x == b.x || a.y == b.y
  }

  /** Length of an axis-parallel edge. */
  function EdgeLength(a: Coord, b: Coord): real
    requires AxisAligned(a, b)
  {
    Abs(a.x - b.x) + Abs(a.y - b.y)
  }

  /** c lies strictly inside quadrant q (1 to 4, counted counter-clockwise from
      the upper right) of the axes through centre. */
  predicate InQuadrant(c: Coord, centre: Coord, q: nat) {
    match q
    case 1 => c.x > centre.x && c.y > centre.y
    case 2 => c.x < centre.x && c.y > centre.y
    case 3 => c.x < centre.x && c.y < centre.y
    case 4 => c.x > centre.x && c.y < centre.y
    case _ => false
  }
}
