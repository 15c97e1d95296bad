/** The buffer transform: the closed ring of an axis-aligned square of
    half-side bufferDist centred on a point. */
module Buffer {
  import opened Outcomes
  import opened Geometry

  /** The buffer distance used when the caller gives none. */
  const DefaultBufferDist: real := 100.0

  /** Indexing the flattened coordinate array past its end; index is the first
      position read that does not exist. */
  datatype IndexError = IndexError(index: nat)

  /** The point a flattened coordinate array stands for: its first two components. */
  function Centre(pointCoords: seq<real>): Coord
    requires |pointCoords| >= 2
  {
    Coord(pointCoords[0], pointCoords[1])
  }

  /** The square buffer of a point whose coordinates have been flattened into
      pointCoords. Only the first two components are read; an array with fewer
      fails on the first missing index. The distance is not validated. */
  function SquareBuffer(pointCoords: seq<real>, bufferDist: real := DefaultBufferDist)
    : (r: Result<Ring, IndexError>)
    ensures r.Ok? <==> |pointCoords| >= 2
    ensures r.Err? ==> r.error.index == |pointCoords|
    ensures r.Ok? ==> |r.value| == 5 && IsClosed(r.value)
  {
    if |pointCoords| < 2 then Err(IndexError(|pointCoords|))
    else
      var xPos := pointCoords[0] + bufferDist;
      var yPos := pointCoords[1] + bufferDist;
      var xNeg := pointCoords[0] - bufferDist;
      var yNeg := pointCoords[1] - bufferDist;
      var quad1 := Coord(xPos, yPos);
      var quad2 := Coord(xNeg, yPos);
      var quad3 := Coord(xNeg, yNeg);
      var quad4 := Coord(xPos, yNeg);
      Ok([quad1, quad2, quad3, quad4, quad1])
  }

  /** For a positive distance the four corners run through the quadrants
      around the point in order 1, 2, 3, 4; for a negative one the same cycle
      starts in quadrant 3. */
  lemma CornersInQuadrantOrder(pointCoords: seq<real>, d: real)
    requires |pointCoords| >= 2
    ensures d > 0.0 ==> forall k :: 0 <= k < 4 ==>
      InQuadrant(SquareBuffer(pointCoords, d).value[k], Centre(pointCoords), k + 1)
    ensures d < 0.0 ==> forall k :: 0 <= k < 4 ==>
      InQuadrant(SquareBuffer(pointCoords, d).value[k], Centre(pointCoords), (k + 2) % 4 + 1)
  {
  }

  /** The bounding box of the ring is 2|d| wide and 2|d| high. */
  lemma ExtentIsTwiceDistance(pointCoords: seq<real>, d: real)
    requires |pointCoords| >= 2
    ensures Width(SquareBuffer(pointCoords, d).value) == 2.0 * Abs(d)
    ensures Height(SquareBuffer(pointCoords, d).value) == 2.0 * Abs(d)
  {
    var ring := SquareBuffer(pointCoords, d).value;
    var x, y := pointCoords[0], pointCoords[1];
    assert ring[4..] == [ring[4]];
    assert ring[3..][1..] == ring[4..];
    assert ring[2..][1..] == ring[3..];
    assert ring[1..][1..] == ring[2..];
    assert MaxX(ring[3..]) == x + d && MinX(ring[3..]) == x + d;
    assert MaxY(ring[3..]) == Max(y - d, y + d) && MinY(ring[3..]) == Min(y - d, y + d);
    assert MaxX(ring[1..]) == Max(x - d, x + d) && MinX(ring[1..]) == Min(x - d, x + d);
    assert MaxY(ring[1..]) == Max(y - d, y + d) && MinY(ring[1..]) == Min(y - d, y + d);
  }

  /** Every edge of the ring is axis-parallel with length 2|d|. */
  lemma EdgesAreSides(pointCoords: seq<real>, d: real)
    requires |pointCoords| >= 2
    ensures forall k :: 0 <= k < 4 ==>
      var ring := SquareBuffer(pointCoords, d).value;
      AxisAligned(ring[k], ring[k + 1]) && EdgeLength(ring[k], ring[k + 1]) == 2.0 * Abs(d)
  {
  }

  /** The mean of the four corners is the input point. */
  lemma CentredOnPoint(pointCoords: seq<real>, d: real)
    requires |pointCoords| >= 2
    ensures Centroid(SquareBuffer(pointCoords, d).value) == Centre(pointCoords)
  {
    var ring := SquareBuffer(pointCoords, d).value;
    var x, y := pointCoords[0], pointCoords[1];
    assert ring[..4][..3] == ring[..3] && ring[..3][..2] == ring[..2];
    assert ring[..2][..1] == ring[..1] && ring[..1][..0] == [];
    assert VertexSum(ring[..1]) == ring[0];
    assert VertexSum(ring[..2]) == Coord(2.0 * x, 2.0 * y + 2.0 * d);
    assert VertexSum(ring[..3]) == Coord(3.0 * x - d, 3.0 * y + d);
    assert VertexSum(ring[..4]) == Coord(4.0 * x, 4.0 * y);
  }

  /** The ring is counter-clockwise and encloses (2d)^2: its shoelace sum is 8d^2. */
  lemma AreaIsSideSquared(pointCoords: seq<real>, d: real)
    requires |pointCoords| >= 2
    ensures TwiceSignedArea(SquareBuffer(pointCoords, d).value) == 8.0 * d * d
  {
    var ring := SquareBuffer(pointCoords, d).value;
    var x, y := pointCoords[0], pointCoords[1];
    assert ring[4..] == [ring[4]];
    assert ring[3..][1..] == ring[4..];
    assert ring[2..][1..] == ring[3..];
    assert ring[1..][1..] == ring[2..];
    assert TwiceSignedArea(ring[3..]) == (x + d) * (y + d) - (x + d) * (y - d);
    assert TwiceSignedArea(ring[2..]) == (x - d) * (y - d) - (x + d) * (y - d) + TwiceSignedArea(ring[3..]);
    assert TwiceSignedArea(ring[1..]) == (x - d) * (y - d) - (x - d) * (y + d) + TwiceSignedArea(ring[2..]);
  }

  /** The ring collapses onto the point exactly when the distance is zero. */
  lemma DegenerateIffZero(pointCoords: seq<real>, d: real)
    requires |pointCoords| >= 2
    ensures (forall k :: 0 <= k < 5 ==> SquareBuffer(pointCoords, d).value[k] == Centre(pointCoords))
            <==> d == 0.0
  {
    var ring := SquareBuffer(pointCoords, d).value;
    if ring[0] == Centre(pointCoords) {
      assert pointCoords[0] + d == pointCoords[0];
    }
  }

  /** Negating the distance gives the same square, started at the opposite corner. */
  lemma NegatedDistanceSameSquare(pointCoords: seq<real>, d: real)
    requires |pointCoords| >= 2
    ensures var ring, flipped := SquareBuffer(pointCoords, d).value, SquareBuffer(pointCoords, -d).value;
      forall k :: 0 <= k < 5 ==> flipped[k] == ring[(k + 2) % 4]
  {
  }

  /** Components beyond the first two do not affect the result. */
  lemma OnlyFirstTwoComponents(pointCoords: seq<real>, d: real)
    requires |pointCoords| >= 2
    ensures SquareBuffer(pointCoords, d) == SquareBuffer(pointCoords[..2], d)
  {
  }
}
