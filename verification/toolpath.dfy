/** One printed layer of one square: how many layers, at what height, and the
    closed square path the nozzle follows. */
module Toolpath {
  import opened Config
  import opened Grid

  function Abs(v: real): (r: real)
    ensures r >= 0.0 && (r == v || r == -v)
  {
    if v < 0.0 then -v else v
  }

  /** A segment along one axis, as every edge of the square path is. */
  predicate AxisAligned(p: Point, q: Point) {
    p.x == q.x || p.y == q.y
  }

  /** Length of an axis-aligned segment. */
  function SegmentLength(p: Point, q: Point): real
    requires AxisAligned(p, q)
  {
    Abs(q.x - p.x) + Abs(q.y - p.y)
  }

  /** `SegmentLength` is the Euclidean distance `sqrt(dx**2 + dy**2)` the
      source computes: the non-negative root of the squared distance. */
  lemma SegmentLengthEuclidean(p: Point, q: Point)
    requires AxisAligned(p, q)
    ensures SegmentLength(p, q) >= 0.0
    ensures SegmentLength(p, q) * SegmentLength(p, q)
         == (q.x - p.x) * (q.x - p.x) + (q.y - p.y) * (q.y - p.y)
  {
    if p.x == q.x {
      assert SegmentLength(p, q) == Abs(q.y - p.y);
    } else {
      assert SegmentLength(p, q) == Abs(q.x - p.x);
    }
  }

  /** An axis-aligned segment of the given length. */
  predicate Edge(p: Point, q: Point, length: real) {
    AxisAligned(p, q) && SegmentLength(p, q) == length
  }

  /** The five points of one layer: the corner, then around the square and
      back to the corner (`SquareEdge`: each edge is `|size|` long). */
  function SquarePath(corner: Point, size: real): (path: seq<Point>)
    ensures |path| == 5
    ensures path[0] == corner && path[4] == path[0]
  {
    [ corner,
      Point(corner.x + size, corner.y),
      Point(corner.x + size, corner.y + size),
      Point(corner.x, corner.y + size),
      corner ]
  }

  /** Each of the four edges of the square path runs along one axis and is
      `|size|` long. */
  lemma SquareEdge(corner: Point, size: real, j: nat)
    requires j < 4
    ensures Edge(SquarePath(corner, size)[j], SquarePath(corner, size)[j + 1], Abs(size))
  {
    var path := SquarePath(corner, size);
    if j == 0 {
      assert Edge(path[0], path[1], Abs(size));
    } else if j == 1 {
      assert Edge(path[1], path[2], Abs(size));
    } else if j == 2 {
      assert Edge(path[2], path[3], Abs(size));
    } else {
      assert Edge(path[3], path[4], Abs(size));
    }
  }

  /** Python's `int()` of a float: truncation toward zero. */
  function Trunc(q: real): (r: int)
    ensures Abs(r as real) <= Abs(q) < Abs(r as real) + 1.0
    ensures q >= 0.0 ==> r >= 0
    ensures q <= 0.0 ==> r <= 0
  {
    if q >= 0.0 then q.Floor else -((-q).Floor)
  }

  /** The number of layers each square gets: `range(int(h / lh))`, so the
      floor of the quotient, or nothing when the quotient is negative. */
  function LayerCount(squareHeight: real, layerHeight: real): (r: nat)
    requires layerHeight != 0.0
    ensures squareHeight / layerHeight >= 0.0 ==>
      r as real <= squareHeight / layerHeight < r as real + 1.0
    ensures squareHeight / layerHeight < 1.0 ==> r == 0
  {
    Max0(Trunc(squareHeight / layerHeight))
  }

  /** The nozzle height of layer `k` (counting from zero) of a square
      printed at offset `zOffset`. */
  function LayerZ(k: nat, layerHeight: real, zOffset: real): (z: real)
    ensures layerHeight > 0.0 ==> z > zOffset
    ensures layerHeight == 0.0 ==> z == zOffset
  {
    (k + 1) as real * layerHeight + zOffset
  }

  /** The first layer sits one layer height above the offset, and each next
      layer rises by exactly one layer height, whatever that height is. */
  lemma LayerZSteps(k: nat, layerHeight: real, zOffset: real)
    ensures LayerZ(0, layerHeight, zOffset) == layerHeight + zOffset
    ensures LayerZ(k + 1, layerHeight, zOffset) == LayerZ(k, layerHeight, zOffset) + layerHeight
  {
  }

  /** With a positive layer height, later layers are strictly higher. */
  lemma {:induction false} LayerZIncreasing(k: nat, k': nat, layerHeight: real, zOffset: real)
    requires layerHeight > 0.0 && k < k'
    ensures LayerZ(k, layerHeight, zOffset) < LayerZ(k', layerHeight, zOffset)
  {
    assert LayerZ(k', layerHeight, zOffset) - LayerZ(k, layerHeight, zOffset)
        == (k' - k) as real * layerHeight;
    assert (k' - k) as real * layerHeight > 0.0;
  }
}
