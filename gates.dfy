/**
 * The marker record shared by the three detection scripts: a detected ArUco
 * marker, its diagonal size, its truncated centre and the target point
 * between two markers.
 */
module Gates {

  datatype Option<T> = None | Some(value: T)

  /** A pixel coordinate as reported by the detector. */
  datatype Point = Point(x: real, y: real)

  /** Marker IDs that carry a meaning on the course. */
  const LeftPostId := 0
  const RightPostId := 1
  const StartId := 2
  const StopId := 3

  /** A marker's four corners, in the order the detector reports them. */
  datatype Corners = Corners(topLeft: Point, topRight: Point, bottomRight: Point, bottomLeft: Point)

  /**
   * One detected marker: its corners, its ID and its size, the size being
   * worked out once, when the record is made (see NewMarker).
   */
  datatype Marker = Marker(corners: Corners, id: int, size: real)

  lemma PositiveProduct(a: real, b: real)
    requires a > 0.0 && b > 0.0
    ensures a * b > 0.0
  {
  }

  lemma SquareNonNegative(d: real)
    ensures d * d >= 0.0
  {
    if d < 0.0 {
      PositiveProduct(-d, -d);
      assert d * d == (-d) * (-d);
    } else if d > 0.0 {
      PositiveProduct(d, d);
    }
  }

  /** Scaling by a positive factor keeps the order of two reals. */
  lemma ScaleMonotone(x1: real, x2: real, k: real)
    requires x1 <= x2 && 0.0 < k
    ensures x1 * k <= x2 * k
    ensures x1 < x2 ==> x1 * k < x2 * k
  {
  }

  /** Of two non-negative lengths, the longer has the larger square, and equal squares mean equal lengths. */
  lemma SquaresOrderLikeLengths(d: real, e: real)
    requires 0.0 <= d && 0.0 <= e
    ensures d <= e <==> d * d <= e * e
    ensures d == e <==> d * d == e * e
  {
    if d < e {
      ProductsGrow(d, e, d, e);
    } else if e < d {
      ProductsGrow(e, d, e, d);
    }
  }

  /** Of two products of non-negative factors, the one with both factors strictly larger is strictly larger. */
  lemma ProductsGrow(a: real, b: real, c: real, d: real)
    requires 0.0 <= a < b && 0.0 <= c < d
    ensures a * c < b * d
  {
    if c > 0.0 {
      ScaleMonotone(a, b, c);
    } else {
      ZeroProduct(c, a);
    }
    ScaleMonotone(c, d, b);
  }

  lemma ZeroProduct(c: real, a: real)
    requires c == 0.0
    ensures a * c == 0.0
  {
  }

  /**
   * The square of the diagonal from the top-left to the bottom-right corner.
   * The scripts rank by the diagonal's length; its square orders markers the same way.
   */
  function SquaredDiagonal(c: Corners): real
  {
    var dx := c.topLeft.x - c.bottomRight.x;
    var dy := c.topLeft.y - c.bottomRight.y;
    dx * dx + dy * dy
  }

  /** The record made for each detected marker, with its size. */
  function NewMarker(corners: Corners, id: int): (m: Marker)
    ensures m.corners == corners && m.id == id
    ensures m.size == SquaredDiagonal(corners) && m.size >= 0.0
  {
    SquareNonNegative(corners.topLeft.x - corners.bottomRight.x);
    SquareNonNegative(corners.topLeft.y - corners.bottomRight.y);
    Marker(corners, id, SquaredDiagonal(corners))
  }

  /**
   * Ranking by the squared diagonal is ranking by the diagonal's length: for
   * lengths `d1` and `d2` (the non-negative roots of the squared diagonals),
   * one marker's size is at most, or equal to, the other's exactly when its
   * diagonal is at most, or equal to, the other's.
   */
  lemma SizeOrdersLikeDiagonal(c1: Corners, c2: Corners, id1: int, id2: int, d1: real, d2: real)
    requires 0.0 <= d1 && d1 * d1 == SquaredDiagonal(c1)
    requires 0.0 <= d2 && d2 * d2 == SquaredDiagonal(c2)
    ensures NewMarker(c1, id1).size <= NewMarker(c2, id2).size <==> d1 <= d2
    ensures NewMarker(c1, id1).size == NewMarker(c2, id2).size <==> d1 == d2
  {
    SquaresOrderLikeLengths(d1, d2);
  }

  /** What the detector reports for one marker: its four corners and its ID. */
  datatype Detection = Detection(corners: Corners, id: int)
  {
    /** The record the scripts make for this detection. */
    function Record(): Marker
    {
      NewMarker(corners, id)
    }
  }

  /**
   * The records made for a frame's detections, in detection order: each keeps
   * its detection's corners and ID, and its size is that detection's squared
   * diagonal.
   */
  function Records(ds: seq<Detection>): (ms: seq<Marker>)
    ensures |ms| == |ds|
    ensures forall i :: 0 <= i < |ds| ==>
              && ms[i].corners == ds[i].corners && ms[i].id == ds[i].id
              && ms[i].size == SquaredDiagonal(ds[i].corners)
  {
    seq(|ds|, i requires 0 <= i < |ds| => ds[i].Record())
  }

  /** Conversion of a real to an integer that drops the fraction (rounds toward zero). */
  function Trunc(r: real): (t: int)
    ensures 0.0 <= r ==> 0 <= t && t as real <= r < t as real + 1.0
    ensures r < 0.0 ==> t <= 0 && t as real - 1.0 < r <= t as real
  {
    if r >= 0.0 then r.Floor else -((-r).Floor)
  }

  lemma TruncMonotone(r: real, s: real)
    requires r <= s
    ensures Trunc(r) <= Trunc(s)
  {
  }

  /** The mean of the four corners' horizontal coordinates. */
  function MeanX(m: Marker): real
  {
    (m.corners.topLeft.x + m.corners.topRight.x + m.corners.bottomRight.x + m.corners.bottomLeft.x) / 4.0
  }

  /**
   * The horizontal coordinate of a marker's centre: the mean of its corners,
   * converted to an integer by dropping the fraction.
   */
  function CentreX(m: Marker): (c: int)
    ensures 0.0 <= MeanX(m) ==> c as real <= MeanX(m) < c as real + 1.0
    ensures MeanX(m) < 0.0 ==> c as real - 1.0 < MeanX(m) <= c as real
  {
    Trunc(MeanX(m))
  }

  /**
   * The target point of a gate: halfway between the first marker's top-right
   * corner and the second marker's bottom-left corner.
   */
  function Midpoint(first: Marker, second: Marker): (p: Point)
    ensures p.x - first.corners.topRight.x == second.corners.bottomLeft.x - p.x
    ensures p.y - first.corners.topRight.y == second.corners.bottomLeft.y - p.y
    ensures first.corners.topRight.x <= second.corners.bottomLeft.x ==> first.corners.topRight.x <= p.x <= second.corners.bottomLeft.x
    ensures second.corners.bottomLeft.x <= first.corners.topRight.x ==> second.corners.bottomLeft.x <= p.x <= first.corners.topRight.x
  {
    Point((first.corners.topRight.x + second.corners.bottomLeft.x) / 2.0, (first.corners.topRight.y + second.corners.bottomLeft.y) / 2.0)
  }
}
