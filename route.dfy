/**
 * The "PCB" routes of the edges: an orthogonal polyline of four or five
 * waypoints between two node anchors (`Edge.calculatePCBRoute` and
 * `Edge3D.calculatePCBRoute`).
 */
module Route {
  import opened Geometry

  /** Routes longer than this get an extra jog in the middle. */
  const LongRoute: real := 150.0

  /** The route takes its horizontal leg first when |dx| > |dy|. */
  predicate HorizontalFirst(a: Point2, b: Point2) {
    Abs(b.x - a.x) > Abs(b.y - a.y)
  }

  /** The 2D route from a to b for an edge of Euclidean length `length`. */
  function Route2(a: Point2, b: Point2, length: real): (r: seq<Point2>)
    ensures |r| == if length > LongRoute then 5 else 4
    ensures r[0] == a && r[|r| - 1] == b
  {
    var dx, dy := b.x - a.x, b.y - a.y;
    if HorizontalFirst(a, b) then
      var midX := a.x + dx * 0.5;
      if length > LongRoute then
        [a, Point2(midX, a.y), Point2(midX, a.y + dy * 0.3), Point2(midX, b.y), b]
      else
        [a, Point2(midX, a.y), Point2(midX, b.y), b]
    else
      var midY := a.y + dy * 0.5;
      if length > LongRoute then
        [a, Point2(a.x, midY), Point2(a.x + dx * 0.3, midY), Point2(b.x, midY), b]
      else
        [a, Point2(a.x, midY), Point2(b.x, midY), b]
  }

  /** Every leg of the polyline is horizontal or vertical. */
  predicate AxisAligned(r: seq<Point2>) {
    forall i | 0 <= i < |r| - 1 :: r[i].x == r[i + 1].x || r[i].y == r[i + 1].y
  }

  /** |dx| + |dy| of leg i. */
  function Leg2(r: seq<Point2>, i: nat): real
    requires i + 1 < |r|
  {
    Abs(r[i + 1].x - r[i].x) + Abs(r[i + 1].y - r[i].y)
  }

  /** The sum of Leg2 over the legs from i on. */
  function Manhattan2(r: seq<Point2>, i: nat): real
    decreases |r| - i
  {
    if i + 1 < |r| then Leg2(r, i) + Manhattan2(r, i + 1) else 0.0
  }

  /** The route is orthogonal and its first leg is horizontal exactly when |dx| > |dy|. */
  lemma Route2Shape(a: Point2, b: Point2, length: real)
    ensures AxisAligned(Route2(a, b, length))
    ensures Route2(a, b, length)[1].x != a.x <==> HorizontalFirst(a, b)
    ensures Route2(a, b, length)[1].y != a.y ==> !HorizontalFirst(a, b)
  {
  }

  /** The route never doubles back: its legs add up to |dx| + |dy|. */
  lemma Route2Manhattan(a: Point2, b: Point2, length: real)
    ensures Manhattan2(Route2(a, b, length), 0) == Abs(b.x - a.x) + Abs(b.y - a.y)
  {
    var r := Route2(a, b, length);
    var dx, dy := b.x - a.x, b.y - a.y;
    if |r| == 5 {
      Manhattan2Five(r);
    } else {
      Manhattan2Four(r);
    }
    if HorizontalFirst(a, b) {
      HorizontalLegs(a, b, length);
      AbsHalves(dx);
      AbsThirds(dy);
    } else {
      VerticalLegs(a, b, length);
      AbsHalves(dy);
      AbsThirds(dx);
    }
  }

  lemma HorizontalLegs(a: Point2, b: Point2, length: real)
    requires HorizontalFirst(a, b)
    ensures var r, dx, dy := Route2(a, b, length), b.x - a.x, b.y - a.y;
      && Leg2(r, 0) == Abs(dx * 0.5) && Leg2(r, |r| - 2) == Abs(dx * 0.5)
      && (|r| == 5 ==> Leg2(r, 1) == Abs(dy * 0.3) && Leg2(r, 2) == Abs(dy * 0.7))
      && (|r| == 4 ==> Leg2(r, 1) == Abs(dy))
  {
  }

  lemma VerticalLegs(a: Point2, b: Point2, length: real)
    requires !HorizontalFirst(a, b)
    ensures var r, dx, dy := Route2(a, b, length), b.x - a.x, b.y - a.y;
      && Leg2(r, 0) == Abs(dy * 0.5) && Leg2(r, |r| - 2) == Abs(dy * 0.5)
      && (|r| == 5 ==> Leg2(r, 1) == Abs(dx * 0.3) && Leg2(r, 2) == Abs(dx * 0.7))
      && (|r| == 4 ==> Leg2(r, 1) == Abs(dx))
  {
  }

  lemma Manhattan2Five(r: seq<Point2>)
    requires |r| == 5
    ensures Manhattan2(r, 0) == Leg2(r, 0) + Leg2(r, 1) + Leg2(r, 2) + Leg2(r, 3)
  {
    assert Manhattan2(r, 4) == 0.0;
    assert Manhattan2(r, 3) == Leg2(r, 3);
    assert Manhattan2(r, 2) == Leg2(r, 2) + Leg2(r, 3);
    assert Manhattan2(r, 1) == Leg2(r, 1) + Leg2(r, 2) + Leg2(r, 3);
  }

  lemma Manhattan2Four(r: seq<Point2>)
    requires |r| == 4
    ensures Manhattan2(r, 0) == Leg2(r, 0) + Leg2(r, 1) + Leg2(r, 2)
  {
    assert Manhattan2(r, 3) == 0.0;
    assert Manhattan2(r, 2) == Leg2(r, 2);
    assert Manhattan2(r, 1) == Leg2(r, 1) + Leg2(r, 2);
  }

  lemma AbsHalves(v: real)
    ensures Abs(v * 0.5) + Abs(v * 0.5) == Abs(v)
  {
  }

  lemma AbsThirds(v: real)
    ensures Abs(v * 0.3) + Abs(v * 0.7) == Abs(v)
  {
  }

  /** The first and the last leg of a route between distinct anchors have non-zero length. */
  lemma Route2EndLegs(a: Point2, b: Point2, length: real)
    requires a != b
    ensures Route2(a, b, length)[0] != Route2(a, b, length)[1]
    ensures var r := Route2(a, b, length); r[|r| - 2] != r[|r| - 1]
  {
  }

  function Flat(p: Point3): Point2 {
    Point2(p.x, p.y)
  }

  /** The 3D route; the threshold applies to the 3D length. */
  function Route3(a: Point3, b: Point3, length: real): (r: seq<Point3>)
    ensures |r| == if length > LongRoute then 5 else 4
    ensures r[0] == a && r[|r| - 1] == b
  {
    var dx, dy, dz := b.x - a.x, b.y - a.y, b.z - a.z;
    if HorizontalFirst(Flat(a), Flat(b)) then
      var midX := a.x + dx * 0.5;
      if length > LongRoute then
        [a, Point3(midX, a.y, a.z), Point3(midX, a.y + dy * 0.3, a.z + dz * 0.3),
         Point3(midX, b.y, a.z + dz * 0.5), b]
      else
        [a, Point3(midX, a.y, a.z), Point3(midX, b.y, a.z + dz * 0.5), b]
    else
      var midY := a.y + dy * 0.5;
      if length > LongRoute then
        [a, Point3(a.x, midY, a.z), Point3(a.x + dx * 0.3, midY, a.z + dz * 0.3),
         Point3(b.x, midY, a.z + dz * 0.5), b]
      else
        [a, Point3(a.x, midY, a.z), Point3(b.x, midY, a.z + dz * 0.5), b]
  }

  /** The sum over the legs from i on of |dz|. */
  function ZTravel(r: seq<Point3>, i: nat): real
    decreases |r| - i
  {
    if i + 1 < |r| then Abs(r[i + 1].z - r[i].z) + ZTravel(r, i + 1) else 0.0
  }

  /**
   * Seen from above, the 3D route is the 2D route of the projected anchors;
   * its first leg stays at node1's depth, and its depth moves monotonically
   * from a.z to b.z.
   */
  lemma Route3Shape(a: Point3, b: Point3, length: real)
    ensures var r := Route3(a, b, length);
      |r| == |Route2(Flat(a), Flat(b), length)|
      && (forall i | 0 <= i < |r| :: Flat(r[i]) == Route2(Flat(a), Flat(b), length)[i])
    ensures Route3(a, b, length)[1].z == a.z
    ensures ZTravel(Route3(a, b, length), 0) == Abs(b.z - a.z)
  {
    var r := Route3(a, b, length);
    var dz := b.z - a.z;
    assert ZTravel(r, |r| - 1) == 0.0;
    assert ZTravel(r, 2) == Abs(r[3].z - r[2].z) + ZTravel(r, 3);
    assert ZTravel(r, 1) == Abs(r[2].z - r[1].z) + ZTravel(r, 2);
    assert ZTravel(r, 0) == Abs(r[1].z - r[0].z) + ZTravel(r, 1);
  }

  /**
   * The depths of the waypoints: node1's depth on the first waypoint after
   * the start, then 0.3 and 0.5 of the way on a long route, or 0.5 of the
   * way on a short one, before the last leg drops to node2's depth.
   */
  lemma Route3Depths(a: Point3, b: Point3, length: real)
    ensures var r, dz := Route3(a, b, length), b.z - a.z;
      && r[1].z == a.z
      && (length > LongRoute ==> r[2].z == a.z + dz * 0.3 && r[3].z == a.z + dz * 0.5)
      && (length <= LongRoute ==> r[2].z == a.z + dz * 0.5)
  {
  }

  /**
   * The first leg of a 3D route has zero length exactly when the anchors
   * differ at most in depth.
   */
  lemma Route3FirstLegDegenerate(a: Point3, b: Point3, length: real)
    ensures Route3(a, b, length)[0] == Route3(a, b, length)[1] <==> a.x == b.x && a.y == b.y
  {
  }
}
