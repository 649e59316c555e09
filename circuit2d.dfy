/**
 * The three classes of the 2D canvas background: `Node` (a dot that floats
 * around its anchor and pulses with the global phase), `Edge` (a routed
 * connection between two nodes) and `Signal` (a glowing pulse that travels
 * back and forth along an active edge, with a fading trail behind it).
 *
 * Drawing is modelled by what it would paint: each draw call yields the
 * shapes, positions and colours it hands to the canvas.
 */
module Circuit2D {
  import opened Js
  import opened Geometry
  import opened Route
  import opened ArcLength
  import opened Colour
  import opened Motion

  /** A Math.random() draw. */
  predicate UnitDraw(r: real) {
    0.0 <= r < 1.0
  }

  /** The six draws of the `Node` constructor, in the order it takes them. */
  datatype NodeDraws = NodeDraws(radius: real, hollow: real, pulse: real, float: real, speed: real, amplitude: real)

  predicate PlausibleNode(d: NodeDraws) {
    UnitDraw(d.radius) && UnitDraw(d.hollow) && UnitDraw(d.pulse)
    && UnitDraw(d.float) && UnitDraw(d.speed) && UnitDraw(d.amplitude)
  }

  /** The part of a node that changes from frame to frame. */
  datatype NodeState = NodeState(x: real, y: real, pulsePhase: real, floatPhase: real)

  /** What a node paints: a circle, outlined when hollow and filled otherwise. */
  datatype Dot = Dot(centre: Point2, radius: real, opacity: real, style: Style, hollow: bool)

  class Node {
    const baseX: real
    const baseY: real
    const radius: real
    const isHollow: bool
    const floatSpeed: real
    const floatAmplitude: real
    const floatOffset: real
    var x: real
    var y: real
    var pulsePhase: real
    var floatPhase: real

    function State(): NodeState
      reads this
    {
      NodeState(x, y, pulsePhase, floatPhase)
    }

    /** The ranges the constructor's draws put a node in, and the float phase kept in [0, 2*pi). */
    predicate Valid()
      reads this
    {
      && 2.0 <= radius < 5.0
      && 0.001 <= floatSpeed < 0.003
      && 5.0 <= floatAmplitude < 15.0
      && 0.0 <= floatPhase < TwoPi
    }

    constructor (x0: real, y0: real, offset: real, d: NodeDraws)
      ensures baseX == x0 && baseY == y0 && floatOffset == offset
      ensures State() == NodeState(x0, y0, d.pulse * TwoPi, d.float * TwoPi)
      ensures radius == d.radius * 3.0 + 2.0 && isHollow == (d.hollow > 0.6)
      ensures floatSpeed == 0.001 + d.speed * 0.002 && floatAmplitude == 5.0 + d.amplitude * 10.0
      ensures PlausibleNode(d) ==> Valid()
    {
      baseX, baseY := x0, y0;
      x, y := x0, y0;
      radius := d.radius * 3.0 + 2.0;
      isHollow := d.hollow > 0.6;
      pulsePhase := d.pulse * TwoPi;
      floatPhase := d.float * TwoPi;
      floatSpeed := 0.001 + d.speed * 0.002;
      floatAmplitude := 5.0 + d.amplitude * 10.0;
      floatOffset := offset;
    }

    /**
     * The state after `update(floatingEnabled, globalPhase)` under the speed
     * multiplier `speed`: the pulse follows the global phase; a floating node
     * advances its float phase and sits on a Lissajous-like offset from its
     * anchor, a still node sits on its anchor.
     */
    function Next(s: NodeState, floating: bool, globalPhase: real, speed: real, trig: Trig): NodeState {
      if floating then
        var phase := AdvancePhase(s.floatPhase, floatSpeed * speed);
        NodeState(Sway(baseX, trig.cos(phase * 0.7), floatAmplitude * 0.5),
                  Sway(baseY, trig.sin(phase), floatAmplitude),
                  globalPhase + floatOffset, phase)
      else
        NodeState(baseX, baseY, globalPhase + floatOffset, s.floatPhase)
    }

    method Update(floating: bool, globalPhase: real, speed: real, trig: Trig)
      modifies this
      ensures State() == Next(old(State()), floating, globalPhase, speed, trig)
    {
      pulsePhase := globalPhase + floatOffset;
      if floating {
        floatPhase := floatPhase + floatSpeed * speed;
        if floatPhase >= TwoPi {
          floatPhase := floatPhase - TwoPi;
        }
        y := Sway(baseY, trig.sin(floatPhase), floatAmplitude);
        x := Sway(baseX, trig.cos(floatPhase * 0.7), floatAmplitude * 0.5);
      } else {
        y := baseY;
        x := baseX;
      }
    }

    /** `getPosition(scrollOffset)`: the drawn position moved down by the scroll offset. */
    function Position(scroll: real): Point2
      reads this
    {
      Point2(x, y + scroll)
    }

    /**
     * `draw`: the circle at the node's position, its radius and opacity
     * pulsing with sin(globalPhase + floatOffset), coloured from the theme's node colour.
     */
    function Look(opacity: real, globalPhase: real, scroll: real, colour: string, trig: Trig): (d: Dot)
      reads this
      ensures d.centre == Position(scroll) && d.hollow == isHollow
      ensures d.style == NodeEdgeStyle(colour, d.opacity)
      ensures TrigBounded(trig) && opacity >= 0.0 ==> 0.2 * opacity <= d.opacity <= 0.8 * opacity
      ensures TrigBounded(trig) && radius >= 0.0 ==> 0.8 * radius <= d.radius <= 1.2 * radius
    {
      var pulse := trig.sin(globalPhase + floatOffset);
      var nodeOpacity := Pulsed(opacity, pulse, 0.5, 0.3);
      Dot(Position(scroll), Pulsed(radius, pulse, 1.0, 0.2), nodeOpacity, NodeEdgeStyle(colour, nodeOpacity), isHollow)
    }
  }

  /**
   * `v * (base + pulse * depth)`, the pulsing of an opacity, a radius or a
   * line width: for a pulse in [-1, 1] it stays between (base - depth) * v
   * and (base + depth) * v.
   */
  function Pulsed(v: real, pulse: real, base: real, depth: real): (r: real)
    ensures -1.0 <= pulse <= 1.0 && v >= 0.0 && depth >= 0.0 ==> (base - depth) * v <= r <= (base + depth) * v
  {
    PulsedBounds(v, pulse, base, depth);
    v * (base + pulse * depth)
  }

  lemma PulsedBounds(v: real, pulse: real, base: real, depth: real)
    ensures -1.0 <= pulse <= 1.0 && v >= 0.0 && depth >= 0.0 ==>
      (base - depth) * v <= v * (base + pulse * depth) <= (base + depth) * v
  {
    if -1.0 <= pulse <= 1.0 && v >= 0.0 && depth >= 0.0 {
      ProductNonNegative(1.0 + pulse, depth);
      ProductNonNegative(1.0 - pulse, depth);
      assert -depth <= pulse * depth <= depth;
      ProductNonNegative(v, pulse * depth + depth);
      ProductNonNegative(v, depth - pulse * depth);
      assert v * (base + pulse * depth) - (base - depth) * v == v * (pulse * depth + depth);
      assert (base + depth) * v - v * (base + pulse * depth) == v * (depth - pulse * depth);
    }
  }

  lemma ProductNonNegative(a: real, b: real)
    requires a >= 0.0 && b >= 0.0
    ensures a * b >= 0.0
  {
  }

  /** A floating node stays within half its amplitude of its anchor across, and its amplitude along the vertical. */
  lemma FloatWithinAmplitude(n: Node, s: NodeState, floating: bool, globalPhase: real, speed: real, trig: Trig)
    requires TrigBounded(trig) && n.floatAmplitude >= 0.0
    ensures var t := n.Next(s, floating, globalPhase, speed, trig);
      Abs(t.x - n.baseX) <= n.floatAmplitude * 0.5 && Abs(t.y - n.baseY) <= n.floatAmplitude
    ensures !floating ==> var t := n.Next(s, floating, globalPhase, speed, trig);
      t.x == n.baseX && t.y == n.baseY
  {
  }

  /** The float phase stays in [0, 2*pi) when one frame's step is at most a full turn. */
  lemma NextKeepsValid(n: Node, s: NodeState, floating: bool, globalPhase: real, speed: real, trig: Trig)
    requires 0.0 <= s.floatPhase < TwoPi && 0.0 <= n.floatSpeed * speed <= TwoPi
    ensures 0.0 <= n.Next(s, floating, globalPhase, speed, trig).floatPhase < TwoPi
  {
    if floating {
      AdvancePhaseInRange(s.floatPhase, n.floatSpeed * speed);
    }
  }

  /** A node's anchor, where its route starts or ends. */
  function Anchor(n: Node): Point2 {
    Point2(n.baseX, n.baseY)
  }

  /** p moved right by dx and down by dy. */
  function Shift(p: Point2, dx: real, dy: real): Point2 {
    Point2(p.x + dx, p.y + dy)
  }

  /** Every point of a path moved right by dx and down by dy. */
  function Shifted(path: seq<Point2>, dx: real, dy: real): (t: seq<Point2>)
    ensures |t| == |path|
    ensures forall k | 0 <= k < |path| :: t[k] == Shift(path[k], dx, dy)
  {
    if path == [] then [] else Shifted(path[..|path| - 1], dx, dy) + [Shift(path[|path| - 1], dx, dy)]
  }

  /** A path moved down by dy. */
  function Translate(path: seq<Point2>, dy: real): (t: seq<Point2>)
    ensures |t| == |path|
    ensures forall k | 0 <= k < |path| :: t[k] == Shift(path[k], 0.0, dy)
  {
    Shifted(path, 0.0, dy)
  }

  /**
   * The polyline `Edge.draw` traces: from node1's position through the
   * waypoints after the first, each moved by node1's float offset across
   * and by the scroll offset down, to node2's position; a path without
   * waypoints is a straight line.
   */
  function Polyline(path: seq<Point2>, start: Point2, end: Point2, dx: real, scroll: real): (ps: seq<Point2>)
    ensures |ps| == if path == [] then 2 else |path| + 1
    ensures ps[0] == start && ps[|ps| - 1] == end
    ensures forall k | 0 < k < |ps| - 1 :: ps[k] == Shift(path[k], dx, scroll)
  {
    if |path| <= 1 then [start, end]
    else Polyline(path[..|path| - 1], start, Shift(path[|path| - 1], dx, scroll), dx, scroll) + [end]
  }

  /** What an edge paints: a polyline stroked with a pulsing opacity and width. */
  datatype Stroke = Stroke(points: seq<Point2>, opacity: real, width: real, style: Style)

  class Edge {
    const node1: Node
    const node2: Node
    const length: real
    const active: bool
    const pathPoints: seq<Point2>

    constructor (n1: Node, n2: Node, norm: Norm2, activeDraw: real)
      ensures node1 == n1 && node2 == n2
      ensures length == Distance2(norm, Anchor(n1), Anchor(n2))
      ensures active == (activeDraw > 0.7)
      ensures pathPoints == Route2(Anchor(n1), Anchor(n2), length)
    {
      var len := Distance2(norm, Anchor(n1), Anchor(n2));
      node1, node2 := n1, n2;
      length := len;
      active := activeDraw > 0.7;
      pathPoints := Route2(Anchor(n1), Anchor(n2), len);
    }

    /** `draw`: the traced polyline, with opacity and width pulsing with sin(globalPhase). */
    method Draw(opacity: real, globalPhase: real, scroll: real, colour: string, trig: Trig) returns (s: Stroke)
      ensures s.points == Polyline(pathPoints, node1.Position(scroll), node2.Position(scroll), node1.x - node1.baseX, scroll)
      ensures s.style == NodeEdgeStyle(colour, s.opacity)
      ensures s.opacity == Pulsed(opacity, trig.sin(globalPhase), 0.4, 0.2)
      ensures s.width == Pulsed(1.0, trig.sin(globalPhase), 1.0, 0.3)
    {
      var pulse := trig.sin(globalPhase);
      var edgeOpacity := Pulsed(opacity, pulse, 0.4, 0.2);
      var lineWidth := Pulsed(1.0, pulse, 1.0, 0.3);
      var points := Trace(pathPoints, node1.Position(scroll), node2.Position(scroll), node1.x - node1.baseX, scroll);
      s := Stroke(points, edgeOpacity, lineWidth, NodeEdgeStyle(colour, edgeOpacity));
    }
  }

  /** The path-drawing part of `Edge.draw`: moveTo the start, lineTo each later waypoint, lineTo the end. */
  method Trace(path: seq<Point2>, start: Point2, end: Point2, dx: real, scroll: real) returns (points: seq<Point2>)
    ensures points == Polyline(path, start, end, dx, scroll)
  {
    if |path| == 0 {
      return [start, end];
    }
    points := [start];
    for i := 1 to |path|
      invariant |points| == i && points[0] == start
      invariant forall k | 1 <= k < i :: points[k] == Shift(path[k], dx, scroll)
    {
      points := points + [Shift(path[i], dx, scroll)];
    }
    PolylineOf(points, path, start, end, dx, scroll);
    points := points + [end];
  }

  lemma PolylineOf(points: seq<Point2>, path: seq<Point2>, start: Point2, end: Point2, dx: real, scroll: real)
    requires |points| == |path| > 0 && points[0] == start
    requires forall k | 1 <= k < |path| :: points[k] == Shift(path[k], dx, scroll)
    ensures points + [end] == Polyline(path, start, end, dx, scroll)
  {
    var ps := Polyline(path, start, end, dx, scroll);
    forall k | 0 <= k < |ps|
      ensures (points + [end])[k] == ps[k]
    {
      if 0 < k < |path| {
        assert ps[k] == Shift(path[k], dx, scroll);
      }
    }
  }

  /**
   * With node1 on its anchor, the traced polyline is the route moved down by
   * the scroll offset; with node2 on its anchor too, the route's last point
   * is traced twice.
   */
  lemma PolylineAtRest(path: seq<Point2>, scroll: real)
    requires |path| >= 2
    ensures Polyline(path, Shift(path[0], 0.0, scroll), Shift(path[|path| - 1], 0.0, scroll), 0.0, scroll)
         == Translate(path, scroll) + [Shift(path[|path| - 1], 0.0, scroll)]
  {
  }

  /** Moving a path down keeps every leg horizontal or vertical. */
  lemma TranslateAxisAligned(path: seq<Point2>, dy: real)
    requires AxisAligned(path)
    ensures AxisAligned(Translate(path, dy))
  {
    var t := Translate(path, dy);
    forall i | 0 <= i < |t| - 1
      ensures t[i].x == t[i + 1].x || t[i].y == t[i + 1].y
    {
      assert t[i] == Shift(path[i], 0.0, dy) && t[i + 1] == Shift(path[i + 1], 0.0, dy);
    }
  }

  /** The point a locus names on a path moved by (dx, scroll); none when its fraction is not a finite number. */
  function PointAt(path: seq<Point2>, l: Locus, dx: real, scroll: real): Option<Point2>
    requires l.index + 1 < |path|
  {
    if l.fraction.Finite? then
      Some(Lerp2(Shift(path[l.index], dx, scroll), Shift(path[l.index + 1], dx, scroll), l.fraction.v))
    else None
  }

  /**
   * What a signal paints: the loci of its head and of the start of its
   * trail, the points they name (none when the canvas would get NaN), the
   * glow's radius and opacity, its colour and gradient alphas, and the trail's width.
   */
  datatype Glow = Glow(head: Locus, tail: Locus, centre: Option<Point2>, trailStart: Option<Point2>,
                       radius: real, opacity: real, colour: SignalColour, alphas: SignalAlphas, trailWidth: real)

  class Signal {
    const edge: Edge
    const speed: real
    const size: real
    const startTime: real
    var progress: real
    var direction: Direction

    function Now(): Travel
      reads this
    {
      Travel(progress, direction)
    }

    predicate Valid()
      reads this
    {
      0.0 <= progress <= 1.0
    }

    constructor (e: Edge, speedMultiplier: real, start: real)
      ensures edge == e && speed == 0.005 * speedMultiplier && size == 4.0 && startTime == start
      ensures Now() == Travel(0.0, Forward) && Valid()
    {
      edge := e;
      progress := 0.0;
      speed := 0.005 * speedMultiplier;
      size := 4.0;
      startTime := start;
      direction := Forward;
    }

    /** `update`: one ping-pong step; the progress stays in [0, 1]. */
    method Update()
      modifies this
      ensures Now() == PingPong(old(Now()), speed)
      ensures Valid()
    {
      progress := progress + Velocity(speed, direction);
      if progress >= 1.0 {
        progress := 1.0;
        direction := Backward;
      } else if progress <= 0.0 {
        progress := 0.0;
        direction := Forward;
      }
    }

    /**
     * `draw`: nothing for an inactive edge or an empty path; otherwise the
     * head at `progress` of the path's length and the trail start at
     * `max(0, progress - 0.15)` of it, both moved by node1's float offset and the scroll.
     */
    method Draw(norm: Norm2, trig: Trig, opacity: real, globalPhase: real, scroll: real, colour: string)
      returns (g: Option<Glow>)
      requires |edge.pathPoints| != 1
      ensures Glows(g, this, norm, trig, opacity, globalPhase, scroll, colour)
    {
      if !edge.active {
        return None;
      }
      var pulse := trig.sin(globalPhase);
      var signalOpacity := Pulsed(opacity, pulse, 1.0, 0.3);
      var signalSize := Pulsed(size, pulse, 1.0, 0.2);
      var path := edge.pathPoints;
      if |path| == 0 {
        return None;
      }
      var head, tail := PlaceOnPath(norm, path, progress);
      var dx := edge.node1.x - edge.node1.baseX;
      var sc := GetSignalColour(colour);
      g := Some(Glow(head, tail, PointAt(path, head, dx, scroll), PointAt(path, tail, dx, scroll),
                     signalSize, signalOpacity, sc, GetSignalAlphas(sc, signalOpacity), Pulsed(1.0, pulse, 2.0, 0.5)));
    }
  }

  /**
   * The glow `Signal.draw` paints for signal s: none on an inactive edge or an
   * empty path; otherwise the head at `progress` of the path's length and the
   * trail start at `max(0, progress - 0.15)` of it, both moved by node1's float
   * offset and the scroll, pulsing with the global phase in the signal colour.
   */
  predicate Glows(g: Option<Glow>, s: Signal, norm: Norm2, trig: Trig, opacity: real, globalPhase: real,
                  scroll: real, colour: string)
    reads s, s.edge.node1
  {
    && (g.None? <==> !s.edge.active || s.edge.pathPoints == [])
    && (g.Some? ==>
          var ls := Lengths2(norm, s.edge.pathPoints);
          && g.value.head == Locate(ls, HeadTarget(s.progress, Sum(ls)))
          && g.value.tail == Locate(ls, TrailTarget(s.progress, Sum(ls))))
    && (g.Some? ==>
          && g.value.head.index + 1 < |s.edge.pathPoints| && g.value.tail.index + 1 < |s.edge.pathPoints|
          && g.value.centre == PointAt(s.edge.pathPoints, g.value.head, s.edge.node1.x - s.edge.node1.baseX, scroll)
          && g.value.trailStart == PointAt(s.edge.pathPoints, g.value.tail, s.edge.node1.x - s.edge.node1.baseX, scroll))
    && (g.Some? ==>
          && g.value.opacity == Pulsed(opacity, trig.sin(globalPhase), 1.0, 0.3)
          && g.value.radius == Pulsed(s.size, trig.sin(globalPhase), 1.0, 0.2)
          && g.value.trailWidth == Pulsed(1.0, trig.sin(globalPhase), 2.0, 0.5))
    && (g.Some? ==>
          g.value.colour == GetSignalColour(colour) && g.value.alphas == GetSignalAlphas(g.value.colour, g.value.opacity))
  }

  /** The two walks of `Signal.draw`: the loci of the head and of the start of the trail. */
  method PlaceOnPath(norm: Norm2, path: seq<Point2>, progress: real) returns (head: Locus, tail: Locus)
    requires |path| >= 2
    ensures var ls := Lengths2(norm, path);
      head == Locate(ls, HeadTarget(progress, Sum(ls))) && tail == Locate(ls, TrailTarget(progress, Sum(ls)))
    ensures head.index + 1 < |path| && tail.index + 1 < |path|
  {
    var lengths, total := MeasurePath2(norm, path);
    var index, fraction := FindSegment(lengths, HeadTarget(progress, total));
    Locate_Index(lengths, HeadTarget(progress, total));
    head := Locus(index, fraction);
    var trailIndex, trailFraction := FindSegment(lengths, TrailTarget(progress, total));
    Locate_Index(lengths, TrailTarget(progress, total));
    tail := Locus(trailIndex, trailFraction);
  }

  /** The leg lengths of any path are non-negative. */
  lemma LengthsNonNegative(norm: Norm2, path: seq<Point2>)
    requires Norm2Like(norm)
    ensures NonNegative(Lengths2(norm, path))
  {
    var ls := Lengths2(norm, path);
    forall k | 0 <= k < |ls|
      ensures ls[k] >= 0.0
    {
      Distance2Zero(norm, path[k], path[k + 1]);
    }
  }

  /**
   * On a path whose first leg has length, a signal with progress in [0, 1]
   * is drawn exactly `progress` of the way along the path, on a segment of
   * positive length with a fraction in [0, 1], and its trail starts no
   * further along than its head.
   */
  lemma GlowOnPath(norm: Norm2, path: seq<Point2>, total: real, progress: real)
    requires Norm2Like(norm) && |path| >= 2 && path[0] != path[1] && 0.0 <= progress <= 1.0
    requires total == Sum(Lengths2(norm, path))
    ensures var ls := Lengths2(norm, path);
      var head := Locate(ls, HeadTarget(progress, total));
      var tail := Locate(ls, TrailTarget(progress, total));
      && head.index < |ls| && tail.index < |ls|
      && head.fraction.Finite? && tail.fraction.Finite?
      && Position(ls, head) == HeadTarget(progress, total)
      && Position(ls, tail) <= Position(ls, head)
  {
    LengthsNonNegative(norm, path);
    Distance2Zero(norm, path[0], path[1]);
    GlowOnLengths(Lengths2(norm, path), total, progress);
  }

  lemma GlowOnLengths(ls: seq<real>, total: real, progress: real)
    requires NonNegative(ls) && |ls| > 0 && ls[0] > 0.0 && total == Sum(ls) && 0.0 <= progress <= 1.0
    ensures var head := Locate(ls, HeadTarget(progress, total));
      var tail := Locate(ls, TrailTarget(progress, total));
      && head.index < |ls| && tail.index < |ls|
      && head.fraction.Finite? && tail.fraction.Finite?
      && Position(ls, head) == HeadTarget(progress, total)
      && Position(ls, tail) <= Position(ls, head)
  {
    FirstPositiveTotal(ls);
    TrailTargetsInRange(progress, total);
    PositionMonotone(ls, TrailTarget(progress, total), HeadTarget(progress, total));
    Locate_Spec(ls, HeadTarget(progress, total));
  }

  /**
   * The route of an edge between distinct anchors has a first leg of
   * positive length, so GlowOnPath applies to every signal on it: the 2D
   * lookup never divides 0 by 0.
   */
  lemma RouteFirstLeg(a: Point2, b: Point2, length: real)
    requires a != b
    ensures |Route2(a, b, length)| >= 2 && Route2(a, b, length)[0] != Route2(a, b, length)[1]
  {
    Route2EndLegs(a, b, length);
  }
}
