/**
 * The effect of the 2D `CircuitBackground` component: it sizes the canvas,
 * builds the nodes, edges and signals, and runs the animation loop. Each
 * frame advances the global pulse phase and the scroll offset, updates every
 * node and signal once, and paints the whole pattern once or twice: at the
 * scroll offset, and one canvas height above it while the scroll offset is
 * positive, so that the pattern wraps around seamlessly.
 */
module Canvas2D {
  import opened Js
  import opened Geometry
  import opened Route
  import opened ArcLength
  import opened Colour
  import opened Motion
  import opened Topology
  import opened Circuit2D

  /** The viewport sizes `resizeCanvas` reads: the document element's client size and the window's inner size. */
  datatype Screen = Screen(clientWidth: real, clientHeight: real, innerWidth: real, innerHeight: real)

  /**
   * The draws `initNodes` takes, keyed by cluster or by node index: a
   * cluster's centre and radius; a clustered node's angle and distance from
   * the centre; a scattered node's position; every node's float offset and
   * the draws of its constructor.
   */
  datatype NodeSource = NodeSource(
    cluster: nat -> (real, real, real),
    polar: nat -> (real, real),
    scatter: nat -> (real, real),
    offset: nat -> real,
    node: nat -> NodeDraws)

  ghost predicate PlausibleSource(src: NodeSource) {
    && (forall c: nat :: UnitDraw(src.cluster(c).0) && UnitDraw(src.cluster(c).1) && UnitDraw(src.cluster(c).2))
    && (forall k: nat :: UnitDraw(src.polar(k).0) && UnitDraw(src.polar(k).1))
    && (forall k: nat :: UnitDraw(src.scatter(k).0) && UnitDraw(src.scatter(k).1))
    && (forall k: nat :: UnitDraw(src.offset(k)) && PlausibleNode(src.node(k)))
  }

  /** A clustered node is kept 20 pixels inside the canvas (on a canvas at least 40 pixels across). */
  predicate InMargin(width: real, height: real, p: Point2) {
    && 20.0 <= p.x && (width >= 40.0 ==> p.x <= width - 20.0)
    && 20.0 <= p.y && (height >= 40.0 ==> p.y <= height - 20.0)
  }

  /** A scattered node lies on the canvas. */
  predicate OnCanvas(width: real, height: real, p: Point2) {
    0.0 <= p.x <= width && 0.0 <= p.y <= height
  }

  /** The anchors of a list of nodes. */
  function Anchors(nodes: seq<Node>): (ps: seq<Point2>)
    ensures |ps| == |nodes|
    ensures forall k | 0 <= k < |nodes| :: ps[k] == Anchor(nodes[k])
  {
    seq(|nodes|, k requires 0 <= k < |nodes| => Anchor(nodes[k]))
  }

  /** The distance `initEdges` measures between nodes i and j: the norm of |dx| and |dy|. */
  function Separation(norm: Norm2, anchors: seq<Point2>): Distance {
    (i: nat, j: nat) =>
      if i < |anchors| && j < |anchors| then
        norm(Abs(anchors[j].x - anchors[i].x), Abs(anchors[j].y - anchors[i].y))
      else 0.0
  }

  /** Each edge's `active` flag, in order. */
  function ActiveFlags(edges: seq<Edge>): (fs: seq<bool>)
    ensures |fs| == |edges| && forall e | 0 <= e < |edges| :: fs[e] == edges[e].active
  {
    if edges == [] then [] else ActiveFlags(edges[..|edges| - 1]) + [edges[|edges| - 1].active]
  }

  /** The offsets the pattern is painted at: one height above the scroll offset while it is positive, then at it. */
  function DrawOffsets(verticalScroll: bool, scroll: real, height: real): (os: seq<real>)
    ensures 1 <= |os| <= 2 && os[|os| - 1] == scroll
  {
    if verticalScroll && scroll > 0.0 then [scroll - height, scroll] else [scroll]
  }

  /**
   * While the scroll offset lies in [0, height], the copies painted at the
   * offsets cover every row of the canvas: each copy spans one height below its offset.
   */
  lemma DrawOffsetsCover(verticalScroll: bool, scroll: real, height: real, row: real)
    requires 0.0 <= scroll <= height && 0.0 <= row < height
    requires verticalScroll || scroll == 0.0
    ensures exists i | 0 <= i < |DrawOffsets(verticalScroll, scroll, height)| ::
      DrawOffsets(verticalScroll, scroll, height)[i] <= row < DrawOffsets(verticalScroll, scroll, height)[i] + height
  {
    var os := DrawOffsets(verticalScroll, scroll, height);
    if row < scroll {
      assert os[0] <= row < os[0] + height;
    } else {
      assert os[|os| - 1] <= row < os[|os| - 1] + height;
    }
  }

  /** Once a shrink has left the scroll offset more than a height, the copies leave the top rows bare. */
  lemma DrawOffsetsGapAfterShrink()
    ensures var os := DrawOffsets(true, 600.1, 300.0);
      forall i | 0 <= i < |os| :: !(os[i] <= 0.0)
  {
  }

  /** What one copy of the pattern paints: the edges, then the signals, then the nodes. */
  datatype Pattern = Pattern(offset: real, strokes: seq<Stroke>, glows: seq<Option<Glow>>, dots: seq<Dot>)

  /** A node made by `initNodes`: its float offset kept beside it and in [0, 2*pi), its draws in range. */
  predicate Built(node: Node, offset: real)
    reads node
  {
    node.floatOffset == offset && 0.0 <= offset < TwoPi && node.Valid()
  }

  class Canvas {
    var width: real
    var height: real
    const opacity: real
    const speed: real
    const density: real
    const floating: bool
    const verticalScroll: bool
    var nodes: seq<Node>
    var edges: seq<Edge>
    var signals: seq<Signal>
    var floatOffsets: seq<real>
    var scrollOffset: real
    var globalPhase: real

    /**
     * Every node and every signal appears once, every route has at least two
     * points, every edge joins two of the nodes and every signal runs on one of the edges.
     */
    predicate Valid()
      reads this
    {
      Keyed(nodes, floatOffsets) && RoutesDrawable(edges) && Launchable(signals) && Wired(nodes, edges, signals)
    }

    /**
     * What `initNodes` leaves: as many nodes as the clusters hold plus the
     * scattered ones, each built with its float offset beside it and appearing
     * once, the clustered ones 20 pixels inside the canvas and the scattered
     * ones on it.
     */
    predicate NodesLaidOut()
      reads this`width, this`height, this`nodes, this`floatOffsets, nodes
    {
      var n := NodeCount(width, height, density);
      && |nodes| == |floatOffsets| == Clustered(n) + Scattered(n)
      && (forall k | 0 <= k < |nodes| :: Built(nodes[k], floatOffsets[k]))
      && Keyed(nodes, floatOffsets)
      && (forall k | 0 <= k < Clustered(n) :: InMargin(width, height, Anchor(nodes[k])))
      && (width >= 0.0 && height >= 0.0 ==> forall k | Clustered(n) <= k < |nodes| :: OnCanvas(width, height, Anchor(nodes[k])))
    }

    /**
     * What `initEdges` leaves: an edge for every pair `SelectEdges` picks over
     * the nodes, in order, joining those two nodes and active as its draw
     * says, on a route of at least two points.
     */
    ghost predicate EdgesSelected(norm: Norm2, draws: EdgeDraws, active: nat -> real)
      reads this`nodes, this`edges
    {
      var pairs := EdgePairsUpTo(Separation(norm, Anchors(nodes)), draws, |nodes|, |nodes|);
      && |edges| == |pairs|
      && (forall e | 0 <= e < |edges| ::
            && pairs[e].0 < pairs[e].1 < |nodes|
            && Joins(edges[e], nodes[pairs[e].0], nodes[pairs[e].1], active(e)))
      && (forall e | 0 <= e < |edges| :: Drawable(edges[e], norm))
      && RoutesDrawable(edges)
    }

    /** What `initSignals` leaves: one signal for each active edge, in order, started as `Started` says. */
    predicate SignalsStarted()
      reads this`edges, this`signals, signals
    {
      && |signals| == |TrueIndices(ActiveFlags(edges))|
      && (forall k | 0 <= k < |signals| :: Started(signals[k], edges, TrueIndices(ActiveFlags(edges))[k], speed))
      && Launchable(signals)
    }

    /** What `initNodes(); initEdges(); initSignals();` leave, which keeps the effect valid. */
    ghost predicate Populated(norm: Norm2, draws: EdgeDraws, active: nat -> real)
      reads this, nodes, signals
    {
      NodesLaidOut() && EdgesSelected(norm, draws, active) && SignalsStarted() && Valid()
    }

    /**
     * The copy `drawPattern(offset)` paints in the given colours: each edge's
     * traced stroke, each signal's glow, and each node's dot, in order.
     */
    predicate PatternAt(p: Pattern, offset: real, norm: Norm2, trig: Trig, colours: ThemeColours)
      requires Valid()
      reads this, nodes, signals
    {
      && p.offset == offset && |p.strokes| == |edges| && |p.glows| == |signals| && |p.dots| == |nodes|
      && (forall e | 0 <= e < |edges| :: Traced(p.strokes[e], edges[e], offset, colours.edge))
      && (forall k | 0 <= k < |signals| ::
            Glows(p.glows[k], signals[k], norm, trig, opacity, globalPhase, offset, colours.signal))
      && (forall k | 0 <= k < |nodes| :: p.dots[k] == nodes[k].Look(opacity, globalPhase, offset, colours.node, trig))
    }

    /** A frame of `animate`: the copy painted at each of the draw offsets, in order. */
    predicate Framed(frame: seq<Pattern>, norm: Norm2, trig: Trig, colours: ThemeColours)
      requires Valid()
      reads this, nodes, signals
    {
      var os := DrawOffsets(verticalScroll, scrollOffset, height);
      && |frame| == |os|
      && forall i | 0 <= i < |frame| :: PatternAt(frame[i], os[i], norm, trig, colours)
    }

    /** The effect's set-up: size the canvas, then make the nodes, the edges and the signals. */
    constructor (opacity: real, speed: real, density: real, floating: bool, verticalScroll: bool,
                 screen: Screen, norm: Norm2, trig: Trig, src: NodeSource, draws: EdgeDraws, active: nat -> real)
      requires PlausibleSource(src) && Plausible(draws)
      ensures this.opacity == opacity && this.speed == speed && this.density == density
      ensures this.floating == floating && this.verticalScroll == verticalScroll
      ensures width == if screen.clientWidth != 0.0 then screen.clientWidth else screen.innerWidth
      ensures height == if screen.clientHeight != 0.0 then screen.clientHeight else screen.innerHeight
      ensures scrollOffset == 0.0 && globalPhase == 0.0
      ensures Populated(norm, draws, active)
      ensures forall k | 0 <= k < |nodes| :: fresh(nodes[k])
      ensures forall e | 0 <= e < |edges| :: fresh(edges[e])
      ensures forall k | 0 <= k < |signals| :: fresh(signals[k])
    {
      this.opacity, this.speed, this.density := opacity, speed, density;
      this.floating, this.verticalScroll := floating, verticalScroll;
      nodes, edges, signals, floatOffsets := [], [], [], [];
      scrollOffset, globalPhase := 0.0, 0.0;
      new;
      Resize(screen);
      ghost var start := (scrollOffset, globalPhase);
      Populate(norm, trig, src, draws, active);
      assert (scrollOffset, globalPhase) == start;
    }

    /** `initNodes(); initEdges(); initSignals();` */
    method Populate(norm: Norm2, trig: Trig, src: NodeSource, draws: EdgeDraws, active: nat -> real)
      requires PlausibleSource(src) && Plausible(draws)
      modifies this`nodes, this`edges, this`signals, this`floatOffsets
      ensures Populated(norm, draws, active)
      ensures forall k | 0 <= k < |nodes| :: fresh(nodes[k])
      ensures forall e | 0 <= e < |edges| :: fresh(edges[e])
      ensures forall k | 0 <= k < |signals| :: fresh(signals[k])
    {
      InitNodes(trig, src);
      assert Keyed(nodes, floatOffsets);
      InitEdges(norm, draws, active);
      assert RoutesDrawable(edges);
      InitSignals();
      assert Launchable(signals);
    }

    /** `resizeCanvas`: the client size, or the window's inner size where the client size is 0. */
    method Resize(screen: Screen)
      modifies this`width, this`height
      ensures width == if screen.clientWidth != 0.0 then screen.clientWidth else screen.innerWidth
      ensures height == if screen.clientHeight != 0.0 then screen.clientHeight else screen.innerHeight
    {
      width := if screen.clientWidth != 0.0 then screen.clientWidth else screen.innerWidth;
      height := if screen.clientHeight != 0.0 then screen.clientHeight else screen.innerHeight;
    }

    /**
     * `initNodes`: the clusters, with the corrected sizes, then the scattered
     * nodes; the float offsets are kept beside the nodes.
     */
    method InitNodes(trig: Trig, src: NodeSource)
      requires PlausibleSource(src)
      modifies this`nodes, this`floatOffsets
      ensures NodesLaidOut() && forall k | 0 <= k < |nodes| :: fresh(nodes[k])
    {
      var n := NodeCount(width, height, density);
      var made: seq<Node> := [];
      var offsets: seq<real> := [];
      if ClusterCount(n) > 0 {
        made, offsets := MakeClusters(n, trig, src);
      }
      made, offsets := MakeScattered(n, made, offsets, src);
      nodes, floatOffsets := made, offsets;
    }

    /** The cluster loop of `initNodes`. */
    method MakeClusters(n: int, trig: Trig, src: NodeSource) returns (made: seq<Node>, offsets: seq<real>)
      requires PlausibleSource(src) && ClusterCount(n) > 0
      ensures |made| == |offsets| == n
      ensures forall k | 0 <= k < |made| :: fresh(made[k]) && Built(made[k], offsets[k])
      ensures forall i, j | 0 <= i < j < |made| :: made[i] != made[j]
      ensures forall k | 0 <= k < |made| :: InMargin(width, height, Anchor(made[k]))
    {
      var sizes := ClusterSizes(n);
      ClusterSizesTotal(n);
      made, offsets := [], [];
      var cluster := 0;
      while cluster < |sizes|
        invariant 0 <= cluster <= |sizes|
        invariant |made| == |offsets| == Made(sizes[..cluster])
        invariant forall k | 0 <= k < |made| :: fresh(made[k]) && Built(made[k], offsets[k])
        invariant forall i, j | 0 <= i < j < |made| :: made[i] != made[j]
        invariant forall k | 0 <= k < |made| :: InMargin(width, height, Anchor(made[k]))
      {
        var centre := src.cluster(cluster);
        var clusterX, clusterY := centre.0 * width, centre.1 * height;
        var clusterRadius := 80.0 + centre.2 * 120.0;
        var before := |made|;
        var i := 0;
        while i < sizes[cluster]
          invariant 0 <= i <= sizes[cluster] && |made| == |offsets| == before + i
          invariant forall k | 0 <= k < |made| :: fresh(made[k]) && Built(made[k], offsets[k])
          invariant forall i, j | 0 <= i < j < |made| :: made[i] != made[j]
          invariant forall k | 0 <= k < |made| :: InMargin(width, height, Anchor(made[k]))
        {
          var k := |made|;
          var angle := src.polar(k).0 * TwoPi;
          var radius := src.polar(k).1 * clusterRadius;
          var x := clusterX + trig.cos(angle) * radius;
          var y := clusterY + trig.sin(angle) * radius;
          var node, floatOffset := MakeNode(Clamp(20.0, width - 20.0, x), Clamp(20.0, height - 20.0, y), k, src);
          made, offsets := made + [node], offsets + [floatOffset];
          i := i + 1;
        }
        MadeSnoc(sizes, cluster);
        cluster := cluster + 1;
      }
      assert sizes[..|sizes|] == sizes;
    }

    /** The scattered loop of `initNodes`, after the clusters. */
    method MakeScattered(n: int, made0: seq<Node>, offsets0: seq<real>, src: NodeSource)
      returns (made: seq<Node>, offsets: seq<real>)
      requires PlausibleSource(src) && |made0| == |offsets0|
      requires forall i, j | 0 <= i < j < |made0| :: made0[i] != made0[j]
      ensures |made| == |offsets| == |made0| + Scattered(n)
      ensures made[..|made0|] == made0 && offsets[..|made0|] == offsets0
      ensures forall k | |made0| <= k < |made| :: fresh(made[k]) && Built(made[k], offsets[k])
      ensures forall i, j | 0 <= i < j < |made| :: made[i] != made[j]
      ensures width >= 0.0 && height >= 0.0 ==>
        forall k | |made0| <= k < |made| :: OnCanvas(width, height, Anchor(made[k]))
    {
      made, offsets := made0, offsets0;
      var i := 0;
      while i < ScatteredCount(n)
        invariant 0 <= i <= Scattered(n) && |made| == |offsets| == |made0| + i
        invariant made[..|made0|] == made0 && offsets[..|made0|] == offsets0
        invariant forall k | |made0| <= k < |made| :: fresh(made[k]) && Built(made[k], offsets[k])
        invariant forall i, j | 0 <= i < j < |made| :: made[i] != made[j]
        invariant width >= 0.0 && height >= 0.0 ==>
          forall k | |made0| <= k < |made| :: OnCanvas(width, height, Anchor(made[k]))
      {
        var node, floatOffset := ScatterNode(|made|, src);
        made, offsets := made + [node], offsets + [floatOffset];
        i := i + 1;
      }
    }

    /** A scattered node: at a random point of the canvas. */
    method ScatterNode(k: nat, src: NodeSource) returns (node: Node, floatOffset: real)
      requires PlausibleSource(src)
      ensures fresh(node) && Built(node, floatOffset)
      ensures Anchor(node) == Point2(RandomScale(src.scatter(k).0, width), RandomScale(src.scatter(k).1, height))
      ensures width >= 0.0 && height >= 0.0 ==> OnCanvas(width, height, Anchor(node))
    {
      node, floatOffset := MakeNode(RandomScale(src.scatter(k).0, width), RandomScale(src.scatter(k).1, height), k, src);
    }

    /** One node: its float offset, then `new Node(x, y, floatOffset)`. */
    static method MakeNode(x: real, y: real, k: nat, src: NodeSource) returns (node: Node, floatOffset: real)
      requires PlausibleSource(src)
      ensures fresh(node) && Built(node, floatOffset)
      ensures Anchor(node) == Point2(x, y) && floatOffset == RandomScale(src.offset(k), TwoPi)
    {
      floatOffset := RandomScale(src.offset(k), TwoPi);
      node := new Node(x, y, floatOffset, src.node(k));
    }

    /**
     * `initEdges`: an edge for every pair `SelectEdges` picks, in order, each
     * active when its draw exceeds 0.7.
     */
    method InitEdges(norm: Norm2, draws: EdgeDraws, active: nat -> real)
      requires Plausible(draws)
      modifies this`edges
      ensures EdgesSelected(norm, draws, active) && forall e | 0 <= e < |edges| :: fresh(edges[e])
    {
      var distance := Separation(norm, Anchors(nodes));
      var pairs := SelectEdges(distance, draws, |nodes|);
      EdgePairsInBand(distance, draws, |nodes|, |nodes|);
      edges := MakeEdges(norm, pairs, active);
    }

    /** The edge loop of `initEdges`, over pairs of nodes whose separation is within the band. */
    method MakeEdges(norm: Norm2, pairs: seq<(nat, nat)>, active: nat -> real) returns (made: seq<Edge>)
      requires PairsInBand(Separation(norm, Anchors(nodes)), pairs, |nodes|, |nodes|)
      ensures |made| == |pairs|
      ensures forall e | 0 <= e < |made| :: fresh(made[e]) && Joins(made[e], nodes[pairs[e].0], nodes[pairs[e].1], active(e))
      ensures forall e | 0 <= e < |made| :: Drawable(made[e], norm)
    {
      made := [];
      for e := 0 to |pairs|
        invariant |made| == e
        invariant forall f | 0 <= f < e ::
          fresh(made[f]) && Joins(made[f], nodes[pairs[f].0], nodes[pairs[f].1], active(f)) && Drawable(made[f], norm)
      {
        var i, j := pairs[e].0, pairs[e].1;
        assert InBand(Separation(norm, Anchors(nodes))(i, j));
        SeparationOf(norm, nodes, i, j);
        var edge := MakeEdge(norm, nodes[i], nodes[j], active(e));
        made := made + [edge];
      }
    }

    /** One edge: `new Edge(node1, node2)`, whose route is never a single point. */
    static method MakeEdge(norm: Norm2, a: Node, b: Node, activeDraw: real) returns (edge: Edge)
      requires InBand(norm(Abs(Anchor(b).x - Anchor(a).x), Abs(Anchor(b).y - Anchor(a).y)))
      ensures fresh(edge) && Joins(edge, a, b, activeDraw) && Drawable(edge, norm)
    {
      edge := new Edge(a, b, norm, activeDraw);
      if Norm2Like(norm) {
        BandedAnchorsDiffer(norm, Anchor(a), Anchor(b));
        RouteFirstLeg(Anchor(a), Anchor(b), edge.length);
      }
    }

    /** `initSignals`: a signal for every active edge, started at a tenth of the edge's index. */
    method InitSignals()
      requires RoutesDrawable(edges)
      modifies this`signals
      ensures SignalsStarted() && forall k | 0 <= k < |signals| :: fresh(signals[k])
    {
      var flags := ActiveFlags(edges);
      var made: seq<Signal> := [];
      for e := 0 to |edges|
        invariant Starting(made, edges, flags, e, speed)
        invariant forall k | 0 <= k < |made| :: fresh(made[k])
      {
        made := StartNext(flags, e, made);
      }
      signals := made;
    }

    /** One turn of the loop of `initSignals`: a signal for edge e when it is active. */
    method StartNext(flags: seq<bool>, e: nat, made: seq<Signal>) returns (next: seq<Signal>)
      requires flags == ActiveFlags(edges) && e < |edges|
      requires Starting(made, edges, flags, e, speed)
      ensures Starting(next, edges, flags, e + 1, speed)
      ensures forall k | 0 <= k < |next| :: next[k] in made || fresh(next[k])
    {
      TrueUpToSpec(flags, e);
      assert TrueUpTo(flags, e + 1) == TrueUpTo(flags, e) + (if flags[e] then [e] else []);
      next := made;
      if edges[e].active {
        var signal := new Signal(edges[e], speed, e as real * 0.1);
        next := made + [signal];
      }
    }

    /** `node.update` for every node, in order. */
    method UpdateNodes(trig: Trig)
      requires Valid()
      modifies nodes
      ensures forall k | 0 <= k < |nodes| ::
        nodes[k].State() == nodes[k].Next(old(nodes[k].State()), floating, globalPhase, speed, trig)
    {
      for i := 0 to |nodes|
        invariant forall k | 0 <= k < i ::
          nodes[k].State() == nodes[k].Next(old(nodes[k].State()), floating, globalPhase, speed, trig)
        invariant forall k | i <= k < |nodes| :: nodes[k].State() == old(nodes[k].State())
      {
        nodes[i].Update(floating, globalPhase, speed, trig);
      }
    }

    /** `signal.update` for every signal, in order. */
    method UpdateSignals()
      requires Valid()
      modifies signals
      ensures forall k | 0 <= k < |signals| :: signals[k].Now() == PingPong(old(signals[k].Now()), signals[k].speed)
    {
      for i := 0 to |signals|
        invariant forall k | 0 <= k < i :: signals[k].Now() == PingPong(old(signals[k].Now()), signals[k].speed)
        invariant forall k | i <= k < |signals| :: signals[k].Now() == old(signals[k].Now())
      {
        signals[i].Update();
      }
    }

    /** The edge part of `drawPattern`. */
    method DrawEdges(trig: Trig, offset: real, colour: string) returns (strokes: seq<Stroke>)
      ensures |strokes| == |edges|
      ensures forall e | 0 <= e < |edges| :: Traced(strokes[e], edges[e], offset, colour)
    {
      strokes := [];
      for e := 0 to |edges|
        invariant |strokes| == e
        invariant forall f | 0 <= f < e :: Traced(strokes[f], edges[f], offset, colour)
      {
        var s := edges[e].Draw(opacity, globalPhase, offset, colour, trig);
        assert Traced(s, edges[e], offset, colour);
        strokes := strokes + [s];
      }
    }

    /** The signal part of `drawPattern`: a glow for each signal on an active edge. */
    method DrawSignals(norm: Norm2, trig: Trig, offset: real, colour: string) returns (glows: seq<Option<Glow>>)
      requires forall k | 0 <= k < |signals| :: |signals[k].edge.pathPoints| >= 2
      ensures |glows| == |signals|
      ensures forall k | 0 <= k < |signals| :: Glows(glows[k], signals[k], norm, trig, opacity, globalPhase, offset, colour)
      ensures forall k | 0 <= k < |signals| :: glows[k].Some? <==> signals[k].edge.active
    {
      glows := [];
      for k := 0 to |signals|
        invariant |glows| == k
        invariant forall j | 0 <= j < k :: Glows(glows[j], signals[j], norm, trig, opacity, globalPhase, offset, colour)
      {
        var g := signals[k].Draw(norm, trig, opacity, globalPhase, offset, colour);
        glows := glows + [g];
      }
    }

    /** The node part of `drawPattern`. */
    method DrawNodes(trig: Trig, offset: real, colour: string) returns (dots: seq<Dot>)
      ensures |dots| == |nodes|
      ensures forall k | 0 <= k < |nodes| :: dots[k] == nodes[k].Look(opacity, globalPhase, offset, colour, trig)
    {
      dots := [];
      for k := 0 to |nodes|
        invariant |dots| == k
        invariant forall j | 0 <= j < k :: dots[j] == nodes[j].Look(opacity, globalPhase, offset, colour, trig)
      {
        dots := dots + [nodes[k].Look(opacity, globalPhase, offset, colour, trig)];
      }
    }

    /** `drawPattern(offset)`: the edges, then the signals, then the nodes, painted at the offset. */
    method DrawPattern(norm: Norm2, trig: Trig, offset: real, colours: ThemeColours) returns (p: Pattern)
      requires Valid()
      ensures PatternAt(p, offset, norm, trig, colours)
    {
      var strokes := DrawEdges(trig, offset, colours.edge);
      var glows := DrawSignals(norm, trig, offset, colours.signal);
      var dots := DrawNodes(trig, offset, colours.node);
      p := Pattern(offset, strokes, glows, dots);
    }

    /** The state advance of `animate`: the pulse phase, and the scroll offset when scrolling vertically. */
    method Advance()
      modifies this`globalPhase, this`scrollOffset
      ensures globalPhase == AdvancePhase(old(globalPhase), 0.015 * speed)
      ensures scrollOffset == if verticalScroll then AdvanceScroll(old(scrollOffset), height, 0.2 * speed) else old(scrollOffset)
    {
      globalPhase := globalPhase + 0.015 * speed;
      if globalPhase >= TwoPi {
        globalPhase := globalPhase - TwoPi;
      }
      if verticalScroll {
        scrollOffset := scrollOffset + 0.2 * speed;
        if scrollOffset > height {
          scrollOffset := scrollOffset - height;
        }
      }
    }

    /** The painting of `animate`: the pattern at each of the draw offsets. */
    method Paint(norm: Norm2, trig: Trig, colours: ThemeColours) returns (frame: seq<Pattern>)
      requires Valid()
      ensures Framed(frame, norm, trig, colours)
    {
      if verticalScroll && scrollOffset > 0.0 {
        var above := DrawPattern(norm, trig, scrollOffset - height, colours);
        var main := DrawPattern(norm, trig, scrollOffset, colours);
        frame := [above, main];
        assert DrawOffsets(verticalScroll, scrollOffset, height) == [scrollOffset - height, scrollOffset];
      } else {
        var main := DrawPattern(norm, trig, scrollOffset, colours);
        frame := [main];
        assert DrawOffsets(verticalScroll, scrollOffset, height) == [scrollOffset];
      }
    }

    /**
     * One frame of `animate`: advance the pulse phase and the scroll offset,
     * update the nodes and the signals, read the theme colours, and paint the
     * pattern at each of the draw offsets.
     */
    method Animate(norm: Norm2, trig: Trig, nodeProperty: string, edgeProperty: string, signalProperty: string)
      returns (frame: seq<Pattern>)
      requires Valid()
      modifies this`globalPhase, this`scrollOffset, nodes, signals
      ensures Valid()
      ensures globalPhase == AdvancePhase(old(globalPhase), 0.015 * speed)
      ensures scrollOffset == if verticalScroll then AdvanceScroll(old(scrollOffset), height, 0.2 * speed) else old(scrollOffset)
      ensures forall k | 0 <= k < |nodes| ::
        nodes[k].State() == nodes[k].Next(old(nodes[k].State()), floating, globalPhase, speed, trig)
      ensures forall k | 0 <= k < |signals| :: signals[k].Now() == PingPong(old(signals[k].Now()), signals[k].speed)
      ensures Framed(frame, norm, trig, GetThemeColours(nodeProperty, edgeProperty, signalProperty))
    {
      Advance();
      UpdateNodes(trig);
      UpdateSignals();
      assert forall k | 0 <= k < |nodes| ::
        nodes[k].State() == nodes[k].Next(old(nodes[k].State()), floating, globalPhase, speed, trig);
      assert forall k | 0 <= k < |signals| :: signals[k].Now() == PingPong(old(signals[k].Now()), signals[k].speed);
      var colours := GetThemeColours(nodeProperty, edgeProperty, signalProperty);
      frame := Paint(norm, trig, colours);
    }
  }

  lemma SeparationOf(norm: Norm2, nodes: seq<Node>, i: nat, j: nat)
    requires i < |nodes| && j < |nodes|
    ensures Separation(norm, Anchors(nodes))(i, j) ==
      norm(Abs(Anchor(nodes[j]).x - Anchor(nodes[i]).x), Abs(Anchor(nodes[j]).y - Anchor(nodes[i]).y))
  {
  }

  /** The stroke `Edge.draw` paints for an edge at a scroll offset: the traced polyline in the edge colour. */
  predicate Traced(s: Stroke, edge: Edge, offset: real, colour: string)
    reads edge.node1, edge.node2
  {
    && s.points == Polyline(edge.pathPoints, edge.node1.Position(offset), edge.node2.Position(offset),
                            edge.node1.x - edge.node1.baseX, offset)
    && s.style == NodeEdgeStyle(colour, s.opacity)
  }

  /** A route of at least two points, whose first two differ when the norm behaves like one. */
  ghost predicate Drawable(edge: Edge, norm: Norm2) {
    |edge.pathPoints| >= 2 && (Norm2Like(norm) ==> edge.pathPoints[0] != edge.pathPoints[1])
  }

  /** Each node appears once, with its float offset beside it. */
  predicate Keyed(nodes: seq<Node>, floatOffsets: seq<real>) {
    && |floatOffsets| == |nodes|
    && forall i, j | 0 <= i < j < |nodes| :: nodes[i] != nodes[j]
  }

  /** Each signal appears once, on a route of at least two points. */
  predicate Launchable(signals: seq<Signal>) {
    && (forall i, j | 0 <= i < j < |signals| :: signals[i] != signals[j])
    && (forall k | 0 <= k < |signals| :: |signals[k].edge.pathPoints| >= 2)
  }

  /** A signal `initSignals` made for edge number e: on that edge, started at a tenth of e, at rest at the start, moving forward. */
  predicate Started(s: Signal, edges: seq<Edge>, e: nat, speedMultiplier: real)
    reads s
  {
    && e < |edges| && s.edge == edges[e]
    && s.startTime == e as real * 0.1 && s.speed == 0.005 * speedMultiplier
    && s.Now() == Travel(0.0, Forward)
  }

  /** The signals made for the active edges among the first e, in order, each once. */
  predicate Starting(made: seq<Signal>, edges: seq<Edge>, flags: seq<bool>, e: nat, speedMultiplier: real)
    reads made
  {
    && e <= |flags|
    && |made| == |TrueUpTo(flags, e)|
    && (forall k | 0 <= k < |made| :: Started(made[k], edges, TrueUpTo(flags, e)[k], speedMultiplier))
    && (forall i, j | 0 <= i < j < |made| :: made[i] != made[j])
  }

  /** Every edge joins two of the nodes, and every signal runs on one of the edges. */
  predicate Wired(nodes: seq<Node>, edges: seq<Edge>, signals: seq<Signal>) {
    && (forall e | 0 <= e < |edges| :: edges[e].node1 in nodes && edges[e].node2 in nodes)
    && (forall k | 0 <= k < |signals| :: signals[k].edge in edges)
  }

  /** Every route has at least two points. */
  predicate RoutesDrawable(edges: seq<Edge>) {
    forall e | 0 <= e < |edges| :: |edges[e].pathPoints| >= 2
  }

  /** An edge made by `initEdges` between nodes a and b, active as its draw says (its route is the Edge constructor's). */
  predicate Joins(edge: Edge, a: Node, b: Node, activeDraw: real) {
    && edge.node1 == a && edge.node2 == b
    && edge.active == (activeDraw > 0.7)
  }

  /** Two anchors whose separation lies in the band [40, 250) are distinct. */
  lemma BandedAnchorsDiffer(norm: Norm2, a: Point2, b: Point2)
    requires Norm2Like(norm) && InBand(norm(Abs(b.x - a.x), Abs(b.y - a.y)))
    ensures a != b
  {
  }
}
