/**
 * The effect of the `CircuitBackground3D` component: it sets up an
 * orthographic camera, a renderer and a scene, fills the scene with nodes,
 * edges and signals, listens to scrolling and resizing, and runs the
 * animation loop; its cleanup disposes of everything it added.
 */
module Background3D {
  import opened Js
  import opened Geometry
  import opened Route
  import opened ArcLength
  import opened Colour
  import opened Motion
  import opened Topology
  import opened Circuit3D
  import C2 = Circuit2D

  /** `Math.PI` */
  const Pi: real := 3.141592653589793

  /**
   * The draws `initNodes` takes, keyed by cluster or by node index: a
   * cluster's centre and radius; a clustered node's azimuth, distance and
   * polar angle; a scattered node's position; every node's float offset and
   * the draws of its constructor.
   */
  datatype NodeSource3 = NodeSource3(
    cluster: nat -> (real, real, real, real),
    polar: nat -> (real, real, real),
    scatter: nat -> (real, real, real),
    offset: nat -> real,
    node: nat -> Node3Draws)

  ghost predicate PlausibleSource3(src: NodeSource3) {
    && (forall c: nat :: C2.UnitDraw(src.cluster(c).0) && C2.UnitDraw(src.cluster(c).1)
                        && C2.UnitDraw(src.cluster(c).2) && C2.UnitDraw(src.cluster(c).3))
    && (forall k: nat :: C2.UnitDraw(src.polar(k).0) && C2.UnitDraw(src.polar(k).1) && C2.UnitDraw(src.polar(k).2))
    && (forall k: nat :: C2.UnitDraw(src.scatter(k).0) && C2.UnitDraw(src.scatter(k).1) && C2.UnitDraw(src.scatter(k).2))
    && (forall k: nat :: C2.UnitDraw(src.offset(k)) && PlausibleNode3(src.node(k)))
  }

  /** The bounds of the orthographic camera. */
  datatype Camera = Camera(left: real, right: real, top: real, bottom: real)

  /** A camera centred on the origin that sees exactly a width by height rectangle. */
  function Frustum(width: real, height: real): (c: Camera)
    ensures c.right - c.left == width && c.top - c.bottom == height && c.left == -c.right && c.bottom == -c.top
  {
    Camera(-width / 2.0, width / 2.0, height / 2.0, -height / 2.0)
  }

  /** A clustered node is kept 20 units inside the view across and vertically, and within the depth. */
  predicate InBox(width: real, height: real, depth: real, p: Point3) {
    && -width / 2.0 + 20.0 <= p.x && (width >= 40.0 ==> p.x <= width / 2.0 - 20.0)
    && -height / 2.0 + 20.0 <= p.y && (height >= 40.0 ==> p.y <= height / 2.0 - 20.0)
    && -depth / 2.0 <= p.z && (depth >= 0.0 ==> p.z <= depth / 2.0)
  }

  /** A scattered node lies in the box the camera sees, within the depth. */
  predicate InVolume(width: real, height: real, depth: real, p: Point3) {
    && -width / 2.0 <= p.x <= width / 2.0
    && -height / 2.0 <= p.y <= height / 2.0
    && -depth / 2.0 <= p.z <= depth / 2.0
  }

  /** `(Math.random() - 0.5) * v`: for a draw in [0, 1) and v >= 0, a value in [-v/2, v/2]. */
  function Centred(r: real, v: real): (p: real)
    requires 0.0 <= r < 1.0
    ensures v >= 0.0 ==> -v / 2.0 <= p <= v / 2.0
  {
    CentredBounds(r, v);
    (r - 0.5) * v
  }

  lemma CentredBounds(r: real, v: real)
    requires 0.0 <= r < 1.0
    ensures v >= 0.0 ==> -v / 2.0 <= (r - 0.5) * v <= v / 2.0
  {
    if v >= 0.0 {
      assert (r - 0.5) * v + v / 2.0 == r * v;
      assert v / 2.0 - (r - 0.5) * v == (1.0 - r) * v;
    }
  }

  /** The mesh identities of nodes, edges and signals. */
  function NodeIds(ns: seq<Node3D>): set<nat> {
    if ns == [] then {} else NodeIds(ns[..|ns| - 1]) + {ns[|ns| - 1].meshId}
  }

  function EdgeIds(es: seq<Edge3D>): set<nat> {
    if es == [] then {} else EdgeIds(es[..|es| - 1]) + {es[|es| - 1].meshId}
  }

  function SignalIds(ss: seq<Signal3D>): set<nat> {
    if ss == [] then {} else SignalIds(ss[..|ss| - 1]) + {ss[|ss| - 1].meshId}
  }

  lemma NodeIdsSnoc(ns: seq<Node3D>, n: Node3D)
    ensures NodeIds(ns + [n]) == NodeIds(ns) + {n.meshId}
  {
    assert (ns + [n])[..|ns|] == ns;
  }

  lemma EdgeIdsSnoc(es: seq<Edge3D>, e: Edge3D)
    ensures EdgeIds(es + [e]) == EdgeIds(es) + {e.meshId}
  {
    assert (es + [e])[..|es|] == es;
  }

  lemma SignalIdsSnoc(ss: seq<Signal3D>, s: Signal3D)
    ensures SignalIds(ss + [s]) == SignalIds(ss) + {s.meshId}
  {
    assert (ss + [s])[..|ss|] == ss;
  }

  /**
   * A scene whose members are the given identities holds exactly the meshes
   * of the nodes, edges and signals, all of which belong to it, and each of
   * them appears once.
   */
  predicate Tracked(members: set<nat>, scene: Scene, nodes: seq<Node3D>, edges: seq<Edge3D>, signals: seq<Signal3D>)
  {
    && members == NodeIds(nodes) + EdgeIds(edges) + SignalIds(signals)
    && (forall k | 0 <= k < |nodes| :: nodes[k].scene == scene)
    && (forall k | 0 <= k < |edges| :: edges[k].scene == scene)
    && (forall k | 0 <= k < |signals| :: signals[k].scene == scene)
    && (forall i, j | 0 <= i < j < |nodes| :: nodes[i] != nodes[j])
    && (forall i, j | 0 <= i < j < |edges| :: edges[i] != edges[j])
    && (forall i, j | 0 <= i < j < |signals| :: signals[i] != signals[j])
  }

  /** A node after `update`, from the state it had before: moved, and its mesh redrawn where it now is. */
  predicate Renewed(node: Node3D, before: Node3State, floating: bool, globalPhase: real, speed: real,
                    opacity: real, scroll: real, colour: string, trig: Trig)
    reads node
  {
    && node.State() == node.Next(before, floating, globalPhase, speed, trig)
    && node.mesh == node.Look(opacity, globalPhase, scroll, colour, trig)
  }

  /** An edge after `update`: its vertex buffer follows its nodes, its opacity pulses, its colour is the theme's. */
  predicate Refreshed(edge: Edge3D, scroll: real, opacity: real, pulse: real, colour: string)
    reads edge, edge.node1, edge.node2
  {
    && edge.positions == edge.Buffer(scroll)
    && edge.opacity == C2.Pulsed(opacity, pulse, 0.4, 0.2)
    && edge.colour == ParseColour(colour)
  }

  /**
   * A signal after `update` and `draw`, from where it was before: moved one
   * ping-pong step, still within its edge, its sphere shown exactly when the
   * edge is active and placed as `Shown` says.
   */
  predicate Relocated(s: Signal3D, before: Travel, norm: Norm3, trig: Trig, globalPhase: real, opacity: real,
                      scroll: real, colour: string)
    reads s, s.edge.node1
  {
    && s.Now() == PingPong(before, s.speed) && s.Valid()
    && Shown(s, norm, trig, globalPhase, opacity, scroll, colour)
    && s.mesh.visible == s.edge.active
  }

  /** Every signal is within its edge, whose route has at least two points. */
  predicate OnRoutes(signals: seq<Signal3D>)
    reads signals
  {
    forall k | 0 <= k < |signals| :: signals[k].Valid() && |signals[k].edge.pathPoints| >= 2
  }

  /** A signal `initSignals` made for edge number e: on that edge, at the drawn start, moving forward. */
  predicate Launched(s: Signal3D, edge: Edge3D, e: nat, draw: real, speedMultiplier: real, scene: Scene)
    reads s
  {
    && s.edge == edge && s.startTime == e as real * 0.1 && s.speed == 0.005 * speedMultiplier
    && s.Now() == Travel(draw, Forward) && s.Valid() && s.scene == scene && |edge.pathPoints| >= 2
  }

  /** A signal `initSignals` made for the edge of index e. */
  predicate LaunchedOn(s: Signal3D, edges: seq<Edge3D>, e: nat, progress: nat -> real, speedMultiplier: real, scene: Scene)
    reads s
  {
    e < |edges| && Launched(s, edges[e], e, progress(e), speedMultiplier, scene)
  }

  /**
   * The signals made for the active edges among the first e, in order,
   * each once, the scene holding them on top of what it held before.
   */
  predicate Launching(made: seq<Signal3D>, edges: seq<Edge3D>, flags: seq<bool>, e: nat, progress: nat -> real,
                      speedMultiplier: real, scene: Scene, base: set<nat>)
    requires e <= |flags|
    reads made, scene
  {
    && |made| == |TrueUpTo(flags, e)|
    && (forall k | 0 <= k < |made| :: LaunchedOn(made[k], edges, TrueUpTo(flags, e)[k], progress, speedMultiplier, scene))
    && (forall i, j | 0 <= i < j < |made| :: made[i] != made[j])
    && scene.Valid() && scene.members == base + SignalIds(made)
  }

  /** A node made by `initNodes`: its draws in range, in the scene, not disposed. */
  predicate Built3(node: Node3D, scene: Scene)
    reads node
  {
    node.Valid() && node.scene == scene && !node.disposed
  }

  /** An edge made by `initEdges` between nodes a and b: active with the drawn chance, its route of at least two points, in the scene. */
  predicate Joins3(edge: Edge3D, a: Node3D, b: Node3D, activeDraw: real, scene: Scene) {
    && edge.node1 == a && edge.node2 == b
    && edge.active == (activeDraw > 0.7)
    && |edge.pathPoints| >= 2
    && edge.scene == scene
  }

  /** The anchors of a list of nodes. */
  function Anchors3(nodes: seq<Node3D>): (ps: seq<Point3>)
    ensures |ps| == |nodes|
    ensures forall k | 0 <= k < |nodes| :: ps[k] == Anchor3(nodes[k])
  {
    seq(|nodes|, k requires 0 <= k < |nodes| => Anchor3(nodes[k]))
  }

  /** The distance `initEdges` measures between nodes i and j: the norm of |dx|, |dy| and |dz|. */
  function Separation3(norm: Norm3, anchors: seq<Point3>): Distance {
    (i: nat, j: nat) =>
      if i < |anchors| && j < |anchors| then
        norm(Abs(anchors[j].x - anchors[i].x), Abs(anchors[j].y - anchors[i].y), Abs(anchors[j].z - anchors[i].z))
      else 0.0
  }

  /**
   * Where `initNodes` leaves the nodes: the clustered ones (as many as the
   * corrected cluster sizes add up to) kept inside the view, then the
   * scattered ones within the volume, each listed once.
   */
  predicate NodesPlaced(nodes: seq<Node3D>, width: real, height: real, depth: real, density: real) {
    var n := NodeCount(width, height, density);
    && |nodes| == Clustered(n) + Scattered(n)
    && (forall i, j | 0 <= i < j < |nodes| :: nodes[i] != nodes[j])
    && (forall k | 0 <= k < Clustered(n) :: InBox(width, height, depth, Anchor3(nodes[k])))
    && (width >= 0.0 && height >= 0.0 && depth >= 0.0 ==>
          forall k | Clustered(n) <= k < |nodes| :: InVolume(width, height, depth, Anchor3(nodes[k])))
  }

  /**
   * What `initEdges` leaves: an edge for every pair `SelectEdges` picks
   * under the 3D distance between the nodes, in order, joining those two
   * nodes, each listed once.
   */
  predicate EdgesSelected(nodes: seq<Node3D>, edges: seq<Edge3D>, scene: Scene, norm: Norm3, draws: EdgeDraws,
                          active: nat -> real)
  {
    var pairs := EdgePairsUpTo(Separation3(norm, Anchors3(nodes)), draws, |nodes|, |nodes|);
    && |edges| == |pairs|
    && (forall e | 0 <= e < |edges| ::
          && pairs[e].0 < pairs[e].1 < |nodes|
          && Joins3(edges[e], nodes[pairs[e].0], nodes[pairs[e].1], active(e), scene))
    && (forall i, j | 0 <= i < j < |edges| :: edges[i] != edges[j])
  }

  /** Each edge's `active` flag, in order. */
  function ActiveFlags3(edges: seq<Edge3D>): (fs: seq<bool>)
    ensures |fs| == |edges| && forall e | 0 <= e < |edges| :: fs[e] == edges[e].active
  {
    if edges == [] then [] else ActiveFlags3(edges[..|edges| - 1]) + [edges[|edges| - 1].active]
  }

  /** The signals' loop of `animate`: `update` then `draw` for each signal in turn. */
  method UpdateEach(signals: seq<Signal3D>, norm: Norm3, trig: Trig, globalPhase: real, opacity: real, scroll: real,
                    colour: string)
    requires Norm3Like(norm) && OnRoutes(signals)
    requires forall i, j | 0 <= i < j < |signals| :: signals[i] != signals[j]
    modifies signals
    ensures forall k | 0 <= k < |signals| ::
      Relocated(signals[k], old(signals[k].Now()), norm, trig, globalPhase, opacity, scroll, colour)
  {
    for i := 0 to |signals|
      invariant forall k | 0 <= k < i :: Relocated(signals[k], old(signals[k].Now()), norm, trig, globalPhase, opacity, scroll, colour)
      invariant forall k | i <= k < |signals| :: unchanged(signals[k])
    {
      UpdateSignal(signals[i], norm, trig, globalPhase, opacity, scroll, colour);
    }
  }

  /** `signal.update(); signal.draw(globalPhase, signalColor)` for one signal. */
  method UpdateSignal(s: Signal3D, norm: Norm3, trig: Trig, globalPhase: real, opacity: real, scroll: real,
                      colour: string)
    requires Norm3Like(norm) && s.Valid() && |s.edge.pathPoints| >= 2
    modifies s`progress, s`direction, s`mesh
    ensures Relocated(s, old(s.Now()), norm, trig, globalPhase, opacity, scroll, colour)
  {
    s.Update();
    var _ := s.Draw(norm, trig, globalPhase, opacity, scroll, colour);
  }

  /** The edge loop of `initEdges`. */
  method MakeEdges(nodes: seq<Node3D>, norm: Norm3, pairs: seq<(nat, nat)>, active: nat -> real, opacity: real,
                   colour: string, scroll: real, scene: Scene) returns (made: seq<Edge3D>)
    requires forall e | 0 <= e < |pairs| :: pairs[e].0 < pairs[e].1 < |nodes|
    requires scene.Valid()
    modifies scene
    ensures |made| == |pairs|
    ensures forall e | 0 <= e < |made| :: fresh(made[e]) && Joins3(made[e], nodes[pairs[e].0], nodes[pairs[e].1], active(e), scene)
    ensures forall i, j | 0 <= i < j < |made| :: made[i] != made[j]
    ensures scene.Valid() && scene.members == old(scene.members) + EdgeIds(made)
  {
    made := [];
    for e := 0 to |pairs|
      invariant |made| == e
      invariant forall f | 0 <= f < e :: fresh(made[f]) && Joins3(made[f], nodes[pairs[f].0], nodes[pairs[f].1], active(f), scene)
      invariant forall i, j | 0 <= i < j < e :: made[i] != made[j]
      invariant scene.Valid() && scene.members == old(scene.members) + EdgeIds(made)
    {
      var edge := MakeEdge(norm, nodes[pairs[e].0], nodes[pairs[e].1], active(e), opacity, colour, scroll, scene);
      EdgeIdsSnoc(made, edge);
      made := made + [edge];
    }
  }

  /** One edge: `new Edge3D(node1, node2)` with the scroll of the moment. */
  method MakeEdge(norm: Norm3, a: Node3D, b: Node3D, activeDraw: real, opacity: real, colour: string, scroll: real,
                  scene: Scene) returns (edge: Edge3D)
    requires scene.Valid()
    modifies scene
    ensures fresh(edge) && Joins3(edge, a, b, activeDraw, scene) && !edge.disposed
    ensures scene.Valid() && scene.members == old(scene.members) + {edge.meshId}
  {
    edge := new Edge3D(a, b, norm, activeDraw, opacity, colour, scroll, scene);
  }

  /** The loop of `initSignals`: a new signal for each active edge, in the order of the edges. */
  method LaunchSignals(edges: seq<Edge3D>, progress: nat -> real, speedMultiplier: real, opacity: real, colour: string,
                       scene: Scene) returns (made: seq<Signal3D>)
    requires (forall e: nat :: C2.UnitDraw(progress(e))) && scene.Valid()
    requires forall e | 0 <= e < |edges| :: |edges[e].pathPoints| >= 2
    modifies scene
    ensures Launching(made, edges, ActiveFlags3(edges), |edges|, progress, speedMultiplier, scene, old(scene.members))
  {
    var flags := ActiveFlags3(edges);
    made := [];
    for e := 0 to |edges|
      invariant Launching(made, edges, flags, e, progress, speedMultiplier, scene, old(scene.members))
    {
      made := LaunchNext(edges, flags, e, made, progress, speedMultiplier, opacity, colour, scene, old(scene.members));
    }
  }

  /** One turn of the loop of `initSignals`: a signal for edge e when it is active. */
  method LaunchNext(edges: seq<Edge3D>, flags: seq<bool>, e: nat, made: seq<Signal3D>, progress: nat -> real,
                    speedMultiplier: real, opacity: real, colour: string, scene: Scene, ghost base: set<nat>)
    returns (next: seq<Signal3D>)
    requires flags == ActiveFlags3(edges) && e < |edges|
    requires (forall e: nat :: C2.UnitDraw(progress(e))) && |edges[e].pathPoints| >= 2
    requires Launching(made, edges, flags, e, progress, speedMultiplier, scene, base)
    modifies scene
    ensures Launching(next, edges, flags, e + 1, progress, speedMultiplier, scene, base)
  {
    TrueUpToSpec(flags, e);
    assert TrueUpTo(flags, e + 1) == TrueUpTo(flags, e) + (if flags[e] then [e] else []);
    next := made;
    if edges[e].active {
      var signal := MakeSignal(edges[e], e, progress(e), speedMultiplier, opacity, colour, scene);
      SignalIdsSnoc(made, signal);
      next := made + [signal];
    }
  }

  /** One signal: `new Signal3D(edge, index * 0.1)`. */
  method MakeSignal(edge: Edge3D, e: nat, draw: real, speedMultiplier: real, opacity: real, colour: string,
                    scene: Scene) returns (signal: Signal3D)
    requires C2.UnitDraw(draw) && |edge.pathPoints| >= 2 && scene.Valid()
    modifies scene
    ensures fresh(signal) && Launched(signal, edge, e, draw, speedMultiplier, scene)
    ensures scene.Valid() && scene.members == old(scene.members) + {signal.meshId}
  {
    signal := new Signal3D(edge, e as real * 0.1, draw, speedMultiplier, opacity, colour, scene);
  }

  class Background {
    const opacity: real
    const speed: real
    const density: real
    const floating: bool
    const verticalScroll: bool
    const depth: real
    const width: real
    const height: real
    const scene: Scene
    var camera: Camera
    var rendererSize: (real, real)
    var nodes: seq<Node3D>
    var edges: seq<Edge3D>
    var signals: seq<Signal3D>
    var scrollOffset: real
    var pageScrollOffset: real
    var globalPhase: real
    var pending: bool
    var listening: bool
    var attached: bool
    var rendererDisposed: bool

    /** The scene holds exactly the meshes of the nodes, edges and signals, and each of them appears once. */
    predicate Valid()
      reads this`nodes, this`edges, this`signals, scene
    {
      scene.Valid() && Tracked(scene.members, scene, nodes, edges, signals)
    }

    /**
     * The first part of the effect: an empty scene, the camera and the
     * renderer sized to the container, and the renderer's canvas attached.
     * The effect goes on with `Populate` and `AddListeners`.
     */
    constructor (opacity: real, speed: real, density: real, floating: bool, verticalScroll: bool, depth: real,
                 containerWidth: real, containerHeight: real)
      ensures this.opacity == opacity && this.speed == speed && this.density == density && this.depth == depth
      ensures this.floating == floating && this.verticalScroll == verticalScroll
      ensures width == containerWidth && height == containerHeight
      ensures camera == Frustum(width, height) && rendererSize == (width, height)
      ensures scrollOffset == 0.0 && pageScrollOffset == 0.0 && globalPhase == 0.0
      ensures !pending && !listening && attached && !rendererDisposed
      ensures fresh(scene) && scene.members == {} && nodes == [] && edges == [] && signals == [] && Valid()
    {
      this.opacity, this.speed, this.density, this.depth := opacity, speed, density, depth;
      this.floating, this.verticalScroll := floating, verticalScroll;
      width, height := containerWidth, containerHeight;
      camera := Frustum(containerWidth, containerHeight);
      rendererSize := (containerWidth, containerHeight);
      scene := new Scene();
      nodes, edges, signals := [], [], [];
      scrollOffset, pageScrollOffset, globalPhase := 0.0, 0.0, 0.0;
      pending, listening, attached, rendererDisposed := false, false, true, false;
    }

    /**
     * What `initSignals` leaves: one signal for each active edge, in the
     * order of the edges, launched on it, each listed once.
     */
    predicate SignalsLaunched(progress: nat -> real)
      reads this`edges, this`signals, signals
    {
      && |signals| == |TrueIndices(ActiveFlags3(edges))|
      && (forall k | 0 <= k < |signals| ::
            LaunchedOn(signals[k], edges, TrueIndices(ActiveFlags3(edges))[k], progress, speed, scene))
      && (forall i, j | 0 <= i < j < |signals| :: signals[i] != signals[j])
      && OnRoutes(signals)
    }

    /**
     * The effect's `initNodes(); initEdges(); initSignals();` into the
     * empty scene. The effect then calls `AddListeners`.
     */
    method Populate(norm: Norm3, trig: Trig, src: NodeSource3, draws: EdgeDraws, active: nat -> real,
                    progress: nat -> real, colours: ThemeColours)
      requires PlausibleSource3(src) && Plausible(draws) && forall e: nat :: C2.UnitDraw(progress(e))
      requires scene.Valid() && scene.members == {} && nodes == [] && edges == [] && signals == []
      modifies this`nodes, this`edges, this`signals, scene
      ensures NodesPlaced(nodes, width, height, depth, density) && EdgesSelected(nodes, edges, scene, norm, draws, active)
      ensures SignalsLaunched(progress) && Valid()
    {
      InitGraph(norm, trig, src, draws, active, colours);
      InitSignals(progress, colours.signal);
    }

    /** `initNodes(); initEdges();`: the nodes and the edges among them, into the empty scene. */
    method InitGraph(norm: Norm3, trig: Trig, src: NodeSource3, draws: EdgeDraws, active: nat -> real,
                     colours: ThemeColours)
      requires PlausibleSource3(src) && Plausible(draws)
      requires scene.Valid() && scene.members == {} && nodes == [] && edges == []
      modifies this`nodes, this`edges, scene
      ensures NodesPlaced(nodes, width, height, depth, density) && EdgesSelected(nodes, edges, scene, norm, draws, active)
      ensures forall k | 0 <= k < |nodes| :: nodes[k].scene == scene
      ensures scene.Valid() && scene.members == NodeIds(nodes) + EdgeIds(edges)
    {
      InitNodes(trig, src, colours.node);
      InitEdges(norm, draws, active, colours.edge);
    }

    /** The last part of the effect's set-up: the scroll and resize listeners are added. */
    method AddListeners()
      modifies this`listening
      ensures listening
    {
      listening := true;
    }

    /** `initNodes`: the clusters, with the corrected sizes, then the scattered nodes, each added to the scene. */
    method InitNodes(trig: Trig, src: NodeSource3, colour: string)
      requires PlausibleSource3(src) && scene.Valid()
      modifies this`nodes, scene
      ensures NodesPlaced(nodes, width, height, depth, density)
      ensures forall k | 0 <= k < |nodes| :: fresh(nodes[k]) && Built3(nodes[k], scene)
      ensures scene.Valid() && scene.members == old(scene.members) + NodeIds(nodes)
    {
      var n := NodeCount(width, height, density);
      var made: seq<Node3D> := [];
      if ClusterCount(n) > 0 {
        made := MakeClusters(n, trig, src, colour);
      }
      made := MakeScattered(n, made, src, colour);
      nodes := made;
    }

    /** The cluster loop of `initNodes`. */
    method MakeClusters(n: int, trig: Trig, src: NodeSource3, colour: string) returns (made: seq<Node3D>)
      requires PlausibleSource3(src) && ClusterCount(n) > 0 && scene.Valid()
      modifies scene
      ensures |made| == n
      ensures forall k | 0 <= k < |made| :: fresh(made[k]) && Built3(made[k], scene)
      ensures forall i, j | 0 <= i < j < |made| :: made[i] != made[j]
      ensures forall k | 0 <= k < |made| :: InBox(width, height, depth, Anchor3(made[k]))
      ensures scene.Valid() && scene.members == old(scene.members) + NodeIds(made)
    {
      var sizes := ClusterSizes(n);
      ClusterSizesTotal(n);
      made := [];
      var cluster := 0;
      while cluster < |sizes|
        invariant 0 <= cluster <= |sizes| && |made| == Made(sizes[..cluster])
        invariant forall k | 0 <= k < |made| :: fresh(made[k]) && Built3(made[k], scene)
        invariant forall i, j | 0 <= i < j < |made| :: made[i] != made[j]
        invariant forall k | 0 <= k < |made| :: InBox(width, height, depth, Anchor3(made[k]))
        invariant scene.Valid() && scene.members == old(scene.members) + NodeIds(made)
      {
        var centre := src.cluster(cluster);
        var middle := Point3(Centred(centre.0, width), Centred(centre.1, height), Centred(centre.2, depth));
        var clusterRadius := 80.0 + centre.3 * 120.0;
        made := MakeCluster(made, sizes[cluster], middle, clusterRadius, trig, src, colour, old(scene.members));
        MadeSnoc(sizes, cluster);
        cluster := cluster + 1;
      }
      assert sizes[..|sizes|] == sizes;
    }

    /** The inner loop of `initNodes` for one cluster: size nodes in the ball around its centre. */
    method MakeCluster(made0: seq<Node3D>, size: int, middle: Point3, clusterRadius: real, trig: Trig,
                       src: NodeSource3, colour: string, ghost base: set<nat>) returns (made: seq<Node3D>)
      requires PlausibleSource3(src) && size >= 0
      requires forall i, j | 0 <= i < j < |made0| :: made0[i] != made0[j]
      requires forall k | 0 <= k < |made0| :: Built3(made0[k], scene) && InBox(width, height, depth, Anchor3(made0[k]))
      requires scene.Valid() && scene.members == base + NodeIds(made0)
      modifies scene
      ensures |made| == |made0| + size
      ensures forall k | 0 <= k < |made| :: made[k] in made0 || fresh(made[k])
      ensures forall k | 0 <= k < |made| :: Built3(made[k], scene) && InBox(width, height, depth, Anchor3(made[k]))
      ensures forall i, j | 0 <= i < j < |made| :: made[i] != made[j]
      ensures scene.Valid() && scene.members == base + NodeIds(made)
    {
      made := made0;
      var i := 0;
      while i < size
        invariant 0 <= i <= size && |made| == |made0| + i
        invariant forall k | 0 <= k < |made| :: made[k] in made0 || fresh(made[k])
        invariant forall k | 0 <= k < |made| :: Built3(made[k], scene) && InBox(width, height, depth, Anchor3(made[k]))
        invariant forall i, j | 0 <= i < j < |made| :: made[i] != made[j]
        invariant scene.Valid() && scene.members == base + NodeIds(made)
      {
        var node := ClusterNode(|made|, middle, clusterRadius, trig, src, colour);
        NodeIdsSnoc(made, node);
        made := made + [node];
        i := i + 1;
      }
    }

    /**
     * A clustered node: at a random point of the ball around the cluster's
     * centre in spherical coordinates, pulled 20 units inside the view and into the depth.
     */
    method ClusterNode(k: nat, middle: Point3, clusterRadius: real, trig: Trig, src: NodeSource3, colour: string)
      returns (node: Node3D)
      requires PlausibleSource3(src) && scene.Valid()
      modifies scene
      ensures fresh(node) && Built3(node, scene) && InBox(width, height, depth, Anchor3(node))
      ensures scene.Valid() && scene.members == old(scene.members) + {node.meshId}
    {
      var angle := src.polar(k).0 * TwoPi;
      var radius := src.polar(k).1 * clusterRadius;
      var phi := src.polar(k).2 * Pi;
      var x := middle.x + trig.sin(phi) * trig.cos(angle) * radius;
      var y := middle.y + trig.sin(phi) * trig.sin(angle) * radius;
      var z := middle.z + trig.cos(phi) * radius;
      var finalX := Clamp(-width / 2.0 + 20.0, width / 2.0 - 20.0, x);
      var finalY := Clamp(-height / 2.0 + 20.0, height / 2.0 - 20.0, y);
      var finalZ := Clamp(-depth / 2.0, depth / 2.0, z);
      node := MakeNode(finalX, finalY, finalZ, k, src, colour);
    }

    /** The scattered loop of `initNodes`, after the clusters. */
    method MakeScattered(n: int, made0: seq<Node3D>, src: NodeSource3, colour: string) returns (made: seq<Node3D>)
      requires PlausibleSource3(src) && scene.Valid()
      requires forall i, j | 0 <= i < j < |made0| :: made0[i] != made0[j]
      requires NodeIds(made0) <= scene.members
      modifies scene
      ensures |made| == |made0| + Scattered(n) && made[..|made0|] == made0
      ensures forall k | |made0| <= k < |made| :: fresh(made[k]) && Built3(made[k], scene)
      ensures forall i, j | 0 <= i < j < |made| :: made[i] != made[j]
      ensures width >= 0.0 && height >= 0.0 && depth >= 0.0 ==>
        forall k | |made0| <= k < |made| :: InVolume(width, height, depth, Anchor3(made[k]))
      ensures scene.Valid() && scene.members == old(scene.members) + NodeIds(made)
      ensures NodeIds(made0) <= NodeIds(made)
    {
      made := made0;
      var i := 0;
      while i < ScatteredCount(n)
        invariant 0 <= i <= Scattered(n) && |made| == |made0| + i && made[..|made0|] == made0
        invariant forall k | |made0| <= k < |made| :: fresh(made[k]) && Built3(made[k], scene)
        invariant forall i, j | 0 <= i < j < |made| :: made[i] != made[j]
        invariant width >= 0.0 && height >= 0.0 && depth >= 0.0 ==>
          forall k | |made0| <= k < |made| :: InVolume(width, height, depth, Anchor3(made[k]))
        invariant scene.Valid() && NodeIds(made0) <= NodeIds(made)
        invariant scene.members == old(scene.members) + NodeIds(made)
      {
        var draw := src.scatter(|made|);
        var node := MakeNode(Centred(draw.0, width), Centred(draw.1, height), Centred(draw.2, depth), |made|, src, colour);
        NodeIdsSnoc(made, node);
        made := made + [node];
        i := i + 1;
      }
    }

    /** One node: its float offset, then `new Node3D(x, y, z, floatOffset)`. */
    method MakeNode(x: real, y: real, z: real, k: nat, src: NodeSource3, colour: string) returns (node: Node3D)
      requires PlausibleSource3(src) && scene.Valid()
      modifies scene
      ensures fresh(node) && Built3(node, scene) && Anchor3(node) == Point3(x, y, z)
      ensures node.floatOffset == RandomScale(src.offset(k), TwoPi)
      ensures scene.Valid() && scene.members == old(scene.members) + {node.meshId}
    {
      var floatOffset := RandomScale(src.offset(k), TwoPi);
      node := new Node3D(x, y, z, floatOffset, src.node(k), opacity, colour, scene);
    }

    /** `initEdges`: an edge for every pair `SelectEdges` picks under the 3D distance, each added to the scene. */
    method InitEdges(norm: Norm3, draws: EdgeDraws, active: nat -> real, colour: string)
      requires Plausible(draws) && scene.Valid()
      modifies this`edges, scene
      ensures unchanged(nodes)
      ensures EdgesSelected(nodes, edges, scene, norm, draws, active) && forall e | 0 <= e < |edges| :: fresh(edges[e])
      ensures forall k | 0 <= k < |edges| :: edges[k].scene == scene
      ensures scene.Valid() && scene.members == old(scene.members) + EdgeIds(edges)
    {
      var distance := Separation3(norm, Anchors3(nodes));
      var pairs := SelectEdges(distance, draws, |nodes|);
      EdgePairsInBand(distance, draws, |nodes|, |nodes|);
      edges := MakeEdges(nodes, norm, pairs, active, opacity, colour, scrollOffset + pageScrollOffset, scene);
    }

    /** `initSignals`: a signal at a random start for every active edge, its start time a tenth of the edge's index. */
    method InitSignals(progress: nat -> real, colour: string)
      requires (forall e: nat :: C2.UnitDraw(progress(e))) && scene.Valid()
      requires forall e | 0 <= e < |edges| :: |edges[e].pathPoints| >= 2
      modifies this`signals, scene
      ensures unchanged(nodes)
      ensures SignalsLaunched(progress)
      ensures forall k | 0 <= k < |signals| :: signals[k].scene == scene
      ensures scene.Valid() && scene.members == old(scene.members) + SignalIds(signals)
    {
      var made := LaunchSignals(edges, progress, speed, opacity, colour, scene);
      assert TrueIndices(ActiveFlags3(edges)) == TrueUpTo(ActiveFlags3(edges), |edges|);
      signals := made;
    }

    /** `handleScroll`: while scrolling vertically, a tenth of the page's scroll position. */
    method HandleScroll(scrollY: real, pageYOffset: real)
      modifies this`pageScrollOffset
      ensures pageScrollOffset == if verticalScroll then (if scrollY != 0.0 then scrollY else pageYOffset) * 0.1
                                  else old(pageScrollOffset)
    {
      if verticalScroll {
        var position := if scrollY != 0.0 then scrollY else pageYOffset;
        pageScrollOffset := position * 0.1;
      }
    }

    /** `handleResize`: the camera and the renderer follow the container; the pattern itself stays as it is. */
    method HandleResize(newWidth: real, newHeight: real)
      modifies this`camera, this`rendererSize
      ensures camera == Frustum(newWidth, newHeight) && rendererSize == (newWidth, newHeight)
      ensures nodes == old(nodes) && edges == old(edges) && signals == old(signals)
    {
      camera := Frustum(newWidth, newHeight);
      rendererSize := (newWidth, newHeight);
    }

    /** The state advance of `animate`; the scroll wraps against the height measured when the effect ran. */
    method Advance()
      modifies this`globalPhase, this`scrollOffset
      ensures unchanged(nodes) && unchanged(signals)
      ensures Stepped(old(globalPhase), old(scrollOffset))
    {
      globalPhase := globalPhase + 0.015 * speed;
      if globalPhase >= TwoPi {
        globalPhase := globalPhase - TwoPi;
      }
      if verticalScroll {
        scrollOffset := scrollOffset + 0.2 * speed;
        if scrollOffset > height {
          scrollOffset := scrollOffset - height;
        }
      }
    }

    /** `node.update` for every node. */
    method UpdateNodes(trig: Trig, colour: string)
      requires forall i, j | 0 <= i < j < |nodes| :: nodes[i] != nodes[j]
      modifies nodes
      ensures forall k | 0 <= k < |nodes| ::
        Renewed(nodes[k], old(nodes[k].State()), floating, globalPhase, speed, opacity, scrollOffset + pageScrollOffset, colour, trig)
      ensures unchanged(this, scene) && unchanged(edges) && unchanged(signals)
    {
      var scroll := scrollOffset + pageScrollOffset;
      for i := 0 to |nodes|
        invariant forall k | 0 <= k < i ::
          Renewed(nodes[k], old(nodes[k].State()), floating, globalPhase, speed, opacity, scroll, colour, trig)
        invariant forall k | i <= k < |nodes| :: unchanged(nodes[k])
      {
        var n := nodes[i];
        n.Update(floating, globalPhase, speed, opacity, scroll, colour, trig);
      }
    }

    /** The nodes' updates, then the edges'. */
    method UpdateMeshes(trig: Trig, colours: ThemeColours)
      requires forall i, j | 0 <= i < j < |nodes| :: nodes[i] != nodes[j]
      requires forall i, j | 0 <= i < j < |edges| :: edges[i] != edges[j]
      modifies nodes, edges
      ensures forall k | 0 <= k < |nodes| ::
        Renewed(nodes[k], old(nodes[k].State()), floating, globalPhase, speed, opacity, scrollOffset + pageScrollOffset,
                colours.node, trig)
      ensures forall k | 0 <= k < |edges| ::
        Refreshed(edges[k], scrollOffset + pageScrollOffset, opacity, trig.sin(globalPhase), colours.edge)
    {
      UpdateNodes(trig, colours.node);
      UpdateEdges(trig, colours.edge);
    }

    /** `edge.update` for every edge, after the nodes have moved. */
    method UpdateEdges(trig: Trig, colour: string)
      requires forall i, j | 0 <= i < j < |edges| :: edges[i] != edges[j]
      modifies edges
      ensures forall k | 0 <= k < |edges| ::
        Refreshed(edges[k], scrollOffset + pageScrollOffset, opacity, trig.sin(globalPhase), colour)
      ensures unchanged(this, scene) && unchanged(nodes) && unchanged(signals)
    {
      var scroll := scrollOffset + pageScrollOffset;
      for i := 0 to |edges|
        invariant forall k | 0 <= k < i :: Refreshed(edges[k], scroll, opacity, trig.sin(globalPhase), colour)
      {
        edges[i].Update(globalPhase, opacity, scroll, colour, trig);
      }
    }

    /** `signal.update(); signal.draw(...)` for every signal. */
    method UpdateSignals(norm: Norm3, trig: Trig, colour: string)
      requires Norm3Like(norm) && OnRoutes(signals)
      requires forall i, j | 0 <= i < j < |signals| :: signals[i] != signals[j]
      modifies signals
      ensures forall k | 0 <= k < |signals| ::
        Relocated(signals[k], old(signals[k].Now()), norm, trig, globalPhase, opacity, scrollOffset + pageScrollOffset, colour)
      ensures OnRoutes(signals) && unchanged(nodes)
    {
      UpdateEach(signals, norm, trig, globalPhase, opacity, scrollOffset + pageScrollOffset, colour);
    }

    /**
     * One call of `animate`. Without a renderer, scene or camera it returns
     * and schedules nothing. Otherwise it takes one `Step` (which states the
     * new phase, scroll, nodes and signals; the edges' refresh is stated by
     * `UpdateEdges`) and renders; an exception from rendering is caught and
     * logged, and the next frame is scheduled either way.
     */
    method Animate(ready: bool, renderThrows: bool, norm: Norm3, trig: Trig,
                   nodeProperty: string, edgeProperty: string, signalProperty: string)
      returns (logged: bool)
      requires Valid() && OnRoutes(signals) && Norm3Like(norm)
      modifies this`globalPhase, this`scrollOffset, this`pending, nodes, edges, signals
      ensures Valid() && OnRoutes(signals)
      ensures !ready ==> !logged && !pending && globalPhase == old(globalPhase) && scrollOffset == old(scrollOffset)
      ensures ready ==> logged == renderThrows && pending && Stepped(old(globalPhase), old(scrollOffset))
      ensures !ready ==> unchanged(nodes) && unchanged(edges) && unchanged(signals)
    {
      // The next frame is requested last in `animate`; nothing before it reads the request.
      pending := ready;
      logged := false;
      if ready {
        var colours := GetThemeColours(nodeProperty, edgeProperty, signalProperty);
        Step(norm, trig, colours);
        logged := renderThrows;
      }
    }

    /** The phase and the scroll advanced, then every node, edge and signal updated. */
    method Step(norm: Norm3, trig: Trig, colours: ThemeColours)
      requires Valid() && OnRoutes(signals) && Norm3Like(norm)
      modifies this`globalPhase, this`scrollOffset, nodes, edges, signals
      ensures Valid() && OnRoutes(signals) && Stepped(old(globalPhase), old(scrollOffset))
      ensures forall k | 0 <= k < |nodes| ::
        Renewed(nodes[k], old(nodes[k].State()), floating, globalPhase, speed, opacity, scrollOffset + pageScrollOffset,
                colours.node, trig)
      ensures forall k | 0 <= k < |signals| ::
        Relocated(signals[k], old(signals[k].Now()), norm, trig, globalPhase, opacity, scrollOffset + pageScrollOffset,
                  colours.signal)
    {
      Advance();
      assert Valid() && OnRoutes(signals);
      Redraw(norm, trig, colours);
    }

    /** The phase and the scroll one frame after the given ones. */
    predicate Stepped(phase: real, scroll: real)
      reads this`globalPhase, this`scrollOffset
    {
      && globalPhase == AdvancePhase(phase, 0.015 * speed)
      && scrollOffset == if verticalScroll then AdvanceScroll(scroll, height, 0.2 * speed) else scroll
    }

    /** The updates in the `try` of `animate`: the nodes, then the edges, then the signals. */
    method Redraw(norm: Norm3, trig: Trig, colours: ThemeColours)
      requires OnRoutes(signals) && Norm3Like(norm)
      requires forall i, j | 0 <= i < j < |nodes| :: nodes[i] != nodes[j]
      requires forall i, j | 0 <= i < j < |edges| :: edges[i] != edges[j]
      requires forall i, j | 0 <= i < j < |signals| :: signals[i] != signals[j]
      modifies nodes, edges, signals
      ensures OnRoutes(signals)
      ensures forall k | 0 <= k < |nodes| ::
        Renewed(nodes[k], old(nodes[k].State()), floating, globalPhase, speed, opacity, scrollOffset + pageScrollOffset,
                colours.node, trig)
      ensures forall k | 0 <= k < |signals| ::
        Relocated(signals[k], old(signals[k].Now()), norm, trig, globalPhase, opacity, scrollOffset + pageScrollOffset,
                  colours.signal)
    {
      UpdateMeshes(trig, colours);
      UpdateSignals(norm, trig, colours.signal);
    }

    /**
     * The effect's cleanup: remove the listeners, dispose of every node,
     * edge and signal (which empties the scene), cancel the pending frame,
     * detach and dispose of the renderer.
     */
    method Cleanup()
      requires Valid()
      modifies this`listening, this`pending, this`attached, this`rendererDisposed, scene, nodes, edges, signals
      ensures scene.members == {}
      ensures forall k | 0 <= k < |nodes| :: nodes[k].disposed
      ensures forall k | 0 <= k < |edges| :: edges[k].disposed
      ensures forall k | 0 <= k < |signals| :: signals[k].disposed
      ensures !listening && !pending && !attached && rendererDisposed
    {
      listening := false;
      DisposeAll();
      pending, attached, rendererDisposed := false, false, true;
    }

    /** The three `forEach(… dispose())` loops of the cleanup. */
    method DisposeAll()
      requires Valid()
      modifies scene, nodes, edges, signals
      ensures scene.members == {}
      ensures forall k | 0 <= k < |nodes| :: nodes[k].disposed
      ensures forall k | 0 <= k < |edges| :: edges[k].disposed
      ensures forall k | 0 <= k < |signals| :: signals[k].disposed
    {
      DisposeNodes();
      DisposeEdges();
      DisposeSignals();
    }

    method DisposeNodes()
      requires forall k | 0 <= k < |nodes| :: nodes[k].scene == scene
      requires forall i, j | 0 <= i < j < |nodes| :: nodes[i] != nodes[j]
      modifies scene, nodes
      ensures scene.members == old(scene.members) - NodeIds(nodes)
      ensures forall k | 0 <= k < |nodes| :: nodes[k].disposed
      ensures unchanged(this)
    {
      for i := 0 to |nodes|
        invariant scene.members == old(scene.members) - NodeIds(nodes[..i])
        invariant forall k | 0 <= k < i :: nodes[k].disposed
      {
        assert nodes[..i + 1] == nodes[..i] + [nodes[i]];
        NodeIdsSnoc(nodes[..i], nodes[i]);
        nodes[i].Dispose();
      }
      assert nodes[..|nodes|] == nodes;
    }

    method DisposeEdges()
      requires forall k | 0 <= k < |edges| :: edges[k].scene == scene
      requires forall i, j | 0 <= i < j < |edges| :: edges[i] != edges[j]
      modifies scene, edges
      ensures scene.members == old(scene.members) - EdgeIds(edges)
      ensures forall k | 0 <= k < |edges| :: edges[k].disposed
      ensures unchanged(this)
    {
      for i := 0 to |edges|
        invariant scene.members == old(scene.members) - EdgeIds(edges[..i])
        invariant forall k | 0 <= k < i :: edges[k].disposed
      {
        assert edges[..i + 1] == edges[..i] + [edges[i]];
        EdgeIdsSnoc(edges[..i], edges[i]);
        edges[i].Dispose();
      }
      assert edges[..|edges|] == edges;
    }

    method DisposeSignals()
      requires forall k | 0 <= k < |signals| :: signals[k].scene == scene
      requires forall i, j | 0 <= i < j < |signals| :: signals[i] != signals[j]
      modifies scene, signals
      ensures scene.members == old(scene.members) - SignalIds(signals)
      ensures forall k | 0 <= k < |signals| :: signals[k].disposed
      ensures unchanged(this)
    {
      for i := 0 to |signals|
        invariant scene.members == old(scene.members) - SignalIds(signals[..i])
        invariant forall k | 0 <= k < i :: signals[k].disposed
      {
        assert signals[..i + 1] == signals[..i] + [signals[i]];
        SignalIdsSnoc(signals[..i], signals[i]);
        signals[i].Dispose();
      }
      assert signals[..|signals|] == signals;
    }
  }
}
