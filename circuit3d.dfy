/**
 * The three.js variant of the background: a scene of meshes, and the classes
 * `Node3D` (a sphere floating around its anchor), `Edge3D` (a routed line
 * whose vertex buffer follows its first node) and `Signal3D` (a glowing sphere
 * travelling back and forth along an active edge).
 *
 * The scene is modelled by the identities of the meshes in it; a mesh is
 * modelled by the values the animation writes to it (position, scale,
 * opacity, colour, visibility).
 */
module Circuit3D {
  import opened Js
  import opened Geometry
  import opened Route
  import opened ArcLength
  import opened Colour
  import opened Motion
  import C2 = Circuit2D

  /** The scene: the identities of the meshes added and not yet removed, and the next identity to hand out. */
  class Scene {
    var members: set<nat>
    var next: nat

    predicate Valid()
      reads this
    {
      forall m | m in members :: m < next
    }

    constructor ()
      ensures members == {} && next == 0 && Valid()
    {
      members, next := {}, 0;
    }

    /** `scene.add(mesh)` for a new mesh: it gets an identity that is in the scene now and was not before. */
    method Add() returns (id: nat)
      requires Valid()
      modifies this
      ensures id == old(next) && id !in old(members)
      ensures members == old(members) + {id} && next == old(next) + 1
      ensures Valid()
    {
      id := next;
      members, next := members + {id}, next + 1;
    }

    /** `scene.remove(mesh)`: the mesh is no longer in the scene; removing an absent mesh changes nothing. */
    method Remove(id: nat)
      modifies this`members
      ensures members == old(members) - {id}
      ensures old(Valid()) ==> Valid()
    {
      members := members - {id};
    }
  }

  /** The values the animation writes to a mesh and its material. */
  datatype Mesh = Mesh(position: Point3, scale: real, opacity: real, colour: Rgb, visible: bool)

  /** The five draws of the `Node3D` constructor, in the order it takes them. */
  datatype Node3Draws = Node3Draws(radius: real, hollow: real, float: real, speed: real, amplitude: real)

  predicate PlausibleNode3(d: Node3Draws) {
    C2.UnitDraw(d.radius) && C2.UnitDraw(d.hollow) && C2.UnitDraw(d.float)
    && C2.UnitDraw(d.speed) && C2.UnitDraw(d.amplitude)
  }

  /**
   * The part of a 3D node that changes from frame to frame. The constructor
   * leaves the pulse phase undefined; the first `update` sets it.
   */
  datatype Node3State = Node3State(x: real, y: real, z: real, pulsePhase: Option<real>, floatPhase: real)

  class Node3D {
    const baseX: real
    const baseY: real
    const baseZ: real
    const radius: real
    const isHollow: bool
    const floatSpeed: real
    const floatAmplitude: real
    const floatOffset: real
    const scene: Scene
    const meshId: nat
    var x: real
    var y: real
    var z: real
    var pulsePhase: Option<real>
    var floatPhase: real
    var mesh: Mesh
    var disposed: bool

    function State(): Node3State
      reads this
    {
      Node3State(x, y, z, pulsePhase, floatPhase)
    }

    predicate Valid()
      reads this
    {
      && 2.0 <= radius < 5.0
      && 0.001 <= floatSpeed < 0.003
      && 5.0 <= floatAmplitude < 15.0
      && 0.0 <= floatPhase < TwoPi
    }

    /**
     * `new Node3D(x, y, z, floatOffset)`: a sphere at the anchor, at 0.6 of
     * the opacity (a hollow wireframe at 0.4), coloured from the theme's node
     * colour, added to the scene.
     */
    constructor (x0: real, y0: real, z0: real, offset: real, d: Node3Draws, opacity: real, colour: string, scene: Scene)
      requires scene.Valid()
      modifies scene
      ensures baseX == x0 && baseY == y0 && baseZ == z0 && floatOffset == offset && this.scene == scene
      ensures State() == Node3State(x0, y0, z0, None, d.float * TwoPi)
      ensures radius == d.radius * 3.0 + 2.0 && isHollow == (d.hollow > 0.6)
      ensures floatSpeed == 0.001 + d.speed * 0.002 && floatAmplitude == 5.0 + d.amplitude * 10.0
      ensures mesh == Mesh(Point3(x0, y0, z0), 1.0, opacity * (if isHollow then 0.4 else 0.6), ParseColour(colour), true)
      ensures !disposed && (PlausibleNode3(d) ==> Valid())
      ensures meshId !in old(scene.members) && scene.members == old(scene.members) + {meshId}
      ensures scene.next == old(scene.next) + 1 && scene.Valid()
    {
      baseX, baseY, baseZ := x0, y0, z0;
      x, y, z := x0, y0, z0;
      radius := d.radius * 3.0 + 2.0;
      isHollow := d.hollow > 0.6;
      pulsePhase := None;
      floatPhase := d.float * TwoPi;
      floatSpeed := 0.001 + d.speed * 0.002;
      floatAmplitude := 5.0 + d.amplitude * 10.0;
      floatOffset := offset;
      var materialOpacity := opacity * 0.6;
      if d.hollow > 0.6 {
        materialOpacity := opacity * 0.4;
      }
      mesh := Mesh(Point3(x0, y0, z0), 1.0, materialOpacity, ParseColour(colour), true);
      disposed := false;
      this.scene := scene;
      var id := scene.Add();
      meshId := id;
    }

    /**
     * The state after `update`: the pulse follows the global phase; a
     * floating node advances its float phase and moves on three offsets from
     * its anchor, a still node sits on its anchor.
     */
    function Next(s: Node3State, floating: bool, globalPhase: real, speed: real, trig: Trig): Node3State
      reads this
    {
      if floating then
        var phase := AdvancePhase(s.floatPhase, floatSpeed * speed);
        Node3State(Sway(baseX, trig.cos(phase * 0.7), floatAmplitude * 0.5),
                   Sway(baseY, trig.sin(phase), floatAmplitude),
                   Sway(baseZ, trig.sin(phase * 0.5), floatAmplitude * 0.3),
                   Some(globalPhase + floatOffset), phase)
      else
        Node3State(baseX, baseY, baseZ, Some(globalPhase + floatOffset), s.floatPhase)
    }

    /**
     * The mesh after `update`: at the node's position moved up the scroll,
     * scaled and faded with sin(globalPhase + floatOffset), a hollow node at
     * 0.6 of that opacity, coloured from the node colour.
     */
    function Look(opacity: real, globalPhase: real, scroll: real, colour: string, trig: Trig): (m: Mesh)
      reads this
      ensures m.position == Point3(x, y + scroll, z) && m.colour == ParseColour(colour) && m.visible == mesh.visible
      ensures TrigBounded(trig) ==> 0.8 <= m.scale <= 1.2
      ensures TrigBounded(trig) && opacity >= 0.0 ==> 0.2 * opacity * (if isHollow then 0.6 else 1.0) <= m.opacity
      ensures TrigBounded(trig) && opacity >= 0.0 ==> m.opacity <= 0.8 * opacity
    {
      var pulse := trig.sin(globalPhase + floatOffset);
      var nodeOpacity := C2.Pulsed(opacity, pulse, 0.5, 0.3);
      Mesh(Point3(x, y + scroll, z), C2.Pulsed(1.0, pulse, 1.0, 0.2),
           if isHollow then nodeOpacity * 0.6 else nodeOpacity, ParseColour(colour), mesh.visible)
    }

    /** `update(floatingEnabled, globalPhase, nodeColor)` with the scroll the sum of the continuous and the page scroll. */
    method Update(floating: bool, globalPhase: real, speed: real, opacity: real, scroll: real, colour: string, trig: Trig)
      modifies this`x, this`y, this`z, this`pulsePhase, this`floatPhase, this`mesh
      ensures State() == Next(old(State()), floating, globalPhase, speed, trig)
      ensures mesh == Look(opacity, globalPhase, scroll, colour, trig)
    {
      Float(floating, globalPhase, speed, trig);
      mesh := Look(opacity, globalPhase, scroll, colour, trig);
    }

    /** The movement part of `update`: the pulse phase, the float phase and the position. */
    method Float(floating: bool, globalPhase: real, speed: real, trig: Trig)
      modifies this`x, this`y, this`z, this`pulsePhase, this`floatPhase
      ensures State() == Next(old(State()), floating, globalPhase, speed, trig)
    {
      pulsePhase := Some(globalPhase + floatOffset);
      if floating {
        floatPhase := floatPhase + floatSpeed * speed;
        if floatPhase >= TwoPi {
          floatPhase := floatPhase - TwoPi;
        }
        y := Sway(baseY, trig.sin(floatPhase), floatAmplitude);
        x := Sway(baseX, trig.cos(floatPhase * 0.7), floatAmplitude * 0.5);
        z := Sway(baseZ, trig.sin(floatPhase * 0.5), floatAmplitude * 0.3);
      } else {
        y := baseY;
        x := baseX;
        z := baseZ;
      }
    }

    /** `getPosition()`: the node's position moved up the scroll. */
    function Position(scroll: real): Point3
      reads this
    {
      Point3(x, y + scroll, z)
    }

    /** `dispose`: the geometry and material are released and the mesh leaves the scene. */
    method Dispose()
      modifies this`disposed, scene
      ensures disposed && scene.members == old(scene.members) - {meshId} && scene.next == old(scene.next)
      ensures old(scene.Valid()) ==> scene.Valid()
    {
      disposed := true;
      scene.Remove(meshId);
    }
  }

  /** A floating 3D node stays within half its amplitude across, its amplitude vertically and 0.3 of it in depth. */
  lemma FloatWithinAmplitude3(n: Node3D, s: Node3State, floating: bool, globalPhase: real, speed: real, trig: Trig)
    requires TrigBounded(trig) && n.floatAmplitude >= 0.0
    ensures var t := n.Next(s, floating, globalPhase, speed, trig);
      && Abs(t.x - n.baseX) <= n.floatAmplitude * 0.5
      && Abs(t.y - n.baseY) <= n.floatAmplitude
      && Abs(t.z - n.baseZ) <= n.floatAmplitude * 0.3
    ensures !floating ==> var t := n.Next(s, floating, globalPhase, speed, trig);
      t.x == n.baseX && t.y == n.baseY && t.z == n.baseZ
  {
  }

  /** Every update defines the pulse phase, and keeps the float phase in [0, 2*pi) for a step of at most a turn. */
  lemma NextKeepsValid3(n: Node3D, s: Node3State, floating: bool, globalPhase: real, speed: real, trig: Trig)
    requires 0.0 <= s.floatPhase < TwoPi && 0.0 <= n.floatSpeed * speed <= TwoPi
    ensures var t := n.Next(s, floating, globalPhase, speed, trig);
      0.0 <= t.floatPhase < TwoPi && t.pulsePhase == Some(globalPhase + n.floatOffset)
  {
    if floating {
      AdvancePhaseInRange(s.floatPhase, n.floatSpeed * speed);
    }
  }

  function Anchor3(n: Node3D): Point3 {
    Point3(n.baseX, n.baseY, n.baseZ)
  }

  /** p moved by (dx, dy, dz). */
  function Shift3(p: Point3, dx: real, dy: real, dz: real): Point3 {
    Point3(p.x + dx, p.y + dy, p.z + dz)
  }

  /**
   * The vertices `updateGeometry` emits: node1's position, the waypoints
   * strictly between the ends moved by node1's float offsets across and in
   * depth and up the scroll, then node2's position.
   */
  function Vertices(path: seq<Point3>, start: Point3, end: Point3, dx: real, dz: real, scroll: real): (vs: seq<Point3>)
    ensures |vs| == if |path| >= 2 then |path| else 2
    ensures vs[0] == start && vs[|vs| - 1] == end
    ensures forall k | 1 <= k < |vs| - 1 :: vs[k] == Shift3(path[k], dx, scroll, dz)
  {
    if |path| <= 2 then [start, end]
    else Vertices(path[..|path| - 1], start, Shift3(path[|path| - 2], dx, scroll, dz), dx, dz, scroll) + [end]
  }

  /** A list laid out as Vertices states it is the list of vertices. */
  lemma VerticesOf(vs: seq<Point3>, path: seq<Point3>, start: Point3, end: Point3, dx: real, dz: real, scroll: real)
    requires |vs| == (if |path| >= 2 then |path| else 2) && vs[0] == start && vs[|vs| - 1] == end
    requires forall k | 1 <= k < |vs| - 1 :: vs[k] == Shift3(path[k], dx, scroll, dz)
    ensures vs == Vertices(path, start, end, dx, dz, scroll)
  {
  }

  /** The coordinates of a list of points, three numbers per point. */
  function Flatten(ps: seq<Point3>): (fs: seq<real>)
    ensures |fs| == 3 * |ps|
  {
    if ps == [] then [] else Flatten(ps[..|ps| - 1]) + [ps[|ps| - 1].x, ps[|ps| - 1].y, ps[|ps| - 1].z]
  }

  /** Flatten puts point k at positions 3k, 3k + 1 and 3k + 2. */
  lemma {:induction false} FlattenAt(ps: seq<Point3>, k: nat)
    requires k < |ps|
    ensures Flatten(ps)[3 * k] == ps[k].x && Flatten(ps)[3 * k + 1] == ps[k].y && Flatten(ps)[3 * k + 2] == ps[k].z
  {
    if k < |ps| - 1 {
      FlattenAt(ps[..|ps| - 1], k);
    }
  }

  lemma FlattenSnoc(ps: seq<Point3>, p: Point3)
    ensures Flatten(ps + [p]) == Flatten(ps) + [p.x, p.y, p.z]
  {
    assert (ps + [p])[..|ps|] == ps;
  }

  /**
   * `updateGeometry` emits three numbers for every waypoint of a route of at
   * least two points; the first vertex is node1's position and the last is node2's.
   */
  lemma GeometrySize(path: seq<Point3>, start: Point3, end: Point3, dx: real, dz: real, scroll: real)
    requires |path| >= 2
    ensures var fs := Flatten(Vertices(path, start, end, dx, dz, scroll));
      && |fs| == 3 * |path|
      && fs[0] == start.x && fs[1] == start.y && fs[2] == start.z
      && fs[|fs| - 3] == end.x && fs[|fs| - 2] == end.y && fs[|fs| - 1] == end.z
  {
    var vs := Vertices(path, start, end, dx, dz, scroll);
    FlattenAt(vs, 0);
    FlattenAt(vs, |vs| - 1);
  }

  class Edge3D {
    const node1: Node3D
    const node2: Node3D
    const length: real
    const active: bool
    const pathPoints: seq<Point3>
    const scene: Scene
    const meshId: nat
    var positions: seq<real>
    var opacity: real
    var colour: Rgb
    var disposed: bool

    /**
     * `new Edge3D(node1, node2)`: the 3D distance of the anchors, the routed
     * waypoints, a line at 0.4 of the opacity coloured from the theme's edge
     * colour, its vertex buffer filled, added to the scene.
     */
    constructor (n1: Node3D, n2: Node3D, norm: Norm3, activeDraw: real, opacity: real, colour: string, scroll: real, scene: Scene)
      requires scene.Valid()
      modifies scene
      ensures node1 == n1 && node2 == n2 && this.scene == scene
      ensures length == Distance3(norm, Anchor3(n1), Anchor3(n2))
      ensures active == (activeDraw > 0.7)
      ensures pathPoints == Route3(Anchor3(n1), Anchor3(n2), length)
      ensures positions == LineBufferOf(pathPoints, n1.Position(scroll), n2.Position(scroll), n1.x - n1.baseX,
                                        n1.z - n1.baseZ, scroll)
      ensures this.opacity == opacity * 0.4 && this.colour == ParseColour(colour) && !disposed
      ensures meshId !in old(scene.members) && scene.members == old(scene.members) + {meshId}
      ensures scene.next == old(scene.next) + 1 && scene.Valid()
    {
      var len := Distance3(norm, Anchor3(n1), Anchor3(n2));
      var route := Route3(Anchor3(n1), Anchor3(n2), len);
      node1, node2 := n1, n2;
      length := len;
      active := activeDraw > 0.7;
      pathPoints := route;
      this.opacity := opacity * 0.4;
      this.colour := ParseColour(colour);
      disposed := false;
      this.scene := scene;
      var id := scene.Add();
      meshId := id;
      var buffer := LineBuffer(route, n1.Position(scroll), n2.Position(scroll), n1.x - n1.baseX, n1.z - n1.baseZ, scroll);
      positions := buffer;
    }

    /** The vertex buffer for the nodes' current positions. */
    function Buffer(scroll: real): seq<real>
      reads node1, node2
    {
      LineBufferOf(pathPoints, node1.Position(scroll), node2.Position(scroll), node1.x - node1.baseX,
                   node1.z - node1.baseZ, scroll)
    }

    /** `updateGeometry`: the vertex buffer of the line, from the nodes' current positions. */
    method UpdateGeometry(scroll: real)
      modifies this`positions
      ensures positions == Buffer(scroll)
    {
      var start, end := node1.Position(scroll), node2.Position(scroll);
      var buffer := LineBuffer(pathPoints, start, end, node1.x - node1.baseX, node1.z - node1.baseZ, scroll);
      assert buffer == Buffer(scroll);
      positions := buffer;
    }

    /** `update(globalPhase, edgeColor)`: the vertex buffer again, and the opacity pulsing with sin(globalPhase). */
    method Update(globalPhase: real, opacity: real, scroll: real, colour: string, trig: Trig)
      modifies this`positions, this`opacity, this`colour
      ensures positions == Buffer(scroll)
      ensures this.opacity == C2.Pulsed(opacity, trig.sin(globalPhase), 0.4, 0.2)
      ensures this.colour == ParseColour(colour)
    {
      UpdateGeometry(scroll);
      this.opacity := C2.Pulsed(opacity, trig.sin(globalPhase), 0.4, 0.2);
      this.colour := ParseColour(colour);
    }

    method Dispose()
      modifies this`disposed, scene
      ensures disposed && scene.members == old(scene.members) - {meshId} && scene.next == old(scene.next)
      ensures old(scene.Valid()) ==> scene.Valid()
    {
      disposed := true;
      scene.Remove(meshId);
    }
  }

  /** The vertex buffer of a line from start to end along the route: its vertices, flattened. */
  function LineBufferOf(path: seq<Point3>, start: Point3, end: Point3, dx: real, dz: real, scroll: real): seq<real>
  {
    Flatten(Vertices(path, start, end, dx, dz, scroll))
  }

  /**
   * The loop of `updateGeometry`: the start point, each inner point of the
   * route shifted, then the end point, flattened into one buffer.
   */
  method LineBuffer(path: seq<Point3>, start: Point3, end: Point3, dx: real, dz: real, scroll: real)
    returns (buffer: seq<real>)
    ensures buffer == LineBufferOf(path, start, end, dx, dz, scroll)
  {
    buffer := [start.x, start.y, start.z];
    ghost var emitted := [start];
    assert Flatten([start]) == Flatten([]) + [start.x, start.y, start.z];
    var i := 1;
    while i < |path| - 1
      invariant 1 <= i && (i <= |path| - 1 || i == 1)
      invariant |emitted| == i && emitted[0] == start
      invariant forall k | 1 <= k < i :: emitted[k] == Shift3(path[k], dx, scroll, dz)
      invariant buffer == Flatten(emitted)
    {
      var moved := Shift3(path[i], dx, scroll, dz);
      FlattenSnoc(emitted, moved);
      emitted := emitted + [moved];
      buffer := buffer + [moved.x, moved.y, moved.z];
      i := i + 1;
    }
    FlattenSnoc(emitted, end);
    buffer := buffer + [end.x, end.y, end.z];
    VerticesOf(emitted + [end], path, start, end, dx, dz, scroll);
  }

  /** The legs of a route have non-negative lengths. */
  lemma Lengths3NonNegative(norm: Norm3, path: seq<Point3>)
    requires Norm3Like(norm)
    ensures NonNegative(Lengths3(norm, path))
  {
    var ls := Lengths3(norm, path);
    forall k | 0 <= k < |ls|
      ensures ls[k] >= 0.0
    {
      assert ls[k] == norm(path[k + 1].x - path[k].x, path[k + 1].y - path[k].y, path[k + 1].z - path[k].z);
    }
  }

  class Signal3D {
    const edge: Edge3D
    const speed: real
    const size: real
    const startTime: real
    const scene: Scene
    const meshId: nat
    var progress: real
    var direction: Direction
    var mesh: Mesh
    var disposed: bool

    function Now(): Travel
      reads this
    {
      Travel(progress, direction)
    }

    predicate Valid()
      reads this
    {
      0.0 <= progress <= 1.0
    }

    /**
     * `new Signal3D(edge, startTime)`: a random start on the edge, moving
     * forward; a sphere at the full opacity in the theme's signal colour, added to the scene.
     */
    constructor (e: Edge3D, start: real, draw: real, speedMultiplier: real, opacity: real, colour: string, scene: Scene)
      requires scene.Valid()
      modifies scene
      ensures edge == e && startTime == start && speed == 0.005 * speedMultiplier && size == 4.0 && this.scene == scene
      ensures Now() == Travel(draw, Forward)
      ensures C2.UnitDraw(draw) ==> Valid() && progress < 1.0
      ensures mesh == Mesh(Point3(0.0, 0.0, 0.0), 1.0, opacity, ParseColour(colour), true) && !disposed
      ensures meshId !in old(scene.members) && scene.members == old(scene.members) + {meshId}
      ensures scene.next == old(scene.next) + 1 && scene.Valid()
    {
      edge := e;
      progress := draw;
      speed := 0.005 * speedMultiplier;
      size := 4.0;
      startTime := start;
      direction := Forward;
      mesh := Mesh(Point3(0.0, 0.0, 0.0), 1.0, opacity, ParseColour(colour), true);
      disposed := false;
      this.scene := scene;
      var id := scene.Add();
      meshId := id;
    }

    /** `update`: the same ping-pong as the 2D signal. */
    method Update()
      modifies this`progress, this`direction
      ensures Now() == PingPong(old(Now()), speed)
      ensures Valid()
    {
      progress := progress + Velocity(speed, direction);
      if progress >= 1.0 {
        progress := 1.0;
        direction := Backward;
      } else if progress <= 0.0 {
        progress := 0.0;
        direction := Forward;
      }
    }

    /**
     * `draw(globalPhase, signalColor)`: on an inactive edge the sphere is
     * hidden and nothing else changes; on an edge without waypoints it is
     * shown and nothing else changes; on an edge of a single waypoint it is
     * shown and the lookup of the next waypoint throws; otherwise it is placed on the edge at
     * `progress` of the route's length (with the corrected segment lookup),
     * moved by node1's float offsets and up the scroll, scaled and faded with sin(globalPhase).
     */
    method Draw(norm: Norm3, trig: Trig, globalPhase: real, opacity: real, scroll: real, colour: string)
      returns (threw: bool)
      requires Valid() && Norm3Like(norm)
      modifies this`mesh
      ensures threw <==> edge.active && |edge.pathPoints| == 1
      ensures !edge.active ==> mesh == old(mesh).(visible := false)
      ensures edge.active && |edge.pathPoints| <= 1 ==> mesh == old(mesh).(visible := true)
      ensures Shown(this, norm, trig, globalPhase, opacity, scroll, colour)
    {
      threw := false;
      if !edge.active {
        mesh := mesh.(visible := false);
        return;
      }
      mesh := mesh.(visible := true);
      var pulse := trig.sin(globalPhase);
      var signalOpacity := C2.Pulsed(opacity, pulse, 1.0, 0.3);
      var signalScale := C2.Pulsed(1.0, pulse, 1.0, 0.2);
      var path := edge.pathPoints;
      if |path| == 0 {
        return;
      }
      if |path| == 1 {
        // Reading the waypoint after the only one throws a TypeError.
        return true;
      }
      var l := Place(norm, path, progress);
      var dx, dz := edge.node1.x - edge.node1.baseX, edge.node1.z - edge.node1.baseZ;
      mesh := Mesh(Placed(path, l, dx, dz, scroll), signalScale, signalOpacity, ParseColour(colour), true);
    }

    method Dispose()
      modifies this`disposed, scene
      ensures disposed && scene.members == old(scene.members) - {meshId} && scene.next == old(scene.next)
      ensures old(scene.Valid()) ==> scene.Valid()
    {
      disposed := true;
      scene.Remove(meshId);
    }
  }

  /**
   * The sphere `Signal3D.draw` leaves: hidden on an inactive edge; on an
   * active edge of at least two waypoints, shown at `progress` of the
   * route's length (with the corrected segment lookup), moved by node1's
   * float offsets and up the scroll, scaled and faded with sin(globalPhase),
   * in the theme's signal colour.
   */
  predicate Shown(s: Signal3D, norm: Norm3, trig: Trig, globalPhase: real, opacity: real, scroll: real, colour: string)
    reads s, s.edge.node1
  {
    && (!s.edge.active ==> !s.mesh.visible)
    && (s.edge.active && |s.edge.pathPoints| >= 2 ==>
          var ls := Lengths3(norm, s.edge.pathPoints);
          var l := LocateCorrected(ls, HeadTarget(s.progress, Sum(ls)));
          && l.index + 1 < |s.edge.pathPoints| && l.fraction.Finite?
          && s.mesh == Mesh(Placed(s.edge.pathPoints, l, s.edge.node1.x - s.edge.node1.baseX,
                                   s.edge.node1.z - s.edge.node1.baseZ, scroll),
                            C2.Pulsed(1.0, trig.sin(globalPhase), 1.0, 0.2), C2.Pulsed(opacity, trig.sin(globalPhase), 1.0, 0.3),
                            ParseColour(colour), true))
  }

  /** The point a locus names on a route, moved by the float offsets and up the scroll. */
  function Placed(path: seq<Point3>, l: Locus, dx: real, dz: real, scroll: real): Point3
    requires l.index + 1 < |path| && l.fraction.Finite?
  {
    Lerp3(Shift3(path[l.index], dx, scroll, dz), Shift3(path[l.index + 1], dx, scroll, dz), l.fraction.v)
  }

  /** The two loops of `Signal3D.draw`: the leg lengths, then the walk to the segment holding the target. */
  method Place(norm: Norm3, path: seq<Point3>, progress: real) returns (l: Locus)
    requires Norm3Like(norm) && |path| >= 2 && 0.0 <= progress <= 1.0
    ensures var ls := Lengths3(norm, path);
      l == LocateCorrected(ls, HeadTarget(progress, Sum(ls)))
    ensures l.index + 1 < |path| && l.fraction.Finite? && 0.0 <= l.fraction.v <= 1.0
  {
    var lengths, total := MeasurePath3(norm, path);
    Lengths3NonNegative(norm, path);
    NonNegativeSum(lengths);
    TrailTargetsInRange(progress, total);
    LocateCorrected_Spec(lengths, HeadTarget(progress, total));
    var index, fraction := FindSegmentCorrected(lengths, HeadTarget(progress, total));
    l := Locus(index, Finite(fraction));
  }

  lemma NonNegativeSum(ls: seq<real>)
    requires NonNegative(ls)
    ensures Sum(ls) >= 0.0
  {
    PrefixSumsGrow(ls, 0, |ls|);
    assert ls[..0] == [] && ls[..|ls|] == ls;
  }

  /**
   * At the near end of its route a signal whose first leg has zero length
   * (the anchors differ only in depth) is placed by the corrected lookup on
   * the route's first waypoint, where the lookup as written divides 0 by 0.
   */
  lemma SignalAtStartOfDegenerateRoute(norm: Norm3, a: Point3, b: Point3, length: real)
    requires Norm3Like(norm) && a.x == b.x && a.y == b.y
    ensures var path := Route3(a, b, length);
      var ls := Lengths3(norm, path);
      && Locate(ls, HeadTarget(0.0, Sum(ls))) == Locus(0, NaN)
      && LocateCorrected(ls, HeadTarget(0.0, Sum(ls))) == Locus(0, Finite(0.0))
  {
    var path := Route3(a, b, length);
    var ls := Lengths3(norm, path);
    Route3FirstLegDegenerate(a, b, length);
    assert ls[0] == norm(0.0, 0.0, 0.0) == 0.0;
    assert HeadTarget(0.0, Sum(ls)) == 0.0;
    Locate_ZeroFirstSegment(ls);
  }
}
