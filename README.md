# Circuit background, theme hook and environment configuration

This project is a Dafny model of the parts of the company website that run
without a server. It covers four pieces:

- **The animated circuit-board background.** There are two variants. The 2D
  one draws on a `<canvas>` (`CircuitBackground`). The 3D one builds a
  Three.js scene (`CircuitBackground3D`). Both scatter *nodes* over the page,
  grouped in clusters plus some scattered ones. Both join nearby nodes by
  *edges* routed like PCB traces: horizontal and vertical legs only. Both send
  *signals* back and forth along the active edges. Every frame they advance a
  global pulse phase and a vertical scroll offset, move the floating nodes, and
  draw or update everything in the colours of the current theme.
- **The `useTheme` hook.** It picks the initial theme from the saved
  preference or the configured default. It changes and toggles the theme. When
  a theme is applied, it writes the theme's colours as CSS custom properties,
  saves the choice in localStorage, and puts a `theme-<name>` class on the body.
- **The build-time configuration `config`.** It holds feature flags, the
  background's options, the default theme and service addresses. Each is read
  from an environment variable, with a default.

Modules, one per file:

- `Js` (js.dfy): JavaScript's numbers, including NaN; `||` on numbers; division; `trim`; `parseFloat` and `parseInt`
- `Geometry` (geometry.dfy): points, `Math.abs`, `min`, `max` and clamping, random scaling, the sin/cos and square-root oracles
- `Route` (route.dfy): `calculatePCBRoute` in 2D and 3D
- `ArcLength` (arclength.dfy): segment lengths and the search for the segment a signal is on
- `Colour` (colour.dfy): the `rgba?(...)` regular expression, colour fallbacks and `parseColor`
- `Motion` (motion.dfy): the phase wrap, the scroll wrap and the signals' ping-pong
- `Topology` (topology.dfy): node and cluster counts, and which node pairs become edges
- `Circuit2D` (circuit2d.dfy): the 2D `Node`, `Edge` and `Signal` classes
- `Canvas2D` (canvas2d.dfy): the 2D component's effect: set-up and the animation frame
- `Circuit3D` (circuit3d.dfy): the Three.js scene's membership, and `Node3D`, `Edge3D`, `Signal3D`
- `Background3D` (background3d.dfy): the 3D component's effect: set-up, listeners, the frame and clean-up
- `Theme` (theme.dfy): `useTheme`
- `Env` (env.dfy): `getEnvVar`, `getBooleanEnvVar` and `config`

Modelling choices:

- **Randomness.** `Math.random()`, `Math.sin`, `Math.cos` and `Math.sqrt` are
  parameters. Random draws are functions from a position (node number, edge
  number) to a value in [0, 1). The shuffle by a random comparator is any
  permutation of its input. The distance is a norm oracle: non-negative, zero
  exactly for the zero vector, and exact on vectors along one axis.
- **State changed in place.** The classes whose fields the source updates are
  Dafny classes: nodes, edges, signals, the canvas effect, the 3D scene and
  effect, and the theme hook. Their methods state the complete new state.
- **Numbers.** They are unbounded reals. NaN and the infinities are a separate
  constructor of `Num`, wherever the source can produce them (a 0/0 in the
  segment search, `parseFloat` of a non-number).

## Model

| member | source | states |
|---|---|---|
| Js.Or | src/config/env.js:30-36 | `n \|\| d` on numbers: a truthy number (finite and non-zero) is kept; 0 and NaN give the default |
| Js.Divide | src/components/CircuitBackground.js:310 | a non-zero divisor gives the quotient; a zero divisor gives a non-finite value, never a number |
| Js.Trim | src/components/CircuitBackground.js:41-43 | `trim()` is no longer than its input; the result neither starts nor ends with white space; it is empty exactly when the input is all white space |
| Js.TrimSlice | src/components/CircuitBackground.js:41-43 | `trim()` gives a slice of its input, with only white space before the slice and only white space after it |
| Js.ParseFloatDecimal | src/config/env.js:30-36 | `parseFloat` reads any text `digits` or `digits.digits` back as the number it denotes |
| Js.ParseFloatNoDigits | src/config/env.js:30-36 | `parseFloat` of a text with no digit and no `Infinity` is NaN |
| Geometry.Clamp | src/components/CircuitBackground.js:429-430 | `Math.max(lo, Math.min(hi, v))` is never below lo; it is at most hi when lo ≤ hi; it is v itself when v is in range; it is lo when the range is empty |
| Geometry.RandomScale | src/components/CircuitBackground.js:412-413 | `Math.random() * v` lies in [0, v], and strictly below v when v > 0 |
| Geometry.Sway | src/components/CircuitBackground.js:85-88 | a coordinate moved by a sine or cosine times an amplitude stays within that amplitude of its anchor |
| Geometry.Distance2Zero | src/components/CircuitBackground.js:150-152 | an edge's length is non-negative, and zero exactly when its two anchors coincide |
| Geometry.Distance3Zero | src/components/CircuitBackground3D.js:195-199 | the same for the 3D length |
| Motion.AdvancePhaseInRange | src/components/CircuitBackground.js:527-530 | a phase in [0, 2π) advanced by a step of at most 2π stays in [0, 2π); it is the plain sum while that is below 2π |
| Motion.AdvancePhaseLargeStep | src/components/CircuitBackground.js:527-530 | the single subtraction does not bring a step of two full turns back below 2π; the wrap relies on small steps |
| Motion.AdvanceScrollInRange | src/components/CircuitBackground.js:533-541 | an offset in [0, height], advanced by a step of at most the height, stays in [0, height]. It is the sum, or the sum less the height once the sum passes the height |
| Motion.AdvanceScrollAfterShrink | src/components/CircuitBackground.js:533-541 | after the canvas shrinks below the offset, one frame can leave the offset still above the new height |
| Motion.AdvanceScrollApproaches | src/components/CircuitBackground.js:538-540 | an offset above the height strictly decreases in one frame and stays positive |
| Motion.PingPong | src/components/CircuitBackground.js:265-276 | progress stays in [0, 1]. Reaching 1 or more gives exactly (1, backward). Reaching 0 or less gives (0, forward). Otherwise progress moves by speed × direction and the direction is kept |
| Motion.PingPongForward | src/components/CircuitBackground.js:265-276 | a forward signal strictly advances, and turns back exactly when it reaches 1 |
| Motion.PingPongBackward | src/components/CircuitBackground.js:265-276 | a backward signal strictly recedes, and turns forward exactly when it reaches 0 |
| Motion.PingPongNInRange | src/components/CircuitBackground.js:265-276 | progress stays in [0, 1] over any number of frames |
| Route.Route2 | src/components/CircuitBackground.js:159-205 | a route has 5 waypoints when the edge is longer than 150, else 4. It starts at node 1's anchor and ends at node 2's |
| Route.Route2Shape | src/components/CircuitBackground.js:166-202 | every leg is horizontal or vertical. The first leg moves along x exactly when \|dx\| > \|dy\| (horizontal first), and moves along y only otherwise |
| Route.Route2Manhattan | src/components/CircuitBackground.js:166-202 | the legs add up to \|dx\| + \|dy\|, so the route never doubles back |
| Route.Route2EndLegs | src/components/CircuitBackground.js:169-201 | between distinct anchors, the first and the last legs have non-zero length |
| Route.Route3 | src/components/CircuitBackground3D.js:219-266 | 5 waypoints above a 3D length of 150, else 4, from node 1's anchor to node 2's |
| Route.Route3Shape | src/components/CircuitBackground3D.js:219-266 | seen from above, a 3D route has the 2D route's waypoints. Its first leg stays at node 1's depth. Its depth changes add up to \|dz\| |
| Route.Route3Depths | src/components/CircuitBackground3D.js:235-257 | the interior depths: node 1's depth at the first corner, then 30% and 50% of dz on a long route, or 50% on a short one |
| Route.Route3FirstLegDegenerate | src/components/CircuitBackground3D.js:227-241 | the first leg has zero length exactly when the two anchors share x and y |
| ArcLength.Lengths2 | src/components/CircuitBackground.js:293-299 | one length per pair of consecutive waypoints, each the distance between them |
| ArcLength.Lengths3 | src/components/CircuitBackground3D.js:375-382 | the same in 3D |
| ArcLength.MeasurePath2 | src/components/CircuitBackground.js:290-299 | the measuring loop collects exactly `Lengths2`, and the total is their sum |
| ArcLength.MeasurePath3 | src/components/CircuitBackground3D.js:372-382 | the same for the 3D loop |
| ArcLength.PrefixSumsGrow | src/components/CircuitBackground.js:307-314 | with non-negative lengths, the distance before segment j is at most the distance before any later segment k |
| ArcLength.FindSegment | src/components/CircuitBackground.js:301-314 | the search loop, which breaks at the first segment whose end reaches the target, gives exactly `Locate`'s segment and fraction, NaN included |
| ArcLength.FindSegmentCorrected | src/components/CircuitBackground3D.js:384-397 | the corrected loop gives `LocateCorrected`'s segment and a finite fraction |
| ArcLength.Hit | src/components/CircuitBackground.js:308-310 | when a segment covers the target, its fraction is finite and in [0, 1], and it places the point at exactly the target |
| ArcLength.Locate_Spec | src/components/CircuitBackground.js:301-314 | take non-negative lengths and a target in [0, total], where the target is positive or the first segment is non-empty. The segment found is a valid index with a positive length. Its fraction is finite and in [0, 1]. The point it designates lies at exactly the target distance |
| ArcLength.LocateFrom_Spec | src/components/CircuitBackground.js:307-314 | the same, for the search resumed at segment i with the distance covered so far |
| ArcLength.Locate_Index | src/components/CircuitBackground.js:301-318 | the segment index is always valid, so `pathPoints[segmentIndex + 1]` exists, even when no segment matches |
| ArcLength.LocateFrom_Index | src/components/CircuitBackground.js:307-314 | the same for the resumed search |
| ArcLength.Locate_Start | src/components/CircuitBackground.js:301-314 | progress 0 with a non-empty first segment gives segment 0 at fraction 0 |
| ArcLength.Locate_End | src/components/CircuitBackground.js:301-314 | the full length gives the last segment at fraction 1, when that segment is non-empty |
| ArcLength.LocateFrom_End | src/components/CircuitBackground.js:307-314 | the same for the resumed search |
| ArcLength.TrailTargetsInRange | src/components/CircuitBackground.js:354-356 | the trail starts at a distance in [0, head distance], and the head distance is at most the total |
| ArcLength.TrailTargetBehind | src/components/CircuitBackground.js:354-356 | the trail's start distance is never ahead of the head's |
| ArcLength.PositionMonotone | src/components/CircuitBackground.js:301-370 | a larger target never gives an earlier point on the path, so the trail's start is never ahead of the signal |
| ArcLength.Locate_ZeroFirstSegment | src/components/CircuitBackground3D.js:384-397 | as written: an empty first segment with target 0 gives segment 0 with fraction NaN, from 0 / 0 |
| ArcLength.LocateCorrected_Spec | src/components/CircuitBackground3D.js:384-397 | corrected: a valid segment index and a finite fraction in [0, 1], for every target in [0, total] |
| ArcLength.LocateCorrectedFrom_Spec | src/components/CircuitBackground3D.js:390-397 | the same for the resumed corrected search |
| ArcLength.LocateCorrected_Agrees | src/components/CircuitBackground.js:301-314 | when the first segment is non-empty or the target is positive, so that the as-written search never divides 0 by 0, the corrected search gives the same segment and fraction |
| ArcLength.LocateCorrectedFrom_Agrees | src/components/CircuitBackground.js:307-314 | the same for the resumed searches, from a segment that is non-empty or starts before the target |
| ArcLength.Lerp2 | src/components/CircuitBackground.js:328-330 | fraction 0 gives the segment's start and fraction 1 its end |
| ArcLength.Lerp3 | src/components/CircuitBackground3D.js:415-418 | the same in 3D |
| Topology.NodeCountNonNegative | src/components/CircuitBackground.js:399-401 | a canvas of non-negative size at a non-negative density asks for a non-negative node count |
| Topology.FewNodesNoClusters | src/components/CircuitBackground.js:407 | fewer than 8 nodes make no cluster |
| Topology.ScatteredCountBounds | src/components/CircuitBackground.js:439 | the scattered count is a fifth of the node count, rounded down, and lies in [0, n] |
| Topology.ClusterSizesAsWritten | src/components/CircuitBackground.js:407-419 | as written: one size per cluster, where the clusters number `ClusterCount(n)` |
| Topology.ClusterSizesAsWrittenOvershoot | src/components/CircuitBackground.js:407-419 | for 148 nodes: 18 clusters, the last with size −5, and 153 nodes made |
| Topology.ClusterSizesAsWrittenTotal | src/components/CircuitBackground.js:407-419 | as written, whenever the last share is not negative: the sizes add up to exactly the node count, every cluster but the last has at least 8 nodes, and the last has no more than the first |
| Topology.ClusterSizesFloorTotal | src/components/CircuitBackground.js:407-419 | the rounded-down split, which the correction uses only when the source overshoots: the sizes add up to exactly the node count and each is at least 8 |
| Topology.ClusterSizes | src/components/CircuitBackground.js:407-419 | corrected: one size per cluster; whenever the source's last cluster keeps a non-negative share, exactly the source's sizes |
| Topology.ClusterSizesTotal | src/components/CircuitBackground.js:407-419 | the corrected sizes add up to exactly the node count, and none is negative |
| Topology.CandidatesUpToSpec | src/components/CircuitBackground.js:464-483 | node i's candidates are exactly the later nodes at a distance in [40, 250), in increasing order |
| Topology.FindCandidates | src/components/CircuitBackground.js:464-483 | the candidate loop computes `CandidatesUpTo` |
| Topology.ConnectionsToMakeBounds | src/components/CircuitBackground.js:487-489 | with at least two candidates, `connectionsToMake` lies between 2 and min(5, candidates) |
| Topology.ChosenSpec | src/components/CircuitBackground.js:494-500 | the chosen candidates come from the shuffled list, no more than the target. They are distinct when the list is |
| Topology.Connect | src/components/CircuitBackground.js:494-500 | the connection loop computes `Chosen` |
| Topology.PermutationDistinct | src/components/CircuitBackground.js:492 | a permutation of a list without repeats has no repeats, so the shuffle repeats no candidate |
| Topology.PartnersSpec | src/components/CircuitBackground.js:485-500 | whatever the shuffle, node i's partners are distinct later nodes at a distance in [40, 250), at most min(5, candidates) of them |
| Topology.SelectEdges | src/components/CircuitBackground.js:459-501 | the outer loop computes `EdgePairsUpTo` |
| Topology.EdgePairsInBand | src/components/CircuitBackground.js:453-504 | every edge joins a node i to a later node j at a distance in [40, 250) |
| Topology.EdgePairsDistinct | src/components/CircuitBackground.js:453-504 | no pair of nodes is joined twice |
| Topology.EdgePairsDegree | src/components/CircuitBackground.js:453-504 | each node starts at most min(5, its candidates) edges |
| Topology.TrueIndices | src/components/CircuitBackground.js:507-515 | the indices of the active edges: every active edge, no inactive one, in increasing order |
| Topology.TrueUpToSpec | src/components/CircuitBackground.js:509-513 | the same for a prefix of the edges |
| Colour.Search | src/components/CircuitBackground.js:111 | a match of `rgba?\((\d+),\s*(\d+),\s*(\d+)(?:,\s*([\d.]+))?\)` has three non-empty digit groups and an optional non-empty group of digits and dots |
| Colour.FirstMatchFrom | src/components/CircuitBackground.js:111 | the search finds the first position where the pattern matches, with no match before it; when it finds none, there is none |
| Colour.MatchAtWellFormed | src/components/CircuitBackground.js:111 | every match at a position has well-formed groups |
| Colour.SearchAtStart | src/components/CircuitBackground.js:111 | a match at position 0 is the match found |
| Colour.MatchLaidOut | src/components/CircuitBackground.js:111 | a text laid out as the pattern describes matches at 0 with exactly those groups |
| Colour.MatchFormat | src/components/CircuitBackground.js:121 | round trip: `rgba(r, g, b[, a])` built from well-formed groups is matched back to the same groups |
| Colour.PropertyOr | src/components/CircuitBackground.js:41-43 | `value.trim() \|\| fallback` is never empty. It is the trimmed value when that is not blank, and the fallback when the value is all white space |
| Colour.GetThemeColours | src/components/CircuitBackground.js:38-45 | each colour is non-empty and starts with a non-white-space character. A property whose trimmed value is not blank gives that trimmed value. An unset or all-white-space property gives the default literal |
| Colour.DefaultNodeColourMatches | src/components/CircuitBackground.js:41 | the node colour's default matches the pattern with groups 26, 54, 93, 0.6 |
| Colour.DefaultEdgeColourMatches | src/components/CircuitBackground.js:42 | the edge colour's default matches with 26, 54, 93, 0.5 |
| Colour.DefaultSignalColourMatches | src/components/CircuitBackground.js:43 | the signal colour's default matches with 14, 165, 233, 0.9 |
| Colour.NodeEdgeStyle | src/components/CircuitBackground.js:111-140 | with no match, the style is `rgba(26, 54, 93, opacity)`. With a match, it keeps the matched channel texts, and its alpha is `parseFloat(alpha) × opacity`, or the opacity when there is no alpha group |
| Colour.NodeEdgeStyleFormat | src/components/CircuitBackground.js:111-128 | the colour `rgba(r, g, b, i.f)` is drawn with channels r, g, b and alpha i.f × opacity |
| Colour.StyleOfMatch | src/components/CircuitBackground.js:111-128 | a matched colour whose alpha parses to v is drawn with alpha v × opacity |
| Colour.GetSignalColour | src/components/CircuitBackground.js:333-340 | with no match: 14, 165, 233 and 0.9. With a match: the `parseInt` of each channel; the alpha is the `parseFloat` of the alpha group, or 0.9 when that group is missing |
| Colour.MinOne | src/components/CircuitBackground.js:344 | `Math.min(x, 1)` is at most 1 when finite, and x itself when x ≤ 1 |
| Colour.GetSignalAlphas | src/components/CircuitBackground.js:343-384 | for a finite base, the middle alpha is base × opacity, the centre is `Math.min` of twice that and 1, the rim is 0, and the trail's head is half the middle. The centre never exceeds 1 |
| Colour.ParseColour | src/components/CircuitBackground3D.js:79-91 | an empty or unmatched text gives the default (0.1, 0.21, 0.36); a match gives each channel / 255 |
| Colour.ParseColourInUnitCube | src/components/CircuitBackground3D.js:83-88 | channels up to 255 give components in [0, 1] |
| Circuit2D.Node.constructor | src/components/CircuitBackground.js:59-71 | the node starts at rest on its anchor. Its radius is 2 + 3 × draw; it is hollow exactly when its draw exceeds 0.6; its phases are draw × 2π; its float speed and amplitude follow the source's formulas |
| Circuit2D.Node.Update | src/components/CircuitBackground.js:73-93 | the new position and phases are `Next` of the old ones, which `FloatWithinAmplitude` and `NextKeepsValid` bound |
| Circuit2D.FloatWithinAmplitude | src/components/CircuitBackground.js:84-92 | after an update, x is within half the amplitude of the anchor and y within the amplitude; with floating off, the node sits on its anchor |
| Circuit2D.NextKeepsValid | src/components/CircuitBackground.js:79-83 | the float phase stays in [0, 2π) |
| Circuit2D.Node.Look | src/components/CircuitBackground.js:102-142 | the dot sits at the scrolled position and keeps the node's hollowness. Its opacity lies between 0.2 and 0.8 of the given opacity, and its radius between 0.8 and 1.2 of the node's. Its style comes from `NodeEdgeStyle` |
| Circuit2D.Pulsed | src/components/CircuitBackground.js:107-108 | v × (base + pulse × depth) lies between (base − depth) × v and (base + depth) × v |
| Circuit2D.Edge.constructor | src/components/CircuitBackground.js:147-157 | the length is the anchors' distance; the edge is active exactly when its draw exceeds 0.7; the path is `Route2` |
| Circuit2D.Edge.Draw | src/components/CircuitBackground.js:207-251 | the stroke is the edge's `Polyline`; its opacity and width pulse with the global phase; its style comes from `NodeEdgeStyle` |
| Circuit2D.Polyline | src/components/CircuitBackground.js:218-235 | an empty path draws the straight line between the nodes. Otherwise: node 1's position, then waypoints 1 onwards shifted by node 1's sway and the scroll, then node 2's position |
| Circuit2D.Trace | src/components/CircuitBackground.js:224-234 | the drawing loop produces exactly the `Polyline` |
| Circuit2D.PolylineAtRest | src/components/CircuitBackground.js:218-235 | with no sway, the polyline is the route moved down by the scroll, followed by its end once more |
| Circuit2D.TranslateAxisAligned | src/components/CircuitBackground.js:226-232 | the route moved by the scroll stays made of horizontal and vertical legs |
| Circuit2D.Signal.constructor | src/components/CircuitBackground.js:256-263 | a signal starts at progress 0, moving forward, with speed 0.005 × multiplier and size 4 |
| Circuit2D.Signal.Update | src/components/CircuitBackground.js:265-276 | the new travel state is `PingPong` of the old one |
| Circuit2D.Signal.Draw | src/components/CircuitBackground.js:278-392 | nothing is drawn exactly when the edge is inactive or its path empty. Otherwise the head and the trail are at `Locate` of their targets. Both points are on the path, shifted by the sway and the scroll. The opacity, radius and trail width pulse. The colour and alphas come from `GetSignalColour` and `GetSignalAlphas` |
| Circuit2D.PlaceOnPath | src/components/CircuitBackground.js:290-370 | the measuring loop and both search loops give `Locate` of the head and trail targets, and both indices leave room for index + 1 |
| Circuit2D.LengthsNonNegative | src/components/CircuitBackground.js:293-297 | segment lengths are non-negative |
| Circuit2D.GlowOnPath | src/components/CircuitBackground.js:301-370 | on a route with a non-empty first leg, the head lies at exactly progress × total and the trail no further along |
| Circuit2D.GlowOnLengths | src/components/CircuitBackground.js:301-370 | the same stated on the segment lengths |
| Circuit2D.RouteFirstLeg | src/components/CircuitBackground.js:169-201 | a route between distinct anchors has a non-empty first leg, so the 2D search never divides 0 by 0 |
| Canvas2D.DrawOffsets | src/components/CircuitBackground.js:570-577 | one or two copies of the pattern are drawn, the last at the scroll offset |
| Canvas2D.DrawOffsetsCover | src/components/CircuitBackground.js:570-577 | while the offset is in [0, height], every row of the canvas is covered by a drawn copy |
| Canvas2D.DrawOffsetsGapAfterShrink | src/components/CircuitBackground.js:570-577 | once a shrink leaves the offset above the height, no copy covers the top row |
| Canvas2D.SeparationOf | src/components/CircuitBackground.js:466-468 | the distance of nodes i and j is the norm of the absolute differences of their anchors |
| Canvas2D.BandedAnchorsDiffer | src/components/CircuitBackground.js:470 | two nodes at a distance in [40, 250) have distinct anchors |
| Canvas2D.Canvas.constructor | src/components/CircuitBackground.js:30-56 | the canvas is sized as `resizeCanvas` says, with phase and scroll at 0 and the options kept. Then it is `Populated`: the nodes laid out as `initNodes` says, an edge for every pair `SelectEdges` picks, one signal per active edge in order; every node, edge and signal is new and appears once |
| Canvas2D.Canvas.Populate | src/components/CircuitBackground.js:517-520 | `Populated`: the nodes as `InitNodes` lays them out, the edges `SelectEdges` picks between them, and one signal per active edge started as `initSignals` starts it; all of them new, each once, every route of two points or more |
| Canvas2D.Canvas.Resize | src/components/CircuitBackground.js:48-53 | the size is the client size, or the window's inner size where the client size is 0 |
| Canvas2D.Canvas.InitNodes | src/components/CircuitBackground.js:396-450 | it makes clustered + scattered nodes, each new and built with its float offset beside it, none twice. The cluster nodes lie within the 20-pixel margin and the scattered ones on the canvas |
| Canvas2D.Canvas.MakeClusters | src/components/CircuitBackground.js:410-436 | n new, distinct nodes, each within the margin |
| Canvas2D.Canvas.MakeScattered | src/components/CircuitBackground.js:438-446 | the scattered count of new nodes is appended, each on the canvas, and the earlier nodes are kept |
| Canvas2D.Canvas.ScatterNode | src/components/CircuitBackground.js:441-445 | a scattered node at (draw × width, draw × height), on the canvas |
| Canvas2D.Canvas.MakeNode | src/components/CircuitBackground.js:432-434 | a new node anchored at the point, with float offset draw × 2π |
| Canvas2D.Canvas.InitEdges | src/components/CircuitBackground.js:453-504 | one new edge per pair `SelectEdges` picks, in order, joining those nodes and active exactly when its draw exceeds 0.7. Every route has two points or more, and a non-empty first leg when the distance is a norm |
| Canvas2D.Canvas.MakeEdges | src/components/CircuitBackground.js:495-500 | one new edge per pair, joining its two nodes |
| Canvas2D.Canvas.MakeEdge | src/components/CircuitBackground.js:497 | a new edge between the nodes, active as drawn |
| Canvas2D.Canvas.InitSignals | src/components/CircuitBackground.js:507-515 | one signal per active edge, in edge order, started at index × 0.1, at rest at the start, none twice |
| Canvas2D.Canvas.StartNext | src/components/CircuitBackground.js:509-513 | one step of `forEach`: edge e is handled and the signals so far match the active edges before e + 1 |
| Canvas2D.Canvas.UpdateNodes | src/components/CircuitBackground.js:544-546 | every node's new state is `Next` of its old one |
| Canvas2D.Canvas.UpdateSignals | src/components/CircuitBackground.js:549-551 | every signal's new travel state is `PingPong` of its old one |
| Canvas2D.Canvas.DrawEdges | src/components/CircuitBackground.js:559 | one stroke per edge, each that edge's polyline in the edge colour |
| Canvas2D.Canvas.DrawSignals | src/components/CircuitBackground.js:562-564 | one glow per signal, drawn exactly for the active edges, with the head at `Locate` of its target |
| Canvas2D.Canvas.DrawNodes | src/components/CircuitBackground.js:567 | one dot per node, each `Node.Look` |
| Canvas2D.Canvas.DrawPattern | src/components/CircuitBackground.js:557-568 | the pattern at the offset: each edge's traced polyline in the edge colour, each signal's glow (drawn exactly for the active edges, at `Locate` of its target), and each node's `Look`, in order |
| Canvas2D.Canvas.Advance | src/components/CircuitBackground.js:526-541 | the phase advances by 0.015 × speed with wrap. With vertical scrolling, the scroll advances by 0.2 × speed with wrap; otherwise it is unchanged |
| Canvas2D.Canvas.Paint | src/components/CircuitBackground.js:570-577 | one pattern per drawn offset, in order, each the full `DrawPattern` at that offset |
| Canvas2D.Canvas.Animate | src/components/CircuitBackground.js:523-580 | one frame: the phase and the scroll advance, every node moves to `Next` of its state, every signal ping-pongs once, and the frame is the patterns at the draw offsets in the theme's current colours; the set-up's invariants hold |
| Circuit3D.Scene.constructor | src/components/CircuitBackground3D.js:43-44 | a new scene is empty |
| Circuit3D.Scene.Add | src/components/CircuitBackground3D.js:127 | `scene.add` adds a fresh mesh and nothing else |
| Circuit3D.Scene.Remove | src/components/CircuitBackground3D.js:186 | `scene.remove` removes that mesh and nothing else |
| Circuit3D.Node3D.constructor | src/components/CircuitBackground3D.js:95-128 | the node starts on its anchor with the 2D node's drawn attributes. Its mesh is at the anchor, with opacity × 0.4 when hollow and × 0.6 otherwise, in the parsed node colour. Exactly that mesh is added to the scene |
| Circuit3D.Node3D.Float | src/components/CircuitBackground3D.js:130-152 | the new state is `Next` of the old one |
| Circuit3D.FloatWithinAmplitude3 | src/components/CircuitBackground3D.js:135-152 | x stays within half the amplitude, y within the amplitude and z within 0.3 of it; with floating off, the node sits on its anchor |
| Circuit3D.NextKeepsValid3 | src/components/CircuitBackground3D.js:132-139 | the float phase stays in [0, 2π) and the pulse phase becomes global + offset |
| Circuit3D.Node3D.Look | src/components/CircuitBackground3D.js:154-171 | the mesh is at the node's position moved by the total scroll. Its scale is in [0.8, 1.2]. Its opacity lies between 0.2 × opacity (× 0.6 when hollow) and 0.8 × opacity. Its colour is the parsed node colour |
| Circuit3D.Node3D.Update | src/components/CircuitBackground3D.js:130-172 | the state becomes `Next` of the old one and the mesh becomes `Look` of the new state |
| Circuit3D.Node3D.Dispose | src/components/CircuitBackground3D.js:183-187 | the node's mesh leaves the scene and the node is disposed |
| Circuit3D.Vertices | src/components/CircuitBackground3D.js:268-291 | the line starts at node 1's position and ends at node 2's; the interior waypoints are shifted by node 1's x and z sway and the scroll; a path shorter than two points still gives two vertices |
| Circuit3D.VerticesOf | src/components/CircuitBackground3D.js:279-290 | a list built as the loop builds it is `Vertices` |
| Circuit3D.LineBuffer | src/components/CircuitBackground3D.js:279-295 | the loop that fills the position buffer produces exactly the flattened `Vertices`, which `GeometrySize` describes |
| Circuit3D.GeometrySize | src/components/CircuitBackground3D.js:292-295 | the position buffer holds 3 numbers per waypoint, starting with node 1's coordinates and ending with node 2's |
| Circuit3D.Edge3D.constructor | src/components/CircuitBackground3D.js:192-217 | the length is the anchors' 3D distance; the edge is active exactly when its draw exceeds 0.7; the route is `Route3`. The position buffer is the flattened `Vertices` between its nodes' positions. The opacity is 0.4 × opacity and the colour the parsed edge colour. Exactly its new line is added to the scene |
| Circuit3D.Edge3D.UpdateGeometry | src/components/CircuitBackground3D.js:268-296 | the position buffer becomes the flattened `Vertices` at the current scroll |
| Circuit3D.Edge3D.Update | src/components/CircuitBackground3D.js:298-311 | the buffer is refreshed, the opacity pulses as in 2D, and the colour is re-parsed |
| Circuit3D.Edge3D.Dispose | src/components/CircuitBackground3D.js:313-317 | the edge's line leaves the scene |
| Circuit3D.Lengths3NonNegative | src/components/CircuitBackground3D.js:375-381 | 3D segment lengths are non-negative |
| Circuit3D.Signal3D.constructor | src/components/CircuitBackground3D.js:322-341 | a signal starts at a random progress in [0, 1), moving forward, with speed 0.005 × multiplier and size 4. Its mesh is added to the scene |
| Circuit3D.Signal3D.Update | src/components/CircuitBackground3D.js:343-353 | the new travel state is `PingPong` of the old one |
| Circuit3D.Signal3D.Draw | src/components/CircuitBackground3D.js:355-429 | an inactive edge hides the mesh. An empty path leaves it visible and unmoved. A one-point path throws. Otherwise the mesh moves to the located point on the route, with pulsed scale and opacity and the parsed colour |
| Circuit3D.Signal3D.Dispose | src/components/CircuitBackground3D.js:431-435 | the signal's mesh leaves the scene |
| Circuit3D.Place | src/components/CircuitBackground3D.js:372-397 | the measuring and search loops give the corrected locus of the head, with a valid index and a fraction in [0, 1] |
| Circuit3D.SignalAtStartOfDegenerateRoute | src/components/CircuitBackground3D.js:384-397 | for anchors sharing x and y, at progress 0, the as-written search gives fraction NaN and the corrected one gives the route's start |
| Background3D.Frustum | src/components/CircuitBackground3D.js:49-53 | the camera spans exactly the width and the height, centred on the origin |
| Background3D.Centred | src/components/CircuitBackground3D.js:449-451 | `(Math.random() - 0.5) * v` lies in [−v/2, v/2] |
| Background3D.Background.constructor | src/components/CircuitBackground3D.js:38-66 | the first part of the effect: the options are kept, the camera is the container's frustum and the renderer has the container's size, phase and scrolls are 0, the new scene is empty with no nodes, edges or signals yet, the canvas is attached, and no listener or frame is pending |
| Background3D.Background.Populate | src/components/CircuitBackground3D.js:559-562 | into the empty scene: the nodes are placed as `initNodes` says, the edges are the pairs `SelectEdges` picks, and one signal is launched per active edge; the scene then holds exactly their meshes, each once |
| Background3D.Background.InitGraph | src/components/CircuitBackground3D.js:560-561 | the nodes as `initNodes` places them and the edges `SelectEdges` picks among them; the scene holds exactly their meshes |
| Background3D.Background.AddListeners | src/components/CircuitBackground3D.js:564-581 | the scroll and resize listeners are on |
| Background3D.Background.InitNodes | src/components/CircuitBackground3D.js:439-487 | clustered + scattered new distinct nodes. The cluster nodes lie in the clamped box and the scattered ones in the centred volume. The scene gains exactly their meshes |
| Background3D.Background.MakeClusters | src/components/CircuitBackground3D.js:448-474 | n new, distinct nodes inside the box, and the scene gains their meshes |
| Background3D.Background.MakeCluster | src/components/CircuitBackground3D.js:458-473 | one cluster: size more distinct nodes inside the box, the earlier ones kept, and the scene gains exactly their meshes |
| Background3D.Background.ClusterNode | src/components/CircuitBackground3D.js:458-473 | one cluster node clamped into the box |
| Background3D.Background.MakeScattered | src/components/CircuitBackground3D.js:476-484 | the scattered nodes are appended in the volume and the earlier ones kept |
| Background3D.Background.MakeNode | src/components/CircuitBackground3D.js:471-472 | a new node at the point, with float offset draw × 2π, whose mesh joins the scene |
| Background3D.Background.InitEdges | src/components/CircuitBackground3D.js:490-538 | one new edge per pair `SelectEdges` picks over the 3D distance, joining those nodes, and the scene gains their lines |
| Background3D.MakeEdges | src/components/CircuitBackground3D.js:528-534 | one new, distinct edge per pair, joining its two nodes; the scene gains exactly their lines |
| Background3D.MakeEdge | src/components/CircuitBackground3D.js:531 | a new edge between the two nodes, active as drawn, whose line joins the scene |
| Background3D.Background.InitSignals | src/components/CircuitBackground3D.js:541-549 | one signal per active edge, in order, started at index × 0.1 from its drawn progress, and the scene gains their meshes |
| Background3D.LaunchSignals | src/components/CircuitBackground3D.js:543-547 | the `forEach` loop: one new signal per active edge, in edge order, each launched on that edge; the scene gains exactly their meshes |
| Background3D.LaunchNext | src/components/CircuitBackground3D.js:543-547 | one step of `forEach`: edge e is handled, and the signals so far are those of the active edges before e + 1 |
| Background3D.MakeSignal | src/components/CircuitBackground3D.js:545 | a new signal on the edge, started at index × 0.1 from its drawn progress, whose mesh joins the scene |
| Background3D.Background.HandleScroll | src/components/CircuitBackground3D.js:552-557 | with vertical scrolling, the page offset becomes `(scrollY \|\| pageYOffset) × 0.1`; otherwise it is unchanged |
| Background3D.Background.HandleResize | src/components/CircuitBackground3D.js:569-580 | the camera and the renderer take the new size; the nodes, edges and signals are not rebuilt |
| Background3D.Background.Advance | src/components/CircuitBackground3D.js:591-606 | the phase and the scroll advance as in 2D, with the height fixed at set-up |
| Background3D.Background.UpdateNodes | src/components/CircuitBackground3D.js:611-616 | every node is moved and restyled with the total scroll and the node colour |
| Background3D.Background.UpdateEdges | src/components/CircuitBackground3D.js:618-623 | every edge's buffer, opacity and colour are refreshed |
| Background3D.Background.UpdateMeshes | src/components/CircuitBackground3D.js:611-623 | every node moves to `Next` of its state and is restyled, then every edge's buffer, opacity and colour are refreshed |
| Background3D.Background.UpdateSignals | src/components/CircuitBackground3D.js:625-631 | every signal ping-pongs once from its old travel state; its mesh is then placed as `Signal3D.Draw` places it (at the located point of the route, with pulsed scale and opacity and the parsed colour), and shown exactly when its edge is active; the nodes are untouched |
| Background3D.UpdateEach | src/components/CircuitBackground3D.js:626-631 | the loop: each distinct signal, in turn, ping-pongs once and is redrawn |
| Background3D.UpdateSignal | src/components/CircuitBackground3D.js:628-629 | `update` then `draw`: the travel state is `PingPong` of the old one and the mesh is `Draw` of the new one |
| Background3D.Background.Redraw | src/components/CircuitBackground3D.js:611-631 | every node moves to `Next` of its state and every signal ping-pongs once and is redrawn; the signals stay on routes of two points or more |
| Background3D.Background.Step | src/components/CircuitBackground3D.js:591-631 | the phase and the scroll advance one frame, every node moves to `Next` of its state, every signal ping-pongs and is redrawn, and the scene still holds exactly the meshes of the nodes, edges and signals |
| Background3D.Background.Animate | src/components/CircuitBackground3D.js:584-640 | without a renderer, scene or camera, nothing changes and no frame is requested. Otherwise the phase and the scroll advance, the next frame is requested, and an error from rendering is logged |
| Background3D.Background.Cleanup | src/components/CircuitBackground3D.js:645-663 | the listeners are removed, every node, edge and signal is disposed and the scene left empty, no frame is pending, and the renderer is detached and disposed |
| Background3D.Background.DisposeAll | src/components/CircuitBackground3D.js:650-652 | the three `dispose` loops: every node, edge and signal is disposed and the scene is left empty |
| Background3D.Background.DisposeNodes | src/components/CircuitBackground3D.js:650 | every node is disposed and exactly their meshes leave the scene |
| Background3D.Background.DisposeEdges | src/components/CircuitBackground3D.js:651 | every edge is disposed and exactly their lines leave the scene |
| Background3D.Background.DisposeSignals | src/components/CircuitBackground3D.js:652 | every signal is disposed and exactly their meshes leave the scene |
| Theme.InitialTheme | src/hooks/useTheme.js:12-25 | the saved theme when `themes` knows it, else the configured default when known, else 'default' |
| Theme.ThemeHook.constructor | src/hooks/useTheme.js:12-25 | the hook starts in `InitialTheme` of the stored preference and leaves the document as it found it |
| Theme.ThemeHook.SetTheme | src/hooks/useTheme.js:46-50 | a known name becomes the theme; an unknown name changes nothing |
| Theme.IndexOf | src/hooks/useTheme.js:54 | `indexOf` gives the first index holding the name, or −1 exactly when it is absent |
| Theme.ThemeHook.ToggleTheme | src/hooks/useTheme.js:52-57 | 'default' goes to 'light' and 'light' to 'dark'. 'dark' stays 'dark', because 'default' is not a theme. A theme outside the order stays |
| Theme.ThemeHook.ApplyTheme | src/hooks/useTheme.js:29-44 | the effect throws exactly when the current theme has no palette, and then changes nothing. Otherwise it sets every colour property, saves the theme under `aess-theme`, and rewrites the body class |
| Theme.ThemeHook.SetColours | src/hooks/useTheme.js:32-34 | each colour's `--color-<key>` property holds its value; every other property is unchanged; no other property appears |
| Theme.PropertyNamesDiffer | src/hooks/useTheme.js:32-34 | distinct colour keys write distinct properties |
| Theme.StampedSnoc | src/hooks/useTheme.js:33 | one more `setProperty` extends the stamped state by one entry |
| Theme.SwitchTheme | src/hooks/useTheme.js:40-43 | for a body class of plain classes and `theme-<word>` classes, the new class list is the plain classes without repeats, then `theme-<current>` |
| Theme.BodyClassTokens | src/hooks/useTheme.js:40-43 | the new body class holds `theme-<current>`, has no repeated class, and every other class comes from the stripped old one |
| Theme.StrippedTokens | src/hooks/useTheme.js:40-42 | removing the `theme-\w+` runs and trimming leaves exactly the plain classes, in order |
| Theme.StripJoin | src/hooks/useTheme.js:41 | the global replace acts class by class on a space-separated list |
| Theme.StripThemeClass | src/hooks/useTheme.js:41 | a `theme-<word>` class disappears entirely |
| Theme.StripPlain | src/hooks/useTheme.js:41 | a class without `theme-` is untouched |
| Theme.StripKeepsPlain | src/hooks/useTheme.js:41 | after the replace, the non-empty classes are exactly the plain ones |
| Theme.StripThemes | src/hooks/useTheme.js:41 | the replace never lengthens the class |
| Theme.SplitTrim | src/hooks/useTheme.js:42 | trimming does not change the class list |
| Theme.SplitJoinClean | src/hooks/useTheme.js:43 | a list of classes without spaces, joined by spaces, splits back into the same list |
| Theme.KeepPlain | src/hooks/useTheme.js:40-42 | the plain classes: exactly the list's members that are plain |
| Theme.Dedup | src/hooks/useTheme.js:43 | the class list as `classList` sees it has no repeats and the same members |
| Theme.AddToken | src/hooks/useTheme.js:43 | `classList.add` keeps a list without repeats and adds exactly the new class |
| Env.GetEnvVar | src/config/env.js:6-8 | a variable set to a non-empty text gives that text; unset or empty gives the default |
| Env.GetEnvText | src/config/env.js:41-63 | the same with a text default, so a non-empty default gives a non-empty result |
| Env.GetBooleanEnvVar | src/config/env.js:10-14 | unset or empty gives the default; otherwise true exactly for "true" and "1" |
| Env.GetNumberEnvVar | src/config/env.js:30-36 | a set variable that parses to a non-zero number gives it; 0 and NaN give the fallback; an unset variable gives the default text's number or the fallback; a non-zero fallback always gives a non-zero number |
| Env.LoadConfig | src/config/env.js:16-65 | the numeric options are always non-zero numbers and the theme, Stripe mode and API address never empty. Blog and 3D are on unless set to something other than "true" or "1". The newsletter is on only when set to one of them |
| Env.UnsetGivesDefaults | src/config/env.js:16-65 | with no variable set, the configuration is exactly the defaults |
| Env.UnsetNumbers | src/config/env.js:30-32 | unset, opacity, speed and density are 0.2, 0.5 and 1.2 |
| Env.UnsetDepth | src/config/env.js:36 | unset, the depth is 1000 |
| Env.UnsetShortDecimal | src/config/env.js:30-32 | an unset option whose default text is "i.f" reads as i + f / 10 |
| Env.ParseShortDecimal | src/config/env.js:30-32 | `parseFloat("i.f")` is i + f / 10 |
| Env.ParseThousand | src/config/env.js:36 | `parseFloat("1000")` is 1000 |
| Env.ZeroFallsBack | src/config/env.js:30-36 | an option set to "0" cannot be configured: it takes the fallback |
| Env.DecimalConfigures | src/config/env.js:30-36 | an option set to a non-zero decimal takes exactly that value |

## Left out

- **Randomness and the maths library.** `Math.random`, `Math.sin`, `Math.cos`
  and `Math.sqrt` are parameters. The contracts hold for every draw in [0, 1)
  and every sine and cosine in [−1, 1]. Which numbers the browser produces is
  not modelled.
- **The shuffle `sort(() => Math.random() - 0.5)`.** It is any permutation of
  the candidates. The sort by score before it does not influence which edges
  are made, so it is not modelled.
- **Rendering.** The canvas 2D context, WebGL, Three.js geometry and materials
  and `renderer.render` are values. A stroke, dot or glow records what would be
  drawn; a mesh records position, scale, opacity, colour and visibility.
  Pixels, gradients, line joins and the wireframe flag are not modelled.
- **Float32.** `Float32BufferAttribute` is modelled as the exact list of
  coordinates; its rounding is left out.
- **Floating point.** Numbers are exact reals. `parseFloat`'s binary rounding
  and its overflow to Infinity are left out.
- **The browser.** `requestAnimationFrame`, `cancelAnimationFrame`, event
  listeners and React's effect scheduling are left out. A frame is one call of
  `Animate`. The 3D listeners and the pending frame are booleans. Only the
  first mount of each effect is modelled. Effects re-run when their
  dependencies change.
- **2D clean-up.** The 2D effect's clean-up only removes its resize listener
  and cancels its frame, so it has no state in the model.
- Background3D.Background.Animate: `renderThrows` is a parameter. Whether
  `renderer.render` throws depends on WebGL. `Animate` states the frame
  request, the log, the new phase and scroll, and that the scene still holds
  exactly the meshes; the per-element effects of the `try` are stated by `Step`.
- Background3D.Background.Step, Background3D.Background.Redraw: they state the
  nodes' and the signals' new states but not the edges'. The edges' refresh is
  stated by `UpdateEdges` and `UpdateMeshes`, but not carried past the
  signals' update, whose frame reasoning over the edges is too costly for the
  verifier.
- Background3D.Background.Populate: it does not restate that every node, edge
  and signal is new, nor each node's `Built3` attributes; `InitNodes`,
  `InitEdges` and `InitSignals` state those.
- **3D set-up.** The effect's set-up is split, in source order, into the
  constructor (scene, camera, renderer), `Populate` (nodes, edges, signals) and
  `AddListeners`.
- **Colour fallbacks.** `parseColor(...) || new THREE.Color(...)` always takes
  its first operand, because `parseColor` returns an object. The fallback is
  therefore not modelled. `parseColor` on a value that is not a string cannot
  happen, since the colours are strings.
- **Colour timing.** The 3D constructors read the theme colours when they run.
  In the model, the colours are read once for each phase of the set-up.
- **The camera.** Its near and far planes and its z position are left out.
  Only the frustum's sides are modelled.
- **The palettes.** The contents of `themes` (src/config/theme.js) are a
  parameter: the list of colour entries `ApplyTheme` writes. Only the key set
  is modelled, {'dark', 'light'}. This includes the members every object
  literal inherits, which `themes[name]` also finds. `theme` (useTheme.js:27)
  and `availableThemes` (useTheme.js:64) are that data and that key list.
- **Storage.** localStorage is a map from keys to texts. The root style is a
  map from custom property names to values. The body class is a text.
- Theme.SwitchTheme: its preconditions are that every class is either plain or
  `theme-<word>`, and that the theme name is a word. On contrived classes such
  as `xtheme-a`, the single-pass replace leaves a partial class; the exact
  result for those is given by `BodyClass`, but no list-level lemma.
- Circuit2D.Signal.Draw: requires a path of length other than 1. With one
  point, `pathPoints[1]` is undefined and the 2D draw throws. Every route has
  4 or 5 points, so that case cannot arise.
- Canvas2D.Canvas.Animate, Background3D.Background.Advance: after a resize
  shrinks the canvas, the scroll offset is not clamped into the new height.
  `AdvanceScrollApproaches` and `DrawOffsetsGapAfterShrink` state what happens
  then. The 2D resize does not rebuild the nodes, and neither does the 3D one.
- Canvas2D.Canvas.InitNodes, Background3D.Background.InitNodes: they use the
  corrected cluster sizes, which are the source's own whenever its last
  cluster keeps a non-negative share. See Findings.
- Circuit3D.Signal3D.Draw: uses the corrected search. See Findings.

## Findings

| source | as written | input that shows it | evidently intended | confidence | as-written member | corrected member |
|---|---|---|---|---|---|---|
| src/components/CircuitBackground.js:407-419 | every cluster gets `Math.ceil(nodeCount / clusterCount)` nodes and the last gets `nodeCount - cluster * nodesPerCluster` | nodeCount = 148: 18 clusters of 9 would need 162 nodes; the first 17 take 153 and the last is given −5, so 153 clustered nodes are made instead of 148 (the 3D variant, CircuitBackground3D.js:445-456, is the same) | the clusters share exactly `nodeCount` nodes, none of them a negative count; the corrected sizes are the source's own whenever the last share is not negative | not executed | Topology.ClusterSizesAsWrittenOvershoot | Topology.ClusterSizesTotal |
| src/components/CircuitBackground3D.js:384-397 | the segment search divides `(targetDistance - currentDistance) / segmentLengths[i]` even when the segment has length 0 | two 3D nodes that share x and y but are 40–250 apart in z: the route's first leg is empty, and at progress 0 the search computes 0 / 0, placing the signal at NaN | a signal at progress 0 sits at the route's start | not executed | ArcLength.Locate_ZeroFirstSegment | Circuit3D.SignalAtStartOfDegenerateRoute |
