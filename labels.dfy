/** `repel_labels`: a label node tied to a fixed data node per plotted point, an abstract
    force layout, the least-squares rescale that undoes the layout's scaling, and the
    expanded view limits. */
module LabelRepel {
  import opened Results
  import opened Reals
  import opened Collections
  import opened Regression

  // ---------------------------------------------------------------------------
  // Points, markers, graphs

  datatype Point = Point(x: real, y: real)

  /** One zipped input of `repel_labels`: a plotted position and its label text. */
  datatype Marker = Marker(at: Point, text: string)

  /** `'data_{0}'.format(label)`: the key of the fixed node under a label. */
  function DataKey(text: string): (k: string)
    ensures |k| == |text| + 5
  {
    "data_" + text
  }

  /** A directed graph as networkx keeps it: nodes in insertion order and, per node,
      its successors in insertion order. */
  datatype Graph = Graph(nodes: seq<string>, succ: map<string, seq<string>>)

  /** `G.add_node(n)`: a new node goes last; an existing one stays where it is. */
  function WithNode(g: Graph, n: string): (h: Graph)
    ensures n in h.succ
    ensures n in g.succ ==> h == g
  {
    if n in g.succ then g else Graph(g.nodes + [n], g.succ[n := []])
  }

  /** `G.add_edge(u, v)`: adds missing endpoints (`u` first), then `v` after `u`'s
      other successors unless the edge is already there. */
  function WithEdge(g: Graph, u: string, v: string): (h: Graph)
    ensures u in h.succ && v in h.succ && v in h.succ[u]
  {
    var g1 := WithNode(WithNode(g, u), v);
    if v in g1.succ[u] then g1 else Graph(g1.nodes, g1.succ[u := g1.succ[u] + [v]])
  }

  /** `G.edges()`: every node in order, each with its successors in order. */
  function EdgesFrom(nodes: seq<string>, succ: map<string, seq<string>>): seq<(string, string)> {
    if nodes == [] then []
    else Outgoing(nodes[0], succ) + EdgesFrom(nodes[1..], succ)
  }

  function Outgoing(n: string, succ: map<string, seq<string>>): seq<(string, string)> {
    if n in succ then seq(|succ[n]|, i requires 0 <= i < |succ[n]| => (n, succ[n][i])) else []
  }

  function Edges(g: Graph): seq<(string, string)> {
    EdgesFrom(g.nodes, g.succ)
  }

  // ---------------------------------------------------------------------------
  // What the construction loop builds (one step per marker)

  /** The graph after the loop has seen `ms`. */
  function Build(ms: seq<Marker>): Graph
    decreases |ms|
  {
    if ms == [] then Graph([], map[])
    else
      var m := ms[|ms| - 1];
      var g := Build(ms[..|ms| - 1]);
      WithEdge(WithNode(WithNode(g, DataKey(m.text)), m.text), m.text, DataKey(m.text))
  }

  /** `data_nodes`: one fixed key appended per marker. */
  function DataNodes(ms: seq<Marker>): (r: seq<string>)
    ensures |r| == |ms|
    decreases |ms|
  {
    if ms == [] then [] else DataNodes(ms[..|ms| - 1]) + [DataKey(ms[|ms| - 1].text)]
  }

  /** `init_pos`: both keys of every marker written with its position, later markers last. */
  function InitPos(ms: seq<Marker>): map<string, Point>
    decreases |ms|
  {
    if ms == [] then map[]
    else
      var m := ms[|ms| - 1];
      InitPos(ms[..|ms| - 1])[DataKey(m.text) := m.at][m.text := m.at]
  }

  /** The label texts of the markers. */
  function Labels(ms: seq<Marker>): set<string>
    decreases |ms|
  {
    if ms == [] then {} else Labels(ms[..|ms| - 1]) + {ms[|ms| - 1].text}
  }

  /** The keys the markers write: each label and its `data_` key. */
  function Keys(ms: seq<Marker>): set<string>
    decreases |ms|
  {
    if ms == [] then {}
    else Keys(ms[..|ms| - 1]) + {DataKey(ms[|ms| - 1].text)} + {ms[|ms| - 1].text}
  }

  /** Marker `m` writes `key` into `init_pos`. */
  predicate Writes(m: Marker, key: string) {
    key == DataKey(m.text) || key == m.text
  }

  // ---------------------------------------------------------------------------
  // Layout, rescale, limits

  /** `nx.spring_layout(G, pos=init_pos, fixed=data_nodes, k=k)`: a position per node.
      The force simulation is not modelled; any layout may be passed. */
  type Layout = (Graph, map<string, Point>, seq<string>, real) -> (string -> Point)

  /** `ax.annotate(text, xy=..., xytext=...)`: text at the label node, arrow to the data node. */
  datatype Annotation = Annotation(text: string, xy: Point, xytext: Point)

  /** What `repel_labels` leaves on the axes. */
  datatype Placement = Placement(
    scale: real,
    shift: Point,
    positions: map<string, Point>,
    annotations: seq<Annotation>,
    xlim: Bounds,
    ylim: Bounds)

  /** Why `repel_labels` raises. */
  datatype RepelError =
    | NoLabels             // `np.vstack` of no fixed positions
    | XFit(err: FitError)  // the fit along x fails
    | YFit(err: FitError)  // the fit along y fails

  function Xs(ps: seq<Point>): (r: seq<real>)
    ensures |r| == |ps|
  {
    seq(|ps|, i requires 0 <= i < |ps| => ps[i].x)
  }

  function Ys(ps: seq<Point>): (r: seq<real>)
    ensures |r| == |ps|
  {
    seq(|ps|, i requires 0 <= i < |ps| => ps[i].y)
  }

  /** `val * scale + shift` on a position. */
  function Rescaled(p: Point, scale: real, shift: Point): Point {
    Point(p.x * scale + shift.x, p.y * scale + shift.y)
  }

  /** The layout's output for the graph of `ms`. */
  function LaidOut(ms: seq<Marker>, layout: Layout, k: real): string -> Point {
    layout(Build(ms), InitPos(ms), DataNodes(ms), k)
  }

  /** `pos_after`: fixed nodes where the layout put them. */
  function FixedAfter(ms: seq<Marker>, layout: Layout, k: real): (r: seq<Point>)
    ensures |r| == |ms|
  {
    DataNodesLength(ms);
    var moved := LaidOut(ms, layout, k);
    seq(|ms|, i requires 0 <= i < |ms| => moved(DataNodes(ms)[i]))
  }

  /** `pos_before`: fixed nodes where `init_pos` put them. */
  function FixedBefore(ms: seq<Marker>): (r: seq<Point>)
    ensures |r| == |ms|
  {
    DataNodesInitialised(ms);
    seq(|ms|, i requires 0 <= i < |ms| => InitPos(ms)[DataNodes(ms)[i]])
  }

  /** `mins = np.min(all_pos - x_span * 0.15, 0)`, `maxs = np.max(all_pos + y_span * 0.15, 0)`:
      the x span widens both lower bounds and the y span both upper bounds. */
  function ViewLimits(ps: seq<Point>): (r: (Bounds, Bounds))
    requires |ps| > 0
    ensures r.0.lo <= r.0.hi && r.1.lo <= r.1.hi
  {
    var xs := Xs(ps);
    var ys := Ys(ps);
    var xSpan := MaxOf(xs) - MinOf(xs);
    var ySpan := MaxOf(ys) - MinOf(ys);
    MinOfIsLeast(xs);
    MaxOfIsGreatest(xs);
    MinOfIsLeast(ys);
    MaxOfIsGreatest(ys);
    AxisMargins(xs, xSpan * 0.15, ySpan * 0.15);
    AxisMargins(ys, xSpan * 0.15, ySpan * 0.15);
    (Bounds(MinOf(Shifted(xs, -(xSpan * 0.15))), MaxOf(Shifted(xs, ySpan * 0.15))),
     Bounds(MinOf(Shifted(ys, -(xSpan * 0.15))), MaxOf(Shifted(ys, ySpan * 0.15))))
  }

  /** One annotation per edge `(label, data_str)`. */
  function Annotations(edges: seq<(string, string)>, pos: map<string, Point>): (r: seq<Annotation>)
    requires forall e :: e in edges ==> e.0 in pos && e.1 in pos
    ensures |r| == |edges|
  {
    seq(|edges|, i requires 0 <= i < |edges| => Annotation(edges[i].0, pos[edges[i].1], pos[edges[i].0]))
  }

  /** `repel_labels(ax, x, y, labels, k)` over the zipped markers. */
  function Repel(ms: seq<Marker>, layout: Layout, k: real): (r: Result<Placement, RepelError>)
    ensures r == Err(NoLabels) <==> |ms| == 0
  {
    if |ms| == 0 then Err(NoLabels)
    else
      var after := FixedAfter(ms, layout, k);
      var before := FixedBefore(ms);
      var fitX := Fit(Xs(after), Xs(before));
      var fitY := Fit(Ys(after), Ys(before));
      if fitX.Err? then Err(XFit(fitX.error))
      else if fitY.Err? then Err(YFit(fitY.error))
      else
        Ok(Place(ms, LaidOut(ms, layout, k), fitY.value.slope, Point(fitX.value.intercept, fitY.value.intercept)))
  }

  /** Every node rescaled, then annotations and limits from the rescaled positions. */
  function Place(ms: seq<Marker>, moved: string -> Point, scale: real, shift: Point): Placement
    requires |ms| > 0
  {
    var g := Build(ms);
    var pos := Positions(g.nodes, moved, scale, shift);
    PlaceDefined(ms);
    var limits := ViewLimits(Listed(g.nodes, pos));
    Placement(scale, shift, pos, Annotations(Edges(g), pos), limits.0, limits.1)
  }

  /** The loop `for key, val in pos.items(): pos[key] = val * scale + shift`, as a map. */
  function Positions(nodes: seq<string>, moved: string -> Point, scale: real, shift: Point): map<string, Point> {
    map n | n in nodes :: Rescaled(moved(n), scale, shift)
  }

  /** `np.vstack(list(pos.values()))`: the positions in node order. */
  function Listed(nodes: seq<string>, pos: map<string, Point>): (r: seq<Point>)
    requires forall n :: n in nodes ==> n in pos
    ensures |r| == |nodes|
  {
    seq(|nodes|, i requires 0 <= i < |nodes| => pos[nodes[i]])
  }

  // ---------------------------------------------------------------------------
  // The construction: keys, positions, edges

  lemma {:induction false} DataNodesLength(ms: seq<Marker>)
    ensures |DataNodes(ms)| == |ms|
    ensures forall i :: 0 <= i < |ms| ==> DataNodes(ms)[i] == DataKey(ms[i].text)
    decreases |ms|
  {
    if ms != [] {
      DataNodesLength(ms[..|ms| - 1]);
    }
  }

  /** `init_pos` holds exactly the keys of the markers. */
  lemma {:induction false} InitPosKeys(ms: seq<Marker>)
    ensures InitPos(ms).Keys == Keys(ms)
    decreases |ms|
  {
    if ms != [] {
      InitPosKeys(ms[..|ms| - 1]);
    }
  }

  /** Every fixed node has an initial position. */
  lemma {:induction false} DataNodesInitialised(ms: seq<Marker>)
    ensures |DataNodes(ms)| == |ms|
    ensures forall i :: 0 <= i < |ms| ==> DataNodes(ms)[i] in InitPos(ms)
    decreases |ms|
  {
    if ms != [] {
      DataNodesInitialised(ms[..|ms| - 1]);
    }
  }

  /** The last marker writing a key decides its initial position. */
  lemma {:induction false} InitPosLastWriter(ms: seq<Marker>, key: string, i: nat)
    requires i < |ms| && Writes(ms[i], key)
    requires forall j :: i < j < |ms| ==> !Writes(ms[j], key)
    ensures key in InitPos(ms) && InitPos(ms)[key] == ms[i].at
    decreases |ms|
  {
    if i < |ms| - 1 {
      var p := ms[..|ms| - 1];
      InitPosLastWriter(p, key, i);
    }
  }

  /** The shape of the built graph over keys `keys` and label nodes `labels`: node list and
      successor map agree, no node twice, and a node has the one successor `data_<node>`
      exactly when it is a label. */
  ghost predicate Shaped(g: Graph, labels: set<string>, keys: set<string>) {
    && (forall n :: n in g.succ <==> n in g.nodes)
    && Distinct(g.nodes)
    && g.succ.Keys == keys
    && (forall n :: n in g.succ ==> g.succ[n] == (if n in labels then [DataKey(n)] else []))
  }

  lemma {:induction false} BuildShape(ms: seq<Marker>)
    ensures Shaped(Build(ms), Labels(ms), Keys(ms))
    decreases |ms|
  {
    if ms != [] {
      var p := ms[..|ms| - 1];
      var m := ms[|ms| - 1];
      var l := m.text;
      BuildShape(p);
      LabelsWithinKeys(p);
      var g0 := Build(p);
      var g1 := WithNode(g0, DataKey(l));
      NodeStep(g0, Labels(p), Keys(p), DataKey(l));
      var g2 := WithNode(g1, l);
      NodeStep(g1, Labels(p), Keys(p) + {DataKey(l)}, l);
      EdgeStep(g2, Labels(p), Keys(p) + {DataKey(l)} + {l}, l);
    }
  }

  /** A key is written exactly when some marker writes it; labels are keys. */
  lemma {:induction false} KeysWritten(ms: seq<Marker>)
    ensures forall key :: key in Keys(ms) <==> exists i :: 0 <= i < |ms| && Writes(ms[i], key)
    ensures forall t :: t in Labels(ms) <==> exists i :: 0 <= i < |ms| && ms[i].text == t
    decreases |ms|
  {
    if ms != [] {
      var p := ms[..|ms| - 1];
      KeysWritten(p);
      assert forall i :: 0 <= i < |p| ==> ms[i] == p[i];
    }
  }

  /** Marker `i` writes its label and its `data_` key. */
  lemma {:induction false} KeyOfMarker(ms: seq<Marker>, i: nat)
    requires i < |ms|
    ensures ms[i].text in Labels(ms)
    ensures ms[i].text in Keys(ms) && DataKey(ms[i].text) in Keys(ms)
    decreases |ms|
  {
    if i < |ms| - 1 {
      KeyOfMarker(ms[..|ms| - 1], i);
    }
  }

  lemma {:induction false} LabelsWithinKeys(ms: seq<Marker>)
    ensures Labels(ms) <= Keys(ms)
    ensures forall t :: t in Labels(ms) ==> DataKey(t) in Keys(ms)
    decreases |ms|
  {
    if ms != [] {
      LabelsWithinKeys(ms[..|ms| - 1]);
    }
  }

  /** `add_node` keeps the shape and adds the node's key. */
  lemma NodeStep(g: Graph, labels: set<string>, keys: set<string>, n: string)
    requires Shaped(g, labels, keys) && labels <= keys
    ensures Shaped(WithNode(g, n), labels, keys + {n})
  {
    if n !in g.succ {
      var h := WithNode(g, n);
      assert h.nodes == g.nodes + [n];
      assert forall x :: x in h.nodes <==> x in g.nodes || x == n;
    }
  }

  /** `add_edge(label, 'data_' + label)` between present nodes makes `label` a label node. */
  lemma EdgeStep(g: Graph, labels: set<string>, keys: set<string>, l: string)
    requires Shaped(g, labels, keys) && l in keys && DataKey(l) in keys
    ensures Shaped(WithEdge(g, l, DataKey(l)), labels + {l}, keys)
  {
    var d := DataKey(l);
    assert d != l by { assert |d| != |l|; }
    assert WithNode(WithNode(g, l), d) == g;
  }

  /** Edges of a graph of that shape: `(n, data_<n>)` for each label node `n`. */
  lemma {:induction false} EdgesShape(nodes: seq<string>, succ: map<string, seq<string>>, labels: set<string>)
    requires forall n :: n in nodes ==> n in succ && succ[n] == (if n in labels then [DataKey(n)] else [])
    ensures forall e :: e in EdgesFrom(nodes, succ) <==> e.0 in nodes && e.0 in labels && e.1 == DataKey(e.0)
    decreases |nodes|
  {
    if nodes != [] {
      var h := nodes[0];
      EdgesShape(nodes[1..], succ, labels);
      OutgoingShape(h, succ, labels);
      assert forall x :: x in nodes <==> x == h || x in nodes[1..];
    }
  }

  lemma OutgoingShape(h: string, succ: map<string, seq<string>>, labels: set<string>)
    requires h in succ && succ[h] == (if h in labels then [DataKey(h)] else [])
    ensures Outgoing(h, succ) == (if h in labels then [(h, DataKey(h))] else [])
  {
  }

  /** One edge per label node. */
  lemma {:induction false} EdgesCount(nodes: seq<string>, succ: map<string, seq<string>>, labels: set<string>)
    requires Distinct(nodes)
    requires forall n :: n in nodes ==> n in succ && succ[n] == (if n in labels then [DataKey(n)] else [])
    ensures |EdgesFrom(nodes, succ)| == |NodeSet(nodes) * labels|
    decreases |nodes|
  {
    if nodes != [] {
      var h := nodes[0];
      var t := nodes[1..];
      DistinctTail(nodes);
      EdgesCount(t, succ, labels);
      OutgoingShape(h, succ, labels);
      LabelledCons(nodes, labels);
    }
  }

  lemma DistinctTail(s: seq<string>)
    requires s != [] && Distinct(s)
    ensures Distinct(s[1..]) && s[0] !in s[1..]
  {
  }

  /** Dropping a head that does not recur removes it from the labelled nodes. */
  lemma LabelledCons(s: seq<string>, labels: set<string>)
    requires s != [] && s[0] !in s[1..]
    ensures |NodeSet(s) * labels| == |NodeSet(s[1..]) * labels| + (if s[0] in labels then 1 else 0)
  {
    var rest := NodeSet(s[1..]) * labels;
    assert s[0] !in NodeSet(s[1..]);
    NodeSetCons(s);
    if s[0] in labels {
      assert NodeSet(s) * labels == rest + {s[0]};
    } else {
      assert NodeSet(s) * labels == rest;
    }
  }

  /** The elements of a sequence. */
  function NodeSet(s: seq<string>): set<string> {
    set n | n in s
  }

  lemma NodeSetCons(s: seq<string>)
    requires s != []
    ensures NodeSet(s) == NodeSet(s[1..]) + {s[0]}
  {
    assert forall x :: x in s <==> x == s[0] || x in s[1..];
  }

  /** The graph's nodes are the keys the markers write. */
  lemma NodesAreKeys(ms: seq<Marker>)
    ensures NodeSet(Build(ms).nodes) == Keys(ms)
    ensures Distinct(Build(ms).nodes)
  {
    var g := Build(ms);
    BuildShape(ms);
    assert forall n :: n in NodeSet(g.nodes) <==> n in g.succ;
  }

  /** Both ends of every edge are nodes, and there is a node. */
  lemma PlaceDefined(ms: seq<Marker>)
    requires |ms| > 0
    ensures |Build(ms).nodes| > 0
    ensures forall e :: e in Edges(Build(ms)) ==> e.0 in Build(ms).nodes && e.1 in Build(ms).nodes
  {
    var g := Build(ms);
    NodesAreKeys(ms);
    EdgesOfMarkers(ms);
    LabelsWithinKeys(ms);
    assert ms[|ms| - 1].text in NodeSet(g.nodes);
  }

  /** The graph's edges are `(label, 'data_' + label)`, one per distinct label. */
  lemma EdgesOfMarkers(ms: seq<Marker>)
    ensures forall e :: e in Edges(Build(ms)) <==> e.0 in Labels(ms) && e.1 == DataKey(e.0)
    ensures |Edges(Build(ms))| == |Labels(ms)|
  {
    var g := Build(ms);
    BuildShape(ms);
    LabelsWithinKeys(ms);
    NodesAreKeys(ms);
    EdgesShape(g.nodes, g.succ, Labels(ms));
    EdgesCount(g.nodes, g.succ, Labels(ms));
    assert NodeSet(g.nodes) * Labels(ms) == Labels(ms);
  }

  // ---------------------------------------------------------------------------
  // The rescale

  /** When the fits succeed, every node `p` becomes `p * scale + shift`, where the shifts
      are the intercepts of the two fits and the one scale is the slope of the y fit. */
  lemma RepelRescales(ms: seq<Marker>, layout: Layout, k: real)
    requires Repel(ms, layout, k).Ok?
    ensures var r := Repel(ms, layout, k).value;
            var fitX := Fit(Xs(FixedAfter(ms, layout, k)), Xs(FixedBefore(ms)));
            var fitY := Fit(Ys(FixedAfter(ms, layout, k)), Ys(FixedBefore(ms)));
            && fitX.Ok? && fitY.Ok?
            && r.scale == fitY.value.slope
            && r.shift == Point(fitX.value.intercept, fitY.value.intercept)
            && r.positions.Keys == Keys(ms)
            && forall n :: n in r.positions ==> r.positions[n] == Rescaled(LaidOut(ms, layout, k)(n), r.scale, r.shift)
  {
    RepelIsPlace(ms, layout, k);
    PlacePositions(ms, LaidOut(ms, layout, k), Repel(ms, layout, k).value.scale, Repel(ms, layout, k).value.shift);
  }

  /** A successful result is the placement under its own scale and shift. */
  lemma RepelIsPlace(ms: seq<Marker>, layout: Layout, k: real)
    requires Repel(ms, layout, k).Ok?
    ensures |ms| > 0
    ensures Repel(ms, layout, k)
         == Ok(Place(ms, LaidOut(ms, layout, k), Repel(ms, layout, k).value.scale, Repel(ms, layout, k).value.shift))
  {
  }

  /** The placement holds every node, rescaled. */
  lemma PlacePositions(ms: seq<Marker>, moved: string -> Point, scale: real, shift: Point)
    requires |ms| > 0
    ensures var r := Place(ms, moved, scale, shift);
            && r.scale == scale && r.shift == shift
            && r.positions.Keys == Keys(ms)
            && forall n :: n in r.positions ==> r.positions[n] == Rescaled(moved(n), scale, shift)
  {
    NodesAreKeys(ms);
    var g := Build(ms);
    assert Positions(g.nodes, moved, scale, shift).Keys == NodeSet(g.nodes);
  }

  /** `repel_labels` raises exactly when there is no marker or the layout puts every fixed
      node on one vertical or on one horizontal line. */
  lemma RepelFails(ms: seq<Marker>, layout: Layout, k: real)
    ensures Repel(ms, layout, k).Err?
        <==> |ms| == 0 || AllEqual(Xs(FixedAfter(ms, layout, k))) || AllEqual(Ys(FixedAfter(ms, layout, k)))
  {
  }

  /** With both fits known, the result is the placement under the y slope and the two intercepts. */
  lemma RepelWithFits(ms: seq<Marker>, layout: Layout, k: real, lx: Line, ly: Line)
    requires |ms| > 0
    requires Fit(Xs(FixedAfter(ms, layout, k)), Xs(FixedBefore(ms))) == Ok(lx)
    requires Fit(Ys(FixedAfter(ms, layout, k)), Ys(FixedBefore(ms))) == Ok(ly)
    ensures Repel(ms, layout, k) == Ok(Place(ms, LaidOut(ms, layout, k), ly.slope, Point(lx.intercept, ly.intercept)))
  {
  }

  /** A layout that scales every fixed node by `a != 0` about the origin and then shifts it
      by `b` is undone: the scale is `1 / a`, the shift `-b / a`, and (`PlaceRestores`)
      every fixed node goes back to where it started. */
  lemma RepelUndoesUniformScaling(ms: seq<Marker>, layout: Layout, k: real, a: real, b: Point)
    requires a != 0.0
    requires !AllEqual(Xs(FixedBefore(ms))) && !AllEqual(Ys(FixedBefore(ms)))
    requires forall i :: 0 <= i < |ms| ==> FixedAfter(ms, layout, k)[i] == Rescaled(FixedBefore(ms)[i], a, b)
    ensures |ms| > 0
    ensures Repel(ms, layout, k) == Ok(Place(ms, LaidOut(ms, layout, k), 1.0 / a, Point(-b.x / a, -b.y / a)))
  {
    SpreadNonempty(Xs(FixedBefore(ms)));
    FitXOfUniformScaling(ms, layout, k, a, b);
    FitYOfUniformScaling(ms, layout, k, a, b);
    RepelWithFits(ms, layout, k, Line(1.0 / a, -b.x / a), Line(1.0 / a, -b.y / a));
  }

  /** The two fits of a uniform scaling are its inverse on each axis. */
  lemma FitXOfUniformScaling(ms: seq<Marker>, layout: Layout, k: real, a: real, b: Point)
    requires a != 0.0 && !AllEqual(Xs(FixedBefore(ms)))
    requires forall i :: 0 <= i < |ms| ==> FixedAfter(ms, layout, k)[i] == Rescaled(FixedBefore(ms)[i], a, b)
    ensures Fit(Xs(FixedAfter(ms, layout, k)), Xs(FixedBefore(ms))) == Ok(Line(1.0 / a, -b.x / a))
  {
    UniformCoordinates(FixedAfter(ms, layout, k), FixedBefore(ms), a, b);
    AffineFit(Xs(FixedAfter(ms, layout, k)), Xs(FixedBefore(ms)), a, b.x);
  }

  lemma FitYOfUniformScaling(ms: seq<Marker>, layout: Layout, k: real, a: real, b: Point)
    requires a != 0.0 && !AllEqual(Ys(FixedBefore(ms)))
    requires forall i :: 0 <= i < |ms| ==> FixedAfter(ms, layout, k)[i] == Rescaled(FixedBefore(ms)[i], a, b)
    ensures Fit(Ys(FixedAfter(ms, layout, k)), Ys(FixedBefore(ms))) == Ok(Line(1.0 / a, -b.y / a))
  {
    UniformCoordinates(FixedAfter(ms, layout, k), FixedBefore(ms), a, b);
    AffineFit(Ys(FixedAfter(ms, layout, k)), Ys(FixedBefore(ms)), a, b.y);
  }

  lemma UniformCoordinates(after: seq<Point>, before: seq<Point>, a: real, b: Point)
    requires |after| == |before|
    requires forall i :: 0 <= i < |before| ==> after[i] == Rescaled(before[i], a, b)
    ensures forall i :: 0 <= i < |Xs(before)| ==> Xs(after)[i] == Xs(before)[i] * a + b.x
    ensures forall i :: 0 <= i < |Ys(before)| ==> Ys(after)[i] == Ys(before)[i] * a + b.y
  {
  }

  /** The fit of an affine image `t * a + b` back onto `t` is the inverse map. */
  lemma AffineFit(from: seq<real>, to: seq<real>, a: real, b: real)
    requires |from| == |to|
    requires a != 0.0
    requires !AllEqual(to)
    requires forall i :: 0 <= i < |to| ==> from[i] == to[i] * a + b
    ensures Fit(from, to) == Ok(Line(1.0 / a, -b / a))
  {
    var back := Line(1.0 / a, -b / a);
    forall i | 0 <= i < |to|
      ensures to[i] == back.slope * from[i] + back.intercept
    {
      Unscale(a, b, to[i]);
    }
    AffineKeepsSpread(to, from, a, b);
    FitRecoversLine(from, to, back);
  }

  /** Rescaling by the inverse map puts every fixed node back. */
  lemma PlaceRestores(ms: seq<Marker>, layout: Layout, k: real, a: real, b: Point)
    requires |ms| > 0 && a != 0.0
    requires forall i :: 0 <= i < |ms| ==> FixedAfter(ms, layout, k)[i] == Rescaled(FixedBefore(ms)[i], a, b)
    ensures var pos := Place(ms, LaidOut(ms, layout, k), 1.0 / a, Point(-b.x / a, -b.y / a)).positions;
            forall i :: 0 <= i < |ms| ==> DataNodes(ms)[i] in pos && pos[DataNodes(ms)[i]] == FixedBefore(ms)[i]
  {
    var moved := LaidOut(ms, layout, k);
    var pos := Place(ms, moved, 1.0 / a, Point(-b.x / a, -b.y / a)).positions;
    NodesAreKeys(ms);
    DataNodesLength(ms);
    forall i | 0 <= i < |ms|
      ensures DataNodes(ms)[i] in pos && pos[DataNodes(ms)[i]] == FixedBefore(ms)[i]
    {
      var d := DataNodes(ms)[i];
      var p := FixedBefore(ms)[i];
      KeyOfMarker(ms, i);
      assert d in Build(ms).nodes;
      assert pos[d] == Rescaled(moved(d), 1.0 / a, Point(-b.x / a, -b.y / a));
      assert moved(d) == FixedAfter(ms, layout, k)[i] == Rescaled(p, a, b);
      RescaleInverse(p, a, b);
    }
  }

  /** A layout that leaves every fixed node where it started changes nothing. */
  lemma RepelIdentity(ms: seq<Marker>, layout: Layout, k: real)
    requires !AllEqual(Xs(FixedBefore(ms))) && !AllEqual(Ys(FixedBefore(ms)))
    requires FixedAfter(ms, layout, k) == FixedBefore(ms)
    ensures Repel(ms, layout, k).Ok?
    ensures Repel(ms, layout, k).value.scale == 1.0
    ensures Repel(ms, layout, k).value.shift == Point(0.0, 0.0)
    ensures forall n :: n in Repel(ms, layout, k).value.positions ==>
              Repel(ms, layout, k).value.positions[n] == LaidOut(ms, layout, k)(n)
  {
    var before := FixedBefore(ms);
    FitIdentity(Xs(before));
    FitIdentity(Ys(before));
    RepelWithFits(ms, layout, k, Line(1.0, 0.0), Line(1.0, 0.0));
  }

  /** Scaling by `1 / a` and shifting by `-b / a` undoes scaling by `a` and shifting by `b`. */
  lemma RescaleInverse(p: Point, a: real, b: Point)
    requires a != 0.0
    ensures Rescaled(Rescaled(p, a, b), 1.0 / a, Point(-b.x / a, -b.y / a)) == p
  {
    Unscale(a, b.x, p.x);
    Unscale(a, b.y, p.y);
  }

  /** `(s * a + b) / a - b / a == s`. */
  lemma Unscale(a: real, b: real, s: real)
    requires a != 0.0
    ensures s == (1.0 / a) * (s * a + b) + -b / a
    ensures (s * a + b) * (1.0 / a) + -b / a == s
  {
    assert (1.0 / a) * (s * a) == s;
    assert (1.0 / a) * b == b / a;
  }

  /** An affine image with a non-zero factor is constant only if the original is. */
  lemma AffineKeepsSpread(s: seq<real>, t: seq<real>, a: real, b: real)
    requires |s| == |t| && a != 0.0 && !AllEqual(s)
    requires forall i :: 0 <= i < |s| ==> t[i] == s[i] * a + b
    ensures !AllEqual(t)
  {
    var i :| 0 <= i < |s| && s[i] != s[0];
    assert t[i] - t[0] == (s[i] - s[0]) * a;
    assert t[i] != t[0];
  }

  /** The slope of line 218 is overwritten: a layout that stretches x by 2 and leaves y alone
      gets the y slope 1 as its scale, so a fixed node does not go back to where it started. */
  lemma OverwrittenSlope(p: Point, q: Point)
    requires p.x != q.x && p.y != q.y
    ensures var r := Repel(TwoMarkers(p, q), StretchX, 1.5);
            && r.Ok? && r.value.scale == 1.0
            && "data_b" in r.value.positions && r.value.positions["data_b"] == Point(2.0 * q.x, q.y)
            && "data_b" in InitPos(TwoMarkers(p, q)) && InitPos(TwoMarkers(p, q))["data_b"] == q
  {
    var ms := TwoMarkers(p, q);
    TwoMarkersFitX(p, q);
    TwoMarkersFitY(p, q);
    RepelWithFits(ms, StretchX, 1.5, Line(0.5, 0.0), Line(1.0, 0.0));
    TwoMarkersPlaced(p, q);
  }

  /** Markers "a" at `p` and "b" at `q`. */
  function TwoMarkers(p: Point, q: Point): (r: seq<Marker>)
    ensures |r| == 2
  {
    [Marker(p, "a"), Marker(q, "b")]
  }

  lemma TwoMarkersInit(p: Point, q: Point)
    ensures DataNodes(TwoMarkers(p, q)) == ["data_a", "data_b"]
    ensures InitPos(TwoMarkers(p, q)) == map[]["data_a" := p]["a" := p]["data_b" := q]["b" := q]
  {
    var ms := TwoMarkers(p, q);
    assert ms[..1] == [ms[0]];
    assert ms[..1][..0] == [];
    assert DataKey("a") == "data_a" && DataKey("b") == "data_b";
    assert InitPos(ms[..1][..0]) == map[];
    assert InitPos(ms[..1]) == map[]["data_a" := p]["a" := p];
    assert DataNodes(ms[..1]) == ["data_a"];
  }

  lemma TwoMarkersFixed(p: Point, q: Point)
    ensures FixedBefore(TwoMarkers(p, q)) == [p, q]
    ensures FixedAfter(TwoMarkers(p, q), StretchX, 1.5) == [Point(2.0 * p.x, p.y), Point(2.0 * q.x, q.y)]
  {
    TwoMarkersLookups(p, q);
    var ms := TwoMarkers(p, q);
    var before := FixedBefore(ms);
    assert before[0] == p && before[1] == q;
    var after := FixedAfter(ms, StretchX, 1.5);
    assert after[0] == Point(2.0 * p.x, p.y) && after[1] == Point(2.0 * q.x, q.y);
  }

  lemma TwoMarkersLookups(p: Point, q: Point)
    ensures DataNodes(TwoMarkers(p, q)) == ["data_a", "data_b"]
    ensures "data_a" in InitPos(TwoMarkers(p, q)) && InitPos(TwoMarkers(p, q))["data_a"] == p
    ensures "data_b" in InitPos(TwoMarkers(p, q)) && InitPos(TwoMarkers(p, q))["data_b"] == q
  {
    TwoMarkersInit(p, q);
  }

  lemma TwoMarkersFitX(p: Point, q: Point)
    requires p.x != q.x
    ensures Fit(Xs(FixedAfter(TwoMarkers(p, q), StretchX, 1.5)), Xs(FixedBefore(TwoMarkers(p, q)))) == Ok(Line(0.5, 0.0))
  {
    TwoMarkersFixed(p, q);
    var xs, ys := Xs(FixedAfter(TwoMarkers(p, q), StretchX, 1.5)), Xs(FixedBefore(TwoMarkers(p, q)));
    assert xs == [2.0 * p.x, 2.0 * q.x] && ys == [p.x, q.x];
    assert xs[1] != xs[0];
    FitRecoversLine(xs, ys, Line(0.5, 0.0));
  }

  lemma TwoMarkersFitY(p: Point, q: Point)
    requires p.y != q.y
    ensures Fit(Ys(FixedAfter(TwoMarkers(p, q), StretchX, 1.5)), Ys(FixedBefore(TwoMarkers(p, q)))) == Ok(Line(1.0, 0.0))
  {
    TwoMarkersFixed(p, q);
    var xs, ys := Ys(FixedAfter(TwoMarkers(p, q), StretchX, 1.5)), Ys(FixedBefore(TwoMarkers(p, q)));
    assert xs == [p.y, q.y] && ys == [p.y, q.y];
    assert xs[1] != xs[0];
    FitRecoversLine(xs, ys, Line(1.0, 0.0));
  }

  lemma TwoMarkersPlaced(p: Point, q: Point)
    ensures var r := Place(TwoMarkers(p, q), LaidOut(TwoMarkers(p, q), StretchX, 1.5), 1.0, Point(0.0, 0.0));
            && r.scale == 1.0
            && "data_b" in r.positions && r.positions["data_b"] == Point(2.0 * q.x, q.y)
            && "data_b" in InitPos(TwoMarkers(p, q)) && InitPos(TwoMarkers(p, q))["data_b"] == q
  {
    var ms := TwoMarkers(p, q);
    var moved := LaidOut(ms, StretchX, 1.5);
    TwoMarkersMoved(p, q);
    KeyOfMarker(ms, 1);
    assert DataKey(ms[1].text) == "data_b";
    PlacePositions(ms, moved, 1.0, Point(0.0, 0.0));
  }

  /** The stretched layout puts the data node of "b" at twice its x. */
  lemma TwoMarkersMoved(p: Point, q: Point)
    ensures "data_b" in InitPos(TwoMarkers(p, q)) && InitPos(TwoMarkers(p, q))["data_b"] == q
    ensures LaidOut(TwoMarkers(p, q), StretchX, 1.5)("data_b") == Point(2.0 * q.x, q.y)
  {
    TwoMarkersInit(p, q);
  }

  /** A layout that doubles every initial x and keeps every initial y. */
  function StretchX(g: Graph, init: map<string, Point>, fixed: seq<string>, k: real): string -> Point {
    n => if n in init then Point(2.0 * init[n].x, init[n].y) else Point(0.0, 0.0)
  }

  // ---------------------------------------------------------------------------
  // Limits and annotations

  /** The limits widen the extremes by 15% of a span, the x span below and the y span above,
      on both axes. */
  lemma ViewLimitsMargins(ps: seq<Point>)
    requires |ps| > 0
    ensures var xs := Xs(ps);
            var ys := Ys(ps);
            var xSpan := MaxOf(xs) - MinOf(xs);
            var ySpan := MaxOf(ys) - MinOf(ys);
            && ViewLimits(ps).0 == Bounds(MinOf(xs) - xSpan * 0.15, MaxOf(xs) + ySpan * 0.15)
            && ViewLimits(ps).1 == Bounds(MinOf(ys) - xSpan * 0.15, MaxOf(ys) + ySpan * 0.15)
  {
    var xs := Xs(ps);
    var ys := Ys(ps);
    var xSpan := MaxOf(xs) - MinOf(xs);
    var ySpan := MaxOf(ys) - MinOf(ys);
    AxisMargins(xs, xSpan * 0.15, ySpan * 0.15);
    AxisMargins(ys, xSpan * 0.15, ySpan * 0.15);
  }

  lemma AxisMargins(s: seq<real>, below: real, above: real)
    requires |s| > 0
    ensures MinOf(Shifted(s, -below)) == MinOf(s) - below
    ensures MaxOf(Shifted(s, above)) == MaxOf(s) + above
  {
    MinOfShifted(s, -below);
    MaxOfShifted(s, above);
  }

  /** Every point lies inside the limits. */
  lemma ViewLimitsContain(ps: seq<Point>)
    requires |ps| > 0
    ensures forall i :: 0 <= i < |ps| ==>
      && ViewLimits(ps).0.lo <= ps[i].x <= ViewLimits(ps).0.hi
      && ViewLimits(ps).1.lo <= ps[i].y <= ViewLimits(ps).1.hi
  {
    ViewLimitsMargins(ps);
    MinOfIsLeast(Xs(ps));
    MaxOfIsGreatest(Xs(ps));
    MinOfIsLeast(Ys(ps));
    MaxOfIsGreatest(Ys(ps));
    forall i | 0 <= i < |ps|
      ensures ViewLimits(ps).0.lo <= ps[i].x <= ViewLimits(ps).0.hi
      ensures ViewLimits(ps).1.lo <= ps[i].y <= ViewLimits(ps).1.hi
    {
      assert Xs(ps)[i] == ps[i].x && Ys(ps)[i] == ps[i].y;
    }
  }

  /** Every final position lies inside the view limits. */
  lemma PlaceWithinLimits(ms: seq<Marker>, moved: string -> Point, scale: real, shift: Point)
    requires |ms| > 0
    ensures var r := Place(ms, moved, scale, shift);
            forall n :: n in r.positions ==>
              && r.xlim.lo <= r.positions[n].x <= r.xlim.hi
              && r.ylim.lo <= r.positions[n].y <= r.ylim.hi
  {
    var g := Build(ms);
    var pos := Positions(g.nodes, moved, scale, shift);
    PlaceDefined(ms);
    var all := Listed(g.nodes, pos);
    ViewLimitsContain(all);
    forall n | n in pos
      ensures ViewLimits(all).0.lo <= pos[n].x <= ViewLimits(all).0.hi
      ensures ViewLimits(all).1.lo <= pos[n].y <= ViewLimits(all).1.hi
    {
      var i :| 0 <= i < |g.nodes| && g.nodes[i] == n;
      assert all[i] == pos[n];
    }
  }

  lemma RepelWithinLimits(ms: seq<Marker>, layout: Layout, k: real)
    requires Repel(ms, layout, k).Ok?
    ensures var r := Repel(ms, layout, k).value;
            forall n :: n in r.positions ==>
              && r.xlim.lo <= r.positions[n].x <= r.xlim.hi
              && r.ylim.lo <= r.positions[n].y <= r.ylim.hi
  {
    RepelIsPlace(ms, layout, k);
    PlaceWithinLimits(ms, LaidOut(ms, layout, k), Repel(ms, layout, k).value.scale, Repel(ms, layout, k).value.shift);
  }

  /** One annotation per distinct label: its text at the label node, its arrow to the
      label's data node. */
  lemma PlaceAnnotations(ms: seq<Marker>, moved: string -> Point, scale: real, shift: Point)
    requires |ms| > 0
    ensures var r := Place(ms, moved, scale, shift);
            && |r.annotations| == |Labels(ms)|
            && forall i :: 0 <= i < |r.annotations| ==>
                 var t := r.annotations[i].text;
                 && t in Labels(ms) && t in r.positions && DataKey(t) in r.positions
                 && r.annotations[i].xy == r.positions[DataKey(t)]
                 && r.annotations[i].xytext == r.positions[t]
    ensures var r := Place(ms, moved, scale, shift);
            forall t :: t in Labels(ms) ==> exists i :: 0 <= i < |r.annotations| && r.annotations[i].text == t
  {
    var r := Place(ms, moved, scale, shift);
    var edges := Edges(Build(ms));
    PlaceDefined(ms);
    EdgesOfMarkers(ms);
    forall i | 0 <= i < |r.annotations|
      ensures r.annotations[i].text in Labels(ms)
      ensures r.annotations[i].text in r.positions && DataKey(r.annotations[i].text) in r.positions
      ensures r.annotations[i].xy == r.positions[DataKey(r.annotations[i].text)]
      ensures r.annotations[i].xytext == r.positions[r.annotations[i].text]
    {
      assert edges[i] in edges;
    }
    forall t | t in Labels(ms)
      ensures exists i :: 0 <= i < |r.annotations| && r.annotations[i].text == t
    {
      AnnotationOfEdge(edges, r.positions, (t, DataKey(t)));
    }
  }

  /** An edge `(t, d)` of the graph gives an annotation with text `t`. */
  lemma AnnotationOfEdge(edges: seq<(string, string)>, pos: map<string, Point>, e: (string, string))
    requires forall e :: e in edges ==> e.0 in pos && e.1 in pos
    requires e in edges
    ensures exists i :: 0 <= i < |Annotations(edges, pos)| && Annotations(edges, pos)[i].text == e.0
  {
    var i :| 0 <= i < |edges| && edges[i] == e;
    assert Annotations(edges, pos)[i].text == e.0;
  }

  lemma RepelAnnotations(ms: seq<Marker>, layout: Layout, k: real)
    requires Repel(ms, layout, k).Ok?
    ensures var r := Repel(ms, layout, k).value;
            && |r.annotations| == |Labels(ms)|
            && forall i :: 0 <= i < |r.annotations| ==>
                 var t := r.annotations[i].text;
                 && t in Labels(ms) && t in r.positions && DataKey(t) in r.positions
                 && r.annotations[i].xy == r.positions[DataKey(t)]
                 && r.annotations[i].xytext == r.positions[t]
    ensures var r := Repel(ms, layout, k).value;
            forall t :: t in Labels(ms) ==> exists i :: 0 <= i < |r.annotations| && r.annotations[i].text == t
  {
    RepelIsPlace(ms, layout, k);
    PlaceAnnotations(ms, LaidOut(ms, layout, k), Repel(ms, layout, k).value.scale, Repel(ms, layout, k).value.shift);
  }

  // ---------------------------------------------------------------------------
  // The graph object and the procedure itself

  /** What networkx keeps true of a `DiGraph`: no node twice, a successor list exactly
      for each node, and successors that are nodes. */
  ghost predicate Wellformed(g: Graph) {
    && Distinct(g.nodes)
    && (forall n :: n in g.succ <==> n in g.nodes)
    && (forall u, v :: u in g.succ && v in g.succ[u] ==> v in g.succ)
  }

  /** `add_node` appends a new node with no successors and leaves the rest alone. */
  lemma WithNodeKeepsShape(g: Graph, n: string)
    requires Wellformed(g)
    ensures var h := WithNode(g, n);
            && Wellformed(h)
            && h.nodes == Appended(g.nodes, n)
            && h.succ.Keys == g.succ.Keys + {n}
            && (n !in g.succ ==> h.succ[n] == [])
            && forall m :: m in g.succ ==> h.succ[m] == g.succ[m]
  {
  }

  /** `add_edge` adds the missing endpoints, appends `v` to `u`'s successors unless it is
      there already, and changes no other successor list. */
  lemma WithEdgeKeepsShape(g: Graph, u: string, v: string)
    requires Wellformed(g)
    ensures var h := WithEdge(g, u, v);
            && Wellformed(h)
            && h.nodes == Appended(Appended(g.nodes, u), v)
            && h.succ.Keys == g.succ.Keys + {u} + {v}
            && h.succ[u] == Appended(if u in g.succ then g.succ[u] else [], v)
            && (v !in g.succ && v != u ==> h.succ[v] == [])
            && forall m :: m in g.succ && m != u ==> h.succ[m] == g.succ[m]
  {
    var g0 := WithNode(g, u);
    var g1 := WithNode(g0, v);
    WithNodeKeepsShape(g, u);
    WithNodeKeepsShape(g0, v);
    AddSuccessor(g1, u, v);
  }

  /** The last step of `add_edge`, once both endpoints are nodes. */
  lemma AddSuccessor(g: Graph, u: string, v: string)
    requires Wellformed(g) && u in g.succ && v in g.succ
    ensures var h := if v in g.succ[u] then g else Graph(g.nodes, g.succ[u := g.succ[u] + [v]]);
            && Wellformed(h)
            && h.nodes == g.nodes
            && h.succ.Keys == g.succ.Keys
            && h.succ[u] == Appended(g.succ[u], v)
            && forall m :: m in g.succ && m != u ==> h.succ[m] == g.succ[m]
  {
    if v !in g.succ[u] {
      var h := Graph(g.nodes, g.succ[u := g.succ[u] + [v]]);
      forall a, b | a in h.succ && b in h.succ[a]
        ensures b in h.succ
      {
        if a != u {
          assert b in g.succ[a];
        } else if b != v {
          assert b in g.succ[u];
        }
      }
    }
  }

  /** `nx.DiGraph()`, updated in place by `add_node` and `add_edge`. */
  class DiGraph {
    var nodes: seq<string>
    var succ: map<string, seq<string>>

    function Value(): Graph
      reads this
    {
      Graph(nodes, succ)
    }

    ghost predicate Valid()
      reads this
    {
      Wellformed(Value())
    }

    constructor ()
      ensures Valid() && Value() == Graph([], map[])
    {
      nodes := [];
      succ := map[];
    }

    method AddNode(n: string)
      requires Valid()
      modifies this
      ensures Valid() && Value() == WithNode(old(Value()), n)
    {
      WithNodeKeepsShape(Value(), n);
      if n !in succ {
        nodes := nodes + [n];
        succ := succ[n := []];
      }
    }

    method AddEdge(u: string, v: string)
      requires Valid()
      modifies this
      ensures Valid() && Value() == WithEdge(old(Value()), u, v)
    {
      WithEdgeKeepsShape(Value(), u, v);
      AddNode(u);
      AddNode(v);
      if v !in succ[u] {
        succ := succ[u := succ[u] + [v]];
      }
    }
  }

  /** The construction loop: the graph, `data_nodes` and `init_pos` after every marker. */
  method BuildGraph(ms: seq<Marker>) returns (g: DiGraph, dataNodes: seq<string>, initPos: map<string, Point>)
    ensures fresh(g) && g.Valid()
    ensures g.Value() == Build(ms) && dataNodes == DataNodes(ms) && initPos == InitPos(ms)
  {
    g := new DiGraph();
    dataNodes := [];
    initPos := map[];
    for i := 0 to |ms|
      invariant fresh(g) && g.Valid()
      invariant g.Value() == Build(ms[..i])
      invariant dataNodes == DataNodes(ms[..i])
      invariant initPos == InitPos(ms[..i])
    {
      var m := ms[i];
      var d := DataKey(m.text);
      BuildStep(ms, i);
      g.AddNode(d);
      g.AddNode(m.text);
      g.AddEdge(m.text, d);
      dataNodes := dataNodes + [d];
      initPos := initPos[d := m.at][m.text := m.at];
    }
    assert ms[..|ms|] == ms;
  }

  /** One more marker: one more step of each of the three recursions. */
  lemma BuildStep(ms: seq<Marker>, i: nat)
    requires i < |ms|
    ensures var m := ms[i];
            && Build(ms[..i + 1]) == WithEdge(WithNode(WithNode(Build(ms[..i]), DataKey(m.text)), m.text), m.text, DataKey(m.text))
            && DataNodes(ms[..i + 1]) == DataNodes(ms[..i]) + [DataKey(m.text)]
            && InitPos(ms[..i + 1]) == InitPos(ms[..i])[DataKey(m.text) := m.at][m.text := m.at]
  {
    assert ms[..i + 1][..i] == ms[..i];
  }

  /** `for key, val in pos.items(): pos[key] = (val*scale) + shift`, on the layout's
      positions of the nodes. */
  method RescaleAll(nodes: seq<string>, moved: string -> Point, scale: real, shift: Point)
    returns (pos: map<string, Point>)
    requires Distinct(nodes)
    ensures pos == Positions(nodes, moved, scale, shift)
  {
    pos := map n | n in nodes :: moved(n);
    for i := 0 to |nodes|
      invariant pos.Keys == NodeSet(nodes)
      invariant forall j :: 0 <= j < i ==> pos[nodes[j]] == Rescaled(moved(nodes[j]), scale, shift)
      invariant forall j :: i <= j < |nodes| ==> pos[nodes[j]] == moved(nodes[j])
    {
      var n := nodes[i];
      pos := pos[n := Rescaled(pos[n], scale, shift)];
    }
    forall n | n in pos
      ensures pos[n] == Rescaled(moved(n), scale, shift)
    {
      var j :| 0 <= j < |nodes| && nodes[j] == n;
    }
  }

  /** `for label, data_str in G.edges(): ax.annotate(...)`: one annotation per edge. */
  method Annotate(edges: seq<(string, string)>, pos: map<string, Point>) returns (annotations: seq<Annotation>)
    requires forall e :: e in edges ==> e.0 in pos && e.1 in pos
    ensures annotations == Annotations(edges, pos)
  {
    annotations := [];
    for i := 0 to |edges|
      invariant annotations == Annotations(edges[..i], pos)
    {
      var (text, dataKey) := edges[i];
      assert edges[..i + 1] == edges[..i] + [edges[i]];
      annotations := annotations + [Annotation(text, pos[dataKey], pos[text])];
    }
    assert edges[..|edges|] == edges;
  }

  /** The rescale, then the annotations over `G.edges()` and the limits over
      `pos.values()`. */
  method PlaceLabels(ms: seq<Marker>, g: Graph, moved: string -> Point, scale: real, shift: Point)
    returns (p: Placement)
    requires |ms| > 0 && g == Build(ms)
    ensures p == Place(ms, moved, scale, shift)
  {
    NodesAreKeys(ms);
    PlaceDefined(ms);
    var pos := RescaleAll(g.nodes, moved, scale, shift);
    var annotations := Annotate(Edges(g), pos);
    var limits := ViewLimits(Listed(g.nodes, pos));
    p := Placement(scale, shift, pos, annotations, limits.0, limits.1);
  }

  /** `repel_labels`, step by step: the graph, the layout, the two fits (the second slope
      overwriting the first), and the placement. */
  method RepelLabels(ms: seq<Marker>, layout: Layout, k: real) returns (r: Result<Placement, RepelError>)
    ensures r == Repel(ms, layout, k)
  {
    var g, dataNodes, initPos := BuildGraph(ms);
    var graph := g.Value();
    var moved := layout(graph, initPos, dataNodes, k);
    if |dataNodes| == 0 {
      return Err(NoLabels);
    }
    DataNodesInitialised(ms);
    var after := seq(|dataNodes|, i requires 0 <= i < |dataNodes| => moved(dataNodes[i]));
    var before := seq(|dataNodes|, i requires 0 <= i < |dataNodes| => initPos[dataNodes[i]]);
    assert after == FixedAfter(ms, layout, k);
    assert before == FixedBefore(ms);
    var fitX := Fit(Xs(after), Xs(before));
    if fitX.Err? {
      return Err(XFit(fitX.error));
    }
    var fitY := Fit(Ys(after), Ys(before));
    if fitY.Err? {
      return Err(YFit(fitY.error));
    }
    var scale, shiftX := fitX.value.slope, fitX.value.intercept;
    scale := fitY.value.slope;
    var shiftY := fitY.value.intercept;
    var p := PlaceLabels(ms, graph, moved, scale, Point(shiftX, shiftY));
    RepelWithFits(ms, layout, k, fitX.value, fitY.value);
    r := Ok(p);
  }
}
