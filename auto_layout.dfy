/**
 * Automatic placement of the flow nodes.  The layered layout itself is done by the dagre
 * library, which is not part of this model: it is a parameter `layout` that receives the graph
 * built for it and either answers with the centre point of (some of) its nodes or fails, as
 * `dagre.layout` does when it throws.  What is modelled is everything around that call: the
 * degenerate cases, the graph handed to dagre, the conversion of centres into top-left corners,
 * and the grid used when dagre fails.
 */
module AutoLayout {
  import opened Wrappers
  import opened Graph
  import opened ConvertToReactFlow

  /** The box every node is laid out in. */
  const NodeWidth: real := 180.0
  const NodeHeight: real := 60.0

  datatype Direction = LR | TB

  /** `LayoutOptions`; an absent option is None. */
  datatype LayoutOptions = LayoutOptions(direction: Option<Direction>, nodeSpacing: Option<real>,
                                         rankSpacing: Option<real>)

  datatype GraphConfig = GraphConfig(rankdir: Direction, nodesep: real, ranksep: real,
                                     marginx: real, marginy: real)

  datatype Box = Box(width: real, height: real)

  /** What dagre is given: its settings, the box of each node id, and the edges in `setEdge` order. */
  datatype DagreInput = DagreInput(config: GraphConfig, boxes: map<string, Box>,
                                   edges: seq<(string, string)>)

  /** `dagre.layout` then `node(id)` for every id: a centre per placed node, or None when it throws. */
  type Layouter = DagreInput -> Option<map<string, Point>>

  datatype LayoutResult = LayoutResult(nodes: seq<FlowNode>, edges: seq<FlowEdge>)

  /** The settings after the defaults of the destructuring: LR, 50 and 80, margins 20. */
  function Config(options: LayoutOptions): GraphConfig {
    GraphConfig(options.direction.GetOr(LR), options.nodeSpacing.GetOr(50.0),
                options.rankSpacing.GetOr(80.0), 20.0, 20.0)
  }

  /** With no options given, dagre lays the graph out left to right with spacings 50 and 80. */
  lemma DefaultConfig()
    ensures Config(LayoutOptions(None, None, None)) == GraphConfig(LR, 50.0, 80.0, 20.0, 20.0)
  {
  }

  // ---------------------------------------------------------------- the graph handed to dagre

  /** The dagre graph, filled by `setNode` and `setEdge`. */
  class DagreGraph {
    var config: GraphConfig
    var boxes: map<string, Box>
    var edges: seq<(string, string)>

    /** `new dagre.graphlib.Graph()` followed by `setGraph(config)`. */
    constructor (config: GraphConfig)
      ensures this.config == config && boxes == map[] && edges == []
    {
      this.config := config;
      boxes := map[];
      edges := [];
    }

    /** `setNode(id, box)`: the id gets that box, replacing an earlier one. */
    method SetNode(id: string, box: Box)
      modifies this
      ensures boxes == old(boxes)[id := box]
      ensures config == old(config) && edges == old(edges)
    {
      boxes := boxes[id := box];
    }

    /** `setEdge(source, target)`. */
    method SetEdge(source: string, target: string)
      modifies this
      ensures edges == old(edges) + [(source, target)]
      ensures config == old(config) && boxes == old(boxes)
    {
      edges := edges + [(source, target)];
    }

    function Input(): DagreInput
      reads this
    {
      DagreInput(config, boxes, edges)
    }
  }

  /** The boxes after `setNode` for every node, in order. */
  function BoxesOf(nodes: seq<FlowNode>): map<string, Box> {
    if |nodes| == 0 then map[]
    else BoxesOf(nodes[..|nodes| - 1])[nodes[|nodes| - 1].id := Box(NodeWidth, NodeHeight)]
  }

  function Ids(nodes: seq<FlowNode>): set<string> {
    set i | 0 <= i < |nodes| :: nodes[i].id
  }

  /** Every node id, and nothing else, gets the 180 by 60 box. */
  lemma {:induction false} BoxesOfNodes(nodes: seq<FlowNode>)
    ensures BoxesOf(nodes).Keys == Ids(nodes)
    ensures forall id :: id in BoxesOf(nodes) ==> BoxesOf(nodes)[id] == Box(NodeWidth, NodeHeight)
  {
    if |nodes| > 0 {
      var p := nodes[..|nodes| - 1];
      BoxesOfNodes(p);
      assert Ids(nodes) == Ids(p) + {nodes[|nodes| - 1].id} by {
        assert forall i :: 0 <= i < |p| ==> p[i] == nodes[i];
      }
    }
  }

  function EdgePairs(edges: seq<FlowEdge>): seq<(string, string)> {
    seq(|edges|, i requires 0 <= i < |edges| => (edges[i].source, edges[i].target))
  }

  /** The graph built for nodes and edges under the given options. */
  function GraphInput(nodes: seq<FlowNode>, edges: seq<FlowEdge>, options: LayoutOptions): DagreInput {
    DagreInput(Config(options), BoxesOf(nodes), EdgePairs(edges))
  }

  // ---------------------------------------------------------------- positions

  /** The top-left corner of the box centred at `centre`. */
  function Corner(centre: Point): (p: Point)
    ensures p.x + NodeWidth / 2.0 == centre.x && p.y + NodeHeight / 2.0 == centre.y
  {
    Point(centre.x - NodeWidth / 2.0, centre.y - NodeHeight / 2.0)
  }

  /** `nodes.map(...)` after the layout: a placed node moves to its corner, another stays as it is. */
  function Positioned(nodes: seq<FlowNode>, centres: map<string, Point>): seq<FlowNode> {
    seq(|nodes|, i requires 0 <= i < |nodes| =>
      if nodes[i].id in centres then nodes[i].(position := Corner(centres[nodes[i].id])) else nodes[i])
  }

  /** `applyFallbackLayout`: four columns 220 apart, rows 100 apart, starting at (50, 50). */
  function GridPosition(index: nat): Point {
    Point(((index % 4) * 220 + 50) as real, ((index / 4) * 100 + 50) as real)
  }

  function FallbackLayout(nodes: seq<FlowNode>, edges: seq<FlowEdge>): LayoutResult {
    LayoutResult(seq(|nodes|, i requires 0 <= i < |nodes| => nodes[i].(position := GridPosition(i))), edges)
  }

  /** Grid positions are pairwise distinct. */
  lemma GridDistinct(i: nat, j: nat)
    requires i != j
    ensures GridPosition(i) != GridPosition(j)
  {
    assert i == 4 * (i / 4) + i % 4 && j == 4 * (j / 4) + j % 4;
  }

  /** Grid positions go row by row, left to right within a row. */
  lemma GridRowMajor(i: nat, j: nat)
    requires i < j
    ensures var p, q := GridPosition(i), GridPosition(j);
            p.y < q.y || (p.y == q.y && p.x < q.x)
  {
    assert i == 4 * (i / 4) + i % 4 && j == 4 * (j / 4) + j % 4;
    if i / 4 == j / 4 {
      assert i % 4 < j % 4;
    } else {
      assert i / 4 < j / 4;
    }
  }

  /** What `applyDagreLayout` returns. */
  function DagreLayout(nodes: seq<FlowNode>, edges: seq<FlowEdge>, options: LayoutOptions,
                       layout: Layouter): LayoutResult {
    if |nodes| == 0 then LayoutResult([], [])
    else if |nodes| == 1 then LayoutResult([nodes[0].(position := Point(50.0, 50.0))], [])
    else
      match layout(GraphInput(nodes, edges, options))
      case None => FallbackLayout(nodes, edges)
      case Some(centres) => LayoutResult(Positioned(nodes, centres), edges)
  }

  /**
   * No nodes give an empty result; one node goes to (50, 50) and the edges are dropped; otherwise
   * the edges are kept and every node keeps its place in the list and all but its position.
   */
  lemma LayoutShape(nodes: seq<FlowNode>, edges: seq<FlowEdge>, options: LayoutOptions, layout: Layouter)
    ensures var r := DagreLayout(nodes, edges, options, layout);
            && (|nodes| == 0 ==> r == LayoutResult([], []))
            && (|nodes| == 1 ==> r.edges == [] && |r.nodes| == 1 && r.nodes[0].position == Point(50.0, 50.0)
                                 && r.nodes[0].(position := nodes[0].position) == nodes[0])
            && (|nodes| >= 2 ==> r.edges == edges && |r.nodes| == |nodes|
                                 && forall i :: 0 <= i < |nodes| ==>
                                      r.nodes[i].(position := nodes[i].position) == nodes[i])
  {
  }

  /**
   * When dagre succeeds, a node it placed is moved so that its 180 by 60 box is centred on the
   * dagre point, and a node it did not place is returned unchanged.
   */
  lemma LayoutCentres(nodes: seq<FlowNode>, edges: seq<FlowEdge>, options: LayoutOptions,
                      layout: Layouter, i: nat)
    requires |nodes| >= 2 && i < |nodes| && layout(GraphInput(nodes, edges, options)).Some?
    ensures var centres := layout(GraphInput(nodes, edges, options)).value;
            var r := DagreLayout(nodes, edges, options, layout);
            && (nodes[i].id in centres ==>
                  r.nodes[i].position == Point(centres[nodes[i].id].x - 90.0, centres[nodes[i].id].y - 30.0))
            && (nodes[i].id !in centres ==> r.nodes[i] == nodes[i])
  {
  }

  /** When dagre fails, node i goes to grid cell i: distinct positions, in row-major order. */
  lemma LayoutFallback(nodes: seq<FlowNode>, edges: seq<FlowEdge>, options: LayoutOptions,
                       layout: Layouter)
    requires |nodes| >= 2 && layout(GraphInput(nodes, edges, options)).None?
    ensures var r := DagreLayout(nodes, edges, options, layout);
            forall i :: 0 <= i < |nodes| ==>
              r.nodes[i].position == Point(((i % 4) * 220 + 50) as real, ((i / 4) * 100 + 50) as real)
    ensures var r := DagreLayout(nodes, edges, options, layout);
            forall i, j :: 0 <= i < j < |nodes| ==> r.nodes[i].position != r.nodes[j].position
  {
    var r := DagreLayout(nodes, edges, options, layout);
    forall i, j | 0 <= i < j < |nodes|
      ensures r.nodes[i].position != r.nodes[j].position
    {
      GridDistinct(i, j);
    }
  }

  /** `applyDagreLayout`. */
  method ApplyDagreLayout(nodes: seq<FlowNode>, edges: seq<FlowEdge>, options: LayoutOptions,
                          layout: Layouter) returns (r: LayoutResult)
    ensures r == DagreLayout(nodes, edges, options, layout)
  {
    if |nodes| == 0 {
      return LayoutResult([], []);
    }
    if |nodes| == 1 {
      return LayoutResult([nodes[0].(position := Point(50.0, 50.0))], []);
    }
    var g := new DagreGraph(Config(options));
    for i := 0 to |nodes|
      invariant g.config == Config(options) && g.boxes == BoxesOf(nodes[..i]) && g.edges == []
    {
      assert nodes[..i + 1][..i] == nodes[..i];
      g.SetNode(nodes[i].id, Box(NodeWidth, NodeHeight));
    }
    assert nodes[..|nodes|] == nodes;
    for j := 0 to |edges|
      invariant g.config == Config(options) && g.boxes == BoxesOf(nodes)
      invariant g.edges == EdgePairs(edges[..j])
    {
      g.SetEdge(edges[j].source, edges[j].target);
    }
    assert edges[..|edges|] == edges;
    var centres := layout(g.Input());
    if centres.None? {
      r := FallbackLayout(nodes, edges);
    } else {
      r := LayoutResult(Positioned(nodes, centres.value), edges);
    }
  }
}
