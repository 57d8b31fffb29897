/**
  * The render pass as a function of (scene, current step, scale): the edge
  * layer, the node layer and the two text outputs. The DOM and SVG elements
  * themselves are not modelled; each frame records the numbers and the
  * active/inactive classification they are built from.
  */
module RenderPass {
  import opened JsValues
  import opened PipelineData
  import opened Geometry
  import opened StepText

  datatype EdgeView = EdgeView(from: string, to: string, connector: Connector, arrow: Arrowhead, active: bool)

  datatype NodeView = NodeView(id: string, box: Box, active: bool, dashed: bool, color: Option<string>)

  /** One full redraw: canvas size, edges (drawn first), nodes, narration and legend. */
  datatype Frame = Frame(
    width: real, height: real,
    edges: seq<EdgeView>, nodes: seq<NodeView>,
    narration: string, legend: string)

  /** A node is emphasised when the current step highlights its id. */
  predicate IsActiveNode(st: Step, id: string) {
    id in st.highlight
  }

  /** An edge is emphasised when the current step highlights either of its endpoints. */
  predicate IsActiveEdge(st: Step, e: Edge) {
    IsActiveNode(st, e.from) || IsActiveNode(st, e.to)
  }

  /** What is drawn for one edge: its endpoints are looked up by id. */
  function EdgeViewOf(nodes: seq<Node>, e: Edge, st: Step, s: real): EdgeView
    requires HasNode(nodes, e.from) && HasNode(nodes, e.to)
  {
    var a := nodes[FindNode(nodes, e.from).value];
    var b := nodes[FindNode(nodes, e.to).value];
    var c := EdgeConnector(a, b, s);
    EdgeView(e.from, e.to, c, ArrowheadAt(c.end), IsActiveEdge(st, e))
  }

  /** What is drawn for one node. */
  function NodeViewOf(n: Node, st: Step, s: real): NodeView {
    NodeView(n.id, NodeBox(n, s), IsActiveNode(st, n.id), n.dashed, n.color)
  }

  function EdgeViews(g: Graph, st: Step, s: real): seq<EdgeView>
    requires ValidGraph(g)
  {
    seq(|g.edges|, i requires 0 <= i < |g.edges| => EdgeViewOf(g.nodes, g.edges[i], st, s))
  }

  function NodeViews(g: Graph, st: Step, s: real): seq<NodeView> {
    seq(|g.nodes|, i requires 0 <= i < |g.nodes| => NodeViewOf(g.nodes[i], st, s))
  }

  /** The frame `_render` draws for step index `step` at scale `s`. */
  function View(g: Graph, step: nat, s: real): (f: Frame)
    requires ValidGraph(g) && step < |g.steps|
    ensures |f.edges| == |g.edges| && |f.nodes| == |g.nodes|
    ensures f.width == BG_W * s && f.height == BG_H * s
  {
    var st := g.steps[step];
    Frame(BG_W * s, BG_H * s, EdgeViews(g, st, s), NodeViews(g, st, s), st.text, Legend(step, |g.steps|))
  }

  /**
    * The node views of a frame are the scene's nodes, in order, each at its
    * scaled box and active exactly when the step highlights it.
    */
  lemma NodeViewsFollowScene(g: Graph, step: nat, s: real, k: nat)
    requires ValidGraph(g) && step < |g.steps| && k < |g.nodes|
    ensures var v := View(g, step, s).nodes[k];
      && v.id == g.nodes[k].id
      && v.box == NodeBox(g.nodes[k], s)
      && (v.active <==> g.nodes[k].id in g.steps[step].highlight)
  {
  }

  /**
    * An edge is drawn active exactly when one of the two node boxes it
    * connects is drawn active.
    */
  lemma EdgeActiveIffEndpointActive(g: Graph, step: nat, s: real, i: nat)
    requires ValidGraph(g) && step < |g.steps| && i < |g.edges|
    ensures var f, e := View(g, step, s), g.edges[i];
      var fi, ti := FindNode(g.nodes, e.from).value, FindNode(g.nodes, e.to).value;
      && f.nodes[fi].id == e.from && f.nodes[ti].id == e.to
      && (f.edges[i].active <==> f.nodes[fi].active || f.nodes[ti].active)
  {
    assert g.edges[i] in g.edges;
  }

  /**
    * Every edge's connector leaves the middle of the right side of its source
    * node's box and ends, under the arrowhead's apex, at the middle of the left
    * side of its target node's box, as those boxes are drawn in the same frame.
    */
  lemma ConnectorsAttachToBoxes(g: Graph, step: nat, s: real, i: nat)
    requires ValidGraph(g) && step < |g.steps| && i < |g.edges|
    ensures var f, e := View(g, step, s), g.edges[i];
      var fi, ti := FindNode(g.nodes, e.from).value, FindNode(g.nodes, e.to).value;
      && f.edges[i].connector.start == RightMid(f.nodes[fi].box)
      && f.edges[i].connector.end == LeftMid(f.nodes[ti].box)
      && f.edges[i].arrow.apex == LeftMid(f.nodes[ti].box)
  {
    assert g.edges[i] in g.edges;
  }

  /**
    * The ids drawn active are exactly the current step's highlight set: every
    * highlighted id has an active box, and only highlighted ids do.
    */
  lemma ActiveNodesAreHighlight(g: Graph, step: nat, s: real, id: string)
    requires ValidGraph(g) && step < |g.steps|
    ensures var f := View(g, step, s);
      (exists k :: 0 <= k < |f.nodes| && f.nodes[k].id == id && f.nodes[k].active)
      <==> id in g.steps[step].highlight
  {
    var f := View(g, step, s);
    if id in g.steps[step].highlight {
      assert g.steps[step] in g.steps;
      assert HasNode(g.nodes, id);
      var k :| 0 <= k < |g.nodes| && g.nodes[k].id == id;
      assert f.nodes[k].id == id && f.nodes[k].active;
    }
  }

  /**
    * Geometry does not depend on playback: two frames at the same scale differ
    * at most in the active flags and the two texts.
    */
  lemma GeometryIndependentOfStep(g: Graph, step1: nat, step2: nat, s: real)
    requires ValidGraph(g) && step1 < |g.steps| && step2 < |g.steps|
    ensures var f1, f2 := View(g, step1, s), View(g, step2, s);
      && f1.width == f2.width && f1.height == f2.height
      && (forall i :: 0 <= i < |f1.edges| ==>
            f1.edges[i].connector == f2.edges[i].connector && f1.edges[i].arrow == f2.edges[i].arrow)
      && (forall k :: 0 <= k < |f1.nodes| ==> f1.nodes[k].box == f2.nodes[k].box)
  {
  }

  /**
    * The narration is the current step's text, and the legend reads back as
    * the 1-based step position (between 1 and the step count) and the count.
    */
  lemma TextsFollowStep(g: Graph, step: nat, s: real)
    requires ValidGraph(g) && step < |g.steps|
    ensures var f := View(g, step, s);
      && f.narration == g.steps[step].text
      && ParseLegend(f.legend) == Some((step + 1, |g.steps|))
      && 1 <= step + 1 <= |g.steps|
  {
  }
}
