/**
  * The static scene of the player: the nodes, the directed edges between
  * them and the narrated steps, authored on a 1200 x 760 logical canvas.
  */
module PipelineData {
  import opened JsValues

  /** Size of the logical canvas on which node positions are authored. */
  const BG_W: real := 1200.0
  const BG_H: real := 760.0

  /** The asset keys a node's icon or logo refers to. */
  datatype Asset = Farmers | FarmerRobot | OpenAi

  datatype Node = Node(
    id: string,
    title: string,
    subtitle: Option<string>,
    x: real, y: real, w: real, h: real,
    color: Option<string>,
    dashed: bool,
    icon: Option<Asset>,
    logo: Option<Asset>)

  datatype Edge = Edge(from: string, to: string)

  /** One entry of the narration: the node ids it highlights and its text. */
  datatype Step = Step(id: string, highlight: seq<string>, text: string)

  datatype Graph = Graph(nodes: seq<Node>, edges: seq<Edge>, steps: seq<Step>)

  /** Some node carries the identifier `id`. */
  predicate HasNode(nodes: seq<Node>, id: string) {
    exists i :: 0 <= i < |nodes| && nodes[i].id == id
  }

  /** `NODES.find(n => n.id === id)`, given as the index of the first node with that id. */
  function FindNode(nodes: seq<Node>, id: string): (r: Option<nat>)
    ensures r.Some? ==> r.value < |nodes| && nodes[r.value].id == id
    ensures r.Some? ==> forall j :: 0 <= j < r.value ==> nodes[j].id != id
    ensures r.None? <==> !HasNode(nodes, id)
    decreases |nodes|
  {
    if nodes == [] then None
    else if nodes[0].id == id then Some(0)
    else match FindNode(nodes[1..], id)
      case None => None
      case Some(k) => Some(k + 1)
  }

  predicate UniqueIds(nodes: seq<Node>) {
    forall i, j :: 0 <= i < j < |nodes| ==> nodes[i].id != nodes[j].id
  }

  /**
    * What the render pass relies on: node ids are unique, every edge endpoint
    * and every highlighted id names a node, and there is at least one step.
    */
  predicate ValidGraph(g: Graph) {
    && UniqueIds(g.nodes)
    && (forall e :: e in g.edges ==> HasNode(g.nodes, e.from) && HasNode(g.nodes, e.to))
    && |g.steps| > 0
    && (forall st, id :: st in g.steps && id in st.highlight ==> HasNode(g.nodes, id))
  }

  /** With unique ids, the node found for an id is the only node carrying it. */
  lemma FindNodeUnique(nodes: seq<Node>, id: string, k: nat)
    requires UniqueIds(nodes)
    requires k < |nodes| && nodes[k].id == id
    ensures FindNode(nodes, id) == Some(k)
  {
    assert HasNode(nodes, id);
  }

  const Nodes: seq<Node> := [
    Node("raw", "Raw Data", Some("(JSON)"), 20.0, 290.0, 190.0, 160.0, Some("#38bdf8"), false, Some(Farmers), None),
    Node("clean", "Data Cleaning", Some("PII / URLs"), 250.0, 300.0, 170.0, 120.0, None, true, None, None),
    Node("lvlm", "LVLM", Some("(image parsing)"), 260.0, 450.0, 140.0, 70.0, None, false, None, Some(OpenAi)),
    Node("truncate", "Truncate Dialogue", Some("Partial Observability"), 450.0, 250.0, 220.0, 210.0, None, true, None, None),
    Node("prompt", "Prompt Design", None, 430.0, 500.0, 260.0, 170.0, Some("#f59e0b"), false, None, None),
    Node("llm", "LLM", None, 720.0, 530.0, 100.0, 80.0, None, false, None, Some(OpenAi)),
    Node("task", "MMMT Task", Some("(JSON)"), 860.0, 250.0, 260.0, 310.0, Some("#fb7185"), false, Some(FarmerRobot), None)
  ]

  const Edges: seq<Edge> := [
    Edge("raw", "clean"), Edge("clean", "truncate"), Edge("raw", "lvlm"),
    Edge("lvlm", "prompt"), Edge("truncate", "prompt"), Edge("prompt", "llm"), Edge("llm", "task")
  ]

  const Steps: seq<Step> := [
    Step("s1", ["raw"], "Start with raw JSON: dialogues, images, descriptions, metadata."),
    Step("s2", ["clean"], "Clean sensitive info (PII) and strip URLs."),
    Step("s3", ["truncate"], "Truncate dialogue for partial observability; extract next user fact."),
    Step("s4", ["lvlm"], "Use LVLM to summarize or describe attached images."),
    Step("s5", ["prompt"], "Assemble the prompt: context + revealed facts + user goal + (image description)."),
    Step("s6", ["llm"], "LLM converts prompt into a structured MMMT sample."),
    Step("s7", ["task"], "Output: MMMT Task JSON with fields like Goal, Goal State, Decision, and Utterance.")
  ]

  const Pipeline: Graph := Graph(Nodes, Edges, Steps)

  /** Proof aid: the ids of `Nodes`, in order, as a plain list for the uniqueness proof. */
  const NodeIds: seq<string> := ["raw", "clean", "lvlm", "truncate", "prompt", "llm", "task"]

  lemma NodeIdsAreIds()
    ensures |Nodes| == |NodeIds| == 7
    ensures forall k :: 0 <= k < 7 ==> Nodes[k].id == NodeIds[k]
  {
  }

  lemma IdsAreNodes(id: string)
    requires id in NodeIds
    ensures HasNode(Nodes, id)
  {
    NodeIdsAreIds();
    var k :| 0 <= k < 7 && NodeIds[k] == id;
    assert Nodes[k].id == id;
  }

  lemma PipelineIdsUnique()
    ensures UniqueIds(Nodes)
  {
    NodeIdsAreIds();
    forall i, j | 0 <= i < j < 7 ensures NodeIds[i] != NodeIds[j] {
      // the first two characters already tell the seven ids apart
      assert i == 0 || i == 1 || i == 2 || i == 3 || i == 4 || i == 5;
      assert NodeIds[i][0] != NodeIds[j][0] || NodeIds[i][1] != NodeIds[j][1];
    }
  }

  /** The compiled-in scene satisfies the invariant the render pass relies on. */
  lemma PipelineIsValid()
    ensures ValidGraph(Pipeline)
    ensures |Pipeline.nodes| == 7 && |Pipeline.edges| == 7 && |Pipeline.steps| == 7
  {
    PipelineIdsUnique();
    forall e | e in Edges ensures HasNode(Nodes, e.from) && HasNode(Nodes, e.to) {
      assert e.from in NodeIds && e.to in NodeIds;
      IdsAreNodes(e.from);
      IdsAreNodes(e.to);
    }
    forall st, id | st in Steps && id in st.highlight ensures HasNode(Nodes, id) {
      assert id in NodeIds;
      IdsAreNodes(id);
    }
  }
}
