/**
 * The editor's graph state (`Canvas`): a list of nodes and a list of edges, and the
 * three operations that replace them: delete a node with its incident edges, merge
 * a patch into a node's data, and append a fresh node.
 */
module Graph {
  import opened Wrappers

  datatype NodeType = Text | Image | Video | Audio | Upload

  /**
   * The data a node carries. `kind` is the node's `type`; `output` is `None` when it is
   * null or undefined; `isGenerating` is false while it is undefined.
   */
  datatype NodeData = NodeData(
    kind: NodeType,
    prompt: string,
    aspectRatio: string,
    model: string,
    output: Option<string>,
    isGenerating: bool)

  datatype Node = Node(id: string, data: NodeData)

  /** A connection from the output of node `source` to the input of node `target`. */
  datatype Edge = Edge(id: string, source: string, target: string)

  /** A partial `NodeData`: a field that is `Some` overwrites, a field that is `None` is absent. */
  datatype Patch = Patch(
    kind: Option<NodeType>,
    prompt: Option<string>,
    aspectRatio: Option<string>,
    model: Option<string>,
    output: Option<Option<string>>,
    isGenerating: Option<bool>)

  const EmptyPatch := Patch(None, None, None, None, None, None)

  /** `{ ...d, ...p }`: the fields `p` holds replace those of `d`. */
  function Merge(d: NodeData, p: Patch): NodeData {
    NodeData(
      p.kind.GetOr(d.kind),
      p.prompt.GetOr(d.prompt),
      p.aspectRatio.GetOr(d.aspectRatio),
      p.model.GetOr(d.model),
      p.output.GetOr(d.output),
      p.isGenerating.GetOr(d.isGenerating))
  }

  /** The later of two optional field values: `q` if present, otherwise `p`. */
  function Later<T>(p: Option<T>, q: Option<T>): Option<T> {
    if q.Some? then q else p
  }

  /** `{ ...p, ...q }`: one patch that does what `p` and then `q` do. */
  function Then(p: Patch, q: Patch): Patch {
    Patch(
      Later(p.kind, q.kind),
      Later(p.prompt, q.prompt),
      Later(p.aspectRatio, q.aspectRatio),
      Later(p.model, q.model),
      Later(p.output, q.output),
      Later(p.isGenerating, q.isGenerating))
  }

  /** Each field of the merge comes from the patch when the patch holds it, else from the data. */
  lemma MergeFields(d: NodeData, p: Patch)
    ensures p.prompt.None? ==> Merge(d, p).prompt == d.prompt
    ensures p.prompt.Some? ==> Merge(d, p).prompt == p.prompt.value
    ensures p.output.None? ==> Merge(d, p).output == d.output
    ensures p.output.Some? ==> Merge(d, p).output == p.output.value
    ensures p.isGenerating.None? ==> Merge(d, p).isGenerating == d.isGenerating
    ensures p.isGenerating.Some? ==> Merge(d, p).isGenerating == p.isGenerating.value
    ensures p.kind.None? ==> Merge(d, p).kind == d.kind
    ensures p.kind.Some? ==> Merge(d, p).kind == p.kind.value
    ensures p.aspectRatio.None? ==> Merge(d, p).aspectRatio == d.aspectRatio
    ensures p.aspectRatio.Some? ==> Merge(d, p).aspectRatio == p.aspectRatio.value
    ensures p.model.None? ==> Merge(d, p).model == d.model
    ensures p.model.Some? ==> Merge(d, p).model == p.model.value
    ensures p == EmptyPatch ==> Merge(d, p) == d
  {
  }

  /** Merging `p` and then `q` is merging the combined patch once. */
  lemma MergeThen(d: NodeData, p: Patch, q: Patch)
    ensures Merge(Merge(d, p), q) == Merge(d, Then(p, q))
  {
  }

  // ----- deleteNode -----

  /** `nodes.filter(node => node.id !== id)`. */
  function RemoveNode(nodes: seq<Node>, id: string): (r: seq<Node>)
    ensures forall n :: n in r <==> n in nodes && n.id != id
    ensures |r| <= |nodes|
  {
    if nodes == [] then []
    else (if nodes[0].id == id then [] else [nodes[0]]) + RemoveNode(nodes[1..], id)
  }

  /** `edges.filter(edge => edge.source !== id && edge.target !== id)`. */
  function RemoveIncident(edges: seq<Edge>, id: string): (r: seq<Edge>)
    ensures forall e :: e in r <==> e in edges && e.source != id && e.target != id
    ensures |r| <= |edges|
  {
    if edges == [] then []
    else (if edges[0].source == id || edges[0].target == id then [] else [edges[0]])
         + RemoveIncident(edges[1..], id)
  }

  /** Deleting keeps the order: it deletes from each part of the list separately. */
  lemma {:induction false} RemoveNodeAppend(a: seq<Node>, b: seq<Node>, id: string)
    ensures RemoveNode(a + b, id) == RemoveNode(a, id) + RemoveNode(b, id)
    decreases |a|
  {
    if a != [] {
      assert (a + b)[1..] == a[1..] + b;
      RemoveNodeAppend(a[1..], b, id);
    } else {
      assert a + b == b;
    }
  }

  /** Deleting an id that no node has changes nothing. */
  lemma {:induction false} RemoveNodeAbsent(nodes: seq<Node>, id: string)
    requires forall n :: n in nodes ==> n.id != id
    ensures RemoveNode(nodes, id) == nodes
    decreases |nodes|
  {
    if nodes != [] {
      assert nodes[0] in nodes;
      RemoveNodeAbsent(nodes[1..], id);
      assert [nodes[0]] + nodes[1..] == nodes;
    }
  }

  /** Edge deletion keeps the order too. */
  lemma {:induction false} RemoveIncidentAppend(a: seq<Edge>, b: seq<Edge>, id: string)
    ensures RemoveIncident(a + b, id) == RemoveIncident(a, id) + RemoveIncident(b, id)
    decreases |a|
  {
    if a != [] {
      assert (a + b)[1..] == a[1..] + b;
      RemoveIncidentAppend(a[1..], b, id);
    } else {
      assert a + b == b;
    }
  }

  /** Removing the edges of a node none of them touches changes nothing. */
  lemma {:induction false} RemoveIncidentAbsent(edges: seq<Edge>, id: string)
    requires forall e :: e in edges ==> e.source != id && e.target != id
    ensures RemoveIncident(edges, id) == edges
    decreases |edges|
  {
    if edges != [] {
      assert edges[0] in edges;
      RemoveIncidentAbsent(edges[1..], id);
      assert [edges[0]] + edges[1..] == edges;
    }
  }

  /** Deleting a node twice leaves the same graph as deleting it once. */
  lemma DeleteIdempotent(nodes: seq<Node>, edges: seq<Edge>, id: string)
    ensures RemoveNode(RemoveNode(nodes, id), id) == RemoveNode(nodes, id)
    ensures RemoveIncident(RemoveIncident(edges, id), id) == RemoveIncident(edges, id)
  {
    RemoveNodeAbsent(RemoveNode(nodes, id), id);
    RemoveIncidentAbsent(RemoveIncident(edges, id), id);
  }

  // ----- updateNodeData -----

  /** `nodes.map(node => node.id === id ? { ...node, data: { ...node.data, ...patch } } : node)`. */
  function UpdateNodes(nodes: seq<Node>, id: string, patch: Patch): (r: seq<Node>)
    ensures |r| == |nodes|
    ensures forall i :: 0 <= i < |nodes| ==> r[i].id == nodes[i].id
    ensures forall i :: 0 <= i < |nodes| && nodes[i].id != id ==> r[i] == nodes[i]
    ensures forall i :: 0 <= i < |nodes| && nodes[i].id == id ==> r[i].data == Merge(nodes[i].data, patch)
  {
    if nodes == [] then []
    else
      var n := nodes[0];
      [if n.id == id then Node(n.id, Merge(n.data, patch)) else n] + UpdateNodes(nodes[1..], id, patch)
  }

  /** Updating an id that no node has leaves the list as it was. */
  lemma UpdateAbsent(nodes: seq<Node>, id: string, patch: Patch)
    requires forall n :: n in nodes ==> n.id != id
    ensures UpdateNodes(nodes, id, patch) == nodes
  {
    var r := UpdateNodes(nodes, id, patch);
    forall i | 0 <= i < |nodes| ensures r[i] == nodes[i] {
      assert nodes[i] in nodes;
    }
  }

  /** Two updates of the same node in a row are one update with the combined patch. */
  lemma UpdateThen(nodes: seq<Node>, id: string, p: Patch, q: Patch)
    ensures UpdateNodes(UpdateNodes(nodes, id, p), id, q) == UpdateNodes(nodes, id, Then(p, q))
  {
    var r1 := UpdateNodes(UpdateNodes(nodes, id, p), id, q);
    var r2 := UpdateNodes(nodes, id, Then(p, q));
    forall i | 0 <= i < |nodes| ensures r1[i] == r2[i] {
      MergeThen(nodes[i].data, p, q);
    }
  }

  // ----- addNode -----

  /** The model a new node of type `t` starts with. */
  function DefaultModel(t: NodeType): (m: string)
    ensures t == Text ==> m == "Gemini 1.5 Pro"
    ensures t == Image ==> m == "Imagen 4"
    ensures t == Video ==> m == "Veo 3"
    ensures t == Audio ==> m == "TTS-1"
    ensures t == Upload ==> m == "Default"
  {
    var m0 := "Default";
    var m1 := if t == Text then "Gemini 1.5 Pro" else m0;
    var m2 := if t == Image then "Imagen 4" else m1;
    var m3 := if t == Video then "Veo 3" else m2;
    if t == Audio then "TTS-1" else m3
  }

  /** The node `addNode` creates; `id` stands for the clock reading used as its id. */
  function NewNode(id: string, t: NodeType): (n: Node)
    ensures n.id == id && n.data.kind == t
    ensures n.data.prompt == "" && n.data.aspectRatio == "1:1" && n.data.model == DefaultModel(t)
    ensures n.data.output.None? && !n.data.isGenerating
  {
    Node(id, NodeData(t, "", "1:1", DefaultModel(t), None, false))
  }

  // ----- initial graph -----

  const InitialNodes: seq<Node> := [
    Node("1", NodeData(Image, "A beautiful landscape painting, digital art, high resolution",
                       "1:1", "Imagen 4", None, false)),
    Node("2", NodeData(Text, "Write a short poem about this landscape.",
                       "1:1", "Gemini 1.5 Pro", None, false))
  ]

  const InitialEdges: seq<Edge> := []

  /** The canvas opens with an Image node "1" feeding nothing and a Text node "2", unconnected. */
  lemma InitialGraph()
    ensures |InitialNodes| == 2 && InitialEdges == []
    ensures InitialNodes[0].id == "1" && InitialNodes[0].data.kind == Image
    ensures InitialNodes[1].id == "2" && InitialNodes[1].data.kind == Text
    ensures forall n :: n in InitialNodes ==> n.data.output.None? && n.data.aspectRatio == "1:1"
  {
  }

  /** The node and edge lists of the editor, replaced wholesale by each operation. */
  class Canvas {
    var nodes: seq<Node>
    var edges: seq<Edge>

    constructor ()
      ensures nodes == InitialNodes && edges == InitialEdges
    {
      nodes := InitialNodes;
      edges := InitialEdges;
    }

    /** `deleteNode`: drops the node and every edge that starts or ends at it. */
    method DeleteNode(id: string)
      modifies this
      ensures nodes == RemoveNode(old(nodes), id)
      ensures edges == RemoveIncident(old(edges), id)
      ensures forall n :: n in nodes ==> n.id != id
      ensures forall e :: e in edges ==> e.source != id && e.target != id
    {
      nodes := RemoveNode(nodes, id);
      edges := RemoveIncident(edges, id);
    }

    /** `updateNodeData`: merges `patch` into the data of the node(s) with this id. */
    method UpdateNodeData(id: string, patch: Patch)
      modifies this
      ensures nodes == UpdateNodes(old(nodes), id, patch)
      ensures edges == old(edges)
    {
      nodes := UpdateNodes(nodes, id, patch);
    }

    /** `addNode`: appends a fresh node of type `t` under the given id. */
    method AddNode(t: NodeType, id: string)
      modifies this
      ensures nodes == old(nodes) + [NewNode(id, t)]
      ensures edges == old(edges)
    {
      nodes := nodes + [NewNode(id, t)];
    }
  }
}
