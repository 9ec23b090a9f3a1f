/** `agents/chat/graph.py`: the chat workflow is a `StateGraph` with the
    nodes `retrieve_context` and `generate_response`, wired START →
    retrieve_context → generate_response → END. The builder refuses a node
    name already present or reserved, an edge out of END and an edge into
    START. */
module ChatGraph {
  import opened Models

  const Start := "__start__"
  const End := "__end__"
  const RetrieveNode := "retrieve_context"
  const GenerateNode := "generate_response"

  datatype GraphError = NodeAlreadyPresent | NodeReserved | EndAsSource | StartAsTarget

  /** The targets of the edges leaving `node`. */
  function Successors(edges: set<(string, string)>, node: string): set<string>
  {
    set e | e in edges && e.0 == node :: e.1
  }

  /** The nodes a run visits from `node`, following the only edge out of
      each, until END or a node with no single successor; `fuel` bounds the
      walk. */
  ghost function Walk(edges: set<(string, string)>, node: string, fuel: nat): seq<string>
    decreases fuel
  {
    if fuel == 0 || node == End then [node]
    else if exists n :: Successors(edges, node) == {n} then
      var n :| Successors(edges, node) == {n};
      [node] + Walk(edges, n, fuel - 1)
    else [node]
  }

  class StateGraph {
    var nodes: seq<string>
    var edges: set<(string, string)>

    constructor ()
      ensures nodes == [] && edges == {}
    {
      nodes, edges := [], {};
    }

    /** `add_node`: registers a new, unreserved node name. */
    method AddNode(name: string) returns (r: Result<(), GraphError>)
      modifies this
      ensures name in old(nodes) ==> r == Err(NodeAlreadyPresent)
      ensures name !in old(nodes) && (name == Start || name == End) ==> r == Err(NodeReserved)
      ensures r.Ok? <==> name !in old(nodes) && name != Start && name != End
      ensures r.Ok? ==> nodes == old(nodes) + [name]
      ensures r.Err? ==> nodes == old(nodes)
      ensures edges == old(edges)
    {
      if name in nodes {
        return Err(NodeAlreadyPresent);
      }
      if name == Start || name == End {
        return Err(NodeReserved);
      }
      nodes := nodes + [name];
      r := Ok(());
    }

    /** `add_edge`: adds a directed edge; END has no outgoing and START no
        incoming edge. */
    method AddEdge(source: string, target: string) returns (r: Result<(), GraphError>)
      modifies this
      ensures source == End ==> r == Err(EndAsSource)
      ensures source != End && target == Start ==> r == Err(StartAsTarget)
      ensures r.Ok? <==> source != End && target != Start
      ensures r.Ok? ==> edges == old(edges) + {(source, target)}
      ensures r.Err? ==> edges == old(edges)
      ensures nodes == old(nodes)
    {
      if source == End {
        return Err(EndAsSource);
      }
      if target == Start {
        return Err(StartAsTarget);
      }
      edges := edges + {(source, target)};
      r := Ok(());
    }
  }

  /** The edges of the chat workflow. */
  function WorkflowEdges(): set<(string, string)>
  {
    {(Start, RetrieveNode), (RetrieveNode, GenerateNode), (GenerateNode, End)}
  }

  /** The module-level construction of `workflow`. */
  method BuildWorkflow() returns (g: StateGraph)
    ensures fresh(g)
    ensures g.nodes == [RetrieveNode, GenerateNode]
    ensures g.edges == WorkflowEdges()
  {
    g := new StateGraph();
    var ok := g.AddNode(RetrieveNode);
    ok := g.AddNode(GenerateNode);
    ok := g.AddEdge(Start, RetrieveNode);
    ok := g.AddEdge(RetrieveNode, GenerateNode);
    ok := g.AddEdge(GenerateNode, End);
  }

  /** Each step of the workflow has exactly one next step, and a run visits
      START, retrieve_context, generate_response and END in that order. */
  lemma WorkflowOrder()
    ensures Successors(WorkflowEdges(), Start) == {RetrieveNode}
    ensures Successors(WorkflowEdges(), RetrieveNode) == {GenerateNode}
    ensures Successors(WorkflowEdges(), GenerateNode) == {End}
    ensures Successors(WorkflowEdges(), End) == {}
    ensures Walk(WorkflowEdges(), Start, 3) == [Start, RetrieveNode, GenerateNode, End]
  {
    var e := WorkflowEdges();
    assert Successors(e, Start) == {RetrieveNode} by {
      assert (Start, RetrieveNode) in e;
    }
    assert Successors(e, RetrieveNode) == {GenerateNode} by {
      assert (RetrieveNode, GenerateNode) in e;
    }
    assert Successors(e, GenerateNode) == {End} by {
      assert (GenerateNode, End) in e;
    }
    assert Walk(e, GenerateNode, 1) == [GenerateNode, End];
    assert Walk(e, RetrieveNode, 2) == [RetrieveNode, GenerateNode, End];
  }
}
