/** The topology graph that the MCP server builds from the pipelines of all agents
    (internal/examples/opamp-api-and-mcp-server/internal/topology/topology.go).

    The graph is built through maps that all agents share, keyed by strings made by concatenation.
    Agents and pipelines are given in the order in which the maps of the source happen to be
    iterated, so a statement about all inputs is one about all orders.
  */
module Topology {
  datatype Kind = AgentKind | ReceiverKind | ProcessorKind | ExporterKind | EndpointKind

  function KindName(k: Kind): string {
    match k
    case AgentKind => "agent"
    case ReceiverKind => "receiver"
    case ProcessorKind => "processor"
    case ExporterKind => "exporter"
    case EndpointKind => "endpoint"
  }

  datatype Node = Node(id: string, kind: Kind, name: string, agentId: string, pipelineType: string)

  datatype Edge = Edge(from: string, to: string, pipelineType: string, caption: string)

  /** `shown` are the processors of which some value is not zero; `hasTraceData` matters to a
      traces pipeline only. */
  datatype Pipeline = Pipeline(
    pipelineType: string, receivers: seq<string>, processors: seq<string>, exporters: seq<string>,
    endpoints: map<string, string>, shown: set<string>, hasTraceData: bool)

  datatype Agent = Agent(id: string, name: string, pipelines: seq<Pipeline>)

  datatype Graph = Graph(
    nodes: seq<Node>, edges: seq<Edge>, nodeMap: set<string>, componentNodeMap: map<string, string>)

  const EMPTY_GRAPH := Graph([], [], {}, map[])

  // ---- Names ----------------------------------------------------------------------------------

  /** A receiver, processor or exporter of a pipeline of an agent. */
  datatype Component = Component(kind: Kind, agentId: string, name: string, pipelineType: string)

  function AgentNodeId(agentId: string): string {
    "agent-" + agentId
  }

  function NodeId(c: Component): string {
    KindName(c.kind) + "-" + (AgentNodeId(c.agentId) + "-" + c.name + "-" + c.pipelineType)
  }

  function ComponentKey(c: Component): string {
    AgentNodeId(c.agentId) + "-" + (KindName(c.kind) + "/" + c.name) + "-" + c.pipelineType
  }

  function ReplaceAll(s: string, what: string, with: string): string
    requires what != ""
  {
    if s == "" then ""
    else if what <= s then with + ReplaceAll(s[|what|..], what, with)
    else [s[0]] + ReplaceAll(s[1..], what, with)
  }

  function NormalizeEndpoint(endpoint: string): string {
    var e := ReplaceAll(ReplaceAll(endpoint, "http://", ""), "https://", "");
    ReplaceAll(ReplaceAll(ReplaceAll(e, "://", ""), "/", "-"), ":", "-")
  }

  function EndpointNodeId(endpoint: string): string {
    "endpoint-" + NormalizeEndpoint(endpoint)
  }

  predicate Skipped(pl: Pipeline) {
    pl.pipelineType == "traces" && !pl.hasTraceData
  }

  // ---- The graph, step by step ------------------------------------------------------------------

  function AddNode(g: Graph, node: Node): Graph {
    g.(nodes := g.nodes + [node], nodeMap := g.nodeMap + {node.id})
  }

  function AddNodeOnce(g: Graph, node: Node): Graph {
    if node.id in g.nodeMap then g else AddNode(g, node)
  }

  function NodeOf(c: Component, id: string): Node {
    Node(id, c.kind, c.name, c.agentId, c.pipelineType)
  }

  /** The node of a receiver or an exporter. */
  function Ensured(g: Graph, c: Component): (r: Graph)
    ensures ComponentKey(c) in r.componentNodeMap && r.edges == g.edges
  {
    if ComponentKey(c) in g.componentNodeMap then g
    else
      AddNodeOnce(g.(componentNodeMap := g.componentNodeMap[ComponentKey(c) := NodeId(c)]), NodeOf(c, NodeId(c)))
  }

  function WithReceiver(g: Graph, c: Component): Graph {
    var r := Ensured(g, c);
    r.(edges := r.edges + [Edge(AgentNodeId(c.agentId), r.componentNodeMap[ComponentKey(c)],
                                c.pipelineType, c.pipelineType + " pipeline")])
  }

  datatype Built = Built(graph: Graph, ids: seq<string>)

  /** All receivers of a pipeline, and the ids of their nodes. */
  function WithReceivers(g: Graph, agentId: string, pipelineType: string, names: seq<string>): Built {
    if names == [] then Built(g, [])
    else
      var b := WithReceivers(g, agentId, pipelineType, names[..|names| - 1]);
      var c := Component(ReceiverKind, agentId, names[|names| - 1], pipelineType);
      var r := WithReceiver(b.graph, c);
      Built(r, b.ids + [Ensured(b.graph, c).componentNodeMap[ComponentKey(c)]])
  }

  /** An edge from each of `froms`. */
  function Fan(froms: seq<string>, to: string, pipelineType: string): seq<Edge> {
    if froms == [] then []
    else Fan(froms[..|froms| - 1], to, pipelineType) + [Edge(froms[|froms| - 1], to, pipelineType, pipelineType)]
  }

  /** `b.ids` are the processors shown so far; `sources` feed the first of them. */
  function WithProcessor(b: Built, c: Component, shown: set<string>, sources: seq<string>): Built {
    var known := ComponentKey(c) in b.graph.componentNodeMap;
    var id := if known then b.graph.componentNodeMap[ComponentKey(c)] else NodeId(c);
    var g := b.graph.(componentNodeMap := b.graph.componentNodeMap[ComponentKey(c) := id]);
    if id in g.nodeMap then Built(g, b.ids)
    else if c.name !in shown then Built(g.(nodeMap := g.nodeMap + {id}), b.ids)
    else
      var edges := if b.ids == [] then Fan(sources, id, c.pipelineType)
                   else [Edge(b.ids[|b.ids| - 1], id, c.pipelineType, c.pipelineType)];
      Built(AddNode(g, NodeOf(c, id)).(edges := g.edges + edges), b.ids + [id])
  }

  function WithProcessors(g: Graph, agentId: string, pl: Pipeline, names: seq<string>, sources: seq<string>): Built {
    if names == [] then Built(g, [])
    else
      WithProcessor(WithProcessors(g, agentId, pl, names[..|names| - 1], sources),
                    Component(ProcessorKind, agentId, names[|names| - 1], pl.pipelineType), pl.shown, sources)
  }

  function WithEndpoint(g: Graph, from: string, c: Component, endpoint: string): Graph {
    var r := AddNodeOnce(g, Node(EndpointNodeId(endpoint), EndpointKind, endpoint, "", ""));
    r.(edges := r.edges + [Edge(from, EndpointNodeId(endpoint), c.pipelineType, c.pipelineType + " via " + c.name)])
  }

  function WithExporter(g: Graph, c: Component, endpoints: map<string, string>, last: seq<string>): Graph {
    if c.name == "debug" then g
    else
      var r := Ensured(g, c);
      var id := r.componentNodeMap[ComponentKey(c)];
      var fed := r.(edges := r.edges + Fan(last, id, c.pipelineType));
      if c.name in endpoints then WithEndpoint(fed, id, c, endpoints[c.name]) else fed
  }

  function WithExporters(g: Graph, agentId: string, pl: Pipeline, names: seq<string>, last: seq<string>): Graph {
    if names == [] then g
    else
      WithExporter(WithExporters(g, agentId, pl, names[..|names| - 1], last),
                   Component(ExporterKind, agentId, names[|names| - 1], pl.pipelineType), pl.endpoints, last)
  }

  function Sources(agentId: string, receiverIds: seq<string>): seq<string> {
    if receiverIds == [] then [AgentNodeId(agentId)] else receiverIds
  }

  function LastComponents(receiverIds: seq<string>, processorIds: seq<string>): seq<string> {
    if processorIds == [] then receiverIds else [processorIds[|processorIds| - 1]]
  }

  function WithPipeline(g: Graph, agentId: string, pl: Pipeline): Graph {
    if Skipped(pl) then g
    else
      var rs := WithReceivers(g, agentId, pl.pipelineType, pl.receivers);
      var ps := WithProcessors(rs.graph, agentId, pl, pl.processors, Sources(agentId, rs.ids));
      WithExporters(ps.graph, agentId, pl, pl.exporters, LastComponents(rs.ids, ps.ids))
  }

  function WithPipelines(g: Graph, agentId: string, pls: seq<Pipeline>): Graph {
    if pls == [] then g else WithPipeline(WithPipelines(g, agentId, pls[..|pls| - 1]), agentId, pls[|pls| - 1])
  }

  function WithAgent(g: Graph, a: Agent): Graph {
    WithPipelines(AddNodeOnce(g, Node(AgentNodeId(a.id), AgentKind, a.name, a.id, "")), a.id, a.pipelines)
  }

  function TopologyOf(agents: seq<Agent>): Graph {
    if agents == [] then EMPTY_GRAPH else WithAgent(TopologyOf(agents[..|agents| - 1]), agents[|agents| - 1])
  }

  // ---- The builder --------------------------------------------------------------------------------

  class Builder {
    var nodes: seq<Node>
    var edges: seq<Edge>
    var nodeMap: set<string>
    var componentNodeMap: map<string, string>

    ghost function View(): Graph
      reads this
    {
      Graph(nodes, edges, nodeMap, componentNodeMap)
    }

    constructor ()
      ensures View() == EMPTY_GRAPH
    {
      nodes, edges, nodeMap, componentNodeMap := [], [], {}, map[];
    }

    method BuildReceiverNodes(agentId: string, pipelineType: string, receivers: seq<string>)
      returns (receiverNodeIds: seq<string>)
      modifies this
      ensures Built(View(), receiverNodeIds) == WithReceivers(old(View()), agentId, pipelineType, receivers)
    {
      receiverNodeIds := [];
      for i := 0 to |receivers|
        invariant Built(View(), receiverNodeIds) == WithReceivers(old(View()), agentId, pipelineType, receivers[..i])
      {
        var c := Component(ReceiverKind, agentId, receivers[i], pipelineType);
        var componentKey := ComponentKey(c);
        if componentKey !in componentNodeMap {
          var receiverNodeId := NodeId(c);
          componentNodeMap := componentNodeMap[componentKey := receiverNodeId];
          if receiverNodeId !in nodeMap {
            nodes := nodes + [NodeOf(c, receiverNodeId)];
            nodeMap := nodeMap + {receiverNodeId};
          }
        }
        var receiverNodeId := componentNodeMap[componentKey];
        receiverNodeIds := receiverNodeIds + [receiverNodeId];
        edges := edges + [Edge(AgentNodeId(agentId), receiverNodeId, pipelineType, pipelineType + " pipeline")];
        assert receivers[..i + 1][..i] == receivers[..i];
      }
      assert receivers[..|receivers|] == receivers;
    }

    method AddFan(froms: seq<string>, to: string, pipelineType: string)
      modifies this`edges
      ensures edges == old(edges) + Fan(froms, to, pipelineType)
    {
      for i := 0 to |froms|
        invariant edges == old(edges) + Fan(froms[..i], to, pipelineType)
      {
        edges := edges + [Edge(froms[i], to, pipelineType, pipelineType)];
        assert froms[..i + 1][..i] == froms[..i];
      }
      assert froms[..|froms|] == froms;
    }

    method BuildProcessorNodes(agentId: string, pl: Pipeline, receiverNodeIds: seq<string>)
      returns (processorNodeIds: seq<string>)
      modifies this
      ensures Built(View(), processorNodeIds)
           == WithProcessors(old(View()), agentId, pl, pl.processors, Sources(agentId, receiverNodeIds))
    {
      processorNodeIds := [];
      var lastComponents := receiverNodeIds;
      if lastComponents == [] {
        lastComponents := [AgentNodeId(agentId)];
      }
      for i := 0 to |pl.processors|
        invariant Built(View(), processorNodeIds)
               == WithProcessors(old(View()), agentId, pl, pl.processors[..i], lastComponents)
      {
        var c := Component(ProcessorKind, agentId, pl.processors[i], pl.pipelineType);
        assert pl.processors[..i + 1][..i] == pl.processors[..i];
        processorNodeIds := BuildProcessorNode(c, pl.shown, lastComponents, processorNodeIds);
      }
      assert pl.processors[..|pl.processors|] == pl.processors;
    }

    method BuildProcessorNode(c: Component, shown: set<string>, lastComponents: seq<string>, shownIds: seq<string>)
      returns (processorNodeIds: seq<string>)
      modifies this
      ensures Built(View(), processorNodeIds) == WithProcessor(Built(old(View()), shownIds), c, shown, lastComponents)
    {
      processorNodeIds := shownIds;
      var componentKey, processorNodeId := ComponentKey(c), NodeId(c);
      if componentKey in componentNodeMap {
        processorNodeId := componentNodeMap[componentKey];
      } else {
        componentNodeMap := componentNodeMap[componentKey := processorNodeId];
      }
      assert componentNodeMap == old(componentNodeMap)[componentKey := processorNodeId];
      if processorNodeId !in nodeMap {
        if c.name !in shown {
          nodeMap := nodeMap + {processorNodeId};
          return;
        }
        nodes := nodes + [NodeOf(c, processorNodeId)];
        nodeMap := nodeMap + {processorNodeId};
        processorNodeIds := processorNodeIds + [processorNodeId];
        if |processorNodeIds| == 1 {
          AddFan(lastComponents, processorNodeId, c.pipelineType);
        } else {
          var prevId := processorNodeIds[|processorNodeIds| - 2];
          edges := edges + [Edge(prevId, processorNodeId, c.pipelineType, c.pipelineType)];
        }
      }
    }

    method BuildExporterNodes(agentId: string, pl: Pipeline, lastComponents: seq<string>)
      modifies this
      ensures View() == WithExporters(old(View()), agentId, pl, pl.exporters, lastComponents)
    {
      for i := 0 to |pl.exporters|
        invariant View() == WithExporters(old(View()), agentId, pl, pl.exporters[..i], lastComponents)
      {
        assert pl.exporters[..i + 1][..i] == pl.exporters[..i];
        var c := Component(ExporterKind, agentId, pl.exporters[i], pl.pipelineType);
        BuildExporterNode(c, pl.endpoints, lastComponents);
      }
      assert pl.exporters[..|pl.exporters|] == pl.exporters;
    }

    method BuildExporterNode(c: Component, endpoints: map<string, string>, lastComponents: seq<string>)
      modifies this
      ensures View() == WithExporter(old(View()), c, endpoints, lastComponents)
    {
      if c.name == "debug" { return; }
      var componentKey := ComponentKey(c);
      if componentKey !in componentNodeMap {
        var exporterNodeId := NodeId(c);
        componentNodeMap := componentNodeMap[componentKey := exporterNodeId];
        if exporterNodeId !in nodeMap {
          nodes := nodes + [NodeOf(c, exporterNodeId)];
          nodeMap := nodeMap + {exporterNodeId};
        }
      }
      var exporterNodeId := componentNodeMap[componentKey];
      AddFan(lastComponents, exporterNodeId, c.pipelineType);
      if c.name in endpoints {
        var endpoint := endpoints[c.name];
        var endpointNodeId := EndpointNodeId(endpoint);
        if endpointNodeId !in nodeMap {
          nodes := nodes + [Node(endpointNodeId, EndpointKind, endpoint, "", "")];
          nodeMap := nodeMap + {endpointNodeId};
        }
        edges := edges + [Edge(exporterNodeId, endpointNodeId, c.pipelineType, c.pipelineType + " via " + c.name)];
      }
    }

    method BuildPipeline(agentId: string, pl: Pipeline)
      modifies this
      ensures View() == WithPipeline(old(View()), agentId, pl)
    {
      if Skipped(pl) { return; }
      var receiverNodeIds := BuildReceiverNodes(agentId, pl.pipelineType, pl.receivers);
      var processorNodeIds := BuildProcessorNodes(agentId, pl, receiverNodeIds);
      var lastComponents := receiverNodeIds;
      if |processorNodeIds| > 0 {
        lastComponents := [processorNodeIds[|processorNodeIds| - 1]];
      }
      BuildExporterNodes(agentId, pl, lastComponents);
    }

    method BuildTopology(agents: seq<Agent>)
      requires View() == EMPTY_GRAPH
      modifies this
      ensures View() == TopologyOf(agents)
    {
      for i := 0 to |agents|
        invariant View() == TopologyOf(agents[..i])
      {
        var a := agents[i];
        assert agents[..i + 1][..i] == agents[..i];
        ghost var before := View();
        var agentNodeId := AgentNodeId(a.id);
        if agentNodeId !in nodeMap {
          nodes := nodes + [Node(agentNodeId, AgentKind, a.name, a.id, "")];
          nodeMap := nodeMap + {agentNodeId};
        }
        ghost var start := View();
        assert start == AddNodeOnce(before, Node(AgentNodeId(a.id), AgentKind, a.name, a.id, ""));
        for j := 0 to |a.pipelines|
          invariant View() == WithPipelines(start, a.id, a.pipelines[..j])
        {
          assert a.pipelines[..j + 1][..j] == a.pipelines[..j];
          BuildPipeline(a.id, a.pipelines[j]);
        }
        assert a.pipelines[..|a.pipelines|] == a.pipelines;
      }
      assert agents[..|agents|] == agents;
    }
  }
}
