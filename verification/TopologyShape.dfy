/** The shape of the topology graph: unique node ids for all inputs; edges that end at nodes, and
    no cycles, exactly as far as the agent ids keep the shared keys of different kinds apart. */
module TopologyShape {
  import opened Topology

  function KindOf(id: string): Kind {
    if "agent-" <= id then AgentKind
    else if "receiver-" <= id then ReceiverKind
    else if "processor-" <= id then ProcessorKind
    else if "exporter-" <= id then ExporterKind
    else EndpointKind
  }

  predicate InPipeline(c: Component) {
    c.kind == ReceiverKind || c.kind == ProcessorKind || c.kind == ExporterKind
  }

  lemma KindOfNodeId(c: Component)
    requires InPipeline(c)
    ensures KindOf(NodeId(c)) == c.kind
  {
    var id, prefix := NodeId(c), KindName(c.kind) + "-";
    assert id == prefix + (AgentNodeId(c.agentId) + "-" + c.name + "-" + c.pipelineType);
    assert prefix <= id && id[0] == prefix[0];
    match c.kind
    case ReceiverKind => assert prefix == "receiver-";
    case ProcessorKind => assert prefix == "processor-";
    case ExporterKind => assert prefix == "exporter-";
  }

  lemma KindOfOthers(agentId: string, endpoint: string)
    ensures KindOf(AgentNodeId(agentId)) == AgentKind
    ensures KindOf(EndpointNodeId(endpoint)) == EndpointKind
  {
    var id := EndpointNodeId(endpoint);
    assert "endpoint-" <= id && id[0] == 'e' && id[1] == 'n';
  }

  function Rank(k: Kind): nat {
    match k
    case AgentKind => 0
    case ReceiverKind => 1
    case ProcessorKind => 2
    case ExporterKind => 3
    case EndpointKind => 4
  }

  ghost predicate HasNode(nodes: seq<Node>, id: string) {
    exists i :: 0 <= i < |nodes| && nodes[i].id == id
  }

  /** Node `j` is of a later kind than node `i`, or both are processors and `j` comes later. */
  predicate Above(nodes: seq<Node>, i: nat, j: nat) {
    && i < |nodes| && j < |nodes|
    && (Rank(nodes[i].kind) < Rank(nodes[j].kind) || (nodes[i].kind == nodes[j].kind == ProcessorKind && i < j))
  }

  /** The edge leads from a node to one of a later kind, or from a processor to a later one. */
  ghost predicate Rises(nodes: seq<Node>, e: Edge) {
    exists i: nat, j: nat :: Above(nodes, i, j) && nodes[i].id == e.from && nodes[j].id == e.to
  }

  ghost predicate UniqueIds(nodes: seq<Node>) {
    forall i, j :: 0 <= i < j < |nodes| ==> nodes[i].id != nodes[j].id
  }

  function ComponentOf(n: Node): Component {
    Component(n.kind, n.agentId, n.name, n.pipelineType)
  }

  /** A node has the id of what it shows. */
  predicate WellNamed(n: Node) {
    && KindOf(n.id) == n.kind
    && n.id == match n.kind
               case AgentKind => AgentNodeId(n.agentId)
               case EndpointKind => EndpointNodeId(n.name)
               case _ => NodeId(ComponentOf(n))
  }

  ghost predicate Shape(g: Graph) {
    && UniqueIds(g.nodes)
    && (forall i :: 0 <= i < |g.nodes| ==> g.nodes[i].id in g.nodeMap && WellNamed(g.nodes[i]))
    && (forall id <- g.nodeMap :: KindOf(id) == ProcessorKind || HasNode(g.nodes, id))
    && (forall k <- g.componentNodeMap :: g.componentNodeMap[k] in g.nodeMap)
  }

  /** No two components of different kinds share a key. */
  ghost predicate NoKindClash(cs: set<Component>) {
    forall c, d :: c in cs && d in cs && ComponentKey(c) == ComponentKey(d) ==> c.kind == d.kind
  }

  ghost predicate KindKeys(g: Graph, cs: set<Component>) {
    forall c <- cs :: ComponentKey(c) in g.componentNodeMap ==>
      KindOf(g.componentNodeMap[ComponentKey(c)]) == c.kind
  }

  ghost predicate Rising(g: Graph) {
    forall e <- g.edges :: Rises(g.nodes, e)
  }

  ghost predicate ShapeInv(g: Graph, cs: set<Component>) {
    && Shape(g)
    && (forall c <- cs :: InPipeline(c))
    && (forall n <- g.nodes :: InPipeline(ComponentOf(n)) ==> ComponentOf(n) in cs)
    && (NoKindClash(cs) ==> KindKeys(g, cs) && Rising(g))
  }

  /** Nodes that may precede one of kind `k`. */
  ghost predicate Feeds(g: Graph, ids: seq<string>, k: Kind) {
    forall id <- ids :: HasNode(g.nodes, id) && Rank(KindOf(id)) < Rank(k)
  }

  lemma FeedsGrows(g: Graph, r: Graph, ids: seq<string>, k: Kind)
    requires Feeds(g, ids, k) && g.nodes <= r.nodes
    ensures Feeds(r, ids, k)
  {
    forall id | id in ids ensures HasNode(r.nodes, id) {
      var i :| 0 <= i < |g.nodes| && g.nodes[i].id == id;
      assert r.nodes[i].id == id;
    }
  }

  lemma RisingGrows(g: Graph, r: Graph)
    requires Rising(g) && g.nodes <= r.nodes && r.edges == g.edges
    ensures Rising(r)
  {
    forall e | e in r.edges ensures Rises(r.nodes, e) {
      var i: nat, j: nat :| Above(g.nodes, i, j) && g.nodes[i].id == e.from && g.nodes[j].id == e.to;
      assert r.nodes[i] == g.nodes[i] && r.nodes[j] == g.nodes[j];
      assert Above(r.nodes, i, j);
    }
  }

  lemma RankRises(g: Graph, e: Edge)
    requires Shape(g) && HasNode(g.nodes, e.from) && HasNode(g.nodes, e.to)
    requires Rank(KindOf(e.from)) < Rank(KindOf(e.to))
    ensures Rises(g.nodes, e)
  {
    var i :| 0 <= i < |g.nodes| && g.nodes[i].id == e.from;
    var j :| 0 <= j < |g.nodes| && g.nodes[j].id == e.to;
    assert Above(g.nodes, i, j);
  }

  lemma AddNodeShape(g: Graph, node: Node)
    requires Shape(g) && node.id !in g.nodeMap && WellNamed(node)
    ensures Shape(AddNode(g, node)) && HasNode(AddNode(g, node).nodes, node.id)
    ensures Rising(g) ==> Rising(AddNode(g, node))
  {
    var r := AddNode(g, node);
    assert r.nodes[|g.nodes|] == node;
    forall id | id in r.nodeMap && KindOf(id) != ProcessorKind ensures HasNode(r.nodes, id) {
      if id != node.id {
        var i :| 0 <= i < |g.nodes| && g.nodes[i].id == id;
        assert r.nodes[i].id == id;
      }
    }
    if Rising(g) {
      RisingGrows(g, r);
    }
  }

  lemma AddNodeOnceShape(g: Graph, node: Node)
    requires Shape(g) && WellNamed(node) && node.kind != ProcessorKind
    ensures Shape(AddNodeOnce(g, node)) && HasNode(AddNodeOnce(g, node).nodes, node.id)
    ensures g.nodes <= AddNodeOnce(g, node).nodes
    ensures Rising(g) ==> Rising(AddNodeOnce(g, node))
  {
    if node.id !in g.nodeMap {
      AddNodeShape(g, node);
    }
  }

  lemma AddEdges(g: Graph, es: seq<Edge>, cs: set<Component>)
    requires ShapeInv(g, cs) && (NoKindClash(cs) ==> forall e <- es :: Rises(g.nodes, e))
    ensures ShapeInv(g.(edges := g.edges + es), cs)
  {
    var r := g.(edges := g.edges + es);
    assert r.nodes == g.nodes;
    if NoKindClash(cs) {
      forall e | e in r.edges ensures Rises(r.nodes, e) {
        assert e in g.edges || e in es;
      }
    }
  }

  /** A new key for a component of `cs`, with an id of its kind that was marked. */
  lemma AddKey(g: Graph, c: Component, id: string, cs: set<Component>)
    requires Shape(g) && c in cs && id in g.nodeMap && KindOf(id) == c.kind
    ensures Shape(g.(componentNodeMap := g.componentNodeMap[ComponentKey(c) := id]))
    ensures NoKindClash(cs) && KindKeys(g, cs) ==>
              KindKeys(g.(componentNodeMap := g.componentNodeMap[ComponentKey(c) := id]), cs)
  {
    var r := g.(componentNodeMap := g.componentNodeMap[ComponentKey(c) := id]);
    assert r.nodes == g.nodes && r.nodeMap == g.nodeMap;
    forall k | k in r.componentNodeMap ensures r.componentNodeMap[k] in r.nodeMap {
      if k != ComponentKey(c) {
        assert k in g.componentNodeMap;
      }
    }
  }

  lemma EnsuredShape(g: Graph, c: Component, cs: set<Component>)
    requires ShapeInv(g, cs) && c in cs && c.kind != ProcessorKind
    ensures ShapeInv(Ensured(g, c), cs) && g.nodes <= Ensured(g, c).nodes
    ensures var id := Ensured(g, c).componentNodeMap[ComponentKey(c)];
            NoKindClash(cs) ==> KindOf(id) == c.kind && HasNode(Ensured(g, c).nodes, id)
  {
    if ComponentKey(c) in g.componentNodeMap {
      assert g.componentNodeMap[ComponentKey(c)] in g.nodeMap;
    } else {
      KindOfNodeId(c);
      var node := NodeOf(c, NodeId(c));
      var h := AddNodeOnce(g, node);
      if node.id !in g.nodeMap {
        AddNodeShape(g, node);
      }
      assert HasNode(h.nodes, node.id);
      AddKey(h, c, NodeId(c), cs);
      assert Ensured(g, c) == h.(componentNodeMap := h.componentNodeMap[ComponentKey(c) := NodeId(c)]);
    }
  }

  /** An agent has its node. */
  ghost predicate AgentReady(g: Graph, agentId: string) {
    HasNode(g.nodes, AgentNodeId(agentId))
  }

  lemma ReceiverShape(g: Graph, c: Component, cs: set<Component>)
    requires ShapeInv(g, cs) && c in cs && c.kind == ReceiverKind && AgentReady(g, c.agentId)
    ensures var r := WithReceiver(g, c);
            && ShapeInv(r, cs) && g.nodes <= r.nodes
            && (NoKindClash(cs) ==> Feeds(r, [Ensured(g, c).componentNodeMap[ComponentKey(c)]], ProcessorKind))
  {
    EnsuredShape(g, c, cs);
    var r := Ensured(g, c);
    var id := r.componentNodeMap[ComponentKey(c)];
    var e := Edge(AgentNodeId(c.agentId), id, c.pipelineType, c.pipelineType + " pipeline");
    if NoKindClash(cs) {
      FeedsGrowsOne(g, r, AgentNodeId(c.agentId));
      KindOfOthers(c.agentId, "");
      RankRises(r, e);
    }
    AddEdges(r, [e], cs);
  }

  lemma FeedsGrowsOne(g: Graph, r: Graph, id: string)
    requires HasNode(g.nodes, id) && g.nodes <= r.nodes
    ensures HasNode(r.nodes, id)
  {
    var i :| 0 <= i < |g.nodes| && g.nodes[i].id == id;
    assert r.nodes[i].id == id;
  }

  lemma {:induction false} ReceiversShape(g: Graph, agentId: string, pipelineType: string, names: seq<string>,
                                          cs: set<Component>)
    requires ShapeInv(g, cs) && AgentReady(g, agentId)
    requires forall n <- names :: Component(ReceiverKind, agentId, n, pipelineType) in cs
    ensures var b := WithReceivers(g, agentId, pipelineType, names);
            && ShapeInv(b.graph, cs) && g.nodes <= b.graph.nodes
            && (NoKindClash(cs) ==> Feeds(b.graph, b.ids, ProcessorKind))
  {
    if names != [] {
      var last := |names| - 1;
      ReceiversShape(g, agentId, pipelineType, names[..last], cs);
      var b := WithReceivers(g, agentId, pipelineType, names[..last]);
      var c := Component(ReceiverKind, agentId, names[last], pipelineType);
      FeedsGrowsOne(g, b.graph, AgentNodeId(agentId));
      ReceiverShape(b.graph, c, cs);
      if NoKindClash(cs) {
        FeedsGrows(b.graph, WithReceiver(b.graph, c), b.ids, ProcessorKind);
      }
    }
  }

  lemma {:induction false} FanMember(froms: seq<string>, to: string, pipelineType: string, e: Edge)
    ensures e in Fan(froms, to, pipelineType) <==>
            e.to == to && e.pipelineType == pipelineType && e.caption == pipelineType && e.from in froms
  {
    if froms != [] {
      FanMember(froms[..|froms| - 1], to, pipelineType, e);
      assert froms == froms[..|froms| - 1] + [froms[|froms| - 1]];
    }
  }

  lemma FanRises(g: Graph, froms: seq<string>, to: string, pipelineType: string)
    requires Shape(g) && HasNode(g.nodes, to) && Feeds(g, froms, KindOf(to))
    ensures forall e <- Fan(froms, to, pipelineType) :: Rises(g.nodes, e)
  {
    forall e | e in Fan(froms, to, pipelineType) ensures Rises(g.nodes, e) {
      FanMember(froms, to, pipelineType, e);
      RankRises(g, e);
    }
  }

  /** All ids are those of processors in the graph. */
  ghost predicate AreProcessors(g: Graph, ids: seq<string>) {
    forall id <- ids :: HasNode(g.nodes, id) && KindOf(id) == ProcessorKind
  }

  lemma AreProcessorsGrows(g: Graph, r: Graph, ids: seq<string>)
    requires AreProcessors(g, ids) && g.nodes <= r.nodes
    ensures AreProcessors(r, ids)
  {
    forall id | id in ids ensures HasNode(r.nodes, id) {
      FeedsGrowsOne(g, r, id);
    }
  }

  /** The edges into a processor that was just added at the end. */
  lemma ProcessorEdgesRise(g: Graph, node: Node, ids: seq<string>, sources: seq<string>, pipelineType: string)
    requires Shape(g) && node.id !in g.nodeMap && node.kind == ProcessorKind == KindOf(node.id)
    requires Shape(AddNode(g, node)) && Feeds(g, sources, ProcessorKind) && AreProcessors(g, ids)
    ensures var es := if ids == [] then Fan(sources, node.id, pipelineType)
                      else [Edge(ids[|ids| - 1], node.id, pipelineType, pipelineType)];
            forall e <- es :: Rises(AddNode(g, node).nodes, e)
  {
    var r := AddNode(g, node);
    assert r.nodes[|g.nodes|] == node;
    if ids == [] {
      FeedsGrows(g, r, sources, ProcessorKind);
      FanRises(r, sources, node.id, pipelineType);
    } else {
      var id := ids[|ids| - 1];
      assert id in ids;
      var i :| 0 <= i < |g.nodes| && g.nodes[i].id == id;
      assert r.nodes[i] == g.nodes[i];
      assert Above(r.nodes, i, |g.nodes|);
      assert Rises(r.nodes, Edge(id, node.id, pipelineType, pipelineType));
    }
  }

  lemma ProcessorShape(b: Built, c: Component, shown: set<string>, sources: seq<string>, cs: set<Component>)
    requires ShapeInv(b.graph, cs) && c in cs && c.kind == ProcessorKind
    requires NoKindClash(cs) ==> Feeds(b.graph, sources, ProcessorKind) && AreProcessors(b.graph, b.ids)
    ensures var r := WithProcessor(b, c, shown, sources);
            && ShapeInv(r.graph, cs) && b.graph.nodes <= r.graph.nodes
            && (NoKindClash(cs) ==> AreProcessors(r.graph, r.ids))
  {
    var g, key := b.graph, ComponentKey(c);
    if key in g.componentNodeMap {
      assert g.componentNodeMap[key] in g.nodeMap;
      assert g.componentNodeMap[key := g.componentNodeMap[key]] == g.componentNodeMap;
    } else {
      KindOfNodeId(c);
      var id := NodeId(c);
      if id in g.nodeMap {
        AddKey(g, c, id, cs);
      } else if c.name !in shown {
        var h := g.(nodeMap := g.nodeMap + {id});
        assert Shape(h);
        AddKey(h, c, id, cs);
      } else {
        NewProcessorShape(b, c, shown, sources, cs);
      }
    }
  }

  lemma NewProcessorShape(b: Built, c: Component, shown: set<string>, sources: seq<string>, cs: set<Component>)
    requires ShapeInv(b.graph, cs) && c in cs && c.kind == ProcessorKind == KindOf(NodeId(c))
    requires ComponentKey(c) !in b.graph.componentNodeMap && NodeId(c) !in b.graph.nodeMap && c.name in shown
    requires NoKindClash(cs) ==> Feeds(b.graph, sources, ProcessorKind) && AreProcessors(b.graph, b.ids)
    ensures var r := WithProcessor(b, c, shown, sources);
            && ShapeInv(r.graph, cs) && b.graph.nodes <= r.graph.nodes
            && (NoKindClash(cs) ==> AreProcessors(r.graph, r.ids))
  {
    var g, id, node := b.graph, NodeId(c), NodeOf(c, NodeId(c));
    AddNodeShape(g, node);
    var h := AddNode(g, node);
    AddKey(h, c, id, cs);
    var k := h.(componentNodeMap := h.componentNodeMap[ComponentKey(c) := id]);
    var es := if b.ids == [] then Fan(sources, id, c.pipelineType)
              else [Edge(b.ids[|b.ids| - 1], id, c.pipelineType, c.pipelineType)];
    if NoKindClash(cs) {
      ProcessorEdgesRise(g, node, b.ids, sources, c.pipelineType);
      AreProcessorsGrows(g, k, b.ids);
      RisingGrows(h, k);
    }
    AddEdges(k, es, cs);
    assert WithProcessor(b, c, shown, sources) == Built(k.(edges := k.edges + es), b.ids + [id]);
  }

  lemma {:induction false} ProcessorsShape(g: Graph, agentId: string, pl: Pipeline, names: seq<string>,
                                           sources: seq<string>, cs: set<Component>)
    requires ShapeInv(g, cs)
    requires forall n <- names :: Component(ProcessorKind, agentId, n, pl.pipelineType) in cs
    requires NoKindClash(cs) ==> Feeds(g, sources, ProcessorKind)
    ensures var b := WithProcessors(g, agentId, pl, names, sources);
            && ShapeInv(b.graph, cs) && g.nodes <= b.graph.nodes
            && (NoKindClash(cs) ==> AreProcessors(b.graph, b.ids))
  {
    if names != [] {
      var last := |names| - 1;
      ProcessorsShape(g, agentId, pl, names[..last], sources, cs);
      var b := WithProcessors(g, agentId, pl, names[..last], sources);
      if NoKindClash(cs) {
        FeedsGrows(g, b.graph, sources, ProcessorKind);
      }
      ProcessorShape(b, Component(ProcessorKind, agentId, names[last], pl.pipelineType), pl.shown, sources, cs);
    }
  }

  /** An agent or an endpoint. */
  lemma AddOtherNode(g: Graph, node: Node, cs: set<Component>)
    requires ShapeInv(g, cs) && WellNamed(node) && (node.kind == AgentKind || node.kind == EndpointKind)
    ensures ShapeInv(AddNodeOnce(g, node), cs) && HasNode(AddNodeOnce(g, node).nodes, node.id)
    ensures g.nodes <= AddNodeOnce(g, node).nodes
  {
    AddNodeOnceShape(g, node);
  }

  lemma EndpointShape(g: Graph, from: string, c: Component, endpoint: string, cs: set<Component>)
    requires ShapeInv(g, cs)
    requires NoKindClash(cs) ==> HasNode(g.nodes, from) && KindOf(from) == ExporterKind
    ensures ShapeInv(WithEndpoint(g, from, c, endpoint), cs) && g.nodes <= WithEndpoint(g, from, c, endpoint).nodes
  {
    KindOfOthers("", endpoint);
    var node := Node(EndpointNodeId(endpoint), EndpointKind, endpoint, "", "");
    AddOtherNode(g, node, cs);
    var r := AddNodeOnce(g, node);
    var e := Edge(from, node.id, c.pipelineType, c.pipelineType + " via " + c.name);
    if NoKindClash(cs) {
      FeedsGrowsOne(g, r, from);
      RankRises(r, e);
    }
    AddEdges(r, [e], cs);
  }

  lemma ExporterShape(g: Graph, c: Component, endpoints: map<string, string>, last: seq<string>, cs: set<Component>)
    requires ShapeInv(g, cs) && (c.name != "debug" ==> c in cs) && c.kind == ExporterKind
    requires NoKindClash(cs) ==> Feeds(g, last, ExporterKind)
    ensures ShapeInv(WithExporter(g, c, endpoints, last), cs) && g.nodes <= WithExporter(g, c, endpoints, last).nodes
  {
    if c.name != "debug" {
      EnsuredShape(g, c, cs);
      var r := Ensured(g, c);
      var id := r.componentNodeMap[ComponentKey(c)];
      if NoKindClash(cs) {
        FeedsGrows(g, r, last, ExporterKind);
        FanRises(r, last, id, c.pipelineType);
      }
      AddEdges(r, Fan(last, id, c.pipelineType), cs);
      if c.name in endpoints {
        EndpointShape(r.(edges := r.edges + Fan(last, id, c.pipelineType)), id, c, endpoints[c.name], cs);
      }
    }
  }

  lemma {:induction false} ExportersShape(g: Graph, agentId: string, pl: Pipeline, names: seq<string>,
                                          last: seq<string>, cs: set<Component>)
    requires ShapeInv(g, cs)
    requires forall n <- names :: n != "debug" ==> Component(ExporterKind, agentId, n, pl.pipelineType) in cs
    requires NoKindClash(cs) ==> Feeds(g, last, ExporterKind)
    ensures ShapeInv(WithExporters(g, agentId, pl, names, last), cs)
    ensures g.nodes <= WithExporters(g, agentId, pl, names, last).nodes
  {
    if names != [] {
      var end := |names| - 1;
      ExportersShape(g, agentId, pl, names[..end], last, cs);
      var r := WithExporters(g, agentId, pl, names[..end], last);
      if NoKindClash(cs) {
        FeedsGrows(g, r, last, ExporterKind);
      }
      ExporterShape(r, Component(ExporterKind, agentId, names[end], pl.pipelineType), pl.endpoints, last, cs);
    }
  }

  /** The components of a pipeline that are looked at. */
  ghost function PipelineComponents(agentId: string, pl: Pipeline): set<Component> {
    if Skipped(pl) then {}
    else
      (set n | n in pl.receivers :: Component(ReceiverKind, agentId, n, pl.pipelineType))
      + (set n | n in pl.processors :: Component(ProcessorKind, agentId, n, pl.pipelineType))
      + (set n | n in pl.exporters && n != "debug" :: Component(ExporterKind, agentId, n, pl.pipelineType))
  }

  ghost function Components(agents: seq<Agent>): set<Component> {
    set a, pl, c | a in agents && pl in a.pipelines && c in PipelineComponents(a.id, pl) :: c
  }

  lemma SourcesFeed(g: Graph, agentId: string, receiverIds: seq<string>)
    requires AgentReady(g, agentId) && Feeds(g, receiverIds, ProcessorKind)
    ensures Feeds(g, Sources(agentId, receiverIds), ProcessorKind)
  {
    KindOfOthers(agentId, "");
  }

  lemma LastFeeds(g: Graph, r: Graph, receiverIds: seq<string>, processorIds: seq<string>)
    requires g.nodes <= r.nodes && Feeds(g, receiverIds, ProcessorKind) && AreProcessors(r, processorIds)
    ensures Feeds(r, LastComponents(receiverIds, processorIds), ExporterKind)
  {
    FeedsGrows(g, r, receiverIds, ProcessorKind);
    if processorIds != [] {
      assert processorIds[|processorIds| - 1] in processorIds;
    }
  }

  lemma PipelineShape(g: Graph, agentId: string, pl: Pipeline, cs: set<Component>)
    requires ShapeInv(g, cs) && AgentReady(g, agentId) && !Skipped(pl)
    requires forall n <- pl.receivers :: Component(ReceiverKind, agentId, n, pl.pipelineType) in cs
    requires forall n <- pl.processors :: Component(ProcessorKind, agentId, n, pl.pipelineType) in cs
    requires forall n <- pl.exporters :: n != "debug" ==> Component(ExporterKind, agentId, n, pl.pipelineType) in cs
    ensures ShapeInv(WithPipeline(g, agentId, pl), cs) && g.nodes <= WithPipeline(g, agentId, pl).nodes
  {
    var rs := WithReceivers(g, agentId, pl.pipelineType, pl.receivers);
    var sources := Sources(agentId, rs.ids);
    var ps := WithProcessors(rs.graph, agentId, pl, pl.processors, sources);
    ReceiversShape(g, agentId, pl.pipelineType, pl.receivers, cs);
    FeedsGrowsOne(g, rs.graph, AgentNodeId(agentId));
    if NoKindClash(cs) {
      SourcesFeed(rs.graph, agentId, rs.ids);
    }
    ProcessorsShape(rs.graph, agentId, pl, pl.processors, sources, cs);
    if NoKindClash(cs) {
      LastFeeds(rs.graph, ps.graph, rs.ids, ps.ids);
    }
    ExportersShape(ps.graph, agentId, pl, pl.exporters, LastComponents(rs.ids, ps.ids), cs);
  }

  lemma {:induction false} PipelinesShape(g: Graph, agentId: string, pls: seq<Pipeline>, cs: set<Component>)
    requires ShapeInv(g, cs) && AgentReady(g, agentId)
    requires forall pl <- pls :: PipelineComponents(agentId, pl) <= cs
    ensures ShapeInv(WithPipelines(g, agentId, pls), cs) && g.nodes <= WithPipelines(g, agentId, pls).nodes
  {
    if pls != [] {
      PipelinesShape(g, agentId, pls[..|pls| - 1], cs);
      var r := WithPipelines(g, agentId, pls[..|pls| - 1]);
      FeedsGrowsOne(g, r, AgentNodeId(agentId));
      var pl := pls[|pls| - 1];
      if !Skipped(pl) {
        assert PipelineComponents(agentId, pl) <= cs;
        PipelineShape(r, agentId, pl, cs);
      }
    }
  }

  lemma AgentShape(g: Graph, a: Agent, cs: set<Component>)
    requires ShapeInv(g, cs) && forall pl <- a.pipelines :: PipelineComponents(a.id, pl) <= cs
    ensures ShapeInv(WithAgent(g, a), cs)
  {
    KindOfOthers(a.id, "");
    var node := Node(AgentNodeId(a.id), AgentKind, a.name, a.id, "");
    AddOtherNode(g, node, cs);
    PipelinesShape(AddNodeOnce(g, node), a.id, a.pipelines, cs);
  }

  lemma {:induction false} TopologyInv(agents: seq<Agent>, cs: set<Component>)
    requires Components(agents) <= cs && forall c <- cs :: InPipeline(c)
    ensures ShapeInv(TopologyOf(agents), cs)
  {
    if agents != [] {
      var before, a := agents[..|agents| - 1], agents[|agents| - 1];
      forall c | c in Components(before) ensures c in cs {
        assert c in Components(agents);
      }
      TopologyInv(before, cs);
      assert a in agents;
      forall pl | pl in a.pipelines ensures PipelineComponents(a.id, pl) <= cs {
        forall c | c in PipelineComponents(a.id, pl) ensures c in cs {
          assert c in Components(agents);
        }
      }
      AgentShape(TopologyOf(before), a, cs);
    }
  }

  /** Main result: whatever the names are, no two nodes of the graph have the same id. */
  lemma NodeIdsAreUnique(agents: seq<Agent>)
    ensures UniqueIds(TopologyOf(agents).nodes)
  {
    ComponentsArePipelined(agents);
    TopologyInv(agents, Components(agents));
  }

  lemma ComponentsArePipelined(agents: seq<Agent>)
    ensures forall c <- Components(agents) :: InPipeline(c)
  {
  }
}
