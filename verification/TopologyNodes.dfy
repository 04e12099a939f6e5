/** Which exporter nodes the topology graph has: if the components of all agents do not collide,
    each exporter of a pipeline that is not skipped has exactly one, and there are no others. */
module TopologyNodes {
  import opened Topology
  import opened TopologyShape
  import opened TopologyCycles
  import opened TopologyEdges

  predicate IsExporter(n: Node, agentId: string, pipelineType: string) {
    n.kind == ExporterKind && n.agentId == agentId && n.pipelineType == pipelineType
  }

  /** The names of the exporter nodes of a pipeline, in the order of the nodes. */
  function ExporterNames(nodes: seq<Node>, agentId: string, pipelineType: string): seq<string> {
    if nodes == [] then []
    else
      var before, n := ExporterNames(nodes[..|nodes| - 1], agentId, pipelineType), nodes[|nodes| - 1];
      if IsExporter(n, agentId, pipelineType) then before + [n.name] else before
  }

  /** The exporters of a list that get nodes, as often as they are listed. */
  function Listed(names: seq<string>): seq<string> {
    if names == [] then []
    else
      var before, n := Listed(names[..|names| - 1]), names[|names| - 1];
      if n == "debug" then before else before + [n]
  }

  predicate NoRepeats(s: seq<string>) {
    forall i, j :: 0 <= i < j < |s| ==> s[i] != s[j]
  }

  lemma {:induction false} ListedNames(names: seq<string>, n: string)
    ensures n in Listed(names) <==> n in names && n != "debug"
  {
    if names != [] {
      ListedNames(names[..|names| - 1], n);
      assert names == names[..|names| - 1] + [names[|names| - 1]];
    }
  }

  lemma {:induction false} NamesOfNodes(nodes: seq<Node>, a: string, p: string, name: string)
    ensures name in ExporterNames(nodes, a, p) <==> exists n <- nodes :: IsExporter(n, a, p) && n.name == name
  {
    if nodes != [] {
      var before, last := nodes[..|nodes| - 1], nodes[|nodes| - 1];
      NamesOfNodes(before, a, p, name);
      assert nodes == before + [last];
      assert last in nodes && forall n <- before :: n in nodes;
    }
  }

  /** Exporter nodes of one pipeline with one name would have one id. */
  lemma SameExporterSameId(n: Node, m: Node, a: string, p: string)
    requires WellNamed(n) && WellNamed(m) && IsExporter(n, a, p) && IsExporter(m, a, p) && n.name == m.name
    ensures n.id == m.id
  {
    assert ComponentOf(n) == ComponentOf(m);
  }

  lemma LastIsNew(nodes: seq<Node>, a: string, p: string)
    requires UniqueIds(nodes) && forall n <- nodes :: WellNamed(n)
    requires nodes != [] && IsExporter(nodes[|nodes| - 1], a, p)
    ensures nodes[|nodes| - 1].name !in ExporterNames(nodes[..|nodes| - 1], a, p)
  {
    var before, last := nodes[..|nodes| - 1], nodes[|nodes| - 1];
    NamesOfNodes(before, a, p, last.name);
    forall n | n in before ensures !(IsExporter(n, a, p) && n.name == last.name) {
      var i :| 0 <= i < |before| && before[i] == n;
      assert nodes[i] == n && n in nodes && last in nodes;
      if IsExporter(n, a, p) && n.name == last.name {
        SameExporterSameId(n, last, a, p);
        assert false;
      }
    }
  }

  lemma {:induction false} NodesDoNotRepeat(nodes: seq<Node>, a: string, p: string)
    requires UniqueIds(nodes) && forall n <- nodes :: WellNamed(n)
    ensures NoRepeats(ExporterNames(nodes, a, p))
  {
    if nodes != [] {
      NodesDoNotRepeat(nodes[..|nodes| - 1], a, p);
      if IsExporter(nodes[|nodes| - 1], a, p) {
        LastIsNew(nodes, a, p);
      }
    }
  }

  /** Only the pipeline itself has exporters with its agent and its type. */
  lemma OnlyOwnExporters(agents: seq<Agent>, a: Agent, pl: Pipeline, c: Component)
    requires Input(agents) && a in agents && pl in a.pipelines && c in Components(agents)
    requires c.kind == ExporterKind && c.agentId == a.id && c.pipelineType == pl.pipelineType
    ensures !Skipped(pl) && c.name in pl.exporters && c.name != "debug"
  {
    var b, q :| b in agents && q in b.pipelines && c in PipelineComponents(b.id, q);
    var i :| 0 <= i < |agents| && agents[i] == a;
    var j :| 0 <= j < |agents| && agents[j] == b;
    assert a == b;
    var k :| 0 <= k < |a.pipelines| && a.pipelines[k] == pl;
    var l :| 0 <= l < |a.pipelines| && a.pipelines[l] == q;
    assert pl == q;
  }

  lemma ExporterHasNode(agents: seq<Agent>, a: Agent, pl: Pipeline, name: string)
    requires Input(agents) && CollisionFree(Components(agents))
    requires a in agents && pl in a.pipelines && !Skipped(pl) && name in pl.exporters && name != "debug"
    ensures exists n <- TopologyOf(agents).nodes :: IsExporter(n, a.id, pl.pipelineType) && n.name == name
  {
    var g, cs, c := TopologyOf(agents), Components(agents), Component(ExporterKind, a.id, name, pl.pipelineType);
    assert c in PipelineComponents(a.id, pl);
    assert c in cs;
    ComponentsArePipelined(agents);
    AgentsMeetSpec(agents, cs);
    TopologyInv(agents, cs);
    KindOfNodeId(c);
    assert HasNode(g.nodes, NodeId(c));
    var i :| 0 <= i < |g.nodes| && g.nodes[i].id == NodeId(c);
    var n := g.nodes[i];
    assert n in g.nodes && WellNamed(n) && ComponentOf(n) in cs;
    assert ComponentOf(n) == c;
  }

  /** Main result: without collisions, the exporter nodes of a pipeline that is not skipped are one
      for each exporter that is listed, but debug. */
  lemma ExporterNodesAreListed(agents: seq<Agent>, a: Agent, pl: Pipeline)
    requires Input(agents) && CollisionFree(Components(agents))
    requires a in agents && pl in a.pipelines && !Skipped(pl)
    ensures var names := ExporterNames(TopologyOf(agents).nodes, a.id, pl.pipelineType);
            && NoRepeats(names)
            && forall n :: n in names <==> n in Listed(pl.exporters)
  {
    var g, cs, p := TopologyOf(agents), Components(agents), pl.pipelineType;
    ComponentsArePipelined(agents);
    TopologyInv(agents, cs);
    NodesDoNotRepeat(g.nodes, a.id, p);
    forall name ensures name in ExporterNames(g.nodes, a.id, p) <==> name in Listed(pl.exporters) {
      NamesOfNodes(g.nodes, a.id, p, name);
      ListedNames(pl.exporters, name);
      if name in Listed(pl.exporters) {
        ExporterHasNode(agents, a, pl, name);
      } else if exists n <- g.nodes :: IsExporter(n, a.id, p) && n.name == name {
        var n :| n in g.nodes && IsExporter(n, a.id, p) && n.name == name;
        OnlyOwnExporters(agents, a, pl, ComponentOf(n));
        assert false;
      }
    }
  }
}
