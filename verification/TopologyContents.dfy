/** What the topology graph consists of: if the components of all agents do not collide, its nodes are
    exactly the specified ones, and it has as many edges as the pipelines ask for. */
module TopologyContents {
  import opened Topology
  import opened TopologyShape
  import opened TopologyCycles
  import opened TopologyEdges

  // ---- The specification ---------------------------------------------------------------------------

  ghost predicate NoTraffic(pl: Pipeline) {
    pl.pipelineType == "traces" && !pl.hasTraceData
  }

  /** Receivers, the processors that are shown, exporters but debug, and the endpoints of those. */
  ghost function PipelineNodeIds(a: string, pl: Pipeline): set<string> {
    var p := pl.pipelineType;
    if NoTraffic(pl) then {}
    else
      (set n | n in pl.receivers :: ReceiverId(a, p, n))
      + (set n | n in pl.processors && n in pl.shown :: ProcessorId(a, p, n))
      + (set n | n in pl.exporters && n != "debug" :: ExporterId(a, p, n))
      + (set n | n in pl.exporters && n != "debug" && n in pl.endpoints :: EndpointNodeId(pl.endpoints[n]))
  }

  ghost function AgentNodeIds(a: string, pls: seq<Pipeline>): set<string> {
    set pl, id | pl in pls && id in PipelineNodeIds(a, pl) :: id
  }

  ghost function SpecifiedNodeIds(agents: seq<Agent>): set<string> {
    (set a | a in agents :: AgentNodeId(a.id)) +
    (set a, id | a in agents && id in AgentNodeIds(a.id, a.pipelines) :: id)
  }

  /** How many components feed each exporter. */
  function Feeders(pl: Pipeline): nat {
    if ShownNames(pl.processors, pl.shown) == [] then |pl.receivers| else 1
  }

  function ExporterEdgeCount(pl: Pipeline, names: seq<string>): nat {
    if names == [] then 0
    else
      var n := names[|names| - 1];
      ExporterEdgeCount(pl, names[..|names| - 1]) +
        if n == "debug" then 0 else Feeders(pl) + if n in pl.endpoints then 1 else 0
  }

  function ProcessorEdgeCount(sources: nat, shown: nat): nat {
    if shown == 0 then 0 else sources + shown - 1
  }

  ghost function EdgeCount(pl: Pipeline): nat {
    if NoTraffic(pl) then 0
    else
      |pl.receivers|
      + ProcessorEdgeCount(if pl.receivers == [] then 1 else |pl.receivers|, |ShownNames(pl.processors, pl.shown)|)
      + ExporterEdgeCount(pl, pl.exporters)
  }

  ghost function EdgeCountOf(pls: seq<Pipeline>): nat {
    if pls == [] then 0 else EdgeCountOf(pls[..|pls| - 1]) + EdgeCount(pls[|pls| - 1])
  }

  ghost function TotalEdgeCount(agents: seq<Agent>): nat {
    if agents == [] then 0
    else TotalEdgeCount(agents[..|agents| - 1]) + EdgeCountOf(agents[|agents| - 1].pipelines)
  }

  // ---- The nodes that are added --------------------------------------------------------------------

  ghost function NodeIds(g: Graph): set<string> {
    set n | n in g.nodes :: n.id
  }

  /** Only a processor can be marked without having a node. */
  ghost predicate Marked(g: Graph) {
    forall id <- g.nodeMap :: KindOf(id) == ProcessorKind || id in NodeIds(g)
  }

  ghost predicate NodesAdded(g: Graph, r: Graph, ids: set<string>) {
    Marked(r) && NodeIds(r) == NodeIds(g) + ids
  }

  lemma AddedTwice(g: Graph, h: Graph, r: Graph, x: set<string>, y: set<string>)
    requires NodesAdded(g, h, x) && NodesAdded(h, r, y)
    ensures NodesAdded(g, r, x + y)
  {
  }

  lemma AddNodeAdds(g: Graph, node: Node)
    ensures NodeIds(AddNode(g, node)) == NodeIds(g) + {node.id}
  {
    var r := AddNode(g, node);
    assert node in r.nodes && forall n :: n in r.nodes <==> n in g.nodes || n == node;
  }

  lemma OnceAdds(g: Graph, node: Node)
    requires Marked(g) && KindOf(node.id) != ProcessorKind
    ensures NodesAdded(g, AddNodeOnce(g, node), {node.id})
  {
    AddNodeAdds(g, node);
  }

  lemma EnsuredAdds(g: Graph, c: Component, cs: set<Component>, done: set<Component>)
    requires CollisionFree(cs) && Knows(g, cs, done) && Marked(g) && c in cs && c.kind != ProcessorKind
    ensures NodesAdded(g, Ensured(g, c), {NodeId(c)})
  {
    KindOfNodeId(c);
    AddNodeAdds(g, NodeOf(c, NodeId(c)));
    if c in done {
      assert NodeId(c) in NodeIds(g);
    }
  }

  // ---- What is known after each stage; the edges do not matter here ----------------------------------

  lemma ReceiversKnown(g: Graph, a: string, p: string, names: seq<string>, cs: set<Component>, done: set<Component>)
    requires CollisionFree(cs) && Knows(g, cs, done) && Named(ReceiverKind, a, p, names) <= cs
    ensures var b := WithReceivers(g, a, p, names);
            Knows(b.graph, cs, done + Named(ReceiverKind, a, p, names)) && b.ids == Ids(ReceiverKind, a, p, names)
  {
    ReceiversMeetSpec(g, a, p, names, cs, done);
  }

  lemma ProcessorsKnown(g: Graph, a: string, pl: Pipeline, names: seq<string>, sources: seq<string>,
                        cs: set<Component>, done: set<Component>)
    requires CollisionFree(cs) && Knows(g, cs, done) && Named(ProcessorKind, a, pl.pipelineType, names) <= cs
    requires Named(ProcessorKind, a, pl.pipelineType, names) !! done
    ensures var b := WithProcessors(g, a, pl, names, sources);
            && Knows(b.graph, cs, done + Named(ProcessorKind, a, pl.pipelineType, names))
            && b.ids == Ids(ProcessorKind, a, pl.pipelineType, ShownNames(names, pl.shown))
  {
    ProcessorsMeetSpec(g, a, pl, names, sources, cs, done);
  }

  lemma ExportersKnown(g: Graph, a: string, pl: Pipeline, names: seq<string>, last: seq<string>,
                       cs: set<Component>, done: set<Component>)
    requires CollisionFree(cs) && Knows(g, cs, done)
    requires forall n <- names :: n != "debug" ==> Component(ExporterKind, a, n, pl.pipelineType) in cs
    ensures Knows(WithExporters(g, a, pl, names, last), cs, done + Exporting(a, pl.pipelineType, names))
  {
    ExportersMeetSpec(g, a, pl, names, last, cs, done);
  }

  lemma PipelinesKnown(g: Graph, a: string, pls: seq<Pipeline>, cs: set<Component>, done: set<Component>)
    requires CollisionFree(cs) && Knows(g, cs, done) && DistinctTypes(pls)
    requires AllOf(a, pls) <= cs && forall c <- done :: c.agentId != a
    ensures Knows(WithPipelines(g, a, pls), cs, done + AllOf(a, pls))
  {
    PipelinesMeetSpec(g, a, pls, cs, done);
  }

  lemma AgentsKnown(agents: seq<Agent>, cs: set<Component>)
    requires Input(agents) && CollisionFree(cs) && Components(agents) <= cs && forall c <- cs :: InPipeline(c)
    ensures Knows(TopologyOf(agents), cs, Components(agents))
  {
    AgentsMeetSpec(agents, cs);
  }

  ghost function IdSet(cs: set<Component>): set<string> {
    set c | c in cs :: NodeId(c)
  }

  lemma IdSetSnoc(before: set<Component>, c: Component)
    ensures IdSet(before + {c}) == IdSet(before) + {NodeId(c)}
  {
    assert c in before + {c};
  }

  lemma {:induction false} ReceiversAdd(g: Graph, a: string, p: string, names: seq<string>,
                                        cs: set<Component>, done: set<Component>)
    requires CollisionFree(cs) && Knows(g, cs, done) && Marked(g) && Named(ReceiverKind, a, p, names) <= cs
    ensures var b := WithReceivers(g, a, p, names);
            && NodesAdded(g, b.graph, IdSet(Named(ReceiverKind, a, p, names)))
            && |b.graph.edges| == |g.edges| + |names|
  {
    if names != [] {
      var before, n := names[..|names| - 1], names[|names| - 1];
      var c := Component(ReceiverKind, a, n, p);
      NamedSnoc(ReceiverKind, a, p, names);
      ReceiversAdd(g, a, p, before, cs, done);
      ReceiversKnown(g, a, p, before, cs, done);
      EnsuredAdds(WithReceivers(g, a, p, before).graph, c, cs, done + Named(ReceiverKind, a, p, before));
      IdSetSnoc(Named(ReceiverKind, a, p, before), c);
    }
  }

  ghost function ShownNamed(a: string, p: string, names: seq<string>, shown: set<string>): set<Component> {
    set n | n in names && n in shown :: Component(ProcessorKind, a, n, p)
  }

  lemma {:induction false} FanLength(froms: seq<string>, to: string, p: string)
    ensures |Fan(froms, to, p)| == |froms|
  {
    if froms != [] {
      FanLength(froms[..|froms| - 1], to, p);
    }
  }

  lemma ProcessorAdds(b: Built, c: Component, shown: set<string>, sources: seq<string>,
                      cs: set<Component>, known: set<Component>)
    requires CollisionFree(cs) && Knows(b.graph, cs, known) && Marked(b.graph) && c in cs && c.kind == ProcessorKind
    requires c in known && c.name in shown ==> NodeId(c) in NodeIds(b.graph)
    ensures var r := WithProcessor(b, c, shown, sources);
            && NodesAdded(b.graph, r.graph, if c.name in shown then {NodeId(c)} else {})
            && |r.graph.edges| + ProcessorEdgeCount(|sources|, |b.ids|)
               == |b.graph.edges| + ProcessorEdgeCount(|sources|, |r.ids|)
  {
    KindOfNodeId(c);
    KnownProcessor(b, c, shown, sources, cs, known);
    NewProcessor(b, c, shown, sources, cs, known);
    FanLength(sources, NodeId(c), c.pipelineType);
    AddNodeAdds(b.graph, NodeOf(c, NodeId(c)));
  }

  lemma {:induction false} ProcessorsAdd(g: Graph, a: string, pl: Pipeline, names: seq<string>, sources: seq<string>,
                                         cs: set<Component>, done: set<Component>)
    requires CollisionFree(cs) && Knows(g, cs, done) && Marked(g)
    requires Named(ProcessorKind, a, pl.pipelineType, names) <= cs
    requires Named(ProcessorKind, a, pl.pipelineType, names) !! done
    ensures var b := WithProcessors(g, a, pl, names, sources);
            && NodesAdded(g, b.graph, IdSet(ShownNamed(a, pl.pipelineType, names, pl.shown)))
            && |b.graph.edges| == |g.edges| + ProcessorEdgeCount(|sources|, |b.ids|)
  {
    if names != [] {
      var p, before, n := pl.pipelineType, names[..|names| - 1], names[|names| - 1];
      var c := Component(ProcessorKind, a, n, p);
      NamedSnoc(ProcessorKind, a, p, names);
      ProcessorsAdd(g, a, pl, before, sources, cs, done);
      ProcessorsKnown(g, a, pl, before, sources, cs, done);
      var b := WithProcessors(g, a, pl, before, sources);
      ShownSnoc(a, p, names, pl.shown);
      if n in before && n in pl.shown {
        assert c in ShownNamed(a, p, before, pl.shown);
      }
      ProcessorAdds(b, c, pl.shown, sources, cs, done + Named(ProcessorKind, a, p, before));
    }
  }

  lemma ShownSnoc(a: string, p: string, names: seq<string>, shown: set<string>)
    requires names != []
    ensures var before, n := names[..|names| - 1], names[|names| - 1];
            IdSet(ShownNamed(a, p, names, shown)) == IdSet(ShownNamed(a, p, before, shown)) +
              if n in shown then {ProcessorId(a, p, n)} else {}
  {
    var before, n := names[..|names| - 1], names[|names| - 1];
    var c := Component(ProcessorKind, a, n, p);
    assert names == before + [n];
    assert ShownNamed(a, p, names, shown) == ShownNamed(a, p, before, shown) + if n in shown then {c} else {};
    IdSetSnoc(ShownNamed(a, p, before, shown), c);
  }

  ghost function ExporterIds(a: string, pl: Pipeline, names: seq<string>): set<string> {
    set n | n in names && n != "debug" :: ExporterId(a, pl.pipelineType, n)
  }

  ghost function EndpointIds(pl: Pipeline, names: seq<string>): set<string> {
    set n | n in names && n != "debug" && n in pl.endpoints :: EndpointNodeId(pl.endpoints[n])
  }

  ghost function ExporterNodeIds(a: string, pl: Pipeline, names: seq<string>): set<string> {
    ExporterIds(a, pl, names) + EndpointIds(pl, names)
  }

  ghost function OwnEndpoint(pl: Pipeline, n: string): set<string> {
    if n in pl.endpoints then {EndpointNodeId(pl.endpoints[n])} else {}
  }

  lemma ExporterIdsSnoc(a: string, pl: Pipeline, before: seq<string>, n: string)
    ensures ExporterIds(a, pl, before + [n]) ==
              ExporterIds(a, pl, before) + if n == "debug" then {} else {ExporterId(a, pl.pipelineType, n)}
  {
    var names := before + [n];
    assert forall m :: m in names <==> m in before || m == n;
  }

  lemma EndpointIdsSnoc(pl: Pipeline, before: seq<string>, n: string)
    ensures EndpointIds(pl, before + [n]) == EndpointIds(pl, before) + if n == "debug" then {} else OwnEndpoint(pl, n)
  {
    var names := before + [n];
    assert forall m :: m in names <==> m in before || m == n;
  }

  lemma ExporterAddsNodes(g: Graph, c: Component, pl: Pipeline, last: seq<string>,
                          cs: set<Component>, done: set<Component>)
    requires CollisionFree(cs) && Knows(g, cs, done) && Marked(g)
    requires c in cs && c.kind == ExporterKind && c.name != "debug"
    ensures var r := WithExporter(g, c, pl.endpoints, last);
            && NodesAdded(g, r, {NodeId(c)} + OwnEndpoint(pl, c.name))
            && |r.edges| == |g.edges| + |last| + if c.name in pl.endpoints then 1 else 0
  {
    EnsuredAdds(g, c, cs, done);
    FanLength(last, Ensured(g, c).componentNodeMap[ComponentKey(c)], c.pipelineType);
    if c.name in pl.endpoints {
      var endpoint := pl.endpoints[c.name];
      KindOfOthers("", endpoint);
      OnceAdds(Ensured(g, c), Node(EndpointNodeId(endpoint), EndpointKind, endpoint, "", ""));
    }
  }

  lemma ExporterStep(g: Graph, h: Graph, a: string, pl: Pipeline, before: seq<string>, n: string, last: seq<string>,
                     cs: set<Component>, done: set<Component>)
    requires CollisionFree(cs) && Knows(h, cs, done) && NodesAdded(g, h, ExporterNodeIds(a, pl, before))
    requires n != "debug" ==> Component(ExporterKind, a, n, pl.pipelineType) in cs
    ensures var r := WithExporter(h, Component(ExporterKind, a, n, pl.pipelineType), pl.endpoints, last);
            && NodesAdded(g, r, ExporterNodeIds(a, pl, before + [n]))
            && |r.edges| == |h.edges| + if n == "debug" then 0 else |last| + if n in pl.endpoints then 1 else 0
  {
    var c, ids := Component(ExporterKind, a, n, pl.pipelineType), ExporterNodeIds(a, pl, before);
    ExporterIdsSnoc(a, pl, before, n);
    EndpointIdsSnoc(pl, before, n);
    if n != "debug" {
      ExporterAddsNodes(h, c, pl, last, cs, done);
      AddedTwice(g, h, WithExporter(h, c, pl.endpoints, last), ids, {NodeId(c)} + OwnEndpoint(pl, n));
      UnionMoves(ExporterIds(a, pl, before), EndpointIds(pl, before), {NodeId(c)}, OwnEndpoint(pl, n));
    }
  }

  lemma UnionMoves(s: set<string>, t: set<string>, x: set<string>, y: set<string>)
    ensures s + t + (x + y) == (s + x) + (t + y)
  {
  }

  lemma {:induction false} ExportersAdd(g: Graph, a: string, pl: Pipeline, names: seq<string>, last: seq<string>,
                                        cs: set<Component>, done: set<Component>)
    requires CollisionFree(cs) && Knows(g, cs, done) && Marked(g) && |last| == Feeders(pl)
    requires forall n <- names :: n != "debug" ==> Component(ExporterKind, a, n, pl.pipelineType) in cs
    ensures var r := WithExporters(g, a, pl, names, last);
            && NodesAdded(g, r, ExporterNodeIds(a, pl, names))
            && |r.edges| == |g.edges| + ExporterEdgeCount(pl, names)
  {
    if names != [] {
      var before, n := names[..|names| - 1], names[|names| - 1];
      assert names == before + [n] && n in names && forall m <- before :: m in names;
      ExportersAdd(g, a, pl, before, last, cs, done);
      ExportersKnown(g, a, pl, before, last, cs, done);
      ExporterStep(g, WithExporters(g, a, pl, before, last), a, pl, before, n, last,
                   cs, done + Exporting(a, pl.pipelineType, before));
      ExportersUnfold(g, a, pl, before, n, last);
    }
  }

  lemma ExportersUnfold(g: Graph, a: string, pl: Pipeline, before: seq<string>, n: string, last: seq<string>)
    ensures WithExporters(g, a, pl, before + [n], last) ==
              WithExporter(WithExporters(g, a, pl, before, last), Component(ExporterKind, a, n, pl.pipelineType),
                           pl.endpoints, last)
    ensures ExporterEdgeCount(pl, before + [n]) == ExporterEdgeCount(pl, before) +
              if n == "debug" then 0 else Feeders(pl) + if n in pl.endpoints then 1 else 0
  {
    assert (before + [n])[..|before|] == before;
  }

  // ---- Pipelines and agents ------------------------------------------------------------------------

  lemma PipelineIds(a: string, pl: Pipeline)
    requires !NoTraffic(pl)
    ensures PipelineNodeIds(a, pl) ==
              IdSet(Named(ReceiverKind, a, pl.pipelineType, pl.receivers))
              + IdSet(ShownNamed(a, pl.pipelineType, pl.processors, pl.shown))
              + ExporterNodeIds(a, pl, pl.exporters)
  {
    var p := pl.pipelineType;
    assert IdSet(Named(ReceiverKind, a, p, pl.receivers)) == set n | n in pl.receivers :: ReceiverId(a, p, n) by {
      assert forall n <- pl.receivers :: Component(ReceiverKind, a, n, p) in Named(ReceiverKind, a, p, pl.receivers);
    }
    var shown := ShownNamed(a, p, pl.processors, pl.shown);
    assert IdSet(shown) == set n | n in pl.processors && n in pl.shown :: ProcessorId(a, p, n) by {
      assert forall n <- pl.processors :: n in pl.shown ==> Component(ProcessorKind, a, n, p) in shown;
    }
  }

  /** What the receivers and the processors of a pipeline add. */
  lemma SourcesAdd(g: Graph, a: string, pl: Pipeline, rs: Built, ps: Built, cs: set<Component>, done: set<Component>)
    requires CollisionFree(cs) && Knows(g, cs, done) && Marked(g)
    requires !NoTraffic(pl) && PipelineComponents(a, pl) <= cs && PipelineComponents(a, pl) !! done
    requires rs == WithReceivers(g, a, pl.pipelineType, pl.receivers)
    requires ps == WithProcessors(rs.graph, a, pl, pl.processors, Sources(a, rs.ids))
    ensures Knows(ps.graph, cs, done + Named(ReceiverKind, a, pl.pipelineType, pl.receivers)
                                  + Named(ProcessorKind, a, pl.pipelineType, pl.processors))
    ensures NodesAdded(g, ps.graph, IdSet(Named(ReceiverKind, a, pl.pipelineType, pl.receivers))
                                    + IdSet(ShownNamed(a, pl.pipelineType, pl.processors, pl.shown)))
    ensures |rs.ids| == |pl.receivers| && |ps.ids| == |ShownNames(pl.processors, pl.shown)|
    ensures |ps.graph.edges| == |g.edges| + |pl.receivers| + ProcessorEdgeCount(|Sources(a, rs.ids)|, |ps.ids|)
  {
    var p := pl.pipelineType;
    var rc := Named(ReceiverKind, a, p, pl.receivers);
    assert rc <= PipelineComponents(a, pl) && Named(ProcessorKind, a, p, pl.processors) <= PipelineComponents(a, pl);
    ReceiversAdd(g, a, p, pl.receivers, cs, done);
    ReceiversKnown(g, a, p, pl.receivers, cs, done);
    LastId(ReceiverKind, a, p, pl.receivers);
    ProcessorsAdd(rs.graph, a, pl, pl.processors, Sources(a, rs.ids), cs, done + rc);
    ProcessorsKnown(rs.graph, a, pl, pl.processors, Sources(a, rs.ids), cs, done + rc);
    LastId(ProcessorKind, a, p, ShownNames(pl.processors, pl.shown));
    AddedTwice(g, rs.graph, ps.graph, IdSet(rc), IdSet(ShownNamed(a, p, pl.processors, pl.shown)));
  }

  lemma PipelineAdds(g: Graph, a: string, pl: Pipeline, cs: set<Component>, done: set<Component>)
    requires CollisionFree(cs) && Knows(g, cs, done) && Marked(g)
    requires PipelineComponents(a, pl) <= cs && PipelineComponents(a, pl) !! done
    ensures NodesAdded(g, WithPipeline(g, a, pl), PipelineNodeIds(a, pl))
    ensures |WithPipeline(g, a, pl).edges| == |g.edges| + EdgeCount(pl)
  {
    if !NoTraffic(pl) {
      var p := pl.pipelineType;
      var rs := WithReceivers(g, a, p, pl.receivers);
      var ps := WithProcessors(rs.graph, a, pl, pl.processors, Sources(a, rs.ids));
      var known := done + Named(ReceiverKind, a, p, pl.receivers) + Named(ProcessorKind, a, p, pl.processors);
      SourcesAdd(g, a, pl, rs, ps, cs, done);
      TargetsAdd(ps.graph, a, pl, LastComponents(rs.ids, ps.ids), cs, known);
      PipelineIds(a, pl);
    }
  }

  lemma TargetsAdd(g: Graph, a: string, pl: Pipeline, last: seq<string>, cs: set<Component>, done: set<Component>)
    requires CollisionFree(cs) && Knows(g, cs, done) && Marked(g) && |last| == Feeders(pl)
    requires !NoTraffic(pl) && PipelineComponents(a, pl) <= cs
    ensures var r := WithExporters(g, a, pl, pl.exporters, last);
            && NodesAdded(g, r, ExporterNodeIds(a, pl, pl.exporters))
            && |r.edges| == |g.edges| + ExporterEdgeCount(pl, pl.exporters)
  {
    assert forall n <- pl.exporters :: n != "debug" ==>
      Component(ExporterKind, a, n, pl.pipelineType) in PipelineComponents(a, pl);
    ExportersAdd(g, a, pl, pl.exporters, last, cs, done);
  }

  lemma {:induction false} PipelinesAdd(g: Graph, a: string, pls: seq<Pipeline>,
                                        cs: set<Component>, done: set<Component>)
    requires CollisionFree(cs) && Knows(g, cs, done) && Marked(g) && DistinctTypes(pls)
    requires AllOf(a, pls) <= cs && forall c <- done :: c.agentId != a
    ensures NodesAdded(g, WithPipelines(g, a, pls), AgentNodeIds(a, pls))
    ensures |WithPipelines(g, a, pls).edges| == |g.edges| + EdgeCountOf(pls)
  {
    if pls != [] {
      var before, pl := pls[..|pls| - 1], pls[|pls| - 1];
      assert pls == before + [pl];
      OneMorePipeline(a, before, pl, cs, done);
      PipelinesAdd(g, a, before, cs, done);
      PipelinesKnown(g, a, before, cs, done);
      var h := WithPipelines(g, a, before);
      PipelineAdds(h, a, pl, cs, done + AllOf(a, before));
      AgentIdsSnoc(a, before, pl);
      AddedTwice(g, h, WithPipelines(g, a, pls), AgentNodeIds(a, before), PipelineNodeIds(a, pl));
    }
  }

  lemma OneMorePipeline(a: string, before: seq<Pipeline>, pl: Pipeline, cs: set<Component>, done: set<Component>)
    requires DistinctTypes(before + [pl]) && AllOf(a, before + [pl]) <= cs && forall c <- done :: c.agentId != a
    ensures DistinctTypes(before) && AllOf(a, before) <= cs && PipelineComponents(a, pl) <= cs
    ensures PipelineComponents(a, pl) !! done + AllOf(a, before)
  {
    assert forall i :: 0 <= i < |before| ==> (before + [pl])[i] == before[i];
    AllOfSnoc(a, before, pl);
    FreshPipeline(a, before, pl, done);
  }

  lemma AgentIdsSnoc(a: string, before: seq<Pipeline>, pl: Pipeline)
    ensures AgentNodeIds(a, before + [pl]) == AgentNodeIds(a, before) + PipelineNodeIds(a, pl)
  {
    assert forall q :: q in before + [pl] <==> q in before || q == pl;
  }

  lemma SpecifiedSnoc(before: seq<Agent>, a: Agent)
    ensures SpecifiedNodeIds(before + [a]) ==
              SpecifiedNodeIds(before) + {AgentNodeId(a.id)} + AgentNodeIds(a.id, a.pipelines)
  {
    var agents := before + [a];
    assert a in agents && forall b <- before :: b in agents;
    assert forall b <- agents :: b in before || b == a;
  }

  lemma AgentAdds(g: Graph, a: Agent, cs: set<Component>, done: set<Component>)
    requires CollisionFree(cs) && Knows(g, cs, done) && Marked(g) && DistinctTypes(a.pipelines)
    requires AllOf(a.id, a.pipelines) <= cs && forall c <- done :: c.agentId != a.id
    ensures NodesAdded(g, WithAgent(g, a), {AgentNodeId(a.id)} + AgentNodeIds(a.id, a.pipelines))
    ensures |WithAgent(g, a).edges| == |g.edges| + EdgeCountOf(a.pipelines)
  {
    var node := Node(AgentNodeId(a.id), AgentKind, a.name, a.id, "");
    KindOfOthers(a.id, "");
    OnceAdds(g, node);
    MarkOther(g, node, cs, done);
    PipelinesAdd(AddNodeOnce(g, node), a.id, a.pipelines, cs, done);
    AddedTwice(g, AddNodeOnce(g, node), WithAgent(g, a), {node.id}, AgentNodeIds(a.id, a.pipelines));
  }

  lemma {:induction false} AgentsAdd(agents: seq<Agent>, cs: set<Component>)
    requires Input(agents) && CollisionFree(cs) && Components(agents) <= cs && forall c <- cs :: InPipeline(c)
    ensures NodesAdded(EMPTY_GRAPH, TopologyOf(agents), SpecifiedNodeIds(agents))
    ensures |TopologyOf(agents).edges| == TotalEdgeCount(agents)
  {
    if agents != [] {
      var before, a := agents[..|agents| - 1], agents[|agents| - 1];
      assert agents == before + [a];
      OneMoreAgent(before, a, cs);
      AgentsAdd(before, cs);
      AgentsKnown(before, cs);
      AgentAdds(TopologyOf(before), a, cs, Components(before));
      SpecifiedSnoc(before, a);
    }
  }

  lemma OneMoreAgent(before: seq<Agent>, a: Agent, cs: set<Component>)
    requires Input(before + [a]) && Components(before + [a]) <= cs
    ensures Input(before) && Components(before) <= cs && AllOf(a.id, a.pipelines) <= cs && DistinctTypes(a.pipelines)
    ensures forall c <- Components(before) :: c.agentId != a.id
  {
    var agents := before + [a];
    assert agents[|before|] == a && a in agents;
    assert forall i :: 0 <= i < |before| ==> agents[i] == before[i];
    assert forall b <- before :: b in agents;
    ComponentsSnoc(before, a);
    forall c | c in Components(before) ensures c.agentId != a.id {
      ComponentHasAgent(before, c);
    }
  }

  /** Main result: without collisions, the nodes are exactly the agents, the receivers, the processors
      that are shown, the exporters but debug, and their endpoints; each once and under its own id. */
  lemma NodesAreSpecified(agents: seq<Agent>)
    requires Input(agents) && CollisionFree(Components(agents))
    ensures UniqueIds(TopologyOf(agents).nodes) && forall n <- TopologyOf(agents).nodes :: WellNamed(n)
    ensures forall id :: HasNode(TopologyOf(agents).nodes, id) <==> id in SpecifiedNodeIds(agents)
  {
    var g := TopologyOf(agents);
    ComponentsArePipelined(agents);
    TopologyInv(agents, Components(agents));
    AgentsAdd(agents, Components(agents));
    NodeIdsAreNodes(g);
    NothingAtFirst();
  }

  lemma NodeIdsAreNodes(g: Graph)
    ensures forall id :: HasNode(g.nodes, id) <==> id in NodeIds(g)
  {
    forall id ensures HasNode(g.nodes, id) <==> id in NodeIds(g) {
      if id in NodeIds(g) {
        var n :| n in g.nodes && n.id == id;
        var i :| 0 <= i < |g.nodes| && g.nodes[i] == n;
      }
    }
  }

  lemma NothingAtFirst()
    ensures NodeIds(EMPTY_GRAPH) == {}
  {
  }

  /** Main result: without collisions, no edge is drawn more often than the pipelines ask for. */
  lemma EdgesAreCounted(agents: seq<Agent>)
    requires Input(agents) && CollisionFree(Components(agents))
    ensures |TopologyOf(agents).edges| == TotalEdgeCount(agents)
  {
    ComponentsArePipelined(agents);
    AgentsAdd(agents, Components(agents));
  }

  /** What a caller of the service gets, for every input and every order. */
  method BuildTopology(agents: seq<Agent>) returns (nodes: seq<Node>, edges: seq<Edge>)
    requires Input(agents)
    ensures UniqueIds(nodes)
    ensures SafeIds(IdsOf(agents)) ==> forall e <- edges :: Rises(nodes, e)
    ensures CollisionFree(Components(agents)) ==>
      && (forall id :: HasNode(nodes, id) <==> id in SpecifiedNodeIds(agents))
      && (forall e :: e in edges <==> SpecifiedEdge(agents, e))
      && |edges| == TotalEdgeCount(agents)
  {
    var builder := new Builder();
    builder.BuildTopology(agents);
    nodes, edges := builder.nodes, builder.edges;
    ghost var g := TopologyOf(agents);
    assert builder.View() == g && nodes == g.nodes && edges == g.edges;
    NodeIdsAreUnique(agents);
    if SafeIds(IdsOf(agents)) {
      SafeIdsDoNotClash(agents);
      WellFormedWithoutClash(agents);
    }
    if CollisionFree(Components(agents)) {
      NodesAreSpecified(agents);
      EdgesAreSpecified(agents);
      EdgesAreCounted(agents);
    }
  }
}
