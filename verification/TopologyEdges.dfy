/** What the edges of the topology graph are: for components whose ids do not collide, exactly those
    of a specification that speaks of the pipelines alone, in whatever order the builder meets them. */
module TopologyEdges {
  import opened Topology
  import opened TopologyShape
  import opened TopologyCycles

  // ---- The specification ----------------------------------------------------------------------------

  function ReceiverId(a: string, p: string, n: string): string {
    NodeId(Component(ReceiverKind, a, n, p))
  }

  function ProcessorId(a: string, p: string, n: string): string {
    NodeId(Component(ProcessorKind, a, n, p))
  }

  function ExporterId(a: string, p: string, n: string): string {
    NodeId(Component(ExporterKind, a, n, p))
  }

  function Ids(k: Kind, a: string, p: string, names: seq<string>): seq<string> {
    if names == [] then []
    else Ids(k, a, p, names[..|names| - 1]) + [NodeId(Component(k, a, names[|names| - 1], p))]
  }

  lemma {:induction false} IdsMember(k: Kind, a: string, p: string, names: seq<string>, id: string)
    ensures id in Ids(k, a, p, names) <==> exists n <- names :: id == NodeId(Component(k, a, n, p))
    ensures Ids(k, a, p, names) == [] <==> names == []
  {
    if names != [] {
      var before, last := names[..|names| - 1], names[|names| - 1];
      IdsMember(k, a, p, before, id);
      assert names == before + [last];
      if id == NodeId(Component(k, a, last, p)) {
        assert last in names;
      } else if exists n <- before :: id == NodeId(Component(k, a, n, p)) {
        var n :| n in before && id == NodeId(Component(k, a, n, p));
        assert n in names;
      } else {
        assert id !in Ids(k, a, p, names);
        forall n | n in names ensures id != NodeId(Component(k, a, n, p)) {
          assert n in before || n == last;
        }
      }
    }
  }

  /** The processors that are shown, each where it occurs first. */
  function ShownNames(names: seq<string>, shown: set<string>): seq<string> {
    if names == [] then []
    else
      var before, n := ShownNames(names[..|names| - 1], shown), names[|names| - 1];
      if n in shown && n !in names[..|names| - 1] then before + [n] else before
  }

  /** These are all the processors that are shown, in the order in which each occurs first. */
  lemma {:induction false} ShownNamesAre(names: seq<string>, shown: set<string>) returns (at: seq<nat>)
    ensures var vs := ShownNames(names, shown);
            && |at| == |vs|
            && (forall i :: 0 <= i < |at| ==>
                  && at[i] < |names| && names[at[i]] == vs[i] && vs[i] !in names[..at[i]] && vs[i] in shown)
            && (forall i, j :: 0 <= i < j < |at| ==> at[i] < at[j])
            && (forall n :: n in vs <==> n in names && n in shown)
  {
    at := [];
    if names != [] {
      var last := |names| - 1;
      at := ShownNamesAre(names[..last], shown);
      assert names == names[..last] + [names[last]];
      forall i | 0 <= i < |at| ensures names[..last][..at[i]] == names[..at[i]] {}
      if names[last] in shown && names[last] !in names[..last] {
        at := at + [last];
      }
    }
  }

  ghost predicate ReceiverEdge(a: string, p: string, names: seq<string>, e: Edge) {
    exists n <- names :: e == Edge(AgentNodeId(a), ReceiverId(a, p, n), p, p + " pipeline")
  }

  /** The sources feed the first processor, and each processor the next one. */
  ghost predicate ProcessorEdge(a: string, p: string, processors: seq<string>, sources: seq<string>, e: Edge) {
    && e.pipelineType == p && e.caption == p
    && (|| (processors != [] && e.from in sources && e.to == ProcessorId(a, p, processors[0]))
        || (exists i, j :: 0 <= i && j == i + 1 < |processors|
              && e.from == ProcessorId(a, p, processors[i]) && e.to == ProcessorId(a, p, processors[j])))
  }

  ghost predicate ExporterEdge(a: string, p: string, n: string, last: seq<string>,
                               endpoints: map<string, string>, e: Edge) {
    && n != "debug"
    && (|| (e.from in last && e == Edge(e.from, ExporterId(a, p, n), p, p))
        || (n in endpoints && e == Edge(ExporterId(a, p, n), EndpointNodeId(endpoints[n]), p, p + " via " + n)))
  }

  ghost predicate FromReceiver(a: string, p: string, receivers: seq<string>, from: string) {
    exists r <- receivers :: from == ReceiverId(a, p, r)
  }

  /** The receivers, or the agent if there are none, feed the first processor that is shown. */
  ghost predicate FirstProcessorEdge(a: string, pl: Pipeline, shown: seq<string>, e: Edge) {
    var p := pl.pipelineType;
    && shown != [] && e == Edge(e.from, ProcessorId(a, p, shown[0]), p, p)
    && (if pl.receivers == [] then e.from == AgentNodeId(a) else FromReceiver(a, p, pl.receivers, e.from))
  }

  ghost predicate NextProcessorEdge(a: string, p: string, shown: seq<string>, e: Edge) {
    exists i, j :: 0 <= i && j == i + 1 < |shown| &&
      e == Edge(ProcessorId(a, p, shown[i]), ProcessorId(a, p, shown[j]), p, p)
  }

  /** The last processor that is shown, or the receivers if none is, feeds the exporters; debug is
      none of them. */
  ghost predicate LastProcessorEdge(a: string, pl: Pipeline, shown: seq<string>, e: Edge) {
    var p := pl.pipelineType;
    exists n <- pl.exporters ::
      && n != "debug" && e == Edge(e.from, ExporterId(a, p, n), p, p)
      && (if shown == [] then FromReceiver(a, p, pl.receivers, e.from)
          else e.from == ProcessorId(a, p, shown[|shown| - 1]))
  }

  ghost predicate EndpointEdge(a: string, pl: Pipeline, e: Edge) {
    var p := pl.pipelineType;
    exists n <- pl.exporters ::
      && n != "debug" && n in pl.endpoints
      && e == Edge(ExporterId(a, p, n), EndpointNodeId(pl.endpoints[n]), p, p + " via " + n)
  }

  /** The edges of a pipeline, said of the pipeline alone; a traces pipeline without data has none. */
  ghost predicate PipelineEdge(a: string, pl: Pipeline, e: Edge) {
    var shown := ShownNames(pl.processors, pl.shown);
    && (pl.pipelineType == "traces" ==> pl.hasTraceData)
    && (|| ReceiverEdge(a, pl.pipelineType, pl.receivers, e)
        || FirstProcessorEdge(a, pl, shown, e)
        || NextProcessorEdge(a, pl.pipelineType, shown, e)
        || LastProcessorEdge(a, pl, shown, e)
        || EndpointEdge(a, pl, e))
  }

  ghost function Entries(agents: seq<Agent>): set<(string, Pipeline)> {
    set a, pl | a in agents && pl in a.pipelines :: (a.id, pl)
  }

  ghost predicate SpecifiedEdge(agents: seq<Agent>, e: Edge) {
    exists x <- Entries(agents) :: PipelineEdge(x.0, x.1, e)
  }

  /** Different components have different keys and different node ids. */
  ghost predicate CollisionFree(cs: set<Component>) {
    && (forall c, d :: c in cs && d in cs && ComponentKey(c) == ComponentKey(d) ==> c == d)
    && (forall c, d :: c in cs && d in cs && NodeId(c) == NodeId(d) ==> c == d)
  }

  // ---- The builder meets it -------------------------------------------------------------------------

  /** Of the components `cs`, exactly those in `done` are known to the maps, by their own id. */
  ghost predicate Knows(g: Graph, cs: set<Component>, done: set<Component>) {
    && done <= cs
    && (forall c <- cs :: InPipeline(c))
    && (forall c <- cs :: c in done <==> ComponentKey(c) in g.componentNodeMap)
    && (forall c <- cs :: c in done <==> NodeId(c) in g.nodeMap)
    && (forall c <- done :: g.componentNodeMap[ComponentKey(c)] == NodeId(c))
  }

  lemma EdgesKeepKnowledge(g: Graph, r: Graph, cs: set<Component>, done: set<Component>)
    requires Knows(g, cs, done) && r.componentNodeMap == g.componentNodeMap && r.nodeMap == g.nodeMap
    ensures Knows(r, cs, done)
  {
  }

  lemma Learn(g: Graph, r: Graph, c: Component, cs: set<Component>, done: set<Component>)
    requires CollisionFree(cs) && Knows(g, cs, done) && c in cs
    requires r.componentNodeMap == g.componentNodeMap[ComponentKey(c) := NodeId(c)]
    requires r.nodeMap == g.nodeMap + {NodeId(c)}
    ensures Knows(r, cs, done + {c})
  {
    forall d | d in cs && d != c
      ensures d in done <==> ComponentKey(d) in r.componentNodeMap
      ensures d in done <==> NodeId(d) in r.nodeMap
    {
      assert ComponentKey(d) != ComponentKey(c) && NodeId(d) != NodeId(c);
    }
    forall d | d in done + {c}
      ensures ComponentKey(d) in r.componentNodeMap && r.componentNodeMap[ComponentKey(d)] == NodeId(d)
    {
      assert d in cs;
    }
  }

  lemma MarkOther(g: Graph, node: Node, cs: set<Component>, done: set<Component>)
    requires Knows(g, cs, done) && (KindOf(node.id) == AgentKind || KindOf(node.id) == EndpointKind)
    ensures Knows(AddNodeOnce(g, node), cs, done)
  {
    forall c | c in cs ensures NodeId(c) != node.id {
      KindOfNodeId(c);
    }
  }

  lemma EnsuredKnows(g: Graph, c: Component, cs: set<Component>, done: set<Component>)
    requires CollisionFree(cs) && Knows(g, cs, done) && c in cs
    ensures Knows(Ensured(g, c), cs, done + {c})
    ensures Ensured(g, c).componentNodeMap[ComponentKey(c)] == NodeId(c)
  {
    if c in done {
      assert done + {c} == done;
    } else {
      Learn(g, Ensured(g, c), c, cs, done);
    }
  }

  ghost function Named(k: Kind, a: string, p: string, names: seq<string>): set<Component> {
    set n | n in names :: Component(k, a, n, p)
  }

  lemma NamedSnoc(k: Kind, a: string, p: string, names: seq<string>)
    requires names != []
    ensures var last := |names| - 1;
            Named(k, a, p, names) == Named(k, a, p, names[..last]) + {Component(k, a, names[last], p)}
    ensures forall n :: n in names <==> n in names[..|names| - 1] || n == names[|names| - 1]
  {
    assert names == names[..|names| - 1] + [names[|names| - 1]];
  }

  ghost predicate ReceiversAdded(g: Graph, r: Graph, a: string, p: string, names: seq<string>) {
    forall e :: e in r.edges <==> e in g.edges || ReceiverEdge(a, p, names, e)
  }

  lemma {:induction false} ReceiversMeetSpec(g: Graph, a: string, p: string, names: seq<string>,
                                             cs: set<Component>, done: set<Component>)
    requires CollisionFree(cs) && Knows(g, cs, done) && Named(ReceiverKind, a, p, names) <= cs
    ensures var b := WithReceivers(g, a, p, names);
            && Knows(b.graph, cs, done + Named(ReceiverKind, a, p, names))
            && b.ids == Ids(ReceiverKind, a, p, names)
            && ReceiversAdded(g, b.graph, a, p, names)
  {
    if names == [] {
      assert done + Named(ReceiverKind, a, p, names) == done;
    } else {
      var before, n := names[..|names| - 1], names[|names| - 1];
      var c := Component(ReceiverKind, a, n, p);
      NamedSnoc(ReceiverKind, a, p, names);
      ReceiversMeetSpec(g, a, p, before, cs, done);
      var b := WithReceivers(g, a, p, before);
      var known := done + Named(ReceiverKind, a, p, before);
      ReceiverKnows(b.graph, c, cs, known);
      assert known + {c} == done + Named(ReceiverKind, a, p, names);
      ReceiverAdds(g, b.graph, a, p, names);
    }
  }

  lemma ReceiverKnows(g: Graph, c: Component, cs: set<Component>, done: set<Component>)
    requires CollisionFree(cs) && Knows(g, cs, done) && c in cs
    ensures Knows(WithReceiver(g, c), cs, done + {c})
    ensures Ensured(g, c).componentNodeMap[ComponentKey(c)] == NodeId(c)
  {
    EnsuredKnows(g, c, cs, done);
    EdgesKeepKnowledge(Ensured(g, c), WithReceiver(g, c), cs, done + {c});
  }

  lemma ReceiverAdds(g: Graph, h: Graph, a: string, p: string, names: seq<string>)
    requires names != [] && ReceiversAdded(g, h, a, p, names[..|names| - 1])
    requires var c := Component(ReceiverKind, a, names[|names| - 1], p);
             Ensured(h, c).componentNodeMap[ComponentKey(c)] == NodeId(c)
    ensures ReceiversAdded(g, WithReceiver(h, Component(ReceiverKind, a, names[|names| - 1], p)), a, p, names)
  {
    var before, n := names[..|names| - 1], names[|names| - 1];
    var r := WithReceiver(h, Component(ReceiverKind, a, n, p));
    var added := Edge(AgentNodeId(a), ReceiverId(a, p, n), p, p + " pipeline");
    assert r.edges == h.edges + [added];
    NamedSnoc(ReceiverKind, a, p, names);
    forall e ensures e in r.edges <==> e in g.edges || ReceiverEdge(a, p, names, e) {
      assert e in r.edges <==> e in h.edges || e == added;
      if ReceiverEdge(a, p, names, e) && e != added {
        var m :| m in names && e == Edge(AgentNodeId(a), ReceiverId(a, p, m), p, p + " pipeline");
        assert m in before;
      }
    }
  }

  ghost predicate ProcessorsAdded(g: Graph, r: Graph, a: string, p: string,
                                  shownNames: seq<string>, sources: seq<string>) {
    forall e :: e in r.edges <==> e in g.edges || ProcessorEdge(a, p, shownNames, sources, e)
  }

  /** One processor more, shown for the first time. */
  lemma ProcessorAdds(g: Graph, h: Graph, r: Graph, a: string, p: string,
                      before: seq<string>, n: string, sources: seq<string>)
    requires ProcessorsAdded(g, h, a, p, before, sources)
    requires r.edges == h.edges + if before == [] then Fan(sources, ProcessorId(a, p, n), p)
                                  else [Edge(ProcessorId(a, p, before[|before| - 1]), ProcessorId(a, p, n), p, p)]
    ensures ProcessorsAdded(g, r, a, p, before + [n], sources)
  {
    var now := before + [n];
    forall e ensures e in r.edges <==> e in g.edges || ProcessorEdge(a, p, now, sources, e) {
      if before == [] {
        FanMember(sources, ProcessorId(a, p, n), p, e);
      } else {
        var k := |before| - 1;
        var added := Edge(ProcessorId(a, p, before[k]), ProcessorId(a, p, n), p, p);
        assert now[0] == before[0] && now[k] == before[k] && now[k + 1] == n;
        assert e in r.edges <==> e in h.edges || e == added;
        ProcessorEdgeSnoc(a, p, before, n, sources, e);
      }
    }
  }

  lemma ProcessorEdgeSnoc(a: string, p: string, before: seq<string>, n: string, sources: seq<string>, e: Edge)
    requires before != []
    ensures ProcessorEdge(a, p, before + [n], sources, e) <==>
              || ProcessorEdge(a, p, before, sources, e)
              || e == Edge(ProcessorId(a, p, before[|before| - 1]), ProcessorId(a, p, n), p, p)
  {
    var now, k := before + [n], |before| - 1;
    assert now[k] == before[k] && now[k + 1] == n && now[0] == before[0];
    if ProcessorEdge(a, p, before, sources, e) && !(e.from in sources && e.to == ProcessorId(a, p, before[0])) {
      var i, j :| 0 <= i && j == i + 1 < |before|
        && e.from == ProcessorId(a, p, before[i]) && e.to == ProcessorId(a, p, before[j]);
      assert now[i] == before[i] && now[j] == before[j];
    }
    if ProcessorEdge(a, p, now, sources, e) && !(e.from in sources && e.to == ProcessorId(a, p, now[0])) {
      var i, j :| 0 <= i && j == i + 1 < |now|
        && e.from == ProcessorId(a, p, now[i]) && e.to == ProcessorId(a, p, now[j]);
      if j < |before| {
        assert now[i] == before[i] && now[j] == before[j];
      } else {
        assert i == k;
      }
    }
  }

  lemma {:induction false} ProcessorsMeetSpec(g: Graph, a: string, pl: Pipeline,
                                              names: seq<string>, sources: seq<string>,
                                              cs: set<Component>, done: set<Component>)
    requires CollisionFree(cs) && Knows(g, cs, done) && Named(ProcessorKind, a, pl.pipelineType, names) <= cs
    requires Named(ProcessorKind, a, pl.pipelineType, names) !! done
    ensures var b := WithProcessors(g, a, pl, names, sources);
            && Knows(b.graph, cs, done + Named(ProcessorKind, a, pl.pipelineType, names))
            && b.ids == Ids(ProcessorKind, a, pl.pipelineType, ShownNames(names, pl.shown))
            && ProcessorsAdded(g, b.graph, a, pl.pipelineType, ShownNames(names, pl.shown), sources)
  {
    var p := pl.pipelineType;
    if names == [] {
      assert done + Named(ProcessorKind, a, p, names) == done;
    } else {
      var before, n := names[..|names| - 1], names[|names| - 1];
      NamedSnoc(ProcessorKind, a, p, names);
      ProcessorsMeetSpec(g, a, pl, before, sources, cs, done);
      ProcessorMeetsSpec(g, WithProcessors(g, a, pl, before, sources), a, pl, before, n, sources, cs, done);
      assert done + Named(ProcessorKind, a, p, before) + {Component(ProcessorKind, a, n, p)}
          == done + Named(ProcessorKind, a, p, names);
    }
  }

  lemma IdsSnoc(k: Kind, a: string, p: string, names: seq<string>, n: string)
    ensures Ids(k, a, p, names + [n]) == Ids(k, a, p, names) + [NodeId(Component(k, a, n, p))]
  {
    assert (names + [n])[..|names|] == names;
  }

  lemma {:induction false} LastId(k: Kind, a: string, p: string, names: seq<string>)
    ensures |Ids(k, a, p, names)| == |names|
    ensures names != [] ==> Ids(k, a, p, names)[|names| - 1] == NodeId(Component(k, a, names[|names| - 1], p))
  {
    if names != [] {
      LastId(k, a, p, names[..|names| - 1]);
    }
  }

  lemma ProcessorMeetsSpec(g: Graph, b: Built, a: string, pl: Pipeline,
                           before: seq<string>, n: string, sources: seq<string>,
                           cs: set<Component>, done: set<Component>)
    requires CollisionFree(cs) && Component(ProcessorKind, a, n, pl.pipelineType) in cs
    requires Component(ProcessorKind, a, n, pl.pipelineType) !in done
    requires Knows(b.graph, cs, done + Named(ProcessorKind, a, pl.pipelineType, before))
    requires b.ids == Ids(ProcessorKind, a, pl.pipelineType, ShownNames(before, pl.shown))
    requires ProcessorsAdded(g, b.graph, a, pl.pipelineType, ShownNames(before, pl.shown), sources)
    ensures var c := Component(ProcessorKind, a, n, pl.pipelineType);
            var r := WithProcessor(b, c, pl.shown, sources);
            && Knows(r.graph, cs, done + Named(ProcessorKind, a, pl.pipelineType, before) + {c})
            && r.ids == Ids(ProcessorKind, a, pl.pipelineType, ShownNames(before + [n], pl.shown))
            && ProcessorsAdded(g, r.graph, a, pl.pipelineType, ShownNames(before + [n], pl.shown), sources)
  {
    var p, c := pl.pipelineType, Component(ProcessorKind, a, n, pl.pipelineType);
    var known := done + Named(ProcessorKind, a, p, before);
    var r, vs := WithProcessor(b, c, pl.shown, sources), ShownNames(before, pl.shown);
    assert (before + [n])[..|before|] == before;
    assert c in known <==> n in before;
    KnownProcessor(b, c, pl.shown, sources, cs, known);
    NewProcessor(b, c, pl.shown, sources, cs, known);
    if n !in before && n in pl.shown {
      IdsSnoc(ProcessorKind, a, p, vs, n);
      LastId(ProcessorKind, a, p, vs);
      ProcessorAdds(g, b.graph, r.graph, a, p, vs, n, sources);
    }
  }

  /** A processor that was met before changes nothing... */
  lemma KnownProcessor(b: Built, c: Component, shown: set<string>, sources: seq<string>,
                       cs: set<Component>, known: set<Component>)
    requires Knows(b.graph, cs, known)
    ensures c in known ==> WithProcessor(b, c, shown, sources) == b && known + {c} == known
  {
    if c in known {
      assert b.graph.componentNodeMap[ComponentKey(c) := NodeId(c)] == b.graph.componentNodeMap;
    }
  }

  /** ... and a new one is learnt, and added if it is shown. */
  lemma NewProcessor(b: Built, c: Component, shown: set<string>, sources: seq<string>,
                     cs: set<Component>, known: set<Component>)
    requires CollisionFree(cs) && Knows(b.graph, cs, known) && c in cs
    ensures var r := WithProcessor(b, c, shown, sources);
            c !in known ==>
              && Knows(r.graph, cs, known + {c})
              && r.ids == (if c.name in shown then b.ids + [NodeId(c)] else b.ids)
              && r.graph.edges == b.graph.edges +
                   (if c.name !in shown then []
                    else if b.ids == [] then Fan(sources, NodeId(c), c.pipelineType)
                    else [Edge(b.ids[|b.ids| - 1], NodeId(c), c.pipelineType, c.pipelineType)])
  {
    if c !in known {
      Learn(b.graph, WithProcessor(b, c, shown, sources).graph, c, cs, known);
    }
  }

  ghost predicate ExportersAdded(g: Graph, r: Graph, a: string, pl: Pipeline, names: seq<string>, last: seq<string>) {
    forall e :: e in r.edges <==>
      e in g.edges || exists n <- names :: ExporterEdge(a, pl.pipelineType, n, last, pl.endpoints, e)
  }

  lemma ExporterMeetsSpec(g: Graph, c: Component, endpoints: map<string, string>, last: seq<string>,
                          cs: set<Component>, done: set<Component>)
    requires CollisionFree(cs) && Knows(g, cs, done) && c in cs && c.kind == ExporterKind && c.name != "debug"
    ensures var r := WithExporter(g, c, endpoints, last);
            && Knows(r, cs, done + {c})
            && forall e :: e in r.edges <==>
                 e in g.edges || ExporterEdge(c.agentId, c.pipelineType, c.name, last, endpoints, e)
  {
    var r, h := WithExporter(g, c, endpoints, last), Ensured(g, c);
    EnsuredKnows(g, c, cs, done);
    var fed := h.(edges := h.edges + Fan(last, NodeId(c), c.pipelineType));
    EdgesKeepKnowledge(h, fed, cs, done + {c});
    if c.name in endpoints {
      var endpoint := endpoints[c.name];
      var node := Node(EndpointNodeId(endpoint), EndpointKind, endpoint, "", "");
      KindOfOthers("", endpoint);
      MarkOther(fed, node, cs, done + {c});
      EdgesKeepKnowledge(AddNodeOnce(fed, node), r, cs, done + {c});
    }
    forall e
      ensures e in r.edges <==> e in g.edges || ExporterEdge(c.agentId, c.pipelineType, c.name, last, endpoints, e)
    {
      FanMember(last, NodeId(c), c.pipelineType, e);
    }
  }

  lemma {:induction false} ExportersMeetSpec(g: Graph, a: string, pl: Pipeline, names: seq<string>, last: seq<string>,
                                             cs: set<Component>, done: set<Component>)
    requires CollisionFree(cs) && Knows(g, cs, done)
    requires forall n <- names :: n != "debug" ==> Component(ExporterKind, a, n, pl.pipelineType) in cs
    ensures var r := WithExporters(g, a, pl, names, last);
            && Knows(r, cs, done + Exporting(a, pl.pipelineType, names))
            && ExportersAdded(g, r, a, pl, names, last)
  {
    if names == [] {
      assert done + Exporting(a, pl.pipelineType, names) == done;
    } else {
      var before, n := names[..|names| - 1], names[|names| - 1];
      var c := Component(ExporterKind, a, n, pl.pipelineType);
      NamedSnoc(ExporterKind, a, pl.pipelineType, names);
      ExportersMeetSpec(g, a, pl, before, last, cs, done);
      var h, known := WithExporters(g, a, pl, before, last), done + Exporting(a, pl.pipelineType, before);
      if n == "debug" {
        assert Exporting(a, pl.pipelineType, names) == Exporting(a, pl.pipelineType, before);
      } else {
        assert known + {c} == done + Exporting(a, pl.pipelineType, names);
        ExporterMeetsSpec(h, c, pl.endpoints, last, cs, known);
      }
      ExporterAdds(g, h, WithExporters(g, a, pl, names, last), a, pl, names, last);
    }
  }

  lemma ExporterAdds(g: Graph, h: Graph, r: Graph, a: string, pl: Pipeline, names: seq<string>, last: seq<string>)
    requires names != [] && ExportersAdded(g, h, a, pl, names[..|names| - 1], last)
    requires forall e :: e in r.edges <==>
               e in h.edges || ExporterEdge(a, pl.pipelineType, names[|names| - 1], last, pl.endpoints, e)
    ensures ExportersAdded(g, r, a, pl, names, last)
  {
    NamedSnoc(ExporterKind, a, pl.pipelineType, names);
    forall e ensures e in r.edges <==>
      e in g.edges || exists n <- names :: ExporterEdge(a, pl.pipelineType, n, last, pl.endpoints, e)
    {
      if exists n <- names :: ExporterEdge(a, pl.pipelineType, n, last, pl.endpoints, e) {
        var n :| n in names && ExporterEdge(a, pl.pipelineType, n, last, pl.endpoints, e);
        assert n in names[..|names| - 1] || n == names[|names| - 1];
      }
    }
  }

  ghost function Exporting(a: string, p: string, names: seq<string>): set<Component> {
    set n | n in names && n != "debug" :: Component(ExporterKind, a, n, p)
  }

  lemma PipelineMeetsSpec(g: Graph, a: string, pl: Pipeline, cs: set<Component>, done: set<Component>)
    requires CollisionFree(cs) && Knows(g, cs, done)
    requires PipelineComponents(a, pl) <= cs && PipelineComponents(a, pl) !! done
    ensures var r := WithPipeline(g, a, pl);
            && Knows(r, cs, done + PipelineComponents(a, pl))
            && forall e :: e in r.edges <==> e in g.edges || PipelineEdge(a, pl, e)
  {
    var p := pl.pipelineType;
    if Skipped(pl) {
      assert done + PipelineComponents(a, pl) == done;
    } else {
      var rc, pc, ec := Named(ReceiverKind, a, p, pl.receivers), Named(ProcessorKind, a, p, pl.processors),
                        Exporting(a, p, pl.exporters);
      assert PipelineComponents(a, pl) == rc + pc + ec;
      ReceiversMeetSpec(g, a, p, pl.receivers, cs, done);
      var rs := WithReceivers(g, a, p, pl.receivers);
      var sources := Sources(a, rs.ids);
      ProcessorsMeetSpec(rs.graph, a, pl, pl.processors, sources, cs, done + rc);
      var ps := WithProcessors(rs.graph, a, pl, pl.processors, sources);
      ExportersMeetSpec(ps.graph, a, pl, pl.exporters, LastComponents(rs.ids, ps.ids), cs, done + rc + pc);
      assert done + rc + pc + ec == done + PipelineComponents(a, pl);
      EdgesAddUp(g, rs, ps, WithPipeline(g, a, pl), a, pl);
    }
  }

  lemma EdgesAddUp(g: Graph, rs: Built, ps: Built, r: Graph, a: string, pl: Pipeline)
    requires !Skipped(pl) && ReceiversAdded(g, rs.graph, a, pl.pipelineType, pl.receivers)
    requires rs.ids == Ids(ReceiverKind, a, pl.pipelineType, pl.receivers)
    requires ps.ids == Ids(ProcessorKind, a, pl.pipelineType, ShownNames(pl.processors, pl.shown))
    requires ProcessorsAdded(rs.graph, ps.graph, a, pl.pipelineType, ShownNames(pl.processors, pl.shown),
                             Sources(a, rs.ids))
    requires ExportersAdded(ps.graph, r, a, pl, pl.exporters, LastComponents(rs.ids, ps.ids))
    ensures forall e :: e in r.edges <==> e in g.edges || PipelineEdge(a, pl, e)
  {
    var p, shown := pl.pipelineType, ShownNames(pl.processors, pl.shown);
    forall e ensures e in r.edges <==> e in g.edges || PipelineEdge(a, pl, e) {
      IntoProcessors(a, pl, rs.ids, shown, e);
      IntoExporters(a, pl, rs.ids, ps.ids, shown, e);
    }
  }

  lemma IntoProcessors(a: string, pl: Pipeline, receiverIds: seq<string>, shown: seq<string>, e: Edge)
    requires receiverIds == Ids(ReceiverKind, a, pl.pipelineType, pl.receivers)
    ensures ProcessorEdge(a, pl.pipelineType, shown, Sources(a, receiverIds), e) <==>
              FirstProcessorEdge(a, pl, shown, e) || NextProcessorEdge(a, pl.pipelineType, shown, e)
  {
    IdsMember(ReceiverKind, a, pl.pipelineType, pl.receivers, e.from);
  }

  lemma IntoExporters(a: string, pl: Pipeline, receiverIds: seq<string>, processorIds: seq<string>,
                      shown: seq<string>, e: Edge)
    requires receiverIds == Ids(ReceiverKind, a, pl.pipelineType, pl.receivers)
    requires processorIds == Ids(ProcessorKind, a, pl.pipelineType, shown)
    ensures (exists n <- pl.exporters ::
               ExporterEdge(a, pl.pipelineType, n, LastComponents(receiverIds, processorIds), pl.endpoints, e)) <==>
              LastProcessorEdge(a, pl, shown, e) || EndpointEdge(a, pl, e)
  {
    var p, last := pl.pipelineType, LastComponents(receiverIds, processorIds);
    IdsMember(ReceiverKind, a, p, pl.receivers, e.from);
    LastId(ProcessorKind, a, p, shown);
    forall n | n in pl.exporters && ExporterEdge(a, p, n, last, pl.endpoints, e)
      ensures LastProcessorEdge(a, pl, shown, e) || EndpointEdge(a, pl, e) {}
    if LastProcessorEdge(a, pl, shown, e) || EndpointEdge(a, pl, e) {
      var n :| n in pl.exporters && n != "debug"
        && (|| (e == Edge(e.from, ExporterId(a, p, n), p, p)
                && if shown == [] then FromReceiver(a, p, pl.receivers, e.from)
                   else e.from == ProcessorId(a, p, shown[|shown| - 1]))
            || (n in pl.endpoints
                && e == Edge(ExporterId(a, p, n), EndpointNodeId(pl.endpoints[n]), p, p + " via " + n)));
      assert ExporterEdge(a, p, n, last, pl.endpoints, e);
    }
  }

  ghost function AllOf(a: string, pls: seq<Pipeline>): set<Component> {
    set pl, c | pl in pls && c in PipelineComponents(a, pl) :: c
  }

  lemma {:induction false} PipelinesMeetSpec(g: Graph, a: string, pls: seq<Pipeline>,
                                             cs: set<Component>, done: set<Component>)
    requires CollisionFree(cs) && Knows(g, cs, done) && DistinctTypes(pls)
    requires AllOf(a, pls) <= cs && forall c <- done :: c.agentId != a
    ensures var r := WithPipelines(g, a, pls);
            && Knows(r, cs, done + AllOf(a, pls))
            && forall e :: e in r.edges <==> e in g.edges || exists pl <- pls :: PipelineEdge(a, pl, e)
  {
    if pls == [] {
      assert done + AllOf(a, pls) == done;
    } else {
      var before, pl := pls[..|pls| - 1], pls[|pls| - 1];
      assert pls == before + [pl];
      AllOfSnoc(a, before, pl);
      PipelinesMeetSpec(g, a, before, cs, done);
      FreshPipeline(a, before, pl, done);
      PipelineMeetsSpec(WithPipelines(g, a, before), a, pl, cs, done + AllOf(a, before));
      assert done + AllOf(a, before) + PipelineComponents(a, pl) == done + AllOf(a, pls);
    }
  }

  lemma AllOfSnoc(a: string, before: seq<Pipeline>, pl: Pipeline)
    ensures AllOf(a, before + [pl]) == AllOf(a, before) + PipelineComponents(a, pl)
  {
    assert forall q :: q in before + [pl] <==> q in before || q == pl;
  }

  lemma FreshPipeline(a: string, before: seq<Pipeline>, pl: Pipeline, done: set<Component>)
    requires DistinctTypes(before + [pl]) && forall c <- done :: c.agentId != a
    ensures PipelineComponents(a, pl) !! done + AllOf(a, before)
  {
    forall c | c in AllOf(a, before) ensures c !in PipelineComponents(a, pl) {
      var q :| q in before && c in PipelineComponents(a, q);
      var i :| 0 <= i < |before| && before[i] == q;
      assert (before + [pl])[i] == q && (before + [pl])[|before|] == pl;
    }
  }

  lemma AgentMeetsSpec(g: Graph, a: Agent, cs: set<Component>, done: set<Component>)
    requires CollisionFree(cs) && Knows(g, cs, done) && DistinctTypes(a.pipelines)
    requires AllOf(a.id, a.pipelines) <= cs && forall c <- done :: c.agentId != a.id
    ensures Knows(WithAgent(g, a), cs, done + AllOf(a.id, a.pipelines))
    ensures forall e :: e in WithAgent(g, a).edges <==>
              e in g.edges || exists pl <- a.pipelines :: PipelineEdge(a.id, pl, e)
  {
    var node := Node(AgentNodeId(a.id), AgentKind, a.name, a.id, "");
    KindOfOthers(a.id, "");
    MarkOther(g, node, cs, done);
    PipelinesMeetSpec(AddNodeOnce(g, node), a.id, a.pipelines, cs, done);
  }

  lemma ComponentsSnoc(before: seq<Agent>, a: Agent)
    ensures Components(before + [a]) == Components(before) + AllOf(a.id, a.pipelines)
    ensures forall e :: SpecifiedEdge(before + [a], e) <==>
              SpecifiedEdge(before, e) || exists pl <- a.pipelines :: PipelineEdge(a.id, pl, e)
  {
    assert forall b :: b in before + [a] <==> b in before || b == a;
    forall e ensures SpecifiedEdge(before + [a], e) <==>
      SpecifiedEdge(before, e) || exists pl <- a.pipelines :: PipelineEdge(a.id, pl, e)
    {
      if exists pl <- a.pipelines :: PipelineEdge(a.id, pl, e) {
        var pl :| pl in a.pipelines && PipelineEdge(a.id, pl, e);
        assert (a.id, pl) in Entries(before + [a]);
      }
      if SpecifiedEdge(before, e) {
        var x :| x in Entries(before) && PipelineEdge(x.0, x.1, e);
        assert x in Entries(before + [a]);
      }
    }
  }

  lemma {:induction false} AgentsMeetSpec(agents: seq<Agent>, cs: set<Component>)
    requires Input(agents) && CollisionFree(cs) && Components(agents) <= cs && forall c <- cs :: InPipeline(c)
    ensures Knows(TopologyOf(agents), cs, Components(agents))
    ensures forall e :: e in TopologyOf(agents).edges <==> SpecifiedEdge(agents, e)
  {
    if agents != [] {
      var before, a := agents[..|agents| - 1], agents[|agents| - 1];
      assert agents == before + [a] && a in agents;
      ComponentsSnoc(before, a);
      AgentsMeetSpec(before, cs);
      forall c | c in Components(before) ensures c.agentId != a.id {
        ComponentHasAgent(before, c);
      }
      AgentMeetsSpec(TopologyOf(before), a, cs, Components(before));
    }
  }

  /** Main result: if the components of all agents have different keys and ids, the edges are
      exactly the specified ones. */
  lemma EdgesAreSpecified(agents: seq<Agent>)
    requires Input(agents) && CollisionFree(Components(agents))
    ensures forall e :: e in TopologyOf(agents).edges <==> SpecifiedEdge(agents, e)
  {
    ComponentsArePipelined(agents);
    AgentsMeetSpec(agents, Components(agents));
  }

  /** Main result: the set of edges does not depend on the order in which agents and pipelines are
      met. */
  lemma EdgesDoNotDependOnOrder(agents: seq<Agent>, others: seq<Agent>)
    requires Input(agents) && Input(others) && CollisionFree(Components(agents))
    requires Entries(agents) == Entries(others)
    ensures forall e :: e in TopologyOf(agents).edges <==> e in TopologyOf(others).edges
  {
    assert Components(agents) == Components(others) by {
      ComponentsOfEntries(agents, others);
      ComponentsOfEntries(others, agents);
    }
    EdgesAreSpecified(agents);
    EdgesAreSpecified(others);
  }

  lemma ComponentsOfEntries(agents: seq<Agent>, others: seq<Agent>)
    requires Entries(agents) <= Entries(others)
    ensures Components(agents) <= Components(others)
  {
    forall c | c in Components(agents) ensures c in Components(others) {
      var a, pl :| a in agents && pl in a.pipelines && c in PipelineComponents(a.id, pl);
      assert (a.id, pl) in Entries(agents);
      var b, q :| b in others && q in b.pipelines && (b.id, q) == (a.id, pl);
      assert c in PipelineComponents(b.id, q);
    }
  }
}
