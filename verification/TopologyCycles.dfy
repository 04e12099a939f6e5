/** When the topology graph is well formed: all edges end at nodes and there are no cycles.

    The keys of components are shared by all agents and are made by concatenation, so the key of a
    receiver of one agent can be that of an exporter of another one.  That happens exactly if one
    agent id continues another one with "-receiver/", "-processor/" or "-exporter/". */
module TopologyCycles {
  import opened Topology
  import opened TopologyShape

  ghost predicate Closed(g: Graph) {
    forall e <- g.edges :: HasNode(g.nodes, e.from) && HasNode(g.nodes, e.to)
  }

  ghost predicate HasEdge(g: Graph, x: string, y: string) {
    exists e :: e in g.edges && e.from == x && e.to == y
  }

  ghost predicate Linked(g: Graph, path: seq<string>) {
    forall i, j :: 0 <= i && j == i + 1 < |path| ==> HasEdge(g, path[i], path[j])
  }

  ghost predicate Acyclic(g: Graph) {
    forall path :: |path| >= 2 && Linked(g, path) ==> path[0] != path[|path| - 1]
  }

  ghost predicate WellFormed(g: Graph) {
    Closed(g) && Acyclic(g)
  }

  function Hop(from: string, to: string): Edge {
    Edge(from, to, "", "")
  }

  lemma RisesTransitively(nodes: seq<Node>, x: string, y: string, z: string)
    requires UniqueIds(nodes) && Rises(nodes, Hop(x, y)) && Rises(nodes, Hop(y, z))
    ensures Rises(nodes, Hop(x, z))
  {
    var i: nat, j: nat :| Above(nodes, i, j) && nodes[i].id == x && nodes[j].id == y;
    var k: nat, l: nat :| Above(nodes, k, l) && nodes[k].id == y && nodes[l].id == z;
    assert j == k;
    assert Above(nodes, i, l) && nodes[i].id == Hop(x, z).from && nodes[l].id == Hop(x, z).to;
  }

  lemma NothingRisesToItself(nodes: seq<Node>, x: string)
    requires UniqueIds(nodes)
    ensures !Rises(nodes, Hop(x, x))
  {
    if Rises(nodes, Hop(x, x)) {
      var i: nat, j: nat :| Above(nodes, i, j) && nodes[i].id == x && nodes[j].id == x;
      assert false;
    }
  }

  lemma LinkRises(g: Graph, x: string, y: string)
    requires Rising(g) && HasEdge(g, x, y)
    ensures Rises(g.nodes, Hop(x, y))
  {
    var e :| e in g.edges && e.from == x && e.to == y;
    assert Rises(g.nodes, e);
    var i: nat, j: nat :| Above(g.nodes, i, j) && g.nodes[i].id == e.from && g.nodes[j].id == e.to;
    assert g.nodes[i].id == Hop(x, y).from && g.nodes[j].id == Hop(x, y).to;
  }

  lemma LinkedPrefix(g: Graph, path: seq<string>)
    requires Linked(g, path) && |path| > 1
    ensures Linked(g, path[..|path| - 1])
  {
  }

  lemma LastLink(g: Graph, path: seq<string>)
    requires Linked(g, path) && |path| > 1 && Rising(g)
    ensures Rises(g.nodes, Hop(path[|path| - 2], path[|path| - 1]))
  {
    LinkRises(g, path[|path| - 2], path[|path| - 1]);
  }

  lemma {:induction false} PathRises(g: Graph, path: seq<string>)
    requires UniqueIds(g.nodes) && Rising(g) && |path| >= 2 && Linked(g, path)
    ensures Rises(g.nodes, Hop(path[0], path[|path| - 1]))
  {
    var last := |path| - 1;
    LastLink(g, path);
    if |path| > 2 {
      LinkedPrefix(g, path);
      PathRises(g, path[..last]);
      RisesTransitively(g.nodes, path[0], path[last - 1], path[last]);
    }
  }

  lemma RisingIsWellFormed(g: Graph)
    requires UniqueIds(g.nodes) && Rising(g)
    ensures WellFormed(g)
  {
    forall e | e in g.edges ensures HasNode(g.nodes, e.from) && HasNode(g.nodes, e.to) {
      assert Rises(g.nodes, e);
    }
    forall path | |path| >= 2 && Linked(g, path) ensures path[0] != path[|path| - 1] {
      PathRises(g, path);
      NothingRisesToItself(g.nodes, path[0]);
    }
  }

  /** Main result: if no two components of different kinds share a key, every edge ends at nodes,
      leads upwards, and so there is no cycle. */
  lemma WellFormedWithoutClash(agents: seq<Agent>)
    requires NoKindClash(Components(agents))
    ensures Rising(TopologyOf(agents)) && WellFormed(TopologyOf(agents))
  {
    ComponentsArePipelined(agents);
    TopologyInv(agents, Components(agents));
    RisingIsWellFormed(TopologyOf(agents));
  }

  // ---- Which agent ids allow a clash ---------------------------------------------------------------

  function Stem(agentId: string, k: Kind): string {
    agentId + "-" + KindName(k) + "/"
  }

  /** `b` goes on where a key of agent `a` has its kind. */
  predicate Continues(a: string, b: string, k: Kind) {
    (k == ReceiverKind || k == ProcessorKind || k == ExporterKind) && Stem(a, k) <= b
  }

  ghost predicate SafeIds(ids: set<string>) {
    forall a, b, k :: a in ids && b in ids ==> !Continues(a, b, k)
  }

  function IdsOf(agents: seq<Agent>): set<string> {
    set a | a in agents :: a.id
  }

  function Tail(c: Component): string {
    Stem(c.agentId, c.kind) + (c.name + "-" + c.pipelineType)
  }

  lemma KeyIsTail(c: Component)
    ensures ComponentKey(c) == "agent-" + Tail(c)
  {
  }

  lemma SameKeySameTail(c: Component, d: Component)
    requires ComponentKey(c) == ComponentKey(d)
    ensures Tail(c) == Tail(d)
  {
    KeyIsTail(c);
    KeyIsTail(d);
    assert Tail(c) == ("agent-" + Tail(c))[6..] && Tail(d) == ("agent-" + Tail(d))[6..];
  }

  /** After the agent id comes a dash, then the name of the kind, without dashes, and a slash. */
  lemma TailStart(c: Component)
    ensures |Tail(c)| > |c.agentId| + 1 + |KindName(c.kind)| && Tail(c)[|c.agentId|] == '-'
    ensures Tail(c)[|c.agentId| + 1] == KindName(c.kind)[0]
  {
    assert Tail(c)[|c.agentId|] == Stem(c.agentId, c.kind)[|c.agentId|];
    assert Tail(c)[|c.agentId| + 1] == Stem(c.agentId, c.kind)[|c.agentId| + 1];
  }

  lemma TailHasNoDash(c: Component, i: nat)
    requires |c.agentId| < i <= |c.agentId| + 1 + |KindName(c.kind)|
    ensures i < |Tail(c)| && Tail(c)[i] != '-'
  {
    var name := KindName(c.kind);
    assert forall k :: 0 <= k < |name| ==> name[k] != '-';
    var stem := Stem(c.agentId, c.kind);
    assert stem == (c.agentId + "-") + (name + "/");
    assert stem[i] == (name + "/")[i - |c.agentId| - 1];
  }

  lemma LongTail(c: Component, d: Component)
    requires Tail(c) == Tail(d) && |d.agentId| > |c.agentId| + 1 + |KindName(c.kind)|
    ensures Stem(c.agentId, c.kind) <= d.agentId
  {
    var t := Tail(c);
    var stem := Stem(c.agentId, c.kind);
    assert d.agentId == t[..|d.agentId|] && stem == t[..|stem|];
    assert t[..|d.agentId|][..|stem|] == t[..|stem|];
  }

  /** Where the tails of keys of different kinds agree, the longer agent id continues the shorter. */
  lemma SameTailContinues(c: Component, d: Component)
    requires InPipeline(c) && InPipeline(d) && c.kind != d.kind && Tail(c) == Tail(d)
    requires |c.agentId| <= |d.agentId|
    ensures Continues(c.agentId, d.agentId, c.kind)
  {
    TailStart(c);
    TailStart(d);
    if |c.agentId| < |d.agentId| <= |c.agentId| + 1 + |KindName(c.kind)| {
      TailHasNoDash(c, |d.agentId|);
      assert false;
    } else if |c.agentId| < |d.agentId| {
      LongTail(c, d);
    }
  }

  lemma SafeIdsDoNotClash(agents: seq<Agent>)
    requires SafeIds(IdsOf(agents))
    ensures NoKindClash(Components(agents))
  {
    var cs := Components(agents);
    ComponentsArePipelined(agents);
    forall c, d | c in cs && d in cs && ComponentKey(c) == ComponentKey(d) ensures c.kind == d.kind {
      ComponentHasAgent(agents, c);
      ComponentHasAgent(agents, d);
      if c.kind != d.kind {
        SameKeySameTail(c, d);
        if |c.agentId| <= |d.agentId| {
          SameTailContinues(c, d);
        } else {
          SameTailContinues(d, c);
        }
        assert false;
      }
    }
  }

  lemma ComponentHasAgent(agents: seq<Agent>, c: Component)
    requires c in Components(agents)
    ensures c.agentId in IdsOf(agents)
  {
  }

  // ---- Graphs that are not well formed --------------------------------------------------------------

  const LOGS := "logs"

  function OneReceiver(name: string): Pipeline {
    Pipeline(LOGS, [name], [], [], map[], {}, false)
  }

  function OneProcessor(name: string): Pipeline {
    Pipeline(LOGS, [], [name], [], map[], {}, false)
  }

  function OneExporter(name: string, endpoints: map<string, string>): Pipeline {
    Pipeline(LOGS, [], [], [name], endpoints, {}, false)
  }

  function Lone(id: string, pl: Pipeline): Agent {
    Agent(id, "", [pl])
  }

  lemma TwoAgents(x: Agent, y: Agent)
    requires |x.pipelines| == |y.pipelines| == 1
    ensures var gx := AddNodeOnce(EMPTY_GRAPH, Node(AgentNodeId(x.id), AgentKind, x.name, x.id, ""));
            var hx := WithPipeline(gx, x.id, x.pipelines[0]);
            var gy := AddNodeOnce(hx, Node(AgentNodeId(y.id), AgentKind, y.name, y.id, ""));
            TopologyOf([x]) == hx && TopologyOf([x, y]) == WithPipeline(gy, y.id, y.pipelines[0])
  {
    assert [x, y][..1] == [x] && [x][..0] == [] && x.pipelines[..0] == [] && y.pipelines[..0] == [];
    var gx := AddNodeOnce(EMPTY_GRAPH, Node(AgentNodeId(x.id), AgentKind, x.name, x.id, ""));
    assert WithPipelines(gx, x.id, []) == gx;
    assert WithPipelines(gx, x.id, x.pipelines) == WithPipeline(gx, x.id, x.pipelines[0]);
    assert TopologyOf([]) == EMPTY_GRAPH;
    var hx := TopologyOf([x]);
    var gy := AddNodeOnce(hx, Node(AgentNodeId(y.id), AgentKind, y.name, y.id, ""));
    assert WithPipelines(gy, y.id, []) == gy;
    assert WithPipelines(gy, y.id, y.pipelines) == WithPipeline(gy, y.id, y.pipelines[0]);
  }

  /** A processor that is not shown leaves its key behind, without a node. */
  lemma HiddenProcessor(x: string, name: string)
    ensures var g, c := TopologyOf([Lone(x, OneProcessor(name))]), Component(ProcessorKind, x, name, LOGS);
            && g.nodes == [Node(AgentNodeId(x), AgentKind, "", x, "")] && g.edges == []
            && g.componentNodeMap == map[ComponentKey(c) := NodeId(c)]
            && g.nodeMap == {AgentNodeId(x), NodeId(c)}
  {
    var pl, c := OneProcessor(name), Component(ProcessorKind, x, name, LOGS);
    var a := Lone(x, pl);
    var g := AddNodeOnce(EMPTY_GRAPH, Node(AgentNodeId(x), AgentKind, "", x, ""));
    TwoAgents(a, a);
    KindOfNodeId(c);
    KindOfOthers(x, "");
    assert WithReceivers(g, x, LOGS, []) == Built(g, []);
    assert [name][..0] == [];
    assert WithProcessors(g, x, pl, [], [AgentNodeId(x)]) == Built(g, []);
    assert WithProcessors(g, x, pl, [name], [AgentNodeId(x)])
        == WithProcessor(Built(g, []), c, {}, [AgentNodeId(x)]);
    assert !Skipped(pl);
  }

  /** The graph before the pipelines of agent `y`, after an agent `x` with one hidden processor `c`. */
  function HiddenGraph(x: string, y: string, c: Component): Graph {
    Graph([Node(AgentNodeId(x), AgentKind, "", x, ""), Node(AgentNodeId(y), AgentKind, "", y, "")], [],
          {AgentNodeId(x), NodeId(c), AgentNodeId(y)}, map[ComponentKey(c) := NodeId(c)])
  }

  lemma AfterHidden(x: string, y: string, name: string, pl: Pipeline)
    requires x != y
    ensures var c := Component(ProcessorKind, x, name, LOGS);
            TopologyOf([Lone(x, OneProcessor(name)), Lone(y, pl)]) == WithPipeline(HiddenGraph(x, y, c), y, pl)
  {
    var c := Component(ProcessorKind, x, name, LOGS);
    HiddenProcessor(x, name);
    TwoAgents(Lone(x, OneProcessor(name)), Lone(y, pl));
    SecondNode(x, y, c);
  }

  lemma SecondNode(x: string, y: string, c: Component)
    requires x != y && c.kind == ProcessorKind
    ensures var g := HiddenGraph(x, y, c);
            var h := Graph([g.nodes[0]], [], {AgentNodeId(x), NodeId(c)}, g.componentNodeMap);
            AddNodeOnce(h, Node(AgentNodeId(y), AgentKind, "", y, "")) == g
  {
    KindOfNodeId(c);
    KindOfOthers(y, "");
    assert AgentNodeId(x)[6..] == x && AgentNodeId(y)[6..] == y;
  }

  lemma NotInHiddenGraph(x: string, y: string, c: Component)
    requires c.kind == ProcessorKind
    ensures !HasNode(HiddenGraph(x, y, c).nodes, NodeId(c))
  {
    KindOfNodeId(c);
    KindOfOthers(x, "");
    KindOfOthers(y, "");
  }

  lemma LoneReceiver(g: Graph, id: string, receiver: string)
    ensures var pl, c := OneReceiver(receiver), Component(ReceiverKind, id, receiver, LOGS);
            WithPipeline(g, id, pl) == WithReceiver(g, c)
  {
    var pl, c := OneReceiver(receiver), Component(ReceiverKind, id, receiver, LOGS);
    assert [receiver][..0] == [];
    assert WithReceivers(g, id, LOGS, []) == Built(g, []);
    var rs := WithReceivers(g, id, LOGS, [receiver]);
    assert rs.graph == WithReceiver(g, c) && |rs.ids| == 1;
    assert WithProcessors(rs.graph, id, pl, [], rs.ids) == Built(rs.graph, []);
    assert !Skipped(pl);
  }

  lemma DanglingReceiver(x: string, y: string, processor: string, receiver: string)
    requires x != y
    requires ComponentKey(Component(ProcessorKind, x, processor, LOGS))
          == ComponentKey(Component(ReceiverKind, y, receiver, LOGS))
    ensures !Closed(TopologyOf([Lone(x, OneProcessor(processor)), Lone(y, OneReceiver(receiver))]))
  {
    var c, d := Component(ProcessorKind, x, processor, LOGS), Component(ReceiverKind, y, receiver, LOGS);
    var g := HiddenGraph(x, y, c);
    AfterHidden(x, y, processor, OneReceiver(receiver));
    LoneReceiver(g, y, receiver);
    NotInHiddenGraph(x, y, c);
    var e := Edge(AgentNodeId(y), NodeId(c), LOGS, LOGS + " pipeline");
    assert WithReceiver(g, d).edges == [e] && e in WithReceiver(g, d).edges;
  }

  lemma LoneExporter(g: Graph, id: string, exporter: string, endpoints: map<string, string>)
    ensures var c := Component(ExporterKind, id, exporter, LOGS);
            WithPipeline(g, id, OneExporter(exporter, endpoints)) == WithExporter(g, c, endpoints, [])
  {
    var pl := OneExporter(exporter, endpoints);
    assert WithReceivers(g, id, LOGS, []) == Built(g, []);
    assert WithProcessors(g, id, pl, [], [AgentNodeId(id)]) == Built(g, []);
    assert [exporter][..0] == [];
    assert WithExporters(g, id, pl, [], []) == g;
    assert !Skipped(pl);
  }

  lemma DanglingExporter(x: string, y: string, processor: string, exporter: string)
    requires x != y && exporter != "debug"
    requires ComponentKey(Component(ProcessorKind, x, processor, LOGS))
          == ComponentKey(Component(ExporterKind, y, exporter, LOGS))
    ensures !Closed(TopologyOf([Lone(x, OneProcessor(processor)), Lone(y, OneExporter(exporter, map[exporter := ""]))]))
  {
    var c, d := Component(ProcessorKind, x, processor, LOGS), Component(ExporterKind, y, exporter, LOGS);
    ExporterAfterHidden(x, y, processor, exporter, map[exporter := ""]);
    NotInHiddenGraph(x, y, c);
    KindOfNodeId(c);
    EndpointDangles(HiddenGraph(x, y, c), NodeId(c), d, map[exporter := ""]);
  }

  lemma ExporterAfterHidden(x: string, y: string, processor: string, exporter: string, endpoints: map<string, string>)
    requires x != y
    ensures var c, d := Component(ProcessorKind, x, processor, LOGS), Component(ExporterKind, y, exporter, LOGS);
            WithExporter(HiddenGraph(x, y, c), d, endpoints, [])
            == TopologyOf([Lone(x, OneProcessor(processor)), Lone(y, OneExporter(exporter, endpoints))])
  {
    AfterHidden(x, y, processor, OneExporter(exporter, endpoints));
    LoneExporter(HiddenGraph(x, y, Component(ProcessorKind, x, processor, LOGS)), y, exporter, endpoints);
  }

  /** An exporter whose key stands for an id without a node. */
  lemma EndpointDangles(g: Graph, id: string, c: Component, endpoints: map<string, string>)
    requires c.name != "debug" && c.name in endpoints && KindOf(id) != EndpointKind
    requires ComponentKey(c) in g.componentNodeMap && g.componentNodeMap[ComponentKey(c)] == id
    requires !HasNode(g.nodes, id)
    ensures !Closed(WithExporter(g, c, endpoints, []))
  {
    var endpoint := endpoints[c.name];
    KindOfOthers("", endpoint);
    var r := WithExporter(g, c, endpoints, []);
    var e := Edge(id, EndpointNodeId(endpoint), c.pipelineType, c.pipelineType + " via " + c.name);
    assert r.edges[|r.edges| - 1] == e && e in r.edges;
    forall i | 0 <= i < |r.nodes| ensures r.nodes[i].id != id {
      if i < |g.nodes| {
        assert r.nodes[i] == g.nodes[i];
      }
    }
  }

  /** As in the source, where agents and pipelines are the entries of maps. */
  ghost predicate Input(agents: seq<Agent>) {
    && (forall i, j :: 0 <= i < j < |agents| ==> agents[i].id != agents[j].id)
    && (forall a <- agents :: DistinctTypes(a.pipelines))
  }

  ghost predicate DistinctTypes(pls: seq<Pipeline>) {
    forall i, j :: 0 <= i < j < |pls| ==> pls[i].pipelineType != pls[j].pipelineType
  }

  lemma Regroup(s: string, x: string, l: string, n: string, t: string)
    ensures s + ((x + l + n) + t) == ((s + x) + l) + (n + t)
  {
    assert s + ((x + l + n) + t) == s + x + l + n + t;
  }

  function InnerName(x: string, l: Kind, name: string): string {
    x + ("-" + KindName(l) + "/") + name
  }

  lemma KeyContinues(a: string, b: string, x: string, k: Kind, l: Kind, name: string)
    requires b == Stem(a, k) + x
    ensures ComponentKey(Component(k, a, InnerName(x, l, name), LOGS)) == ComponentKey(Component(l, b, name, LOGS))
  {
    var c, d := Component(k, a, InnerName(x, l, name), LOGS), Component(l, b, name, LOGS);
    KeyIsTail(c);
    KeyIsTail(d);
    var inner := "-" + KindName(l) + "/";
    StemParts(b, l);
    LastPart(x + inner + name);
    LastPart(name);
    Regroup(Stem(a, k), x, inner, name, "-" + LOGS);
  }

  lemma StemParts(a: string, k: Kind)
    ensures Stem(a, k) == a + ("-" + KindName(k) + "/")
  {
  }

  lemma LastPart(name: string)
    ensures name + "-" + LOGS == name + ("-" + LOGS)
  {
  }

  lemma TwoAreInput(x: string, y: string, p: Pipeline, q: Pipeline)
    requires x != y
    ensures Input([Lone(x, p), Lone(y, q)]) && IdsOf([Lone(x, p), Lone(y, q)]) == {x, y}
  {
    assert Lone(x, p) in [Lone(x, p), Lone(y, q)] && Lone(y, q) in [Lone(x, p), Lone(y, q)];
  }

  /** Agents with such ids can be configured so that an edge ends nowhere. */
  lemma ContinuedIdsDangle(a: string, b: string, k: Kind) returns (agents: seq<Agent>)
    requires Continues(a, b, k)
    ensures Input(agents) && IdsOf(agents) == {a, b} && !Closed(TopologyOf(agents))
  {
    var x := b[|Stem(a, k)|..];
    assert b == Stem(a, k) + x && |b| > |a|;
    if k == ProcessorKind {
      var name := InnerName(x, ReceiverKind, "r");
      KeyContinues(a, b, x, k, ReceiverKind, "r");
      DanglingReceiver(a, b, name, "r");
      agents := [Lone(a, OneProcessor(name)), Lone(b, OneReceiver("r"))];
      TwoAreInput(a, b, OneProcessor(name), OneReceiver("r"));
    } else {
      agents := ContinuedIdsDangleToo(a, b, x, k);
    }
  }

  lemma ContinuedIdsDangleToo(a: string, b: string, x: string, k: Kind) returns (agents: seq<Agent>)
    requires b == Stem(a, k) + x && a != b && (k == ReceiverKind || k == ExporterKind)
    ensures Input(agents) && IdsOf(agents) == {a, b} && !Closed(TopologyOf(agents))
  {
    var name := InnerName(x, ProcessorKind, "r");
    assert name[|name| - 1] == 'r' && "debug"[4] == 'g';
    KeyContinues(a, b, x, k, ProcessorKind, "r");
    if k == ReceiverKind {
      DanglingReceiver(b, a, "r", name);
      agents := [Lone(b, OneProcessor("r")), Lone(a, OneReceiver(name))];
      TwoAreInput(b, a, OneProcessor("r"), OneReceiver(name));
    } else {
      DanglingExporter(b, a, "r", name);
      agents := [Lone(b, OneProcessor("r")), Lone(a, OneExporter(name, map[name := ""]))];
      TwoAreInput(b, a, OneProcessor("r"), OneExporter(name, map[name := ""]));
    }
  }

  // ---- Cycles ---------------------------------------------------------------------------------------

  lemma SameAgentKeysDiffer(c: Component, d: Component)
    requires InPipeline(c) && InPipeline(d) && c.kind != d.kind && c.agentId == d.agentId
    ensures ComponentKey(c) != ComponentKey(d)
  {
    if ComponentKey(c) == ComponentKey(d) {
      SameKeySameTail(c, d);
      SameTailContinues(c, d);
      assert false;
    }
  }

  function Through(receiver: string, exporter: string): Pipeline {
    Pipeline(LOGS, [receiver], [], [exporter], map[], {}, false)
  }

  /** The id that stands for component `c`, whether it is known to the graph or not. */
  function IdIn(g: Graph, c: Component): string {
    if ComponentKey(c) in g.componentNodeMap then g.componentNodeMap[ComponentKey(c)] else NodeId(c)
  }

  lemma ThroughSteps(g: Graph, id: string, receiver: string, exporter: string)
    ensures var r, e := Component(ReceiverKind, id, receiver, LOGS), Component(ExporterKind, id, exporter, LOGS);
            WithPipeline(g, id, Through(receiver, exporter)) == WithExporter(WithReceiver(g, r), e, map[], [IdIn(g, r)])
  {
    var pl, r := Through(receiver, exporter), Component(ReceiverKind, id, receiver, LOGS);
    assert [receiver][..0] == [] && [exporter][..0] == [] && !Skipped(pl);
    assert WithReceivers(g, id, LOGS, []) == Built(g, []);
    var rs := WithReceivers(g, id, LOGS, [receiver]);
    assert rs == Built(WithReceiver(g, r), [IdIn(g, r)]);
    assert WithProcessors(rs.graph, id, pl, [], rs.ids) == Built(rs.graph, []);
    assert WithExporters(rs.graph, id, pl, [], rs.ids) == rs.graph;
  }

  /** A receiver and an exporter are linked by the ids that stand for them. */
  lemma ThroughEdge(g: Graph, id: string, receiver: string, exporter: string)
    requires exporter != "debug"
    ensures var r, e := Component(ReceiverKind, id, receiver, LOGS), Component(ExporterKind, id, exporter, LOGS);
            HasEdge(WithPipeline(g, id, Through(receiver, exporter)), IdIn(g, r), IdIn(g, e))
    ensures forall x, y :: HasEdge(g, x, y) ==> HasEdge(WithPipeline(g, id, Through(receiver, exporter)), x, y)
  {
    var r, e := Component(ReceiverKind, id, receiver, LOGS), Component(ExporterKind, id, exporter, LOGS);
    var h, end := WithReceiver(g, r), WithPipeline(g, id, Through(receiver, exporter));
    SameAgentKeysDiffer(r, e);
    ThroughSteps(g, id, receiver, exporter);
    FanMember([IdIn(g, r)], IdIn(g, e), LOGS, Edge(IdIn(g, r), IdIn(g, e), LOGS, LOGS));
    assert end.edges == h.edges + Fan([IdIn(g, r)], IdIn(g, e), LOGS);
    assert Edge(IdIn(g, r), IdIn(g, e), LOGS, LOGS) in end.edges;
    forall x, y | HasEdge(g, x, y) ensures HasEdge(end, x, y) {
      var f :| f in g.edges && f.from == x && f.to == y;
      assert f in end.edges;
    }
  }

  /** The graph before the pipeline of agent `y`, after an agent `x`. */
  function BeforeSecond(x: Agent, y: string): Graph {
    AddNodeOnce(TopologyOf([x]), Node(AgentNodeId(y), AgentKind, "", y, ""))
  }

  lemma SecondAgent(x: Agent, y: string, pl: Pipeline)
    requires |x.pipelines| == 1
    ensures TopologyOf([x, Lone(y, pl)]) == WithPipeline(BeforeSecond(x, y), y, pl)
  {
    TwoAgents(x, Lone(y, pl));
  }

  /** An agent with one receiver, or one exporter, leaves one key behind. */
  lemma OneKey(x: string, l: Kind)
    requires l == ReceiverKind || l == ExporterKind
    ensures var c := Component(l, x, "e", LOGS);
            TopologyOf([Lone(x, OneOf(l))]).componentNodeMap == map[ComponentKey(c) := NodeId(c)]
  {
    var g := AddNodeOnce(EMPTY_GRAPH, Node(AgentNodeId(x), AgentKind, "", x, ""));
    TwoAgents(Lone(x, OneOf(l)), Lone(x, OneOf(l)));
    if l == ReceiverKind {
      LoneReceiver(g, x, "e");
    } else {
      LoneExporter(g, x, "e", map[]);
    }
  }

  function OneOf(l: Kind): Pipeline {
    if l == ReceiverKind then OneReceiver("e") else OneExporter("e", map[])
  }

  /** The id of a component of `b` is that of one of `a`, too. */
  lemma SameNodeId(a: string, b: string, x: string, k: Kind, l: Kind)
    requires b == Stem(a, k) + x
    ensures NodeId(Component(l, b, "e", LOGS)) == NodeId(Component(l, a, KindName(k) + "/" + x + "-e", LOGS))
  {
    assert Stem(a, k) == a + "-" + (KindName(k) + "/");
    Shift("agent-", a, "-", KindName(k) + "/", x, "-e");
    assert AgentNodeId(b) + "-" + "e" == "agent-" + b + "-e";
    assert AgentNodeId(a) + "-" + (KindName(k) + "/" + x + "-e") == "agent-" + a + "-" + (KindName(k) + "/" + x + "-e");
  }

  lemma Shift(p: string, a: string, d: string, k: string, x: string, e: string)
    ensures p + (a + d + k + x) + e == p + a + d + (k + x + e)
  {
  }

  lemma NotDebug(s: string, c: char)
    requires s != [] && s[|s| - 1] == c != 'g'
    ensures s != "debug"
  {
    assert "debug"[4] == 'g';
  }

  /** After agent `x`, a receiver and an exporter of agent `y` are linked; if the first graph leads
      from the one's id back to the other's, or they are the same, there is a cycle. */
  lemma LoopsBack(x: Agent, y: string, receiver: string, exporter: string)
    requires |x.pipelines| == 1 && exporter != "debug"
    requires var g := BeforeSecond(x, y);
             var r := IdIn(g, Component(ReceiverKind, y, receiver, LOGS));
             var e := IdIn(g, Component(ExporterKind, y, exporter, LOGS));
             r == e || HasEdge(g, e, r)
    ensures !Acyclic(TopologyOf([x, Lone(y, Through(receiver, exporter))]))
  {
    var g, end := BeforeSecond(x, y), TopologyOf([x, Lone(y, Through(receiver, exporter))]);
    var r := IdIn(g, Component(ReceiverKind, y, receiver, LOGS));
    var e := IdIn(g, Component(ExporterKind, y, exporter, LOGS));
    SecondAgent(x, y, Through(receiver, exporter));
    ThroughEdge(g, y, receiver, exporter);
    HasCycle(end, r, e);
  }

  lemma HasCycle(g: Graph, x: string, y: string)
    requires HasEdge(g, x, y) && (x == y || HasEdge(g, y, x))
    ensures !Acyclic(g)
  {
    if x == y {
      assert Linked(g, [x, y]);
    } else {
      assert Linked(g, [y, x, y]);
    }
  }

  function Outer(k: Kind, x: string): string {
    KindName(k) + "/" + x + "-e"
  }

  lemma SelfLoopIds(a: string, b: string, x: string, k: Kind, l: Kind, g: Graph)
    requires b == Stem(a, k) + x && InPipeline(Component(k, a, "", "")) && InPipeline(Component(l, a, "", "")) && k != l
    requires var d := Component(l, b, "e", LOGS); g.componentNodeMap == map[ComponentKey(d) := NodeId(d)]
    ensures var id := NodeId(Component(l, b, "e", LOGS));
            && IdIn(g, Component(k, a, InnerName(x, l, "e"), LOGS)) == id
            && IdIn(g, Component(l, a, Outer(k, x), LOGS)) == id
  {
    var c, e := Component(k, a, InnerName(x, l, "e"), LOGS), Component(l, a, Outer(k, x), LOGS);
    KeyContinues(a, b, x, k, l, "e");
    SameNodeId(a, b, x, k, l);
    SameAgentKeysDiffer(c, e);
  }

  lemma NotDebugNames(x: string, k: Kind, l: Kind)
    ensures InnerName(x, l, "e") != "debug" && Outer(k, x) != "debug"
  {
    NotDebug(InnerName(x, l, "e"), 'e');
    NotDebug(Outer(k, x), 'e');
  }

  /** Agent `b` has one component; to agent `a`, whose id it continues, it is a receiver and an
      exporter at once. */
  lemma SelfLoop(a: string, b: string, x: string, k: Kind) returns (agents: seq<Agent>)
    requires b == Stem(a, k) + x && a != b && (k == ReceiverKind || k == ExporterKind)
    ensures Input(agents) && IdsOf(agents) == {a, b} && !Acyclic(TopologyOf(agents))
  {
    var l := if k == ReceiverKind then ExporterKind else ReceiverKind;
    var inner, outer := InnerName(x, l, "e"), Outer(k, x);
    var receiver, exporter := if k == ReceiverKind then inner else outer, if k == ReceiverKind then outer else inner;
    agents := [Lone(b, OneOf(l)), Lone(a, Through(receiver, exporter))];
    TwoAreInput(b, a, OneOf(l), Through(receiver, exporter));
    OneKey(b, l);
    SelfLoopIds(a, b, x, k, l, BeforeSecond(Lone(b, OneOf(l)), a));
    NotDebugNames(x, k, l);
    LoopsBack(Lone(b, OneOf(l)), a, receiver, exporter);
  }

  lemma SameAffixes(before: string, n: string, m: string, after: string)
    requires before + n + after == before + m + after
    ensures n == m
  {
    var s := before + n + after;
    assert |n| == |m|;
    assert n == s[|before|..|before| + |n|] && m == s[|before|..|before| + |m|];
  }

  /** Components that differ in the name only have different keys and ids. */
  lemma NamesTellApart(c: Component, d: Component)
    requires c == d.(name := c.name)
    ensures ComponentKey(c) == ComponentKey(d) ==> c == d
    ensures NodeId(c) == NodeId(d) ==> c == d
  {
    NameInKey(c);
    NameInKey(d);
    NameInId(c);
    NameInId(d);
    var key, id, after := KeyStart(c), IdStart(c), "-" + c.pipelineType;
    if key + c.name + after == key + d.name + after { SameAffixes(key, c.name, d.name, after); }
    if id + c.name + after == id + d.name + after { SameAffixes(id, c.name, d.name, after); }
  }

  function KeyStart(c: Component): string {
    AgentNodeId(c.agentId) + "-" + KindName(c.kind) + "/"
  }

  function IdStart(c: Component): string {
    KindName(c.kind) + "-" + AgentNodeId(c.agentId) + "-"
  }

  lemma NameInKey(c: Component)
    ensures ComponentKey(c) == KeyStart(c) + c.name + ("-" + c.pipelineType)
  {
  }

  lemma NameInId(c: Component)
    ensures NodeId(c) == IdStart(c) + c.name + ("-" + c.pipelineType)
  {
  }

  function TwoProcessors(n: string, m: string): Pipeline {
    Pipeline(LOGS, [], [n, m], [], map[], {n, m}, false)
  }

  lemma ShownStep(b: Built, c: Component, shown: set<string>, sources: seq<string>)
    requires ComponentKey(c) !in b.graph.componentNodeMap && NodeId(c) !in b.graph.nodeMap && c.name in shown
    ensures var r := WithProcessor(b, c, shown, sources);
            && r.graph.componentNodeMap == b.graph.componentNodeMap[ComponentKey(c) := NodeId(c)]
            && r.graph.nodeMap == b.graph.nodeMap + {NodeId(c)} && r.ids == b.ids + [NodeId(c)]
            && (b.ids != [] ==> HasEdge(r.graph, b.ids[|b.ids| - 1], NodeId(c)))
  {
    var r := WithProcessor(b, c, shown, sources);
    if b.ids != [] {
      assert Edge(b.ids[|b.ids| - 1], NodeId(c), c.pipelineType, c.pipelineType) in r.graph.edges;
    }
  }

  lemma TwoProcessorsSteps(g: Graph, x: string, n: string, m: string)
    ensures var pl, sources := TwoProcessors(n, m), [AgentNodeId(x)];
            var one := WithProcessor(Built(g, []), Component(ProcessorKind, x, n, LOGS), pl.shown, sources);
            WithPipeline(g, x, pl) == WithProcessor(one, Component(ProcessorKind, x, m, LOGS), pl.shown, sources).graph
  {
    var pl, sources := TwoProcessors(n, m), [AgentNodeId(x)];
    assert [n, m][..1] == [n] && [n][..0] == [] && !Skipped(pl);
    assert WithReceivers(g, x, LOGS, []) == Built(g, []);
    assert WithProcessors(g, x, pl, [], sources) == Built(g, []);
    var one := WithProcessor(Built(g, []), Component(ProcessorKind, x, n, LOGS), pl.shown, sources);
    assert WithProcessors(g, x, pl, [n], sources) == one;
  }

  /** Two processors that are shown are known by their keys and linked. */
  lemma TwoShown(x: string, n: string, m: string)
    requires n != m
    ensures var c, d := Component(ProcessorKind, x, n, LOGS), Component(ProcessorKind, x, m, LOGS);
            var g := TopologyOf([Lone(x, TwoProcessors(n, m))]);
            && g.componentNodeMap == map[ComponentKey(c) := NodeId(c), ComponentKey(d) := NodeId(d)]
            && HasEdge(g, NodeId(c), NodeId(d))
  {
    var pl, c, d := TwoProcessors(n, m), Component(ProcessorKind, x, n, LOGS), Component(ProcessorKind, x, m, LOGS);
    var g := AddNodeOnce(EMPTY_GRAPH, Node(AgentNodeId(x), AgentKind, "", x, ""));
    TwoAgents(Lone(x, pl), Lone(x, pl));
    TwoProcessorsSteps(g, x, n, m);
    TwoApart(c, d);
    ShownStep(Built(g, []), c, pl.shown, [AgentNodeId(x)]);
    ShownStep(WithProcessor(Built(g, []), c, pl.shown, [AgentNodeId(x)]), d, pl.shown, [AgentNodeId(x)]);
  }

  lemma TwoApart(c: Component, d: Component)
    requires c.kind == ProcessorKind && c.name != d.name && d == c.(name := d.name)
    ensures ComponentKey(c) != ComponentKey(d) && NodeId(c) != NodeId(d)
    ensures NodeId(c) != AgentNodeId(c.agentId) && NodeId(d) != AgentNodeId(c.agentId)
  {
    NamesTellApart(c, d);
    KindOfNodeId(c);
    KindOfNodeId(d);
    KindOfOthers(c.agentId, "");
  }

  lemma ProcessorLoopIds(a: string, b: string, x: string, n: string, m: string, g: Graph)
    requires b == Stem(a, ProcessorKind) + x && n != m
    requires n == InnerName(x, ExporterKind, "e") && m == InnerName(x, ReceiverKind, "r")
    requires var c, d := Component(ProcessorKind, a, n, LOGS), Component(ProcessorKind, a, m, LOGS);
             g.componentNodeMap == map[ComponentKey(c) := NodeId(c), ComponentKey(d) := NodeId(d)]
    ensures IdIn(g, Component(ExporterKind, b, "e", LOGS)) == NodeId(Component(ProcessorKind, a, n, LOGS))
    ensures IdIn(g, Component(ReceiverKind, b, "r", LOGS)) == NodeId(Component(ProcessorKind, a, m, LOGS))
  {
    NamesTellApart(Component(ProcessorKind, a, n, LOGS), Component(ProcessorKind, a, m, LOGS));
    KeyContinues(a, b, x, ProcessorKind, ExporterKind, "e");
    KeyContinues(a, b, x, ProcessorKind, ReceiverKind, "r");
  }

  /** Two processors of agent `a` are the exporter and the receiver of agent `b`. */
  lemma ProcessorLoop(a: string, b: string, x: string) returns (agents: seq<Agent>)
    requires b == Stem(a, ProcessorKind) + x && a != b
    ensures Input(agents) && IdsOf(agents) == {a, b} && !Acyclic(TopologyOf(agents))
  {
    var n, m := InnerName(x, ExporterKind, "e"), InnerName(x, ReceiverKind, "r");
    assert n[|n| - 1] == 'e' && m[|m| - 1] == 'r';
    var first := Lone(a, TwoProcessors(n, m));
    agents := [first, Lone(b, Through("r", "e"))];
    TwoAreInput(a, b, TwoProcessors(n, m), Through("r", "e"));
    TwoShown(a, n, m);
    var g := BeforeSecond(first, b);
    ProcessorLoopIds(a, b, x, n, m, g);
    assert g.edges == TopologyOf([first]).edges;
    NotDebug("e", 'e');
    LoopsBack(first, b, "r", "e");
  }

  /** Agents of which one id continues the other one, by any kind, can be configured so that the
      graph has a cycle. */
  lemma ContinuedIdsCycle(a: string, b: string, k: Kind) returns (agents: seq<Agent>)
    requires Continues(a, b, k)
    ensures Input(agents) && IdsOf(agents) == {a, b} && !Acyclic(TopologyOf(agents))
  {
    var x := b[|Stem(a, k)|..];
    assert b == Stem(a, k) + x && |b| > |a|;
    if k == ProcessorKind {
      agents := ProcessorLoop(a, b, x);
    } else {
      agents := SelfLoop(a, b, x, k);
    }
  }

  /** Main result: the graphs of all configurations of some agents are without cycles exactly if no
      id among them continues another one where its keys have the kind. */
  lemma AcyclicIffSafeIds(ids: set<string>)
    ensures (forall agents :: Input(agents) && IdsOf(agents) <= ids ==> Acyclic(TopologyOf(agents)))
        <==> SafeIds(ids)
  {
    if SafeIds(ids) {
      forall agents | Input(agents) && IdsOf(agents) <= ids ensures Acyclic(TopologyOf(agents)) {
        SafeIdsDoNotClash(agents);
        WellFormedWithoutClash(agents);
      }
    } else {
      var a, b, k :| a in ids && b in ids && Continues(a, b, k);
      var agents := ContinuedIdsCycle(a, b, k);
      assert !Acyclic(TopologyOf(agents));
    }
  }

  /** Main result: and exactly then, all their edges end at nodes. */
  lemma ClosedIffSafeIds(ids: set<string>)
    ensures (forall agents :: Input(agents) && IdsOf(agents) <= ids ==> Closed(TopologyOf(agents)))
        <==> SafeIds(ids)
  {
    if SafeIds(ids) {
      forall agents | Input(agents) && IdsOf(agents) <= ids ensures Closed(TopologyOf(agents)) {
        SafeIdsDoNotClash(agents);
        WellFormedWithoutClash(agents);
      }
    } else {
      var a, b, k :| a in ids && b in ids && Continues(a, b, k);
      var agents := ContinuedIdsDangle(a, b, k);
      assert !Closed(TopologyOf(agents));
    }
  }

  lemma WellFormedIffSafeIds(ids: set<string>)
    ensures (forall agents :: Input(agents) && IdsOf(agents) <= ids ==> WellFormed(TopologyOf(agents)))
        <==> SafeIds(ids)
  {
    AcyclicIffSafeIds(ids);
    ClosedIffSafeIds(ids);
  }
}
