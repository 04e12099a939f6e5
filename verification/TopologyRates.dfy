/** The sent rates that the topology shows at an agent: the builder sums them up over the data that
    is shared with the exporter nodes (internal/examples/opamp-api-and-mcp-server/internal/topology/topology.go). */
module TopologyRates {
  import opened Topology
  import opened TopologyShape
  import opened TopologyCycles
  import opened TopologyEdges
  import opened TopologyNodes

  class NodeDataTransfer {
    var spansSentRate: real
    var logsSentRate: real
    var metricsSentRate: real

    constructor (spans: real, logs: real, metrics: real)
      ensures spansSentRate == spans && logsSentRate == logs && metricsSentRate == metrics
    {
      spansSentRate, logsSentRate, metricsSentRate := spans, logs, metrics;
    }

    function Sent(pipelineType: string): real
      reads this
    {
      match pipelineType
      case "traces" => spansSentRate
      case "logs" => logsSentRate
      case "metrics" => metricsSentRate
      case _ => 0.0
    }
  }

  /** A component's name and the type of its pipeline.  Receivers, processors and exporters of the
      same name share their data. */
  type Place = (string, string)

  ghost function RateAt(data: map<Place, NodeDataTransfer>, p: string, name: string): real
    reads data.Values
  {
    if (name, p) in data then data[(name, p)].Sent(p) else 0.0
  }

  /** The sum of what is sent at the places of some names, as often as they occur. */
  ghost function Total(data: map<Place, NodeDataTransfer>, p: string, names: seq<string>): real
    reads data.Values
  {
    if names == [] then 0.0 else Total(data, p, names[..|names| - 1]) + RateAt(data, p, names[|names| - 1])
  }

  /** The same over all pipelines of a type. */
  ghost function TotalOf(data: map<Place, NodeDataTransfer>, pls: seq<Pipeline>, p: string): real
    reads data.Values
  {
    if pls == [] then 0.0
    else
      var pl := pls[|pls| - 1];
      TotalOf(data, pls[..|pls| - 1], p) + if pl.pipelineType == p then Total(data, p, Listed(pl.exporters)) else 0.0
  }

  lemma {:induction false} NoOther(data: map<Place, NodeDataTransfer>, pls: seq<Pipeline>, p: string)
    requires forall pl <- pls :: pl.pipelineType != p
    ensures TotalOf(data, pls, p) == 0.0
  {
    if pls != [] {
      NoOther(data, pls[..|pls| - 1], p);
    }
  }

  /** Among pipelines of distinct types, each type's sum is that of its one pipeline. */
  lemma {:induction false} OnlyOne(data: map<Place, NodeDataTransfer>, pls: seq<Pipeline>, k: nat)
    requires DistinctTypes(pls) && k < |pls|
    ensures TotalOf(data, pls, pls[k].pipelineType) == Total(data, pls[k].pipelineType, Listed(pls[k].exporters))
  {
    var before := pls[..|pls| - 1];
    if k == |before| {
      NoOther(data, before, pls[k].pipelineType);
    } else {
      OnlyOne(data, before, k);
    }
  }

  // ---- Sums over lists of names --------------------------------------------------------------------

  lemma {:induction false} TotalConcat(data: map<Place, NodeDataTransfer>, p: string, s: seq<string>, t: seq<string>)
    ensures Total(data, p, s + t) == Total(data, p, s) + Total(data, p, t)
  {
    if t == [] {
      assert s + t == s;
    } else {
      TotalConcat(data, p, s, t[..|t| - 1]);
      assert (s + t)[..|s + t| - 1] == s + t[..|t| - 1];
    }
  }

  lemma TotalWithoutOne(data: map<Place, NodeDataTransfer>, p: string, t: seq<string>, k: nat)
    requires k < |t|
    ensures Total(data, p, t) == Total(data, p, t[..k] + t[k + 1..]) + RateAt(data, p, t[k])
  {
    assert t == t[..k] + ([t[k]] + t[k + 1..]);
    TotalConcat(data, p, t[..k], t[k + 1..]);
    TotalConcat(data, p, t[..k], [t[k]] + t[k + 1..]);
    TotalConcat(data, p, [t[k]], t[k + 1..]);
    assert Total(data, p, [t[k]]) == RateAt(data, p, t[k]);
  }

  lemma NothingIn(t: seq<string>)
    ensures t == [] <==> forall n :: n !in t
  {
    if t != [] {
      assert t[0] in t;
    }
  }

  /** Lists without repeats of the same names have the same sum. */
  lemma {:induction false} SameTotal(data: map<Place, NodeDataTransfer>, p: string, s: seq<string>, t: seq<string>)
    requires NoRepeats(s) && NoRepeats(t) && forall n :: n in s <==> n in t
    ensures Total(data, p, s) == Total(data, p, t)
  {
    if s == [] {
      NothingIn(t);
    } else {
      var last := |s| - 1;
      assert s[last] in t;
      var k :| 0 <= k < |t| && t[k] == s[last];
      WithoutOne(t, k);
      WithoutOne(s, last);
      assert s[..last] + s[last + 1..] == s[..last];
      forall m ensures m in s[..last] <==> m in t[..k] + t[k + 1..] {
        assert m in s[..last] + s[last + 1..] <==> m in s && m != s[last];
      }
      SameTotal(data, p, s[..last], t[..k] + t[k + 1..]);
      TotalWithoutOne(data, p, t, k);
    }
  }

  lemma WithoutOne(t: seq<string>, k: nat)
    requires NoRepeats(t) && k < |t|
    ensures NoRepeats(t[..k] + t[k + 1..])
    ensures forall m :: m in t[..k] + t[k + 1..] <==> m in t && m != t[k]
  {
    var rest := t[..k] + t[k + 1..];
    forall m | m in t && m != t[k] ensures m in rest {
      var i :| 0 <= i < |t| && t[i] == m;
      assert rest[if i < k then i else i - 1] == m;
    }
  }

  /** The names, each where it occurs first... */
  function Firsts(names: seq<string>): seq<string> {
    if names == [] then []
    else
      var before, n := names[..|names| - 1], names[|names| - 1];
      if n in before then Firsts(before) else Firsts(before) + [n]
  }

  /** ... and the later occurrences. */
  function Repeats(names: seq<string>): seq<string> {
    if names == [] then []
    else
      var before, n := names[..|names| - 1], names[|names| - 1];
      if n in before then Repeats(before) + [n] else Repeats(before)
  }

  lemma {:induction false} FirstsOf(names: seq<string>)
    ensures NoRepeats(Firsts(names)) && forall n :: n in Firsts(names) <==> n in names
  {
    if names != [] {
      var before := names[..|names| - 1];
      assert names == before + [names[|names| - 1]];
      FirstsOf(before);
    }
  }

  lemma {:induction false} FirstsAndRepeats(data: map<Place, NodeDataTransfer>, p: string, names: seq<string>)
    ensures Total(data, p, names) == Total(data, p, Firsts(names)) + Total(data, p, Repeats(names))
  {
    if names != [] {
      var before, n := names[..|names| - 1], names[|names| - 1];
      FirstsAndRepeats(data, p, before);
      assert (Firsts(before) + [n])[..|Firsts(before)|] == Firsts(before);
      assert (Repeats(before) + [n])[..|Repeats(before)|] == Repeats(before);
    }
  }

  ghost predicate NoNegativeRates(data: map<Place, NodeDataTransfer>)
    reads data.Values
  {
    forall place <- data :: data[place].Sent(place.1) >= 0.0
  }

  lemma {:induction false} TotalIsZero(data: map<Place, NodeDataTransfer>, p: string, names: seq<string>)
    requires NoNegativeRates(data)
    ensures Total(data, p, names) >= 0.0
    ensures Total(data, p, names) == 0.0 <==> forall n <- names :: RateAt(data, p, n) == 0.0
  {
    if names != [] {
      TotalIsZero(data, p, names[..|names| - 1]);
      assert names == names[..|names| - 1] + [names[|names| - 1]];
    }
  }

  lemma {:induction false} SharedTotal(data: map<Place, NodeDataTransfer>, nodes: map<Place, NodeDataTransfer>,
                                       p: string, names: seq<string>)
    requires forall n <- names :: (n, p) in nodes <==> (n, p) in data
    requires forall n <- names :: (n, p) in nodes ==> nodes[(n, p)] == data[(n, p)]
    ensures Total(data, p, names) == Total(nodes, p, names)
  {
    if names != [] {
      SharedTotal(data, nodes, p, names[..|names| - 1]);
      assert names[|names| - 1] in names;
    }
  }

  // ---- The data of one agent -----------------------------------------------------------------------

  class AgentTopology {
    var componentData: map<Place, NodeDataTransfer>
    var exporterNodes: map<Place, NodeDataTransfer>
    const agentData: NodeDataTransfer

    /** A node shows the data of its place; the summary is not the data of another place. */
    ghost predicate Valid()
      reads this
    {
      && (forall p <- exporterNodes :: p in componentData && componentData[p] == exporterNodes[p])
      && (forall p <- componentData :: componentData[p] == agentData ==> p == ("agent", "all"))
    }

    /** The data of components, without the summary. */
    ghost function Places(): map<Place, NodeDataTransfer>
      reads this
    {
      componentData - {("agent", "all")}
    }

    /** What the exporter nodes show. */
    ghost function Shown(): map<Place, NodeDataTransfer>
      reads this
    {
      exporterNodes - {("agent", "all")}
    }

    /** The state after the metrics were read. */
    constructor (componentData: map<Place, NodeDataTransfer>, agentData: NodeDataTransfer)
      requires forall p <- componentData :: componentData[p] != agentData
      ensures Valid() && this.agentData == agentData && exporterNodes == map[]
      ensures this.componentData == componentData[("agent", "all") := agentData]
    {
      this.agentData := agentData;
      this.componentData := componentData[("agent", "all") := agentData];
      exporterNodes := map[];
    }

    /** The data that a node shows: what is there, or else new data, which is kept. */
    method DataFor(place: Place, spans: real, logs: real, metrics: real) returns (d: NodeDataTransfer)
      requires Valid()
      modifies this`componentData
      ensures Valid() && place in componentData && componentData[place] == d
      ensures place in old(componentData) ==> componentData == old(componentData)
      ensures place !in old(componentData) ==> fresh(d) && componentData == old(componentData)[place := d]
    {
      if place in componentData { return componentData[place]; }
      d := new NodeDataTransfer(spans, logs, metrics);
      componentData := componentData[place := d];
    }

    method BuildExporterNode(name: string, pipelineType: string, spans: real, logs: real, metrics: real)
      requires Valid()
      modifies this
      ensures Valid()
      ensures name == "debug" ==> exporterNodes == old(exporterNodes)
      ensures name != "debug" ==> exporterNodes.Keys == old(exporterNodes).Keys + {(name, pipelineType)}
      ensures forall p <- old(exporterNodes) :: p in exporterNodes && exporterNodes[p] == old(exporterNodes)[p]
    {
      if name == "debug" { return; }
      if (name, pipelineType) !in exporterNodes {
        var d := DataFor((name, pipelineType), spans, logs, metrics);
        exporterNodes := exporterNodes[(name, pipelineType) := d];
      }
    }

    /** The exporter nodes of a pipeline; the rates of new data are left open. */
    method BuildExporterNodes(pl: Pipeline)
      requires Valid()
      modifies this
      ensures Valid() && (forall n <- Listed(pl.exporters) :: (n, pl.pipelineType) in exporterNodes)
      ensures old(exporterNodes).Keys <= exporterNodes.Keys
    {
      for i := 0 to |pl.exporters|
        invariant Valid() && old(exporterNodes).Keys <= exporterNodes.Keys
        invariant forall n <- Listed(pl.exporters[..i]) :: (n, pl.pipelineType) in exporterNodes
      {
        var spans: real, logs: real, metrics: real := *, *, *;
        BuildExporterNode(pl.exporters[i], pl.pipelineType, spans, logs, metrics);
        assert pl.exporters[..i + 1][..i] == pl.exporters[..i];
      }
      assert pl.exporters[..|pl.exporters|] == pl.exporters;
    }

    method AddSent(d: NodeDataTransfer, pipelineType: string)
      requires d != agentData || pipelineType == "all"
      modifies agentData
      ensures forall p: string ::
                agentData.Sent(p) == old(agentData.Sent(p)) + if p == pipelineType then old(d.Sent(p)) else 0.0
      ensures pipelineType == "traces" ==> agentData.spansSentRate == old(agentData.spansSentRate + d.spansSentRate)
      ensures pipelineType == "logs" ==> agentData.logsSentRate == old(agentData.logsSentRate + d.logsSentRate)
      ensures pipelineType == "metrics" ==>
                agentData.metricsSentRate == old(agentData.metricsSentRate + d.metricsSentRate)
    {
      match pipelineType
      case "traces" => agentData.spansSentRate := agentData.spansSentRate + d.spansSentRate;
      case "logs" => agentData.logsSentRate := agentData.logsSentRate + d.logsSentRate;
      case "metrics" => agentData.metricsSentRate := agentData.metricsSentRate + d.metricsSentRate;
      case _ =>
    }

    /** The next exporter of a list adds its rate, unless it is debug. */
    static lemma TotalStep(data: map<Place, NodeDataTransfer>, p: string, names: seq<string>, i: nat)
      requires i < |names|
      ensures Total(data, p, Listed(names[..i + 1])) == Total(data, p, Listed(names[..i]))
                + if names[i] == "debug" then 0.0 else RateAt(data, p, names[i])
    {
      assert names[..i + 1][..i] == names[..i];
      var listed := Listed(names[..i]);
      assert (listed + [names[i]])[..|listed|] == listed;
    }

    method SummarizePipeline(pl: Pipeline)
      requires Valid()
      modifies agentData
      ensures forall p: string :: agentData.Sent(p) == old(agentData.Sent(p))
                + if p == pl.pipelineType then old(Total(Places(), p, Listed(pl.exporters))) else 0.0
      ensures Valid()
    {
      ghost var t := pl.pipelineType;
      assert Total(Places(), t, Listed(pl.exporters[..0])) == 0.0;
      for i := 0 to |pl.exporters|
        invariant forall p: string, s: seq<string> :: Total(Places(), p, s) == old(Total(Places(), p, s))
        invariant forall p: string :: agentData.Sent(p) ==
                    old(agentData.Sent(p)) + if p == t then Total(Places(), t, Listed(pl.exporters[..i])) else 0.0
      {
        AddExporter(pl.exporters[i], pl.pipelineType);
        TotalStep(Places(), t, pl.exporters, i);
      }
      assert pl.exporters[..|pl.exporters|] == pl.exporters;
    }

    /** What one listed exporter adds. */
    method AddExporter(name: string, pipelineType: string)
      requires Valid()
      modifies agentData
      ensures forall p: string :: agentData.Sent(p) == old(agentData.Sent(p))
                + if p == pipelineType && name != "debug" then old(RateAt(Places(), p, name)) else 0.0
      ensures RateAt(Places(), pipelineType, name) == old(RateAt(Places(), pipelineType, name))
      ensures forall p: string, s: seq<string> :: Total(Places(), p, s) == old(Total(Places(), p, s))
    {
      var place := (name, pipelineType);
      if name != "debug" && place in componentData {
        assert place in Places() || place.1 == "all";
        AddSent(componentData[place], pipelineType);
      }
    }

    method Summarize(pls: seq<Pipeline>)
      requires Valid()
      modifies agentData
      ensures Valid() && forall p: string :: agentData.Sent(p) == TotalOf(Places(), pls, p)
    {
      agentData.spansSentRate, agentData.logsSentRate, agentData.metricsSentRate := 0.0, 0.0, 0.0;
      for i := 0 to |pls|
        invariant forall p: string :: agentData.Sent(p) == TotalOf(Places(), pls[..i], p)
      {
        assert pls[..i + 1][..i] == pls[..i];
        SummarizePipeline(pls[i]);
      }
      assert pls[..|pls|] == pls;
    }

    /** The exporter nodes of all pipelines that are not skipped, and then the summary. */
    method BuildAgent(pls: seq<Pipeline>)
      requires Valid() && DistinctTypes(pls)
      modifies this, agentData
      ensures Valid()
      ensures forall k | 0 <= k < |pls| && !Skipped(pls[k]) ::
                agentData.Sent(pls[k].pipelineType) == Total(Shown(), pls[k].pipelineType, Listed(pls[k].exporters))
    {
      for i := 0 to |pls|
        invariant Valid()
        invariant forall k | 0 <= k < i && !Skipped(pls[k]) ::
                    forall n <- Listed(pls[k].exporters) :: (n, pls[k].pipelineType) in exporterNodes
      {
        if !Skipped(pls[i]) {
          BuildExporterNodes(pls[i]);
        }
      }
      Summarize(pls);
      forall k | 0 <= k < |pls| && !Skipped(pls[k])
        ensures agentData.Sent(pls[k].pipelineType) == Total(Shown(), pls[k].pipelineType, Listed(pls[k].exporters))
      {
        OnlyOne(Places(), pls, k);
        SharedTotal(Places(), Shown(), pls[k].pipelineType, Listed(pls[k].exporters));
      }
    }

    /** The sum over the exporter nodes of the topology graph for a pipeline. */
    ghost function NodeTotal(agents: seq<Agent>, agentId: string, pipelineType: string): real
      reads this, Shown().Values
    {
      Total(Shown(), pipelineType, ExporterNames(TopologyOf(agents).nodes, agentId, pipelineType))
    }

    /** Main result: whatever rates stood there before, the rate of the summary for a pipeline that
        is not skipped is the sum of what the exporter nodes of the topology graph for that pipeline
        show, and once more what is shown by each exporter that is listed again; so it is the sum
        over the nodes exactly if all exporters that are listed again send nothing. */
    method BuildAgentOf(agents: seq<Agent>, a: Agent)
      requires Valid() && Input(agents) && CollisionFree(Components(agents)) && a in agents
      modifies this, agentData
      ensures forall pl | pl in a.pipelines && !Skipped(pl) ::
                var p, again := pl.pipelineType, Repeats(Listed(pl.exporters));
                && agentData.Sent(p) == NodeTotal(agents, a.id, p) + Total(Shown(), p, again)
                && (NoNegativeRates(Shown()) ==>
                      (agentData.Sent(p) == NodeTotal(agents, a.id, p) <==>
                       forall n <- again :: RateAt(Shown(), p, n) == 0.0))
    {
      BuildAgent(a.pipelines);
      forall pl | pl in a.pipelines && !Skipped(pl)
        ensures var p, again := pl.pipelineType, Repeats(Listed(pl.exporters));
                && agentData.Sent(p) == NodeTotal(agents, a.id, p) + Total(Shown(), p, again)
                && (NoNegativeRates(Shown()) ==>
                      (agentData.Sent(p) == NodeTotal(agents, a.id, p) <==>
                       forall n <- again :: RateAt(Shown(), p, n) == 0.0))
      {
        var p, listed := pl.pipelineType, Listed(pl.exporters);
        ExporterNodesAreListed(agents, a, pl);
        FirstsOf(listed);
        FirstsAndRepeats(Shown(), p, listed);
        SameTotal(Shown(), p, Firsts(listed), ExporterNames(TopologyOf(agents).nodes, a.id, p));
        if NoNegativeRates(Shown()) {
          TotalIsZero(Shown(), p, Repeats(listed));
        }
      }
    }
  }
}
