/** When the ids of real agents keep the topology graph in order: ids without a slash never clash,
    and ids of one length, such as UUIDs, never collide in pipelines of the three signals. */
module TopologyIds {
  import opened Topology
  import opened TopologyShape
  import opened TopologyCycles
  import opened TopologyEdges

  lemma ContinuedHasSlash(a: string, b: string, k: Kind)
    requires Continues(a, b, k)
    ensures '/' in b
  {
    var i := |Stem(a, k)| - 1;
    assert Stem(a, k)[i] == '/' && b[i] == Stem(a, k)[i];
  }

  lemma NoSlashIsSafe(ids: set<string>)
    requires forall id <- ids :: '/' !in id
    ensures SafeIds(ids)
  {
    forall a, b, k | a in ids && b in ids ensures !Continues(a, b, k) {
      if Continues(a, b, k) {
        ContinuedHasSlash(a, b, k);
        assert false;
      }
    }
  }

  lemma OneLengthIsSafe(ids: set<string>)
    requires forall a, b :: a in ids && b in ids ==> |a| == |b|
    ensures SafeIds(ids)
  {
  }

  predicate IsSignal(pipelineType: string) {
    pipelineType == "traces" || pipelineType == "logs" || pipelineType == "metrics"
  }

  /** No signal is the end of another one. */
  lemma SignalsTellApart(n: string, p: string, m: string, q: string)
    requires IsSignal(p) && IsSignal(q) && n + "-" + p == m + "-" + q
    ensures n == m && p == q
  {
    var s := n + "-" + p;
    assert s[|s| - 2] == p[|p| - 2] && s[|s| - 2] == q[|q| - 2];
    assert p == q;
    assert "" + n + ("-" + p) == s && "" + m + ("-" + p) == s;
    SameAffixes("", n, m, "-" + p);
  }

  /** Texts that start with ids of one length have the same id and the same rest. */
  lemma SameLengthStart(a: string, r: string, b: string, t: string)
    requires |a| == |b| && a + r == b + t
    ensures a == b && r == t
  {
    assert a == (a + r)[..|a|] && b == (b + t)[..|b|];
    assert r == (a + r)[|a|..] && t == (b + t)[|b|..];
  }

  lemma SameKeyIsSame(c: Component, d: Component)
    requires InPipeline(c) && InPipeline(d) && |c.agentId| == |d.agentId|
    requires IsSignal(c.pipelineType) && IsSignal(d.pipelineType) && ComponentKey(c) == ComponentKey(d)
    ensures c == d
  {
    SameKeySameTail(c, d);
    if c.kind != d.kind {
      SameTailContinues(c, d);
      assert false;
    } else {
      SameLengthStart(Stem(c.agentId, c.kind), c.name + "-" + c.pipelineType,
                      Stem(d.agentId, d.kind), d.name + "-" + d.pipelineType);
      var k := "-" + KindName(c.kind) + "/";
      StemParts(c.agentId, c.kind);
      StemParts(d.agentId, d.kind);
      SameLengthStart(c.agentId, k, d.agentId, k);
      SignalsTellApart(c.name, c.pipelineType, d.name, d.pipelineType);
    }
  }

  function Rest(c: Component): string {
    "-" + (c.name + "-" + c.pipelineType)
  }

  lemma NodeIdParts(c: Component)
    ensures NodeId(c) == (KindName(c.kind) + "-agent-") + (c.agentId + Rest(c))
  {
  }

  lemma SameNodeIdIsSame(c: Component, d: Component)
    requires InPipeline(c) && InPipeline(d) && |c.agentId| == |d.agentId|
    requires IsSignal(c.pipelineType) && IsSignal(d.pipelineType) && NodeId(c) == NodeId(d)
    ensures c == d
  {
    KindOfNodeId(c);
    KindOfNodeId(d);
    NodeIdParts(c);
    NodeIdParts(d);
    var start := KindName(c.kind) + "-agent-";
    SameLengthStart(start, c.agentId + Rest(c), start, d.agentId + Rest(d));
    SameLengthStart(c.agentId, Rest(c), d.agentId, Rest(d));
    SameLengthStart("-", c.name + "-" + c.pipelineType, "-", d.name + "-" + d.pipelineType);
    SignalsTellApart(c.name, c.pipelineType, d.name, d.pipelineType);
  }

  /** Main result: agents with ids of one length whose pipelines are for traces, logs and metrics
      have no colliding components, whatever the components are called. */
  lemma OneLengthDoesNotCollide(agents: seq<Agent>)
    requires forall a, b :: a in agents && b in agents ==> |a.id| == |b.id|
    requires forall c <- Components(agents) :: IsSignal(c.pipelineType)
    ensures CollisionFree(Components(agents))
  {
    var cs := Components(agents);
    ComponentsArePipelined(agents);
    forall c, d | c in cs && d in cs && ComponentKey(c) == ComponentKey(d) ensures c == d {
      SameLengths(agents, c, d);
      SameKeyIsSame(c, d);
    }
    forall c, d | c in cs && d in cs && NodeId(c) == NodeId(d) ensures c == d {
      SameLengths(agents, c, d);
      SameNodeIdIsSame(c, d);
    }
  }

  lemma SameLengths(agents: seq<Agent>, c: Component, d: Component)
    requires forall a, b :: a in agents && b in agents ==> |a.id| == |b.id|
    requires c in Components(agents) && d in Components(agents)
    ensures |c.agentId| == |d.agentId|
  {
    ComponentHasAgent(agents, c);
    ComponentHasAgent(agents, d);
  }
}
