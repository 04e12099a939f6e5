/** The registry of connected agents (internal/examples/server/data/agents.go), and the variant of
    the MCP server (internal/examples/opamp-api-and-mcp-server/internal/data/data.go). */
module Registries {
  import opened Messages

  type Connection = nat

  datatype Entry<T> = Entry(conn: Connection, data: T)

  datatype Registry<T> = Registry(agentsById: map<Uid, Entry<T>>, connections: map<Connection, set<Uid>>)

  function IdsOf<T>(r: Registry<T>, c: Connection): set<Uid> {
    if c in r.connections then r.connections[c] else {}
  }

  function Found<T>(r: Registry<T>, id: Uid, c: Connection, created: T): Registry<T> {
    if id in r.agentsById then r
    else Registry(r.agentsById[id := Entry(c, created)], r.connections[c := IdsOf(r, c) + {id}])
  }

  function Removed<T>(r: Registry<T>, c: Connection): Registry<T> {
    Registry(r.agentsById - IdsOf(r, c), r.connections - {c})
  }

  /** `connections` is the exact inverse of `agentsById`. */
  ghost predicate Inverse<T>(r: Registry<T>) {
    forall c: Connection, id: Uid ::
      id in IdsOf(r, c) <==> id in r.agentsById && r.agentsById[id].conn == c
  }

  lemma FoundKeepsInverse<T>(r: Registry<T>, id: Uid, c: Connection, created: T)
    requires Inverse(r)
    ensures Inverse(Found(r, id, c, created))
  {
    var r' := Found(r, id, c, created);
    forall c': Connection, i: Uid
      ensures i in IdsOf(r', c') <==> i in r'.agentsById && r'.agentsById[i].conn == c'
    {
      assert i in IdsOf(r, c') <==> i in r.agentsById && r.agentsById[i].conn == c';
    }
  }

  /** A removal takes exactly the agents of the connection, and leaves no trace of it. */
  lemma RemovalIsExact<T>(r: Registry<T>, c: Connection)
    requires Inverse(r)
    ensures Inverse(Removed(r, c))
    ensures forall id :: id in Removed(r, c).agentsById <==> id in r.agentsById && r.agentsById[id].conn != c
    ensures forall id <- Removed(r, c).agentsById :: Removed(r, c).agentsById[id] == r.agentsById[id]
  {
    var r' := Removed(r, c);
    forall c': Connection, i: Uid
      ensures i in IdsOf(r', c') <==> i in r'.agentsById && r'.agentsById[i].conn == c'
    {
      assert i in IdsOf(r, c') <==> i in r.agentsById && r.agentsById[i].conn == c';
      assert i in IdsOf(r, c) <==> i in r.agentsById && r.agentsById[i].conn == c;
    }
    forall id ensures id in r'.agentsById <==> id in r.agentsById && r.agentsById[id].conn != c {
      assert id in IdsOf(r, c) <==> id in r.agentsById && r.agentsById[id].conn == c;
    }
  }

  /** The registry of the example server. */
  class Agents<T> {
    var agentsById: map<Uid, Entry<T>>
    var connections: map<Connection, set<Uid>>

    ghost function View(): Registry<T>
      reads this
    {
      Registry(agentsById, connections)
    }

    constructor ()
      ensures View() == Registry(map[], map[]) && Inverse(View())
    {
      agentsById, connections := map[], map[];
    }

    method FindOrCreateAgent(agentId: Uid, conn: Connection, created: T) returns (agent: Entry<T>)
      requires Inverse(View())
      modifies this
      ensures Inverse(View()) && View() == Found(old(View()), agentId, conn, created)
      ensures agentId in agentsById && agent == agentsById[agentId]
      ensures agent == if agentId in old(agentsById) then old(agentsById)[agentId] else Entry(conn, created)
      ensures agentsById - {agentId} == old(agentsById) - {agentId}
    {
      FoundKeepsInverse(View(), agentId, conn, created);
      if agentId !in agentsById {
        agentsById := agentsById[agentId := Entry(conn, created)];
        if conn !in connections {
          connections := connections[conn := {}];
        }
        connections := connections[conn := connections[conn] + {agentId}];
      }
      agent := agentsById[agentId];
      assert View() == Found(old(View()), agentId, conn, created);
    }

    /** Afterwards no agent is on the connection, and all others are as they were. */
    method RemoveConnection(conn: Connection)
      requires Inverse(View())
      modifies this
      ensures Inverse(View()) && View() == Removed(old(View()), conn)
      ensures forall id <- agentsById :: agentsById[id].conn != conn
      ensures forall id <- old(agentsById) :: old(agentsById)[id].conn != conn ==>
                id in agentsById && agentsById[id] == old(agentsById)[id]
    {
      RemovalIsExact(View(), conn);
      ghost var all := IdsOf(View(), conn);
      var ids := if conn in connections then connections[conn] else {};
      while ids != {}
        invariant ids <= all
        invariant agentsById == old(agentsById) - (all - ids)
        invariant connections == old(connections)
        decreases ids
      {
        var id :| id in ids;
        agentsById := agentsById - {id};
        ids := ids - {id};
      }
      connections := connections - {conn};
      assert View() == Removed(old(View()), conn);
    }
  }

  // ---- The variant of the MCP server ---------------------------------------------------------

  datatype McpRegistry = McpRegistry(agentsById: map<Uid, Connection>, connections: map<Connection, set<Uid>>)

  function McpIdsOf(r: McpRegistry, c: Connection): set<Uid> {
    if c in r.connections then r.connections[c] else {}
  }

  /** An agent that dials again moves to the new connection; the old one keeps its id. */
  function McpFound(r: McpRegistry, id: Uid, c: Connection): McpRegistry {
    McpRegistry(r.agentsById[id := c], r.connections[c := McpIdsOf(r, c) + {id}])
  }

  function McpRemoved(r: McpRegistry, c: Connection): McpRegistry {
    McpRegistry(r.agentsById - McpIdsOf(r, c), r.connections - {c})
  }

  /** The index knows every agent on a connection, and maybe some that have left it. */
  ghost predicate Covers(r: McpRegistry) {
    forall id <- r.agentsById :: id in McpIdsOf(r, r.agentsById[id])
  }

  lemma McpFoundKeepsCover(r: McpRegistry, id: Uid, c: Connection)
    requires Covers(r)
    ensures Covers(McpFound(r, id, c))
  {
  }

  lemma McpRemovalClearsConnection(r: McpRegistry, c: Connection)
    requires Covers(r)
    ensures Covers(McpRemoved(r, c))
    ensures forall id <- McpRemoved(r, c).agentsById :: McpRemoved(r, c).agentsById[id] != c
  {
  }

  datatype McpEvent = McpFind(id: Uid, conn: Connection) | McpClose(conn: Connection)

  function McpAfter(es: seq<McpEvent>): McpRegistry {
    if es == [] then McpRegistry(map[], map[])
    else
      var r, e := McpAfter(es[..|es| - 1]), es[|es| - 1];
      match e
      case McpFind(id, c) => McpFound(r, id, c)
      case McpClose(c) => McpRemoved(r, c)
  }

  /** The agent used connection `c` since `c` was last removed. */
  ghost predicate UsedSinceRemoved(es: seq<McpEvent>, id: Uid, c: Connection) {
    exists i :: 0 <= i < |es| && es[i] == McpFind(id, c) && McpClose(c) !in es[i..]
  }

  lemma UsedSnoc(before: seq<McpEvent>, e: McpEvent, id: Uid, c: Connection)
    ensures UsedSinceRemoved(before + [e], id, c) <==>
              e == McpFind(id, c) || (e != McpClose(c) && UsedSinceRemoved(before, id, c))
  {
    var es := before + [e];
    forall i | 0 <= i < |before| ensures es[i..] == before[i..] + [e] && es[i] == before[i] {}
    assert es[|before|..] == [e];
    if e != McpClose(c) && UsedSinceRemoved(before, id, c) {
      var i :| 0 <= i < |before| && before[i] == McpFind(id, c) && McpClose(c) !in before[i..];
      assert es[i] == McpFind(id, c) && McpClose(c) !in es[i..];
    }
    if e == McpFind(id, c) {
      assert es[|before|] == McpFind(id, c);
    }
  }

  /** Main result: in every run the index of a connection holds exactly the ids that were found on
      it since it was last removed. */
  lemma {:induction false} McpIndexIsHistory(es: seq<McpEvent>, id: Uid, c: Connection)
    ensures id in McpIdsOf(McpAfter(es), c) <==> UsedSinceRemoved(es, id, c)
  {
    if es != [] {
      var before, e := es[..|es| - 1], es[|es| - 1];
      McpIndexIsHistory(before, id, c);
      assert es == before + [e];
      UsedSnoc(before, e, id, c);
    }
  }

  /** Main result: the removal of a connection spares an agent exactly if the agent was never found
      on it since its last removal; so it also takes an agent that has moved to another connection. */
  lemma McpRemovalTakesMovedAgents(es: seq<McpEvent>, id: Uid, c: Connection)
    requires id in McpAfter(es).agentsById
    ensures id in McpAfter(es + [McpClose(c)]).agentsById <==> !UsedSinceRemoved(es, id, c)
    ensures McpAfter([McpFind(id, 0), McpFind(id, 1), McpClose(0)]).agentsById == map[]
  {
    McpIndexIsHistory(es, id, c);
    assert (es + [McpClose(c)])[..|es|] == es;
    var e0, e1, e2 := McpFind(id, 0), McpFind(id, 1), McpClose(0);
    assert [e0, e1, e2][..2] == [e0, e1] && [e0, e1][..1] == [e0] && [e0][..0] == [];
    assert McpAfter([e0]) == McpFound(McpAfter([]), id, 0);
    assert McpAfter([e0, e1]) == McpFound(McpAfter([e0]), id, 1);
  }

  class McpAgent {
    const instanceId: Uid
    var conn: Connection

    constructor (instanceId: Uid, conn: Connection)
      ensures this.instanceId == instanceId && this.conn == conn
    {
      this.instanceId, this.conn := instanceId, conn;
    }
  }

  class McpAgents {
    var agentsById: map<Uid, McpAgent>
    var connections: map<Connection, set<Uid>>

    ghost predicate OwnIds()
      reads this, agentsById.Values
    {
      forall id <- agentsById :: agentsById[id].instanceId == id
    }

    ghost predicate Valid()
      reads this, agentsById.Values
    {
      OwnIds() && Covers(View())
    }

    ghost function View(): McpRegistry
      reads this, agentsById.Values
    {
      McpRegistry(map id <- agentsById :: agentsById[id].conn, connections)
    }

    constructor ()
      ensures Valid() && View() == McpRegistry(map[], map[])
    {
      agentsById, connections := map[], map[];
    }

    /** The agent, created or moved to the connection. */
    method PlaceAgent(instanceId: Uid, conn: Connection) returns (agent: McpAgent)
      requires OwnIds()
      modifies this`agentsById, agentsById.Values
      ensures OwnIds() && View().agentsById == old(View()).agentsById[instanceId := conn]
      ensures instanceId in agentsById && agent == agentsById[instanceId]
      ensures instanceId in old(agentsById) ==> agent == old(agentsById)[instanceId]
      ensures agent.conn == conn
    {
      if instanceId !in agentsById {
        agent := new McpAgent(instanceId, conn);
        agentsById := agentsById[instanceId := agent];
      } else {
        agent := agentsById[instanceId];
        agent.conn := conn;
      }
    }

    method IndexAgent(instanceId: Uid, conn: Connection)
      modifies this`connections
      ensures View() == old(View()).(connections := View().connections)
      ensures connections == old(connections)[conn := McpIdsOf(old(View()), conn) + {instanceId}]
    {
      if conn !in connections {
        connections := connections[conn := {}];
      }
      connections := connections[conn := connections[conn] + {instanceId}];
    }

    method FindOrCreateAgent(instanceId: Uid, conn: Connection) returns (agent: McpAgent)
      requires Valid()
      modifies this, agentsById.Values
      ensures Valid() && View() == McpFound(old(View()), instanceId, conn)
      ensures instanceId in agentsById && agent == agentsById[instanceId]
      ensures instanceId in old(agentsById) ==> agent == old(agentsById)[instanceId]
      ensures agent.conn == conn && agent.instanceId == instanceId
      ensures View().agentsById == old(View()).agentsById[instanceId := conn]
    {
      McpFoundKeepsCover(View(), instanceId, conn);
      agent := PlaceAgent(instanceId, conn);
      IndexAgent(instanceId, conn);
      assert View() == McpFound(old(View()), instanceId, conn);
    }

    method RemoveConnection(conn: Connection)
      requires Valid()
      modifies this
      ensures Valid() && View() == McpRemoved(old(View()), conn)
      ensures forall id <- agentsById :: agentsById[id].conn != conn
    {
      McpRemovalClearsConnection(View(), conn);
      ghost var all := McpIdsOf(View(), conn);
      var ids := if conn in connections then connections[conn] else {};
      while ids != {}
        invariant ids <= all
        invariant agentsById == old(agentsById) - (all - ids)
        invariant connections == old(connections)
        decreases ids
      {
        var id :| id in ids;
        agentsById := agentsById - {id};
        ids := ids - {id};
      }
      connections := connections - {conn};
      assert View().agentsById == McpRemoved(old(View()), conn).agentsById;
      assert forall id <- agentsById :: View().agentsById[id] == agentsById[id].conn;
    }
  }
}
