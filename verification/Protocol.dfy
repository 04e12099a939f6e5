/** The whole protocol: a client, connections that lose messages, and the server's registry.

    Every connection has its own wires.  Messages on their way are named by the position of the
    pop that made them.  When the client dials again, the server may go on serving what is left of
    an older connection until it notices that it is gone and removes the agents of that
    connection; a plain HTTP retry dials and sends the newest message once more.  A message can be
    lost when it is written and when it is read, a response only together with its connection.
  */
module Protocol {
  import opened Messages
  import opened ClientMachine
  import opened Replicas
  import opened Registries

  /** The server's status of an agent, with the history that the claims speak about. */
  datatype Track = Track(
    status: Option<AgentToServer>,
    last: nat,     // the message processed last
    top: nat,      // the latest message processed so far
    blind: bool)   // messages were skipped in a multiple of 2^64

  const NEW_TRACK := Track(None, 0, 0, false)

  /** `down` holds, for each response on its way, whether it asks for the full state. */
  datatype Wire = Wire(up: seq<nat>, down: seq<bool>)

  datatype System = System(
    client: Client,
    live: Connection,                 // the connection that the client uses
    start: nat,                       // the first message that it can carry
    wires: map<Connection, Wire>,     // the connections that the server still serves
    registry: Registry<Track>)

  const NEW_SYSTEM := System(NEW_CLIENT, 0, 0, map[0 := Wire([], [])], Registry(map[], map[]))

  datatype SystemEvent =
    | ClientStep(e: Event, written: bool)   // a popped message is written to the wire, or lost
    | Hear(captured: Captured)              // the client handles the next response
    | Serve(c: Connection)                  // the server handles the next message
    | Drop(c: Connection)                   // the server cannot decode the next message
    | Dial(resend: bool)
    | Close(c: Connection)                  // the server notices that a connection is gone

  function Stream(s: System): seq<AgentToServer> {
    s.client.log.popped
  }

  function Processed(t: Track, i: nat, m: AgentToServer): Track {
    Track(Some(UpdatedStatus(t.status, m)), i,
          if t.status.None? || t.top < i then i else t.top,
          t.status.Some? && (t.blind || (i != t.last + 1 && !LostPreviousUpdate(t.status, m))))
  }

  predicate EnabledIn(s: System, e: SystemEvent) {
    match e
    case ClientStep(_, _) => true
    case Hear(_) => s.live in s.wires && s.wires[s.live].down != [] && Quiet(s.client, RECEIVER)
    case Serve(c) => c in s.wires && s.wires[c].up != [] && s.wires[c].up[0] < |Stream(s)|
    case Drop(c) => c in s.wires && s.wires[c].up != []
    case Dial(resend) => resend ==> Stream(s) != []
    case Close(c) => c in s.wires
  }

  function Stepped(s: System, e: Event, written: bool): System {
    var client := Next(s.client, e);
    var n := |s.client.log.popped|;
    s.(client := client,
       wires := if |client.log.popped| > n && client.log.popped[n] != EMPTY_MESSAGE && written && s.live in s.wires
                then s.wires[s.live := s.wires[s.live].(up := s.wires[s.live].up + [n])] else s.wires)
  }

  function Served(s: System, c: Connection): System
    requires EnabledIn(s, Serve(c))
  {
    var w := s.wires[c];
    var m := Stream(s)[w.up[0]];
    var r := Found(s.registry, m.instanceUid, c, NEW_TRACK);
    var agent := r.agentsById[m.instanceUid];
    s.(wires := s.wires[c := Wire(w.up[1..], w.down + [AsksFullState(agent.data.status, m)])],
       registry := r.(agentsById := r.agentsById[m.instanceUid := agent.(data := Processed(agent.data, w.up[0], m))]))
  }

  function Heard(s: System, captured: Captured): System
    requires EnabledIn(s, Hear(captured))
  {
    var w := s.wires[s.live];
    s.(client := if w.down[0] then Next(s.client, Begin(RECEIVER, ReportFullState(captured))) else s.client,
       wires := s.wires[s.live := w.(down := w.down[1..])])
  }

  function Dialed(s: System, resend: bool): System
    requires EnabledIn(s, Dial(resend))
  {
    var n := |Stream(s)|;
    s.(live := s.live + 1,
       start := if resend then n - 1 else n,
       wires := s.wires[s.live + 1 := Wire(if resend then [n - 1] else [], [])])
  }

  function NextSystem(s: System, e: SystemEvent): System {
    if !EnabledIn(s, e) then s else
    match e
    case ClientStep(ce, written) => Stepped(s, ce, written)
    case Hear(captured) => Heard(s, captured)
    case Serve(c) => Served(s, c)
    case Drop(c) => s.(wires := s.wires[c := s.wires[c].(up := s.wires[c].up[1..])])
    case Dial(resend) => Dialed(s, resend)
    case Close(c) => s.(wires := s.wires - {c}, registry := Removed(s.registry, c))
  }

  function AfterRun(es: seq<SystemEvent>): System {
    if es == [] then NEW_SYSTEM else NextSystem(AfterRun(es[..|es| - 1]), es[|es| - 1])
  }
}
