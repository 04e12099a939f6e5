/** What one unnoticed break of a connection can do: from every idle state in which the server knows
    the agent to report its health, it leads to a wrong copy with nothing on its way that would make
    it right.  This is the case that `Reconnects` excludes. */
module StaleRecords {
  import opened Messages
  import opened ClientMachine
  import opened Refinement
  import opened Replicas
  import opened Registries
  import opened Protocol
  import opened Coherence
  import opened ClientApi
  import opened Reconnects
  import opened Runs

  // ---- Runs from any state -------------------------------------------------------------------------

  /** The client does not dial, and the server does not notice a break. */
  predicate Unbroken(es: seq<SystemEvent>) {
    forall e <- es :: !e.Dial? && !e.Close?
  }

  ghost predicate Leads(s: System, r: System) {
    exists es :: Unbroken(es) && Play(s, es) == r
  }

  lemma {:induction false} LeadsNowhere(s: System)
    ensures Leads(s, s)
  {
    assert Play(s, []) == s;
  }

  lemma {:induction false} LeadsOn(s: System, r: System, more: seq<SystemEvent>)
    requires Leads(s, r) && Unbroken(more)
    ensures Leads(s, Play(r, more))
  {
    var es :| Unbroken(es) && Play(s, es) == r;
    PlayConcat(s, es, more);
    assert Unbroken(es + more);
  }

  lemma {:induction false} LeadsOneMore(s: System, r: System, e: SystemEvent)
    requires Leads(s, r) && !e.Dial? && !e.Close?
    ensures Leads(s, NextSystem(r, e))
  {
    LeadsOn(s, r, [e]);
    PlayOne(r, e);
  }

  lemma {:induction false} LedByRun(es: seq<SystemEvent>, r: System) returns (more: seq<SystemEvent>)
    requires Leads(AfterRun(es), r)
    ensures Unbroken(more) && AfterRun(es + more) == r
  {
    more :| Unbroken(more) && Play(AfterRun(es), more) == r;
    AfterRunPlays(es, more);
  }

  /** A step of the client that pops nothing concerns nobody else. */
  lemma {:induction false} Silently(s: System, r: System, e: Event)
    requires Leads(s, r) && Next(r.client, e).log.popped == r.client.log.popped
    ensures Leads(s, r.(client := Next(r.client, e)))
  {
    LeadsOneMore(s, r, ClientStep(e, true));
    SilentStep(r, e, true);
  }

  lemma {:induction false} StepsAreUnbroken(t: nat, n: nat)
    ensures Unbroken(Steps(t, n))
  {
    if n > 0 {
      StepsAreUnbroken(t, n - 1);
    }
  }

  lemma {:induction false} Finishes(s: System, q: System, t: nat, p: seq<Action>, l: nat, u: nat) returns (d: Client)
    requires Leads(s, q) && LocksOnce(p, l, u)
    requires !q.client.locked && t in q.client.threads && q.client.threads[t] == p
    ensures Leads(s, q.(client := d)) && Ran(q.client, d, t, p)
  {
    d := RunsToEnd(q, t, p, l, u);
    StepsAreUnbroken(t, |p|);
    LeadsOn(s, q, Steps(t, |p|));
  }

  /** Thread `t` starts on `call` and runs it to its end. */
  lemma {:induction false} Calls(s: System, q: System, t: nat, call: Call, l: nat, u: nat) returns (d: Client)
    requires Leads(s, q) && !q.client.locked && RECEIVER <= t && Quiet(q.client, t)
    requires !call.SendCustomMessage? && LocksOnce(Program(call), l, u)
    ensures Leads(s, q.(client := d)) && Ran(q.client, d, t, Program(call))
  {
    var begun := Next(q.client, Begin(t, call));
    Silently(s, q, Begin(t, call));
    d := Finishes(s, q.(client := begun), t, Program(call), l, u);
    var threads: map<nat, seq<Action>> := q.client.threads;
    assert begun.threads == threads[t := Program(call)];
    assert begun.threads[t := []] == threads[t := []];
  }

  // ---- The first message -------------------------------------------------------------------------------

  lemma {:induction false} FirstMessageLocksOnce(x: Captured)
    ensures LocksOnce(FirstMessageProgram(x), 0, 10)
  {
  }

  lemma {:induction false} FirstMessageKeepsUid(c: Core, x: Captured)
    ensures Acts(c, FirstMessageProgram(x)).out.message.instanceUid == c.out.message.instanceUid
  {
    var p := FirstMessageProgram(x);
    assert forall i :: 0 <= i < |p| ==> Plain(p[i]) && (p[i].Put? ==> !p[i].extra.UidExtra?);
    KeepsUid(c, p);
  }

  /** The effect of the first message, as far as it matters here: the health in the slot stays. */
  ghost predicate FirstMessageDone(c: Core, d: Core) {
    && d.stored == c.stored && d.token == c.token && d.out.pending
    && d.out.message.report.health == c.out.message.report.health
    && d.out.message.report.capabilities == c.stored.capabilities
    && d.out.message.instanceUid == c.out.message.instanceUid
  }

  lemma {:induction false} CopyingActs(c: Core, p: seq<Action>)
    requires (forall a <- p :: Plain(a)) && Acts(c, p).out.message.instanceUid == c.out.message.instanceUid
    requires Copy(HealthField) !in p && Copy(CapabilitiesField) in p && Unlock in p && Schedule !in p
    ensures FirstMessageDone(c, Acts(c, p))
  {
    ActsFields(c, p);
    var r := Acts(c, p).out.message.report;
    assert Same(r, c.out.message.report, HealthField) && Same(r, c.stored, CapabilitiesField);
  }

  lemma {:induction false} FirstMessageActs(c: Core, x: Captured)
    ensures FirstMessageDone(c, Acts(c, FirstMessageProgram(x)))
  {
    FirstMessageIsPlain(x);
    FirstMessageContents(x);
    FirstMessageKeepsUid(c, x);
    CopyingActs(c, FirstMessageProgram(x));
  }

  // ---- Sending -----------------------------------------------------------------------------------------

  lemma {:induction false} Writes(s: System, q: System, step: SenderStep)
    requires Leads(s, q) && q.live in q.wires && StepEnabled(q.client, step) && Pops(step)
    requires q.client.core.out.pending && q.client.core.out.message != EMPTY_MESSAGE
    ensures Leads(s, Written(q, DoMove(q.client, step)))
  {
    LeadsOneMore(s, q, ClientStep(Move(step), true));
    StepWrites(q, step);
  }

  /** What is left in the client once its slot was popped. */
  ghost predicate JustPopped(c: Client, d: Client) {
    && d.log.popped == c.log.popped + [c.core.out.message]
    && d.core.stored == c.core.stored && d.core.out.message.report.health == None
  }

  /** The loop takes the token, and the slot is popped and written. */
  lemma {:induction false} TakesAndWrites(s: System, q: System, id: Uid) returns (d: Client)
    requires Leads(s, q) && q.live in q.wires && IdleClient(q.client, id) && id != []
    requires q.client.core.token && q.client.core.out.pending
    ensures Leads(s, Written(q, d)) && IdleClient(d, id) && JustPopped(q.client, d) && !d.core.token
  {
    var taken := Next(q.client, Move(Take));
    Silently(s, q, Move(Take));
    Writes(s, q.(client := taken), Send);
    d := DoMove(taken, Send);
  }

  /** A health that is set, and whose message the server cannot decode. */
  lemma {:induction false} HealthLost(s: System, q: System, id: Uid, g: ComponentHealth) returns (d: Client)
    requires Leads(s, q) && IdleClient(q.client, id) && id != [] && q.live in q.wires && q.wires[q.live].up == []
    ensures Leads(s, q.(client := d)) && IdleClient(d, id) && |d.log.popped| == |Stream(q)| + 1
    ensures d.core.stored.health == Some(g) && d.core.out.message.report.health == None
  {
    SetterActs(q.client.core, HealthField, EMPTY_REPORT.(health := Some(g)));
    SetterLocksOnce(HealthField, EMPTY_REPORT.(health := Some(g)));
    var updated := Calls(s, q, RECEIVER, SetHealth(g), 1, 3);
    d := TakesAndWrites(s, q.(client := updated), id);
    Dropped(s, Written(q.(client := updated), d), q.wires[q.live]);
    assert q.wires[q.live := q.wires[q.live]] == q.wires;
  }

  lemma {:induction false} Dropped(s: System, q: System, w: Wire)
    requires Leads(s, q) && q.live in q.wires && |q.wires[q.live].up| == 1 && w == q.wires[q.live].(up := [])
    ensures Leads(s, q.(wires := q.wires[q.live := w]))
  {
    assert q.wires[q.live].up[1..] == [];
    LeadsOneMore(s, q, Drop(q.live));
  }

  /** A heartbeat that is written. */
  lemma {:induction false} HeartbeatWritten(s: System, q: System, id: Uid) returns (d: Client)
    requires Leads(s, q) && q.live in q.wires && IdleClient(q.client, id) && id != []
    requires q.client.core.out.message.report.health == None
    ensures Leads(s, Written(q, d)) && IdleClient(d, id) && JustPopped(q.client, d) && !d.core.token
  {
    var beaten := Beats(s, q, id);
    d := TakesAndWrites(s, q.(client := beaten), id);
  }

  lemma {:induction false} Beats(s: System, q: System, id: Uid) returns (d: Client)
    requires Leads(s, q) && IdleClient(q.client, id)
    ensures Leads(s, q.(client := d)) && IdleClient(d, id) && d.log.popped == q.client.log.popped
    ensures d.core == q.client.core.(out := q.client.core.out.(pending := true), token := true)
  {
    var beating := Next(q.client, Beat);
    Silently(s, q, Beat);
    HeartbeatActs(q.client.core);
    var ran := Finishes(s, q.(client := beating), SENDER, HEARTBEAT_PROGRAM, 0, 1);
    Silently(s, q.(client := ran), Move(BeatDone));
    d := Next(ran, Move(BeatDone));
  }

  /** A client that is about to prepare a first message. */
  ghost predicate Connecting(c: Client, id: Uid) {
    && c.started && c.sender == Preparing && !c.locked && !c.cancelled
    && RUNNER in c.threads && c.threads[RUNNER] == FirstMessageProgram(FIRST)
    && (forall t <- c.threads :: t != RUNNER ==> c.threads[t] == [])
    && c.core.out.message.instanceUid == id
  }

  lemma {:induction false} FirstMessageWritten(s: System, q: System, id: Uid) returns (d: Client)
    requires Leads(s, q) && q.live in q.wires && Connecting(q.client, id) && id != []
    ensures Leads(s, Written(q, d)) && IdleClient(d, id) && d.core.stored == q.client.core.stored
    ensures d.core.out.message.report.health == None && |d.log.popped| == |Stream(q)| + 1
    ensures var m := d.log.popped[|Stream(q)|];
            && m.instanceUid == id && m.report.health == q.client.core.out.message.report.health
            && m.report.capabilities == q.client.core.stored.capabilities
  {
    FirstMessageLocksOnce(FIRST);
    FirstMessageActs(q.client.core, FIRST);
    var ran := Finishes(s, q, RUNNER, FirstMessageProgram(FIRST), 0, 10);
    Writes(s, q.(client := ran), FirstSend);
    d := DoMove(ran, FirstSend);
  }

  lemma {:induction false} LoopEnds(s: System, q: System)
    requires Leads(s, q) && q.client.sender == Waiting && !q.client.core.token
    ensures Leads(s, q.(client := q.client.(sender := Closed, lost := true)))
  {
    Silently(s, q, Lose);
    var lost := q.client.(lost := true);
    assert Next(q.client, Lose) == lost;
    Silently(s, q.(client := lost), Move(Notice));
    var draining := lost.(sender := Draining);
    assert Next(lost, Move(Notice)) == draining;
    LoopDrains(s, q.(client := draining));
  }

  lemma {:induction false} LoopDrains(s: System, q: System)
    requires Leads(s, q) && q.client.sender == Draining && !q.client.core.token && q.client.lost
    ensures Leads(s, q.(client := q.client.(sender := Closed)))
  {
    Silently(s, q, Move(DrainNone));
    var closing := q.client.(sender := Closing);
    assert Next(q.client, Move(DrainNone)) == closing;
    Silently(s, q.(client := closing), Move(WriteClose));
    assert Next(closing, Move(WriteClose)) == q.client.(sender := Closed);
  }

  // ---- The server ----------------------------------------------------------------------------------------

  /** The record of `id`, on connection `conn`, holds `health` and reports it. */
  ghost predicate Held(s: System, id: Uid, health: Option<ComponentHealth>, conn: Connection, last: nat) {
    && id in s.registry.agentsById
    && var e := s.registry.agentsById[id];
       && e.conn == conn && e.data.status.Some? && e.data.last == e.data.top == last && !e.data.blind
       && e.data.status.value.report.health == health && ReportsHealth in e.data.status.value.report.capabilities
  }

  lemma {:induction false} HeldNumber(es: seq<SystemEvent>, s: System, id: Uid, h: Option<ComponentHealth>,
                                      conn: Connection, i: nat)
    requires Leads(AfterRun(es), s) && i < |Stream(s)|
    requires i > 0 && (Held(s, id, h, conn, i - 1) || (i > 1 && Held(s, id, h, conn, i - 2)))
    ensures LostPreviousUpdate(s.registry.agentsById[id].data.status, Stream(s)[i]) <==> !Held(s, id, h, conn, i - 1)
  {
    var more := LedByRun(es, s);
    SystemRuns(es + more);
    assert RecordOk(s, s.registry.agentsById[id]);
    var last := s.registry.agentsById[id].data.last;
    GapIsSeen(last, i, s.registry.agentsById[id].data.status.value, Stream(s)[i]);
  }

  /** A message without a health updates the record, and asks for the full state if there is a gap. */
  lemma {:induction false} ServedWithoutHealth(s: System, c: Connection, id: Uid, h: Option<ComponentHealth>,
                                               conn: Connection, last: nat, i: nat)
    requires Held(s, id, h, conn, last) && last < i < |Stream(s)| && c in s.wires && s.wires[c].up == [i]
    requires Stream(s)[i].instanceUid == id && Stream(s)[i].report.health == None
    requires LostPreviousUpdate(s.registry.agentsById[id].data.status, Stream(s)[i]) <==> last + 1 < i
    ensures var r := Served(s, c);
            && r.client == s.client && r.live == s.live && Held(r, id, h, conn, i)
            && r.wires == s.wires[c := Wire([], s.wires[c].down + [last + 1 < i])]
  {
    var status, m := s.registry.agentsById[id].data.status, Stream(s)[i];
    assert s.wires[c].up[1..] == [] && s.wires[c].up[0] == i;
    assert ReportsHealth in UpdatedStatus(status, m).report.capabilities;
    assert AsksFullState(status, m) == (last + 1 < i);
  }

  // ---- One unnoticed break ----------------------------------------------------------------------------------

  /** The server's copy of the health is wrong, and nothing on its way concerns it. */
  ghost predicate Stale(s: System, id: Uid) {
    && id in s.registry.agentsById
    && var t := s.registry.agentsById[id].data;
       && Reporting(t, HealthField) && !t.blind && t.last == t.top && NothingOnItsWay(s, t, HealthField)
       && !Same(t.status.value.report, s.client.core.stored, HealthField)
  }

  /** Everything is quiet, and the server is up to date and knows the agent to report its health. */
  ghost predicate UpToDate(s: System, id: Uid, h: Option<ComponentHealth>) {
    && id != [] && IdleClient(s.client, id) && s.live in s.wires && s.wires[s.live].up == []
    && |Stream(s)| > 0 && Held(s, id, h, s.live, |Stream(s)| - 1)
  }

  /** The server has the old health, and a request for the full state is on its way back. */
  ghost predicate Asked(s: System, id: Uid, h: Option<ComponentHealth>, g: ComponentHealth) {
    && IdleClient(s.client, id) && s.live in s.wires && !s.client.core.token
    && s.client.core.stored.health == Some(g) && s.client.core.out.message.report.health == None
    && |Stream(s)| > 0 && Held(s, id, h, s.live, |Stream(s)| - 1)
  }

  lemma {:induction false} BecomesAsked(es: seq<SystemEvent>, id: Uid, h: Option<ComponentHealth>, g: ComponentHealth)
    returns (r: System)
    requires UpToDate(AfterRun(es), id, h)
    ensures Leads(AfterRun(es), r) && r.live == AfterRun(es).live && Asked(r, id, h, g) && true in r.wires[r.live].down
  {
    var s := AfterRun(es);
    var n := |Stream(s)|;
    LeadsNowhere(s);
    var lost := HealthLost(s, s, id, g);
    var beaten := HeartbeatWritten(s, s.(client := lost), id);
    var q := Written(s.(client := lost), beaten);
    assert q.wires[q.live].up == [n + 1] && Stream(q)[n + 1] == lost.core.out.message.(instanceUid := id);
    HeldNumber(es, q, id, h, s.live, n + 1);
    ServedWithoutHealth(q, q.live, id, h, s.live, n - 1, n + 1);
    LeadsOneMore(s, q, Serve(q.live));
    r := Served(q, q.live);
  }

  /** The loop ends and is about to dial, with the old connection still in the server's books. */
  lemma {:induction false} BecomesConnecting(s: System, q: System, id: Uid) returns (r: System)
    requires Leads(s, q) && IdleClient(q.client, id) && !q.client.core.token
    ensures Leads(s, r) && r == q.(client := r.client) && Connecting(r.client, id) && r.client.core == q.client.core
    ensures Stream(r) == Stream(q)
  {
    LoopEnds(s, q);
    var closed := q.(client := q.client.(sender := Closed, lost := true));
    Silently(s, closed, Redial(FIRST));
    r := closed.(client := Next(closed.client, Redial(FIRST)));
  }

  /** The first message of the new connection is the successor of the last one, so that nothing is
      asked; the record stays on the old connection. */
  lemma {:induction false} BecomesStale(es: seq<SystemEvent>, id: Uid, h: Option<ComponentHealth>,
                                        g: ComponentHealth, conn: Connection)
    returns (r: System)
    requires var s := AfterRun(es);
             && id != [] && Some(g) != h && Connecting(s.client, id)
             && s.live in s.wires && s.wires[s.live] == Wire([], [])
             && s.client.core.stored.health == Some(g) && s.client.core.out.message.report.health == None
             && |Stream(s)| > 0 && Held(s, id, h, conn, |Stream(s)| - 1)
    ensures Leads(AfterRun(es), r) && Stale(r, id)
  {
    var s := AfterRun(es);
    var n := |Stream(s)|;
    LeadsNowhere(s);
    var sent := FirstMessageWritten(s, s, id);
    var q := Written(s, sent);
    HeldNumber(es, q, id, h, conn, n);
    ServedWithoutHealth(q, q.live, id, h, conn, n - 1, n);
    LeadsOneMore(s, q, Serve(q.live));
    r := Served(q, q.live);
    assert r.wires[r.live].down == [false];
  }

  /** Main result: from every state of every run in which everything is quiet and the server is up to
      date and knows the agent to report its health, a run with one break, which the server does not
      notice before the client dials again, ends with a wrong copy and nothing on its way. */
  lemma {:induction false} OneUnnoticedBreakIsStale(es: seq<SystemEvent>, id: Uid, h: Option<ComponentHealth>,
                                                    g: ComponentHealth)
    returns (before: seq<SystemEvent>, after: seq<SystemEvent>)
    requires UpToDate(AfterRun(es), id, h) && Some(g) != h
    ensures Unbroken(before) && Unbroken(after)
    ensures AfterRun(es + before).live in AfterRun(es + before).wires
    ensures Stale(AfterRun(es + before + [Dial(false)] + after), id)
  {
    var s := AfterRun(es);
    var asked := BecomesAsked(es, id, h, g);
    var q := BecomesConnecting(s, asked, id);
    before := LedByRun(es, q);
    var run := es + before + [Dial(false)];
    assert run[..|run| - 1] == es + before;
    SystemRuns(es + before);
    NewConnection(q);
    assert AfterRun(run) == Dialed(q, false);
    var r := BecomesStale(run, id, h, g, s.live);
    after := LedByRun(run, r);
  }

  lemma {:induction false} NewConnection(s: System)
    requires SystemOk(s)
    ensures Dialed(s, false).wires[s.live + 1] == Wire([], []) && Dialed(s, false).live == s.live + 1
  {
  }

  // ---- Such states exist --------------------------------------------------------------------------------------

  const REPORTING := {ReportsStatus, ReportsHealth}

  lemma {:induction false} SetsUp(s: System, q: System, call: Call, f: Field, from: Report) returns (d: Client)
    requires Leads(s, q) && !q.client.locked && AllQuiet(q.client) && Program(call) == StoreAndPublish(f, from)
    requires !call.SendCustomMessage?
    ensures Leads(s, q.(client := d)) && SameLoop(q.client, d) && !d.locked && AllQuiet(d)
    ensures d.core == Published(q.client.core, f, from)
  {
    SetterActs(q.client.core, f, from);
    SetterLocksOnce(f, from);
    d := Calls(s, q, RECEIVER, call, 1, 3);
  }

  /** A description, a health, the capabilities and the uid, and the start. */
  lemma {:induction false} Started(id: Uid, d: AgentDescription, h: ComponentHealth) returns (c: Client)
    ensures Leads(NEW_SYSTEM, NEW_SYSTEM.(client := c)) && Connecting(c, id) && c.log.popped == []
    ensures c.core.stored.capabilities == REPORTING && c.core.out.message.report.health == Some(h)
  {
    var s := NEW_SYSTEM;
    LeadsNowhere(s);
    var described := SetsUp(s, s, SetAgentDescription(d), DescriptionField, EMPTY_REPORT.(agentDescription := Some(d)));
    var q := s.(client := described);
    var reported := SetsUp(s, q, SetHealth(h), HealthField, EMPTY_REPORT.(health := Some(h)));
    var prepare := Prepare(Some(REPORTING), None, None, Some(id));
    Silently(s, s.(client := reported), prepare);
    var prepared := Next(reported, prepare);
    Silently(s, s.(client := prepared), Start(FIRST));
    c := Next(prepared, Start(FIRST));
  }

  /** The server creates the record from the first message. */
  lemma {:induction false} FirstServed(q: System, id: Uid, h: ComponentHealth)
    requires id != [] && IdleClient(q.client, id) && q.live == 0 && |Stream(q)| == 1
    requires q.registry == NEW_SYSTEM.registry
    requires 0 in q.wires && q.wires[0].up == [0] && Stream(q)[0].instanceUid == id
    requires Stream(q)[0].report.health == Some(h) && Stream(q)[0].report.capabilities == REPORTING
    ensures UpToDate(Served(q, 0), id, Some(h))
  {
    assert q.wires[0].up[1..] == [];
  }

  lemma {:induction false} UpToDateIsReachable(id: Uid, d: AgentDescription, h: ComponentHealth)
    returns (es: seq<SystemEvent>)
    requires id != []
    ensures UpToDate(AfterRun(es), id, Some(h)) && Unbroken(es)
  {
    var c := Started(id, d, h);
    var q := NEW_SYSTEM.(client := c);
    var sent := FirstMessageWritten(NEW_SYSTEM, q, id);
    var r := Written(q, sent);
    FirstServed(r, id, h);
    LeadsOneMore(NEW_SYSTEM, r, Serve(0));
    es := LedFromStart(Served(r, 0));
  }

  lemma {:induction false} LedFromStart(r: System) returns (es: seq<SystemEvent>)
    requires Leads(NEW_SYSTEM, r)
    ensures Unbroken(es) && AfterRun(es) == r
  {
    assert AfterRun([]) == NEW_SYSTEM;
    es := LedByRun([], r);
    assert [] + es == es;
  }

  /** A whole run: the break is not noticed, and the copy is wrong for good. */
  lemma {:induction false} UnnoticedBreakIsStale(id: Uid, d: AgentDescription, h: ComponentHealth, g: ComponentHealth)
    returns (es: seq<SystemEvent>)
    requires id != [] && g != h
    ensures Stale(AfterRun(es), id) && !BreaksNoticed(es)
  {
    var start := UpToDateIsReachable(id, d, h);
    var before, after := OneUnnoticedBreakIsStale(start, id, Some(h), g);
    es := start + before + [Dial(false)] + after;
    if BreaksNoticed(es) {
      NoticedRunsKeepOneConnection(es);
      NoticedQuietSystemIsCoherent(es, id, HealthField);
      assert false;
    }
  }
}
