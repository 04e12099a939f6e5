/** How a wrong copy becomes right again: the client answers a request for the full state, and a
    heartbeat is enough to bring about the request.  Nothing here is a call of the API. */
module Healing {
  import opened Messages
  import opened NextMessages
  import opened ClientMachine
  import opened Refinement
  import opened Replicas
  import opened Registries
  import opened Protocol
  import opened Coherence
  import opened ClientApi
  import opened Runs
  import opened MessageMutex

  // ---- Hearing -----------------------------------------------------------------------------------

  /** Main result: the client takes each response off the wire, and after a request for the full state
      it has every field still to copy, to publish and to schedule. */
  lemma HearTakesResponse(s: System, captured: Captured)
    requires s.live in s.wires && s.wires[s.live].down != [] && Quiet(s.client, RECEIVER)
    ensures var w, r := s.wires[s.live], NextSystem(s, Hear(captured));
            && r.wires == s.wires[s.live := Wire(w.up, w.down[1..])]
            && r.live == s.live && r.registry == s.registry
            && (!w.down[0] ==> r.client == s.client)
            && (w.down[0] ==>
                  && RECEIVER in r.client.threads && (forall f :: Copy(f) in r.client.threads[RECEIVER])
                  && Unlock in r.client.threads[RECEIVER] && Schedule in r.client.threads[RECEIVER])
  {
    FullStateContents(captured);
  }

  // ---- The runs ------------------------------------------------------------------------------------

  /** The token is taken, what is pending is written, and the server processes it. */
  function Sends(live: Connection): seq<SystemEvent> {
    [ClientStep(Move(Take), true), ClientStep(Move(Send), true), Serve(live)]
  }

  /** The client handles the next response to the end. */
  function Answer(captured: Captured, live: Connection): seq<SystemEvent> {
    [Hear(captured)] + Steps(RECEIVER, 12) + Sends(live)
  }

  /** The heartbeat timer fires. */
  function Heartbeat(live: Connection): seq<SystemEvent> {
    [ClientStep(Beat, true)] + Steps(SENDER, 3) + [ClientStep(Move(BeatDone), true)] + Sends(live)
  }

  /** The sender loop waits, no thread is under way and no message is on its way to the server. */
  ghost predicate AtRest(s: System) {
    && s.live in s.wires && s.wires[s.live].up == []
    && s.client.sender == Waiting && AllQuiet(s.client)
  }

  /** So it is, and messages carry a uid. */
  ghost predicate Resting(s: System) {
    AtRest(s) && s.client.core.out.message.instanceUid != []
  }

  /** The server's record of the client's uid holds what the client stores. */
  ghost predicate HoldsStored(s: System, id: Uid, f: Field) {
    && id in s.registry.agentsById && s.registry.agentsById[id].data.status.Some?
    && Same(s.registry.agentsById[id].data.status.value.report, s.client.core.stored, f)
  }

  // ---- Delivering the slot ---------------------------------------------------------------------------

  /** Only the slot was popped. */
  ghost predicate SlotPopped(c: Client, d: Client) {
    && d.core == c.core.(out := Popped(c.core.out), token := false)
    && d.log == c.log.(popped := c.log.popped + [c.core.out.message], wanters := {})
    && d.threads == c.threads && d.locked == c.locked && d.sender == Waiting
  }

  /** A message that is pending and scheduled arrives. */
  lemma {:induction false} SendsArrive(s: System) returns (d: Client)
    requires Resting(s) && !s.client.locked && s.client.core.token && s.client.core.out.pending
    ensures SlotPopped(s.client, d)
    ensures EnabledIn(Written(s, d), Serve(s.live)) && Play(s, Sends(s.live)) == Served(Written(s, d), s.live)
  {
    var take, send := ClientStep(Move(Take), true), ClientStep(Move(Send), true);
    var taken := DoMove(s.client, Take);
    d := DoMove(taken, Send);
    assert NextSystem(s, take) == s.(client := taken);
    assert NextSystem(s.(client := taken), send) == Written(s, d);
    PlayThree(s, take, send, Serve(s.live));
  }

  lemma {:induction false} PlayThree(s: System, a: SystemEvent, b: SystemEvent, c: SystemEvent)
    ensures Play(s, [a, b, c]) == NextSystem(NextSystem(NextSystem(s, a), b), c)
  {
    PlayOne(s, a);
    PlaySnoc(s, [a], b);
    PlaySnoc(s, [a] + [b], c);
    assert [a] + [b] + [c] == [a, b, c];
  }

  /** What the server makes of the message that arrives. */
  lemma {:induction false} ArrivedRecord(s: System, d: Client)
    requires s.live in s.wires && s.wires[s.live].up == [] && d.log.popped == Stream(s) + [s.client.core.out.message]
    ensures var n, m, r := |Stream(s)|, s.client.core.out.message, Served(Written(s, d), s.live);
            var found := Found(s.registry, m.instanceUid, s.live, NEW_TRACK).agentsById[m.instanceUid];
            && r.live == s.live && r.client == d
            && r.wires == s.wires[s.live := Wire([], s.wires[s.live].down + [AsksFullState(found.data.status, m)])]
            && m.instanceUid in r.registry.agentsById
            && r.registry.agentsById[m.instanceUid] == found.(data := Processed(found.data, n, m))
  {
    var q := Written(s, d);
    assert q.wires[s.live].up == [|Stream(s)|] && q.wires[s.live].up[1..] == [];
    assert Stream(q)[|Stream(s)|] == s.client.core.out.message;
  }

  // ---- The answer to a request -------------------------------------------------------------------

  /** The whole stored state is in the slot, pending and scheduled. */
  ghost predicate FullStateReady(c: Core, d: Core) {
    && d.out.message.report == d.stored == c.stored && d.out.pending && d.token
    && d.out.message.instanceUid == c.out.message.instanceUid
  }

  lemma {:induction false} CopyingEverything(c: Core, p: seq<Action>)
    requires forall a <- p :: Plain(a) && (a.Put? ==> !a.extra.UidExtra?)
    requires (forall f :: Copy(f) in p) && Unlock in p && Schedule in p
    ensures FullStateReady(c, Acts(c, p))
  {
    ActsFields(c, p);
    KeepsUid(c, p);
    forall f ensures Same(Acts(c, p).out.message.report, c.stored, f) {
      assert Copy(f) in p;
    }
    SameEverywhere(Acts(c, p).out.message.report, c.stored);
  }

  lemma {:induction false} FullStateActs(c: Core, captured: Captured)
    ensures FullStateReady(c, Acts(c, Program(ReportFullState(captured))))
  {
    var p := Program(ReportFullState(captured));
    FullStateContents(captured);
    assert forall i :: 0 <= i < |p| ==> Plain(p[i]) && (p[i].Put? ==> !p[i].extra.UidExtra?);
    CopyingEverything(c, p);
  }

  lemma {:induction false} FullStateLocksOnce(captured: Captured)
    ensures LocksOnce(Program(ReportFullState(captured)), 0, 10) && |Program(ReportFullState(captured))| == 12
  {
  }

  lemma {:induction false} Hears(s: System, captured: Captured)
    requires s.live in s.wires && s.wires[s.live].down != [] && s.wires[s.live].down[0] && Quiet(s.client, RECEIVER)
    ensures var h := NextSystem(s, Hear(captured));
            && h == s.(client := h.client,
                       wires := s.wires[s.live := Wire(s.wires[s.live].up, s.wires[s.live].down[1..])])
            && h.client == s.client.(threads := s.client.threads[RECEIVER := Program(ReportFullState(captured))])
  {
  }

  lemma {:induction false} AnswerIsReady(s: System, captured: Captured) returns (q: System)
    requires Resting(s) && !s.client.locked && s.wires[s.live].down != [] && s.wires[s.live].down[0]
    ensures q == Play(s, [Hear(captured)] + Steps(RECEIVER, 12))
    ensures Resting(q) && !q.client.locked && FullStateReady(s.client.core, q.client.core)
    ensures q.live == s.live && q.registry == s.registry && Stream(q) == Stream(s)
  {
    var p, heard := Program(ReportFullState(captured)), NextSystem(s, Hear(captured));
    Hears(s, captured);
    FullStateLocksOnce(captured);
    FullStateActs(s.client.core, captured);
    var d := RunsToEnd(heard, RECEIVER, p, 0, 10);
    PlayOne(s, Hear(captured));
    PlayConcat(s, [Hear(captured)], Steps(RECEIVER, 12));
    q := heard.(client := d);
  }

  /** The record of `id` was made from a message that reports everything that is stored. */
  ghost predicate FullyReported(s: System, id: Uid) {
    && id in s.registry.agentsById
    && exists t: Track, n: nat, m: AgentToServer ::
         s.registry.agentsById[id].data == Processed(t, n, m) && m.report == s.client.core.stored
  }

  lemma {:induction false} AnswerArrives(s: System, captured: Captured)
    requires Resting(s) && !s.client.locked && s.wires[s.live].down != [] && s.wires[s.live].down[0]
    ensures var r := Play(s, Answer(captured, s.live));
            && Resting(r) && r.client.core.stored == s.client.core.stored
            && FullyReported(r, s.client.core.out.message.instanceUid)
  {
    var q := AnswerIsReady(s, captured);
    var d := SendsArrive(q);
    ArrivedRecord(q, d);
    PlayConcat(s, [Hear(captured)] + Steps(RECEIVER, 12), Sends(s.live));
    var m, r := q.client.core.out.message, Served(Written(q, d), s.live);
    var found := Found(q.registry, m.instanceUid, s.live, NEW_TRACK).agentsById[m.instanceUid];
    assert r.registry.agentsById[m.instanceUid].data == Processed(found.data, |Stream(q)|, m);
  }

  /** Main result: from every state of every run in which nothing is under way but a request for the
      full state, the answer to it ends with a record that holds everything that the client stores and
      the server keeps up to date. */
  lemma {:induction false} AnswerHeals(es: seq<SystemEvent>, captured: Captured)
    requires Resting(AfterRun(es))
    requires var s := AfterRun(es); s.wires[s.live].down != [] && s.wires[s.live].down[0]
    ensures var s := AfterRun(es); var r := Play(s, Answer(captured, s.live));
            && Resting(r) && r.client.core.stored == s.client.core.stored
            && forall f | Replicated(f) :: HoldsStored(r, s.client.core.out.message.instanceUid, f)
  {
    var s := AfterRun(es);
    var r, id := Play(s, Answer(captured, s.live)), s.client.core.out.message.instanceUid;
    SystemIsFree(es);
    AnswerArrives(s, captured);
    AfterRunPlays(es, Answer(captured, s.live));
    SystemRuns(es + Answer(captured, s.live));
    forall f | Replicated(f) ensures HoldsStored(r, id, f) {
      FullReportIsHeld(r, id, f);
    }
  }

  /** A report of everything that is stored leaves the record with nothing else. */
  lemma {:induction false} FullReportIsHeld(s: System, id: Uid, f: Field)
    requires SystemOk(s) && FullyReported(s, id) && Replicated(f)
    ensures HoldsStored(s, id, f)
  {
    var t: Track, n: nat, m: AgentToServer :|
      s.registry.agentsById[id].data == Processed(t, n, m) && m.report == s.client.core.stored;
    UpdatedField(t.status, m, f);
    assert RecordOk(s, s.registry.agentsById[id]);
  }

  /** The client of the system runs as it does alone. */
  lemma {:induction false} ClientOfRun(es: seq<SystemEvent>) returns (ces: seq<Event>)
    ensures AfterRun(es).client == After(ces)
  {
    if es == [] {
      ces := [];
    } else {
      ces := ClientOfRun(es[..|es| - 1]);
      var s, e := AfterRun(es[..|es| - 1]), es[|es| - 1];
      if EnabledIn(s, e) {
        match e
        case ClientStep(ce, _) => AfterSnoc(ces, ce); ces := ces + [ce];
        case Hear(captured) =>
          if s.wires[s.live].down[0] {
            AfterSnoc(ces, Begin(RECEIVER, ReportFullState(captured)));
            ces := ces + [Begin(RECEIVER, ReportFullState(captured))];
          }
        case _ =>
      }
    }
  }

  lemma {:induction false} SystemIsFree(es: seq<SystemEvent>)
    requires AllQuiet(AfterRun(es).client)
    ensures !AfterRun(es).client.locked
  {
    var ces := ClientOfRun(es);
    NobodyHolds(ces);
  }

  // ---- A heartbeat ---------------------------------------------------------------------------------

  lemma {:induction false} BeatBegins(s: System)
    requires s.client.sender == Waiting
    ensures NextSystem(s, ClientStep(Beat, true)) ==
              s.(client := s.client.(threads := s.client.threads[SENDER := HEARTBEAT_PROGRAM], sender := Beating))
  {
    SilentStep(s, Beat, true);
  }

  lemma {:induction false} HeartbeatRuns(s: System) returns (d: Client)
    requires Resting(s) && !s.client.locked
    ensures Play(s, [ClientStep(Beat, true)] + Steps(SENDER, 3)) == s.(client := d)
    ensures Ran(s.client.(sender := Beating), d, SENDER, HEARTBEAT_PROGRAM)
  {
    var beating := s.client.(threads := s.client.threads[SENDER := HEARTBEAT_PROGRAM], sender := Beating);
    BeatBegins(s);
    HeartbeatActs(s.client.core);
    d := RunsToEnd(s.(client := beating), SENDER, HEARTBEAT_PROGRAM, 0, 1);
    assert beating.threads[SENDER := []] == s.client.threads[SENDER := []];
    PlayOne(s, ClientStep(Beat, true));
    PlayConcat(s, [ClientStep(Beat, true)], Steps(SENDER, 3));
  }

  /** Whatever is in the slot is pending and scheduled. */
  lemma {:induction false} HeartbeatIsReady(s: System) returns (q: System)
    requires Resting(s) && !s.client.locked
    ensures q == Play(s, [ClientStep(Beat, true)] + Steps(SENDER, 3) + [ClientStep(Move(BeatDone), true)])
    ensures Resting(q) && !q.client.locked && q == s.(client := q.client) && Stream(q) == Stream(s)
    ensures q.client.core == s.client.core.(out := s.client.core.out.(pending := true), token := true)
    ensures q.client.log.overlap == s.client.log.overlap
  {
    var done := ClientStep(Move(BeatDone), true);
    var ran := HeartbeatRuns(s);
    HeartbeatActs(s.client.core);
    PlaySnoc(s, [ClientStep(Beat, true)] + Steps(SENDER, 3), done);
    BeatIsDone(s.(client := ran));
    q := s.(client := ran.(sender := Waiting));
  }

  lemma {:induction false} BeatIsDone(s: System)
    requires s.client.sender == Beating && Quiet(s.client, SENDER)
    ensures NextSystem(s, ClientStep(Move(BeatDone), true)) == s.(client := s.client.(sender := Waiting))
  {
    assert Next(s.client, Move(BeatDone)) == s.client.(sender := Waiting);
    SilentStep(s, Move(BeatDone), true);
  }

  /** The next message will show whether the record's last one was lost: the numbers that were skipped,
      if any, are not a multiple of 2^64. */
  predicate GapShows(s: System, t: Track) {
    t.last < |Stream(s)| && ((|Stream(s)| - t.last - 1) % SEQUENCE_MODULUS == 0 ==> t.last + 1 == |Stream(s)|)
  }

  /** A heartbeat has arrived, and the response to it is on its way back. */
  ghost predicate Beaten(s: System, r: System) {
    && Resting(r) && r.live == s.live && |r.wires[r.live].down| == 1 && !r.client.core.token
    && r.client.core.stored == s.client.core.stored
    && r.client.core.out.message.instanceUid == s.client.core.out.message.instanceUid
  }

  lemma {:induction false} HeartbeatArrives(s: System) returns (q: System, d: Client)
    requires Resting(s) && !s.client.locked && s.wires[s.live].down == []
    ensures Stream(q) == Stream(s) && q == s.(client := q.client)
    ensures q.client.core.out.message == s.client.core.out.message
    ensures SlotPopped(q.client, d) && q.client.core.out.pending && AllQuiet(d)
    ensures EnabledIn(Written(q, d), Serve(s.live))
    ensures d.log.overlap == s.client.log.overlap
    ensures Play(s, Heartbeat(s.live)) == Served(Written(q, d), s.live)
    ensures Beaten(s, Served(Written(q, d), s.live))
  {
    q := HeartbeatIsReady(s);
    d := SendsArrive(q);
    ArrivedRecord(q, d);
    PlayConcat(s, [ClientStep(Beat, true)] + Steps(SENDER, 3) + [ClientStep(Move(BeatDone), true)], Sends(s.live));
  }

  /** The server's record of the client, which it knows to report `f`. */
  ghost predicate KnownToReport(s: System, id: Uid, f: Field) {
    && id in s.registry.agentsById && id == s.client.core.out.message.instanceUid
    && var e := s.registry.agentsById[id];
       e.conn == s.live && Reporting(e.data, f) && !e.data.blind && GapShows(s, e.data)
  }

  lemma {:induction false} SeesTheGap(s: System, t: Track, m: AgentToServer)
    requires TrackOk(s.client, t) && !t.blind && GapShows(s, t)
    requires m.sequenceNum == |Stream(s)| % SEQUENCE_MODULUS
    ensures !Processed(t, |Stream(s)|, m).blind
  {
    GapIsSeen(t.last, |Stream(s)|, t.status.value, m);
  }

  lemma {:induction false} NothingMoreOnItsWay(s: System, c: Client, t: Track, f: Field)
    requires Resting(s) && s.wires[s.live].down == [false] && SlotPopped(c, s.client) && c.core.out.pending
    requires t.last + 1 == |Stream(s)| && (f == HealthField || f == RemoteConfigField)
    requires f == RemoteConfigField ==> !s.client.log.overlap
    ensures NothingOnItsWay(s, t, f)
  {
    assert !Carries(Remainder(c.core.out.message).report, f);
  }

  /** Either the record is right, or the server asks for the full state. */
  lemma {:induction false} HeartbeatHelps(es: seq<SystemEvent>, id: Uid, f: Field)
    requires Resting(AfterRun(es)) && KnownToReport(AfterRun(es), id, f)
    requires var s := AfterRun(es);
             s.wires[s.live].down == [] && (f == RemoteConfigField ==> !s.client.log.overlap)
    ensures var s := AfterRun(es); var r := Play(s, Heartbeat(s.live));
            Beaten(s, r) && (HoldsStored(r, id, f) || r.wires[r.live].down[0])
  {
    var s := AfterRun(es);
    SystemIsFree(es);
    SystemRuns(es);
    var q, d := HeartbeatArrives(s);
    ArrivedRecord(q, d);
    AfterRunPlays(es, Heartbeat(s.live));
    var r, t := Served(Written(q, d), s.live), s.registry.agentsById[id].data;
    assert RecordOk(s, s.registry.agentsById[id]);
    SeesTheGap(s, t, s.client.core.out.message);
    if !r.wires[r.live].down[0] {
      NothingMoreOnItsWay(r, q.client, r.registry.agentsById[id].data, f);
      QuietSystemIsCoherent(es + Heartbeat(s.live), id, f);
    }
  }

  lemma {:induction false} NoStepsLeft(s: System, t: nat, n: nat)
    requires Quiet(s.client, t)
    ensures Play(s, Steps(t, n)) == s
  {
    if n > 0 {
      NoStepsLeft(s, t, n - 1);
      PlaySnoc(s, Steps(t, n - 1), ClientStep(Advance(t), true));
    }
  }

  lemma {:induction false} NothingToSend(s: System)
    requires Resting(s) && !s.client.core.token
    ensures Play(s, Sends(s.live)) == s
  {
    assert Next(s.client, Move(Take)) == s.client && Next(s.client, Move(Send)) == s.client;
    SilentStep(s, Move(Take), true);
    SilentStep(s, Move(Send), true);
    PlayThree(s, ClientStep(Move(Take), true), ClientStep(Move(Send), true), Serve(s.live));
  }

  /** A response that asks for nothing is taken off the wire, and that is all. */
  lemma {:induction false} NothingToAnswer(s: System, captured: Captured)
    requires Resting(s) && s.wires[s.live].down == [false] && !s.client.core.token
    ensures Play(s, Answer(captured, s.live)) == s.(wires := s.wires[s.live := Wire([], [])])
  {
    var heard := s.(wires := s.wires[s.live := Wire([], [])]);
    assert [false][1..] == [] && NextSystem(s, Hear(captured)) == heard;
    PlayOne(s, Hear(captured));
    PlayConcat(s, [Hear(captured)], Steps(RECEIVER, 12));
    NoStepsLeft(heard, RECEIVER, 12);
    PlayConcat(s, [Hear(captured)] + Steps(RECEIVER, 12), Sends(s.live));
    NothingToSend(heard);
  }

  /** Main result: from every state of every run in which nothing is under way, a heartbeat, and the
      answer to what the server may ask then, end with a record that holds the stored health, or remote
      config status, of an agent that the server knows to report it; whatever was lost before. */
  lemma {:induction false} HeartbeatHeals(es: seq<SystemEvent>, captured: Captured, id: Uid, f: Field)
    requires Resting(AfterRun(es)) && KnownToReport(AfterRun(es), id, f)
    requires var s := AfterRun(es);
             s.wires[s.live].down == [] && (f == RemoteConfigField ==> !s.client.log.overlap)
    ensures var s := AfterRun(es); var r := Play(s, Heartbeat(s.live) + Answer(captured, s.live));
            Resting(r) && r.client.core.stored == s.client.core.stored && HoldsStored(r, id, f)
  {
    var s := AfterRun(es);
    HeartbeatHelps(es, id, f);
    AfterRunPlays(es, Heartbeat(s.live));
    PlayConcat(s, Heartbeat(s.live), Answer(captured, s.live));
    AnswersIfAsked(es + Heartbeat(s.live), captured, id, f);
  }

  lemma {:induction false} AnswersIfAsked(es: seq<SystemEvent>, captured: Captured, id: Uid, f: Field)
    requires var s := AfterRun(es);
             && Resting(s) && |s.wires[s.live].down| == 1 && !s.client.core.token && Replicated(f)
             && id == s.client.core.out.message.instanceUid
             && (HoldsStored(s, id, f) || s.wires[s.live].down[0])
    ensures var s := AfterRun(es); var r := Play(s, Answer(captured, s.live));
            Resting(r) && r.client.core.stored == s.client.core.stored && HoldsStored(r, id, f)
  {
    var s := AfterRun(es);
    if s.wires[s.live].down[0] {
      AnswerHeals(es, captured);
    } else {
      NothingToAnswer(s, captured);
    }
  }
}
