/** Nothing gets stuck: from every state of every run, with the connection and the sender loop alive,
    steps that only finish what has begun lead to rest; and what is asked for then happens. */
module Progress {
  import opened Messages
  import opened NextMessages
  import opened ClientMachine
  import opened Refinement
  import opened Replicas
  import opened Registries
  import opened Protocol
  import opened Coherence
  import opened ClientApi
  import opened Runs
  import opened MessageMutex
  import opened Healing

  // ---- Threads run to their ends -------------------------------------------------------------------

  /** A bound on the actions of a program, also of what a comparison may add. */
  function Weight(p: seq<Action>): nat {
    2 * |p| + if Compares(p) then 20 else if p != [] && p[0].PutCustom? then 1 else 0
  }

  lemma {:induction false} ContinueIsLighter(c: Core, p: seq<Action>)
    requires ProgramOk(p) && p != []
    ensures Weight(Continue(c, p[0], p[1..])) < Weight(p)
  {
    ContinueOk(c, p);
  }

  lemma {:induction false} StepsCons(s: System, t: nat, n: nat)
    ensures Play(s, Steps(t, n + 1)) == Play(NextSystem(s, ClientStep(Advance(t), true)), Steps(t, n))
  {
    if n == 0 {
      assert Steps(t, 1) == [ClientStep(Advance(t), true)];
      PlayOne(s, ClientStep(Advance(t), true));
    } else {
      StepsCons(s, t, n - 1);
      PlaySnoc(s, Steps(t, n), ClientStep(Advance(t), true));
      PlaySnoc(NextSystem(s, ClientStep(Advance(t), true)), Steps(t, n - 1), ClientStep(Advance(t), true));
    }
  }

  ghost predicate ThreadsOk(c: Client) {
    MutexInv(c) && Programs(c) && OwnThreads(c)
  }

  /** If the mutex is taken, thread `t` has it. */
  ghost predicate MayGoOn(c: Client, t: nat) {
    t in c.threads && (c.locked ==> Holding(c.threads[t]))
  }

  lemma {:induction false} GoesOn(c: Client, t: nat)
    requires ThreadsOk(c) && MayGoOn(c, t) && c.threads[t] != []
    ensures Enabled(c, Advance(t)) && ThreadsOk(DoAdvance(c, t)) && MayGoOn(DoAdvance(c, t), t)
    ensures Weight(DoAdvance(c, t).threads[t]) < Weight(c.threads[t])
  {
    var p := c.threads[t];
    AdvancePrograms(c, t);
    AdvanceKeepsMutex(c, t);
    ContinueIsGuarded(c.core, p);
    ContinueIsLighter(c.core, p);
  }

  /** Only thread `t` has run, to its end. */
  ghost predicate Finished(s: System, r: System, t: nat) {
    && r == s.(client := r.client) && r.client.threads == s.client.threads[t := []] && !r.client.locked
    && r.client.sender == s.client.sender && Stream(r) == Stream(s) && ThreadsOk(r.client)
  }

  lemma {:induction false} ThreadFinishes(s: System, t: nat) returns (n: nat)
    requires ThreadsOk(s.client) && MayGoOn(s.client, t)
    ensures Finished(s, Play(s, Steps(t, n)), t)
    decreases Weight(s.client.threads[t])
  {
    if s.client.threads[t] == [] {
      n := 0;
      assert s.client.threads[t := []] == s.client.threads;
    } else {
      GoesOn(s.client, t);
      var next := NextSystem(s, ClientStep(Advance(t), true));
      OneStep(s, t);
      n := ThreadFinishes(next, t);
      StepsCons(s, t, n);
      n := n + 1;
    }
  }

  lemma {:induction false} OneStep(s: System, t: nat)
    requires Enabled(s.client, Advance(t))
    ensures var r := NextSystem(s, ClientStep(Advance(t), true));
            && r == s.(client := DoAdvance(s.client, t)) && Stream(r) == Stream(s)
            && r.client.sender == s.client.sender && r.client.threads[t := []] == s.client.threads[t := []]
  {
    var q := Continue(s.client.core, s.client.threads[t][0], s.client.threads[t][1..]);
    SilentStep(s, Advance(t), true);
    assert DoAdvance(s.client, t).threads == s.client.threads[t := q];
    assert s.client.threads[t := q][t := []] == s.client.threads[t := []];
  }

  // ---- Coming to rest --------------------------------------------------------------------------------

  /** A step that finishes what has begun: it is no call, it loses nothing and leaves the connection. */
  predicate Inward(e: SystemEvent, live: Connection) {
    match e
    case ClientStep(ce, written) =>
      written && (ce.Advance? || (ce.Move? && ce.step in {FirstSend, BeatDone, Send}))
    case Hear(_) => true
    case Serve(c) => c == live
    case _ => false
  }

  predicate AllInward(es: seq<SystemEvent>, live: Connection) {
    forall e <- es :: Inward(e, live)
  }

  ghost predicate Reachable(s: System) {
    exists es :: AfterRun(es) == s
  }

  ghost predicate Settles(s: System, r: System) {
    exists es :: AllInward(es, s.live) && Play(s, es) == r
  }

  lemma {:induction false} SettlesNowhere(s: System)
    ensures Settles(s, s)
  {
    assert Play(s, []) == s;
  }

  lemma {:induction false} SettlesOn(s: System, q: System, es: seq<SystemEvent>)
    requires Settles(s, q) && AllInward(es, s.live)
    ensures Settles(s, Play(q, es))
  {
    var before :| AllInward(before, s.live) && Play(s, before) == q;
    PlayConcat(s, before, es);
    assert AllInward(before + es, s.live);
  }

  lemma {:induction false} SettlesOneMore(s: System, q: System, e: SystemEvent)
    requires Settles(s, q) && Inward(e, s.live)
    ensures Settles(s, NextSystem(q, e))
  {
    SettlesOn(s, q, [e]);
    PlayOne(q, e);
  }

  lemma {:induction false} StaysReachable(s: System, r: System)
    requires Reachable(s) && Settles(s, r)
    ensures Reachable(r)
  {
    var es :| AfterRun(es) == s;
    var more :| AllInward(more, s.live) && Play(s, more) == r;
    AfterRunPlays(es, more);
  }

  lemma {:induction false} ReachableIsOk(s: System)
    requires Reachable(s)
    ensures SystemOk(s) && ThreadsOk(s.client)
  {
    var es :| AfterRun(es) == s;
    SystemRuns(es);
    var ces := ClientOfRun(es);
    RunsKeepMutex(ces);
  }

  lemma {:induction false} StepsAreInward(t: nat, n: nat, live: Connection)
    ensures AllInward(Steps(t, n), live)
  {
    if n > 0 {
      StepsAreInward(t, n - 1, live);
    }
  }

  function Busy(c: Client): set<nat> {
    set t | t in c.threads && c.threads[t] != []
  }

  /** Some thread that the mutex does not stop. */
  lemma {:induction false} SomeMayGoOn(c: Client) returns (t: nat)
    requires ThreadsOk(c) && Busy(c) != {}
    ensures t in Busy(c) && MayGoOn(c, t)
  {
    if c.locked {
      t :| t in c.threads && Holding(c.threads[t]);
    } else {
      t :| t in Busy(c);
    }
  }

  /** Main result: no thread waits for ever; some order lets all of them finish, and the mutex is free. */
  lemma {:induction false} AllThreadsFinish(s: System, q: System) returns (r: System)
    requires Settles(s, q) && ThreadsOk(q.client)
    ensures Settles(s, r) && r == q.(client := r.client) && ThreadsOk(r.client)
    ensures AllQuiet(r.client) && !r.client.locked && r.client.sender == q.client.sender && Stream(r) == Stream(q)
    decreases Busy(q.client)
  {
    if Busy(q.client) == {} {
      assert forall t <- q.client.threads :: t !in Busy(q.client);
      r := q;
    } else {
      var t := SomeMayGoOn(q.client);
      var n := ThreadFinishes(q, t);
      var next := Play(q, Steps(t, n));
      StepsAreInward(t, n, s.live);
      SettlesOn(s, q, Steps(t, n));
      assert Busy(next.client) == Busy(q.client) - {t};
      r := AllThreadsFinish(s, next);
    }
  }

  predicate LoopRuns(c: Client) {
    c.sender in {Preparing, Waiting, Beating, Took}
  }

  function StepToWait(c: Client): SenderStep
    requires LoopRuns(c) && c.sender != Waiting
  {
    match c.sender
    case Preparing => FirstSend
    case Beating => BeatDone
    case _ => Send
  }

  /** Once the threads are done, the loop comes back to its select. */
  lemma {:induction false} LoopWaits(s: System, q: System) returns (r: System)
    requires Settles(s, q) && q.live == s.live && q.live in q.wires && LoopRuns(q.client)
    requires AllQuiet(q.client) && !q.client.locked
    ensures Settles(s, r) && r.live == s.live && r.live in r.wires && r.client.sender == Waiting && AllQuiet(r.client)
  {
    r := q;
    if q.client.sender != Waiting {
      var step := StepToWait(q.client);
      SettlesOneMore(s, q, ClientStep(Move(step), true));
      r := NextSystem(q, ClientStep(Move(step), true));
      MovesBack(q, step);
    }
  }

  lemma {:induction false} MovesBack(s: System, step: SenderStep)
    requires StepEnabled(s.client, step) && Target(step) == Waiting && s.live in s.wires
    ensures var r := NextSystem(s, ClientStep(Move(step), true));
            && r.live == s.live && r.live in r.wires
            && r.client.sender == Waiting && r.client.threads == s.client.threads
  {
    MoveEffect(s.client, step);
  }

  lemma {:induction false} AllServed(s: System, q: System) returns (r: System)
    requires Reachable(s) && Settles(s, q) && q.live == s.live && q.live in q.wires
    ensures Settles(s, r) && r.live == s.live && r.client == q.client && r.live in r.wires && r.wires[r.live].up == []
    decreases |q.wires[q.live].up|
  {
    if q.wires[q.live].up == [] {
      r := q;
    } else {
      StaysReachable(s, q);
      ReachableIsOk(q);
      assert WireOk(q, q.live, q.wires[q.live]) && q.wires[q.live].up[0] in q.wires[q.live].up;
      SettlesOneMore(s, q, Serve(q.live));
      r := AllServed(s, Served(q, q.live));
    }
  }

  lemma {:induction false} AllHeard(s: System, q: System) returns (r: System)
    requires Reachable(s) && Settles(s, q) && q.live == s.live && AtRest(q)
    ensures Settles(s, r) && r.live == s.live && AtRest(r) && r.wires[r.live].down == []
    decreases |q.wires[q.live].down|
  {
    if q.wires[q.live].down == [] {
      r := q;
    } else {
      var heard := NextSystem(q, Hear(FIRST));
      SettlesOneMore(s, q, Hear(FIRST));
      StaysReachable(s, heard);
      ReachableIsOk(heard);
      var next := AllThreadsFinish(s, heard);
      r := AllHeard(s, next);
    }
  }

  /** Main result: from every state of every run in which the connection and the sender loop are alive,
      some run that only finishes what has begun comes to rest, with nothing on its way; from there
      `HeartbeatHeals` goes on. */
  lemma {:induction false} ComesToRest(es: seq<SystemEvent>) returns (more: seq<SystemEvent>)
    requires AfterRun(es).live in AfterRun(es).wires && LoopRuns(AfterRun(es).client)
    ensures AllInward(more, AfterRun(es).live)
    ensures var r := AfterRun(es + more); AtRest(r) && r.live == AfterRun(es).live && r.wires[r.live].down == []
  {
    var s := AfterRun(es);
    SettlesNowhere(s);
    ReachableIsOk(s);
    var quiet := AllThreadsFinish(s, s);
    var waiting := LoopWaits(s, quiet);
    var served := AllServed(s, waiting);
    var r := AllHeard(s, served);
    more :| AllInward(more, s.live) && Play(s, more) == r;
    AfterRunPlays(es, more);
  }

  // ---- What is asked for happens ----------------------------------------------------------------------

  /** Thread `t` has done `i` actions of a stop since `c`. */
  ghost predicate StoppingAt(c: Client, d: Client, t: nat, i: nat)
    requires i <= 5
  {
    && d.threads == c.threads[t := STOP_PROGRAM[i..]] && d.locked == (1 <= i < 3)
    && d.sender == c.sender && d.started == c.started && d.log.popped == c.log.popped
    && (i >= 2 ==> d.core.out.message.agentDisconnect) && (i >= 3 ==> d.core.out.pending)
    && (i >= 4 ==> d.core.token) && (i >= 5 ==> d.cancelled)
  }

  lemma {:induction false} StoppingStep(c: Client, d: Client, t: nat, i: nat)
    requires i < 5 && c.started && StoppingAt(c, d, t, i)
    ensures Enabled(d, Advance(t)) && StoppingAt(c, DoAdvance(d, t), t, i + 1)
  {
    var p, a := STOP_PROGRAM[i..], STOP_PROGRAM[i];
    assert p[0] == a && p[1..] == STOP_PROGRAM[i + 1..];
    assert Continue(d.core, a, p[1..]) == p[1..];
    assert c.threads[t := p][t := p[1..]] == c.threads[t := p[1..]];
  }

  lemma {:induction false} StopIsCalled(s: System, t: nat) returns (d: Client)
    requires AtRest(s) && s.client.started && !s.client.locked && RECEIVER <= t
    ensures Play(s, [ClientStep(Begin(t, Stop), true)] + Steps(t, 5)) == s.(client := d)
    ensures StoppingAt(s.client, d, t, 5)
  {
    var begun := s.(client := s.client.(threads := s.client.threads[t := STOP_PROGRAM]));
    assert Next(s.client, Begin(t, Stop)) == begun.client && STOP_PROGRAM[0..] == STOP_PROGRAM;
    SilentStep(s, Begin(t, Stop), true);
    PlayOne(s, ClientStep(Begin(t, Stop), true));
    PlayConcat(s, [ClientStep(Begin(t, Stop), true)], Steps(t, 5));
    d := StopRuns(s.client, begun, t);
  }

  lemma {:induction false} StopRuns(c: Client, s: System, t: nat) returns (d: Client)
    requires c.started && StoppingAt(c, s.client, t, 0)
    ensures Play(s, Steps(t, 5)) == s.(client := d) && StoppingAt(c, d, t, 5)
  {
    d := s.client;
    for i := 0 to 5
      invariant StoppingAt(c, d, t, i) && Play(s, Steps(t, i)) == s.(client := d)
    {
      StoppingStep(c, d, t, i);
      OneMoreStep(s, d, t, i);
      d := DoAdvance(d, t);
    }
  }

  const DRAIN := [ ClientStep(Move(Notice), true), ClientStep(Move(DrainTake), true),
                   ClientStep(Move(SendLast), true), ClientStep(Move(WriteClose), true) ]

  /** The loop sees that it was cancelled, and takes the token once more. */
  lemma {:induction false} TakesLast(s: System) returns (d: Client)
    requires s.client.sender == Waiting && s.client.cancelled && s.client.core.token
    ensures Play(s, DRAIN[..2]) == s.(client := d)
    ensures d == s.client.(sender := TookLast, core := s.client.core.(token := false))
  {
    var noticed := s.client.(sender := Draining);
    d := noticed.(sender := TookLast, core := noticed.core.(token := false));
    assert Next(s.client, Move(Notice)) == noticed && Next(noticed, Move(DrainTake)) == d;
    SilentStep(s, Move(Notice), true);
    SilentStep(s.(client := noticed), Move(DrainTake), true);
    PlayOne(s, DRAIN[0]);
    PlaySnoc(s, [DRAIN[0]], DRAIN[1]);
    assert [DRAIN[0]] + [DRAIN[1]] == DRAIN[..2];
  }

  lemma {:induction false} Closes(s: System)
    requires s.client.sender == Closing
    ensures NextSystem(s, ClientStep(Move(WriteClose), true)) == s.(client := s.client.(sender := Closed))
  {
    assert Next(s.client, Move(WriteClose)) == s.client.(sender := Closed);
    SilentStep(s, Move(WriteClose), true);
  }

  lemma {:induction false} WritesLast(s: System) returns (d: Client)
    requires s.live in s.wires && s.client.sender == TookLast && !s.client.locked
    requires s.client.core.out.pending && s.client.core.out.message != EMPTY_MESSAGE
    ensures Play(s, DRAIN[2..]) == Written(s, d)
    ensures d.sender == Closed && d.log.popped == Stream(s) + [s.client.core.out.message]
  {
    var sent := DoMove(s.client, SendLast);
    d := sent.(sender := Closed);
    StepWrites(s, SendLast);
    Closes(Written(s, sent));
    PlayOne(s, DRAIN[2]);
    PlaySnoc(s, [DRAIN[2]], DRAIN[3]);
    assert [DRAIN[2]] + [DRAIN[3]] == DRAIN[2..];
  }

  lemma {:induction false} Drains(s: System) returns (d: Client)
    requires s.live in s.wires && s.client.sender == Waiting && !s.client.locked && s.client.cancelled
    requires s.client.core.token && s.client.core.out.pending && s.client.core.out.message != EMPTY_MESSAGE
    ensures Play(s, DRAIN) == Written(s, d)
    ensures d.sender == Closed && d.log.popped == Stream(s) + [s.client.core.out.message]
  {
    var taken := TakesLast(s);
    d := WritesLast(s.(client := taken));
    PlayConcat(s, DRAIN[..2], DRAIN[2..]);
    assert DRAIN[..2] + DRAIN[2..] == DRAIN;
  }

  /** Main result: from every state of every run that is at rest, a stop makes the loop write a message
      with AgentDisconnect and close. */
  lemma {:induction false} StopCloses(es: seq<SystemEvent>, t: nat)
    requires AtRest(AfterRun(es)) && RECEIVER <= t
    ensures var s := AfterRun(es); var r := Play(s, [ClientStep(Begin(t, Stop), true)] + Steps(t, 5) + DRAIN);
            && r.client.sender == Closed && |Stream(r)| == |Stream(s)| + 1 && Stream(r)[|Stream(s)|].agentDisconnect
            && s.live in r.wires && r.wires[s.live].up == [|Stream(s)|]
  {
    var s := AfterRun(es);
    assert Reachable(s);
    ReachableIsOk(s);
    SystemIsFree(es);
    var d := StopIsCalled(s, t);
    var closed := Drains(s.(client := d));
    PlayConcat(s, [ClientStep(Begin(t, Stop), true)] + Steps(t, 5), DRAIN);
  }

  function CustomProgram(m: CustomMessage): seq<Action> {
    [Lock, PutCustom(m), Unlock, Schedule]
  }

  /** Thread `t` has done `i` actions of sending `m` since `c`, whose slot has no custom message. */
  ghost predicate CustomAt(c: Client, d: Client, t: nat, m: CustomMessage, i: nat)
    requires i <= 4
  {
    && d.threads == c.threads[t := CustomProgram(m)[i..]] && d.locked == (1 <= i < 3)
    && d.sender == c.sender && d.log.popped == c.log.popped && d.core.out.channel == c.core.out.channel
    && d.core.out.message.instanceUid == c.core.out.message.instanceUid
    && d.core.out.message.customMessage == (if i >= 2 then Some(m) else None)
    && (i >= 2 ==> Accepted(m, c.core.out.channel) in d.log.accepted)
    && (i >= 3 ==> d.core.out.pending) && (i >= 4 ==> d.core.token)
  }

  lemma {:induction false} CustomStep(c: Client, d: Client, t: nat, m: CustomMessage, i: nat)
    requires i < 4 && CustomAt(c, d, t, m, i)
    ensures Enabled(d, Advance(t)) && CustomAt(c, DoAdvance(d, t), t, m, i + 1)
  {
    var p, a := CustomProgram(m)[i..], CustomProgram(m)[i];
    assert p[0] == a && p[1..] == CustomProgram(m)[i + 1..];
    assert Continue(d.core, a, p[1..]) == p[1..];
    assert c.threads[t := p][t := p[1..]] == c.threads[t := p[1..]];
  }

  lemma {:induction false} CustomIsCalled(s: System, t: nat, m: CustomMessage) returns (d: Client)
    requires Resting(s) && !s.client.locked && RECEIVER <= t && CallEnabled(s.client, SendCustomMessage(m))
    requires s.client.core.out.message.customMessage == None
    ensures Play(s, [ClientStep(Begin(t, SendCustomMessage(m)), true)] + Steps(t, 4)) == s.(client := d)
    ensures CustomAt(s.client, d, t, m, 4)
  {
    var e := Begin(t, SendCustomMessage(m));
    var begun := s.(client := s.client.(threads := s.client.threads[t := CustomProgram(m)]));
    assert Next(s.client, e) == begun.client && CustomProgram(m)[0..] == CustomProgram(m);
    SilentStep(s, e, true);
    PlayOne(s, ClientStep(e, true));
    PlayConcat(s, [ClientStep(e, true)], Steps(t, 4));
    d := CustomRuns(s.client, begun, t, m);
  }

  lemma {:induction false} CustomRuns(c: Client, s: System, t: nat, m: CustomMessage) returns (d: Client)
    requires CustomAt(c, s.client, t, m, 0)
    ensures Play(s, Steps(t, 4)) == s.(client := d) && CustomAt(c, d, t, m, 4)
  {
    d := s.client;
    for i := 0 to 4
      invariant CustomAt(c, d, t, m, i) && Play(s, Steps(t, i)) == s.(client := d)
    {
      CustomStep(c, d, t, m, i);
      OneMoreStep(s, d, t, i);
      d := DoAdvance(d, t);
    }
  }

  /** Main result: from every state of every run that is at rest and has no custom message to send yet,
      a supported one leaves with the next message, and the caller's channel is closed. */
  lemma {:induction false} CustomMessageLeaves(es: seq<SystemEvent>, t: nat, m: CustomMessage)
    requires Resting(AfterRun(es)) && RECEIVER <= t && CallEnabled(AfterRun(es).client, SendCustomMessage(m))
    requires AfterRun(es).client.core.out.message.customMessage == None
    ensures var s := AfterRun(es);
            var r := Play(s, [ClientStep(Begin(t, SendCustomMessage(m)), true)] + Steps(t, 4) + Sends(s.live));
            var channel := s.client.core.out.channel;
            && |Stream(r)| == |Stream(s)| + 1 && Stream(r)[|Stream(s)|].customMessage == Some(m)
            && Accepted(m, channel) in r.client.log.accepted && channel in r.client.core.out.closed
            && r.client.core.out.message.customMessage == None
  {
    var s := AfterRun(es);
    SystemIsFree(es);
    var d := CustomIsCalled(s, t, m);
    var sent := SendsArrive(s.(client := d));
    PlayConcat(s, [ClientStep(Begin(t, SendCustomMessage(m)), true)] + Steps(t, 4), Sends(s.live));
    ArrivedRecord(s.(client := d), sent);
  }

  /** What a removal of a connection leaves of it. */
  lemma {:induction false} CloseForgets(es: seq<SystemEvent>, c: Connection)
    requires c in AfterRun(es).wires
    ensures var s := AfterRun(es); var r := NextSystem(s, Close(c));
            && r.wires == s.wires - {c} && r.client == s.client
            && (forall id :: id in r.registry.agentsById <==>
                  id in s.registry.agentsById && s.registry.agentsById[id].conn != c)
            && (forall id <- r.registry.agentsById :: r.registry.agentsById[id] == s.registry.agentsById[id])
  {
    SystemRuns(es);
    RemovalIsExact(AfterRun(es).registry, c);
  }

  /** A plain HTTP retry brings the newest message to the server again. */
  lemma {:induction false} RetryArrives(s: System)
    requires Stream(s) != []
    ensures var r := Play(s, [Dial(true), Serve(s.live + 1)]);
            var n := |Stream(s)| - 1;
            && r.live == s.live + 1 && r.live in r.wires && r.wires[r.live].up == []
            && Stream(s)[n].instanceUid in r.registry.agentsById
            && r.registry.agentsById[Stream(s)[n].instanceUid].data.last == n
  {
    var d, n := Dialed(s, true), |Stream(s)| - 1;
    PlayOne(s, Dial(true));
    PlaySnoc(s, [Dial(true)], Serve(s.live + 1));
    assert [Dial(true)] + [Serve(s.live + 1)] == [Dial(true), Serve(s.live + 1)];
    assert d.wires[s.live + 1] == Wire([n], []) && [n][1..] == [];
  }
}
