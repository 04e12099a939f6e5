/** A stop announces itself: the message that carries AgentDisconnect is popped for sending before
    the close frame is written, whatever the heartbeat and the setters do meanwhile. */
module GracefulStop {
  import opened ClientMachine
  import opened Refinement
  import opened SenderLoop

  /** A message that carries AgentDisconnect was popped for sending. */
  ghost predicate Announced(c: Client) {
    exists m <- c.log.popped :: m.agentDisconnect
  }

  /** The announcement is in the slot, and a pop will find it. */
  predicate Ready(c: Client) {
    c.core.out.message.agentDisconnect && c.core.out.pending
  }

  predicate OnItsWay(c: Client) {
    Ready(c) && (c.core.token || AboutToPop(c))
  }

  /** How far a thread that will cancel has come with its announcement. */
  ghost predicate Stage(c: Client, p: seq<Action>) {
    Cancel in p ==>
      && 1 <= |p| <= |STOP_PROGRAM| && p == STOP_PROGRAM[|STOP_PROGRAM| - |p|..]
      && (|p| <= 3 ==> Announced(c) || c.core.out.message.agentDisconnect)
      && (|p| <= 2 ==> Announced(c) || Ready(c))
      && (|p| <= 1 ==> Announced(c) || OnItsWay(c))
  }

  ghost predicate StopInv(c: Client) {
    && (forall t <- c.threads :: Stage(c, c.threads[t]))
    && (c.cancelled ==> Announced(c) || OnItsWay(c))
    && ((c.sender == Draining || c.sender == TookLast) && !c.lost ==> c.cancelled)
    && ((c.sender == Closing || c.sender == Closed) && !c.lost ==> Announced(c))
    && (!c.started ==> c.sender == Down)
  }

  lemma OnlyStopCancels(call: Call)
    ensures Cancel in Program(call) ==> Program(call) == STOP_PROGRAM
  {
    match call
    case SetAgentDescription(_) =>
    case ReportFullState(_) =>
    case SendCustomMessage(_) =>
    case PublishExtra(_) =>
    case _ =>
  }

  /** Everything that `StopInv` claims about a thread survives when no announcement is lost. */
  lemma StageKept(c: Client, d: Client, p: seq<Action>)
    requires Stage(c, p)
    requires Announced(c) ==> Announced(d)
    requires c.core.out.message.agentDisconnect ==> Announced(d) || d.core.out.message.agentDisconnect
    requires Ready(c) ==> Announced(d) || Ready(d)
    requires OnItsWay(c) ==> Announced(d) || OnItsWay(d)
    ensures Stage(d, p)
  {
  }

  lemma MoveKeepsAnnouncement(c: Client, step: SenderStep)
    requires StepEnabled(c, step)
    ensures var d := DoMove(c, step);
            && (Announced(c) ==> Announced(d))
            && (c.core.out.message.agentDisconnect ==> Announced(d) || d.core.out.message.agentDisconnect)
            && (Ready(c) ==> Announced(d) || (Ready(d) && !Pops(step)))
            && (OnItsWay(c) ==> Announced(d) || OnItsWay(d))
  {
    var d := DoMove(c, step);
    if Pops(step) && c.core.out.pending {
      assert d.log.popped == c.log.popped + [c.core.out.message];
      assert forall m <- c.log.popped :: m in d.log.popped;
      assert c.core.out.message in d.log.popped;
    }
  }

  lemma AdvanceKeepsAnnouncement(c: Client, t: nat)
    requires !Quiet(c, t)
    ensures var a, d := c.threads[t][0], DoAdvance(c, t);
            && (Announced(c) ==> Announced(d)) && d.sender == c.sender && d.lost == c.lost && d.started == c.started
            && (c.core.out.message.agentDisconnect || a == Put(DisconnectExtra) ==> d.core.out.message.agentDisconnect)
            && (c.core.out.pending || a == Unlock ==> d.core.out.pending)
            && (c.core.token || a == Schedule ==> d.core.token)
            && d.cancelled == (c.cancelled || (a == Cancel && c.started))
  {
    var d := DoAdvance(c, t);
    assert d.log.popped == c.log.popped;
    match c.threads[t][0]
    case Put(x) =>
    case _ =>
  }

  /** The thread that moves on reaches the next stage. */
  lemma OwnStage(c: Client, t: nat)
    requires !Quiet(c, t) && Stage(c, c.threads[t])
    ensures Stage(DoAdvance(c, t), DoAdvance(c, t).threads[t])
    ensures c.threads[t][0] == Cancel ==> Announced(c) || OnItsWay(c)
  {
    var p, d := c.threads[t], DoAdvance(c, t);
    AdvanceKeepsAnnouncement(c, t);
    if Cancel in p {
      assert p[0] == STOP_PROGRAM[|STOP_PROGRAM| - |p|];
      assert d.threads[t] == p[1..] == STOP_PROGRAM[|STOP_PROGRAM| - |p| + 1..];
    } else {
      NoNewCancel(c.core, p);
    }
  }

  lemma NoNewCancel(c: Core, p: seq<Action>)
    requires p != [] && Cancel !in p
    ensures Cancel !in Continue(c, p[0], p[1..])
  {
    assert forall a :: a in p[1..] ==> a in p;
  }

  lemma AdvanceKeepsStop(c: Client, t: nat)
    requires StopInv(c) && !Quiet(c, t)
    ensures StopInv(DoAdvance(c, t))
  {
    var d := DoAdvance(c, t);
    AdvanceKeepsAnnouncement(c, t);
    OwnStage(c, t);
    forall u <- d.threads ensures Stage(d, d.threads[u]) {
      if u != t {
        assert d.threads[u] == c.threads[u];
        StageKept(c, d, c.threads[u]);
      }
    }
  }

  lemma EventKeepsAnnouncement(c: Client, e: Event)
    requires Enabled(c, e) && !e.Advance?
    ensures var d := Next(c, e);
            && (Announced(c) ==> Announced(d))
            && (c.core.out.message.agentDisconnect ==> Announced(d) || d.core.out.message.agentDisconnect)
            && (Ready(c) ==> Announced(d) || Ready(d))
            && (OnItsWay(c) && (c.started || c.sender == Down) ==> Announced(d) || OnItsWay(d))
  {
    if e.Move? {
      MoveKeepsAnnouncement(c, e.step);
    } else {
      assert Next(c, e).log.popped == c.log.popped;
    }
  }

  lemma EventKeepsStages(c: Client, e: Event, t: nat)
    requires StopInv(c) && OwnThreads(c) && Enabled(c, e) && !e.Advance? && t in Next(c, e).threads
    ensures Stage(Next(c, e), Next(c, e).threads[t])
  {
    var d := Next(c, e);
    EventThreads(c, e);
    EventKeepsAnnouncement(c, e);
    if OldProgram(c, t, d.threads[t]) {
      StageKept(c, d, c.threads[t]);
    } else if e.Begin? {
      OnlyStopCancels(e.call);
    }
  }

  lemma EventKeepsStop(c: Client, e: Event)
    requires StopInv(c) && OwnThreads(c) && Enabled(c, e) && !e.Advance?
    ensures StopInv(Next(c, e))
  {
    forall t <- Next(c, e).threads ensures Stage(Next(c, e), Next(c, e).threads[t]) {
      EventKeepsStages(c, e, t);
    }
    EventKeepsAnnouncement(c, e);
    if e.Move? {
      MoveKeepsAnnouncement(c, e.step);
    }
  }

  lemma {:induction false} StopIsInv(es: seq<Event>)
    ensures StopInv(After(es))
  {
    if es != [] {
      var c, e := After(es[..|es| - 1]), es[|es| - 1];
      StopIsInv(es[..|es| - 1]);
      RunsKeepInv(es[..|es| - 1]);
      if Enabled(c, e) {
        if e.Advance? { AdvanceKeepsStop(c, e.t); } else { EventKeepsStop(c, e); }
      }
    }
  }

  /** Main result: when the sender loop is about to write the close frame, or has written it, and
      its context was cancelled by Stop only, a message with AgentDisconnect has been popped. */
  lemma StopAnnouncesBeforeClose(es: seq<Event>)
    ensures var c := After(es);
            (c.sender == Closing || c.sender == Closed) && !c.lost ==>
              exists k :: 0 <= k < |c.log.popped| && c.log.popped[k].agentDisconnect
  {
    var c := After(es);
    StopIsInv(es);
    if (c.sender == Closing || c.sender == Closed) && !c.lost {
      var m :| m in c.log.popped && m.agentDisconnect;
      var k :| 0 <= k < |c.log.popped| && c.log.popped[k] == m;
    }
  }
}
