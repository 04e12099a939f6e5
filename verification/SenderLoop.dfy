/** Safety of the sender: no wake-up is lost, and custom messages leave exactly once, in order,
    each on its own channel. */
module SenderLoop {
  import opened Messages
  import opened ClientMachine
  import opened Refinement

  // ---- Custom messages ---------------------------------------------------------------------

  function Present<T>(x: Option<T>): seq<T> {
    if x.Some? then [x.value] else []
  }

  /** The custom messages of a stream, in order. */
  function Customs(ms: seq<AgentToServer>): seq<CustomMessage> {
    if ms == [] then []
    else Customs(ms[..|ms| - 1]) + Present(ms[|ms| - 1].customMessage)
  }

  function Contents(accepted: seq<Accepted>): (ms: seq<CustomMessage>)
    ensures |ms| == |accepted|
    ensures forall i :: 0 <= i < |ms| ==> ms[i] == accepted[i].message
  {
    seq(|accepted|, i requires 0 <= i < |accepted| => accepted[i].message)
  }

  /** The custom message that travels, or travelled, with the pop that closes `channel`. */
  function MessageOf(c: Client, channel: nat): Option<CustomMessage>
    requires channel <= |c.log.popped|
  {
    if channel < |c.log.popped| then c.log.popped[channel].customMessage else c.core.out.message.customMessage
  }

  /** Channels are numbered by pops: channel `k` is closed by the pop of message `k`, once. */
  ghost predicate Channels(c: Client) {
    && c.core.out.channel == |c.log.popped|
    && |c.core.out.closed| == |c.log.popped|
    && (forall k :: 0 <= k < |c.log.popped| ==> c.core.out.closed[k] == k)
    && c.core.out.message.sequenceNum == |c.log.popped| % SEQUENCE_MODULUS
    && forall k :: 0 <= k < |c.log.popped| ==> c.log.popped[k].sequenceNum == k % SEQUENCE_MODULUS
  }

  ghost predicate CustomInv(c: Client) {
    && Channels(c)
    && Contents(c.log.accepted) == Customs(c.log.popped) + Present(c.core.out.message.customMessage)
    && (forall a <- c.log.accepted :: a.channel <= |c.log.popped| && MessageOf(c, a.channel) == Some(a.message))
    && (forall ch <- c.log.refused :: ch <= |c.log.popped| && MessageOf(c, ch).Some?)
  }

  lemma CustomsSnoc(ms: seq<AgentToServer>, m: AgentToServer)
    ensures Customs(ms + [m]) == Customs(ms) + Present(m.customMessage)
  {
    assert (ms + [m])[..|ms|] == ms;
  }

  lemma ContentsSnoc(accepted: seq<Accepted>, a: Accepted)
    ensures Contents(accepted + [a]) == Contents(accepted) + [a.message]
  {
  }

  lemma PopKeepsChannels(c: Client)
    requires Channels(c)
    ensures Channels(Pop(c))
  {
  }

  lemma PopKeepsMessages(c: Client, ch: nat)
    requires Channels(c) && ch <= |c.log.popped|
    ensures MessageOf(Pop(c), ch) == MessageOf(c, ch)
  {
  }

  lemma PopKeepsCustoms(c: Client)
    requires CustomInv(c)
    ensures CustomInv(Pop(c))
  {
    var c' := Pop(c);
    PopKeepsChannels(c);
    forall ch: nat | ch <= |c.log.popped| ensures MessageOf(c', ch) == MessageOf(c, ch) {
      PopKeepsMessages(c, ch);
    }
    if c.core.out.pending {
      CustomsSnoc(c.log.popped, c.core.out.message);
      assert Present(c'.core.out.message.customMessage) == [];
      assert Contents(c'.log.accepted) == Customs(c'.log.popped) + Present(c'.core.out.message.customMessage);
    }
  }

  lemma ActOut(c: Core, a: Action)
    ensures Act(c, a).out.channel == c.out.channel && Act(c, a).out.closed == c.out.closed
    ensures Act(c, a).out.message.sequenceNum == c.out.message.sequenceNum
    ensures Act(c, a).out.message.customMessage ==
              if a.PutCustom? then OrElse(c.out.message.customMessage, Some(a.message))
              else c.out.message.customMessage
  {
    match a
    case Put(x) =>
    case _ =>
  }

  lemma AdvanceHistory(c: Client, t: nat)
    requires !Quiet(c, t)
    ensures var a, c' := c.threads[t][0], DoAdvance(c, t);
            && c'.core == Act(c.core, a) && c'.log.popped == c.log.popped
            && c'.log.accepted == c.log.accepted + (if a.PutCustom? && c.core.out.message.customMessage.None?
                                            then [Accepted(a.message, c.core.out.channel)] else [])
            && c'.log.refused == c.log.refused + (if a.PutCustom? && c.core.out.message.customMessage.Some?
                                          then [c.core.out.channel] else [])
  {
    match c.threads[t][0]
    case PutCustom(m) =>
    case Unlock =>
    case _ =>
  }

  lemma AdvanceKeepsCustoms(c: Client, t: nat)
    requires CustomInv(c) && !Quiet(c, t)
    ensures CustomInv(DoAdvance(c, t))
  {
    var a, c' := c.threads[t][0], DoAdvance(c, t);
    AdvanceHistory(c, t);
    ActOut(c.core, a);
    assert forall ch: nat | ch <= |c.log.popped| && MessageOf(c, ch).Some? :: MessageOf(c', ch) == MessageOf(c, ch);
    if a.PutCustom? && c.core.out.message.customMessage.None? {
      ContentsSnoc(c.log.accepted, Accepted(a.message, c.core.out.channel));
    }
  }

  lemma EventKeepsCustoms(c: Client, e: Event)
    requires CustomInv(c) && Enabled(c, e) && !e.Advance?
    ensures CustomInv(Next(c, e))
  {
    if e.Move? {
      PopKeepsCustoms(c);
      MoveEffect(c, e.step);
      SameCustoms(if Pops(e.step) then Pop(c) else c, Next(c, e));
    } else {
      OtherEffect(c, e);
      SameCustoms(c, Next(c, e));
    }
  }

  lemma SameCustoms(c: Client, d: Client)
    requires CustomInv(c)
    requires d.log.popped == c.log.popped && d.log.accepted == c.log.accepted && d.log.refused == c.log.refused
    requires d.core.out.channel == c.core.out.channel && d.core.out.closed == c.core.out.closed
    requires d.core.out.message.customMessage == c.core.out.message.customMessage
    requires d.core.out.message.sequenceNum == c.core.out.message.sequenceNum
    ensures CustomInv(d)
  {
    assert forall ch: nat | ch <= |c.log.popped| :: MessageOf(d, ch) == MessageOf(c, ch);
  }

  lemma ChannelsPreserved(c: Client, e: Event)
    requires Channels(c)
    ensures Channels(Next(c, e))
  {
    if Enabled(c, e) {
      if e.Advance? {
        ActOut(c.core, c.threads[e.t][0]);
      } else {
        PopKeepsChannels(c);
      }
    }
  }

  /** Main result: in every run the accepted custom messages are those of the popped messages, in
      order, with the one in the slot last. */
  lemma {:induction false} CustomMessagesInOrder(es: seq<Event>)
    ensures CustomInv(After(es))
    ensures Contents(After(es).log.accepted)
         == Customs(After(es).log.popped) + Present(After(es).core.out.message.customMessage)
  {
    if es != [] {
      var c, e := After(es[..|es| - 1]), es[|es| - 1];
      CustomMessagesInOrder(es[..|es| - 1]);
      if Enabled(c, e) {
        if e.Advance? { AdvanceKeepsCustoms(c, e.t); } else { EventKeepsCustoms(c, e); }
      }
    }
  }

  /** Main result: in every run the channel that a caller of SendCustomMessage got, whether the
      call was accepted or refused as pending, is closed by the very pop that carries the message
      it waits for, and no channel is closed twice. */
  lemma ChannelsCloseWithTheirMessage(es: seq<Event>)
    ensures var c := After(es);
            && (forall a <- c.log.accepted ::
                  && (a.channel in c.core.out.closed <==> a.channel < |c.log.popped|)
                  && (a.channel in c.core.out.closed ==> c.log.popped[a.channel].customMessage == Some(a.message)))
            && (forall ch <- c.log.refused ::
                  && (ch in c.core.out.closed <==> ch < |c.log.popped|)
                  && (ch in c.core.out.closed ==> c.log.popped[ch].customMessage.Some?))
            && (forall i, j :: 0 <= i < j < |c.core.out.closed| ==> c.core.out.closed[i] != c.core.out.closed[j])
  {
    var c := After(es);
    CustomMessagesInOrder(es);
    forall ch: nat ensures ch in c.core.out.closed <==> ch < |c.log.popped| {
      if ch < |c.log.popped| { assert c.core.out.closed[ch] == ch; }
    }
    assert forall a <- c.log.accepted :: MessageOf(c, a.channel) == Some(a.message);
    assert forall ch <- c.log.refused :: MessageOf(c, ch).Some?;
  }

  // ---- No lost wake-up ---------------------------------------------------------------------

  /** Every program that schedules does so right after it released the mutex. */
  ghost predicate ScheduleFollows(p: seq<Action>) {
    forall i :: 0 <= i < |p| - 1 && p[i] == Unlock ==> p[i + 1] == Schedule
  }

  /** The sender has taken the token and will pop before it looks at the token again. */
  predicate AboutToPop(c: Client) {
    c.sender == Took || c.sender == TookLast
  }

  /** Whoever published since the last pop has the token in the channel, or is about to schedule,
      or the sender is between taking the token and popping. */
  ghost predicate Awake(c: Client) {
    forall t <- c.log.wanters ::
      c.core.token || AboutToPop(c) || (t in c.threads && c.threads[t] != [] && c.threads[t][0] == Schedule)
  }

  ghost predicate WakeInv(c: Client) {
    && Awake(c)
    && (c.log.wanters != {} ==> c.core.out.pending)
    && (!c.started ==> c.sender == Down)
    && forall t <- c.threads :: ScheduleFollows(c.threads[t])
  }

  lemma CallSchedules(call: Call)
    ensures ScheduleFollows(Program(call))
  {
    match call
    case SendCustomMessage(m) =>
    case PublishExtra(x) =>
    case SetInstanceUid(u) =>
    case ReportFullState(c) =>
    case Stop =>
    case _ =>
  }

  lemma FirstMessageSchedules(c: Captured)
    ensures ScheduleFollows(FirstMessageProgram(c))
  {
  }

  lemma ContinueSchedules(c: Core, p: seq<Action>)
    requires p != [] && ScheduleFollows(p)
    ensures ScheduleFollows(Continue(c, p[0], p[1..]))
    ensures p[0] == Unlock && Schedule in p[1..] ==> Continue(c, p[0], p[1..])[0] == Schedule
  {
    var q := p[1..];
    assert forall i :: 0 <= i < |q| ==> q[i] == p[i + 1];
  }

  lemma AdvanceWake(c: Client, t: nat)
    requires !Quiet(c, t)
    ensures var p, c' := c.threads[t], DoAdvance(c, t);
            && c'.threads == c.threads[t := Continue(c.core, p[0], p[1..])]
            && c'.log.wanters == c.log.wanters + (if p[0] == Unlock && Schedule in p[1..] then {t} else {})
            && c'.core.token == (c.core.token || p[0] == Schedule) && c'.sender == c.sender && c'.started == c.started
            && c'.core.out.pending == (c.core.out.pending || p[0] == Unlock)
  {
    match c.threads[t][0]
    case PutCustom(m) =>
    case Unlock =>
    case _ =>
  }

  lemma AdvanceKeepsAwake(c: Client, t: nat)
    requires WakeInv(c) && !Quiet(c, t)
    ensures WakeInv(DoAdvance(c, t))
  {
    AdvanceWake(c, t);
    ContinueSchedules(c.core, c.threads[t]);
  }

  lemma EventKeepsAwake(c: Client, e: Event)
    requires WakeInv(c) && OwnThreads(c) && Enabled(c, e) && !e.Advance?
    ensures WakeInv(Next(c, e))
  {
    EventSchedules(c, e);
    EventThreads(c, e);
    if e.Move? {
      MoveKeepsAwake(c, e.step);
    } else {
      OtherEffect(c, e);
      OtherSender(c, e);
      OtherKeepsAwake(c, Next(c, e), e);
    }
  }

  lemma NewSchedules(e: Event, t: nat, p: seq<Action>)
    requires NewProgram(e, t, p)
    ensures ScheduleFollows(p)
  {
    if e.Begin? {
      CallSchedules(e.call);
    } else if !e.Beat? {
      FirstMessageSchedules(e.first);
    }
  }

  lemma EventSchedules(c: Client, e: Event)
    requires OwnThreads(c) && Enabled(c, e) && !e.Advance?
    requires forall t <- c.threads :: ScheduleFollows(c.threads[t])
    ensures forall t <- Next(c, e).threads :: ScheduleFollows(Next(c, e).threads[t])
  {
    EventThreads(c, e);
    var threads := Next(c, e).threads;
    forall t <- threads ensures ScheduleFollows(threads[t]) {
      if !OldProgram(c, t, threads[t]) {
        NewSchedules(e, t, threads[t]);
      }
    }
  }

  lemma MoveKeepsAwake(c: Client, step: SenderStep)
    requires WakeInv(c) && OwnThreads(c) && StepEnabled(c, step)
    ensures var d := DoMove(c, step); Awake(d) && (d.log.wanters != {} ==> d.core.out.pending)
  {
    MoveEffect(c, step);
  }

  /** A thread that is about to schedule still is. */
  lemma OtherKeepsAwake(c: Client, d: Client, e: Event)
    requires WakeInv(c) && (e.Start? ==> !c.started) && !e.Move?
    requires d.log.wanters == c.log.wanters && d.core.token == c.core.token
    requires c.core.out.pending ==> d.core.out.pending
    requires AboutToPop(c) ==> AboutToPop(d)
    requires forall t :: !Quiet(c, t) ==> OldProgram(d, t, c.threads[t]) || PreparedAgain(c, e, t)
    ensures Awake(d) && (d.log.wanters != {} ==> d.core.out.pending)
  {
    forall t | t in d.log.wanters && !d.core.token && !AboutToPop(d)
      ensures t in d.threads && d.threads[t] != [] && d.threads[t][0] == Schedule
    {
      assert c.threads[t][0] == Schedule;
      assert !PreparedAgain(c, e, t);
    }
  }

  /** Main result: in every run, a thread that published a change which is not yet popped, and that
      schedules its changes, has its wake-up on the way: the token is in the channel, or scheduling
      is the thread's very next action, or the sender is between taking the token and popping. */
  lemma {:induction false} NoLostWakeUp(es: seq<Event>)
    ensures WakeInv(After(es)) && Awake(After(es))
  {
    if es != [] {
      var c, e := After(es[..|es| - 1]), es[|es| - 1];
      NoLostWakeUp(es[..|es| - 1]);
      RunsKeepInv(es[..|es| - 1]);
      if Enabled(c, e) {
        if e.Advance? { AdvanceKeepsAwake(c, e.t); } else { EventKeepsAwake(c, e); }
      }
    }
  }
}
