/** The stream of deltas refines sending the full state: from the first popped message on,
    overlaying every popped message and the slot gives the stored state, under every interleaving,
    except while a setter is between its store and its publish. */
module Refinement {
  import opened Messages
  import opened NextMessages
  import opened ClientMachine

  /** The stored fields whose every store is followed by a copy into the slot. */
  predicate AlwaysPublished(f: Field) {
    f in {DescriptionField, HealthField, CustomCapabilitiesField, CapabilitiesField}
  }

  /** The shape of what a thread has left to do: it stores or compares only as its first action. */
  ghost predicate ProgramOk(p: seq<Action>) {
    && (forall i :: 0 < i < |p| ==> !p[i].Store? && !p[i].CompareRemote? && !p[i].ComparePackages?)
    && (p != [] && (p[0].CompareRemote? || p[0].ComparePackages?) ==> |p| == 1)
    && (p != [] && p[0].Store? ==> Carries(p[0].from, p[0].f))
    && (p != [] && p[0].Store? && AlwaysPublished(p[0].f) ==> |p| > 1)
    && (p != [] && p[0].Store? && |p| > 1 ==> p == StoreAndPublish(p[0].f, p[0].from))
    && (forall i, f :: 0 <= i < |p| && p[i].PutCustom? ==> Copy(f) !in p)
  }

  ghost predicate Programs(c: Client) {
    forall t <- c.threads :: ProgramOk(c.threads[t])
  }

  /** Some thread has yet to copy field `f` into the slot. */
  ghost predicate Owes(c: Client, f: Field) {
    exists t <- c.threads :: Copy(f) in c.threads[t]
  }

  /** What a setter of `f` has left to do between its store and its publish. */
  predicate MidPublish(p: seq<Action>, f: Field) {
    p == [Lock, Copy(f), Unlock, Schedule] || p == [Copy(f), Unlock, Schedule]
  }

  /** Some setter of `f` is between its store and its publish. */
  ghost predicate Between(c: Client, f: Field) {
    exists t <- c.threads :: MidPublish(c.threads[t], f)
  }

  /** The first message of all is still being prepared. */
  predicate Unsent(c: Client, f: Field) {
    && c.log.popped == [] && c.sender == Preparing
    && RUNNER in c.threads && Copy(f) in c.threads[RUNNER]
  }

  predicate RemoteHead(p: seq<Action>) {
    p != [] && RemoteAction(p[0])
  }

  /** Non-overlapping calls: one thread at most is between its compare and its store, and a status
      that it found unchanged is still the stored one. */
  ghost predicate RemoteExclusive(c: Client) {
    !c.log.overlap ==>
      && (forall t, u ::
            t in c.threads && u in c.threads && RemoteHead(c.threads[t]) && RemoteHead(c.threads[u]) ==> t == u)
      && (forall t <- c.threads :: RemoteHead(c.threads[t]) && c.threads[t][0].Store? ==>
            |c.threads[t]| > 1 || Same(c.threads[t][0].from, c.core.stored, RemoteConfigField))
  }

  /** The fields, and the states, for which the theorem is claimed. */
  predicate Tracked(c: Client, f: Field) {
    || f in {DescriptionField, HealthField, CustomCapabilitiesField}
    || (c.started && (f == CapabilitiesField || (f == RemoteConfigField && !c.log.overlap)))
  }

  /** What a lossless reader knows once it also got the slot. */
  function Known(c: Client): Report {
    Overlay(Fold(c.log.popped), c.core.out.message.report)
  }

  ghost predicate Coherent(c: Client, f: Field) {
    Tracked(c, f) ==> Between(c, f) || Unsent(c, f) || Same(Known(c), c.core.stored, f)
  }

  /** The reader never knows a field that the client has not stored. */
  ghost predicate NothingInvented(c: Client) {
    forall f :: Carries(Known(c), f) ==> Carries(c.core.stored, f)
  }

  /** The sender loop and the runner do not use their threads for anything else. */
  ghost predicate OwnThreads(c: Client) {
    && (c.sender != Beating ==> Quiet(c, SENDER))
    && (c.sender != Preparing ==> Quiet(c, RUNNER))
    && (!c.started ==> c.sender == Down && c.log.popped == [])
  }

  ghost predicate Inv(c: Client) {
    && Programs(c) && OwnThreads(c) && RemoteExclusive(c) && NothingInvented(c)
    && forall f :: Coherent(c, f)
  }

  lemma ProgramTail(p: seq<Action>)
    requires ProgramOk(p) && p != []
    ensures ProgramOk(p[1..])
    ensures forall a :: a in p && a != p[0] ==> a in p[1..]
    ensures !RemoteHead(p[1..])
    ensures RemoteBusy(p) ==> RemoteHead(p)
  {
    var q := p[1..];
    assert forall i :: 0 <= i < |q| ==> q[i] == p[i + 1];
  }

  /** An action that neither reads nor writes the stored state, nor a custom message. */
  predicate Plain(a: Action) {
    a.Lock? || a.Copy? || a.Put? || a.Unlock? || a.Schedule? || a.Cancel?
  }

  lemma PlainPrograms(p: seq<Action>)
    requires forall a <- p :: Plain(a)
    ensures ProgramOk(p) && !RemoteHead(p)
  {
    assert forall i :: 0 <= i < |p| ==> Plain(p[i]);
  }

  lemma StoreAndPublishOk(f: Field, from: Report)
    requires Carries(from, f)
    ensures ProgramOk(StoreAndPublish(f, from))
    ensures RemoteHead(StoreAndPublish(f, from)) ==> f == RemoteConfigField
    ensures Copy(f) in StoreAndPublish(f, from)
  {
    assert StoreAndPublish(f, from)[2] == Copy(f);
  }

  lemma CallPrograms(call: Call)
    ensures ProgramOk(Program(call))
    ensures RemoteHead(Program(call)) ==> call.SetRemoteConfigStatus? && Program(call)[0].CompareRemote?
  {
    match call
    case SetAgentDescription(d) =>
      StoreAndPublishOk(DescriptionField, EMPTY_REPORT.(agentDescription := Some(d)));
    case SetHealth(h) => StoreAndPublishOk(HealthField, EMPTY_REPORT.(health := Some(h)));
    case SetCustomCapabilities(c) =>
      StoreAndPublishOk(CustomCapabilitiesField, EMPTY_REPORT.(customCapabilities := Some(c)));
    case SetCapabilities(c) =>
      StoreAndPublishOk(CapabilitiesField, EMPTY_REPORT.(capabilities := c + {ReportsStatus}));
    case ReportPackageStatuses(p) => StoreAndPublishOk(PackagesField, PackagesReport(p));
    case SetRemoteConfigStatus(s) =>
    case SetPackageStatuses(p) =>
    case StorePackageStatuses(p) =>
    case SendCustomMessage(m) =>
    case _ => PlainPrograms(Program(call));
  }

  lemma FirstMessageCopies(c: Captured)
    ensures ProgramOk(FirstMessageProgram(c)) && !RemoteHead(FirstMessageProgram(c))
    ensures Copy(RemoteConfigField) in FirstMessageProgram(c) && Copy(CapabilitiesField) in FirstMessageProgram(c)
  {
    var p := FirstMessageProgram(c);
    PlainPrograms(p);
    assert p[3] == Copy(RemoteConfigField) && p[5] == Copy(CapabilitiesField);
  }

  lemma ContinueOk(c: Core, p: seq<Action>)
    requires ProgramOk(p) && p != []
    ensures ProgramOk(Continue(c, p[0], p[1..]))
    ensures forall f :: Copy(f) in p && p[0] != Copy(f) ==> Copy(f) in Continue(c, p[0], p[1..])
    ensures RemoteHead(Continue(c, p[0], p[1..])) ==> p[0].CompareRemote?
  {
    ProgramTail(p);
    if p[0].CompareRemote? || p[0].ComparePackages? {
      assert forall f :: Copy(f) !in p;
    }
  }

  lemma PopKnown(c: Client)
    ensures Known(Pop(c)) == Known(c)
  {
    if c.core.out.pending {
      PopKeepsOverlay(c.log.popped, c.core.out);
    }
  }

  predicate OldProgram(c: Client, t: nat, p: seq<Action>) {
    t in c.threads && p == c.threads[t]
  }

  /** Event `e` gives thread `t` the program `p`. */
  predicate NewProgram(e: Event, t: nat, p: seq<Action>) {
    match e
    case Begin(u, call) => t == u && p == Program(call)
    case Beat => t == SENDER && p == HEARTBEAT_PROGRAM
    case Start(first) => t == RUNNER && p == FirstMessageProgram(first)
    case Redial(first) => t == RUNNER && p == FirstMessageProgram(first)
    case PrepareAgain(_, first) => t == RUNNER && p == FirstMessageProgram(first)
    case _ => false
  }

  /** A step of the sender loop pops the slot or leaves it, and touches no thread. */
  lemma MoveEffect(c: Client, step: SenderStep)
    ensures var d, p := DoMove(c, step), if Pops(step) then Pop(c) else c;
            && d.log == p.log && d.core.out == p.core.out && d.core.stored == c.core.stored
            && d.threads == c.threads && d.started == c.started && d.locked == c.locked && d.sender == Target(step)
            && d.core.token == (c.core.token && !Takes(step))
  {
  }

  /** All other events but actions leave the history and the report in the slot as they were. */
  lemma OtherEffect(c: Client, e: Event)
    requires Enabled(c, e) && !e.Advance? && !e.Move?
    ensures var d := Fire(c, e);
            && d.log.popped == c.log.popped && d.log.wanters == c.log.wanters
            && d.log.accepted == c.log.accepted && d.log.refused == c.log.refused
            && d.core.token == c.core.token && (c.started ==> d.started) && d.core.out.channel == c.core.out.channel
            && d.core.out.closed == c.core.out.closed && (c.core.out.pending ==> d.core.out.pending)
            && d.core.out.message.report == c.core.out.message.report
            && d.core.out.message.customMessage == c.core.out.message.customMessage
            && d.core.out.message.sequenceNum == c.core.out.message.sequenceNum
            && (!e.Prepare? ==> d.core == c.core)
  {
  }

  lemma OtherSender(c: Client, e: Event)
    requires Enabled(c, e) && !e.Advance? && !e.Move?
    ensures var d := Fire(c, e);
            d.sender == match e
                        case Beat => Beating
                        case Start(_) => Preparing
                        case Redial(_) => Preparing
                        case _ => c.sender
  {
  }

  /** What the events that are not actions of a thread do to the reports... */
  lemma EventReports(c: Client, e: Event)
    requires Enabled(c, e) && !e.Advance?
    ensures Known(Next(c, e)) == Known(c)
    ensures !e.Prepare? ==> Next(c, e).core.stored == c.core.stored
  {
    if e.Move? {
      PopKnown(c);
      MoveEffect(c, e.step);
    } else {
      OtherEffect(c, e);
    }
  }

  /** Event `e` makes thread `t` begin the first message anew. */
  predicate PreparedAgain(c: Client, e: Event, t: nat) {
    && e.PrepareAgain? && t == RUNNER
    && OldProgram(c, t, FirstMessageProgram(e.failed)) && OldProgram(Next(c, e), t, FirstMessageProgram(e.first))
  }

  /** The first message copies the same fields each time, and publishes none alone. */
  lemma FirstMessagesAlike(x: Captured, y: Captured, f: Field)
    ensures Copy(f) in FirstMessageProgram(x) ==> Copy(f) in FirstMessageProgram(y)
    ensures !MidPublish(FirstMessageProgram(x), f)
  {
    var p, q := FirstMessageProgram(x), FirstMessageProgram(y);
    assert forall i :: 0 <= i < |p| && p[i] == Copy(f) ==> q[i] == Copy(f);
  }

  /** ... and to the threads. */
  lemma EventThreads(c: Client, e: Event)
    requires OwnThreads(c) && Enabled(c, e) && !e.Advance?
    ensures OwnThreads(Next(c, e))
    ensures e.Prepare? ==> Next(c, e).threads == c.threads
    ensures forall t :: !Quiet(c, t) ==> OldProgram(Next(c, e), t, c.threads[t]) || PreparedAgain(c, e, t)
    ensures forall t <- Next(c, e).threads ::
              OldProgram(c, t, Next(c, e).threads[t]) || NewProgram(e, t, Next(c, e).threads[t])
  {
    if e.Move? {
      MoveEffect(c, e.step);
    } else {
      OtherThreads(c, e);
    }
  }

  lemma OtherThreads(c: Client, e: Event)
    requires OwnThreads(c) && Enabled(c, e) && !e.Advance? && !e.Move?
    ensures OwnThreads(Fire(c, e))
    ensures e.Prepare? ==> Fire(c, e).threads == c.threads
    ensures forall t :: !Quiet(c, t) ==> OldProgram(Fire(c, e), t, c.threads[t]) || PreparedAgain(c, e, t)
    ensures forall t <- Fire(c, e).threads ::
              OldProgram(c, t, Fire(c, e).threads[t]) || NewProgram(e, t, Fire(c, e).threads[t])
  {
    OtherSender(c, e);
    OtherEffect(c, e);
  }

  predicate NewCompare(e: Event, t: nat, p: seq<Action>) {
    e.Begin? && t == e.t && e.call.SetRemoteConfigStatus? && p != [] && p[0].CompareRemote?
  }

  lemma NewPrograms(c: Client, e: Event)
    requires OwnThreads(c) && Programs(c) && Enabled(c, e) && !e.Advance?
    ensures Programs(Next(c, e))
    ensures forall t <- Next(c, e).threads | RemoteHead(Next(c, e).threads[t]) ::
              OldProgram(c, t, Next(c, e).threads[t]) || NewCompare(e, t, Next(c, e).threads[t])
  {
    var c' := Next(c, e);
    EventThreads(c, e);
    forall t <- c'.threads
      ensures ProgramOk(c'.threads[t])
      ensures RemoteHead(c'.threads[t]) ==> OldProgram(c, t, c'.threads[t]) || NewCompare(e, t, c'.threads[t])
    {
      if OldProgram(c, t, c'.threads[t]) {
      } else if e.Begin? {
        CallPrograms(e.call);
      } else if e.Beat? {
        PlainPrograms(HEARTBEAT_PROGRAM);
      } else {
        FirstMessageCopies(e.first);
      }
    }
  }

  lemma AdvancePrograms(c: Client, t: nat)
    requires OwnThreads(c) && Programs(c) && Enabled(c, Advance(t))
    ensures Programs(DoAdvance(c, t)) && OwnThreads(DoAdvance(c, t))
  {
    ContinueOk(c.core, c.threads[t]);
  }

  lemma ActField(c: Core, a: Action, f: Field)
    ensures Same(Act(c, a).stored, if a.Store? && a.f == f then a.from else c.stored, f)
    ensures Same(Act(c, a).out.message.report, if a == Copy(f) then c.stored else c.out.message.report, f)
  {
    match a
    case Store(g, from) =>
    case Copy(g) =>
    case _ =>
  }

  /** What one action does to one field. */
  lemma AdvanceField(c: Client, t: nat, f: Field)
    requires !Quiet(c, t)
    ensures var a, c' := c.threads[t][0], DoAdvance(c, t);
            && c'.log.popped == c.log.popped && c'.core == Act(c.core, a)
            && Same(c'.core.stored, if a.Store? && a.f == f then a.from else c.core.stored, f)
            && (a != Copy(f) ==> Same(Known(c'), Known(c), f))
            && (a == Copy(f) && Carries(c.core.stored, f) ==> Same(Known(c'), c.core.stored, f))
            && (Carries(Known(c'), f) ==> Carries(Known(c), f) || Carries(c.core.stored, f))
  {
    ActField(c.core, c.threads[t][0], f);
  }

  lemma NothingInventedPreserved(c: Client, e: Event)
    requires Programs(c) && OwnThreads(c) && NothingInvented(c)
    ensures NothingInvented(Next(c, e))
  {
    var c' := Next(c, e);
    forall f | Carries(Known(c'), f) ensures Carries(c'.core.stored, f) {
      if !Enabled(c, e) {
      } else if e.Advance? {
        assert ProgramOk(c.threads[e.t]);
        AdvanceField(c, e.t, f);
      } else {
        EventReports(c, e);
        assert Carries(Known(c), f);
      }
    }
  }

  lemma RemoteExclusiveAdvance(c: Client, t: nat)
    requires Programs(c) && RemoteExclusive(c) && Enabled(c, Advance(t))
    ensures RemoteExclusive(DoAdvance(c, t))
  {
    var c' := DoAdvance(c, t);
    var p, p' := c.threads[t], c'.threads[t];
    ContinueOk(c.core, p);
    assert p' == Continue(c.core, p[0], p[1..]);
    assert RemoteHead(p') ==> RemoteHead(p);
    if !c'.log.overlap {
      forall u <- c'.threads | RemoteHead(c'.threads[u]) && c'.threads[u][0].Store?
        ensures |c'.threads[u]| > 1 || Same(c'.threads[u][0].from, c'.core.stored, RemoteConfigField)
      {
        if u == t {
          assert p[0].CompareRemote? && c'.core.stored == c.core.stored;
        } else {
          assert c'.threads[u] == c.threads[u];
          assert !RemoteHead(p);
        }
      }
    }
  }

  lemma OverlapIsSeen(c: Client, e: Event, u: nat)
    requires Enabled(c, e) && e.Begin? && e.call.SetRemoteConfigStatus? && u in c.threads && RemoteHead(c.threads[u])
    ensures Next(c, e).log.overlap
  {
    assert RemoteBusy(c.threads[u]);
  }

  lemma RemoteHeadsAlone(c: Client, e: Event, t: nat, u: nat)
    requires Programs(c) && OwnThreads(c) && RemoteExclusive(c) && Enabled(c, e) && !e.Advance?
    requires !Next(c, e).log.overlap && t in Next(c, e).threads && u in Next(c, e).threads
    requires RemoteHead(Next(c, e).threads[t]) && RemoteHead(Next(c, e).threads[u])
    ensures t == u
  {
    NewPrograms(c, e);
    if OldProgram(c, t, Next(c, e).threads[t]) {
      if !OldProgram(c, u, Next(c, e).threads[u]) { OverlapIsSeen(c, e, t); }
    } else if OldProgram(c, u, Next(c, e).threads[u]) {
      OverlapIsSeen(c, e, u);
    }
  }

  lemma RemoteExclusiveEvent(c: Client, e: Event)
    requires Programs(c) && OwnThreads(c) && RemoteExclusive(c) && Enabled(c, e) && !e.Advance?
    ensures RemoteExclusive(Next(c, e))
  {
    var c' := Next(c, e);
    if !c'.log.overlap {
      forall t, u | t in c'.threads && u in c'.threads && RemoteHead(c'.threads[t]) && RemoteHead(c'.threads[u])
        ensures t == u
      {
        RemoteHeadsAlone(c, e, t, u);
      }
      EventReports(c, e);
      forall t <- c'.threads | RemoteHead(c'.threads[t]) && c'.threads[t][0].Store?
        ensures |c'.threads[t]| > 1 || Same(c'.threads[t][0].from, c'.core.stored, RemoteConfigField)
      {
        NewPrograms(c, e);
        assert OldProgram(c, t, c'.threads[t]);
      }
    }
  }

  /** A thread that owes a field still does, or has just copied it. */
  lemma OwesPreserved(c: Client, t: nat, f: Field)
    requires Programs(c) && !Quiet(c, t) && Owes(c, f)
    ensures Owes(DoAdvance(c, t), f) || c.threads[t][0] == Copy(f)
  {
    ContinueOk(c.core, c.threads[t]);
    var u :| u in c.threads && Copy(f) in c.threads[u];
    if c.threads[t][0] != Copy(f) {
      assert Copy(f) in DoAdvance(c, t).threads[u];
    }
  }

  /** A setter that has not published yet still has not, or has just copied its field. */
  lemma BetweenPreserved(c: Client, t: nat, f: Field)
    requires !Quiet(c, t) && Between(c, f) && c.threads[t][0] != Copy(f)
    ensures Between(DoAdvance(c, t), f)
  {
    var u :| u in c.threads && MidPublish(c.threads[u], f);
    assert MidPublish(DoAdvance(c, t).threads[u], f);
  }

  lemma UnsentPreserved(c: Client, t: nat, f: Field)
    requires Programs(c) && !Quiet(c, t) && Unsent(c, f) && c.threads[t][0] != Copy(f)
    ensures Unsent(DoAdvance(c, t), f)
  {
    ContinueOk(c.core, c.threads[t]);
    AdvanceField(c, t, f);
  }

  /** A store either begins the publication, or writes the value that is already there. */
  lemma StoreBeginsPublish(c: Client, t: nat, f: Field)
    requires Programs(c) && RemoteExclusive(c) && !Quiet(c, t) && Tracked(c, f)
    requires c.threads[t][0].Store? && c.threads[t][0].f == f
    ensures Between(DoAdvance(c, t), f) || Same(c.threads[t][0].from, c.core.stored, f)
  {
    var p := c.threads[t];
    assert ProgramOk(p);
    if |p| > 1 {
      assert MidPublish(DoAdvance(c, t).threads[t], f);
    } else {
      assert RemoteHead(p);
    }
  }

  lemma CoherentAdvance(c: Client, t: nat, f: Field)
    requires Inv(c) && Enabled(c, Advance(t)) && Tracked(c, f)
    ensures Coherent(DoAdvance(c, t), f)
  {
    var a := c.threads[t][0];
    AdvanceField(c, t, f);
    assert Coherent(c, f);
    if a == Copy(f) {
      assert Carries(Known(c), f) ==> Carries(c.core.stored, f);
    } else if Between(c, f) {
      BetweenPreserved(c, t, f);
    } else if Unsent(c, f) {
      UnsentPreserved(c, t, f);
    } else if a.Store? && a.f == f {
      StoreBeginsPublish(c, t, f);
    }
  }

  lemma BetweenKept(c: Client, e: Event, f: Field)
    requires OwnThreads(c) && Enabled(c, e) && !e.Advance? && Between(c, f)
    ensures Between(Next(c, e), f)
  {
    EventThreads(c, e);
    var u :| u in c.threads && MidPublish(c.threads[u], f);
    if PreparedAgain(c, e, u) {
      FirstMessagesAlike(e.failed, e.first, f);
      assert false;
    }
    assert Next(c, e).threads[u] == c.threads[u];
  }

  lemma StartIsUnsent(c: Client, e: Event, f: Field)
    requires OwnThreads(c) && Enabled(c, e) && e.Start? && (f == CapabilitiesField || f == RemoteConfigField)
    ensures Unsent(Next(c, e), f)
  {
    FirstMessageCopies(e.first);
  }

  /** The first message is not popped before it is prepared. */
  lemma UnsentKept(c: Client, e: Event, f: Field)
    requires OwnThreads(c) && Enabled(c, e) && !e.Advance? && Unsent(c, f)
    ensures Unsent(Next(c, e), f)
  {
    EventThreads(c, e);
    assert !Quiet(c, RUNNER);
    if PreparedAgain(c, e, RUNNER) {
      FirstMessagesAlike(e.failed, e.first, f);
    }
  }

  /** Events other than an action of a thread leave what is claimed about a field. */
  lemma CoherentEvent(c: Client, e: Event, f: Field)
    requires Inv(c) && Enabled(c, e) && !e.Advance?
    ensures Coherent(Next(c, e), f)
  {
    EventReports(c, e);
    assert Coherent(c, f);
    if Between(c, f) {
      BetweenKept(c, e, f);
    } else if Unsent(c, f) {
      UnsentKept(c, e, f);
    } else if e.Start? && (f == CapabilitiesField || f == RemoteConfigField) {
      StartIsUnsent(c, e, f);
    }
  }

  lemma InvPreserved(c: Client, e: Event)
    requires Inv(c)
    ensures Inv(Next(c, e))
  {
    if Enabled(c, e) {
      NothingInventedPreserved(c, e);
      if e.Advance? {
        AdvancePrograms(c, e.t);
        RemoteExclusiveAdvance(c, e.t);
        forall f | Tracked(Next(c, e), f) ensures Coherent(Next(c, e), f) { CoherentAdvance(c, e.t, f); }
      } else {
        EventThreads(c, e);
        NewPrograms(c, e);
        RemoteExclusiveEvent(c, e);
        forall f ensures Coherent(Next(c, e), f) { CoherentEvent(c, e, f); }
      }
    }
  }

  lemma {:induction false} RunsKeepInv(es: seq<Event>)
    ensures Inv(After(es))
  {
    if es != [] {
      RunsKeepInv(es[..|es| - 1]);
      InvPreserved(After(es[..|es| - 1]), es[|es| - 1]);
    }
  }

  /** Main result: in every run, from the first popped message on, unless a setter of `f` is
      between its store and its publish, all popped messages with the slot on top give exactly the
      stored `f`; whatever else is going on. */
  lemma DeltasRefineFullState(es: seq<Event>, f: Field)
    requires After(es).log.popped != [] && !Between(After(es), f)
    requires f != PackagesField && (f == RemoteConfigField ==> !After(es).log.overlap)
    ensures Same(Known(After(es)), After(es).core.stored, f)
  {
    RunsKeepInv(es);
    assert Coherent(After(es), f);
  }

  // ---- Why calls of SetRemoteConfigStatus must not overlap ---------------------------------------

  lemma {:induction false} AfterSnoc(es: seq<Event>, e: Event)
    ensures After(es + [e]) == Next(After(es), e)
  {
    assert (es + [e])[..|es|] == es;
  }

  /** A call for the stored status compares, and has only the store left to do. */
  lemma {:induction false} ComparesEqual(es: seq<Event>, t: nat, a: RemoteConfigStatus) returns (more: seq<Event>)
    requires RECEIVER <= t && Quiet(After(es), t) && After(es).core.stored.remoteConfigStatus == Some(a)
    ensures var c, d := After(es), After(more);
            && d.core == c.core && d.locked == c.locked
            && d.threads == c.threads[t := [Store(RemoteConfigField, RemoteReport(a))]]
  {
    var e, f := Begin(t, SetRemoteConfigStatus(a)), Advance(t);
    AfterSnoc(es, e);
    AfterSnoc(es + [e], f);
    more := es + [e] + [f];
    var c1 := After(es + [e]);
    assert c1.threads == After(es).threads[t := [CompareRemote(a)]];
    assert After(more) == DoAdvance(c1, t);
    assert After(more).threads == After(es).threads[t := [Store(RemoteConfigField, RemoteReport(a))]];
  }

  /** A call for another status runs to its end. */
  lemma {:induction false} StoresAndPublishes(es: seq<Event>, t: nat, b: RemoteConfigStatus) returns (more: seq<Event>)
    requires RECEIVER <= t && Quiet(After(es), t) && !After(es).locked
    requires After(es).core.stored.remoteConfigStatus != Some(b)
    ensures var c, d := After(es), After(more);
            && !d.locked && d.threads == c.threads[t := []]
            && d.core.stored.remoteConfigStatus == d.core.out.message.report.remoteConfigStatus == Some(b)
  {
    var begin, step := Begin(t, SetRemoteConfigStatus(b)), Advance(t);
    AfterSnoc(es, begin);
    AfterSnoc(es + [begin], step);
    var es2 := es + [begin] + [step];
    var c2 := After(es2);
    assert c2.threads == After(es).threads[t := StoreAndPublish(RemoteConfigField, RemoteReport(b))];
    more := PublishesToEnd(es2, t, b);
  }

  lemma {:induction false} PublishesToEnd(es: seq<Event>, t: nat, b: RemoteConfigStatus) returns (more: seq<Event>)
    requires !After(es).locked && t in After(es).threads
    requires After(es).threads[t] == StoreAndPublish(RemoteConfigField, RemoteReport(b))
    ensures var c, d := After(es), After(more);
            && !d.locked && d.threads == c.threads[t := []]
            && d.core.stored.remoteConfigStatus == d.core.out.message.report.remoteConfigStatus == Some(b)
  {
    more := es;
    for i := 0 to 5
      invariant PublishingAt(After(es), After(more), t, b, i)
    {
      PublishingStep(After(es), After(more), t, b, i);
      AfterSnoc(more, Advance(t));
      more := more + [Advance(t)];
    }
  }

  /** Thread `t` has done `i` actions of storing and publishing `b` since `c`. */
  ghost predicate PublishingAt(c: Client, d: Client, t: nat, b: RemoteConfigStatus, i: nat)
    requires i <= 5
  {
    && d.threads == c.threads[t := StoreAndPublish(RemoteConfigField, RemoteReport(b))[i..]]
    && d.locked == (2 <= i < 4)
    && (i >= 1 ==> d.core.stored.remoteConfigStatus == Some(b))
    && (i >= 3 ==> d.core.out.message.report.remoteConfigStatus == Some(b))
  }

  lemma PublishingStep(c: Client, d: Client, t: nat, b: RemoteConfigStatus, i: nat)
    requires i < 5 && PublishingAt(c, d, t, b, i)
    ensures PublishingAt(c, Next(d, Advance(t)), t, b, i + 1)
  {
    var p := StoreAndPublish(RemoteConfigField, RemoteReport(b));
    assert p[i..][1..] == p[i + 1..] && p[i..][0] == p[i];
    assert Next(d, Advance(t)) == DoAdvance(d, t);
    assert DoAdvance(d, t).threads == d.threads[t := p[i + 1..]];
  }

  /** From every quiet state, two overlapping calls can end with a stored status that no message
      carries: a call that found the status unchanged stores it again after the other call. */
  lemma {:induction false} OverlapLosesStatus(es: seq<Event>, a: RemoteConfigStatus, b: RemoteConfigStatus)
    returns (more: seq<Event>)
    requires AllQuiet(After(es)) && !After(es).locked
    requires After(es).core.stored.remoteConfigStatus == Some(a) && a != b
    ensures AllQuiet(After(more)) && !Owes(After(more), RemoteConfigField)
    ensures After(more).core.stored.remoteConfigStatus == Some(a)
    ensures Known(After(more)).remoteConfigStatus == Some(b)
  {
    var t, u, step := RECEIVER, RECEIVER + 1, Advance(RECEIVER);
    var es1 := ComparesEqual(es, t, a);
    var es2 := StoresAndPublishes(es1, u, b);
    AfterSnoc(es2, step);
    more := es2 + [step];
    assert After(es2).threads[t] == [Store(RemoteConfigField, RemoteReport(a))];
    assert After(more) == DoAdvance(After(es2), t);
  }
}
