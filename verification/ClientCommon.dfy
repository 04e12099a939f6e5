/** The client's API (client/internal/clientcommon.go, clientstate.go, sender.go).

    Each setter, run on its own, has the effect of its program in `ClientMachine`; and no call
    leaves a started client that advertises a capability it cannot back.
  */
module ClientApi {
  import opened Messages
  import opened NextMessages
  import opened ClientMachine
  import opened Refinement

  datatype Error =
    | ErrAgentDescriptionMissing | ErrAgentDescriptionNoAttributes | ErrHealthMissing
    | ErrReportsRemoteConfigNotSet | ErrLastRemoteConfigHashNil | ErrRemoteConfigStatusMissing
    | ErrConnectionSettingsStatusMissing | ErrReportsPackageStatusesNotSet
    | ErrServerProvidedAllPackagesHashNil | ErrPackageStatusesMissing
    | ErrCustomCapabilitiesMissing | ErrAvailableComponentsMissing
    | ErrReportsAvailableComponentsNotSet | ErrNoAvailableComponentHash
    | ErrCustomMessageMissing | ErrCustomCapabilityNotSupported | ErrCustomMessagePending
    | ErrAcceptsPackagesNotSet | ErrPackagesStateProviderNotSet
    | ErrReportsEffectiveConfigNotSet | ErrGetEffectiveConfig
    | ErrEmptyInstanceUid | ErrHeartbeatInterval | ErrAlreadyStarted | ErrLastReportedStatuses
    | ErrTransport

  type Outcome = Option<Error>

  const ZERO_UID: Uid := [0, 0, 0, 0, 0, 0, 0, 0, 0, 0, 0, 0, 0, 0, 0, 0]

  // ---- Programs run without interleaving -----------------------------------------------------

  predicate Compares(p: seq<Action>) {
    p != [] && (p[0].CompareRemote? || p[0].ComparePackages?)
  }

  ghost function Run(c: Core, p: seq<Action>): Core
    requires ProgramOk(p)
    decreases 2 * |p| + if Compares(p) then 20 else if p != [] && p[0].PutCustom? then 1 else 0
  {
    if p == [] then c
    else
      ContinueOk(c, p);
      Run(Act(c, p[0]), Continue(c, p[0], p[1..]))
  }

  lemma RunStep(c: Core, a: Action, rest: seq<Action>)
    requires ProgramOk([a] + rest) && ProgramOk(Continue(c, a, rest))
    ensures Run(c, [a] + rest) == Run(Act(c, a), Continue(c, a, rest))
  {
    assert ([a] + rest)[1..] == rest;
  }

  function Published(c: Core, f: Field, from: Report): Core {
    var stored := CopyField(c.stored, from, f);
    Core(stored,
         c.out.(message := c.out.message.(report := CopyField(c.out.message.report, stored, f)), pending := true),
         true)
  }

  lemma RunStoreAndPublish(c: Core, f: Field, from: Report)
    requires Carries(from, f)
    ensures ProgramOk(StoreAndPublish(f, from))
    ensures Run(c, StoreAndPublish(f, from)) == Published(c, f, from)
  {
    StoreAndPublishOk(f, from);
    var rest := [Lock, Copy(f), Unlock, Schedule];
    assert StoreAndPublish(f, from) == [Store(f, from)] + rest;
    PlainPrograms(rest);
    RunStep(c, Store(f, from), rest);
    RunPublish(Act(c, Store(f, from)), Copy(f));
  }

  lemma RunPublish(c: Core, a: Action)
    requires a.Copy? || a.Put?
    ensures ProgramOk([Lock, a, Unlock, Schedule])
    ensures Run(c, [Lock, a, Unlock, Schedule]) == Act(Act(Act(c, a), Unlock), Schedule)
  {
    PlainPrograms([Lock, a, Unlock, Schedule]);
    PlainPrograms([a, Unlock, Schedule]);
    assert [Lock, a, Unlock, Schedule] == [Lock] + [a, Unlock, Schedule];
    RunStep(c, Lock, [a, Unlock, Schedule]);
    assert [a, Unlock, Schedule] == [a] + [Unlock, Schedule];
    RunRelease(Act(c, a));
    RunStep(c, a, [Unlock, Schedule]);
  }

  lemma RunCompareRemote(c: Core, s: RemoteConfigStatus)
    ensures ProgramOk([CompareRemote(s)])
    ensures Run(c, [CompareRemote(s)]) ==
              if c.stored.remoteConfigStatus == Some(s) then c
              else Published(c, RemoteConfigField, RemoteReport(s))
  {
    var store := Store(RemoteConfigField, RemoteReport(s));
    assert [CompareRemote(s)] == [CompareRemote(s)] + [];
    assert [store] == [store] + [];
    ContinueOk(c, [CompareRemote(s)]);
    RunStep(c, CompareRemote(s), []);
    if c.stored.remoteConfigStatus == Some(s) {
      RunStep(c, store, []);
    } else {
      RunStoreAndPublish(c, RemoteConfigField, RemoteReport(s));
    }
  }

  lemma RunComparePackages(c: Core, p: PackageStatuses)
    ensures ProgramOk([ComparePackages(p)])
    ensures Run(c, [ComparePackages(p)]) ==
              if c.stored.packageStatuses == Some(p) then c
              else Published(c, PackagesField, PackagesReport(p))
  {
    var store := Store(PackagesField, PackagesReport(p));
    assert [ComparePackages(p)] == [ComparePackages(p)] + [];
    assert [store] == [store] + [];
    ContinueOk(c, [ComparePackages(p)]);
    RunStep(c, ComparePackages(p), []);
    if c.stored.packageStatuses == Some(p) {
      RunStep(c, store, []);
    } else {
      RunStoreAndPublish(c, PackagesField, PackagesReport(p));
    }
  }

  lemma RunCustom(c: Core, m: CustomMessage)
    ensures ProgramOk([Lock, PutCustom(m), Unlock, Schedule])
    ensures Run(c, [Lock, PutCustom(m), Unlock, Schedule]) ==
              if c.out.message.customMessage.Some? then Act(c, Unlock)
              else Act(Act(Act(c, PutCustom(m)), Unlock), Schedule)
  {
    var rest := [PutCustom(m), Unlock, Schedule];
    RunPutCustom(c, m);
    assert [Lock, PutCustom(m), Unlock, Schedule] == [Lock] + rest;
    RunStep(c, Lock, rest);
  }

  lemma RunPutCustom(c: Core, m: CustomMessage)
    ensures ProgramOk([PutCustom(m), Unlock, Schedule])
    ensures Run(c, [PutCustom(m), Unlock, Schedule]) ==
              if c.out.message.customMessage.Some? then Act(c, Unlock)
              else Act(Act(Act(c, PutCustom(m)), Unlock), Schedule)
  {
    var d := Act(c, PutCustom(m));
    RunRelease(d);
    assert [PutCustom(m), Unlock, Schedule] == [PutCustom(m)] + [Unlock, Schedule];
    RunStep(c, PutCustom(m), [Unlock, Schedule]);
  }

  /** The ends of programs. */
  lemma RunRelease(c: Core)
    ensures ProgramOk([Unlock]) && Run(c, [Unlock]) == Act(c, Unlock)
    ensures ProgramOk([Unlock, Schedule]) && Run(c, [Unlock, Schedule]) == Act(Act(c, Unlock), Schedule)
  {
    PlainPrograms([Unlock, Schedule]);
    PlainPrograms([Unlock]);
    PlainPrograms([Schedule]);
    assert [Unlock] == [Unlock] + [] && [Schedule] == [Schedule] + [];
    RunStep(c, Unlock, []);
    assert [Unlock, Schedule] == [Unlock] + [Schedule];
    RunStep(c, Unlock, [Schedule]);
    RunStep(Act(c, Unlock), Schedule, []);
  }

  /** A plain program is the sequence of its actions. */
  function Acts(c: Core, p: seq<Action>): Core {
    if p == [] then c else Act(Acts(c, p[..|p| - 1]), p[|p| - 1])
  }

  lemma ActsCons(c: Core, p: seq<Action>)
    requires p != []
    ensures Acts(c, p) == Acts(Act(c, p[0]), p[1..])
  {
    if |p| > 1 {
      ActsCons(c, p[..|p| - 1]);
      assert p[..|p| - 1][1..] == p[1..][..|p| - 2];
    }
  }

  lemma RunPlain(c: Core, p: seq<Action>)
    requires forall a <- p :: Plain(a)
    ensures ProgramOk(p) && Run(c, p) == Acts(c, p)
    decreases |p|
  {
    PlainPrograms(p);
    if p != [] {
      assert Plain(p[0]);
      ActsCons(c, p);
      RunPlain(Act(c, p[0]), p[1..]);
    }
  }

  /** What a plain program does to the report in the slot, to the flag and to the token. */
  lemma {:induction false} ActsFields(c: Core, p: seq<Action>)
    requires forall a <- p :: Plain(a)
    ensures Acts(c, p).stored == c.stored
    ensures forall f :: Same(Acts(c, p).out.message.report, if Copy(f) in p then c.stored else c.out.message.report, f)
    ensures Acts(c, p).out.pending == (c.out.pending || Unlock in p)
    ensures Acts(c, p).token == (c.token || Schedule in p)
    decreases |p|
  {
    if p != [] {
      var q, a := p[..|p| - 1], p[|p| - 1];
      assert Plain(a) && forall b :: b in p <==> b in q || b == a;
      ActsFields(c, q);
      forall f ensures Same(Acts(c, p).out.message.report, if Copy(f) in p then c.stored else c.out.message.report, f) {
        ActField(Acts(c, q), a, f);
      }
    }
  }

  /** The first message of a connection: everything that is stored, but not the health. */
  function FirstMessage(m: AgentToServer, s: Report, x: Captured): AgentToServer {
    m.(report := m.report.(
         agentDescription := s.agentDescription, remoteConfigStatus := s.remoteConfigStatus,
         packageStatuses := s.packageStatuses, capabilities := s.capabilities,
         customCapabilities := s.customCapabilities),
       effectiveConfig := x.config, flags := x.flags, availableComponents := x.components,
       connectionSettingsStatus := x.connectionStatus)
  }

  /** What `m` has where `x` would change it. */
  function Current(m: AgentToServer, x: Extra): Extra {
    match x
    case UidExtra(_) => UidExtra(m.instanceUid)
    case EffectiveConfigExtra(_) => EffectiveConfigExtra(m.effectiveConfig)
    case FlagsExtra(_) => FlagsExtra(m.flags)
    case ComponentsExtra(_) => ComponentsExtra(m.availableComponents)
    case ConnectionStatusExtra(_) => ConnectionStatusExtra(m.connectionSettingsStatus)
    case _ => x
  }

  predicate SameKind(x: Extra, y: Extra) {
    match x
    case UidExtra(_) => y.UidExtra?
    case EffectiveConfigExtra(_) => y.EffectiveConfigExtra?
    case FlagsExtra(_) => y.FlagsExtra?
    case ComponentsExtra(_) => y.ComponentsExtra?
    case ConnectionStatusExtra(_) => y.ConnectionStatusExtra?
    case RequestExtra(_) => y.RequestExtra?
    case DisconnectExtra => y.DisconnectExtra?
  }

  /** Of the changes of its kind, only `x` is in the program. */
  predicate OnlyChange(p: seq<Action>, x: Extra) {
    forall a <- p :: a.Put? && SameKind(a.extra, x) ==> a.extra == x
  }

  /** What a plain program puts into the slot beside the report. */
  lemma {:induction false} ActsExtra(c: Core, p: seq<Action>, x: Extra)
    requires (forall a <- p :: Plain(a)) && OnlyChange(p, x)
    ensures Current(Acts(c, p).out.message, x) == if Put(x) in p then x else Current(c.out.message, x)
    decreases |p|
  {
    if p != [] {
      var q, a := p[..|p| - 1], p[|p| - 1];
      assert Plain(a) && a in p && forall b :: b in p <==> b in q || b == a;
      ActsExtra(c, q, x);
    }
  }

  /** The part of the slot that full reports and first messages do not touch. */
  lemma {:induction false} ActsKeepRest(c: Core, p: seq<Action>)
    requires forall a <- p :: Plain(a) && (a.Put? ==> !a.extra.RequestExtra? && !a.extra.DisconnectExtra?)
    ensures var m, n := c.out.message, Acts(c, p).out.message;
            && n.sequenceNum == m.sequenceNum && n.customMessage == m.customMessage
            && n.agentDisconnect == m.agentDisconnect
            && n.connectionSettingsRequest == m.connectionSettingsRequest
    ensures Acts(c, p).out.channel == c.out.channel && Acts(c, p).out.closed == c.out.closed
    decreases |p|
  {
    if p != [] {
      assert p[|p| - 1] in p;
      ActsKeepRest(c, p[..|p| - 1]);
    }
  }

  lemma SameEverywhere(a: Report, b: Report)
    requires forall f :: Same(a, b, f)
    ensures a == b
  {
    assert Same(a, b, DescriptionField) && Same(a, b, HealthField) && Same(a, b, RemoteConfigField);
    assert Same(a, b, PackagesField) && Same(a, b, CustomCapabilitiesField) && Same(a, b, CapabilitiesField);
  }

  lemma FirstMessageIsPlain(x: Captured)
    ensures forall a <- FirstMessageProgram(x) :: Plain(a)
  {
  }

  lemma FirstMessageContents(x: Captured)
    ensures forall f :: Copy(f) in FirstMessageProgram(x) <==> f != HealthField
    ensures Unlock in FirstMessageProgram(x) && Schedule !in FirstMessageProgram(x)
  {
    var p := FirstMessageProgram(x);
    assert p[1] == Copy(DescriptionField) && p[3] == Copy(RemoteConfigField) && p[4] == Copy(PackagesField);
    assert p[5] == Copy(CapabilitiesField) && p[6] == Copy(CustomCapabilitiesField) && p[10] == Unlock;
  }

  lemma FullStateIsPlain(x: Captured)
    ensures forall a <- Program(ReportFullState(x)) :: Plain(a)
  {
  }

  lemma FullStateContents(x: Captured)
    ensures forall f :: Copy(f) in Program(ReportFullState(x))
    ensures Unlock in Program(ReportFullState(x)) && Schedule in Program(ReportFullState(x))
  {
    var p := Program(ReportFullState(x));
    assert p[1] == Copy(CapabilitiesField) && p[2] == Copy(DescriptionField) && p[3] == Copy(HealthField);
    assert p[4] == Copy(RemoteConfigField) && p[5] == Copy(PackagesField) && p[6] == Copy(CustomCapabilitiesField);
    assert p[10] == Unlock && p[11] == Schedule;
    forall f ensures Copy(f) in p {
      match f
      case HealthField =>
      case _ =>
    }
  }

  /** A plain program that publishes a given report. */
  lemma RunPublishesReport(c: Core, p: seq<Action>, published: Report)
    requires (forall a <- p :: Plain(a)) && Unlock in p
    requires forall f :: Same(published, if Copy(f) in p then c.stored else c.out.message.report, f)
    ensures ProgramOk(p)
    ensures Run(c, p).stored == c.stored && Run(c, p).out.pending && Run(c, p).token == (c.token || Schedule in p)
    ensures Run(c, p).out.message.report == published
  {
    RunPlain(c, p);
    ActsFields(c, p);
    forall f ensures Same(Run(c, p).out.message.report, published, f) {
      assert Same(published, if Copy(f) in p then c.stored else c.out.message.report, f);
    }
    SameEverywhere(Run(c, p).out.message.report, published);
  }

  /** A change of another kind is in neither program. */
  lemma FirstMessageChanges(x: Captured)
    ensures var p := FirstMessageProgram(x);
            && (forall a <- p :: a.Put? ==> !a.extra.RequestExtra? && !a.extra.DisconnectExtra? && !a.extra.UidExtra?)
            && OnlyChange(p, EffectiveConfigExtra(x.config)) && Put(EffectiveConfigExtra(x.config)) in p
            && OnlyChange(p, FlagsExtra(x.flags)) && Put(FlagsExtra(x.flags)) in p
            && OnlyChange(p, ComponentsExtra(x.components)) && Put(ComponentsExtra(x.components)) in p
            && OnlyChange(p, ConnectionStatusExtra(x.connectionStatus))
            && Put(ConnectionStatusExtra(x.connectionStatus)) in p
  {
    var p := FirstMessageProgram(x);
    assert p[2] == Put(EffectiveConfigExtra(x.config)) && p[7] == Put(FlagsExtra(x.flags));
    assert p[8] == Put(ComponentsExtra(x.components)) && p[9] == Put(ConnectionStatusExtra(x.connectionStatus));
  }

  lemma FirstMessageExtras(c: Core, x: Captured)
    ensures var m, n := c.out.message, Acts(c, FirstMessageProgram(x)).out.message;
            n == FirstMessage(m, c.stored, x).(report := n.report)
    ensures var o := Acts(c, FirstMessageProgram(x)).out; o.channel == c.out.channel && o.closed == c.out.closed
  {
    var p := FirstMessageProgram(x);
    FirstMessageIsPlain(x);
    FirstMessageChanges(x);
    ActsExtra(c, p, EffectiveConfigExtra(x.config));
    ActsExtra(c, p, FlagsExtra(x.flags));
    ActsExtra(c, p, ComponentsExtra(x.components));
    ActsExtra(c, p, ConnectionStatusExtra(x.connectionStatus));
    KeepsUid(c, p);
    ActsKeepRest(c, p);
  }

  lemma KeepsUid(c: Core, p: seq<Action>)
    requires forall a <- p :: Plain(a) && (a.Put? ==> !a.extra.UidExtra?)
    ensures Acts(c, p).out.message.instanceUid == c.out.message.instanceUid
  {
    var x := UidExtra(c.out.message.instanceUid);
    ActsExtra(c, p, x);
  }

  /** The machine's program for the first message makes exactly this message, and schedules nothing. */
  lemma FirstMessageOfProgram(c: Core, x: Captured)
    ensures ProgramOk(FirstMessageProgram(x))
    ensures Run(c, FirstMessageProgram(x)) ==
              c.(out := c.out.(message := FirstMessage(c.out.message, c.stored, x), pending := true))
  {
    FirstMessageIsPlain(x);
    FirstMessageContents(x);
    RunPublishesReport(c, FirstMessageProgram(x), FirstMessage(c.out.message, c.stored, x).report);
    RunPlain(c, FirstMessageProgram(x));
    FirstMessageExtras(c, x);
  }

  lemma FullStateChanges(x: Captured)
    ensures var p := Program(ReportFullState(x));
            && (forall a <- p :: a.Put? ==> !a.extra.RequestExtra? && !a.extra.DisconnectExtra? && !a.extra.UidExtra?
                                            && !a.extra.ConnectionStatusExtra?)
            && OnlyChange(p, EffectiveConfigExtra(x.config)) && Put(EffectiveConfigExtra(x.config)) in p
            && OnlyChange(p, FlagsExtra(x.flags)) && Put(FlagsExtra(x.flags)) in p
            && OnlyChange(p, ComponentsExtra(x.components)) && Put(ComponentsExtra(x.components)) in p
  {
    var p := Program(ReportFullState(x));
    assert p[7] == Put(FlagsExtra(x.flags)) && p[8] == Put(ComponentsExtra(x.components));
    assert p[9] == Put(EffectiveConfigExtra(x.config));
  }

  /** The answer to a request for the full state: everything that is stored, with the captured values. */
  function FullState(m: AgentToServer, s: Report, x: Captured): AgentToServer {
    m.(report := s, flags := x.flags, availableComponents := x.components, effectiveConfig := x.config)
  }

  lemma FullStateExtras(c: Core, x: Captured)
    ensures var m, n := c.out.message, Acts(c, Program(ReportFullState(x))).out.message;
            n == FullState(m, c.stored, x).(report := n.report)
    ensures var o := Acts(c, Program(ReportFullState(x))).out; o.channel == c.out.channel && o.closed == c.out.closed
  {
    var p := Program(ReportFullState(x));
    FullStateIsPlain(x);
    FullStateChanges(x);
    ActsExtra(c, p, EffectiveConfigExtra(x.config));
    ActsExtra(c, p, FlagsExtra(x.flags));
    ActsExtra(c, p, ComponentsExtra(x.components));
    ActsExtra(c, p, ConnectionStatusExtra(c.out.message.connectionSettingsStatus));
    KeepsUid(c, p);
    ActsKeepRest(c, p);
  }

  /** The machine's answer is exactly this message, and it is scheduled. */
  lemma FullStateOfProgram(c: Core, x: Captured)
    ensures ProgramOk(Program(ReportFullState(x)))
    ensures Run(c, Program(ReportFullState(x))) ==
              Core(c.stored, c.out.(message := FullState(c.out.message, c.stored, x), pending := true), true)
  {
    FullStateIsPlain(x);
    FullStateContents(x);
    RunPublishesReport(c, Program(ReportFullState(x)), c.stored);
    RunPlain(c, Program(ReportFullState(x)));
    FullStateExtras(c, x);
  }

  /** A change beside the report, and the uid that a server may assign, which is not scheduled. */
  lemma RunExtra(c: Core, x: Extra)
    ensures ProgramOk(Program(PublishExtra(x)))
    ensures Run(c, Program(PublishExtra(x))) ==
              Core(c.stored, c.out.(message := Modify(c.out.message, x), pending := true), true)
  {
    RunPublish(c, Put(x));
  }

  lemma RunSetUid(c: Core, uid: Uid)
    ensures ProgramOk(Program(SetInstanceUid(uid)))
    ensures Run(c, Program(SetInstanceUid(uid))) ==
              c.(out := c.out.(message := c.out.message.(instanceUid := uid), pending := true))
  {
    var put := Put(UidExtra(uid));
    PlainPrograms([Lock, put, Unlock]);
    RunPutRelease(c, put);
    assert [Lock, put, Unlock] == [Lock] + [put, Unlock];
    RunStep(c, Lock, [put, Unlock]);
  }

  lemma RunPutRelease(c: Core, a: Action)
    requires a.Put?
    ensures ProgramOk([a, Unlock]) && Run(c, [a, Unlock]) == Act(Act(c, a), Unlock)
  {
    PlainPrograms([a, Unlock]);
    RunRelease(Act(c, a));
    assert [a, Unlock] == [a] + [Unlock];
    RunStep(c, a, [Unlock]);
  }

  // ---- The stored state ----------------------------------------------------------------------

  class ClientSyncedState {
    var agentDescription: Option<AgentDescription>
    var health: Option<ComponentHealth>
    var remoteConfigStatus: Option<RemoteConfigStatus>
    var connectionSettingsStatus: Option<ConnectionSettingsStatus>
    var packageStatuses: Option<PackageStatuses>
    var customCapabilities: Option<seq<string>>
    var availableComponents: Option<AvailableComponents>
    var flags: nat
    var agentCapabilities: set<Capability>

    constructor ()
      ensures AsReport() == EMPTY_REPORT
      ensures connectionSettingsStatus == None && availableComponents == None && flags == 0
    {
      agentDescription, health, remoteConfigStatus, packageStatuses := None, None, None, None;
      connectionSettingsStatus, customCapabilities, availableComponents := None, None, None;
      flags, agentCapabilities := 0, {};
    }

    ghost function AsReport(): Report
      reads this
    {
      Report(agentDescription, health, remoteConfigStatus, packageStatuses, customCapabilities, agentCapabilities)
    }

    method SetAgentDescription(descr: Option<AgentDescription>) returns (err: Outcome)
      modifies this`agentDescription
      ensures err == if descr.None? then Some(ErrAgentDescriptionMissing)
                     else if descr.value == AgentDescription(None, None) then Some(ErrAgentDescriptionNoAttributes)
                     else None
      ensures agentDescription == if err.None? then descr else old(agentDescription)
    {
      if descr.None? { return Some(ErrAgentDescriptionMissing); }
      if descr.value.identifyingAttributes.None? && descr.value.nonIdentifyingAttributes.None? {
        return Some(ErrAgentDescriptionNoAttributes);
      }
      agentDescription := descr;
      return None;
    }

    /** A linear search, as in the source. */
    method HasCustomCapability(capability: string) returns (found: bool)
      ensures found <==> customCapabilities.Some? && capability in customCapabilities.value
    {
      if customCapabilities.None? { return false; }
      var cs := customCapabilities.value;
      for i := 0 to |cs|
        invariant capability !in cs[..i]
      {
        if cs[i] == capability { return true; }
      }
      return false;
    }
  }

  // ---- The slot and the token ----------------------------------------------------------------

  class SenderCommon {
    const nextMessage: NextMessage
    const overHttp: bool
    var hasPendingMessage: bool
    var heartbeatInterval: int   // in milliseconds

    constructor (overHttp: bool)
      ensures this.overHttp == overHttp && !hasPendingMessage
      ensures fresh(nextMessage) && nextMessage.Valid() && nextMessage.View() == EMPTY_OUTBOX
    {
      this.overHttp := overHttp;
      nextMessage := new NextMessage();
      hasPendingMessage, heartbeatInterval := false, 30_000;
    }

    method SetHeartbeatInterval(interval: int) returns (err: Outcome)
      modifies this`heartbeatInterval
      ensures err == if BadInterval(overHttp, interval) then Some(ErrHeartbeatInterval) else None
      ensures err.None? <==> 0 < interval || (interval == 0 && !overHttp)
      ensures heartbeatInterval == if err.None? then interval else old(heartbeatInterval)
    {
      if overHttp && interval <= 0 { return Some(ErrHeartbeatInterval); }
      if interval < 0 { return Some(ErrHeartbeatInterval); }
      heartbeatInterval := interval;
      return None;
    }

    /** The channel has one slot, and putting the token never blocks. */
    method ScheduleSend()
      modifies this`hasPendingMessage
      ensures hasPendingMessage
    {
      if !hasPendingMessage {
        hasPendingMessage := true;
      }
    }

    method SetInstanceUid(uid: Uid) returns (err: Outcome)
      requires nextMessage.Valid()
      modifies nextMessage
      ensures nextMessage.Valid()
      ensures err == if uid == ZERO_UID then Some(ErrEmptyInstanceUid) else None
      ensures nextMessage.View() ==
                if err.Some? then old(nextMessage.View())
                else old(nextMessage.View()).(
                  message := old(nextMessage.View()).message.(instanceUid := uid), pending := true)
    {
      if uid == ZERO_UID { return Some(ErrEmptyInstanceUid); }
      var _ := nextMessage.Update(m => Modify(m, UidExtra(uid)));
      return None;
    }
  }

  // ---- The client ----------------------------------------------------------------------------

  /** What the client asks of a packages state provider at start: the last reported statuses,
      which may be missing, or an error. */
  datatype Provider = Provider(lastReported: Option<Option<PackageStatuses>>)

  datatype StartSettings = StartSettings(
    capabilities: set<Capability>, instanceUid: Uid, remoteConfigStatus: Option<RemoteConfigStatus>,
    packagesStateProvider: Option<Provider>, heartbeatInterval: Option<int>,
    lastConnectionSettingsStatus: Option<ConnectionSettingsStatus>)

  /** A mask that the client can back: what it reports exists, and packages are offered exactly
      when there is a provider to store them. */
  predicate Backed(capabilities: set<Capability>, hasHealth: bool, hasComponents: bool, hasProvider: bool) {
    && (ReportsHealth in capabilities ==> hasHealth)
    && (ReportsAvailableComponents in capabilities ==> hasComponents)
    && (AcceptsPackages in capabilities <==> hasProvider)
    && (ReportsPackageStatuses in capabilities <==> hasProvider)
  }

  function CapabilityError(capabilities: set<Capability>, hasHealth: bool, hasComponents: bool,
                           hasProvider: bool): (r: Outcome)
    ensures r.None? <==> Backed(capabilities, hasHealth, hasComponents, hasProvider)
  {
    if ReportsHealth in capabilities && !hasHealth then Some(ErrHealthMissing)
    else if ReportsAvailableComponents in capabilities && !hasComponents then Some(ErrAvailableComponentsMissing)
    else if hasProvider && (AcceptsPackages !in capabilities || ReportsPackageStatuses !in capabilities)
    then Some(ErrAcceptsPackagesNotSet)
    else if !hasProvider && (AcceptsPackages in capabilities || ReportsPackageStatuses in capabilities)
    then Some(ErrPackagesStateProviderNotSet)
    else None
  }

  /** Missing components have the empty hash. */
  function HashOf(components: Option<AvailableComponents>): Bytes {
    if components.Some? then components.value.hash else []
  }

  /** The statuses to start with: the ones reported last, or empty ones. */
  function StartStatuses(provider: Option<Provider>): PackageStatuses {
    match provider
    case Some(Provider(Some(Some(last)))) => last
    case _ => PackageStatuses(map[], [])
  }

  /** The heartbeat interval of the settings counts for a client that reports heartbeats... */
  function StartInterval(capabilities: set<Capability>, settings: StartSettings, before: int): int {
    if ReportsHeartbeat in capabilities && settings.heartbeatInterval.Some?
    then settings.heartbeatInterval.value else before
  }

  /** ... and the last status for one that reports the status of connection settings. */
  function StartConnectionStatus(capabilities: set<Capability>, settings: StartSettings,
                                 before: Option<ConnectionSettingsStatus>): Option<ConnectionSettingsStatus> {
    if ReportsConnectionSettingsStatus in capabilities && settings.lastConnectionSettingsStatus.Some?
    then settings.lastConnectionSettingsStatus else before
  }

  /** The mask that a start works with: the one of the settings, else the stored one. */
  function StartCapabilities(stored: set<Capability>, capabilities: set<Capability>): set<Capability> {
    if capabilities != {} then capabilities + {ReportsStatus}
    else if stored != {} then stored
    else {ReportsStatus}
  }

  /** The WebSocket sender takes a zero interval to turn heartbeats off; the HTTP sender refuses it. */
  predicate BadInterval(overHttp: bool, interval: int) {
    interval < 0 || (overHttp && interval == 0)
  }

  function SenderError(overHttp: bool, capabilities: set<Capability>, settings: StartSettings): Outcome {
    if ReportsHeartbeat in capabilities && settings.heartbeatInterval.Some?
       && BadInterval(overHttp, settings.heartbeatInterval.value)
    then Some(ErrHeartbeatInterval)
    else if settings.instanceUid == ZERO_UID then Some(ErrEmptyInstanceUid)
    else None
  }

  /** Everything that a start needs. */
  predicate Startable(overHttp: bool, capabilities: set<Capability>, hasDescription: bool, hasHealth: bool,
                      hasComponents: bool, settings: StartSettings) {
    && hasDescription && settings.instanceUid != ZERO_UID
    && Backed(capabilities, hasHealth, hasComponents, settings.packagesStateProvider.Some?)
    && (settings.packagesStateProvider.Some? ==> settings.packagesStateProvider.value.lastReported.Some?)
    && (ReportsHeartbeat in capabilities && settings.heartbeatInterval.Some? ==>
          0 < settings.heartbeatInterval.value || (settings.heartbeatInterval.value == 0 && !overHttp))
  }

  /** Which settings are refused, and by which check first. */
  function StartError(overHttp: bool, capabilities: set<Capability>, hasDescription: bool, hasHealth: bool,
                      hasComponents: bool, settings: StartSettings): (r: Outcome)
    ensures r.None? <==> Startable(overHttp, capabilities, hasDescription, hasHealth, hasComponents, settings)
  {
    var provider := settings.packagesStateProvider;
    var error := CapabilityError(capabilities, hasHealth, hasComponents, provider.Some?);
    if !hasDescription then Some(ErrAgentDescriptionMissing)
    else if error.Some? then error
    else if provider.Some? && provider.value.lastReported.None? then Some(ErrLastReportedStatuses)
    else SenderError(overHttp, capabilities, settings)
  }

  class ClientCommon {
    const state: ClientSyncedState
    const sender: SenderCommon
    var packagesStateProvider: Option<Provider>
    var isStarted: bool
    var isStopping: bool

    ghost function AsCore(): Core
      reads state, sender, sender.nextMessage
    {
      Core(state.AsReport(), sender.nextMessage.View(), sender.hasPendingMessage)
    }

    /** A started client advertises ReportsStatus, and only what it can back. */
    ghost predicate Honest()
      reads this, state
    {
      && state.agentCapabilities != {}
      && Backed(state.agentCapabilities, state.health.Some?, state.availableComponents.Some?,
                packagesStateProvider.Some?)
    }

    ghost predicate Valid()
      reads this, state, sender, sender.nextMessage
    {
      && sender.nextMessage.Valid()
      && (state.agentCapabilities != {} ==> ReportsStatus in state.agentCapabilities)
      && (isStarted ==> Honest())
    }

    constructor (overHttp: bool)
      ensures fresh(state) && fresh(sender) && fresh(sender.nextMessage) && sender.overHttp == overHttp
      ensures Valid() && !isStarted && AsCore() == NEW_CORE
    {
      state := new ClientSyncedState();
      sender := new SenderCommon(overHttp);
      packagesStateProvider, isStarted, isStopping := None, false, false;
    }

    method Publish(modifier: AgentToServer -> AgentToServer) returns (channel: nat)
      requires Valid()
      modifies sender.nextMessage
      ensures Valid()
      ensures sender.nextMessage.View() ==
                old(sender.nextMessage.View()).(
                  message := modifier(old(sender.nextMessage.nextMessage)), pending := true)
      ensures channel == old(sender.nextMessage.View()).channel
    {
      channel := sender.nextMessage.Update(modifier);
    }

    method SetAgentDescription(descr: Option<AgentDescription>) returns (err: Outcome)
      requires Valid()
      modifies state, sender, sender.nextMessage
      ensures Valid()
      ensures err == if descr.None? then Some(ErrAgentDescriptionMissing)
                     else if descr.value == AgentDescription(None, None) then Some(ErrAgentDescriptionNoAttributes)
                     else None
      ensures err.Some? ==> AsCore() == old(AsCore())
      ensures err.None? ==>
        && state.agentDescription == descr
        && AsCore() == Published(old(AsCore()), DescriptionField, EMPTY_REPORT.(agentDescription := descr))
        && ProgramOk(Program(Call.SetAgentDescription(descr.value)))
        && AsCore() == Run(old(AsCore()), Program(Call.SetAgentDescription(descr.value)))
    {
      err := state.SetAgentDescription(descr);
      if err.Some? { return; }
      var d := state.agentDescription;
      var _ := Publish((m: AgentToServer) => m.(report := m.report.(agentDescription := d)));
      sender.ScheduleSend();
      RunStoreAndPublish(old(AsCore()), DescriptionField, EMPTY_REPORT.(agentDescription := descr));
    }

    method SetHealth(health: Option<ComponentHealth>) returns (err: Outcome)
      requires Valid()
      modifies state, sender, sender.nextMessage
      ensures Valid()
      ensures err == if health.None? then Some(ErrHealthMissing) else None
      ensures err.Some? ==> AsCore() == old(AsCore())
      ensures err.None? ==>
        && AsCore() == Published(old(AsCore()), HealthField, EMPTY_REPORT.(health := health))
        && ProgramOk(Program(Call.SetHealth(health.value)))
        && AsCore() == Run(old(AsCore()), Program(Call.SetHealth(health.value)))
    {
      if health.None? { return Some(ErrHealthMissing); }
      state.health := health;
      var h := state.health;
      var _ := Publish((m: AgentToServer) => m.(report := m.report.(health := h)));
      sender.ScheduleSend();
      RunStoreAndPublish(old(AsCore()), HealthField, EMPTY_REPORT.(health := health));
      return None;
    }

    /** `hashPresent` tells a nil hash from an empty one; a nil status is an error of the caller. */
    method SetRemoteConfigStatus(status: RemoteConfigStatus, hashPresent: bool) returns (err: Outcome)
      requires Valid()
      modifies state, sender, sender.nextMessage
      ensures Valid()
      ensures err == if ReportsRemoteConfig !in old(state.agentCapabilities) then Some(ErrReportsRemoteConfigNotSet)
                     else if !hashPresent then Some(ErrLastRemoteConfigHashNil) else None
      ensures err.Some? ==> AsCore() == old(AsCore())
      ensures err.None? ==>
        && AsCore() == (if old(state.remoteConfigStatus) == Some(status) then old(AsCore())
                        else Published(old(AsCore()), RemoteConfigField, RemoteReport(status)))
        && ProgramOk(Program(Call.SetRemoteConfigStatus(status)))
        && AsCore() == Run(old(AsCore()), Program(Call.SetRemoteConfigStatus(status)))
    {
      if ReportsRemoteConfig !in state.agentCapabilities { return Some(ErrReportsRemoteConfigNotSet); }
      if !hashPresent { return Some(ErrLastRemoteConfigHashNil); }
      var statusChanged := state.remoteConfigStatus != Some(status);
      state.remoteConfigStatus := Some(status);
      if statusChanged {
        var s := state.remoteConfigStatus;
        var _ := Publish((m: AgentToServer) => m.(report := m.report.(remoteConfigStatus := s)));
        sender.ScheduleSend();
      }
      RunCompareRemote(old(AsCore()), status);
      return None;
    }

    method SetPackageStatuses(statuses: PackageStatuses, hashPresent: bool) returns (err: Outcome)
      requires Valid()
      modifies state, sender, sender.nextMessage
      ensures Valid()
      ensures err == if ReportsPackageStatuses !in old(state.agentCapabilities)
                     then Some(ErrReportsPackageStatusesNotSet)
                     else if !hashPresent then Some(ErrServerProvidedAllPackagesHashNil) else None
      ensures err.Some? ==> AsCore() == old(AsCore())
      ensures err.None? ==>
        && AsCore() == (if old(state.packageStatuses) == Some(statuses) then old(AsCore())
                        else Published(old(AsCore()), PackagesField, PackagesReport(statuses)))
        && ProgramOk(Program(Call.SetPackageStatuses(statuses)))
        && AsCore() == Run(old(AsCore()), Program(Call.SetPackageStatuses(statuses)))
    {
      if ReportsPackageStatuses !in state.agentCapabilities { return Some(ErrReportsPackageStatusesNotSet); }
      if !hashPresent { return Some(ErrServerProvidedAllPackagesHashNil); }
      var statusChanged := state.packageStatuses != Some(statuses);
      state.packageStatuses := Some(statuses);
      if statusChanged {
        var s := state.packageStatuses;
        var _ := Publish((m: AgentToServer) => m.(report := m.report.(packageStatuses := s)));
        sender.ScheduleSend();
      }
      RunComparePackages(old(AsCore()), statuses);
      return None;
    }

    method SetCustomCapabilities(capabilities: Option<seq<string>>) returns (err: Outcome)
      requires Valid()
      modifies state, sender, sender.nextMessage
      ensures Valid()
      ensures err == if capabilities.None? then Some(ErrCustomCapabilitiesMissing) else None
      ensures err.Some? ==> AsCore() == old(AsCore())
      ensures err.None? ==>
        && AsCore() == Published(old(AsCore()), CustomCapabilitiesField,
                                 EMPTY_REPORT.(customCapabilities := capabilities))
        && ProgramOk(Program(Call.SetCustomCapabilities(capabilities.value)))
        && AsCore() == Run(old(AsCore()), Program(Call.SetCustomCapabilities(capabilities.value)))
    {
      if capabilities.None? { return Some(ErrCustomCapabilitiesMissing); }
      state.customCapabilities := capabilities;
      var c := state.customCapabilities;
      var _ := Publish((m: AgentToServer) => m.(report := m.report.(customCapabilities := c)));
      sender.ScheduleSend();
      RunStoreAndPublish(old(AsCore()), CustomCapabilitiesField, EMPTY_REPORT.(customCapabilities := capabilities));
      return None;
    }

    /** Puts the message into the slot, unless there is one already. */
    method PublishCustom(message: CustomMessage) returns (hasCustomMessage: bool, channel: nat)
      requires Valid()
      modifies sender.nextMessage
      ensures Valid() && AsCore() == Act(Act(old(AsCore()), PutCustom(message)), Unlock)
      ensures hasCustomMessage == old(AsCore()).out.message.customMessage.Some?
      ensures channel == old(AsCore()).out.channel
    {
      hasCustomMessage := sender.nextMessage.nextMessage.customMessage.Some?;
      channel := Publish((m: AgentToServer) =>
        if m.customMessage.Some? then m else m.(customMessage := Some(message)));
    }

    /** Schedules a send only if the slot took the message. */
    method PutCustomMessage(message: CustomMessage) returns (hasCustomMessage: bool, channel: nat)
      requires Valid()
      modifies sender, sender.nextMessage
      ensures Valid() && channel == old(AsCore()).out.channel
      ensures hasCustomMessage == old(AsCore()).out.message.customMessage.Some?
      ensures ProgramOk(Program(Call.SendCustomMessage(message)))
      ensures AsCore() == Run(old(AsCore()), Program(Call.SendCustomMessage(message)))
      ensures !hasCustomMessage ==>
        && sender.hasPendingMessage
        && AsCore().out == old(AsCore()).out.(
             message := old(AsCore()).out.message.(customMessage := Some(message)), pending := true)
    {
      hasCustomMessage, channel := PublishCustom(message);
      RunCustom(old(AsCore()), message);
      if !hasCustomMessage {
        sender.ScheduleSend();
      }
    }

    method SendCustomMessage(message: Option<CustomMessage>) returns (channel: Option<nat>, err: Outcome)
      requires Valid()
      modifies sender, sender.nextMessage
      ensures Valid()
      ensures message.None? <==> err == Some(ErrCustomMessageMissing)
      ensures err == Some(ErrCustomCapabilityNotSupported) <==>
                message.Some? &&
                !(state.customCapabilities.Some? && message.value.capability in state.customCapabilities.value)
      ensures err == None || err == Some(ErrCustomMessagePending) <==> channel.Some?
      ensures channel.None? ==> AsCore() == old(AsCore())
      ensures channel.Some? ==>
        && channel.value == old(AsCore()).out.channel
        && (err == Some(ErrCustomMessagePending) <==> old(AsCore()).out.message.customMessage.Some?)
        && (err.None? ==>
              && sender.hasPendingMessage
              && AsCore().out == old(AsCore()).out.(
                   message := old(AsCore()).out.message.(customMessage := message), pending := true))
        && ProgramOk(Program(Call.SendCustomMessage(message.value)))
        && AsCore() == Run(old(AsCore()), Program(Call.SendCustomMessage(message.value)))
    {
      if message.None? { return None, Some(ErrCustomMessageMissing); }
      var supported := state.HasCustomCapability(message.value.capability);
      if !supported { return None, Some(ErrCustomCapabilityNotSupported); }
      var hasCustomMessage, sendingChan := PutCustomMessage(message.value);
      return Some(sendingChan), if hasCustomMessage then Some(ErrCustomMessagePending) else None;
    }

    method PublishExtra(x: Extra)
      requires Valid()
      modifies sender, sender.nextMessage
      ensures Valid()
      ensures ProgramOk(Program(Call.PublishExtra(x))) && AsCore() == Run(old(AsCore()), Program(Call.PublishExtra(x)))
      ensures AsCore() == Core(old(AsCore()).stored, old(AsCore()).out.(
                message := Modify(old(AsCore()).out.message, x), pending := true), true)
    {
      var _ := Publish((m: AgentToServer) => Modify(m, x));
      sender.ScheduleSend();
      RunExtra(old(AsCore()), x);
    }

    method SetAvailableComponents(components: Option<AvailableComponents>) returns (err: Outcome)
      requires Valid()
      modifies state, sender, sender.nextMessage
      ensures Valid()
      ensures err.Some? ==> AsCore() == old(AsCore()) && state.availableComponents == old(state.availableComponents)
      ensures !isStarted ==> (err.None? <==> components.Some?)
      ensures isStarted ==>
        (err.None? <==>
          ReportsAvailableComponents in state.agentCapabilities && components.Some? && components.value.hash != [])
      ensures err.None? ==> state.availableComponents == components
      // Only a change is sent, and only its hash.
      ensures err.None? && isStarted && old(state.availableComponents) != components ==>
        var x := ComponentsExtra(Some(AvailableComponents(None, components.value.hash)));
        && sender.hasPendingMessage
        && AsCore().out == old(AsCore()).out.(
             message := old(AsCore()).out.message.(
               availableComponents := Some(AvailableComponents(None, components.value.hash))),
             pending := true)
        && ProgramOk(Program(Call.PublishExtra(x))) && AsCore() == Run(old(AsCore()), Program(Call.PublishExtra(x)))
      ensures err.None? && (!isStarted || old(state.availableComponents) == components) ==> AsCore() == old(AsCore())
    {
      if !isStarted {
        if components.None? { return Some(ErrAvailableComponentsMissing); }
        state.availableComponents := components;
        return None;
      }
      if ReportsAvailableComponents !in state.agentCapabilities { return Some(ErrReportsAvailableComponentsNotSet); }
      if components.None? { return Some(ErrAvailableComponentsMissing); }
      if components.value.hash == [] { return Some(ErrNoAvailableComponentHash); }
      if state.availableComponents != components {
        state.availableComponents := components;
        PublishExtra(ComponentsExtra(Some(AvailableComponents(None, state.availableComponents.value.hash))));
      }
      return None;
    }

    method ValidateCapabilities(capabilities: set<Capability>) returns (err: Outcome)
      ensures err == CapabilityError(
                capabilities, state.health.Some?, state.availableComponents.Some?, packagesStateProvider.Some?)
      ensures err.None? <==>
        Backed(capabilities, state.health.Some?, state.availableComponents.Some?, packagesStateProvider.Some?)
    {
      if ReportsHealth in capabilities && state.health.None? { return Some(ErrHealthMissing); }
      if ReportsAvailableComponents in capabilities && state.availableComponents.None? {
        return Some(ErrAvailableComponentsMissing);
      }
      if packagesStateProvider.Some? {
        if AcceptsPackages !in capabilities || ReportsPackageStatuses !in capabilities {
          return Some(ErrAcceptsPackagesNotSet);
        }
      } else {
        if AcceptsPackages in capabilities || ReportsPackageStatuses in capabilities {
          return Some(ErrPackagesStateProviderNotSet);
        }
      }
      return None;
    }

    /** A nil mask is ignored, without an error. */
    method SetCapabilities(capabilities: Option<set<Capability>>) returns (err: Outcome)
      requires Valid()
      modifies state, sender, sender.nextMessage
      ensures Valid()
      ensures capabilities.None? ==> err.None?
      ensures err.Some? || capabilities.None? ==> AsCore() == old(AsCore())
      ensures capabilities.Some? ==>
        (err.None? <==> Backed(capabilities.value + {ReportsStatus}, state.health.Some?,
                               state.availableComponents.Some?, packagesStateProvider.Some?))
      ensures err.None? && capabilities.Some? ==>
        && AsCore() == Published(old(AsCore()), CapabilitiesField,
                                 EMPTY_REPORT.(capabilities := capabilities.value + {ReportsStatus}))
        && ProgramOk(Program(Call.SetCapabilities(capabilities.value)))
        && AsCore() == Run(old(AsCore()), Program(Call.SetCapabilities(capabilities.value)))
    {
      if capabilities.None? { return None; }
      var caps := capabilities.value + {ReportsStatus};
      err := ValidateCapabilities(caps);
      if err.Some? { return; }
      state.agentCapabilities := caps;
      var c := state.agentCapabilities;
      var _ := Publish((m: AgentToServer) => m.(report := m.report.(capabilities := c)));
      sender.ScheduleSend();
      RunStoreAndPublish(old(AsCore()), CapabilitiesField, EMPTY_REPORT.(capabilities := caps));
    }

    method PreparePackageStatuses() returns (err: Outcome)
      requires sender.nextMessage.Valid() && !isStarted
      modifies state`packageStatuses
      ensures err == if packagesStateProvider.Some? && AcceptsPackages in state.agentCapabilities
                        && ReportsPackageStatuses in state.agentCapabilities
                        && packagesStateProvider.value.lastReported.None?
                     then Some(ErrLastReportedStatuses) else None
      ensures err.Some? ==> state.packageStatuses == old(state.packageStatuses)
      ensures err.None? ==>
        state.packageStatuses == Some(if AcceptsPackages in state.agentCapabilities
                                         && ReportsPackageStatuses in state.agentCapabilities
                                      then StartStatuses(packagesStateProvider) else PackageStatuses(map[], []))
    {
      var packageStatuses: Option<PackageStatuses> := None;
      if packagesStateProvider.Some? && AcceptsPackages in state.agentCapabilities &&
         ReportsPackageStatuses in state.agentCapabilities
      {
        if packagesStateProvider.value.lastReported.None? { return Some(ErrLastReportedStatuses); }
        packageStatuses := packagesStateProvider.value.lastReported.value;
      }
      state.packageStatuses := if packageStatuses.Some? then packageStatuses else Some(PackageStatuses(map[], []));
      return None;
    }

    /** The mask of the settings, if there is one; at least ReportsStatus. */
    method StoreCapabilities(capabilities: set<Capability>)
      modifies state`agentCapabilities
      ensures state.agentCapabilities == StartCapabilities(old(state.agentCapabilities), capabilities)
    {
      if capabilities != {} {
        state.agentCapabilities := capabilities + {ReportsStatus};
      }
      if state.agentCapabilities == {} {
        state.agentCapabilities := {ReportsStatus};
      }
    }

    method PrepareSender(settings: StartSettings) returns (err: Outcome)
      requires sender.nextMessage.Valid()
      modifies sender.nextMessage, sender`heartbeatInterval, state`connectionSettingsStatus
      ensures sender.nextMessage.Valid()
      ensures err == SenderError(sender.overHttp, state.agentCapabilities, settings)
      ensures err.None? ==>
        && sender.heartbeatInterval ==
             StartInterval(state.agentCapabilities, settings, old(sender.heartbeatInterval))
        && state.connectionSettingsStatus ==
             StartConnectionStatus(state.agentCapabilities, settings, old(state.connectionSettingsStatus))
      ensures err.None? ==> sender.nextMessage.View() == old(sender.nextMessage.View()).(
                message := old(sender.nextMessage.View()).message.(instanceUid := settings.instanceUid),
                pending := true)
    {
      if ReportsHeartbeat in state.agentCapabilities && settings.heartbeatInterval.Some? {
        err := sender.SetHeartbeatInterval(settings.heartbeatInterval.value);
        if err.Some? { return; }
      }
      err := sender.SetInstanceUid(settings.instanceUid);
      if err.Some? { return; }
      if ReportsConnectionSettingsStatus in state.agentCapabilities && settings.lastConnectionSettingsStatus.Some? {
        state.connectionSettingsStatus := settings.lastConnectionSettingsStatus;
      }
    }

    /** The statuses that a start works with, and what it hands to the sender. */
    method PrepareContents(settings: StartSettings) returns (err: Outcome)
      requires sender.nextMessage.Valid() && !isStarted && packagesStateProvider == settings.packagesStateProvider
      requires Backed(state.agentCapabilities, state.health.Some?, state.availableComponents.Some?,
                      packagesStateProvider.Some?)
      modifies sender.nextMessage, sender`heartbeatInterval
      modifies state`remoteConfigStatus, state`packageStatuses, state`connectionSettingsStatus
      ensures sender.nextMessage.Valid()
      ensures err == if packagesStateProvider.Some? && packagesStateProvider.value.lastReported.None?
                     then Some(ErrLastReportedStatuses)
                     else SenderError(sender.overHttp, state.agentCapabilities, settings)
      ensures err.None? ==>
        && state.remoteConfigStatus ==
             OrElse(settings.remoteConfigStatus, Some(RemoteConfigStatus([], RemoteUnset, "")))
        && state.packageStatuses == Some(StartStatuses(settings.packagesStateProvider))
        && sender.heartbeatInterval ==
             StartInterval(state.agentCapabilities, settings, old(sender.heartbeatInterval))
        && state.connectionSettingsStatus ==
             StartConnectionStatus(state.agentCapabilities, settings, old(state.connectionSettingsStatus))
        && AsCore() == Prepared(old(AsCore()), None, state.remoteConfigStatus, state.packageStatuses,
                                Some(settings.instanceUid))
    {
      state.remoteConfigStatus :=
        if settings.remoteConfigStatus.Some? then settings.remoteConfigStatus
        else Some(RemoteConfigStatus([], RemoteUnset, ""));
      err := PreparePackageStatuses();
      if err.Some? { return; }
      err := PrepareSender(settings);
    }

    /** The mask is stored before it is validated; a failure leaves the client not started. */
    method PrepareStart(settings: StartSettings) returns (err: Outcome)
      requires Valid()
      modifies this`packagesStateProvider, sender.nextMessage, sender`heartbeatInterval
      modifies state`agentCapabilities, state`remoteConfigStatus, state`packageStatuses, state`connectionSettingsStatus
      ensures Valid()
      ensures old(isStarted) ==>
        && err == Some(ErrAlreadyStarted)
        && AsCore() == old(AsCore()) && packagesStateProvider == old(packagesStateProvider)
      ensures !old(isStarted) ==>
        && state.agentCapabilities == StartCapabilities(old(state.agentCapabilities), settings.capabilities)
        && state.agentCapabilities == (if settings.capabilities == {} then old(state.agentCapabilities)
                                       else settings.capabilities) + {ReportsStatus}
        && err == StartError(sender.overHttp, state.agentCapabilities, state.agentDescription.Some?, state.health.Some?,
                             state.availableComponents.Some?, settings)
      ensures err.None? ==> Honest() && state.agentDescription.Some?
      ensures err.None? ==> packagesStateProvider == settings.packagesStateProvider
      ensures err.None? ==>
        state.remoteConfigStatus == OrElse(settings.remoteConfigStatus, Some(RemoteConfigStatus([], RemoteUnset, "")))
      ensures err.None? ==> state.packageStatuses == Some(StartStatuses(settings.packagesStateProvider))
      ensures err.None? ==>
        && sender.heartbeatInterval ==
             StartInterval(state.agentCapabilities, settings, old(sender.heartbeatInterval))
        && state.connectionSettingsStatus ==
             StartConnectionStatus(state.agentCapabilities, settings, old(state.connectionSettingsStatus))
      ensures err.None? ==> settings.instanceUid != ZERO_UID
      // The effect is that of a step of the machine.
      ensures err.None? ==>
        AsCore() == Prepared(old(AsCore()), Some(state.agentCapabilities), state.remoteConfigStatus,
                             state.packageStatuses, Some(settings.instanceUid))
    {
      if isStarted { return Some(ErrAlreadyStarted); }
      StoreCapabilities(settings.capabilities);
      if state.agentDescription.None? { return Some(ErrAgentDescriptionMissing); }

      packagesStateProvider := settings.packagesStateProvider;
      err := ValidateCapabilities(state.agentCapabilities);
      if err.Some? { return; }
      err := PrepareContents(settings);
    }

    /** `transportOk` stands for the address, proxy and TLS settings. */
    method Start(settings: StartSettings, transportOk: bool) returns (err: Outcome)
      requires Valid()
      modifies this, state, sender.nextMessage, sender`heartbeatInterval
      ensures Valid()
      ensures isStarted && !old(isStarted) ==>
        && err.None? && Honest() && state.agentDescription.Some? && state.remoteConfigStatus.Some?
      // When it succeeds; a client that is being stopped does not count as started then.
      ensures err.None? <==>
        && !old(isStarted) && transportOk
        && Startable(sender.overHttp, StartCapabilities(old(state.agentCapabilities), settings.capabilities),
                     state.agentDescription.Some?, state.health.Some?, state.availableComponents.Some?, settings)
      ensures err.Some? ==> isStarted == old(isStarted)
      ensures err.None? ==> isStarted == !old(isStopping)
    {
      err := PrepareStart(settings);
      if err.Some? { return; }
      if !transportOk { return Some(ErrTransport); }
      if !isStopping {
        isStarted := true;
      }
    }

    /** `config` is what the GetEffectiveConfig callback returns; `None` is an error.  The HTTP client
        calls this before it counts as started. */
    method PrepareFirstMessage(config: Option<Option<EffectiveConfig>>) returns (err: Outcome)
      requires Valid()
      modifies sender.nextMessage
      ensures Valid()
      ensures err == if config.None? then Some(ErrGetEffectiveConfig) else None
      ensures err.Some? ==> AsCore() == old(AsCore())
      ensures err.None? ==>
        var x := Captured(config.value, state.flags,
                          if ReportsAvailableComponents in state.agentCapabilities
                          then Some(AvailableComponents(None, HashOf(state.availableComponents))) else None,
                          if ReportsConnectionSettingsStatus in state.agentCapabilities
                          then state.connectionSettingsStatus else None);
        && sender.hasPendingMessage == old(sender.hasPendingMessage)
        && sender.nextMessage.View() == old(sender.nextMessage.View()).(
             message := FirstMessage(old(sender.nextMessage.nextMessage), state.AsReport(), x), pending := true)
        && ProgramOk(FirstMessageProgram(x)) && AsCore() == Run(old(AsCore()), FirstMessageProgram(x))
    {
      if config.None? { return Some(ErrGetEffectiveConfig); }
      var components: Option<AvailableComponents> := None;
      if ReportsAvailableComponents in state.agentCapabilities {
        components := Some(AvailableComponents(None, HashOf(state.availableComponents)));
      }
      var connectionStatus: Option<ConnectionSettingsStatus> := None;
      if ReportsConnectionSettingsStatus in state.agentCapabilities {
        connectionStatus := state.connectionSettingsStatus;
      }
      var x := Captured(config.value, state.flags, components, connectionStatus);
      var d, r, p, caps, custom := state.agentDescription, state.remoteConfigStatus, state.packageStatuses,
                                   state.agentCapabilities, state.customCapabilities;
      var _ := Publish((m: AgentToServer) =>
        m.(report := m.report.(
             agentDescription := d, remoteConfigStatus := r, packageStatuses := p,
             capabilities := caps, customCapabilities := custom),
           effectiveConfig := x.config, flags := x.flags, availableComponents := x.components,
           connectionSettingsStatus := x.connectionStatus));
      FirstMessageOfProgram(old(AsCore()), x);
      return None;
    }

    /** The answer to the ReportFullState flag (receivedprocessor.go); a failing callback sends no
        effective config. */
    method RcvReportFullState(config: Option<Option<EffectiveConfig>>)
      requires Valid()
      modifies sender, sender.nextMessage
      ensures Valid()
      ensures sender.hasPendingMessage
      ensures sender.nextMessage.View() == old(sender.nextMessage.View()).(
                message := old(sender.nextMessage.nextMessage).(
                  report := state.AsReport(), flags := state.flags, availableComponents := state.availableComponents,
                  effectiveConfig := if config.Some? then config.value else None),
                pending := true)
      ensures var x := Captured(if config.Some? then config.value else None, state.flags, state.availableComponents,
                                None);
              && ProgramOk(Program(ReportFullState(x)))
              && AsCore() == Run(old(AsCore()), Program(ReportFullState(x)))
    {
      var cfg := if config.Some? then config.value else None;
      var flags, components := state.flags, state.availableComponents;
      var d, h, r, p, caps, custom := state.agentDescription, state.health, state.remoteConfigStatus,
                                      state.packageStatuses, state.agentCapabilities, state.customCapabilities;
      var _ := Publish((m: AgentToServer) =>
        m.(report := Report(d, h, r, p, custom, caps),
           flags := flags, availableComponents := components, effectiveConfig := cfg));
      sender.ScheduleSend();
      FullStateOfProgram(old(AsCore()), Captured(cfg, flags, components, None));
    }
  }
}
