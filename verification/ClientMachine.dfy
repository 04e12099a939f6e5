/** The client as a machine of interleaved steps.

    Every API call, the heartbeat, the preparation of the first message and the answer to a
    request for the full state is a little program of atomic actions, run by its own thread:
    storing a value, taking the message mutex, copying a stored field into the slot, releasing
    the mutex, scheduling a send.  Other threads and the sender loop may step between any two
    actions.  A run is any sequence of events; an event that is not enabled changes nothing, so
    every sequence of events is a run.
  */
module ClientMachine {
  import opened Messages
  import opened NextMessages

  /** A change to the slot outside the report part, with a value captured by the caller. */
  datatype Extra =
    | UidExtra(uid: Uid)
    | EffectiveConfigExtra(config: Option<EffectiveConfig>)
    | FlagsExtra(flags: nat)
    | ComponentsExtra(components: Option<AvailableComponents>)
    | ConnectionStatusExtra(status: Option<ConnectionSettingsStatus>)
    | RequestExtra(request: Bytes)
    | DisconnectExtra

  /** Each field of `r` comes from the change that is about it, or is as it was in `m`. */
  predicate ChangedBy(m: AgentToServer, x: Extra, r: AgentToServer) {
    && r.report == m.report && r.customMessage == m.customMessage && r.sequenceNum == m.sequenceNum
    && r.agentDisconnect == (m.agentDisconnect || x == DisconnectExtra)
    && r.instanceUid == (if x.UidExtra? then x.uid else m.instanceUid)
    && r.effectiveConfig == (if x.EffectiveConfigExtra? then x.config else m.effectiveConfig)
    && r.flags == (if x.FlagsExtra? then x.flags else m.flags)
    && r.availableComponents == (if x.ComponentsExtra? then x.components else m.availableComponents)
    && r.connectionSettingsStatus == (if x.ConnectionStatusExtra? then x.status else m.connectionSettingsStatus)
    && r.connectionSettingsRequest == (if x.RequestExtra? then Some(x.request) else m.connectionSettingsRequest)
  }

  function Modify(m: AgentToServer, x: Extra): (r: AgentToServer)
    ensures ChangedBy(m, x, r)
  {
    match x
    case UidExtra(uid) => m.(instanceUid := uid)
    case EffectiveConfigExtra(config) => m.(effectiveConfig := config)
    case FlagsExtra(flags) => m.(flags := flags)
    case ComponentsExtra(components) => m.(availableComponents := components)
    case ConnectionStatusExtra(status) => m.(connectionSettingsStatus := status)
    case RequestExtra(request) => m.(connectionSettingsRequest := Some(request))
    case DisconnectExtra => m.(agentDisconnect := true)
  }

  datatype Action =
    | Store(f: Field, from: Report)               // store one field of the synced state
    | CompareRemote(status: RemoteConfigStatus)   // read the stored status and compare
    | ComparePackages(statuses: PackageStatuses)
    | Lock                                        // take the message mutex
    | Copy(f: Field)                              // slot field := stored field
    | Put(extra: Extra)
    | PutCustom(message: CustomMessage)
    | Unlock                                      // mark pending, release the message mutex
    | Schedule                                    // put the token, if it is not there
    | Cancel                                      // cancel the context of the sender loop, if there is one

  /** The arguments captured by a full report or by the first message of a connection. */
  datatype Captured = Captured(
    config: Option<EffectiveConfig>, flags: nat,
    components: Option<AvailableComponents>, connectionStatus: Option<ConnectionSettingsStatus>)

  datatype Call =
    | SetAgentDescription(description: AgentDescription)
    | SetHealth(health: ComponentHealth)
    | SetCustomCapabilities(customCapabilities: seq<string>)
    | SetCapabilities(capabilities: set<Capability>)
    | SetRemoteConfigStatus(remoteStatus: RemoteConfigStatus)
    | SetPackageStatuses(statuses: PackageStatuses)
    | StorePackageStatuses(statuses: PackageStatuses)   // a sync run stores before it reports
    | ReportPackageStatuses(statuses: PackageStatuses)  // progress report of a sync run
    | PublishExtra(extra: Extra)
    | SetInstanceUid(uid: Uid)
    | SendCustomMessage(message: CustomMessage)
    | ReportFullState(captured: Captured)
    | Stop

  function StoreAndPublish(f: Field, from: Report): seq<Action> {
    [Store(f, from), Lock, Copy(f), Unlock, Schedule]
  }

  function RemoteReport(status: RemoteConfigStatus): Report {
    EMPTY_REPORT.(remoteConfigStatus := Some(status))
  }

  function PackagesReport(statuses: PackageStatuses): Report {
    EMPTY_REPORT.(packageStatuses := Some(statuses))
  }

  function Program(call: Call): seq<Action> {
    match call
    case SetAgentDescription(d) =>
      StoreAndPublish(DescriptionField, EMPTY_REPORT.(agentDescription := Some(d)))
    case SetHealth(h) => StoreAndPublish(HealthField, EMPTY_REPORT.(health := Some(h)))
    case SetCustomCapabilities(c) =>
      StoreAndPublish(CustomCapabilitiesField, EMPTY_REPORT.(customCapabilities := Some(c)))
    case SetCapabilities(c) =>
      StoreAndPublish(CapabilitiesField, EMPTY_REPORT.(capabilities := c + {ReportsStatus}))
    case SetRemoteConfigStatus(s) => [CompareRemote(s)]
    case SetPackageStatuses(p) => [ComparePackages(p)]
    case StorePackageStatuses(p) => [Store(PackagesField, PackagesReport(p))]
    case ReportPackageStatuses(p) => StoreAndPublish(PackagesField, PackagesReport(p))
    case PublishExtra(x) => [Lock, Put(x), Unlock, Schedule]
    case SetInstanceUid(u) => [Lock, Put(UidExtra(u)), Unlock]
    case SendCustomMessage(m) => [Lock, PutCustom(m), Unlock, Schedule]
    case ReportFullState(c) =>
      [ Lock, Copy(CapabilitiesField), Copy(DescriptionField), Copy(HealthField), Copy(RemoteConfigField),
        Copy(PackagesField), Copy(CustomCapabilitiesField), Put(FlagsExtra(c.flags)),
        Put(ComponentsExtra(c.components)), Put(EffectiveConfigExtra(c.config)), Unlock, Schedule ]
    case Stop => STOP_PROGRAM
  }

  const STOP_PROGRAM := [Lock, Put(DisconnectExtra), Unlock, Schedule, Cancel]

  /** The first message of a connection leaves out the health, and is not scheduled. */
  function FirstMessageProgram(c: Captured): seq<Action> {
    [ Lock, Copy(DescriptionField), Put(EffectiveConfigExtra(c.config)), Copy(RemoteConfigField),
      Copy(PackagesField), Copy(CapabilitiesField), Copy(CustomCapabilitiesField), Put(FlagsExtra(c.flags)),
      Put(ComponentsExtra(c.components)), Put(ConnectionStatusExtra(c.connectionStatus)), Unlock ]
  }

  const HEARTBEAT_PROGRAM := [Lock, Unlock, Schedule]

  /** The shared state that actions work on. */
  datatype Core = Core(stored: Report, out: Outbox, token: bool)

  const NEW_CORE := Core(EMPTY_REPORT, EMPTY_OUTBOX, false)

  function Act(c: Core, a: Action): Core {
    match a
    case Store(f, from) => c.(stored := CopyField(c.stored, from, f))
    case Copy(f) =>
      c.(out := c.out.(message := c.out.message.(report := CopyField(c.out.message.report, c.stored, f))))
    case Put(x) => c.(out := c.out.(message := Modify(c.out.message, x)))
    case PutCustom(m) =>
      if c.out.message.customMessage.Some? then c
      else c.(out := c.out.(message := c.out.message.(customMessage := Some(m))))
    case Unlock => c.(out := c.out.(pending := true))
    case Schedule => c.(token := true)
    case _ => c
  }

  /** What the thread still has to do after `a`, which may depend on what `a` saw. */
  function Continue(c: Core, a: Action, rest: seq<Action>): seq<Action> {
    match a
    case CompareRemote(s) =>
      if c.stored.remoteConfigStatus == Some(s) then [Store(RemoteConfigField, RemoteReport(s))]
      else StoreAndPublish(RemoteConfigField, RemoteReport(s))
    case ComparePackages(p) =>
      if c.stored.packageStatuses == Some(p) then [Store(PackagesField, PackagesReport(p))]
      else StoreAndPublish(PackagesField, PackagesReport(p))
    case PutCustom(m) =>
      if c.out.message.customMessage.Some? then [Unlock] else rest
    case _ => rest
  }

  datatype Sender =
    | Down        // not started
    | Preparing   // connected; the first message is being prepared
    | Waiting     // at the outer select
    | Beating     // handling the heartbeat timer
    | Took        // took the token, has not popped yet
    | Draining    // saw the cancelled context, is at the inner select
    | TookLast    // took the token at the inner select, has not popped yet
    | Closing     // about to write the close frame
    | Closed

  datatype SenderStep =
    | FirstSend | BeatDone | Take | Send | Notice | DrainTake | DrainNone | SendLast | WriteClose

  function Source(step: SenderStep): Sender {
    match step
    case FirstSend => Preparing
    case BeatDone => Beating
    case Take => Waiting
    case Send => Took
    case Notice => Waiting
    case DrainTake => Draining
    case DrainNone => Draining
    case SendLast => TookLast
    case WriteClose => Closing
  }

  function Target(step: SenderStep): Sender {
    match step
    case FirstSend => Waiting
    case BeatDone => Waiting
    case Take => Took
    case Send => Waiting
    case Notice => Draining
    case DrainTake => TookLast
    case DrainNone => Closing
    case SendLast => Closing
    case WriteClose => Closed
  }

  predicate Pops(step: SenderStep) {
    step == FirstSend || step == Send || step == SendLast
  }

  predicate Takes(step: SenderStep) {
    step == Take || step == DrainTake
  }

  /** A custom message that was accepted, with the channel that the caller got. */
  datatype Accepted = Accepted(message: CustomMessage, channel: nat)

  const SENDER: nat := 0
  const RUNNER: nat := 1
  const RECEIVER: nat := 2

  datatype Client = Client(
    core: Core,
    locked: bool,
    threads: map<nat, seq<Action>>,
    sender: Sender,
    started: bool,
    cancelled: bool,   // Stop cancelled the context
    lost: bool,        // the context of this connection's sender was cancelled for another reason
    log: Log)

  /** What happened so far; nothing in the client depends on it. */
  datatype Log = Log(
    popped: seq<AgentToServer>,
    wanters: set<nat>,         // threads that published, and will schedule, since the last pop
    accepted: seq<Accepted>,
    refused: seq<nat>,         // channels returned with the "pending" error
    overlap: bool)             // another store of a remote config status came between a compare and its store

  const NEW_CLIENT := Client(NEW_CORE, false, map[], Down, false, false, false, Log([], {}, [], [], false))

  predicate Quiet(c: Client, t: nat) {
    t !in c.threads || c.threads[t] == []
  }

  predicate AllQuiet(c: Client) {
    forall t <- c.threads :: c.threads[t] == []
  }

  predicate RemoteAction(a: Action) {
    a.CompareRemote? || (a.Store? && a.f == RemoteConfigField)
  }

  /** True if the program still has to decide on or store a remote config status. */
  predicate RemoteBusy(p: seq<Action>) {
    exists i :: 0 <= i < |p| && RemoteAction(p[i])
  }

  predicate SomeRemoteBusy(c: Client) {
    exists u <- c.threads :: RemoteBusy(c.threads[u])
  }

  function Pop(c: Client): Client {
    if c.core.out.pending then
      c.(core := c.core.(out := Popped(c.core.out)),
         log := c.log.(popped := c.log.popped + [c.core.out.message], wanters := {}))
    else c
  }

  datatype Event =
    | Prepare(caps: Option<set<Capability>>, remote: Option<RemoteConfigStatus>,
              packages: Option<PackageStatuses>, uid: Option<Uid>)   // one step of a Start call, which may still fail
    | Start(first: Captured)                                         // the call succeeds
    | Begin(t: nat, call: Call)
    | Advance(t: nat)
    | Beat
    | Move(step: SenderStep)
    | Lose
    | Redial(first: Captured)
    | PrepareAgain(failed: Captured, first: Captured)   // preparing the first message fails; the next cycle tries again

  predicate CallEnabled(c: Client, call: Call) {
    match call
    case SendCustomMessage(m) =>
      c.core.stored.customCapabilities.Some? && m.capability in c.core.stored.customCapabilities.value
    case _ => true
  }

  predicate StepEnabled(c: Client, step: SenderStep) {
    && c.sender == Source(step)
    && (Pops(step) ==> !c.locked)
    && (Takes(step) ==> c.core.token)
    && (step == DrainNone ==> !c.core.token)
    && (step == FirstSend ==> Quiet(c, RUNNER))
    && (step == BeatDone ==> Quiet(c, SENDER))
    && (step == Notice ==> c.cancelled || c.lost)
  }

  predicate Enabled(c: Client, e: Event) {
    match e
    case Prepare(_, _, _, uid) => !c.started && (uid.Some? ==> !c.locked)
    case Start(_) => !c.started && c.core.stored.agentDescription.Some?
    case Begin(t, call) => RECEIVER <= t && Quiet(c, t) && CallEnabled(c, call)
    case Advance(t) => !Quiet(c, t) && (c.threads[t][0] == Lock ==> !c.locked)
    case Beat => c.sender == Waiting
    case Move(step) => StepEnabled(c, step)
    case Lose => c.sender != Down && c.sender != Closed
    case Redial(_) => c.sender == Closed
    case PrepareAgain(failed, _) =>
      c.sender == Preparing && RUNNER in c.threads && c.threads[RUNNER] == FirstMessageProgram(failed)
  }

  /** The history that the action `a` of thread `t` leaves. */
  function Record(c: Client, t: nat, a: Action, rest: seq<Action>): Log {
    match a
    case PutCustom(m) =>
      if c.core.out.message.customMessage.Some? then c.log.(refused := c.log.refused + [c.core.out.channel])
      else c.log.(accepted := c.log.accepted + [Accepted(m, c.core.out.channel)])
    case Unlock => if Schedule in rest then c.log.(wanters := c.log.wanters + {t}) else c.log
    case _ => c.log
  }

  function DoMove(c: Client, step: SenderStep): Client {
    var d := if Pops(step) then Pop(c) else c;
    d.(core := if Takes(step) then d.core.(token := false) else d.core,
       sender := Target(step),
       lost := c.lost && step != FirstSend)
  }

  function DoAdvance(c: Client, t: nat): Client
    requires !Quiet(c, t)
  {
    var a, rest := c.threads[t][0], c.threads[t][1..];
    c.(core := Act(c.core, a),
       threads := c.threads[t := Continue(c.core, a, rest)],
       locked := if a == Lock then true else if a == Unlock then false else c.locked,
       cancelled := c.cancelled || (a == Cancel && c.started),
       log := Record(c, t, a, rest))
  }

  function OrStored(r: Report, caps: Option<set<Capability>>, remote: Option<RemoteConfigStatus>,
                    packages: Option<PackageStatuses>): Report {
    r.(capabilities := if caps.Some? then caps.value else r.capabilities,
       remoteConfigStatus := OrElse(remote, r.remoteConfigStatus),
       packageStatuses := OrElse(packages, r.packageStatuses))
  }

  /** A step of a Start call: it stores what the settings say, or puts the uid into the slot. */
  function Prepared(c: Core, caps: Option<set<Capability>>, remote: Option<RemoteConfigStatus>,
                    packages: Option<PackageStatuses>, uid: Option<Uid>): Core {
    c.(stored := OrStored(c.stored, caps, remote, packages),
       out := if uid.None? then c.out
              else c.out.(message := Modify(c.out.message, UidExtra(uid.value)), pending := true))
  }

  function Fire(c: Client, e: Event): Client
    requires Enabled(c, e)
  {
    match e
    case Prepare(caps, remote, packages, uid) =>
      c.(core := Prepared(c.core, caps, remote, packages, uid),
         log := c.log.(overlap := c.log.overlap || (remote.Some? && SomeRemoteBusy(c))))
    case Start(first) =>
      c.(threads := c.threads[RUNNER := FirstMessageProgram(first)], sender := Preparing, started := true)
    case Begin(t, call) =>
      c.(threads := c.threads[t := Program(call)],
         log := c.log.(overlap := c.log.overlap ||
           (call.SetRemoteConfigStatus? && SomeRemoteBusy(c))))
    case Advance(t) => DoAdvance(c, t)
    case Beat => c.(threads := c.threads[SENDER := HEARTBEAT_PROGRAM], sender := Beating)
    case Move(step) => DoMove(c, step)
    case Lose => c.(lost := true)
    case PrepareAgain(_, first) => c.(threads := c.threads[RUNNER := FirstMessageProgram(first)])
    case Redial(first) =>
      c.(threads := c.threads[RUNNER := FirstMessageProgram(first)], sender := Preparing)
  }

  function Next(c: Client, e: Event): Client {
    if Enabled(c, e) then Fire(c, e) else c
  }

  function After(es: seq<Event>): Client {
    if es == [] then NEW_CLIENT else Next(After(es[..|es| - 1]), es[|es| - 1])
  }
}
