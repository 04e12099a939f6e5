/** The messages of the protocol, as records of optional fields.

    A capability mask is the set of its bits.  `nil` and empty byte strings are the same value,
    as they are on the wire.  The fields that the client keeps in its own state, and repeats on
    request, are grouped in `Report`; an omitted field of a message is `None`.
  */
module Messages {
  datatype Option<+T> = None | Some(value: T)

  newtype Byte = x: int | 0 <= x < 256
  type Bytes = seq<Byte>
  type Uid = seq<Byte>

  /** Sequence numbers are unsigned 64-bit and wrap around. */
  const SEQUENCE_MODULUS: nat := 0x1_0000_0000_0000_0000

  datatype Capability =
    | ReportsStatus | AcceptsRemoteConfig | ReportsEffectiveConfig
    | AcceptsPackages | ReportsPackageStatuses
    | ReportsOwnTraces | ReportsOwnMetrics | ReportsOwnLogs
    | AcceptsOpAMPConnectionSettings | AcceptsOtherConnectionSettings
    | AcceptsRestartCommand | ReportsHealth | ReportsRemoteConfig | ReportsHeartbeat
    | ReportsAvailableComponents | ReportsConnectionSettingsStatus

  datatype AgentDescription = AgentDescription(
    identifyingAttributes: Option<seq<string>>, nonIdentifyingAttributes: Option<seq<string>>)

  datatype ComponentHealth = ComponentHealth(healthy: bool, startTimeUnixNano: nat, lastError: string)

  datatype RemoteConfigStatuses = RemoteUnset | RemoteApplied | RemoteApplying | RemoteFailed

  datatype RemoteConfigStatus = RemoteConfigStatus(
    lastRemoteConfigHash: Bytes, status: RemoteConfigStatuses, errorMessage: string)

  datatype PackageStatusEnum = Installed | InstallPending | Installing | InstallFailed | Downloading

  datatype PackageStatus = PackageStatus(
    name: string, agentHasVersion: string, agentHasHash: Bytes,
    serverOfferedVersion: string, serverOfferedHash: Bytes,
    status: PackageStatusEnum, errorMessage: string)

  datatype PackageStatuses = PackageStatuses(
    packages: map<string, PackageStatus>, serverProvidedAllPackagesHash: Bytes)

  datatype ConnectionSettingsStatuses = SettingsUnset | SettingsApplied | SettingsApplying | SettingsFailed

  datatype ConnectionSettingsStatus = ConnectionSettingsStatus(
    lastConnectionSettingsHash: Bytes, status: ConnectionSettingsStatuses, errorMessage: string)

  datatype CustomMessage = CustomMessage(capability: string, messageType: string, data: Bytes)

  datatype AvailableComponents = AvailableComponents(components: Option<seq<string>>, hash: Bytes)

  datatype EffectiveConfig = EffectiveConfig(configMap: Option<map<string, Bytes>>)

  /** The part of a status report that the client also keeps in its own state. */
  datatype Report = Report(
    agentDescription: Option<AgentDescription>,
    health: Option<ComponentHealth>,
    remoteConfigStatus: Option<RemoteConfigStatus>,
    packageStatuses: Option<PackageStatuses>,
    customCapabilities: Option<seq<string>>,
    capabilities: set<Capability>)

  const EMPTY_REPORT := Report(None, None, None, None, None, {})

  datatype AgentToServer = AgentToServer(
    instanceUid: Uid,
    sequenceNum: nat,
    report: Report,
    effectiveConfig: Option<EffectiveConfig>,
    agentDisconnect: bool,
    flags: nat,
    connectionSettingsRequest: Option<Bytes>,
    customMessage: Option<CustomMessage>,
    availableComponents: Option<AvailableComponents>,
    connectionSettingsStatus: Option<ConnectionSettingsStatus>)

  const EMPTY_MESSAGE := AgentToServer([], 0, EMPTY_REPORT, None, false, 0, None, None, None, None)

  datatype Field =
    | DescriptionField | HealthField | RemoteConfigField
    | PackagesField | CustomCapabilitiesField | CapabilitiesField

  /** True if field `f` is present; the capability mask always is. */
  predicate Carries(r: Report, f: Field) {
    match f
    case DescriptionField => r.agentDescription.Some?
    case HealthField => r.health.Some?
    case RemoteConfigField => r.remoteConfigStatus.Some?
    case PackagesField => r.packageStatuses.Some?
    case CustomCapabilitiesField => r.customCapabilities.Some?
    case CapabilitiesField => true
  }

  /** True if `a` and `b` agree on field `f`. */
  predicate Same(a: Report, b: Report, f: Field) {
    match f
    case DescriptionField => a.agentDescription == b.agentDescription
    case HealthField => a.health == b.health
    case RemoteConfigField => a.remoteConfigStatus == b.remoteConfigStatus
    case PackagesField => a.packageStatuses == b.packageStatuses
    case CustomCapabilitiesField => a.customCapabilities == b.customCapabilities
    case CapabilitiesField => a.capabilities == b.capabilities
  }

  /** `target` with field `f` (present or not) taken from `source`. */
  function CopyField(target: Report, source: Report, f: Field): (r: Report)
    ensures Same(r, source, f)
    ensures forall g :: g != f ==> Same(r, target, g)
  {
    match f
    case DescriptionField => target.(agentDescription := source.agentDescription)
    case HealthField => target.(health := source.health)
    case RemoteConfigField => target.(remoteConfigStatus := source.remoteConfigStatus)
    case PackagesField => target.(packageStatuses := source.packageStatuses)
    case CustomCapabilitiesField => target.(customCapabilities := source.customCapabilities)
    case CapabilitiesField => target.(capabilities := source.capabilities)
  }

  function OrElse<T>(x: Option<T>, y: Option<T>): Option<T> {
    if x.Some? then x else y
  }

  /** What a reader knows after `later` arrives on top of `earlier`: an omitted field is unchanged. */
  function Overlay(earlier: Report, later: Report): (r: Report)
    ensures forall f :: Same(r, if Carries(later, f) then later else earlier, f)
    ensures forall f :: Carries(r, f) <==> Carries(earlier, f) || Carries(later, f)
  {
    Report(
      OrElse(later.agentDescription, earlier.agentDescription),
      OrElse(later.health, earlier.health),
      OrElse(later.remoteConfigStatus, earlier.remoteConfigStatus),
      OrElse(later.packageStatuses, earlier.packageStatuses),
      OrElse(later.customCapabilities, earlier.customCapabilities),
      later.capabilities)
  }

  /** The report that a lossless reader of `ms` ends up with. */
  function Fold(ms: seq<AgentToServer>): Report {
    if ms == [] then EMPTY_REPORT
    else Overlay(Fold(ms[..|ms| - 1]), ms[|ms| - 1].report)
  }

  lemma FoldSnoc(ms: seq<AgentToServer>, m: AgentToServer)
    ensures Fold(ms + [m]) == Overlay(Fold(ms), m.report)
  {
    assert (ms + [m])[..|ms|] == ms;
  }

  /** A field that changes between two points of the stream was carried by a message in between. */
  lemma {:induction false} FoldChangeIsCarried(ms: seq<AgentToServer>, i: nat, j: nat, f: Field)
    requires i <= j <= |ms|
    ensures Same(Fold(ms[..i]), Fold(ms[..j]), f) || exists k :: i <= k < j && Carries(ms[k].report, f)
  {
    if i < j {
      FoldChangeIsCarried(ms, i, j - 1, f);
      assert ms[..j] == ms[..j - 1] + [ms[j - 1]];
      FoldSnoc(ms[..j - 1], ms[j - 1]);
      if Carries(ms[j - 1].report, f) {
        assert i <= j - 1 < j;
      }
    }
  }
}
