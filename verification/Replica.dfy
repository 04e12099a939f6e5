/** The server's copy of an agent (internal/examples/server/data/agent.go). */
module Replicas {
  import opened Messages

  // ---- What a status message does to the stored status --------------------------------------

  function UpdatedEffectiveConfig(stored: Option<EffectiveConfig>,
                                  reported: Option<EffectiveConfig>): Option<EffectiveConfig> {
    if reported.Some? && reported.value.configMap.Some? then reported else stored
  }

  /** Capabilities, package statuses and custom capabilities stay as in the first message. */
  function UpdatedReport(stored: Report, reported: Report): Report {
    stored.(agentDescription := OrElse(reported.agentDescription, stored.agentDescription),
            remoteConfigStatus := OrElse(reported.remoteConfigStatus, stored.remoteConfigStatus),
            health := OrElse(reported.health, stored.health))
  }

  function UpdatedStatus(status: Option<AgentToServer>, m: AgentToServer): AgentToServer {
    match status
    case None => m
    case Some(s) =>
      s.(sequenceNum := m.sequenceNum,
         report := UpdatedReport(s.report, m.report),
         effectiveConfig := UpdatedEffectiveConfig(s.effectiveConfig, m.effectiveConfig))
  }

  /** The check on sequence numbers: anything but the successor of the last one is a loss. */
  predicate LostPreviousUpdate(status: Option<AgentToServer>, m: AgentToServer) {
    status.None? || (status.value.sequenceNum + 1) % SEQUENCE_MODULUS != m.sequenceNum
  }

  /** A field is missing that the agent is known to report.  The description is not looked at. */
  predicate IsCompressed(capabilities: set<Capability>, m: AgentToServer) {
    || (m.effectiveConfig.None? && ReportsEffectiveConfig in capabilities)
    || (m.report.packageStatuses.None? && ReportsPackageStatuses in capabilities)
    || (m.report.remoteConfigStatus.None? && ReportsRemoteConfig in capabilities)
    || (m.report.health.None? && ReportsHealth in capabilities)
  }

  predicate AsksFullState(status: Option<AgentToServer>, m: AgentToServer) {
    && IsCompressed(UpdatedStatus(status, m).report.capabilities, m)
    && LostPreviousUpdate(status, m)
  }

  /** The status after all of `ms`, starting from no status. */
  function StatusAfter(ms: seq<AgentToServer>): Option<AgentToServer> {
    if ms == [] then None
    else Some(UpdatedStatus(StatusAfter(ms[..|ms| - 1]), ms[|ms| - 1]))
  }

  /** The fields that the server keeps up to date. */
  predicate Replicated(f: Field) {
    f in {DescriptionField, HealthField, RemoteConfigField}
  }

  lemma UpdatedField(status: Option<AgentToServer>, m: AgentToServer, f: Field)
    requires Replicated(f)
    ensures Same(UpdatedStatus(status, m).report,
                 if Carries(m.report, f) || status.None? then m.report else status.value.report, f)
  {
  }

  /** A server that gets every message holds the fold of the stream. */
  lemma {:induction false} LosslessReplicaIsFold(ms: seq<AgentToServer>, f: Field)
    requires ms != [] && Replicated(f)
    ensures Same(StatusAfter(ms).value.report, Fold(ms), f)
  {
    var before, m := ms[..|ms| - 1], ms[|ms| - 1];
    UpdatedField(StatusAfter(before), m, f);
    if before != [] {
      LosslessReplicaIsFold(before, f);
    }
  }

  // ---- What the copy means --------------------------------------------------------------------

  predicate CarriesConfig(m: AgentToServer) {
    m.effectiveConfig.Some? && m.effectiveConfig.value.configMap.Some?
  }

  /** `after` is what a server that held `before` knows once it got `m`: what `m` reports is taken, a
      field that it omits is kept, and what is not kept up to date is that of the first message. */
  ghost predicate Absorbed(before: Option<AgentToServer>, m: AgentToServer, after: AgentToServer) {
    var first := if before.Some? then before.value else m;
    && after.sequenceNum == m.sequenceNum
    && (forall f | Replicated(f) :: Same(after.report, if Carries(m.report, f) then m.report else first.report, f))
    && (forall f | !Replicated(f) :: Same(after.report, first.report, f))
    && after.effectiveConfig == (if CarriesConfig(m) then m.effectiveConfig else first.effectiveConfig)
    && SameOtherwise(after, first)
  }

  /** Equal in everything that only the first message brings. */
  predicate SameOtherwise(a: AgentToServer, b: AgentToServer) {
    && a.instanceUid == b.instanceUid && a.agentDisconnect == b.agentDisconnect && a.flags == b.flags
    && a.connectionSettingsRequest == b.connectionSettingsRequest && a.customMessage == b.customMessage
    && a.availableComponents == b.availableComponents && a.connectionSettingsStatus == b.connectionSettingsStatus
  }

  lemma UpdatedIsAbsorbed(status: Option<AgentToServer>, m: AgentToServer)
    ensures Absorbed(status, m, UpdatedStatus(status, m))
  {
    forall f ensures Same(UpdatedStatus(status, m).report,
                          if status.None? || (Replicated(f) && Carries(m.report, f)) then m.report
                          else status.value.report, f)
    {
      match f
      case DescriptionField => UpdatedField(status, m, f);
      case HealthField => UpdatedField(status, m, f);
      case RemoteConfigField => UpdatedField(status, m, f);
      case _ =>
    }
  }

  /** A server that gets every message has the effective config that was reported last with a map,
      or else that of the first message. */
  lemma {:induction false} ConfigReportedLast(ms: seq<AgentToServer>, i: nat)
    requires i < |ms| && (i == 0 || CarriesConfig(ms[i]))
    requires forall k :: i < k < |ms| ==> !CarriesConfig(ms[k])
    ensures StatusAfter(ms).value.effectiveConfig == ms[i].effectiveConfig
  {
    var before, m := ms[..|ms| - 1], ms[|ms| - 1];
    UpdatedIsAbsorbed(StatusAfter(before), m);
    if i < |ms| - 1 {
      ConfigReportedLast(before, i);
    }
  }

  /** It has the last sequence number, and everything else that is not kept up to date is that of the
      first message, whatever came later. */
  lemma {:induction false} FirstMessageStays(ms: seq<AgentToServer>, f: Field)
    requires ms != []
    ensures var s := StatusAfter(ms).value;
            && s.sequenceNum == ms[|ms| - 1].sequenceNum && SameOtherwise(s, ms[0])
            && (!Replicated(f) ==> Same(s.report, ms[0].report, f))
  {
    var before, m := ms[..|ms| - 1], ms[|ms| - 1];
    UpdatedIsAbsorbed(StatusAfter(before), m);
    if before != [] {
      FirstMessageStays(before, f);
    }
  }

  /** Message `m` leaves out what an agent with capability `c` reports. */
  predicate Omits(m: AgentToServer, c: Capability) {
    match c
    case ReportsEffectiveConfig => m.effectiveConfig.None?
    case ReportsPackageStatuses => m.report.packageStatuses.None?
    case ReportsRemoteConfig => m.report.remoteConfigStatus.None?
    case ReportsHealth => m.report.health.None?
    case _ => false
  }

  lemma CompressedIffOmitted(capabilities: set<Capability>, m: AgentToServer)
    ensures IsCompressed(capabilities, m) <==> exists c <- capabilities :: Omits(m, c)
  {
    if m.effectiveConfig.None? { assert Omits(m, ReportsEffectiveConfig); }
    if m.report.packageStatuses.None? { assert Omits(m, ReportsPackageStatuses); }
    if m.report.remoteConfigStatus.None? { assert Omits(m, ReportsRemoteConfig); }
    if m.report.health.None? { assert Omits(m, ReportsHealth); }
  }

  lemma SuccessorModulo(i: nat)
    ensures (i % SEQUENCE_MODULUS + 1) % SEQUENCE_MODULUS == (i + 1) % SEQUENCE_MODULUS
  {
  }

  lemma EqualModulo(i: nat, j: nat)
    ensures i % SEQUENCE_MODULUS == j % SEQUENCE_MODULUS <==> (j - i) % SEQUENCE_MODULUS == 0
  {
  }

  /** Exactly when the 64-bit sequence number betrays that messages between the `i`-th and the
      `j`-th were skipped: unless their number is a multiple of 2^64. */
  lemma GapIsSeen(i: nat, j: nat, status: AgentToServer, m: AgentToServer)
    requires i < j && status.sequenceNum == i % SEQUENCE_MODULUS && m.sequenceNum == j % SEQUENCE_MODULUS
    ensures LostPreviousUpdate(Some(status), m) <==> (j - i - 1) % SEQUENCE_MODULUS != 0
  {
    SuccessorModulo(i);
    EqualModulo(i + 1, j);
  }

  // ---- The agent object ----------------------------------------------------------------------

  datatype AgentRemoteConfig = AgentRemoteConfig(body: string, configHash: Bytes)

  datatype ServerToAgent = ServerToAgent(
    reportFullState: bool, remoteConfig: Option<AgentRemoteConfig>, offersConnectionSettings: bool)

  predicate ReportsHealthy(m: AgentToServer) {
    m.report.health.Some? && m.report.health.value.healthy
  }

  /** The description is new: it is reported for the first time, or differs. */
  predicate DescriptionChanges(status: Option<AgentToServer>, m: AgentToServer) {
    status.None? || UpdatedStatus(status, m).report.agentDescription != status.value.report.agentDescription
  }

  /** The agent has another remote config than `config`, as far as it reported one. */
  predicate HasOtherConfig(m: AgentToServer, config: AgentRemoteConfig) {
    && m.report.remoteConfigStatus.Some?
    && m.report.remoteConfigStatus.value.lastRemoteConfigHash != config.configHash
  }

  /** The response to a message: `before` and `config` are the server's remote configs before and
      after it. */
  predicate Responds(r: ServerToAgent, status: Option<AgentToServer>, m: AgentToServer,
                     before: Option<AgentRemoteConfig>, config: AgentRemoteConfig) {
    && r.reportFullState == AsksFullState(status, m)
    && r.offersConnectionSettings == DescriptionChanges(status, m)
    && r.remoteConfig ==
         if (DescriptionChanges(status, m) && (before.None? || before.value.body != config.body))
            || HasOtherConfig(UpdatedStatus(status, m), config)
         then Some(config) else None
  }

  class Agent {
    var status: Option<AgentToServer>
    var startedAt: nat
    var customInstanceConfig: string
    var remoteConfig: Option<AgentRemoteConfig>
    var statusUpdateWatchers: seq<nat>
    const sha256: string -> Bytes

    /** An agent with a status has a remote config to offer. */
    ghost predicate Valid()
      reads this
    {
      (status.Some? ==> remoteConfig.Some?) && ConfigHashed()
    }

    ghost predicate ConfigHashed()
      reads this
    {
      remoteConfig.Some? ==> remoteConfig.value.configHash == sha256(remoteConfig.value.body)
    }

    ghost function CurrentConfig(): AgentRemoteConfig
      reads this
    {
      AgentRemoteConfig(customInstanceConfig, sha256(customInstanceConfig))
    }

    constructor (sha256: string -> Bytes)
      ensures Valid() && status == None && remoteConfig == None && statusUpdateWatchers == []
    {
      this.sha256 := sha256;
      status, startedAt, customInstanceConfig, remoteConfig, statusUpdateWatchers := None, 0, "", None, [];
    }

    method UpdateAgentDescription(newStatus: AgentToServer) returns (agentDescrChanged: bool)
      modifies this`status
      ensures old(status).None? ==> status == Some(newStatus) && agentDescrChanged
      ensures old(status).Some? ==>
        && status == Some(old(status).value.(
             sequenceNum := newStatus.sequenceNum,
             report := old(status).value.report.(
               agentDescription := OrElse(newStatus.report.agentDescription, old(status).value.report.agentDescription),
               remoteConfigStatus := OrElse(newStatus.report.remoteConfigStatus,
                                            old(status).value.report.remoteConfigStatus))))
        && agentDescrChanged == (status.value.report.agentDescription != old(status).value.report.agentDescription)
    {
      agentDescrChanged := false;
      if status.None? {
        status := Some(newStatus);
        agentDescrChanged := true;
      } else {
        status := Some(status.value.(sequenceNum := newStatus.sequenceNum));
        if newStatus.report.agentDescription.Some? {
          if status.value.report.agentDescription != newStatus.report.agentDescription {
            status := Some(status.value.(
              report := status.value.report.(agentDescription := newStatus.report.agentDescription)));
            agentDescrChanged := true;
          }
        }
        if newStatus.report.remoteConfigStatus.Some? &&
           status.value.report.remoteConfigStatus != newStatus.report.remoteConfigStatus
        {
          status := Some(status.value.(
            report := status.value.report.(remoteConfigStatus := newStatus.report.remoteConfigStatus)));
        }
      }
    }

    method UpdateRemoteConfigStatus(newStatus: AgentToServer)
      requires status.Some?
      modifies this`status
      ensures status == Some(old(status).value.(report := old(status).value.report.(
                remoteConfigStatus := OrElse(newStatus.report.remoteConfigStatus,
                                             old(status).value.report.remoteConfigStatus))))
    {
      if newStatus.report.remoteConfigStatus.Some? {
        status := Some(status.value.(
          report := status.value.report.(remoteConfigStatus := newStatus.report.remoteConfigStatus)));
      }
    }

    method UpdateHealth(newStatus: AgentToServer)
      requires status.Some?
      modifies this`status, this`startedAt
      ensures status == Some(old(status).value.(report := old(status).value.report.(
                health := OrElse(newStatus.report.health, old(status).value.report.health))))
      ensures startedAt == if ReportsHealthy(newStatus) then newStatus.report.health.value.startTimeUnixNano
                           else old(startedAt)
    {
      if newStatus.report.health.Some? {
        status := Some(status.value.(report := status.value.report.(health := newStatus.report.health)));
        if status.value.report.health.value.healthy {
          startedAt := status.value.report.health.value.startTimeUnixNano;
        }
      }
    }

    method UpdateStatusField(newStatus: AgentToServer) returns (agentDescrChanged: bool)
      modifies this`status, this`startedAt
      ensures status.Some?
      ensures status.value == if old(status).None? then newStatus
                              else UpdatedStatus(old(status), newStatus).(
                                     effectiveConfig := old(status).value.effectiveConfig)
      ensures agentDescrChanged ==
                (old(status).None? || status.value.report.agentDescription != old(status).value.report.agentDescription)
      ensures startedAt == if ReportsHealthy(newStatus) then newStatus.report.health.value.startTimeUnixNano
                           else old(startedAt)
    {
      agentDescrChanged := false;
      if status.None? {
        status := Some(newStatus);
        agentDescrChanged := true;
      }
      var changed := UpdateAgentDescription(newStatus);
      agentDescrChanged := changed || agentDescrChanged;
      UpdateRemoteConfigStatus(newStatus);
      UpdateHealth(newStatus);
    }

    method CalcRemoteConfig() returns (configChanged: bool)
      modifies this`remoteConfig
      ensures remoteConfig == Some(CurrentConfig())
      ensures configChanged == (old(remoteConfig).None? || old(remoteConfig).value.body != customInstanceConfig)
    {
      var cfg := AgentRemoteConfig(customInstanceConfig, sha256(customInstanceConfig));
      configChanged := remoteConfig.None? || remoteConfig.value.body != cfg.body;
      remoteConfig := Some(cfg);
    }

    /** What was left out of a message, and whether a message was lost before it. */
    method AsksForFullState(newStatus: AgentToServer, lostPreviousUpdate: bool) returns (asks: bool)
      requires status.Some?
      ensures asks == (IsCompressed(status.value.report.capabilities, newStatus) && lostPreviousUpdate)
    {
      var capabilities := status.value.report.capabilities;
      var effectiveConfigOmitted := newStatus.effectiveConfig.None? && ReportsEffectiveConfig in capabilities;
      var packageStatusesOmitted := newStatus.report.packageStatuses.None? && ReportsPackageStatuses in capabilities;
      var remoteConfigStatusOmitted := newStatus.report.remoteConfigStatus.None? && ReportsRemoteConfig in capabilities;
      var healthOmitted := newStatus.report.health.None? && ReportsHealth in capabilities;
      var statusIsCompressed :=
        effectiveConfigOmitted || packageStatusesOmitted || remoteConfigStatusOmitted || healthOmitted;
      asks := statusIsCompressed && lostPreviousUpdate;
    }

    /** The config to send, if there is reason to. */
    method OfferConfig(agentDescrChanged: bool) returns (remoteConfigOffered: Option<AgentRemoteConfig>)
      requires ConfigHashed() && status.Some? && (agentDescrChanged || remoteConfig.Some?)
      modifies this`remoteConfig
      ensures Valid() && remoteConfig == if agentDescrChanged then Some(CurrentConfig()) else old(remoteConfig)
      ensures remoteConfigOffered ==
                if (agentDescrChanged &&
                    (old(remoteConfig).None? || old(remoteConfig).value.body != remoteConfig.value.body))
                   || HasOtherConfig(status.value, remoteConfig.value)
                then remoteConfig else None
    {
      var configChanged := false;
      if agentDescrChanged {
        configChanged := CalcRemoteConfig();
      }
      remoteConfigOffered := None;
      if configChanged ||
         (status.value.report.remoteConfigStatus.Some? &&
          status.value.report.remoteConfigStatus.value.lastRemoteConfigHash != remoteConfig.value.configHash)
      {
        remoteConfigOffered := remoteConfig;
      }
    }

    method ProcessStatusUpdate(newStatus: AgentToServer) returns (response: ServerToAgent)
      requires Valid()
      modifies this`status, this`startedAt, this`remoteConfig
      ensures Valid()
      ensures status == Some(UpdatedStatus(old(status), newStatus))
      ensures Absorbed(old(status), newStatus, status.value)
      ensures startedAt == if ReportsHealthy(newStatus) then newStatus.report.health.value.startTimeUnixNano
                           else old(startedAt)
      ensures response.reportFullState <==>
                && (old(status).Some? ==>
                      newStatus.sequenceNum != (old(status).value.sequenceNum + 1) % SEQUENCE_MODULUS)
                && exists c <- status.value.report.capabilities :: Omits(newStatus, c)
      ensures response.offersConnectionSettings <==>
                (old(status).Some? ==>
                  && newStatus.report.agentDescription.Some?
                  && newStatus.report.agentDescription != old(status).value.report.agentDescription)
      ensures remoteConfig ==
                if DescriptionChanges(old(status), newStatus) then Some(CurrentConfig()) else old(remoteConfig)
      ensures remoteConfig.Some? && Responds(response, old(status), newStatus, old(remoteConfig), remoteConfig.value)
      // The agent is told its config unless the server knows that it has it.
      ensures status.value.report.remoteConfigStatus.Some? && response.remoteConfig.None? ==>
                status.value.report.remoteConfigStatus.value.lastRemoteConfigHash == remoteConfig.value.configHash
    {
      var lostPreviousUpdate :=
        status.None? || (status.value.sequenceNum + 1) % SEQUENCE_MODULUS != newStatus.sequenceNum;
      var agentDescrChanged := UpdateStatusField(newStatus);
      assert agentDescrChanged == DescriptionChanges(old(status), newStatus);
      var asks := AsksForFullState(newStatus, lostPreviousUpdate);
      var offered := OfferConfig(agentDescrChanged);
      response := ServerToAgent(asks, offered, agentDescrChanged);
      if newStatus.effectiveConfig.Some? && newStatus.effectiveConfig.value.configMap.Some? {
        status := Some(status.value.(effectiveConfig := newStatus.effectiveConfig));
      }
      UpdatedIsAbsorbed(old(status), newStatus);
      CompressedIffOmitted(status.value.report.capabilities, newStatus);
    }

    /** The watchers to notify are returned, and forgotten. */
    method UpdateStatus(statusMsg: AgentToServer) returns (response: ServerToAgent, notified: seq<nat>)
      requires Valid()
      modifies this`status, this`startedAt, this`remoteConfig, this`statusUpdateWatchers
      ensures Valid()
      ensures status == Some(UpdatedStatus(old(status), statusMsg))
      ensures Absorbed(old(status), statusMsg, status.value)
      ensures startedAt == if ReportsHealthy(statusMsg) then statusMsg.report.health.value.startTimeUnixNano
                           else old(startedAt)
      ensures remoteConfig ==
                if DescriptionChanges(old(status), statusMsg) then Some(CurrentConfig()) else old(remoteConfig)
      ensures remoteConfig.Some? && Responds(response, old(status), statusMsg, old(remoteConfig), remoteConfig.value)
      ensures notified == old(statusUpdateWatchers) && statusUpdateWatchers == []
    {
      response := ProcessStatusUpdate(statusMsg);
      notified := statusUpdateWatchers;
      statusUpdateWatchers := [];
    }

    /** Either the new config is sent and the caller is told at the next status update, or there is
        nothing to send and the caller is told at once. */
    method SetCustomConfig(config: string, watcher: Option<nat>)
      returns (sent: Option<AgentRemoteConfig>, notifiedNow: bool)
      requires Valid()
      modifies this`customInstanceConfig, this`remoteConfig, this`statusUpdateWatchers
      ensures Valid() && customInstanceConfig == config
      ensures remoteConfig == Some(AgentRemoteConfig(config, sha256(config)))
      ensures sent.Some? <==> old(remoteConfig) != remoteConfig
      ensures sent.Some? ==> sent == remoteConfig
      ensures watcher.Some? ==> (notifiedNow <==> sent.None?)
      ensures statusUpdateWatchers ==
                old(statusUpdateWatchers) + (if watcher.Some? && !notifiedNow then [watcher.value] else [])
    {
      customInstanceConfig := config;
      sent, notifiedNow := None, false;
      var configChanged := CalcRemoteConfig();
      if configChanged {
        if watcher.Some? {
          statusUpdateWatchers := statusUpdateWatchers + [watcher.value];
        }
        sent := remoteConfig;
      } else if watcher.Some? {
        notifiedNow := true;
      }
    }
  }
}
