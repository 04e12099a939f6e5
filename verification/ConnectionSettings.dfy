/** The status that the client reports about an offer of connection settings
    (client/internal/receivedprocessor.go), with the capabilities fixed while one offer is
    processed. */
module OfferedSettings {
  import opened Messages
  import ClientApi

  /** `heartbeatSeconds` is part of the OpAMP settings. */
  datatype Offers = Offers(
    hash: Bytes, opamp: bool, heartbeatSeconds: nat,
    ownMetrics: bool, ownTraces: bool, ownLogs: bool, otherConnections: bool)

  /** The stored status, and every status handed to the slot of the next message, in order. */
  datatype Account = Account(stored: Option<ConnectionSettingsStatus>, published: seq<ConnectionSettingsStatus>)

  predicate AcceptsSome(caps: set<Capability>) {
    || ReportsOwnTraces in caps || ReportsOwnMetrics in caps || ReportsOwnLogs in caps
    || AcceptsOpAMPConnectionSettings in caps || AcceptsOtherConnectionSettings in caps
  }

  /** The OnOpampConnectionSettings callback runs. */
  predicate OpampRuns(caps: set<Capability>, offers: Offers) {
    offers.opamp && AcceptsOpAMPConnectionSettings in caps
  }

  /** The OnConnectionSettings callback runs: something is left after filtering. */
  predicate SettingsRun(caps: set<Capability>, offers: Offers) {
    || (offers.ownMetrics && ReportsOwnMetrics in caps)
    || (offers.ownTraces && ReportsOwnTraces in caps)
    || (offers.ownLogs && ReportsOwnLogs in caps)
    || (offers.otherConnections && AcceptsOtherConnectionSettings in caps)
  }

  /** Whether `status` should replace the stored one. */
  predicate Replaces(oldStatus: Option<ConnectionSettingsStatus>, status: ConnectionSettingsStatus) {
    || oldStatus.None?
    || oldStatus.value.lastConnectionSettingsHash != status.lastConnectionSettingsHash
    || oldStatus.value.status == SettingsApplying
    || oldStatus.value.status == SettingsUnset
    || status.status == SettingsFailed
  }

  function Announced(a: Account, caps: set<Capability>, offers: Offers): Account {
    if ReportsConnectionSettingsStatus !in caps then a
    else
      var status :=
        if AcceptsSome(caps) then ConnectionSettingsStatus(offers.hash, SettingsApplying, "")
        else ConnectionSettingsStatus(
               offers.hash, SettingsFailed, "client does not support accepting connection settings");
      Account(Some(status), a.published + [status])
  }

  /** The effect of a callback that ran and returned `error`, or none. */
  function Concluded(a: Account, caps: set<Capability>, offers: Offers, error: Option<string>): Account {
    var status :=
      if error.None? then ConnectionSettingsStatus(offers.hash, SettingsApplied, "")
      else ConnectionSettingsStatus(offers.hash, SettingsFailed, error.value);
    if ReportsConnectionSettingsStatus !in caps || !Replaces(a.stored, status) then a
    else Account(Some(status), a.published + [status])
  }

  function AfterOpamp(a: Account, caps: set<Capability>, offers: Offers, error: Option<string>): Account {
    if OpampRuns(caps, offers) then Concluded(a, caps, offers, error) else a
  }

  function AfterSettings(a: Account, caps: set<Capability>, offers: Offers, error: Option<string>): Account {
    if SettingsRun(caps, offers) then Concluded(a, caps, offers, error) else a
  }

  function AfterOffer(a: Account, caps: set<Capability>, offers: Offers,
                      opampError: Option<string>, settingsError: Option<string>): Account {
    AfterSettings(AfterOpamp(Announced(a, caps, offers), caps, offers, opampError), caps, offers, settingsError)
  }

  // ---- What the status means ------------------------------------------------------------------

  /** What an agent can do with connection settings, of any kind. */
  const ACCEPTING := {
    ReportsOwnTraces, ReportsOwnMetrics, ReportsOwnLogs,
    AcceptsOpAMPConnectionSettings, AcceptsOtherConnectionSettings }

  /** The status that one offer deserves: the last failure of a callback that had something to work
      on, else success if one had, else the answer to whether settings are accepted at all. */
  ghost function Deserved(caps: set<Capability>, offers: Offers,
                          opampError: Option<string>, settingsError: Option<string>): ConnectionSettingsStatus {
    var opamp := offers.opamp && AcceptsOpAMPConnectionSettings in caps;
    var settings :=
      || (offers.ownMetrics && ReportsOwnMetrics in caps)
      || (offers.ownTraces && ReportsOwnTraces in caps)
      || (offers.ownLogs && ReportsOwnLogs in caps)
      || (offers.otherConnections && AcceptsOtherConnectionSettings in caps);
    var status, message :=
      if settings && settingsError.Some? then SettingsFailed else if opamp && opampError.Some? then SettingsFailed
      else if opamp || settings then SettingsApplied
      else if caps !! ACCEPTING then SettingsFailed else SettingsApplying,
      if settings && settingsError.Some? then settingsError.value
      else if opamp && opampError.Some? then opampError.value
      else if caps !! ACCEPTING then "client does not support accepting connection settings" else "";
    ConnectionSettingsStatus(offers.hash, status, message)
  }

  /** APPLYING, then APPLIED, then FAILED. */
  function Rank(s: ConnectionSettingsStatuses): nat {
    match s
    case SettingsUnset => 0
    case SettingsApplying => 1
    case SettingsApplied => 2
    case SettingsFailed => 3
  }

  /** Main result: whatever was stored before, the status after an offer is about that offer and is
      the one that it deserves. */
  lemma OfferOutcome(a: Account, caps: set<Capability>, offers: Offers,
                     opampError: Option<string>, settingsError: Option<string>)
    requires ReportsConnectionSettingsStatus in caps
    ensures AfterOffer(a, caps, offers, opampError, settingsError).stored ==
              Some(Deserved(caps, offers, opampError, settingsError))
  {
    AcceptsSomeOf(caps);
  }

  lemma AcceptsSomeOf(caps: set<Capability>)
    ensures AcceptsSome(caps) <==> !(caps !! ACCEPTING)
  {
    if AcceptsSome(caps) {
      var c :| c in ACCEPTING && c in caps;
    }
  }

  /** Main result: while one offer is processed, APPLYING is published first, if settings are accepted
      at all; each further status is a step forward or another failure; all are about this offer; and
      the last one is the stored one. */
  lemma OfferOnlyMovesForward(a: Account, caps: set<Capability>, offers: Offers,
                              opampError: Option<string>, settingsError: Option<string>)
    requires ReportsConnectionSettingsStatus in caps
    ensures var after := AfterOffer(a, caps, offers, opampError, settingsError);
            && a.published < after.published
            && after.stored == Some(after.published[|after.published| - 1])
            && (forall i :: |a.published| <= i < |after.published| ==>
                  after.published[i].lastConnectionSettingsHash == offers.hash)
            && (forall i, j :: |a.published| <= i < j < |after.published| ==>
                  || Rank(after.published[i].status) < Rank(after.published[j].status)
                  || after.published[j].status == SettingsFailed)
            && after.published[|a.published|].status ==
                 if caps !! ACCEPTING then SettingsFailed else SettingsApplying
  {
    AcceptsSomeOf(caps);
    OfferAscends(a, caps, offers, opampError, settingsError);
  }

  lemma OfferAscends(a: Account, caps: set<Capability>, offers: Offers,
                     opampError: Option<string>, settingsError: Option<string>)
    requires ReportsConnectionSettingsStatus in caps
    ensures var after := AfterOffer(a, caps, offers, opampError, settingsError);
            Ascends(after, |a.published|, offers.hash) && Announced(a, caps, offers).published <= after.published
  {
    var n, a1 := |a.published|, Announced(a, caps, offers);
    var a2 := AfterOpamp(a1, caps, offers, opampError);
    var a3 := AfterSettings(a2, caps, offers, settingsError);
    AnnouncedAscends(a, caps, offers);
    OpampAscends(a1, caps, offers, opampError, n);
    SettingsAscend(a2, caps, offers, settingsError, n);
  }

  lemma AnnouncedAscends(a: Account, caps: set<Capability>, offers: Offers)
    requires ReportsConnectionSettingsStatus in caps
    ensures Ascends(Announced(a, caps, offers), |a.published|, offers.hash)
    ensures a.published < Announced(a, caps, offers).published
  {
  }

  lemma OpampAscends(a: Account, caps: set<Capability>, offers: Offers, error: Option<string>, n: nat)
    requires Ascends(a, n, offers.hash)
    ensures Ascends(AfterOpamp(a, caps, offers, error), n, offers.hash)
    ensures a.published <= AfterOpamp(a, caps, offers, error).published
  {
    ConcludedAscends(a, caps, offers, error, n);
  }

  lemma SettingsAscend(a: Account, caps: set<Capability>, offers: Offers, error: Option<string>, n: nat)
    requires Ascends(a, n, offers.hash)
    ensures Ascends(AfterSettings(a, caps, offers, error), n, offers.hash)
    ensures a.published <= AfterSettings(a, caps, offers, error).published
  {
    ConcludedAscends(a, caps, offers, error, n);
  }

  /** The statuses published from the `n`-th on are about one offer and move forward. */
  ghost predicate Ascends(a: Account, n: nat, hash: Bytes) {
    && n < |a.published| && a.stored == Some(a.published[|a.published| - 1])
    && (forall i :: n <= i < |a.published| ==> a.published[i].lastConnectionSettingsHash == hash)
    && (forall i, j :: n <= i < j < |a.published| ==>
          Rank(a.published[i].status) < Rank(a.published[j].status) || a.published[j].status == SettingsFailed)
  }

  /** A conclusion replaces APPLYING, or it is FAILED. */
  lemma ConcludedAscends(a: Account, caps: set<Capability>, offers: Offers, error: Option<string>, n: nat)
    requires Ascends(a, n, offers.hash)
    ensures Ascends(Concluded(a, caps, offers, error), n, offers.hash)
    ensures a.published <= Concluded(a, caps, offers, error).published
  {
  }

  /** Without the capability nothing is stored or published. */
  lemma SilentWithoutCapability(a: Account, caps: set<Capability>, offers: Offers,
                                opampError: Option<string>, settingsError: Option<string>)
    ensures ReportsConnectionSettingsStatus !in caps <==> AfterOffer(a, caps, offers, opampError, settingsError) == a
  {
    if ReportsConnectionSettingsStatus in caps {
      OfferOnlyMovesForward(a, caps, offers, opampError, settingsError);
    }
  }

  // ---- The processor --------------------------------------------------------------------------

  const NANOSECONDS: nat := 1_000_000_000

  /** The offered interval as a signed 64-bit number of nanoseconds, which may wrap around. */
  function OfferedInterval(seconds: nat): (d: int)
    ensures -0x8000_0000_0000_0000 <= d < 0x8000_0000_0000_0000
    ensures seconds * 1_000_000_000 < 0x8000_0000_0000_0000 ==> d == seconds * 1_000_000_000
    ensures d % 0x1_0000_0000_0000_0000 == (seconds * 1_000_000_000) % 0x1_0000_0000_0000_0000
  {
    Signed((seconds * NANOSECONDS) % SEQUENCE_MODULUS)
  }

  /** The signed number with the same 64 bits. */
  function Signed(n: nat): (d: int)
    requires n < SEQUENCE_MODULUS
    ensures -0x8000_0000_0000_0000 <= d < 0x8000_0000_0000_0000 && d % SEQUENCE_MODULUS == n
  {
    if n < 0x8000_0000_0000_0000 then n else n - SEQUENCE_MODULUS
  }

  class ReceivedProcessor {
    var connectionSettingsStatus: Option<ConnectionSettingsStatus>
    var sent: seq<ConnectionSettingsStatus>
    var scheduled: bool
    var heartbeatInterval: int   // in nanoseconds
    const overHttp: bool
    const capabilities: set<Capability>

    ghost function View(): Account
      reads this
    {
      Account(connectionSettingsStatus, sent)
    }

    constructor (capabilities: set<Capability>, overHttp: bool, stored: Option<ConnectionSettingsStatus>)
      ensures View() == Account(stored, []) && this.capabilities == capabilities && this.overHttp == overHttp
    {
      this.capabilities, this.overHttp := capabilities, overHttp;
      connectionSettingsStatus, sent, scheduled, heartbeatInterval := stored, [], false, 30 * NANOSECONDS;
    }

    method AnnounceOffer(offers: Offers)
      modifies this`connectionSettingsStatus, this`sent, this`scheduled
      ensures View() == Announced(old(View()), capabilities, offers)
      ensures scheduled == (old(scheduled) || ReportsConnectionSettingsStatus in capabilities)
    {
      if ReportsConnectionSettingsStatus in capabilities {
        var status := ConnectionSettingsStatus(
          offers.hash, SettingsFailed, "client does not support accepting connection settings");
        if ReportsOwnTraces in capabilities || ReportsOwnMetrics in capabilities || ReportsOwnLogs in capabilities ||
           AcceptsOpAMPConnectionSettings in capabilities || AcceptsOtherConnectionSettings in capabilities
        {
          status := ConnectionSettingsStatus(offers.hash, SettingsApplying, "");
        }
        connectionSettingsStatus := Some(status);
        sent := sent + [status];
        scheduled := true;
      }
    }

    method Conclude(offers: Offers, error: Option<string>)
      modifies this`connectionSettingsStatus, this`sent, this`scheduled
      ensures View() == Concluded(old(View()), capabilities, offers, error)
      ensures scheduled == (old(scheduled) || sent != old(sent))
    {
      if ReportsConnectionSettingsStatus in capabilities {
        var status, errMsg := SettingsApplied, "";
        if error.Some? {
          status, errMsg := SettingsFailed, error.value;
        }
        var connectionStatus := ConnectionSettingsStatus(offers.hash, status, errMsg);
        if !Replaces(connectionSettingsStatus, connectionStatus) {
          return;
        }
        connectionSettingsStatus := Some(connectionStatus);
        sent := sent + [connectionStatus];
        scheduled := true;
      }
    }

    /** `error` is what the callback returns, if it ran.  An interval that the sender refuses is
        ignored. */
    method RcvOpampConnectionSettings(offers: Offers, error: Option<string>) returns (ran: bool)
      modifies this
      ensures ran <==> offers.opamp && AcceptsOpAMPConnectionSettings in capabilities
      ensures heartbeatInterval ==
                if offers.opamp && ReportsHeartbeat in capabilities
                   && !ClientApi.BadInterval(overHttp, OfferedInterval(offers.heartbeatSeconds))
                then OfferedInterval(offers.heartbeatSeconds) else old(heartbeatInterval)
      ensures View() == AfterOpamp(old(View()), capabilities, offers, error)
      ensures scheduled == (old(scheduled) || sent != old(sent))
    {
      ran := false;
      if !offers.opamp { return; }
      if ReportsHeartbeat in capabilities {
        var interval := OfferedInterval(offers.heartbeatSeconds);
        if !ClientApi.BadInterval(overHttp, interval) {
          heartbeatInterval := interval;
        }
      }
      if AcceptsOpAMPConnectionSettings in capabilities {
        ran := true;
        Conclude(offers, error);
      }
    }

    /** The callback runs if something is left of the offer that the agent can do something with. */
    method RcvConnectionSettings(offers: Offers, error: Option<string>) returns (ran: bool)
      modifies this`connectionSettingsStatus, this`sent, this`scheduled
      ensures ran <==> || (offers.ownMetrics && ReportsOwnMetrics in capabilities)
                       || (offers.ownTraces && ReportsOwnTraces in capabilities)
                       || (offers.ownLogs && ReportsOwnLogs in capabilities)
                       || (offers.otherConnections && AcceptsOtherConnectionSettings in capabilities)
      ensures View() == AfterSettings(old(View()), capabilities, offers, error)
      ensures scheduled == (old(scheduled) || sent != old(sent))
    {
      ran := false;
      if !offers.ownMetrics && !offers.ownTraces && !offers.ownLogs && !offers.otherConnections {
        return;
      }
      var clone := offers;
      if ReportsOwnMetrics !in capabilities { clone := clone.(ownMetrics := false); }
      if ReportsOwnTraces !in capabilities { clone := clone.(ownTraces := false); }
      if ReportsOwnLogs !in capabilities { clone := clone.(ownLogs := false); }
      if AcceptsOtherConnectionSettings !in capabilities { clone := clone.(otherConnections := false); }
      if clone.ownMetrics || clone.ownTraces || clone.ownLogs || clone.otherConnections {
        ran := true;
        Conclude(offers, error);
      }
    }

    /** One offer, from announcing it to the end of both callbacks. */
    method ProcessOffer(offers: Offers, opampError: Option<string>, settingsError: Option<string>)
      modifies this
      ensures heartbeatInterval ==
                if offers.opamp && ReportsHeartbeat in capabilities
                   && !ClientApi.BadInterval(overHttp, OfferedInterval(offers.heartbeatSeconds))
                then OfferedInterval(offers.heartbeatSeconds) else old(heartbeatInterval)
      ensures View() == AfterOffer(old(View()), capabilities, offers, opampError, settingsError)
      ensures ReportsConnectionSettingsStatus in capabilities ==>
        && scheduled && connectionSettingsStatus == Some(Deserved(capabilities, offers, opampError, settingsError))
        && sent != [] && sent[|sent| - 1] == connectionSettingsStatus.value
    {
      AnnounceOffer(offers);
      var _ := RcvOpampConnectionSettings(offers, opampError);
      var _ := RcvConnectionSettings(offers, settingsError);
      if ReportsConnectionSettingsStatus in capabilities {
        OfferOutcome(old(View()), capabilities, offers, opampError, settingsError);
        OfferOnlyMovesForward(old(View()), capabilities, offers, opampError, settingsError);
      }
    }
  }
}
