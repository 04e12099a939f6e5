/** The package syncer (client/internal/packagessyncer.go) over a local store that may fail at any
    call (the contract in client/types/packagessyncer.go). */
module Packages {
  import opened Messages

  datatype PackageType = TopLevel | Addon

  datatype PackageState = PackageState(exists_: bool, packageType: PackageType, hash: Bytes, version: string)

  const NO_PACKAGE := PackageState(false, TopLevel, [], "")

  function Created(packageType: PackageType): PackageState {
    PackageState(true, packageType, [], "")
  }

  /** What is stored locally.  A file that is missing has the empty hash. */
  datatype Local = Local(
    allPackagesHash: Bytes,
    states: map<string, PackageState>,
    fileHashes: map<string, Bytes>,
    lastReported: Option<PackageStatuses>)

  datatype Available = Available(packageType: PackageType, version: string, hash: Bytes, contentHash: Bytes)

  datatype Offer = Offer(packages: map<string, Available>, allPackagesHash: Bytes)

  function StateOf(l: Local, name: string): PackageState {
    if name in l.states then l.states[name] else NO_PACKAGE
  }

  function FileHash(l: Local, name: string): Bytes {
    if name in l.fileHashes then l.fileHashes[name] else []
  }

  // ---- The contract of the store -------------------------------------------------------------

  /** Nothing but package `name`, and what was reported last, may differ. */
  ghost predicate OnlyPackage(before: Local, after: Local, name: string) {
    && after.allPackagesHash == before.allPackagesHash
    && (forall n :: n != name ==> (n in after.states <==> n in before.states))
    && (forall n :: n != name ==> StateOf(after, n) == StateOf(before, n))
    && (forall n :: n != name ==> FileHash(after, n) == FileHash(before, n))
  }

  /** Nothing but what was reported last may differ. */
  ghost predicate OnlyReported(before: Local, after: Local) {
    after == before.(lastReported := after.lastReported)
  }

  ghost predicate SetAllPackagesHashContract(before: Local, after: Local, hash: Bytes, ok: bool) {
    && after == before.(allPackagesHash := after.allPackagesHash)
    && (ok ==> after.allPackagesHash == hash)
  }

  ghost predicate CreateContract(before: Local, after: Local, name: string, packageType: PackageType, ok: bool) {
    && OnlyPackage(before, after, name)
    && (ok ==> StateOf(after, name) == Created(packageType))
  }

  /** The file is not touched, not even by a failure. */
  ghost predicate SetStateContract(before: Local, after: Local, name: string, state: PackageState, ok: bool) {
    && OnlyPackage(before, after, name) && FileHash(after, name) == FileHash(before, name)
    && (ok ==> StateOf(after, name) == state)
  }

  ghost predicate UpdateContentContract(before: Local, after: Local, name: string, contentHash: Bytes, ok: bool) {
    && OnlyPackage(before, after, name)
    && (ok ==> FileHash(after, name) == contentHash)
  }

  ghost predicate DeleteContract(before: Local, after: Local, name: string, ok: bool) {
    && OnlyPackage(before, after, name)
    && (ok ==> name !in after.states)
  }

  ghost predicate SetReportedContract(before: Local, after: Local, statuses: PackageStatuses, ok: bool) {
    && OnlyReported(before, after)
    && (ok ==> after.lastReported == Some(statuses))
  }

  /** A store of which only the contract is known: any call may fail, and what a failing call leaves
      behind for the package that it is about is arbitrary.  A reliable store fails only for the
      packages in `failing`. */
  class PackagesStateProvider {
    var local: Local
    const reliable: bool
    const failing: set<string>

    predicate Sound(name: string) {
      reliable && name !in failing
    }

    method Fails() returns (fails: bool)
      ensures reliable ==> !fails
    {
      fails := *;
      fails := fails && !reliable;
    }

    method FailsFor(name: string) returns (fails: bool)
      ensures Sound(name) ==> !fails
    {
      fails := *;
      fails := fails && !Sound(name);
    }

    method AllPackagesHash() returns (hash: Option<Bytes>)
      ensures hash.Some? ==> hash.value == local.allPackagesHash
      ensures reliable ==> hash.Some?
    {
      var fails := Fails();
      hash := if fails then None else Some(local.allPackagesHash);
    }

    method SetAllPackagesHash(hash: Bytes) returns (ok: bool)
      modifies this
      ensures SetAllPackagesHashContract(old(local), local, hash, ok)
      ensures reliable ==> ok
    {
      var fails := Fails();
      ok := !fails;
      var h: Bytes := *;
      local := local.(allPackagesHash := if ok then hash else h);
    }

    method PackageNames() returns (names: Option<set<string>>)
      ensures names.Some? ==> names.value == local.states.Keys
      ensures reliable ==> names.Some?
    {
      var fails := Fails();
      names := if fails then None else Some(local.states.Keys);
    }

    method PackageState(name: string) returns (state: Option<PackageState>)
      ensures state.Some? ==> state.value == StateOf(local, name)
      ensures Sound(name) ==> state.Some?
    {
      var fails := FailsFor(name);
      state := if fails then None else Some(StateOf(local, name));
    }

    /** Leaves anything for package `name`; `keepFile` protects the file. */
    method Disturb(name: string, keepFile: bool)
      modifies this
      ensures OnlyPackage(old(local), local, name)
      ensures keepFile ==> FileHash(local, name) == FileHash(old(local), name)
    {
      var gone: bool := *;
      var s: PackageState := *;
      var h: Bytes := *;
      local := local.(states := if gone then local.states - {name} else local.states[name := s]);
      if !keepFile {
        local := local.(fileHashes := local.fileHashes[name := h]);
      }
    }

    method CreatePackage(name: string, packageType: PackageType) returns (ok: bool)
      modifies this
      ensures CreateContract(old(local), local, name, packageType, ok)
      ensures Sound(name) ==> ok
    {
      var fails := FailsFor(name);
      ok := !fails;
      Disturb(name, false);
      if ok {
        local := local.(states := local.states[name := Created(packageType)]);
      }
    }

    method SetPackageState(name: string, state: PackageState) returns (ok: bool)
      modifies this
      ensures SetStateContract(old(local), local, name, state, ok)
      ensures Sound(name) ==> ok
    {
      var fails := FailsFor(name);
      ok := !fails;
      Disturb(name, true);
      if ok {
        local := local.(states := local.states[name := state]);
      }
    }

    method FileContentHash(name: string) returns (hash: Option<Bytes>)
      ensures hash.Some? ==> hash.value == FileHash(local, name)
      ensures Sound(name) ==> hash.Some?
    {
      var fails := FailsFor(name);
      hash := if fails then None else Some(FileHash(local, name));
    }

    /** The download and the replacement of the file; either may fail. */
    method UpdateContent(name: string, contentHash: Bytes) returns (ok: bool)
      modifies this
      ensures UpdateContentContract(old(local), local, name, contentHash, ok)
      ensures StateOf(local, name) == StateOf(old(local), name) && (name in local.states <==> name in old(local).states)
      ensures Sound(name) ==> ok
    {
      var fails := FailsFor(name);
      ok := !fails;
      var h: Bytes := *;
      local := local.(fileHashes := local.fileHashes[name := if ok then contentHash else h]);
    }

    method DeletePackage(name: string) returns (ok: bool)
      modifies this
      ensures DeleteContract(old(local), local, name, ok)
      ensures Sound(name) ==> ok
    {
      var fails := FailsFor(name);
      ok := !fails;
      Disturb(name, false);
      if ok {
        local := local.(states := local.states - {name});
      }
    }

    method LastReportedStatuses() returns (statuses: Option<Option<PackageStatuses>>)
      ensures statuses.Some? ==> statuses.value == local.lastReported
      ensures reliable ==> statuses.Some?
    {
      var fails := Fails();
      statuses := if fails then None else Some(local.lastReported);
    }

    method SetLastReportedStatuses(statuses: PackageStatuses) returns (ok: bool)
      modifies this
      ensures SetReportedContract(old(local), local, statuses, ok)
      ensures reliable ==> ok
    {
      var fails := Fails();
      ok := !fails;
      var s: Option<PackageStatuses> := *;
      local := local.(lastReported := if ok then Some(statuses) else s);
    }
  }

  /** The store in memory (client/internal/inmempackagestore.go), a store that meets the contract.
      A deleted package leaves its file behind, so its content hash is still reported. */
  class InMemPackagesStore {
    var allPackagesHash: Bytes
    var pkgState: map<string, PackageState>
    var fileContents: map<string, Bytes>
    var fileSignatures: map<string, Bytes>
    var fileHashes: map<string, Bytes>
    var lastReportedStatuses: Option<PackageStatuses>

    ghost function View(): Local
      reads this
    {
      Local(allPackagesHash, pkgState, fileHashes, lastReportedStatuses)
    }

    constructor ()
      ensures View() == Local([], map[], map[], None) && fileContents == map[] && fileSignatures == map[]
    {
      allPackagesHash, pkgState, fileHashes, lastReportedStatuses := [], map[], map[], None;
      fileContents, fileSignatures := map[], map[];
    }

    /** The state of a package that is not there says so. */
    method PackageState(packageName: string) returns (state: PackageState)
      ensures state == StateOf(View(), packageName)
      ensures packageName !in pkgState ==> !state.exists_
    {
      if packageName in pkgState { return pkgState[packageName]; }
      return NO_PACKAGE;
    }

    method AllPackagesHash() returns (hash: Bytes)
      ensures hash == View().allPackagesHash
    {
      hash := allPackagesHash;
    }

    /** The source lists the keys of its map, in any order. */
    method PackageNames() returns (names: set<string>)
      ensures names == View().states.Keys
    {
      names := pkgState.Keys;
    }

    method LastReportedStatuses() returns (statuses: Option<PackageStatuses>)
      ensures statuses == View().lastReported
    {
      statuses := lastReportedStatuses;
    }

    method CreatePackage(packageName: string, packageType: PackageType)
      modifies this`pkgState
      ensures CreateContract(old(View()), View(), packageName, packageType, true)
      ensures FileHash(View(), packageName) == FileHash(old(View()), packageName)
    {
      pkgState := pkgState[packageName := Created(packageType)];
    }

    method FileContentHash(packageName: string) returns (hash: Bytes)
      ensures hash == FileHash(View(), packageName)
    {
      hash := if packageName in fileHashes then fileHashes[packageName] else [];
    }

    /** `data` is what was read, unless reading failed. */
    method UpdateContent(packageName: string, data: Option<Bytes>, contentHash: Bytes, signature: Bytes)
      returns (ok: bool)
      modifies this`fileContents, this`fileSignatures, this`fileHashes
      ensures ok == data.Some?
      ensures UpdateContentContract(old(View()), View(), packageName, contentHash, ok)
      ensures ok ==> fileContents == old(fileContents)[packageName := data.value]
      ensures ok ==> fileSignatures == old(fileSignatures)[packageName := signature]
      ensures !ok ==> View() == old(View())
      ensures !ok ==> fileContents == old(fileContents) && fileSignatures == old(fileSignatures)
    {
      if data.None? { return false; }
      fileContents := fileContents[packageName := data.value];
      fileSignatures := fileSignatures[packageName := signature];
      fileHashes := fileHashes[packageName := contentHash];
      return true;
    }

    method SetPackageState(packageName: string, state: PackageState)
      modifies this`pkgState
      ensures SetStateContract(old(View()), View(), packageName, state, true)
    {
      pkgState := pkgState[packageName := state];
    }

    method DeletePackage(packageName: string)
      modifies this`pkgState
      ensures DeleteContract(old(View()), View(), packageName, true)
      ensures FileHash(View(), packageName) == FileHash(old(View()), packageName)
    {
      pkgState := pkgState - {packageName};
    }

    method SetAllPackagesHash(hash: Bytes)
      modifies this`allPackagesHash
      ensures SetAllPackagesHashContract(old(View()), View(), hash, true)
    {
      allPackagesHash := hash;
    }

    method SetLastReportedStatuses(statuses: PackageStatuses)
      modifies this`lastReportedStatuses
      ensures SetReportedContract(old(View()), View(), statuses, true)
    {
      lastReportedStatuses := Some(statuses);
    }
  }

  // ---- What a sync run achieves --------------------------------------------------------------

  predicate UpToDate(l: Local, name: string, a: Available) {
    StateOf(l, name).exists_ && StateOf(l, name).hash == a.hash
  }

  /** The package was up to date before, or its file is the offered one now. */
  predicate PackageSynced(before: Local, after: Local, name: string, a: Available) {
    || UpToDate(before, name, a)
    || FileHash(after, name) == a.contentHash
  }

  /** No package outside the offer is left, and all offered packages are synced. */
  ghost predicate Synced(offer: Offer, before: Local, after: Local) {
    && after.states.Keys <= offer.packages.Keys
    && forall name <- offer.packages :: PackageSynced(before, after, name, offer.packages[name])
  }

  lemma SyncedSurvives(before: Local, middle: Local, after: Local, name: string, other: string, a: Available)
    requires OnlyPackage(middle, after, other) && name != other && PackageSynced(before, middle, name, a)
    ensures PackageSynced(before, after, name, a)
  {
    assert FileHash(after, name) == FileHash(middle, name);
  }

  lemma OnlyPackageTwice(before: Local, middle: Local, after: Local, name: string)
    requires OnlyPackage(before, middle, name) && OnlyPackage(middle, after, name)
    ensures OnlyPackage(before, after, name)
  {
    forall n | n != name
      ensures n in after.states <==> n in before.states
      ensures StateOf(after, n) == StateOf(before, n) && FileHash(after, n) == FileHash(before, n)
    {
      assert n in after.states <==> n in middle.states;
      assert StateOf(after, n) == StateOf(middle, n) && FileHash(after, n) == FileHash(middle, n);
    }
  }

  /** The offered packages, and the recorded hash, are as they were; nothing was added. */
  ghost predicate OffersKept(offer: Offer, before: Local, after: Local) {
    && after.allPackagesHash == before.allPackagesHash
    && after.states.Keys <= before.states.Keys
    && forall n <- offer.packages :: StateOf(after, n) == StateOf(before, n)
  }

  /** Where the loop over the offered packages stands, with `rest` still to be done. */
  ghost predicate Progress(offer: Offer, before: Local, current: Local, rest: set<string>, failed: bool) {
    && current.allPackagesHash == before.allPackagesHash
    && (forall n <- rest :: StateOf(current, n) == StateOf(before, n))
    && (!failed ==> current.states.Keys <= offer.packages.Keys)
    && (!failed ==> forall n <- offer.packages :: n !in rest ==> PackageSynced(before, current, n, offer.packages[n]))
  }

  lemma ProgressStep(offer: Offer, before: Local, middle: Local, after: Local, rest: set<string>, name: string,
                     failed: bool, ok: bool)
    requires Progress(offer, before, middle, rest, failed)
    requires name in rest && name in offer.packages && OnlyPackage(middle, after, name)
    requires ok ==> PackageSynced(middle, after, name, offer.packages[name])
    ensures Progress(offer, before, after, rest - {name}, failed || !ok)
  {
    forall n | n in rest - {name} ensures StateOf(after, n) == StateOf(before, n) {
      assert StateOf(after, n) == StateOf(middle, n);
    }
    if !failed && ok {
      forall n | n in offer.packages && n !in rest - {name}
        ensures PackageSynced(before, after, n, offer.packages[n])
      {
        if n != name {
          SyncedSurvives(before, middle, after, n, name, offer.packages[n]);
        }
      }
      forall n | n in after.states ensures n in offer.packages {
        if n != name {
          assert n in middle.states;
        }
      }
    }
  }

  /** The statuses differ in the entry of `name` only, and that is about the offer. */
  ghost predicate EntryUpdated(before: PackageStatuses, after: PackageStatuses, name: string, a: Available) {
    && name in after.packages
    && after == before.(packages := before.packages[name := after.packages[name]])
    && after.packages[name].name == (if name in before.packages then before.packages[name].name else name)
    && after.packages[name].serverOfferedHash == a.hash
    && after.packages[name].serverOfferedVersion == a.version
  }

  /** The entry says that the agent has what is offered. */
  predicate HasOffer(status: PackageStatus, a: Available) {
    status.agentHasHash == a.hash && status.agentHasVersion == a.version
  }

  /** The package was up to date in `before`, or is installed now, and is reported so; it counts as
      existing, and as of its type, exactly as it did before. */
  predicate Done(before: Local, after: Local, statuses: PackageStatuses, name: string, a: Available) {
    && name in statuses.packages
    && StateOf(after, name) == StateOf(before, name).(hash := a.hash, version := StateOf(after, name).version)
    && (!UpToDate(before, name, a) ==>
          && statuses.packages[name].status == Installed && HasOffer(statuses.packages[name], a)
          && StateOf(after, name).version == a.version && FileHash(after, name) == a.contentHash)
  }

  /** All offered packages but those in `rest` are done. */
  ghost predicate AllDone(offer: Offer, before: Local, after: Local, statuses: PackageStatuses, rest: set<string>) {
    forall n <- offer.packages :: n !in rest ==> Done(before, after, statuses, n, offer.packages[n])
  }

  /** What is done for other packages stays done. */
  lemma DoneStep(offer: Offer, before: Local, middle: Local, after: Local, s: PackageStatuses, t: PackageStatuses,
                 rest: set<string>, failing: set<string>, name: string)
    requires AllDone(offer, before, middle, s, rest + failing) && name in offer.packages
    requires OnlyPackage(middle, after, name) && EntryUpdated(s, t, name, offer.packages[name])
    requires name !in failing ==> Done(before, after, t, name, offer.packages[name])
    ensures AllDone(offer, before, after, t, rest - {name} + failing)
  {
    forall n | n in offer.packages && n !in rest - {name} + failing
      ensures Done(before, after, t, n, offer.packages[n])
    {
      if n != name {
        assert Done(before, middle, s, n, offer.packages[n]);
        assert StateOf(after, n) == StateOf(middle, n) && FileHash(after, n) == FileHash(middle, n);
      }
    }
  }

  /** The package statuses in the client's state and in the slot of the next message, and whether a
      send was scheduled. */
  datatype ClientSide = ClientSide(stored: Option<PackageStatuses>, slot: Option<PackageStatuses>, scheduled: bool)

  class PackagesSyncer {
    const available: Offer
    const localState: PackagesStateProvider
    const hasLocalState: bool   // a client may have no state provider
    var statuses: PackageStatuses
    var client: ClientSide

    constructor (available: Offer, localState: PackagesStateProvider, hasLocalState: bool)
      ensures this.available == available && this.localState == localState && this.hasLocalState == hasLocalState
    {
      this.available, this.localState, this.hasLocalState := available, localState, hasLocalState;
      statuses, client := PackageStatuses(map[], []), ClientSide(None, None, false);
    }

    /** The statuses saved last, now about the offered hash. */
    method InitStatuses() returns (ok: bool)
      modifies this`statuses
      ensures ok ==> hasLocalState
      ensures hasLocalState && localState.reliable ==> ok
      ensures ok ==> statuses.serverProvidedAllPackagesHash == available.allPackagesHash
      ensures ok ==> statuses.packages == match localState.local.lastReported
                                          case None => map[]
                                          case Some(s) => s.packages
    {
      if !hasLocalState { return false; }
      var last := localState.LastReportedStatuses();
      if last.None? { return false; }
      statuses := if last.value.Some? then last.value.value else PackageStatuses(map[], []);
      statuses := statuses.(serverProvidedAllPackagesHash := available.allPackagesHash);
      return true;
    }

    /** The statuses as they are now are in the client's state and will be sent. */
    ghost predicate Reported()
      reads this
    {
      client == ClientSide(Some(statuses), Some(statuses), true)
    }

    /** Its error is ignored by all callers. */
    method ReportStatuses()
      modifies this`client, localState
      ensures OnlyReported(old(localState.local), localState.local)
      ensures client == old(client) || Reported()
      ensures localState.reliable ==> Reported() && localState.local.lastReported == Some(statuses)
    {
      var ok := localState.SetLastReportedStatuses(statuses);
      if !ok { return; }
      client := client.(stored := Some(statuses));
      client := client.(slot := client.stored);
      client := client.(scheduled := true);
    }

    method SetStatus(name: string, status: PackageStatus)
      modifies this`statuses
      ensures statuses == old(statuses).(packages := old(statuses).packages[name := status])
    {
      statuses := statuses.(packages := statuses.packages[name := status]);
    }

    method ShouldDownloadFile(name: string, a: Available) returns (should: bool)
      ensures !should ==> FileHash(localState.local, name) == a.contentHash
      ensures localState.Sound(name) && FileHash(localState.local, name) == a.contentHash ==> !should
    {
      var hash := localState.FileContentHash(name);
      should := hash.None? || hash.value != a.contentHash;
    }

    /** Only the status entry of `name` may change, and there only its state. */
    twostate predicate OnlyStatusOf(name: string)
      reads this
    {
      && name in statuses.packages && name in old(statuses.packages)
      && statuses == old(statuses).(packages := old(statuses.packages)[name := statuses.packages[name]])
      && statuses.packages[name] == old(statuses.packages)[name].(status := statuses.packages[name].status)
      && (statuses.packages[name].status == Downloading || statuses == old(statuses))
    }

    method SyncPackageFile(name: string, a: Available) returns (ok: bool)
      requires name in statuses.packages
      modifies this`statuses, this`client, localState
      ensures OnlyPackage(old(localState.local), localState.local, name)
      ensures ok ==> FileHash(localState.local, name) == a.contentHash
      ensures localState.Sound(name) ==> ok
      ensures localState.Sound(name) && FileHash(old(localState.local), name) == a.contentHash ==>
                localState.local == old(localState.local) && client == old(client) && statuses == old(statuses)
      ensures OnlyStatusOf(name)
    {
      var should := ShouldDownloadFile(name, a);
      if !should { return true; }
      SetStatus(name, statuses.packages[name].(status := Downloading));
      ReportStatuses();
      ok := localState.UpdateContent(name, a.contentHash);
    }

    method Fail(name: string, error: string)
      requires name in statuses.packages
      modifies this`statuses
      ensures statuses == old(statuses).(packages := old(statuses).packages[name :=
                            old(statuses).packages[name].(status := InstallFailed, errorMessage := error)])
    {
      SetStatus(name, statuses.packages[name].(status := InstallFailed, errorMessage := error));
    }

    /** The entry that a package gets before it is looked at. */
    function OfferedStatus(name: string, a: Available): PackageStatus
      reads this
    {
      (if name in statuses.packages then statuses.packages[name]
       else PackageStatus(name, "", [], "", [], Installed, "")).(
        serverOfferedVersion := a.version, serverOfferedHash := a.hash)
    }

    /** Deletes a package of the wrong type, and creates the package if it is missing then. */
    method RecreatePackage(name: string, a: Available, pkgLocal: PackageState) returns (ok: bool)
      requires name in statuses.packages
      modifies this`statuses, this`client, localState
      ensures OnlyPackage(old(localState.local), localState.local, name)
      ensures name in statuses.packages
      ensures statuses == old(statuses).(packages := old(statuses.packages)[name := statuses.packages[name]])
      ensures statuses.packages[name] == old(statuses.packages[name]).(
                status := if ok then Installing else InstallFailed,
                errorMessage := statuses.packages[name].errorMessage)
      ensures localState.Sound(name) ==> ok
      ensures ok && pkgLocal.exists_ && pkgLocal.packageType == a.packageType ==>
                OnlyReported(old(localState.local), localState.local)
      ensures ok && !(pkgLocal.exists_ && pkgLocal.packageType == a.packageType) ==>
                StateOf(localState.local, name) == Created(a.packageType)
    {
      ghost var before := localState.local;
      var mustCreate := !pkgLocal.exists_;
      if pkgLocal.exists_ && pkgLocal.packageType != a.packageType {
        var deleted := localState.DeletePackage(name);
        if !deleted {
          Fail(name, "cannot delete existing version of package");
          return false;
        }
        mustCreate := true;
      }
      SetStatus(name, statuses.packages[name].(status := Installing));
      ReportStatuses();
      ghost var middle := localState.local;
      assert OnlyPackage(before, middle, name);
      if mustCreate {
        var created := localState.CreatePackage(name, a.packageType);
        OnlyPackageTwice(before, middle, localState.local, name);
        if !created {
          Fail(name, "cannot create package");
          return false;
        }
      }
      ok := true;
    }

    /** Brings the file and saves the state, with the type and the existence that were read before
        the package was created anew. */
    method InstallPackage(name: string, a: Available, pkgLocal: PackageState) returns (ok: bool)
      requires name in statuses.packages && statuses.packages[name].status == Installing
      modifies this`statuses, this`client, localState
      ensures OnlyPackage(old(localState.local), localState.local, name)
      ensures ok ==> FileHash(localState.local, name) == a.contentHash
      ensures name in statuses.packages
      ensures statuses == old(statuses).(packages := old(statuses.packages)[name := statuses.packages[name]])
      ensures statuses.packages[name].name == old(statuses.packages[name].name)
      ensures statuses.packages[name].serverOfferedHash == old(statuses.packages[name].serverOfferedHash)
      ensures statuses.packages[name].serverOfferedVersion == old(statuses.packages[name].serverOfferedVersion)
      ensures statuses.packages[name].status == Installed ==>
                ok && HasOffer(statuses.packages[name], a)
                && StateOf(localState.local, name) == pkgLocal.(hash := a.hash, version := a.version)
      ensures !ok <==> statuses.packages[name].status == InstallFailed
      ensures localState.Sound(name) ==> statuses.packages[name].status == Installed
    {
      ok := SyncPackageFile(name, a);
      if ok {
        var saved := localState.SetPackageState(name, pkgLocal.(hash := a.hash, version := a.version));
        if saved {
          SetStatus(name, statuses.packages[name].(
            status := Installed, agentHasHash := a.hash, agentHasVersion := a.version));
        }
      } else {
        Fail(name, "cannot sync package file");
      }
    }

    /** Unless it was up to date before, a package that is reported as installed has the offered
        file and was saved with the offered hash; a failure to save is not reported as an error. */
    method SyncPackage(name: string, a: Available) returns (ok: bool)
      modifies this`statuses, this`client, localState
      ensures OnlyPackage(old(localState.local), localState.local, name)
      ensures ok ==> PackageSynced(old(localState.local), localState.local, name, a)
      ensures EntryUpdated(old(statuses), statuses, name, a)
      ensures statuses.packages[name].status == Installed && statuses.packages[name] != old(OfferedStatus(name, a)) ==>
                && StateOf(localState.local, name).hash == a.hash
                && FileHash(localState.local, name) == a.contentHash
      ensures !ok ==> statuses.packages[name] == old(OfferedStatus(name, a))
                      || statuses.packages[name].status == InstallFailed
      // Unless a call fails, a package that is up to date is left alone...
      ensures localState.Sound(name) && UpToDate(old(localState.local), name, a) ==>
                && ok && localState.local == old(localState.local) && client == old(client)
                && statuses.packages[name] == old(OfferedStatus(name, a))
      // ... and any other one is installed and reported.
      ensures localState.Sound(name) && !UpToDate(old(localState.local), name, a) ==>
                && ok && Reported()
                && statuses.packages[name].status == Installed && HasOffer(statuses.packages[name], a)
                && FileHash(localState.local, name) == a.contentHash
                && StateOf(localState.local, name) ==
                     StateOf(old(localState.local), name).(hash := a.hash, version := a.version)
    {
      SetStatus(name, OfferedStatus(name, a));
      var found := localState.PackageState(name);
      if found.None? { return false; }
      var pkgLocal := found.value;
      if pkgLocal.exists_ && pkgLocal.hash == a.hash { return true; }
      ok := ReplacePackage(name, a, pkgLocal);
    }

    method ReplacePackage(name: string, a: Available, pkgLocal: PackageState) returns (ok: bool)
      requires name in statuses.packages
      modifies this`statuses, this`client, localState
      ensures OnlyPackage(old(localState.local), localState.local, name)
      ensures ok ==> FileHash(localState.local, name) == a.contentHash
      ensures name in statuses.packages
      ensures statuses == old(statuses).(packages := old(statuses.packages)[name := statuses.packages[name]])
      ensures statuses.packages[name].name == old(statuses.packages[name].name)
      ensures statuses.packages[name].serverOfferedHash == old(statuses.packages[name].serverOfferedHash)
      ensures statuses.packages[name].serverOfferedVersion == old(statuses.packages[name].serverOfferedVersion)
      ensures statuses.packages[name].status == Installed ==>
                ok && HasOffer(statuses.packages[name], a)
                && StateOf(localState.local, name) == pkgLocal.(hash := a.hash, version := a.version)
      ensures !ok <==> statuses.packages[name].status == InstallFailed
      ensures localState.Sound(name) ==> statuses.packages[name].status == Installed
      ensures localState.Sound(name) ==> Reported()
    {
      ghost var before := localState.local;
      ok := RecreatePackage(name, a, pkgLocal);
      if !ok { return; }
      ghost var middle := localState.local;
      ok := InstallPackage(name, a, pkgLocal);
      OnlyPackageTwice(before, middle, localState.local, name);
      ghost var installed := localState.local;
      ReportStatuses();
      assert FileHash(localState.local, name) == FileHash(installed, name);
    }

    /** Deletes what is not offered.  `listed` says that the listing succeeded. */
    method DeleteUnneededLocalPackages() returns (ok: bool, listed: bool)
      modifies this`statuses, localState
      ensures statuses.packages == if listed then map n | n in old(statuses).packages && n in available.packages ::
                                                    old(statuses).packages[n]
                                   else old(statuses).packages
      ensures localState.reliable ==> listed && (localState.failing == {} ==> ok)
      ensures localState.reliable ==> localState.local.states.Keys <= available.packages.Keys + localState.failing
      ensures statuses.serverProvidedAllPackagesHash == old(statuses.serverProvidedAllPackagesHash)
      ensures OffersKept(available, old(localState.local), localState.local)
      ensures ok ==> listed && localState.local.states.Keys <= available.packages.Keys
    {
      var names := localState.PackageNames();
      if names.None? { return false, false; }
      ok, listed := true, true;
      ghost var before := localState.local;
      var rest := names.value;
      while rest != {}
        invariant rest <= before.states.Keys && statuses == old(statuses)
        invariant OffersKept(available, before, localState.local)
        invariant ok ==> localState.local.states.Keys <= available.packages.Keys + rest
        invariant localState.reliable && localState.failing == {} ==> ok
        invariant localState.reliable ==>
                    localState.local.states.Keys <= available.packages.Keys + rest + localState.failing
        decreases rest
      {
        var name :| name in rest;
        rest := rest - {name};
        if name !in available.packages {
          var deleted := localState.DeletePackage(name);
          if !deleted { ok := false; }
        }
      }
      statuses := statuses.(
        packages := map n | n in statuses.packages && n in available.packages :: statuses.packages[n]);
    }

    /** The loop over the offered packages; `before` is the store before the run. */
    method SyncPackages(ghost before: Local, failedBefore: bool, ghost listed: bool) returns (failed: bool)
      requires Progress(available, before, localState.local, available.packages.Keys, failedBefore)
      requires listed ==> statuses.packages.Keys <= available.packages.Keys
      modifies this`statuses, this`client, localState
      ensures Progress(available, before, localState.local, {}, failed)
      ensures listed ==> statuses.packages.Keys == available.packages.Keys
      ensures statuses.serverProvidedAllPackagesHash == old(statuses.serverProvidedAllPackagesHash)
      ensures localState.reliable ==> AllDone(available, before, localState.local, statuses, localState.failing)
      ensures localState.reliable && localState.failing == {} ==> failed == failedBefore
    {
      failed := failedBefore;
      var rest := available.packages.Keys;
      while rest != {}
        invariant rest <= available.packages.Keys
        invariant Progress(available, before, localState.local, rest, failed)
        invariant listed ==> available.packages.Keys - rest <= statuses.packages.Keys <= available.packages.Keys
        invariant statuses.serverProvidedAllPackagesHash == old(statuses.serverProvidedAllPackagesHash)
        invariant localState.reliable ==>
                    AllDone(available, before, localState.local, statuses, rest + localState.failing)
        invariant localState.reliable && localState.failing == {} ==> failed == failedBefore
        decreases rest
      {
        var name :| name in rest;
        ghost var middle, s := localState.local, statuses;
        assert StateOf(middle, name) == StateOf(before, name);
        var ok := SyncPackage(name, available.packages[name]);
        ProgressStep(available, before, middle, localState.local, rest, name, failed, ok);
        if localState.reliable {
          DoneStep(available, before, middle, localState.local, s, statuses, rest, localState.failing, name);
        }
        rest := rest - {name};
        if !ok { failed := true; }
      }
    }

    /** The background part of a sync.  `started` says that the run got past the check that
        everything is up to date already.

        Main result: a run that records the offered hash leaves exactly what was offered, or had it
        before; a run that finds the offered hash recorded changes nothing. */
    method DoSync() returns (started: bool, listed: bool)
      modifies this`statuses, this`client, localState
      ensures !started ==>
                localState.local == old(localState.local) && statuses == old(statuses) && client == old(client)
      ensures started ==> old(localState.local.allPackagesHash) != available.allPackagesHash
      ensures localState.local.allPackagesHash == available.allPackagesHash != old(localState.local.allPackagesHash) ==>
                Synced(available, old(localState.local), localState.local)
      ensures started && listed ==> statuses.packages.Keys == available.packages.Keys
      ensures statuses.serverProvidedAllPackagesHash == old(statuses.serverProvidedAllPackagesHash)
      // Whatever does not fail is synced and reported, and recorded if nothing fails.
      ensures localState.reliable ==>
                (started <==> old(localState.local.allPackagesHash) != available.allPackagesHash)
      ensures localState.reliable && started ==>
                && listed && Reported()
                && AllDone(available, old(localState.local), localState.local, statuses, localState.failing)
                && (localState.failing == {} ==> localState.local.allPackagesHash == available.allPackagesHash)
    {
      started, listed := false, false;
      var hash := localState.AllPackagesHash();
      if hash.None? || hash.value == available.allPackagesHash { return; }
      started := true;
      ghost var before := localState.local;
      var ok;
      ok, listed := DeleteUnneededLocalPackages();
      var failed := SyncPackages(before, !ok, listed);
      if !failed {
        ghost var middle := localState.local;
        ok := localState.SetAllPackagesHash(available.allPackagesHash);
        assert forall name <- available.packages :: PackageSynced(before, middle, name, available.packages[name]);
      }
      ReportStatuses();
    }

    /** The caller's part, which returns before the background part is done; the store is not touched. */
    method Sync() returns (ok: bool)
      modifies this`statuses, this`client
      ensures ok ==> statuses.packages == match localState.local.lastReported
                                          case None => map[]
                                          case Some(s) => s.packages
      ensures ok ==> && hasLocalState && statuses.serverProvidedAllPackagesHash == available.allPackagesHash
                     && client == old(client).(stored := Some(statuses))
      ensures !ok ==> client == old(client)
      ensures hasLocalState && localState.reliable ==> ok
    {
      ok := InitStatuses();
      if !ok { return; }
      client := client.(stored := Some(statuses));
    }

    /** A call and the background part that it starts. */
    method SyncToEnd() returns (ok: bool, started: bool, listed: bool)
      modifies this`statuses, this`client, localState
      ensures ok ==> statuses.serverProvidedAllPackagesHash == available.allPackagesHash
      ensures !ok || old(localState.local.allPackagesHash) == available.allPackagesHash ==>
                localState.local == old(localState.local)
      ensures localState.local.allPackagesHash == available.allPackagesHash != old(localState.local.allPackagesHash) ==>
                Synced(available, old(localState.local), localState.local)
      ensures started && listed ==> statuses.packages.Keys == available.packages.Keys
      ensures hasLocalState && localState.reliable ==>
                && ok && (started <==> old(localState.local.allPackagesHash) != available.allPackagesHash)
                && (localState.failing == {} ==> localState.local.allPackagesHash == available.allPackagesHash)
                && (started ==>
                      Reported() &&
                      AllDone(available, old(localState.local), localState.local, statuses, localState.failing))
    {
      started, listed := false, false;
      ok := Sync();
      if !ok { return; }
      started, listed := DoSync();
    }
  }
}
