# OpAMP client and server: models and proofs

OpAMP is a protocol by which agents report their status to a management server. This project models
the library's client, its example server and the topology builder of the MCP example server, in Dafny,
and proves what their design promises.

- **Status compression.** The client keeps the full state and sends only what changed. The server keeps
  a copy, notices lost messages by a gap in the sequence numbers and asks for the full state.
  `ClientMachine` runs every API call as a program of atomic actions (store, take the message mutex, copy
  into the slot, release, schedule) that any other thread and the sender loop may interrupt. `Protocol`
  adds connections that lose messages, a server that may still serve what an older connection left behind,
  and the registry. A run is any sequence of events; an event that is not enabled changes nothing, so
  "for every sequence" means "for every run". `Refinement`, `SenderLoop`, `MessageMutex`, `GracefulStop`,
  `Coherence` and `Reconnects` say what holds in every run, by induction; `StaleRecords` holds the run that they
  exclude. `Healing` and `Progress` say what can happen from every state: fixed runs, without a call of the API,
  by which a wrong copy becomes right, and runs that bring everything to rest.
- **The objects behind it.** `NextMessages`, `ClientApi`, `Replicas`, `Registries`, `OfferedSettings` and
  `Packages` hold classes with the source's fields and methods. Each method is proved against a function of
  the old state; each setter of `ClientApi` has exactly the effect of its program in the machine, run alone.
- **Package syncer.** `Packages` runs it over a store of which only the contract is known: any call may
  fail and leave anything behind for its package; a reliable store fails only for given packages, and then all
  others must be installed and reported. `SyncLocks` is the mutex that a call hands to its
  background run.
- **Topology.** `Topology` builds the graph step by step through the shared maps, with the source's string
  keys; `TopologyShape`, `TopologyCycles`, `TopologyEdges`, `TopologyContents`, `TopologyNodes`, `TopologyIds`,
  `TopologyEndpoints` and `TopologyRates` say what comes out.

Messages are records of optional fields. A nil byte string and an empty one are the same value, as on the
wire; where the source tells them apart, a flag says which it was. A capability mask is the set of its bits.
Sequence numbers are taken modulo 2^64. The results of callbacks, the iteration order of maps, failures of
writes, and what the store does on failure are parameters or nondeterministic choices.

## Where the code and its promises differ

- *Remote config status.* `SetRemoteConfigStatus` compares and stores in two steps. From every quiet state,
  two overlapping calls can end with a stored status that no message carries (`OverlapLosesStatus`). Without
  that the copy is right; the `overlap` flag of the log records whether another call, or a start, came in
  between a compare and its store.
- *Reconnects.* The server finds the agent of a new connection under its id and keeps it on the old one
  (internal/examples/server/data/agents.go:75-93). If the client dials again before the server notices the
  break, a request for the full state can be lost while the sequence numbers go on without a gap: the server
  then holds a wrong health, with nothing on its way that would make it right, until it removes the old
  connection. One such break is enough, in every quiet state of every run (`OneUnnoticedBreakIsStale`). If
  breaks are noticed before the client dials again, that cannot happen (`NoticedCopyIsRightOrHealing`).
- *Stop.* A comment in client/wsclient.go:129 demands that AgentDisconnect is in the last message. A heartbeat
  or a setter can follow it. What holds: it is popped before the close frame, unless the sender loop was
  cancelled for another reason.
- *SetCapabilities.* client/client.go:163 says that nil is an error; the code returns no error and does nothing.
- *Package statuses.* A failure to save the package state is not reported as an error, and an error message
  is never cleared. `Done` says that `Sync` returned, not that the background run ended (`DoneBeforeFinished`).
  The store in memory keeps the file of a deleted package, so its content hash does not become empty, which
  client/types/packagessyncer.go:72-74 asks for. The state of an installed package is saved with the existence
  and the type that were read before it was created (client/internal/packagessyncer.go:188-233): a package that
  is installed for the first time is stored as one that does not exist, and is created again by the next sync.
- *Topology.* Keys of components are made by concatenation and shared by all agents, so a receiver of one
  agent can be taken for an exporter of another one. Edges can end nowhere, and there can be cycles
  (`ContinuedIdsDangle`, `ContinuedIdsCycle`). For a set of agent ids, all graphs are free of cycles if and
  only if no id continues another one with "-receiver/", "-processor/" or "-exporter/", and all their edges
  end at nodes under exactly the same condition (`AcyclicIffSafeIds`, `ClosedIffSafeIds`). Ids without a
  slash meet it, and so do ids of one length, such as UUIDs (`NoSlashIsSafe`, `OneLengthIsSafe`).
- *Topology endpoints.* A test asks for "example-com-8080" (config/config_test.go:64-100 of the MCP server); the
  code keeps dots and gives "example.com-8080" (`EndpointIsNormalized`).
- *Topology rates.* An exporter that is listed twice in a pipeline has one node but counts twice in the rate
  shown at the agent, which is the sum over the nodes exactly if such exporters send nothing (`BuildAgentOf`).
- *MCP registry.* An agent that moved to another connection is still removed with the old one
  (`McpRemovalTakesMovedAgents`).

## Model

| member | source | states |
|---|---|---|
| NextMessages.PopKeepsOverlay | client/internal/nextmessage.go:58-65 | Dropping the sent fields loses nothing: the popped message with the new slot on top gives the report that the old slot gave. |
| NextMessages.NextMessage.Update | client/internal/nextmessage.go:38-45 | The modified message is pending; the channel returned is the open one of this message. |
| NextMessages.NextMessage.PopPending | client/internal/nextmessage.go:49-77 | Takes a pending message out and closes exactly its channel; what is left has the uid, the next number modulo 2^64 and the capabilities, and nothing of it is sent twice. |
| Refinement.DeltasRefineFullState | client/internal/clientstate.go:21-32 | In every run, from the first popped message on: unless a setter of the field is between its store and its publish, overlaying all popped messages and the slot gives exactly the stored field, also while full reports and first messages are being prepared (remote config status: if no store came between a compare and its store). |
| Refinement.RunsKeepInv | client/internal/clientcommon.go:300-565 | The same in every run before the first pop, too, except for what the first message is still to bring; threads keep to their shapes. |
| Refinement.InvPreserved | client/internal/clientcommon.go:300-565 | Every event of every thread, of the sender loop and of a reconnect keeps the coherence invariant. |
| Refinement.StoreBeginsPublish | client/internal/clientcommon.go:383-405 | A store begins a publication, or, without a store in between, writes the value that is stored already. |
| Refinement.OverlapLosesStatus | client/internal/clientcommon.go:374-405 | From every quiet state two overlapping calls can end quiet with one status stored and another one sent last. |
| SenderLoop.CustomMessagesInOrder | client/internal/clientcommon.go:471-497 | In every run the accepted custom messages are those of the popped messages, in order, then the one in the slot. |
| SenderLoop.ChannelsCloseWithTheirMessage | client/internal/nextmessage.go:34-37 | In every run each channel returned, also with the pending error, is closed by the pop that carries the message, and no channel twice. |
| SenderLoop.NoLostWakeUp | client/internal/sender.go:51-61 | In every run, whoever published and schedules has the token in the channel, or schedules next, or the sender is between token and pop. |
| MessageMutex.OnlyTheHolderWrites | client/internal/nextmessage.go:38-45 | In every run one thread at most is between taking and releasing the mutex, and whoever is about to write to the slot is that one. |
| GracefulStop.StopAnnouncesBeforeClose | client/internal/wssender.go:124-137 | In every run, a sender loop that only Stop cancelled has popped a message with AgentDisconnect when it comes to the close frame. |
| GracefulStop.AdvanceKeepsStop | client/wsclient.go:128-137 | Each action of each thread keeps the stages of the announcement: in the slot, pending, scheduled, cancelled. |
| GracefulStop.EventKeepsStop | client/internal/wssender.go:112-139 | So does every step of the sender loop. |
| Progress.StopCloses | client/wsclient.go:128-137 | From every state of every run that is at rest, a stop leads to a written message with AgentDisconnect and to the close. |
| Progress.CustomMessageLeaves | client/internal/clientcommon.go:471-497 | From every such state with room in the slot, a supported custom message leaves with the next message, and the caller's channel is closed. |
| Progress.AllThreadsFinish | client/internal/nextmessage.go:16-45 | From every state of every run some order of actions lets all threads finish, and the mutex is free then: no deadlock. |
| Replicas.LosslessReplicaIsFold | internal/examples/server/data/agent.go:135-206 | A server that gets every message holds the overlay of all of them, for description, health and remote config status. |
| Replicas.ConfigReportedLast | internal/examples/server/data/agent.go:208-231 | A server that gets every message has the effective config reported last with a map, or else that of the first message. |
| Replicas.FirstMessageStays | internal/examples/server/data/agent.go:135-173 | It has the last number, and of capabilities, package statuses, custom capabilities and the rest what the first message said, whatever came later. |
| Replicas.CompressedIffOmitted | internal/examples/server/data/agent.go:243-257 | A message is compressed if and only if it omits what some known capability says is reported. |
| Replicas.GapIsSeen | internal/examples/server/data/agent.go:237-239 | The check on sequence numbers notices skipped messages if and only if their number is not a multiple of 2^64. |
| Replicas.Agent.UpdateAgentDescription | internal/examples/server/data/agent.go:135-173 | Takes number, description and remote config status, if present; reports exactly a change of the description. |
| Replicas.Agent.UpdateHealth | internal/examples/server/data/agent.go:175-185 | Takes the health if present; the start time is that of the last healthy report. |
| Replicas.Agent.UpdateRemoteConfigStatus | internal/examples/server/data/agent.go:187-192 | An omitted status is kept. |
| Replicas.Agent.UpdateStatusField | internal/examples/server/data/agent.go:194-206 | The three updates together, with the start time; a first message counts as a change. |
| Replicas.Agent.ProcessStatusUpdate | internal/examples/server/data/agent.go:233-287 | What is reported is taken, an effective config only with a map; what is omitted is kept; full state asked for exactly on a gap and an omission; connection settings offered exactly on a new description; remote config sent exactly if it changed with the description or the agent reported another one. |
| Replicas.Agent.OfferConfig | internal/examples/server/data/agent.go:265-284 | The config to send, exactly if it changed or the agent has another one. |
| Replicas.Agent.UpdateStatus | internal/examples/server/data/agent.go:104-123 | The same status, start time and response, and all watchers are notified once and forgotten. |
| Replicas.Agent.SetCustomConfig | internal/examples/server/data/agent.go:296-331 | Either the config changed, is sent and the watcher waits, or nothing is sent and the watcher is notified at once. |
| Replicas.Agent.CalcRemoteConfig | internal/examples/server/data/agent.go:336-365 | The config with its own hash; reports exactly a change. |
| Coherence.CopyIsRightOrHealing | internal/examples/server/data/agent.go:233-263 | In every run with losses, duplicates and leftovers of old connections, for records on the connection in use: the copy of health or remote config status is right up to the last processed message, or a request or the field itself is on its way, or a leftover came late. |
| Coherence.QuietSystemIsCoherent | client/internal/receivedprocessor.go:219-247 | In every run, for records on the connection in use: with nothing about the field on its way and the newest message processed, the copy is the stored value. |
| Reconnects.NoticedCopyIsRightOrHealing | internal/examples/server/data/agent.go:233-263 | In every run in which breaks are noticed before the client dials again, for every record: the copy is right up to the last processed message, or a request or the field itself is on its way. |
| Reconnects.NoticedQuietSystemIsCoherent | client/internal/receivedprocessor.go:219-247 | In such a run, with nothing about the field on its way, every record holds the stored value. |
| Reconnects.NoticedRunsKeepOneConnection | internal/examples/server/data/agents.go:24-32 | In such a run all records are on the connection in use and none has stepped back to an older message. |
| Healing.HearTakesResponse | client/internal/receivedprocessor.go:219-247 | Each response is taken off the wire; after a request for the full state the receiver has every field still to copy, to publish and to schedule, and otherwise nothing changes. |
| Healing.AnswerHeals | client/internal/receivedprocessor.go:219-247 | From every state of every run with nothing under way but a request, the fixed run that answers it ends with a record that holds the stored description, health and remote config status. |
| Healing.HeartbeatHeals | client/internal/wssender.go:112-139 | From every state of every run with nothing under way, a heartbeat and the answer to what is asked then end with a record that holds the stored health or remote config status, whatever was lost before, if the gap shows in 64 bits. |
| Progress.ComesToRest | client/internal/wssender.go:112-139 | From every state of every run with connection and sender loop alive, a run without calls and losses comes to rest with nothing on its way. |
| StaleRecords.OneUnnoticedBreakIsStale | internal/examples/server/data/agents.go:75-93 | From every state of every run in which all is quiet and the server is up to date and knows the agent to report its health: one break that the server does not notice before the client dials again can lead to a wrong copy with no gap and nothing on its way. |
| StaleRecords.UpToDateIsReachable | internal/examples/server/data/agent.go:135-206 | Such states exist: a first message leads to one. |
| StaleRecords.UnnoticedBreakIsStale | internal/examples/server/data/agents.go:75-93 | A whole run, from the start, that ends so; breaks are not noticed in it. |
| Coherence.LosslessLinkIsExact | client/internal/nextmessage.go:58-65 | If no message is lost, the server holds the stored description, health and remote config status as long as the slot has nothing new about it, unless its setter is between store and publish. |
| Coherence.LosslessLinkIsExactAtPop | client/internal/nextmessage.go:49-77 | If no message is lost, the server holds after each message what the client stored when it was popped. |
| Coherence.LosslessLinkNeverAsksAgain | internal/examples/server/data/agent.go:256-263 | If no message is lost, only the first message can cause a request for the full state, and does exactly if it omits something. |
| Coherence.ShortRunsAreNotBlind | protobufs/opamp.pb.go:700-704 | While fewer than 2^64 messages were popped, no loss and no duplicate goes unnoticed by the number. |
| Coherence.SystemRuns | internal/examples/server/data/agents.go:24-32 | In every run of the whole system the system invariant holds and the registry's index is exact. |
| Coherence.ServedOnLive | internal/examples/server/data/agent.go:256-263 | Serving a message of the client's connection keeps the claim: an unnoticed loss cannot hide a field. |
| Coherence.ServedOnStale | internal/examples/server/data/agents.go:75-93 | Serving a leftover of an older connection keeps the claim about the record. |
| Coherence.DropOk | client/internal/wssender.go:162-168 | Losing a message on its way keeps the claim about every record. |
| Coherence.DialOk | client/internal/httpsender.go:227-257 | So does dialing again, also with the newest message sent once more. |
| Coherence.CloseOk | internal/examples/server/data/agents.go:24-32 | So does the removal of a connection, which loses responses. |
| Progress.CloseForgets | internal/examples/server/data/agents.go:24-32 | In every run a removal takes the wires and exactly the agents of the connection. |
| Progress.RetryArrives | client/internal/httpsender.go:227-257 | After a retry the server processes the newest message again, on the new connection. |
| Registries.FoundKeepsInverse | internal/examples/server/data/agents.go:75-93 | Finding or creating an agent keeps the index the exact inverse of the agents. |
| Registries.RemovalIsExact | internal/examples/server/data/agents.go:24-32 | A removal takes exactly the agents of the connection and keeps the index exact. |
| Registries.Agents.FindOrCreateAgent | internal/examples/server/data/agents.go:75-93 | The agent that is there, or a new one on this connection; all others are as they were; the index stays exact. |
| Registries.Agents.RemoveConnection | internal/examples/server/data/agents.go:24-32 | Afterwards no agent is on the connection and all others are as they were. |
| Registries.McpIndexIsHistory | internal/examples/opamp-api-and-mcp-server/internal/data/data.go:49-90 | In every run the index of a connection holds exactly the ids found on it since it was last removed. |
| Registries.McpRemovalTakesMovedAgents | internal/examples/opamp-api-and-mcp-server/internal/data/data.go:49-57 | In every run a removal spares an agent exactly if it was not found on the connection since the last removal; a moved agent is taken. |
| Registries.McpRemovalClearsConnection | internal/examples/opamp-api-and-mcp-server/internal/data/data.go:49-57 | After a removal no remaining agent is on the connection, and every agent's id is still indexed. |
| Registries.McpAgents.FindOrCreateAgent | internal/examples/opamp-api-and-mcp-server/internal/data/data.go:67-90 | The agent object is kept, moved to this connection and indexed under it. |
| Registries.McpAgents.RemoveConnection | internal/examples/opamp-api-and-mcp-server/internal/data/data.go:49-57 | Removes what the index of the connection holds; no agent is left on the connection. |
| ClientApi.RunStoreAndPublish | client/internal/clientcommon.go:300-311 | Run without interleaving, the program of a setter stores its value, copies it and leaves a token. |
| ClientApi.RunCompareRemote | client/internal/clientcommon.go:374-405 | Run without interleaving, an unchanged status changes nothing, a new one is stored and published. |
| ClientApi.RunCustom | client/internal/clientcommon.go:471-497 | Run without interleaving, a second custom message leaves the first one in place and does not schedule. |
| ClientApi.FirstMessageOfProgram | client/internal/clientcommon.go:275-287 | The program of the first message makes exactly that message, all stored fields but the health with the captured values, and puts no token. |
| ClientApi.FullStateOfProgram | client/internal/receivedprocessor.go:229-246 | The program that answers a request for the full state makes exactly that message, everything stored with the captured values, and puts a token. |
| ClientApi.ActsExtra | client/internal/clientcommon.go:275-287 | Whatever a program does beside, the slot ends with the flags, components, effective config and statuses that it puts there, or those from before. |
| ClientApi.RunExtra | client/internal/clientcommon.go:500-541 | Run without interleaving, a change beside the report changes its own field of the slot, and puts a token. |
| ClientApi.RunSetUid | client/internal/sender.go:72-84 | A uid that is set is pending but not scheduled. |
| ClientApi.ClientSyncedState.SetAgentDescription | client/internal/clientstate.go:105-122 | Stores a description with attributes; nil and empty ones are errors that change nothing. |
| ClientApi.ClientSyncedState.HasCustomCapability | client/internal/clientstate.go:199-214 | Finds a capability if and only if it is stored. |
| ClientApi.SenderCommon.SetInstanceUid | client/internal/sender.go:72-84 | The zero uid is refused; else the uid is in the pending message. |
| ClientApi.SenderCommon.SetHeartbeatInterval | client/internal/wssender.go:77-89 | A negative interval is refused, and over HTTP (client/internal/httpsender.go) a zero one, too; else it is stored. |
| ClientApi.ClientCommon.SetAgentDescription | client/internal/clientcommon.go:300-311 | Stored, in the slot, pending and scheduled, exactly as by its program; or an error without effect. |
| ClientApi.ClientCommon.SetHealth | client/internal/clientcommon.go:327-340 | The same; nil is an error. |
| ClientApi.ClientCommon.SetRemoteConfigStatus | client/internal/clientcommon.go:374-405 | The same; needs the capability and a hash. |
| ClientApi.ClientCommon.SetPackageStatuses | client/internal/clientcommon.go:409-439 | The same; needs the capability and a hash. |
| ClientApi.ClientCommon.SetCustomCapabilities | client/internal/clientcommon.go:442-455 | The same; nil is an error. |
| ClientApi.ClientCommon.SendCustomMessage | client/internal/clientcommon.go:471-497 | What is an error; a free slot takes the message and a send is scheduled; a taken one leaves everything, with the pending error; the channel is that of the message in the slot. |
| ClientApi.ClientCommon.SetAvailableComponents | client/internal/clientcommon.go:500-541 | Which inputs are errors before and after the start; only a change is put into the slot, only its hash, and scheduled. |
| ClientApi.ClientCommon.ValidateCapabilities | client/internal/clientcommon.go:77-96 | Accepts a mask if and only if the client backs it, and names the first thing that is missing. |
| ClientApi.ClientCommon.SetCapabilities | client/internal/clientcommon.go:544-565 | Accepts a mask, with ReportsStatus added, if and only if the client backs it; then has the effect of its program; keeps a started client honest. |
| ClientApi.ClientCommon.PrepareStart | client/internal/clientcommon.go:100-194 | Which settings are refused, over either transport, and by which check first; the mask is stored even then, but no client is started; success means every advertised capability is backed, and has exactly the effect of a step of the machine. |
| ClientApi.ClientCommon.PrepareContents | client/internal/clientcommon.go:133-194 | The statuses reported last are kept, missing ones start empty; interval, connection settings status and uid are taken as the capabilities allow. |
| ClientApi.ClientCommon.PreparePackageStatuses | client/internal/clientcommon.go:150-169 | The statuses reported last, if packages are accepted and there are any, else empty ones; a failing provider is an error. |
| ClientApi.StartError | client/internal/clientcommon.go:100-194 | Nothing is refused if and only if everything that a start needs is there. |
| ClientApi.ClientCommon.Start | client/wsclient.go:80-126 | Succeeds if and only if the client was not started, the transport is usable and the settings have everything that a start needs; a client that becomes started advertises only what it can back. |
| ClientApi.ClientCommon.PrepareFirstMessage | client/internal/clientcommon.go:255-289 | All stored fields but the health are in the pending message, missing components as an empty hash; no token; exactly the effect of its program; also before the client counts as started. |
| ClientApi.ClientCommon.RcvReportFullState | client/internal/receivedprocessor.go:222-247 | The pending message holds the stored report; a failing callback drops the effective config; exactly the effect of its program. |
| OfferedSettings.OfferOutcome | client/internal/receivedprocessor.go:91-116 | The status after one offer is that of the last failure of a callback that had something to work on, else APPLIED if one had, else FAILED or APPLYING as no capability or some capability accepts settings; said per setting and capability. |
| OfferedSettings.OfferOnlyMovesForward | client/internal/receivedprocessor.go:402-417 | Within one offer APPLYING comes first if settings are accepted, each further status is a step forward or another failure, and the last is the stored one. |
| OfferedSettings.SilentWithoutCapability | client/internal/receivedprocessor.go:93-116 | Nothing is stored or published if and only if the capability is missing. |
| OfferedSettings.ReceivedProcessor.RcvOpampConnectionSettings | client/internal/receivedprocessor.go:261-309 | Whether the callback runs; takes the heartbeat interval if the sender accepts it; concludes the offer if it ran, and schedules a send exactly if a status was published. |
| OfferedSettings.OfferedInterval | client/internal/receivedprocessor.go:266-271 | The offered seconds as signed 64-bit nanoseconds: exact while they fit, and always with the same 64 bits. |
| OfferedSettings.ReceivedProcessor.RcvConnectionSettings | client/internal/receivedprocessor.go:311-373 | The callback runs exactly if one of the four settings is offered together with its own capability; concludes the offer then, and schedules a send exactly if a status was published. |
| OfferedSettings.ReceivedProcessor.ProcessOffer | client/internal/receivedprocessor.go:91-203 | One whole offer ends with the status that it deserves stored, sent last and scheduled. |
| Packages.PackagesSyncer.DoSync | client/internal/packagessyncer.go:125-168 | Whatever fails: recording the offered hash means no other package is left and each offered one was up to date or has the offered file; a recorded hash means no change; statuses end at the offered names. On a reliable store another hash leads to a run that installs and reports every package that does not fail, and records the hash if none does. |
| Packages.PackagesSyncer.SyncPackages | client/internal/packagessyncer.go:147-154 | The loop goes on after a failure: every package that does not fail ends up to date or installed with the offered hash, version and file, with the existence and type it had. |
| Packages.DoneStep | client/internal/packagessyncer.go:147-154 | What is done for other packages stays done. |
| Packages.PackagesSyncer.Sync | client/internal/packagessyncer.go:61-88 | The caller's part: the restored statuses, about the offered hash, are in the client's state, or an error; no error on a reliable store; the store is untouched. |
| Packages.PackagesSyncer.SyncToEnd | client/internal/packagessyncer.go:61-88 | A call and the background part that it starts: the same promises as for the background part. |
| Packages.PackagesSyncer.InitStatuses | client/internal/packagessyncer.go:97-122 | Needs a state provider; restores the statuses saved last, now about the offered hash. |
| Packages.PackagesSyncer.SyncPackage | client/internal/packagessyncer.go:171-247 | Touches one package and its entry only; no error means up to date before or the offered file now; a newly reported install has file and saved hash; an error after the lookup shows as a failed install. If no call fails, a package that is up to date is left alone and any other one is installed and reported. |
| Packages.PackagesSyncer.ReplacePackage | client/internal/packagessyncer.go:190-246 | A package is recreated and installed, or its entry shows a failed install. |
| Packages.PackagesSyncer.InstallPackage | client/internal/packagessyncer.go:225-246 | A failed file is a failed install; a failed save is neither an error nor an install. |
| Packages.PackagesSyncer.RecreatePackage | client/internal/packagessyncer.go:190-222 | A package of the wrong type is deleted and created anew, a missing one created, any other one left; a failure shows as a failed install. |
| Packages.PackagesSyncer.SyncPackageFile | client/internal/packagessyncer.go:252-260 | Without an error the file has the offered content hash; a file that has it already is not touched. |
| Packages.PackagesSyncer.ShouldDownloadFile | client/internal/packagessyncer.go:264-283 | Only a file with the offered hash is not downloaded, and none that is known to have it is. |
| Packages.PackagesSyncer.DeleteUnneededLocalPackages | client/internal/packagessyncer.go:351-378 | Without an error nothing but offered packages is left; offered ones are untouched; deletion goes on after a failure; after a listing the statuses are cut to the offer. |
| Packages.PackagesSyncer.ReportStatuses | client/internal/packagessyncer.go:383-405 | Changes nothing in the store but what was reported last; if that worked, as it does on a reliable store, the statuses are in the client's state and in the slot, and a send is scheduled. |
| Packages.ProgressStep | client/internal/packagessyncer.go:147-154 | Syncing one offered package keeps what was achieved for all others. |
| Packages.InMemPackagesStore.UpdateContent | client/internal/inmempackagestore.go:71-80 | Meets the store's contract and keeps data, hash and signature; a failed read changes nothing. |
| Packages.InMemPackagesStore.PackageState | client/internal/inmempackagestore.go:52-57 | The stored state, or one that says that the package does not exist. |
| Packages.InMemPackagesStore.DeletePackage | client/internal/inmempackagestore.go:87-90 | Meets the store's contract, but the content hash stays. |
| Packages.InMemPackagesStore.CreatePackage | client/internal/inmempackagestore.go:59-65 | Meets the store's contract. |
| Packages.InMemPackagesStore.SetPackageState | client/internal/inmempackagestore.go:82-85 | Meets the store's contract. |
| SyncLocks.OneSyncAtATime | client/internal/packagessyncer.go:61-88 | However calls overlap, one holder at most, no unlock of an unlocked mutex, every lock released exactly once, done channels closed once. |
| SyncLocks.DoneBeforeFinished | client/internal/packagessyncer.go:62-64 | Done can be closed while the background run still works. |
| SyncLocks.AllCallsCanEnd | client/internal/packagessyncer.go:61-88 | Every run of any calls can go on, without another call, until all are over and the mutex is free. |
| Topology.Builder.BuildTopology | internal/examples/opamp-api-and-mcp-server/internal/topology/topology.go:91-234 | The nested loops build the specified graph for agents and pipelines in the order met. |
| Topology.Builder.BuildReceiverNodes | internal/examples/opamp-api-and-mcp-server/internal/topology/topology.go:941-1044 | The receivers of a pipeline, their nodes once, their edges, and the ids in order. |
| Topology.Builder.BuildProcessorNodes | internal/examples/opamp-api-and-mcp-server/internal/topology/topology.go:1047-1196 | The processors: marked once, shown or skipped, linked to the one shown before. |
| Topology.Builder.BuildExporterNodes | internal/examples/opamp-api-and-mcp-server/internal/topology/topology.go:1199-1526 | The exporters but debug, fed by the last components, with their endpoints. |
| TopologyShape.NodeIdsAreUnique | internal/examples/opamp-api-and-mcp-server/internal/topology/topology.go:93-115 | For all inputs no two nodes have the same id. |
| TopologyCycles.WellFormedWithoutClash | internal/examples/opamp-api-and-mcp-server/internal/topology/topology.go:1165-1191 | If no keys of different kinds coincide, every edge ends at nodes, leads to a later kind or a later processor, and there is no cycle. |
| TopologyCycles.AcyclicIffSafeIds | internal/examples/opamp-api-and-mcp-server/internal/topology/topology.go:1165-1191 | All graphs of agents with given ids are free of cycles if and only if no id continues another one where its keys have the kind. |
| TopologyCycles.ClosedIffSafeIds | internal/examples/opamp-api-and-mcp-server/internal/topology/topology.go:1151-1163 | All their edges end at nodes under exactly the same condition. |
| TopologyCycles.WellFormedIffSafeIds | internal/examples/opamp-api-and-mcp-server/internal/topology/topology.go:944-949 | And so the graphs are well formed exactly then. |
| TopologyCycles.ContinuedIdsDangle | internal/examples/opamp-api-and-mcp-server/internal/topology/topology.go:1151-1157 | Agents with a continued id can be configured so that an edge ends at a skipped processor. |
| TopologyCycles.ContinuedIdsCycle | internal/examples/opamp-api-and-mcp-server/internal/topology/topology.go:1206-1212 | Agents with an id continued by any of the three kinds can be configured so that the graph has a cycle. |
| TopologyCycles.PathRises | internal/examples/opamp-api-and-mcp-server/internal/topology/topology.go:1479-1517 | Along every path the rank of kind and position grows. |
| TopologyEdges.EdgesAreSpecified | internal/examples/opamp-api-and-mcp-server/internal/topology/topology.go:91-234 | If keys and ids do not collide, the edges are exactly those of a specification over the pipelines alone: receivers feed the first processor shown, or the agent does without receivers; each processor the next; the last one shown, or the receivers, the exporters but debug; those their endpoints; a traces pipeline without data has none. |
| TopologyEdges.ShownNamesAre | internal/examples/opamp-api-and-mcp-server/internal/topology/topology.go:1130-1163 | The processors of that specification are all that are shown, in the order in which each occurs first. |
| TopologyContents.NodesAreSpecified | internal/examples/opamp-api-and-mcp-server/internal/topology/topology.go:91-234 | Then the nodes are exactly the agents, receivers, shown processors, exporters but debug and endpoints, each once and under its own id. |
| TopologyContents.EdgesAreCounted | internal/examples/opamp-api-and-mcp-server/internal/topology/topology.go:91-234 | Then there are as many edges as the pipelines ask for, none drawn twice. |
| TopologyEndpoints.EndpointIsNormalized | internal/examples/opamp-api-and-mcp-server/internal/config/config.go:141-149 | The id of an endpoint is the endpoint without its scheme, with a dash for each slash and colon. |
| TopologyEndpoints.EndpointsAreKeptApart | internal/examples/opamp-api-and-mcp-server/internal/config/config.go:141-149 | Endpoints with a host and a port share their node exactly if host and port are the same, over http, https or without a scheme. |
| TopologyEdges.EdgesDoNotDependOnOrder | internal/examples/opamp-api-and-mcp-server/internal/topology/topology.go:91-130 | Then the set of edges is the same for every iteration order of the maps. |
| TopologyIds.OneLengthDoesNotCollide | internal/examples/opamp-api-and-mcp-server/internal/topology/topology.go:944-949 | Agent ids of one length, with pipelines for traces, logs and metrics, have no colliding keys or node ids, whatever the components are called. |
| TopologyIds.NoSlashIsSafe | internal/examples/opamp-api-and-mcp-server/internal/topology/topology.go:944-949 | Agent ids without a slash keep keys of different kinds apart. |
| TopologyIds.OneLengthIsSafe | internal/examples/opamp-api-and-mcp-server/internal/topology/topology.go:944-949 | So do agent ids of one length. |
| TopologyNodes.ExporterNodesAreListed | internal/examples/opamp-api-and-mcp-server/internal/topology/topology.go:1199-1220 | Without collisions the exporter nodes of a pipeline are exactly one for each listed exporter but debug. |
| TopologyRates.AgentTopology.BuildAgentOf | internal/examples/opamp-api-and-mcp-server/internal/topology/topology.go:236-266 | For every pipeline that is not skipped, the rate at the agent is the sum over the exporter nodes of the graph, through the shared data, plus once more what repeated exporters send; the sum over the nodes exactly if those send nothing. |
| TopologyRates.AgentTopology.Summarize | internal/examples/opamp-api-and-mcp-server/internal/topology/topology.go:240-266 | The rates are reset and become the sums over all listed exporters with data. |
| TopologyRates.FirstsAndRepeats | internal/examples/opamp-api-and-mcp-server/internal/topology/topology.go:246-251 | The sum over a list is that over its distinct names plus that over the later occurrences. |
| TopologyRates.SameTotal | internal/examples/opamp-api-and-mcp-server/internal/topology/topology.go:246-251 | The sum over distinct names does not depend on their order. |
| TopologyContents.BuildTopology | internal/examples/opamp-api-and-mcp-server/internal/topology/topology.go:42-270 | What the service returns: unique ids; rising edges for safe agent ids; exactly the specified nodes and edges, in number, too, if nothing collides. |
| TopologyEdges.ReceiversMeetSpec | internal/examples/opamp-api-and-mcp-server/internal/topology/topology.go:1031-1041 | One edge from the agent to each receiver, no others. |
| TopologyEdges.ProcessorsMeetSpec | internal/examples/opamp-api-and-mcp-server/internal/topology/topology.go:1165-1191 | Edges from all sources to the first shown processor and between consecutive ones, repeated names once. |
| TopologyEdges.ExportersMeetSpec | internal/examples/opamp-api-and-mcp-server/internal/topology/topology.go:1472-1517 | Edges from the last components to each exporter but debug, and from it to its endpoint. |
| TopologyRates.AgentTopology.BuildExporterNode | internal/examples/opamp-api-and-mcp-server/internal/topology/topology.go:1222-1226 | A node shows the data kept for its name and pipeline, and keeps what it makes. |
| TopologyRates.OnlyOne | internal/examples/opamp-api-and-mcp-server/internal/topology/topology.go:246-264 | The running sum over all pipelines is that of the one pipeline of the type. |

## Left out

- Coherence.CopyIsRightOrHealing: speaks of health and remote config status. The check on omissions does not look at the description, and capabilities, custom capabilities and package statuses are never updated at the server after the first message. Records on an older connection are excluded because the claim is false for them (StaleRecords.UnnoticedBreakIsStale); Reconnects.NoticedCopyIsRightOrHealing needs no such exclusion.
- Coherence.QuietSystemIsCoherent: the same fields and records; for the remote config status only if no store came between a compare and its store.
- Refinement.DeltasRefineFullState: not for package statuses (the syncer stores without publishing), effective config (not stored; a failing callback sends none), flags and available components (published from a captured value, so not coherent under races).
- GracefulStop.StopAnnouncesBeforeClose: does not say that the message was written, nor that it is the last one; says nothing for a loop cancelled by a lost connection. A Stop before the start leaves the announcement in the slot and cancels nothing.
- ClientApi.ClientCommon.SetRemoteConfigStatus: a nil status is not an input of the model.
- ClientApi.ClientCommon.PrepareStart: the address, proxy, TLS and header settings are one flag of Start.
- Packages.PackagesSyncer.SyncToEnd: that calls overlap is SyncLocks.OneSyncAtATime. Statuses are values: that the store may hand back the very object that the syncer mutates is not captured. An offer with a nil file, which makes the source panic, is not an input of the model.
- Packages.PackagesSyncer.SyncPackageFile: the HTTP request, its status and the progress reports are one call that may fail.
- OfferedSettings.ReceivedProcessor.ProcessOffer: capabilities are fixed while one offer is processed; certificates and TLS are left out.
- Replicas.Agent.ProcessStatusUpdate: what calcConnectionSettings offers is reduced to whether it is called.
- Replicas.Agent.UpdateStatus: the answer to a connection settings request, a new certificate or an error, is left out.
- Progress.ComesToRest: says that a run to rest exists from every state, not that every fair run takes it; there is no scheduler in the model.
- Healing.HeartbeatHeals: for records on the connection in use; the remote config status only if no store came between a compare and its store.
- Topology.Builder.BuildTopology: whether a processor is shown and whether a traces pipeline has data are inputs of the pipeline, not computed from metrics and rates; the unused maps of endpoints are left out.
- TopologyRates.AgentTopology.BuildAgentOf: how the rates of a node are computed is left open: new data gets arbitrary rates.
- The answer to a request for the available components (client/internal/receivedprocessor.go:249-256) has no method of its own; in the machine it is a change beside the report.
- A first message that fails to be sent leaves its sender loop running while the next connection starts (client/wsclient.go:375-379); the machine has one sender loop at a time.
- The HTTP client prepares its first message just before it counts as started; in the machine it does so just after.
- Setting several fields of the slot under the mutex is several actions of the machine, and a getter is read at the action that uses it; both allow at least the interleavings of the source.
- Networks, WebSocket and HTTP libraries, redirects, compression, serialization, backoff and timers: a message arrives or not.
- Prometheus queries, the MCP tools, the user interface, the supervisor and the YAML configuration.
