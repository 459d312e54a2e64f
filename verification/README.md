# ChatX connection protocols: models and proofs

ChatX exposes a desktop's MCP server through a public relay and lets a phone
watch it. This project models the parts of ChatX where several parties, crashes
and failing effects meet, and proves what they keep over every run.

| files | part of ChatX |
|---|---|
| `bytes`, `frames`, `base64` | binary frames, chunking, the v1 text encoding |
| `relay`, `lanes`, `download`, `download_safety`, `download_answers`, `download_progress` | responses travelling from the desktop's local bridge to a public HTTP client |
| `desktop_session`, `upload`, `upload_lanes`, `upload_safety`, `upload_progress` | request bodies travelling the other way |
| `rotation` | desktop credentials replaced while sockets are being opened |
| `transport`, `transport_safety`, `transport_stops`, `transport_claims`, `transport_results`, `transport_desktop` | the two exclusive MCP transports of the desktop |
| `registry_store`, `enrolment`, `revoke` | the relay's registry file, one-time invites, acknowledged revocation |
| `pairing`, `control` | pairing grants, idempotent control requests |
| `log_scan`, `supervisor` | control-plane verdict from the log, the HTTPS supervisor loop |
| `alerts`, `alert_histories`, `alert_meanings` | the phone's alert engine |
| `invite_code` | the enrolment code, printed in Python and read in Rust |

How the models are built:

* A concurrent protocol is a state machine. One action is one lock region, one
  queue operation, one message, one effect on a file or a process, or a crash;
  a run is any sequence of actions, and an action that is not enabled changes
  nothing. Theorems speak of every run.
* Code that updates fields is a class. Each method's contract equates the new
  state with a specification function of the old one, and the theorems are about
  those functions. `Relay.Gateway`, `DesktopSession.Session`,
  `TransportDesktop.Desktop`, `RegistryStore.RelayRegistry`, `Pairing.Monitor`,
  `Control.ControlCache` and `Alerts.AlertEngine` are such classes.
* Download and upload are proved per request: `LaneOf` projects a system onto
  one request, every action is one of a few moves of every lane, and each move
  keeps the lane invariant `Good`.
* Safety is half of a protocol: a party that refuses everything is safe too. So
  for downloads, uploads, enrolment, revocation and pairing there is also a
  theorem that what nothing disturbs goes through, for all inputs within the
  limits, and failures are shown to reach the party that waits.
* A transport operation is written as the tree of its effects (`Transport.Prog`),
  with a branch for failure at each. `TransportSafety.Needs` reads that tree
  backwards to say which facts the rest of an operation relies on; the invariant
  is that those facts hold wherever the operation is. `TransportClaims` reads it
  the same way for what an operation's Ok, or its failure, tells the caller, and
  `TransportResults` draws the conclusions.
  `TransportDesktop.Desktop` carries the tree as a ghost plan, so its methods can
  make no other effects.

Places where the natural promise does not hold as it stands. The code is
modelled as it is, the failing behaviour is shown, and the exact condition is
proved:

* Two transports can be alive together exactly when the machine starts from
  stored settings with HTTPS enabled and not marked stopped while a tunnel
  daemon is alive, because a failed status probe counts as "not alive"
  (`TransportSafety.ExclusionExactly`).
* A connect that fails can leave the daemon running, because a start command may
  report failure after having started it and no stop follows; exactly when is
  `TransportResults.FailedLaunchExactly`. Nothing wants it then.
* On Windows a registry save deletes the backup first. It survives a crash at
  every step exactly when the main file is present or the file holds nothing
  (`RegistryStore.CrashSafeExactly`, `RegistryStore.TwoFailedRenamesThenACrash`).
  Losing the file that way also forgets used invites
  (`Enrolment.LostRecordsReopenInvites`).
* The invite check and the pruning of used invites read the clock separately. A
  second use at a given moment is possible exactly when that moment is not
  before the invite's expiry (`Enrolment.ReuseExactlyWhenLate`).
* The same holds for the validation and the cache of control requests
  (`Control.RunsAgainExactlyWhenLate`).

## Model

| member | source | states |
|---|---|---|
| Frames.DecodeInvertsEncode | relay-protocol/src/mcp_stream.rs:14-38 | decoding an encoded frame gives back kind, id and body, and encoding followed by decoding is the identity exactly for lower-case hexadecimal ids and bodies up to 64 KiB |
| Frames.EncodeInvertsDecode | relay-protocol/src/mcp_stream.rs:25-38 | every accepted frame is re-encoded to the same octets |
| Frames.Encode | relay-protocol/src/mcp_stream.rs:14-24 | the buffer-building loop computes the frame, or nothing for a bad id or an oversized body |
| Frames.Decode | relay-protocol/src/mcp_stream.rs:25-38 | the loop that writes the id back as text computes the decoded frame |
| Frames.IdTextIsLowerHex | relay-protocol/src/mcp_stream.rs:32-37 | a decoded id is lower-case hexadecimal and parses to the octets it came from |
| Frames.FrameLayout | relay-protocol/src/mcp_stream.rs:1-24 | the octets on the wire: kind 1 or 2, the sixteen octets the id spells, the body |
| Bytes.ChunksRestore | src-tauri/src/https_mcp_wss.rs:221-231 | splitting a body into pieces and concatenating them gives the body back |
| Base64.DecodeInvertsEncode | src-tauri/src/https_mcp_wss.rs:228-229 | strict Base64 decoding inverts encoding (section 4 of RFC 4648) |
| Base64.EncodeInvertsDecode | relay-server/src/mcp_gateway.rs:201-201 | a text that decodes is the only text encoding those octets |
| Base64.KnownVectors | relay-server/src/mcp_gateway.rs:201-201 | the standard alphabet and padding: vectors of section 10 of RFC 4648 and the symbols for 62 and 63 |
| Base64.GuardsAreExact | src-tauri/src/https_mcp_wss.rs:189-192 | the length guard, the decoding and the size guard together let through exactly the encodings of bodies within the limit, for every limit |
| Relay.SlotsConserved | relay-server/src/mcp_gateway.rs:82-107 | every gateway operation keeps each pending entry paired with a live guard and a channel, and the table within 64 entries |
| Relay.OnlyThatRequest | relay-server/src/mcp_gateway.rs:163-233 | a frame, even one whose reader is too slow, touches at most the request it names, and only if that was admitted under the frame's own session |
| Relay.FailConsistent | relay-server/src/mcp_gateway.rs:149-161 | failing a session leaves none of its entries and keeps the table consistent |
| Relay.RouteChangesEndSessions | relay-server/src/mcp_gateway.rs:125-161 | revocation, replacement and disconnection end the session concerned at once: none of its entries is left, each of its readers is flagged and told if there is room, and no other request changes |
| Relay.EndedSessionIsDeaf | relay-server/src/mcp_gateway.rs:177-180 | no frame of an ended session has any effect until a request is admitted under it again |
| Relay.WhatAFrameDoes | relay-server/src/mcp_gateway.rs:181-233 | the reply a frame means joins its request's queue while fewer than 16 wait and the 128 or 16 MiB budget lasts; past the budget an error does, and without room the response is broken off; end and error close the entry |
| Relay.AdmissionAndRelease | relay-server/src/mcp_gateway.rs:452-475 | a request is admitted exactly while fewer than 64 wait, with nothing charged and a clean channel; dropping its guard undoes it |
| Relay.Gateway.FailSessionInPlace | relay-server/src/mcp_gateway.rs:149-161 | one pass over the table in any order marks, notifies and removes exactly the session's entries |
| Relay.Gateway.AcceptFrame | relay-server/src/mcp_gateway.rs:173-220 | the lock region: ownership by session, byte budget, error flag, removal at the end of a response |
| Relay.Gateway.ReceiveFrame | relay-server/src/mcp_gateway.rs:165-233 | a frame is charged, queued, or ends only its own response with the error flag set |
| Relay.Gateway.AdmitRequest | relay-server/src/mcp_gateway.rs:452-475 | admission up to 64 pending requests |
| Relay.Gateway.DropGuardOf | relay-server/src/mcp_gateway.rs:82-107 | dropping the guard removes the entry |
| Relay.Gateway.RevokeDesktop | relay-server/src/mcp_gateway.rs:125-133 | the route is taken out and its session ended: its entries gone, its readers told, the rest untouched |
| Relay.Gateway.InstallRoute | relay-server/src/mcp_gateway.rs:281-289 | a new route replaces the old one, whose session is ended |
| Relay.Gateway.DisconnectSession | relay-server/src/mcp_gateway.rs:354-361 | only the session's own route is cleared, and the session ended |
| DownloadSafety.NoSilentTruncation | relay-server/src/mcp_gateway.rs:518-530 | in every run, a response body that ends cleanly is exactly what the local bridge sent up to its end, and a closed channel without an error is never mistaken for an end |
| DownloadSafety.OnlyFaithfulPrefixes | relay-server/src/mcp_gateway.rs:221-233 | in every run, what a client has received so far is what was sent, in order, without gaps |
| DownloadSafety.SlotsAndBytes | relay-server/src/mcp_gateway.rs:173-220 | in every run, at most 64 entries, each guarded, owned by its admitting session and charged, within 128 MiB or 16 MiB, exactly the octets of the chunks accepted for it: taken, queued, in hand, or just found to have no room |
| DownloadSafety.PieceMeansItself | src-tauri/src/https_mcp_wss.rs:221-231 | a piece sent in either protocol version passes every guard of the relay and means that piece |
| DownloadSafety.NextKeepsInv | relay-server/src/mcp_gateway.rs:149-233 | every interleaved step of relay, reader and desktop keeps the lane invariant of every request |
| DownloadAnswers.AnswerIsTheLocalStatus | relay-server/src/mcp_gateway.rs:500-517 | in every run, the public client is answered with the local bridge's own status if it was given the head, and else with 413, 400, 502 or 504 according to what came instead; the local body is never read past the limit |
| DownloadAnswers.PacketsMeanThemselves | src-tauri/src/https_mcp_wss.rs:213-238 | head, end and error packets as the desktop writes them mean that head, end and error, for every status from 200 to 599 and no other |
| DownloadAnswers.PieceHasOneWire | relay-server/src/mcp_gateway.rs:181-211 | a frame means a piece exactly if it is what the desktop writes for that piece in that protocol version |
| DownloadAnswers.FewRepliesWait | relay-server/src/mcp_gateway.rs:452-452 | in every run at most 16 replies wait for a reader |
| DownloadProgress.UndisturbedResponseArrives | src-tauri/src/https_mcp_wss.rs:205-238 | for every status from 200 to 599, every body within the limit in whatever reads, and both versions, there is a run in which the client gets that status, exactly that body and its end |
| DownloadProgress.UploadFailureIsAnswered | relay-server/src/mcp_gateway.rs:502-510 | a public body that is too large or interrupted is answered 413 or 400 |
| DownloadProgress.LostSessionIsAnswered | relay-server/src/mcp_gateway.rs:149-161 | a request whose session is failed before the head is answered 502 |
| DownloadProgress.DesktopErrorIsAnswered | src-tauri/src/https_mcp_wss.rs:137-146 | an error the desktop sends on its own before the head is answered 502 |
| Lanes.StepKeepsGood | relay-server/src/mcp_gateway.rs:165-233 | each move of one request's frames, queue, flag and reader keeps the invariant behind faithful delivery |
| Lanes.CleanEndIsWhole | relay-server/src/mcp_gateway.rs:518-530 | a cleanly ended reader has taken everything its job sent, and the job had read its whole body |
| DesktopSession.OnlyThatUpload | src-tauri/src/https_mcp_wss.rs:118-150 | an upload frame that is too late or too much changes no other request |
| DesktopSession.WhatABodyFrameDoes | src-tauri/src/https_mcp_wss.rs:118-150 | a body frame is queued while fewer than 32 wait and the 64 MiB last; otherwise the job is aborted and reported, or, if it stopped reading, only its upload closed |
| DesktopSession.Session.OnRequest | src-tauri/src/https_mcp_wss.rs:309-333 | a request with a permit opens an upload and a job, one without is answered with an error |
| DesktopSession.Session.OnBinary | src-tauri/src/https_mcp_wss.rs:118-150 | a body frame is queued, ends the upload of a job that stopped reading, or aborts only its own job |
| DesktopSession.Session.OnRequestEnd | src-tauri/src/https_mcp_wss.rs:334-338 | the end closes the upload and nothing else |
| DesktopSession.Session.OnRequestCancel | src-tauri/src/https_mcp_wss.rs:339-344 | a cancel drops the upload and aborts the job |
| DesktopSession.Session.Leave | src-tauri/src/https_mcp_wss.rs:111-116 | leaving the session aborts every job before the uploads close |
| DesktopSession.Session.PollBody | src-tauri/src/https_mcp_wss.rs:183-187 | the body stream yields the next piece, or ends once the sender is gone, recording whether the job was aborted by then |
| UploadSafety.UploadFidelity | src-tauri/src/https_mcp_wss.rs:118-150 | in every run, a job not aborted when its request body ended received the whole public body in order, while the reader may poll on after an abort; overflow, over-limit, cancel and lost sessions abort first, and a running upload is charged exactly what it was given within 64 MiB |
| UploadSafety.NobodyIsLeftWaiting | src-tauri/src/https_mcp_wss.rs:137-146 | in every run, a request sent into a living session and not cancelled is on its way, has a running job, or has had an error packet handed out, at most one and never beside its job |
| UploadSafety.ReadWithinLimit | relay-server/src/mcp_gateway.rs:388-392 | in every run the relay reads at most 64 MiB of a public body |
| UploadSafety.OwnFramesNeverEndTheSession | src-tauri/src/https_mcp_wss.rs:352-356 | the relay's own body frames never trip the check that ends the session |
| UploadSafety.NextKeepsInv | relay-server/src/mcp_gateway.rs:379-401 | every interleaved step of uploader, link, session and job keeps the lane invariant |
| UploadProgress.UndisturbedUploadArrives | relay-server/src/mcp_gateway.rs:379-401 | for every body within the limit, in whatever reads, there is a run in which the job reads exactly that body to its end |
| UploadProgress.InterruptedUploadIsCancelled | src-tauri/src/https_mcp_wss.rs:339-344 | a halted upload's cancel aborts the job and closes its body without an error packet |
| Rotation.RouteIsCurrent | relay-server/src/mcp_gateway.rs:281-298 | in every interleaving of sockets and registrations, once no check and no revoke is outstanding, the route is empty or carries the registry's credential, which is the one handed out last |
| Rotation.OnlyLatestOpens | relay-server/src/registry_routes.rs:32-49 | in every run, after a registration a socket opens exactly with the credential handed out last |
| Rotation.StaleRouteIsRevoked | relay-server/src/mcp_gateway.rs:125-133 | a public request that read a route with a stale credential leaves no route, and a current one alone |
| Rotation.RecheckIsNeeded | relay-server/src/mcp_gateway.rs:284-298 | without the check after installing, a finished rotation can leave a stale route behind |
| TransportSafety.ExclusionExactly | src-tauri/src/connection_coordinator.rs:61-93 | the HTTPS supervisor and the tunnel are never alive together in any run, exactly when the machine did not start from the legacy state |
| TransportSafety.NeverBoth | src-tauri/src/https_mcp.rs:510-616 | exclusion over user commands, reconnects, failing writes, restarts and crashes after any effect |
| TransportSafety.EnabledMeansTunnelGoneExactly | src-tauri/src/connection_coordinator.rs:61-93 | in every run HTTPS enabled on disk means the tunnel is dead and not wanted, exactly when the machine did not start with HTTPS enabled and a tunnel alive |
| TransportSafety.EnabledMeansTunnelUnwanted | src-tauri/src/tunnel_runtime.rs:194-257 | for the wider set of starts that excludes only the legacy state: in every run HTTPS enabled on disk means the tunnel is not wanted, and is dead unless HTTPS carries a stop marker |
| TransportSafety.RunKeepsParted | src-tauri/src/https_mcp.rs:596-616 | HTTPS is enabled on disk only while the tunnel is dead, over user commands, reconnects, failing writes, crashes and restarts |
| TransportSafety.LegacyCollides | src-tauri/src/tunnel_status.rs:329-349 | from the legacy state a failed probe at startup brings both transports up |
| TransportSafety.EveryOperationPasses | src-tauri/src/connection_commands.rs:187-320 | every operation, on each of its failure branches, establishes the facts its later effects rely on before it needs them |
| TransportSafety.StartupLeavesReconnect | src-tauri/src/tunnel_runtime.rs:476-499 | startup running beside a background reconnect takes away nothing the reconnect relies on |
| TransportSafety.NextKeepsInv | src-tauri/src/https_mcp.rs:582-616 | every single effect, crash or outside event keeps the invariant |
| TransportStops.StopIsFinal | src-tauri/src/connection_coordinator.rs:95-123 | after a stop answered Ok nothing brings the transport back before the user starts it, over crashes and restarts |
| TransportStops.RestartHonoursStop | src-tauri/src/connection_intent.rs:45-57 | once a stop marker was written, even by a stop that failed afterwards, a restart does not resume the transport until a start reaches its removal |
| TransportStops.OthersAreSilent | src-tauri/src/tunnel_recovery.rs:64-76 | no operation but the transport's own start can take a path that wakes a stopped transport |
| TransportResults.ConnectOkMeansUp | src-tauri/src/connection_commands.rs:187-320 | for every state and every outcome of its effects, a connect that answers Ok has the daemon running, wanted and stored, unmarked, with HTTPS down, off and marked stopped |
| TransportResults.FailedConnectStartsNothing | src-tauri/src/connection_commands.rs:213-299 | a connect that fails, at whatever effect, leaves the tunnel wanted and HTTPS running or enabled only if they were, and the tunnel's stop marker in place |
| TransportResults.FailedCommitRollsBack | src-tauri/src/connection_commands.rs:235-299 | a commit that fails after the start cancels the intent and stops the daemon, which then runs only if that stop had no effect |
| TransportResults.FailedLaunchExactly | src-tauri/src/connection_commands.rs:213-299 | a failed connect leaves nothing wanted, and leaves a daemon running exactly in the listed cases of an effect that had another effect than it reported |
| TransportResults.FailedKeyRollsBack | src-tauri/src/connection_commands.rs:248-280 | a key that cannot be stored restores the stored intent first |
| TransportResults.StartHttpsOkMeansUp | src-tauri/src/https_mcp.rs:582-616 | a start of HTTPS that answers Ok has it running, enabled and unmarked, with the tunnel dead, unwanted, not stored and marked stopped |
| TransportResults.FailedStartHttpsStartsNothing | src-tauri/src/https_mcp.rs:596-616 | a start of HTTPS that fails, at whatever effect, brings nothing up and removes no marker |
| TransportResults.UndoStopsAndDisables | src-tauri/src/https_mcp.rs:607-614 | a marker that cannot be removed stops HTTPS and disables it again |
| TransportResults.PhoneOkMeansUp | src-tauri/src/monitor_control.rs:171-190 | the phone's reconnect that answers Ok has the daemon running, only if it was wanted and HTTPS off, and changes nothing else |
| TransportResults.AutoOkMeansUp | src-tauri/src/tunnel_runtime.rs:476-499 | so has the automatic one unless automatic reconnection was found switched off |
| TransportResults.NetworkOkMeansUp | src-tauri/src/network_commands.rs:509-600 | new network settings answered Ok leave a wanted tunnel whose proxy changed running, and any other alone |
| TransportResults.NetworkRollbackRestarts | src-tauri/src/network_commands.rs:441-480 | when they fail, a tunnel still wanted is started again with the old settings |
| TransportResults.RotationRestarts | src-tauri/src/https_mcp.rs:645-667 | after the revocation HTTPS is stopped and, if it should run, started again whether or not the new secret was written; Ok means all of it worked |
| TransportResults.RotationOkMeansResumed | src-tauri/src/https_mcp.rs:669-717 | a rotation that answers Ok has HTTPS running exactly if settings and marker asked for it |
| TransportResults.QuittingRefuses | src-tauri/src/connection_coordinator.rs:50-56 | while ChatX is quitting, starts and rotations fail at once and change nothing |
| TransportResults.MonitorGivesUp | src-tauri/src/tunnel_runtime.rs:318-345 | the reconnect monitor gives up the tunnel once it has read that HTTPS is enabled, and otherwise leaves the state alone |
| TransportResults.FailedStopsStillStop | src-tauri/src/connection_coordinator.rs:95-123 | a stop that could not do everything has still done what cannot fail |
| TransportResults.StopAllTriesEverything | src-tauri/src/connection_coordinator.rs:95-123 | the daemon and the settings are tried whatever failed before, and Ok needs both |
| TransportResults.StopTunnelTriesEverything | src-tauri/src/connection_commands.rs:156-171 | the same for a stop of the tunnel |
| TransportResults.ExitKeepsTheIntent | src-tauri/src/main.rs:772-785 | leaving stops both transports and keeps everything a restart resumes |
| TransportResults.StartupResumesWhatWasStored | src-tauri/src/tunnel_runtime.rs:152-282 | after a start of ChatX the tunnel is wanted exactly if the settings were read and intend it, HTTPS is off, the marker was found absent and a tunnel is configured; HTTPS runs only if enabled and unmarked, and exactly then if nothing fails, when an unwanted daemon is stopped too |
| TransportClaims.ReadBackwards | src-tauri/src/connection_coordinator.rs:34-48 | what the backward reading of an operation promises for an answer holds when that answer is given |
| TransportDesktop.FinishIsARun | src-tauri/src/connection_coordinator.rs:34-48 | an operation alone under the lock ends where the run of its effects ends |
| TransportDesktop.Desktop.ConnectTunnelCommand | src-tauri/src/connection_commands.rs:187-320 | the effects of connecting the tunnel, with each rollback branch, in the order the effect tree prescribes; Ok means connected, wanted and stored, with HTTPS out of the way |
| TransportDesktop.Desktop.CommitTunnel | src-tauri/src/connection_commands.rs:227-299 | settings, key and marker are committed in that order and undone in the source's way |
| TransportDesktop.Desktop.SwitchToTunnel | src-tauri/src/connection_coordinator.rs:82-93 | both markers precede the shutdown, which precedes the settings |
| TransportDesktop.Desktop.SwitchToHttps | src-tauri/src/connection_coordinator.rs:61-78 | both markers precede stopping the tunnel, which precedes the settings |
| TransportDesktop.Desktop.StartHttpsMcp | src-tauri/src/https_mcp.rs:582-616 | start, settings, marker removal last, with the two undo branches; Ok means running and stored, with the tunnel gone |
| TransportDesktop.Desktop.StartRuntimeConnection | src-tauri/src/tunnel_runtime.rs:83-151 | intent test, old runtime stopped, new one started, with the reconnect exceptions |
| TransportDesktop.Desktop.StopTunnelRequested | src-tauri/src/connection_commands.rs:156-171 | all three effects are attempted; Ok only if all succeeded |
| TransportDesktop.Desktop.StopHttpsRequested | src-tauri/src/https_mcp.rs:618-637 | all effects are attempted; Ok only if marker and settings were written |
| TransportDesktop.Desktop.StopAllConnections | src-tauri/src/connection_coordinator.rs:95-123 | all effects are attempted whatever fails; Ok only if all succeeded |
| TransportDesktop.Desktop.SetNetworkSettings | src-tauri/src/network_commands.rs:509-600 | a wanted tunnel is restarted with the new proxy, and again with the old one on failure; Ok means it runs |
| TransportDesktop.Desktop.RotateLoginPassword | src-tauri/src/https_mcp.rs:669-717 | revoke, stop, new secret, and the supervisor running again exactly if settings and marker said so |
| TransportDesktop.Desktop.ReconnectAutomatically | src-tauri/src/tunnel_runtime.rs:479-499 | the tests under the lock, then a reconnect that still requires the intent; Ok means connected, unless switched off |
| TransportDesktop.Desktop.ReconnectForPhone | src-tauri/src/monitor_control.rs:171-190 | the tests under the lock, then a restart that still requires the intent; Ok means connected |
| TransportDesktop.Desktop.StopOnExit | src-tauri/src/main.rs:772-785 | both transports are stopped and the stored intent is kept |
| TransportDesktop.Desktop.RestorePersistedState | src-tauri/src/tunnel_runtime.rs:152-282 | startup's migration, marker test, restored desire, clean-up and HTTPS restore |
| TransportDesktop.Desktop.RestoreHttpsMcp | src-tauri/src/https_mcp.rs:510-534 | HTTPS is resumed only if enabled, unmarked and no tunnel is seen |
| RegistryStore.CrashSafeExactly | relay-server/src/registry.rs:101-140 | a crash anywhere in a save leaves the old or the new registry for the next load, exactly when not on Windows, or the main file is present, or the file holds nothing |
| RegistryStore.SaveOutcome | relay-server/src/registry.rs:101-140 | a save that succeeds loads as the new registry and one that fails as the old one; the file stays safe to replace exactly when a tried restore succeeded |
| RegistryStore.TwoFailedRenamesThenACrash | relay-server/src/registry.rs:114-132 | replacing and restoring both fail, then a crash in the next save: every registration is lost |
| RegistryStore.NextKeepsSound | relay-server/src/registry.rs:72-99 | a save, or a crash inside one with the restart after it, leaves memory equal to the file: the new registry if the save took effect, the old one otherwise |
| RegistryStore.NothingIsForgotten | relay-server/src/registry.rs:72-140 | over any life of saves, crashes inside saves and restarts, memory and file hold what the last effective save wrote, or the first registry if none was effective, if the restoring renames succeed where they are tried |
| RegistryStore.SturdyAfterRecovery | relay-server/src/registry.rs:72-83 | wherever a save was cut short, the recovery rename leaves a file that the next save can replace safely |
| RegistryStore.RegistrationKeeps | relay-server/src/registry_routes.rs:32-49 | registering again keeps creation time and devices, other desktops, and unexpired invite records |
| RegistryStore.RegistrationStores | relay-server/src/registry_routes.rs:32-49 | a registration stores exactly the credential and name just given, with the creation time and no devices for a new desktop, and of the used invites exactly this one and the unexpired |
| RegistryStore.WithDevicesMeans | relay-server/src/registry_routes.rs:134-145 | replacing a desktop's devices touches nothing else of it, no other desktop and no invite |
| RegistryStore.LuckySaveIsClean | relay-server/src/registry.rs:101-140 | a save in which nothing fails leaves just the new registry |
| RegistryStore.RelayRegistry.Save | relay-server/src/registry.rs:101-140 | the disk goes through exactly the listed states |
| RegistryStore.RelayRegistry.SaveOnWindows | relay-server/src/registry.rs:114-133 | the backup dance, effect by effect |
| RegistryStore.RelayRegistry.RegisterDesktop | relay-server/src/registry_routes.rs:80-105 | memory equals the file afterwards; Done means that the new credential and name are in it and the invite was unused and now is not; a spent invite or a failed save changes neither registry nor invites |
| RegistryStore.RelayRegistry.AuthorizeDevice | relay-server/src/registry_routes.rs:127-145 | the device is added in memory and on disk, or in neither |
| RegistryStore.RelayRegistry.RevokeDevice | relay-server/src/registry_routes.rs:160-176 | the device is removed in memory and on disk, or in neither |
| RegistryStore.RelayRegistry.RevokeDeviceRecord | relay-server/src/main.rs:242-264 | an unknown device writes nothing; a known one is removed in both or in neither |
| Enrolment.ReuseExactlyWhenLate | relay-server/src/registry_routes.rs:85-104 | while the restoring renames succeed where they are tried, an invite can be accepted a second time at a moment exactly when that moment is not before its expiry |
| Enrolment.SecondUseIsLate | relay-server/src/registry_routes.rs:87-93 | in every such run, across restarts, failed saves, crashes inside saves and pruning, a second success of an invite commits at or after its expiry |
| Enrolment.PunctualIsSingleUse | relay-server/src/registry_routes.rs:18-30 | if registrations commit before their invites expire, each invite registers at most one desktop |
| Enrolment.OnlyValidInvitesRegister | relay-server/src/registry_routes.rs:18-30 | in every such run, each invite that registered a desktop was signed, unexpired and at most ten minutes from expiring when it was checked |
| Enrolment.LastCredentialIsStored | relay-server/src/registry_routes.rs:94-104 | in every such run, memory and file hold for each desktop the credential it was last given, over failed saves, crashes and restarts |
| Enrolment.FreshInviteRegisters | relay-server/src/registry_routes.rs:85-104 | a valid invite registers its desktop with the given credential |
| Enrolment.SavedKeepsInv | relay-server/src/registry_routes.rs:85-104 | a commit, or a crash inside it, leaves every spent invite recorded or expired |
| Enrolment.FailedSaveConsumesNothing | relay-server/src/registry_routes.rs:96-104 | a registration that could not be saved uses up neither the invite nor the old record, in memory or on disk |
| Enrolment.LostRecordsReopenInvites | relay-server/src/registry.rs:114-132 | on Windows, two failed renames and a crash in the next save lose the records, and an unexpired invite is accepted again |
| Revoke.DeletedOnlyAfterTheDesktop | relay-server/src/main.rs:312-371 | in every run the relay deletes a device on this path only after the desktop answered that very request with success and no longer lists it |
| Revoke.FinalizedIsGone | relay-server/src/device_session.rs:108-128 | a finalized device stays off the desktop's list |
| Revoke.AnsweredOnce | relay-server/src/main.rs:277-292 | no pending request is answered twice, whatever is repeated |
| Revoke.LateAnswersChangeNothing | relay-server/src/main.rs:347-352 | a timed out or refused request never deletes anything afterwards |
| Revoke.HandlesKeepsInv | src-tauri/src/relay.rs:740-762 | the desktop's answer of success implies that its own record is gone |
| Revoke.UndisturbedRevoke | relay-server/src/main.rs:312-371 | asked, handled and answered in time, a device is gone from both sides if the desktop could save, and from neither if it could not |
| Revoke.FewRequestsWait | relay-server/src/main.rs:331-337 | in every run at most 128 requests wait |
| Pairing.OneDevicePerGrant | src-tauri/src/monitor_manager.rs:43-78 | in every interleaving each grant enrols at most one device and is never claimable again afterwards |
| Pairing.AlwaysLinear | src-tauri/src/monitor_manager.rs:381-399 | a grant is in the slot, in one claimant's hands, used up or gone |
| Pairing.NextKeepsLinear | src-tauri/src/monitor_manager.rs:728-737 | create, look, claim, enrol and restore each keep grants in one place |
| Pairing.HandsChangeRightly | src-tauri/src/monitor_manager.rs:54-77 | only an unexpired grant with the right code is claimed, only an unexpired one is put back, and only into an empty slot |
| Pairing.WrongCodesSpendNothing | src-tauri/src/monitor_manager.rs:54-63 | any number of wrong codes, looks and foreign restores leave an unexpired grant in its slot |
| Pairing.RightCodeClaims | src-tauri/src/monitor_manager.rs:43-78 | the right code gets the grant exactly until its last moment, an expired one is cleared, and a failed enrolment puts it back until then |
| Pairing.NewGrantIsClaimable | src-tauri/src/monitor_manager.rs:728-737 | a new grant can be claimed at once whatever the slot held |
| Pairing.Monitor.CreateGrant | src-tauri/src/monitor_manager.rs:728-737 | a new grant replaces whatever the slot holds |
| Pairing.Monitor.Claim | src-tauri/src/monitor_manager.rs:43-63 | the claim's four outcomes and the slot after each |
| Pairing.Monitor.Restore | src-tauri/src/monitor_manager.rs:65-78 | an expired grant or an occupied slot changes nothing |
| Pairing.Monitor.Complete | src-tauri/src/monitor_manager.rs:280-344 | the device joins the list and the file, or neither, up to 32 devices |
| Pairing.Monitor.Pair | src-tauri/src/monitor_manager.rs:364-400 | a claimed grant is used up by an enrolment and put back by a failure |
| Pairing.Monitor.RevokeLocal | src-tauri/src/monitor_manager.rs:165-187 | an answer without error means the device is off the list and the file; a failed save restores the list |
| Pairing.WithoutMeans | src-tauri/src/monitor_manager.rs:175-179 | retaining keeps exactly the other devices, and the length changes exactly when the device was there |
| Control.RunsAgainExactlyWhenLate | src-tauri/src/monitor_control.rs:243-328 | an identical request can run its action a second time at a moment exactly when that moment is after its expiry |
| Control.RunsExactlyFromItsWindow | src-tauri/src/monitor_control.rs:83-100 | a request can run its action at a moment exactly when it lives at most a minute and was acceptable then or before, from 30 seconds ahead of its issue to its expiry |
| Control.OnlyWellFormedIdsRun | src-tauri/src/monitor_control.rs:85-90 | in every run, only ids of the right form run |
| Control.SecondExecutionIsLate | src-tauri/src/monitor_control.rs:271-328 | in every run, a request id runs its action again only after the first request with it expired |
| Control.RetriesAgree | src-tauri/src/monitor_control.rs:276-278 | all answers to one request are identical while its executions are within its lifetime |
| Control.EvictionSparesTheValid | src-tauri/src/monitor_control.rs:83-99 | eviction never drops an entry whose request would still be accepted at that moment |
| Control.HandleKeepsSpaced | src-tauri/src/monitor_control.rs:41-81 | one cache lock region keeps executions of an id apart by the expiry |
| Control.ControlCache.CachedResponse | src-tauri/src/monitor_control.rs:41-62 | expired entries go, a conflicting reuse is refused, an identical one gets the stored answer |
| Control.ControlCache.Handle | src-tauri/src/monitor_control.rs:243-329 | validation, then the cached answer, a conflict, or one new execution |
| LogScan.RuntimeControlPlaneEvents | src-tauri/src/tunnel_status.rs:146-179 | the backward collection yields the newest instance's events, newest first, and those without an id |
| LogScan.ControlPlaneObservation | src-tauri/src/tunnel_status.rs:194-253 | the scan with early exits gives the verdict of the automaton fed from the newest event inwards |
| LogScan.RuntimeLogObservation | src-tauri/src/tunnel_status.rs:255-262 | for every log the scan's verdict is that of the forward automaton over the newest instance's events |
| LogScan.FailuresSinceRecovery | src-tauri/src/tunnel_status.rs:201-234 | the reported failures are all failures since the last recovery; restarts do not reset them |
| LogScan.VerdictMeans | src-tauri/src/tunnel_status.rs:194-253 | the verdict in the log's own terms: suspect or, from the third failure since the last recovery, down, with the newest reason; healthy after a recovery; starting only from unknown; otherwise unchanged |
| LogScan.SplitAtRecovery | src-tauri/src/tunnel_status.rs:201-234 | every log has the form that verdict speaks of |
| LogScan.ForeignLinesDoNotMatter | src-tauri/src/tunnel_status.rs:146-179 | lines that are no control-plane events, or of an instance replaced since, change no verdict |
| LogScan.OwnLinesMatter | src-tauri/src/tunnel_status.rs:146-179 | every event of the newest instance, or without an id, counts in its place |
| Supervisor.Run | src-tauri/src/https_mcp.rs:318-427 | every published status has transport ready only with the bridge, and remote ready exactly with a connected transport and a probe passed after which nothing was launched or disconnected; without retries each is launched at most once; the last status is all down |
| Supervisor.KeepBridge | src-tauri/src/https_mcp.rs:319-343 | a bridge is launched exactly when none is alive and an attempt is allowed, and the launch voids readiness |
| Supervisor.KeepTransport | src-tauri/src/https_mcp.rs:346-391 | a transport is launched exactly beside none, for an answering bridge, when an attempt is allowed; a lost bridge takes it down and a lost transport voids readiness |
| Supervisor.Probe | src-tauri/src/https_mcp.rs:392-402 | a probe runs exactly when connected and due, and then alone decides public readiness |
| Supervisor.OnePass | src-tauri/src/https_mcp.rs:318-420 | one pass: exactly which of bridge, transport and probe it tries, at once after a launch and else every 15 seconds, the status it publishes, and what runs afterwards |
| Supervisor.ProvenByProbe | src-tauri/src/https_mcp.rs:403-412 | readiness rests on a passed probe after which nothing was launched, no probe failed and every status was connected |
| Supervisor.ProbeProves | src-tauri/src/https_mcp.rs:403-412 | such a probe is also sufficient |
| Alerts.AlertEngine.OnSnapshot | android-monitor/app/src/main/java/com/chatx/monitor/AlertEngine.kt:55-187 | the whole new memory and exactly the alerts that the notes of a snapshot prescribe |
| Alerts.AlertEngine.OnUnreachable | android-monitor/app/src/main/java/com/chatx/monitor/AlertEngine.kt:40-53 | the offline clock starts once and each reached threshold fires once |
| Alerts.AlertEngine.ResetForNewPairing | android-monitor/app/src/main/java/com/chatx/monitor/AlertEngine.kt:28-38 | nothing of the old desktop is remembered |
| Alerts.ThresholdEvents | android-monitor/app/src/main/java/com/chatx/monitor/AlertEngine.kt:189-211 | exactly the reached and unsent thresholds fire, in order, and become sent |
| Alerts.SnapshotIsLegal | android-monitor/app/src/main/java/com/chatx/monitor/AlertEngine.kt:55-187 | every alert of a snapshot is one the alert automaton allows at that point |
| Alerts.TunnelFits | android-monitor/app/src/main/java/com/chatx/monitor/AlertEngine.kt:75-108 | when tunnel alerts and recoveries are raised, and that a mode change forgets without alerting |
| Alerts.HttpsFits | android-monitor/app/src/main/java/com/chatx/monitor/AlertEngine.kt:109-131 | when HTTPS alerts and recoveries are raised and what is remembered of a bad run |
| AlertHistories.HistoryIsLegal | android-monitor/app/src/main/java/com/chatx/monitor/AlertEngine.kt:19-38 | every history of calls is legal for the alert automaton |
| AlertHistories.OfflineOncePerClear | android-monitor/app/src/main/java/com/chatx/monitor/AlertEngine.kt:41-53 | an offline threshold fires again only after a snapshot or a new pairing |
| AlertHistories.GapOncePerClear | android-monitor/app/src/main/java/com/chatx/monitor/AlertEngine.kt:143-163 | a gap threshold fires again only after the gaps were forgotten |
| AlertHistories.RecoveryFollowsAlert | android-monitor/app/src/main/java/com/chatx/monitor/AlertEngine.kt:63-74 | an offline recovery follows an offline alert of the same stretch |
| AlertHistories.TunnelDownNotRepeated | android-monitor/app/src/main/java/com/chatx/monitor/AlertEngine.kt:84-97 | between two tunnel-down alerts lies a recovery, a mode change or a new pairing |
| AlertHistories.TunnelRecoveryAnswersDown | android-monitor/app/src/main/java/com/chatx/monitor/AlertEngine.kt:98-108 | each tunnel recovery answers its own tunnel-down alert |
| AlertHistories.HttpsDownIsPatient | android-monitor/app/src/main/java/com/chatx/monitor/AlertEngine.kt:109-120 | HTTPS_DOWN comes at least 30 seconds after the first bad snapshot of the current unbroken run |
| AlertHistories.HttpsDownOncePerRun | android-monitor/app/src/main/java/com/chatx/monitor/AlertEngine.kt:113-131 | and once per unbroken run |
| AlertMeanings.TunnelAlertsMean | android-monitor/app/src/main/java/com/chatx/monitor/AlertEngine.kt:75-106 | a snapshot raises TUNNEL_DOWN exactly if it was not yet raised and a wanted tunnel is down or without a probe in the last 12 seconds, and its recovery exactly for an active, healthy, freshly probed one |
| AlertMeanings.HttpsAlertsMean | android-monitor/app/src/main/java/com/chatx/monitor/AlertEngine.kt:109-131 | HTTPS_DOWN exactly after 30 seconds of selected but unconnected HTTPS, once, and its recovery exactly when connected again |
| AlertMeanings.GapAlertsMean | android-monitor/app/src/main/java/com/chatx/monitor/AlertEngine.kt:132-163 | a gap threshold exactly when unsent and calls have been missing that long, by the desktop's word or since continuous use began or the last call finished |
| AlertMeanings.StallAlertsMean | android-monitor/app/src/main/java/com/chatx/monitor/AlertEngine.kt:165-185 | a stalled call once, and its recovery only when calls run |
| AlertMeanings.OfflineRecoveryMeans | android-monitor/app/src/main/java/com/chatx/monitor/AlertEngine.kt:63-74 | an offline recovery exactly if the outage had raised an alert |
| AlertMeanings.OfflineAlertsMean | android-monitor/app/src/main/java/com/chatx/monitor/AlertEngine.kt:40-53 | an unreachable desktop raises exactly the unsent thresholds the outage has reached |
| AlertMeanings.SnapshotLeaves | android-monitor/app/src/main/java/com/chatx/monitor/AlertEngine.kt:55-187 | what a snapshot leaves remembered of outages, tunnel, HTTPS and stalls |
| AlertMeanings.GapsLeft | android-monitor/app/src/main/java/com/chatx/monitor/AlertEngine.kt:143-163 | which gap thresholds count as sent afterwards |
| InviteCode.InviteRoundTrip | deploy/bt-plugin/chatx_relay/chatx_relay_main.py:28-47 | for every address the panel accepts, the code fits, reads back as the same address, expiry and nonce, and is accepted exactly from creation until expiry |
| InviteCode.AcceptedMeansSigned | relay-server/src/registry_routes.rs:18-30 | the relay takes only codes within 2048 characters whose third part is its own keyed hash of the second |
| InviteCode.HostsAgree | relay-protocol/src/registration.rs:36-42 | the panel's host pattern and the reader's host test accept the same hosts |
| InviteCode.PublicUrlIsReadable | deploy/bt-plugin/chatx_relay/chatx_relay_main.py:28-36 | an address the panel accepts passes the reader and prints without escapes |
| InviteCode.PublicUrlKeepsCleanAddresses | deploy/bt-plugin/chatx_relay/chatx_relay_main.py:28-36 | an https address with a proper host and nothing around it is returned unchanged |
| InviteCode.PublicUrlDropsTheRest | deploy/bt-plugin/chatx_relay/chatx_relay_main.py:29-29 | blanks around an address and slashes after it are dropped |
| InviteCode.PublicUrlDropsNothingElse | deploy/bt-plugin/chatx_relay/chatx_relay_main.py:29-29 | and nothing else is: what came in is the result with blanks around it and slashes after it |
| InviteCode.JsonRoundTrip | relay-protocol/src/registration.rs:34-35 | the printed body parses back to the invite |
| InviteCode.HexRoundTrip | relay-protocol/src/registration.rs:17-25 | decoding inverts the panel's hexadecimal text |
| InviteCode.PartsOfCode | relay-protocol/src/registration.rs:27-33 | a code splits into prefix, body and signature and survives trimming of blanks |

## Left out

- Scheduling inside tokio and hyper. The desktop's session runs on a single-threaded runtime (src-tauri/src/https_mcp_wss.rs:54-55), so handling one message, including the removal of an upload and the abort of its job, is one action.
- Outbound queues (32 frames on the desktop, 64 on the relay) are part of the ordered link; they can only delay a sender.
- Heartbeats, connection attempts, head and chunk timeouts: steps that may happen at any time.
- v1 request bodies travel inside the request packet; their guards are covered by `Base64.GuardsAreExact`, their transport is not modelled.
- Response heads carry no headers, and header, path and host allowlists are not modelled.
- The counters of permits on the desktop: whether a permit is free is an input of each request.
- Cryptography: hashes, HMAC, key derivation and encryption are abstract. A signed invite is one the panel issued, with its expiry; a keyed hash is any function giving 64 hexadecimal digits.
- Random ids (requests, sessions, grants, devices, invites) are distinct.
- Mutex poisoning, failing random generators and saturation of 32 and 64 bit counters.
- JSON in general: messages arrive parsed; the invite body is read in the one shape the panel prints.
- Blank characters beyond space, tab, line feed and carriage return in `Trim`.
- TransportDesktop.Desktop keeps the fields of the desktop's state in one record field, so aliasing between settings file, marker files and process memory is not modelled.
- A settings write that reports failure has left the file unchanged; the temporary file and its rename are one effect (`write_settings_file`). Registry files are modelled effect by effect.
- What an operation's answer means (module `TransportResults`) is about the moment it is given, for an operation whose effects nothing else interrupts; crashes, a dying daemon and startup beside it are in `TransportSafety` and `TransportStops`.
- Reconnect pacing (`reconnect_delay_secs`, failure thresholds, recovery status texts): a background reconnect may come at any time.
- The reconnect monitor's tests before it takes the lock, which only skip reconnects.
- The two request tables of `main.rs` (revocations and controls) are sets in a state machine, not objects; `complete_control` has the same shape as `complete_revoke`.
- A relay delete that the desktop itself orders (`revoke_device` over HTTP) is `RegistryStore.RelayRegistry.RevokeDevice`; the acknowledged path in `Revoke` does not include it.
- Windows replacement of the desktop's own device list file (`save_monitor_devices`): a save succeeds or fails as a whole.
- A control response that fails to be encrypted after its action ran is not cached; encryption succeeds here. The cache key joins device and request id by a bar; here it is the pair.
- RegistryStore.NothingIsForgotten: assumes that the renames which put a registry back succeed where they are tried; `RegistryStore.TwoFailedRenamesThenACrash` shows why.
- Enrolment.SecondUseIsLate: makes the same assumption, as do the other results of `Enrolment` over runs; `Enrolment.LostRecordsReopenInvites` shows why.
- Snapshot caching and device presence on the relay, where the two tables are updated under separate locks and no agreement is promised.
- Desktop pages, Android activities, notifications, log texts and error wording.
- Process spawning, Windows job objects, key stores, proxies, SSH deployment: effects that succeed or fail.
