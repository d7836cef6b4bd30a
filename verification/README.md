# Verified model of the plugin supervisor

The repository supervises plugin processes over RPC. A *manager* launches one plugin, authenticates it with a
one-time token, publishes it as a numbered *generation*, forwards heartbeats and calls to it, and stops, restarts or
closes it. A *host* holds one manager per plugin id. An *event log* with numbered backups records what happened, and
*provider* observations and bundle metadata pass through validators on their way in and redactors on their way out.

This project models those parts in Dafny and proves what they promise, over every input and every interleaving.

| file | contents |
|---|---|
| `ManagerCore.dfy` | the fields of a manager and its sections under the `mu` lock, as functions and as methods of a class |
| `PluginServer.dfy` | the plugin's side of the handshake: one token, accepted once |
| `Supervisor.dfy` | the step machine: one lifecycle operation, any number of calls in flight, the monitor, processes, files |
| `SupervisorInvariant.dfy` | the inductive invariant, and that each of the 35 kinds of step keeps it |
| `SupervisorTheorems.dfy` | safety theorems over all reachable states and all continuations of a run |
| `SupervisorCalls.dfy` | what a call captures, what its reply is worth, and what a broken connection leads to |
| `SupervisorMonitor.dfy` | the monitor loop: when it restarts the plugin and when it ends |
| `SupervisorAttempts.dfy` | what was answered to an attempt that published, and that any other attempt fails |
| `SupervisorOperations.dfy` | what an operation has done when it returns, under any interleaving and alone |
| `SupervisorScenarios.dfy` | runs that exist: the normal one, and counterexamples to stronger wordings |
| `EventLog.dfy`, `EventLogRetention.dfy` | the rotating log as a refinement of an append-only sequence; retention and size |
| `EventLogSteps.dfy` | the log as a chain of single changes, and a reader that runs between them |
| `LogReader.dfy` | reading the log back |
| `TornRecords.dfy` | records cut short by an error: exactly when the log can still be read |
| `ProviderText.dfy`, `ProviderEvents.dfy` | unsafe text, the detail validator, the redactor |
| `StringOrder.dfy`, `Host.dfy` | the multi-plugin host |
| `BundlePaths.dfy`, `BundleLoader.dfy` | containment of paths, and the bundle loader against the independent validator |

Everything is checked by `dafny verify dfyconfig.toml`.

## How the supervisor is modelled

A step of the machine is one section under `mu`, one effect on the outside world, or one move of another party. The
holder of `lifecycleMu` is one program counter (`Lifecycle`). A call in flight is an entry of an unbounded map that holds
what it captured. Connections are fresh identities. Everything outside the program (a reply, a timeout, a broken
transport, a failed launch, a failed removal, an exit of the process) is a parameter of the step, so that the theorems
hold for every outcome. History fields (`published`, `poisoned`, `launched`,
`unreaped`, `residue`, `results`, `hit`) are written by steps and decide nothing but each other, except that a connection
or a process id is not handed out twice. Branches that should be dead are
part of the model and leave a mark in `hit` when they are taken; `DeadBranches` says that no run leaves a mark.

## Where the code and its prose differ

The model follows the code.

- The documentation calls a plugin healthy after a heartbeat. `Healthy` is set when the generation is published, after
  Capabilities and without a heartbeat (`src/internal/kernel/manager.go:467-478`).
- Epoch 0 is both the first epoch and the value that switches the epoch check off
  (`src/internal/kernel/manager.go:848-869`). Replies to calls of the first generation are therefore still accepted after a
  kill. `FirstGenerationAcceptsAfterKill` gives the run, `ReplyFenceExactly` the exact condition.
- A failed start gives its generation number back (`src/internal/kernel/manager.go:1199-1208`).
- A stop keeps `Capabilities` (`src/internal/kernel/manager.go:907-919`).
- If the process cannot be launched at all, the token file stays behind (`src/internal/kernel/manager.go:281-295`);
  `LaunchFailureLeavesToken` gives a run, `LaunchFailureAlwaysLeavesToken` says that it happens in every state in which
  a launch can fail, and `QuietFilesExactly` that nothing else within the supervisor's control leaves a file.
- The marker `authority-use-ref` can never match, because dashes are replaced before the search; `DeadMarker`. The
  spelling with underscores does the work.
- A private path is recognised only at the start of a text, so "unsafe in any context" is a property of the markers
  and not of paths. `PathHiddenByContext` gives a text, `PathInContextExactly` the exact condition.
- A `null` generation in a manifest reads as 0 and so contradicts every request, while a missing one does not;
  `NullGenerationContradicts`.
- Backups above `maxBackups` that an earlier, larger setting left behind are still read; `ReaderSeesAllIff` says that
  this is the only way in which reader and logger disagree when `maxBackups` is at most 5.
- A record cut short by an error is not repaired, and the next record lands on the same line, so that reading fails
  until rotation drops the file; `TornThenWriteFails`. A record that lost only its newline is still read as long as it is
  the last of its file; `UnendedReadsBack`. `ReadBackExactly` is the exact condition.
- The validator refuses values of types it does not know, such as a duration or a list of integers, but the JSON in the
  file turns them into types it knows. An event written past the validator is therefore redacted as it stands and shown
  once it was read back; `UnknownTypeIsShownAfterReadBack`. `ReadBackIsShownAlike` is the exact condition.
- A reader takes no lock, so a rotation can carry a file past it; `ReaderWhileRotating` says when and what is missed.
- `NewHost` closes the managers it has built if one cannot be built, but not if a later entry has a bad or repeated id
  or no path (`src/internal/kernel/host.go:107-136`).

## Model

| member | source | states |
|---|---|---|
| `SupervisorInvariant.NextKeeps` | src/internal/kernel/manager.go:174-1208 | every enabled step, of whatever party and with whatever outcome, keeps the invariant that ties the manager's fields, the lifecycle operation, calls in flight, processes, servers, files, Close and the monitor together |
| `SupervisorInvariant.ReachableInv` | src/internal/kernel/manager.go:174-1208 | the invariant holds in every state of every run |
| `SupervisorTheorems.HeartbeatFenceIsIdentity` | src/internal/kernel/manager.go:506-545 | in every reachable state the four-way test of a heartbeat holds if and only if the client it captured is still installed |
| `SupervisorTheorems.HeartbeatCommitsExactly` | src/internal/kernel/manager.go:538-545 | a heartbeat is believed if and only if its client is still installed when it commits; then it writes `Healthy` and nothing else, otherwise it ends as stale and changes no field of the manager |
| `SupervisorTheorems.ReplyFenceExactly` | src/internal/kernel/manager.go:807-869 | a data-plane reply passes the fence if and only if its client is installed, or it was captured under epoch 0 and generation 1 is still current; epoch 0 forces generation 1 |
| `SupervisorTheorems.SecondGenerationClosesTheGap` | src/internal/kernel/manager.go:807-869 | once a second generation has been published, a reply passes if and only if its client is installed |
| `SupervisorTheorems.DeadBranches` | src/internal/kernel/manager.go:848-869 | no run finds a handshake or shutdown reply stale, skips a cleanup as not owned, misses the generation in a rollback, removes files under an attached client or process, or finds the manager open after Close has stopped it |
| `SupervisorTheorems.PoisonedForever` | src/internal/kernel/manager.go:1061-1086 | in every continuation of a run a poisoned client is not installed and no later call has captured it |
| `SupervisorCalls.BrokenCallPoisons` | src/internal/kernel/manager.go:807-899 | a call that meets a timeout or a transport error can, in every continuation, go on only by poisoning its client; once it is done, it has failed, its client is poisoned and is not installed |
| `SupervisorCalls.ReplyJudgedExactly` | src/internal/kernel/manager.go:807-869 | a reply is believed if and only if its client is still installed, or it was captured under epoch 0 and generation 1 is current; a believed heartbeat goes on to write its health, any other believed call is done, an unbelieved one is stale, and a refusal by the plugin fails the call and changes nothing else |
| `SupervisorCalls.CaptureExactly` | src/internal/kernel/manager.go:506-632 | a call captures the installed client, generation and epoch, and fails at once if there is no client or the manager is closed |
| `SupervisorTheorems.OldPoisonIsHarmless` | src/internal/kernel/manager.go:1061-1086 | poisoning by a call of another generation leaves the manager as it is |
| `SupervisorTheorems.GenerationsHaveNoGaps` | src/internal/kernel/manager.go:201-219 | published generations are 1, 2, 3, ...; their count is that of the operations that returned a successful start, with the one that is about to return; the current number is that count, plus one exactly while an attempt is under way |
| `SupervisorTheorems.FailedStartRestores` | src/internal/kernel/manager.go:1199-1208 | the rollback of a failed start leaves a stopped manager with the number of the last published generation |
| `SupervisorTheorems.ServersAreDisciplined` | src/pkg/plugin/plugin.go:218-249 | in every reachable state of supervisor and servers together, each server has accepted at most one token, its own, and no gated method has reached the plugin before |
| `SupervisorTheorems.PublishedWasAuthenticated` | src/internal/kernel/manager.go:297-478 | for every published generation, exactly one Auth request was ever accepted by its server, and that one was the supervisor's with the token of that attempt |
| `SupervisorAttempts.PublishedAsAnswered` | src/internal/kernel/manager.go:219-478 | for every run and every generation it published: the run wrote its token, launched its process, dialed that very process and verified it, and both answers of the plugin named this plugin and this generation, the second with exactly the published capabilities and no error among them |
| `SupervisorAttempts.AttemptGoesOnExactly` | src/internal/kernel/manager.go:219-478 | at each stage an attempt goes on with exactly the right outcome, and is lost with any other |
| `SupervisorAttempts.LostAttemptFails` | src/internal/kernel/manager.go:1022-1046 | over every continuation a lost attempt publishes nothing and its operation returns as a failed start |
| `SupervisorTheorems.SnapshotIsConsistent` | src/internal/kernel/manager.go:467-478 | healthy implies client, process, PID, socket path and not closed; PID and process agree; a client implies a process; capabilities are those published under the current generation, under the configured id |
| `SupervisorTheorems.ProjectionExactly` | src/internal/kernel/manager.go:747-764 | metadata is projected if and only if the refresh entry or the fixed entry describes the plugin and generation of the state, and the refresh entry goes first |
| `SupervisorTheorems.ProjectedMetadataIsCurrent` | src/internal/kernel/manager.go:747-764 | projected metadata carries the signed 64-bit form of the current generation's number, which is the number itself below 2^63, and the configured plugin id; before the first start, when the state has no id, it has none either |
| `SupervisorTheorems.ClosedForever` | src/internal/kernel/manager.go:174-192 | after the close, over every continuation: no client, no process, no field changes, nothing is published, every operation that ends ends with an error, except Close, every call begun since fails, and no heartbeat is accepted any more |
| `SupervisorTheorems.CloseReportsOneError` | src/internal/kernel/manager.go:174-192 | all calls of Close report the same error |
| `SupervisorMonitor.MonitorWindsDown` | src/internal/kernel/monitor.go:12-50 | after the close is announced the monitor begins at most one restart and queues no other; its next failed poll ends it |
| `SupervisorMonitor.MonitorPollsOnceMore` | src/internal/kernel/monitor.go:12-50 | over every continuation after the close is announced the monitor polls at most once more |
| `SupervisorMonitor.MonitorRestartsExactly` | src/internal/kernel/monitor.go:16-48 | over every run from one poll to the moment the monitor is ready for the next: the poll is done, and exactly one restart of the monitor's has returned if the poll was not accepted, and none if it was |
| `SupervisorMonitor.MonitorEndsOnlyIf` | src/internal/kernel/monitor.go:16-26 | over every run the monitor ends only if it was cancelled or the close was announced |
| `SupervisorMonitor.MonitorGoesOn` | src/internal/kernel/monitor.go:20-36 | a failed poll of an open manager queues a restart, and a queued restart begins as soon as the lifecycle lock is free |
| `SupervisorTheorems.AtMostOneProcess` | src/internal/kernel/manager.go:901-1032 | in every reachable state, every live process is the manager's, the one being started, the one being stopped, or one whose wait or kill failed; apart from the last kind there is at most one |
| `SupervisorTheorems.QuietFilesExactly` | src/internal/kernel/manager.go:1131-1188 | with nothing running, starting or being cleaned up, and no files from before, failed removals, failed writes, failed waits or stray processes: no socket, and a token file if and only if a launch failed and its token was not removed since; such a token is there in any case |
| `SupervisorTheorems.LaunchFailureAlwaysLeavesToken` | src/internal/kernel/manager.go:281-295 | from every reachable state with a token written, a failing launch ends the start with an error and leaves exactly that token |
| `SupervisorTheorems.CleanupClearsResidue` | src/internal/kernel/manager.go:1131-1188 | a cleanup finds no client and no process attached, and if both removals work, also what earlier failures left is gone |
| `SupervisorInvariant.CleanupAlwaysOwns` | src/internal/kernel/manager.go:1190-1197 | every cleanup after a stop or a failed start passes the ownership test |
| `SupervisorScenarios.RunningIsReachable` | src/internal/kernel/manager.go:201-478 | a run exists that publishes generation 1 healthy, for every valid configuration |
| `SupervisorScenarios.FirstGenerationAcceptsAfterKill` | src/internal/kernel/manager.go:848-869 | a reachable state with the client detached in which an Echo of generation 1 is still accepted |
| `SupervisorScenarios.TwoProcessesAfterFailedWait` | src/internal/kernel/manager.go:974-993 | a reachable state with two live processes, one of them from a wait that failed |
| `SupervisorScenarios.LaunchFailureLeavesToken` | src/internal/kernel/manager.go:281-295 | a run whose only start fails at launch and leaves the token file |
| `SupervisorScenarios.OneMoreStep` | src/internal/kernel/manager.go:174-1208 | reachable states are closed under enabled steps |
| `SupervisorOperations.OperationsEndAsPromised` | src/internal/kernel/manager.go:174-703 | whatever calls, monitor and processes do in between, up to the return: when a start or restart returns success, the process of the latest published generation is attached with its capabilities, over its own connection, or over none and unhealthy if a call has poisoned that connection since it was published; a start refused as already started leaves the manager unchanged; every other return of Start, Restart, Kill or Close leaves no client, no process and unhealthy |
| `SupervisorOperations.UninterruptedOperation` | src/internal/kernel/manager.go:174-703 | a Start, Kill, Restart or Close of the step machine that runs to its end while calls and monitor keep still leaves exactly the state of `StartAlone`, `KillAlone`, `RestartAlone` and `CloseAlone` for the outcomes of its own steps, and returns exactly the error these outcomes call for |
| `SupervisorOperations.ReservationExactly` | src/internal/kernel/manager.go:201-219 | the manager after a reservation, field by field |
| `SupervisorOperations.StaleFilesGo` | src/internal/kernel/manager.go:221-222 | what lies around from earlier is removed before a token is made, as far as the system lets it go |
| `SupervisorOperations.PublicationExactly` | src/internal/kernel/manager.go:467-478 | the manager after publishing, field by field, and the record of the publication |
| `SupervisorOperations.DetachmentExactly` | src/internal/kernel/manager.go:901-920 | the manager after the first section of a stop, field by field; the client, if any, is asked to shut down before the process, if any, is waited for |
| `SupervisorOperations.ShutdownLeadsToWait` | src/internal/kernel/manager.go:935-975 | whatever the answer to the shutdown call, the process is waited for next, and only a broken call poisons |
| `ManagerCore.Int64` | src/internal/kernel/manager.go:747-764 | the conversion of a generation to a signed 64-bit number: in range, and equal modulo 2^64 |
| `ManagerCore.Manager.ReserveGeneration` | src/internal/kernel/manager.go:201-219 | refuses a closed or started manager unchanged; otherwise claims the next number and clears the rest of the state |
| `ManagerCore.Manager.Publish` | src/internal/kernel/manager.go:467-478 | the new state of the publishing section |
| `ManagerCore.Manager.RollbackGeneration` | src/internal/kernel/manager.go:1199-1208 | the new state of a rollback, which acts only on its own generation and wraps around below 0 |
| `ManagerCore.Manager.StopSection` | src/internal/kernel/manager.go:901-920 | a closed manager is left alone; otherwise client and process are handed out and the epoch advances |
| `ManagerCore.Manager.PoisonClient` | src/internal/kernel/manager.go:1061-1086 | only the installed client is detached |
| `ManagerCore.Manager.HeartbeatSection` | src/internal/kernel/manager.go:538-545 | `healthy` is written if and only if the four-way test holds |
| `ManagerCore.Manager.CloseSection` | src/internal/kernel/manager.go:178-186 | closes a manager that is still open, once |
| `ManagerCore.Manager.Start` | src/internal/kernel/manager.go:195-478 | a start that nobody interrupts: refused, rolled back or published |
| `ManagerCore.Manager.Kill` | src/internal/kernel/manager.go:699-703 | a kill that nobody interrupts; failing to reap the process decides the result and not the state |
| `ManagerCore.Manager.Restart` | src/internal/kernel/manager.go:633-696 | a restart that nobody interrupts: no start after a stop that reported an error |
| `ManagerCore.Manager.Close` | src/internal/kernel/manager.go:174-192 | a first close: stopped, closed, and the epoch advanced |
| `PluginServer.AuthKeepsDiscipline` | src/pkg/plugin/plugin.go:218-249 | Auth succeeds if and only if hook and token agree and no Auth succeeded before, is recorded as what it was, and keeps the server's discipline over its whole log |
| `PluginServer.GateKeepsDiscipline` | src/pkg/plugin/plugin.go:333-345 | a gated request reaches the plugin if and only if an Auth was accepted before, is recorded as what it was, and keeps the discipline |
| `PluginServer.PluginService.Auth` | src/pkg/plugin/plugin.go:218-249 | the method in place; at most one success over the life of the object |
| `PluginServer.PluginService.Gated` | src/pkg/plugin/plugin.go:333-345 | the plugin is reached if and only if an Auth was accepted before |
| `EventLog.AlwaysASuffix` | src/internal/eventlog/eventlog.go:154-243 | for every run of writes with errors anywhere, in every state the disk passes through, reading backups oldest first and then the current file yields a suffix, in order, of all that was appended until then |
| `EventLog.WrittenGood` | src/internal/eventlog/eventlog.go:154-181 | one write, whatever fails in it, keeps that property for all states so far |
| `EventLogRetention.WriteSucceedsExactly` | src/internal/eventlog/eventlog.go:154-243 | a write reports success if and only if every call it needs succeeds, with a rotation only if there is no room; then the record is the last of the current file and of the history; a write that finds room moves no file |
| `EventLog.ShiftFromGood` | src/internal/eventlog/eventlog.go:197-209 | the descending loop keeps it at every rename, because the place above is always free or the last |
| `EventLog.SettingsFor` | src/internal/eventlog/eventlog.go:126-138 | positive options are taken and the others replaced by the defaults, 8 MiB and 5 backups; the settings are always positive |
| `EventLogRetention.ReaderSeesAllIff` | src/internal/eventlog/read.go:168-183 | for `maxBackups` at most 5: at every moment the reader finds exactly what the logger retains, if and only if the disk held nothing above `maxBackups` when the log was opened |
| `EventLogRetention.ReaderAlwaysSeesSuffix` | src/internal/eventlog/read.go:168-183 | for every `maxBackups` and every disk, at every moment, the reader finds the leftovers in places the logger does not use, followed by a suffix of the history |
| `EventLogRetention.CleanRotation` | src/internal/eventlog/eventlog.go:183-243 | a rotation without errors moves every file up one place and starts a file with the rotation record and the new record |
| `EventLogRetention.RetentionExactly` | src/internal/eventlog/eventlog.go:197-214 | after k rotations without errors the reader finds what stood k places lower, then everything since; a file's records survive exactly `maxBackups` rotations |
| `EventLogRetention.FilesStayBounded` | src/internal/eventlog/eventlog.go:154-243 | with errors anywhere, at no moment of a run does a file outgrow the maximum of `maxBytes` and rotation record plus largest record |
| `EventLogRetention.RetainedSizeBounded` | src/internal/eventlog/eventlog.go:154-243 | at every moment the retained log takes at most `maxBackups` + 1 times that bound |
| `EventLogSteps.RunChained` | src/internal/eventlog/eventlog.go:154-243 | every run is a chain of single removals, renames, creations and appends, each rename into a free place or the last |
| `EventLogSteps.StartMoves` | src/internal/eventlog/eventlog.go:197-214 | the border in the history between what stands above a place and what stands at or below it moves only forward, and exactly by a rename across it |
| `EventLogSteps.ReaderWhileRotating` | src/internal/eventlog/read.go:39-59 | a reader of five backups and the current file whose listing and opens are spread over a run with errors anywhere fails if and only if a listed file is gone at its open; otherwise it gets the leftovers above `maxBackups` that it listed, then records of the history in order and none twice; the number it misses is exact, and is zero, giving a suffix without a gap, if and only if each place it did not list was empty at its turn and no file was renamed past it |
| `EventLogRetention.Logger.constructor` | src/internal/eventlog/eventlog.go:126-138 | opening takes the disk as it is for its history |
| `EventLogRetention.Logger.ShiftBackups` | src/internal/eventlog/eventlog.go:197-209 | the loop in place computes the recursive specification |
| `EventLogRetention.Logger.RotateIfNeeded` | src/internal/eventlog/eventlog.go:183-243 | rotation in place, with every error path |
| `EventLogRetention.Logger.Write` | src/internal/eventlog/eventlog.go:154-181 | a write in place; the suffix property is an invariant of the object |
| `LogReader.ReadLine` | src/internal/eventlog/read.go:143-152 | finds the end of the next line |
| `LogReader.ReadOne` | src/internal/eventlog/read.go:133-166 | returns the matching records of a file in order, or fails exactly if a line does not decode |
| `LogReader.ReadAll` | src/internal/eventlog/read.go:39-59 | no file, a bad line, or the matching records of all files, oldest file first: all of them if there is no limit, else that many, from the oldest on or from the newest back |
| `LogReader.Reverse` | src/internal/eventlog/read.go:219-223 | the array reversed in place |
| `LogReader.RecordsOfChunks` | src/internal/eventlog/read.go:133-166 | round trip: the bytes of written records read back as these records, in order |
| `LogReader.FilterConcat` | src/internal/eventlog/read.go:39-59 | filtering file by file is filtering the concatenation |
| `LogReader.FilterExactly` | src/internal/eventlog/read.go:157-160 | the filter keeps every matching record as often as it occurs, and no other |
| `LogReader.FilesOfRetained` | src/internal/eventlog/read.go:39-59 | reading file by file is filtering the retained records |
| `LogReader.ReadBackAnyMoment` | src/internal/eventlog/read.go:39-59 | end to end: at any moment of any run, if the records still on the disk are whole, the reader returns exactly the matching ones, in order; they are leftovers followed by the last records written |
| `LogReader.AnswerAnyMoment` | src/internal/eventlog/read.go:39-59 | what `ReadAll` answers at any moment of any run, if the records on the disk are whole: the selection of the matching ones |
| `TornRecords.FileReadsExactly` | src/internal/eventlog/read.go:133-166 | a file of whole and torn records reads if and only if every record is whole, or is the last and lacks only its newline; then it gives exactly these records |
| `TornRecords.LogReadsExactly` | src/internal/eventlog/read.go:39-59 | the same for all files of the log, with the filter |
| `TornRecords.ReadBackExactly` | src/internal/eventlog/read.go:39-59 | end to end with torn records: at any moment of any run of writes with any errors, reading succeeds under exactly that condition and returns the matching records on the disk, and otherwise fails with a bad line |
| `TornRecords.AnswerExactly` | src/internal/eventlog/read.go:39-59 | what `ReadAll` answers at any moment of any run with torn records anywhere: the selection, or a bad line, under exactly that condition |
| `TornRecords.TornThenWriteFails` | src/internal/eventlog/eventlog.go:174-176 | a record cut short at any byte and then a whole record make the file unreadable |
| `TornRecords.UnendedReadsBack` | src/internal/eventlog/read.go:143-163 | a last record that lost exactly its newline is read back |
| `LogReader.NewestFirst` | src/internal/eventlog/read.go:52-57 | without a limit and oldest first all matching records are returned; newest first with limit k gives the last k of them, the last one first |
| `LogReader.SelectedOnce` | src/internal/eventlog/read.go:52-57 | the order and limit asked for leave exactly one possible answer |
| `LogReader.Summarize` | src/internal/eventlog/read.go:62-75 | each breakdown counts every key exactly, has no other keys, and adds up to the total |
| `LogReader.TotalBumped` | src/internal/eventlog/read.go:69-73 | one increment raises the sum of a breakdown by one |
| `ProviderText.UnsafeProviderText` | src/internal/eventlog/provider.go:286-294 | the scan finds a marker if and only if one occurs in the normalised text |
| `ProviderText.UnsafeByRoots` | src/internal/eventlog/provider.go:57-94 | of the 36 markers 23 matter: a text is unsafe if and only if one of these stands in it, up to spelling |
| `ProviderText.PrivatePaths` | src/internal/eventlog/provider.go:296-305 | paths of both kinds of system that are recognised, and texts that only resemble them |
| `ProviderText.UnsafeInContext` | src/internal/eventlog/provider.go:282-294 | unsafe text stays unsafe inside any other text |
| `ProviderText.PathHiddenByContext` | src/internal/eventlog/provider.go:296-305 | a private path that is not recognised behind other text |
| `ProviderText.PathInContextExactly` | src/internal/eventlog/provider.go:296-305 | a private path inside another text is recognised if and only if only blanks stand before it, or what stands before it begins like a path |
| `ProviderText.SpellingDoesNotMatter` | src/internal/eventlog/provider.go:282-294 | other separators or another case make no difference |
| `ProviderText.DeadMarker` | src/internal/eventlog/provider.go:83-84 | the marker written with dashes occurs in no normalised text |
| `ProviderText.BlankIsSafe` | src/internal/eventlog/provider.go:195-206 | blank text, which the writer does not look at, is never redacted |
| `ProviderText.RedactedIsSafe` | src/internal/eventlog/provider.go:37-37 | the replacement text is itself safe |
| `ProviderEvents.SafeTreeExactly` | src/internal/eventlog/provider.go:234-280 | the recursive validator accepts a tree if and only if no path in it leads to an unsafe key, an unsafe text or an unsupported value |
| `ProviderEvents.SafeProviderDetails` | src/internal/eventlog/provider.go:234-249 | the copying loop, in any key order, succeeds if and only if all fields are safe, and then copies all |
| `ProviderEvents.ValidateDetailValue` | src/internal/eventlog/provider.go:251-280 | the recursive method decides the validator's predicate |
| `ProviderEvents.RedactionExactly` | src/internal/eventlog/read.go:226-256 | what is displayed of a provider event is safe throughout, and unchanged if and only if it was safe |
| `ProviderEvents.RedactionFieldByField` | src/internal/eventlog/read.go:226-256 | what is displayed of any event: of a provider event each of nine texts is shown or replaced by itself and the details as a whole, and everything else and every other event is shown as it is |
| `ProviderEvents.ProviderEventsExactly` | src/internal/eventlog/read.go:258-268 | which events are provider events, by component or by name |
| `ProviderEvents.EventFixesStatus` | src/internal/eventlog/provider.go:208-232 | an admitted event name fixes its component and, unless it is a report, its status |
| `ProviderEvents.AdmittedIsWrittenWhole` | src/internal/eventlog/provider.go:115-143 | an admitted observation is written whole, with level info if it names none |
| `ProviderEvents.RedactionIdempotent` | src/internal/eventlog/read.go:226-256 | redacting twice is redacting once, for all events |
| `ProviderEvents.WriterAndReaderAgree` | src/internal/eventlog/provider.go:115-143 | what the writer admits is displayed unchanged |
| `ProviderEvents.WriterRuleIsReaderRule` | src/internal/eventlog/provider.go:115-206 | the writer admits an observation if and only if it is well formed and its event would be displayed unchanged |
| `ProviderEvents.AsReadExactly` | src/internal/eventlog/provider.go:251-280 | a detail tree is accepted if and only if no value of unknown type stands in it and it is accepted after it was written as JSON and read back |
| `ProviderEvents.ReadBackIsShownAlike` | src/internal/eventlog/read.go:226-256 | an event is displayed unchanged if and only if no value of unknown type stands in its details and it is displayed unchanged as read back from the file |
| `ProviderEvents.UnknownTypeIsShownAfterReadBack` | src/internal/eventlog/provider.go:277-278 | an event with a duration among its details is redacted as it stands, and displayed unchanged as read back |
| `ProviderEvents.ReadIsJson` | src/internal/eventlog/provider.go:251-280 | whatever was written, no value of unknown type stands in what was read back |
| `ProviderEvents.AdmittedIsShownAfterReadBack` | src/internal/eventlog/provider.go:115-143 | what the writer admits is displayed as it was read back |
| `HostModel.IndexIsInverse` | src/internal/kernel/host.go:185-211 | for every plugin id and capability, the id stands in the capability's entry exactly as often as the route table offers it |
| `HostModel.IndexKeys` | src/internal/kernel/host.go:185-211 | the index has exactly the capabilities that some plugin offers, and no empty entry |
| `HostModel.IndexAscends` | src/internal/kernel/host.go:203-209 | every entry is in order before it is sorted |
| `HostModel.SortEntries` | src/internal/kernel/host.go:207-209 | the final sort changes no entry |
| `HostModel.AddCapabilities` | src/internal/kernel/host.go:203-205 | the inner loop appends the plugin once for each capability |
| `HostModel.Collect` | src/internal/kernel/host.go:193-206 | the loop over the plugins collects states, routes and index in order |
| `HostModel.RoutesShow` | src/internal/kernel/host.go:196-202 | each route shows its plugin's state, field by field |
| `HostModel.Host.State` | src/internal/kernel/host.go:185-211 | states and routes in plugin-id order, and the index of exactly these |
| `HostModel.Host.RestartPlugin` | src/internal/kernel/host.go:231-242 | an unknown id is refused; otherwise exactly this manager is restarted and every other one is unchanged |
| `HostModel.StartEach` | src/internal/kernel/host.go:157-171 | either all plugins are started, or the first that cannot be decides: all before it are stopped again and unhealthy, it is as its own failure left it, and all after it are untouched |
| `HostModel.Host.StartAll` | src/internal/kernel/host.go:157-171 | the same for the host, naming the plugin that failed |
| `HostModel.FailedStart` | src/internal/kernel/manager.go:201-219 | a failed start has refused and changed nothing, or left a stopped manager with its old generation number |
| `HostModel.UsableExactly` | src/internal/kernel/host.go:107-136 | the checks of entry after entry pass if and only if all entries are well formed and the ids distinct |
| `HostModel.NewHost` | src/internal/kernel/host.go:98-141 | a host is built if and only if the configuration is usable, with new managers and ids sorted without repetition; otherwise the error is that of the first bad entry, and the managers built before it are closed if and only if the error is that one could not be built |
| `HostModel.BuildManagers` | src/internal/kernel/host.go:107-138 | one manager after the other is built, each with its own socket, until an entry is at fault |
| `HostModel.SocketPathsDiffer` | src/internal/kernel/host.go:359-361 | two valid ids have the same socket path if and only if they are the same id |
| `HostModel.PluginIdIsOneName` | src/internal/kernel/plugin_id.go:10-20 | a valid id is one name of a path |
| `HostModel.PluginIdExamples` | src/internal/kernel/plugin_id_test.go:8-25 | ids that are accepted and ids that are refused |
| `HostModel.CloseBuilt` | src/internal/kernel/host.go:130-134 | all managers built so far are closed |
| `StringOrder.SortedDistinct` | src/internal/kernel/host.go:139-139 | sorting distinct ids gives a strictly ascending list |
| `StringOrder.SortedAlready` | src/internal/kernel/host.go:207-209 | sorting an ascending list changes nothing |
| `BundlePaths.WithinRootExactly` | src/internal/providerbundle/loader.go:241-247 | for clean paths the string-prefix test holds if and only if the root's components are the first components of the path |
| `BundlePaths.CleanUndoesRender` | src/internal/providerbundle/loader.go:220-239 | round trip: cleaning the text of a path gives its components back |
| `BundlePaths.CleanBelowRoot` | src/internal/providerbundle/loader.go:220-239 | a relative path without `..` is cleaned to the root's components followed by its own |
| `BundlePaths.AbsoluteIsItself` | src/internal/providerbundle/loader.go:220-239 | an absolute declared path is taken as it is |
| `BundlePaths.ParentLeavesRoot` | src/internal/providerbundle/loader.go:220-239 | going up from the root leaves it, unless the path comes straight back |
| `BundleLoader.ResolvesExactlyInside` | src/internal/providerbundle/loader.go:220-239 | a declared path is resolved if and only if it is not blank and stays inside the root, component by component, before and after links are followed |
| `BundleLoader.FirstKeyDecides` | src/internal/providerbundle/loader.go:159-185 | of several spellings of a key the first present one decides: a text or null for a text, a 64-bit integer or null for a number, anything else is an error |
| `BundleLoader.ParseIdentityExactly` | src/internal/providerbundle/loader.go:134-157 | an identity is parsed if and only if the manifest says it: schema version not blank, texts and number those of the first present keys |
| `BundleLoader.NullGenerationContradicts` | src/internal/providerbundle/loader.go:134-157 | a null generation agrees with no request, and an identity that names neither generation nor plugin agrees with every one |
| `BundleLoader.ManifestNameExactly` | src/internal/providerbundle/loader.go:209-218 | which manifest is asked for: the given path, else the given file name, else `manifest.json` |
| `BundleLoader.LoadManifest` | src/internal/providerbundle/loader.go:60-87 | succeeds if and only if the manifest is inside the root, readable, parsable, and names this plugin or none and this generation or none; "unavailable" means exactly that it could not be read, and the error code is the right one |
| `BundleLoader.LoadAssets` | src/internal/providerbundle/loader.go:89-107 | the assets match the declared paths one for one, or stop with a prefix of matches and the culprit |
| `BundleLoader.LoadProviderBundleMetadata` | src/internal/providerbundle/loader.go:35-111 | the verdict is `declared_valid` if and only if the request is well formed and everything declared is loadable, the manifest naming this plugin or none and this generation or none; the metadata then passes `Validate` for the requested generation, every path, digest and the schema version is the one found, and every path is inside the root, component by component, before and after links are followed; any other verdict has an error and at most a prefix of assets with the failing one |
| `BundleLoader.LoadedValidates` | src/internal/providerbundle/metadata.go:112-158 | the metadata of a completed load passes the independent validator, and its paths are inside the root |
| `BundleLoader.Validate` | src/internal/providerbundle/metadata.go:112-158 | the validator, check by check with an early exit, decides the predicate that the loader is measured by |
| `BundleLoader.HexDecodes` | src/internal/providerbundle/loader.go:249-262 | the digits of a digest give its bytes back |
| `BundleLoader.DigestIsValid` | src/internal/providerbundle/metadata.go:163-171 | a computed digest passes the digest validator |

## Left out

- ReadBackAnyMoment: assumes of the JSON codec only that decoding undoes encoding on one line.
- ReadBackExactly: assumes also that no proper beginning of a record and no line of several fragments decodes, and that what lay in the files before was written the same way; `StrictCodecExists` shows that such codecs exist.
- ReaderWhileRotating: each file is read at one moment.
- AsReadExactly: a value that JSON cannot encode at all never reaches the file, and an empty list of strings may come back as null instead of an empty list.
- QuietFilesExactly: says nothing while files from before, failed removals, failed writes, failed waits or stray processes are on record, because then anything may lie around.
- StartEach: no call and no monitor step comes between; what each `Start` and `Kill` leaves under any interleaving is `OperationsEndAsPromised`.
- StartAll: as `StartEach`.
- RestartPlugin: as `StartEach`.
- Start: a whole start as one call; its steps under any interleaving are those of the step machine, and `UninterruptedOperation` connects the two.
- Kill: as `Start`.
- Restart: as `Start`.
- Close: as `Start`; its error, which is also that of the log file, is what `CloseReportsOneError` is about.
- Wrap-around of the unsigned generation and epoch counters, except in a rollback below 0: the counters are unbounded.
- Reuse of process ids: within one run a process id names one process.
- Real sockets, RPC encoding, signals, peer credentials and timers: their outcomes are parameters of steps. Time bounds and liveness are not stated.
- Log events that the kernel emits: they change no state of a manager.
- More than one monitor per manager.
- `Host.Close`, `CoreSnapshot`, `RouteTarget` and routed calls other than restart: a lookup and a delegation each. Socket paths are joined without cleaning.
- Rename is atomic and replaces its target, and stat is exact.
- JSON, SHA-256 and the search for secret-like text are parameters with stated contracts; record fields of `match` are one arbitrary predicate; `FormatText` is not part of this model.
- Lower case outside of characters that lower to letters of a marker, and text that is not valid UTF-8.
- The path reported for an unresolved manifest is a parameter of the loader; `Clone`, `CoreDTO` and `AdminDTO` are copies and not part of this model.
- Command line, admin RPC, daemon, example plugins.
