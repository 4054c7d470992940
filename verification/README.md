# Verified model of the Axial desktop shell and local API

Dafny models of the parts of Axial where state is shared under a short lock and changed by many racing
callers, with proofs of what holds over whole runs. `dafny verify dfyconfig.toml` checks the project.

A lock-held block of the source is one atomic step; an await is a point where any other step may happen.
Timeouts, worker panics, lost responses and the results of foreign calls are arguments of the steps, so a
theorem over all traces covers every interleaving and every outcome. A step that is not enabled leaves the
state as it is. Each state that the source updates in place is also a class whose methods are proved equal
to the step functions the traces are made of.

- **Terminal protocol.** `Terminal` holds the lock-held blocks, `Lifecycle` the object, `TerminalRuns`
  every interleaving of `prepare_exit` callers, attempt workers, acknowledgements, the updater and
  event-loop death with one inductive invariant. `TerminalTheorems`, `TerminalAdmission` and
  `TerminalRelease` say what no run breaks, `TerminalAnswers` what every step must do in each reachable
  state, `TerminalProgress` which checks lie behind an admission and a success, and that nothing but a
  refusal stands in the way of one. `RequestIds` covers the rendered request identities.
- **Native reset and native installer.** `ResetHandoff` and `NativeInstaller` run the reset owner and the
  updater beside any terminal run. `NativeResetOwner` holds the reset owner and the retained deletion
  authority.
- **API server shutdown.** `ApiShutdown` runs concurrent, failing and cancelled callers of the shutdown
  pipeline, `ApiResults` traces what callers are told back to what really happened, `ApiRecovery` shows
  that no state of it is a dead end; `ServerHandle` holds the worker slot and the settlement slot.
  `ShellServer` runs that pipeline inside the terminal protocol, an attempt
  worker being one of its cancellable callers, and derives what the terminal runs guard: the server
  settles only after accepted work has joined. `ShellServerRelease` shows that the pipeline takes no
  release away.
- **Revisioned events.** `EventStream` is a source, a bounded broadcast ring and a receiver that rebases
  when it lags; `EventValues` ties the history to what was published and lag to what was unread;
  `EventFanOut` holds the objects with an explicit ring.
- **Update command client.** `UpdateClient` gives each handler from one await to the next,
  `UpdateHandlers` the object, `UpdateRuns`, `UpdateTheorems`, `UpdatePosts` and `UpdateFailures` all runs
  against a server whose revision never decreases.
- **Bundle accounting.** `BundleGraph` is the worklist reachability, `BundleMetrics` the checks, the
  counting argument and the sums, `BundlePaths` the text of paths.
- **Command line, tickets, scroll memory.** `CommandLine` quotes and parses back; `TicketQuery` and
  `TicketRegistry` (with the object in `TransportAuthority`) follow tickets over time; `ScrollMemory` is
  the bounded recency map.

Three results say where the code stops short, and exactly when; each has a witness:

- the release of services can be withheld: without the updater's report it can still come if and only if
  no unsettled update has been outlived by the event loop or handed to the installer
  (`TerminalRelease.ReleaseIsHeldExactly`, witness `TerminalRelease.HeldIsReachable`). For the lifecycle
  alone a report of settlement is always a way out (`TerminalRelease.ReleaseIsAlwaysPossible`), but in the
  program only the native installer reports, and with it a release can still come if and only if the
  installer was not interrupted (`NativeInstaller.InterruptionAloneHolds`, witness
  `NativeInstaller.InterruptionIsReachable`);
- the fence before installation is passed once: behind it an update can be under way if and only if one
  was admitted and is not settled (`TerminalRelease.FenceGuardsExactly`), and an installer really can start
  there (`NativeInstaller.InstallerMayStartBehindFence`), so installer safety is stated at the release of
  services (`NativeInstaller.ServicesOutliveInstaller`);
- quoting a program name round-trips if and only if it has no double quote and no trailing backslash,
  because the program name has its own parsing rule (`CommandLine.ProgramRoundTrip`, failing input
  `CommandLine.TrailingBackslashIsDoubled`).

## Model

| member | source | states |
|---|---|---|
| Lifecycle.DesktopLifecycle.PrepareExit | apps/desktop/src/lifecycle.rs:242-299 | the caller is told exactly what its case calls for, stated over the fields alone, and leaves exactly the state that this answer goes with; both are `Terminal.Enter`, the function every trace is built from |
| Lifecycle.DesktopLifecycle.AnnouncePreferences | apps/desktop/src/lifecycle.rs:370-396 | mints the next request number and publishes it, or refuses after the loop ended or on exhaustion of the counter |
| Lifecycle.DesktopLifecycle.ObserveAnswer | apps/desktop/src/lifecycle.rs:402-420 | one pass of the wait loop: gives up on an ended loop or a superseded request, else reports the stored answer |
| Lifecycle.DesktopLifecycle.CompleteInterfacePreferences | apps/desktop/src/lifecycle.rs:204-225 | stores an answer exactly when it is acceptable, and otherwise changes nothing |
| Lifecycle.DesktopLifecycle.AdmitAttempt | apps/desktop/src/lifecycle.rs:335-353 | admits exactly when the loop lives, the intent is still the attempt's, and the tasks are idle or the intent is a reset |
| Lifecycle.DesktopLifecycle.FinishAttempt | apps/desktop/src/lifecycle.rs:557-582 | only the active attempt's result counts; without admission it clears the intent and lifts the seal |
| Lifecycle.DesktopLifecycle.FinishUpdateSettled | apps/desktop/src/lifecycle.rs:455-466 | settlement is recorded exactly for a prepared update |
| Lifecycle.DesktopLifecycle.EndEventLoop | apps/desktop/src/lifecycle.rs:470-479 | the loop's end is recorded unless the services were already released |
| Lifecycle.DesktopLifecycle.ReleaseServices | apps/desktop/src/lifecycle.rs:127-156 | releases exactly when the loop settled, no attempt is active, no admitted update is unsettled, the tasks joined and the server settled |
| TerminalRuns.RunKeepsInv | apps/desktop/src/lifecycle.rs:242-363 | the inductive invariant holds after every trace from a state that has it, whatever the interleaving, timeouts and panics |
| TerminalAnswers.CallerIsAnswered | apps/desktop/src/lifecycle.rs:242-299 | in every reachable state, for each answer an if-and-only-if over the fields: a fresh attempt for a free shell, an unprepared one's own intent, an installed update giving way to close or restart and an unprepared reset or update to close; the active attempt of the same intent; ready; conflict; too late |
| TerminalAnswers.CallerLeaves | apps/desktop/src/lifecycle.rs:242-299 | a caller that is not given a fresh attempt changes nothing; a fresh attempt takes the intent, is unprepared and is the only worker |
| TerminalAnswers.HandOffHappens | apps/desktop/src/lifecycle.rs:251-269 | an installed update is handed to a close or a restart, and an admitted unprepared reset or update to a close, by a fresh attempt |
| TerminalAnswers.MintIsExact | apps/desktop/src/lifecycle.rs:370-396 | a worker mints the next number unless the loop ended or the counter is spent, and publishes a discard for a reset and a flush for all else |
| TerminalAnswers.WaitIsExact | apps/desktop/src/lifecycle.rs:402-420 | a waiting worker goes on exactly with a saved answer while the loop lives, gives up exactly on its end, a negative answer or the timeout |
| TerminalAnswers.AnswerIsHeard | apps/desktop/src/lifecycle.rs:204-225 | the renderer's answer to the waiting request sends the worker on, or back |
| TerminalAnswers.AdmissionIsExact | apps/desktop/src/lifecycle.rs:335-353 | admission happens exactly while the loop lives, and for all but a reset only without accepted work; it closes the task admission and clears the preferences |
| TerminalAnswers.FinishIsExact | apps/desktop/src/lifecycle.rs:557-582 | an attempt's result is published as it is, prepared is exactly a success, and a failure before admission gives up the intent and lifts the seal |
| TerminalAnswers.ReportIsExact | apps/desktop/src/lifecycle.rs:455-466 | settlement of an update is recorded exactly once it was prepared |
| TerminalAnswers.FenceIsExact | apps/desktop/src/lifecycle.rs:483-501 | the fence opens exactly when the loop has ended and no installation is under way |
| TerminalAnswers.ReleaseIsExact | apps/desktop/src/lifecycle.rs:127-156 | in every reachable state the services go exactly when the loop settled, no attempt is active and no admitted update waits for its report |
| TerminalAnswers.ExitIsExact | apps/desktop/src/lifecycle.rs:503-529 | exit is allowed exactly once anything but an update was prepared or the loop's own shutdown settled, and that settles exactly behind the fence with a settled server |
| TerminalAnswers.RestartIsExact | apps/desktop/src/lifecycle.rs:165-176 | a restart is carried through exit exactly when it was prepared, exit was allowed and the loop has ended |
| TerminalProgress.AdmissionPassedItsChecks | apps/desktop/src/lifecycle.rs:318-333 | in any run, the admitting attempt had passed its domain refusals and flushed pending changes, for the intent it is admitted with |
| TerminalProgress.SuccessPassedItsChecks | apps/desktop/src/lifecycle.rs:355-363 | in any run, a successful attempt had drained the files, seen the server settle unless it was an update, and passed the checks after settlement unless it was a close or restart |
| TerminalProgress.AdmissionIsPossible | apps/desktop/src/lifecycle.rs:311-353 | while the loop lives and numbers are left, every intent can be admitted from every reachable state in which none has been |
| TerminalProgress.PreparationIsPossible | apps/desktop/src/lifecycle.rs:355-363 | whatever failed since, an admitted intent can still be prepared until the services are released |
| TerminalProgress.RestartIsPossible | apps/desktop/src/lifecycle.rs:165-176 | an admitted restart can still be carried through exit |
| TerminalTheorems.PreparedMeansSettled | apps/desktop/src/lifecycle.rs:311-363 | prepared implies admitted, no attempt, an intent and joined tasks, and for all but an update a settled server, also after a handoff; no attempt and no admission implies no intent |
| TerminalTheorems.OneAttemptAtATime | apps/desktop/src/lifecycle.rs:270-298 | one worker at most is alive, it is the active attempt, works for the stored intent, and every earlier attempt has published a result, also when its worker unwound |
| TerminalTheorems.OutcomesAreFinal | apps/desktop/src/lifecycle.rs:300-308 | a published result is never changed, so all waiters of an attempt get the same one |
| TerminalTheorems.SealAgreement | apps/desktop/src/lifecycle.rs:557-582 | with nothing in progress the latest published event is none or a release; after admission it is a flush or discard; in between it has the active intent's phase |
| TerminalTheorems.SealIsMonotone | apps/desktop/src/lifecycle.rs:178-187 | any two samples of the latest event are ordered by request number and release, and after admission the event never changes |
| TerminalTheorems.IntentTrajectory | apps/desktop/src/lifecycle.rs:251-279 | after admission close and restart are absorbing, and so is every prepared intent but an update |
| TerminalTheorems.IntentMovesOnlyByHandOff | apps/desktop/src/lifecycle.rs:251-269 | after admission the intent moves only by a caller's handoff without an active attempt, from a prepared update only once it is settled, from a reset only to close while unprepared, and always into a fresh unprepared attempt |
| TerminalTheorems.RestartIsFinal | apps/desktop/src/lifecycle.rs:165-176 | once a restart is carried through exit it is so in every later state |
| TerminalTheorems.LoopEndedBeforeAdmission | apps/desktop/src/lifecycle.rs:248-479 | if the loop ends before admission, nothing is ever admitted, every attempt fails, later callers are refused, settlement cannot be reported and no restart happens |
| TerminalRelease.ReleaseIsSafe | apps/desktop/src/lifecycle.rs:127-156 | from a release on, in every later state: loop and server settled, tasks joined, no admitted unsettled update, and no worker past taking the services |
| TerminalRelease.ReleaseIsFinal | apps/desktop/src/lifecycle.rs:112-118 | after the release an unprepared shell stays unprepared |
| TerminalRelease.ReleaseIsHeldExactly | apps/desktop/src/lifecycle.rs:132-140 | without the updater's report a release can still be reached if and only if no admitted unsettled update has been outlived by the loop or prepared |
| TerminalRelease.ReleaseIsAlwaysPossible | apps/desktop/src/lifecycle.rs:127-156 | from every reachable state some continuation, with a settlement report as an action of its own, releases the services |
| TerminalRelease.HeldIsReachable | apps/desktop/src/lifecycle.rs:470-501 | a run from the start in which the loop ends while an update is admitted and unsettled |
| TerminalRelease.FenceGuardsExactly | apps/desktop/src/lifecycle.rs:483-501 | after the fence was passed an update can be under way if and only if one is admitted and unsettled |
| TerminalRelease.UpdateBehindFenceIsReachable | apps/desktop/src/lifecycle.rs:487-501 | a run from the start in which the fence is passed while such an update waits for its retry |
| TerminalTheorems.ExitMeansSettled | apps/desktop/src/lifecycle.rs:237-240 | exit is allowed only after the tasks joined and the server settled |
| TerminalAdmission.AdmissionWasAcknowledged | apps/desktop/src/lifecycle.rs:326-352 | every admission in any run rests on an accepted `true` acknowledgement of a request that the same attempt minted earlier |
| TerminalAdmission.MintedOnce | apps/desktop/src/lifecycle.rs:378-389 | a request number is minted once in a run |
| TerminalAdmission.AdmissionFindsIdleWork | apps/desktop/src/lifecycle.rs:342-353 | in any run, every admission but a reset's finds no accepted work, and from then on the tasks stay joined |
| TerminalAdmission.AcknowledgedOnce | apps/desktop/src/lifecycle.rs:212-222 | a request is acknowledged at most once in a run: duplicate, stale, released and post-admission answers are refused |
| TerminalAdmission.WaitingRequestIsAnswerable | apps/desktop/src/lifecycle.rs:204-222 | while a worker waits unanswered, exactly its own request's identity is accepted, the length guard included |
| RequestIds.RequestIdInjective | apps/desktop/src/lifecycle.rs:383 | distinct numbers render to distinct identities |
| RequestIds.RequestIdFits | apps/desktop/src/lifecycle.rs:205-207 | the 32-byte guard admits every identity a 64-bit counter can mint |
| NativeResetOwner.NativeReset.RequestReset | apps/desktop/src/reset.rs:319-334 | reserves exactly while ingress is open, and changes only the counter |
| NativeResetOwner.NativeReset.CheckAndPin | apps/desktop/src/reset.rs:97-119 | passes exactly for an unrequested, allowed, pinned reset whose marker matches, and keeps a pin it took even when the marker does not |
| NativeResetOwner.NativeReset.DropRequest | apps/desktop/src/reset.rs:298-312 | gives one reservation back without underflow |
| NativeResetOwner.NativeReset.TakeAfterExit | apps/desktop/src/reset.rs:156-171 | hands the pin over exactly when requested, not yet transferred and without live reservations |
| NativeResetOwner.PendingReset.TryClear | apps/desktop/src/reset.rs:224-289 | succeeds exactly with the receipt where tasks are owned, a matching marker where the pin is held, an authority that can be taken and a native clear that succeeds; a failure never loses the one owner of the root |
| ResetHandoff.MovesAreTheOwners | apps/desktop/src/reset.rs:95-172 | every move of the interleaved runs changes the reset flags exactly as the owner's methods do |
| ResetHandoff.PreflightIsTheOwners | apps/desktop/src/reset.rs:97-119 | a request gets past its preflight exactly when the owner's check passes, and otherwise gives the mutex back |
| ResetHandoff.RequestedHasPassed | apps/desktop/src/reset.rs:95-126 | in any run, a requested reset had passed its preflight: unrequested, allowed, pinned and with a matching marker |
| ResetHandoff.WinnerAllowsExit | apps/desktop/src/reset.rs:342-347 | the winning request's permission to exit always takes effect |
| ResetHandoff.PlayKeeps | apps/desktop/src/reset.rs:95-126 | the joint invariant of reset owner and terminal protocol holds after every run |
| ResetHandoff.ReservationsAreCounted | apps/desktop/src/reset.rs:298-334 | the counter equals the number of live reservations in every run, never underflows, and the exit callback fires at most once over all requests |
| ResetHandoff.TransferIsProven | apps/desktop/src/reset.rs:152-171 | authority is transferred at most once, with its pin, and only after a reset was prepared: tasks joined and server settled |
| ResetHandoff.TransferTakesThePin | apps/desktop/src/reset.rs:156-171 | the one step that transfers finds no live reservation and takes the pin along |
| ResetHandoff.QuiescenceIsFinal | apps/desktop/src/reset.rs:130-150 | after quiescence returned there is never a reservation again and no further callback |
| ResetHandoff.RequestedResetExcludesRestart | apps/desktop/src/main.rs:330-344 | a requested reset excludes the ordinary restart in every continuation |
| ResetHandoff.JoinedResetIsRequested | apps/desktop/src/reset.rs:120-126 | a request whose attempt succeeded goes on to mark the reset as requested and gives the mutex back; one whose attempt failed gives it back at once |
| ResetHandoff.WinnerFires | apps/desktop/src/reset.rs:342-347 | the winning request allows exit and fires the one callback |
| ResetHandoff.OwnerMovesExactly | apps/desktop/src/reset.rs:130-171 | transfer, quiescence and reservation happen exactly in their cases, in every reachable state |
| NativeInstaller.ServicesOutliveInstaller | apps/desktop/src/update.rs:247-304 | while the updater owns installer effects the services are not released, however the attempt was timed against the loop's end and the fence |
| NativeInstaller.InstallerExcludesOthers | apps/desktop/src/update.rs:251-297 | while it owns them, close, restart and reset are refused without effect and no restart is carried out |
| NativeInstaller.InterruptionIsNeverSettled | apps/desktop/src/update.rs:289-345 | an interrupted installation is never reported settled and holds the services in every continuation |
| NativeInstaller.InterruptionAloneHolds | apps/desktop/src/update.rs:285-345 | with the installer as the only reporter, some continuation of a run releases the services if and only if the installer was not interrupted |
| NativeInstaller.InterruptionIsReachable | apps/desktop/src/update.rs:286-296 | a run in which the installer unwinds after it started |
| NativeInstaller.InstallerMayStartBehindFence | apps/desktop/src/lifecycle.rs:483-501 | a run in which the first attempt fails, the loop ends, the fence is passed, and the retried update then starts its installer |
| ShellServer.RunsProject | apps/desktop/src/lifecycle.rs:532-555 | every run of shell and server together, with the settled flag read from the server, is a run of the guarded shell and a run of the server |
| ShellServer.SettlesAfterJoining | apps/api/src/lib.rs:317-360 | the tasks' receipt implies joined work, and what the shell reads as settled implies joined work, the whole pipeline and three joined workers |
| ShellServer.ExitJoinsTheServer | apps/desktop/src/lifecycle.rs:127-156 | exit permission, the release, a settled loop, and any prepared intent but an update imply joined work and three joined server workers behind the whole pipeline |
| ShellServer.WorkerIsToldTheTruth | apps/desktop/src/lifecycle.rs:539-552 | a worker whose call was answered goes on if and only if the server has settled, else its attempt fails; a success it was told of means that all three server workers ended well, as the events of the run reported it |
| ShellServer.NoCallIsLost | apps/desktop/src/lifecycle.rs:539-544 | a waiting worker's shutdown call is under way or answered: only its own timeout or unwinding drops it |
| ShellServer.LeavingGivesBack | apps/desktop/src/lifecycle.rs:539-544 | a worker that times out or unwinds leaves no lock behind in the server, and no fact, settlement, handle or result is lost |
| ShellServer.ShutdownIsAuthorized | apps/desktop/src/lifecycle.rs:508-551 | nobody is shutting the server down before an admission, except behind the fence |
| ShellServerRelease.ReleaseIsHeldExactly | apps/desktop/src/lifecycle.rs:127-156 | with the server's callers, locks, failures and cancellations run inside, a release without the updater's report can come if and only if the shell alone allows one |
| ServerHandle.ServerTask.JoinOwned | apps/api/src/lib.rs:297-312 | a worker that ended is reported and stored with the result it ended with, a live one keeps its handle, and a stored result is returned unchanged |
| ServerHandle.FileSettlement.Begin | apps/api/src/lib.rs:362-412 | joins the settlement in place, or starts one exactly with the tasks' receipt |
| ServerHandle.FileSettlement.Join | apps/api/src/lib.rs:413-425 | a result is taken out exactly once; a running settlement stays |
| ApiShutdown.RunKeeps | apps/api/src/lib.rs:297-425 | the invariant over callers, locks, handles and the settlement holds in every run with concurrent, failing and cancelled callers |
| ApiShutdown.StopComesLast | apps/api/src/lib.rs:317-360 | HTTP is told to stop only after media, sessions, tasks, observers and files succeeded, and a settled shutdown has consumed all three workers |
| ApiShutdown.OneSettlementAtATime | apps/api/src/lib.rs:362-425 | at most one settlement exists, and none before the tasks joined |
| ApiShutdown.SettlementStartsOnlyWhenConsumed | apps/api/src/lib.rs:362-379 | a new settlement starts only when the previous result was consumed |
| ApiRecovery.CancellationLosesNothing | apps/api/src/lib.rs:292-425 | from every reachable state, with no further step of any present caller but being dropped, later callers can settle the shutdown |
| ApiShutdown.ResultsAreFinal | apps/api/src/lib.rs:297-312 | a stored result and a consumed handle never change in any continuation |
| ApiShutdown.CallersAreToldTheTruth | apps/api/src/lib.rs:347-360 | every waiter and every shutdown caller has been given exactly the stored result of each of the three workers, and success is reported only after settlement in which all three ended well |
| ApiShutdown.LastStepReportsAll | apps/api/src/lib.rs:347-360 | the last step settles the shutdown even after a worker failure, and reports success exactly when all three succeeded |
| ApiResults.ResultsAreWhatEnded | apps/api/src/lib.rs:297-312 | over any run a worker's stored result is what the worker first ended with; the handle is live exactly until then |
| ApiResults.CallersAreToldWhatEnded | apps/api/src/lib.rs:347-360 | a waiter is told how the HTTP worker ended, and a shutdown succeeds only if all three workers ended well, by the actions of the run |
| ApiResults.LastStepReportsWhatEnded | apps/api/src/lib.rs:347-360 | the last step reports success exactly if all three workers ended well |
| ApiResults.StopIsEarned | apps/api/src/lib.rs:317-346 | HTTP is told to stop only in a run in which media, games and observers reported success to a caller, the tasks gave their receipt and a file settlement ended well |
| ApiResults.FailureHasAReason | apps/api/src/lib.rs:317-360 | a caller told of a failure was itself refused or timed out, or a file settlement failed, or a worker ended badly |
| EventFanOut.RevisionedEvents.constructor | apps/api/src/events.rs:45-53 | starts at revision 1 with the capacity clamped to 1..1024 |
| EventFanOut.RevisionedEvents.Publish | apps/api/src/events.rs:64-73 | an open source below 2^53-1 stores the given value under the next revision, makes it current and appends it to the history; otherwise nothing changes and the refusal is named |
| EventFanOut.RevisionedEvents.PublishAt | apps/api/src/events.rs:76-85 | an open source stores the given value under the given revision exactly if that is newer and within range; otherwise nothing changes and the refusal is named |
| EventFanOut.RevisionedEvents.Replace | apps/api/src/events.rs:87-98 | an open source replaces the current snapshot and the ring keeps exactly the newest messages of the history |
| EventFanOut.RevisionedEvents.Close | apps/api/src/events.rs:116-123 | closing changes nothing but the source's being open |
| EventFanOut.RevisionedEvents.Subscribe | apps/api/src/events.rs:100-112 | an open source registers at its tail together with the current snapshot; a closed one refuses |
| EventFanOut.EventSubscription.TakeTurn | apps/api/src/events.rs:135-159 | one turn on the explicit ring is the turn on the full history that the theorems speak about |
| EventFanOut.EventSubscription.Recv | apps/api/src/events.rs:134-160 | the receive loop without interference is `EventStream.Receive`, and it ends |
| EventStream.RunKeeps | apps/api/src/events.rs:64-160 | what was handed out, the cursor and the gaps agree with the history after every interleaving of publishes, close and receives |
| EventStream.Capacity | apps/api/src/events.rs:46 | the capacity is clamped to 1..1024 and otherwise as requested |
| EventValues.PublishIsExact | apps/api/src/events.rs:64-73 | a published value becomes the current snapshot under the next revision, or is refused for exhaustion or a close |
| EventValues.PublishAtIsExact | apps/api/src/events.rs:76-85 | a value published at a revision becomes the current snapshot with it, or is refused as stale, out of range or closed |
| EventValues.HistoryIsWhatWasPublished | apps/api/src/events.rs:64-98 | over any run the source holds what it held first and then exactly the accepted values in their order, whatever receivers do |
| EventValues.HeldWasPublished | apps/api/src/events.rs:87-98 | every later snapshot of the history was published with that value, and with that revision if one was given |
| EventValues.LastPublishedIsDelivered | apps/api/src/events.rs:134-160 | a subscriber told of the end, or that has drained the ring, was handed the last accepted value last |
| EventValues.LagIsExact | apps/api/src/events.rs:142-152 | a turn reports lag exactly when more than the capacity is unread |
| EventValues.RebaseIsExact | apps/api/src/events.rs:142-152 | a lagging receiver moves to the oldest retained message, is offered the current snapshot, and rejoins behind it while the source is open |
| EventValues.UnlaggedTurnIsExact | apps/api/src/events.rs:135-159 | without lag a turn hands out the pending snapshot, then the oldest unread one if it is newer, and reports empty or ended exactly as the source is open |
| EventValues.LaggedExactly | apps/api/src/events.rs:142-152 | over any run a subscriber has lagged if and only if it once came to read with more unread than the ring retains |
| EventStream.NoLostFinalUpdate | apps/api/src/events.rs:134-160 | for any capacity and lag, and a close between the lag and the lock, a subscriber told closed or drained was last handed exactly the source's current snapshot |
| EventStream.DeliveredInOrder | apps/api/src/events.rs:64-98 | every snapshot handed out is one the source held, with strictly increasing revisions of at most 2^53-1 |
| EventStream.UnlaggedGetsEverything | apps/api/src/events.rs:100-112 | without lag, what was handed out, the pending snapshot and the unread ring are exactly the history since the subscription |
| EventStream.LaggedAccounting | apps/api/src/events.rs:142-152 | with lag, every snapshot held up to the last one handed out was handed out or passed over, never both |
| EventStream.GapsComeFromRebases | apps/api/src/events.rs:142-152 | only a rebase passes over anything |
| EventStream.HistoryOnlyGrows | apps/api/src/events.rs:87-98 | over any run neither the history nor what was handed out is rewritten, and a closed source does not change |
| EventStream.SkippingTerminates | apps/api/src/events.rs:135-159 | a turn that delivers or skips leaves strictly less to read |
| EventStream.ReceiveAdvances | apps/api/src/events.rs:134-160 | a `recv` that delivers, delivers something newer than all before; one that ends left nothing unread |
| UpdateHandlers.Updater.BeginUpdateRequest | frontend/src/updater.ts:267-272 | begins exactly when nothing is pending and no restart is offered, and advances the sequence |
| UpdateHandlers.Updater.StartUpdateDownload | frontend/src/updater.ts:303-306 | posts a download unless a flow is moving or a command is pending |
| UpdateHandlers.Updater.ApplyUpdateAndRestart | frontend/src/updater.ts:331-340 | posts an installation of the ready version unless blocked or pending |
| UpdateHandlers.Updater.DownloadAndInstallUpdate | frontend/src/updater.ts:323-328 | installs a ready flow, else remembers to install and downloads |
| UpdateHandlers.Updater.SetUpdateFlow | frontend/src/updater.ts:204-222 | takes the flow, and a ready one may start its installation before returning |
| UpdateHandlers.Updater.Answered | frontend/src/updater.ts:307-351 | clears the command, takes the answer and schedules a poll where one is needed |
| UpdateHandlers.Updater.RecoverUpdateRequest | frontend/src/updater.ts:274-294 | a refused command is marked returned and ends the wish to install, one without a usable answer is marked unknown, and a poll starts unless one is under way |
| UpdateHandlers.Updater.PollUpdateFlow | frontend/src/updater.ts:241-244 | a poll starts exactly when none is under way and no answer is awaited |
| UpdateHandlers.Updater.ReadUpdateFlow | frontend/src/updater.ts:246-257 | a read is taken exactly when its sequence is current, its revision not older and, for an unknown outcome, it shows the command's effect |
| UpdateHandlers.Updater.FinishPoll | frontend/src/updater.ts:260-264 | the poll ends and the timer is set while anything is unsettled or moving |
| UpdateHandlers.Updater.ReadSnapshot | frontend/src/updater.ts:433-452 | a snapshot is taken exactly when nothing changed since it was asked for and its flow is not older |
| UpdateRuns.RunKeepsInv | frontend/src/updater.ts:241-353 | the invariant over client, server history, commands in flight and late reads holds in every run |
| UpdateTheorems.OneCommandOutstanding | frontend/src/updater.ts:267-314 | at most one command is in flight, it is the one in the slot, and all earlier ones are settled |
| UpdateTheorems.NextCommandWaits | frontend/src/updater.ts:267-272 | a command is posted only when every earlier one has been settled |
| UpdateTheorems.CommandsAreSettledByEvidence | frontend/src/updater.ts:247-254 | what settled a command is its own answer, or a read asked for after it was posted; for an unknown outcome one with the same version, a strictly greater revision and a phase that fits the kind |
| UpdateTheorems.UnknownIsNeverResent | frontend/src/updater.ts:249-254 | from an unknown outcome on, nothing is posted and the slot stays as it is until such a read |
| UpdateTheorems.RevisionNeverDecreases | frontend/src/updater.ts:428-451 | the shown revision never decreases under arbitrarily delayed answers, reads and snapshots, and every shown flow is one the server held |
| UpdateTheorems.NothingIsAbandoned | frontend/src/updater.ts:260-264 | an unsettled command, or a moving flow, always has a poll, a timer or an answer to come |
| UpdateTheorems.RecoveryIsPossible | frontend/src/updater.ts:241-265 | from any reachable unsettled state, at most three steps of polling settle the command once the server's present flow shows it |
| UpdateFailures.LostAnswerStaysUnknown | frontend/src/updater.ts:274-287 | from the failed post on, in every continuation: a command whose answer was lost waits as unknown with nothing posted, and only a read with its version, a strictly greater revision and a fitting phase settles it |
| UpdateFailures.RefusalIsHandedBack | frontend/src/updater.ts:274-294 | a refused command waits as returned until a read settles it, nothing is posted meanwhile, and the wish to install on ready has ended |
| UpdateFailures.PostsExactly | frontend/src/updater.ts:267-340 | a step posts a command if and only if its case calls for one, by the fields of the client and the flow that arrived |
| UpdateFailures.ReadIsTakenExactly | frontend/src/updater.ts:246-257 | a read that arrives is shown and settles the command exactly in its case, and otherwise only ends the poll |
| UpdateFailures.WishIsTheUsers | frontend/src/updater.ts:323-328 | the wish to install on ready comes up only by the user's own request |
| UpdatePosts.PostsAreAllowed | frontend/src/updater.ts:267-340 | nothing is posted while the shown flow offers a restart; a download is the one asked for and interrupts no moving flow; an installation is of the ready flow shown and never of a blocked one |
| UpdatePosts.InstallationsWereReady | frontend/src/updater.ts:331-340 | every installation ever posted names version and revision of a ready flow the server had held by then |
| UpdatePosts.ShownFlowIsCurrent | frontend/src/updater.ts:428-451 | whatever changes the shown flow was asked for after the last command was posted |
| BundleGraph.ReachableIsLeast | apps/api/build.rs:409-434 | what is reachable lies in every set that contains the seeds and is closed under static imports |
| BundleGraph.TraverseInitial | apps/api/build.rs:409-434 | terminates on cyclic graphs, fails exactly when something reachable is missing or of another kind, and otherwise returns exactly what is reachable |
| BundleMetrics.TotalFileBytes | apps/api/build.rs:240-246 | the sum of the bytes, refused exactly above 64 bits |
| BundleMetrics.LargestFile | apps/api/build.rs:248-250 | an upper bound that some file attains, or zero |
| BundleMetrics.CheckGraph | apps/api/build.rs:286-320 | accepts exactly the graphs of valid, known-kind outputs and imports in ascending path order without duplicates, and indexes them; the order and kinds are those of `BundlePaths` |
| BundleMetrics.CheckAuthority | apps/api/build.rs:322-331 | the exclusive-or check with the length equation accepts exactly the partitions |
| BundleMetrics.CountingPartitions | apps/api/build.rs:322-331 | the two checks together imply that public files and outputs exactly partition the manifest files |
| BundleMetrics.TraversalCannotFail | apps/api/build.rs:335-364 | on a graph that passed the checks neither internal check of a traversal can fail |
| BundleMetrics.DeriveMetrics | apps/api/build.rs:252-407 | succeeds exactly on acceptable input, and every metric is then the total or maximum over the set it names; what its text functions mean is stated in `BundlePaths` |
| BundleMetrics.BytesAreConserved | apps/api/build.rs:392-406 | initial and lazy bytes make up the generated total, public and generated bytes all files, and the payload adds only the receipt |
| BundlePaths.LessIsLexicographic | apps/api/build.rs:295-300 | a path precedes another exactly if it is a proper prefix or the first difference is smaller |
| BundlePaths.ExtensionIsExact | apps/api/build.rs:436-441 | an extension is exactly what follows the last dot of the last component behind a non-empty stem |
| BundlePaths.FileNameIsLast | apps/api/build.rs:436-441 | the last component is what follows the last separator |
| BundlePaths.LastIndexIsLast | apps/api/build.rs:436-441 | the last occurrence of a character, or none |
| BundlePaths.LowerIsExact | apps/api/build.rs:275-278 | the portable form lowers the 26 ASCII letters and keeps every other character |
| CommandLine.Quote | legacy/scripts/host-process-probe.cs:603-626 | the slash-counting loop writes the specified quoted text |
| CommandLine.BuildCommandLine | legacy/scripts/host-process-probe.cs:796-797 | an argument parser finds the program and then the given arguments; the program name itself is found exactly when it is safe |
| CommandLine.QuoteRoundTrip | legacy/scripts/host-process-probe.cs:603-626 | for every string the published parsing rules give back exactly that string and stop exactly at its end, under both readings of a doubled quote |
| CommandLine.QuotedComesFirst | legacy/scripts/host-process-probe.cs:796-797 | a quoted text in front of any further arguments parses to itself and then those arguments |
| CommandLine.ArgumentsRoundTrip | legacy/scripts/host-process-probe.cs:603-626 | any list of arguments, each quoted, parses back to that list |
| CommandLine.ProgramRoundTrip | legacy/scripts/host-process-probe.cs:796-797 | under both readings of the program-name rule (up to the next quote, or toggling until an unquoted space) the quoted text round-trips if and only if it has no double quote and no trailing backslash |
| CommandLine.TrailingBackslashIsDoubled | legacy/scripts/host-process-probe.cs:623-624 | the failing input: a name ending in one backslash is read back with two |
| TransportAuthority.LocalApiAuthority.Mint | apps/api/src/transport.rs:150-198 | the drawn ticket is not stored, and map and result are those of `TicketRegistry.Mint` |
| TransportAuthority.LocalApiAuthority.AuthenticateTicket | apps/api/src/transport.rs:126-148 | map and verdict are those of `TicketRegistry.Authenticate` |
| TicketRegistry.CapacityIsBounded | apps/api/src/transport.rs:177-180 | at most 256 tickets are stored in any run |
| TicketRegistry.AuthenticationIsExact | apps/api/src/transport.rs:126-148 | in any run, a call is let through on a ticket if and only if its latest mint is unexpired, permits method and path and, for a stream, is unused |
| TicketRegistry.StreamTicketWorksOnce | apps/api/src/transport.rs:144-146 | two calls let through on a stream ticket have another mint of it between the first mint and the second call |
| TicketRegistry.TicketsKeepTheirBounds | apps/api/src/transport.rs:138-143 | whatever was let through was a GET of the minted target within a minute, or a GET or HEAD of a media path within half an hour |
| TicketRegistry.RefusalMeansFull | apps/api/src/transport.rs:177-180 | minting is refused for capacity only with 256 tickets that were minted and are neither expired nor used |
| TicketRegistry.GrantIsExact | apps/api/src/transport.rs:150-171 | a ticket is granted for media exactly without a target and for a stream exactly to a bare target on a stream path, with its own lifetime; each other request has its own refusal |
| TicketRegistry.MintIsExact | apps/api/src/transport.rs:172-198 | minting succeeds exactly for a grantable request below 256 live tickets, stores the grant with its expiry and prunes exactly what has expired |
| TicketRegistry.StreamCallIsExact | apps/api/src/transport.rs:126-148 | in any run a call with a stream ticket is let through if and only if it is a GET of the target last minted for, within a minute, and the ticket is unused since |
| TicketRegistry.MediaCallIsExact | apps/api/src/transport.rs:126-148 | and one with a media ticket if and only if it is a GET or HEAD of a media path within half an hour |
| TicketQuery.FindTicket | apps/api/src/transport.rs:295-306 | the loop finds a ticket exactly when it is named once and is not empty |
| TicketQuery.QueryTicketIsExact | apps/api/src/transport.rs:295-306 | a query carries a grant exactly when one of its pairs, and no other, names it with a non-empty value |
| TicketQuery.SplitJoin | apps/api/src/transport.rs:247-262 | joining parts without an ampersand and splitting again gives the same parts |
| TicketQuery.RewriteKeepsTheRest | apps/api/src/transport.rs:245-267 | the forwarded URI has the same path, and its parts are the parts that grant nothing, with their text and order |
| TicketQuery.HandlerSeesItsOwnParameters | apps/api/src/transport.rs:237-241 | what the handler's decoder sees is what the query held without the grants |
| TicketQuery.RewrittenExactlyWhenNamed | apps/api/src/transport.rs:245-306 | the URI is rewritten if and only if it names the grant; an authenticated ticket is always taken out, and nothing is left to find |
| ScrollMemory.Limit | frontend/src/ui-state.ts:49 | the default for a limit that is no finite number, one below one, and otherwise the whole number at or just below it |
| ScrollMemory.ViewScrollMemory.Get | frontend/src/ui-state.ts:53-59 | returns the stored value and makes its key the newest |
| ScrollMemory.ViewScrollMemory.Set | frontend/src/ui-state.ts:60-69 | stores a positive finite value as the newest and evicts from the oldest, else forgets the key |
| ScrollMemory.ViewScrollMemory.Delete | frontend/src/ui-state.ts:70-72 | forgets exactly that key |
| ScrollMemory.SizeIsBounded | frontend/src/ui-state.ts:64-68 | after any operations the size is within the limit, keys are distinct and values positive |
| ScrollMemory.RetainedIsLastStored | frontend/src/ui-state.ts:60-69 | every retained value is the last one set for its key |
| ScrollMemory.LeastRecentlyUsedGuarantee | frontend/src/ui-state.ts:52-69 | a stored key is still returned after any operations that neither set nor delete it and touch fewer than `limit` other keys |
| ScrollMemory.EvictionIsExact | frontend/src/ui-state.ts:64-68 | when only other keys are stored, it is returned if and only if fewer than `limit` distinct ones were |
| ScrollMemory.HitRenewsTheGuarantee | frontend/src/ui-state.ts:53-59 | a key that was just returned stays as long again as one just stored |
| ScrollMemory.EvictionAfterHitIsExact | frontend/src/ui-state.ts:53-69 | after a hit, too, it is returned if and only if fewer than `limit` distinct other keys were stored |
| ScrollMemory.ValuesAfterOperation | frontend/src/ui-state.ts:52-72 | below the limit each operation changes the value of its own key alone: reads change nothing, a positive finite store stores, everything else forgets |
| ScrollMemory.FullStoreEvictsTheOldest | frontend/src/ui-state.ts:64-68 | at the limit a store of a new key gives up exactly the oldest entry |

## Left out

- File system, sockets, HTTP framing, windows, dialogs, Win32 calls, keyring, telemetry: only their success or failure appears, as an argument.
- Wall-clock durations and fairness: a timeout may fire at any step; only safety, termination of loops and the possibility of recovery are proved.
- The test switch that disables interface preferences: the model keeps it off.
- Poisoned locks: the desktop code recovers them, and the event source's and the ticket registry's refusals on them are not modelled.
- `ensure_reset_allowed`, `ensure_update_allowed` and the other domain refusals: arguments of the attempt's steps, which may come out either way.
- The Windows process-exit fence of the lifecycle: it adds no state of its own; its shutdown call is one that a prepared update may make in `ShellServer`, and a failure there is the installer's abandonment.
- In the terminal runs alone the server may settle at any time once the tasks have joined, and the fence may be passed by any owner of the loop's end: both only add behaviour, and `ShellServer` replaces the first by the server's own pipeline.
- `shutdown_server_after_failure` before a lifecycle owner exists: there is no terminal state yet, and the pipeline by itself is `ApiShutdown`.
- The ring of the broadcast channel: the library rounds its capacity up to a power of two; the theorems hold for every capacity of at least one.
- Sends with no subscriber: the library then drops the message, which no receiver could have read; the model retains it.
- `restartInstalledUpdate` and toasts: they keep a poll open until they return and change none of the client's variables.
- UpdateRuns.SnapshotStep: a snapshot may be delivered more than once, which only adds behaviour.
- The update server's handling of a command: its history is any sequence of flows whose revision does not decrease.
- The automatic check's timers, back-off and release information: no variable of the command protocol depends on them.
- TransportAuthority.LocalApiAuthority.Mint: candidates are a given supply that holds one not stored, because the source draws at random until it finds one.
- Capability header, origin checks and constant-time comparison: they hold no state over time.
- `is_stream_path`, `is_media_path`, target parsing and percent decoding: parameters of every theorem that uses them.
- TicketQuery.WithoutTicket: a rewritten URI that the URI library refuses to parse is not modelled, because its characters were already accepted.
- BundleMetrics.DeriveMetrics: the rules for path characters are a parameter; reading, hashing and the canonical form of the manifest are left out.
- The order in which hash sets are walked: results do not depend on it, so the model picks any element.
- Navigation stacks, presenters, data decoders, themes, sound, generated types: field copying without a hard property.
