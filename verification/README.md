# Verified model of Veyport's stateful protocols

This project models the parts of Veyport whose promises range over whole runs, including crashes,
races and lost replies, and proves those promises:

- the agent's self-update with rollback: journal, supervisor, binary, backups, Hub confirmation,
  and the order of versions it installs;
- the shared session budget and the update lease on it;
- at-most-once command execution: claim journal, preparations, scripts, launches, runs, close;
- the protected archive: ledger, manifests, policy anchors, receipts and their verification;
- the framed byte tunnel;
- the archive-to-search exporter;
- the protected input spool: byte accounting and the walk over the device graph.

`dafny verify dfyconfig.toml` checks everything.

## How to read it

Protocols whose steps interleave between processes or goroutines are event machines: `Enabled` says
when a step may happen, `Apply` what it does, `Possible` and `After` run a sequence of steps, and the
main lemmas quantify over every possible sequence. An event is one critical section, one rename, one
channel operation, one service-manager call. Objects that are changed in place under a mutex are
classes, and their loops are loops; where other requests may act between two steps of a call, the
call contains an explicit `Interfere` that changes the shared state in any way the others may. For the
archive these are the steps `Create` and `SignToken`, allowed only for content that fits its key and
for tokens backed by the ledger; the requests are proved to take no other step, under interference
by any sequence of them, and the main results hold after every such sequence.

Safety says what no disturbance can bring about; what the code is for is stated where nothing disturbs
it: as runs that lead to the wanted state, or, for an object in a `calm` world where nobody else acts and
every call gets its reply, as exact conditions for success.

| file | models |
|---|---|
| `Basics`, `Text` | optional values, byte strings, byte-wise string order, decimal numerals |
| `Versions` | `proto/updateutil/version.go` |
| `UpdateProtocol`, `UpdateSafety`, `UpdateVersions` | the update machine, its invariant and results, version growth |
| `UpdateLimits`, `UpdateRollback` | which starts of the service are harmless; when a rollback is carried through |
| `UpdateForward` | what an update, or its rollback, achieves when its calls succeed |
| `UpdateFiles` | the download and copy loops |
| `SessionBudget` | the budget object and the lease machine |
| `ExecutionJournal`, `ExecutionManager` | the claim journal object, the execution machine |
| `ExecutionCalls` | the manager's critical sections on prepared entries, as an object |
| `ExecutionOwnership`, `ExecutionOnce`, `ExecutionStatus`, `ExecutionScripts` | who owns each unit; at-most-once start; what Status answers; protected scripts |
| `ExecutionProgress` | what an undisturbed execution achieves |
| `Receipts`, `ArchiveStore`, `ArchiveService` | records and receipts; what the stores keep; the requests |
| `Tunnel`, `TunnelSafety`, `TunnelProgress`, `TunnelConn` | the two-ended machine, its safety, what it achieves undisturbed, the Conn object's calls |
| `Exporter` | the index and the exporter |
| `Spool`, `DeviceWalk` | byte accounting; the encrypted-device walk |

Assumptions about the surroundings, all explicit in the models:

- A SHA-256 digest is represented by the content it identifies. A token carries the key that signed
  it, so only the holder of the key can produce it.
- A rename is atomic and visible at once; it survives a power loss for certain only after its
  directory was synced. Until then a power loss may leave the old or the new content.
- A successful service stop leaves no agent running until a start or a reboot, and a failed
  `systemd-run` started no unit. An operator may start the stopped service whenever `SafeStart` holds:
  not between a supervisor's stop and its copy of other bytes, and not from bytes that a power loss may
  still take back if the process started could confirm them. `StartIsHarmlessIffSafe` proves that in
  every reachable state exactly these starts are harmless; the code does not prevent the others.
- An update operation ID is not staged again once it was launched (the Hub draws a fresh UUID per
  operation, hub/internal/grpcserver/agent_updates.go:348), and only protocol steps write the binary.
- A failed launch has written its failure before its record can be superseded, 190 s past expiry (the
  launch call itself ends at expiry or after two minutes). `LaunchOutlivesSupersessionIff` shows that this
  is the exact bound, and `LateFailureOverwritesNewerRecord` what a later write would do. Wall time never
  goes back.
- Preparation IDs are fresh random values.
- Archive stores are conditional-create maps: a key is written at most once, a create may be stored
  although its reply is lost, and stored objects are not deleted within the model.
- All instances of the receipt service share one configuration and signing key.
- The tunnel's transport delivers frames in order and without loss.

## Model

| member | source | states |
|---|---|---|
| `UpdateSafety.ConfirmedMeansInstalled` | agent/internal/update/supervisor.go:61-213 | After every run, with kills and power losses between any two steps, a confirmed journal says `succeeded` only if the target is installed and `rolled_back` only if the original is |
| `UpdateSafety.OriginalAlwaysRecoverable` | agent/internal/update/supervisor.go:107-190 | From `installing` on, the backup holds exactly the original and the installed file is the whole original or the whole target |
| `UpdateSafety.OneFinalOutcome` | agent/internal/update/runtime.go:443-478 | No run confirms one operation both as succeeded and as rolled back |
| `UpdateSafety.ConfirmedRecordIsFinal` | agent/internal/update/supervisor.go:43-59 | A confirmed record changes only when a different operation is staged over it, or by a power loss before its directory sync completed |
| `UpdateSafety.ConfirmedUntilReplaced` | agent/internal/update/supervisor.go:192-213 | A durable confirmation stays in the journal through every run, power losses included, until another intent is written |
| `UpdateSafety.OnlyCurrentSupervisorReplacesBinary` | agent/internal/update/supervisor.go:79-137 | Whenever the binary changes, the supervisor lock is held for the journal's current operation and the service is stopped |
| `UpdateSafety.LiveOperationCannotBeSuperseded` | agent/internal/update/bootstrap.go:192-194 | A live supervisor, or a launch still undecided, makes `canSupersede` false: its bounded life ends inside the 190 s delay |
| `UpdateSafety.ReplacedOperationIsPowerless` | agent/internal/update/bootstrap.go:118-140 | From the durable intent that replaces a launched operation's record, in every run: its supervisor never gets the lock, no journal that a power loss may leave is its, and its remaining steps change neither journal nor binary |
| `UpdateSafety.IntentSupersedes` | agent/internal/update/runtime.go:262-277 | A durable intent over a launched operation's record supersedes that operation, its launch and its lock included |
| `UpdateSafety.SupersededForever` | agent/internal/update/supervisor.go:79-91 | A superseded operation gets neither the supervisor lock nor a journal record again, in any run |
| `UpdateSafety.SupersededIsIdle` | agent/internal/update/supervisor.go:61-91 | The steps an old supervisor can still take change neither journal nor binary |
| `UpdateSafety.RunIsSafe` | agent/internal/update/supervisor.go:61-213 | The safety invariant (journal, binary, backup, lock, lease of life, launch bookkeeping) holds after every run |
| `UpdateSafety.StepIsSafe` | agent/internal/update/runtime.go:202-330 | Every single event of agent, stager, supervisor, Hub and power keeps the safety invariant |
| `UpdateSafety.ConfirmSafe` | agent/internal/update/runtime.go:443-478 | Confirm's write, durable or not, keeps the invariant in both outcomes |
| `UpdateSafety.InstallTargetSafe` | agent/internal/update/supervisor.go:107-137 | The install rename keeps the invariant whether or not its sync completes |
| `UpdateSafety.RestoreOriginalSafe` | agent/internal/update/supervisor.go:161-190 | The restore rename keeps the invariant whether or not its sync completes |
| `UpdateSafety.BeginRollbackSafe` | agent/internal/update/supervisor.go:195-213 | Deciding for rollback under the journal lock keeps the invariant against a concurrent confirmation |
| `UpdateSafety.StageSafe` | agent/internal/update/runtime.go:262-277 | Replacing the journal by a new intent keeps the invariant for the operation replaced |
| `UpdateVersions.ConfirmedVersionsIncrease` | agent/internal/update/runtime.go:172-188 | Over every run, each later confirmed update installed a strictly newer version than every earlier one |
| `UpdateVersions.RunKeepsVersions` | agent/internal/update/runtime.go:183-186 | The version bookkeeping behind it holds after every run |
| `UpdateLimits.StartIsHarmlessIffSafe` | agent/internal/update/supervisor.go:118-137 | In every reachable state a start of the stopped service keeps every later confirmation truthful if and only if `SafeStart` holds |
| `UpdateLimits.StartBeforeInstallBreaksConfirmation` | agent/internal/update/supervisor.go:118-125 | From every safe state between the stop and the copy of the target, a start leads to a durable false confirmation |
| `UpdateLimits.StartBeforeRestoreBreaksConfirmation` | agent/internal/update/supervisor.go:172-177 | From every reachable state between the stop for rollback and the copy of the original over the target, a start leads to a false confirmation of the next attempt |
| `UpdateLimits.StartOnUndurableBytesBreaksConfirmation` | agent/internal/update/supervisor.go:271-275 | After a copy whose directory sync failed, a start from which the agent can confirm leads to a durable false confirmation |
| `UpdateRollback.RollbackRestartsIff` | agent/internal/update/supervisor.go:161-190 | A decided rollback whose calls succeed goes on to start the original in every run, if and only if the original cannot report before it is stopped |
| `UpdateRollback.UnreportedRun` | agent/internal/update/supervisor.go:161-190 | Until the rollback is marked no event of such a run confirms it or makes the supervisor give up |
| `UpdateRollback.RollbackProgresses` | agent/internal/update/supervisor.go:172-185 | The next step of such a rollback is possible and moves it on, and the last leaves the original running |
| `UpdateRollback.EarlyConfirmationLeavesServiceStopped` | agent/internal/update/supervisor.go:180-185 | Otherwise a run of succeeding calls ends with the rollback truthfully confirmed and the service stopped |
| `UpdateRollback.LateFailureOverwritesNewerRecord` | agent/internal/update/runtime.go:280-288 | At every time after its record can be superseded, a launch failure would replace a newer operation's record |
| `UpdateRollback.LaunchOutlivesSupersessionIff` | agent/internal/update/bootstrap.go:192-194 | The clock assumption on an undecided launch admits a time if and only if the record cannot be superseded at it |
| `UpdateForward.UpdateSucceeds` | agent/internal/update/supervisor.go:61-138 | Every admissible request for the installed original, with every call succeeding and the Hub confirming, ends with the target confirmed, durably installed and running, and the supervisor gone |
| `UpdateForward.UpdateIsCarriedThrough` | agent/internal/update/supervisor.go:107-138 | In every undisturbed interleaving the supervisor goes forward until the update is finished, and it stays finished |
| `UpdateForward.ForwardProgresses` | agent/internal/update/supervisor.go:107-134 | At every forward position the next succeeding call is possible and moves on; the stop leaves no agent, the copy the durable target, the start a running target that can confirm |
| `UpdateForward.InstallReachesTarget` | agent/internal/update/supervisor.go:107-134 | One succeeding call after another leads from any forward position to the running target |
| `UpdateForward.FailureTurnsToRollback` | agent/internal/update/supervisor.go:118-134 | Every failure after the mark `installing` turns to recovery, and recovery decides for rollback exactly if success is not confirmed |
| `UpdateForward.RollbackRestores` | agent/internal/update/supervisor.go:161-190 | A decided rollback whose calls succeed ends with the original durably installed, running and, if stamped, able to confirm |
| `UpdateForward.GivingUpFreesTheJournal` | agent/internal/update/runtime.go:280-301 | An operation given up before anything was installed is durably failed, let go of, and leaves the journal open to every new operation |
| `UpdateForward.DeadLauncherIsSuperseded` | agent/internal/update/bootstrap.go:192-194 | A staged operation whose launcher died can be replaced, by an operation for the same original, once the delay has passed |
| `UpdateFiles.Download` | agent/internal/update/runtime.go:332-375 | The download is accepted if and only if the frames are well formed, contiguous, properly ended and spell the target |
| `UpdateFiles.Directory.CopyVerified` | agent/internal/update/supervisor.go:227-275 | Succeeds exactly if source, destination rule, bytes read, rename and sync are all right; the destination is only ever its old content or the expected bytes |
| `Versions.CompareVersions` | proto/updateutil/version.go:91-110 | On every pair of strings: refused, or precedence of section 11 of SemVer 2.0.0 extended by commits ahead |
| `Versions.CompareParsed` | proto/updateutil/version.go:91-110 | The branch order of the comparison computes that precedence |
| `Versions.ComparePrerelease` | proto/updateutil/version.go:111-122 | The loop over identifiers computes list precedence |
| `Versions.IdentifierOrderIsPrecedence` | proto/updateutil/version.go:123-135 | Length-then-bytes order of identifiers is numeric order on numbers, text order on words, numbers first |
| `Versions.PrecedenceFlips` | proto/updateutil/version.go:91-110 | The order is antisymmetric in its arguments and reflexive |
| `Versions.PrecedenceTransitive` | proto/updateutil/version.go:91-110 | The order is transitive on all accepted versions |
| `Versions.NewerIsStrictOrder` | proto/updateutil/version.go:91-110 | "Strictly newer" on strings is irreflexive and transitive |
| `Versions.HistoricalBuildBetween` | proto/updateutil/version.go:21-56 | A historical build lies strictly between its base release and every higher core version |
| `Versions.SemanticRoundTrip` | proto/updateutil/version.go:21-56 | Every well-formed semantic text parses to exactly what it denotes |
| `Versions.SemanticSound` | proto/updateutil/version.go:21-72 | Every accepted semantic text is the text of some well-formed reading, and means that reading |
| `Versions.HistoricalRoundTrip` | proto/updateutil/version.go:21-56 | Every well-formed historical text parses to its base with that many commits ahead, or is refused exactly for range |
| `Versions.BaseIsRelease` | proto/updateutil/version.go:21-56 | The base of a historical version parses as a plain release or not at all |
| `SessionBudget.Budget.Acquire` | agent/internal/sessionlimit/budget.go:71-82 | Admits exactly when no maintenance is held and the maximum is not reached |
| `SessionBudget.Budget.Release` | agent/internal/sessionlimit/budget.go:98-104 | Gives one unit back, floored at zero |
| `SessionBudget.Budget.AcquireActivity` | agent/internal/sessionlimit/budget.go:21-39 | Admits an activity exactly when allowed and hands out a fresh unfired release |
| `SessionBudget.ActivityRelease.Run` | agent/internal/sessionlimit/budget.go:21-39 | The release closure takes effect at most once |
| `SessionBudget.Budget.TryMaintenance` | agent/internal/sessionlimit/budget.go:83-92 | Succeeds exactly on a quiescent budget |
| `SessionBudget.Budget.EndMaintenance` | agent/internal/sessionlimit/budget.go:93-97 | Clears only the maintenance flag |
| `SessionBudget.LeaseExcludesWork` | agent/internal/update/runtime.go:216-240 | In every reachable state the lease equals the maintenance flag, and while it is held no session or activity exists or can be admitted |
| `SessionBudget.BeginTakesLease` | agent/internal/update/runtime.go:216-232 | In every reachable state Begin leaves the lease held exactly on a supported node that held it or was quiescent |
| `SessionBudget.LeaseIsReturned` | agent/internal/update/runtime.go:323-330 | In every reachable state an accepted confirmation, a release or a reported failure ends the lease, and admission depends on the limits alone |
| `SessionBudget.RecheckTakesLease` | agent/internal/update/runtime.go:117-170 | In every reachable state a node with an unfinished update is supported exactly once it holds the lease, which it takes exactly if quiescent |
| `SessionBudget.AdmissionIsCounted` | agent/internal/sessionlimit/budget.go:21-104 | In every reachable state an admitted session or activity is counted and its release takes exactly that back |
| `SessionBudget.RunKeepsLease` | agent/internal/update/runtime.go:117-170 | The lease invariant, with exact counts of sessions and unfired releases, holds over every interleaving |
| `SessionBudget.StepKeepsLease` | agent/internal/update/runtime.go:406-478 | Each event keeps it, and no release finds its counter at zero |
| `ExecutionJournal.Journal.Lookup` | agent/internal/execution/journal.go:80-117 | Memory first, then the file; an unfinished, torn or unreadable file, or any open or read error but not-exist, answers an unknown outcome |
| `ExecutionJournal.Journal.Claim` | agent/internal/execution/journal.go:118-147 | Refuses exactly the claimed IDs; otherwise ends where the first system call fails, and durably if none does; any failure after the exclusive create consumes the ID |
| `ExecutionJournal.Journal.Update` | agent/internal/execution/journal.go:170-212 | Refuses exactly unclaimed IDs; otherwise ends where the first system call fails, with what is then in memory, visible, and left by a power loss |
| `ExecutionJournal.SettledIsAnswered` | agent/internal/execution/journal.go:80-117 | A durably recorded result is the answer exactly when the file can be read, otherwise the outcome is unknown; its ID can never be claimed again |
| `ExecutionJournal.UnreadableResultIsUnknown` | agent/internal/execution/journal.go:95-108 | The input on which a recorded result is not returned: claim, durable result, and a lookup whose read fails |
| `ExecutionOnce.StartsAtMostOnce` | agent/internal/execution/manager.go:271-424 | Over every run of concurrent Starts, restarts on the same journal and power losses, each ID starts a process at most once |
| `ExecutionOnce.StartedIsNeverForgotten` | agent/internal/execution/manager.go:259-270 | After a start, Status never answers `not_found` or `prepared`, whatever follows and whether or not the journal can be read |
| `ExecutionOnce.DurableResultIsFinal` | agent/internal/execution/journal.go:80-212 | Whatever follows, Status returns a durably recorded result if and only if it can read the file, and an unknown outcome if it cannot |
| `ExecutionStatus.LiveStatusIsExact` | agent/internal/execution/manager.go:259-270 | In every reachable state Status answers `claimed` from the claim to the running record and `running` from there to the report, whether or not the file can be read |
| `ExecutionStatus.InterruptedIsUnknown` | agent/internal/execution/journal.go:95-117 | An execution under way at a restart or power loss answers an unknown outcome afterwards |
| `ExecutionStatus.RunStaysLive` | agent/internal/execution/journal.go:118-212 | The journal's memory of every execution under way is exact after every run |
| `ExecutionOnce.RunKeepsOnce` | agent/internal/execution/manager.go:271-424 | The journal invariant holds after every run, and the history of starts and results only grows |
| `ExecutionOnce.SurvivorKeeps` | agent/internal/execution/journal.go:118-212 | Whatever a power loss leaves, consumed IDs stay consumed and settled results stay settled |
| `ExecutionOnce.UpdateKeepsConsumed` | agent/internal/execution/journal.go:170-212 | No outcome of an update makes an ID claimable; a completed final update settles it |
| `ExecutionOwnership.BudgetCountsOwners` | agent/internal/execution/manager.go:131-229 | In every reachable state the units in use are exactly the owners (Prepare calls, prepared entries, Start calls, runs, pending releases, terminals) and no ID has two owners |
| `ExecutionOwnership.FloorNeverFires` | agent/internal/execution/manager.go:425-505 | No event of any run releases more units than are in use |
| `ExecutionOwnership.CloseDrains` | agent/internal/execution/manager.go:467-499 | When Close has returned, nothing is prepared, launching or running |
| `ExecutionOwnership.RunKeepsOwnership` | agent/internal/execution/manager.go:131-505 | The ownership invariant holds after every interleaving of expiry, cancel, bad frame, start failure, finish and close |
| `ExecutionOwnership.StepKeepsOwnership` | agent/internal/execution/manager.go:311-331 | Every event hands each unit from one owner to at most one other |
| `ExecutionProgress.ExecutionCompletes` | agent/internal/execution/manager.go:131-505 | Any unused ID within the budget can be prepared, started once and run to any outcome, which is durable and answered, and the manager is then exactly as it was |
| `ExecutionProgress.ScriptCompletes` | agent/internal/execution/manager.go:271-505 | The same with a protected script, attached and uploaded in any pieces |
| `ExecutionProgress.ScriptIsUploaded` | agent/internal/execution/script.go:46-89 | A script sent in order, in any bounded pieces, and ended, completes its preparation with exactly its bytes |
| `ExecutionProgress.PreparationIsInstalled` | agent/internal/execution/manager.go:131-229 | Preparing an unused ID within the budget takes one unit and installs the preparation |
| `ExecutionProgress.PreparationRuns` | agent/internal/execution/manager.go:271-424 | A complete preparation of an unclaimed ID starts once, is answered as running, and its unit goes to the run |
| `ExecutionProgress.RunFinishes` | agent/internal/execution/manager.go:500-505 | A run that ends has its result settled and answered, and its unit given back |
| `ExecutionProgress.EveryEndReturnsOneUnit` | agent/internal/execution/manager.go:311-331 | However a call ends its execution, its entry is gone, no other is touched, and exactly one unit comes back |
| `ExecutionProgress.CloseReturns` | agent/internal/execution/manager.go:467-499 | With no Start call and no run left Close returns, with one unit given back per prepared entry |
| `ExecutionScripts.LaunchedScriptIsWhole` | agent/internal/execution/script.go:33-92 | Every protected script being launched or run is the concatenation of its accepted chunks, at the declared length and digest |
| `ExecutionScripts.BadFrameEndsPreparation` | agent/internal/execution/script.go:93-107 | After an invalid frame its preparation is gone, and no later event prepares, admits, launches or runs it |
| `ExecutionScripts.RunKeepsScripts` | agent/internal/execution/manager.go:302-306 | Script contents and the separation of prepared, invalid and admitted bindings hold after every run |
| `ExecutionScripts.CopyProtectedInput` | agent/internal/execution/manager.go:663-711 | Terminates for every endless source; reaching the source's end means the process was given exactly the admitted bytes; a source that delivers them, undisturbed, reaches it; never more than the declared length |
| `ExecutionCalls.Live.ExpireTimer` | agent/internal/execution/manager.go:230-240 | A timer drops its own preparation and releases its unit, or does nothing; every unit keeps one owner |
| `ExecutionCalls.Live.AttachTransport` | agent/internal/execution/manager.go:243-258 | Attaches once, to the live matching preparation only, and moves no unit |
| `ExecutionCalls.Live.CancelPrepared` | agent/internal/execution/manager.go:425-443 | Drops exactly the named prepared entry, with exactly one release |
| `ExecutionCalls.Live.ReceiveChunk` | agent/internal/execution/script.go:46-68 | The named preparation survives exactly an acceptable chunk; otherwise it goes with exactly one release |
| `ExecutionCalls.Live.ReceiveEOF` | agent/internal/execution/script.go:69-89 | The named preparation survives exactly a matching end; otherwise it goes with exactly one release |
| `ExecutionCalls.Live.InvalidateScript` | agent/internal/execution/script.go:93-107 | The named preparation is gone, with one release if it was there |
| `ExecutionCalls.Live.CloseSection` | agent/internal/execution/manager.go:467-485 | The loop empties the prepared entries with exactly one release each and keeps every other unit's owner; a second Close changes nothing |
| `ArchiveStore.ReceiptsAgreeAcrossRun` | hub/internal/auditingest/service.go:86-250 | Receipts for one event ID, signed at any two moments of any run, agree on record, type and manifest version, and on their times where these are fixed |
| `ArchiveStore.ReceiptsAgree` | hub/internal/auditingest/ledger.go:42-84 | The same within one state |
| `ArchiveStore.ReceiptIsEvidence` | hub/internal/auditingest/service.go:202-250 | Behind every receipt the record and every declared attachment are archived with their digests under one common retention |
| `ArchiveStore.EvidenceIsRetained` | hub/internal/auditingest/ledger.go:20-31 | All evidence behind a policy receipt lies in the governance archive, behind any other in the archive of originals, retained for at least that archive's configured time from its issue |
| `ArchiveStore.AnchorReceiptIsAnchored` | hub/internal/auditingest/anchors.go:52-81 | Behind every receipt for a policy anchor, that anchor is stored for its version |
| `ArchiveStore.AdmissionEndsWithPreparation` | hub/internal/auditingest/service.go:128-143 | No admission receipt expires after its preparation |
| `ArchiveStore.IssuedAcceptedExactlyInWindow` | hub/internal/auditgate/verifier.go:58-117 | Every receipt ever signed passes for exactly its own record and nonce, by exactly the matching verifiers, exactly from issue less the skew up to expiry |
| `ArchiveStore.HistoricalNeverExpires` | hub/internal/auditgate/verifier.go:141-155 | Historical verification accepts exactly lifecycle and denial evidence for exactly its own record and nonce, from issue less the skew on, for ever |
| `ArchiveStore.AnchorVersionsAreContiguous` | hub/internal/auditingest/anchors.go:52-81 | The stored anchor versions of an installation are exactly 2..k |
| `ArchiveStore.AnchorsGrowContiguously` | hub/internal/auditingest/anchors.go:26-81 | Over every run the anchors stay exactly 2..k, and every stored anchor stays as it was written |
| `ArchiveStore.RunKeepsGood` | hub/internal/auditingest/service.go:86-250 | All promises about ledger, manifests, anchors and receipts hold after every run of allowed steps, and nothing stored changes |
| `ArchiveService.Service.Take` | hub/internal/auditingest/service.go:26-38 | Every write of the service is one allowed step: a conditional create of content that fits its key, or the signing of a backed token |
| `ArchiveStore.CreateKeepsGood` | hub/internal/auditingest/service.go:187-200 | A conditional create of fitting content keeps every promise of both archives |
| `ArchiveStore.IssueKeepsGood` | hub/internal/auditingest/service.go:252-268 | Signing a backed token keeps every promise |
| `Receipts.AcceptedExactlyInWindow` | hub/internal/auditgate/verifier.go:58-117 | A receipt signed for one expectation passes for another exactly if both demand the same, at matching verifiers that allow its life and retention, inside its window |
| `Receipts.AcceptedIffSignedForExpectation` | hub/internal/auditgate/verifier.go:58-117 | Any token at all is accepted exactly if it is, field by field, what a trusted service signs for this expectation, well timed and inside its window |
| `Receipts.AnchorKeysSortByVersion` | hub/internal/auditingest/anchors.go:26-50 | The text order of 20-digit anchor keys is the numeric order of their versions |
| `Receipts.KeyTextIsInjective` | hub/internal/auditrecord/record.go:173-183 | Distinct valid keys have distinct texts across and within all key families |
| `ArchiveService.Service.Put` | hub/internal/auditingest/s3.go:107-130 | A create never changes a stored object; success names exactly the stored version |
| `ArchiveService.Service.Find` | hub/internal/auditingest/s3.go:131-154 | Resolves a key to the exact stored version, or its absence |
| `ArchiveService.Service.Verify` | hub/internal/auditingest/s3.go:155-166 | Success means that exact version is stored with at least the demanded retention |
| `ArchiveService.Service.ListAnchors` | hub/internal/auditingest/s3.go:209-233 | A paged listing contains everything present at its start and nothing absent at its end |
| `ArchiveService.Service.ProtectIn` | hub/internal/auditingest/service.go:187-200 | Success means the data is stored under the key for the demanded retention, whoever stored it |
| `ArchiveService.Service.ReadLedger` | hub/internal/auditingest/ledger.go:42-52 | Success returns the event's stored ledger entry |
| `ArchiveService.Service.EnsureLedger` | hub/internal/auditingest/ledger.go:56-84 | Success means the ledger holds exactly the wanted entry, whoever won the create; undisturbed it fails exactly with a conflict, and creates the entry for the governance retention |
| `ArchiveService.Service.LatestAnchor` | hub/internal/auditingest/anchors.go:26-50 | The anchor returned is stored and at least as new as every anchor at the start; not found means there was none |
| `ArchiveService.LastIsNewest` | hub/internal/auditingest/anchors.go:39-43 | The lexicographically last key is the numerically latest version |
| `ArchiveService.Service.EnsureAnchor` | hub/internal/auditingest/anchors.go:52-81 | Success means the version's one immutable anchor is this record and manifest; undisturbed it succeeds exactly if the anchor comes next or is kept already |
| `ArchiveService.Service.CheckNext` | hub/internal/auditingest/anchors.go:67-76 | Undisturbed, passes exactly if the expected version is the latest, counting none as 1 |
| `ArchiveService.Service.SameAnchor` | hub/internal/auditingest/anchors.go:58-63 | Undisturbed, true exactly if the stored anchor is this record's own and kept long enough |
| `ArchiveService.Service.CheckContent` | hub/internal/auditingest/service.go:222-229 | Success means everything a ledger entry vouches for is stored; undisturbed, exactly that is needed |
| `ArchiveService.Service.Reconcile` | hub/internal/auditingest/service.go:202-250 | A receipt is signed only for archived content listed in the ledger and, for a policy record, anchored; undisturbed it is signed exactly if the manifest is signable now, and is then exactly determined |
| `ArchiveService.Service.Enter` | hub/internal/auditingest/service.go:230-240 | Success means ledger and anchors hold the record; undisturbed, exactly if nothing stands against it |
| `ArchiveService.Service.SignManifest` | hub/internal/auditingest/service.go:241-250 | Fixed kinds keep the manifest's times, others get fresh ones, refused exactly if the retention ends before they do |
| `ArchiveService.Service.NewTimes` | hub/internal/auditingest/service.go:128-141 | Issue and expiry of a new manifest; refused exactly when the preparation has run out |
| `ArchiveService.Service.ProtectContent` | hub/internal/auditingest/service.go:144-165 | Every attachment and the envelope are stored, in order, before the manifest; undisturbed, exactly if the inputs are the declared ones, all for exactly the given retention |
| `ArchiveService.Service.PreserveNew` | hub/internal/auditingest/service.go:128-181 | A lost reply or a lost race resolves to the stored winner; undisturbed, a new record gets its receipt exactly if inputs and times allow, with evidence retained for exactly the configured time |
| `ArchiveService.Service.Preserve` | hub/internal/auditingest/service.go:86-181 | Under any interference keeps all promises and returns receipts for the submitted record only; undisturbed, a new record succeeds exactly if inputs and times allow, a known one exactly if signable, and another record under its ID is a conflict |
| `ArchiveService.Service.Lookup` | hub/internal/auditingest/anchors.go:85-120 | A receipt returned is for the asked event ID and record; undisturbed, given exactly if the listed record is the asked one and signable |
| `ArchiveService.Service.Anchor` | hub/internal/auditingest/anchors.go:124-167 | The anchor signed carries the nonce, belongs to the installation and is at least as new as every anchor at the start; undisturbed it is the latest, signed exactly if its retention allows |
| `ArchiveService.Service.ReadAnchor` | hub/internal/auditingest/anchors.go:135-157 | The latest anchor with its manifest and record checked; undisturbed, exactly the latest version, or not found exactly if there is none |
| `TunnelSafety.ReadIsPrefixOfWritten` | proto/applicationproxy/conn.go:72-225 | Over every run, bytes read are a prefix of bytes written, and so are bytes reported as written |
| `TunnelSafety.EOFMeansEverythingRead` | proto/applicationproxy/conn.go:119-187 | Read reports end of file only after CloseWrite, with every byte written before it read |
| `TunnelSafety.NothingFollowsCloseWrite` | proto/applicationproxy/conn.go:156-187 | No byte is added behind a CloseWrite |
| `TunnelSafety.PeerFrameIsNeverRejected` | proto/applicationproxy/conn.go:102-118 | While a Conn is open its Deliver accepts every frame of the peer |
| `TunnelSafety.CloseStopsSending` | proto/applicationproxy/conn.go:63-98 | After Close, whatever follows, at most the frame already handed to the transport goes out |
| `TunnelSafety.CloseReleasesWaiters` | proto/applicationproxy/conn.go:63-98 | After Close a waiting writer, the sender and a waiting receiver can all leave |
| `TunnelProgress.EverythingArrives` | proto/applicationproxy/conn.go:72-225 | Whatever is written, in whatever pieces, and then closed, can all be read, followed by the end of file |
| `TunnelProgress.WriteArrives` | proto/applicationproxy/conn.go:156-174 | Whatever one Write is given arrives, frame by frame |
| `TunnelProgress.CloseWriteArrives` | proto/applicationproxy/conn.go:175-187 | The end of the stream arrives after it |
| `TunnelProgress.FrameIsSent` | proto/applicationproxy/conn.go:72-98 | An offered frame reaches the transport and its writer goes on with the rest |
| `TunnelProgress.FrameIsRead` | proto/applicationproxy/conn.go:102-155 | A frame on the wire is delivered and read |
| `TunnelSafety.RunKeepsInv` | proto/applicationproxy/conn.go:72-225 | The two-ended invariant holds under every choice of every select, deadline and close |
| `TunnelSafety.SendKeeps` | proto/applicationproxy/conn.go:72-98 | Each step of the sender goroutine keeps it, failed sends included |
| `TunnelSafety.WriteKeeps` | proto/applicationproxy/conn.go:156-225 | Each step of a writer keeps it, abandoned requests included |
| `TunnelSafety.ReadKeeps` | proto/applicationproxy/conn.go:102-155 | Each step of the receiver and the reader keeps it |
| `TunnelConn.Conn.Write` | proto/applicationproxy/conn.go:156-174 | The count returned is exactly the data of the frames sent, in order, numbered on; complete if and only if it succeeds, as it does on a healthy transport |
| `TunnelConn.Conn.CloseWrite` | proto/applicationproxy/conn.go:175-187 | The end mark is sent at most once, and on a healthy transport it is sent |
| `TunnelConn.Conn.Deliver` | proto/applicationproxy/conn.go:102-118 | Rejects exactly the frames that are not acceptable; otherwise takes the machine's steps: accepted if the slot is free and the Conn open, waiting exactly if the slot is full and the Conn open |
| `TunnelConn.Conn.Resume` | proto/applicationproxy/conn.go:110-117 | The waiting Deliver goes on: accepted into a free slot, dropped only on a closed Conn |
| `TunnelConn.Conn.Read` | proto/applicationproxy/conn.go:119-155 | On an open Conn without a deadline, returns bytes exactly if some have arrived, the end of file exactly if it arrived and all was read, and else waits; bytes come off the front in order |
| `Exporter.Exporter.Step` | hub/internal/auditingest/exporter.go:70-142 | Records its time, and at the head of the ledger a new pass; a step that completes a pass has dealt with every entry present when that pass began: sent in the pass with a checked manifest, or past retention or older than seven days at the time of one of its steps; success and failure leave exact retry times; undisturbed, a serviceable listing is worked off to its end |
| `Exporter.Exporter.Drive` | hub/internal/auditingest/exporter.go:57-190 | Over every sequence of steps, crashes with restarts and ledger growth, with failures of page, archive, sink and save anywhere, the finished passes are exactly those that steps completed, and each dealt with everything in the ledger when it began |
| `Exporter.Exporter.BeginStep` | hub/internal/auditingest/exporter.go:76-84 | The step's time is noted; a pass begins with the ledger's present entries exactly when the cursor is empty, otherwise the cursor's pass goes on |
| `Exporter.Exporter.WorkPage` | hub/internal/auditingest/exporter.go:84-129 | Success extends the pass, by reasons that arose in this step, to the page's end, and completes it when there is no next page |
| `Exporter.Exporter.HandlePage` | hub/internal/auditingest/exporter.go:88-126 | Success gives every entry of the page a reason that arose in this step |
| `Exporter.Exporter.Include` | hub/internal/auditingest/exporter.go:90-93 | An ill-formed or unordered entry is refused; otherwise its reason joins those before it exactly on success |
| `Exporter.Exporter.Handle` | hub/internal/auditingest/exporter.go:94-125 | Success skips an entry exactly if it is past retention, or else older than seven days, at the step's time; otherwise the entry was sent, once, with a manifest that belongs to it |
| `Exporter.Exporter.ReadEntry` | hub/internal/auditingest/exporter.go:98-114 | Success means a manifest that belongs to the entry; an invalid archive exactly one that does not; each later failure has its own code |
| `Exporter.Exporter.FetchPage` | hub/internal/auditingest/exporter.go:84-87 | The page lists everything behind the cursor up to its end, while the ledger grows |
| `Exporter.Exporter.Commit` | hub/internal/auditingest/exporter.go:130-142 | The cursor advances to the end of the page; without a next page the pass is finished and its time recorded; saved means durable and retried in 5 s, not saved is a first failure |
| `Exporter.Exporter.Fail` | hub/internal/auditingest/exporter.go:57-65 | Only the failure, its count and the retry time change, the wait doubling from 2 s to 128 s |
| `Exporter.Exporter.Save` | hub/internal/auditingest/exporter.go:158-190 | What a crash may leave after each way the save can end |
| `Exporter.Exporter.Restart` | hub/internal/auditingest/exporter.go:144-156 | Resuming from any surviving checkpoint resumes that checkpoint's own pass with its coverage |
| `Exporter.PageExtends` | hub/internal/auditingest/exporter.go:130-135 | A page extends coverage to its last key, or to the whole pass when there is no more |
| `Exporter.ExportKeys` | hub/internal/auditingest/export_index.go:36-62 | Accepts exactly bounded listings of valid IDs, ascending behind the cursor, and returns them |
| `Exporter.ExportIndex` | hub/internal/auditingest/export_index.go:64-95 | The page is the ledger's entries for the listed keys, continued at the last key if there is more; with the ledger reachable, exactly for bounded, ascending, known IDs |
| `Spool.Manager.Reserve` | proto/protectedinput/spool.go:165-177 | Refused when closed or sealed, over limit exactly at 16 MiB per spool or 128 MiB in all, otherwise reserved in full |
| `Spool.Manager.Store` | proto/protectedinput/spool.go:178-179 | A partial file write moves bytes from reservation to spool |
| `Spool.Manager.GiveBack` | proto/protectedinput/spool.go:180-183 | Exactly the unused reservation is returned |
| `Spool.Manager.Write` | proto/protectedinput/spool.go:165-184 | With other spools acting in between: accepted exactly within both limits on an open unsealed spool, and exactly the bytes the file took stay accounted |
| `Spool.Manager.Seal` | proto/protectedinput/spool.go:185-199 | Seals exactly an open unsealed spool that syncs, and changes no accounting |
| `Spool.Manager.MarkClosed` | proto/protectedinput/spool.go:208-216 | Only the first Close proceeds |
| `Spool.Manager.Settle` | proto/protectedinput/spool.go:217-219 | The spool's bytes are returned, once |
| `Spool.Manager.Close` | proto/protectedinput/spool.go:208-221 | With other spools acting in between, the sum stays exact |
| `Spool.AllClosedIsZero` | proto/protectedinput/spool.go:208-221 | With all spools closed nothing remains accounted |
| `Spool.TotalAfterChange` | proto/protectedinput/spool.go:165-221 | The sum changes by exactly what one spool's share changes |
| `DeviceWalk.EncryptedDevice` | proto/protectedinput/spool.go:97-101 | For a 64-bit device number: true exactly if the device of that name resolves and is encrypted |
| `DeviceWalk.DeviceNumberRoundTrip` | proto/protectedinput/spool.go:98-99 | Major and minor keep every bit of the device number |
| `DeviceWalk.DeviceNameIsInjective` | proto/protectedinput/spool.go:97-103 | Different device numbers have different names |
| `DeviceWalk.FmtDevice` | proto/protectedinput/spool.go:103-116 | Spells major and minor in decimal |
| `DeviceWalk.EncryptedSysPath` | proto/protectedinput/spool.go:117-138 | Terminates on every finite graph, restores the visited set, and answers for the current path |
| `DeviceWalk.WalkDecidesEncryption` | proto/protectedinput/spool.go:117-138 | From an empty path the walk decides exactly the least fixpoint, cycles included |
| `DeviceWalk.WalkIsSound` | proto/protectedinput/spool.go:117-138 | Whatever is on the path, an accepted device is encrypted |
| `DeviceWalk.WalkIsComplete` | proto/protectedinput/spool.go:117-138 | A device with a derivation that avoids the path is accepted |
| `DeviceWalk.EncryptedIsFixpoint` | proto/protectedinput/spool.go:94-96 | The specification satisfies "a crypt device, or backing devices that all qualify" in both directions |
| `DeviceWalk.EncryptedIsLeast` | proto/protectedinput/spool.go:94-96 | Every set closed under that rule contains all encrypted devices |
| `DeviceWalk.Decimal` | proto/protectedinput/spool.go:104-116 | The digit buffer of twenty suffices and spells the number's decimal numeral |

## Left out

- gRPC, TLS, S3 and JWT encodings, SHA-256, ELF and build-info parsing: libraries outside the repository.
- File permissions, ownership and symbolic-link checks, systemd and process-group signalling: kept only as success, failure or ambiguous outcome.
- Retry liveness of `Preserve` after a partial attachment write: stored objects keep their earlier retention, so only safety is stated.
- `ReadOriginal`, `Consume`, the execution output and interactive input loops, identity resolution: shallow given what is proved, or external claims.
- Rotation of the receipt signing key between service instances: fixed-time receipts refuse a different key, and the model uses one configuration.
- Sizes in bytes beside digests in archive references: a digest determines its content and therefore its size.
- Most field-shape checks of `Envelope.Validate`: only those the archive protocol relies on are modelled.
- CLI, web UI, Hub wiring, credential rotation, log tailing, heartbeats, provisioning and release scripts: presentation or plumbing.
- ConfirmedRecordIsFinal: a confirmation whose directory sync failed is reported as an error to the Hub and may be lost by a power loss; the lemma excludes exactly that crash.
- ListAnchors: the source gives up after sixteen pages; the model allows that failure at any time.
- Update supervisor and stager: modelled as interleaved events rather than methods, because other processes act between any two of their steps.
