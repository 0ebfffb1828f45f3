# A verified model of the coaching platform's core

The platform records coaching sessions, has a media provider transcribe them, extracts a ledger of
evidence-backed coaching points and lets people review it. This project models the parts whose
correctness depends on interleavings, crashes or arbitrary model output, and proves what they promise.

| file | what it models |
|---|---|
| `SessionStates.dfy` | the transition table and the guarded move |
| `Protocol.dfy` | sessions, jobs, workers, requests and the provider as a state machine over atomic steps |
| `ProtocolSafety.dfy` | the inductive invariant, kept by every step |
| `ProtocolTheorems.dfy` | what follows for every run |
| `Store.dfy` | the tables as an object, and the versioned commit |
| `Api.dfy`, `WorkerLoop.dfy` | the API's handlers and the worker's transactions, each exactly one step of the protocol or none |
| `JobEndings.dfy` | how a job ends: the verdicts, and what they leave in the tables |
| `Restore.dfy` | the restore script: renames, database replacement, fail-stop marker |
| `Review.dfy` | transcript revisions, ledger entries and human verification |
| `ReviewRace.dfy`, `ReconcileRace.dfy` | a verification overlapping with a new entry, and with a reconciliation |
| `Evidence.dfy`, `Gateway.dfy` | the API's evidence check, and the gateway's normalisation that must satisfy it |
| `Themes.dfy`, `Windows.dfy`, `StrictSchema.dfy` | grouping and summarising, extraction windows, the schema rewrite |
| `Matching.dfy`, `SummaryScore.dfy` | the two scorers |
| `Transcripts.dfy` | provider segments to transcript segments |

## How to read the protocol

A commit is a compare-and-swap on the version of every row it changes (`Store.Database.Commit`). Between
reading a row and committing, any number of other steps may happen, so a handler receives the rows it read
as parameters and may assume of them only what `ProtocolTheorems.EarlierRead` and
`ProtocolTheorems.EarlierJobRead` prove of any row read earlier in any run. `Store.Database.Valid()`
says that the tables are where some run of the protocol has led, so every theorem about runs holds of every
sequence of handler and worker transactions. A crash is a step that forgets what a worker holds; it may
happen between any two others.

Modelling decisions:

- The adapter is the shipped one: it transcribes on upload, has no idempotency key and no lookup, so the
  only marker is the upload marker.
- An upload starts when the checkpoint right before the provider call commits, since a worker may be suspended
  between that commit and the call. From then on the provider may create one recording for it at any later
  point, whether or not the worker lives, was told, or has given the call up.
- A reload reads tombstone, job and session row as one snapshot, and so do the reads that decide a resolution
  or a deletion; `Confirm`, `ResolveRead` and `DeleteRead` in `Protocol.dfy` rest on that.
- The last-resort job update after repeated races carries no version check in the program. It is modelled as
  one guarded atomic step that also advances the job's version.
- Whether a lease has expired is a parameter; the heartbeat is not modelled. Loops that retry a lost race three
  times are modelled as one attempt each.
- A provider webhook that reports a deletion is taken as truthful. Ids made by the program are fresh.
- A tombstone is left by a deletion request and also by the compensation of a merely cancelled upload
  (services/evidence-api/evidence_api/services.py:441), so a tombstone does not imply a deletion request.
- Restore: each `mv` and the rename transaction are atomic and durable, `rm` succeeds or the process dies,
  the archive holds all three directories, PostgreSQL is enabled, and only a boot recreates a directory.
- Folding of text and splitting it into tokens are parameters shared by both services.

## Results that limit what the code does

- `StrictSchema.RaisesExactly`: the schema rewrite treats the map of properties as a schema of its own. It
  fails with a missing key exactly when some such map itself looks like an object schema whose keywords are
  not all present; a property named `properties` is the typical case
  (`StrictSchema.PropertyNamedPropertiesRaises`).
- `StrictSchema.PropertiesKept`: for the same reason a property whose name is an unsupported keyword, such as
  `format`, disappears from the rewritten schema (`StrictSchema.PropertyNamedFormatDisappears`).
- `ReconcileRace.DecisionIsLeftBehindExactly`: ledger entries have no version, so a verification that overlaps
  with a reconciliation can leave a decision on an entry of a superseded revision. The lemma gives the exact
  schedules; `ReconcileRace.ADecisionOnASupersededRevision` is one in a session being reconciled.
- `Themes.CuttingLosesEntries`: once a summary has more themes than its limit, cutting it loses an entry, always;
  `Themes.UngroupedLedgersAreCut` has a ledger for every size above 25.
- `Restore.Restoration.CompleteRestoration`: a resume can fail without any command failing, when a boot has
  recreated a directory twice (`Restore.SecondRecreationIsReachable`), and exactly then. It leaves a state in
  which the next resume, with no boot in between, cannot fail that way.
- `ReviewRace.CompleteIsBrokenExactly`: adding an entry to a session under review writes no session row, so a
  verification that overlaps with it can mark the session COMPLETE with an undecided entry in its ledger. The
  lemma gives the exact overlap; `ReviewRace.AnOpenEntryInACompleteSession` is a schedule.

## Model

Handlers without a row of their own (`Api.CreateSession`, `Api.RepeatUpload`, `Api.StartUpload`,
`Api.FinishUpload`, `Api.TranscriptionCompleted`, `Api.RecordingDeleted`, `WorkerLoop.EnterState`,
`WorkerLoop.MarkSubmitted`, `WorkerLoop.EnqueueReconcile`, `WorkerLoop.CancelOwnJob`,
`WorkerLoop.FailAmbiguous`, `WorkerLoop.UploadRaises`, `WorkerLoop.PickCompensation`,
`WorkerLoop.EraseOrphan`) are proved to make exactly their edit as one step of the protocol, or none.

| member | source | states |
|---|---|---|
| `SessionStates.GuardedMovesAreWalks` | services/evidence-api/evidence_api/state.py:88-94 | guarded moves can be made one after the other exactly along the walks of the graph (`Moves`, the model's own fold of the guarded move) |
| `SessionStates.EdgesAreTheTable` | services/evidence-api/evidence_api/state.py:8-85 | the table read backwards, from target to sources, is the same relation: no edge missing, none extra |
| `SessionStates.DeletePendingIsATrap` | services/evidence-api/evidence_api/state.py:83-84 | one commit from DELETE_PENDING stays there or leads to DELETED |
| `SessionStates.ExtendWalk` | services/evidence-api/evidence_api/state.py:8-85 | a walk in the graph extends across a commit of up to two moves |
| `ProtocolSafety.StepKeeps` | services/evidence-worker/evidence_worker/worker.py:134-270 | every step of every actor keeps the whole invariant and never undoes rows, jobs, recordings, audits or tombstones |
| `ProtocolTheorems.InvariantAlong` | services/evidence-worker/evidence_worker/worker.py:134-270 | the invariant holds in every state of every run |
| `ProtocolTheorems.RecordingsAccountedFor` | services/evidence-worker/evidence_worker/worker.py:226-270 | in every run, however late the provider acts and whatever has become of the worker, each recording an upload made is linked, compensated, gone, or its operation is named by marker, audit row or the marker buried with a tombstone |
| `ProtocolTheorems.OpenCallsAreCovered` | services/evidence-worker/evidence_worker/worker.py:1238-1269 | an upload call whose recording is not on file keeps its operation on record, so a recording it may still produce will be covered |
| `ProtocolTheorems.CleanupIsTruthful` | services/evidence-worker/evidence_worker/worker.py:982-1027 | a compensation recorded as done means the recording is gone at the provider |
| `ProtocolTheorems.UploadsAreSeparated` | services/evidence-worker/evidence_worker/worker.py:226-270 | between any two uploads of one session lies a commit that stored the first one's recording or an audit row naming its operation |
| `ProtocolTheorems.StartsOnce` | services/evidence-worker/evidence_worker/worker.py:242-253 | one operation id is used for at most one upload call |
| `ProtocolTheorems.LinkClearsItsOwnMarker` | services/evidence-worker/evidence_worker/worker.py:261-270 | the linking commit finds and clears exactly the marker of the upload that made the recording, and touches no other session |
| `ProtocolTheorems.MarkerExcludesLink` | services/evidence-api/evidence_api/services.py:368-396 | an upload marker never coexists with a linked recording |
| `ProtocolTheorems.ResolutionAdopts` | services/evidence-api/evidence_api/app.py:663-730 | in every run a resolution takes the marker out and stores exactly the adopted recording on a session that had none, leaving every other field, session and job alone |
| `ProtocolTheorems.DeletionIsFinal` | services/evidence-api/evidence_api/app.py:941-973 | a session whose deletion was requested stays DELETE_PENDING until its row is removed for good |
| `ProtocolTheorems.DeletionFreezesWorkers` | services/evidence-worker/evidence_worker/worker.py:613-669 | after a committed deletion request no worker step and no ordinary commit of anyone changes marker, recording link or revision, whenever its snapshot was taken |
| `ProtocolTheorems.DeletionHasTombstone` | services/evidence-api/evidence_api/services.py:399-415 | a DELETE_PENDING session always has its tombstone, and DELETED is never stored |
| `ProtocolTheorems.CommittedMovesAreConnected` | services/evidence-api/evidence_api/state.py:8-94 | every single commit moves a session along at most two edges of the graph |
| `ProtocolTheorems.CommittedStatesFormAWalk` | services/evidence-api/evidence_api/state.py:8-94 | in any concurrent run there is a walk in the transition graph, one that guarded moves could have made, through every committed state of a session in order, at most one state between two of them, that avoids DELETED |
| `ProtocolTheorems.SameVersionSameRow` | services/evidence-api/evidence_api/models.py:82-95 | versions never go back, and an unchanged version means an unchanged session row |
| `ProtocolTheorems.SameVersionSameJob` | services/evidence-api/evidence_api/models.py:123-134 | the same for job rows, whose session never changes |
| `ProtocolTheorems.EarlierRead` | services/evidence-api/evidence_api/models.py:82-95 | what a transaction may assume of a row read at any earlier moment |
| `ProtocolTheorems.EarlierJobRead` | services/evidence-api/evidence_api/models.py:123-134 | what a transaction may assume of a job row read at any earlier moment |
| `ProtocolTheorems.FinishedJobsStayFinished` | services/evidence-worker/evidence_worker/worker.py:894-901 | a job that has left the queue for good is never active again, though its final status may be overwritten |
| `ProtocolTheorems.StatsCountWrites` | services/evidence-worker/evidence_worker/worker.py:139-160 | the counters of the invariant are the numbers of claims, polls and recoveries in the run |
| `ProtocolTheorems.RetryBudget` | services/evidence-worker/evidence_worker/worker.py:1043-1067 | a job is claimed at most as often as its attempts allow (at least once), plus its polls, plus its lease-expiry recoveries |
| `ProtocolTheorems.RetriesEnd` | services/evidence-worker/evidence_worker/worker.py:1043-1067 | without polls and lease expiries a job is claimed at most max(1, max_attempts) times, and once it has been it is not queued again |
| `ProtocolTheorems.UploadCanBeLinked` | services/evidence-worker/evidence_worker/worker.py:213-270 | the steps are not vacuous: for any ids some run claims a job, uploads and links the recording it made |
| `ProtocolTheorems.RecordingCanComeLate` | services/evidence-worker/evidence_worker/worker.py:1252-1259 | some run has the worker die during the call and the recording appear afterwards, covered by the marker |
| `Store.Database.Commit` | services/evidence-api/evidence_api/models.py:82-95 | a commit succeeds exactly when every changed row still has the version read, is then one step of the protocol, and otherwise changes nothing |
| `Store.CommitStores` | services/evidence-api/evidence_api/models.py:82-95 | a commit writes one session row, the named jobs, the new jobs and a tombstone, and nothing else |
| `Store.WriteMeans` | services/evidence-worker/evidence_worker/worker.py:152-153 | what each kind of job write does to every column of the row |
| `Api.FailUpload` | services/evidence-api/evidence_api/app.py:326-331 | the direct write of FAILED lands on an edge of the graph |
| `Api.PrepareStateForJob` | services/evidence-api/evidence_api/app.py:1127-1200 | a job is admitted exactly when what it needs is there and the state is one it starts from; the state it needs, never against the graph, never in deletion |
| `Api.CreateJob` | services/evidence-api/evidence_api/app.py:358-374 | at most one new job, none if an active one was seen, refused exactly when the state does not allow it |
| `Api.EnsureJob` | services/evidence-api/evidence_api/services.py:341-365 | one queued job with no attempts, or none if an active one was seen |
| `Api.CancelJob` | services/evidence-api/evidence_api/app.py:391-408 | refused exactly for inactive jobs; cancels the job and a session it was driving |
| `Api.RetryJob` | services/evidence-api/evidence_api/app.py:411-436 | a new job with the old one's type and limit, from FAILED or CANCELLED only |
| `Api.Reopened` | services/evidence-api/evidence_api/app.py:423-427 | exactly failed and cancelled sessions become RETRY_PENDING, nothing else changes |
| `Api.Refresh` | services/evidence-api/evidence_api/app.py:443-503 | refused with an open marker or in deletion; otherwise transcribes or reconciles again |
| `Api.CancelSession` | services/evidence-api/evidence_api/app.py:733-764 | session and every active job of the snapshot cancelled in one commit; unless a job was added since, none is active afterwards |
| `Api.RequestDeletion` | services/evidence-api/evidence_api/app.py:941-973 | tombstone, DELETE_PENDING and every queued job of the snapshot cancelled in one commit; its other jobs are untouched |
| `Api.OpenResolution` | services/evidence-api/evidence_api/app.py:530-578 | goes on exactly when the operator names the current marker, no transcription is active and a failed job carries that operation |
| `Api.CloseResolution` | services/evidence-api/evidence_api/app.py:589-730 | goes through exactly for a well-formed verdict on an unchanged row whose recording is linked nowhere else; then the marker is out, the adopted recording is on the row, the audit row is in and nothing else changed |
| `Api.RefuseVerdict` | services/evidence-api/evidence_api/app.py:589-690 | which error each ill-formed verdict gets, and that only those are refused |
| `Api.OpenDeletion` | services/evidence-api/evidence_api/app.py:987-1029 | goes on exactly when deletion is pending, no live or uploading job runs and no compensation is outstanding |
| `Api.EraseProviderCopy` | services/evidence-api/evidence_api/app.py:1030-1046 | the provider's copy is erased first; a refusal is recorded on the row and ends the request |
| `Api.CloseDeletion` | services/evidence-api/evidence_api/app.py:1047-1058 | the row goes with its jobs, the tombstone stays, unless the row changed since it was read |
| `Api.TranscriptionFailed` | services/evidence-api/evidence_api/app.py:1302-1315 | a transcribing session fails and every active job of the snapshot is cancelled; unless a job was added since, none is active afterwards |
| `WorkerLoop.Claim` | services/evidence-worker/evidence_worker/worker.py:139-160 | a queued job becomes running with one more attempt, and nothing else is claimed |
| `WorkerLoop.Checkpoint` | services/evidence-worker/evidence_worker/worker.py:613-638 | refused exactly when the work was stopped; otherwise the lease is renewed |
| `WorkerLoop.Reload` | services/evidence-worker/evidence_worker/worker.py:639-642 | the row in memory is the stored one and no deletion had been asked for |
| `WorkerLoop.SaveRow` | services/evidence-worker/evidence_worker/worker.py:727-733 | an edit of the row in memory commits exactly when the version has not moved |
| `WorkerLoop.EntryState` | services/evidence-worker/evidence_worker/worker.py:220-223 | the state a job moves its session to on entry is one edge away |
| `WorkerLoop.BeginUpload` | services/evidence-worker/evidence_worker/worker.py:224-244 | the marker is committed on its own, and only where there was neither marker nor link |
| `WorkerLoop.StartUpload` | services/evidence-worker/evidence_worker/worker.py:671-679 | the upload is started only if the checkpoint saw a running job and no cancellation, and is then on record |
| `WorkerLoop.ReloadBeforeCall` | services/evidence-worker/evidence_worker/worker.py:638-642 | the second reload of the checkpoint calls the upload off exactly on a tombstone or a missing row |
| `WorkerLoop.ProviderCreates` | services/evidence-worker/evidence_worker/worker.py:246-253 | a call that started may produce one recording at any later time, with or without its worker, and it is accounted for at once |
| `WorkerLoop.UploadReturns` | services/evidence-worker/evidence_worker/worker.py:688-700 | the answer that reaches the worker names a recording made for its own session |
| `WorkerLoop.ReloadAfterUpload` | services/evidence-worker/evidence_worker/worker.py:644-669 | cancelled exactly when tombstone, missing row, job status or session state says so |
| `WorkerLoop.LinkRecording` | services/evidence-worker/evidence_worker/worker.py:261-270 | link in and marker out as one commit, exactly when the row is unchanged and no other session has the recording |
| `WorkerLoop.ReconcileKnown` | services/evidence-api/evidence_api/services.py:163-189 | a known transcript moves only the reconciliation time and the state, and queues an extraction only if it has no entries, if the row has not changed |
| `WorkerLoop.ReconcileNew` | services/evidence-api/evidence_api/services.py:191-213 | a new revision becomes current, with an extraction job unless one was active, exactly when the row is unchanged |
| `WorkerLoop.FinishExtraction` | services/evidence-worker/evidence_worker/worker.py:464-476 | the session moves to review, with a summary job exactly when entries were found and none was active, or the table refuses |
| `JobEndings.VerdictsAreLegal` | services/evidence-worker/evidence_worker/worker.py:903-937 | every way a running job can end is a legal job write and moves its session along an edge |
| `JobEndings.AmbiguousJobsAreNotRequeued` | services/evidence-worker/evidence_worker/worker.py:1235-1269 | stale and abandoned transcriptions with an open marker are closed and tied to that operation, never requeued |
| `WorkerLoop.EndJob` | services/evidence-worker/evidence_worker/worker.py:903-1080 | a stopped job is cancelled and its session left alone; otherwise the tables show what the ending calls for: success, a refunded poll, a retry exactly for a retryable error while attempts remain, or failure |
| `JobEndings.EndingMeans` | services/evidence-worker/evidence_worker/worker.py:903-1080 | the write chosen for an ending leaves job and session as the ending calls for, column by column |
| `JobEndings.StaleMeans` | services/evidence-worker/evidence_worker/worker.py:748-818 | after a lost race: cancelled, closed as uncertain, queued while attempts remain, or failed, with the session moved accordingly |
| `JobEndings.RecoveryMeans` | services/evidence-worker/evidence_worker/worker.py:1238-1274 | after an expired lease: queued with its attempts kept, or closed as uncertain |
| `JobEndings.AmbiguousMeans` | services/evidence-worker/evidence_worker/worker.py:1104-1127 | an open marker fails the job for good under its operation id and a waiting session with it |
| `WorkerLoop.ResolveStale` | services/evidence-worker/evidence_worker/worker.py:735-822 | one recovery attempt leaves the tables as a lost race calls for, or unchanged |
| `JobEndings.LastVerdict` | services/evidence-worker/evidence_worker/worker.py:830-880 | the last verdict is a legal job write and never requeues a stopped or ambiguous job |
| `JobEndings.LastMeans` | services/evidence-worker/evidence_worker/worker.py:830-892 | the job row after the last resort, column by column |
| `WorkerLoop.LastResort` | services/evidence-worker/evidence_worker/worker.py:824-892 | only the job row changes, and only if it was still running |
| `WorkerLoop.RecoverAbandoned` | services/evidence-worker/evidence_worker/worker.py:1205-1281 | one recovery attempt leaves the tables as an expired lease calls for, or unchanged |
| `WorkerLoop.CompensateOrphan` | services/evidence-worker/evidence_worker/worker.py:939-963 | the orphan's id is durable before any attempt to delete it |
| `WorkerLoop.CloseCompensation` | services/evidence-worker/evidence_worker/worker.py:997-1027 | done is recorded exactly when the provider deleted the recording |
| `Restore.NothingIsLost` | nix/backup-scripts.nix:459-562 | at every crash point each original is in exactly one of live/previous and each restored copy in exactly one of staged/live |
| `Restore.SecondRecreationIsReachable` | nix/backup-scripts.nix:537-547 | two kills right after a move, with a boot after each, leave a directory recreated twice |
| `Restore.Restoration.VacateLive` | nix/backup-scripts.nix:470-480 | a restored copy goes back to staging; only a recreation is ever removed |
| `Restore.Restoration.RollbackDirectory` | nix/backup-scripts.nix:464-511 | from any point it can have been left at, a directory returns to its original content or absence unless a rename fails |
| `Restore.Restoration.RollbackFilesystem` | nix/backup-scripts.nix:459-514 | all three directories original, after any number of recreations, unless a rename fails; no content lost wherever it stops |
| `Restore.Restoration.SwapDirectory` | nix/backup-scripts.nix:516-562 | success means the restored copy is live; it always fails on a second recreation and otherwise only on a failed command, then having rolled back |
| `Restore.Restoration.SwapAll` | nix/backup-scripts.nix:934-938 | success means all three are restored, and no directory had been recreated twice |
| `Restore.Restoration.RestoreDatabase` | nix/backup-scripts.nix:873-931 | wherever it stops the target is the complete database it was or the complete new one; success means the new one, connectable |
| `Restore.Restoration.Conclude` | nix/backup-scripts.nix:952-963 | the marker goes only when everything is original or everything is restored, and writers start only after it |
| `Restore.Restoration.CompleteRestoration` | nix/backup-scripts.nix:934-964 | without the marker everything is restored; not killed and with no failed command it fails exactly when a directory had been recreated twice; after any failure the directories are undone unless a rename aside or an undo failed |
| `Restore.Restoration.CompleteRollback` | nix/backup-scripts.nix:966-992 | without the marker everything is original; it fails only if a command failed, and then directories and database are each put back unless their own commands failed |
| `Restore.Restoration.Operate` | nix/backup-scripts.nix:1038-1055 | a successful resume leaves everything restored, a successful rollback everything original |
| `Restore.Restoration.Reboot` | nix/containers.nix:51-53 | a boot may recreate missing directories but starts no writer while the marker exists |
| `Restore.Restoration.Finish` | nix/backup-scripts.nix:994-1018 | the exit trap starts writers only with no marker and nothing mutated |
| `Restore.Restoration.FirstRun` | nix/backup-scripts.nix:1136-1158 | a first run, killed anywhere, leaves the marker with nothing lost or no marker with all original or all restored |
| `Restore.Restoration.Recover` | nix/backup-scripts.nix:1022-1055 | the same after any sequence of reboots, resumes and rollbacks; a success is everything restored, or everything original if a rollback was asked for |
| `Review.SettledIsAboutStatuses` | services/evidence-api/evidence_api/services.py:180-186 | a non-empty fully decided ledger is exactly a non-empty set of decision statuses |
| `Review.Session.StatusesOn` | services/evidence-api/evidence_api/app.py:920-928 | the statuses of one revision's entries |
| `Review.Session.MarkForReview` | services/evidence-api/evidence_api/services.py:214-225 | exactly the entries of one revision go back to review |
| `Review.Session.SettleExisting` | services/evidence-api/evidence_api/services.py:170-189 | a returning transcript completes a reconciling session only if it is the current one and fully decided |
| `Review.Session.AddRevision` | services/evidence-api/evidence_api/services.py:191-226 | a new revision becomes current, ends COMPLETE and sends the whole ledger to review |
| `Review.Session.ReconcileTranscript` | services/evidence-api/evidence_api/services.py:154-226 | a new transcript becomes current, ends COMPLETE and sends the whole ledger to review; a known one adds nothing and settles a reconciling session by its ledger |
| `Review.Session.CreateEntry` | services/evidence-api/evidence_api/services.py:313-338 | an entry is added unverified to the current revision, or refused |
| `Review.Session.SaveExtraction` | services/evidence-worker/evidence_worker/worker.py:464-476 | accepted exactly when the session may go to review and every draft validates; an extraction lands whole, or not at all |
| `Review.Session.AddLedgerEntry` | services/evidence-api/evidence_api/app.py:788-814 | accepted exactly in three states with valid evidence, and then the session is under review |
| `Review.Session.VerifyEntry` | services/evidence-api/evidence_api/app.py:891-938 | only current entries take decisions; a reviewable session is COMPLETE afterwards exactly when the whole ledger is decided |
| `Review.Session.Perform` | services/evidence-api/evidence_api/services.py:154-226 | over any sequence of transactions COMPLETE means a non-empty, fully decided current ledger, and superseded entries need review |
| `ReviewRace.CompleteIsBrokenExactly` | services/evidence-api/evidence_api/app.py:788-938 | a verification and a new entry that overlap leave COMPLETE with an undecided entry exactly when each reads before the other commits, both are valid, the session was under review and the decision was the last one missing |
| `ReviewRace.SerialRequestsAreHonest` | services/evidence-api/evidence_api/app.py:788-938 | one request after the other never does |
| `ReviewRace.AnOpenEntryInACompleteSession` | services/evidence-api/evidence_api/app.py:788-938 | a concrete schedule that does |
| `ReconcileRace.DecisionIsLeftBehindExactly` | services/evidence-api/evidence_api/services.py:191-226 | a verification and a reconciliation to a new revision leave a decision on a superseded entry exactly when each reads before the other commits, the session is not moved, and the write changes the entry after it was sent back or the entry had needed no sending back |
| `ReconcileRace.EarlierIsSentBack` | services/evidence-api/evidence_api/services.py:214-225 | a verification that commits before the entries are read leaves no decision behind |
| `ReconcileRace.ADecisionOnASupersededRevision` | services/evidence-api/evidence_api/app.py:891-938 | a concrete schedule, in a reconciling session, that leaves one |
| `Evidence.HullBounds` | services/evidence-api/evidence_api/services.py:275-302 | the span of cited segments encloses them all and is attained |
| `Evidence.ByIdIsLast` | services/evidence-api/evidence_api/services.py:257-260 | an id is found exactly if a segment has it, and the last such segment is the one found |
| `Evidence.JoinedGrows` | services/evidence-api/evidence_api/services.py:306-306 | texts are joined in order with one separator between two |
| `Evidence.ContainsIsInside` | services/evidence-api/evidence_api/services.py:307-307 | a quote is found exactly if it stands somewhere in the text |
| `EvidenceValidation.CheckReference` | services/evidence-api/evidence_api/services.py:247-302 | a reference passes exactly when it is the hull of known segments of the session's current revision, within the duration |
| `EvidenceValidation.CheckRevisions` | services/evidence-api/evidence_api/services.py:235-245 | passes exactly when there are references and all name the current revision |
| `EvidenceValidation.ValidateEvidence` | services/evidence-api/evidence_api/services.py:229-310 | accepts exactly the entries with good references whose quote occurs in the text they cite |
| `GatewayExtraction.NormalizeEvidence` | services/extraction-gateway/extraction_gateway/app.py:222-257 | references are widened to the hull of what they cite, or the first bad one gives its reason |
| `GatewayExtraction.Refusal` | services/extraction-gateway/extraction_gateway/app.py:222-248 | which reason a reference is refused for, and that an accepted one overlaps every segment it cites |
| `GatewayExtraction.NormalizeEntry` | services/extraction-gateway/extraction_gateway/app.py:215-277 | kept exactly when every reference is usable; unsupported fields and paraphrased quotes are dropped, the rest is unchanged |
| `GatewayExtraction.SupportIs` | services/extraction-gateway/extraction_gateway/app.py:180-198 | a value is supported exactly if absent, a known short value in the text, or three fifths of its tokens are |
| `GatewayExtraction.QuotesAreVerbatim` | services/extraction-gateway/extraction_gateway/app.py:201-208 | a quote is kept exactly if it folds to something found in the folded cited text |
| `GatewayExtraction.NormalisedIsAcceptable` | services/extraction-gateway/extraction_gateway/app.py:201-277 | every normalised entry is schema-valid and accepted by the API for the same transcript and a covering or unknown duration |
| `GatewayExtraction.KeepNew` | services/extraction-gateway/extraction_gateway/app.py:336-354 | exactly the first usable entry of each identity survives, in order, and the counts add up |
| `GatewayExtraction.SurvivorsAreDistinct` | services/extraction-gateway/extraction_gateway/app.py:301-311 | no two survivors share topic and cited segments |
| `GatewayExtraction.SameObservation` | services/extraction-gateway/extraction_gateway/app.py:301-311 | two entries are one observation exactly if folded topic and cited segments agree |
| `GatewayExtraction.EveryObservationSurvives` | services/extraction-gateway/extraction_gateway/app.py:349-354 | every usable model entry has a survivor of its identity |
| `GatewayExtraction.CoerceEntries` | services/extraction-gateway/extraction_gateway/app.py:314-389 | an error exactly for a malformed payload; otherwise the survivors, tagged with the counts, all acceptable to the API and all distinct |
| `Themes.Share` | services/extraction-gateway/extraction_gateway/app.py:437-451 | every known id goes to the first list that names it, lists left empty disappear, none is lost |
| `Themes.UsableIsAFilter` | services/extraction-gateway/extraction_gateway/app.py:442-442 | the ids a list keeps are chosen one by one, in the order of the list |
| `Themes.NoMoreListsThanIds` | services/extraction-gateway/extraction_gateway/app.py:621-632 | there are never more disjoint non-empty lists than ids |
| `Themes.Shortened` | services/extraction-gateway/extraction_gateway/app.py:457-465 | a non-empty topic is cut to a valid title |
| `Common.Ordered` | services/extraction-gateway/extraction_gateway/app.py:600-600 | the elements of a set of ids, each once, in ascending order |
| `Common.BeforeIsLexicographic` | services/extraction-gateway/extraction_gateway/app.py:600-600 | the order is the lexicographic one |
| `Themes.CoerceConsolidation` | services/extraction-gateway/extraction_gateway/app.py:422-477 | any schema-valid output becomes a partition of the entry ids: the model's groups with their topics, forgotten ids alone |
| `Themes.AllThemes` | services/extraction-gateway/extraction_gateway/app.py:557-619 | themes are disjoint, cover exactly the ids the model or the groups named, and those made for forgotten ids come last, sorted by id |
| `Themes.CoerceSummary` | services/extraction-gateway/extraction_gateway/app.py:544-641 | the disjoint themes cut at the limit, and uncut whenever the entries are no more than the limit |
| `Themes.Limit` | services/extraction-gateway/extraction_gateway/app.py:624-624 | 25 unless another non-zero number was asked for |
| `Themes.CuttingLosesEntries` | services/extraction-gateway/extraction_gateway/app.py:621-632 | a cut partition is a partition exactly when nothing was cut |
| `Themes.SummariseSession` | services/evidence-worker/evidence_worker/worker.py:516-553 | with groups from consolidation every entry is in exactly one theme exactly when the themes of the model that get an entry and the entries it forgot are together no more than the cap, and so whenever there are at most 25 entries |
| `Themes.ThemesAreCounted` | services/extraction-gateway/extraction_gateway/app.py:557-619 | the number of themes before the cut, computed from the model output and the entry ids alone |
| `Themes.UngroupedLedgersAreCut` | services/evidence-worker/evidence_worker/worker.py:516-553 | for every number of entries above 25 there is a ledger whose summary loses some |
| `Windows.SplitWindows` | services/extraction-gateway/extraction_gateway/app.py:280-298 | slices no longer than the size, in the exact number, and every run of up to overlap + 1 segments lies whole in one |
| `Windows.CountIs` | services/extraction-gateway/extraction_gateway/app.py:292-297 | the first window that reaches the end is number 1 + ceil((n - size) / (size - overlap)) |
| `Windows.EveryRunIsInside` | services/extraction-gateway/extraction_gateway/app.py:280-298 | any run of up to overlap + 1 segments fits in a window |
| `StrictSchema.RewriteIsStrict` | services/extraction-gateway/extraction_gateway/openai_client.py:44-71 | for plain schemas every object at every depth of the result is closed, requires exactly its properties in order, and has no dropped keyword |
| `StrictSchema.StrictIsFixed` | services/extraction-gateway/extraction_gateway/openai_client.py:44-71 | a strict plain schema is left alone |
| `StrictSchema.RewriteIsIdempotent` | services/extraction-gateway/extraction_gateway/openai_client.py:44-71 | rewriting twice is rewriting once |
| `StrictSchema.RewriteKeeps` | services/extraction-gateway/extraction_gateway/openai_client.py:50-54 | every keyword not dropped or set is kept with its value rewritten |
| `StrictSchema.PropertiesKept` | services/extraction-gateway/extraction_gateway/openai_client.py:56-66 | exactly the properties that are not objects open to undeclared members, and not named like a dropped keyword, remain |
| `StrictSchema.RequiredAreKept` | services/extraction-gateway/extraction_gateway/openai_client.py:57-66 | a name is required in the result exactly if its property stays |
| `StrictSchema.RaisesExactly` | services/extraction-gateway/extraction_gateway/openai_client.py:59-63 | the lookup of a rewritten property in the original fails exactly on colliding property maps |
| `StrictSchema.PropertyNamedPropertiesRaises` | services/extraction-gateway/extraction_gateway/openai_client.py:59-63 | a property named properties makes the rewrite raise |
| `StrictSchema.PropertyNamedFormatDisappears` | services/extraction-gateway/extraction_gateway/openai_client.py:50-54 | a plain schema whose property named format is missing from the result |
| `StrictSchema.ToStrictSchemaIsStrict` | services/extraction-gateway/extraction_gateway/openai_client.py:9-80 | with the keywords in use, on plain schemas: no failure, strict at every depth, idempotent |
| `Matching.Similarity` | eval/score.py:48-56 | shared tokens over all tokens, 0 exactly when none is shared, 1 exactly for equal non-empty sets |
| `Matching.ThresholdCountsTokens` | eval/score.py:80-85 | the comparison with 0.55 is 20 times the shared tokens against 11 times all tokens |
| `Matching.LastWith` | eval/score.py:62-62 | the entry a dictionary by id keeps |
| `Matching.MatchById` | eval/score.py:66-70 | the first predicted entry of each id takes the last gold entry of that id, and no other |
| `Matching.OpenPairs` | eval/score.py:72-78 | exactly the pairs of unmatched entries, each with its similarity |
| `Matching.LargerTuplesComeFirst` | eval/score.py:80-80 | candidates are ordered as tuples, the larger strictly first |
| `Matching.Sorted` | eval/score.py:80-80 | a descending permutation |
| `Matching.TakeGreedily` | eval/score.py:80-85 | the loop computes the greedy matching |
| `Matching.GreedyIsMaximal` | eval/score.py:80-85 | no candidate at or above 0.55 is left with both ends free |
| `Matching.GreedyIsHalfOptimal` | eval/score.py:80-85 | what greedy adds is at least half of what any matching of the open pairs at or above 0.55 collects |
| `Matching.MatchEntries` | eval/score.py:59-85 | injective, keeps the id matches, matches only pairs that share eleven twentieths of their tokens, leaves no such pair open, and is within a factor two of any competing matching of the rest |
| `SummaryScore.IndexThemes` | eval/score_summary.py:42-46 | every known entry is mapped to exactly the themes that contain it |
| `SummaryScore.CommonThemes` | eval/score_summary.py:65-66 | the themes every id of a group is in |
| `SummaryScore.CountPassing` | eval/score_summary.py:57-68 | all groups are counted exactly when each of two or more ids shares a theme as wanted |
| `SummaryScore.PermittedPairs` | eval/score_summary.py:76-81 | two different ids are permitted exactly when a merge group lists both |
| `SummaryScore.ForbiddenPairs` | eval/score_summary.py:82-88 | every pair of different entries that is not permitted |
| `SummaryScore.MatrixMeansOnlyAllowed` | eval/score_summary.py:75-101 | keeping every such pair apart is the same as merging only where a merge group allows it |
| `SummaryScore.ScoreSummary` | eval/score_summary.py:32-134 | passed exactly when every entry is covered, merge groups are merged, only permitted entries share a theme (or listed ones are apart) and the count is in range |
| `Transcripts.RoundingIsNearest` | services/evidence-api/evidence_api/transcripts.py:12-19 | the rounded value is the one within half a millisecond, halves up |
| `Transcripts.RoundingIsMonotone` | services/evidence-api/evidence_api/transcripts.py:12-19 | rounding keeps order |
| `Transcripts.RoundingIsExact` | services/evidence-api/evidence_api/transcripts.py:12-19 | whole milliseconds are kept |
| `Transcripts.OrderedIsNeverReversed` | services/evidence-api/evidence_api/transcripts.py:33-54 | only a segment delivered reversed can be refused as reversed |
| `Transcripts.DigitsStandForTheIndex` | services/evidence-api/evidence_api/transcripts.py:43-43 | an index used as an id is its decimal digits, so different indices are different ids |
| `Transcripts.NormalizeSegments` | services/evidence-api/evidence_api/transcripts.py:22-66 | accepted exactly for timed, forward, distinctly named segments of which some are not empty; the survivors are exactly those of non-zero rounded length, in order, with their own ids or places |
| `Transcripts.NormalisationRoundTrips` | services/evidence-api/evidence_api/transcripts.py:22-66 | a normalised transcript delivered again is accepted, every segment surviving as it was |
| `Transcripts.NormalizeAgain` | services/evidence-api/evidence_api/transcripts.py:22-66 | normalising a normalised transcript gives the same transcript |

## Left out

- HTTP clients, routing, SQL text, authentication, webhook signatures, the web UI, migrations and NixOS options.
- Archive, checksum and dump validation, PostgreSQL ownership and ACL copying: taken as done before the restore starts.
- Restores from archives that lack a directory, and restores without PostgreSQL.
- Providers that submit transcriptions separately from the upload, and providers with idempotency keys or lookup.
- The scheduled sweep that enqueues reconciliation for many sessions in one commit: it only adds jobs, as `Api.TranscriptionCompleted` does for one session.
- Cutting error messages to the length of their column.
- The 404 answers of handlers for ids that do not exist.
- Storing the summary text, its moments and its staleness; that commit does not touch the session row.
- Review.Session.Perform: transactions are atomic here; `ReviewRace.dfy` and `ReconcileRace.dfy` have what overlapping does to two pairs of requests, under PostgreSQL's default isolation, and other pairs are not modelled.
- WorkerLoop.LastResort: the read and the unversioned update of the program are one atomic step here, which also advances the job's version.
- Matching.Similarity: floating-point rounding of the quotient is not modelled.
- SHA-256 digests are taken as identifying transcripts.
- The rest of `eval/score.py`: metrics over the matching, which are pure counting.
- The retention helper.
