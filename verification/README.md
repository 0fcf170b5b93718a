# Verification of mind-probe

A Dafny 4.11 model of the logic that mind-probe's server and browsers share, with proofs of what it promises.
`dafny verify dfyconfig.toml` checks the whole project.

## What is modelled

**One recording take, end to end.** `UploadQueue` has the browser's decisions about its stored row, `RecordingDb` its
database transactions, `RecordingPage` the recording page's variables. `RecordingIntegrity` and `RowLifecycle` have the
server's completeness state machine, `RecordingFiles` the ingest route and the merge. `TakeProtocol` puts them
together: a browser with its database, a network whose messages may be lost, repeated, delayed and reordered, and the
server's row and slice store. Each browser transaction and each server route, sweep and worker transaction is one atomic
step. `TakeStops` and `TakeKeeping` prove the invariant of every run and that no slice is lost. `TakeSafety`,
`TakeDelivery`, `TakeRetired` and `TakeFrontier` prove what a posted declaration covers, `TakeProgress` that a stopped
take can always be completed. `ArrivalOrder` proves that the order of arrival does not matter, `ArrivalOutcomes` what a
failed database transaction behind a slice changes.

**The job worker and deletion.** `JobQueue` is the durable job table with its leases. `RecordingWorker` runs the single
worker action by action over the job table, the row, the session directory and the object store, with routes, deletes,
stops, crashes and restarts between any two actions. `RecordingDeletion` and `RecordingOriginals` prove that deletion is
complete, final and can always be finished, and that originals outlive the transcode; `RecordingProgress` that a complete
take can always be uploaded, whatever cut earlier attempts short. `WorkerSchedule` says which runs the worker can take on
its own: its clock never goes back and it claims the due job with the smallest id. `GraceSweep` puts the sweep beside
all of it.

**The event log and the snapshot.** `EventLog` is one live session on the server, `EventDelivery` the console, the wire
and server restarts. `EventExactlyOnce` and `RevisionFencing` prove idempotency and fencing, `SnapshotPlayback`
that the snapshot shows what the applied events add up to.

**Credentials.** `ReviewGrants` and `ReviewFamilies` are the rotation chains of review grants, `ReviewSession` the
single-flight refresh of one document, `JoinCodes` and `JoinCodeRuns` one-time codes and their reissue.

**Algorithms.** `ClockOffset`, `Timeline`, `CaptureSpans`, `SessionPages`, `RateLimiter`; `Sorting` stands for Python's
stable sort.

Objects that the source updates in place are classes here; their methods are proved equal to functions on the state, and
the theorems are about those functions. Their rows below say which code a step is; they are not results of their own.

## Where the code differs from its text, and where a property needs a condition

- A page without the recorder reads the row first and asks for the recorder lock later. When `MediaRecorder.start()`
  throws, the lock is dropped before the unused row is removed, and the retry takes it again. A page that read the unused
  row and asks in between finds the lock free and can later declare the retried take lost. The declaration frontier holds
  in every run in which no page does so while the take can still be retried, and each page that does can break it. No
  slice is lost either way.
- `apply_finalize` compares with `(rec.final_sequence or -1)`, which reads a stored final sequence of 0 as -1. Its
  docstring does not say so. `RowLifecycle.RedeclarationExact` gives the exact difference.
- The grace sweep's UPDATE checks the row's state but not the final sequence it read. When a larger end is declared in
  between, it completes a whole take if and only if the slices of the growth have landed by the UPDATE.
- `review_refresh` reads the grant without a write lock and inserts later; a revocation reads the chain without one and
  writes later. Revocation is uniform along a chain if and only if no insert comes after its parent was revoked and none
  that is still live came between a revocation's read and its write.
- An event whose lifecycle update fails after it was stored is answered `rejected`, stays in the log and is never applied.
- Two commands issued ahead of the server's revision are both applied; fencing holds for commands that are not ahead.

## Model

| member | source | states |
|---|---|---|
| `TakeKeeping.NoSliceLost` | apps/student/src/recordingController.ts:1214-1292 | In every run of browser, network and server (losses, repeats, delays, reloads, takeovers, revocations, failed starts, crashes between transactions): every slice below the stored counter is in the browser database, or stored or manifest-listed on the server with the same bytes, until the take is deleted; the counter equals the number of slices ever recorded |
| `TakeKeeping.SafeBannerIsTrue` | apps/student/src/uploadQueue.ts:577-600 | The "safe to close" banner is shown only when the server has held all of 0..next_sequence-1 and no recorder can add another slice |
| `TakeKeeping.StepKeeps` | apps/student/src/recordingController.ts:491-564 | Each of the forty-one steps keeps the two-sided invariant: slice copies on both sides, nothing dropped that the server has not held, every status and answer true, and a "complete" row only when everything was delivered |
| `TakeKeeping.PurgedKeeps` | apps/student/src/recordingDb.ts:257-267 | The browser forgets a take only in states where the server has held every slice |
| `TakeKeeping.StoreSliceKeeps` | apps/student/src/recordingDb.ts:121-169 | While the recorder still stores slices no row, status or answer can say complete |
| `TakeKeeping.AcceptedRow` | server/app/recording_integrity.py:402-563 | A declaration the server accepts leaves the row sound: a non-lost declared end is the last recorded slice, and complete means every slice was delivered |
| `TakeKeeping.AcceptedIsChecked` | server/app/recording_integrity.py:525-563 | A finalize turns a row complete only through the completeness check of a declaration that is not lost, and never changes the claim or the manifest |
| `TakeKeeping.SweepReadKeeps` | server/app/recording_integrity.py:755-792 | A grace sweep decides "complete" only when every slice was delivered |
| `TakeStops.CommitSound` | apps/student/src/recordingController.ts:1369-1410 | The end of a recorder leaves the row stopped, with a full non-lost declaration over every stored slice, or lost |
| `TakeStops.ReloadFollows` | apps/student/src/recordingController.ts:566-583 | A reload or a status read never forges a stopped declaration: the row becomes lost or stays what it was |
| `TakeStops.LossFollows` | apps/student/src/uploadQueue.ts:240-316 | Revocation and takeover writes leave a stopped take alone and otherwise declare it lost, with a valid payload |
| `TakeStops.PostKeeps` | apps/student/src/recordingController.ts:1294-1355 | A posted declaration that is not lost covers the whole take, and nothing is stored after it |
| `TakeFrontier.DeclarationFrontier` | apps/student/src/recordingController.ts:889-952 | In every run, failed starts included, in which no page that read the row of a failed start finds the lock free while the take can still be retried: every posted declaration covers every slice stored then or later, and all posts carry one payload |
| `TakeFrontier.IntrusionEndangersExactly` | apps/student/src/recordingController.ts:493-521 | The other half: after such a run, whenever a page that read the row of a failed start finds the lock free, some continuation breaks that if and only if the take can still be retried |
| `TakeFrontier.LateReloadBreaksFrontier` | apps/student/src/recordingController.ts:922-952 | A concrete run: start() throws, another page reads its row and finds the lock free before the row is removed, declares the retried take lost with no slices, and slice 0 is then refused as past the final one |
| `TakeFrontier.LateQueryBreaksFrontier` | apps/student/src/recordingController.ts:493-521 | The same when the other page asks for the lock only after the row is removed and nothing is being undone any more |
| `TakeProgress.StoppedTakeCanComplete` | apps/student/src/recordingController.ts:1194-1355 | After every such run that leaves a normally stopped take with no slice refused for good, a header in slice 0 and a row the server can still take, uploading what is left and posting the declaration makes the row complete and the banner "safe" |
| `TakeProgress.NormalStopIsDue` | apps/student/src/uploadQueue.ts:171-197 | A normal stop declares every stored slice; the declaration is due at once exactly when nothing is left to upload, and after the delay in any case |
| `TakeFrontier.OnlyDeletionIsRefused` | server/app/recording_integrity.py:399-476 | In the same runs the server never answers sequence_past_final, final_sequence_below_stored, finalize_conflict or a checksum failure: the only refusals are those of a deleted take |
| `TakeFrontier.UploadAnswer` | server/app/recording.py:806-877 | Every slice ever sent in those runs would be acknowledged whenever it arrives, or the take is tombstoned |
| `TakeFrontier.FinalizeAnswer` | server/app/recording_integrity.py:399-476 | Every declaration ever posted in those runs would be accepted whenever it arrives, or the take is tombstoned |
| `TakeSafety.CommitKeepsMeta` | apps/student/src/uploadQueue.ts:221-337 | After a recorder stop, for a normal stop, a page hide, a revocation and a takeover, nothing is held back and the row declares exactly the stored slices, unless the server had already settled the take |
| `TakeSafety.PostKeepsDeclaration` | apps/student/src/uploadQueue.ts:171-197 | A declaration goes out only in full and only once the recorder can store nothing more |
| `RecordingPage.Page.PersistBlob` | apps/student/src/recordingController.ts:643-659 | The code of a protocol step: stores the slice under the counter and moves the counter, exactly as the protocol step |
| `RecordingPage.Page.StopRecorder` | apps/student/src/recordingController.ts:1146-1157 | The code of a protocol step: the recorder drains; a page hide also remembers that the stop is a loss |
| `RecordingPage.Page.NoteRevoked` | apps/student/src/recordingController.ts:1079-1088 | The code of a protocol step: marks the session revoked; a running recorder owes a lost declaration |
| `RecordingPage.Page.WriteInterrupted` | apps/student/src/recordingController.ts:1083-1093 | The code of a protocol step: the lost declaration of a revocation, held until the recorder has flushed, and only when nothing better is declared |
| `RecordingPage.Page.NoteReplaced` | apps/student/src/recordingController.ts:1115-1121 | The code of a protocol step: marks the session replaced and drops the pending claim |
| `RecordingPage.Page.WriteReplaced` | apps/student/src/recordingController.ts:1122-1132 | The code of a protocol step: the same for a takeover |
| `RecordingPage.Page.CommitRecorderStop` | apps/student/src/recordingController.ts:1369-1410 | The code of a protocol step: the branches of the stop declaration with all slices stored, and the release of a held one |
| `RecordingPage.Page.WriteReload` | apps/student/src/recordingController.ts:566-583 | The code of a protocol step: what a page without the recorder writes after a status read |
| `RecordingPage.Page.NextUpload` | apps/student/src/recordingController.ts:1214-1223 | The code of a protocol step: the lowest slice that is neither refused nor in flight and whose retry time has come, or none exactly when there is none |
| `RecordingPage.Page.NoteUploadFailed` | apps/student/src/recordingController.ts:1250-1287 | The code of a protocol step: a permanent refusal keeps the blob and marks the row |
| `RecordingPage.Page.FinalizeToSend` | apps/student/src/recordingController.ts:1294-1301 | The code of a protocol step: the declaration to post, exactly when it is due |
| `RecordingPage.Page.TakeFinalizeAnswer` | apps/student/src/recordingController.ts:1302-1330 | The code of a protocol step: an answer counts only while the row still declares what was sent |
| `RecordingDb.RecordingDatabase.StoreChunkAndBumpSequence` | apps/student/src/recordingDb.ts:121-169 | Slice and counter commit together; other sessions are untouched |
| `RecordingDb.RecordingDatabase.UpdateMeta` | apps/student/src/recordingDb.ts:96-119 | Read-modify-write of the latest row; without a row nothing is written |
| `RecordingDb.RecordingDatabase.DeleteUnstartedMeta` | apps/student/src/recordingDb.ts:212-238 | Removes a row exactly when it is the untouched one of that attempt |
| `RecordingDb.RecordingDatabase.PurgeExpiredMeta` | apps/student/src/recordingDb.ts:257-267 | Removes both stores of one session exactly when the row may be discarded |
| `RecordingIntegrity.MissingForFinalExact` | server/app/recording_integrity.py:89-98 | missing_for_final is exactly the gap set of 0..final, ascending without repeats |
| `RecordingIntegrity.NextExpectedSequence` | server/app/recording_integrity.py:101-115 | The first sequence not received: everything below it is received, and None exactly for a declared take without gaps |
| `RecordingIntegrity.CompletenessMeaning` | server/app/recording_integrity.py:141-158 | The completeness check holds exactly when the received set is 0..final and slice 0 carries the WebM header |
| `RecordingIntegrity.RecordingRecord.RefreshCompleteness` | server/app/recording_integrity.py:183-221 | Updates the row object to the specified transition and says whether a transcode job is enqueued |
| `RecordingIntegrity.RecordingRecord.ApplyFinalize` | server/app/recording_integrity.py:377-563 | All branches of a declaration on an existing row: the reply, the new row and the transcode job equal the specification |
| `RecordingIntegrity.RecordingRecord.NoteSessionEnded` | server/app/recording_integrity.py:224-242 | /end moves a recording row to finalizing and nothing else |
| `RecordingIntegrity.RecordingRecord.ClaimOpen` | server/app/recording_integrity.py:697-713 | The guarded UPDATE of a sweep changes only an open row without an operator flag |
| `RowLifecycle.RowNeverGoesBack` | server/app/recording_integrity.py:194-216 | Over every run of routes, sweeps and worker transactions: incomplete is left only by deletion, a tombstone is never left, a complete-or-later row keeps its declaration |
| `RowLifecycle.EveryReachableRowIsGood` | server/app/recording_integrity.py:426-563 | Every reachable complete-or-later row has finalize_state complete, no operator flag, no reason, no lost declaration and total_chunks = final_sequence + 1 |
| `RowLifecycle.SweepNeverReplacesRecorderLost` | server/app/recording_integrity.py:697-713 | Once recorder_lost is declared on an open row, whatever sweeps read before it and whatever transactions follow, the reason and the operator flag stay until the take is deleted |
| `RowLifecycle.SweepCompletesSoundlyExactly` | server/app/recording_integrity.py:755-792 | A sweep that read a whole take completes a whole take if and only if every slice past the final sequence it read, up to the one it finds, is in the store its UPDATE meets |
| `GraceSweep.CompleteIsWholeExactly` | server/app/recording_integrity.py:697-792 | Over every run of uploads, declarations, sweeps, deletes and the worker: complete rows have their whole source on disk until the manifest, in every state, if and only if no sweep completed a take with a slice of the growth missing at its UPDATE |
| `GraceSweep.ShortSweepHappens` | server/app/recording_integrity.py:755-792 | A concrete run: a declaration of one slice is read as whole, grows to six before the UPDATE, and the take becomes complete with one slice stored |
| `GraceSweep.NothingPartialIsProcessed` | server/app/jobs.py:402-465 | Whatever sweeps completed it, a take that is not deleted gets a video, a manifest or an upload only when every slice 0..final has been stored |
| `RowLifecycle.SweepSettles` | server/app/recording_integrity.py:755-792 | An undisturbed grace sweep settles every open row: complete exactly when the declared take is whole with its header, otherwise incomplete with the reason that applies and exactly the missing sequences |
| `RowLifecycle.RedeclarationExact` | server/app/recording_integrity.py:463-476 | When a different declaration is taken on an open row, compared with the rule the docstring gives: they differ exactly when the stored final sequence is 0, which the code reads as -1 |
| `RowLifecycle.DeclaredEndShrinksExactly` | server/app/recording_integrity.py:463-476 | A declared end shrinks in exactly one case: from 0 to -1 by recorder_lost with nothing stored |
| `RowLifecycle.TakeIdIsKept` | server/app/recording_integrity.py:595-633 | No transaction releases or changes a claim |
| `RecordingFiles.Ingest.UploadChunk` | server/app/recording.py:770-921 | Every branch of the upload route on the chunk directory and the row: reply and new state equal the specification |
| `RecordingFiles.Ingest.ClaimTake` | server/app/recording_integrity.py:595-633 | A claim is granted on no row, or on the same id while the take is untouched |
| `RecordingFiles.ClaimIsExclusive` | server/app/recording_integrity.py:595-633 | After a granted claim no other take id is ever granted, whatever transactions follow |
| `RecordingFiles.UploadKeepsStoredSlices` | server/app/recording.py:849-877 | A stored slice is never overwritten; an acknowledged upload is stored or listed byte for byte; a refused one changes nothing |
| `RecordingFiles.StoredChunks` | server/app/recording.py:289-313 | Lists every stored slice once, in sequence order, from a directory in any order with foreign files in it |
| `RecordingFiles.ConcatChunks` | server/app/recording.py:348-414 | Refuses exactly an empty directory, or a slice 0 without the header unless that is allowed; the merged stream is the stored slices in ascending sequence order, whatever is missing, and so the recording when nothing is |
| `ArrivalOrder.OrderDoesNotMatter` | server/app/recording_integrity.py:183-242 | Any order and any repeats of slices, finalize and /end give a state that depends only on the set delivered |
| `ArrivalOrder.CompleteExactlyWhenAllArrived` | server/app/recording_integrity.py:525-563 | The row is complete, and a transcode is queued, exactly when all slices and the finalize have arrived |
| `ArrivalOutcomes.CompleteExactlyWhenLookedAt` | server/app/recording.py:885-911 | Whatever database work behind a stored slice fails, in any order and with any repeats: every slice that arrived is stored, and the row is complete and a transcode queued exactly when a refresh that did not fail, or a declaration, came once all slices and the declaration had arrived |
| `ArrivalOutcomes.SweepFindsWhole` | server/app/recording_integrity.py:755-792 | When everything arrived and none of them came, the grace sweep completes the take |
| `ArrivalOrder.MergeAfterArrival` | server/app/recording.py:368-406 | The stream merged after that is the recorded slices in recording order |
| `JobQueue.JobTable.Enqueue` | server/app/jobs.py:37-57 | Adds a job or returns the active one of the same kind and session |
| `JobQueue.JobTable.Claim` | server/app/jobs.py:68-84 | Claims the due job with the smallest id, or nothing exactly when none is due |
| `JobQueue.JobTable.Recover` | server/app/jobs.py:87-104 | Recovers exactly the leases the startup or the staleness rule names, failing those out of attempts |
| `JobQueue.JobTable.FinishOnce` | server/app/jobs.py:349-373 | Ends a job only under the caller's own lease |
| `JobQueue.LeasesAreCounted` | server/app/jobs.py:43-104 | In every run: one active job per kind and session, attempts = claims - graceful stops, a bounded job is claimed at most three times not given back, a queued one has budget left |
| `JobQueue.LostLeaseIsLost` | server/app/jobs.py:302-306 | A worker that lost its lease changes nothing on the row until it claims it again |
| `JobQueue.RecoveryEndsTheLease` | server/app/jobs.py:87-104 | A recovered lease is a lost one |
| `RecordingDeletion.DeletionIsComplete` | server/app/jobs.py:467-490 | However deletes, crashes and restarts fall between worker actions: a tombstoned session with an object or files left has an active delete job; a delete job never fails and is never cancelled; a deleted session has neither object nor files |
| `RecordingDeletion.DeletedForGood` | server/app/jobs.py:442-490 | After deleted, no object or file of the session ever exists again |
| `RecordingDeletion.DeletionCanAlwaysFinish` | server/app/jobs.py:107-111 | From every reachable tombstoned state: after a late enough restart the worker alone, with a clock that never goes back and claiming the first due job each time, works off what is ahead and reaches deleted, however many files are left |
| `RecordingDeletion.DeleteRequestKeeps` | server/app/main.py:1350-1378 | The DELETE route keeps that invariant |
| `RecordingOriginals.OriginalsOutliveTheTranscode` | server/app/jobs.py:402-440 | In every reachable state of a take nobody deleted, each slice ever stored is on disk with its bytes, or the manifest lists its digest and a valid MP4 is in place |
| `RecordingOriginals.UploadedMeansStored` | server/app/jobs.py:442-465 | A take marked uploaded has its validated MP4 in the object store until it is deleted |
| `RecordingProgress.CompleteTakeCanBeUploaded` | server/app/jobs.py:402-465 | From every reachable state of a completed take whose source is whole until its manifest is written, in the middle of any attempt: after a late enough restart and the request its state admits, the worker alone, on a clock that never goes back and claiming the first due job each time, stores a valid MP4 in the object store, with every slice listed, and with no original left when the take was not transcoded before |
| `RecordingProgress.TranscodeFinishes` | server/app/jobs.py:402-440 | An undisturbed transcode, from any of its actions, writes the manifest, removes every original and leaves an upload job |
| `RecordingOriginals.RoutesFreeze` | server/app/recording_integrity.py:377-563 | Once a take is complete no route or sweep changes its declaration or manifest |
| `EventLog.LiveSession.AppendEvent` | server/app/models.py:1037-1090 | Appends an event unless a row collides on either unique key; stored rows are never rewritten |
| `EventLog.LiveSession.ReceiveEvent` | server/app/websocket.py:1524-1716 | The event path: reply and new log, session row, dedup set and snapshot equal the specification, failures of each database call included |
| `EventLog.LiveSession.ReceiveFallback` | server/app/websocket.py:1121-1268 | The same for a fallback request |
| `EventLog.LiveSession.PauseAsServer` | server/app/websocket.py:1320-1383 | A pause the server writes itself |
| `EventLog.NextServerSequenceIsUnused` | server/app/websocket.py:1303-1317 | The server's next sequence number is above every stored server event |
| `EventDelivery.Console.Send` | apps/wizard/src/useSessionSocket.ts:380-421 | An envelope that is not sent uses up no number; a sent one is tracked under its key |
| `EventDelivery.Console.HandleAck` | apps/wizard/src/useSessionSocket.ts:728-776 | An ack ends the wait for its frame and raises the acknowledged mark unless it is a rejection |
| `EventDelivery.Console.RequestSnapshot` | apps/wizard/src/useSessionSocket.ts:310-331 | Drops exactly the short-lived pending commands |
| `EventDelivery.Console.ReplayPending` | apps/wizard/src/useSessionSocket.ts:638-646 | Resends every pending frame unchanged |
| `EventExactlyOnce.AppliedAtMostOnce` | server/app/websocket.py:1637-1709 | Through losses, replays, restarts and crashes while handling: stored rows have distinct keys and distinct (source, sequence), and the snapshot changes at most once for each and only for a stored row |
| `EventExactlyOnce.DurableEventsAreAnswered` | apps/wizard/src/useSessionSocket.ts:728-747 | A durable console event stays pending until an ack names it; a positive ack means that very event is in the log, and accepted means it changed the snapshot exactly once |
| `EventExactlyOnce.LogOnlyGrows` | server/app/models.py:1037-1090 | Every step extends the log and the history of changes |
| `EventExactlyOnce.HandlingAppends` | server/app/websocket.py:1637-1709 | Handling stores at most the handled event, applies it only when it stores it, and says accepted exactly when it applied it |
| `SnapshotPlayback.SnapshotShowsTheLastMove` | server/app/websocket.py:814-858 | Through replays, duplicates, pauses and restarts the clip the snapshot shows is that of the last event this process applied that starts or stops one |
| `SnapshotPlayback.SnapshotIsCoherent` | server/app/websocket.py:814-866 | In every reachable state nothing plays before such an event, an active clip is a playing one, a start time is held exactly while starting, and a fallback streak is positive exactly when it names its last clip |
| `RevisionFencing.RevisionNeverDecreases` | server/app/websocket.py:922-933 | Within one process lifetime the snapshot revision never decreases |
| `RevisionFencing.OneCommandPerRevision` | server/app/websocket.py:764-789 | Among short-lived commands and fallback requests issued against one revision, none ahead of the server, at most one is applied in one process lifetime |
| `RevisionFencing.AheadCommandsAreNotFenced` | server/app/websocket.py:787-789 | A concrete pair of commands issued ahead of the server's revision that are both applied |
| `ReviewGrants.GrantTable.FindRoot` | server/app/models.py:1596-1605 | The guarded walk ends at the login the grant descends from |
| `ReviewGrants.GrantTable.Descendants` | server/app/models.py:1606-1624 | The worklist terminates and visits every grant of the chain exactly once |
| `ReviewGrants.GrantTable.ReadChain` | server/app/models.py:1594-1624 | The SELECT half: exactly the chain, once each, and its rows that are read as live |
| `ReviewGrants.GrantTable.ReadSession` | server/app/models.py:1632-1641 | The SELECT half of a revocation of the whole session |
| `ReviewGrants.GrantTable.WriteMarks` | server/app/models.py:1625-1629 | The flush marks the rows that were read and no other |
| `ReviewGrants.GrantTable.RevokeChain` | server/app/models.py:1594-1629 | With nothing in between, both halves revoke exactly the caller's chain, keep earlier revocation times, touch nothing else, and return the chain once each |
| `ReviewGrants.GrantTable.RevokeAll` | server/app/models.py:1632-1647 | With nothing in between, both halves revoke every grant of the session and return those that were live |
| `ReviewGrants.ChainsAreLinear` | server/app/models.py:309-311 | Two grants of one chain at the same depth are the same grant |
| `ReviewFamilies.StepKeepsForest` | server/app/models.py:1525-1550 | The rotation relation stays acyclic and linear under every interleaving |
| `ReviewFamilies.UniformExactly` | server/app/main.py:1082-1118 | Revocation is uniform along every chain in every state of a run if and only if no refresh inserts after its parent grant was revoked, and no revocation writes after missing a live grant that joined its chain since its read |
| `ReviewFamilies.DeadFamilyRevivesExactly` | server/app/main.py:1082-1118 | A step puts a live grant into a revoked family exactly when it is such a late insert into that family |
| `ReviewFamilies.ReuseKillsTheFamily` | server/app/main.py:906-920 | A refresh token presented again starts a revocation of its family; once that writes, the whole family is revoked if and only if no grant inserted into it since the read is still live |
| `ReviewFamilies.OnlyTheNewestMints` | server/app/main.py:1093-1103 | A grant is minted only from the newest grant of its chain |
| `ReviewFamilies.AtomicRefreshIsNeverLate` | server/app/main.py:1082-1118 | Checks and insert in one transaction are never late |
| `ReviewFamilies.AtomicRevocationMissesNothing` | server/app/models.py:1594-1647 | SELECT and UPDATE of a revocation in one transaction miss nothing and revoke exactly the chain or the session |
| `ReviewFamilies.RefreshOutlivesLogout` | server/app/main.py:1134-1156 | A concrete run: a logout between the checks and the insert of a refresh leaves a live grant in a revoked family |
| `ReviewFamilies.LogoutMissesARefresh` | server/app/main.py:1134-1156 | A concrete run: a refresh between the SELECT and the UPDATE of a logout does the same, though its parent is live when it inserts |
| `ReviewSession.NoTokenIsPresentedTwice` | packages/shared/src/reviewSession.ts:292-353 | For any interleaving of concurrent requests, late 401s, logouts, logins and answers, with fresh tokens from the server, no refresh token is presented twice |
| `ReviewSession.LogoutSticks` | packages/shared/src/reviewSession.ts:166-174 | After a logout no late answer restores credentials and nothing is presented until a new login |
| `ReviewSession.ReviewDocument.RememberReviewSession` | packages/shared/src/reviewSession.ts:130-135 | The code of a step: holds the session and remembers its access token |
| `ReviewSession.ReviewDocument.ClearReviewSession` | packages/shared/src/reviewSession.ts:166-174 | The code of a step: forgets everything and starts a new epoch |
| `ReviewSession.ReviewDocument.SessionForToken` | packages/shared/src/reviewSession.ts:278-290 | The code of a step: finds the held session for its current or an earlier access token, and nothing otherwise |
| `ReviewSession.ReviewDocument.RefreshReviewSession` | packages/shared/src/reviewSession.ts:292-353 | The code of a step: presents a token only when no flight is under way and the expected token is the held one |
| `ReviewSession.ReviewDocument.FlightReturned` | packages/shared/src/reviewSession.ts:306-338 | The code of a step: an answer counts only in the epoch that started its flight |
| `ReviewSession.ReviewDocument.FlightSettled` | packages/shared/src/reviewSession.ts:339-353 | The code of a step: forgets the flight only if it is still the current one |
| `JoinCodes.JoinCodeTable.LookUp` | server/app/models.py:664-675 | Finds the code's row, or says invalid exactly when no row has it, or consumed only for a used one-time code |
| `JoinCodes.JoinCodeTable.Claim` | server/app/models.py:676-707 | The guarded UPDATE wins exactly while the row still has this hash and, for an unused code, is still unused |
| `JoinCodes.JoinCodeTable.ReplaceJoinCode` | server/app/models.py:713-747 | Replaces the hash at the first undisturbed of three attempts, unconsumed whatever joined meanwhile, and returns the hash really replaced; gives up exactly when all three were disturbed; a role without a row gets one unless a concurrent insert is first |
| `JoinCodes.JoinCodeTable.RevokeIssued` | server/app/models.py:788-803 | Revokes every token issued for the roles and returns the newly revoked |
| `JoinCodeRuns.OneTimeCodesAreConsumedOnce` | server/app/models.py:654-707 | A student or wizard code issues at most one token under every interleaving |
| `JoinCodeRuns.ReplacedCodesNeverSucceed` | server/app/models.py:725-747 | A code replaced by a committed reissue never issues a token again |
| `JoinCodeRuns.NewCodesStartUnconsumed` | server/app/models.py:713-747 | A new code starts unconsumed and its first redemption succeeds |
| `JoinCodeRuns.RevokeLiveIsComplete` | server/app/models.py:773-803 | With revoke_live every token ever issued to those roles is revoked, and any token of the replaced or older codes stays revoked later |
| `ClockOffset.ComputeOffsetMedian` | server/app/websocket.py:165-191 | Returns the median of the offsets of the lowest-RTT samples, for any sample list and keep count |
| `ClockOffset.ErrorBound` | server/app/websocket.py:165-191 | With a fixed true offset and non-negative one-way delays the result is off by at most half the k-th smallest round trip (formulas of section 8 of RFC 5905) |
| `ClockOffset.BoundIsTight` | server/app/websocket.py:182-183 | All delay on one leg: the error is exactly half the round trip |
| `ClockOffset.KeptAreLowest` | server/app/websocket.py:185-186 | The kept samples have the k-th smallest round trip at most, the dropped ones at least |
| `ClockOffset.MajorityBoundsTheMedian` | server/app/websocket.py:187-191 | If more than half of the kept offsets are within e of the true offset, so is the result |
| `Timeline.FoldEvents` | server/app/main.py:1544-1625 | The loop over events and open spans produces exactly the specified entries |
| `Timeline.BuildEntries` | server/app/main.py:1526-1634 | The result is a permutation of those entries, sorted by (t_ms is None, t_ms, sequence, source) |
| `Timeline.EveryEventIsShown` | server/app/main.py:1550-1598 | Every event yields its own entry or closes exactly one earlier start, whose entry then carries its end, type and duration |
| `Timeline.ClosesExactly` | server/app/main.py:1571-1598 | An end closes a span exactly when the previous start or end of its clip id is a start |
| `Timeline.OneCloser` | server/app/main.py:1571-1598 | A start has at most one closer |
| `CaptureSpans.RecordingSpans` | server/app/main.py:1637-1669 | The spans are those of the maximal runs of consecutive sequences |
| `CaptureSpans.RunsFlattenBack` | server/app/main.py:1648-1668 | The runs put together are the chunk list |
| `CaptureSpans.RunsAreMaximal` | server/app/main.py:1648-1668 | Every run is consecutive and no run continues the one before it |
| `CaptureSpans.CountsAndSizesConserved` | server/app/main.py:1648-1668 | Counts and sizes add up to the chunk list's |
| `SessionPages.PageIsExact` | server/app/main.py:487-494 | A page holds exactly the rows after its cursor down to the next cursor, strictly descending, full unless it is the last |
| `SessionPages.NothingRepeats` | server/app/models.py:596-615 | All pages together are strictly descending, whatever is inserted between requests |
| `SessionPages.NothingIsMissed` | server/app/models.py:596-615 | Following the cursor to null shows every session present at the first request |
| `SessionPages.PagingTerminates` | server/app/main.py:487-494 | When later sessions are newer, the walk ends within one request more than there were sessions |
| `RateLimiter.SlidingWindowLimiter.Allow` | server/app/auth.py:100-108 | Prunes the key's list, answers, records an accepted call, and leaves other keys alone |
| `RateLimiter.NoWindowIsOverfull` | server/app/auth.py:100-108 | With a non-decreasing clock every half-open window of the length holds at most limit accepted calls |
| `RateLimiter.DecidesAsFullHistory` | server/app/auth.py:100-108 | The pruned list decides exactly as the full history would |

## Left out

- Server routes are single atomic steps: overlapping request threads, lost ORM updates and the body read inside the ingest route are not modelled, except where the grace sweep, the refresh, the revocation of grants, the join and the reissue are split here.
- One session, one take and one browser profile per run, with Web Locks available; a browser without them is not modelled.
- The slice-storage failure path `markDurableChunkLoss` and the claim-less path for servers from before claims existed.
- Retry timers of single slices in `TakeProtocol`: a slice that may be sent is sent at any time, which includes every schedule.
- `RecordingPage.Page.CommitRecorderStop`: without the branches for a slice that could not be stored, because that failure path is left out.
- `MemoryUploadLog`, the wording of messages, storage warnings, permission prompts and device errors.
- `mark_operator_incomplete` has no caller; it is an event of `RowLifecycle` on rows without a tombstone only, and is not part of the take and worker runs.
- `mark_transcode_started` and `mark_transcode_result` have no caller and are not modelled.
- Synthesizing a recording row for an ended session without one, and audit rows, are not modelled.
- SHA-256 is an injective function; FFmpeg, ffprobe, boto3, IndexedDB, SQLite and SQLAlchemy are abstract state with atomic transactions.
- `_valid_mp4` is a fixed predicate of the file and the declared duration; disk capacity and the `.part` file of the local object store are not modelled.
- For what must never happen the worker may claim any queued job at any time, which includes the order of `JobQueue.JobTable.Claim`; what can always be reached is shown on runs in that order. The session directory is removed slice by slice and its other files in one action.
- SQLite backups and the payload check of orphan deletion are not modelled; a timeout job's sweep is a route step.
- Event payload fields of a wrong JSON type count as absent; explicit ids are never spelled like a fallback key; clock-offset stamps, character state and revealed facts are not part of a snapshot here, and a session without a snapshot gets a fresh one.
- `EventExactlyOnce.DurableEventsAreAnswered`: within one page lifetime of the console, because its counter restarts with the page.
- At most one socket per role, heartbeats, broadcasts and the agreement of the in-memory state with the row after `/end` are not modelled.
- A revocation that reads stale rows out of the ORM session writes a later time over an earlier one; only whether a grant is revoked matters here.
- Review codes, upload codes, operator logins and cookies; tokens and codes are opaque fresh values.
- `ReviewSession.NoTokenIsPresentedTwice`: one document; what a duplicated tab holds is a starting state without a refresh token.
- Session ids are compared as numbers in `SessionPages`; the base64 text of a cursor is not modelled.
- Offsets are exact reals in `ClockOffset`; the rounding that the browser applies to its own median is not modelled.
- Clip metadata, the action fields lifted out of payloads and the summary counts of the timeline.
- React rendering, hotkeys, video players, forms, export and case files.
