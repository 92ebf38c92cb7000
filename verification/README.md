# The client-side data engine, verified

A Dafny model of the parts of the client library that keep a user's notes, tags and keys
consistent: the sync protocol, the emission pipeline, the tag forest and its folder migration,
items key recovery, session history, challenges, deletion and database loading.

- **Sync** (`SyncModel`, `SyncLocking`, `SyncRequests`, `SyncTrace`, `SyncUpdates`, `SyncTheorems`,
  `SyncStore`, `SyncCalls`, `SyncSurvival`, `SyncLosses`, `SyncSpawns`, `SyncOutcomes`, `SyncFollowUps`,
  `SyncStranding`, `SyncCoverage`, `SyncFreeze`, `SyncService`, `AccountSyncOperation`). A call of
  `performSync` runs in stretches between awaits. Each stretch is one atomic step of a state machine, so a
  list of steps is one interleaving of any number of calls with local edits and server answers. The theorems
  hold for every list of steps. The class `SyncService` has one method per stretch, proved to be
  the step, and performing steps on it is a run; the upload round trips are a class of their own.
- **Emission** (`PayloadModel`, `PayloadManager`, `ItemStream`, `Pipeline`). Observers are
  arbitrary, finitely re-entrant emitters: what a notification provokes is carried by the emit as a
  finite tree.
- **Tags** (`TagTitles`, `TagForest`, `TagPaths`, `TagManagement`, `TagsToFolders`). Lower case and
  the display order are parameters.
- **Key recovery** (`KeyRecoveryModel`, `KeyRecoveryTheorems`, `KeyRecoveryService`). How each prompt
  ends, what arrives meanwhile and which keys decrypt are parameters of a run.
- **History** (`History`, `HistoryManager`), **challenges** (`ChallengeModel`, `ChallengeOperation`,
  `ChallengeService`), **deletion** (`ItemDeletion`), **database load** (`DatabaseLoad`).
- `Lists`, `Slices`, `Sorting` and `Wrappers` hold the array helpers, where slices start, a stable sort,
  options and results.

`dafny verify dfyconfig.toml` checks everything.

Where the code and its documentation part ways, the model follows the code:

- An edit can be lost. A note that is created and deleted before its first sync is set aside by the next
  call, and when that call completes the note is discarded whatever it is by then. If it was revived
  meanwhile, its new content is gone. `SyncSurvival.LiveEditLostIff` says exactly when, and
  `SyncLosses.RevivedEditIsLost` is such a run. No other live edit disappears while it waits.
- A deletion can be lost. A note whose upload was sent, but whose answer never came, still counts as never
  synced. When it is deleted then, the next call sets it aside, does not upload the deletion, and drops the
  note on completion, although the server may hold it. `SyncSurvival.DeletionLostIff` says exactly when, and
  `SyncLosses.SentDeletionCanBeLost` is such a run.
- A deferred request can be stranded without any error. A call that found the lock taken may be through with
  its preparations only after the call that held the lock has ended; its request then waits until somebody
  asks for another sync. `SyncStranding.StrandedIff` says exactly when, and
  `SyncStranding.LateDeferralIsStranded` is such a run.
- A request to force a sync is resolved also when the client is locked and nothing is started, and when
  its operation failed; `SyncSpawns.SpawnIsServedIff` says when a completed sync stands behind it.
- After a folder migration `isApplicableToCurrentData` can stay true for good, because titles such as
  `a..b` are skipped; `TagsToFolders.ApplicableAfterRunIff` says exactly when, with
  `DoubleDotStaysApplicable` as a witness.
- `ItemCollection` learns of a batch as three lists. It agrees with the master collection only under a
  condition on repeated uuids (`PayloadModel.MirrorAgreesIff`, with `MirrorGoesStale` as a witness).
- A challenge with two prompts of one kind can never finish (`ChallengeOperations.FinishedIff`, with
  `TwoPasscodesNeverFinish` as a witness), and finishing one without registered observers throws after
  the operation was deleted.
- The rule for replacing the root key is stricter than the comment above the recovery service: the
  local key must also differ from the server's and not be of a newer version.
- An errored sync drops the requests that piggybacked on it: their promises are never settled.

## Model

| member | source | states |
|---|---|---|
| SyncSurvival.NoLostUpdate | packages/snjs/lib/Services/Sync/SyncService.ts:498-531 | over every run: an item that was ever sent is, while it is in the collection, dirty or acknowledged with its current content, by the server unless an offline operation saved that very item; once it is gone, its deletion is acknowledged, or a completing call that had set it aside as deleted and never synced dropped it, and it has been gone and unacknowledged ever since |
| SyncSurvival.EditIsNotLost | packages/snjs/lib/Services/Sync/SyncService.ts:754-819 | over every run: the last edit of an item still waits at the end, or its content was acknowledged, or a completing call that had set the item aside as deleted and never synced dropped it |
| SyncSurvival.LiveEditLostIff | packages/snjs/lib/Services/Sync/SyncService.ts:1109-1118 | a live edit is lost if and only if a call that set the item aside as never synced and deleted, before the edit revived it, completes without error |
| SyncLosses.RevivedEditIsLost | packages/snjs/lib/Services/Sync/SyncService.ts:1109-1118 | a run that loses an edit: a note created, deleted, collected and then revived during the round trip waits for upload when the call completes, and is gone after it |
| SyncSurvival.DeletionLostIff | packages/snjs/lib/Services/Sync/SyncService.ts:1109-1118 | over every run: a waiting deletion disappears without an acknowledgement if and only if a call that had set the item aside as deleted and never synced, while the deletion was unacknowledged, completes without error |
| SyncStore.DeletionLostNowIff | packages/snjs/lib/Services/Sync/SyncService.ts:1109-1118 | a step makes a waiting, unacknowledged deletion disappear unacknowledged exactly when it completes a call that set the item aside |
| SyncLosses.SentDeletionIsLost | packages/snjs/lib/Services/Sync/SyncService.ts:498-531 | from any run that leaves the service idle after a completed download: a new note is uploaded, the answer is lost, the note is deleted, and the next sync that succeeds drops the deletion although the note was sent |
| SyncLosses.SentDeletionCanBeLost | packages/snjs/lib/Services/Sync/SyncService.ts:1109-1118 | such a run from the start: after the first sync, the deletion of a note that was sent waits until its call completes, and then the note is gone and nobody has acknowledged it |
| SyncStore.EditSurvivesStep | packages/snjs/lib/Services/Sync/SyncService.ts:754-819 | every step leaves a dirty item that it does not edit waiting with the same content and dirty index, acknowledged, or dropped by the completion of a call that set it aside |
| SyncStore.LiveEditGoneIff | packages/snjs/lib/Services/Sync/SyncService.ts:1109-1118 | a step makes a live dirty item disappear exactly when it completes a call that set the item aside |
| SyncStore.DirtyBefore | packages/snjs/lib/Services/Sync/SyncService.ts:754-819 | only an edit or a creation makes an item dirty: one that is dirty after any other step was dirty before it, with the same content and dirty index |
| SyncSurvival.SetAsideWaits | packages/snjs/lib/Services/Sync/SyncService.ts:498-531 | while the call that set an item aside holds the lock, only the end of that call can acknowledge or drop the item |
| SyncCalls.InsideGoesOn | packages/snjs/lib/Services/Sync/SyncService.ts:754-783 | steps inside a running operation upload nothing but what the call collected, hence nothing that it set aside |
| SyncStore.SuccessOutcome | packages/snjs/lib/Services/Sync/SyncService.ts:851-905 | after a response a dirty item is acknowledged with its content if it was saved and has not changed since the freeze; otherwise it waits unchanged, whatever was retrieved |
| SyncStore.OfflineOutcome | packages/snjs/lib/Services/Sync/SyncService.ts:821-837 | after an offline save a dirty item is acknowledged with its content if it was carried and has not changed since the freeze; otherwise it waits unchanged |
| SyncTheorems.RequestsAreConserved | packages/snjs/lib/Services/Sync/SyncService.ts:400-410 | over every run: each deferred request is in exactly one place (resolve queue, batch of one call, resolved, dropped) and is settled at most once |
| SyncTheorems.RequestsAreServedInOrder | packages/snjs/lib/Services/Sync/SyncService.ts:754-819 | in the log of every run a request is resolved only after its call has completed an operation that began after the request was queued, and dropped only after such an operation has failed; that completing means ending without error is EndedIff |
| SyncTheorems.MutualExclusion | packages/snjs/lib/Services/Sync/SyncService.ts:541-564 | over every run: at most one call is between taking and releasing the lock, the lock flag is set exactly then, and an operation in flight implies the lock |
| SyncTheorems.NoOverlappingOperations | packages/snjs/lib/Services/Sync/SyncService.ts:754-791 | between the beginnings of two operations the first one ended |
| SyncTheorems.DownloadComesFirst | packages/snjs/lib/Services/Sync/SyncService.ts:652-669 | in the log of every run an online operation that carries uploads is preceded by a completed online operation that was launched without uploads; that completing means ending without error is EndedIff |
| SyncOutcomes.EndedIff | packages/snjs/lib/Services/Sync/SyncService.ts:999-1003 | over every run: an operation completes if and only if the last answer its call got before it finished was no error, and fails if and only if that answer was an error |
| SyncOutcomes.EndsOnce | packages/snjs/lib/Services/Sync/SyncService.ts:789-794 | over every run: the operation of a call ends at most once, and not in both ways |
| SyncOutcomes.SettledByOutcome | packages/snjs/lib/Services/Sync/SyncService.ts:787-819 | over every run: a request is resolved only by a call whose operation began after the request was queued and ended without error, and dropped only by such a call whose operation ended with one |
| SyncOutcomes.UploadsFollowDownload | packages/snjs/lib/Services/Sync/SyncService.ts:652-669 | over every run: uploads come only after an online operation that carried none and ended without error |
| SyncOutcomes.SpawnIsServedBySuccessIff | packages/snjs/lib/Services/Sync/SyncService.ts:406-436 | over every run: a request that forces a sync of its own is resolved by a completed sync if and only if the operation of the last call started for it, through any deferrals, ended without error |
| SyncFollowUps.ContinueFollowsUp | packages/snjs/lib/Services/Sync/SyncService.ts:1087-1103 | after an operation that was no download-first one, with the client unlocked: a call is started if and only if a request waits in one of the queues or some item is dirty, and a second one if and only if a request forces a sync and some item is dirty; the first takes the lock if and only if the database is loaded and no call holds it, the second never; each covers every dirty item |
| SyncFollowUps.DownloadFollowsUp | packages/snjs/lib/Services/Sync/SyncService.ts:1026-1036 | after a download-first operation a call is started in any case, and takes the lock if and only if the database is loaded and no call holds it |
| SyncFollowUps.DownloadIsRemembered | packages/snjs/lib/Services/Sync/SyncService.ts:1026-1029 | the download-first flag is set exactly by such an operation that was online, and another sync follows |
| SyncFollowUps.NoCallsWhileLocked | packages/snjs/lib/Services/Sync/SyncService.ts:483-487 | over every run: from the moment the client is locked until it is unlocked no call is started |
| SyncFollowUps.LockedClientStartsNothing | packages/snjs/lib/Services/Sync/SyncService.ts:416-436 | with the client locked a completed operation starts nothing, and a request that forces a sync leaves its queue all the same |
| SyncFollowUps.HolderBegins | packages/snjs/lib/Services/Sync/SyncService.ts:757-771 | a call that holds the lock begins with exactly the requests that wait by then |
| SyncFollowUps.DeferredWaits | packages/snjs/lib/Services/Sync/SyncService.ts:566-582 | a call that does not hold the lock ends, and its request joins the end of the queue of its strategy |
| SyncStranding.NobodyIsStranded | packages/snjs/lib/Services/Sync/SyncService.ts:1075-1107 | over every run: a request that waits while some call still looks at the queue is looked at for as long as it waits, if the client stays unlocked and no operation fails |
| SyncStranding.StrandedIff | packages/snjs/lib/Services/Sync/SyncService.ts:757-767 | when every call has come to rest, with no failure and no other sync asked for meanwhile, a request is still waiting if and only if no call was looking at the queue any more when it was queued |
| SyncStranding.LateDeferralIsStranded | packages/snjs/lib/Services/Sync/SyncService.ts:754-767 | a run without any error after which all calls have ended and a request waits that nobody will serve |
| SyncCoverage.LaunchCarriesAll | packages/snjs/lib/Services/Sync/SyncService.ts:617-669 | over every run: an operation carries every item that its call collected, in its present content unless it was edited since, and none exactly when the call asked for a download or is online before one has completed |
| SyncCoverage.BatchIsOnItsWay | packages/snjs/lib/Services/Sync/Account/Operation.ts:52-62 | over every run: a batch leaves what is pending and is on its way, in step with the items |
| SyncCoverage.AnswerEndsIff | packages/snjs/lib/Services/Sync/Account/Operation.ts:75-82 | over every run: after an answer the operation is through if and only if nothing is pending and the server has no more |
| SyncCoverage.EverythingCollectedIsSent | packages/snjs/lib/Services/Sync/SyncService.ts:754-787 | over every run: when an operation that does not only download ends, every item that its call collected has been sent |
| SyncCoverage.SavedIsNeverSetAside | packages/snjs/lib/Services/Sync/SyncService.ts:508-516 | over every run: what the server has saved is never set aside as never synced and deleted afterwards |
| SyncCoverage.RetrievedOutcome | packages/snjs/lib/Services/Sync/SyncService.ts:851-905 | an item without local changes takes what was retrieved for it, is gone if that is a deletion, and is acknowledged; one that was not retrieved stays as it is |
| SyncFreeze.SavedIsDirtyIff | packages/snjs/lib/Services/Sync/SyncService.ts:501-506 | over every run: an item that the server has saved is still dirty if and only if it was edited after the call was made that uploaded it; otherwise its present content is acknowledged |
| SyncFreeze.SavedOfflineIsDirtyIff | packages/snjs/lib/Services/Sync/SyncService.ts:501-506 | the same for what an offline operation has saved |
| SyncSpawns.SpawnIsServedIff | packages/snjs/lib/Services/Sync/SyncService.ts:406-436 | over every run: the promise of a request that forces a sync of its own is resolved by a completed sync if and only if the last call started for it, through any number of deferrals, has ended and did not fail; with such a call it is pending exactly until that call ends |
| SyncSpawns.SettlementIsFinal | packages/snjs/lib/Services/Sync/SyncService.ts:416-436 | once resolved such a request stays resolved, by the same call, in every continuation of the run |
| SyncSpawns.StepAdvances | packages/snjs/lib/Services/Sync/SyncService.ts:754-819 | every step keeps: a popped request has at most one call and a call serves at most one request, a deferred call is queued behind the request it serves, and a call that has ended was either deferred, or failed, or completed; what a call set aside never changes, a call that released the lock never has it again, and a new call sets aside what is doomed at that moment |
| SyncSpawns.JoinAdvances | packages/snjs/lib/Services/Sync/SyncService.ts:406-410 | a deferred call ends and joins the end of the spawn queue, behind every request that was popped before |
| SyncSpawns.SpawnsArePoppedInOrder | packages/snjs/lib/Services/Sync/SyncService.ts:406-436 | over every run: the requests that force a sync of their own leave their queue one by one, in the order in which they joined it; what becomes of a popped one is stated by SpawnIsServedIff |
| SyncLocking.PoppedRequestStarts | packages/snjs/lib/Services/Sync/SyncService.ts:416-436 | the first spawned request leaves the queue; it starts a call with its own mode if and only if the client is not locked, and that call takes the lock if and only if the database is loaded and no call holds it |
| SyncTheorems.RunKeepsInv | packages/snjs/lib/Services/Sync/SyncService.ts:754-819 | every reachable state satisfies the six parts of the invariant |
| SyncTheorems.StepKeepsInv | packages/snjs/lib/Services/Sync/SyncService.ts:754-819 | every step of every call, edit and server answer keeps the invariant |
| SyncTheorems.BeginKeepsInv | packages/snjs/lib/Services/Sync/SyncService.ts:584-597 | beginning an operation with the in-time requests keeps the invariant |
| SyncTheorems.DeferKeepsInv | packages/snjs/lib/Services/Sync/SyncService.ts:566-582 | deferring, by either strategy, keeps the invariant |
| SyncTheorems.StampKeepsInv | packages/snjs/lib/Services/Sync/SyncService.ts:598-615 | claiming the in-time requests and stamping the collected items keeps the invariant |
| SyncTheorems.FailKeepsInv | packages/snjs/lib/Services/Sync/SyncService.ts:999-1003 | giving up after an error keeps the invariant: the requests of the call are dropped, none is resolved |
| SyncTheorems.CompleteKeepsInv | packages/snjs/lib/Services/Sync/SyncService.ts:999-1023 | finishing without error keeps the invariant |
| SyncTheorems.SyncAgainKeepsInv | packages/snjs/lib/Services/Sync/SyncService.ts:1087-1103 | whatever is started for a spawned request, waiting requests or dirty items keeps the invariant; what is started is stated by ContinueFollowsUp |
| SyncTheorems.DownloadedKeepsInv | packages/snjs/lib/Services/Sync/SyncService.ts:1026-1036 | setting the download-first flag keeps the invariant: the flag is only set by an operation that completed online without uploads |
| SyncLocking.OperationStepKeepsLocking | packages/snjs/lib/Services/Sync/SyncService.ts:754-783 | steps inside a running operation touch neither lock nor flag |
| SyncLocking.SyncKeepsLocking | packages/snjs/lib/Services/Sync/SyncService.ts:541-564 | a new call takes the lock only if nobody holds it |
| SyncLocking.CompleteKeepsLocking | packages/snjs/lib/Services/Sync/SyncService.ts:789-791 | releasing the lock leaves nobody between taking and releasing it |
| SyncRequests.ClaimConserves | packages/snjs/lib/Services/Sync/SyncService.ts:584-602 | moving a batch out of the queue to a call loses and duplicates no request |
| SyncRequests.SettleConserves | packages/snjs/lib/Services/Sync/SyncService.ts:1069-1073 | settling a batch turns claimed requests into settled ones, each once |
| SyncRequests.QueueConserves | packages/snjs/lib/Services/Sync/SyncService.ts:400-404 | a newly queued request is neither claimed nor settled |
| SyncTrace.FirstEndsBeforeSecondBegins | packages/snjs/lib/Services/Sync/SyncService.ts:754-791 | in a log in which operations exclude each other, two beginnings have an end between them |
| SyncTrace.SettlingKeepsHistory | packages/snjs/lib/Services/Sync/SyncService.ts:1069-1073 | resolving a batch keeps every settlement after the end of its operation |
| SyncTrace.CallCompletes | packages/snjs/lib/Services/Sync/SyncService.ts:993-1024 | a download-first operation that completes online leaves the evidence the flag needs |
| SyncUpdates.CleanAfterSave | packages/snjs/lib/Services/Sync/SyncService.ts:851-905 | a saved item that becomes clean is exactly what was uploaded |
| SyncUpdates.SuccessKeeps | packages/snjs/lib/Services/Sync/SyncService.ts:851-905 | handling a response keeps: clean items that were sent are acknowledged, payloads still pending are in step with their items |
| SyncUpdates.StampKeeps | packages/snjs/lib/Services/Items/ItemManager.ts:1329-1356 | stamping changes nothing of an item but its stamp, and only of the items it is given: content, dirty flag and dirty index stay |
| SyncUpdates.EditKeeps | packages/snjs/lib/Services/Sync/SyncService.ts:498-531 | an edit at any time leaves what an operation has collected either current or marked as changed since the freeze |
| SyncUpdates.OfflineKeeps | packages/snjs/lib/Services/Sync/SyncService.ts:821-837 | saving offline acknowledges, not by the server, every carried item with the content that was carried, and no other item |
| SyncService.SyncService.Perform | packages/snjs/lib/Services/Sync/SyncService.ts:754-819 | each step of the machine is one method of the service: the invariant is kept, the new state is the prescribed one, and a dirty item that is not edited waits, is acknowledged, or is dropped by the completion of a call that set it aside |
| SyncService.SyncService.PerformAll | packages/snjs/lib/Services/Sync/SyncService.ts:754-819 | performing steps one after the other on the service is a run of the machine, so that every theorem about runs holds of its fields, and the guarantees hold afterwards |
| SyncService.SyncService.ValidGuarantees | packages/snjs/lib/Services/Sync/SyncService.ts:754-819 | in every valid state: in flight implies locked, at most one call holds the lock, clean sent items are acknowledged, and every online upload was launched after a completed download-first sync |
| SyncService.SyncService.ItemsNeedingSync | packages/snjs/lib/Services/Sync/SyncService.ts:360-362 | the loop collects exactly the dirty items |
| SyncService.SyncService.SelectNeverSyncedDeleted | packages/snjs/lib/Services/Sync/SyncService.ts:508-516 | the loop selects, among the items that need sync, exactly those never synced and deleted |
| SyncService.SyncService.SetLastSyncBeganForItems | packages/snjs/lib/Services/Items/ItemManager.ts:1329-1356 | the loop stamps exactly the given items, with the frozen index, and changes nothing else |
| SyncService.SyncService.EmitPayloads | packages/snjs/lib/Services/Payloads/PayloadManager.ts:173-219 | the loop replaces or adds every emitted item, removes those that are deleted and not dirty, and leaves the others |
| SyncService.SyncService.FindLatestItems | packages/snjs/lib/Services/Items/ItemManager.ts:1329-1356 | the loop reads the present content of those collected items that still exist |
| SyncLocking.CallTakesLockIff | packages/snjs/lib/Services/Sync/SyncService.ts:541-564 | a new call takes the lock if and only if the database is loaded and no call holds it, and afterwards the flag is set exactly when some call holds the lock |
| SyncUpdates.CallCollects | packages/snjs/lib/Services/Sync/SyncService.ts:498-531 | a new call collects or sets aside every dirty item and no other, sets aside exactly those never synced and deleted, and freezes the dirty index of that moment; an edit made later stays dirty when it is saved with the stamp of this call |
| SyncTheorems.QueueKeepsInv | packages/snjs/lib/Services/Sync/SyncService.ts:400-404 | a request that joins the resolve queue is in one place only, queued before whatever serves it, and disturbs no other part of the invariant |
| SyncTheorems.EnterKeepsInv | packages/snjs/lib/Services/Sync/SyncService.ts:757-767 | after preparing, a call with the lock begins with the requests queued so far and a call without it is deferred; both keep the invariant |
| SyncRequests.StampKeepsRequests | packages/snjs/lib/Services/Sync/SyncService.ts:598-606 | claiming the in-time requests takes each of them out of the queue into one batch and leaves the later ones queued |
| SyncTrace.CreateOperationKeepsDownloads | packages/snjs/lib/Services/Sync/SyncService.ts:652-752 | launching an operation keeps: online uploads only after a completed online operation without uploads, and a download-first operation carries nothing |
| SyncUpdates.ReceiveErrorKeepsUpdates | packages/snjs/lib/Services/Sync/SyncService.ts:839-849 | an error response leaves every item and every acknowledgement as it was, and what is pending stays in step |
| SyncTheorems.FinishKeepsInv | packages/snjs/lib/Services/Sync/SyncService.ts:993-1024 | ending an operation, with an error or without, keeps the invariant: the lock and the in-flight flag are released together; which of the two it is is stated by EndedIff |
| SyncTheorems.ContinueKeepsInv | packages/snjs/lib/Services/Sync/SyncService.ts:1075-1107 | what follows a completed operation keeps the invariant; which calls are started is stated by ContinueFollowsUp, and the flag by DownloadIsRemembered |
| SyncService.SyncService.ResolvePendingSyncRequests | packages/snjs/lib/Services/Sync/SyncService.ts:1069-1073 | every in-time request is resolved, in order, and nothing else changes |
| SyncTrace.BeginKeepsExclusion | packages/snjs/lib/Services/Sync/SyncOpStatus.ts:62-65 | setting the in-flight flag logs a beginning that no other operation overlaps |
| SyncTrace.CompleteKeepsExclusion | packages/snjs/lib/Services/Sync/SyncOpStatus.ts:67-69 | clearing the in-flight flag logs the end of the one operation that was in flight |
| AccountSyncOperation.RunUploadsEverythingOnce | packages/snjs/lib/Services/Sync/Account/Operation.ts:52-81 | for any server answers: the batches of a run concatenate to the payloads in order, each has at most 150, and each request after the first carries the tokens of the previous response |
| AccountSyncOperation.RunGoesOnIff | packages/snjs/lib/Services/Sync/Account/Operation.ts:52-82 | a run goes on after a round trip if and only if payloads are left or the pagination token of the answer is present and not empty; batches hold 150 payloads as long as some are left |
| AccountSyncOperation.AccountSyncOperation.Run | packages/snjs/lib/Services/Sync/Account/Operation.ts:52-81 | terminates when the pagination tokens run out, and makes exactly the requests of the transcript |
| AccountSyncOperation.AccountSyncOperation.PopPayloads | packages/snjs/lib/Services/Sync/Account/Operation.ts:46-50 | the popped part followed by the rest is what was pending |
| AccountSyncOperation.AccountSyncOperation.RoundTrip | packages/snjs/lib/Services/Sync/Account/Operation.ts:57-70 | one request with the next batch and the last tokens; the tokens of the answer replace them |
| AccountSyncOperation.AccountSyncOperation.SavedOrSavingIsWhatWasSent | packages/snjs/lib/Services/Sync/Account/Operation.ts:42-44 | at any point of a run, the payloads saved or saving are exactly those sent so far |
| AccountSyncOperation.SavedOrSavingIsPopped | packages/snjs/lib/Services/Sync/Account/Operation.ts:42-50 | for payloads without repetitions the difference with the pending part is the leading part |
| AccountSyncOperation.BatchesConcatenate | packages/snjs/lib/Services/Sync/Account/Operation.ts:46-50 | any number of batches concatenates to a leading part of the payloads |
| PayloadModel.DeltaPartitionsBatch | packages/snjs/lib/Services/Payloads/PayloadManager.ts:173-219 | changed, inserted and discarded partition the payloads that are not corrupt; the unerrored ones are among the changed |
| PayloadModel.MasterKeepsLast | packages/snjs/lib/Services/Payloads/PayloadManager.ts:173-219 | the collection ends up with the last payload of the batch for each uuid, or without it if that one is a discard |
| PayloadModel.DeltaForUuid | packages/snjs/lib/Services/Payloads/PayloadManager.ts:173-219 | which lists mention a uuid, and with what, for every batch |
| PayloadModel.UnerroredIff | packages/snjs/lib/Services/Payloads/PayloadManager.ts:205-211 | for every batch: a payload is listed as unerrored if and only if it brings decrypted what was encrypted until then |
| PayloadModel.MirrorAgreesIff | packages/snjs/lib/Services/Items/ItemManager.ts:368-411 | upserting changed, then inserted, then removing discarded gives the master collection if and only if no uuid of the batch is revived after a discard and none is inserted and then changed to something else |
| PayloadModel.MirrorGoesStale | packages/snjs/lib/Services/Items/ItemManager.ts:368-411 | a new item emitted twice in one batch leaves the mirror with the older content |
| PayloadModel.ReplayInAnyOrder | packages/snjs/lib/Services/Payloads/PayloadManager.ts:173-219 | with distinct uuids, replaying the lists in any order on a copy gives the master collection |
| PayloadModel.MirrorAgreesOnDistinctBatch | packages/snjs/lib/Services/Items/ItemManager.ts:368-411 | with distinct uuids the mirror agrees |
| PayloadManager.PayloadManager.EmitDeltaEmit | packages/snjs/lib/Services/Payloads/PayloadManager.ts:93-114 | from outside, the whole queue is drained before the call returns, with everything its observers provoke; from inside a callback the emit only joins the queue |
| PayloadManager.PayloadManager.PopQueue | packages/snjs/lib/Services/Payloads/PayloadManager.ts:149-171 | terminates for any finitely re-entrant observers, with the collection, the callbacks and the results of folding all emits in the order they were queued; what each emit resolves with is stated by ValidResolves |
| PayloadManager.PayloadManager.ValidResolves | packages/snjs/lib/Services/Payloads/PayloadManager.ts:166-166 | in every valid state each emit that left the queue has been resolved with exactly those of its payloads that are not corrupt, each as often as it came |
| PayloadManager.ResolvedWithItsPayloads | packages/snjs/lib/Services/Payloads/PayloadManager.ts:166-166 | the same for any list of emits applied to any collection |
| PayloadManager.ObserverIsToldOfItsTypes | packages/snjs/lib/Services/Payloads/PayloadManager.ts:262-286 | over any list of emits: at each one an observer is told of exactly the payloads that are not corrupt and of its content types, as discarded only if they are, and of the ignored ones of its types |
| PayloadManager.CalledByPriority | packages/snjs/lib/Services/Payloads/PayloadManager.ts:257-260 | in every round an observer with a lower priority number is called before one with a higher number |
| PayloadManager.QueuedAre | packages/snjs/lib/Services/Payloads/PayloadManager.ts:93-99 | of any emits those with nothing in them are left out and the others are queued in order |
| PayloadManager.PayloadManager.ProcessFirst | packages/snjs/lib/Services/Payloads/PayloadManager.ts:149-166 | the first emit is applied, notified, taken off and resolved; what it provokes is at the end of the queue |
| PayloadManager.PayloadManager.ApplyPayloads | packages/snjs/lib/Services/Payloads/PayloadManager.ts:173-219 | the loop computes the collection and the four lists of the specification |
| PayloadManager.PayloadManager.NotifyChangeObservers | packages/snjs/lib/Services/Payloads/PayloadManager.ts:248-286 | one callback per observer, in order of priority |
| PayloadManager.EveryObserverSeesEveryEmitInOrder | packages/snjs/lib/Services/Payloads/PayloadManager.ts:149-171 | every observer sees exactly one callback per emit, in the order of the emits, with its part of each |
| PayloadManager.NothingProvokedIsLost | packages/snjs/lib/Services/Payloads/PayloadManager.ts:149-171 | what is drained after a queue is exactly what the emits of the queue and of the drain provoke, each once and in the order of the emits that provoke them |
| ItemStream.StreamAlwaysShowsItsItems | packages/snjs/lib/Application/Application.ts:490-516 | at every point of every run with distinct uuids and stable content types, a consumer that starts from the initial push equals `getItems`, and the mirror equals the master collection |
| ItemStream.StreamStaysInSyncIff | packages/snjs/lib/Services/Items/ItemManager.ts:423-513 | one emit keeps a consumer in step if and only if it takes no shown item out of its content types |
| ItemStream.ItemManager.StreamItems | packages/snjs/lib/Application/Application.ts:490-516 | registering and the initial push put the new stream in step and disturb no other |
| ItemStream.ItemManager.SetPayloads | packages/snjs/lib/Services/Items/ItemManager.ts:368-513 | mirror and every stream are updated by the delta; streams it does not concern are not told |
| ItemStream.ItemManager.OnEmit | packages/snjs/lib/Services/Items/ItemManager.ts:368-513 | fed the delta of an emit to the master collection, a mirror that equalled it equals it again, and so do all streams |
| Pipeline.ObserverStaysInStep | packages/snjs/lib/Services/Payloads/PayloadManager.ts:149-171 | at every point of every drain, whatever re-entrant emits joined it: a mirror and a stream consumer fed what an observer of every type has seen equal the collection of the payload manager and its getItems |
| Pipeline.DeliverAll | packages/snjs/lib/Services/Items/ItemManager.ts:368-513 | delivering the notifications of a stable run one after the other leaves the item manager and all its streams in step with the collection of the payload manager |
| Pipeline.AnyTypeSeesAll | packages/snjs/lib/Services/Payloads/PayloadManager.ts:248-286 | an observer of every content type sees every delta whole, in order |
| ItemDeletion.ItemManager.SetItemsToBeDeleted | packages/snjs/lib/Services/Items/ItemManager.ts:892-896 | whatever the interleaving of the tasks, the result is the one specified: deleted items marked, references to them gone, everything else in place |
| ItemDeletion.DeletionIsComplete | packages/snjs/lib/Services/Items/ItemManager.ts:863-890 | once every task is through, the state depends on neither order nor interleaving |
| ItemDeletion.NoDanglingReferences | packages/snjs/lib/Services/Items/ItemManager.ts:863-896 | afterwards a surviving item references exactly what it referenced before minus the deleted ones |
| ItemDeletion.BeginKeeps | packages/snjs/lib/Services/Items/ItemManager.ts:863-880 | between the steps, every reference to a deleted item is still to be visited |
| ItemDeletion.VisitKeeps | packages/snjs/lib/Services/Items/ItemManager.ts:882-889 | a visit keeps that, also when the visited item is gone by then |
| TagForest.WithParentKeepsAcyclic | packages/snjs/lib/Services/Items/ItemManager.ts:1087-1099 | taking a parent that is neither the tag nor one of its descendants makes no cycle |
| TagForest.FewerParentsKeepAcyclic | packages/snjs/lib/Services/Items/ItemManager.ts:1104-1114 | dropping parents and deleting tags makes no cycle |
| TagForest.NewTagKeepsAcyclic | packages/snjs/lib/Services/Items/ItemManager.ts:1159-1177 | a new tag makes no cycle wherever it is put |
| TagForest.ChainIsUnique | packages/snjs/lib/Services/Items/ItemManager.ts:1002-1021 | a tag has one parent chain |
| TagManagement.TagManager.GetTagParentChain | packages/snjs/lib/Services/Items/ItemManager.ts:1002-1021 | terminates and returns the existing ancestors from the root down |
| TagManagement.TagManager.IsTagAncestor | packages/snjs/lib/Services/Items/ItemManager.ts:1048-1070 | terminates and decides exactly strict reachability |
| TagManagement.TagManager.IsValidTagParent | packages/snjs/lib/Services/Items/ItemManager.ts:1072-1082 | a valid parent is neither the tag nor one of its descendants |
| TagManagement.TagManager.SetTagParent | packages/snjs/lib/Services/Items/ItemManager.ts:1087-1099 | keeps the relation acyclic; which error is reported when, and nothing changes then |
| TagManagement.TagManager.UnsetTagParent | packages/snjs/lib/Services/Items/ItemManager.ts:1104-1114 | only an existing parent is unset |
| TagManagement.TagManager.CreateTag | packages/snjs/lib/Services/Items/ItemManager.ts:1159-1177 | a missing parent is reported after the tag was created at the top level |
| TagManagement.TagManager.DeleteTag | packages/snjs/lib/Services/Items/ItemManager.ts:863-890 | the children of a deleted tag move to the top level, one after the other, and nothing else changes |
| TagManagement.TagManager.FindOrCreateTagByTitle | packages/snjs/lib/Services/Items/ItemManager.ts:1221-1224 | finds the first match under the parent or creates a tag there |
| TagManagement.TagManager.FindOrCreateTagParentChain | packages/snjs/lib/Services/Items/ItemManager.ts:1023-1035 | an empty list is an error; otherwise the result of the specification |
| TagPaths.ChainSpells | packages/snjs/lib/Services/Items/ItemManager.ts:1023-1035 | the tag returned spells the titles from the top level down, ignoring case; existing tags are untouched and new ones carry titles of the list |
| TagPaths.ChainFindsAgain | packages/snjs/lib/Services/Items/ItemManager.ts:1023-1035 | a second call returns the same tag and creates nothing |
| TagPaths.CreatesNothingIff | packages/snjs/lib/Services/Items/ItemManager.ts:1221-1224 | a tag is created if and only if the parent has no child of that title, ignoring case |
| TagPaths.PathIsThereIff | packages/snjs/lib/Services/Items/ItemManager.ts:1023-1035 | where titles are unique among siblings, nothing is created if and only if some tag spells the whole path |
| TagPaths.DepthIsUnique | packages/snjs/lib/Services/Items/ItemManager.ts:1002-1021 | a tag spells titles of one length only |
| TagPaths.SpellsLongTitle | packages/snjs/lib/Services/Items/ItemManager.ts:995-1000 | the parent chain followed by the tag itself reads as the titles, part by part |
| TagPaths.DottedIsNoAncestor | packages/snjs/lib/Migrations/Applicators/TagsToFolders.ts:39-47 | a tag whose title has a dot is not on a path of titles without dots, so moving it under the end of that path makes no cycle |
| TagTitles.JoinSplit | packages/snjs/lib/Migrations/Applicators/TagsToFolders.ts:23-23 | joining the parts of a title gives the title back |
| TagTitles.SplitJoin | packages/snjs/lib/Migrations/Applicators/TagsToFolders.ts:23-23 | the split is the only way to read a title as parts without dots |
| TagTitles.SplitSimple | packages/snjs/lib/Migrations/Applicators/TagsToFolders.ts:24-24 | a title has one part exactly when it has no dot |
| TagsToFolders.MigrationPreservesMeaning | packages/snjs/lib/Migrations/Applicators/TagsToFolders.ts:18-49 | for any order of the tags: every migratable tag ends up spelling its old split title with the last part as its own title, all other existing tags are unchanged, new tags have simple titles, and the forest is acyclic |
| TagsToFolders.LongTitleIsOldTitle | packages/snjs/lib/Migrations/Applicators/TagsToFolders.ts:18-49 | the parent chain of a migrated tag reads as the upper parts of its old title, ignoring case |
| TagsToFolders.NothingLeftToMigrate | packages/snjs/lib/Migrations/Applicators/TagsToFolders.ts:18-49 | no migratable tag remains |
| TagsToFolders.SecondRunChangesNothing | packages/snjs/lib/Migrations/Applicators/TagsToFolders.ts:18-49 | a second run, in any order, changes nothing |
| TagsToFolders.ApplicableAfterRunIff | packages/snjs/lib/Migrations/Applicators/TagsToFolders.ts:7-16 | after a run the migration still counts as applicable if and only if some top-level title has a dot with an empty part beside it |
| TagsToFolders.DoubleDotStaysApplicable | packages/snjs/lib/Migrations/Applicators/TagsToFolders.ts:7-30 | a top-level tag a..b: the run changes nothing and the migration counts as applicable before and after it |
| TagsToFolders.IsApplicableToCurrentData | packages/snjs/lib/Migrations/Applicators/TagsToFolders.ts:7-16 | true exactly when some top-level title has a dot |
| TagsToFolders.Run | packages/snjs/lib/Migrations/Applicators/TagsToFolders.ts:18-49 | the loop does what the specification says, on the tag manager itself |
| TagsToFolders.MigrateOne | packages/snjs/lib/Migrations/Applicators/TagsToFolders.ts:37-47 | one turn moves one tag, leaves the others alone and keeps the forest acyclic without an ancestor check |
| KeyRecoveryModel.ReplacesIff | packages/snjs/lib/Services/KeyRecovery/KeyRecoveryOperation.ts:20-42 | the local root key is replaced if and only if it differs from the server parameters, the entry matches them, their version is not older and the entry is newer than every decrypted items key |
| KeyRecoveryModel.NewerThanAllIff | packages/snjs/lib/Services/KeyRecovery/KeyRecoveryOperation.ts:31-41 | comparing with the newest key compares with all of them |
| KeyRecoveryTheorems.SuccessTakesMatching | packages/snjs/lib/Services/KeyRecovery/KeyRecoveryService.ts:459-525 | a correct password takes every matching entry, its own among them, also those that arrived meanwhile |
| KeyRecoveryTheorems.SelectKeepsOrder | packages/snjs/lib/Services/KeyRecovery/KeyRecoveryService.ts:510-525 | the entries that stay, and those that are taken, keep their order |
| KeyRecoveryTheorems.FailureKeepsQueue | packages/snjs/lib/Services/KeyRecovery/KeyRecoveryService.ts:441-448 | a wrong password leaves the queue unchanged but for arrivals at its end |
| KeyRecoveryTheorems.AbortDropsHead | packages/snjs/lib/Services/KeyRecovery/KeyRecoveryService.ts:404-417 | closing a prompt gives up its entry only and ends the run |
| KeyRecoveryTheorems.TurnShortens | packages/snjs/lib/Services/KeyRecovery/KeyRecoveryService.ts:404-422 | every turn but a wrong password makes the queue strictly shorter |
| KeyRecoveryTheorems.EntriesAreConserved | packages/snjs/lib/Services/KeyRecovery/KeyRecoveryService.ts:404-525 | over a run every entry is still queued, was taken by a correct password, or was given up with its prompt |
| KeyRecoveryTheorems.RunEnds | packages/snjs/lib/Services/KeyRecovery/KeyRecoveryService.ts:404-422 | more prompts that do not end in a wrong password than entries ever queued: the run is over |
| KeyRecoveryTheorems.TurnAndRootKey | packages/snjs/lib/Services/KeyRecovery/KeyRecoveryService.ts:459-468 | a turn that sets the root key makes it agree with the server, and its version does not drop |
| KeyRecoveryTheorems.RootKeyReplacedAtMostOnce | packages/snjs/lib/Services/KeyRecovery/KeyRecoveryService.ts:404-468 | with fixed server parameters a run sets the root key at most once, and never if it agrees already |
| KeyRecoveryTheorems.RootKeyVersionNeverDrops | packages/snjs/lib/Services/KeyRecovery/Utils.ts:4-6 | over a run the version of the local root key never drops |
| KeyRecoveryTheorems.DirtyIff | packages/snjs/lib/Services/KeyRecovery/KeyRecoveryService.ts:470-480 | recovered keys are uploaded again if and only if the local root key agreed with the server and the password was for other parameters |
| KeyRecoveryTheorems.TakenAreRecovered | packages/snjs/lib/Services/KeyRecovery/KeyRecoveryService.ts:474-493 | of the entries that a turn takes off the queue exactly those that decrypt are emitted, each once and in the order of the queue |
| KeyRecoveryTheorems.EntriesAreRecovered | packages/snjs/lib/Services/KeyRecovery/KeyRecoveryService.ts:404-493 | over a run an entry that decrypts is emitted as often as it is taken, and one that does not is never emitted |
| KeyRecoveryTheorems.TurnLearnsDates | packages/snjs/lib/Services/KeyRecovery/KeyRecoveryOperation.ts:31-41 | the dates that a later replacement must exceed are those known before and those of the keys just emitted |
| KeyRecoveryTheorems.ReplacedByTheNewest | packages/snjs/lib/Services/KeyRecovery/KeyRecoveryOperation.ts:31-41 | after any run, an entry that replaces the root key is newer than every items key emitted so far |
| KeyRecoveryTheorems.SelectIff | packages/snjs/lib/Services/KeyRecovery/KeyRecoveryService.ts:510-525 | the matching entries are exactly those that agree in version and derivation |
| KeyRecoveryService.QueuedAre | packages/snjs/lib/Services/KeyRecovery/KeyRecoveryService.ts:317-331 | an entry is queued exactly for a key with embedded parameters, with its id and date |
| KeyRecoveryService.QueuedInOrder | packages/snjs/lib/Services/KeyRecovery/KeyRecoveryService.ts:317-331 | entries stand in the order of their keys |
| KeyRecoveryService.KeyRecoveryService.AddKeysToQueue | packages/snjs/lib/Services/KeyRecovery/KeyRecoveryService.ts:317-331 | keys with embedded parameters join the end in order, others are left out |
| KeyRecoveryService.KeyRecoveryService.RemoveElementsFromQueueForMatchingKeyParams | packages/snjs/lib/Services/KeyRecovery/KeyRecoveryService.ts:510-525 | the loop splits the queue into matching and others, both in order |
| KeyRecoveryService.KeyRecoveryService.ProcessQueueItem | packages/snjs/lib/Services/KeyRecovery/KeyRecoveryService.ts:424-457 | the three endings of a prompt, on the queue; what a correct password emits is stated by TakenAreRecovered |
| KeyRecoveryService.KeyRecoveryService.ProcessQueue | packages/snjs/lib/Services/KeyRecovery/KeyRecoveryService.ts:404-422 | the loop is the run that the theorems are about |
| History.OptimizedKeepsExactly | packages/snjs/lib/Services/History/HistoryManager.ts:210-248 | up to 20 entries all stay; of more, one stays if and only if it is the newest, the oldest, brings a difference of more than 25, or is just older than one that takes more than 25 away |
| History.OptimizedKeepsOrder | packages/snjs/lib/Services/History/HistoryManager.ts:210-248 | what stays keeps its order |
| History.OptimizedTwice | packages/snjs/lib/Services/History/HistoryManager.ts:210-248 | optimizing again changes nothing |
| History.HistoryIsCompleted | packages/snjs/lib/Services/History/HistoryManager.ts:72-110 | up to the threshold the history is exactly the list of values that have since been replaced, newest first |
| History.HistoryIsFaithful | packages/snjs/lib/Services/History/HistoryManager.ts:72-110 | with any optimizations in between, history holds only observed values that are not blank, each once, newest first, all older than the staged one |
| History.LatestIsStaged | packages/snjs/lib/Services/History/HistoryManager.ts:83-93 | the staged entry is the latest value and differs from the newest revision |
| History.StagedIsNoRevision | packages/snjs/lib/Services/History/HistoryManager.ts:96-103 | after any changes, optimized or not, the staged entry differs from the newest revision |
| History.HistoryIsOptimized | packages/snjs/lib/Services/History/HistoryManager.ts:105-110 | after any changes there is nothing left to optimize |
| HistoryManager.HistoryManager.OptimizeHistoryForItem | packages/snjs/lib/Services/History/HistoryManager.ts:210-248 | the backward walk with its list edited in place keeps what the rules keep |
| HistoryManager.HistoryManager.EntriesToKeep | packages/snjs/lib/Services/History/HistoryManager.ts:219-243 | the list edited in place holds exactly the entries the rules keep |
| HistoryManager.HistoryManager.RecordNewHistoryForItems | packages/snjs/lib/Services/History/HistoryManager.ts:72-110 | every value is observed once for its note, measured against the newest revision that recording the earlier ones has given, and the maps hold what recording all observed values gives |
| ChallengeOperations.FinishedIff | packages/snjs/lib/Services/Challenge/ChallengeOperation.ts:64-66 | for any submissions to the prompts of a challenge: finished if and only if the prompts are of distinct kinds and each has had a valid value |
| ChallengeOperations.CheckTells | packages/snjs/lib/Services/Challenge/ChallengeOperation.ts:89-107 | for any submissions: one more checked value tells the observer exactly one thing: that the challenge is complete, with the latest valid value of each kind and all artifacts, if by then the kinds are distinct and all prompts have had valid values; otherwise that the value is valid, or invalid, as it was found |
| ChallengeOperations.MergedAt | packages/snjs/lib/Services/Challenge/ChallengeOperation.ts:96-96 | the artifacts are those of all checks, and the last check that produced one for a key counts |
| ChallengeOperations.TwoPasscodesNeverFinish | packages/snjs/lib/Services/Challenge/ChallengeOperation.ts:64-66 | two prompts for the passcode, both answered with a valid value, leave the challenge unfinished |
| ChallengeOperations.SubmitsIff | packages/snjs/lib/Services/Challenge/ChallengeOperation.ts:72-82 | a response without validation is sent if and only if every such prompt has a value since the last one |
| ChallengeOperations.ResponseHasLatestValues | packages/snjs/lib/Services/Challenge/ChallengeOperation.ts:50-55 | that response holds exactly one value for each such prompt, the latest |
| ChallengeOperations.RunKeepsLatest | packages/snjs/lib/Services/Challenge/ChallengeOperation.ts:72-107 | the valid and the invalid values are the latest for each kind, the others the latest for each prompt, and the artifacts are those of all checks |
| ChallengeModel.LatestIsLatest | packages/snjs/lib/Services/Challenge/ChallengeOperation.ts:72-96 | a value is in the list if and only if it is the last one submitted for its key |
| ChallengeModel.FindAndPush | packages/snjs/lib/Services/Challenge/ChallengeOperation.ts:72-78 | removing the match found and pushing the new value is replacing it |
| ChallengeModel.Pigeonhole | packages/snjs/lib/Services/Challenge/ChallengeOperation.ts:64-66 | a list without duplicates drawn from another is as long exactly when the other has none either and is used up |
| ChallengeOperations.ChallengeOperation.SetValueStatus | packages/snjs/lib/Services/Challenge/ChallengeOperation.ts:89-107 | the operation moves on as specified; what the observer is told is stated by CheckTells |
| ChallengeOperations.ChallengeOperation.AddNonvalidatedValue | packages/snjs/lib/Services/Challenge/ChallengeOperation.ts:72-82 | replaces the value of the prompt and submits when all are there |
| ChallengeService.DeletedIffAllValid | packages/snjs/lib/Services/Challenge/ChallengeService.ts:265-299 | a challenge is let go if and only if its prompts are of distinct kinds and all have had a valid value |
| ChallengeService.RunsOn | packages/snjs/lib/Services/Challenge/ChallengeService.ts:265-285 | until then every submission reaches the registered operation |
| ChallengeService.EndsWhenFinished | packages/snjs/lib/Services/Challenge/ChallengeService.ts:287-298 | the submission that finishes an operation deletes it and its observers; with no observers registered this is an error |
| ChallengeService.NothingAfterTheEnd | packages/snjs/lib/Services/Challenge/ChallengeService.ts:265-299 | values that come after it fail |
| ChallengeService.SubmissionsAddUp | packages/snjs/lib/Services/Challenge/ChallengeService.ts:265-279 | two calls leave the state that one call with all their values leaves, also when the first ends in an error, and report the same error unless the first has failed |
| ChallengeService.UncheckedEndsNothing | packages/snjs/lib/Services/Challenge/ChallengeService.ts:265-279 | a value that is not validated ends no operation and changes no valid value |
| ChallengeService.ChallengeService.SubmitValuesForChallenge | packages/snjs/lib/Services/Challenge/ChallengeService.ts:265-279 | no values is an error; otherwise one value after the other until the first error |
| ChallengeService.ChallengeService.SetValidationStatusForChallenge | packages/snjs/lib/Services/Challenge/ChallengeService.ts:281-299 | keeps every registered operation unfinished |
| ChallengeService.ChallengeService.CreateOrGetChallengeOperation | packages/snjs/lib/Services/Challenge/ChallengeService.ts:168-200 | one operation per challenge id |
| DatabaseLoad.EachIsEmittedOnce | packages/snjs/lib/Services/Sync/SyncService.ts:248-323 | every payload that can be made, except deleted items keys, is emitted exactly once, decrypted if it was encrypted |
| DatabaseLoad.KeysComeFirst | packages/snjs/lib/Services/Sync/SyncService.ts:220-241 | items keys are in the first emission and nowhere else |
| DatabaseLoad.EmissionsInOrder | packages/snjs/lib/Services/Sync/SyncService.ts:285-318 | after the items keys, every payload of an earlier emission loads before every payload of a later one: by place in the priority list, then newest first |
| DatabaseLoad.BatchesHold | packages/snjs/lib/Services/Sync/SyncService.ts:285-292 | no batch is empty or larger than the batch size |
| DatabaseLoad.BatchesCover | packages/snjs/lib/Services/Sync/SyncService.ts:285-292 | the batches are the sorted payloads cut into pieces |
| DatabaseLoad.LoadEmissions | packages/snjs/lib/Services/Sync/SyncService.ts:248-323 | a load of any records makes one emission for the items keys, those not encrypted first, and one for each batch of the others; no records make none |
| DatabaseLoad.EmitAllAt | packages/snjs/lib/Services/Sync/SyncService.ts:294-312 | each batch is one emission, those not encrypted first |
| DatabaseLoad.NumBatchesIff | packages/snjs/lib/Services/Sync/SyncService.ts:285-291 | the rounded-up quotient counts exactly the starting positions inside the list |
| DatabaseLoad.LoadsBeforeIff | packages/snjs/lib/Services/Sync/Utils.ts:9-43 | for any list: types in the order in which they first stand in it, those that are missing last and all together; then newest first |
| DatabaseLoad.LocalOrder | packages/snjs/lib/Services/Sync/SyncService.ts:124-129 | the list of the service: items keys, preferences, components, themes, then all the rest; then newest first |
| DatabaseLoad.LoadsBeforeOrders | packages/snjs/lib/Services/Sync/Utils.ts:9-43 | the comparator is a total preorder for any list |
| DatabaseLoad.SubtractKeys | packages/snjs/lib/Services/Sync/SyncService.ts:272-276 | subtracting the items keys leaves the others in order |
| DatabaseLoad.DatabaseLoader.LoadDatabasePayloads | packages/snjs/lib/Services/Sync/SyncService.ts:248-323 | a second load is an error; otherwise the loop emits what the specification says and the database counts as loaded |

## Left out

- Atomic responses: `handleSuccessServerResponse` reads its snapshot before it awaits; edits inside that window are excluded, the step is atomic.
- Resolvers: the delta resolvers of the models package are not part of this model; a saved item stays dirty exactly when its dirty index exceeds the stamped one, and a retrieved item replaces the local copy only when that is clean. Conflict duplicates and rejected payloads are not modelled.
- When an item counts as never synced is decided outside the service; that an offline save ends it is left open, item by item.
- Sync events, integrity checks, presync persistence, `awaitAll` and statistics: they decide when a continuation runs, and the model lets every continuation run at any time.
- Exceptions between taking and releasing the lock, `deinit`, simulated latency and the retry loop of `downloadFirstSync`.
- A promise that every deferred request is eventually resolved: an error drops them, a late deferral waits for the next sync, and nothing forces a call to take its next step.
- SyncService.SyncService.Perform: uuids of created items are fresh, and items that were created and deleted unsynced are removed in one step, because storage is not modelled.
- SyncSpawns.SpawnIsServedIff: a call that throws rejects the promise of its request; exceptions are not modelled. A call also waits for its follow-ups before it ends: for the sync after a download-first one and for the one that handles new dirty items in any case, for the one that serves the resolve queue only with `awaitAll`. The model lets a call that has done its own work end at any time.
- AccountSyncOperation.AccountSyncOperation.SavedOrSavingIsWhatWasSent: payloads are compared by value where the code compares identity, so they must be distinct.
- PayloadManager.PayloadManager.PopQueue: the set of observers does not change during a drain; `resetState` and `removeItemLocally` are not modelled.
- ItemStream.StreamAlwaysShowsItsItems: ignored and unerrored items, display controllers and the tag-note index are not part of what a consumer sees.
- ItemDeletion.ItemManager.SetItemsToBeDeleted: the items that reference a deleted one are listed exactly; the reference map of the collection may list more, and visiting those changes no reference. There are no other edits meanwhile.
- TagManagement.TagManager.SetTagParent: incoming data is assumed acyclic; remote edits that bring in a cycle are not prevented by local checks. Every tag is displayable, and references other than to the parent are not modelled.
- TagPaths.ChainFindsAgain: which of several matching tags is found depends only on the matching tags.
- TagsToFolders.Run: the sorted list of tags is a parameter, because the result does not depend on its order; `changeItem` also emits and stamps, which is not modelled.
- KeyRecoveryService.KeyRecoveryService.ProcessQueue: the server parameters are fixed during a run, nobody else changes the root key or the decrypted items keys, and the root key of a correct password has the parameters of the entry. Fetching the parameters, sign-in without an account, the fallback sign-in and the isolated storage of undecryptable keys are left out.
- HistoryManager.HistoryManager.RecordNewHistoryForItems: an entry's content stands for title and text together, and the comparison with the previous revision is a parameter. Remote revisions are left out.
- ChallengeOperations.FinishedIff: values belong to prompts of the challenge; the code does not check that they do.
- ChallengeService.ChallengeService.SubmitValuesForChallenge: what validation finds comes with the values. `cancelChallenge`, `completeChallenge` and the removal of observers are left out because they would only add easy members.
- DatabaseLoad.DatabaseLoader.LoadDatabasePayloads: decryption is a function that keeps uuid, content type and date, dates are numbers, and the load status is left out. The batch size is positive. The method is atomic, where the code sets `databaseLoaded` only after its last await: the code does not refuse a second load that is started while the first one runs, and the model has no such load.
- Cryptography, HTTP and websocket services, components, view controllers and storage migrations.
