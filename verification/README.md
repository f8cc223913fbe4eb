# summeRain: a verified model of the image host's durable core

summeRain accepts an image as four browser-rendered WebP parts, promotes them to
content-addressed storage, lets a leased worker publish a final rendering, and keeps MySQL rows,
the filesystem, an outbox and optional R2 objects in step while requests, workers, cleanups and
crashes interleave. This project models that core in Dafny and proves what it promises.

## How the model is organised

**The upload pipeline.** `Rows` declares the rows, the paths and the disk; content addressing
identifies a hash with its content. `Upload`, `Publish`, `Deletion` and `Sweeping` give every
transaction and every filesystem action as a function on the whole state, and beside it the
imperative method on the `Database` object that is proved to perform it. `Pipeline` makes each of
them a step. A run is any sequence of steps, so it covers every interleaving; a crash is the absence
of the steps that would have followed; rollback, lease expiry and the passing of time are steps of
their own. `Links`, `Fencing`, `Accounting`, `Ledger`, `Storage`, `Retention`, `Files`, `Sources`,
`Leaks`, `Removal`, `Lifecycle` and `Exclusion` each prove that every step keeps one family of
facts, and `Theorems` states the results for all runs from accounts with fixed quotas. `Executions`
says what one worker achieves: that it publishes when nothing disturbs it, and which temporary files it
leaves when something does. `Witnesses` shows that the exceptions the theorems name do occur: from every
state with the stated condition, and in a concrete run from an empty database.

**What each step does** is said a second time, on the rows and files before and after it, its replies
included, independently of the functions that define the steps: `Requests` (Init, PutPart, Complete, Cancel,
deletion), `Jobs` (claims, leases, failures and publishes), `Cleanups` (the transactions of a cleanup, and
what can stop a running session), `FileLaws` (promotion, compensation, execution and removal of files).
`Provenance` follows the watermark from the request to the published content, and `Staging` shows that
staging directories are not left behind.

**The other components** stand alone:

| module | component |
|---|---|
| `WebP` | the streaming container validator and the prefix parser (RFC 9649, sections 2.3 to 2.7) |
| `WebPFiles` | files written out byte by byte by arithmetic, and what the two parsers say of them |
| `Watermark` | the journal around the temporary swap of the shared watermark file |
| `Text`, `R2`, `R2Protocol` | endpoint normalisation, the R2 upload intents and the target guard |
| `RemoteLaws` | what each step of the remote store does to its rows, and what undisturbed uploads and deletions achieve |
| `Outbox` | claiming, settling and releasing batches of events |
| `StorageGc` | the batching of deletion events and the validation of the worker that receives them |
| `SingleFlight` | the reference-counted group of image renderings |
| `Scanner` | the resumable scan for unreferenced files |
| `UserDeletion` | the phased removal of an account |
| `Bisection` | the client's bisection of an all-or-nothing status query |
| `Collections` | sequences and maps |

## Where the code does less than its purpose asks

Each of these is proved with the exact condition under which it happens.

- **Cancel can strand a session.** When removing the staging fails, Cancel sets `cleanup_pending`
  without looking at the row (`v2_upload_service.go:1035-1037`). If a cleanup finished the session in
  the meantime, its staging path is already empty, no later cleanup selects it, and it keeps that
  status through every further run: `Exclusion.LateCancelClaimable` (if and only if),
  `Exclusion.LateCancelStrands`, `Exclusion.StrandedForever`.
- **A publish removes its source while the row still names it.** The rename precedes the commit that
  replaces the row. It is the only file a row can lose: `Removal.NamedFileRemoved` (if and only if);
  a run in which it happens is `Witnesses.TakingOccurs`.
- **A published session can end cancelled.** A publish that leaves staging over keeps `completed_at`
  empty, and the cleanup then looks at the image row; it decides another status than the session had
  if and only if that image is not completed any more (`Theorems.CleanupDecides`). Wherever a publish
  leaves staging over, deleting the image leads there: `Witnesses.PublishedEndsCancelled`,
  `Witnesses.LostEndingOccurs`.
- **A failed Complete can refill the staging of a session that has been stopped.** Its compensation
  does not look at the session again: `Exclusion.OnlyRestoreRefills` (if and only if),
  `Theorems.StagingIsSafe`. Wherever a Complete can promote its first part, a transaction of it
  that fails or is lost, a cancel and the late compensation lead there: `Witnesses.CancelledRefills`,
  `Witnesses.RefillOccurs`. Nothing else leaves a file behind in the staging of a session that gave up its
  staging path: `Staging.EmptyWhenGivenUp`.
- **Normalising an endpoint is not idempotent.** White space is trimmed before trailing slashes, so
  `"https://h/ /"`, which the configuration accepts, becomes `"https://h/ "` and then `"https://h"`
  (`Text.SettledExactly`, if and only if; `Text.Unsettled`). On such an endpoint the deletion event of a
  dropped row names another target, so its objects belong to nobody
  (`R2Protocol.DropLosesExactly`, if and only if; `R2Protocol.ObjectLost`), and the guard of the target
  lets the target of existing rows move (`R2Protocol.GuardNeedsSettled`, if and only if). The batching
  function of the deletion events would also build a payload that the worker rejects, from an endpoint
  that the second normalisation empties (`StorageGc.ProducerMeetsConsumer`, if and only if); that is so
  of the function only, because no stored endpoint is emptied.
- **Outbox events can stay publishing until their lease expires.** That is so of an event if and only if
  the delivery loop was left at it or before it and the release that should follow did not happen: the
  store failed to record a delivery while the context lives, or the release itself failed
  (`Outbox.LeftPublishing`). With a store that works it never happens (`Outbox.WorkingStoreLeavesNone`).
- **A worker that stops leaves its rendering.** The watermarked rendering is written beside the publish
  target under a name that no row, job or event holds, and only the worker itself moves or removes it:
  `Executions.RenderingLeft` (if and only if), `Executions.AbandonedStays`. The scan for unreferenced
  files, which is a module of its own here, is what finds it later.
- **A deletion request can leave the sessions.** It ends them by a statement of its own whose error it
  ignores; what the account loses before the deletion starts is exactly what that statement removes, the
  login and identity sessions and with them the CSRF tokens: `UserDeletion.LostExactly` (if and only if).
- **A scan can end without being reported**, if and only if the time of a page runs out with the
  very iteration that closes the root and everything found was queued; the next call starts again
  (`Scanner.UnreportedEnd`). The limit on entries is never the cause (`Scanner.ScanEndsUnseen`).

## Model

Paths under `backend/internal/` and `frontend/src/` are those of the repository.

| member | source | states |
|---|---|---|
| `Theorems.QuotaAndLedger` | `backend/internal/service/v2_upload_service.go:236-287` | In every reachable state the used bytes plus the reservations of live sessions are within the quota, used bytes and image count are exactly the active variant bytes and the number of the completed images, and no user has more live sessions than allowed |
| `Theorems.PublishIsCovered` | `backend/internal/service/v2_publish_worker.go:458-504` | A publish bills at most what its session reserved and always finds its user and image; its quota check refuses if and only if the other sessions of the owner that expired since the transaction read its clock held more than the quota has room for |
| `Theorems.RowsHaveFiles` | `backend/internal/service/v2_upload_service.go:603-860` | Every master, gallery, admin and publish row names a file of the recorded size, both paths of every file row exist with the right content, and its reference count is exactly the number of its images and positive |
| `Theorems.NamedFilesStay` | `backend/internal/service/image_service.go:1045-1090` | For every run, step and path: the step removes a file that a committed row names if and only if it is a publish taking its own staged source |
| `Theorems.DroppedPathsAreQueued` | `backend/internal/service/image_service.go:892-1019` | A step that drops the last row naming a path leaves an unpublished deletion event naming it, except the publish that replaces its staged source |
| `Theorems.NothingLeaks` | `backend/internal/service/v2_upload_service.go:848-860` | Outside staging every stored file and publish target on disk is named by a row, wanted by a live job, queued for deletion, or among the parts that a Complete of its session listed for compensation after it passed its checks and before it failed; temporary renderings are the subject of Executions.RenderingLeft |
| `Theorems.OnlyFailuresOrphan` | `backend/internal/service/v2_upload_service.go:848-860` | In runs in which no Complete that passed its checks fails, every stored file and publish target is named, wanted or queued |
| `Theorems.StaleWorkersAreFenced` | `backend/internal/service/v2_publish_worker.go:122-159` | A worker that lost its lease at any moment never again changes a job, image, session, user or publish target |
| `Theorems.DeadTargetsStayGone` | `backend/internal/service/v2_publish_worker.go:561-670` | A dead job stays dead, and its publish target, once gone, is never created again |
| `Theorems.PublishedOnce` | `backend/internal/service/v2_publish_worker.go:411-526` | The publish transactions of a run that commit a given image number one if its job completed and none otherwise |
| `Theorems.AttemptsAndSources` | `backend/internal/service/v2_publish_worker.go:122-257` | Attempts never exceed their maximum, a refund takes back a counted attempt, and the holder of a live lease, and nobody else, succeeds in promoting its target, with a watermark once it has its rendering |
| `Theorems.SessionsMoveForward` | `backend/internal/service/v2_upload_service.go:591-877` | Through any run a session keeps its manifest and never moves back from stopped to running or from processing to uploading |
| `Theorems.ClaimExcludesProcessing` | `backend/internal/worker/v2_cleanup.go:440-457` | A session that a cleanup has claimed is stopped at every later moment, so it is never processed |
| `Theorems.StagingIsSafe` | `backend/internal/worker/v2_cleanup.go:192-222` | No cleanup removes a staged file of a running session; once a session takes no more parts, a staged file comes back if and only if the compensation of a Complete of that session that failed earlier in the run finds its promoted file |
| `Theorems.OwedByFailure` | `backend/internal/service/v2_upload_service.go:848-860` | Every compensation that a run can take is owed by a Complete of that session that passed its checks, failed earlier in the run and listed exactly as many parts |
| `Theorems.SessionsEndAsTheyStopped` | `backend/internal/worker/v2_cleanup.go:224-255` | However often cleanups are interrupted, a stopped session has the status it first reached or awaits cleanup; the one exception is a published session that ended cancelled, with its staging and its image gone |
| `Theorems.CleanupDecides` | `backend/internal/worker/v2_cleanup.go:224-255` | In every run a claimed cleanup decides another status than the session first reached if and only if the session was published with staging left over and its image is not completed any more |
| `Theorems.InitIsIdempotent` | `backend/internal/service/v2_upload_service.go:145-154` | An Init repeated under its key at any later moment changes nothing and returns the same session for the same manifest and a conflict for another |
| `Theorems.StepKeepsInv` | `backend/internal/service/v2_upload_service.go:978-982` | Every step, taken as one transaction under the storage lock, keeps the invariant of the whole pipeline |
| `Theorems.Reachable` | `backend/internal/service/v2_upload_service.go:978-982` | Every state reachable from accounts with quotas satisfies that invariant |
| `Executions.UndisturbedPublishes` | `backend/internal/service/v2_publish_worker.go:332-526` | From every reachable state, a worker that holds the lease of a job and executes it undisturbed publishes the image: no check, quota or missing file can stop it, and it leaves no rendering that it made |
| `Executions.RenderingLeft` | `backend/internal/service/v2_publish_worker.go:366-387` | In every run the temporary rendering of a token is on disk if and only if its worker wrote it and neither moved nor removed it since |
| `Executions.RenderingChanges` | `backend/internal/service/v2_publish_worker.go:366-387` | No step but the rendering, the promotion and the removal by the worker of that token makes, changes or removes its rendering |
| `Executions.AbandonedStays` | `backend/internal/service/v2_publish_worker.go:371-372` | A rendering whose worker takes no further step stays through every further run |
| `Witnesses.PublishedEndsCancelled` | `backend/internal/service/v2_publish_worker.go:481-492` | From every reachable state in which a publish commits with staging left over, a run leads to a published session that ended cancelled |
| `Witnesses.LostEndingOccurs` | `backend/internal/service/v2_publish_worker.go:481-492` | A concrete run from an empty database ends so |
| `Witnesses.CancelledRefills` | `backend/internal/service/v2_upload_service.go:883-934` | From every reachable state in which a Complete can promote its first part, a failed or lost transaction of it, a cancel and the late compensation leave a staged file of a cancelled session |
| `Witnesses.RefillOccurs` | `backend/internal/service/v2_upload_service.go:883-934` | A concrete run from an empty database does so |
| `Witnesses.TakingOccurs` | `backend/internal/service/v2_publish_worker.go:531-559` | A concrete run from an empty database reaches a publish that removes its source while the row still names it |
| `Witnesses.SweepEnds` | `backend/internal/worker/v2_cleanup.go:192-222` | An uninterrupted cleanup of a session that is due ends it in the status decided for its row |
| `Upload.ManifestCharacterised` | `backend/internal/service/v2_upload_types.go:133-192` | A manifest is accepted exactly when it names the four kinds once each with sizes in range; the parts built from it are then pending and their bytes are what Init reserves besides the publish output |
| `Upload.UploadService.CheckManifest` | `backend/internal/service/v2_upload_types.go:133-192` | The loop returns the first error in the order of the checks |
| `Upload.UploadService.BuildParts` | `backend/internal/service/v2_upload_service.go:160-234` | The loop reserves the publish output plus all part sizes and builds one pending part per entry |
| `Upload.UploadService.InitUpload` | `backend/internal/service/v2_upload_service.go:130-313` | Init is its transaction on the whole state: replay by key, session limit, quota with reservations, new session |
| `Upload.UploadService.Put` | `backend/internal/service/v2_upload_service.go:344-526` | PutPart is its transaction: ownership, expiry, status, unknown part, repeated part, content mismatch, rename into staging |
| `Upload.UploadService.Promote` | `backend/internal/service/v2_upload_service.go:1225-1269` | An identical target absorbs the source, a different one is an error, an absent one receives the source |
| `Upload.UploadService.PromoteParts` | `backend/internal/service/v2_upload_service.go:653-675` | The loop promotes the parts in order and stops at the first failure with what was promoted so far |
| `Upload.UploadService.CreateRows` | `backend/internal/service/v2_upload_service.go:677-847` | The file reference, image, variant, job and session rows that Complete commits, and nothing else |
| `Upload.UploadService.CompleteUpload` | `backend/internal/service/v2_upload_service.go:591-877` | Complete is its transaction, with the replies for finished, expired, conflicting and incomplete sessions |
| `Upload.UploadService.RestorePromoted` | `backend/internal/service/v2_upload_service.go:883-934` | The compensation loop copies promoted content back only where staging lacks it and lists only targets whose copy is in place |
| `Upload.UploadService.CancelUpload` | `backend/internal/service/v2_upload_service.go:1010-1044` | The cancel transaction accepts only initiated and uploading sessions |
| `Upload.UploadService.FinishCancel` | `backend/internal/service/v2_upload_service.go:1035-1042` | After the removal of the staging: the files are gone, or the session is set to cleanup_pending whatever its row says by then |
| `Publish.PublishWorker.ClaimNext` | `backend/internal/service/v2_publish_worker.go:205-257` | Claiming counts an attempt, issues a fresh token and takes over expired leases |
| `Publish.PublishWorker.ClaimSpent` | `backend/internal/service/v2_publish_worker.go:164-203` | A job whose attempts are used up is claimed once more without counting, only to be failed |
| `Publish.PublishWorker.ReleaseLease` | `backend/internal/service/v2_publish_worker.go:122-159` | A release needs the current token and refunds an attempt unless the worker panicked or the claim counted none |
| `Publish.PublishWorker.Promote` | `backend/internal/service/v2_publish_worker.go:531-559` | The target is created only under the current token, from the staged source or from the rendering of that token, and an existing one is kept |
| `Publish.PublishWorker.ExecuteJob` | `backend/internal/service/v2_publish_worker.go:332-526` | The whole execution: a missing target is rendered and promoted, the target read, the source and an empty staging directory removed, the publish committed, and a rendering that was made discarded on every way out |
| `Publish.PublishWorker.ExtendLease` | `backend/internal/service/v2_publish_worker.go:308-330` | The heartbeat renews the lease exactly under the current token, reports a job that is completed as done and any other as lost, and changes nothing then |
| `Publish.PublishWorker.CommitPublish` | `backend/internal/service/v2_publish_worker.go:411-526` | The publish transaction: fence, replaced variant, quota re-check against other reservations, billing, session and job |
| `Publish.PublishWorker.FailJob` | `backend/internal/service/v2_publish_worker.go:561-670` | A failure requeues while attempts are left and otherwise, or on an exceeded quota, buries the job |
| `Publish.PublishWorker.BuryJob` | `backend/internal/service/v2_publish_worker.go:594-658` | Burying removes the image, its variants and its file reference and queues every path and the target for deletion |
| `Deletion.ImageService.Delete` | `backend/internal/service/image_service.go:883-1043` | Deletion checks owner and status, removes the rows, returns the billed bytes and queues the paths |
| `Deletion.ImageService.RemovePaths` | `backend/internal/service/image_service.go:1045-1090` | The cleanup loop removes each listed file that no row names |
| `Deletion.Survivors` | `backend/internal/service/image_service.go:1045-1090` | Of the files on disk exactly those remain, unchanged, that were not listed or that some row names |
| `Deletion.ImageService.DeliverDeletion` | `backend/internal/worker/outbox.go:332-377` | A delivery re-checks every path against the rows and publishes its event only when acknowledged after all of them |
| `Sweeping.Sweeper.ClaimCleanup` | `backend/internal/worker/v2_cleanup.go:440-457` | The claim compares the row with the listed snapshot and takes only sessions that are due |
| `Sweeping.Sweeper.CleanClaimed` | `backend/internal/worker/v2_cleanup.go:192-222` | An uninterrupted cleanup decides the final status, removes the directory and writes the status only over a claimed row |
| `Sweeping.Sweeper.CleanSession` | `backend/internal/worker/v2_cleanup.go:192-222` | One session of a pass: what was listed is claimed, and only then decided, removed and finished |
| `Sweeping.Sweeper.CleanOrphans` | `backend/internal/worker/v2_cleanup.go:263-322` | The loop removes exactly the directories of candidates without a session row and leaves every other file |
| `Requests.InitLaw` | `backend/internal/service/v2_upload_service.go:130-313` | In every reachable state Init creates a session if and only if the manifest is good, the key is new, the user exists, its live sessions are fewer than the limit and used, reserved and new bytes fit the quota; the new row is spelled out and nothing else changes |
| `Requests.InitReplies` | `backend/internal/service/v2_upload_service.go:145-287` | Each other input gets its reply: bad or too large manifest, the session of the key or a conflict, no user, session limit, quota |
| `Requests.LiveCounts` | `backend/internal/service/v2_upload_service.go:236-287` | The counting queries give the number of live sessions of the user and the sum of their reservations |
| `Requests.PutLaw` | `backend/internal/service/v2_upload_service.go:344-526` | A part is received if and only if the session is the owner's, open and awaits exactly this content; a lost transaction leaves the file alone |
| `Requests.PutReplies` | `backend/internal/service/v2_upload_service.go:344-526` | Each other input gets its reply; a part that has arrived is accepted again |
| `Requests.CompleteLaw` | `backend/internal/service/v2_upload_service.go:591-877` | Complete enters an image if and only if the session is the owner's and open, all parts have arrived and each can be moved; image, job with the watermark asked for, file reference, session and disk are spelled out, and so is what a Complete leaves that cannot move a part |
| `Requests.CompleteReplies` | `backend/internal/service/v2_upload_service.go:603-651` | Each other input gets its reply, in the order of the checks |
| `Requests.CancelLaw` | `backend/internal/service/v2_upload_service.go:1010-1034` | Exactly the owner's sessions that still accept parts are cancelled, expired ones included |
| `Requests.StrangersChangeNothing` | `backend/internal/service/v2_upload_service.go:344-1044` | No request on a session of somebody else changes anything |
| `Requests.ImageGoesOnlyBy` | `backend/internal/service/image_service.go:883-1043` | In every run a step removes an image if and only if its owner or an administrator deletes it once it is completed, or the holder of its job fails for good |
| `Requests.DeleteLaw` | `backend/internal/service/image_service.go:883-1043` | In every reachable state a deletion by the owner or an administrator of a completed image drops the image, its file row with the last image of that content, the links of its job and session, and the bytes of its four variants and one image from the account, and queues every path left without a row; any other changes nothing |
| `Requests.DeleteReplies` | `backend/internal/service/image_service.go:892-908` | Each other input gets its refusal: not found, forbidden to strangers, still processing |
| `Jobs.ClaimLaw` | `backend/internal/service/v2_publish_worker.go:205-257` | A job is claimed if and only if it is idle with attempts left, counting one under an unused token; other jobs whose lease is over are put back |
| `Jobs.SpentLaw` | `backend/internal/service/v2_publish_worker.go:164-203` | A job without attempts left is claimed, uncounted, if and only if it is idle |
| `Jobs.LeaseLaw` | `backend/internal/service/v2_publish_worker.go:122-159` | The holder alone extends its lease or gives the job back, with its attempt unless the worker panicked or none was counted |
| `Jobs.RetryLaw` | `backend/internal/service/v2_publish_worker.go:561-592` | In every reachable state a failure below the last attempt and within quota puts the job back, due after 1, 2, 4 to 256 seconds by its attempts, and changes nothing else |
| `Jobs.BurialLaw` | `backend/internal/service/v2_publish_worker.go:594-670` | In every reachable state a failure at the last attempt or on an exceeded quota makes job and session fail, drops the image and what nothing names any more, and queues exactly those paths and the target |
| `Jobs.CommitLaw` | `backend/internal/service/v2_publish_worker.go:411-526` | A publish writes image, bill, session and job as spelled out, or nothing: nothing if and only if the token is not current or the quota refuses |
| `Cleanups.SweepClaimLaw` | `backend/internal/worker/v2_cleanup.go:440-457` | A listed session is claimed if and only if its status is the listed one, it has a staging path and is due |
| `Cleanups.DecideLaw` | `backend/internal/worker/v2_cleanup.go:224-255` | The decided status, read off the listed row and the image |
| `Cleanups.FinishLaw` | `backend/internal/worker/v2_cleanup.go:467-499` | The decided status is written if and only if the row still is cleanup_pending |
| `Cleanups.StopsExactly` | `backend/internal/worker/v2_cleanup.go:419-457` | In every run a running session stops if and only if its owner cancels it, a cleanup claims it expired, its image is published, or its job fails for good |
| `FileLaws.PromoteLaw` | `backend/internal/service/v2_publish_worker.go:531-559` | The holder of the job finds its target or creates it, from its rendering if it needs a watermark and from the publish source if not |
| `FileLaws.TidyLaw` | `backend/internal/service/v2_publish_worker.go:391-410` | The worker reads the target as it is, removes the source after that, and finds its staging clean only if it is empty |
| `FileLaws.RestoreLaw` | `backend/internal/service/v2_upload_service.go:883-934` | The compensation puts back exactly the listed parts that staging lacks and storage has, and lists exactly the places whose copy is in staging then |
| `FileLaws.InterruptedLaw` | `backend/internal/service/v2_upload_service.go:653-675` | A Complete that stops early has moved exactly the parts that it came past, and owes the compensation of what it listed |
| `FileLaws.CancelEndLaw` | `backend/internal/service/v2_upload_service.go:1035-1042` | The staging of a cancelled session is emptied, or the session waits for a cleanup |
| `FileLaws.OrphanLaw` | `backend/internal/worker/v2_cleanup.go:263-322` | The directory of a session is emptied by the orphan scan if and only if no row has it |
| `FileLaws.CleanupLaw` | `backend/internal/service/image_service.go:1045-1090` | The immediate cleanup removes exactly the listed files that no variant and no file row has |
| `FileLaws.DeliverLaw` | `backend/internal/worker/outbox.go:332-377` | A delivery removes exactly such files as far as it comes, and publishes its event exactly after all of them |
| `Provenance.JobIsAsAsked` | `backend/internal/service/v2_upload_service.go:777-800` | In every run a job carries the session and the watermark flag of the Complete step that entered its image |
| `Provenance.TargetsComeFrom` | `backend/internal/service/v2_publish_worker.go:356-388` | In every run the content of a publish target is that of a rendering under a token of its job if the job needs a watermark, and the received publish source if not |
| `Provenance.PublishedAsAsked` | `backend/internal/service/v2_publish_worker.go:356-526` | So the published content of a completed image is a rendering if its Complete asked for a watermark and the uploaded publish source otherwise |
| `Staging.EmptyWhenGivenUp` | `backend/internal/service/v2_publish_worker.go:398-410` | In every run a file in the staging of a session that gave up its staging path was put back after a Complete of that session that failed |
| `Links.StepKeepsLinks` | `backend/internal/service/v2_upload_service.go:591-877` | Every step keeps sessions, parts, images, variants, jobs, sweeps and keys consistent with one another |
| `Fencing.StepKeepsLeases` | `backend/internal/service/v2_publish_worker.go:64-257` | Every step keeps tokens unique and unissued ones unused, and attempts within bounds |
| `Fencing.StaleWorkerChangesNothing` | `backend/internal/service/v2_publish_worker.go:308-330` | No step under a token that is not current changes a row or a target; of the files only the staged publish source can go, and no rendering but its own comes or goes |
| `Fencing.LostTokenStaysLost` | `backend/internal/service/v2_publish_worker.go:205-257` | A token that is not current never becomes current again |
| `Fencing.TargetCreator` | `backend/internal/service/v2_publish_worker.go:531-559` | A publish target appears only by the promotion of the current lease holder, and only its own |
| `Fencing.DoneByPublishing` | `backend/internal/service/v2_publish_worker.go:505-526` | A job is completed by a step exactly when it was before or the step is its publish transaction, which finds it incomplete |
| `Fencing.RefundIsReal` | `backend/internal/service/v2_publish_worker.go:122-159` | A refundable lease has an attempt to give back, and a release without panic gives back exactly one |
| `Accounting.StepLasts` | `backend/internal/service/v2_upload_service.go:344-526` | No step changes a manifest, moves a session back or alters the content behind a received part |
| `Accounting.StepKeepsContents` | `backend/internal/service/v2_upload_service.go:1225-1269` | Every stored, staged and inspected file keeps holding what its name or its part promises |
| `Ledger.StepBalances` | `backend/internal/service/image_service.go:908-986` | Every step keeps used bytes and image counts equal to the active bytes and number of completed images |
| `Ledger.StepBounds` | `backend/internal/service/v2_upload_service.go:236-287` | Every step keeps used bytes plus live reservations within quota and live sessions within their limit |
| `Ledger.CreditIsExact` | `backend/internal/service/image_service.go:908-986` | Deleting a completed image subtracts what was billed; the floor at zero never clips |
| `Ledger.PublishedFitsReservation` | `backend/internal/service/v2_upload_types.go:24-27` | Master, gallery, admin and publish bytes together never exceed the reservation of the session |
| `Ledger.RefusedExactly` | `backend/internal/service/v2_publish_worker.go:458-476` | The quota re-check refuses if and only if the reservations of the other sessions of the owner that expired between the clock it read and its commit exceed the room left, which is never negative |
| `Ledger.RefusalNeedsExpiry` | `backend/internal/service/v2_publish_worker.go:458-476` | So a refusal needs another session of the owner that expired in between |
| `Storage.StepCounts` | `backend/internal/service/v2_upload_service.go:679-700` | Every step keeps each reference count equal to the number of images of that file, and a file row only while positive |
| `Retention.StepRetains` | `backend/internal/service/image_service.go:1045-1090` | No step removes a stored file or a live publish target that a row of its state names |
| `Files.StepKeepsFiles` | `backend/internal/service/v2_upload_service.go:603-860` | Every step keeps the files of all committed rows on disk with their recorded content |
| `Sources.LiveJobCanPublish` | `backend/internal/service/v2_publish_worker.go:531-559` | A live job has its staged source or its target, and promotion succeeds exactly under the current token with a rendering where one is needed |
| `Leaks.StepLeaks` | `backend/internal/service/image_service.go:892-1019` | Every step keeps each stored file and publish target named, wanted, queued or owed by a failed Complete |
| `Leaks.BuryQueues` | `backend/internal/service/v2_publish_worker.go:594-658` | Burying a job leaves every path it stops naming, and the publish target, in an unpublished event |
| `Leaks.DeleteQueues` | `backend/internal/service/image_service.go:892-1019` | Deleting an image leaves every path it stops naming in an unpublished event |
| `Removal.NamedFileRemoved` | `backend/internal/service/v2_publish_worker.go:531-559` | A step removes a file that a row still names if and only if a publish takes its own staged source |
| `Removal.StagedNames` | `backend/internal/service/v2_upload_service.go:759-776` | A row names a staged path exactly when it is the publish source of a live job |
| `Lifecycle.FinalIsOriginal` | `backend/internal/worker/v2_cleanup.go:224-255` | The status that a cleanup decides is the one in which the session stopped, unless a published image is gone |
| `Lifecycle.FinalDeviates` | `backend/internal/worker/v2_cleanup.go:224-255` | The decision differs from the first status if and only if the session was published with staging left over, so that completed_at is empty, and its image is not completed |
| `Lifecycle.StepEnds` | `backend/internal/worker/v2_cleanup.go:467-499` | Every step keeps each stopped session in its original ending or pending cleanup, with the stated exception |
| `Exclusion.CleanupSparesRunning` | `backend/internal/worker/v2_cleanup.go:419-457` | No cleanup, that of orphaned directories included, removes a staged file of a running session |
| `Exclusion.OnlyRestoreRefills` | `backend/internal/service/v2_upload_service.go:883-934` | Once a session takes no more parts a staged file appears if and only if a failed Complete of it compensates while the promoted file is there; no upload can put one |
| `Exclusion.CompensationKeepsCopies` | `backend/internal/service/v2_upload_service.go:883-934` | A target is listed for removal only while the staging copy of the same content is in place |
| `Exclusion.LateCancelClaimable` | `backend/internal/service/v2_upload_service.go:1035-1042` | After Cancel's fallback some later cleanup can claim the session if and only if no other cleanup finished it first |
| `Exclusion.LateCancelStrands` | `backend/internal/service/v2_upload_service.go:1019-1042` | For every session that can be cancelled and that nobody cleans yet there is an interleaving that strands it |
| `Exclusion.StrandedForever` | `backend/internal/worker/v2_cleanup.go:419-440` | A stranded session keeps its status and its empty staging path through every further run |
| `WebP.Characterised` | `backend/internal/service/webp_info.go:92-217` | A byte sequence is accepted with a result if and only if it is the serialisation of a chunk list of the grammar that denotes that result |
| `WebP.SplitSerialised` | `backend/internal/service/webp_info.go:115-129` | Splitting undoes serialising, padding included, so a body has one chunk list |
| `WebP.ReachesTracks` | `backend/internal/service/webp_info.go:131-216` | The loop accepts exactly the well-formed chunk lists and then holds what the list denotes |
| `WebP.StillDimensions` | `backend/internal/service/webp_info.go:92-217` | An accepted still image has both sides in 1 to 16384 |
| `WebP.InspectComplete` | `backend/internal/service/webp_info.go:92-217` | The reader over a stream returns exactly the verdict on the first size bytes, fails if they do not arrive, and consumes exactly size bytes on success |
| `WebP.InspectChunks` | `backend/internal/service/webp_info.go:108-217` | The chunk loop from byte 12 agrees with the scan of the body |
| `WebP.InspectPrefix` | `backend/internal/service/webp_info.go:23-87` | The loop of the prefix parser computes what the first telling chunk shows |
| `WebP.ParsersAgree` | `backend/internal/service/webp_info.go:23-87` | Whenever the complete validator returns a still image the prefix parser returns the same |
| `WebP.StreamPart` | `backend/internal/service/v2_upload_service.go:562-589` | A part is received if and only if the body is unbroken, has exactly the expected length, fits its destination and is accepted; what was written and hashed is then the body, and never more than one byte beyond the expected length |
| `WebPFiles.LossyFile` | `backend/internal/service/webp_info.go:149-163` | For all sides, scales, tags and data, the file whose bytes hold them in their places is inspected to these sides |
| `WebPFiles.LosslessFile` | `backend/internal/service/webp_info.go:164-179` | The same for a lossless frame, its sides packed in fourteen bits each |
| `WebPFiles.ExtendedLossyFile` | `backend/internal/service/webp_info.go:136-217` | An extended file is accepted, with its sides, if and only if its frame has the sides of its canvas |
| `WebPFiles.ExtendedLosslessFile` | `backend/internal/service/webp_info.go:136-217` | The same with a lossless frame |
| `WebPFiles.AnimatedFile` | `backend/internal/service/webp_info.go:136-217` | A canvas flagged as animated makes an animation of its size |
| `WebPFiles.BadCanvas` | `backend/internal/service/webp_info.go:133-148` | A canvas of another size, or with a reserved bit or byte set, is refused |
| `WebPFiles.BadLossyFrame` | `backend/internal/service/webp_info.go:149-163` | A lossy frame that is short or lacks its start code is refused |
| `WebPFiles.BadLosslessFrame` | `backend/internal/service/webp_info.go:164-179` | A lossless frame that is short or lacks its signature is refused |
| `WebPFiles.InvisibleFrame` | `backend/internal/service/webp_info.go:149-163` | A frame one of whose sides is zero is refused |
| `WebPFiles.NothingAfterAFrame` | `backend/internal/service/webp_info.go:115-217` | Anything after the frame of a simple file is refused |
| `WebPFiles.WrongLength` | `backend/internal/service/webp_info.go:92-107` | A file whose length field differs from its length is refused |
| `WebPFiles.LossyPrefix` | `backend/internal/service/webp_info.go:23-87` | The prefix parser gives the sides of a lossy file from its first thirty bytes, whatever follows |
| `WebPFiles.LosslessPrefix` | `backend/internal/service/webp_info.go:23-87` | The same from the first twenty-five bytes of a lossless file |
| `WebPFiles.AnimatedPrefix` | `backend/internal/service/webp_info.go:23-87` | It recognises an animation by its canvas |
| `Watermark.OnlyRegenerateChanges` | `backend/internal/service/watermark.go:56-152` | Through every interleaving, crash and failed operation the logical watermark changes exactly when RegenerateWatermark writes a different one |
| `Watermark.CallbacksSee` | `backend/internal/service/watermark.go:89-191` | Every WithCurrentWatermark callback sees the logical watermark without a journal, and every job with text sees exactly its own |
| `Watermark.SharedJournalIsStale` | `backend/internal/service/watermark.go:89-117` | A journal seen under the shared lock belongs to nobody who is still running |
| `Watermark.CallbackIsUndisturbed` | `backend/internal/service/watermark.go:234-268` | No step of another process changes the file during a callback |
| `Watermark.Files.Recover` | `backend/internal/service/watermark.go:283-300` | Recovery makes the file what the journal says and leaves no journal |
| `Watermark.Files.Restore` | `backend/internal/service/watermark.go:302-314` | The restore writes the previous file and clears the journal |
| `Watermark.Files.Install` | `backend/internal/service/watermark.go:69-84` | A configured watermark is written only when it differs, and the change is reported |
| `Watermark.Files.RegenerateWatermark` | `backend/internal/service/watermark.go:56-67` | It recovers first, so it compares with the logical watermark |
| `Watermark.Files.WithSnapshot` | `backend/internal/service/watermark.go:119-191` | The callback sees the expected watermark and afterwards the file is what it logically was, stale journals included |
| `Watermark.RegenerateSucceeds` | `backend/internal/service/watermark.go:56-67` | Whatever crashes left behind, an undisturbed regeneration installs the configured watermark, or leaves the logical one, without a journal |
| `Watermark.JobSucceeds` | `backend/internal/service/watermark.go:119-191` | An undisturbed publish job gets to its callback with its own watermark in the file, and the logical one is back afterwards |
| `Watermark.CurrentSucceeds` | `backend/internal/service/watermark.go:89-117` | An undisturbed reader gets to its callback with the logical watermark |
| `R2Protocol.EveryObjectIsOwned` | `backend/internal/service/image_service.go:528-779` | In every run with any configuration each uploaded object is named by a file row or by an unpublished event on its target, unless an earlier step dropped its row while normalising changed the target of the row |
| `R2Protocol.OwnershipStep` | `backend/internal/service/image_service.go:966-1016` | A step makes an object lose its owner if and only if it drops the row naming the object and normalising changes the target of that row, with nothing else naming it |
| `R2Protocol.DropLosesExactly` | `backend/internal/service/image_service.go:966-1016` | In every run, dropping a row that is on the configured target leaves its objects an owner if and only if normalising settles the configured endpoint |
| `R2Protocol.ObjectLost` | `backend/internal/service/image_service.go:966-1016` | A concrete run with the endpoint "https://h/ /" ends with an object that nothing names |
| `R2Protocol.SettledRunsLoseNothing` | `backend/internal/service/image_service.go:966-1016` | No object is lost in a run whose configured endpoints normalising settles |
| `R2Protocol.TargetsMatch` | `backend/internal/service/admin_service.go:161-200` | In a run whose configured endpoints normalising settles, every R2 row and every unpublished event is on exactly the configured endpoint and bucket |
| `R2Protocol.UploadsEndFirst` | `backend/internal/service/image_service.go:528-589` | In every run, until its deadline has passed an upload holds its intent and no worker can claim it |
| `R2Protocol.PublishedBy` | `backend/internal/service/image_service.go:663-779` | In every run an event becomes published only with the file row for its objects, or by its holder when none of its objects is left |
| `R2Protocol.NamedObjectsStay` | `backend/internal/worker/outbox.go:349-394` | In every run an object that a worker removes is named by no file row |
| `R2Protocol.GuardNeedsSettled` | `backend/internal/service/admin_service.go:242-302` | For any rows on the configured target, an update that moves the target is accepted for some proposal if and only if normalising does not settle the configured endpoint, no deletion is pending and no row is unclassified |
| `R2Protocol.MovesFreely` | `backend/internal/service/admin_service.go:242-298` | An accepted update that moves the target finds neither rows nor unpublished events |
| `R2.RemoteStore.StageIntent` | `backend/internal/service/image_service.go:591-646` | An intent is staged exactly when the target is still the enabled, configured one |
| `R2.RemoteStore.BeginUploads` | `backend/internal/service/image_service.go:528-589` | Uploads start only with a deadline inside the lease of the intent |
| `R2.RemoteStore.FinalizeFile` | `backend/internal/service/image_service.go:663-703` | The file row and the published intent are one transaction, on an unchanged target only |
| `R2.RemoteStore.UpdateTarget` | `backend/internal/service/admin_service.go:142-228` | The configuration changes exactly when the guard accepts |
| `RemoteLaws.FirstConfiguration` | `backend/internal/service/admin_service.go:242-298` | Without rows, unpublished events and unclassified rows every proposal becomes the configuration |
| `RemoteLaws.UpdateLaw` | `backend/internal/service/admin_service.go:242-302` | A proposal that moves the target is taken if and only if nothing is unpublished or unclassified and every row normalises to it; one that keeps it is always taken |
| `RemoteLaws.StageLaw` | `backend/internal/service/image_service.go:591-646` | An upload is staged, with three new objects and a lease of five minutes, if and only if the store is enabled and the target still the configured one |
| `RemoteLaws.BeginLaw` | `backend/internal/service/image_service.go:528-589` | The uploads get two minutes, at most to ten seconds before the end of the lease, and none if that is past |
| `RemoteLaws.FinalizeLaw` | `backend/internal/service/image_service.go:663-703` | The file row is written if and only if the intent is still held within its lease on the enabled, configured target |
| `RemoteLaws.CheckLaw` | `backend/internal/worker/outbox.go:349-394` | A worker removes exactly the paths of its event that no row names at its one look |
| `RemoteLaws.RemoveLaw` | `backend/internal/worker/outbox.go:349-394` | An object is removed only on the configured target |
| `RemoteLaws.UploadSucceeds` | `backend/internal/service/image_service.go:528-703` | An undisturbed upload of an enabled store ends with the file row, its objects and its intent published |
| `RemoteLaws.DeletionSucceeds` | `backend/internal/worker/outbox.go:349-394` | In every run with settled endpoints an undisturbed deletion removes the row and all its objects in any order, and its event is published |
| `Text.SettledExactly` | `backend/internal/service/admin_service.go:300-302` | Normalising an endpoint twice is normalising it once if and only if the first result does not end in white space |
| `Text.Unsettled` | `backend/internal/service/admin_service.go:300-302` | The URL "https://h/ /" is normalised to another URL each time, twice |
| `Text.TrimSpaceFixes` | `backend/internal/service/storage_gc.go:40-48` | Trimming changes nothing exactly on trimmed strings |
| `Text.TrimSpaceIs` | `backend/internal/service/storage_gc.go:40-48` | Trimming takes away exactly the white space at both ends |
| `Text.EndpointIs` | `backend/internal/service/admin_service.go:300-302` | The normal form is the trimmed endpoint without the slashes at its end |
| `Outbox.LeftPublishing` | `backend/internal/worker/outbox.go:705-754` | For any outcome of every delivery, store call and context check of a claimed batch: an event stays publishing under the claim if and only if the loop was left at it or before it and the release that should follow did not happen |
| `Outbox.WorkingStoreLeavesNone` | `backend/internal/worker/outbox.go:705-806` | With a store whose calls fail only because the context ended, no batch leaves an event publishing, whatever the deliveries do and wherever the context ends |
| `Outbox.LeavesOnce` | `backend/internal/worker/outbox.go:719-753` | The loop is left at exactly one place in one way: at the first event before which the context ended, whose delivery was aborted by it or panicked, or whose outcome could not be recorded |
| `Outbox.Interrupted` | `backend/internal/worker/outbox.go:705-806` | After a cancellation or panic whose release works, every event not recorded is pending at once with its attempts before the claim; the panicking event keeps its increment and dies at its limit if that could be recorded |
| `Outbox.Verdicts` | `backend/internal/worker/outbox.go:161-181` | A worker publishes an event exactly after a recorded delivery without error, missing configuration costs no attempt, no event dies below its limit, and a storage deletion dies only of an invalid payload or a panic |
| `Outbox.DelaysBounded` | `backend/internal/worker/outbox.go:846-852` | Retry delays are positive and bounded, also when a server asks for more |
| `Outbox.DelayLaw` | `backend/internal/worker/outbox.go:846-852` | The delay doubles from one to 256 seconds with the attempts, and is at least the smaller of what the server asked and ten minutes |
| `Outbox.RecordedRow` | `backend/internal/worker/outbox.go:725-753` | What a recorded event looks like against its row before the claim: published, pending for five minutes without the attempt, or failed with its delay and dead exactly at its limit |
| `Outbox.ClaimLaw` | `backend/internal/worker/outbox.go:67-130` | An event is claimable if and only if it is pending and due or its lease is over; a claim counts one attempt, and expired events that are not taken are pending at once |
| `Outbox.QuietBatchRecordsAll` | `backend/internal/worker/outbox.go:719-753` | With a living context, deliveries that return and a store that works every event of a batch is recorded |
| `Outbox.OutboxStore.Claim` | `backend/internal/worker/outbox.go:67-130` | Expired leases are reclaimed and the picked events get one fresh token and one more attempt |
| `Outbox.OutboxStore.MarkPublished` | `backend/internal/worker/outbox.go:132-144` | Only the current token publishes |
| `Outbox.OutboxStore.DeferUnconfigured` | `backend/internal/worker/outbox.go:146-159` | Only the current token defers, and the attempt is given back |
| `Outbox.OutboxStore.MarkFailed` | `backend/internal/worker/outbox.go:161-181` | Only the current token fails an event, which dies when the claimed attempts reach its limit and otherwise waits for the delay |
| `Outbox.OutboxStore.ReleaseClaims` | `backend/internal/worker/outbox.go:187-220` | Of the listed events those still publishing under the owner and token become pending at once without an owner, with or without their attempt; every other row, listed or not, stays as it is |
| `Outbox.OutboxWorker.Record` | `backend/internal/worker/outbox.go:725-753` | One delivery is recorded on the claimed row exactly when the store works and the token still holds |
| `Outbox.OutboxWorker.Deliveries` | `backend/internal/worker/outbox.go:719-753` | The delivery loop with its context checks is left where and as its inputs determine, and has recorded exactly the events before |
| `Outbox.OutboxWorker.ProcessBatch` | `backend/internal/worker/outbox.go:705-754` | The loop and its deferred release: which rows are recorded, failed, released or left, for every way of leaving the loop and every outcome of the release |
| `Outbox.OutboxWorker.RunBatch` | `backend/internal/worker/outbox.go:67-130` | Claiming and working off a batch gives exactly the rows that the lemmas on batches speak about; a claim that fails changes nothing |
| `Outbox.OutboxWorker.CleanUp` | `backend/internal/worker/outbox.go:765-806` | After a panic the active event is failed, or else released without refund, and the events behind it are released with refund, each only if the store allows |
| `StorageGc.ProducerMeetsConsumer` | `backend/internal/service/storage_gc.go:33-132` | For all accepted lists the payloads partition the cleaned paths within the batch sizes, and the worker accepts all of them if and only if no path is longer than 500 and no endpoint normalises to nothing the second time |
| `StorageGc.EnqueuesExactly` | `backend/internal/service/storage_gc.go:50-69` | A request is accepted if and only if every object with a path names one of the paths and a complete target, and no path gets two targets |
| `StorageGc.AcceptsLaw` | `backend/internal/worker/outbox.go:300-330` | The worker accepts a payload if and only if its paths and objects are within their numbers and lengths, each object is on a complete target under one of the paths, and no path has two targets |
| `StorageGc.PayloadsAreFull` | `backend/internal/service/storage_gc.go:91-107` | All local payloads but the last hold a hundred paths, and all on one target but the last five objects |
| `StorageGc.Partition` | `backend/internal/service/storage_gc.go:70-107` | Every cleaned path is in exactly one payload, with its remote object, on one target per payload |
| `StorageGc.CleanIs` | `backend/internal/service/storage_gc.go:37-49` | Cleaning keeps exactly the trimmed, non-empty paths, each once |
| `StorageGc.UnsettledEndpointRejected` | `backend/internal/worker/outbox.go:300-330` | A concrete object that the batching function accepts and whose payload the validation rejects |
| `StorageGc.CleanPaths` | `backend/internal/service/storage_gc.go:37-49` | The loop trims, drops empty and repeated paths and keeps the order |
| `StorageGc.IndexObjects` | `backend/internal/service/storage_gc.go:50-69` | Remote objects are normalised and indexed by path; unlisted, incomplete and conflicting ones are errors |
| `StorageGc.GroupAll` | `backend/internal/service/storage_gc.go:70-89` | Paths are grouped by target in the order of first appearance |
| `StorageGc.Batch` | `backend/internal/service/storage_gc.go:92-95` | The loop cuts a list into consecutive batches |
| `StorageGc.BuildPayloads` | `backend/internal/service/storage_gc.go:91-107` | One payload per batch of every group |
| `StorageGc.Enqueue` | `backend/internal/service/storage_gc.go:33-132` | The enqueuer is the composition of these |
| `StorageGc.ValidatePayload` | `backend/internal/worker/outbox.go:300-330` | The worker accepts a payload exactly under its validation rules |
| `SingleFlight.InGroupWhileReferenced` | `backend/internal/handler/public_handler.go:68-132` | A call is in the group if and only if some request holds it, and its count is their number |
| `SingleFlight.CleanedOnce` | `backend/internal/handler/public_handler.go:83-132` | Its file is removed at most once and never before the last holder released, its slot is freed at most once and after that, and both have happened when the cleanup is over |
| `SingleFlight.FilesWithinCapacity` | `backend/internal/handler/public_handler.go:638-684` | Existing temporary files never outnumber the capacity |
| `SingleFlight.CleanupProgresses` | `backend/internal/handler/public_handler.go:83-132` | An unreferenced complete call that is not clean always has the steps that clean it |
| `SingleFlight.OneCallPerKey` | `backend/internal/handler/public_handler.go:68-81` | Two requests in progress share one call if and only if they have the same key |
| `SingleFlight.StartLaw` | `backend/internal/handler/public_handler.go:638-651` | A leader generates if and only if fewer calls than the capacity hold a slot, and else completes its call at once |
| `SingleFlight.AcquireLaw` | `backend/internal/handler/public_handler.go:68-81` | A request joins the call of another one in progress with its key, or gets a new one |
| `SingleFlight.ReleaseLaw` | `backend/internal/handler/public_handler.go:109-132` | A request that leaves gives back its reference; the last one takes the call out of the group and cleans up if it is complete |
| `SingleFlight.DynamicImageGroup.AcquireCall` | `backend/internal/handler/public_handler.go:68-81` | The first request of a key leads and later ones join |
| `SingleFlight.DynamicImageGroup.FinishCall` | `backend/internal/handler/public_handler.go:83-100` | Finishing leaves the cleanup to the leader exactly when nobody waits any more |
| `SingleFlight.DynamicImageGroup.ReleaseCall` | `backend/internal/handler/public_handler.go:109-132` | The last holder removes the call from the group and takes over the cleanup |
| `Scanner.PassIsComplete` | `backend/internal/worker/storage_reconcile.go:81-231` | However calls and pages are cut, a pass that is over has queued exactly the unreferenced old files within the depth cap, each once |
| `Scanner.PassEnds` | `backend/internal/worker/storage_reconcile.go:81-231` | Calls that can each do at least one iteration end a pass within as many calls as the whole walk has iterations, however they cut it |
| `Scanner.PassQueues` | `backend/internal/worker/storage_reconcile.go:237-297` | At every moment of a pass what is queued and what is left are together the unreferenced files of the listing, in order |
| `Scanner.QueueTakes` | `backend/internal/worker/storage_reconcile.go:237-313` | One call queues the next files in order, at most a batch, and loses none |
| `Scanner.ListingIs` | `backend/internal/worker/storage_reconcile.go:93-179` | The recursive listing holds exactly the old regular files within the depth cap |
| `Scanner.ListingDistinct` | `backend/internal/worker/storage_reconcile.go:93-179` | On a tree with distinct names it lists none twice |
| `Scanner.ReportsAreTrue` | `backend/internal/worker/storage_reconcile.go:93-179` | A reported end of the pass is one |
| `Scanner.UnreportedEnd` | `backend/internal/worker/storage_reconcile.go:93-179` | A call leaves a finished pass unreported if and only if the iterations of its page end exactly as the root closes, within the entry limit, and everything left was queued |
| `Scanner.ScanEndsUnseen` | `backend/internal/worker/storage_reconcile.go:114-179` | A page ends with an empty stack and without notice if and only if exactly its budget of iterations empties the stack, so the entry limit never causes it |
| `Scanner.OneFileUnreported` | `backend/internal/worker/storage_reconcile.go:93-179` | A tree of one old file shows it |
| `Scanner.PersistentScanner.Next` | `backend/internal/worker/storage_reconcile.go:93-179` | The loop over stack, cursor and pending page is one page of the scan |
| `Scanner.PersistentScanner.CommitPageRemainder` | `backend/internal/worker/storage_reconcile.go:85-91` | What was not queued stays pending, and an empty remainder ends the page |
| `Scanner.PersistentScanner.QueueOrphans` | `backend/internal/worker/storage_reconcile.go:237-297` | One call of the reconciler |
| `Scanner.NextBatch` | `backend/internal/worker/storage_reconcile.go:299-313` | The batch is the first unreferenced candidates and the remainder the others |
| `UserDeletion.NothingLostBeforeDeleting` | `backend/internal/service/admin_service.go:396-470` | Through any run that ends with the account present and not deleting, no table but login sessions, identity sessions and CSRF tokens loses a row, these only where a request ended the sessions, every file row and path stays and no deletion was queued; cancelling then changes none of it |
| `UserDeletion.LostExactly` | `backend/internal/service/admin_service.go:396-425` | A step after which the account can still be cancelled loses a row if and only if it is the statement of a request that ends the sessions, and then exactly the login sessions, identity sessions and CSRF tokens |
| `UserDeletion.LeftAloneForADay` | `backend/internal/service/admin_service.go:396-410` | For 24 hours after the request no step of the worker changes anything, whatever else happens to the account |
| `UserDeletion.TakenAfterADay` | `backend/internal/service/admin_service.go:396-410` | A request that nobody cancels is taken up if and only if 24 hours have passed |
| `UserDeletion.WorkerLaw` | `backend/internal/worker/user_deletion.go:98-258` | The worker passes over, waits, finishes or takes one batch exactly under the stated conditions, and a batch changes only its table, with the files and events of images and variants |
| `UserDeletion.BatchLaw` | `backend/internal/worker/user_deletion.go:129-258` | A batch is the 25 images, or 100 other rows, with the smallest ids |
| `UserDeletion.ChildrenGoFirst` | `backend/internal/worker/user_deletion.go:129-258` | Rows go before the rows that they refer to |
| `UserDeletion.DeletingIsFinal` | `backend/internal/service/admin_service.go:82-118` | The deleting state is left only by the removal of the user row, with no child row left |
| `UserDeletion.StagedSessionsStay` | `backend/internal/worker/user_deletion.go:269-281` | Through any run an upload session goes only by a worker on an eligible account, when no session of the account is unfinished or staged and no job is live |
| `UserDeletion.StepsProgress` | `backend/internal/worker/user_deletion.go:129-258` | Every step on an eligible account that is not busy removes exactly as many rows as it reports, at least one, until the user row goes |
| `UserDeletion.WorkersFinish` | `backend/internal/worker/user_deletion.go:98-258` | On an eligible account that is not busy a run of worker steps removes the user if and only if it has more steps than there are batches of rows, one less after each step, and these are no more than the rows |
| `UserDeletion.DroppedPathsAreQueued` | `backend/internal/worker/user_deletion.go:423-568` | A batch that drops the last row naming a path queues a deletion that names it |
| `UserDeletion.FilesGoWithLastImage` | `backend/internal/worker/user_deletion.go:456-568` | After a batch of any phase a file row is there if and only if it was and some image of any account still references it |
| `UserDeletion.UserDeletionWorker.DeleteUserRecords` | `backend/internal/worker/user_deletion.go:129-258` | The worker checks eligibility and blocking work, and deletes a batch of the first phase with rows left |
| `UserDeletion.UserDeletionWorker.DeletePhase` | `backend/internal/worker/user_deletion.go:391-454` | A batch enters the deleting state, queues paths and removes the picked rows |
| `UserDeletion.UserDeletionWorker.BeginDeletion` | `backend/internal/worker/user_deletion.go:376-389` | Only the status changes |
| `UserDeletion.UserDeletionWorker.DropFiles` | `backend/internal/worker/user_deletion.go:456-568` | Exactly the file rows left without an image go, and their paths are queued |
| `Bisection.Reconcile` | `frontend/src/features/images/v2-upload.ts:325-343` | The client throws exactly on a malformed id and otherwise reports exactly the existing sessions with their status and exactly the missing ids, with at most 2n-1 requests for n distinct ids |
| `Bisection.Reports.VisitChunk` | `frontend/src/features/images/v2-upload.ts:742-765` | A chunk throws exactly on a malformed id and otherwise adds its existing sessions and missing ids in order; nothing missing costs one request |
| `Bisection.EachReportedOnce` | `frontend/src/features/images/v2-upload.ts:742-765` | No session and no missing id is reported twice |
| `Bisection.Complementary` | `frontend/src/features/images/v2-upload.ts:742-765` | Every id is reported on exactly one side |
| `Bisection.FoundIs` | `backend/internal/service/v2_upload_service.go:1135-1150` | The reports are the existing sessions with their status and the other ids |
| `Bisection.BatchStatus` | `backend/internal/service/v2_upload_service.go:323-342` | The server answers for all ids in order or refuses the whole query when one is missing |
| `Bisection.NormaliseIds` | `backend/internal/service/v2_upload_types.go:113-131` | Ids are deduplicated in order; an empty, oversized or malformed list is refused |

## Left out

Behaviour that the model does not have:

- The validation of a published rendering (dimensions, animation) as a reason to fail before the commit; an execution that stops there is one whose later steps are missing.
- The unique dedupe key of outbox rows, which an insertion meets with DO NOTHING: a repeated enqueue of one batch under the same key would be dropped.
- Uploads other than V2, quota changes, V1 multipart uploads and V1 rows without storage lineage: the quota theorem is about V2 uploads under a fixed quota.
- The scanner for unreferenced files and user deletion are not steps of the pipeline machine; they have modules of their own. The scanner could otherwise take a publish target between its promotion and its commit.
- Disk pressure, capacity gates, fsync, symbolic links and path escapes; a rename is atomic.
- Part geometry, dimensions and recipe hashes beyond kind, size and content; SVG text generation.
- HTTP handlers, SQL, Redis, S3, imgproxy and CDN calls; they appear only as outcomes (success, failure, interruption).
- Ids and tokens are fresh counters; jobs are keyed by their image, variants by their kind, file rows by their content.
- The in-process mutex of the watermark; the file lock alone carries the proofs.
- Local files of R2-backed images, and the credentials and URL checks of the R2 configuration; rows without a classified target are a number given to the guard.
- Errors and cancellation of a directory scan, changes of the tree during a pass, and the 32-entry directory reads.
- Remote objects and CDN events of user deletion.
- Remote objects of a file shared with a V1 image when a dead job is compensated; the source enqueues only local paths there.
- Overflow of 64-bit integers, which sizes within the quota do not reach.

Contracts that say less than the source does:

- Upload.ManifestCharacterised: file names, visibility, recipe, MIME type, dimensions and part geometry are not part of the manifest here; kinds and sizes are.
- Upload.UploadService.CheckManifest: the same checks are absent from the loop.
- R2Protocol.TargetsMatch: about runs whose configured endpoints normalising settles; on others a dropped row leaves the target, exactly as `R2Protocol.DropLosesExactly` says.
- R2Protocol.UploadsEndFirst: about uploads that honour their deadline.
- R2Protocol.PublishedBy: R2 cleanup events never die in this module; dying of a panic is in `Outbox.Verdicts`.
- R2.RemoteStore.UpdateTarget: the checks of the URLs and credentials are outside the model; the proposal is one that passes them.
- Outbox.OutboxWorker.ProcessBatch: the batch is handled within its lease, so no other worker touches its rows; what happens after a lease is lost is in the contracts of `Outbox.OutboxStore`. A store call that fails changes no row.
- Outbox.LeftPublishing: a store call that takes effect and still returns an error is not among the outcomes of a call, so the condition is about calls that do one or the other.
- StorageGc.UnsettledEndpointRejected: about the function alone; a stored endpoint is a URL with a host, which normalising never empties.
- Scanner.PassIsComplete: an error-free pass over a static tree, all of whose calls see one set of referenced paths.
- SingleFlight.FilesWithinCapacity: cancelling a rendering and the time limits of waiting requests are only releases.
- UserDeletion.StepsProgress: the logins under an identity session belong to the same account, so the check for children of other accounts never holds a row back.
- UserDeletion.UserDeletionWorker.DropFiles: the remote objects of a file row are not part of its paths.
- Bisection.Reconcile: aborted and failing requests end the reconciliation with an error and are not modelled.
