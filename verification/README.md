# HistorySync server: verified model of its storage protocols

This project models the stateful protocols of the HistorySync sync server - a Go service
over PostgreSQL, Redis and an object store - and proves what every interleaving of their
steps keeps. `dafny verify dfyconfig.toml` checks all of it.

## How the models are built

**One event, one statement.** Each protocol that several processes run at once is a state
machine: a state, a datatype of events and a function `Apply`. One event is one SQL
statement, one call to the object store or to Redis, or the death of a process; an event
whose guard does not hold changes nothing. A run is therefore any list of events, and a
theorem about all lists is a theorem about every interleaving, with crashes at every point.
Calls that may fail carry the outcome in the event. Clocks are part of the state and only
move forward.

**The code in its own form.** The imperative code is classes and methods with loops. A
method that moves shared state takes its failures as parameters and is proved to be a run of
the machine (`View() == Exec(old(View()), trace)`), and in addition states outright what it
returns and leaves behind. The method itself is one undisturbed call. In an interleaving other
processes move between any two of its statements, and the machine carries its control flow: the
stage of each process guards which statement comes next. The theorems about runs speak of those
interleavings. Ghost fields carry the history that the theorems speak of: which processes
are under way, what dead processes took with them, which uploads returned success.

**The files.**

| file | protocol |
|---|---|
| `Lifecycle.dfy` | the machine of rows, blobs, usage counters, uploads, deletions, prunes, purges, recalculation, crashes |
| `Ledger.dfy`, `Quota.dfy` | storage accounting and the quota promise |
| `Custody.dfy`, `Incidents.dfy` | who may touch a row and its blob; the ways the promises break |
| `SyncStore.dfy` | the repository and service methods, statement by statement |
| `Idempotency.dfy` | claim, execute, mark, replay |
| `Outbox.dfy` | notification outbox, retries, backoff, admin actions |
| `Erasure.dfy` | account erasure jobs, on top of the sync machine |
| `Restore.dfy` | restore rehearsal and its verdict |
| `RateLimit.dfy` | fixed-window limiters in memory and in Redis |
| `History.dfy`, `Export.dfy` | retention of operational history and its export |
| `UsageCache.dfy` | the read-through cache of usage rows |
| `Migrations.dfy`, `MigrationFiles.dfy`, `MigrationNames.dfy`, `MigrationStatus.dfy` | migration runner, directory, names, status |
| `OptionFile.dfy` | the runtime option file |
| `Redaction.dfy` | redaction of secrets in error messages |
| `MapSum.dfy`, `Numbers.dfy`, `Text.dfy`, `Wrappers.dfy` | sums over maps, minimum, string operations, Option and Result |

## Assumptions the theorems name

- `Custody.Careful`: an object is deleted or pruned only after its upload returned; the
  rollback statement that takes out a metadata row succeeds; recalculation and dropping a
  usage row happen while nothing of the user is in flight. `Ledger.Conservation` needs none
  of this: it says exactly which steps break the books.
- `Idempotency.Prompt`: an executor marks its outcome before its lock ends. The fingerprint
  theorems do not need it, and `ExclusiveExactlyWhenPrompt` shows that exclusion needs all of it.
  A win in that module is a stored mark; `effects` is the history of executions that took place,
  marked or not.
- `Erasure.Calm`: accounts marked deleted are logged out, so nothing starts for them and no row
  or challenge is added except in the spared tables (`Erasure.Spared`), and an account is marked deleted once nothing of it is in flight or live.
- A statement or a call to the object store that reports failure has changed nothing. In
  particular `Custody.NoOrphanEver` and `Custody.ErasedUserHasNoBundleBlob` rest on this for Put: a
  store that kept the bytes of a Put it reported as failed would keep a bundle blob whose row the
  rollback deletes.
- The advisory lock of the retention task is held for the whole run. User and object ids,
  hashes and encoded bodies are values of abstract types: equal exactly when the originals
  are.

## What turned out false of the code

Each of these comes with the exact condition under which the code keeps its promise, and with a
run or an input that breaks it where the condition does not name one.

- A deletion that hits an upload in flight gives the bytes back twice if the Put then fails
  (`Incidents.DeleteDuringUploadIsAnAccident`), and a rollback whose row removal fails
  leaves a live row without bytes (`Incidents.IgnoredRollbackFailureIsAnAccident`); exactly the
  faults of `Ledger.Conservation` unbalance the books.
- Snapshot blobs can be orphaned, by one step only: the rollback after a failed prune takes
  out the row before the blob (`Incidents.OrphanedExactlyByRollback`). If it then dies or cannot
  delete the blob (`Incidents.FailedPruneAbandonsBlob`), no process ever reaches the blob again
  (`Incidents.AbandonedForGood`).
- The marks of the idempotency store are not fenced: an executor that outlived its lock
  wipes out a success (`Idempotency.LateMarkUndoesSuccess`), which no continuation can do exactly
  in the runs without a late tick (`Idempotency.ExclusiveExactlyWhenPrompt`). An execution whose
  mark fails is repeated by the next call (`Idempotency.EffectOnceExactlyWhenMarked`). A negative
  status is not replayed as itself (`Idempotency.ReplayRepeatsStatus`).
- A notification left in `processing` by a worker that returned early is never taken up again
  (`Outbox.StoppedWorkerLeavesBehind`, `Outbox.LeftBehindForever`); those and the sent and
  discarded ones are exactly the ones that never change (`Outbox.SettledExactly`).
- An erasure job whose attempt died stays `running` for good (`Erasure.DeadAttemptClosesJob`,
  `Erasure.ClosedForever`, and exactly such jobs: `Erasure.ClosedExactly`); with
  no grace period a job never completes (`Erasure.ZeroGraceNeverCompletes`).
- The cap of 50 findings can turn an unhealthy orphan scan into a degraded one
  (`Restore.CapHidesListFailure`), but never into a clean one (`Restore.VerifyOkIsExact`);
  `Restore.CapChangesVerifyExactly` and `Restore.CapChangesBaselineExactly` say when it does.
- A rate-limit window with a fraction of a second admits three times its limit within the
  window (`RateLimit.FractionalWindowBreaksTheBound`); windows of whole seconds, give or take a
  nanosecond, do not (`RateLimit.TwiceTheLimit`).
- Invalidation of the usage cache can be overtaken by a slow reader
  (`UsageCache.InvalidationIsOvertaken`); `UsageCache.CoherentExactlyUnlessOvertaken` lists the
  steps that leave a stale entry, and there are no others.
- `migrate up` then `down` by as many restores the tracking table only if everything pending
  is newer than everything applied (`Migrations.UpThenDown`); the version after the largest
  64-bit integer is negative (`MigrationNames.NextVersionIsFresh`). If that is in use too, creating
  a migration either overwrites the two files of that version or leaves the directory unreadable;
  and a second write that fails leaves it unreadable unless it overwrote (`MigrationFiles.Create`).
- A completed erasure leaves the user's rows in seven tables that no statement of it touches, and
  the used-up challenges (`Erasure.CompletedMeansErased`, `Erasure.TablesComplete`).

Where a comment in the code promises more than the code does, the model follows the code:
`DeleteBundle` and the prune loop report an error after the row is already soft-deleted,
`MarkFailed` of the erasure job ignores its own failure, the certificate of an erasure lists the
passkey challenges as deleted while their rows stay, used up, and the comment on `RecalculateUsage`
calls the reconciliation safe to re-run, which it is only while nothing is owed.

## Model

| member | source | states |
|---|---|---|
| Ledger.StepDrift | pkg/repository/repository.go:1317-1413 | from balanced books, one step of any kind moves a user's counter away from live + owed + leaked bytes by exactly the amount its named fault says |
| Ledger.Conservation | pkg/service/service.go:1141-1293 | along every interleaving, crashes included, the books balance at every step if and only if no step was one of four named accidents |
| Quota.QuotaHolds | pkg/service/service.go:1317-1422 | in every careful run the counter is exactly live + owed + leaked bytes, it and live data never exceed the limit, and no subtraction is cut off at zero |
| Quota.LeakedAt | pkg/service/service.go:1216-1233 | without a process death no byte is ever leaked |
| Quota.RecalculationRepairs | pkg/repository/repository.go:1440-1466 | recalculation makes the counter the live bytes whatever it was before, forgets leaked bytes, and is idempotent |
| Quota.RecalculationBalances | pkg/repository/repository.go:1434-1439 | recalculation keeps the books balanced exactly when nothing of its users is owed |
| Quota.BalancedNeverClamps | pkg/repository/repository.go:1342-1355 | while the books balance, GREATEST(...,0) never takes effect |
| Custody.StepSound | pkg/service/service.go:1160-1247 | every careful step keeps the custody invariant: running uploads find their own row, one purger, no orphan bundle blob, acknowledged bundles keep their blob |
| Custody.NoOrphanEver | pkg/service/service.go:502-527 | at every step of every careful run a stored bundle blob has a live or soft-deleted row |
| Custody.PurgeSparesLiveData | pkg/scheduler/scheduler.go:87-121 | there is one purger at a time and everything on its page is soft-deleted |
| Custody.AcknowledgedBundlesStay | pkg/service/service.go:1216-1247 | a bundle whose upload returned success keeps its blob, with its size, for as long as it is live |
| Custody.ErasedUserHasNoBundleBlob | pkg/service/service.go:502-527 | a user without metadata rows has no bundle blob |
| Custody.CarefulStepsAreNoAccidents | pkg/repository/repository.go:1317-1413 | careful steps are none of the accidents that unbalance the books |
| Incidents.FreshIsSound | pkg/service/service.go:1141-1158 | the empty server is sound and balanced |
| Incidents.DeleteDuringUploadIsAnAccident | pkg/service/service.go:1225-1229 | deleting a bundle while its Put is about to fail makes the rollback give the same bytes back a second time |
| Incidents.IgnoredRollbackFailureIsAnAccident | pkg/service/service.go:1225-1229 | a rollback whose row removal fails leaves a live row whose bytes are given back |
| Incidents.OrphanedExactlyByRollback | pkg/service/service.go:1395-1396 | a careful step orphans a blob if and only if it is the row removal of an upload whose blob is stored |
| Incidents.FailedPruneAbandonsBlob | pkg/service/service.go:1392-1401 | from an empty server with a tier of one: a second snapshot whose prune fails loses its row, and if its process then dies or cannot delete the blob, the blob stays with nobody attending to it |
| Incidents.AbandonedForGood | pkg/service/service.go:502-527 | whatever uploads, purges and deletions follow, such a blob stays without a row until the very same object is uploaded again |
| SyncStore.Store.TryAddUsage | pkg/repository/repository.go:1317-1339 | the conditional update adds the bytes exactly when the sum stays within the limit, and is otherwise invisible |
| SyncStore.Store.RollBack | pkg/service/service.go:1225-1233 | the rollback takes out row, blob and bytes, each unless its own statement fails |
| SyncStore.Store.Persist | pkg/service/service.go:1216-1233 | row before blob; a failing Create or Put takes back exactly what its working rollback statements can |
| SyncStore.Store.Ingest | pkg/service/service.go:1160-1233 | reserve, record, store: either all three, or nothing unless a rollback statement failed |
| SyncStore.Store.UploadBundle | pkg/service/service.go:1141-1247 | success leaves exactly the row, the blob and the bytes; an error leaves nothing behind unless a rollback statement failed; the error is that of the first obstacle; the whole call is a run of the machine |
| SyncStore.Store.KeepNewest | pkg/service/service.go:1392-1408 | prune only when the tier was full; the pruned bytes are given back; a failed prune rolls the new snapshot back |
| SyncStore.Store.UploadSnapshot | pkg/service/service.go:1317-1422 | success stores the snapshot, soft-deletes exactly the pruned ones and returns exactly their bytes; every error is that of the first obstacle, with what it leaves behind |
| SyncStore.SnapshotsWithinTier | pkg/repository/repository.go:1040-1071 | after a stored snapshot no more than the tier's number stay live, and none that stayed is older than one that went |
| SyncStore.Store.PruneOldest | pkg/repository/repository.go:1040-1071 | the pruned snapshots are all live ones but the newest `keep`, and their rows are soft-deleted |
| SyncStore.Store.ReturnPruned | pkg/service/service.go:1403-1407 | giving back one by one gives back the sum of the pruned bytes; the first failing update ends the loop |
| SyncStore.Store.DeleteBundle | pkg/service/service.go:1281-1293 | only a live bundle is soft-deleted, its bytes are given back once, and a failing update is reported after the row is gone |
| SyncStore.Store.SoftDeleteAllByUser | pkg/repository/repository.go:827-841 | one statement soft-deletes every live object of the user and returns the sum of their bytes |
| SyncStore.Store.DeleteAll | pkg/service/account.go:355-369 | every live object of the user is soft-deleted at once and the sum of their bytes is given back in one update, if it is positive |
| SyncStore.Store.DeleteAccountData | pkg/service/account.go:355-388 | bundles then snapshots; on success no live row of the user is left |
| SyncStore.Store.ListDeletedBefore | pkg/repository/repository.go:788-804 | one page: at most 100 expired rows, oldest first, and nothing omitted is older |
| SyncStore.Store.ElectPurger | pkg/scheduler/scheduler.go:87-121 | the lock decides who purges; the loser changes nothing |
| SyncStore.Store.PurgeBatch | pkg/service/service.go:510-527 | blob before row: exactly the objects without a failure lose both, a failed blob delete leaves the row, and the report counts each object once |
| SyncStore.Store.PurgeExpired | pkg/service/service.go:502-527 | a purge run removes exactly the page but its failures, and releases the lock |
| Idempotency.FingerprintNeverChanges | pkg/repository/idempotency.go:49-102 | with no assumption on time a key keeps the fingerprint that claimed it first |
| Idempotency.OtherPayloadNeverStarts | pkg/repository/idempotency.go:72-77 | with no assumption on time a different fingerprint is refused for ever and never runs |
| Idempotency.StepInv | pkg/repository/idempotency.go:49-131 | a prompt step keeps locks exclusive and successes recorded |
| Idempotency.ExclusiveExecution | pkg/repository/idempotency.go:84-101 | in every prompt run at most one executor is at work for a key and at most one success is ever stored for it |
| Idempotency.ExclusiveExactlyWhenPrompt | pkg/repository/idempotency.go:84-131 | at every step of a run, no next call starts a second executor, and no later failure takes back a success, if and only if every executor was done when its lock ended |
| Idempotency.EffectOnceExactlyWhenMarked | pkg/service/idempotency.go:150-167 | in prompt runs no continuation repeats an execution that took effect if and only if no such execution died, failed to be marked or failed to be encoded |
| Idempotency.SuccessIsReplayedForever | pkg/service/idempotency.go:119-142 | after a success every later call with its fingerprint replays its status and body, every other fingerprint conflicts |
| Idempotency.InitHolds | pkg/repository/idempotency.go:140-163 | the empty store satisfies both invariants |
| Idempotency.LateMarkUndoesSuccess | pkg/repository/idempotency.go:122-131 | without prompt executors a late MarkFailed makes a succeeded key start again |
| Idempotency.ReplayRepeatsStatus | pkg/service/idempotency.go:127-131 | a replay repeats the first status exactly when that is not negative |
| Idempotency.IdempotencyRepo.Claim | pkg/repository/idempotency.go:49-102 | the claim answers by record, fingerprint, status and lock, and writes only when it starts |
| Idempotency.IdempotencyRepo.MarkSucceeded | pkg/repository/idempotency.go:105-118 | the mark stores status and body, an empty body as an empty object, and drops the lock |
| Idempotency.IdempotencyRepo.MarkFailed | pkg/repository/idempotency.go:122-131 | the mark drops the lock and makes the key claimable |
| Idempotency.ExecuteIdempotent | pkg/service/idempotency.go:75-168 | execution happens exactly for a started claim or without a key; an executed success is replayable at once; refusals return what the claim answered |
| Outbox.NotificationRetryDelay | pkg/service/notification.go:1087-1099 | the doubling loop yields min(2^(k-1), 60) minutes for every k, within 64 bits |
| Outbox.BackoffIsMonotone | pkg/service/notification.go:1087-1099 | later attempts never wait less, between one minute and one hour |
| Outbox.StepOrderly | pkg/repository/notification_outbox.go:65-270 | every step of workers and admins keeps claims exclusive and attempt counts within their bounds |
| Outbox.InitOrderly | pkg/repository/notification_outbox.go:39-63 | the empty outbox is orderly |
| Outbox.OneClaimant | pkg/repository/notification_outbox.go:65-93 | in every interleaving an item is in at most one claim, and claimed items are in processing |
| Outbox.AttemptBounds | pkg/service/notification.go:647-715 | pending implies at most 4 attempts, failed at least 5, and at most 5 automatic deliveries happen between two (re)queues |
| Outbox.SettledForever | pkg/repository/notification_outbox.go:184-270 | sent, discarded, and processing without a claimant never change again |
| Outbox.SettledExactly | pkg/repository/notification_outbox.go:65-270 | an item never changes again, whatever follows, if and only if it is sent, discarded, or in processing with no worker holding it |
| Outbox.StoppedWorkerLeavesBehind | pkg/service/notification.go:657-663 | a worker that stops after its claim leaves the item in processing with no claimant |
| Outbox.LeftBehindForever | pkg/service/notification.go:661-699 | what an early return leaves in processing is reached by no later step |
| Outbox.OutboxRepo.SelectDue | pkg/repository/notification_outbox.go:70-77 | the page is the due items, earliest first, up to the limit |
| Outbox.OutboxRepo.ClaimDue | pkg/repository/notification_outbox.go:65-93 | exactly the page goes to processing, and the worker holds it; a limit out of range means 50 |
| Outbox.OutboxRepo.ClaimFailed | pkg/repository/notification_outbox.go:154-182 | up to the limit of failed items go to processing; a limit out of range means 50 |
| Outbox.OutboxRepo.RequeueFailed | pkg/repository/notification_outbox.go:236-254 | only a failed item goes back to pending, with its attempts at zero |
| Outbox.OutboxRepo.MarkDiscarded | pkg/repository/notification_outbox.go:256-270 | only a failed item is discarded |
| Outbox.HandleClaim | pkg/service/notification.go:863-926 | one delivery and its mark: sent, retried with the backoff of the attempt, or failed; an error leaves the row as claimed |
| Outbox.ProcessOutbox | pkg/service/notification.go:647-715 | Claimed = Sent + Retried + Failed on a normal return; on an early return the difference is exactly the claims still in processing; each handled item is marked as its delivery ended, a retry is due after the backoff of its attempt, and no other item is touched |
| Outbox.RetryFailures | pkg/service/notification.go:753-783 | an admin retry takes a page of the clamped limit and never schedules another retry: all it retried is sent or failed |
| Erasure.ApplyInv | pkg/service/account_erasure.go:101-272 | every calm step keeps: one attempt per running job, what an attempt has cleared stays clear, completed jobs have nothing left that they clear; challenges are only used up, never deleted |
| Erasure.FreshInv | pkg/service/account_erasure.go:60-72 | a sound server with live accounts and no jobs satisfies the invariant |
| Erasure.CompletedMeansErased | pkg/service/account_erasure.go:188-262 | a completed job means no row of the user in the emptied tables, no usage row, no bundle or snapshot row, anonymized identifiers, no bundle blob, and no challenge that is not used up; rows of the spared tables may be left |
| Erasure.TablesComplete | pkg/service/account_erasure.go:136-186 | of the tables with rows of a user, those emptied are all but email verifications, password resets, device revocations, the notification outbox and its archive, and the audit log and its archive |
| Erasure.RetriesAreConfluent | pkg/service/account_erasure.go:60-99 | any two runs that complete a job, whatever failed and was purged in between, leave the same user data and the same challenges, all used up; they differ at most in when the open ones were |
| Erasure.RunShrinks | pkg/repository/passkey.go:205-216 | over any calm run no challenge row goes, one that was used up never changes, and nothing is added for a deleted user outside the spared tables |
| Erasure.ClosedForever | pkg/repository/account_erasure.go:96-133 | a completed job is never claimed again, and a running job without an attempt never leaves running |
| Erasure.ClosedExactly | pkg/repository/account_erasure.go:96-133 | no calm continuation moves a job if and only if it is completed, or running with no attempt at work on it |
| Erasure.DeadAttemptClosesJob | pkg/service/account_erasure.go:70-86 | an account requested, deleted and claimed in time whose attempt then dies ends in that state |
| Erasure.LateTombstoneBlocks | pkg/service/account_erasure.go:115-117 | a job whose user was tombstoned after its eligibility never completes |
| Erasure.ZeroGraceNeverCompletes | pkg/service/account.go:299-311 | without a grace period that is every job whose account deletion took any time |
| Erasure.LiveAccountsUntouched | pkg/service/account_erasure.go:101-117 | no step of any attempt touches an account that is not deleted |
| Erasure.ErasureStore.ListEligible | pkg/repository/account_erasure.go:52-72 | the page is the pending or failed jobs that are due, earliest first, at most 50 |
| Erasure.ErasureStore.MarkRunning | pkg/repository/account_erasure.go:96-115 | the guarded update claims a job exactly when it is pending or failed and due |
| Erasure.ErasureStore.ExpireChallengesByUser | pkg/repository/passkey.go:205-216 | every open challenge of the user is used up at the time of the pass and expires no later; no row goes |
| Erasure.CompleteErasureJob | pkg/service/account_erasure.go:101-272 | an undisturbed attempt completes exactly when no statement fails, the account was tombstoned in time and no metadata row is left; then everything it clears is clear, and in any case no challenge row goes and no row of the spared tables is touched |
| Erasure.RunErasureJobs | pkg/service/account_erasure.go:60-99 | one pass settles each listed job as its attempt ended, counts it once, and leaves the others alone |
| Restore.AppendLimited | pkg/service/ops.go:1596-1604 | the append keeps the first 50 |
| Restore.DiffsClean | pkg/service/ops.go:1417-1444 | no difference is found exactly when both sides map the same keys to the same sizes |
| Restore.CompareRestoreMetadata | pkg/service/ops.go:1417-1444 | the findings are the first 50 of all differences |
| Restore.VerifyRestoreObjects | pkg/service/ops.go:1360-1383 | the findings are the first 50 of all missing, changed or unreadable objects |
| Restore.FindRestoreOrphans | pkg/service/ops.go:1385-1415 | the findings are the first 50 of all strays and listing failures, bundles before snapshots; none for a truncated manifest |
| Restore.OrphansClean | pkg/service/ops.go:1385-1415 | no orphan finding exactly when both listings succeed and name nothing outside the manifest |
| Restore.RestoreOverall | pkg/service/ops.go:1656-1694 | unhealthy exactly for a grave finding, a failed artifact or a failed required check; OK exactly when all is clean |
| Restore.RestoreManifest | pkg/service/ops.go:1274-1315 | the manifest holds the first `limit` rows and is truncated exactly when there are more |
| Restore.RestoreRehearsal | pkg/service/ops.go:436-493 | both modes report the capped findings of their stages and the overall verdict about them |
| Restore.VerifyIsExact | pkg/service/ops.go:469-480 | with readable, untruncated metadata: zero findings exactly when manifest, metadata and storage agree and nothing else is listed |
| Restore.VerifyOkIsExact | pkg/service/ops.go:436-493 | the OK verdict is sound and complete for every state, caps and truncation included |
| Restore.CleanMeansSameMaps | pkg/service/ops.go:1385-1444 | with complete listings, zero findings means rows and stored objects are one map |
| Restore.BaselineThenVerify | pkg/service/ops.go:428-434 | the baseline of an intact state and a later verification against it are both clean |
| Restore.CapHidesListFailure | pkg/service/ops.go:1394-1411 | 50 stray bundles hide a failed snapshot listing from the verdict |
| Restore.CapKeepsGraveExactly | pkg/service/ops.go:1394-1411 | the orphan stage is grave exactly when a listing fails, and the cap loses that exactly when only the snapshot listing fails and there are 50 stray bundles |
| Restore.CapChangesVerifyExactly | pkg/service/ops.go:436-493 | the caps change the verdict of a verification exactly for readable metadata that agrees with storage, no failed required check and such a hidden failure; it then reads degraded instead of unhealthy |
| Restore.CapChangesBaselineExactly | pkg/service/ops.go:436-493 | the same for a baseline |
| RateLimit.UnixBucket | pkg/middleware/ratelimit.go:267-269 | dividing Unix seconds by window seconds is dividing time by the bucket width |
| RateLimit.MemoryLimiter.Allow | pkg/middleware/ratelimit.go:262-282 | the answer depends on the log of calls alone: the number of this key's calls in the current bucket |
| RateLimit.MemoryLimiter.Sweep | pkg/middleware/ratelimit.go:299-308 | evicting changes no later answer |
| RateLimit.RedisLimiter.Allow | pkg/middleware/ratelimit.go:324-341 | with its time to live the Redis counter gives the very answer of the limiter in memory |
| RateLimit.AnswerAdmits | pkg/middleware/ratelimit.go:193-209 | a call is answered yes exactly while the calls of its bucket are within the limit |
| RateLimit.BucketAdmits | pkg/middleware/ratelimit.go:193-209 | a bucket admits exactly min(calls, limit) |
| RateLimit.TwiceTheLimit | pkg/middleware/ratelimit.go:229-235 | no span of one window admits more than twice the limit, for windows at most a nanosecond longer than whole seconds |
| RateLimit.FractionalWindowBreaksTheBound | pkg/middleware/ratelimit.go:229-235 | every other window has a run with three admissions at limit one |
| RateLimit.RetryAfterReachesNextBucket | pkg/middleware/ratelimit.go:193-209 | RetryAfter is positive, overshoots the bucket by less than a second, and whoever waits it out is in a later bucket |
| RateLimit.DeniedUntilTheBucketEnds | pkg/middleware/ratelimit.go:193-209 | a denied key stays denied for the rest of its bucket |
| History.Cutoffs | pkg/service/operational_history.go:96-104 | cutoffs exist exactly for 0 < hot < archive retention and lie that far back |
| History.NeverInBoth | pkg/repository/operational_history.go:93-203 | no row id is ever in a hot table and its archive |
| History.RetentionKeepsRows | pkg/repository/operational_history.go:93-203 | archiving loses nothing, purging loses only rows older than its cutoff |
| History.YoungRowsSurvive | pkg/repository/operational_history.go:163-201 | over any run, stopped anywhere, a row leaves the two tables only when older than an archive cutoff |
| History.YoungAndOpenRowsStayHot | pkg/repository/operational_history.go:140-161 | rows younger than the hot cutoff and unsent or failed notifications never move |
| History.BacklogDrains | pkg/repository/operational_history.go:93-203 | with fixed cutoffs ceil(H/500) + ceil(C/500) runs empty the backlog, and then runs change nothing |
| History.OperationalHistoryRepo.ApplyRetention | pkg/repository/operational_history.go:93-203 | each statement that runs moves or deletes the oldest 500 of its backlog, counts are exact, a failure stops the run there |
| Export.TopOfTops | pkg/repository/operational_history.go:231-239 | the newest of the newest of two tables are the newest of their union |
| Export.Export | pkg/repository/operational_history.go:205-242 | the export is newest first, of length min(limit, matches), and omits nothing newer than what it returns, for every type of record and source; an unknown type is an error |
| UsageCache.StepTraced | pkg/repository/repository.go:1181-1245 | every step keeps cached and pending values traceable to a moment at which they were the row |
| UsageCache.AnswersAreBoundedStale | pkg/repository/repository.go:1222-1245 | in every interleaving with writers and bulk recalculation an answer was the row no longer ago than 30 seconds plus the slowest read-to-cache delay |
| UsageCache.InitTraced | pkg/repository/repository.go:1181-1190 | an empty cache in front of any row is traceable |
| UsageCache.InvalidationIsOvertaken | pkg/repository/repository.go:1194-1199 | a slow reader can cache the old row after the writer invalidated it |
| UsageCache.StepCoherent | pkg/repository/repository.go:1181-1245 | one step keeps what is served with no writer pending equal to the row, unless and only unless it is one of four named steps |
| UsageCache.CoherentExactlyUnlessOvertaken | pkg/repository/repository.go:1181-1245 | along every interleaving it is so at every step if and only if none of those steps occurs |
| UsageCache.CoherentIsWhatIsServed | pkg/repository/repository.go:1222-1245 | this is what callers see: every next lookup with no writer pending answers with the row or misses |
| UsageCache.QuotaRepo.GetUsage | pkg/repository/repository.go:1222-1245 | the answer is the current row exactly when the served cache is, or Redis is down |
| UsageCache.QuotaRepo.RecalculateAll | pkg/repository/repository.go:1472-1502 | the bulk statement changes the row and not the cache, which stays wrong until it expires |
| UsageCache.RunSequentially | pkg/repository/repository.go:1311-1339 | operations that do not overlap always answer with the current row |
| Migrations.Pending | pkg/migrate/migrate.go:140-148 | the loop computes the missing migrations |
| Migrations.MissingIsExact | pkg/migrate/migrate.go:140-148 | these are exactly the unapplied ones, in ascending order |
| Migrations.RollbackPlan | pkg/migrate/migrate.go:153-171 | the plan is the newest n applied versions in descending order, or an error exactly when one of them is undefined |
| Migrations.Database.Up | pkg/migrate/migrate.go:218-245 | the missing scripts run in order; a failure leaves a recorded prefix |
| Migrations.Database.Down | pkg/migrate/migrate.go:253-286 | the planned down scripts run in order; an undefined version changes nothing |
| Migrations.UpThenDown | pkg/migrate/migrate.go:218-286 | up, then down by as many, restores the tracking table exactly when everything pending is newer than everything applied, and then the schema too |
| MigrationStatus.BuildStatus | pkg/migrate/status.go:104-150 | Pending and RollbackAvailable partition the embedded migrations; consistent exactly when every applied row is embedded under its name |
| MigrationStatus.RollbackAvailableRefs | pkg/migrate/status.go:216-230 | the applied versions that the binary defines, newest first |
| MigrationFiles.Parse | pkg/migrate/migrate.go:39-107 | parsing succeeds exactly on directories with readable names, one name per version and one file per direction, and returns their migrations in ascending order |
| MigrationFiles.Create | pkg/migrate/migrate.go:291-314 | the two files parse back to the sanitized name and one version, above all others exactly when the largest 64-bit version is not taken; the directory stays readable exactly unless both the largest and the smallest are taken and a file is not overwritten; after a failed second write exactly if the first overwrote |
| MigrationFiles.TwoWritesExactly | pkg/migrate/migrate.go:308-313 | adding the files of a version to a readable directory leaves it readable exactly if the version is new or both files are overwritten |
| MigrationFiles.OneWriteExactly | pkg/migrate/migrate.go:308-313 | adding the first file alone does exactly if it is overwritten |
| MigrationNames.SanitizeName | pkg/migrate/migrate.go:190-210 | the builder loop computes the sanitized name, or an error when nothing is left |
| MigrationNames.SanitizedIsSnake | pkg/migrate/migrate.go:190-210 | groups of letters and digits joined by single underscores |
| MigrationNames.SanitizeIsIdempotent | pkg/migrate/migrate.go:190-210 | sanitizing again changes nothing |
| MigrationNames.SanitizeKeepsWords | pkg/migrate/migrate.go:190-210 | no letter or digit is lost or moved; a name is refused exactly when there is none |
| MigrationNames.VersionRoundTrip | pkg/migrate/migrate.go:185-187 | every 64-bit version survives formatting and parsing |
| MigrationNames.FileNameRoundTrip | pkg/migrate/migrate.go:111-136 | version, name and direction survive the file name |
| MigrationNames.NextVersionIsFresh | pkg/migrate/migrate.go:174-182 | the next version is above all others exactly when the largest 64-bit integer is not taken |
| MigrationNames.NextVersionIsTaken | pkg/migrate/migrate.go:174-182 | the next version is in use exactly when both the largest and the smallest 64-bit integer are |
| MigrationNames.CreateNames | pkg/migrate/migrate.go:291-302 | the two names parse back to the fresh version and the sanitized name |
| OptionFile.SplitLines | pkg/config/option.go:131-148 | the index loop splits at newlines and drops one carriage return |
| OptionFile.TrimSpace | pkg/config/option.go:150-159 | the loops trim blanks and tabs at both ends |
| OptionFile.FindColon | pkg/config/option.go:161-168 | the first colon, or -1 |
| OptionFile.ReadOptions | pkg/config/option.go:85-113 | loading assigns line after line and stops at the first malformed one with its number |
| OptionFile.RoundTripIsExact | pkg/config/option.go:85-128 | for every order of iteration, loading what was written gives back the map exactly when all keys and values are storable |
| OptionFile.FileOptionStore.Flush | pkg/config/option.go:116-128 | the file is the text of the map in some order |
| OptionFile.FileOptionStore.Set | pkg/config/option.go:66-71 | the map is updated even if writing fails; the written file loads back exactly for storable maps |
| OptionFile.SetAllThenRestart | pkg/config/option.go:48-71 | any run of storable Set calls, from the first start without a file on, survives a restart |
| Redaction.RedactAssignment | pkg/service/notification.go:1151-1177 | the loop ends, the message shrinking by at least the key, and computes the redaction |
| Redaction.RedactIsIdempotent | pkg/provider/notification_webhook.go:220-246 | redacting one key twice is redacting it once |
| Redaction.RedactKeeps | pkg/provider/notification_webhook.go:220-246 | redacting one key keeps every other key's values redacted |
| Redaction.AllKeysAreRedacted | pkg/service/notification.go:1140-1149 | after the fold, in any order, every occurrence of every key is followed by the mark and nothing else of a value |
| Redaction.RedactAllIsIdempotent | pkg/service/notification.go:1140-1149 | folding again, in any order, changes nothing |
| Redaction.RedactSecretAssignments | pkg/service/notification.go:1140-1149 | the sixteen assignment keys are all redacted in the result |
| Redaction.RedactSensitiveQueryLikeText | pkg/provider/notification_webhook.go:213-218 | the four query keys are all redacted in the result |

## Left out

- Counters of objects: `bundle_count` and `snap_count` are not modelled; account deletion lowers them by one for all bundles, so only bytes balance.
- Reservation hook: uploads are modelled with no hook configured; with one, the counters belong to a provider that is not part of this model.
- Integer width: sizes and counters are unbounded; only durations and migration versions have 64 bits.
- SyncStore.Store.UploadSnapshot: when a give-back after the prune fails, states the rows but not how many bytes were already given back; the code returns at the first failure, in the order of the rows it read.
- Notifications: what is delivered, over which channel and to whom; a delivery only succeeds or fails. The order in which failed items are claimed by an admin is free.
- Single-item admin retry: it claims one failed item by id, which is the batch claim of length one.
- Outbox.OutboxRepo.ClaimDue: leaves ties of the retry time in any order, where the query breaks them by creation time.
- Erasure.RetriesAreConfluent: leaves open when each challenge was used up and when it expires, as these keep the clock of the first attempt, or of the account deletion, that reached it.
- Erasure.CompletedMeansErased: promises nothing about the spared tables - email_verifications, password_resets, device_revocations, notification_outbox, audit_logs and the two archives - as no statement of an attempt removes rows from them; nor about texts that mention the user inside other rows.
- Erasure: the audit records an attempt adds, certificate counts and the reporter's retained items; a reporter only succeeds or fails. All repositories are configured.
- Idempotency: expiry of records, as nothing deletes them, and the error texts. The decoding of a stored body is taken to succeed.
- Restore: stores are configured; dependency checks enter as given statuses; object ids, texts and recommendations are left out. Counting and listing rows see the same state.
- RateLimit.RedisLimiter.Allow: a failed pipeline counts nothing, and Redis and the server share one clock.
- UsageCache: one user; keys of different users do not interact.
- Migrations: the search for a free tracking table, schema drift checks, and scripts that leave effects of a failed statement other than those of the script function.
- MigrationNames: case folding and white space beyond what the names need.
- MigrationFiles.Create: a failing write leaves the file as it was, where the system could leave it cut short; the templates are given scripts.
- OptionFile: locks, directories and partial writes.
- Redaction: URL parsing, Unicode case folding, white space normalization and the cut at 240 bytes.
- Handlers, routing, billing, authentication, metrics, logging and configuration checks: no invariant of their own.
