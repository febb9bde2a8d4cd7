# AIStat verification model

A Dafny 4.11 model of the parts of AIStat whose correctness does not show in any single
function: the token handoff between the public host and the trusted worker, the crash-atomic
installation of tenant snapshots, the attribution arithmetic behind the efficiency reports, the
restart limiter, the compensating transactions of the installer and the restore command, the
collector's credential fence, idle-fleet accounting, and record/replay of a poll cycle.

`dafny verify dfyconfig.toml` checks everything.

## What is modelled

| file | system part |
|---|---|
| `HandoffHost.dfy`, `WorkerStore.dfy` | the host's connection table and the worker's epoch-fenced store, operation by operation |
| `HandoffSystem.dfy`, `HandoffInvariant.dfy`, `HandoffTheorems.dfy`, `HandoffDelivery.dfy` | both sides with a network that delays, duplicates, reorders and drops; the inductive invariant; what holds in every run; when a token is delivered and when it is given up |
| `Admission.dfy` | request nonces and the submission throttle |
| `Freshness.dfy` | the verdict that lets an upload replace a tenant database |
| `SnapshotInstall.dfy`, `SnapshotFiles.dfy`, `SnapshotRuns.dfy` | journal, swap, commit and recovery as scripts of durable effects that a crash may cut anywhere; the files they leave; runs of them |
| `Sums.dfy` | exact sums, dictionaries of running totals, and the lemma that grouping conserves |
| `Attribution.dfy`, `AttributionLoops.dfy`, `DailySplit.dfy` | `daily_shares`: one usage row split over agents and projects; what the split means, second by second |
| `Efficiency.dfy`, `EfficiencyChart.dfy`, `EfficiencyBreakdown.dfy`, `EfficiencyReport.dfy`, `EfficiencyAgreement.dfy` | the run selection, the chart, the breakdown, and their agreement |
| `ChartSeconds.dfy`, `EfficiencyCost.dfy`, `EfficiencyParts.dfy`, `EfficiencyIssues.dfy` | what each row and figure of chart and breakdown says, from the runs, the issues and the rates alone |
| `Supervisor.dfy` | restart window and backoff |
| `RuntimeRollback.dfy`, `RuntimeVerdicts.dfy` | code generations under install and rollback; when a health gate accepts and a rollback gets through |
| `Restore.dfy` | multi-file restore and its compensation |
| `CollectorSystem.dfy`, `CollectorTheorems.dfy`, `CollectorRun.dfy` | collection attempts interleaved with credential changes |
| `IdleFleet.dfy` | idle-fleet share |
| `PollCycle.dfy`, `CycleCommands.dfy`, `Replay.dfy`, `PollerRun.dfy` | the adaptive command sequence, what it asks and why, recorded and replayed |

Conventions. Objects whose methods update fields are classes, and each method is tied to a
specification function of the old state; the theorems are about those functions. Every
`BEGIN IMMEDIATE ... commit` is one atomic step. Time is in whole seconds; tokens, cost, shares
and story points are exact reals, before any rounding. `sha256` is taken to be injective, so a
digest is identified with the content it names. What the outside world does, which calls raise,
before or after their effect, and what others do meanwhile, is a parameter of each operation, so
that its outcome can be stated exactly and theorems can range over all of it. A process that dies
keeps a prefix of its durable effects in program order.

## Where the code and its documentation part ways

- `aistat/supervisor.py` promises to fail fast on a crash loop. With the default constants the
  backoffs 2 + 4 + 8 + 16 + 30 fill the 60 s window exactly, so the limiter can fire only if no
  time at all passes between monitoring passes (`Supervisor.DefaultsFireOnlyWithoutPauses`).
- The crash-atomic install holds when recovery has run before the ingest. Without it an upload
  ends with a matching file and watermark, wherever it and the recoveries after it die, if and only
  if no earlier install sits between its swap and its commit
  (`SnapshotRuns.SessionsEndConsistentExactlyWhen`); otherwise a later upload can make the mixed pair
  permanent, and recovering afterwards is too late (`SnapshotRuns.RecoveringAfterwardsHelpsExactlyWhen`).
- The 500 answer of `_ingest` for a watermark that did not advance cannot be reached while the
  ingest lock is held: `SnapshotInstall.Host.Ingest` answers `Failed` only if the process dies.
- `min(1.0, share / total)` in `_run_filter_selection` never changes its argument
  (`Efficiency.FractionIsAShare`).
- The health gate of `rollback` compares process ids, and an id read too early does not identify the
  supervisor that is replaced. A verdict is the new generation's own, whatever happens, if and only
  if the status on disk would be rejected or is its own and the supervisor about to be replaced is
  absent, is the process whose id was read, or is of the same generation
  (`RuntimeRollback.VerdictIsOwnExactlyWhen`). For a rollback that is accepted this means that the
  running supervisor has reported and its status can be read
  (`RuntimeRollback.RollbackIsProvenExactlyWhen`). For a generation that is put back it cannot be
  known before the command unless both generations are the same: the rejected target may be loaded,
  unreported, and report just before its bootout (`RuntimeRollback.RestoredIsProvenExactlyWhen`,
  `RuntimeRollback.RejectedReportsLate`). A supervisor that is stopped gracefully writes a stopping
  status last, so this takes one that is killed or crashes after its healthy report.
- The chart credits a model row only to a non-empty model name, the breakdown keeps a row for the empty
  one too. Nothing refuses an empty name when an agent is stored, and then the two disagree about that
  model (`EfficiencyAgreement.NamelessAgreesExactlyWhen`).
- `restore_backup` refuses equal targets only. Every member can be left in place with its old bytes in
  `.pre-restore` and no sidecar if and only if no target is another one's `.pre-restore`, `-wal` or
  `-shm` path (`Restore.PromiseCanBeKeptExactlyWhen`). Tenant databases never are, so it takes a
  configured store whose name does not end in `.db` (`Restore.OnlyStoresOverlap`).

## Model

| member | source | states |
|---|---|---|
| `HandoffTheorems.RevokedMeansErased` | aistat/handoff.py:761-802 | In every run, a connection that is `revoked` has no worker copy, every token message in flight for that user is of an older epoch, and handling any of them changes nothing |
| `HandoffTheorems.RevocationIsFinal` | aistat/security.py:909-956 | From `revoked` at epoch e, or from a deleted account, whatever the worker holds after any later deliveries was submitted by the owner since, at a newer epoch; once the account is deleted, tombstone row or not, the worker never holds anything again and the id never names an account again |
| `HandoffTheorems.TokenCustody` | aistat/handoff.py:440-502 | The host token is present exactly in `pending` and `replacement_pending`, and `active` or `error` at epoch e means the worker holds, as current, the token submitted at e |
| `HandoffTheorems.WorkerHoldsOnlySubmissions` | aistat/worker_sync.py:117-170 | Whatever the worker holds was submitted by that user at exactly that epoch, for the official server, and the host still has the row |
| `HandoffTheorems.SubmissionsAreStable` | aistat/handoff.py:440-502 | An epoch names at most one token: the submission recorded for it never changes |
| `HandoffTheorems.EpochsNeverDecrease` | aistat/handoff.py:505-539 | Over any continuation of a run the epoch of a row does not decrease, or the row is gone for good with its account |
| `HandoffTheorems.AtMostOneStoredAck` | aistat/handoff.py:708-758 | For each user and epoch at most one stored-ack is accepted in a run |
| `HandoffTheorems.StoredAckAnswersTheLatestPull` | aistat/handoff.py:617-758 | An accepted stored-ack carries the lease of the most recent pull and arrives before that lease expires |
| `HandoffTheorems.StoreNeverConflicts` | aistat/worker_store.py:285-301 | The store's conflicting-data error cannot occur for a message that is in flight |
| `HandoffTheorems.PurgeListIsComplete` | aistat/handoff.py:617-705 | A row in `revocation_pending` is on the purge list of the very next pull, at its current epoch |
| `HandoffTheorems.PullOnceIsARun` | aistat/worker_sync.py:107-186 | A whole pull cycle, cut short or not, leaves the worker where delivering its entries one by one leaves it, and prepares only acks that the system sends |
| `HandoffInvariant.RunKeeps` | aistat/handoff.py:216-243 | The invariant tying host epoch, worker epoch and every message in flight survives every sequence of steps, including the TTL sweep and the erasure of poisoned rows |
| `HandoffDelivery.QuietSubmissionWaits` | aistat/handoff.py:440-502 | After an accepted submission at t the row keeps waiting, for the official server, through any run without a later submission, disconnect, deletion or poisoned address of that user, without an accepted ack, and without a pull or status view once its time is up |
| `HandoffDelivery.SubmissionIsKept` | aistat/handoff.py:440-502 | In every run, while the row waits at the epoch of a submission it holds exactly that token and workspace, untouched since the time of that submission, whatever the age of the connection |
| `HandoffDelivery.FreshTokenIsDelivered` | aistat/handoff.py:617-705 | If the row still waits, every pull before t + ttl answers with exactly that token at that epoch under the new lease, sends it, and changes nothing of the row but address and lease |
| `HandoffDelivery.FreshTokenIsShown` | aistat/handoff.py:216-243 | A status view before t + ttl leaves the row as it is |
| `HandoffDelivery.StaleTokenIsGivenUp` | aistat/handoff.py:216-243 | From t + ttl on every pull and every status view leaves the row without a token, in `revocation_pending`, one epoch further; the pull hands nothing over and asks for the deletion at the new epoch |
| `HandoffDelivery.SettledRowsStay` | aistat/handoff.py:216-243 | A row that does not wait for a pull is moved by neither, however old it is |
| `HandoffDelivery.HandoffCompletes` | aistat/worker_sync.py:107-186 | From every run that leaves a fresh submission waiting: pull, delivery and its ack within the lease end with the row active at that epoch, no token on the host and that token at the worker |
| `HandoffDelivery.RevocationCompletes` | aistat/handoff.py:761-802 | From every run that leaves a row waiting for deletion: pull, delivery and its ack end with the row revoked and nothing at the worker |
| `HandoffDelivery.ReportIsRecorded` | aistat/handoff.py:805-850 | A sync report at the current epoch makes the row active with its time and no error if it reports success, and failing with its error and the earlier time otherwise; epoch and token stay |
| `HandoffDelivery.SubmissionTakenExactlyWhen` | aistat/handoff.py:440-502 | Taken exactly for an existing account and the official server; then the row waits one epoch on with the new token, as a replacement exactly when there was a row, without lease, ack or error, its age kept; refused, nothing changes |
| `HandoffDelivery.DisconnectTakenExactlyWhen` | aistat/handoff.py:505-539 | Parks the row one epoch on exactly when it is not being revoked already, and otherwise changes nothing |
| `HandoffDelivery.StoredAckTakenExactlyWhen` | aistat/handoff.py:708-758 | Taken exactly under the live lease of the epoch that waits, and otherwise changes nothing |
| `HandoffDelivery.RevokedAckTakenExactlyWhen` | aistat/handoff.py:761-802 | Taken exactly at the epoch of a row that waits for deletion or has seen it, and otherwise changes nothing |
| `HandoffDelivery.ReportTakenExactlyWhen` | aistat/handoff.py:805-850 | Taken exactly at the epoch of an active or failing row, and otherwise changes nothing |
| `HandoffDelivery.PoisonedRowIsGivenUp` | aistat/handoff.py:617-705 | A pull gives up a waiting row that names another server, at any age |
| `HandoffHost.PendingItemsExact` | aistat/handoff.py:617-705 | The pull answers with exactly the leasable rows that hold a token for the official server, each under the lease just granted |
| `HandoffHost.RevokedItemsExact` | aistat/handoff.py:617-705 | The purge list holds exactly the rows that wait for the worker's deletion |
| `HandoffHost.PurgedOneByOne` | aistat/handoff.py:216-243 | Selecting the expired rows and updating them one after another is the sweep of the whole table; which rows those are, and what becomes of them, is `HandoffDelivery.StaleTokenIsGivenUp`, `HandoffDelivery.FreshTokenIsShown` and `HandoffDelivery.SettledRowsStay` |
| `HandoffHost.SecurityDb.SubmitConnection` | aistat/handoff.py:440-502 | The new table is the one the protocol model submits into: next epoch, fresh token, lease and acknowledgements cleared |
| `HandoffHost.SecurityDb.RevokeConnection` | aistat/handoff.py:505-539 | The new table is that of the protocol model's revoke, and the result says whether a row existed |
| `HandoffHost.SecurityDb.LeasePendingConnections` | aistat/handoff.py:617-705 | Heartbeat, sweep, leases and both answer lists in one step equal to the protocol model's pull, the one whose answers and sweep `HandoffDelivery.FreshTokenIsDelivered` and `HandoffDelivery.StaleTokenIsGivenUp` describe |
| `HandoffHost.SecurityDb.AckConnectionStored` | aistat/handoff.py:708-758 | The row becomes active, and its plaintext erased, exactly for the live lease of the current epoch |
| `HandoffHost.SecurityDb.AckConnectionRevoked` | aistat/handoff.py:761-802 | The row becomes revoked exactly for the epoch that waits for deletion |
| `HandoffHost.SecurityDb.RecordConnectionSync` | aistat/handoff.py:805-850 | A sync report moves the row between active and error exactly at its current epoch in one of these two states |
| `HandoffHost.SecurityDb.DeleteAccount` | aistat/security.py:860-956 | The account disappears, and its connection row stays behind until the worker has confirmed the deletion |
| `WorkerStore.WorkerTokenStore.Store` | aistat/worker_store.py:244-317 | The versioned store: stale epochs and tombstones refused, equal epochs idempotent, newer ones replacing row and watermark together |
| `WorkerStore.WorkerTokenStore.Delete` | aistat/worker_store.py:319-369 | Deletion of a newer epoch leaves a tombstone; of an equal epoch it succeeds only on a tombstone; of an older one never |
| `WorkerStore.WorkerTokenStore.PullOnce` | aistat/worker_sync.py:107-170 | The loops over both answer lists leave the store, the acks and the failures of the specified cycle, malformed entries included |
| `Admission.NonceSingleUse` | aistat/handoff.py:286-318 | Two requests with the same timestamp and nonce are never both accepted while the lag between check and consumption stays below the maximum age |
| `Admission.SingleUseExactly` | aistat/handoff.py:593-614 | That bound is exact: single use holds for a lag if and only if the lag is below the maximum age, which is what the factor 3 of the purge horizon buys |
| `Admission.AtMostNineteen` | aistat/handoff.py:542-590 | With a monotone clock no half-open interval of 900 s sees more than 19 granted submissions |
| `Admission.NineteenIsReached` | aistat/handoff.py:542-590 | The bound is reached |
| `Admission.RetryAfterIsExact` | aistat/handoff.py:558-580 | A rejection returns a delay in 1..900, changes nothing, every earlier attempt is rejected with the remaining delay, and the attempt after exactly that delay is granted |
| `Admission.AdmissionTables.ConsumeWorkerNonce` | aistat/handoff.py:593-614 | Purge and insert as specified; a rejected nonce leaves the table as it was |
| `Admission.AdmissionTables.ReserveConnectionSubmission` | aistat/handoff.py:542-590 | One user's window moves as specified and nobody else's moves |
| `Freshness.FreshnessReport` | aistat/snapshot.py:389-476 | Accepts exactly when the incoming file is readable and the target is absent or readable and dominated row by row; each reason is given exactly when it applies: nothing incoming over rows, some day of the target after every incoming day, lost rows, lowered counters; the empty and older-day checks reject nothing else |
| `Freshness.DailyUsageState` | aistat/snapshot.py:341-386 | The loop over the table yields the usage it denotes, or unreadable from the first bad or repeated row on |
| `Freshness.SafetyIsTransitive` | aistat/snapshot.py:389-476 | What may replace b, once b may replace a, may replace a |
| `Freshness.LatestIsTheLastDay` | aistat/snapshot.py:341-386 | In a readable table the reported latest day is the day of some row and no row is later |
| `Freshness.ReadableExactlyWhen` | aistat/snapshot.py:341-386 | A table can be read exactly when no row of it has a date, or all rows have three texts and four whole counters not below zero and no two are about the same runtime, model and date |
| `Freshness.SafeExactlyWhen` | aistat/snapshot.py:389-476 | Accepting is exactly this, row by row: incoming readable, and the target absent, or readable and without dates, or each of its rows is still there with none of its four counters smaller |
| `SnapshotRuns.CrashAtomicInstall` | aistat/snapshot_recovery.py:148-321 | If no row of the tenant is pending when an ingest of it starts, whatever else the journal holds: after an ingest cut off anywhere and any number of recoveries cut off anywhere, as soon as a process is up that has lived through them or completed a recovery, old file with old watermark or new file with new watermark; nobody else's session, however it ends, moves this tenant |
| `SnapshotRuns.JournalIsEmptied` | aistat/snapshot_recovery.py:272-321 | A session that ends with a completed recovery, from any state, leaves no journal row with a canonical id |
| `SnapshotRuns.RecoveryLeavesNoRow` | aistat/snapshot_recovery.py:272-321 | From any state a recovery that runs to its end leaves only rows that were there before and whose id is not canonical |
| `SnapshotRuns.CleanStaysClean` | aistat/legacy_wsgi.py:2143 | Where nothing at all was pending, a completed session leaves the journal empty and the same tenants, and recovering after it does nothing |
| `SnapshotRuns.RecoveryIsIdempotent` | aistat/snapshot_recovery.py:272-321 | After a recovery that ran to its end, from any state, running it again changes nothing and counts nothing |
| `SnapshotRuns.AbortIsCleanExactlyWhen` | aistat/legacy_wsgi.py:1592-1619 | One upload that fails at its swap, without a recovery first, leaves a matching file and watermark if and only if no earlier install sat between swap and commit |
| `SnapshotRuns.SessionsEndConsistentExactlyWhen` | aistat/snapshot_recovery.py:192-211 | From any state a crashed install may leave: every upload of the tenant ends with a matching pair, at whatever point it and the recoveries after it die, if and only if the earlier install is not between swap and commit. Between swap and commit the pair is already mixed, so an upload that does nothing shows that half; what is proved is that otherwise no upload can mix it |
| `SnapshotRuns.RecoveringAfterwardsHelpsExactlyWhen` | aistat/legacy_wsgi.py:2143 | The same for uploads that are followed by a completed recovery: running it after the upload instead of before does not repair the pair |
| `SnapshotRuns.PairIsLost` | aistat/snapshot_recovery.py:192-211 | The failing family: an upload after which a completed recovery finds a mixed pair and no journal row, from every such state |
| `SnapshotRuns.MixedPairWithoutRecovery` | aistat/snapshot_recovery.py:179-211 | The failing family, for every tenant: after a death between swap and commit, a second ingest aborting at its swap leaves the new file with the old watermark and no journal row |
| `SnapshotRuns.DiesBeforeCommit` | aistat/snapshot_recovery.py:148-176 | Dying right after the rename leaves the new file in place with its journal row pending |
| `SnapshotRuns.UsageNeverGoesBack` | aistat/legacy_wsgi.py:1565-1619 | Over any run of uploads by processes that live on, crash and recover, in which the tenant's own sessions complete while those of others may die for good, no usage row of the tenant disappears or shrinks, every change of its file comes with a strictly later watermark, and nothing of it is pending at the end |
| `SnapshotInstall.Host.Ingest` | aistat/legacy_wsgi.py:1565-1619 | Performs, effect by effect, the specified script, and answers with the specified verdict unless the process dies; what that leaves on disk is `SnapshotFiles.IngestReplacesCleanly` and `SnapshotFiles.UploadIsInstalledExactlyWhen` |
| `SnapshotInstall.Host.RecoverPendingInstalls` | aistat/snapshot_recovery.py:272-321 | The loop over the journal performs the specified reconciliation of every row and counts it |
| `SnapshotInstall.Host.SwapStagedIntoPlace` | aistat/snapshot_recovery.py:148-176 | Copy aside, drop sidecars, rename, in that order, with a failure possible at each. A success the process lives through leaves the staged bytes served, the old ones in `.previous` if there were any, no sidecar, no staged file and nothing else changed; a failure changes at most the copy and the sidecars |
| `SnapshotFiles.SwapReplacesCleanly` | aistat/snapshot_recovery.py:148-176 | Wherever a swap dies or fails: the served file is the old one, or it is the staged one, both sidecars are gone and the old file is in `.previous` |
| `SnapshotFiles.IngestReplacesCleanly` | aistat/legacy_wsgi.py:1565-1619 | The same over every crash point of a whole ingest, for the uploaded content |
| `SnapshotFiles.RecoveryReplacesCleanly` | aistat/snapshot_recovery.py:272-321 | The same over every crash point of the recovery of a row, for the content its journal row names |
| `SnapshotFiles.UploadIsInstalledExactlyWhen` | aistat/legacy_wsgi.py:1565-1619 | An ingest that is lived through, with no row pending, leaves upload and new watermark exactly when the timestamp is newer, staging worked, the freshness verdict accepts and no call before the rename failed, else both as they were; no row is pending afterwards |
| `SnapshotFiles.RecoveryFinishesExactlyWhen` | aistat/snapshot_recovery.py:272-321 | A recovery that lives through a row leaves the new pair exactly when the new file is already served, or its staged copy is intact and no call before the rename failed, else the old pair |
| `Attribution.WholeDayConserves` | aistat/aggregates.py:200-210 | For every usage row the emitted weights add up to 1 through the duration, count and equal fallbacks and the dropped zero weights |
| `Attribution.WholeDayIsFlat` | aistat/aggregates.py:551-586 | Whenever any dated run overlaps the day, the two-level agent times project product gives each slot exactly its seconds over the day's seconds |
| `Attribution.ClockRangeGives` | aistat/aggregates.py:536-548 | A clock range gives each slot that passes the filters its seconds in the range over the seconds of the entire day, and every other slot nothing |
| `Attribution.ClockRangesAdd` | aistat/aggregates.py:499-548 | The share of [a, c) is the share of [a, b) plus that of [b, c), slot by slot |
| `Attribution.TilesMakeTheDay` | aistat/aggregates.py:487-586 | Clock ranges that tile the day hand out to each slot what the whole-day branch hands out |
| `AttributionLoops.SplitRow` | aistat/aggregates.py:487-586 | The loops over runs, counts, agents and projects emit exactly the specified shares, in order; what each slot gets of every kind of day is `DailySplit.DatedDayGives`, `DailySplit.UndatedDayGives` and `DailySplit.ClockRangeGivesSeconds` |
| `DailySplit.DatedDayGives` | aistat/aggregates.py:512-586 | On a day that some matching run covers, each slot is given the seconds of the day at which its runs were running over those of all matching runs, counted one by one from start and end |
| `DailySplit.UndatedDayGives` | aistat/aggregates.py:521-586 | On a day that no matching run covers, a slot is given the number of its matching runs whose one known timestamp lies in the day over the number of all such runs; when there are none, every candidate gets an equal part and no project |
| `DailySplit.ClockRangeGivesSeconds` | aistat/aggregates.py:530-548 | A clock range gives a slot that passes the filters its running seconds in the range over those of the day, and on a day that no run covers nothing to anybody |
| `DailySplit.DatedOrNot` | aistat/aggregates.py:521-535 | No day is in between: the running seconds of the matching runs add up to zero exactly when none of them covers a second of the day |
| `DailySplit.SharesAreHonest` | aistat/aggregates.py:462-484 | Every share weighs something, names a candidate whenever there is one, and is marked as estimated exactly when the row has no candidate or several |
| `AttributionLoops.Weights` | aistat/aggregates.py:200-210 | One weight per key: durations if any, else counts, else equal |
| `Efficiency.RunFilterSelection` | aistat/aggregates.py:314-398 | Selects exactly the issues with selected overlap, each with the fraction of its dated seconds and its per-model days and run counts |
| `Efficiency.FractionIsAShare` | aistat/aggregates.py:390-397 | Every fraction lies in [0, 1] and is positive exactly when some overlap is selected |
| `Efficiency.HoursAreTheOverlap` | aistat/aggregates.py:370-380 | The hours of an issue's selected models are exactly its selected overlap: the share is applied once |
| `Efficiency.CutIsSeconds` | aistat/aggregates.py:360-370 | What the selection takes of a run is the number of seconds at which it was running, inside the window, with its agent and its model among the chosen ones |
| `Efficiency.FractionIsSeconds` | aistat/aggregates.py:390-397 | The fraction of an issue is its selected seconds over all the seconds of its dated runs |
| `Efficiency.UsesAreSeconds` | aistat/aggregates.py:376-380 | Each model of a selected issue carries its selected seconds in days and the number of its runs that have any |
| `Efficiency.UsedExactlyWhen` | aistat/aggregates.py:376-380 | A model has an entry exactly when some run of the issue with that model has a selected second |
| `EfficiencyChart.Chart` | aistat/aggregates.py:1158-1308 | Under any filter the unrounded time rows add up to the issues' tokens and story points taken at their fractions; hours exactly for a bounded window of at most 48 hours, days otherwise; a row for exactly the aligned buckets the window touches, each with exactly the poured pieces; agent and model rows hold exactly their segments, and a model with an empty name has no row |
| `EfficiencyChart.PourSegment` | aistat/aggregates.py:1292-1307 | The bucket of every cursor position exists, the loop ends, and every bucket receives exactly its piece of the segment |
| `EfficiencyChart.PiecesCover` | aistat/aggregates.py:1292-1307 | The pieces of a segment on the buckets that cover it add up to the whole segment |
| `EfficiencyChart.BucketsConserve` | aistat/aggregates.py:1285-1308 | Covering buckets hold all tokens and story points of the segments, no more and no less |
| `EfficiencyChart.SegmentsCarryTheFractions` | aistat/aggregates.py:1235-1280 | The chart's segments carry, issue by issue, the fraction the selection computes |
| `ChartSeconds.TimeRowIs` | aistat/aggregates.py:1235-1308 | A time row holds, over all issues, the issue's tokens and story points times its selected seconds between the start and the end of the row over all the seconds of its runs |
| `ChartSeconds.AgentRowIs` | aistat/aggregates.py:1265-1271 | The same for the row of an agent with a name and the selected seconds of its runs |
| `ChartSeconds.ModelRowIs` | aistat/aggregates.py:1272-1280 | The same for the row of a model with a name and the selected seconds of its runs |
| `EfficiencyAgreement.Compare` | aistat/aggregates.py:1391-1464 | Runs the selection, the chart and the breakdown of one filter. With a run-level filter the chart's unrounded time rows, the sum of fractions times issue totals and the breakdown are equal, in total and for every model that has a name, and for the empty name exactly when no selected run has it; without one the breakdown exceeds the chart by exactly the issues with no usable dated run; the report's model and lane rows add up to its totals, and its cost is that of `EfficiencyCost.ReportCosts` |
| `EfficiencyAgreement.ReportIsTheSelection` | aistat/aggregates.py:1451-1464 | Under a run-level filter the breakdown's tokens and story points are the sum of fractions times issue totals |
| `EfficiencyAgreement.EntriesAreMeasured` | aistat/aggregates.py:878-900 | No duration or count that the selection or the lifetime statistics compute is negative, which the conservation of the groupings needs |
| `EfficiencyAgreement.ModelRowsAgree` | aistat/aggregates.py:1264-1280 | Under any run-level filter the chart's row of a model with a name and the breakdown's row of that model carry the same tokens and story points |
| `EfficiencyAgreement.NamelessAgreesExactlyWhen` | aistat/aggregates.py:1272-1280 | For the empty model name the chart has no row; on issues with story points the two agree there if and only if no selected run has that name |
| `EfficiencyBreakdown.ModelsConserve` | aistat/aggregates.py:1483-1520 | Per-model story points, each kind of token and active hours add up to those of the attributable issues, per-model cost to the cost of all shares |
| `EfficiencyBreakdown.LanesConserve` | aistat/aggregates.py:1526-1538 | Per-lane story points and cost add up to the same totals |
| `EfficiencyBreakdown.CostPointsExactly` | aistat/aggregates.py:1510-1514 | `cost_story_points` is the story points of the priced shares, at most the attributable ones, and equal to them exactly when no share is unpriced |
| `EfficiencyBreakdown.ZeroWeightAffectsNothing` | aistat/aggregates.py:1483-1489 | Removing the models of zero weight from an issue leaves its shares and closed figures unchanged |
| `EfficiencyBreakdown.ModelRowIs` | aistat/aggregates.py:1488-1520 | Every column of a model's row is the sum over the shares of that model and of no other |
| `EfficiencyReport.Breakdown` | aistat/aggregates.py:1451-1538 | The nested loops leave a report each of whose figures is the stated sum over issues, shares or closed issues, the unpriced flag included; what those figures are is `EfficiencyCost.ReportCosts`, `EfficiencyParts.ModelRowSays`, `EfficiencyParts.TotalsSay`, `EfficiencyIssues.TotalsSay` and `EfficiencyIssues.LaneRowSays` |
| `EfficiencyReport.ReportSays` | aistat/aggregates.py:1451-1538 | The same, for the accumulated report of any list of issues, entries and rates |
| `EfficiencyReport.ReportConserves` | aistat/aggregates.py:1451-1538 | Of any report: per model every column adds up to the attributable total and cost to the total cost, per lane story points and cost add up to the same |
| `EfficiencyReport.ZeroWeightLeavesTheReport` | aistat/aggregates.py:1483-1489 | The whole report is the same without the models of zero weight |
| `EfficiencyCost.ShareCosts` | aistat/aggregates.py:1502-1507 | A share has no cost when its model has no rate, and otherwise costs the sum over the four kinds of tokens times fraction times the model's part times the rate of that kind, per million |
| `EfficiencyCost.OneKindCosts` | aistat/aggregates.py:1502-1507 | Tokens of a single kind cost those tokens at the rate of that kind and of no other |
| `EfficiencyCost.CostIsAdditive` | aistat/aggregates.py:1502-1507 | More tokens cost what they cost by themselves on top |
| `EfficiencyCost.ReportCosts` | aistat/aggregates.py:1451-1522 | The report's cost is the sum over kinds, issues and models of tokens times fraction times part times that kind's rate, per million |
| `EfficiencyCost.WeightedIsAMean` | aistat/aggregates.py:1365-1369 | The weighted efficiency is the mean of cost per hour and story point over the fully priced issues, weighted by their story points, as its documentation says |
| `EfficiencyParts.ModelRowSays` | aistat/aggregates.py:1488-1520 | Each column of a model's row, every kind of token, story points, hours, cost and both sums of its weighted figure, is the sum over issues of what that model's part of the issue is |
| `EfficiencyParts.ModelRowExactlyWhen` | aistat/aggregates.py:1483-1501 | There is a row for exactly the models that take part in some issue, and it is priced exactly when each of those parts has a rate |
| `EfficiencyParts.TotalsSay` | aistat/aggregates.py:1494-1514 | The cost story points are those of the parts with a rate, the unpriced tokens those of the parts without, and the flag is up exactly when there is one |
| `EfficiencyIssues.TotalsSay` | aistat/aggregates.py:1464-1544 | Number of issues, cost, hours, accepted figures and both sums of the weighted figure are those of the issues some selected run worked on, the last four leaving out issues of which a part has no rate |
| `EfficiencyIssues.LaneRowSays` | aistat/aggregates.py:1526-1544 | A lane's row counts exactly the issues of that lane, with their story points, cost and accepted figures, exists exactly when there is one, and is priced exactly when every part of each of them has a rate |
| `Supervisor.RaisesExactlyWhen` | aistat/supervisor.py:296-307 | A due restart raises `CrashLoop` exactly when the last `max_restarts` respawns all lie within the window |
| `Supervisor.RespawnsAreSpread` | aistat/supervisor.py:236-264 | Any `max_restarts` + 1 successful respawns of one contour span strictly more than the window |
| `Supervisor.CanFireExactlyWhen` | aistat/supervisor.py:292-307 | With passes at least `gap` apart the limiter can ever fire if and only if the backoffs plus the forced gaps fit into the window |
| `Supervisor.DefaultsFireOnlyWithoutPauses` | aistat/supervisor.py:200-205 | With the default constants that is the case only for a gap of zero |
| `Supervisor.StoppingOnlyCollects` | aistat/supervisor.py:236-264 | However many passes follow the signal to stop, nothing is started, no restart is counted or scheduled, none of them can raise, and a contour keeps running until its first exit, which is the one recorded |
| `Supervisor.Supervisor.PollOnce` | aistat/supervisor.py:236-264 | One pass moves every contour as specified up to the one that exceeds its budget, and leaves the ones after it alone |
| `RuntimeRollback.Installer.Rollback` | aistat/runtime_install.py:480-526 | Does what is specified of every world: directories untouched, half activated, target live with the parked copy dropped, previous state restored, or recovery failed with both generations kept; until commit no generation is lost; an accepted target was healthy on its own word if the supervisor it replaces had reported and could be read before the call |
| `RuntimeRollback.Installer.RestoreParked` | aistat/runtime_install.py:669-692 | Undoing a rejected rollback either restores code and code.prev exactly, healthy on its own word if the rejected supervisor had reported and could be read before the call, or leaves both generations among the slots |
| `RuntimeRollback.VerdictIsOwnExactlyWhen` | aistat/runtime_install.py:721-750 | Over everything the outside world may do, an accepted status was written by the generation just bootstrapped if and only if what is on disk, and what the supervisor being replaced may still report, is its own or will be rejected |
| `RuntimeRollback.RollbackIsProvenExactlyWhen` | aistat/runtime_install.py:505-526 | A successful rollback has proven its target, whatever happens during it, if and only if the supervisor of another generation, if any, has reported and its status can be read |
| `RuntimeRollback.UndoingIsProvenExactlyWhen` | aistat/runtime_install.py:669-692 | The same for the parked generation, seen from the moment the undoing starts |
| `RuntimeRollback.RestoredIsProvenExactlyWhen` | aistat/runtime_install.py:480-526 | Seen from the start of the rollback: only if the target was the running generation itself |
| `RuntimeRollback.RejectedReportsLate` | aistat/runtime_install.py:669-692 | From every state that allows a rollback there is one that ends restored and healthy on the word of the target just rejected: it reports healthy once and then ends without a stopping status |
| `RuntimeRollback.Installer.ActivatePrevious` | aistat/runtime_install.py:659-667 | Failing halfway leaves the slots as they were or the running generation parked, never lost |
| `RuntimeRollback.Installer.Install` | aistat/runtime_install.py:395-446 | Each exit is taken exactly when stated: not started without a stage, preflight or reading of the legacy job; the swap failed; installed when the cutover works, with the staged code in `code/`, the old copy in code.prev and no legacy job; undone when the new code can be removed and the old copy moved back and started, or on a first install the job booted out, the legacy job being put back if its plist can be written and started; at every exit the running generation is in `code/` or code.prev |
| `RuntimeRollback.Installer.AwaitHealth` | aistat/runtime_install.py:721-750 | Success means a status that is healthy and not of the previous process |
| `RuntimeVerdicts.GateAcceptsExactlyWhen` | aistat/runtime_install.py:694-750 | A health gate accepts exactly when the plist is written, bootout and bootstrap return, the job stays loaded, and either the new process, if its id is not the one read, reports before some poll that all of its contours run and it is not stopping, or the status found there says so of another process and nothing replaces it before the first poll |
| `RuntimeVerdicts.HealthyReportIsAccepted` | aistat/runtime_install.py:732-750 | A new supervisor that comes up and says so before any poll, however late, is accepted |
| `RuntimeVerdicts.RollbackSucceedsExactlyWhen` | aistat/runtime_install.py:480-526 | A rollback keeps its target exactly when it is allowed to start, the legacy job goes away, both renames work and the gate accepts; then the target's generation is the running job, and only a parked copy that cannot be dropped makes it end in an error |
| `RuntimeVerdicts.RollbackStopsExactlyWhen` | aistat/runtime_install.py:480-511 | It refuses exactly when a rollback is unfinished, there is no copy, a preflight fails or the legacy job stays, and stops halfway exactly when a rename fails after that |
| `RuntimeVerdicts.RejectedIsUndone` | aistat/runtime_install.py:669-692 | A rejected rollback whose undoing finds a supervisor that says all is running ends with the slots as they were and the old generation running |
| `Restore.FileSystem.RestoreBackup` | aistat/backup.py:609-668 | Refuses exactly when a label has no target, two targets are equal or the state cannot be saved, with nothing changed; done exactly when the plan is valid and no call raised; exactly one raising call is compensated, with all files and directories exactly as before; compensation fails only after a second one. Success means every target, `.pre-restore` and sidecar as promised and nothing else touched, for every plan whose targets are no copies of one another and so for every plan when the stores are called `.db` |
| `Restore.PromiseCanBeKeptExactlyWhen` | aistat/backup.py:574-606 | For distinct targets, what a restore promises of every member can be kept from every starting state if and only if no target is the `.pre-restore` copy or a sidecar of another one |
| `Restore.DisjointExactlyWhen` | aistat/backup.py:488-492 | Footprints of distinct targets meet only where a target is a copy: copies of different targets never coincide |
| `Restore.OnlyStoresOverlap` | aistat/backup.py:138-169 | Of the targets the command lets through only a configured store not called `.db` can be a copy of another target |
| `Restore.TargetExactlyWhen` | aistat/backup.py:148-169 | A configured label leads to its configured path and to no other; any other label leads to the database it names, `tenants/` and bare names in the directory of served tenants, `worker_tenants/` in that of the collector, and everything else is refused |
| `Restore.PlannedIsDistinct` | aistat/backup.py:621-632 | A plan that passes validation has one member per entry, each at the target its label resolves to, all different |
| `Restore.FileSystem.RollbackRestore` | aistat/backup.py:548-571 | Without collected errors the file map and the directories are exactly those of the snapshot; without a failing call there are no errors, because directories are removed deepest first |
| `Restore.FileSystem.InstallMember` | aistat/backup.py:574-606 | Touches only its own four paths and missing parents, and on success leaves the member, the old bytes and no sidecar |
| `Restore.ProgressNext` | aistat/backup.py:655-658 | Members with disjoint footprints do not disturb one another |
| `Restore.StateCovers` | aistat/backup.py:512-524 | The saved state names exactly the paths the plan may touch, each with its file before the command |
| `CollectorTheorems.NoStalePublish` | aistat/collector.py:394-417 | In every interleaving, a publish for epoch e comes after no completed store of a newer epoch and no completed delete of the same or a newer one |
| `CollectorTheorems.CollectedMeansPublishedAndClean` | aistat/collector.py:316-336 | `collected` is reported only after that attempt published under that epoch and then cleaned up successfully, with no credential change of the tenant in between |
| `CollectorTheorems.FenceExcludes` | aistat/worker_store.py:56-112 | At most one attempt of a tenant is inside the fence |
| `CollectorTheorems.FenceFreezes` | aistat/collector.py:394-417 | Between any two moments of an attempt inside the fence, whatever everybody does in between, the tenant's version and credential stay what they were and the log shows no change of them |
| `CollectorTheorems.RunKeeps` | aistat/collector.py:299-439 | The invariant of fences, versions and log survives every sequence of steps |
| `CollectorRun.Collector.CollectWithToken` | aistat/collector.py:299-439 | Over everything others and the outside world may do: `collected` exactly when the profile is created and entered, every look finds a free fence and the version current, every call including fence, publish and cleanup works, and the look inside the fence finds it current; skipped exactly when the first thing to go wrong is a look that finds the version changed; failed otherwise. Exactly one cleanup wherever a profile was created, nothing published or reported when skipped, and `collected` reported last |
| `CollectorRun.UndisturbedGoesWell` | aistat/collector.py:299-439 | With nobody interfering, a free fence, a current version and every call working, everything the attempt needs goes well |
| `CollectorRun.Collector.DriveProfile` | aistat/collector.py:441-507 | Looks at the version before login, workspace and poll and once after, in that order: every call follows a look at which the version was current at that moment of the run, going on means four such looks, and only a look can end the attempt silently |
| `IdleFleet.IdleShare` | aistat/flow_metrics.py:530-568 | Each counter is the number of seconds of the window in its state, together they are the observed part of the window, idle is at most covered, and the share lies in [0, 1] |
| `IdleFleet.CountersAreSeconds` | aistat/flow_metrics.py:530-553 | The running totals equal a second-by-second count of the window against the state at each second |
| `IdleFleet.StateExactlyWhen` | aistat/flow_metrics.py:530-553 | A second is idle exactly when it lies between two consecutive snapshots at most 900 s apart, the earlier one observed, not paused and with starved work; and likewise for covered, paused, unobserved and gap |
| `IdleFleet.CountersPartition` | aistat/flow_metrics.py:530-553 | Covered, paused, unobserved and gap seconds partition the overlap of the snapshots' span with the window |
| `Replay.ReplayFollowsTheRecording` | aistat/rebuild.py:204-229 | Replaying a successful recording is ok, issues exactly the recorded commands, consumes all of them and writes the same database |
| `Replay.OkReplayIsTheManifest` | aistat/rebuild.py:324-343 | Any replay that ends ok and fully consumed issued exactly the manifest's commands in order, although a mismatch is caught inside the cycle |
| `Replay.CycleKeeps` | aistat/poller.py:351-437 | In every cycle a command that is not answered is counted as a failed source, wherever it is caught |
| `CycleCommands.PagesAreListed` | aistat/poller.py:207-223 | A finished listing has asked for and stored one page after another, each a page further, the server saying there were more after each but the last; a broken one stored every page before the one that is missing or unusable and asked for nothing after it |
| `CycleCommands.CycleAsks` | aistat/poller.py:351-437 | From what a cycle stored: after the three lists it asks about exactly the listed runtimes, or the known ones when none is listed, the listed projects and agents, and the pending issues; for the workspace exactly when agents and projects were listed and every page and task list asked for was stored. It counts no failure exactly when every answer came and was stored and pricing and snapshot worked |
| `CycleCommands.DetailAsks` | aistat/poller.py:239-303 | The runs of an issue are asked for exactly when its usage was answered, and nothing of an issue is stored before both answers are there |
| `PollerRun.Poller.RunCycle` | aistat/poller.py:351-437 | The loops of the cycle issue the specified adaptive sequence and bump the specified counters |
| `PollerRun.Poller.SyncProjectIssues` | aistat/poller.py:207-223 | The pagination loop asks for consecutive offsets until the server has no more, and ends under any finite tape |
| `PollerRun.Rebuild` | aistat/rebuild.py:571-622 | Accepts exactly an ok and fully consumed replay; what it accepts issued the manifest, and a recording of the same start is always accepted with the recorded database |

## Left out

- HandoffHost.SecurityDb.RevokeConnection: an id the canonical check refuses is reported as unknown instead of as a ValueError, because the routes never pass one.
- WorkerStore.WorkerTokenStore.Delete: the call without an explicit epoch is not modelled, because nothing in the repository makes it.
- WorkerStore.WorkerTokenStore.PullOnce: an ack batch of more than a hundred items, which the host refuses whole, is modelled as acks that are never delivered.
- HandoffHost.SecurityDb.DeleteAccount: rows of other tables (sessions, passwords, throttle, snapshots) are not modelled, because no protocol step reads them.
- EfficiencyCost.ShareCosts: the rate in force at a share's earliest event enters as a function of issue and model; the price history lookup is not modelled.
- EfficiencyReport.Breakdown: the final ratios, rounding and sort order of the rows are not modelled; equalities are about the unrounded values.
- Attribution.WholeDayIsFlat: that a pair of runtime and model names each candidate agent once is required here, by `Attribution.TilesMakeTheDay` and by the theorems of `DailySplit`; the source lists agents by their primary key and adds one only if it is missing.
- RuntimeRollback.Installer.Rollback: process ids are not reused, and the supervisor status is written only by running supervisors.
- RuntimeRollback.Installer.Install: that legacy and new jobs are never both loaded is claimed for success only, because recovery re-bootstraps the supervisor even when the legacy job survived its bootout. A bootout of the supervisor that returns is taken to have unloaded it.
- Restore.FileSystem.RestoreBackup: reading the manifest and unpacking and checking the archives, which happen before any live path changes, are not modelled; paths are taken as normalised.
- Restore.FileSystem.RollbackRestore: an interrupt during the compensation ends it in the source; here it counts as a failed call and the compensation goes on.
- Supervisor.Supervisor.PollOnce: a spawn that itself raises is not modelled.
- Efficiency.RunFilterSelection: the earliest-event timestamp used for pricing is not carried along.
- EfficiencyChart.Chart: buckets are identified by their start instead of by the text of their key.
- Replay.ReplayFollowsTheRecording: normalisation, upserts, local queries, pricing and the fleet snapshot enter as arbitrary deterministic functions of what was stored; the clock is fixed, as capture and rebuild fix it, and there is no deadline. The recorder hands on the value it received and the replay its JSON round trip, which are taken to be the same.
- CollectorRun.Collector.CollectWithToken: a fence that cannot be had in time counts as one that could not be read; the per-tenant profile lock, which only excludes more interleavings, is not modelled. An exception from the version check inside the fence, or from leaving the fence after the report, is not modelled.
- Validation that only refuses requests (URLs, hostnames, e-mail, paths, symbolic links, permissions), HMAC signatures and encryption.
- HTTP routing, pages, the command line, configuration, logging and alert texts.
- SQLite, gzip, launchctl and file-system flushing below the level of an atomic update or a call that may fail.
- Reports that only select and format stored rows: lineage, service levels, health.
