# A verified model of the platform's control loops

This project models, in Dafny 4.11, the parts of the platform whose correctness lies in how functions combine over
whole runs, and proves what the code and its documentation promise of them. It is checked with
`dafny verify dfyconfig.toml`.

- `alerts/` – the stack alert cycle. The alert table is modelled by the contract of its repository: every call is one
  atomic step of a history, made by us or by another replica. A `Repository` carries a script of what the other
  replicas do before each of our calls and of which of our calls fail, so that everything said of a cycle is said for
  every interleaving. `AlertHistory` holds the invariants of all histories, `CollectAlerts` and `AlertCycle` the cycle.
- `backup/` – cold backup, restore and retention. `World` is a cluster (workload to replicas), a request that may be
  cancelled at any moment, and an oracle by which any external call may fail, with or without having taken effect.
  Everything that happened is in a trace, and the cluster is what the trace made of it. `BackupTrace` reads stops,
  archives and resumes off the trace of a whole backup; `RestorePlan` says which steps a restore plans, `RunRestore`
  which of them it takes, `RestoreLaws` and `VaultOrder` what follows, and `RestoreCalls` which calls a restore of each
  mode makes, without the plan. `Retention` is the deletion of old runs; `RetentionByTime` says over the runs and their
  times alone which are deleted.
- `ratelimit/` – the sliding-window limiter: a specification that never forgets an accepted request (`SlidingWindow`),
  and the limiter with buffers compacted in place and idle entries deleted (`RateLimiter`), which refines it.
- `assistant/` – the agent loop, for every model and every tool.
- `scan/` – severities, the counts of a scan report, the gate on them, and the vulnerability lists and their pages.
- `posture/` – security posture of applications and stacks: cells, ranks, summaries, groups, orders.
- `cicd/` – importing build history as deployment records, and the identifiers of those records.
- `geometry/` – the outline of a box on the screen (monotone chain, `Hull`) and the separating-axis test, over the
  reals, down to what a hit means: `HalfPlanes` finds a point in open half-planes or at most three that contradict each other,
  `ConvexHulls` says what lies in a hull, `Overlap` and `Silhouettes` what the test says of outlines and of points.

`Sorting`, `Ordering`, `Sums`, `Decimals`, `GoStrings`, `Sequences` and `Wrappers` hold what several of them use.

## Findings

Where the code does not do what its documentation or tests promise, the model keeps to the code; the lemma named gives
the input, or the exact condition under which the promise is kept.

- A replica that stalls between reading its clock and recording a sighting moves `last_seen` back
  (`AlertHistory.StaleUpsertForgetsASighting`). The grace period covers the latest sighting exactly if the table
  recorded it (`AlertHistory.GraceIffRecorded`), that is, if the last call to sight the record brought the latest time
  (`AlertHistory.GraceIffLastIsLatest`); a record sighted in time order meets it
  (`AlertHistory.OrderedSightingsKeepGrace`).
- `Retry-After` rounds down, so a client that waits as long as it was told is denied again unless the wait was whole
  seconds or less than one (`SlidingWindow.RetryAfterSuffices`, `SlidingWindow.RetryTooEarly`).
- A partial backup can be restored. A volume whose archive failed then gets an empty claim and its workload is scaled
  up on it, and the restore counts as succeeded (`RestoreLaws.DataPlannedIffArchived`,
  `RestoreLaws.PartialBackupResumesWithoutData`). A backup with the verdict of success restores whole
  (`RestoreLaws.SucceededBackupRestores`).
- The user guide (`docs/50_운영/Nullus_백업복구_사용_가이드.md:140`) and a comment
  (`internal/backup/usecase/run_restore.go:191`) promise the database before the vault.
  A restore whose vault is not left for later follows the order of the artifacts: the vault comes early exactly if it
  was stored before the database (`VaultOrder.VaultEarlyIff`; an input is `VaultOrder.VaultBeforeDatabase`). A backup
  always stores it first, so every such restore of a backup with both breaks the promise
  (`VaultOrder.BackupRestoresVaultFirst`). A vault left for later comes after the workloads, as the code says it must.
- Resumes and the final record of a restore run under the request's own context. Once the request is over, the workloads
  stay down, nothing is imported and the verdict is not saved, although the restore counts as succeeded
  (`RestoreLaws.CancelledStaysDown`; a run of it is `RestoreLaws.CancelledCountsAsSucceeded`). Where no call fails of
  itself, a restore that counts as succeeded has brought its workloads up and saved its verdict exactly if the request
  lasted until then (`RestoreLaws.SucceededLandsIff`). A backup detaches both (`RunBackup.Run`).
- A backup of a stack alone stores no vault, but a restore of a stack alone fills the stack's vault from whatever vault
  artifact there is; in every other case a restore of a mode puts back what a backup of that mode stores
  (`RestoreCalls.RestoredAsStored`).
- Retention promises to keep the most recent successful backup; the code keeps the newest run that has artifacts, which
  may be a partial one. The newest run that succeeded survives exactly if it is the newest of all or has a bucket of its
  own and fits under the cap (`RetentionLaws.NewestSucceededSurvivesIff`); a partial run later the same day is enough to
  delete it (`RetentionLaws.SucceededMayGo`).
- A synchronised run keeps stale steps when only the state of its steps changed (`RunSync.ExactIff`,
  `RunSync.StageProgressIsMissed`).
- A client that pages by the length it asked for skips entries when it asked for more than the largest page
  (`Vulnerabilities.EveryEntryShownIff`, `Vulnerabilities.OverlongPagesSkip`).
- A severity spelt with a dotless I is counted as known where it is summed and as unknown where it is listed
  (`Severities.ReadingsDisagree`). The two agree exactly for a severity without a dotless or dotted I, or one whose
  upper case and whose lower case name no level (`Severities.RanksAgree`).

## Model

| member | source | states |
|---|---|---|
| AlertHistory.AlwaysInv | internal/observability/port/stack_alerts.go:23-34 | however the calls of any number of replicas interleave: no two records of one (stack, fingerprint) are open at once, every record's notifications, resolutions and closings are accounted for, and every key is in the phase the table shows |
| AlertHistory.OneOpenRecordPerKey | internal/observability/port/stack_alerts.go:24-25 | two open records of one (stack, fingerprint) are one |
| AlertHistory.AnnouncedOnce | internal/observability/port/stack_alerts.go:26-31 | over any history a record is first announced at most once and resolved or silently closed at most once, and a resolution is announced only if the firing was |
| AlertHistory.KeyLifecycle | internal/observability/usecase/collect_stack_alerts.go:144-177 | what is entitled for one key is (Fired Repeated* (Resolved or closed silently))*, each life on one record, and the table says where in it the key stands |
| AlertHistory.NotificationsSpaced | internal/observability/port/stack_alerts.go:26-28 | successive notifications of one record are at least the repeat interval apart |
| AlertHistory.NotificationRate | internal/observability/port/stack_alerts.go:26-28 | any span carries at most span / repeat + 1 notifications of a record, whatever the number of replicas |
| AlertHistory.GraceIffRecorded | internal/observability/usecase/collect_stack_alerts.go:163-171 | resolving respects the grace period of the latest sighting exactly if the table recorded that sighting |
| AlertHistory.GraceIffLastIsLatest | internal/observability/usecase/collect_stack_alerts.go:137-141 | the grace period is kept exactly if the last call to sight the record brought the latest time |
| AlertHistory.OrderedSightingsKeepGrace | internal/observability/usecase/collect_stack_alerts.go:163-171 | a record whose own sightings are recorded in time order keeps the grace period exact, in whatever order others come |
| AlertHistory.StaleUpsertForgetsASighting | internal/observability/port/stack_alerts.go:24-25 | a concrete history in which a late upsert lets an alert be resolved that was seen within the grace period |
| AlertRepository.Repository.Upsert | internal/observability/port/stack_alerts.go:24-25 | others' calls, then at most one upsert of ours; its ID is that of the open record of the key; alone, the table is exactly the upserted one |
| AlertRepository.Repository.ClaimNotification | internal/observability/port/stack_alerts.go:26-28 | undisturbed and unfailing, an open record is claimed exactly if it was never notified or that was at least the repeat interval ago, as the first time exactly in the former case; in any interleaving, claimed exactly with the one mark the call is entitled to |
| AlertRepository.Repository.Resolve | internal/observability/port/stack_alerts.go:30-31 | undisturbed and unfailing, resolves exactly an open record unseen since the cutoff; in any interleaving, true only when this call resolved the record, and announced only if the caller knew it notified |
| AlertRepository.Repository.ListOpen | internal/observability/port/stack_alerts.go:29 | exactly the open records of the stack, in order |
| AlertRepository.Repository.CloseForMissingStacks | internal/observability/port/stack_alerts.go:32-34 | closes what stacks not kept left open and unseen, without any notification |
| CollectAlerts.AcceptedIsSeen | internal/observability/usecase/collect_stack_alerts.go:130-134 | every accepted alert counts as seen, suppressed or repeated as it may be |
| CollectAlerts.HandledIff | internal/observability/usecase/collect_stack_alerts.go:130-134 | an alert is handled exactly if it is accepted and the first accepted one of its fingerprint |
| CollectAlerts.AudibleIff | internal/observability/usecase/collect_stack_alerts.go:130-143 | a fingerprint may be announced exactly if its first accepted alert is not suppressed |
| CollectAlerts.HandleSightings | internal/observability/usecase/collect_stack_alerts.go:130-154 | every accepted fingerprint once: recorded, and announced only with a claim; alone, every record is as the sightings call for and every audible one is announced as its last notification calls for |
| CollectAlerts.ResolveUnseen | internal/observability/usecase/collect_stack_alerts.go:156-177 | resolves only listed, unseen records past the grace period; undisturbed, each notified record it resolves has its resolution among the events, and without failures all of them are resolved |
| AlertCycle.CollectStack | internal/observability/usecase/collect_stack_alerts.go:122-178 | one stack: an unreached one is left alone; else the events are exactly those our calls entitle us to, at most one per key |
| AlertCycle.CollectStacks | internal/observability/usecase/collect_stack_alerts.go:99-111 | the listed stacks in turn, every one kept, reached or not |
| AlertCycle.RunCycle | internal/observability/usecase/collect_stack_alerts.go:80-119 | skipped, failed or run: without the lock or the listing nothing is called; else only lawful calls are made, the events are those they entitle us to, and undisturbed every notified record the cycle resolves has its resolution among them, every record ends as the cycle calls for and every audible alert is announced as due |
| AlertCycle.ReportedIsAnnounced | internal/observability/usecase/collect_stack_alerts.go:130-154 | an accepted, unsuppressed alert of a reached stack with an open record is fired if never notified, repeated if that was at least the repeat interval ago, and not announced before |
| AlertCycle.UnreachedStackUntouched | internal/observability/usecase/collect_stack_alerts.go:101-112 | no call of a cycle touches a record of a stack it could not reach |
| AlertCycle.ResolvedOnlyUnseen | internal/observability/usecase/collect_stack_alerts.go:156-171 | a cycle asks to resolve a record only if it reached the stack, no accepted alert carried the fingerprint, and the cutoff is the grace period |
| AlertCycle.SentOnce | internal/observability/usecase/collect_stack_alerts.go:144-177 | what we and all other replicas send together holds at most one first firing and one resolution per record |
| AlertCycle.PublishedInOrder | internal/observability/usecase/collect_stack_alerts.go:181-196 | one event per key in a cycle makes the order of its concurrent sends irrelevant to every key |
| AlertCycle.PublishAll | internal/observability/usecase/collect_stack_alerts.go:181-196 | every event is sent once, in whatever order |
| AlertCycle.RunLocked | internal/observability/usecase/collect_stack_alerts.go:80-119 | any run of locked cycles of all replicas: listeners hear of every (stack, fingerprint) a well-formed history, nothing repeated or resolved that was not fired |
| Retention.SelectForDeletion | internal/backup/domain/retention.go:47-116 | deletes exactly the candidates that are not the newest nor the newest of one of the first daily, weekly or monthly buckets, or that do not fit under the cap |
| RetentionByTime.DeletedIff | internal/backup/domain/retention.go:47-116 | over runs and their times alone: a run is deleted exactly if it has artifacts and either is newest of no bucket among the first of its rule and not the newest of all, or does not fit under the cap with the newer kept ones |
| RetentionByTime.DeletedStored | internal/backup/domain/retention.go:48-53 | nothing is deleted but runs that have artifacts |
| RetentionByTime.LatestIsKept | internal/backup/domain/retention.go:58-64 | the run with artifacts that was created last is never deleted |
| RetentionByTime.KeptIsLatest | internal/backup/domain/retention.go:66-90 | a run that survives is the newest of all or created last in its day, week or month |
| RetentionByTime.CapTakesOlder | internal/backup/domain/retention.go:92-107 | when the cap takes a run that a rule keeps, every older run is deleted as well |
| Retention.MarkBuckets | internal/backup/domain/retention.go:66-82 | adds exactly the newest run of each of the first distinct buckets |
| Retention.ApplyCap | internal/backup/domain/retention.go:92-107 | drops exactly the kept runs, other than the newest, that do not fit with the newer ones |
| RetentionLaws.Partition | internal/backup/domain/retention.go:109-115 | deleted and kept runs together are the candidates, each once |
| RetentionLaws.NewestSurvives | internal/backup/domain/retention.go:58-64 | the newest candidate is never deleted |
| RetentionLaws.NewestSucceededSurvivesIff | internal/backup/domain/retention.go:44-107 | the newest run that succeeded survives exactly if it is the newest of all, or the first of one of the first buckets of some rule and under the cap with the newer ones kept |
| RetentionLaws.SucceededMayGo | internal/backup/domain/retention.go:44-64 | for every policy: with a partial run later the same day, the only run that succeeded is deleted |
| RetentionLaws.CapRespected | internal/backup/domain/retention.go:92-107 | with a cap the survivors fit under it, or only the newest remains |
| RetentionLaws.CapDropsOldestFirst | internal/backup/domain/retention.go:92-107 | no bucket-kept run is dropped while an older one other than the newest survives |
| RetentionLaws.SurvivesAgain | internal/backup/domain/retention.go:47-116 | a survivor survives among the survivors |
| RetentionLaws.RetentionIsStable | internal/backup/domain/retention.go:47-116 | applied to its own survivors, in any order, the policy deletes nothing |
| Quiesce.NewQuiescePlan | internal/backup/domain/quiesce.go:49-65 | one target per running workload, in listing order |
| Quiesce.PlanCovers | internal/backup/domain/quiesce.go:49-65 | targets are exactly the running workloads with what to put back; what was at zero is no target |
| Quiesce.ResumeOrder | internal/backup/domain/quiesce.go:74-80 | the plan in reverse |
| Quiesce.BuildManifest | internal/backup/domain/manifest.go:121-165 | the manifest carries every target, volume and artifact in order |
| QuiesceWindow.ArchiveVolumes | internal/backup/usecase/run_backup.go:370-387 | every volume is tried, whatever failed before; a checksum is recorded exactly where an archive was stored |
| QuiesceWindow.WithQuiesce | internal/backup/usecase/run_backup.go:316-368 | every exit of the stop window: stops in plan order up to a failure, wait and archives only after all, and then exactly one resume per target in reverse order |
| QuiesceLaws.ClusterRestored | internal/backup/usecase/run_backup.go:316-368 | on every exit, if the resumes succeeded, the cluster is as it was when listed |
| QuiesceLaws.ArchivedAtZero | internal/backup/usecase/run_backup.go:357-366 | volumes are archived only while every target is at zero |
| QuiesceLaws.OnlyTargetsScaled | internal/backup/usecase/run_backup.go:316-368 | nothing but the plan's targets is scaled |
| BackupTrace.ColdBack | internal/backup/usecase/run_backup.go:316-387 | as the trace shows it: either no workload was touched, or targets were stopped in plan order up to the first failure, each has exactly one resume to its replicas in reverse order, and nothing is archived before all are down |
| BackupTrace.ReplayScales | internal/backup/usecase/run_backup.go:316-368 | the cluster after an ordered trace is what its stops and then its resumes make of it |
| BackupTrace.ArchivedWhileDown | internal/backup/usecase/run_backup.go:357-366 | in a whole backup, volumes are archived only while every target is at zero |
| BackupTrace.BackupRestores | internal/backup/usecase/run_backup.go:316-368 | whatever else failed in a whole backup, if the resumes in its trace succeeded the cluster is as before |
| BackupTrace.ResumedWithoutFailures | internal/backup/usecase/run_backup.go:316-356 | when no call fails of itself, every target is brought back, whenever the request is cancelled |
| RunBackup.Prepare | internal/backup/usecase/run_backup.go:170-211 | goes on only after a successful preflight for the summed size of the listed volumes |
| RunBackup.Execute | internal/backup/usecase/run_backup.go:170-310 | preflight before any stop, exports after all resumes, workloads brought back on every exit, and a complete result when it ran to its end |
| RunBackup.Run | internal/backup/usecase/run_backup.go:88-138 | a whole backup: refused without a trace; else ordered, cleared before stopping, workloads brought back, the record closed even when the request is gone, and the verdict that of the results |
| RunBackup.SucceedsIff | internal/backup/usecase/run_backup.go:88-138 | a run succeeds exactly if it came to its end, tried something, and every component it tried was configured and had no call of it fail |
| RunBackup.UnfailingBackupSucceeds | internal/backup/usecase/run_backup.go:88-138 | when no call fails and something is tried, a run succeeds exactly if the databases in its scope are configured |
| RunBackup.SizeJoin | internal/backup/usecase/run_backup.go:192-202 | the size asked of the destination is the sum over the volumes |
| RunBackup.SizeCovers | internal/backup/usecase/run_backup.go:192-202 | and so no less than that of any one volume |
| RunBackup.SucceededIsWhole | internal/backup/domain/backup_run.go:180-211 | Succeeded exactly if something was tried and all of it succeeded; then every component is backed by an artifact and every listed volume by one with its recorded checksum |
| BackupRuns.BackupRun.Complete | internal/backup/domain/backup_run.go:180-211 | the verdict over the results, in whatever order they are counted |
| RestorePlan.CheckSchemaVersion | internal/backup/domain/restore.go:32-49 | allowed exactly for a clean schema at or after the backup's; migration exactly when they differ |
| RestorePlan.CheckPrerequisites | internal/backup/domain/restore.go:68-86 | names everything that is missing |
| RunRestore.VerifyArtifacts | internal/backup/usecase/run_restore.go:253-264 | goes on only if every artifact is there with its checksum |
| RunRestore.RestoreStackData | internal/backup/usecase/run_restore.go:266-358 | the planned steps in order, up to the first fatal failure; done exactly if all succeeded |
| RunRestore.RestorePlatform | internal/backup/usecase/run_restore.go:361-398 | the platform's artifacts in order; only the database is fatal |
| RunRestore.ImportWithRetry | internal/backup/usecase/run_restore.go:411-458 | tries until it works, the time is up or the request is gone, at most one try past the waiting time |
| RunRestore.DefaultTries | internal/backup/usecase/run_restore.go:401-418 | left to its defaults, a restore tries to fill a vault fourteen times at most |
| RunRestore.ResumeWorkloads | internal/backup/usecase/run_restore.go:460-480 | scales every workload of the manifest up in reverse order, but for those an operator recreates, whatever fails |
| RunRestore.Run | internal/backup/usecase/run_restore.go:96-235 | every course a restore can take: checks, stack, platform, resumes, late import and aftermath, each only after what it needs, and the verdict; once the request is over nothing of it takes effect, nor does the record of it |
| RestoreCalls.CalledIff | internal/backup/usecase/run_restore.go:112-235 | a restore that succeeds makes exactly the calls listed for its job, effect by effect, and the vital ones succeeded |
| RestoreCalls.SucceedsIff | internal/backup/usecase/run_restore.go:112-235 | checked and wired, a restore succeeds exactly if none of the calls it cannot do without failed; which those are is listed |
| RestoreCalls.DatabasesByMode | internal/backup/usecase/run_restore.go:179-208 | full or platform only: every platform and Keycloak database is restored, the platform one with success; stack only: none |
| RestoreCalls.StackByMode | internal/backup/usecase/run_restore.go:179-190 | full or stack only: every shared resource, volume and namespace resource is put back with success and every workload without an owner is scaled up; platform only: nothing of the stack is touched |
| RestoreCalls.VaultByMode | internal/backup/usecase/run_restore.go:198-224 | the vault is imported exactly where its mode and its stack call for it |
| RestoreCalls.ClearedIff | internal/backup/usecase/run_restore.go:112-160 | what a restore checks before it changes anything, check by check |
| RestoreCalls.RestoredAsStored | internal/backup/domain/backup_run.go:93-105 | a restore in a mode puts back an artifact exactly if a backup in that mode stores its component, except that a stack alone also gets its vault back |
| RestoreCalls.ModesPartition | internal/backup/domain/backup_run.go:93-105 | a full backup covers every component and is the disjoint union of the other two modes |
| RestoreCalls.SucceededByMode | internal/backup/usecase/run_backup.go:99-138 | a backup that names only its mode and is judged Succeeded holds what the mode stands for: the databases and the vault, the namespace resources and every listed volume, or both |
| RestoreLaws.NothingBeforeCleared | internal/backup/usecase/run_restore.go:112-151 | no mutating step before prerequisites, all artifacts and the schema were found good |
| RestoreLaws.StackInOrder | internal/backup/usecase/run_restore.go:266-358 | namespace, secrets, controllers, shared resources, claims, volumes, resources |
| RestoreLaws.DataInOrder | internal/backup/usecase/run_restore.go:266-358 | the calls made are in that order, each after a success |
| RestoreLaws.ResumesLast | internal/backup/usecase/run_restore.go:112-235 | scaling up, and filling a stack's vault, only after all restoring went through |
| RestoreLaws.VaultAfterResumes | internal/backup/usecase/run_restore.go:204-219 | a stack's vault is filled only after every workload was told to come up |
| VaultOrder.VaultEarlyIff | internal/backup/usecase/run_restore.go:191-398 | the vault is imported before the platform database exactly if it is not left for later and was stored before it; one left for later is no step of the platform |
| VaultOrder.VaultBeforeDatabase | internal/backup/usecase/run_restore.go:361-398 | restoring the platform alone from a vault and then a database imports the vault first |
| VaultOrder.BackupStoresVaultFirst | internal/backup/usecase/run_backup.go:234-310 | what a backup stores of both, it stores vault first |
| VaultOrder.BackupRestoresVaultFirst | internal/backup/usecase/run_restore.go:191-398 | so where the vault is not left for later, every backup that holds both is restored vault first |
| RestoreLaws.ScaledUpOnlyWhole | internal/backup/usecase/run_restore.go:112-218 | before any scale-up, every fatal step of the stack's and the platform's plan has succeeded |
| RestoreLaws.DatabaseInPlan | internal/backup/usecase/run_restore.go:361-398 | the platform database is such a step where the mode touches the platform |
| RestoreLaws.ResumesRoundTrip | internal/backup/usecase/run_restore.go:460-480 | through the manifest, a restore scales up what the backup would have resumed, in the same order and to the same replicas, but for owner-managed ones |
| RestoreLaws.RestoredReplicas | internal/backup/usecase/run_restore.go:460-480 | once the resumes succeeded, the targets run as before the backup, whatever the cluster was |
| RestoreLaws.CancelledStaysDown | internal/backup/usecase/run_restore.go:96-110 | cancelled before its first resume, a restore that counts as succeeded changes no workload, imports and repairs nothing, and its verdict is not stored |
| RestoreLaws.CancelledCountsAsSucceeded | internal/backup/usecase/run_restore.go:460-480 | a concrete restore that is cancelled after its checks, counts as succeeded and leaves its workload down |
| RestoreLaws.SucceededLandsIff | internal/backup/usecase/run_restore.go:96-235 | when no call fails of itself, what counts as succeeded has its workloads up and its verdict stored exactly if the request lasted until then |
| RestoreLaws.UnfailingRestores | internal/backup/usecase/run_restore.go:112-235 | when besides the request lasts, a restore succeeds exactly if its checks came out good and shared resources can be restored, and then all it did succeeded |
| RestoreLaws.DataPlannedIffArchived | internal/backup/usecase/run_restore.go:327-344 | a volume's data comes back exactly if the backup holds an archive of it |
| RestoreLaws.SucceededBackupRestores | internal/backup/usecase/run_restore.go:266-358 | a backup judged Succeeded restores every listed volume, from an archive of it that carries its recorded checksum |
| RestoreLaws.PartialBackupResumesWithoutData | internal/backup/usecase/run_restore.go:112-235 | a concrete partial backup whose restore counts as succeeded without the data of its volume |
| SlidingWindow.WindowBound | internal/shared/middleware/rate_limiter.go:162-193 | however requests and cleanups interleave, no window of the configured length holds more accepted requests of a key than its limit |
| SlidingWindow.DeniedUntil | internal/shared/middleware/rate_limiter.go:178-185 | a denied key is denied strictly before the reported time and allowed from it on |
| SlidingWindow.NothingAccepted | internal/shared/middleware/rate_limiter.go:178-185 | until that time no request of the key is accepted, whatever else happens |
| SlidingWindow.DeniedThenAllowed | internal/shared/middleware/rate_limiter.go:162-193 | the same over whole runs: the next request is allowed exactly if it comes at or after the reported time |
| SlidingWindow.RetryAfterSuffices | internal/shared/middleware/rate_limiter.go:178-185 | waiting the seconds told is enough exactly if the wait is whole seconds or less than one |
| SlidingWindow.RetryTooEarly | internal/shared/middleware/rate_limiter.go:178-185 | a concrete denial after which the client comes back as told and is denied again |
| SlidingWindow.RemainingIsExact | internal/shared/middleware/rate_limiter.go:188-193 | exactly as many further requests as an allowed one reports remaining are allowed at that instant |
| SlidingWindow.ResetIsExact | internal/shared/middleware/rate_limiter.go:188-193 | until the time an allowed request reports, all that counts against the key still does; from then on something less does |
| RateLimiter.Entry.Compact | internal/shared/middleware/rate_limiter.go:169-176 | in place, exactly the live stamps in order |
| RateLimiter.Limiter.Allow | internal/shared/middleware/rate_limiter.go:162-193 | decides as the whole history of accepted requests would, whatever was forgotten of it |
| RateLimiter.Limiter.Clean | internal/shared/middleware/rate_limiter.go:195-225 | one key of a cleanup pass, begun any time before or after the requests served meanwhile: no decision to come differs |
| RateLimiter.RequestRefines | internal/shared/middleware/rate_limiter.go:162-193 | what is held decides like the whole history, and keeps agreeing with it |
| RateLimiter.SweepRefines | internal/shared/middleware/rate_limiter.go:200-221 | dropping expired stamps and deleting an idle key keep that agreement, even for an overtaken pass |
| RateLimits.ConfigForMode | internal/shared/middleware/rate_limiter.go:71-94 | the limits of a mode with overrides; the ceiling is the one asked for, or else the largest of 600, twice the user limit and the anonymous limit |
| RateLimits.OneLimitPerKey | internal/shared/middleware/rate_limiter.go:241-303 | requests counted under one key carry one limit |
| RateLimits.SameKeyIff | internal/shared/middleware/rate_limiter.go:260-282 | two callers of a category share a key exactly if they share what it counts by: the address, the organisation if they have one, or the user if they are logged in |
| RateLimits.LimitByCategory | internal/shared/middleware/rate_limiter.go:241-303 | the limit of each category, in numbers |
| RateLimits.OthersDoNotMatter | internal/shared/middleware/rate_limiter.go:241-303 | requests of callers who do not share the key change no decision |
| RateLimits.UsersApart | internal/shared/middleware/rate_limiter.go:278-282 | such as those of another logged-in user |
| RateLimits.NobodyExceeds | internal/shared/middleware/rate_limiter.go:241-303 | whoever shares keys with whom, no window holds more accepted requests than the callers' limit |
| AgentLoop.RunCalls | internal/assistant/usecase/chat.go:137-159 | every call of a round gets an answer with its ID in order, run within both limits or told that it was not |
| AgentLoop.Run | internal/assistant/usecase/chat.go:96-161 | for every model and every tool: at most seven requests, at most twenty calls run on every exit, one trace per call, tools forbidden exactly at the limits |
| AgentLoop.ForbiddenIff | internal/assistant/usecase/chat.go:117-123 | tools are forbidden exactly from the seventh request on or after twenty calls, and required exactly in the first request of a question that asks to look something up |
| AgentLoop.RunIff | internal/assistant/usecase/chat.go:137-146 | a call is run exactly if it is one of the first eight of its round and fewer than twenty ran before it |
| AgentLoop.TranscriptWellFormed | internal/assistant/usecase/chat.go:135-159 | a conversation of answered rounds is well-formed |
| AgentLoop.RequestsAccepted | internal/assistant/usecase/chat.go:119-160 | every request sent is well-formed: each message with k calls is followed by exactly k results with those IDs in order |
| AgentLoop.ReplyNotBlank | internal/assistant/usecase/chat.go:127-131 | a reply is never blank |
| AgentLoop.ReplyIsContent | internal/assistant/usecase/chat.go:127-131 | what the model wrote is shown without the spaces around it, if it wrote anything else |
| Severities.RanksAgree | internal/shared/domain/image_vulnerability.go:54-77 | a severity is counted where it is listed exactly if it holds no dotless or dotted I, or neither its upper nor its lower case names a level |
| Severities.CountedAsIff | internal/shared/domain/image_scan_report.go:26-40 | which words are counted where, whatever their case and the spaces around them |
| Severities.SeverityRankIff | internal/shared/domain/image_vulnerability.go:54-77 | which words are listed where |
| Severities.NormalizedCounts | internal/shared/domain/image_vulnerability.go:54-61 | once normalised, it always is |
| Severities.ReadingsDisagree | internal/shared/domain/image_scan_report.go:26-40 | HIGH with a dotless I is counted as HIGH and listed as unknown |
| ScanReports.CountsJoin | internal/shared/domain/image_scan_report.go:43-51 | the counts of two lists together are the sum of their counts |
| ScanReports.CountedIff | internal/shared/domain/image_scan_report.go:111-140 | a count is positive exactly if some finding of that severity (with a fixed version, where asked) is in the report |
| ScanReports.ParseTrivyReport | internal/shared/domain/image_scan_report.go:111-140 | the counting loop computes those counts, over all targets |
| ScanGate.TrivySeverities | internal/cicd/domain/scan_policy.go:115-122 | the argument joins every severity from the blocking one up |
| ScanGate.ListedIff | internal/cicd/domain/scan_policy.go:115-148 | read back, it names exactly those severities |
| ScanGate.VerdictIff | internal/cicd/domain/image_scan.go:121-141 | the verdict in terms of the findings: block, warn and neither |
| ScanGate.AgreesWithCI | internal/cicd/domain/image_scan.go:121-141 | the platform blocks exactly the reports CI fails on, for every report and policy |
| ScanGate.StageIff | internal/cicd/domain/image_scan.go:143-157 | a stage that says success passes, one that says failed blocks, and any other word shows no gate |
| ScanGate.StageAlone | internal/cicd/domain/image_scan_gate.go:11-34 | without a report the gate is what the stage says |
| ScanGate.MoreFindingsHarden | internal/cicd/domain/image_scan.go:121-141 | more findings never soften the verdict |
| ScanGate.LowerSeverityHardens | internal/cicd/domain/scan_policy.go:134-139 | blocking at a lower severity never softens it |
| ScanGate.IgnoringSoftens | internal/cicd/domain/image_scan.go:121-141 | ignoring unfixed findings never hardens it |
| ScanGate.SamePolicySameGate | internal/cicd/domain/image_scan_gate.go:11-34 | of a stage that says failed or success as CI judged the report, under one policy the gate shows the platform's verdict |
| ScanGate.ChangedPolicyGate | internal/cicd/domain/image_scan_gate.go:11-34 | after a change of policy: error exactly if CI failed on what would pass now, block exactly if both fail, warning for what CI let through, and the verdict where neither fails |
| ScanGate.FailedWithoutFindings | internal/cicd/domain/image_scan_gate.go:11-34 | a failed stage without a blocking finding is an error of the scan, and nothing else is |
| Vulnerabilities.CountsAgree | internal/shared/domain/image_vulnerability.go:95-158 | counting the parsed list gives what counting the report gives, for severities without a dotless or dotted I |
| Vulnerabilities.ParsedInOrder | internal/shared/domain/image_vulnerability.go:95-123 | the parsed list has an entry for every finding, target by target in order, with its texts trimmed, its severity and its kind |
| Vulnerabilities.SelectedIff | internal/shared/domain/image_vulnerability.go:218-245 | an entry is selected exactly if it has a severity asked for, is of the kind asked for, is fixed if that is asked for, and its ID or package holds the query |
| Vulnerabilities.FilteredAsCounted | internal/shared/domain/image_vulnerability.go:218-245 | filtering by one severity finds as many entries as are counted of it, over all or over the fixable |
| Vulnerabilities.FilterVulnerabilities | internal/shared/domain/image_vulnerability.go:247-274 | one page of the sorted matches, and their number |
| Vulnerabilities.PagesShowAll | internal/shared/domain/image_vulnerability.go:247-274 | the pages together are exactly the matching entries, each as often as it occurs: the more severe first, then by ID, then by package |
| Vulnerabilities.EveryEntryShownIff | internal/shared/domain/image_vulnerability.go:204-215 | stepping by a length shows every entry exactly if the pages are at least that long or one page is enough |
| Vulnerabilities.OverlongPagesSkip | internal/shared/domain/image_vulnerability.go:204-215 | stepping by more than the largest page misses entries |
| Vulnerabilities.SummarizeVulnerabilityTargets | internal/shared/domain/image_vulnerability.go:284-299 | one entry per target that occurs, with its count, base images first and unknown kinds last; the counts sum to the length of the list |
| AppPosture.OldPipelinesReadByRecords | internal/observability/domain/security_posture.go:143-167 | a pipeline of unknown stages is judged, ranked and counted as one with exactly the stages it has records of |
| AppPosture.GateIff | internal/observability/domain/security_posture.go:169-180 | a recorded gate shows a pass, a warning or a block exactly if it says so; no other word is taken for a pass |
| AppPosture.CellIff | internal/observability/domain/security_posture.go:143-167 | when a stage does not apply, when its result is missing, and else what its record shows |
| AppPosture.MissingIsUndetermined | internal/observability/domain/security_posture.go:143-214 | a stage that should have a result and has none leaves its application undetermined at best, and counted so |
| AppPosture.StaleIff | internal/observability/domain/security_posture.go:157-166 | when a result and when its database are shown as stale |
| AppPosture.RankIff | internal/observability/domain/security_posture.go:122-131 | the six ranks in terms of the cells, the worst first |
| AppPosture.CriticalIff | internal/observability/domain/security_posture.go:223-233 | critical findings are those counted of dependencies and image, and an application is counted for having any |
| AppPosture.RankOf | internal/observability/domain/security_posture.go:184-214 | the worst that any cell calls for, secrets first |
| AppPosture.FlagsOf | internal/observability/domain/security_posture.go:294-314 | the headings an application comes under, over all stages |
| AppPosture.SummarizeApps | internal/observability/domain/security_posture.go:318-353 | each counter sums over the applications |
| AppPosture.CoverageBounds | internal/observability/domain/security_posture.go:318-353 | applications with a stage lie between the largest and the sum of the coverage counts |
| AppGroups.GroupAppsByStack | internal/observability/domain/security_posture.go:381-439 | every application is in exactly one group, that of its stack, under the names the stack and its cluster are known by; each group counts its own applications; groups with the worse application first, then with more problems, then by name, and the one without a stack last |
| AppGroups.GroupsMatchSummary | internal/observability/domain/security_posture.go:381-439 | in any such grouping the counters of the groups sum to those of the summary |
| AppGroups.OrderIgnoresInput | internal/observability/domain/security_posture.go:238-256 | with distinct pipelines the order shown does not depend on the order given |
| AppGroups.WorstFirst | internal/observability/domain/security_posture.go:238-256 | every application as often as it was given, by rank, critical findings, latest run, name and pipeline |
| StackPosture.EvaluateStack | internal/observability/domain/security_posture.go:544-597 | totals, worst image and oldest database of a scanned stack, and nothing of any other |
| StackPosture.GradeIff | internal/observability/domain/security_posture.go:487-507 | the grade of an image in terms of what can be fixed and who can reach it |
| StackPosture.WorstIsWorst | internal/observability/domain/security_posture.go:567-570 | no image has more of the most severe findings than the worst one, at the first severity where they differ; among equals it is the first by name |
| StackPosture.PostureIgnoresOrder | internal/observability/domain/security_posture.go:544-609 | with distinct image names they do not depend on the order of the images |
| RunSync.Execute | internal/cicd/usecase/sync_pipeline_runs.go:81-131 | what a synchronisation makes of the records and reports; only records of listed builds change, whatever fails |
| RunSync.PassSettles | internal/cicd/usecase/sync_pipeline_runs.go:95-131 | after a pass over builds that agree, every record is as its build wants it |
| RunSync.SecondPassIdle | internal/cicd/usecase/sync_pipeline_runs.go:95-131 | a second pass reports nothing exactly if builds of one number agree, and then changes nothing |
| RunSync.DistinctConverge | internal/cicd/usecase/sync_pipeline_runs.go:95-131 | distinct builds converge in one pass |
| RunSync.ExactIff | internal/cicd/usecase/sync_pipeline_runs.go:111-125 | a record is exactly its build's unless it had the same status and as many steps before |
| RunSync.StageProgressIsMissed | internal/cicd/usecase/sync_pipeline_runs.go:111-125 | a concrete run whose step stays shown as running |
| RunIds.IdInjective | internal/cicd/usecase/sync_pipeline_runs.go:76-78 | an identifier determines the trimmed pipeline and the number |
| RunIds.VersionRecovered | internal/cicd/usecase/list_pipeline_security.go:103-114 | the number of every generated identifier is recovered |
| RunIds.VersionShown | internal/cicd/usecase/sync_pipeline_runs.go:348-356 | what a record shows as its version is what its identifier reads as |
| RunIds.VersionOnlyOfOwn | internal/cicd/usecase/list_pipeline_security.go:103-114 | it is read as one of a pipeline exactly if it is that pipeline's |
| RunIds.StatusIff | internal/cicd/usecase/sync_pipeline_runs.go:398-431 | which results mean success, which mean still running, and which mean that nothing ran |
| RunIds.TimesOfRun | internal/cicd/usecase/sync_pipeline_runs.go:348-372 | when a run began and, if it is over and took any time, when it ended |
| RunIds.BuildsConverge | internal/cicd/usecase/sync_pipeline_runs.go:76-131 | distinct numbers have distinct records, so a pass over them converges |
| RunIds.SyncConverges | internal/cicd/usecase/sync_pipeline_runs.go:81-131 | run on builds with distinct numbers, each record says success, running or failed as its build's result does and has as many steps as it has stages, skipped builds have none, and the same run again reports 0 and changes nothing |
| Hull.Silhouette | scripts/emit-keycloak-theme-art.py:1583-1599 | two strictly left-turning chains of the given points, every given point on or left of every edge |
| SeparatingAxis.ConvexHit | scripts/emit-keycloak-theme-art.py:1602-1613 | false exactly if a normal of an edge of either outline separates them |
| SeparatingAxis.MissOnOneLine | scripts/emit-keycloak-theme-art.py:1602-1613 | then all common points of the two hulls lie on one line |
| SeparatingAxis.NoCommonSquare | scripts/emit-keycloak-theme-art.py:1602-1613 | so no square, however small, lies within both |
| HalfPlanes.InPlane | scripts/emit-keycloak-theme-art.py:1602-1613 | open half-planes have a common point, or at most three of them contradict each other with weights that show it: why testing the normals of edges is enough |
| ConvexHulls.InsideInHull | scripts/emit-keycloak-theme-art.py:1583-1599 | what is strictly on the left of every edge of a closed outline lies in its hull |
| Overlap.HitIffArea | scripts/emit-keycloak-theme-art.py:1602-1613 | convex outlines that are not flat are separated by no edge exactly if their hulls share an area |
| Silhouettes.SilhouettesHit | scripts/emit-keycloak-theme-art.py:1653-1658 | from the corners of two boxes to the answer: unless one lies on a line, yes exactly if the hulls of the corners share an area |

## Left out

- RunCycle: does not return the counters the cycle logs (stacks, unreachable, fired, repeated, resolved, closed).
- BuildManifest: does not carry run and organisation identifiers, versions, Helm releases, the marks of the quiesce
  window, the encryption key's name and the time; they are copied and nothing here depends on them.
- Silhouette: takes sorted distinct points; `Silhouettes.SilhouettesHit` sorts them, and rounding is not modelled.
- SilhouettesHit: says nothing where the corners of a box all lie on one line, and is not asked of a box that is one
  point on the screen, which has no outline.
- RunRestore.Perform: the integrity check after a restore is one call; what it counts as dangling is not modelled.
- Alerts: which alerts the filter accepts is an arbitrary predicate; notification texts, and a crash between claiming
  a notification and sending it. A repository call that fails has no effect. IDs are positions in the table.
- Retention: the day, week and month of a time are arbitrary functions; the library's sort is `Sorting.SortBy`.
- Backup and restore: streams, encryption and recording an artifact are one step that yields an artifact or fails; the
  manifest's JSON trip is the identity; the marks of the quiesce window and the total size on the record; unknown
  component names; comparing Helm releases; reading the key out of a location. What a listing returns is given with
  the job.
- Rate limiter: a cleanup and a request are atomic steps. Between the map lookup of a request and its entry lock the
  code may delete the entry; nothing is claimed of that race. Headers, and reading the user out of the context.
- Assistant: opening the tool session, listing tools, validating turns and the deadline; redaction and truncation are
  one arbitrary function.
- Scan: JSON decoding, image references and digests, recording scan results beside the runs, the gate of a missing
  report, and the policy settings that do not concern severities. Case mapping is exact for ASCII letters and the
  dotless and dotted I only.
- Vulnerability lists: reading a filter out of query parameters, the lists parsed from text lines.
- Posture: sorting and summing stack postures; whether the order of groups depends on the input.
- Geometry: coordinates are reals, taken as already rounded.
- Integers are unbounded except where decimal numbers are read, and times are integers.
