# A verified model of the publication workflow

The repository is a local product that lets a language model change code in a working copy, checks the result, has it
accepted and approved, and publishes it as one branch and one draft pull request. This project models its services in
Dafny and proves what they promise.

## How the model is organised

- `PublicationRows`, `PublicationSteps`, `PublicationSystem`: the publication protocol of `apps/approvals/` as one
  transition system. Every database transaction is a function on the tables; the worker's procedures are cut at their
  commit points; requests, policy changes, revocations, crashes, recovery and the remote interleave freely. The guard
  `_conditions`, `apps/approvals/services.py:122-172`, is `PublicationRows.Conditions`.
- `PublicationInvariant`, `PublicationRequests`, `PublicationExecution`, `PublicationReconcile`, `PublicationRuns`: the
  invariant of that system and why every step keeps it. `PublicationConsent`: the rules about approvals.
  `PublicationFrames`: what each step leaves alone. `PublicationBackups`: backups of the database while the remote moves
  on, and what restoring an old one over the present remote re-establishes. `PublicationTheorems`, `PublicationAuthority`:
  the promises, for every run, restores included.
- `PublicationStore`: the tables as a class whose methods update them in place, each tied to its transaction.
- `Gate`: launchers, heartbeats and recoveries on one clock (`apps/runs/processes.py`, `apps/runs/worker.py`).
- `RunSteps`, `RunInvariant`, `RunTheorems`, `RunLedger`: slots, leases, jobs, runs and their event logs.
- `TreePaths`, `TreeLinks`, `Workspace`, `TreeDisk`: path-keyed trees (`apps/runs/workspace.py`). `Pipeline`: what a
  successful run rests on. `Descendants`: the process table. `Evidence`: test reports. `Retention`: bundles and pins.
- `Reviews`: drafts, revisions and the two decisions on a result. `Access`: accounts and memberships.
- `Platform`: publishing and reviewing as one system, in which the publication services read results and administrators as
  the review services left them, and a backup or a restore is one of both. Here the chain of consent and the cut made by a
  restore are proved for every run. `PublicationWitness`: one run of the platform, from the first draft to a published
  result. `RestoreWitness`: one run after which a restored row lies. `Outcomes`: results and error codes.

## What is assumed of the surroundings

- Only this system writes the generated branch of a run and pull requests from it; the base branch and the draft flag
  belong to other people. A released write takes effect at most once, and if ever before its process record ends.
- Snapshots, trees and bundles are compared by digests that are taken to be injective. `fnmatch`, case folding and
  Unicode normalisation are parameters.
- One worker process runs at a time: `apps/runs/management/commands/process_jobs.py:17-43` holds an exclusive lock, and
  recovery runs only when a worker starts. The publication system is modelled on that basis; `Gate` is not, and lets
  any number of launchers and recoveries race.
- Policies of a project are kept as a history; a run never changes its project.
- A backup is the database of some moment, and any backup may be restored at any later time; the remote and its history
  stay as they are. The code asks for a source at rest (`apps/operations/backup.py:251`, `:316`), so at a restore no process
  of before can still write. Identifiers of publications, runs and revisions are UUIDs and never used twice.

## Where the code and its intent differ

- `heartbeat` reads the clock before it opens its transaction (`apps/runs/worker.py:48-50`). A heartbeat that is applied
  one tick late can revive a lease that a recovery already judged expired, and the launcher's second look then passes:
  `Gate.LateHeartbeatReleases`. This is the only way: `Gate.RunSafe` shows, for any lag, that a run is safe if none of its
  heartbeats is applied to a lease that is over on the clock, and `Gate.SafeIffTimely` that all runs are safe exactly if
  heartbeats do not lag behind the clock they read. Today the lock named above keeps the two apart.
- REJECTED and INVALIDATED are not final: a reconciliation may turn them into FAILED, which may be retried
  (`apps/approvals/services.py:252`). Without a restore the truth theorem holds nevertheless. With one it does not: a restore
  leaves REJECTED and INVALIDATED rows as the backup had them (`apps/operations/backup.py:287`), even if the publication was
  tried again and wrote after the backup. `RestoreWitness.RestoredRowMayLie` is such a run,
  `PublicationTheorems.RestoredRowLies` says exactly which restored rows lie, and nothing is written because of them: their
  runs are left behind by the restore.
- A restore raises a run's version without an event (`apps/operations/backup.py:289`), so the event-log theorem speaks
  of histories without a restore.

## Model

| member | source | states |
|---|---|---|
| `PublicationTheorems.ExactlyOnce` | apps/approvals/services.py:398-513 | in every run of the publication system, and over all publications, retries, policies, repositories and restores of old databases, each product run pushes at most once and opens at most one pull request |
| `PublicationTheorems.RemoteIsHistory` | apps/approvals/transport.py:196-227 | the remote is in every reachable state exactly what the logged writes built from nothing, in their order |
| `PublicationTheorems.StepGrows` | apps/approvals/transport.py:29-35 | one step changes a remote place only by creating an absent branch at the commit of a publication in progress that somebody approved, or by opening the missing pull request on it |
| `PublicationTheorems.RunGrows` | apps/approvals/transport.py:29-35 | over every further run an existing branch never moves and pull requests are only added |
| `PublicationTheorems.StateTellsTruth` | apps/approvals/services.py:211-219 | PUBLISHED means the remote holds the snapshot; PENDING, REJECTED, INVALIDATED and FAILED mean none of the own writes landed; a landed write leaves only UNKNOWN, PARTIAL, PUBLISHED or a recovery. In runs without a restore every row says so; in runs with restores a row does if and only if it is not a REJECTED or INVALIDATED row whose publication wrote, and only runs that a restore left behind have such rows |
| `PublicationTheorems.RestoredRowLies` | apps/operations/backup.py:281-300 | a row that told the truth when the backup was taken lies after the restore if and only if it was REJECTED or INVALIDATED in the backup and a write of its publication was logged after it |
| `RestoreWitness.RestoredRowMayLie` | apps/operations/backup.py:287-287 | some run leads to a REJECTED row whose own push took effect: rejected, backed up, reconciled to FAILED, retried, pushed, restored |
| `PublicationTheorems.RunSound` | apps/operations/backup.py:303-351 | every finite run keeps the invariant, the rules of consent and the fitness of every backup, also when any old backup is restored over the present remote |
| `PublicationTheorems.BackupOrigin` | apps/operations/backup.py:261-262 | every backup is the database of an earlier state of the run |
| `PublicationTheorems.PublishedStays` | apps/approvals/services.py:447-457 | once a publication was PUBLISHED, the remote holds what its snapshot promised in every later state, whatever is restored in between |
| `PublicationTheorems.ConsentHolds` | apps/approvals/services.py:222-245 | at most one valid decision per publication; APPROVED or PUBLISHING has a valid approval of exactly its snapshot; an abandoned one has none; no approval starts publishing twice |
| `PublicationTheorems.RevokedForGood` | apps/approvals/services.py:556-567 | after a revocation the user holds no valid approval in its scope, in any run in which the user does not become an administrator again |
| `Platform.EveryEffectHadConsent` | apps/approvals/services.py:122-172 | every push and pull request that ever took effect went through the whole chain, since the last restore before it, in this order and on one manifest: the owner confirmed the revision, its run succeeded, the owner accepted its complete NORMAL result, an administrator of that moment approved it, an administrator of that moment approved exactly this publication, and, before the write, the write was authorised for the job that held the lease, with the run SUCCEEDED and every required check passed on the tree |
| `Platform.RestoredResultsAreNeverWritten` | apps/operations/backup.py:281-300 | in every run and after every restore in it, of whatever backup over whatever remote, nothing is written to the remote for a result whose revision was confirmed before the restore, whether it was sealed before or afterwards and whether the backup has it or not |
| `Platform.RestoreEndsConsent` | apps/operations/backup.py:286-292 | from every reachable state the restore of any backup leaves remote and history alone and re-establishes the whole invariant, with no valid decision, nothing approved or in progress, no pending job, no open command and no current result |
| `Platform.RestoreTaken` | apps/operations/backup.py:285-285 | the condition under which the publication system admits a restore, that no result of a run from before is current, is always met by the drafts the restore sends back |
| `Platform.StepFits` | apps/artifacts/reviews.py:14-20 | every step of publishing, reviewing, backup or restore keeps both parts in step: publishing sees results, runs and administrators as they are, and no result of a run left behind becomes current |
| `Platform.ExactlyOnce` | apps/approvals/services.py:398-513 | in every run of the platform each product run pushes at most once and opens at most one pull request, whatever is restored |
| `Platform.OverStaysOver` | apps/operations/backup.py:288-288 | a publication job that is over never waits or runs again, whatever is restored, for as long as it is in the tables |
| `PublicationWitness.SomeRunPublishes` | apps/approvals/services.py:398-451 | some run of the platform from its beginning does publish: drafted, confirmed, run, sealed, accepted, approved, prepared, approved for publication, one push, one pull request, PUBLISHED |
| `PublicationAuthority.EveryEffectHadConsent` | apps/approvals/services.py:528-539 | in every run, restores of old databases included: each push or pull request that took effect was authorised before it, under the lease of its job, with run, checks, bundle, approval and policy on the manifest of its snapshot |
| `PublicationAuthority.SinceRestore` | apps/operations/backup.py:286-292 | what follows the last restore of a run starts with all commands ended and no decision valid |
| `PublicationAuthority.OpenCommandBacked` | apps/approvals/services.py:528-539 | from every such state: each command that is open later was authorised later too, for its row as it is |
| `PublicationAuthority.RecordWasAuthorised` | apps/approvals/transport.py:205-227 | every process that may write was launched after a successful authorisation of the same publication, job and write |
| `PublicationAuthority.AuthorisedHasConsent` | apps/approvals/services.py:122-172 | an authorisation means: the job holds the slot, the publication is PUBLISHING, the remote is still open for the write, and run, checks, review, approval and policy all speak about one snapshot |
| `PublicationAuthority.LaunchWasAuthorised` | apps/approvals/services.py:528-539 | the worker stands before a launch only after an authorisation of that write in the same run |
| `PublicationAuthority.ApprovalWasGiven` | apps/approvals/services.py:222-245 | every valid approval was given in a step since the last restore by an administrator of that moment, when all conditions of its publication held |
| `PublicationInvariant.CommitKeeps` | apps/approvals/services.py:197-203 | a transaction whose rows move lawfully keeps the whole invariant: references, one live publication per run, truth, slot, records, log and policies |
| `PublicationInvariant.CommitRecords` | apps/approvals/services.py:528-539 | while a write command is open, its publication stays PUBLISHING or UNKNOWN under the current policy, and the remote stays open for it |
| `PublicationRequests.PrepareRequested` | apps/approvals/services.py:180-194 | a preparation is queued only for a run none of whose publications ever wrote |
| `PublicationRequests.DecisionRequested` | apps/approvals/services.py:222-245 | approving or rejecting disturbs neither the truth of any row nor an execution in progress |
| `PublicationRequests.ReconcileRequested` | apps/approvals/services.py:248-261 | a reconciliation is queued only where no execution of the publication is pending |
| `PublicationRequests.RecoveryRequested` | apps/approvals/services.py:281-305 | a retry or the missing pull request is approved without breaking what the rows say of the remote |
| `PublicationRequests.AbandonRequested` | apps/approvals/services.py:308-324 | abandoning never hits a publication with a pending job or an open command |
| `PublicationRequests.InterruptionRequested` | apps/approvals/services.py:542-553 | an interruption leaves every row truthful and one live publication per run |
| `PublicationRequests.RevocationRequested` | apps/approvals/services.py:556-567 | a revocation leaves every row truthful and an execution in progress in UNKNOWN |
| `PublicationRequests.PolicyKeeps` | apps/approvals/services.py:91-119 | a policy change keeps the invariant: it is refused while a preparation or execution of the project is pending |
| `PublicationRequests.RequestedKeeps` | apps/approvals/services.py:180-324 | every request, revocation, cancellation and change of the surroundings keeps the invariant |
| `PublicationExecution.ApprovedUsesCurrentPolicy` | apps/approvals/services.py:161-170 | a current approval means that the snapshot names the policy of now |
| `PublicationExecution.ApproveKeeps` | apps/approvals/services.py:406-408 | starting to publish keeps the invariant |
| `PublicationExecution.DispatchKeeps` | apps/approvals/services.py:415-417 | recording the attempt before a write keeps the invariant |
| `PublicationExecution.LookBeforeWriteKeeps` | apps/approvals/transport.py:205-225 | the read right before a write leads to a write only while the remote is open for it |
| `PublicationExecution.AuthorizeKeeps` | apps/approvals/services.py:528-539 | the last check leads to a launch only under the current policy |
| `PublicationExecution.FinishKeeps` | apps/runs/worker.py:145-156 | the end of a claimed publication job keeps the invariant, with an error, without one, and with a process unconfirmed |
| `PublicationExecution.ExecuteKeeps` | apps/approvals/services.py:398-473 | every step of an execution, and every exception in it, keeps the invariant |
| `PublicationReconcile.TargetAgrees` | apps/approvals/services.py:484-498 | the verdict of a reconciliation agrees with the remote that was read |
| `PublicationReconcile.ReconcileKeeps` | apps/approvals/services.py:476-513 | every step of a reconciliation keeps the invariant, though requests may change the row in between |
| `PublicationReconcile.PrepareKeeps` | apps/approvals/services.py:368-395 | every step of a preparation keeps the invariant |
| `PublicationRuns.RecoverKeeps` | apps/runs/worker.py:67-102 | recovery at the start of a worker keeps the invariant and never frees a slot with an open command |
| `PublicationBackups.RestoreKeeps` | apps/operations/backup.py:286-292 | restoring any backup over the present remote keeps the whole invariant of the publication system |
| `PublicationBackups.RestoreConsents` | apps/operations/backup.py:286-286 | it also keeps the rules of consent: no decision is valid, and none was used twice |
| `PublicationBackups.MovesKeepBackups` | apps/operations/backup.py:281-300 | whatever the system does after a backup, what the backup would say of the remote stays true, except for rows the restore leaves REJECTED or INVALIDATED |
| `PublicationBackups.RestoredRowTells` | apps/operations/backup.py:287-287 | a restored row tells the truth if and only if it was not REJECTED or INVALIDATED in the backup or its publication never wrote |
| `PublicationRuns.ClaimBase` | apps/runs/worker.py:20-44 | claiming a publication job keeps the invariant |
| `PublicationRuns.LandedPolicies` | apps/approvals/services.py:161-170 | what takes effect was written under the newest policy any publication of the run has |
| `PublicationRuns.ApplyKeeps` | apps/approvals/services.py:398-513 | every step of requests, worker, crash, recovery and remote that restores nothing keeps the invariant |
| `PublicationConsent.GrantKeeps` | apps/approvals/services.py:281-305 | a fresh decision keeps the rules of consent because every other valid decision was withdrawn first or never existed |
| `PublicationConsent.StartConsents` | apps/approvals/services.py:406-408 | an approval is used at most once |
| `PublicationConsent.ApplyConsents` | apps/approvals/services.py:222-245 | every step that restores nothing keeps the rules of consent; decisions keep their content, withdrawn ones stay withdrawn, fresh ones are by administrators |
| `PublicationStore.Store.Move` | apps/approvals/services.py:197-203 | the conditional update by state and version succeeds exactly if nobody moved the row and no other live publication of the run exists |
| `PublicationStore.Store.InvalidateRow` | apps/approvals/services.py:211-219 | withdraws all decisions and moves to UNKNOWN, PARTIAL or INVALIDATED; it cannot fail on a live or abandoned row |
| `PublicationStore.Store.PreparePublication` | apps/approvals/services.py:180-194 | queues a preparation, or names the error |
| `PublicationStore.Store.DecidePublication` | apps/approvals/services.py:222-245 | the whole decision, with its errors in order, is the specified transaction |
| `PublicationStore.Store.ReconcilePublication` | apps/approvals/services.py:248-261 | queues a reconciliation, or names the error |
| `PublicationStore.Store.FindLastReconcile` | apps/approvals/services.py:293-293 | finds the finished reconciliation with the highest number |
| `PublicationStore.Store.ApproveRecoveryOf` | apps/approvals/services.py:281-305 | the whole recovery approval is the specified transaction |
| `PublicationStore.Store.AbandonRemaining` | apps/approvals/services.py:308-324 | the whole abandonment is the specified transaction |
| `PublicationStore.Store.InvalidateAll` | apps/approvals/services.py:117-118 | the loop invalidates exactly the given live publications |
| `PublicationStore.Store.ConfigureProject` | apps/approvals/services.py:91-119 | the policy change with its loop is the specified transaction |
| `PublicationStore.Store.MarkJobInterrupted` | apps/approvals/services.py:542-553 | the interruption is the specified transaction |
| `PublicationStore.Store.RevokeRow` | apps/approvals/services.py:563-567 | one row of a revocation |
| `PublicationStore.Store.RevokeActorPublications` | apps/approvals/services.py:556-567 | the revocation loop is the specified transaction, whatever its order |
| `PublicationStore.Store.SavePublication` | apps/approvals/services.py:389-395 | inserts the prepared publication, or names the error |
| `PublicationStore.Store.RememberObservation` | apps/approvals/services.py:345-352 | saves what was seen and forgets nothing seen before |
| `PublicationStore.Store.RecordDispatch` | apps/approvals/services.py:415-417 | records the attempt under the guard |
| `PublicationStore.Store.StartPublishingOf` | apps/approvals/services.py:406-408 | enters PUBLISHING under the guard and uses the approval once |
| `PublicationStore.Store.PublishExecution` | apps/approvals/services.py:449-451 | enters PUBLISHED under the guard |
| `PublicationStore.Store.SettleExecution` | apps/approvals/services.py:458-472 | the failure handler is the specified transaction |
| `PublicationStore.Store.SettleReconciliation` | apps/approvals/services.py:499-506 | the settlement uses the held copy of the row for its condition |
| `Gate.RunningHoldsSlot` | apps/runs/processes.py:159-195 | in a run in which no heartbeat is applied to an expired lease, whatever the lag of heartbeats, a released live command always has its slot, in every interleaving of launchers, heartbeats and recoveries |
| `Gate.RunSafe` | apps/runs/worker.py:67-102 | the same as an invariant: whoever judged the lease expired has every command that may run on its list |
| `Gate.PromptIsPunctual` | apps/runs/worker.py:47-53 | heartbeats that read the clock together with their update never touch an expired lease |
| `Gate.LateHeartbeatReleases` | apps/runs/worker.py:47-53 | the heartbeat reads the clock before its transaction: one that lags by a tick revives an expired lease, and a command is released after recovery |
| `Gate.SafeIffTimely` | apps/runs/worker.py:47-53 | the gate is safe in all runs if and only if heartbeats do not lag behind the clock they read |
| `RunInvariant.TransitionKeeps` | apps/runs/services.py:153-175 | a transition of a claimed run keeps slots, jobs and runs linked |
| `RunInvariant.TransitionRecords` | apps/runs/services.py:153-175 | a transition keeps every event log exact |
| `RunInvariant.CreateKeeps` | apps/runs/services.py:85-116 | creating a run keeps one run in progress per request and one job per run |
| `RunInvariant.RetryKeeps` | apps/runs/services.py:200-218 | so does a retry |
| `RunInvariant.CancelKeeps` | apps/runs/services.py:178-197 | cancelling a waiting run ends its job with it |
| `RunInvariant.RevokeKeeps` | apps/runs/services.py:221-236 | a revocation cancels waiting runs and their jobs together |
| `RunInvariant.ClaimKeeps` | apps/runs/worker.py:20-44 | a claim never finds a run that left the queue before its job, takes the next epoch, and keeps everything linked |
| `RunInvariant.HeartbeatKeeps` | apps/runs/worker.py:47-56 | a heartbeat extends the slot and its job alike |
| `RunInvariant.EndKeeps` | apps/runs/worker.py:172-176 | a claimed job ends and leaves its slot |
| `RunTheorems.FinaliseEnds` | apps/runs/worker.py:160-176 | the holder of the lease can end its job if and only if no process of the run is open; the status it chooses is always legal |
| `RunTheorems.RecoverEnds` | apps/runs/worker.py:89-102 | recovery ends a job if and only if no process of its run is open, even with an outdated view of the slot |
| `RunTheorems.ReachableLinked` | apps/runs/worker.py:20-56 | in every reachable state a job is ACTIVE exactly if its slot names it with equal owner, epoch and expiry; runs follow their jobs; a request has at most one run in progress |
| `RunTheorems.HistoryIsExact` | apps/runs/services.py:153-175 | without a restore every event log is numbered without a gap, chained, legal, as long as the version, and at most six entries long |
| `RunTheorems.Bounded` | apps/runs/services.py:16-23 | a rank on the statuses bounds the length of every log |
| `RunTheorems.EndIsFinal` | apps/runs/services.py:160-161 | a run that ended never changes again |
| `RunTheorems.OverIsFinal` | apps/runs/worker.py:26-37 | a job that is over never waits or runs again, restores included |
| `RunTheorems.EpochsGrow` | apps/runs/worker.py:29-33 | slot epochs never go back, and whoever holds a slot later under another job has a greater one |
| `RunTheorems.RestoreKeeps` | apps/operations/backup.py:288-291 | a restore re-establishes the links of slots, jobs and runs from every reachable state and leaves everything over |
| `RunTheorems.RestoreCuts` | apps/runs/services.py:206-208 | after a restore no earlier job of any kind waits or runs and no earlier run can be retried, in every later state |
| `RunTheorems.ApplyKeeps` | apps/runs/services.py:221-236 | every step keeps the links; every step but a restore keeps the logs |
| `RunLedger.Ledger.TransitionRun` | apps/runs/services.py:153-175 | the guarded status change with its event |
| `RunLedger.Ledger.FindUnfinished` | apps/runs/services.py:162-166 | finds an open process of the run, counting given-up ones only for success |
| `RunLedger.Ledger.CreateRun` | apps/runs/services.py:85-116 | a new run with its job, or the earlier answer |
| `RunLedger.Ledger.RetryRun` | apps/runs/services.py:200-218 | a new run for the revision of a finished one |
| `RunLedger.Ledger.CancelRun` | apps/runs/services.py:178-197 | the cancellation of a run |
| `RunLedger.Ledger.RevokeActorWork` | apps/runs/services.py:221-236 | the loop over the user's runs and the update of the jobs are the specified transaction |
| `RunLedger.Ledger.ClaimJob` | apps/runs/worker.py:20-44 | claims the first waiting job of a free slot; it never fails |
| `RunLedger.Ledger.FindNext` | apps/runs/worker.py:26-26 | finds the first waiting job of the slot and the instance |
| `RunLedger.Ledger.BeatJob` | apps/runs/worker.py:47-56 | the heartbeat |
| `RunLedger.Ledger.ReleaseSlot` | apps/runs/worker.py:102-102 | frees the slot only if it still holds this job and epoch |
| `RunLedger.Ledger.RecoverJob` | apps/runs/worker.py:89-102 | the transaction of a recovery |
| `RunLedger.Ledger.FinaliseJob` | apps/runs/worker.py:160-176 | the last transaction of a claimed job |
| `TreePaths.EnsureNoCollisions` | apps/runs/workspace.py:82-92 | accepts exactly the trees in which no two prefixes fold to one name and no entry lies beneath another |
| `TreeLinks.FollowIsSound` | apps/runs/workspace.py:165-193 | where the check accepts, no walk repeats a node or stops at a dead end |
| `TreeLinks.FollowIsComplete` | apps/runs/workspace.py:165-193 | where the check refuses, there is a walk to blame |
| `TreeLinks.ValidLinksExactly` | apps/runs/workspace.py:163-197 | a tree is accepted if and only if every walk from a link visits no node twice and stops at no dead end |
| `TreeLinks.AcceptsExactlyFiniteWalks` | apps/runs/workspace.py:163-197 | equivalently: if and only if all walks from links are bounded in length and none meets a dead end |
| `TreeLinks.AcceptedWalksEnd` | apps/runs/workspace.py:195-197 | in an accepted tree the size of the tree bounds every walk |
| `TreeLinks.RepetitionIsEndless` | apps/runs/workspace.py:166-167 | a walk that repeats a node can be continued beyond every bound |
| `Workspace.ApplyChanges` | apps/runs/workspace.py:496-510 | takes over every permitted difference, or stops at the first that is not permitted |
| `Workspace.FreezeCandidate` | apps/runs/workspace.py:487-516 | succeeds if and only if the baseline is the preserved one, every difference is writable and no link, and the overlay has no collision and valid links; then it is exactly the overlay and lists exactly the changed paths |
| `Workspace.FrozenIsOverlay` | apps/runs/workspace.py:487-516 | unreadable paths keep their baseline entry, the readable part of the candidate is the working copy, every change was writable and no link |
| `Workspace.CommitCandidate` | apps/runs/workspace.py:519-543 | commits the readable part of the verified candidate, or refuses a changed copy or a moved branch |
| `Workspace.FreezeAndCommit` | apps/runs/workspace.py:487-543 | what is committed is exactly what the modification left in its working copy |
| `TreeDisk.InsertAdds` | apps/runs/workspace.py:280-299 | creating one entry adds exactly that entry, and folders only on the way to it |
| `TreeDisk.Materialize` | apps/runs/workspace.py:270-302 | succeeds exactly on trees without collisions and with valid links, and then the directory holds exactly the tree |
| `TreeDisk.Visit` | apps/runs/workspace.py:323-381 | finds exactly the entries beneath a folder that are not left out |
| `TreeDisk.CollectTree` | apps/runs/workspace.py:318-390 | reports exactly what is in the directory, if that passes both checks |
| `TreeDisk.RoundTrip` | apps/runs/workspace.py:270-390 | writing a tree, initialising version control in it and collecting it gives the same tree |
| `Descendants.ProcessRecord.Pass` | apps/runs/processes.py:76-82 | one pass over the process table adds only what every closed set contains, and adds nothing only when closed |
| `Descendants.ProcessRecord.Close` | apps/runs/processes.py:73-82 | the loop ends with the least set that contains the tracked processes and is closed under children and group, whatever the order of the table |
| `Descendants.ProcessRecord.Observe` | apps/runs/processes.py:63-87 | tracking only grows to that closure; exactly a reused pid or a process outside the group is an error |
| `Descendants.ProcessRecord.ConfirmStopped` | apps/runs/processes.py:90-104 | on an unchanged boot a command is confirmed stopped only when no process of the table is in its group or descends from any pid ever tracked |
| `Descendants.ClosedUnderChains` | apps/runs/processes.py:76-82 | a closed set contains every descendant of its members |
| `Evidence.WithinLimits` | apps/runs/verification.py:159-174 | reading the event stream once refuses exactly the reports that are too deep or too large |
| `Evidence.EventsMeasure` | apps/runs/verification.py:163-172 | the event stream of an element is balanced, as long as its size and as deep as its height |
| `Evidence.CountIsRecount` | apps/runs/verification.py:207-213 | counting the flattened subtree is counting along its structure |
| `Evidence.Partition` | apps/runs/verification.py:186-203 | passed, failed and skipped cases partition the cases of every subtree of an accepted report |
| `Evidence.JunitCounts` | apps/runs/verification.py:152-221 | accepts exactly the reports within the limits, well structured, with known statuses and with totals that recount, and returns the recounts |
| `Evidence.NestedTotals` | apps/runs/verification.py:204-218 | at any nesting the declared total of a suite is the recount of its subtree, partitioned |
| `Evidence.ReadSegments` | apps/runs/verification.py:26-35 | one well-formed number per kind, and at least one |
| `Evidence.ParseSegments` | apps/runs/verification.py:19-41 | the summary line counts unexpected passes as passed and every kind of error as failed |
| `Evidence.AssessCheck` | apps/runs/verification.py:224-283 | a TEST check is PASS on a JUnit report only with exit 0, complete output, an accepted report, at least one passed and no failed case and no summary line that disagrees, and then always |
| `Evidence.RecordedCheck` | apps/approvals/services.py:150-160 | a TEST check judged PASS meets the publication's own test conditions |
| `Retention.AliveVerifies` | apps/artifacts/services.py:192-220 | a sealed bundle that is alive and not restricted verifies; one that is not alive is EXPIRED |
| `Retention.RetentionHolds` | apps/artifacts/services.py:192-309 | on every schedule of time, pins, unpins, expiry passes, ending runs and new bundles, every alive NORMAL bundle verifies, and one that died unpinned never verifies or is pinned again |
| `Retention.RemovalKeeps` | apps/artifacts/services.py:288-304 | removing a due file, even with an old clock reading, never takes a required file from an alive bundle |
| `Retention.Archive.Seal` | apps/artifacts/services.py:116-174 | a sealed NORMAL bundle verifies at once |
| `Retention.Archive.VerifyBundle` | apps/artifacts/services.py:192-220 | the verdict in the order of its checks, and the corruption mark exactly when a file is missing |
| `Retention.Archive.PinBundle` | apps/artifacts/services.py:239-243 | pins only what verifies now, keeps an existing pin, and refuses a bundle that died |
| `Retention.Archive.UnpinBundle` | apps/artifacts/services.py:246-247 | removes one pin |
| `Retention.Archive.ExpireArtifact` | apps/artifacts/services.py:292-304 | removes a file exactly if it is due, with its record |
| `Retention.Archive.ExpireBundle` | apps/artifacts/services.py:305-308 | ends a bundle exactly if it is due |
| `Retention.Archive.ExpireResults` | apps/artifacts/services.py:288-309 | an expiry pass removes exactly the due files and leaves alive bundles as they are |
| `Pipeline.CheckPhase` | apps/runs/pipeline.py:96-132 | succeeds exactly if the lease held, every report was fresh and the folder was the expected tree before and after every command |
| `Pipeline.ChangedRows` | apps/artifacts/services.py:99-113 | lists every path where the trees differ, once, with the right kind of change and the entries of both sides, and no other |
| `Pipeline.SealResult` | apps/artifacts/services.py:116-174 | seals exactly the tree the checks saw |
| `Pipeline.FinishRun` | apps/runs/pipeline.py:207-246 | a run succeeds if and only if the working copy may be frozen, every later look was at that very tree, every required check passed on it, the bundle is COMPLETE and NORMAL, no process was left and the tables allow the transition; what was frozen, checked, sealed and committed is then that one tree |
| `Pipeline.SucceededWasFinished` | apps/runs/pipeline.py:207-246 | in every history from empty tables in which the last statement of the procedure is the step to SUCCEEDED, each SUCCEEDED run was made so by such a finish: on one tree, with the working copy as its readable part, and no process left |
| `Pipeline.PlayIsRunPlay` | apps/runs/services.py:153-175 | every such history is a history of the run machine, so what is proved of slots, leases and event logs holds of it |
| `Reviews.ApprovedByBoth` | apps/artifacts/reviews.py:23-69 | in every reachable state an approved result of a revision confirmed on the way has its history, in this order and on one manifest: confirmation of the revision by the owner, success of its run, acceptance by the owner, approval by an account that was an administrator at that step |
| `Reviews.ApprovalStands` | apps/artifacts/reviews.py:41-45 | an approval of a result stands in every later state |
| `Reviews.StaleForever` | apps/artifacts/reviews.py:14-20 | a result that is not current never becomes current again |
| `Reviews.OneCurrent` | apps/artifacts/reviews.py:14-20 | a request has at most one current result, in every state reachable from an empty or restored desk |
| `Reviews.ReworkEnds` | apps/artifacts/reviews.py:48-51 | after a request for changes the old result can neither be accepted nor approved, ever |
| `Reviews.RestoreCuts` | apps/operations/backup.py:285-285 | after a restore no result of a revision the restored desk has is current in any later state, whenever it was sealed |
| `Reviews.RevisionKeeps` | apps/work_requests/services.py:139-173 | what is ready is always a revision of the draft as it is now, and a draft is confirmed once |
| `Reviews.Tables.SaveDraft` | apps/work_requests/services.py:91-107 | a draft is saved only on its expected version and is not ready afterwards |
| `Reviews.Tables.ConfirmRevision` | apps/work_requests/services.py:139-173 | confirms a draft once, or answers with the earlier revision |
| `Reviews.Tables.SubmitRevision` | apps/work_requests/services.py:176-219 | starts the run of a confirmed revision once, unless another run of the request is in progress |
| `Reviews.Tables.DecideResult` | apps/artifacts/reviews.py:23-69 | the whole decision on a result with its pin is the specified transaction |
| `Access.RevokedWork` | apps/accounts/services.py:161-164 | a revocation ends all work of the user in its scope and starts nobody's |
| `Access.Accounts.ChangeRights` | apps/accounts/services.py:146-158 | an account changes exactly if an administrator asks on the expected version and an active administrator remains |
| `Access.Accounts.ChangeAccount` | apps/accounts/services.py:190-222 | after every change of a role or an activation all work and approvals left belong to somebody with access; what is revoked is exactly the work of the account in its scope |
| `Access.Accounts.SetMembership` | apps/accounts/services.py:225-246 | so after every change of a membership, which revokes the work in that project exactly if a manager lost it |
| `Access.Accounts.ResetPassword` | apps/accounts/services.py:296-306 | a reset ends everything the user had in progress |
| `Access.Accounts.Proceed` | apps/accounts/services.py:54-87 | work is started only by somebody with access to the project, and no other step of runs and jobs gives anybody work |
| `Access.Accounts.Approve` | apps/approvals/services.py:222-245 | an approval is given only by somebody who is an administrator now |

## Left out

- PublicationStore.Store.PreparePublication: without the idempotency receipt; a repeated request returns the earlier answer and changes nothing.
- PublicationStore.Store.DecidePublication: without the receipt, the length of the reason and the pin of the publication on its bundle.
- PublicationStore.Store.ReconcilePublication: without the receipt.
- PublicationStore.Store.ApproveRecoveryOf: without the receipt.
- PublicationStore.Store.AbandonRemaining: without the receipt, the length of the reason and the pin of the publication on its bundle.
- PublicationStore.Store.ConfigureProject: a policy is its version, repository and mode; its other fields and their syntax checks decide nothing here.
- PublicationStore.Store.RecordDispatch: without the finish time and the evidence of the attempt.
- RunLedger.Ledger.CreateRun: without the access check, the resolved execution input and the snapshot of the profile; they only refuse.
- RunLedger.Ledger.RetryRun: without the access check and the resolved execution input; they only refuse.
- RunLedger.Ledger.CancelRun: without the access check and the operation receipt; they only refuse or repeat an answer.
- RunLedger.Ledger.RecoverJob: the interruption of a publication in the same transaction is `PublicationSystem.Recover`; model calls are not rows here.
- TreeDisk.CollectTree: without undecodable names and contents, special files, inode and time checks, permissions and size limits; the
  marker file of a linked working copy and empty directories are not collected. Byte lengths of link targets are counted in characters.
- Evidence.ReadSegments: a summary is split into segments; its regular expressions are not part of this model.
- Evidence.ParseSegments: without line splitting and terminal escapes.
- Pipeline.ChangedRows: without the flag for binary contents.
- Pipeline.SealResult: the patch, the secret scan and the size limits are inputs.
- Reviews.Tables.SubmitRevision: without the receipt, the resolved execution input and the comparison of attachments; they only refuse.
- Restored files, sessions, profiles and health rows: they decide nothing about publications. Confirming again after a restore
  makes a new revision, which may be published.
- Audit rows, texts, addresses and error-code columns: they influence no decision here.
- `_execute_job`, `_reconcile_job` and `_prepare_job` are not single methods: they are cut at their commit points into the
  steps of `PublicationSystem`, because other transactions interleave there; the transactions themselves are methods of
  `PublicationStore`.
- A publication job that ends while its cancellation is requested is DONE or STOPPED in the publication model; the exact
  end state is in `RunSteps.Finalise`.
- Other kinds of jobs that occupy the execution slot, and read-only commands whose records also keep a slot: without
  them the publication system can do more, not less. The order of the queue is in `RunSteps` only.
- Gate.RunSafe: one job and its slot; launches of other jobs do not interact with it.
- The copies of the lease times on the run row, and the idle heartbeat of free slots.
- Access to rows and the network error paths of `require_access` beyond role, activity, password state and membership.
- Sorting: methods take the order in which they go through paths, rows or processes as an argument and hold for every order.
- The first half of `execute_run` (baseline checks, preparation and the modification itself): it only decides whether the
  second half is reached.
- Reading report files and XML syntax: reports are parsed trees. Retention of uploads: only artifacts of bundles are sealed.
- Views, forms, templates, the command line prototype, sandbox probing, prompts, profiles and migrations.
- Git, GitHub, Docker and the model's command line are foreign: a push creates an absent branch, an observation is one read.
