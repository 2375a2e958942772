# ReleaseDock: verified models

ReleaseDock is a deployment gateway: an API server and several runners share
PostgreSQL tables and a file store. This project models its deployment control
plane, and the smaller components whose correctness is not visible from one
function, and proves what they are for.

**Control plane.** `Domain` holds the tables as one value, `Transitions` every
transaction as a function on it, `Invariants` what each of them keeps. A run is
any sequence of transactions: concurrency, slow workers and crashes are the
choice of the sequence. `Fencing`, `DeploymentStack`, `Approvals` and
`QuickVersions` prove the protocol properties over all runs. `Pipeline`,
`PipelineMoves` and `PipelineRuns` add one process per claimed job, whose calls
may be lost on the way or lose their answer. `RequestOutcomes`, `RunnerOutcomes`
and `Recovery` say of every transaction exactly when it is answered Done and what
the tables then hold, in columns; `Progress` and `PipelineProgress` prove that what
the safety theorems speak of can be reached. `RunnerStore`, `ReleaseServer` and
`Processor` are the same operations in the imperative form of the sources, each
method proved against the transition it implements.

**Components.** `SemVer`, `QuickArtifact` (versions and file names), `Redactor`
(streaming secret redaction), `Archive` and `ArchiveContents` (tar extraction with
links), `Rbac`, `RbacOutcomes` and `RbacServer` (delegated administration), `LogBudget` (lock-free byte budget),
`Utf8` and `LineLogger` (line logger of simple mode), `Framing` (executor wire
protocol), `Bearer` (registry challenge parser), `SimpleStages` (stages of an
upload), `Uploads` and `UploadOutcomes` (crash safety of artifact files). `Common`, `Text` and
`Output` hold what several of them share.

`dafny verify dfyconfig.toml` checks everything; there is nothing to run.

Assumptions and conventions:

- A transaction is atomic: advisory locks, `FOR UPDATE` and serializable
  isolation become one step. Job ids grow in the order of insertion; `created_at`
  is when the inserting transaction began, an input that need not follow it.
- The dispatch of `releases.go:942-946` on the stored operation is part of the
  transaction that follows it.
- The trigger that copies a job's status to its release
  (`backend/internal/store/migrations/001_initial.sql:510-518`) is part of the
  writes that fire it.
- Which leases have expired, which queued job is at the front, whether profiles,
  credentials, scripts and runners are usable, and whether an advisory lock is
  contended are arbitrary inputs of the transactions.
- The approval policy is fixed during a run. Worker ids are unique to processes.
- Rows and fields marked as history (submitted request, submitter, standing
  approval, decisions, granted bytes, the answer to a COMMIT) do not influence any
  transaction.
- That a server error answered to COMMIT means a rollback is a premise of
  `Uploads.CommittedArtifactIsThere` and `Uploads.UndecidedArtifactIsKept` alone
  (`Uploads.ServerErrorsRollBack`). COMMIT returns without error, and its row is
  seen, only after it took effect.
- Whether the sink stores a log row, and whether an INSERT or UPDATE of the run
  logger succeeds, are arbitrary scripts.
- Section numbers of SemVer 2.0.0, RFC 3629, RFC 7230 and RFC 7235 are those of the
  published documents.

## Model

| member | source | states |
|---|---|---|
| Invariants.InitOk | backend/internal/server/releases.go:149-168 | the empty tables satisfy the control-plane invariant |
| Invariants.QueueKeeps | backend/internal/server/releases.go:1031-1077 | inserting a job on a target without unfinished job, with the head it replaces or returns to, keeps every invariant of releases, jobs, locks and heads |
| Invariants.AdvanceKeeps | runner/internal/store/store.go:329-349 | claiming a job or beginning a step keeps the invariant |
| Invariants.EndKeeps | runner/internal/store/store.go:714-755 | ending a job in any terminal status, with the head move that goes with it, keeps the invariant |
| Invariants.DeleteKeeps | backend/internal/server/releases.go:311-371 | deleting an editable release with its jobs keeps the invariant: nothing that others point to is lost |
| Invariants.PlanFacts | backend/internal/server/releases.go:879-920 | a rollback plan names a successful DEPLOY of the target: what the head replaced for the head's own release, the head itself for a failed newer attempt |
| Invariants.NextKeeps | backend/internal/server/releases.go:938-1095 | every transaction of API and runner keeps the invariant |
| Invariants.RunKeeps | runner/internal/store/store.go:42-98 | so does every interleaving of transactions, crashes and stale recoveries |
| Fencing.OneUnfinishedJobPerTarget | backend/internal/server/releases.go:798-817 | a target has at most one unfinished job in every reachable state |
| Fencing.LockRowIsExecution | runner/internal/store/store.go:277-284 | a lock row exists exactly while a job of the target executes, and names that job and its worker |
| Fencing.OwnershipIsLease | runner/internal/store/store.go:643-655 | the two guards of the runner's statements (job row owned, lock row held) agree in every reachable state |
| Fencing.ClaimNeverFindsLockBusy | runner/internal/store/store.go:285-295 | the lock-busy branch of a claim is never taken |
| Fencing.EndedJobIsFenced | runner/internal/store/store.go:714-755 | after a job ended, by a terminal write or stale recovery, no later call of any worker changes its row, steps, images, logs or any head; every such call loses the lease |
| Fencing.StrangerChangesNothing | runner/internal/store/store.go:661-712 | a call by a worker that does not hold the lease changes no table |
| Fencing.ClaimedAndFinishedAtMostOnce | runner/internal/store/store.go:221-351 | over any run a job is claimed at most once and at most one terminal write takes effect on it |
| Fencing.InFlightIsUnfinishedJob | backend/internal/server/releases.go:834-845 | a release has an unfinished job exactly while its status is queued or executing |
| Fencing.AtMostOneSuccessfulDeploy | backend/internal/server/releases.go:1301-1350 | a release gets at most one successful DEPLOY job over any run, through rejected, failed, retried and invalidated requests |
| Fencing.RunEvolves | runner/internal/store/store.go:42-98 | job rows only move forward: a finished job and all its records stay, successful jobs are never deleted, new jobs get new ids |
| Fencing.InsertedIsLatestExactly | backend/internal/server/releases.go:854-871 | a job just inserted is the latest attempt of its target if and only if its transaction did not begin before that of the attempt that was the latest |
| Fencing.OnlyLatestAttemptIsRetried | backend/internal/server/releases.go:974-991 | a retry concerns the latest failed attempt; a job inserted after it began before it, and where no job is inserted that began before one its target has, the retried attempt is the last |
| DeploymentStack.StackShape | runner/internal/store/store.go:757-793 | following the source columns from the head gives a finite chain of successful DEPLOY jobs of the target, strictly older downwards, each the one the job above replaced |
| DeploymentStack.StepRefinesStack | runner/internal/store/store.go:757-793 | every transaction is a push, a pop or nothing on that stack; a pop always leaves a deployment behind |
| DeploymentStack.RunRefinesStack | runner/internal/store/store.go:757-793 | so the tables refine a stack over whole runs |
| DeploymentStack.HeadsStay | runner/internal/store/store.go:42-98 | nothing but a terminal write moves a head: failures, stale recovery and requests leave it |
| DeploymentStack.RollbacksUndoDeploys | backend/internal/server/releases.go:879-920 | after a stretch in which each head rollback undid a deployment of the stretch and none is left over, head and stack are as before |
| DeploymentStack.DeploysThenRollbacks | backend/internal/server/releases.go:879-920 | n deployments and then n head rollbacks restore the head, whatever else happens in between |
| Approvals.SpendKeeps | backend/internal/server/releases.go:1063-1077 | queueing moves the standing approval of the release to the job, unspent before and spent once after |
| Approvals.GrantKeeps | backend/internal/server/releases.go:1145-1229 | an approval is a fresh decision about the submitted request, by somebody else than the recorded requester unless self-approval is on |
| Approvals.RunApproved | backend/internal/server/releases.go:1110-1263 | the approval invariant holds in every reachable state under a fixed policy |
| Approvals.RequiredJobWasApproved | backend/internal/server/releases.go:1010-1030 | every job on an approval-required target spends an APPROVED decision of its release, not made by the recorded requester unless self-approval is on; a DEPLOY carries the version, profile and artifact, a ROLLBACK the source, that stood at submission; a rollback was not approved by who submitted it |
| Approvals.SubmitterIsRefusedExactly | backend/internal/server/releases.go:1010-1030 | who submits a request is refused its approval if and only if self-approval is off and the request is a retry, a rollback, or submitted by the recorded requester |
| Approvals.SubmitterApprovesDraftOfAnother | backend/internal/server/releases.go:1129-1158 | the other case, as a run: with self-approval off a user submits another user's draft and approves it |
| Approvals.ApprovalSpentOnce | backend/internal/server/releases.go:1063-1077 | once a job has carried an approval, no other job carries it and no release has it standing at any later point of any run, even after the job was deleted |
| QuickVersions.UpgradeRow | backend/internal/server/presets.go:708-720 | a quick release that passes the upgrade check is newer than the deployment it is checked against |
| QuickVersions.VersionsDecreaseDownTheStack | backend/internal/server/presets.go:465-573 | on a target served only by quick releases whose versions are not edited, versions strictly decrease from the head down, by SemVer precedence and by the server's comparison |
| PipelineMoves.ElsewhereOutside | runner/internal/store/store.go:42-98 | no other transaction touches what a running process relies on, except by ending, deleting or creating its job |
| PipelineMoves.MoveKeeps | runner/internal/pipeline/pipeline.go:326-347 | one move of a process, whatever becomes of its call, keeps the claims about its job and leaves other jobs alone |
| PipelineRuns.HappenKeeps | runner/internal/pipeline/pipeline.go:84-166 | every event of the system (process moves, claims, crashes, other transactions) keeps all claims |
| PipelineRuns.TerminalMeansWholePlan | runner/internal/pipeline/pipeline.go:207-269 | SUCCESS or ROLLED_BACK means that the job was carried out: its step rows all succeeded and strictly increase in the order of the work (validate, pre-check, extract, inspect, load, tag, push, deploy or roll back, verify), a SUCCESS has each of a deployment's and a ROLLED_BACK exactly validate, roll back and verify, the last row is a succeeded VERIFYING; the status fits the operation; every image row of a SUCCESS has a digest |
| Pipeline.PlanCarriesOut | runner/internal/pipeline/pipeline.go:207-269 | finishing an operation's steps carries it out: each thing once, in the order of the work, verification last |
| PipelineRuns.DeploysPushedImagesOnly | runner/internal/pipeline/pipeline.go:225-236 | in every behaviour, no DEPLOYING row of a deployment is begun while a package image lacks its digest |
| PipelineRuns.RollbackRestoresImages | runner/internal/pipeline/pipeline.go:271-324 | a completed rollback has exactly the image rows of the deployment it returned to, digests in normal form |
| PipelineRuns.DeployedImagesAreReady | runner/internal/store/store.go:447-483 | a successful deployment with images can always be loaded as a rollback source: no row misses its digest |
| Processor.Processor.WithStep | runner/internal/pipeline/pipeline.go:326-347 | with the lease a step succeeds exactly when neither its work nor a log writer fails, and leaves a finished row with its image records, or a broken row with the records made until then; without the job it changes nothing |
| Processor.Processor.Run | runner/internal/pipeline/pipeline.go:207-246 | the step loop carries the whole operation out, each thing in its turn, or stops at the first trouble: the steps before it finished, that one broken, none after it begun |
| Processor.Processor.Process | runner/internal/pipeline/pipeline.go:84-166 | in a reachable state with the lease the process succeeds if and only if nothing goes wrong before, in or after the steps; then the new step rows carry the operation out, its terminal status is written and every package image has its digest; otherwise the job ends as FAILED with what was done until then |
| PipelineProgress.MoveExactly | runner/internal/pipeline/pipeline.go:326-347 | a process that owns its job still owns it after a move, and stays on its way to a good end if and only if nothing goes wrong in the move |
| PipelineProgress.EndExactly | runner/internal/pipeline/pipeline.go:136-165 | its last write ends the job as the process was going to, unless the write is never sent |
| PipelineProgress.UndisturbedEndsWell | runner/internal/pipeline/pipeline.go:84-166 | from any point of any process that owns its job and met no trouble, undisturbed moves end the job in its operation's terminal status |
| RunnerStore.PGStore.ClaimJob | runner/internal/store/store.go:221-351 | the claim transaction, statement by statement, is the claim transition |
| RunnerStore.PGStore.Heartbeat | runner/internal/store/store.go:555-589 | succeeds exactly when the worker holds the lease |
| RunnerStore.PGStore.BeginStep | runner/internal/store/store.go:591-631 | is the begin-step transition and returns the new step's number |
| RunnerStore.PGStore.FinishStep | runner/internal/store/store.go:633-655 | is the finish-step transition |
| RunnerStore.PGStore.AppendLog | runner/internal/store/store.go:656-675 | is the append-log transition |
| RunnerStore.PGStore.RecordImage | runner/internal/store/store.go:676-697 | is the record-image upsert; a missing digest never replaces a recorded one |
| RunnerStore.PGStore.FinishJob | runner/internal/store/store.go:714-755 | is the terminal-write transition: job, release, head and lock change together or not at all |
| RunnerStore.PGStore.RecoverStaleJobs | runner/internal/store/store.go:42-98 | is the recovery transition: every executing job of the scan ends FAILED with no holder, its lock row gone and its release FAILED, everything else stays, and the result is their number |
| RunnerStore.HeadAfterUpdate | runner/internal/store/store.go:757-793 | the head statement sees the updated job row and finds what it would have found before |
| ReleaseServer.Server.UpdateRelease | backend/internal/server/releases.go:283-309 | the edit handler is the edit transition: only editable releases change |
| ReleaseServer.Server.PersistArtifactTx | backend/internal/server/releases.go:589-708 | the row half of an upload is the upload transition |
| ReleaseServer.Server.EnqueueRelease | backend/internal/server/releases.go:938-1095 | the enqueue handler with retry, review and queue branches is the enqueue transition |
| ReleaseServer.Server.RollbackRelease | backend/internal/server/releases.go:1265-1438 | the rollback handler is the rollback transition |
| ReleaseServer.Server.Decision | backend/internal/server/releases.go:1110-1263 | review, approve and reject are the decision transition |
| ReleaseServer.Server.QueueQuickDeployTx | backend/internal/server/presets.go:465-544 | queues a quick release or leaves the caller's transaction as it was |
| ReleaseServer.Server.QuickRelease | backend/internal/server/presets.go:588-813 | the quick-release handler is the quick-release transition |
| Transitions.QuickReleaseCases | backend/internal/server/presets.go:588-813 | a quick release changes nothing, inserts a row for review, or inserts a row and queues it, and each only after name and upgrade checks |
| Domain.LatestBelow | backend/internal/server/releases.go:854-871 | the latest job of a target is the one that all its other jobs come before, by created_at and then by id |
| RequestOutcomes.EnqueueExactly | backend/internal/server/releases.go:938-1095 | a submission or retry is answered Done if and only if it can be put up for review or queued, said in columns; the release row and the job it inserts; a refusal changes nothing, except that a recorded retry of an attempt that is no longer the last is dropped |
| RequestOutcomes.PlanMeans | backend/internal/server/releases.go:879-920 | what a release goes back to, if and only if: for the head's own release what it replaced, when the last attempt is the head's job, came back to the head, or is a failed rollback to be retried; for another release the head, when the last attempt is its failed deployment or a failed rollback to be retried |
| RequestOutcomes.RollbackExactly | backend/internal/server/releases.go:1265-1438 | a rollback request is answered Done if and only if the release goes back to something that can be restored and the guards hold; the row and the job, with that source |
| RequestOutcomes.DecideExactly | backend/internal/server/releases.go:1110-1263 | when a review, an approval and a rejection are answered Done, and the row, the decision and, for a quick release, the job after each; a refusal changes nothing |
| RequestOutcomes.QuickReleaseExactly | backend/internal/server/presets.go:588-813 | a quick release is answered Done if and only if the file is acceptable (name, preset, expected version, newer than the head, version free) and its target ready; the row, and the job unless approval is needed; a refusal changes nothing |
| RequestOutcomes.CreateExactly | backend/internal/server/releases.go:149-168 | when a release is created, and its row |
| RequestOutcomes.EditExactly | backend/internal/server/releases.go:283-309 | when an edit is accepted, and what it changes |
| RequestOutcomes.UploadExactly | backend/internal/server/releases.go:589-708 | when an upload is accepted, and what it changes |
| RequestOutcomes.DeleteExactly | backend/internal/server/releases.go:311-371 | a release is deleted if and only if it is editable and nothing points to it; its jobs and their rows go with it and nothing else |
| RunnerOutcomes.ClaimExactly | runner/internal/store/store.go:221-351 | a claim takes the waiting job if and only if it can be carried out: VALIDATING under the worker with the lock row; one that cannot ends FAILED at once |
| RunnerOutcomes.LeaseMeans | runner/internal/store/store.go:555-589 | in reachable states the lease is the job row: executing under the worker; the lock row then names both |
| RunnerOutcomes.BeginExactly | runner/internal/store/store.go:591-631 | a step begins if and only if the worker holds the job; the rows after |
| RunnerOutcomes.FinishStepExactly | runner/internal/store/store.go:633-655 | a step finishes if and only if the worker holds the job and the step is there; the row after |
| RunnerOutcomes.LogExactly | runner/internal/store/store.go:656-675 | an output row is stored if and only if the worker holds the job and the step is there |
| RunnerOutcomes.ImageExactly | runner/internal/store/store.go:676-697 | an image is recorded if and only if the worker holds the job; the row is as given, with the known digest where none is given |
| RunnerOutcomes.FinishExactly | runner/internal/store/store.go:714-793 | a job ends if and only if the worker holds it and the status is FAILED or the good end of its operation; job, release, lock row and head after |
| Recovery.RecoveryFreesExactlyTheLapsed | runner/internal/store/store.go:42-98 | every executing job of the scan ends FAILED with no holder, its lock row gone and its release FAILED; every other job, release and lock row is as before |
| Recovery.LapsedAreFree | runner/internal/store/store.go:75-94 | after that no worker holds such a job and its target is free |
| Progress.CanBeCarriedOut | runner/internal/store/store.go:221-351 | a waiting job whose images, for a rollback, are recorded can be claimed, worked through and ended well, every call answered Done |
| Progress.RollbackCanBeDone | backend/internal/server/releases.go:879-920 | what is deployed on a settled target can be rolled back to what it replaced, with review where the policy asks for it: every request and call Done, the job's source is the next element of the stack, the stack loses its top |
| Progress.RollbacksCanBeDone | backend/internal/server/releases.go:1265-1438 | the same n times in a row on any settled target with more than n deployments |
| Progress.DeploymentCanBeDone | backend/internal/server/releases.go:938-1095 | a release of a free version can be created, filled, submitted and deployed on a free target, every answer Done; the stack gains it |
| Progress.DeploymentsCanBeDone | backend/internal/server/releases.go:938-1095 | the same n times in a row |
| Progress.ThereAndBack | backend/internal/server/releases.go:879-920 | from empty tables, under any policy and for every n: one deployment, n more, n rollbacks, every answer Done, each rollback to the next element of the stack, and the first deployment is the head again |
| SemVer.ParsePrint | backend/internal/server/presets.go:53-76 | every valid version's text parses back to it |
| SemVer.PrintParse | backend/internal/server/presets.go:53-76 | every accepted text is the text of the valid version it parses to |
| SemVer.CompareNumeralIsNumeric | backend/internal/server/presets.go:78-86 | length-then-text comparison of numerals is comparison of the integers, of any length |
| SemVer.CompareIsPrecedence | backend/internal/server/presets.go:88-139 | comparison decides precedence of section 11 of SemVer 2.0.0 in both directions |
| SemVer.CompareZeroOnlyForEqual | backend/internal/server/presets.go:88-139 | comparison is antisymmetric and 0 only for equal texts |
| SemVer.CompareTransitive | backend/internal/server/presets.go:88-139 | comparison is transitive |
| SemVer.CompareLoop | backend/internal/server/presets.go:88-139 | the comparison with its loops computes the same result |
| QuickArtifact.ParseNameExact | backend/internal/server/presets.go:27-39 | the file-name parser accepts exactly prefix-v<semver>.tar.gz and returns the only possible parts |
| QuickArtifact.UpgradeMeansNewer | backend/internal/server/presets.go:141-156 | an upgrade is allowed exactly on an empty target or above a deployed SemVer version |
| Redactor.GapsAreTheInput | runner/internal/pipeline/redact.go:55-98 | the text between matches holds no secret, and joined with the secret it is the input |
| Redactor.GapsAreUnique | runner/internal/pipeline/redact.go:55-98 | cutting at leftmost secrets has one result only |
| Redactor.SecretRedactor.SendMatches | runner/internal/pipeline/redact.go:55-82 | the cursor loop sends everything up to the last match of the buffer |
| Redactor.SecretRedactor.Drain | runner/internal/pipeline/redact.go:55-98 | keeps back fewer bytes than the secret has, or nothing at the end |
| Redactor.SecretRedactor.Write | runner/internal/pipeline/redact.go:28-40 | output plus the redacted rest stays the redacted whole, whatever comes next; fails only with the destination |
| Redactor.SecretRedactor.Flush | runner/internal/pipeline/redact.go:42-53 | after a successful flush the output is the leftmost replacement of the whole input; the secret is forgotten |
| Redactor.RedactStream | runner/internal/pipeline/redact.go:28-98 | for every chunking the destination gets the redaction of the concatenation, and a prefix of it on errors |
| Output.WriteAll | runner/internal/pipeline/redact.go:100-115 | short writes are repeated until all is taken or an error is reported |
| Archive.StoredLinkMeansItsTarget | runner/internal/archive/extract.go:251-266 | a stored link, read from its own directory, means exactly the cleaned target that was asked for, under the root |
| Archive.ExtractionIsContained | runner/internal/archive/extract.go:24-130 | after any archive, finished or not: stored paths have only real directories above them, plain paths resolve under the root through any chain of links, bytes and files are within policy |
| Archive.StaysInsideExactlyWhenPlain | runner/internal/archive/extract.go:251-266 | with links allowed, a path of names and parent steps stays under the root after every archive if and only if it has no parent step |
| Archive.ParentStepEscapes | runner/internal/archive/extract.go:251-266 | the archive that shows it: one link back to the root in front of the first parent step |
| Archive.DirectoriesAreNeverReplaced | runner/internal/archive/extract.go:198-224 | a directory that exists after some entries exists after all |
| Archive.Extractor.EnsureParents | runner/internal/archive/extract.go:167-196 | makes or checks each parent in turn, never through a link |
| Archive.Extractor.RemoveNonDirectory | runner/internal/archive/extract.go:212-224 | removes anything but a directory |
| Archive.Extractor.Extract | runner/internal/archive/extract.go:24-130 | the entry loop is the specified extraction, with its count and size limits |
| ArchiveContents.EntryExactly | runner/internal/archive/extract.go:63-130 | an entry is accepted if and only if its name, place, size and target fit; then its file with its size, its directory or its link is stored, and nothing else but missing parents |
| ArchiveContents.ExtractionIsFaithful | runner/internal/archive/extract.go:24-130 | an extraction finishes if and only if there are not too many entries and each fits; then every entry that no later file or link entry replaces is there (a file of its size, a link meaning its cleaned target, a directory in any case), nothing else but directories above entries, and files and sizes are the regular entries in order |
| Rbac.HandleBounded | backend/internal/server/rbac_policy.go:19-194 | one request spreads at most the effective authority of its session |
| Rbac.GroupCannotEscalate | backend/internal/server/rbac_policy.go:69-176 | while only a group and the users it creates act, nobody's permissions exceed what they started with plus the group's union |
| Rbac.KeysCannotExceedScopes | backend/internal/server/rbac_policy.go:54-67 | runs by API keys add nothing outside their scopes |
| Rbac.NobodyBecomesAdmin | backend/internal/server/rbac_policy.go:87-111 | a group without Administrator, and any API key, makes nobody Administrator |
| Rbac.SomeAdministratorRemains | backend/internal/server/rbac_policy.go:178-194 | an active Administrator always remains |
| RbacOutcomes.RequestsExact | backend/internal/server/rbac_policy.go:19-194 | each of the eight requests is answered Done if and only if its guards hold, said in rows; what the rows, roles and permissions then are, everybody else's as before; a refusal changes nothing |
| RbacOutcomes.CreateUserExact | backend/internal/server/admin_compat.go:172-227 | the same of creating a user: the named roles exactly |
| RbacOutcomes.PutUserExact | backend/internal/server/admin_compat.go:228-316 | the same of put-user: the user's permissions are the union of the named roles' exactly |
| RbacOutcomes.UpdateUserExact | backend/internal/server/admin.go:717-784 | the same of activating and deactivating a user |
| RbacOutcomes.ReplaceUserRolesExact | backend/internal/server/admin.go:786-853 | the same of replacing roles: the named roles exactly, so what is not named is revoked |
| RbacOutcomes.CreateRoleExact | backend/internal/server/admin_compat.go:57-99 | the same of creating a role: the listed permissions exactly |
| RbacOutcomes.ChangeRoleExact | backend/internal/server/admin_compat.go:100-145 | the same of both ways to change a role's permissions |
| RbacOutcomes.DeleteRoleExact | backend/internal/server/admin.go:634-675 | the same of deleting a role: nobody has it any more |
| RbacServer.PermissionSubset | backend/internal/server/rbac_policy.go:19-30 | decides inclusion of the two lists as sets |
| RbacServer.AttenuateDelegatedAuthority | backend/internal/server/rbac_policy.go:54-67 | an API key keeps exactly what its scopes allow and never Administrator |
| RbacServer.AdminServer.ValidateDelegatedRoles | backend/internal/server/rbac_policy.go:87-111 | the loop refuses exactly what the role check refuses, with the same error |
| RbacServer.AdminServer.AssignRolePermissions | backend/internal/server/admin_compat.go:42-56 | deletes and reinserts the permission rows of a role the actor may change |
| RbacServer.AdminServer.CreateRoleCompat | backend/internal/server/admin_compat.go:57-99 | creates a role with delegated permissions or changes nothing |
| RbacServer.AdminServer.PutRole | backend/internal/server/admin_compat.go:100-145 | is the put-role request |
| RbacServer.AdminServer.ReplaceRolePermissions | backend/internal/server/admin.go:584-632 | is the replace-permissions request |
| RbacServer.AdminServer.DeleteRole | backend/internal/server/admin.go:634-675 | is the delete-role request, with its cascade to users |
| RbacServer.AdminServer.CreateUser | backend/internal/server/admin_compat.go:172-227 | is the create-user request |
| RbacServer.AdminServer.PutUser | backend/internal/server/admin_compat.go:228-316 | is the put-user request with its self and last-Administrator guards |
| RbacServer.AdminServer.UpdateUser | backend/internal/server/admin.go:717-784 | is the update-user request |
| RbacServer.AdminServer.ReplaceUserRoles | backend/internal/server/admin.go:786-853 | is the replace-roles request |
| LogBudget.NextKeeps | runner/internal/logstream/writer.go:20-88 | every atomic operation of any writer keeps the budget invariant |
| LogBudget.StreamsArePrefixes | runner/internal/logstream/writer.go:20-88 | in every interleaving grants stay within the maximum, the rows handed to the sink are numbered consecutively and sized, and between calls they are a prefix of the input, followed by the notice if this writer won it |
| LogBudget.ConsecutiveExactlyWithoutGap | runner/internal/logstream/writer.go:73-88 | the rows the sink stored are numbered consecutively, and are the first of those handed over, if and only if no refused row is followed by a stored one |
| LogBudget.StoredLogOfStream | runner/internal/logstream/writer.go:73-94 | the same in every interleaving and for every answer of the sink; without a gap the stored bytes are a beginning of what was handed over, and the writer reports an error exactly when a row is missing |
| LogBudget.RefusalLeavesGap | runner/internal/logstream/writer.go:73-88 | a run whose stored row is no beginning of the output: the first chunk refused, the second stored |
| LogBudget.SuccessfulStepHasWholeLog | runner/internal/pipeline/pipeline.go:326-347 | a step whose work succeeds is successful if and only if every output row is stored, so its log has no gap: each stream's stored rows are what was granted, with the notice where it was cut |
| LogBudget.NoticeOnceExactlyWhenDropped | runner/internal/logstream/writer.go:58-71 | the truncation notice is written by at most one writer, and exactly when bytes were dropped |
| LogBudget.SharedBudget.Reserve | runner/internal/logstream/writer.go:20-35 | the compare-and-swap loop ends however other writers interfere, and grants the request up to what was left at the swap |
| LogBudget.LogWriter.AppendChunks | runner/internal/logstream/writer.go:73-88 | the chunk loop hands over the payload in consecutive chunks of bounded size, also after a refused one, and collects the error |
| LogBudget.LogWriter.Write | runner/internal/logstream/writer.go:58-71 | among interfering writers: hands over the granted prefix, and the notice if it is the first to be cut; a cut means that the budget is used up |
| Utf8.TrimmedIsLongestValid | backend/internal/server/simple.go:862-870 | the cut gives up at most three bytes and keeps the longest valid beginning of valid UTF-8 (section 4 of RFC 3629) |
| Utf8.TrimToRuneBoundary | backend/internal/server/simple.go:862-870 | the walk back computes that cut |
| LineLogger.ChunksDoNotMatter | backend/internal/server/simple.go:880-911 | without lines over 64 KiB the rows offered are the stream's lines, whatever the chunks |
| LineLogger.OffersAreTheLines | backend/internal/server/simple.go:872-911 | however stdout, stderr, the server's lines and flushes are interleaved and chunked, what is offered of a stream are its lines |
| LineLogger.StreamsAreStoredAsTheirLines | backend/internal/server/simple.go:833-911 | with inserts that succeed, the stored command output is exactly those lines, both streams in the order they came, if and only if they fit the command budget; below both budgets the server's lines stand between them in order |
| LineLogger.HeldIsBounded | backend/internal/server/simple.go:880-900 | never more than 64 KiB of an unfinished line is held |
| LineLogger.RunLogIsBounded | backend/internal/server/simple.go:762-851 | whichever statements fail, at most 8 MiB of command output and 64 KiB of the server's lines are stored, in as many rows at most; log_bytes never exceeds what is stored and equals it if and only if no UPDATE after a stored non-empty row failed; the cap notice comes at most once |
| LineLogger.LogBytesFallBehind | backend/internal/server/simple.go:844-845 | the failing input: a row is stored, its UPDATE fails, log_bytes stays 0 |
| LineLogger.LogBudget.Take | backend/internal/server/simple.go:789-812 | charges the stream's own budget and reports what may be stored |
| LineLogger.SimpleRunLogger.AppendRow | backend/internal/server/simple.go:833-851 | stores one payload and counts it if the UPDATE succeeds, and stores the notice when the command budget is used up, whichever statements fail |
| LineLogger.SimpleRunLogger.Write | backend/internal/server/simple.go:880-900 | the newline loop sends on exactly the completed lines |
| LineLogger.SimpleRunLogger.Flush | backend/internal/server/simple.go:902-911 | sends on what every stream still holds |
| Framing.ReadWhatWasWritten | runner/internal/executor/socket.go:581-633 | reading written packets gives them back in order; a broken connection gives a beginning of them |
| Framing.EveryFrameFits | runner/internal/executor/socket.go:19-34 | output frames of 32 KiB and terminal frames with a 4096-byte error fit 64 KiB after base64 and worst-case JSON escaping |
| Framing.ChunksReassemble | runner/internal/executor/socket.go:570-579 | the chunks of an output are bounded and together are the output |
| Framing.WritePacket | runner/internal/executor/socket.go:581-609 | writes one packet through short writes, or a beginning of it and an error |
| Framing.Reader.ReadPacket | runner/internal/executor/socket.go:611-633 | reads one packet or refuses its size |
| Framing.FrameWriter.WriteFrame | runner/internal/executor/socket.go:554-563 | after the first error nothing more is written |
| Framing.WriteStream | runner/internal/executor/socket.go:570-579 | sends an output as the packets of its chunks; on a reliable connection all of it |
| Framing.TruncateProtocolError | runner/internal/executor/socket.go:651-657 | cuts an error to 4096 bytes |
| Bearer.ParseUndoesPrint | runner/internal/runtime/registry.go:172-230 | parameters with lower-case token keys and any values, written as quoted strings behind any separators, or bare where a comma or the end shows where they end, read back as their map (section 2.1 of RFC 7235) |
| Bearer.DistinctKeysAllKept | runner/internal/runtime/registry.go:172-230 | with distinct keys that map holds every value as written |
| Bearer.ParseBearerChallenge | runner/internal/runtime/registry.go:172-230 | the parser loop ends on every input with the specified result |
| Bearer.ReadQuoted | runner/internal/runtime/registry.go:194-214 | the byte loop reads a quoted string with its escapes |
| SimpleStages.StagesStartInOrder | backend/internal/server/simple.go:658-728 | a once-per-upload stage starts only in the last run with all others green; the app command only after an enabled replication succeeded in the same run |
| SimpleStages.RunExactly | backend/internal/server/simple.go:658-729 | when each stage starts and when a run is green, if and only if, in terms of the outcomes and settings |
| SimpleStages.OnceMeansOnce | backend/internal/server/simple_config.go:102-130 | a once-per-upload stage starts at most once |
| SimpleStages.GreenLastRun | backend/internal/server/simple.go:671-729 | a green last run deployed its package and ran every enabled stage; with a once-per-upload stage every package deployed |
| SimpleStages.GreenUploadExactly | backend/internal/server/simple_config.go:119-141 | a green last run means a green upload exactly when an enabled stage is once-per-upload |
| SimpleStages.ExecuteSimpleRun | backend/internal/server/simple.go:647-742 | the stage part of a run computes the specified outcome |
| SimpleStages.UploadHasFailedPackages | backend/internal/server/simple.go:751-760 | answers yes when another package is not green or the runs cannot be read |
| Uploads.NextKeeps | backend/internal/server/releases.go:507-708 | every step of any upload, every answer to a COMMIT, every outcome of it and every crash keep the storage invariant |
| Uploads.ArtifactCommitVisible | backend/internal/server/releases.go:541-560 | the probe loop says seen exactly when one of its three looks saw the row, and failed when the last look or its time did |
| Uploads.Settle | backend/internal/server/releases.go:520-535 | after a COMMIT the file is removed exactly when the server answered with an error and the row was not seen, and success is reported exactly when there was no error or the row was seen |
| Uploads.SettleQuick | backend/internal/server/presets.go:752-806 | the quick release decides the same with its deferred clean-up |
| Uploads.CommittedUnlessCondemned | backend/internal/server/releases.go:507-708 | with any answers: a committed row has its file, complete and durable, unless a server error answered its COMMIT with the row unseen; success is reported for committed rows with their file only |
| Uploads.LostExactlyWhenMisled | backend/internal/server/releases.go:520-568 | when a COMMIT is answered, its committed row can ever come to miss its file if and only if the answer is a server error with the row unseen and the COMMIT took effect or still may |
| Uploads.MisledRun | backend/internal/server/releases.go:562-568 | the run that loses the file of a committed row |
| Uploads.CommittedArtifactIsThere | backend/internal/server/releases.go:562-568 | where a server error with the row unseen means a rollback, a committed artifact row has its file, complete and durable, at any time and after a crash |
| Uploads.UndecidedArtifactIsKept | backend/internal/server/presets.go:781-806 | under the same premise an undecided COMMIT that takes effect after a crash still finds its file |
| UploadOutcomes.UploadStoresWhatWasSent | backend/internal/server/releases.go:589-708 | begun in any reachable state where nobody holds the release, an upload in which nothing fails is committed and reported, its row records exactly the chunks sent, joined in order, its durable file holds them, the release is free again and no other upload is touched |
| UploadOutcomes.FailureLeavesNothing | backend/internal/server/releases.go:648-664 | an upload that fails anywhere before its COMMIT, with a cleaning that works, leaves no file, no partial file and no row, frees the release and touches no other upload; its directory stays exactly while another file is in it, or if it was not synchronized yet |

## Left out

- Approvals.RequiredJobWasApproved: who approves is compared with the recorded requester, as in the source; for a plain submission that is the creator, and Approvals.SubmitterIsRefusedExactly says when it is also who submitted.
- SimpleStages.GreenUploadExactly: with per-package stages only, a green last run says nothing about the other packages, as the source intends; the lemma gives the exact condition.
- Archive.ExtractionIsContained: the extractor's own check that a joined target stays under the root is not modelled because cleaned names make it unreachable.
- LineLogger.StreamsAreStoredAsTheirLines: a run with a failed INSERT loses that row; only the bounds are claimed for it.
- Bearer.ParseUndoesPrint: keys are lower-cased in ASCII only, and header text is characters rather than bytes.
- Redactor.SecretRedactor.Write: the mutex around it is not modelled; calls come one after the other.
- Framing.EveryFrameFits: the JSON text is written out and measured; decoding it is not part of this model.
- Framing.Reader.ReadPacket: the payload is handed on as text; decoding it, with the refusal of unknown fields and trailing data, is not part of this model.
- LogBudget.LogWriter.Write: other writers interfere between atomic operations there; that all interleavings agree is the subject of LogBudget.NextKeeps.
- Processor.Processor.Process: nobody interferes with the process there; interference is the subject of PipelineRuns.
- RunnerStore.PGStore.Heartbeat: timestamps are not stored; an expired lease is an input of the recovery.
- The guard triggers of the migrations that only refuse writes, profile and credential contents, audit rows, notifications and pagination.
- The multipart form of release creation, which creates a release and uploads in one request, and metadata-only artifacts.
- Removal of stored files when a release is deleted, and changes of the storage root.
- Priorities and deferral of queued jobs, runner registration and labels.
- Role lookup by name, user names and passwords, OIDC users, role renames.
- HTTP, JSON and multipart decoding, cookies, SSE, AI and MCP endpoints, Harbor and registry clients, the portal: plumbing around the modelled transactions.
- Process execution, credential files, peer checks and workspaces: operating-system behaviour.
- Cryptography and random tokens: artifact contents stand for their size and hash, identifiers are fresh numbers.
