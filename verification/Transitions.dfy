/** Every transaction on the control-plane tables as a function from state to
    state and reply. A refused transaction that commits nothing returns its
    argument unchanged. */
module Transitions {
  import opened Common
  import opened Domain
  import QuickArtifact

  // -------------------------------------------------------------- row writes

  function PutRelease(s: State, id: ReleaseId, r: Release): State {
    s.(releases := s.releases[id := r])
  }

  /** Inserts a job and writes the release row it belongs to. */
  function QueueJob(s: State, id: ReleaseId, r: Release, job: Job): State {
    s.(releases := s.releases[id := r], jobs := s.jobs[s.nextJob := job], nextJob := s.nextJob + 1)
  }

  /** Writes a job and mirrors a status onto its release. */
  function PutJob(s: State, j: JobId, job: Job, status: Status): State
    requires job.release in s.releases
  {
    s.(jobs := s.jobs[j := job],
       releases := s.releases[job.release := s.releases[job.release].(status := status)])
  }

  /** The same, when the release row may be missing: an UPDATE of no row. */
  function WriteJob(s: State, j: JobId, job: Job, status: Status): (r: State)
    ensures r == s.(jobs := s.jobs[j := job], releases := r.releases)
  {
    if job.release in s.releases then PutJob(s, j, job, status) else s.(jobs := s.jobs[j := job])
  }

  function DropLocks(locks: map<Target, Lock>, j: JobId): map<Target, Lock> {
    map t | t in locks && locks[t].job != j :: locks[t]
  }

  /** The lock row a worker itself holds for a job. */
  function DropLease(locks: map<Target, Lock>, j: JobId, w: WorkerId): map<Target, Lock> {
    map t | t in locks && locks[t] != Lock(j, w) :: locks[t]
  }

  /** What a request on one release commits: nothing, its row, or its row and a new job. */
  datatype Effect =
    | Nothing(code: Code)
    | Rewrite(row: Release, reply: Reply)
    | Queue(row: Release, job: Job)

  function Commit(s: State, id: ReleaseId, e: Effect): (State, Reply) {
    match e
    case Nothing(code) => (s, Refused(code))
    case Rewrite(row, reply) => (PutRelease(s, id, row), reply)
    case Queue(row, job) => (QueueJob(s, id, row, job), Done)
  }

  // ------------------------------------------------- drafts (releases.go)

  predicate VersionTaken(s: State, except: Option<ReleaseId>, t: Target, version: string) {
    exists id :: id in s.releases && Some(id) != except && s.releases[id].target == t &&
      s.releases[id].version == version
  }

  function NewRelease(t: Target, profile: ProfileId, version: string, user: UserId): Release {
    Release(t, version, profile, None, user, Draft, Deploy, None, None, None, None, false, false, None, None, None,
      None)
  }

  function CreateRelease(s: State, id: ReleaseId, t: Target, profile: ProfileId, version: string, user: UserId,
                         profileMatches: bool): (State, Reply)
  {
    if |version| == 0 || !profileMatches then (s, Refused(InvalidRelease))
    else if id in s.releases || VersionTaken(s, None, t, version) then (s, Refused(ReleaseConflict))
    else (PutRelease(s, id, NewRelease(t, profile, version, user)), Done)
  }

  function EditRelease(
      s: State, id: ReleaseId, version: string, profile: ProfileId, profileMatches: bool): (State, Reply)
  {
    if |version| == 0 then (s, Refused(InvalidRelease))
    else if id !in s.releases || !Editable(s.releases[id].status) || !profileMatches then (s, Refused(InvalidState))
    else if VersionTaken(s, Some(id), s.releases[id].target, version) then (s, Refused(ReleaseConflict))
    else (PutRelease(s, id, s.releases[id].(version := version, profile := profile)), Done)
  }

  function UploadArtifact(s: State, id: ReleaseId, artifact: ArtifactId): (State, Reply) {
    if id !in s.releases || !Editable(s.releases[id].status) then (s, Refused(InvalidState))
    else if s.releases[id].quick then (s, Refused(QuickArtifactImmutable))
    else (PutRelease(s, id, s.releases[id].(artifact := Some(artifact), status := Uploaded)), Done)
  }

  predicate NamesRelease(b: Option<Basis>, id: ReleaseId) { b.Some? && b.value.release == id }

  /** A row of another release, or a head, still refers to this release. */
  predicate Referenced(s: State, id: ReleaseId) {
    || (exists t :: t in s.heads && s.heads[t].release == id)
    || (exists j :: j in s.jobs && s.jobs[j].release != id && NamesRelease(s.jobs[j].source, id))
    || (exists k :: k in s.releases && k != id && NamesRelease(s.releases[k].source, id))
    || (exists k :: k in s.releases && k != id && NamesRelease(s.releases[k].quickBase, id))
  }

  /** Deleting a release deletes its jobs with everything they own. */
  function DeleteRelease(s: State, id: ReleaseId): (State, Reply) {
    if id !in s.releases then (s, Refused(NotFound))
    else if !Editable(s.releases[id].status) then (s, Refused(InvalidState))
    else if Referenced(s, id) then (s, Refused(ReleaseInUse))
    else
      (s.(releases := s.releases - {id},
          jobs := map j | j in s.jobs && s.jobs[j].release != id :: s.jobs[j],
          locks := map t | t in s.locks && !(s.locks[t].job in s.jobs && s.jobs[s.locks[t].job].release == id) ::
            s.locks[t],
          steps := map j | j in s.steps && !(j in s.jobs && s.jobs[j].release == id) :: s.steps[j],
          images := map j | j in s.images && !(j in s.jobs && s.jobs[j].release == id) :: s.images[j],
          logs := map j | j in s.logs && !(j in s.jobs && s.jobs[j].release == id) :: s.logs[j]),
       Done)
  }

  // ---------------------------------------------------- queueing (releases.go)

  predicate CanQueue(status: Status, approvalRequired: bool) {
    match status
    case Uploaded | Approved | Draft => true
    case PendingReview | UnderReview | Rejected => !approvalRequired
    case _ => false
  }

  function DeployJob(
    id: ReleaseId, r: Release, head: Option<Basis>, retryOf: Option<JobId>, creator: UserId, started: nat): Job
    requires r.artifact.Some?
  {
    Job(id, r.target, Deploy, Queued, head, retryOf, InputsOf(r).value, creator, started, None, 0, r.approval)
  }

  function DeployEffect(s: State, policy: Policy, id: ReleaseId, user: UserId, retry: bool, c: Checks): Effect
    requires id in s.releases
  {
    var r := s.releases[id];
    var latest := LatestFailedDeploy(s, id);
    var wantsRetry := retry || r.retrySource.Some?;
    var required := policy.Required(r.target, r.profile);
    var source := if wantsRetry then latest else None;
    var retried := source.Some? && r.status.Failed?;
    if r.artifact.None? then Nothing(ArtifactContentRequired)
    else if retry && !r.status.Failed? then Nothing(RetryRequiresFailed)
    else if wantsRetry && (latest.None? || (r.retrySource.Some? && latest != r.retrySource)) then
      if r.retrySource.Some? then
        Rewrite(r.(status := Failed, retrySource := None, requestedBy := None, approval := None),
          Refused(RetryTargetStale))
      else Nothing(RetryTargetStale)
    else if !retry && r.status.Failed? then Nothing(RetryRequired)
    else if !c.profileMatches then Nothing(ReleaseTargetDrift)
    else if !c.targetActive then Nothing(ReleaseTargetInactive)
    else if !c.dependenciesReady then Nothing(ProfileNotReady)
    else if required && !r.status.Approved? then
      if !Editable(r.status) && !retried then Nothing(InvalidState)
      else
        Rewrite(r.(status := PendingReview, retrySource := source,
                   requestedBy := if source.Some? then Some(user) else r.requestedBy,
                   submitted := DeployRequestOf(r), submitter := Some(user), approval := None),
                Done)
    else if !CanQueue(r.status, required) && !retried then Nothing(InvalidState)
    else if !c.runnerReady then Nothing(RunnerUnavailable)
    else if c.targetContended || TargetBusy(s, r.target) then Nothing(JobConflict)
    else if !c.credentialReady then Nothing(TargetCredentialNotReady)
    else if r.quick && r.quickBase != HeadOf(s, r.target) then Nothing(DeploymentHeadChanged)
    else
      Queue(r.(status := Queued, retrySource := None, approval := None),
            DeployJob(id, r, HeadOf(s, r.target), source, if r.quick then r.createdBy else user, c.started))
  }

  // -------------------------------------------------- rollback (releases.go)

  predicate FailedRollbackTo(s: State, j: JobId, id: ReleaseId, source: Basis)
    requires j in s.jobs
  {
    && s.jobs[j].release == id && s.jobs[j].operation.Rollback? && s.jobs[j].status.Failed?
    && s.jobs[j].source == Some(source)
  }

  /** The verified deployment a rollback of this release returns to: what the
      head replaced when the release is the head, the head itself when the
      release is the latest failed attempt. */
  function ResolvePlan(s: State, id: ReleaseId, allowFailedRollbackRetry: bool): Option<Basis>
    requires id in s.releases
  {
    var t := s.releases[id].target;
    var head, latest := HeadOf(s, t), LatestJob(s, t);
    if head.None? || !IsBasis(s, t, head.value) || latest.None? then None
    else
      var basis, job := s.jobs[head.value.job], s.jobs[latest.value];
      if id == head.value.release then
        if basis.source.None? then None
        else if || latest.value == head.value.job
                || (job.operation.Rollback? && job.status.RolledBack? && job.source == head)
                || (allowFailedRollbackRetry && FailedRollbackTo(s, latest.value, id, basis.source.value))
        then basis.source
        else None
      else if || (job.release == id && job.operation.Deploy? && job.status.Failed?)
              || (allowFailedRollbackRetry && FailedRollbackTo(s, latest.value, id, head.value))
      then head
      else None
  }

  /** The source release row, its successful DEPLOY and its stored artifact are there. */
  predicate SourceUsable(s: State, t: Target, b: Basis) {
    && b.release in s.releases && s.releases[b.release].target == t
    && IsBasis(s, t, b)
    && s.releases[b.release].artifact.Some?
  }

  function RollbackJob(s: State, id: ReleaseId, r: Release, source: Basis, user: UserId, started: nat): Job
    requires SourceUsable(s, r.target, source)
  {
    Job(id, r.target, Rollback, Queued, Some(source), None, InputsOf(s.releases[source.release]).value,
        user, started, None, 0, r.approval)
  }

  function TerminalBase(b: Option<Status>): bool {
    b.Some? && (b.value.Success? || b.value.Failed?)
  }

  function RollbackEffect(s: State, policy: Policy, id: ReleaseId, user: UserId, retry: bool, c: Checks): Effect
    requires id in s.releases
  {
    var r := s.releases[id];
    var existing := r.operation.Rollback? && InReview(r.status);
    var frozen := existing || (retry && r.operation.Rollback? && r.source.Some?);
    if retry && !r.status.Failed? then Nothing(RetryRequiresFailed)
    else if !retry && r.status.Failed? && r.operation.Rollback? then Nothing(RetryRequired)
    else if !c.targetActive then Nothing(ReleaseTargetInactive)
    else if !(r.status.Success? || r.status.Failed?) && !existing then Nothing(InvalidState)
    else if c.targetContended || TargetBusy(s, r.target) then Nothing(JobConflict)
    else
      var plan := ResolvePlan(s, id, retry || existing);
      if plan.None? then
        if existing && TerminalBase(r.baseStatus) then
          Rewrite(r.(status := r.baseStatus.value, operation := Deploy, source := None,
                     requestedBy := None, baseStatus := None, approval := None),
                  Refused(RollbackTargetStale))
        else Nothing(RollbackTargetStale)
      else if frozen && r.source.None? then Nothing(RollbackSourceInvalid)
      else if frozen && r.source != plan then Nothing(RollbackTargetStale)
      else if !SourceUsable(s, r.target, plan.value) then Nothing(RollbackSourceInvalid)
      else if !c.profileMatches then Nothing(ReleaseTargetDrift)
      else if !c.dependenciesReady then Nothing(ProfileNotReady)
      else
        var base := r.baseStatus.OrElse(Some(r.status));
        if policy.Required(r.target, s.releases[plan.value.release].profile) && !r.status.Approved? then
          if existing then Nothing(ApprovalRequired)
          else
            Rewrite(r.(status := PendingReview, operation := Rollback, source := plan, requestedBy := Some(user),
                       baseStatus := base, submitted := Some(RollbackRequest(plan.value)),
                       submitter := Some(user), approval := None),
                    Done)
        else if !c.runnerReady then Nothing(RunnerUnavailable)
        else if !TerminalBase(base) then Nothing(RollbackRequestInvalid)
        else if !c.credentialReady then Nothing(TargetCredentialNotReady)
        else
          Queue(r.(status := RollingBack, operation := Rollback, source := plan,
                   requestedBy := r.requestedBy.OrElse(Some(user)), baseStatus := base, approval := None),
                RollbackJob(s, id, r, plan.value, user, c.started))
  }

  function RequestRollback(
      s: State, policy: Policy, id: ReleaseId, user: UserId, retry: bool, c: Checks): (State, Reply)
  {
    if id !in s.releases then (s, Refused(NotFound))
    else Commit(s, id, RollbackEffect(s, policy, id, user, retry, c))
  }

  /** The enqueue endpoint: a release whose request is a rollback takes the rollback path. */
  function Enqueue(s: State, policy: Policy, id: ReleaseId, user: UserId, retry: bool, c: Checks): (State, Reply) {
    if id !in s.releases then (s, Refused(NotFound))
    else if s.releases[id].operation.Rollback? then RequestRollback(s, policy, id, user, retry, c)
    else Commit(s, id, DeployEffect(s, policy, id, user, retry, c))
  }

  // ---------------------------------------- quick deploy (presets.go)

  function QuickEffect(s: State, id: ReleaseId, expected: Status, c: Checks): Effect {
    if id !in s.releases then Nothing(NotFound) else
    var r := s.releases[id];
    if !r.quick || r.status != expected then Nothing(InvalidState)
    else if r.artifact.None? then Nothing(ArtifactContentRequired)
    else if !c.profileMatches then Nothing(ReleaseTargetDrift)
    else if !c.targetActive then Nothing(ReleaseTargetInactive)
    else if !c.dependenciesReady then Nothing(ProfileNotReady)
    else if !c.runnerReady then Nothing(RunnerUnavailable)
    else if c.targetContended || TargetBusy(s, r.target) then Nothing(JobConflict)
    else if !c.credentialReady then Nothing(TargetCredentialNotReady)
    else if r.quickBase != HeadOf(s, r.target) then Nothing(DeploymentHeadChanged)
    else Queue(r.(status := Queued, approval := None), DeployJob(id, r, r.quickBase, None, r.createdBy, c.started))
  }

  function QueueQuickDeploy(s: State, id: ReleaseId, expected: Status, c: Checks): (State, Reply) {
    Commit(s, id, QuickEffect(s, id, expected, c))
  }

  datatype Preset = Preset(target: Target, profile: ProfileId, autoDeploy: bool)

  function CurrentVersion(s: State, t: Target): Option<string> {
    if t in s.heads && s.heads[t].release in s.releases then Some(s.releases[s.heads[t].release].version) else None
  }

  function NewQuickRelease(s: State, preset: Preset, version: string, artifact: ArtifactId, user: UserId): Release {
    Release(preset.target, version, preset.profile, Some(artifact), user, Uploaded, Deploy, None, None, None, None,
            true, preset.autoDeploy, HeadOf(s, preset.target), None, None, None)
  }

  /** The preset is the active one found for the file name's prefix, if any. */
  function QuickRelease(s: State, policy: Policy, id: ReleaseId, user: UserId, filename: string, preset: Option<Preset>,
                        artifact: ArtifactId, expectedCurrent: string, c: Checks): (State, Reply)
  {
    var name := QuickArtifact.ParseName(filename);
    if name.None? then (s, Refused(InvalidArtifactFilename))
    else if preset.None? then (s, Refused(PresetUnavailable)) else
    var t, version := preset.value.target, name.value.version;
    if id in s.releases || VersionTaken(s, None, t, version) then (s, Refused(ReleaseConflict))
    else if TargetBusy(s, t) then (s, Refused(JobConflict))
    else if CurrentVersion(s, t).GetOr("") != expectedCurrent then (s, Refused(DeploymentHeadChanged))
    else if !QuickArtifact.ValidateQuickUpgrade(CurrentVersion(s, t), version).Allowed? then
      (s, Refused(UpgradeRefused))
    else if !c.dependenciesReady then (s, Refused(ProfileNotReady))
    else
      var r := NewQuickRelease(s, preset.value, version, artifact, user);
      if policy.Required(t, preset.value.profile) then
        if c.targetContended then (s, Refused(JobConflict))
        else (PutRelease(s, id, r.(status := PendingReview, submitted := DeployRequestOf(r), submitter := Some(user))),
          Done)
      else
        var (queued, reply) := QueueQuickDeploy(PutRelease(s, id, r), id, Uploaded, c);
        if reply.Done? then (queued, Done) else (s, reply)
  }

  /** What a quick release can do to the tables: nothing, insert a row for review,
      or insert a row and queue it, and under which checks. */
  lemma {:induction false} QuickReleaseCases(
      s: State, policy: Policy, id: ReleaseId, user: UserId, filename: string, preset: Option<Preset>,
      artifact: ArtifactId, expectedCurrent: string, c: Checks)
    returns (r: Release)
    ensures
      var s' := QuickRelease(s, policy, id, user, filename, preset, artifact, expectedCurrent, c).0;
      s' != s ==>
        && id !in s.releases && preset.Some? && QuickArtifact.ParseName(filename).Some?
        && var version := QuickArtifact.ParseName(filename).value.version;
           && r == NewQuickRelease(s, preset.value, version, artifact, user)
           && QuickArtifact.ValidateQuickUpgrade(CurrentVersion(s, preset.value.target), version).Allowed?
           && if policy.Required(r.target, r.profile) then
                s' == PutRelease(s, id,
                  r.(status := PendingReview, submitted := DeployRequestOf(r), submitter := Some(user)))
              else s' == QueueQuickDeploy(PutRelease(s, id, r), id, Uploaded, c).0
  {
    hide TargetBusy, VersionTaken, CurrentVersion, QueueQuickDeploy, PutRelease, Policy.Required;
    hide QuickArtifact.ParseName, QuickArtifact.ValidateQuickUpgrade;
    if preset.Some? && QuickArtifact.ParseName(filename).Some? {
      r := NewQuickRelease(s, preset.value, QuickArtifact.ParseName(filename).value.version, artifact, user);
    } else {
      r := NewRelease(Target(0, 0), 0, "", user);
    }
  }

  // -------------------------------------------------- decisions (releases.go)

  datatype Verdict = Review | Approve | Reject

  function Requester(r: Release): UserId { r.requestedBy.GetOr(r.createdBy) }

  /** Why an approval is refused, if it is. */
  function ApproveRefusal(s: State, policy: Policy, id: ReleaseId, user: UserId, c: Checks): Option<Code>
    requires id in s.releases
  {
    var r := s.releases[id];
    if Requester(r) == user && !policy.allowSelf then Some(SelfApprovalForbidden)
    else if r.retrySource.Some? && LatestFailedDeploy(s, id) != r.retrySource then Some(RetryTargetStale)
    else if r.operation.Rollback? && r.source.None? then Some(RollbackSourceInvalid)
    else if r.operation.Rollback? && ResolvePlan(s, id, true) != r.source then Some(RollbackTargetStale)
    else if r.operation.Rollback? && !SourceUsable(s, r.target, r.source.value) then Some(RollbackSourceInvalid)
    else if !c.profileMatches then Some(ReleaseTargetDrift)
    else if !c.dependenciesReady then Some(ProfileNotReady)
    else if !r.status.PendingReview? && !r.status.UnderReview? then Some(InvalidState)
    else None
  }

  /** The row and the decision are written together. */
  function RecordApproval(s: State, id: ReleaseId, user: UserId): State
    requires id in s.releases
  {
    var r := s.releases[id];
    PutRelease(s, id, r.(status := Approved, approval := Some(|s.decisions|)))
    .(decisions := s.decisions + [Decision(id, user, Requester(r), r.submitted, r.submitter)])
  }

  /** A quick release set to deploy on approval is queued in the same transaction. */
  function ApproveRequest(s: State, policy: Policy, id: ReleaseId, user: UserId, c: Checks): (State, Reply)
    requires id in s.releases
  {
    var r, refusal := s.releases[id], ApproveRefusal(s, policy, id, user, c);
    if refusal.Some? then (s, Refused(refusal.value))
    else if r.quick && r.autoDeploy && r.operation.Deploy? && r.retrySource.None? then
      var (queued, reply) := QueueQuickDeploy(RecordApproval(s, id, user), id, Approved, c);
      if reply.Done? then (queued, Done) else (s, reply)
    else (RecordApproval(s, id, user), Done)
  }

  function RejectEffect(s: State, policy: Policy, id: ReleaseId, comment: bool): Effect
    requires id in s.releases
  {
    var r := s.releases[id];
    var rollback, retry := r.operation.Rollback?, r.retrySource.Some?;
    if !comment && policy.requireComment then Nothing(RejectCommentRequired)
    else if !r.status.PendingReview? && !r.status.UnderReview? then Nothing(InvalidState)
    else if rollback && !TerminalBase(r.baseStatus) then Nothing(RollbackRequestInvalid)
    else
      Rewrite(r.(
         status := if rollback then r.baseStatus.value else Rejected,
         operation := Deploy,
         source := if rollback then None else r.source,
         retrySource := None,
         requestedBy := if rollback || retry then None else r.requestedBy,
         baseStatus := if rollback || retry then None else r.baseStatus), Done)
  }

  function Decide(
      s: State, policy: Policy, id: ReleaseId, user: UserId, verdict: Verdict, comment: bool, c: Checks): (State, Reply)
  {
    if id !in s.releases then (s, Refused(NotFound)) else
    var r := s.releases[id];
    if !(r.status.PendingReview? || r.status.UnderReview? || policy.Required(r.target, r.profile)) then
      (s, Refused(ApprovalDisabled))
    else match verdict
      case Approve => ApproveRequest(s, policy, id, user, c)
      case Reject => Commit(s, id, RejectEffect(s, policy, id, comment))
      case Review =>
        Commit(s, id, if r.status.PendingReview? then Rewrite(r.(status := UnderReview), Done)
          else Nothing(InvalidState))
  }

  // ------------------------------------------------------- runner (store.go)

  /** The UPDATE guard of every runner write: the job is unfinished and locked by the worker. */
  predicate OwnsJob(s: State, w: WorkerId, j: JobId) {
    j in s.jobs && s.jobs[j].lockedBy == Some(w) && !Terminal(s.jobs[j].status)
  }

  predicate HasLockRow(s: State, w: WorkerId, j: JobId) {
    exists t :: t in s.locks && s.locks[t] == Lock(j, w)
  }

  predicate HoldsLease(s: State, w: WorkerId, j: JobId) {
    OwnsJob(s, w, j) && HasLockRow(s, w, j)
  }

  function StepsOf(s: State, j: JobId): seq<Step> { if j in s.steps then s.steps[j] else [] }

  function ImagesOf(s: State, j: JobId): map<string, Image> { if j in s.images then s.images[j] else map[] }

  function LogsOf(s: State, j: JobId): seq<LogRow> { if j in s.logs then s.logs[j] else [] }

  /** The images a rollback re-verifies: all rows of its successful source job, complete. */
  predicate RollbackImagesReady(s: State, job: Job) {
    && job.source.Some?
    && IsBasis(s, job.target, job.source.value)
    && |ImagesOf(s, job.source.value.job)| > 0
    && forall path :: path in ImagesOf(s, job.source.value.job) ==>
         var image := ImagesOf(s, job.source.value.job)[path];
         path != "" && image.destination != "" && image.digest.Some?
  }

  /** `pick` is the front of the runner's queue; `loadable` says that the job's
      profile and credential load and validate. */
  function ClaimJob(s: State, w: WorkerId, pick: Option<JobId>, loadable: bool): (State, Reply) {
    if pick.None? || pick.value !in s.jobs || !s.jobs[pick.value].status.Queued? then (s, Refused(NoJob)) else
    var j, job := pick.value, s.jobs[pick.value];
    if job.target in s.locks then (s, Refused(LockBusy))
    else if !loadable || (job.operation.Rollback? && !RollbackImagesReady(s, job)) then
      (WriteJob(s, j, job.(status := Failed), Failed).(locks := DropLocks(s.locks, j)), Refused(InvalidJob))
    else
      (WriteJob(s, j, job.(status := Validating, attempts := job.attempts + 1, lockedBy := Some(w)), Validating)
       .(locks := s.locks[job.target := Lock(j, w)]),
       Done)
  }

  function Heartbeat(s: State, w: WorkerId, j: JobId): Reply {
    if HoldsLease(s, w, j) then Done else Refused(LostLease)
  }

  function BeginStep(s: State, w: WorkerId, j: JobId, name: StepName): (State, Reply) {
    if !OwnsJob(s, w, j) then (s, Refused(LostLease))
    else
      (WriteJob(s, j, s.jobs[j].(status := name), name)
       .(steps := s.steps[j := StepsOf(s, j) + [Step(name, Running)]]),
       Done)
  }

  function FinishStep(s: State, w: WorkerId, j: JobId, number: nat, success: bool): (State, Reply) {
    if !HoldsLease(s, w, j) || number >= |StepsOf(s, j)| then (s, Refused(LostLease))
    else
      var steps := StepsOf(s, j);
      (s.(steps := s.steps[j := steps[number := steps[number].(state := if success then Succeeded else Broken)]]), Done)
  }

  function AppendLog(s: State, w: WorkerId, j: JobId, row: LogRow): (State, Reply) {
    if !HoldsLease(s, w, j) || row.step >= |StepsOf(s, j)| then (s, Refused(LostLease))
    else (s.(logs := s.logs[j := LogsOf(s, j) + [row]]), Done)
  }

  /** An upsert by path; a missing digest never replaces a recorded one. */
  function RecordImage(s: State, w: WorkerId, j: JobId, path: string, image: Image): (State, Reply) {
    if !HoldsLease(s, w, j) then (s, Refused(LostLease))
    else
      var images := ImagesOf(s, j);
      var digest := if path in images then image.digest.OrElse(images[path].digest) else image.digest;
      (s.(images := s.images[j := images[path := image.(digest := digest)]]), Done)
  }

  /** The head a terminal write installs, or None when the statement writes no row. */
  function NewHead(s: State, j: JobId, status: Status): Option<Basis>
    requires j in s.jobs
  {
    var job := s.jobs[j];
    if status.Success? && job.operation.Deploy? then Some(Basis(job.release, j))
    else if status.RolledBack? && job.operation.Rollback? && job.source.Some?
      && job.source.value.job in s.jobs
      && s.jobs[job.source.value.job].release == job.source.value.release
      && s.jobs[job.source.value.job].operation.Deploy?
      && s.jobs[job.source.value.job].status.Success?
    then job.source
    else None
  }

  function FinishJob(s: State, w: WorkerId, j: JobId, status: Status): (State, Reply) {
    if !Terminal(status) then (s, Refused(InvalidState))
    else if !HoldsLease(s, w, j) then (s, Refused(LostLease))
    else
      var finished := WriteJob(s, j, s.jobs[j].(status := status), status).(locks := DropLease(s.locks, j, w));
      if status.Failed? then (finished, Done)
      else
        var head := NewHead(s, j, status);
        if head.None? || s.jobs[j].release !in s.releases then (s, Refused(LostLease))
        else (finished.(heads := s.heads[s.releases[s.jobs[j].release].target := head.value]), Done)
  }

  function RecoverOne(s: State, j: JobId): State
    requires j in s.jobs
  {
    WriteJob(s, j, s.jobs[j].(status := Failed, lockedBy := None), Failed).(locks := DropLocks(s.locks, j))
  }

  /** Fails the executing jobs among those whose lease has expired. */
  function RecoverStale(s: State, expired: seq<JobId>): State
    decreases |expired|
  {
    if |expired| == 0 then s
    else
      var j := expired[0];
      var first := if j in s.jobs && Executing(s.jobs[j].status) then RecoverOne(s, j) else s;
      RecoverStale(first, expired[1..])
  }

  // --------------------------------------------------------------- the machine

  datatype Action =
    | ACreate(id: ReleaseId, target: Target, profile: ProfileId, version: string, user: UserId, matches: bool)
    | AEdit(id: ReleaseId, version: string, profile: ProfileId, matches: bool)
    | AUpload(id: ReleaseId, artifact: ArtifactId)
    | ADelete(id: ReleaseId)
    | AEnqueue(id: ReleaseId, user: UserId, retry: bool, checks: Checks)
    | ARollback(id: ReleaseId, user: UserId, checks: Checks)
    | AQuick(id: ReleaseId, user: UserId, filename: string, preset: Option<Preset>, artifact: ArtifactId,
             expectedCurrent: string, checks: Checks)
    | ADecide(id: ReleaseId, user: UserId, verdict: Verdict, comment: bool, checks: Checks)
    | AClaim(worker: WorkerId, pick: Option<JobId>, loadable: bool)
    | ABeginStep(worker: WorkerId, job: JobId, name: StepName)
    | AFinishStep(worker: WorkerId, job: JobId, number: nat, success: bool)
    | ALog(worker: WorkerId, job: JobId, row: LogRow)
    | AImage(worker: WorkerId, job: JobId, path: string, image: Image)
    | AFinishJob(worker: WorkerId, job: JobId, status: Status)
    | ARecover(expired: seq<JobId>)

  function Apply(s: State, policy: Policy, a: Action): (State, Reply) {
    match a
    case ACreate(id, t, profile, version, user, matches) => CreateRelease(s, id, t, profile, version, user, matches)
    case AEdit(id, version, profile, matches) => EditRelease(s, id, version, profile, matches)
    case AUpload(id, artifact) => UploadArtifact(s, id, artifact)
    case ADelete(id) => DeleteRelease(s, id)
    case AEnqueue(id, user, retry, c) => Enqueue(s, policy, id, user, retry, c)
    case ARollback(id, user, c) => RequestRollback(s, policy, id, user, false, c)
    case AQuick(id, user, filename, preset, artifact, expected, c) =>
      QuickRelease(s, policy, id, user, filename, preset, artifact, expected, c)
    case ADecide(id, user, verdict, comment, c) => Decide(s, policy, id, user, verdict, comment, c)
    case AClaim(w, pick, loadable) => ClaimJob(s, w, pick, loadable)
    case ABeginStep(w, j, name) => BeginStep(s, w, j, name)
    case AFinishStep(w, j, number, success) => FinishStep(s, w, j, number, success)
    case ALog(w, j, row) => AppendLog(s, w, j, row)
    case AImage(w, j, path, image) => RecordImage(s, w, j, path, image)
    case AFinishJob(w, j, status) => FinishJob(s, w, j, status)
    case ARecover(expired) => (RecoverStale(s, expired), Done)
  }

  function Next(s: State, policy: Policy, a: Action): State { Apply(s, policy, a).0 }

  /** Any interleaving of transactions, in the order they commit. */
  function Run(s: State, policy: Policy, actions: seq<Action>): State
    decreases |actions|
  {
    if |actions| == 0 then s else Run(Next(s, policy, actions[0]), policy, actions[1..])
  }
}
