/** The tables of the deployment control plane as one value. Identifiers are
    opaque numbers; job ids grow in the order of insertion. */
module Domain {
  import opened Common

  type UserId = nat
  type WorkerId = nat
  type ReleaseId = nat
  type JobId = nat
  type ProfileId = nat
  type ArtifactId = nat

  /** Application and environment: what a lock key and a deployment head belong to. */
  datatype Target = Target(application: nat, environment: nat)

  datatype Operation = Deploy | Rollback

  /** One vocabulary for release and job states (runner/internal/model/model.go). */
  datatype Status =
    | Draft | Uploaded | Rejected
    | PendingReview | UnderReview | Approved
    | Queued
    | Validating | PreCheck | Extracting | ImageInspect | ImageLoad | ImageTag | ImagePush
    | Deploying | Verifying | RollingBack
    | Success | Failed | RolledBack

  predicate Editable(s: Status) { s.Draft? || s.Uploaded? || s.Rejected? }

  predicate InReview(s: Status) { s.PendingReview? || s.UnderReview? || s.Approved? }

  predicate Executing(s: Status) {
    || s.Validating? || s.PreCheck? || s.Extracting? || s.ImageInspect? || s.ImageLoad?
    || s.ImageTag? || s.ImagePush? || s.Deploying? || s.Verifying? || s.RollingBack?
  }

  predicate Terminal(s: Status) { s.Success? || s.Failed? || s.RolledBack? }

  /** The queued and executing states: a job is under way. */
  predicate InFlight(s: Status) { s.Queued? || Executing(s) }

  type StepName = s: Status | Executing(s) witness Validating

  /** A release together with its successful DEPLOY job. */
  datatype Basis = Basis(release: ReleaseId, job: JobId)

  /** What a DEPLOY job carries to the target. */
  datatype Inputs = Inputs(version: string, profile: ProfileId, artifact: ArtifactId)

  /** What is submitted for review: inputs to deploy, or a deployment to return to. */
  datatype Request = DeployRequest(inputs: Inputs) | RollbackRequest(source: Basis)

  /** `submitted`, `submitter` and `approval` are history: the request as it stood at
      the last submission for review, who submitted it, and the standing unspent
      approval. */
  datatype Release = Release(
    target: Target,
    version: string,
    profile: ProfileId,
    artifact: Option<ArtifactId>,
    createdBy: UserId,
    status: Status,
    operation: Operation,
    source: Option<Basis>,
    retrySource: Option<JobId>,
    requestedBy: Option<UserId>,
    baseStatus: Option<Status>,
    quick: bool,
    autoDeploy: bool,
    quickBase: Option<Basis>,
    submitted: Option<Request>,
    submitter: Option<UserId>,
    approval: Option<nat>)

  /** `created` is the time at which the transaction that inserted the row began.
      `approval` is history: the approval the job spent, if any. */
  datatype Job = Job(
    release: ReleaseId,
    target: Target,
    operation: Operation,
    status: Status,
    source: Option<Basis>,
    retryOf: Option<JobId>,
    inputs: Inputs,
    createdBy: UserId,
    created: nat,
    lockedBy: Option<WorkerId>,
    attempts: nat,
    approval: Option<nat>)

  datatype Lock = Lock(job: JobId, worker: WorkerId)

  datatype StepState = Running | Succeeded | Broken

  datatype Step = Step(name: Status, state: StepState)

  /** A row of release_images without its path; the path is the key. */
  datatype Image = Image(destination: string, digest: Option<string>)

  datatype LogRow = LogRow(step: nat, stream: string, sequence: int, payload: seq<char>)

  /** History of APPROVED decisions: who, for whom as recorded, the request as it was
      submitted, and by whom. */
  datatype Decision = Decision(
    release: ReleaseId,
    approver: UserId,
    requester: UserId,
    request: Option<Request>,
    submitter: Option<UserId>)

  datatype State = State(
    releases: map<ReleaseId, Release>,
    jobs: map<JobId, Job>,
    nextJob: JobId,
    locks: map<Target, Lock>,
    heads: map<Target, Basis>,
    steps: map<JobId, seq<Step>>,
    images: map<JobId, map<string, Image>>,
    logs: map<JobId, seq<LogRow>>,
    decisions: seq<Decision>)

  const EMPTY := State(map[], map[], 0, map[], map[], map[], map[], map[], [])

  /** The approval configuration, fixed during a run. */
  datatype Policy = Policy(
    enabled: bool,
    profiles: set<ProfileId>,
    protectedTargets: set<Target>,
    allowSelf: bool,
    requireComment: bool)
  {
    predicate Required(t: Target, p: ProfileId) {
      enabled && (p in profiles || t in protectedTargets)
    }
  }

  /** Verdicts of queries over tables that are not modelled (profiles, scripts,
      credentials, runners) and of the target's advisory lock; and the time at which
      the transaction began. */
  datatype Checks = Checks(
    profileMatches: bool,
    targetActive: bool,
    dependenciesReady: bool,
    runnerReady: bool,
    targetContended: bool,
    credentialReady: bool,
    started: nat)

  datatype Code =
    | NotFound | InvalidRelease | ReleaseConflict | InvalidState | ReleaseInUse
    | QuickArtifactImmutable | ArtifactContentRequired
    | RetryRequiresFailed | RetryTargetStale | RetryRequired
    | ReleaseTargetDrift | ReleaseTargetInactive | ProfileNotReady
    | RunnerUnavailable | JobConflict | TargetCredentialNotReady | DeploymentHeadChanged
    | ApprovalDisabled | ApprovalRequired | SelfApprovalForbidden | RejectCommentRequired
    | RollbackSourceInvalid | RollbackTargetStale | RollbackRequestInvalid
    | InvalidArtifactFilename | PresetUnavailable | UpgradeRefused
    | NoJob | LockBusy | InvalidJob | LostLease

  datatype Reply = Done | Refused(code: Code)

  // ---------------------------------------------------------------- queries

  function HeadOf(s: State, t: Target): Option<Basis> {
    if t in s.heads then Some(s.heads[t]) else None
  }

  /** The order of "ORDER BY created_at, id": by the time the transaction began. */
  predicate CreatedBefore(jobs: map<JobId, Job>, i: JobId, j: JobId)
    requires i in jobs && j in jobs
  {
    jobs[i].created < jobs[j].created || (jobs[i].created == jobs[j].created && i < j)
  }

  /** Latest job of a target among the ids below `bound`. */
  function LatestBelow(jobs: map<JobId, Job>, bound: JobId, t: Target): (r: Option<JobId>)
    ensures r.Some? ==>
      && r.value in jobs && r.value < bound && jobs[r.value].target == t
      && forall j :: 0 <= j < bound && j in jobs && jobs[j].target == t && j != r.value ==>
           CreatedBefore(jobs, j, r.value)
    ensures r.None? ==> forall j :: 0 <= j < bound && j in jobs ==> jobs[j].target != t
  {
    if bound == 0 then None
    else
      var before := LatestBelow(jobs, bound - 1, t);
      if bound - 1 !in jobs || jobs[bound - 1].target != t then before
      else if before.Some? && CreatedBefore(jobs, bound - 1, before.value) then before
      else Some(bound - 1)
  }

  function LatestJob(s: State, t: Target): Option<JobId> {
    LatestBelow(s.jobs, s.nextJob, t)
  }

  /** The release's job when it is the target's latest and a failed DEPLOY. */
  function LatestFailedDeploy(s: State, id: ReleaseId): Option<JobId>
    requires id in s.releases
  {
    var latest := LatestJob(s, s.releases[id].target);
    if latest.Some? && latest.value in s.jobs
      && s.jobs[latest.value].release == id
      && s.jobs[latest.value].operation.Deploy?
      && s.jobs[latest.value].status.Failed?
    then latest else None
  }

  predicate Active(s: State, j: JobId) {
    j in s.jobs && !Terminal(s.jobs[j].status)
  }

  /** Some unfinished job holds the target. */
  predicate TargetBusy(s: State, t: Target) {
    exists j :: j in s.jobs && s.jobs[j].target == t && !Terminal(s.jobs[j].status)
  }

  /** A successful DEPLOY job of the release on the target. */
  predicate IsBasis(s: State, t: Target, b: Basis) {
    && b.job in s.jobs
    && s.jobs[b.job].release == b.release
    && s.jobs[b.job].target == t
    && s.jobs[b.job].operation.Deploy?
    && s.jobs[b.job].status.Success?
  }

  function InputsOf(r: Release): Option<Inputs> {
    if r.artifact.None? then None else Some(Inputs(r.version, r.profile, r.artifact.value))
  }

  function DeployRequestOf(r: Release): Option<Request> {
    if r.artifact.None? then None else Some(DeployRequest(InputsOf(r).value))
  }
}
