/** Approve, then freeze: under a fixed policy, what runs on a target that needs
    approval is exactly what somebody else approved, and an approval runs once. */
module Approvals {
  import opened Common
  import opened Domain
  import opened Transitions
  import opened Invariants
  import QuickArtifact

  /** The request a release row would submit now. */
  function CurrentRequest(r: Release): Option<Request> {
    if r.operation.Deploy? then DeployRequestOf(r)
    else if r.source.Some? then Some(RollbackRequest(r.source.value)) else None
  }

  /** What a job carries out. */
  function JobRequest(job: Job): Option<Request> {
    if job.operation.Deploy? then Some(DeployRequest(job.inputs))
    else if job.source.Some? then Some(RollbackRequest(job.source.value)) else None
  }

  /** Decision d approved this request of this release, for somebody else unless
      the policy lets requesters approve their own. The recorded requester of a
      rollback is its submitter. */
  ghost predicate Granted(s: State, policy: Policy, d: nat, id: ReleaseId, request: Option<Request>) {
    && d < |s.decisions|
    && s.decisions[d].release == id
    && request.Some? && s.decisions[d].request == request
    && (policy.allowSelf || s.decisions[d].approver != s.decisions[d].requester)
    && s.decisions[d].submitter.Some?
    && (request.value.RollbackRequest? ==> s.decisions[d].submitter == Some(s.decisions[d].requester))
  }

  /** The row still says what was submitted, and by whom; a retry and a rollback record
      their submitter as the requester. */
  ghost predicate Submitted(r: Release) {
    && r.submitted.Some? && r.submitted == CurrentRequest(r) && r.submitter.Some?
    && (r.retrySource.Some? || r.operation.Rollback? ==> r.requestedBy == r.submitter)
  }

  ghost predicate RowApproval(s: State, policy: Policy, id: ReleaseId, r: Release) {
    && (r.approval.Some? <==> r.status.Approved?)
    && (InReview(r.status) ==> Submitted(r))
    && (r.approval.Some? ==> Granted(s, policy, r.approval.value, id, r.submitted))
  }

  ghost predicate ReleaseApproved(s: State, policy: Policy, id: ReleaseId)
    requires id in s.releases
  {
    RowApproval(s, policy, id, s.releases[id])
  }

  ghost predicate CarriesApproval(s: State, policy: Policy, job: Job) {
    && (policy.Required(job.target, job.inputs.profile) ==> job.approval.Some?)
    && (job.approval.Some? ==> Granted(s, policy, job.approval.value, job.release, JobRequest(job)))
  }

  ghost predicate JobApproved(s: State, policy: Policy, j: JobId)
    requires j in s.jobs
  {
    CarriesApproval(s, policy, s.jobs[j])
  }

  /** A standing approval has not been spent by a job. */
  ghost predicate Unspent(s: State, id: ReleaseId, j: JobId)
    requires id in s.releases && j in s.jobs
  {
    s.releases[id].approval.Some? ==> s.jobs[j].approval != s.releases[id].approval
  }

  ghost predicate SpentOnce(s: State, i: JobId, j: JobId)
    requires i in s.jobs && j in s.jobs
  {
    s.jobs[i].approval.Some? && s.jobs[i].approval == s.jobs[j].approval ==> i == j
  }

  ghost predicate ApprovalInv(s: State, policy: Policy) {
    && (forall id {:trigger ReleaseApproved(s, policy, id)} :: id in s.releases ==> ReleaseApproved(s, policy, id))
    && (forall j {:trigger JobApproved(s, policy, j)} :: j in s.jobs ==> JobApproved(s, policy, j))
    && (forall id, j {:trigger Unspent(s, id, j)} :: id in s.releases && j in s.jobs ==> Unspent(s, id, j))
    && (forall i, j {:trigger SpentOnce(s, i, j)} :: i in s.jobs && j in s.jobs ==> SpentOnce(s, i, j))
  }

  lemma {:induction false} InitApproved(policy: Policy)
    ensures ApprovalInv(EMPTY, policy)
  {
  }

  // ------------------------------------------------------------ classes of writes

  /** Decisions are only ever added. */
  ghost predicate DecisionsKept(s: State, s': State) {
    s.decisions <= s'.decisions
  }

  /** How a transaction moves approvals: one that is standing or carried afterwards
      was standing before, was carried by the same job before, or is new. */
  ghost predicate Moved(s: State, s': State) {
    && |s.decisions| <= |s'.decisions|
    && (forall id :: id in s'.releases ==> RowMoved(s, id, s'.releases[id].approval))
    && (forall j :: j in s'.jobs ==> JobMoved(s, j, s'.jobs[j].approval))
  }

  ghost predicate RowMoved(s: State, id: ReleaseId, approval: Option<nat>) {
    approval.Some? ==> approval.value >= |s.decisions| || (id in s.releases && s.releases[id].approval == approval)
  }

  ghost predicate JobMoved(s: State, j: JobId, approval: Option<nat>) {
    if j in s.jobs then approval == s.jobs[j].approval
    else
      approval.Some? && approval.value < |s.decisions| ==>
        exists id :: id in s.releases && s.releases[id].approval == approval
  }

  /** A job row that moved keeps what it carries. */
  ghost predicate SameCargo(a: Job, b: Job) {
    b == a.(status := b.status, attempts := b.attempts, lockedBy := b.lockedBy)
  }

  /** Rows that are as approved as before: the rest of the tables may shrink. */
  ghost predicate KeepsRow(s: State, s': State, policy: Policy, id: ReleaseId) {
    id in s'.releases ==>
      && RowApproval(s', policy, id, s'.releases[id])
      && (s'.releases[id].approval.Some? ==> id in s.releases && s'.releases[id].approval == s.releases[id].approval)
  }

  lemma {:induction false} ShrinkKeeps(s: State, s': State, policy: Policy)
    requires ApprovalInv(s, policy) && DecisionsKept(s, s')
    requires forall id {:trigger KeepsRow(s, s', policy, id)} :: KeepsRow(s, s', policy, id)
    requires forall j :: j in s'.jobs ==> j in s.jobs && SameCargo(s.jobs[j], s'.jobs[j])
    ensures ApprovalInv(s', policy)
  {
    forall id | id in s'.releases ensures ReleaseApproved(s', policy, id) { assert KeepsRow(s, s', policy, id); }
    forall j | j in s'.jobs ensures JobApproved(s', policy, j) { assert JobApproved(s, policy, j); }
    forall id, j | id in s'.releases && j in s'.jobs ensures Unspent(s', id, j) {
      assert KeepsRow(s, s', policy, id);
      if s'.releases[id].approval.Some? { assert Unspent(s, id, j); }
    }
    forall i, j | i in s'.jobs && j in s'.jobs ensures SpentOnce(s', i, j) { assert SpentOnce(s, i, j); }
  }

  lemma {:induction false} SameRowKept(s: State, s': State, policy: Policy, id: ReleaseId)
    requires ApprovalInv(s, policy) && DecisionsKept(s, s')
    requires id in s'.releases ==> id in s.releases && s'.releases[id] == s.releases[id]
    ensures KeepsRow(s, s', policy, id)
  {
    if id in s'.releases { assert ReleaseApproved(s, policy, id); }
  }

  /** Writes of one release row that grant nothing. */
  ghost predicate QuietRow(s: State, id: ReleaseId, r: Release) {
    && (InReview(r.status) ==> Submitted(r))
    && !r.status.Approved? && r.approval.None?
  }

  lemma {:induction false} PutQuietKeeps(s: State, policy: Policy, id: ReleaseId, r: Release)
    requires ApprovalInv(s, policy) && QuietRow(s, id, r)
    ensures ApprovalInv(PutRelease(s, id, r), policy) && Moved(s, PutRelease(s, id, r))
  {
    hide ApprovalInv;
    var s' := PutRelease(s, id, r);
    forall k ensures KeepsRow(s, s', policy, k) {
      if k != id { SameRowKept(s, s', policy, k); }
    }
    ShrinkKeeps(s, s', policy);
  }

  /** A new job takes the standing approval of its release with it. */
  ghost predicate SpendingJob(s: State, policy: Policy, id: ReleaseId, r: Release, job: Job)
    requires id in s.releases
  {
    && QuietRow(s, id, r)
    && job.release == id && job.approval == s.releases[id].approval
    && CarriesApproval(s, policy, job)
  }

  lemma {:induction false} SpendKeeps(s: State, policy: Policy, id: ReleaseId, r: Release, job: Job)
    requires Inv(s) && ApprovalInv(s, policy) && id in s.releases && SpendingJob(s, policy, id, r, job)
    ensures ApprovalInv(QueueJob(s, id, r, job), policy) && Moved(s, QueueJob(s, id, r, job))
  {
    var s', n := QueueJob(s, id, r, job), s.nextJob;
    QueueBases(s, id, r, job);
    hide Inv, CarriesApproval, RowApproval;
    PutQuietKeeps(s, policy, id, r);
    forall k | k in s'.releases ensures ReleaseApproved(s', policy, k) {
      RowIgnoresJobs(PutRelease(s, id, r), s', policy, k);
    }
    forall j | j in s'.jobs ensures JobApproved(s', policy, j) {
      if j != n { assert JobApproved(s, policy, j); }
      CargoIgnoresTables(s, s', policy, s'.jobs[j]);
    }
    forall k, j | k in s'.releases && j in s'.jobs ensures Unspent(s', k, j) {
      if k != id && j != n { assert Unspent(s, k, j); }
      if k != id && j == n { StandingApart(s, policy, id, k); }
    }
    forall i, j | i in s'.jobs && j in s'.jobs ensures SpentOnce(s', i, j) {
      if i != n && j != n { assert SpentOnce(s, i, j); }
      if i != n { assert Unspent(s, id, i); }
      if j != n { assert Unspent(s, id, j); }
    }
  }

  lemma {:induction false} RowIgnoresJobs(s: State, s': State, policy: Policy, id: ReleaseId)
    requires ApprovalInv(s, policy) && s'.releases == s.releases && s'.decisions == s.decisions && id in s.releases
    ensures ReleaseApproved(s', policy, id)
  {
    assert ReleaseApproved(s, policy, id);
  }

  lemma {:induction false} CargoIgnoresTables(s: State, s': State, policy: Policy, job: Job)
    requires CarriesApproval(s, policy, job) && DecisionsKept(s, s')
    ensures CarriesApproval(s', policy, job)
  {
  }

  /** Standing approvals of two releases are two decisions. */
  lemma {:induction false} StandingApart(s: State, policy: Policy, i: ReleaseId, k: ReleaseId)
    requires ApprovalInv(s, policy) && i in s.releases && k in s.releases && i != k
    ensures s.releases[k].approval.Some? ==> s.releases[i].approval != s.releases[k].approval
  {
    assert ReleaseApproved(s, policy, i) && ReleaseApproved(s, policy, k);
  }

  /** The approval itself: a fresh decision for the submitted request. */
  lemma {:induction false} GrantKeeps(s: State, policy: Policy, id: ReleaseId, user: UserId)
    requires ApprovalInv(s, policy) && id in s.releases
    requires s.releases[id].status.PendingReview? || s.releases[id].status.UnderReview?
    requires policy.allowSelf || Requester(s.releases[id]) != user
    ensures ApprovalInv(RecordApproval(s, id, user), policy) && Moved(s, RecordApproval(s, id, user))
  {
    var s' := RecordApproval(s, id, user);
    assert ReleaseApproved(s, policy, id);
    forall k | k in s'.releases ensures ReleaseApproved(s', policy, k) {
      if k != id { SameRowKept(s, s', policy, k); }
    }
    forall j | j in s'.jobs ensures JobApproved(s', policy, j) {
      assert JobApproved(s, policy, j);
      CargoIgnoresTables(s, s', policy, s.jobs[j]);
    }
    forall k, j | k in s'.releases && j in s'.jobs ensures Unspent(s', k, j) {
      assert JobApproved(s, policy, j);
      if k != id { assert Unspent(s, k, j); }
    }
    forall i, j | i in s'.jobs && j in s'.jobs ensures SpentOnce(s', i, j) { assert SpentOnce(s, i, j); }
  }

  /** Runner writes: an unfinished job moves and its status is mirrored. */
  lemma {:induction false} MirrorKeeps(s: State, s': State, policy: Policy, j: JobId, job: Job)
    requires Inv(s) && ApprovalInv(s, policy) && Active(s, j)
    requires SameCargo(s.jobs[j], job) && (Executing(job.status) || Terminal(job.status))
    requires s'.jobs == s.jobs[j := job] && s'.decisions == s.decisions
    requires job.release in s.releases
    requires s'.releases == s.releases[job.release := s.releases[job.release].(status := job.status)]
    ensures ApprovalInv(s', policy) && Moved(s, s')
  {
    JobFacts(s, j);
    hide Inv, ApprovalInv;
    forall k ensures KeepsRow(s, s', policy, k) {
      if k != job.release { SameRowKept(s, s', policy, k); } else { InFlightHasNone(s, policy, k); }
    }
    ShrinkKeeps(s, s', policy);
  }

  lemma {:induction false} InFlightHasNone(s: State, policy: Policy, id: ReleaseId)
    requires ApprovalInv(s, policy) && id in s.releases && !s.releases[id].status.Approved?
    ensures s.releases[id].approval.None?
  {
    assert ReleaseApproved(s, policy, id);
  }

  lemma {:induction false} SameApprovals(s: State, s': State, policy: Policy)
    requires ApprovalInv(s, policy)
    requires s'.releases == s.releases && s'.jobs == s.jobs && s'.decisions == s.decisions
    ensures ApprovalInv(s', policy) && Moved(s, s')
  {
    hide ApprovalInv;
    forall k ensures KeepsRow(s, s', policy, k) { SameRowKept(s, s', policy, k); }
    ShrinkKeeps(s, s', policy);
  }

  // ------------------------------------------------------------------ each request

  ghost predicate EffectApproved(s: State, policy: Policy, id: ReleaseId, e: Effect)
    requires id in s.releases
  {
    match e
    case Nothing(_) => true
    case Rewrite(row, _) => QuietRow(s, id, row)
    case Queue(row, job) => SpendingJob(s, policy, id, row, job)
  }

  lemma {:induction false} CommitApproved(s: State, policy: Policy, id: ReleaseId, e: Effect)
    requires Inv(s) && ApprovalInv(s, policy) && id in s.releases && EffectApproved(s, policy, id, e)
    ensures ApprovalInv(Commit(s, id, e).0, policy) && Moved(s, Commit(s, id, e).0)
  {
    hide Inv, ApprovalInv, QuietRow, SpendingJob;
    match e
    case Nothing(_) =>
    case Rewrite(row, _) => PutQuietKeeps(s, policy, id, row);
    case Queue(row, job) => SpendKeeps(s, policy, id, row, job);
  }

  lemma {:induction false} RowFacts(s: State, policy: Policy, id: ReleaseId)
    requires ApprovalInv(s, policy) && id in s.releases
    ensures RowApproval(s, policy, id, s.releases[id])
  {
    assert ReleaseApproved(s, policy, id);
  }

  lemma {:induction false} DeployApproved(s: State, policy: Policy, id: ReleaseId, user: UserId, retry: bool, c: Checks)
    requires ApprovalInv(s, policy) && id in s.releases && s.releases[id].operation.Deploy?
    ensures EffectApproved(s, policy, id, DeployEffect(s, policy, id, user, retry, c))
  {
    hide ApprovalInv, LatestFailedDeploy, TargetBusy, Policy.Required;
    RowFacts(s, policy, id);
  }

  lemma {:induction false} RollbackApproved(
      s: State, policy: Policy, id: ReleaseId, user: UserId, retry: bool, c: Checks)
    requires ApprovalInv(s, policy) && id in s.releases
    ensures EffectApproved(s, policy, id, RollbackEffect(s, policy, id, user, retry, c))
  {
    hide ApprovalInv, ResolvePlan, TargetBusy, Policy.Required, IsBasis;
    RowFacts(s, policy, id);
  }

  lemma {:induction false} RequestRollbackApproved(
      s: State, policy: Policy, id: ReleaseId, user: UserId, retry: bool, c: Checks)
    requires Inv(s) && ApprovalInv(s, policy)
    ensures ApprovalInv(RequestRollback(s, policy, id, user, retry, c).0, policy)
    ensures Moved(s, RequestRollback(s, policy, id, user, retry, c).0)
  {
    hide Inv, ApprovalInv, RollbackEffect, EffectApproved, Commit;
    if id in s.releases {
      RollbackApproved(s, policy, id, user, retry, c);
      CommitApproved(s, policy, id, RollbackEffect(s, policy, id, user, retry, c));
    }
  }

  /** A quick release that is queued at once needs no approval; one that is queued
      on approval has just been given it. */
  lemma {:induction false} QuickQueueApproved(s: State, policy: Policy, id: ReleaseId, expected: Status, c: Checks)
    requires Inv(s) && ApprovalInv(s, policy) && id in s.releases && s.releases[id].operation.Deploy?
    requires expected.Approved? ||
             (expected.Uploaded? && !policy.Required(s.releases[id].target, s.releases[id].profile))
    ensures ApprovalInv(QueueQuickDeploy(s, id, expected, c).0, policy)
    ensures Moved(s, QueueQuickDeploy(s, id, expected, c).0)
  {
    hide Inv, ApprovalInv, TargetBusy, Policy.Required;
    RowFacts(s, policy, id);
    CommitApproved(s, policy, id, QuickEffect(s, id, expected, c));
  }

  lemma {:induction false} QuickReleaseApproved(
      s: State, policy: Policy, id: ReleaseId, user: UserId, filename: string, preset: Option<Preset>,
      artifact: ArtifactId, expectedCurrent: string, c: Checks)
    requires Inv(s) && ApprovalInv(s, policy)
    ensures ApprovalInv(QuickRelease(s, policy, id, user, filename, preset, artifact, expectedCurrent, c).0, policy)
    ensures Moved(s, QuickRelease(s, policy, id, user, filename, preset, artifact, expectedCurrent, c).0)
  {
    hide Inv, ApprovalInv, QuickRelease, Policy.Required, QueueQuickDeploy, CurrentVersion;
    hide QuickArtifact.ParseName, QuickArtifact.ValidateQuickUpgrade;
    var r := QuickReleaseCases(s, policy, id, user, filename, preset, artifact, expectedCurrent, c);
    if QuickRelease(s, policy, id, user, filename, preset, artifact, expectedCurrent, c).0 != s {
      if policy.Required(r.target, r.profile) {
        PutQuietKeeps(s, policy, id,
          r.(status := PendingReview, submitted := DeployRequestOf(r), submitter := Some(user)));
      } else {
        InsertKeeps(s, id, r);
        PutQuietKeeps(s, policy, id, r);
        QuickQueueApproved(PutRelease(s, id, r), policy, id, Uploaded, c);
      }
    }
  }

  lemma {:induction false} ApproveApproved(s: State, policy: Policy, id: ReleaseId, user: UserId, c: Checks)
    requires Inv(s) && ApprovalInv(s, policy) && id in s.releases
    ensures ApprovalInv(ApproveRequest(s, policy, id, user, c).0, policy)
    ensures Moved(s, ApproveRequest(s, policy, id, user, c).0)
  {
    hide Inv, ApprovalInv, ResolvePlan, LatestFailedDeploy, SourceUsable, QueueQuickDeploy;
    if ApproveRefusal(s, policy, id, user, c).None? {
      var s' := RecordApproval(s, id, user);
      GrantKeeps(s, policy, id, user);
      RecordApprovalKeeps(s, id, user);
      if s.releases[id].operation.Deploy? { QuickQueueApproved(s', policy, id, Approved, c); }
    }
  }

  lemma {:induction false} DecideApproved(
      s: State, policy: Policy, id: ReleaseId, user: UserId, verdict: Verdict, comment: bool, c: Checks)
    requires Inv(s) && ApprovalInv(s, policy)
    ensures ApprovalInv(Decide(s, policy, id, user, verdict, comment, c).0, policy)
    ensures Moved(s, Decide(s, policy, id, user, verdict, comment, c).0)
  {
    hide Inv, ApprovalInv, ApproveRequest, Policy.Required, Commit;
    if id in s.releases {
      RowFacts(s, policy, id);
      var r := s.releases[id];
      match verdict
      case Approve => ApproveApproved(s, policy, id, user, c);
      case Reject => CommitApproved(s, policy, id, RejectEffect(s, policy, id, comment));
      case Review =>
        CommitApproved(s, policy, id, if r.status.PendingReview? then Rewrite(r.(status := UnderReview), Done)
          else Nothing(InvalidState));
    }
  }

  lemma {:induction false} DraftApproved(s: State, policy: Policy, a: Action)
    requires ApprovalInv(s, policy) && (a.ACreate? || a.AEdit? || a.AUpload?)
    ensures ApprovalInv(Next(s, policy, a), policy) && Moved(s, Next(s, policy, a))
  {
    hide ApprovalInv, VersionTaken;
    var s' := Next(s, policy, a);
    if s' != s {
      if a.id in s.releases { RowFacts(s, policy, a.id); }
      PutQuietKeeps(s, policy, a.id, s'.releases[a.id]);
    }
  }

  lemma {:induction false} DeleteApproved(s: State, policy: Policy, id: ReleaseId)
    requires ApprovalInv(s, policy)
    ensures ApprovalInv(DeleteRelease(s, id).0, policy) && Moved(s, DeleteRelease(s, id).0)
  {
    hide ApprovalInv, Referenced;
    var s' := DeleteRelease(s, id).0;
    forall k ensures KeepsRow(s, s', policy, k) { SameRowKept(s, s', policy, k); }
    ShrinkKeeps(s, s', policy);
  }

  // ------------------------------------------------------------------ the runner

  lemma {:induction false} ClaimApproved(s: State, policy: Policy, w: WorkerId, pick: Option<JobId>, loadable: bool)
    requires Inv(s) && ApprovalInv(s, policy)
    ensures ApprovalInv(ClaimJob(s, w, pick, loadable).0, policy) && Moved(s, ClaimJob(s, w, pick, loadable).0)
  {
    hide Inv, ApprovalInv, RollbackImagesReady;
    var s' := ClaimJob(s, w, pick, loadable).0;
    if pick.Some? && pick.value in s.jobs && s.jobs[pick.value].status.Queued? &&
      s.jobs[pick.value].target !in s.locks {
      JobFacts(s, pick.value);
      MirrorKeeps(s, s', policy, pick.value, s'.jobs[pick.value]);
    }
  }

  lemma {:induction false} BeginApproved(s: State, policy: Policy, w: WorkerId, j: JobId, name: StepName)
    requires Inv(s) && ApprovalInv(s, policy)
    ensures ApprovalInv(BeginStep(s, w, j, name).0, policy) && Moved(s, BeginStep(s, w, j, name).0)
  {
    hide Inv, ApprovalInv;
    if OwnsJob(s, w, j) {
      JobFacts(s, j);
      MirrorKeeps(s, BeginStep(s, w, j, name).0, policy, j, s.jobs[j].(status := name));
    }
  }

  lemma {:induction false} FinishApproved(s: State, policy: Policy, w: WorkerId, j: JobId, status: Status)
    requires Inv(s) && ApprovalInv(s, policy)
    ensures ApprovalInv(FinishJob(s, w, j, status).0, policy) && Moved(s, FinishJob(s, w, j, status).0)
  {
    hide Inv, ApprovalInv, HasLockRow, NewHead, DropLocks, DropLease;
    var (s', reply) := FinishJob(s, w, j, status);
    if reply.Done? {
      JobFacts(s, j);
      MirrorKeeps(s, s', policy, j, s.jobs[j].(status := status));
    }
  }

  lemma {:induction false} RecoverApproved(s: State, policy: Policy, expired: seq<JobId>)
    requires Inv(s) && ApprovalInv(s, policy)
    ensures ApprovalInv(RecoverStale(s, expired), policy) && Moved(s, RecoverStale(s, expired))
    decreases |expired|
  {
    hide Inv, ApprovalInv, DropLocks, DropLease;
    if |expired| > 0 {
      var j := expired[0];
      if j in s.jobs && Executing(s.jobs[j].status) {
        JobFacts(s, j);
        var s' := RecoverOne(s, j);
        MirrorKeeps(s, s', policy, j, s'.jobs[j]);
        RecoverKeeps(s, [j]);
        assert [j][1..] == [] && RecoverStale(s, [j]) == RecoverStale(s', []);
        RecoverApproved(s', policy, expired[1..]);
      } else {
        RecoverApproved(s, policy, expired[1..]);
      }
    }
  }

  lemma {:induction false} NextApproved(s: State, policy: Policy, a: Action)
    requires Inv(s) && ApprovalInv(s, policy)
    ensures ApprovalInv(Next(s, policy, a), policy) && Moved(s, Next(s, policy, a))
  {
    hide Inv, ApprovalInv, CreateRelease, EditRelease, UploadArtifact, DeleteRelease, DeployEffect, Commit,
         EffectApproved, RequestRollback, QuickRelease, Decide, ClaimJob, BeginStep, FinishJob, RecoverStale;
    match a
    case ADelete(id) => DeleteApproved(s, policy, id);
    case AEnqueue(id, user, retry, c) =>
      if id in s.releases {
        if s.releases[id].operation.Rollback? { RequestRollbackApproved(s, policy, id, user, retry, c); }
        else {
          DeployApproved(s, policy, id, user, retry, c);
          CommitApproved(s, policy, id, DeployEffect(s, policy, id, user, retry, c));
        }
      }
    case ARollback(id, user, c) => RequestRollbackApproved(s, policy, id, user, false, c);
    case AQuick(id, user, filename, preset, artifact, expected, c) =>
      QuickReleaseApproved(s, policy, id, user, filename, preset, artifact, expected, c);
    case ADecide(id, user, verdict, comment, c) => DecideApproved(s, policy, id, user, verdict, comment, c);
    case AClaim(w, pick, loadable) => ClaimApproved(s, policy, w, pick, loadable);
    case ABeginStep(w, j, name) => BeginApproved(s, policy, w, j, name);
    case AFinishStep(_, _, _, _) => SameApprovals(s, Next(s, policy, a), policy);
    case ALog(_, _, _) => SameApprovals(s, Next(s, policy, a), policy);
    case AImage(_, _, _, _) => SameApprovals(s, Next(s, policy, a), policy);
    case AFinishJob(w, j, status) => FinishApproved(s, policy, w, j, status);
    case ARecover(expired) => RecoverApproved(s, policy, expired);
    case _ => DraftApproved(s, policy, a);
  }

  lemma {:induction false} RunApproved(s: State, policy: Policy, actions: seq<Action>)
    requires Inv(s) && ApprovalInv(s, policy)
    ensures ApprovalInv(Run(s, policy, actions), policy)
    decreases |actions|
  {
    hide Inv, ApprovalInv, Next;
    if |actions| > 0 {
      NextKeeps(s, policy, actions[0]);
      NextApproved(s, policy, actions[0]);
      RunApproved(Next(s, policy, actions[0]), policy, actions[1..]);
    }
  }

  // ----------------------------------------------------------------------- theorems

  /** Under a fixed policy every job on an approval-required target and profile
      spends an APPROVED decision of its own release: made by somebody other
      than the recorded requester unless self-approval is on, and about exactly
      what the job carries out, as it stood at submission. For a rollback the
      recorded requester is who submitted it. */
  lemma {:induction false} RequiredJobWasApproved(policy: Policy, actions: seq<Action>, j: JobId)
    requires
      var s := Run(EMPTY, policy, actions);
      j in s.jobs && policy.Required(s.jobs[j].target, s.jobs[j].inputs.profile)
    ensures
      var s := Run(EMPTY, policy, actions);
      var job := s.jobs[j];
      && job.approval.Some? && job.approval.value < |s.decisions|
      && var d := s.decisions[job.approval.value];
         && d.release == job.release
         && (policy.allowSelf || d.approver != d.requester)
         && d.request.Some? && d.request == JobRequest(job)
         && (job.operation.Rollback? && !policy.allowSelf ==> d.submitter.Some? && d.approver != d.submitter.value)
  {
    hide Run;
    InitOk();
    InitApproved(policy);
    RunApproved(EMPTY, policy, actions);
    assert JobApproved(Run(EMPTY, policy, actions), policy, j);
  }

  /** The requests whose submitter becomes the recorded requester: retries, rollbacks,
      and those the recorded requester submits himself. */
  predicate OwnRequest(r: Release, user: UserId, retry: bool) {
    retry || r.retrySource.Some? || r.operation.Rollback? || Requester(r) == user
  }

  /** Exactly when a submitter cannot approve what he submitted: self-approval is off
      and the request is his own as recorded. Whoever submits somebody else's draft
      may approve it. */
  lemma {:induction false} SubmitterIsRefusedExactly(
      s: State, s': State, policy: Policy, id: ReleaseId, user: UserId, retry: bool, c: Checks, comment: bool,
      later: Checks)
    requires id in s.releases && id in s'.releases && (s', Done) == Enqueue(s, policy, id, user, retry, c)
    requires s'.releases[id].status.PendingReview?
    ensures s'.releases[id].submitter == Some(user)
    ensures Decide(s', policy, id, user, Approve, comment, later).1 == Refused(SelfApprovalForbidden) <==>
            !policy.allowSelf && OwnRequest(s.releases[id], user, retry)
  {
    hide Enqueue, Decide;
    if s.releases[id].operation.Rollback? { RollbackSubmission(s, s', policy, id, user, retry, c); }
    else { DeploySubmission(s, s', policy, id, user, retry, c); }
    SelfRefusal(s', policy, id, user, comment, later);
  }

  lemma {:induction false} DeploySubmission(
    s: State, s': State, policy: Policy, id: ReleaseId, user: UserId, retry: bool, c: Checks)
    requires id in s.releases && id in s'.releases && (s', Done) == Enqueue(s, policy, id, user, retry, c)
    requires s.releases[id].operation.Deploy? && s'.releases[id].status.PendingReview?
    ensures s'.releases[id].submitter == Some(user)
    ensures Requester(s'.releases[id]) == user <==> OwnRequest(s.releases[id], user, retry)
  {
    hide LatestFailedDeploy, TargetBusy, Policy.Required;
    assert s'.releases[id].status == PendingReview;
  }

  lemma {:induction false} RollbackSubmission(
    s: State, s': State, policy: Policy, id: ReleaseId, user: UserId, retry: bool, c: Checks)
    requires id in s.releases && id in s'.releases && (s', Done) == Enqueue(s, policy, id, user, retry, c)
    requires s.releases[id].operation.Rollback? && s'.releases[id].status.PendingReview?
    ensures s'.releases[id].submitter == Some(user)
    ensures Requester(s'.releases[id]) == user
  {
    hide ResolvePlan, SourceUsable, TargetBusy, Policy.Required;
  }

  lemma {:induction false} SelfRefusal(s: State, policy: Policy, id: ReleaseId, user: UserId, comment: bool, c: Checks)
    requires id in s.releases && s.releases[id].status.PendingReview?
    ensures Decide(s, policy, id, user, Approve, comment, c).1 == Refused(SelfApprovalForbidden) <==>
            !policy.allowSelf && Requester(s.releases[id]) == user
  {
    hide LatestFailedDeploy, ResolvePlan, SourceUsable, QueueQuickDeploy, Policy.Required, RecordApproval;
    QueuedRefusal(RecordApproval(s, id, user), id, c);
  }

  lemma {:induction false} QueuedRefusal(s: State, id: ReleaseId, c: Checks)
    ensures QueueQuickDeploy(s, id, Status.Approved, c).1 != Refused(SelfApprovalForbidden)
  {
    hide TargetBusy;
  }

  /** The witness: user 1 drafts, user 2 submits and approves, with self-approval off. */
  lemma {:induction false} SubmitterApprovesDraftOfAnother()
    ensures
      var policy := Policy(true, {0}, {}, false, false);
      var c := Checks(true, true, true, true, false, true, 0);
      var draft := Run(EMPTY, policy, [ACreate(0, Target(0, 0), 0, "1", 1, true), AUpload(0, 0)]);
      var s := Run(draft, policy, [AEnqueue(0, 2, false, c), ADecide(0, 2, Approve, false, c)]);
      && s.decisions == [Decision(0, 2, 1, Some(DeployRequest(Inputs("1", 0, 0))), Some(2))]
      && 0 in s.releases && s.releases[0].status.Approved?
  {
    var policy := Policy(true, {0}, {}, false, false);
    var c := Checks(true, true, true, true, false, true, 0);
    var create, upload := ACreate(0, Target(0, 0), 0, "1", 1, true), AUpload(0, 0);
    var enqueue, approve := AEnqueue(0, 2, false, c), ADecide(0, 2, Approve, false, c);
    RunTwo(EMPTY, policy, create, upload);
    var drafted := NewRelease(Target(0, 0), 0, "1", 1);
    var draft := Next(Next(EMPTY, policy, create), policy, upload);
    hide Run;
    assert draft == EMPTY.(releases := map[0 := drafted.(artifact := Some(0), status := Uploaded)]);
    RunTwo(draft, policy, enqueue, approve);
    NoJobs(draft, Target(0, 0));
    hide LatestFailedDeploy, TargetBusy;
    var submitted := Next(draft, policy, enqueue);
    assert submitted.releases[0].status.PendingReview? && submitted.releases[0].submitter == Some(2);
  }

  lemma {:induction false} RunTwo(s: State, policy: Policy, a: Action, b: Action)
    ensures Run(s, policy, [a, b]) == Next(Next(s, policy, a), policy, b)
  {
    hide Next;
    assert [a, b][1..] == [b] && [b][1..] == [];
    assert Run(s, policy, [a, b]) == Run(Next(s, policy, a), policy, [b]);
    assert Run(Next(s, policy, a), policy, [b]) == Run(Next(Next(s, policy, a), policy, b), policy, []);
  }

  lemma NoJobs(s: State, t: Target)
    requires s.jobs == map[]
    ensures !TargetBusy(s, t) && LatestJob(s, t).None?
  {
  }

  /** Decision d is spent by job i at most, and by nothing standing. */
  ghost predicate Spent(s: State, d: nat, i: JobId) {
    && d < |s.decisions|
    && (forall j :: j in s.jobs && s.jobs[j].approval == Some(d) ==> j == i)
    && (forall id :: id in s.releases ==> s.releases[id].approval != Some(d))
  }

  lemma {:induction false} SpentStays(s: State, s': State, d: nat, i: JobId)
    requires Spent(s, d, i) && Moved(s, s')
    ensures Spent(s', d, i)
  {
    forall j | j in s'.jobs && s'.jobs[j].approval == Some(d) ensures j == i {
      assert JobMoved(s, j, s'.jobs[j].approval);
    }
    forall id | id in s'.releases ensures s'.releases[id].approval != Some(d) {
      assert RowMoved(s, id, s'.releases[id].approval);
    }
  }

  lemma {:induction false} RunSpent(s: State, policy: Policy, actions: seq<Action>, d: nat, i: JobId)
    requires Inv(s) && ApprovalInv(s, policy) && Spent(s, d, i)
    ensures Spent(Run(s, policy, actions), d, i)
    decreases |actions|
  {
    hide Inv, ApprovalInv, Next, Spent, Moved;
    if |actions| > 0 {
      NextKeeps(s, policy, actions[0]);
      NextApproved(s, policy, actions[0]);
      SpentStays(s, Next(s, policy, actions[0]), d, i);
      RunSpent(Next(s, policy, actions[0]), policy, actions[1..], d, i);
    }
  }

  /** No approval is ever spent twice: once a job has carried one, at any later point
      of the run no other job carries it and no release has it standing, even after
      the job was deleted. */
  lemma {:induction false} ApprovalSpentOnce(
    policy: Policy, before: seq<Action>, after: seq<Action>, i: JobId, j: JobId, id: ReleaseId)
    requires
      var s := Run(EMPTY, policy, before);
      i in s.jobs && s.jobs[i].approval.Some?
    ensures
      var s := Run(EMPTY, policy, before);
      var later := Run(s, policy, after);
      && (j in later.jobs && later.jobs[j].approval == s.jobs[i].approval ==> i == j)
      && (id in later.releases ==> later.releases[id].approval != s.jobs[i].approval)
  {
    hide Run;
    var s := Run(EMPTY, policy, before);
    InitOk();
    RunKeeps(EMPTY, policy, before);
    InitApproved(policy);
    RunApproved(EMPTY, policy, before);
    var d := s.jobs[i].approval.value;
    assert JobApproved(s, policy, i);
    forall k | k in s.jobs && s.jobs[k].approval == Some(d) ensures k == i { assert SpentOnce(s, i, k); }
    forall k | k in s.releases ensures s.releases[k].approval != Some(d) { assert Unspent(s, k, i); }
    hide Inv, ApprovalInv;
    RunSpent(s, policy, after, d, i);
  }
}
