/** What the API's requests mean: exactly when each is answered Done, and what the
    release row and the new job then say. Everything is said through the tables. */
module RequestOutcomes {
  import opened Common
  import opened Domain
  import opened Transitions
  import opened Invariants
  import QuickArtifact

  // ------------------------------------------------------------------ said of the tables

  predicate ApprovalNeeded(policy: Policy, t: Target, p: ProfileId) {
    policy.enabled && (p in policy.profiles || t in policy.protectedTargets)
  }

  /** No queued or executing job has the target. */
  ghost predicate Idle(s: State, t: Target) {
    forall j :: j in s.jobs && s.jobs[j].target == t ==>
      s.jobs[j].status.Success? || s.jobs[j].status.Failed? || s.jobs[j].status.RolledBack?
  }

  /** The attempt of a target whose transaction began last. */
  ghost predicate Latest(s: State, t: Target, j: JobId) {
    && j in s.jobs && s.jobs[j].target == t
    && forall i :: i in s.jobs && s.jobs[i].target == t && i != j ==>
         s.jobs[i].created < s.jobs[j].created || (s.jobs[i].created == s.jobs[j].created && i < j)
  }

  /** The release's last attempt: a DEPLOY that failed. */
  ghost predicate FailedAttempt(s: State, id: ReleaseId, j: JobId) {
    && id in s.releases && Latest(s, s.releases[id].target, j)
    && s.jobs[j].release == id && s.jobs[j].operation == Deploy && s.jobs[j].status == Failed
  }

  /** What is deployed on a target, if anything. */
  function Current(s: State, t: Target): Option<Basis> { if t in s.heads then Some(s.heads[t]) else None }

  /** The rollback request of a release was submitted and is not settled. */
  predicate UnderWay(r: Release) {
    r.operation == Rollback && (r.status == PendingReview || r.status == UnderReview || r.status == Status.Approved)
  }

  /** Where a rollback of the release goes. The current release goes back to what it
      replaced, unless a newer attempt stands in front of it; a release whose newer
      attempt failed goes back to the current one. `settled`: a failed rollback to the
      same place may be tried again. */
  ghost predicate GoesBackTo(s: State, id: ReleaseId, settled: bool, to: Basis) {
    && id in s.releases
    && var t := s.releases[id].target;
       && t in s.heads && s.heads[t].job in s.jobs
       && (id == s.heads[t].release ==>
             && s.jobs[s.heads[t].job].source == Some(to)
             && (|| Latest(s, t, s.heads[t].job)
                 || (exists j :: CameBackTo(s, t, s.heads[t], j))
                 || (settled && exists j :: FailedRollback(s, t, id, to, j))))
       && (id != s.heads[t].release ==>
             && to == s.heads[t]
             && ((exists j :: FailedAttempt(s, id, j)) || (settled && exists j :: FailedRollback(s, t, id, to, j))))
  }

  /** The last attempt was the rollback that made this deployment current. */
  ghost predicate CameBackTo(s: State, t: Target, to: Basis, j: JobId) {
    Latest(s, t, j) && s.jobs[j].operation == Rollback && s.jobs[j].status == RolledBack && s.jobs[j].source == Some(to)
  }

  ghost predicate FailedRollback(s: State, t: Target, id: ReleaseId, to: Basis, j: JobId) {
    && Latest(s, t, j) && s.jobs[j].release == id
    && s.jobs[j].operation == Rollback && s.jobs[j].status == Failed && s.jobs[j].source == Some(to)
  }

  /** The release to go back to is there, of the same target, with its artifact. */
  predicate Restorable(s: State, t: Target, to: Basis) {
    && to.release in s.releases && s.releases[to.release].target == t && s.releases[to.release].artifact.Some?
    && to.job in s.jobs && s.jobs[to.job] == s.jobs[to.job].(release := to.release, target := t, operation := Deploy,
                                                             status := Success)
  }

  // ------------------------------------------------------------- what a commit may change

  /** Only this release's row changes, to r. */
  ghost predicate RowBecomes(s: State, s': State, id: ReleaseId, r: Release) {
    s' == s.(releases := s.releases[id := r])
  }

  /** The release's row becomes r, and one job is inserted. */
  ghost predicate RowAndJob(s: State, s': State, id: ReleaseId, r: Release, job: Job) {
    s' == s.(releases := s.releases[id := r], jobs := s.jobs[s.nextJob := job], nextJob := s.nextJob + 1)
  }

  // ------------------------------------------------------------------ deploying a release

  /** What a submission retries, if anything: the release's last attempt, and the one
      recorded if one is. */
  ghost predicate Retries(s: State, id: ReleaseId, retry: bool, source: Option<JobId>)
    requires id in s.releases
  {
    var r := s.releases[id];
    if retry || r.retrySource.Some? then
      source.Some? && FailedAttempt(s, id, source.value) && (r.retrySource.Some? ==> r.retrySource == source)
    else source == None
  }

  /** A failed release is deployed again by a retry, and nothing else is. */
  ghost predicate Submittable(s: State, id: ReleaseId, retry: bool, c: Checks, source: Option<JobId>)
    requires id in s.releases
  {
    var r := s.releases[id];
    && r.artifact.Some? && (retry <==> r.status == Failed) && Retries(s, id, retry, source)
    && c.profileMatches && c.targetActive && c.dependenciesReady
  }

  ghost predicate TargetFree(s: State, r: Release, c: Checks) {
    && c.runnerReady && !c.targetContended && Idle(s, r.target) && c.credentialReady
    && (r.quick ==> r.quickBase == Current(s, r.target))
  }

  /** The submission goes to review. */
  ghost predicate DeployReviewed(s: State, policy: Policy, id: ReleaseId, retry: bool, c: Checks, source: Option<JobId>)
    requires id in s.releases
  {
    var r := s.releases[id];
    && Submittable(s, id, retry, c, source)
    && ApprovalNeeded(policy, r.target, r.profile)
    && (r.status == Draft || r.status == Uploaded || r.status == Rejected || r.status == Failed)
  }

  /** The submission is queued. */
  ghost predicate DeployQueued(s: State, policy: Policy, id: ReleaseId, retry: bool, c: Checks, source: Option<JobId>)
    requires id in s.releases
  {
    var r := s.releases[id];
    && Submittable(s, id, retry, c, source) && TargetFree(s, r, c)
    && if ApprovalNeeded(policy, r.target, r.profile) then r.status == Status.Approved
       else
         || r.status == Draft || r.status == Uploaded || r.status == Rejected || r.status == Failed
         || r.status == PendingReview || r.status == UnderReview || r.status == Status.Approved
  }

  function ReviewedDeploy(r: Release, user: UserId, source: Option<JobId>): Release
    requires r.artifact.Some?
  {
    r.(status := PendingReview, retrySource := source,
       requestedBy := if source.Some? then Some(user) else r.requestedBy,
       submitted := Some(DeployRequest(Inputs(r.version, r.profile, r.artifact.value))),
       submitter := Some(user), approval := None)
  }

  function QueuedDeploy(s: State, id: ReleaseId, r: Release, user: UserId, source: Option<JobId>, started: nat): Job
    requires r.artifact.Some?
  {
    Job(id, r.target, Deploy, Queued, Current(s, r.target), source, Inputs(r.version, r.profile, r.artifact.value),
        if r.quick then r.createdBy else user, started, None, 0, r.approval)
  }

  lemma {:induction false} LatestMeans(s: State, t: Target, j: JobId)
    requires Inv(s)
    ensures LatestJob(s, t) == Some(j) <==> Latest(s, t, j)
  {
    forall i | i in s.jobs ensures i < s.nextJob { JobFacts(s, i); }
    hide Inv;
    var latest := LatestJob(s, t);
  }

  lemma {:induction false} FailedMeans(s: State, id: ReleaseId, j: JobId)
    requires Inv(s) && id in s.releases
    ensures LatestFailedDeploy(s, id) == Some(j) <==> FailedAttempt(s, id, j)
  {
    LatestMeans(s, s.releases[id].target, j);
    hide Inv, Latest, LatestJob;
  }

  lemma {:induction false} IdleMeans(s: State, t: Target)
    ensures TargetBusy(s, t) <==> !Idle(s, t)
  {
  }

  /** The submission's source as the handler finds it. */
  lemma {:induction false} RetriesMeans(s: State, id: ReleaseId, retry: bool, source: Option<JobId>)
    requires Inv(s) && id in s.releases
    ensures
      var r, latest := s.releases[id], LatestFailedDeploy(s, id);
      Retries(s, id, retry, source) <==>
      if retry || r.retrySource.Some? then
        latest.Some? && source == latest && (r.retrySource.Some? ==> r.retrySource == latest)
      else source == None
  {
    var latest := LatestFailedDeploy(s, id);
    if latest.Some? { FailedMeans(s, id, latest.value); }
    if source.Some? { FailedMeans(s, id, source.value); }
    hide Inv, FailedAttempt, LatestFailedDeploy;
  }

  /** The one source a submission can have. */
  function SourceOf(s: State, id: ReleaseId, retry: bool): Option<JobId>
    requires id in s.releases
  {
    if retry || s.releases[id].retrySource.Some? then LatestFailedDeploy(s, id) else None
  }

  lemma {:induction false} SourceMeans(s: State, id: ReleaseId, retry: bool, source: Option<JobId>)
    requires Inv(s) && id in s.releases
    ensures Retries(s, id, retry, source) ==> source == SourceOf(s, id, retry)
    ensures
      var r, latest := s.releases[id], LatestFailedDeploy(s, id);
      Retries(s, id, retry, SourceOf(s, id, retry)) <==>
      (retry || r.retrySource.Some? ==> latest.Some? && (r.retrySource.Some? ==> r.retrySource == latest))
  {
    RetriesMeans(s, id, retry, source);
    RetriesMeans(s, id, retry, SourceOf(s, id, retry));
    hide Inv, Retries, LatestFailedDeploy;
  }

  /** What a submission of a release to deploy it comes to. */
  lemma {:induction false} DeployEffectMeans(
      s: State, policy: Policy, id: ReleaseId, user: UserId, retry: bool, c: Checks)
    requires Inv(s) && id in s.releases
    ensures
      var r, e, source := s.releases[id], DeployEffect(s, policy, id, user, retry, c), SourceOf(s, id, retry);
      if DeployReviewed(s, policy, id, retry, c, source) then e == Rewrite(ReviewedDeploy(r, user, source), Done)
      else if DeployQueued(s, policy, id, retry, c, source) then
        e == Queue(r.(status := Queued, retrySource := None, approval := None),
                   QueuedDeploy(s, id, r, user, source, c.started))
      else
        || e.Nothing?
        || (&& r.retrySource.Some? && r.retrySource != LatestFailedDeploy(s, id)
            && e == Rewrite(r.(status := Failed, retrySource := None, requestedBy := None, approval := None),
                            Refused(RetryTargetStale)))
  {
    var r := s.releases[id];
    SourceMeans(s, id, retry, None);
    IdleMeans(s, r.target);
    StatusOfRow(s, id);
    hide Inv, Retries, LatestFailedDeploy, Idle, TargetBusy;
  }

  lemma {:induction false} StatusOfRow(s: State, id: ReleaseId)
    requires Inv(s) && id in s.releases
    ensures s.releases[id].retrySource.Some? ==> InReview(s.releases[id].status)
  {
    ReleaseFacts(s, id);
    hide Inv, HasActiveJob, IsBasis;
  }

  /** Enqueueing a release, exactly: it goes to review, or it is queued with the job
      that carries it out, or it is refused; a refusal changes nothing, except that a
      recorded retry that is no longer the last attempt is dropped. */
  lemma {:induction false} EnqueueExactly(
      s: State, policy: Policy, id: ReleaseId, user: UserId, retry: bool, c: Checks, source: Option<JobId>)
    requires Inv(s) && id in s.releases && s.releases[id].operation.Deploy?
    ensures
      var (s', reply) := Enqueue(s, policy, id, user, retry, c);
      var r := s.releases[id];
      && (DeployReviewed(s, policy, id, retry, c, source) ==>
            reply.Done? && RowBecomes(s, s', id, ReviewedDeploy(r, user, source)))
      && (DeployQueued(s, policy, id, retry, c, source) ==>
            reply.Done? && RowAndJob(s, s', id, r.(status := Queued, retrySource := None, approval := None),
                                     QueuedDeploy(s, id, r, user, source, c.started)))
      && (reply.Done? ==> exists from :: DeployReviewed(s, policy, id, retry, c, from) ||
                                         DeployQueued(s, policy, id, retry, c, from))
      && (!reply.Done? ==>
            || s' == s
            || (&& r.retrySource.Some? && !FailedAttempt(s, id, r.retrySource.value)
                && RowBecomes(s, s', id,
                   r.(status := Failed, retrySource := None, requestedBy := None, approval := None))))
  {
    var r, from := s.releases[id], SourceOf(s, id, retry);
    DeployEffectMeans(s, policy, id, user, retry, c);
    SourceMeans(s, id, retry, source);
    if r.retrySource.Some? { FailedMeans(s, id, r.retrySource.value); }
    assert (DeployReviewed(s, policy, id, retry, c, source) || DeployQueued(s, policy, id, retry, c, source)) ==>
      source == from;
    ReviewedOrQueued(s, policy, id, retry, c);
    hide Inv, Retries, FailedAttempt, SourceOf, DeployEffect, DeployReviewed, DeployQueued, ReviewedDeploy,
         QueuedDeploy;
    if Enqueue(s, policy, id, user, retry, c).1.Done? {
      assert DeployReviewed(s, policy, id, retry, c, from) || DeployQueued(s, policy, id, retry, c, from);
    }
  }

  lemma {:induction false} ReviewedOrQueued(s: State, policy: Policy, id: ReleaseId, retry: bool, c: Checks)
    requires id in s.releases
    ensures
      var from := SourceOf(s, id, retry);
      !(DeployReviewed(s, policy, id, retry, c, from) && DeployQueued(s, policy, id, retry, c, from))
  {
    hide Submittable, TargetFree, SourceOf;
  }

  // ---------------------------------------------------------------- rolling a release back

  lemma {:induction false} BasisMeans(s: State, t: Target, b: Basis)
    ensures SourceUsable(s, t, b) <==> Restorable(s, t, b)
  {
  }

  /** The plan of a rollback is where the release goes back to. */
  lemma {:induction false} PlanMeans(s: State, id: ReleaseId, settled: bool, to: Basis)
    requires Inv(s) && id in s.releases
    ensures ResolvePlan(s, id, settled) == Some(to) <==> GoesBackTo(s, id, settled, to)
  {
    var t := s.releases[id].target;
    var latest := LatestJob(s, t);
    if t in s.heads {
      HeadFacts(s, t);
      HeadIsAttempt(s, t);
      var j := latest.value;
      LatestOnly(s, t, j);
      assert Latest(s, t, j);
      hide Inv, LatestJob, Latest;
      assert FailedAttempt(s, id, j) <==>
        s.jobs[j].release == id && s.jobs[j].operation.Deploy? && s.jobs[j].status.Failed?;
      assert FailedRollback(s, t, id, to, j) <==> FailedRollbackTo(s, j, id, to);
      assert (exists i :: FailedAttempt(s, id, i)) <==> FailedAttempt(s, id, j);
      assert (exists i :: FailedRollback(s, t, id, to, i)) <==> FailedRollback(s, t, id, to, j);
      assert (exists i :: CameBackTo(s, t, s.heads[t], i)) <==> CameBackTo(s, t, s.heads[t], j);
      hide FailedAttempt, FailedRollback;
    }
  }

  lemma {:induction false} HeadIsAttempt(s: State, t: Target)
    requires Inv(s) && t in s.heads
    ensures LatestJob(s, t).Some?
  {
    HeadFacts(s, t);
    JobFacts(s, s.heads[t].job);
    hide Inv;
  }

  lemma {:induction false} LatestOnly(s: State, t: Target, j: JobId)
    requires Inv(s) && LatestJob(s, t) == Some(j)
    ensures forall i :: Latest(s, t, i) <==> i == j
  {
    hide Inv, Latest, LatestJob;
    forall i ensures Latest(s, t, i) <==> i == j { LatestMeans(s, t, i); }
  }

  /** A rollback can be asked for: of a deployed or failed release, or again for one
      that was submitted before, with the same target to go back to. */
  ghost predicate RollbackAsked(s: State, id: ReleaseId, retry: bool, c: Checks, to: Basis)
    requires id in s.releases
  {
    var r := s.releases[id];
    && (r.status == Success || r.status == Failed || UnderWay(r))
    && (retry ==> r.status == Failed) && (r.status == Failed && r.operation == Rollback ==> retry)
    && GoesBackTo(s, id, retry || UnderWay(r), to) && Restorable(s, r.target, to)
    && (UnderWay(r) || (retry && r.operation == Rollback && r.source.Some?) ==> r.source == Some(to))
    && c.targetActive && !c.targetContended && Idle(s, r.target) && c.profileMatches && c.dependenciesReady
  }

  ghost predicate RollbackNeedsApproval(s: State, policy: Policy, id: ReleaseId, to: Basis)
    requires id in s.releases
  {
    && to.release in s.releases && ApprovalNeeded(policy, s.releases[id].target, s.releases[to.release].profile)
    && s.releases[id].status != Status.Approved
  }

  /** What the release returns to if its rollback is rejected: the state it was in. */
  function BaseOf(r: Release): Status { if r.baseStatus.Some? then r.baseStatus.value else r.status }

  ghost predicate RollbackReviewed(s: State, policy: Policy, id: ReleaseId, retry: bool, c: Checks, to: Basis)
    requires id in s.releases
  {
    && RollbackAsked(s, id, retry, c, to) && RollbackNeedsApproval(s, policy, id, to) && !UnderWay(s.releases[id])
  }

  ghost predicate RollbackQueued(s: State, policy: Policy, id: ReleaseId, retry: bool, c: Checks, to: Basis)
    requires id in s.releases
  {
    && RollbackAsked(s, id, retry, c, to) && !RollbackNeedsApproval(s, policy, id, to)
    && c.runnerReady && c.credentialReady
    && (BaseOf(s.releases[id]) == Success || BaseOf(s.releases[id]) == Failed)
  }

  function ReviewedRollback(r: Release, user: UserId, to: Basis): Release {
    r.(status := PendingReview, operation := Rollback, source := Some(to), requestedBy := Some(user),
       baseStatus := Some(BaseOf(r)), submitted := Some(RollbackRequest(to)), submitter := Some(user), approval := None)
  }

  function RollbackRow(r: Release, user: UserId, to: Basis): Release {
    r.(status := RollingBack, operation := Rollback, source := Some(to),
       requestedBy := if r.requestedBy.Some? then r.requestedBy else Some(user),
       baseStatus := Some(BaseOf(r)), approval := None)
  }

  /** The job that goes back: it carries what the release it returns to carried. */
  function QueuedRollback(s: State, id: ReleaseId, r: Release, user: UserId, to: Basis, started: nat): Job
    requires to.release in s.releases && s.releases[to.release].artifact.Some?
  {
    var back := s.releases[to.release];
    Job(id, r.target, Rollback, Queued, Some(to), None, Inputs(back.version, back.profile, back.artifact.value),
        user, started, None, 0, r.approval)
  }

  /** What a rollback request comes to. */
  lemma {:induction false} RollbackEffectMeans(
      s: State, policy: Policy, id: ReleaseId, user: UserId, retry: bool, c: Checks, to: Basis)
    requires Inv(s) && id in s.releases && ResolvePlan(s, id, retry || UnderWay(s.releases[id])) == Some(to)
    ensures
      var r, e := s.releases[id], RollbackEffect(s, policy, id, user, retry, c);
      if RollbackReviewed(s, policy, id, retry, c, to) then e == Rewrite(ReviewedRollback(r, user, to), Done)
      else if RollbackQueued(s, policy, id, retry, c, to) then
        e == Queue(RollbackRow(r, user, to), QueuedRollback(s, id, r, user, to, c.started))
      else e.Nothing?
  {
    var r := s.releases[id];
    PlanMeans(s, id, retry || UnderWay(r), to);
    IdleMeans(s, r.target);
    BasisMeans(s, r.target, to);
    hide Inv, ResolvePlan, GoesBackTo, Idle, TargetBusy, SourceUsable, Restorable;
    UsableArtifact(s, r.target, to);
  }

  lemma {:induction false} UsableArtifact(s: State, t: Target, to: Basis)
    ensures SourceUsable(s, t, to) ==> to.release in s.releases && s.releases[to.release].artifact.Some?
    ensures Restorable(s, t, to) ==> to.release in s.releases && s.releases[to.release].artifact.Some?
  {
  }

  lemma {:induction false} NoPlanEffect(s: State, policy: Policy, id: ReleaseId, user: UserId, retry: bool, c: Checks)
    requires id in s.releases && ResolvePlan(s, id, retry || UnderWay(s.releases[id])).None?
    ensures
      var r, e := s.releases[id], RollbackEffect(s, policy, id, user, retry, c);
      || e.Nothing?
      || (&& UnderWay(r)
          && e == Rewrite(r.(status := BaseOf(r), operation := Deploy, source := None, requestedBy := None,
                             baseStatus := None, approval := None), Refused(RollbackTargetStale)))
  {
    hide ResolvePlan, TargetBusy, SourceUsable, Policy.Required;
  }

  /** A rollback request, exactly: where the release goes back to is said through the
      head, the latest attempt and the job the head replaced. The request goes to
      review or is queued with the job that carries it out; a refusal changes nothing,
      except that a submitted rollback that leads nowhere any more is dropped. */
  lemma {:induction false} RollbackExactly(
      s: State, policy: Policy, id: ReleaseId, user: UserId, retry: bool, c: Checks, to: Basis)
    requires Inv(s) && id in s.releases
    ensures
      var (s', reply) := RequestRollback(s, policy, id, user, retry, c);
      var r := s.releases[id];
      && (RollbackReviewed(s, policy, id, retry, c, to) ==>
            reply.Done? && RowBecomes(s, s', id, ReviewedRollback(r, user, to)))
      && (RollbackQueued(s, policy, id, retry, c, to) ==>
            && to.release in s.releases && s.releases[to.release].artifact.Some?
            && reply.Done?
            && RowAndJob(s, s', id, RollbackRow(r, user, to), QueuedRollback(s, id, r, user, to, c.started)))
      && (reply.Done? ==> exists back :: RollbackReviewed(s, policy, id, retry, c, back) ||
                                         RollbackQueued(s, policy, id, retry, c, back))
      && (!reply.Done? ==>
            || s' == s
            || (&& UnderWay(r) && (forall back :: !GoesBackTo(s, id, true, back))
                && RowBecomes(s, s', id, r.(status := BaseOf(r), operation := Deploy, source := None,
                                            requestedBy := None, baseStatus := None, approval := None))))
  {
    var r := s.releases[id];
    var settled := retry || UnderWay(r);
    var plan := ResolvePlan(s, id, settled);
    PlanMeans(s, id, settled, to);
    UsableArtifact(s, r.target, to);
    AskedGoesBack(s, policy, id, retry, c, to);
    if plan.Some? {
      RollbackEffectMeans(s, policy, id, user, retry, c, plan.value);
      UsableArtifact(s, r.target, plan.value);
      AskedGoesBack(s, policy, id, retry, c, plan.value);
    } else {
      NoPlanEffect(s, policy, id, user, retry, c);
      forall back ensures !GoesBackTo(s, id, settled, back) { PlanMeans(s, id, settled, back); }
    }
    hide Inv, ResolvePlan, GoesBackTo, RollbackAsked, RollbackEffect, RollbackReviewed, RollbackQueued, Restorable;
    hide ReviewedRollback, RollbackRow, QueuedRollback;
    if RequestRollback(s, policy, id, user, retry, c).1.Done? {
      assert RollbackReviewed(s, policy, id, retry, c, plan.value) ||
        RollbackQueued(s, policy, id, retry, c, plan.value);
    }
  }

  lemma {:induction false} AskedGoesBack(s: State, policy: Policy, id: ReleaseId, retry: bool, c: Checks, to: Basis)
    requires id in s.releases
    ensures RollbackReviewed(s, policy, id, retry, c, to) || RollbackQueued(s, policy, id, retry, c, to) ==>
              && GoesBackTo(s, id, retry || UnderWay(s.releases[id]), to)
              && Restorable(s, s.releases[id].target, to)
    ensures !(RollbackReviewed(s, policy, id, retry, c, to) && RollbackQueued(s, policy, id, retry, c, to))
  {
    hide GoesBackTo, Restorable, Idle;
  }

  // ------------------------------------------------------------------------- decisions

  /** Who asked, as recorded. */
  function Asker(r: Release): UserId { if r.requestedBy.Some? then r.requestedBy.value else r.createdBy }

  predicate Waiting(r: Release) { r.status == PendingReview || r.status == UnderReview }

  /** A quick release that is to be deployed as soon as it is approved. */
  predicate DeploysOnApproval(r: Release) {
    r.quick && r.autoDeploy && r.operation == Deploy && r.retrySource == None
  }

  ghost predicate QuickDeployable(s: State, r: Release, c: Checks) {
    && r.artifact.Some? && c.profileMatches && c.targetActive && c.dependenciesReady && c.runnerReady
    && !c.targetContended && Idle(s, r.target) && c.credentialReady && r.quickBase == Current(s, r.target)
  }

  /** An approval is granted: by somebody else unless self-approval is on, while what
      was submitted can still be done. */
  ghost predicate Approvable(s: State, policy: Policy, id: ReleaseId, user: UserId, c: Checks)
    requires id in s.releases
  {
    var r := s.releases[id];
    && Waiting(r) && (policy.allowSelf || Asker(r) != user)
    && (r.retrySource.Some? ==> FailedAttempt(s, id, r.retrySource.value))
    && (r.operation == Rollback ==>
          r.source.Some? && GoesBackTo(s, id, true, r.source.value) && Restorable(s, r.target, r.source.value))
    && c.profileMatches && c.dependenciesReady
    && (DeploysOnApproval(r) ==> QuickDeployable(s, r, c))
  }

  function Granting(s: State, id: ReleaseId, r: Release, user: UserId): Decision {
    Decision(id, user, Asker(r), r.submitted, r.submitter)
  }

  /** What an approval writes. */
  ghost predicate ApprovedIs(s: State, s': State, id: ReleaseId, user: UserId, c: Checks)
    requires id in s.releases
  {
    var r := s.releases[id];
    var decided := s.(decisions := s.decisions + [Granting(s, id, r, user)]);
    var approval := Some(|s.decisions|);
    if DeploysOnApproval(r) then
      && r.artifact.Some?
      && RowAndJob(decided, s', id, r.(status := Queued, approval := None),
                   Job(id, r.target, Deploy, Queued, Current(s, r.target), None,
                       Inputs(r.version, r.profile, r.artifact.value), r.createdBy, c.started, None, 0, approval))
    else RowBecomes(decided, s', id, r.(status := Status.Approved, approval := approval))
  }

  lemma {:induction false} RetryStale(s: State, id: ReleaseId)
    requires Inv(s) && id in s.releases
    ensures
      var r := s.releases[id];
      r.retrySource.Some? ==>
        (LatestFailedDeploy(s, id) == r.retrySource <==> FailedAttempt(s, id, r.retrySource.value))
  {
    var r := s.releases[id];
    if r.retrySource.Some? { FailedMeans(s, id, r.retrySource.value); }
    hide Inv, FailedAttempt, LatestFailedDeploy;
  }

  lemma {:induction false} RollbackStale(s: State, id: ReleaseId)
    requires Inv(s) && id in s.releases
    ensures
      var r := s.releases[id];
      r.source.Some? ==>
        && (ResolvePlan(s, id, true) == r.source <==> GoesBackTo(s, id, true, r.source.value))
        && (SourceUsable(s, r.target, r.source.value) <==> Restorable(s, r.target, r.source.value))
  {
    var r := s.releases[id];
    if r.source.Some? {
      PlanMeans(s, id, true, r.source.value);
      BasisMeans(s, r.target, r.source.value);
    }
    hide Inv, ResolvePlan, GoesBackTo, SourceUsable, Restorable;
  }

  lemma {:induction false} RefusalMeans(s: State, policy: Policy, id: ReleaseId, user: UserId, c: Checks)
    requires Inv(s) && id in s.releases
    ensures ApproveRefusal(s, policy, id, user, c).None? ==> Waiting(s.releases[id])
    ensures Approvable(s, policy, id, user, c) <==>
            && ApproveRefusal(s, policy, id, user, c).None?
            && (DeploysOnApproval(s.releases[id]) ==> QuickDeployable(s, s.releases[id], c))
  {
    RetryStale(s, id);
    RollbackStale(s, id);
    hide Inv, FailedAttempt, LatestFailedDeploy, ResolvePlan, GoesBackTo, SourceUsable, Restorable, QuickDeployable;
  }

  /** Queueing an approved quick release inside the approval. */
  lemma {:induction false} ApprovedQuickMeans(s: State, id: ReleaseId, user: UserId, c: Checks)
    requires id in s.releases && DeploysOnApproval(s.releases[id])
    ensures
      var (s', reply) := QueueQuickDeploy(RecordApproval(s, id, user), id, Status.Approved, c);
      && (reply.Done? <==> QuickDeployable(s, s.releases[id], c))
      && (reply.Done? ==> ApprovedIs(s, s', id, user, c))
  {
    var r, mid := s.releases[id], RecordApproval(s, id, user);
    IdleMeans(mid, r.target);
    assert Idle(mid, r.target) <==> Idle(s, r.target);
    hide Idle, TargetBusy;
    var (s', reply) := QueueQuickDeploy(mid, id, Status.Approved, c);
    if reply.Done? {
      assert s'.releases == s.releases[id := r.(status := Queued, approval := None)];
    }
  }

  lemma {:induction false} ApproveExactly(s: State, policy: Policy, id: ReleaseId, user: UserId, c: Checks)
    requires Inv(s) && id in s.releases
    ensures
      var (s', reply) := ApproveRequest(s, policy, id, user, c);
      && (reply.Done? <==> Approvable(s, policy, id, user, c))
      && (reply.Done? ==> ApprovedIs(s, s', id, user, c))
      && (!reply.Done? ==> s' == s)
  {
    RefusalMeans(s, policy, id, user, c);
    if DeploysOnApproval(s.releases[id]) {
      ApprovedQuickMeans(s, id, user, c);
      hide RecordApproval, ApprovedIs;
    }
    hide Inv, ApproveRefusal, QueueQuickDeploy, QuickDeployable, Approvable;
  }

  /** A rejection is possible with a comment, or where none is demanded. */
  ghost predicate Rejectable(policy: Policy, r: Release, comment: bool) {
    && Waiting(r) && (comment || !policy.requireComment)
    && (r.operation == Rollback ==> r.baseStatus == Some(Success) || r.baseStatus == Some(Failed))
  }

  /** A rejected rollback leaves the release as it was before it was asked for; a
      rejected deployment leaves it REJECTED; what was recorded of a rollback or a
      retry is gone. */
  function RejectedRow(r: Release): Release
    requires r.operation == Rollback ==> r.baseStatus.Some?
  {
    if r.operation == Rollback then
      r.(status := r.baseStatus.value, operation := Deploy, source := None, retrySource := None, requestedBy := None,
         baseStatus := None)
    else if r.retrySource.Some? then
      r.(status := Rejected, retrySource := None, requestedBy := None, baseStatus := None)
    else r.(status := Rejected)
  }

  /** A decision, exactly: when it is taken, and the row it leaves; a refusal changes
      nothing. */
  lemma {:induction false} DecideExactly(
      s: State, policy: Policy, id: ReleaseId, user: UserId, verdict: Verdict, comment: bool, c: Checks)
    requires Inv(s) && id in s.releases
    ensures
      var (s', reply) := Decide(s, policy, id, user, verdict, comment, c);
      var r := s.releases[id];
      && (reply.Done? <==>
            match verdict
            case Approve => Approvable(s, policy, id, user, c)
            case Reject => Rejectable(policy, r, comment)
            case Review => r.status == PendingReview)
      && (reply.Done? ==>
            match verdict
            case Approve => ApprovedIs(s, s', id, user, c)
            case Reject => (r.operation == Rollback ==> r.baseStatus.Some?) && RowBecomes(s, s', id, RejectedRow(r))
            case Review => RowBecomes(s, s', id, r.(status := UnderReview)))
      && (!reply.Done? ==> s' == s)
  {
    var r := s.releases[id];
    ApproveExactly(s, policy, id, user, c);
    ReleaseFacts(s, id);
    assert Approvable(s, policy, id, user, c) ==> Waiting(r);
    hide Inv, ApproveRequest, Approvable, ApprovedIs, HasActiveJob, IsBasis;
  }

  // ---------------------------------------------------------------------- quick releases

  /** The version deployed on a target, as far as it is known. */
  function DeployedVersion(s: State, t: Target): Option<string> {
    if t in s.heads && s.heads[t].release in s.releases then Some(s.releases[s.heads[t].release].version) else None
  }

  ghost predicate VersionFree(s: State, except: Option<ReleaseId>, t: Target, version: string) {
    forall id :: id in s.releases && s.releases[id].target == t && s.releases[id].version == version ==>
      Some(id) == except
  }

  /** The uploaded file is a release of the preset: its name says a version that is free
      and newer than the one the caller saw deployed, which is still deployed. */
  ghost predicate QuickAcceptable(
      s: State, id: ReleaseId, filename: string, preset: Option<Preset>, expected: string, c: Checks)
  {
    && QuickArtifact.ParseName(filename).Some? && preset.Some? && id !in s.releases
    && var t, version := preset.value.target, QuickArtifact.ParseName(filename).value.version;
       && VersionFree(s, None, t, version) && Idle(s, t) && !c.targetContended && c.dependenciesReady
       && (DeployedVersion(s, t) == None ==> expected == "")
       && (DeployedVersion(s, t).Some? ==> DeployedVersion(s, t).value == expected)
       && QuickArtifact.ValidateQuickUpgrade(DeployedVersion(s, t), version).Allowed?
  }

  function QuickRow(s: State, preset: Preset, version: string, artifact: ArtifactId, user: UserId): Release {
    Release(preset.target, version, preset.profile, Some(artifact), user, Uploaded, Deploy, None, None, None, None,
            true, preset.autoDeploy, Current(s, preset.target), None, None, None)
  }

  /** What a quick release writes: a row waiting for review, or a queued one with its job. */
  ghost predicate QuickIs(
      s: State, s': State, policy: Policy, id: ReleaseId, user: UserId, preset: Preset, version: string,
      artifact: ArtifactId, c: Checks)
  {
    var t, r := preset.target, QuickRow(s, preset, version, artifact, user);
    var inputs := Inputs(version, preset.profile, artifact);
    if ApprovalNeeded(policy, t, preset.profile) then
      RowBecomes(s, s', id,
                 r.(status := PendingReview, submitted := Some(DeployRequest(inputs)), submitter := Some(user)))
    else
      RowAndJob(s, s', id, r.(status := Queued),
                Job(id, t, Deploy, Queued, Current(s, t), None, inputs, user, c.started, None, 0, None))
  }

  ghost predicate QuickReady(policy: Policy, preset: Preset, c: Checks) {
    ApprovalNeeded(policy, preset.target, preset.profile) ||
    (c.profileMatches && c.targetActive && c.runnerReady && c.credentialReady)
  }

  lemma {:induction false} QuickQueueMeans(s: State, id: ReleaseId, r: Release, c: Checks)
    requires r.quick && r.status.Uploaded? && r.artifact.Some? && r.approval.None?
    requires r.quickBase == Current(s, r.target)
    ensures
      var (s', reply) := QueueQuickDeploy(PutRelease(s, id, r), id, Uploaded, c);
      && (reply.Done? <==>
            && c.profileMatches && c.targetActive && c.dependenciesReady && c.runnerReady && !c.targetContended
            && Idle(s, r.target) && c.credentialReady)
      && (reply.Done? ==>
            RowAndJob(s, s', id, r.(status := Queued),
                      Job(id, r.target, Deploy, Queued, Current(s, r.target), None,
                          Inputs(r.version, r.profile, r.artifact.value), r.createdBy, c.started, None, 0, None)))
  {
    var mid := PutRelease(s, id, r);
    IdleMeans(mid, r.target);
    assert Idle(mid, r.target) <==> Idle(s, r.target);
    hide Idle, TargetBusy;
    var (s', reply) := QueueQuickDeploy(mid, id, Uploaded, c);
    if reply.Done? {
      assert s'.releases == s.releases[id := r.(status := Queued)];
    }
  }

  lemma {:induction false} VersionMeans(s: State, except: Option<ReleaseId>, t: Target, version: string)
    ensures VersionTaken(s, except, t, version) <==> !VersionFree(s, except, t, version)
  {
  }

  /** A quick release, exactly. */
  lemma {:induction false} QuickReleaseExactly(
      s: State, policy: Policy, id: ReleaseId, user: UserId, filename: string, preset: Option<Preset>,
      artifact: ArtifactId, expected: string, c: Checks)
    ensures
      var (s', reply) := QuickRelease(s, policy, id, user, filename, preset, artifact, expected, c);
      && (reply.Done? <==>
            QuickAcceptable(s, id, filename, preset, expected, c) && QuickReady(policy, preset.value, c))
      && (reply.Done? ==>
            && preset.Some? && QuickArtifact.ParseName(filename).Some?
            && QuickIs(s, s', policy, id, user, preset.value,
                       QuickArtifact.ParseName(filename).value.version, artifact, c))
      && (!reply.Done? ==> s' == s)
  {
    hide QuickArtifact.ParseName, QuickArtifact.ValidateQuickUpgrade;
    if preset.Some? && QuickArtifact.ParseName(filename).Some? {
      var t, version := preset.value.target, QuickArtifact.ParseName(filename).value.version;
      VersionMeans(s, None, t, version);
      IdleMeans(s, t);
      QuickQueueMeans(s, id, NewQuickRelease(s, preset.value, version, artifact, user), c);
    }
    hide VersionFree, VersionTaken, Idle, TargetBusy, QueueQuickDeploy;
  }

  // ------------------------------------------------------------------------------ drafts

  predicate Open(r: Release) { r.status == Draft || r.status == Uploaded || r.status == Rejected }

  /** Creating, editing, uploading to and deleting a release, exactly. */
  lemma {:induction false} CreateExactly(
      s: State, id: ReleaseId, t: Target, profile: ProfileId, version: string, user: UserId, matches: bool)
    ensures
      var (s', reply) := CreateRelease(s, id, t, profile, version, user, matches);
      && (reply.Done? <==> version != "" && matches && id !in s.releases && VersionFree(s, None, t, version))
      && (reply.Done? ==>
            RowBecomes(s, s', id, Release(t, version, profile, None, user, Draft, Deploy, None, None, None, None, false,
                                          false, None, None, None, None)))
      && (!reply.Done? ==> s' == s)
  {
    VersionMeans(s, None, t, version);
    hide VersionFree, VersionTaken;
  }

  lemma {:induction false} EditExactly(s: State, id: ReleaseId, version: string, profile: ProfileId, matches: bool)
    ensures
      var (s', reply) := EditRelease(s, id, version, profile, matches);
      && (reply.Done? <==>
            && version != "" && matches && id in s.releases && Open(s.releases[id])
            && VersionFree(s, Some(id), s.releases[id].target, version))
      && (reply.Done? ==>
            && id in s.releases
            && RowBecomes(s, s', id, s.releases[id].(version := version, profile := profile)))
      && (!reply.Done? ==> s' == s)
  {
    if id in s.releases { VersionMeans(s, Some(id), s.releases[id].target, version); }
    hide VersionFree, VersionTaken;
  }

  lemma {:induction false} UploadExactly(s: State, id: ReleaseId, artifact: ArtifactId)
    ensures
      var (s', reply) := UploadArtifact(s, id, artifact);
      && (reply.Done? <==> id in s.releases && Open(s.releases[id]) && !s.releases[id].quick)
      && (reply.Done? ==>
            && id in s.releases
            && RowBecomes(s, s', id, s.releases[id].(artifact := Some(artifact), status := Uploaded)))
      && (!reply.Done? ==> s' == s)
  {
  }

  predicate Points(b: Option<Basis>, id: ReleaseId) { b.Some? && b.value.release == id }

  /** Nothing of another release, and no head, points to the release. */
  ghost predicate Unreferenced(s: State, id: ReleaseId) {
    && (forall t :: t in s.heads ==> s.heads[t].release != id)
    && (forall j :: j in s.jobs && s.jobs[j].release != id ==> !Points(s.jobs[j].source, id))
    && (forall k :: k in s.releases && k != id ==>
          !Points(s.releases[k].source, id) && !Points(s.releases[k].quickBase, id))
  }

  ghost predicate OthersRows<T(!new)>(s: State, id: ReleaseId, before: map<JobId, T>, after: map<JobId, T>) {
    forall j :: (j in after <==> j in before && !(j in s.jobs && s.jobs[j].release == id))
                && (j in after ==> after[j] == before[j])
  }

  lemma {:induction false} DeleteExactly(s: State, id: ReleaseId)
    requires Inv(s)
    ensures
      var (s', reply) := DeleteRelease(s, id);
      && (reply.Done? <==> id in s.releases && Open(s.releases[id]) && Unreferenced(s, id))
      && (reply.Done? ==>
            && s'.releases == s.releases - {id} && s'.heads == s.heads && s'.locks == s.locks
            && s'.nextJob == s.nextJob && s'.decisions == s.decisions
            && OthersRows(s, id, s.jobs, s'.jobs) && OthersRows(s, id, s.steps, s'.steps)
            && OthersRows(s, id, s.images, s'.images) && OthersRows(s, id, s.logs, s'.logs))
      && (!reply.Done? ==> s' == s)
  {
    ReferencedMeans(s, id);
    if id in s.releases && Open(s.releases[id]) { NoLockOfOpen(s, id); }
    hide Inv, Referenced, Unreferenced;
  }

  lemma {:induction false} ReferencedMeans(s: State, id: ReleaseId)
    ensures Referenced(s, id) <==> !Unreferenced(s, id)
  {
  }

  /** An editable release has no job that executes, so no lock row goes with it. */
  lemma {:induction false} NoLockOfOpen(s: State, id: ReleaseId)
    requires Inv(s) && id in s.releases && Open(s.releases[id])
    ensures forall t :: t in s.locks ==> s.locks[t].job in s.jobs && s.jobs[s.locks[t].job].release != id
  {
    forall t | t in s.locks ensures s.locks[t].job in s.jobs && s.jobs[s.locks[t].job].release != id {
      assert LockOk(s, t);
      JobFacts(s, s.locks[t].job);
    }
  }
}
