/** The API's handlers as transactions on the database: guards in the order the
    handlers check them, early returns, and the UPDATE and INSERT statements one
    by one. Each is proved to do what the transition it implements does. */
module ReleaseServer {
  import opened Common
  import opened Domain
  import opened RunnerStore
  import QuickArtifact
  import T = Transitions

  class Server {
    const store: Database
    const policy: Policy

    constructor (store: Database, policy: Policy)
      ensures this.store == store && this.policy == policy
    {
      this.store, this.policy := store, policy;
    }

    /** PATCH of a draft: one UPDATE that only an editable row matches. */
    method UpdateRelease(
        id: ReleaseId, version: string, profile: ProfileId, profileMatches: bool) returns (reply: Reply)
      modifies store
      ensures (store.Rows(), reply) == T.EditRelease(old(store.Rows()), id, version, profile, profileMatches)
    {
      if |version| == 0 {
        return Refused(InvalidRelease);
      }
      if id !in store.releases || !Editable(store.releases[id].status) || !profileMatches {
        return Refused(InvalidState);
      }
      var row := store.releases[id];
      if T.VersionTaken(store.Rows(), Some(id), row.target, version) {
        return Refused(ReleaseConflict);
      }
      row := row.(version := version);
      row := row.(profile := profile);
      store.releases := store.releases[id := row];
      return Done;
    }

    /** The row half of storing an uploaded artifact. */
    method PersistArtifactTx(id: ReleaseId, artifact: ArtifactId) returns (reply: Reply)
      modifies store
      ensures (store.Rows(), reply) == T.UploadArtifact(old(store.Rows()), id, artifact)
    {
      if id !in store.releases || !Editable(store.releases[id].status) {
        return Refused(InvalidState);
      }
      if store.releases[id].quick {
        return Refused(QuickArtifactImmutable);
      }
      var row := store.releases[id].(artifact := Some(artifact));
      row := row.(status := Uploaded);
      store.releases := store.releases[id := row];
      return Done;
    }

    method EnqueueRelease(id: ReleaseId, user: UserId, retry: bool, c: Checks) returns (reply: Reply)
      modifies store
      ensures (store.Rows(), reply) == T.Enqueue(old(store.Rows()), policy, id, user, retry, c)
    {
      hide Domain.LatestFailedDeploy, Domain.TargetBusy, Policy.Required;
      var s := store.Rows();
      if id in s.releases && s.releases[id].operation.Rollback? {
        reply := RollbackRelease(id, user, retry, c);
        return;
      }
      if id !in s.releases {
        return Refused(NotFound);
      }
      var row := s.releases[id];
      var required := policy.Required(row.target, row.profile);
      if row.artifact.None? {
        return Refused(ArtifactContentRequired);
      }
      if retry && !row.status.Failed? {
        return Refused(RetryRequiresFailed);
      }
      var retrySource := row.retrySource;
      if retry || row.retrySource.Some? {
        var latest := LatestFailedDeploy(s, id);
        if latest.None? || (row.retrySource.Some? && latest != row.retrySource) {
          if row.retrySource.Some? {
            row := row.(status := Failed, retrySource := None, requestedBy := None, approval := None);
            store.releases := store.releases[id := row];
          }
          return Refused(RetryTargetStale);
        }
        retrySource := latest;
      }
      var effectiveRetry := retrySource.Some?;
      if !retry && row.status.Failed? {
        return Refused(RetryRequired);
      }
      if !c.profileMatches {
        return Refused(ReleaseTargetDrift);
      }
      if !c.targetActive {
        return Refused(ReleaseTargetInactive);
      }
      if !c.dependenciesReady {
        return Refused(ProfileNotReady);
      }
      if required && !row.status.Approved? {
        if !Editable(row.status) && !(effectiveRetry && row.status.Failed?) {
          return Refused(InvalidState);
        }
        row := row.(status := PendingReview, retrySource := retrySource,
                    requestedBy := if retrySource.Some? then Some(user) else row.requestedBy,
                    submitted := DeployRequestOf(row), submitter := Some(user), approval := None);
        store.releases := store.releases[id := row];
        return Done;
      }
      if !T.CanQueue(row.status, required) && !(effectiveRetry && row.status.Failed?) {
        return Refused(InvalidState);
      }
      if !c.runnerReady {
        return Refused(RunnerUnavailable);
      }
      if c.targetContended || TargetBusy(s, row.target) {
        return Refused(JobConflict);
      }
      if !c.credentialReady {
        return Refused(TargetCredentialNotReady);
      }
      var prior := HeadOf(s, row.target);
      if row.quick && row.quickBase != prior {
        return Refused(DeploymentHeadChanged);
      }
      var creator := user;
      if row.quick {
        creator := row.createdBy;
        prior := row.quickBase;
      }
      store.jobs := store.jobs[store.nextJob := T.DeployJob(id, row, prior, retrySource, creator, c.started)];
      store.nextJob := store.nextJob + 1;
      row := row.(status := Queued, retrySource := None, approval := None);
      store.releases := store.releases[id := row];
      return Done;
    }

    method RollbackRelease(id: ReleaseId, user: UserId, retry: bool, c: Checks) returns (reply: Reply)
      modifies store
      ensures (store.Rows(), reply) == T.RequestRollback(old(store.Rows()), policy, id, user, retry, c)
    {
      hide T.ResolvePlan, Domain.TargetBusy, Policy.Required, T.SourceUsable;
      var s := store.Rows();
      if id !in s.releases {
        return Refused(NotFound);
      }
      var row := s.releases[id];
      if retry && !row.status.Failed? {
        return Refused(RetryRequiresFailed);
      }
      if !retry && row.status.Failed? && row.operation.Rollback? {
        return Refused(RetryRequired);
      }
      if !c.targetActive {
        return Refused(ReleaseTargetInactive);
      }
      var terminalRequest := row.status.Success? || row.status.Failed?;
      var existing := row.operation.Rollback? && InReview(row.status);
      if !terminalRequest && !existing {
        return Refused(InvalidState);
      }
      if c.targetContended || TargetBusy(s, row.target) {
        return Refused(JobConflict);
      }
      var plan := T.ResolvePlan(s, id, retry || existing);
      if plan.None? {
        if existing && T.TerminalBase(row.baseStatus) {
          row := row.(status := row.baseStatus.value, operation := Deploy, source := None,
                      requestedBy := None, baseStatus := None, approval := None);
          store.releases := store.releases[id := row];
        }
        return Refused(RollbackTargetStale);
      }
      if existing || (retry && row.operation.Rollback? && row.source.Some?) {
        if row.source.None? {
          return Refused(RollbackSourceInvalid);
        }
        if row.source != plan {
          return Refused(RollbackTargetStale);
        }
      }
      if !T.SourceUsable(s, row.target, plan.value) {
        return Refused(RollbackSourceInvalid);
      }
      if !c.profileMatches {
        return Refused(ReleaseTargetDrift);
      }
      if !c.dependenciesReady {
        return Refused(ProfileNotReady);
      }
      UsableSource(s, row.target, plan.value);
      var source := s.releases[plan.value.release];
      if policy.Required(row.target, source.profile) && !row.status.Approved? {
        if existing {
          return Refused(ApprovalRequired);
        }
        row := row.(baseStatus := row.baseStatus.OrElse(Some(row.status)));
        row := row.(status := PendingReview, operation := Rollback, source := plan, requestedBy := Some(user),
                    submitted := Some(RollbackRequest(plan.value)), submitter := Some(user), approval := None);
        store.releases := store.releases[id := row];
        return Done;
      }
      if !c.runnerReady {
        return Refused(RunnerUnavailable);
      }
      var base := row.status;
      if row.baseStatus.Some? {
        base := row.baseStatus.value;
      }
      if !base.Success? && !base.Failed? {
        return Refused(RollbackRequestInvalid);
      }
      if !c.credentialReady {
        return Refused(TargetCredentialNotReady);
      }
      store.jobs := store.jobs[store.nextJob := T.RollbackJob(s, id, row, plan.value, user, c.started)];
      store.nextJob := store.nextJob + 1;
      row := row.(status := RollingBack, operation := Rollback, source := plan,
                  requestedBy := row.requestedBy.OrElse(Some(user)), baseStatus := Some(base), approval := None);
      store.releases := store.releases[id := row];
      return Done;
    }

    /** Queues a quick release inside the caller's transaction. */
    method QueueQuickDeployTx(s: State, id: ReleaseId, expected: Status, c: Checks) returns (tx: State, reply: Reply)
      ensures (tx, reply) == T.QueueQuickDeploy(s, id, expected, c)
      ensures !reply.Done? ==> tx == s
    {
      hide Domain.TargetBusy, Domain.HeadOf, T.QueueJob, T.DeployJob;
      tx := s;
      if id !in tx.releases {
        return s, Refused(NotFound);
      }
      var row := tx.releases[id];
      if !row.quick || row.status != expected {
        return s, Refused(InvalidState);
      }
      if row.artifact.None? {
        return s, Refused(ArtifactContentRequired);
      }
      if !c.profileMatches {
        return s, Refused(ReleaseTargetDrift);
      }
      if !c.targetActive {
        return s, Refused(ReleaseTargetInactive);
      }
      if !c.dependenciesReady {
        return s, Refused(ProfileNotReady);
      }
      if !c.runnerReady {
        return s, Refused(RunnerUnavailable);
      }
      if c.targetContended || TargetBusy(tx, row.target) {
        return s, Refused(JobConflict);
      }
      if !c.credentialReady {
        return s, Refused(TargetCredentialNotReady);
      }
      if row.quickBase != HeadOf(tx, row.target) {
        return s, Refused(DeploymentHeadChanged);
      }
      var job := T.DeployJob(id, row, row.quickBase, None, row.createdBy, c.started);
      InsertThenUpdate(tx, id, row.(status := Queued, approval := None), job);
      tx := tx.(jobs := tx.jobs[tx.nextJob := job], nextJob := tx.nextJob + 1);
      tx := tx.(releases := tx.releases[id := row.(status := Queued, approval := None)]);
      return tx, Done;
    }

    method QuickRelease(id: ReleaseId, user: UserId, filename: string, preset: Option<T.Preset>, artifact: ArtifactId,
                        expectedCurrent: string, c: Checks) returns (reply: Reply)
      modifies store
      ensures (store.Rows(), reply) ==
        T.QuickRelease(old(store.Rows()), policy, id, user, filename, preset, artifact, expectedCurrent, c)
    {
      hide Domain.TargetBusy, T.VersionTaken, T.CurrentVersion, Policy.Required, T.QueueQuickDeploy,
           QuickArtifact.ParseName, QuickArtifact.ValidateQuickUpgrade;
      var name := QuickArtifact.ParseName(filename);
      if name.None? {
        return Refused(InvalidArtifactFilename);
      }
      if preset.None? {
        return Refused(PresetUnavailable);
      }
      var tx := store.Rows();
      var t, version := preset.value.target, name.value.version;
      if id in tx.releases || T.VersionTaken(tx, None, t, version) {
        return Refused(ReleaseConflict);
      }
      if TargetBusy(tx, t) {
        return Refused(JobConflict);
      }
      var current := T.CurrentVersion(tx, t);
      if current.GetOr("") != expectedCurrent {
        return Refused(DeploymentHeadChanged);
      }
      if !QuickArtifact.ValidateQuickUpgrade(current, version).Allowed? {
        return Refused(UpgradeRefused);
      }
      if !c.dependenciesReady {
        return Refused(ProfileNotReady);
      }
      var row := T.NewQuickRelease(tx, preset.value, version, artifact, user);
      if policy.Required(t, preset.value.profile) {
        if c.targetContended {
          return Refused(JobConflict);
        }
        row := row.(submitted := DeployRequestOf(row), submitter := Some(user), status := PendingReview);
        store.releases := store.releases[id := row];
        return Done;
      }
      tx := tx.(releases := tx.releases[id := row]);
      tx, reply := QueueQuickDeployTx(tx, id, Uploaded, c);
      if reply.Done? {
        store.Commit(tx);
      }
    }

    /** The approving half of a decision. */
    method Approve(id: ReleaseId, user: UserId, c: Checks) returns (reply: Reply)
      requires id in store.releases
      modifies store
      ensures (store.Rows(), reply) == T.ApproveRequest(old(store.Rows()), policy, id, user, c)
    {
      hide T.ResolvePlan, Domain.LatestFailedDeploy, T.SourceUsable, T.QueueQuickDeploy;
      var tx := store.Rows();
      var row := tx.releases[id];
      var requester := row.createdBy;
      if row.requestedBy.Some? {
        requester := row.requestedBy.value;
      }
      if requester == user && !policy.allowSelf {
        return Refused(SelfApprovalForbidden);
      }
      if row.retrySource.Some? {
        var latest := LatestFailedDeploy(tx, id);
        if latest != row.retrySource {
          return Refused(RetryTargetStale);
        }
      }
      if row.operation.Rollback? {
        if row.source.None? {
          return Refused(RollbackSourceInvalid);
        }
        if T.ResolvePlan(tx, id, true) != row.source {
          return Refused(RollbackTargetStale);
        }
        if !T.SourceUsable(tx, row.target, row.source.value) {
          return Refused(RollbackSourceInvalid);
        }
      }
      if !c.profileMatches {
        return Refused(ReleaseTargetDrift);
      }
      if !c.dependenciesReady {
        return Refused(ProfileNotReady);
      }
      if !row.status.PendingReview? && !row.status.UnderReview? {
        return Refused(InvalidState);
      }
      var grant := Domain.Decision(id, user, requester, row.submitted, row.submitter);
      tx := tx.(releases := tx.releases[id := row.(status := Approved, approval := Some(|tx.decisions|))],
                decisions := tx.decisions + [grant]);
      if row.quick && row.autoDeploy && row.operation.Deploy? && row.retrySource.None? {
        tx, reply := QueueQuickDeployTx(tx, id, Approved, c);
        if reply.Done? {
          store.Commit(tx);
        }
        return;
      }
      store.Commit(tx);
      return Done;
    }

    method Decision(id: ReleaseId, user: UserId, verdict: T.Verdict, comment: bool, c: Checks) returns (reply: Reply)
      modifies store
      ensures (store.Rows(), reply) == T.Decide(old(store.Rows()), policy, id, user, verdict, comment, c)
    {
      hide Policy.Required, T.ApproveRequest;
      var tx := store.Rows();
      if id !in tx.releases {
        return Refused(NotFound);
      }
      var row := tx.releases[id];
      if !row.status.PendingReview? && !row.status.UnderReview? && !policy.Required(row.target, row.profile) {
        return Refused(ApprovalDisabled);
      }
      if verdict.Approve? {
        reply := Approve(id, user, c);
        return;
      }
      if verdict.Reject? && !comment && policy.requireComment {
        return Refused(RejectCommentRequired);
      }
      if !row.status.PendingReview? && (verdict.Review? || !row.status.UnderReview?) {
        return Refused(InvalidState);
      }
      if verdict.Review? {
        store.releases := store.releases[id := row.(status := UnderReview)];
        return Done;
      }
      var clearRollback, clearRetry := row.operation.Rollback?, row.retrySource.Some?;
      var status := Rejected;
      if clearRollback {
        if row.baseStatus.None? || (!row.baseStatus.value.Success? && !row.baseStatus.value.Failed?) {
          return Refused(RollbackRequestInvalid);
        }
        status := row.baseStatus.value;
      }
      row := row.(status := status);
      if clearRollback {
        row := row.(operation := Deploy, source := None);
      }
      if clearRetry {
        row := row.(retrySource := None);
      }
      if clearRollback || clearRetry {
        row := row.(requestedBy := None, baseStatus := None);
      }
      store.releases := store.releases[id := row];
      return Done;
    }
  }

  lemma {:induction false} InsertThenUpdate(s: State, id: ReleaseId, r: Release, job: Job)
    ensures s.(jobs := s.jobs[s.nextJob := job], nextJob := s.nextJob + 1).(releases := s.releases[id := r]) ==
            T.QueueJob(s, id, r, job)
  {
  }

  lemma {:induction false} UsableSource(s: State, t: Target, b: Basis)
    requires T.SourceUsable(s, t, b)
    ensures b.release in s.releases
  {
  }
}
