/** On a target served only by quick releases, versions grow with every
    deployment: an upgrade check made when a release is created still holds when
    its job succeeds, through approvals, retries and rollbacks. */
module QuickVersions {
  import opened Common
  import opened Domain
  import opened Transitions
  import opened Invariants
  import opened Fencing
  import opened DeploymentStack
  import opened SemVer
  import QuickArtifact

  /** SemVer precedence of accepted version texts. */
  ghost predicate Older(a: string, b: string) {
    Accepted(a) && Accepted(b) && ValidVersion(Parse(a).value) && ValidVersion(Parse(b).value)
    && Precedes(Parse(a).value, Parse(b).value)
  }

  /** What fixes the place of a release among the versions of its target. */
  ghost predicate SameIdentity(a: Release, b: Release) {
    b.target == a.target && b.version == a.version && b.quick == a.quick && b.quickBase == a.quickBase
  }

  ghost predicate QuickRow(s: State, t: Target, r: Release) {
    && r.quick && Accepted(r.version)
    && (r.quickBase.Some? ==>
          && r.quickBase.value.release in s.releases
          && s.releases[r.quickBase.value.release].target == t
          && Older(s.releases[r.quickBase.value.release].version, r.version))
  }

  ghost predicate ReleaseQuick(s: State, t: Target, id: ReleaseId)
    requires id in s.releases
  {
    s.releases[id].target == t ==> QuickRow(s, t, s.releases[id])
  }

  /** A DEPLOY job replaces the head its release was checked against. */
  ghost predicate QuickCargo(r: Release, job: Job) {
    job.operation.Deploy? ==> job.source == r.quickBase && job.inputs.version == r.version
  }

  ghost predicate JobQuick(s: State, t: Target, j: JobId)
    requires j in s.jobs
  {
    s.jobs[j].target == t ==> s.jobs[j].release in s.releases && QuickCargo(s.releases[s.jobs[j].release], s.jobs[j])
  }

  ghost predicate QuickInv(s: State, t: Target) {
    && (forall id {:trigger ReleaseQuick(s, t, id)} :: id in s.releases ==> ReleaseQuick(s, t, id))
    && (forall j {:trigger JobQuick(s, t, j)} :: j in s.jobs ==> JobQuick(s, t, j))
  }

  /** Only quick releases are created on the target, and their versions stay. */
  predicate ServedQuickly(s: State, a: Action, t: Target) {
    && (a.ACreate? ==> a.target != t)
    && (a.AEdit? && a.id in s.releases && s.releases[a.id].target == t ==> a.version == s.releases[a.id].version)
  }

  predicate RunServedQuickly(s: State, policy: Policy, actions: seq<Action>, t: Target)
    decreases |actions|
  {
    |actions| > 0 ==>
      ServedQuickly(s, actions[0], t) && RunServedQuickly(Next(s, policy, actions[0]), policy, actions[1..], t)
  }

  // ------------------------------------------------------------ classes of writes

  ghost predicate RowStays(s: State, s': State, t: Target, id: ReleaseId) {
    && (id in s'.releases && s'.releases[id].target == t ==>
          && id in s.releases && SameIdentity(s.releases[id], s'.releases[id])
          && (s'.releases[id].quickBase.Some? && s'.releases[id].quickBase.value.release in s.releases ==>
                s'.releases[id].quickBase.value.release in s'.releases))
    && (id in s.releases && id in s'.releases ==> s'.releases[id].target == s.releases[id].target)
  }

  ghost predicate CargoStays(s: State, s': State, t: Target, j: JobId) {
    j in s'.jobs && s'.jobs[j].target == t ==>
      && s'.jobs[j].release in s'.releases
      && if j in s.jobs then JobMoves(s.jobs[j], s'.jobs[j]) && s'.releases[s'.jobs[j].release].target == t
         else QuickCargo(s'.releases[s'.jobs[j].release], s'.jobs[j])
  }

  lemma {:induction false} StayKeeps(s: State, s': State, t: Target)
    requires QuickInv(s, t)
    requires forall id {:trigger RowStays(s, s', t, id)} :: RowStays(s, s', t, id)
    requires forall j {:trigger CargoStays(s, s', t, j)} :: CargoStays(s, s', t, j)
    ensures QuickInv(s', t)
  {
    hide Accepted, Older;
    forall id | id in s'.releases ensures ReleaseQuick(s', t, id) {
      assert RowStays(s, s', t, id);
      if s'.releases[id].target == t {
        assert ReleaseQuick(s, t, id);
        if s'.releases[id].quickBase.Some? { assert RowStays(s, s', t, s'.releases[id].quickBase.value.release); }
      }
    }
    forall j | j in s'.jobs ensures JobQuick(s', t, j) {
      assert CargoStays(s, s', t, j);
      if s'.jobs[j].target == t && j in s.jobs {
        assert JobQuick(s, t, j) && RowStays(s, s', t, s.jobs[j].release);
      }
    }
  }

  /** A release row rewritten with its identity, and at most one new job of it. */
  ghost predicate EffectQuick(s: State, t: Target, id: ReleaseId, e: Effect)
    requires id in s.releases
  {
    match e
    case Nothing(_) => true
    case Rewrite(row, _) => SameIdentity(s.releases[id], row)
    case Queue(row, job) =>
      && SameIdentity(s.releases[id], row)
      && job.release == id && job.target == row.target
      && (row.quick ==> QuickCargo(row, job))
  }

  lemma {:induction false} CommitQuick(s: State, t: Target, id: ReleaseId, e: Effect)
    requires Inv(s) && QuickInv(s, t) && id in s.releases && EffectQuick(s, t, id, e)
    ensures QuickInv(Commit(s, id, e).0, t)
  {
    var s' := Commit(s, id, e).0;
    assert ReleaseQuick(s, t, id);
    hide Inv, QuickInv;
    forall k ensures RowStays(s, s', t, k) {}
    forall j ensures CargoStays(s, s', t, j) { if j in s.jobs { JobFacts(s, j); } }
    StayKeeps(s, s', t);
  }

  lemma {:induction false} MoveQuick(s: State, s': State, t: Target, j: JobId, job: Job)
    requires Inv(s) && QuickInv(s, t) && Active(s, j) && JobMoves(s.jobs[j], job)
    requires s'.jobs == s.jobs[j := job] && job.release in s.releases
    requires s'.releases == s.releases[job.release := s.releases[job.release].(status := job.status)]
    ensures QuickInv(s', t)
  {
    hide Inv, QuickInv;
    forall k ensures RowStays(s, s', t, k) {}
    forall k ensures CargoStays(s, s', t, k) { if k in s.jobs { JobFacts(s, k); } }
    StayKeeps(s, s', t);
  }

  lemma {:induction false} SameQuick(s: State, s': State, t: Target)
    requires QuickInv(s, t) && s'.jobs == s.jobs
    requires s'.releases == s.releases
    ensures QuickInv(s', t)
  {
    forall id | id in s'.releases ensures ReleaseQuick(s', t, id) { assert ReleaseQuick(s, t, id); }
    forall j | j in s'.jobs ensures JobQuick(s', t, j) { assert JobQuick(s, t, j); }
  }

  lemma {:induction false} InsertQuick(s: State, t: Target, id: ReleaseId, r: Release)
    requires Inv(s) && QuickInv(s, t) && id !in s.releases && (r.target == t ==> QuickRow(s, t, r))
    ensures QuickInv(PutRelease(s, id, r), t)
  {
    hide Accepted, Older;
    var s' := PutRelease(s, id, r);
    forall k | k in s'.releases ensures ReleaseQuick(s', t, k) { if k != id { assert ReleaseQuick(s, t, k); } }
    forall j | j in s'.jobs ensures JobQuick(s', t, j) { assert JobQuick(s, t, j) && JobOk(s, j); }
  }

  // ------------------------------------------------------------------ each request

  lemma {:induction false} DeployQuick(
      s: State, policy: Policy, t: Target, id: ReleaseId, user: UserId, retry: bool, c: Checks)
    requires id in s.releases
    ensures EffectQuick(s, t, id, DeployEffect(s, policy, id, user, retry, c))
  {
    hide LatestFailedDeploy, TargetBusy, Policy.Required;
  }

  lemma {:induction false} RollbackQuick(
      s: State, policy: Policy, t: Target, id: ReleaseId, user: UserId, retry: bool, c: Checks)
    requires id in s.releases
    ensures EffectQuick(s, t, id, RollbackEffect(s, policy, id, user, retry, c))
  {
    hide ResolvePlan, TargetBusy, Policy.Required, IsBasis;
  }

  /** The head's release, when the new version passes the upgrade check against it. */
  lemma {:induction false} UpgradeRow(
      s: State, t: Target, preset: Preset, version: string, artifact: ArtifactId, user: UserId)
    requires Inv(s) && QuickInv(s, t) && preset.target == t && Accepted(version)
    requires QuickArtifact.ValidateQuickUpgrade(CurrentVersion(s, t), version).Allowed?
    ensures QuickRow(s, t, NewQuickRelease(s, preset, version, artifact, user))
  {
    hide QuickArtifact.ValidateQuickUpgrade, Parse;
    QuickArtifact.UpgradeMeansNewer(CurrentVersion(s, t), version);
    if t in s.heads {
      HeadFacts(s, t);
      hide Inv;
      JobFacts(s, s.heads[t].job);
    }
  }

  lemma {:induction false} QuickReleaseQuick(
      s: State, policy: Policy, t: Target, id: ReleaseId, user: UserId, filename: string, preset: Option<Preset>,
      artifact: ArtifactId, expectedCurrent: string, c: Checks)
    requires Inv(s) && QuickInv(s, t)
    ensures QuickInv(QuickRelease(s, policy, id, user, filename, preset, artifact, expectedCurrent, c).0, t)
  {
    hide Inv, QuickInv, QuickRelease, Policy.Required, CurrentVersion, QuickEffect, Commit;
    hide QuickArtifact.ParseName, QuickArtifact.ValidateQuickUpgrade, Accepted, Older;
    var r := QuickReleaseCases(s, policy, id, user, filename, preset, artifact, expectedCurrent, c);
    if QuickRelease(s, policy, id, user, filename, preset, artifact, expectedCurrent, c).0 != s {
      var name := QuickArtifact.ParseName(filename).value;
      QuickArtifact.ParseNameExact(filename, name.prefix, name.version);
      if r.target == t { UpgradeRow(s, t, preset.value, name.version, artifact, user); }
      InsertKeeps(s, id, r);
      InsertQuick(s, t, id, r);
      InsertQuick(s, t, id, r.(status := PendingReview, submitted := DeployRequestOf(r), submitter := Some(user)));
      QuickQueueQuick(PutRelease(s, id, r), t, id, Uploaded, c);
    }
  }

  lemma {:induction false} QuickQueueQuick(s: State, t: Target, id: ReleaseId, expected: Status, c: Checks)
    requires Inv(s) && QuickInv(s, t) && id in s.releases
    ensures QuickInv(QueueQuickDeploy(s, id, expected, c).0, t)
  {
    hide Inv, QuickInv, TargetBusy, Commit;
    CommitQuick(s, t, id, QuickEffect(s, id, expected, c));
  }

  lemma {:induction false} GrantQuick(s: State, t: Target, id: ReleaseId, user: UserId)
    requires Inv(s) && QuickInv(s, t) && id in s.releases
    ensures QuickInv(RecordApproval(s, id, user), t)
  {
    hide Inv, QuickInv;
    var s' := RecordApproval(s, id, user);
    forall k ensures RowStays(s, s', t, k) { if k in s.releases { RowBase(s, t, k); } }
    forall k ensures CargoStays(s, s', t, k) { if k in s.jobs { JobFacts(s, k); } }
    StayKeeps(s, s', t);
  }

  lemma {:induction false} RowBase(s: State, t: Target, id: ReleaseId)
    requires QuickInv(s, t) && id in s.releases
    ensures ReleaseQuick(s, t, id)
  {
  }

  lemma {:induction false} DecideQuick(
      s: State, policy: Policy, t: Target, id: ReleaseId, user: UserId, verdict: Verdict, comment: bool, c: Checks)
    requires Inv(s) && QuickInv(s, t)
    ensures QuickInv(Decide(s, policy, id, user, verdict, comment, c).0, t)
  {
    hide Inv, QuickInv, Policy.Required, Commit, ResolvePlan, LatestFailedDeploy, SourceUsable, QueueQuickDeploy,
         RecordApproval;
    if id in s.releases {
      var r := s.releases[id];
      match verdict
      case Approve =>
        if ApproveRefusal(s, policy, id, user, c).None? {
          GrantQuick(s, t, id, user);
          RecordApprovalKeeps(s, id, user);
          RecordApprovalHas(s, id, user);
          QuickQueueQuick(RecordApproval(s, id, user), t, id, Approved, c);
        }
      case Reject => CommitQuick(s, t, id, RejectEffect(s, policy, id, comment));
      case Review =>
        CommitQuick(s, t, id, if r.status.PendingReview? then Rewrite(r.(status := UnderReview), Done)
          else Nothing(InvalidState));
    }
  }

  lemma {:induction false} RecordApprovalHas(s: State, id: ReleaseId, user: UserId)
    requires id in s.releases
    ensures id in RecordApproval(s, id, user).releases
  {
  }

  lemma {:induction false} DraftQuick(s: State, policy: Policy, t: Target, a: Action)
    requires Inv(s) && QuickInv(s, t) && (a.ACreate? || a.AEdit? || a.AUpload?) && ServedQuickly(s, a, t)
    ensures QuickInv(Next(s, policy, a), t)
  {
    hide Inv, QuickInv, VersionTaken;
    var s' := Next(s, policy, a);
    if s' != s {
      if a.ACreate? {
        InsertQuick(s, t, a.id, s'.releases[a.id]);
      } else {
        forall k ensures RowStays(s, s', t, k) { if k in s.releases { RowBase(s, t, k); } }
        forall k ensures CargoStays(s, s', t, k) { if k in s.jobs { JobFacts(s, k); } }
        StayKeeps(s, s', t);
      }
    }
  }

  lemma {:induction false} DeleteQuick(s: State, t: Target, id: ReleaseId)
    requires Inv(s) && QuickInv(s, t)
    ensures QuickInv(DeleteRelease(s, id).0, t)
  {
    hide Inv, QuickInv;
    var s' := DeleteRelease(s, id).0;
    forall k ensures RowStays(s, s', t, k) { if k in s.releases { RowBase(s, t, k); } }
    forall k ensures CargoStays(s, s', t, k) { if k in s.jobs { JobFacts(s, k); } }
    StayKeeps(s, s', t);
  }

  // ------------------------------------------------------------------ the runner

  lemma {:induction false} ClaimQuick(s: State, t: Target, w: WorkerId, pick: Option<JobId>, loadable: bool)
    requires Inv(s) && QuickInv(s, t)
    ensures QuickInv(ClaimJob(s, w, pick, loadable).0, t)
  {
    hide Inv, QuickInv, RollbackImagesReady;
    var s' := ClaimJob(s, w, pick, loadable).0;
    if pick.Some? && pick.value in s.jobs && s.jobs[pick.value].status.Queued? &&
      s.jobs[pick.value].target !in s.locks {
      JobFacts(s, pick.value);
      MoveQuick(s, s', t, pick.value, s'.jobs[pick.value]);
    }
  }

  lemma {:induction false} BeginQuick(s: State, t: Target, w: WorkerId, j: JobId, name: StepName)
    requires Inv(s) && QuickInv(s, t)
    ensures QuickInv(BeginStep(s, w, j, name).0, t)
  {
    hide Inv, QuickInv;
    if OwnsJob(s, w, j) {
      JobFacts(s, j);
      MoveQuick(s, BeginStep(s, w, j, name).0, t, j, s.jobs[j].(status := name));
    }
  }

  lemma {:induction false} FinishQuick(s: State, t: Target, w: WorkerId, j: JobId, status: Status)
    requires Inv(s) && QuickInv(s, t)
    ensures QuickInv(FinishJob(s, w, j, status).0, t)
  {
    hide Inv, QuickInv, HasLockRow, NewHead, DropLocks, DropLease;
    var (s', reply) := FinishJob(s, w, j, status);
    if reply.Done? {
      JobFacts(s, j);
      MoveQuick(s, s', t, j, s.jobs[j].(status := status));
    }
  }

  lemma {:induction false} RecoverQuick(s: State, t: Target, expired: seq<JobId>)
    requires Inv(s) && QuickInv(s, t)
    ensures QuickInv(RecoverStale(s, expired), t)
    decreases |expired|
  {
    hide Inv, QuickInv, DropLocks, DropLease;
    if |expired| > 0 {
      var j := expired[0];
      if j in s.jobs && Executing(s.jobs[j].status) {
        JobFacts(s, j);
        var s' := RecoverOne(s, j);
        MoveQuick(s, s', t, j, s'.jobs[j]);
        RecoverKeeps(s, [j]);
        assert [j][1..] == [] && RecoverStale(s, [j]) == RecoverStale(s', []);
        RecoverQuick(s', t, expired[1..]);
      } else {
        RecoverQuick(s, t, expired[1..]);
      }
    }
  }

  lemma {:induction false} NextQuick(s: State, policy: Policy, t: Target, a: Action)
    requires Inv(s) && QuickInv(s, t) && ServedQuickly(s, a, t)
    ensures QuickInv(Next(s, policy, a), t)
  {
    hide Inv, QuickInv, CreateRelease, EditRelease, UploadArtifact, DeleteRelease, DeployEffect, RollbackEffect,
         Commit, EffectQuick, QuickRelease, Decide, ClaimJob, BeginStep, FinishJob, RecoverStale;
    match a
    case ADelete(id) => DeleteQuick(s, t, id);
    case AEnqueue(id, user, retry, c) =>
      if id in s.releases {
        if s.releases[id].operation.Rollback? {
          RollbackQuick(s, policy, t, id, user, retry, c);
          CommitQuick(s, t, id, RollbackEffect(s, policy, id, user, retry, c));
        } else {
          DeployQuick(s, policy, t, id, user, retry, c);
          CommitQuick(s, t, id, DeployEffect(s, policy, id, user, retry, c));
        }
      }
    case ARollback(id, user, c) =>
      if id in s.releases {
        RollbackQuick(s, policy, t, id, user, false, c);
        CommitQuick(s, t, id, RollbackEffect(s, policy, id, user, false, c));
      }
    case AQuick(id, user, filename, preset, artifact, expected, c) =>
      QuickReleaseQuick(s, policy, t, id, user, filename, preset, artifact, expected, c);
    case ADecide(id, user, verdict, comment, c) => DecideQuick(s, policy, t, id, user, verdict, comment, c);
    case AClaim(w, pick, loadable) => ClaimQuick(s, t, w, pick, loadable);
    case ABeginStep(w, j, name) => BeginQuick(s, t, w, j, name);
    case AFinishJob(w, j, status) => FinishQuick(s, t, w, j, status);
    case AFinishStep(_, _, _, _) => SameQuick(s, Next(s, policy, a), t);
    case ALog(_, _, _) => SameQuick(s, Next(s, policy, a), t);
    case AImage(_, _, _, _) => SameQuick(s, Next(s, policy, a), t);
    case ARecover(expired) => RecoverQuick(s, t, expired);
    case _ => DraftQuick(s, policy, t, a);
  }

  lemma {:induction false} RunQuick(s: State, policy: Policy, actions: seq<Action>, t: Target)
    requires Inv(s) && QuickInv(s, t) && RunServedQuickly(s, policy, actions, t)
    ensures QuickInv(Run(s, policy, actions), t)
    decreases |actions|
  {
    hide Inv, QuickInv, Next, ServedQuickly;
    if |actions| > 0 {
      NextKeeps(s, policy, actions[0]);
      NextQuick(s, policy, t, actions[0]);
      RunQuick(Next(s, policy, actions[0]), policy, actions[1..], t);
    }
  }

  // ----------------------------------------------------------------------- theorem

  /** Version of the release a stack element belongs to. */
  function VersionAt(s: State, j: JobId): string
    requires j in s.jobs && s.jobs[j].release in s.releases
  {
    s.releases[s.jobs[j].release].version
  }

  lemma {:induction false} NeighboursDecrease(s: State, t: Target, stack: seq<JobId>, i: nat)
    requires Inv(s) && QuickInv(s, t) && IsStack(s, t, stack) && i + 1 < |stack|
    ensures s.jobs[stack[i]].release in s.releases && s.jobs[stack[i + 1]].release in s.releases
    ensures Older(VersionAt(s, stack[i + 1]), VersionAt(s, stack[i]))
  {
    hide Inv;
    assert Replaced(s, stack, i);
    JobFacts(s, stack[i]);
    JobFacts(s, stack[i + 1]);
    assert JobQuick(s, t, stack[i]) && ReleaseQuick(s, t, s.jobs[stack[i]].release);
  }

  lemma {:induction false} StackDecreases(s: State, t: Target, stack: seq<JobId>, i: nat, k: nat)
    requires Inv(s) && QuickInv(s, t) && IsStack(s, t, stack) && i < k < |stack|
    ensures s.jobs[stack[i]].release in s.releases && s.jobs[stack[k]].release in s.releases
    ensures Older(VersionAt(s, stack[k]), VersionAt(s, stack[i]))
    decreases k - i
  {
    hide Inv, QuickInv, IsBasis, Precedes, Parse;
    NeighboursDecrease(s, t, stack, i);
    if i + 1 < k {
      StackDecreases(s, t, stack, i + 1, k);
      PrecedesTransitive(Parse(VersionAt(s, stack[k])).value, Parse(VersionAt(s, stack[i + 1])).value,
        Parse(VersionAt(s, stack[i])).value);
    }
  }

  /** On a target served only by quick releases whose versions are not edited,
      versions strictly decrease from the head down the stack, by SemVer
      precedence and by the server's own comparison. */
  lemma {:induction false} VersionsDecreaseDownTheStack(policy: Policy, actions: seq<Action>, t: Target, i: nat, k: nat)
    requires RunServedQuickly(EMPTY, policy, actions, t)
    requires i < k < |StackOf(Run(EMPTY, policy, actions), t)|
    ensures
      var s := Run(EMPTY, policy, actions);
      var stack := StackOf(s, t);
      && stack[i] in s.jobs && s.jobs[stack[i]].release in s.releases
      && stack[k] in s.jobs && s.jobs[stack[k]].release in s.releases
      && Older(VersionAt(s, stack[k]), VersionAt(s, stack[i]))
      && Compare(VersionAt(s, stack[i]), VersionAt(s, stack[k])) == Some(1)
  {
    hide Run, Inv, QuickInv, RunServedQuickly, Chain, Parse, Precedes, Compare;
    var s := Run(EMPTY, policy, actions);
    Reachable(policy, actions);
    EmptyIsQuick(t);
    RunQuick(EMPTY, policy, actions, t);
    StackShape(policy, actions, t);
    StackDecreases(s, t, StackOf(s, t), i, k);
    CompareIsPrecedence(VersionAt(s, StackOf(s, t)[i]), VersionAt(s, StackOf(s, t)[k]));
  }

  lemma {:induction false} EmptyIsQuick(t: Target)
    ensures Inv(EMPTY) && QuickInv(EMPTY, t)
  {
    InitOk();
  }
}
