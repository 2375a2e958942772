/** Leases over whole runs: how jobs may change, who may change them, and that
    a job that has ended is out of every worker's reach. */
module Fencing {
  import opened Common
  import opened Domain
  import opened Transitions
  import opened Invariants

  // -------------------------------------------------------- how tables evolve

  /** A job row stays, or is unfinished and changes only status, attempts and holder. */
  ghost predicate JobMoves(a: Job, b: Job) {
    || b == a
    || (&& !Terminal(a.status) && !b.status.Queued?
        && b == a.(status := b.status, attempts := b.attempts, lockedBy := b.lockedBy))
  }

  /** What hangs off a job: its steps, images and logs. */
  ghost predicate SameRecords(s: State, s': State, j: JobId) {
    StepsOf(s', j) == StepsOf(s, j) && ImagesOf(s', j) == ImagesOf(s, j) && LogsOf(s', j) == LogsOf(s, j)
  }

  ghost predicate JobEvolves(s: State, s': State, j: JobId) {
    && (j in s.jobs && j in s'.jobs ==>
          JobMoves(s.jobs[j], s'.jobs[j]) && (Terminal(s.jobs[j].status) ==> SameRecords(s, s', j)))
    && (j in s'.jobs && j !in s.jobs ==> s.nextJob <= j < s'.nextJob)
    && (j in s.jobs && j !in s'.jobs ==> !s.jobs[j].status.Success?)
  }

  ghost predicate Evolves(s: State, s': State) {
    && s.nextJob <= s'.nextJob
    && forall j {:trigger JobEvolves(s, s', j)} :: JobEvolves(s, s', j)
  }

  lemma {:induction false} EvolvesTransitive(a: State, b: State, c: State)
    requires Inv(a) && Evolves(a, b) && Evolves(b, c)
    ensures Evolves(a, c)
  {
    forall j ensures JobEvolves(a, c, j) {
      assert JobEvolves(a, b, j) && JobEvolves(b, c, j);
      if j in a.jobs { JobFacts(a, j); }
    }
  }

  lemma {:induction false} PutEvolves(s: State, id: ReleaseId, r: Release)
    ensures Evolves(s, PutRelease(s, id, r))
  {
    forall j ensures JobEvolves(s, PutRelease(s, id, r), j) {}
  }

  lemma {:induction false} CommitEvolves(s: State, id: ReleaseId, e: Effect)
    requires Inv(s)
    ensures Evolves(s, Commit(s, id, e).0)
  {
    var s' := Commit(s, id, e).0;
    forall j ensures JobEvolves(s, s', j) {
      if j in s.jobs { JobFacts(s, j); }
    }
  }

  lemma {:induction false} DeleteEvolves(s: State, id: ReleaseId)
    requires Inv(s)
    ensures Evolves(s, DeleteRelease(s, id).0)
  {
    hide Inv;
    var (s', reply) := DeleteRelease(s, id);
    if reply.Done? { DeletedJobs(s, id); }
    forall j ensures JobEvolves(s, s', j) {}
  }

  lemma {:induction false} QuickEvolves(
      s: State, policy: Policy, id: ReleaseId, user: UserId, filename: string, preset: Option<Preset>,
      artifact: ArtifactId, expectedCurrent: string, c: Checks)
    requires Inv(s)
    ensures Evolves(s, QuickRelease(s, policy, id, user, filename, preset, artifact, expectedCurrent, c).0)
  {
    hide Inv, QuickRelease, Policy.Required, QuickEffect, Evolves, Commit, CurrentVersion;
    hide QuickArtifact.ParseName, QuickArtifact.ValidateQuickUpgrade;
    EvolvesReflexive(s);
    var r := QuickReleaseCases(s, policy, id, user, filename, preset, artifact, expectedCurrent, c);
    if QuickRelease(s, policy, id, user, filename, preset, artifact, expectedCurrent, c).0 != s {
      InsertKeeps(s, id, r);
      PutEvolves(s, id, r);
      PutEvolves(s, id, r.(status := PendingReview, submitted := DeployRequestOf(r), submitter := Some(user)));
      CommitEvolves(PutRelease(s, id, r), id, QuickEffect(PutRelease(s, id, r), id, Uploaded, c));
      EvolvesTransitive(s, PutRelease(s, id, r), QueueQuickDeploy(PutRelease(s, id, r), id, Uploaded, c).0);
    }
  }

  lemma {:induction false} EvolvesReflexive(s: State)
    ensures Evolves(s, s)
  {
    forall j ensures JobEvolves(s, s, j) {}
  }

  lemma {:induction false} RecordApprovalEvolves(s: State, id: ReleaseId, user: UserId)
    requires id in s.releases
    ensures Evolves(s, RecordApproval(s, id, user))
  {
    forall j ensures JobEvolves(s, RecordApproval(s, id, user), j) {}
  }

  lemma {:induction false} DecideEvolves(
      s: State, policy: Policy, id: ReleaseId, user: UserId, verdict: Verdict, comment: bool, c: Checks)
    requires Inv(s)
    ensures Evolves(s, Decide(s, policy, id, user, verdict, comment, c).0)
  {
    hide Inv, Policy.Required, Commit, ResolvePlan, LatestFailedDeploy, SourceUsable, QuickEffect, RecordApproval,
         Evolves;
    EvolvesReflexive(s);
    if id in s.releases {
      var r := s.releases[id];
      match verdict
      case Approve =>
        if ApproveRefusal(s, policy, id, user, c).None? {
          var approved := RecordApproval(s, id, user);
          RecordApprovalKeeps(s, id, user);
          RecordApprovalEvolves(s, id, user);
          CommitEvolves(approved, id, QuickEffect(approved, id, Approved, c));
          EvolvesTransitive(s, approved, Commit(approved, id, QuickEffect(approved, id, Approved, c)).0);
        }
      case Reject => CommitEvolves(s, id, RejectEffect(s, policy, id, comment));
      case Review =>
        CommitEvolves(s, id, if r.status.PendingReview? then Rewrite(r.(status := UnderReview), Done)
          else Nothing(InvalidState));
    }
  }

  lemma {:induction false} RecoverEvolves(s: State, expired: seq<JobId>)
    requires Inv(s)
    ensures Evolves(s, RecoverStale(s, expired))
    decreases |expired|
  {
    hide Inv;
    if |expired| > 0 {
      var j := expired[0];
      if j in s.jobs && Executing(s.jobs[j].status) {
        JobFacts(s, j);
        var s' := RecoverOne(s, j);
        EndKeeps(s, s', j, s'.jobs[j]);
        forall k ensures JobEvolves(s, s', k) {}
        RecoverEvolves(s', expired[1..]);
        EvolvesTransitive(s, s', RecoverStale(s', expired[1..]));
      } else {
        RecoverEvolves(s, expired[1..]);
      }
    } else {
      EvolvesReflexive(s);
    }
  }

  /** One unfinished job moves; nothing that hangs off another job changes. */
  lemma {:induction false} OneJobMoves(s: State, s': State, j: JobId, job: Job)
    requires Active(s, j) && JobMoves(s.jobs[j], job)
    requires s'.jobs == s.jobs[j := job] && s'.nextJob == s.nextJob
    requires forall k :: k != j ==> SameRecords(s, s', k)
    ensures Evolves(s, s')
  {
    hide SameRecords;
    forall k ensures JobEvolves(s, s', k) {}
  }

  lemma {:induction false} ClaimEvolves(s: State, w: WorkerId, pick: Option<JobId>, loadable: bool)
    ensures Evolves(s, ClaimJob(s, w, pick, loadable).0)
  {
    hide RollbackImagesReady, Evolves, WriteJob;
    var s' := ClaimJob(s, w, pick, loadable).0;
    EvolvesReflexive(s);
    if pick.Some? && pick.value in s.jobs && s.jobs[pick.value].status.Queued? {
      var j, job := pick.value, s.jobs[pick.value];
      if job.target !in s.locks { OneJobMoves(s, s', j, s'.jobs[j]); }
    }
  }

  lemma {:induction false} BeginEvolves(s: State, w: WorkerId, j: JobId, name: StepName)
    ensures Evolves(s, BeginStep(s, w, j, name).0)
  {
    hide Evolves, WriteJob;
    EvolvesReflexive(s);
    if OwnsJob(s, w, j) {
      OneJobMoves(s, BeginStep(s, w, j, name).0, j, s.jobs[j].(status := name));
    }
  }

  lemma {:induction false} FinishEvolves(s: State, w: WorkerId, j: JobId, status: Status)
    ensures Evolves(s, FinishJob(s, w, j, status).0)
  {
    hide Evolves, WriteJob, HasLockRow, NewHead, DropLocks, DropLease;
    EvolvesReflexive(s);
    var (s', reply) := FinishJob(s, w, j, status);
    if reply.Done? {
      OneJobMoves(s, s', j, s.jobs[j].(status := status));
    }
  }

  /** The writes that only touch what hangs off an unfinished job. */
  lemma {:induction false} RecordsEvolve(s: State, s': State, j: JobId)
    requires Active(s, j)
    requires s'.jobs == s.jobs && s'.nextJob == s.nextJob
    requires forall k :: k != j ==> SameRecords(s, s', k)
    ensures Evolves(s, s')
  {
    forall k ensures JobEvolves(s, s', k) {}
  }

  lemma {:induction false} RecordActionEvolves(s: State, policy: Policy, a: Action)
    requires a.AFinishStep? || a.ALog? || a.AImage?
    ensures Evolves(s, Next(s, policy, a))
  {
    hide HasLockRow, Evolves;
    var s' := Next(s, policy, a);
    EvolvesReflexive(s);
    if s' != s { RecordsEvolve(s, s', a.job); }
  }

  lemma {:induction false} DraftEvolves(s: State, policy: Policy, a: Action)
    requires a.ACreate? || a.AEdit? || a.AUpload?
    ensures Evolves(s, Next(s, policy, a))
  {
    hide VersionTaken, Evolves;
    var s' := Next(s, policy, a);
    EvolvesReflexive(s);
    if s' != s { PutEvolves(s, a.id, s'.releases[a.id]); }
  }

  lemma {:induction false} NextEvolves(s: State, policy: Policy, a: Action)
    requires Inv(s)
    ensures Evolves(s, Next(s, policy, a))
  {
    hide Inv, Evolves, DeleteRelease, DeployEffect, RollbackEffect, Commit, QuickRelease, Decide, RecoverStale,
         ClaimJob, BeginStep, FinishStep, AppendLog, RecordImage, FinishJob, CreateRelease, EditRelease, UploadArtifact;
    match a
    case ADelete(id) => DeleteEvolves(s, id);
    case AEnqueue(id, user, retry, c) =>
      EvolvesReflexive(s);
      if id in s.releases {
        if s.releases[id].operation.Rollback? { CommitEvolves(s, id, RollbackEffect(s, policy, id, user, retry, c)); }
        else { CommitEvolves(s, id, DeployEffect(s, policy, id, user, retry, c)); }
      }
    case ARollback(id, user, c) =>
      EvolvesReflexive(s);
      if id in s.releases { CommitEvolves(s, id, RollbackEffect(s, policy, id, user, false, c)); }
    case AQuick(id, user, filename, preset, artifact, expected, c) =>
      QuickEvolves(s, policy, id, user, filename, preset, artifact, expected, c);
    case ADecide(id, user, verdict, comment, c) => DecideEvolves(s, policy, id, user, verdict, comment, c);
    case ARecover(expired) => RecoverEvolves(s, expired);
    case ACreate(_, _, _, _, _, _) => DraftEvolves(s, policy, a);
    case AEdit(_, _, _, _) => DraftEvolves(s, policy, a);
    case AUpload(_, _) => DraftEvolves(s, policy, a);
    case AClaim(w, pick, loadable) => ClaimEvolves(s, w, pick, loadable);
    case ABeginStep(w, j, name) => BeginEvolves(s, w, j, name);
    case AFinishJob(w, j, status) => FinishEvolves(s, w, j, status);
    case _ => RecordActionEvolves(s, policy, a);
  }

  lemma {:induction false} RunEvolves(s: State, policy: Policy, actions: seq<Action>)
    requires Inv(s)
    ensures Evolves(s, Run(s, policy, actions))
    decreases |actions|
  {
    hide Inv, Next, Evolves;
    EvolvesReflexive(s);
    if |actions| > 0 {
      var s' := Next(s, policy, actions[0]);
      NextKeeps(s, policy, actions[0]);
      NextEvolves(s, policy, actions[0]);
      RunEvolves(s', policy, actions[1..]);
      EvolvesTransitive(s, s', Run(s', policy, actions[1..]));
    }
  }

  // ------------------------------------------------------------------- leases

  /** A target has at most one unfinished job. */
  lemma {:induction false} OneUnfinishedJobPerTarget(policy: Policy, actions: seq<Action>, i: JobId, j: JobId)
    ensures
      var s := Run(EMPTY, policy, actions);
      Active(s, i) && Active(s, j) && s.jobs[i].target == s.jobs[j].target ==> i == j
  {
    hide Run;
    var s := Run(EMPTY, policy, actions);
    Reachable(policy, actions);
    if i in s.jobs && j in s.jobs { assert Apart(s, i, j); }
  }

  lemma {:induction false} Reachable(policy: Policy, actions: seq<Action>)
    ensures Inv(Run(EMPTY, policy, actions))
  {
    InitOk();
    RunKeeps(EMPTY, policy, actions);
  }

  /** A target's lock row exists exactly while one of its jobs executes, and it
      names that job and the worker the job is locked by. */
  lemma {:induction false} LockRowIsExecution(policy: Policy, actions: seq<Action>, t: Target, lock: Lock)
    ensures
      var s := Run(EMPTY, policy, actions);
      t in s.locks && s.locks[t] == lock <==>
        && lock.job in s.jobs && s.jobs[lock.job].target == t
        && Executing(s.jobs[lock.job].status) && s.jobs[lock.job].lockedBy == Some(lock.worker)
  {
    hide Run;
    var s := Run(EMPTY, policy, actions);
    Reachable(policy, actions);
    if t in s.locks { assert LockOk(s, t); }
    if lock.job in s.jobs && Executing(s.jobs[lock.job].status) { LockFacts(s, lock.job); }
  }

  /** Being the row's holder is the whole lease: the two guards of the runner's
      statements agree in every reachable state. */
  lemma {:induction false} OwnershipIsLease(policy: Policy, actions: seq<Action>, w: WorkerId, j: JobId)
    ensures
      var s := Run(EMPTY, policy, actions);
      OwnsJob(s, w, j) <==> HoldsLease(s, w, j)
  {
    hide Run;
    var s := Run(EMPTY, policy, actions);
    Reachable(policy, actions);
    if OwnsJob(s, w, j) { OwnerHasLock(s, w, j); }
  }

  lemma {:induction false} OwnerHasLock(s: State, w: WorkerId, j: JobId)
    requires Inv(s) && OwnsJob(s, w, j)
    ensures HoldsLease(s, w, j)
  {
    hide Inv;
    JobFacts(s, j);
    LockFacts(s, j);
    assert s.locks[s.jobs[j].target] == Lock(j, w);
  }

  /** The lock-busy answer of a claim cannot occur. */
  lemma {:induction false} ClaimNeverFindsLockBusy(
      policy: Policy, actions: seq<Action>, w: WorkerId, pick: Option<JobId>, loadable: bool)
    ensures ClaimJob(Run(EMPTY, policy, actions), w, pick, loadable).1 != Refused(LockBusy)
  {
    hide Run, RollbackImagesReady;
    var s := Run(EMPTY, policy, actions);
    Reachable(policy, actions);
    if pick.Some? && pick.value in s.jobs && s.jobs[pick.value].target in s.locks && Active(s, pick.value) {
      LockHolderIsActive(s, pick.value);
    }
  }

  lemma {:induction false} LockHolderIsActive(s: State, j: JobId)
    requires Inv(s) && Active(s, j) && s.jobs[j].target in s.locks
    ensures s.locks[s.jobs[j].target].job == j && Executing(s.jobs[j].status)
  {
    var t := s.jobs[j].target;
    assert LockOk(s, t) && Apart(s, j, s.locks[t].job);
  }

  /** The calls a runner makes about a job. */
  predicate ConcernsJob(a: Action, j: JobId) {
    match a
    case ABeginStep(_, k, _) => k == j
    case AFinishStep(_, k, _, _) => k == j
    case ALog(_, k, _) => k == j
    case AImage(_, k, _, _) => k == j
    case AFinishJob(_, k, _) => k == j
    case _ => false
  }

  /** Once a job has ended, by a terminal write or by stale recovery, then after
      any further transactions its row, steps, images and logs are what they
      were (or are gone with its release), and no call of any worker about it
      changes anything. */
  lemma {:induction false} EndedJobIsFenced(
      policy: Policy, before: seq<Action>, after: seq<Action>, j: JobId, call: Action, w: WorkerId)
    requires
      var s := Run(EMPTY, policy, before);
      j in s.jobs && Terminal(s.jobs[j].status) && ConcernsJob(call, j)
    ensures
      var s := Run(EMPTY, policy, before);
      var later := Run(s, policy, after);
      && (j in later.jobs ==> later.jobs[j] == s.jobs[j] && SameRecords(s, later, j))
      && (s.jobs[j].status.Success? ==> j in later.jobs)
      && Apply(later, policy, call).0 == later
      && (!call.AFinishJob? || Terminal(call.status) ==> Apply(later, policy, call).1 == Refused(LostLease))
      && Heartbeat(later, w, j) == Refused(LostLease)
  {
    hide Run;
    var s := Run(EMPTY, policy, before);
    var later := Run(s, policy, after);
    Reachable(policy, before);
    RunKeeps(s, policy, after);
    RunEvolves(s, policy, after);
    assert JobEvolves(s, later, j);
    hide Inv, Evolves;
  }

  /** A worker that does not hold the lease changes nothing. */
  lemma {:induction false} StrangerChangesNothing(policy: Policy, actions: seq<Action>, a: Action, j: JobId)
    requires ConcernsJob(a, j) && !HoldsLease(Run(EMPTY, policy, actions), a.worker, j)
    ensures Next(Run(EMPTY, policy, actions), policy, a) == Run(EMPTY, policy, actions)
  {
    hide Run;
    OwnershipIsLease(policy, actions, a.worker, j);
    hide HasLockRow, NewHead;
  }

  // ------------------------------------------------ counting claims and endings

  predicate Claims(s: State, policy: Policy, a: Action, j: JobId) {
    a.AClaim? && a.pick == Some(j) && Apply(s, policy, a).1.Done?
  }

  predicate Finishes(s: State, policy: Policy, a: Action, j: JobId) {
    a.AFinishJob? && a.job == j && Apply(s, policy, a).1.Done?
  }

  function ClaimCount(s: State, policy: Policy, actions: seq<Action>, j: JobId): nat
    decreases |actions|
  {
    if |actions| == 0 then 0
    else
      ClaimCount(Next(s, policy, actions[0]), policy, actions[1..], j) +
      if Claims(s, policy, actions[0], j) then 1 else 0
  }

  function FinishCount(s: State, policy: Policy, actions: seq<Action>, j: JobId): nat
    decreases |actions|
  {
    if |actions| == 0 then 0
    else
      FinishCount(Next(s, policy, actions[0]), policy, actions[1..], j) +
      if Finishes(s, policy, actions[0], j) then 1 else 0
  }

  predicate Claimable(s: State, j: JobId) {
    if j in s.jobs then s.jobs[j].status.Queued? else j >= s.nextJob
  }

  predicate Finishable(s: State, j: JobId) {
    if j in s.jobs then !Terminal(s.jobs[j].status) else j >= s.nextJob
  }

  lemma {:induction false} ClaimOnceFrom(s: State, policy: Policy, actions: seq<Action>, j: JobId)
    requires Inv(s)
    ensures ClaimCount(s, policy, actions, j) <= if Claimable(s, j) then 1 else 0
    decreases |actions|
  {
    hide Inv, Next;
    if |actions| > 0 {
      var a := actions[0];
      var s' := Next(s, policy, a);
      NextKeeps(s, policy, a);
      NextEvolves(s, policy, a);
      assert JobEvolves(s, s', j);
      if j in s.jobs { JobFacts(s, j); }
      ClaimOnceFrom(s', policy, actions[1..], j);
      if Claims(s, policy, a, j) { ClaimSpends(s, policy, a, j); }
    }
  }

  lemma {:induction false} ClaimSpends(s: State, policy: Policy, a: Action, j: JobId)
    requires Claims(s, policy, a, j)
    ensures Claimable(s, j) && !Claimable(Next(s, policy, a), j)
  {
    hide RollbackImagesReady;
  }

  lemma {:induction false} FinishSpends(s: State, policy: Policy, a: Action, j: JobId)
    requires Finishes(s, policy, a, j)
    ensures Finishable(s, j) && !Finishable(Next(s, policy, a), j)
  {
    hide HasLockRow, NewHead, WriteJob, DropLocks, DropLease;
  }

  lemma {:induction false} FinishOnceFrom(s: State, policy: Policy, actions: seq<Action>, j: JobId)
    requires Inv(s)
    ensures FinishCount(s, policy, actions, j) <= if Finishable(s, j) then 1 else 0
    decreases |actions|
  {
    hide Inv, Next;
    if |actions| > 0 {
      var a := actions[0];
      var s' := Next(s, policy, a);
      NextKeeps(s, policy, a);
      NextEvolves(s, policy, a);
      assert JobEvolves(s, s', j);
      if j in s.jobs { JobFacts(s, j); }
      FinishOnceFrom(s', policy, actions[1..], j);
      if Finishes(s, policy, a, j) { FinishSpends(s, policy, a, j); }
    }
  }

  /** Over any run a job is claimed at most once and at most one terminal write
      of a worker takes effect on it. */
  lemma {:induction false} ClaimedAndFinishedAtMostOnce(policy: Policy, actions: seq<Action>, j: JobId)
    ensures ClaimCount(EMPTY, policy, actions, j) <= 1
    ensures FinishCount(EMPTY, policy, actions, j) <= 1
  {
    InitOk();
    ClaimOnceFrom(EMPTY, policy, actions, j);
    FinishOnceFrom(EMPTY, policy, actions, j);
  }

  // --------------------------------------------------- releases and their jobs

  /** A release has an unfinished job exactly while its status is queued or executing. */
  lemma {:induction false} InFlightIsUnfinishedJob(policy: Policy, actions: seq<Action>, id: ReleaseId)
    ensures
      var s := Run(EMPTY, policy, actions);
      id in s.releases ==> (InFlight(s.releases[id].status) <==> HasActiveJob(s, id))
  {
    hide Run;
    var s := Run(EMPTY, policy, actions);
    Reachable(policy, actions);
    if id in s.releases {
      ReleaseFacts(s, id);
      if HasActiveJob(s, id) {
        var j :| j in s.jobs && s.jobs[j].release == id && !Terminal(s.jobs[j].status);
        JobFacts(s, j);
      }
    }
  }

  /** No release is ever deployed twice: of two successful DEPLOY jobs of one
      release, seen at any two points of a run, both are the same job. */
  lemma {:induction false} AtMostOneSuccessfulDeploy(
      policy: Policy, before: seq<Action>, after: seq<Action>, i: JobId, j: JobId)
    requires
      var s := Run(EMPTY, policy, before);
      var later := Run(s, policy, after);
      && i in s.jobs && s.jobs[i].operation.Deploy? && s.jobs[i].status.Success?
      && j in later.jobs && later.jobs[j].operation.Deploy? && later.jobs[j].status.Success?
      && s.jobs[i].release == later.jobs[j].release
    ensures i == j
  {
    hide Run;
    var s := Run(EMPTY, policy, before);
    var later := Run(s, policy, after);
    Reachable(policy, before);
    RunKeeps(s, policy, after);
    RunEvolves(s, policy, after);
    assert JobEvolves(s, later, i);
    assert Apart(later, i, j);
  }

  // ------------------------------------------------------ which attempt is the latest

  lemma {:induction false} LatestUnique(jobs: map<JobId, Job>, bound: JobId, t: Target, j: JobId)
    requires j in jobs && j < bound && jobs[j].target == t
    requires forall i :: 0 <= i < bound && i in jobs && jobs[i].target == t && i != j ==> CreatedBefore(jobs, i, j)
    ensures LatestBelow(jobs, bound, t) == Some(j)
  {
  }

  /** A job just inserted is its target's latest attempt if and only if its transaction
      did not begin before that of the attempt that was the latest. */
  lemma {:induction false} InsertedIsLatestExactly(s: State, id: ReleaseId, r: Release, job: Job)
    requires forall j :: j in s.jobs ==> j < s.nextJob
    ensures
      var before := LatestJob(s, job.target);
      var overtaken := before.Some? && before.value in s.jobs && job.created < s.jobs[before.value].created;
      LatestJob(QueueJob(s, id, r, job), job.target) == if overtaken then before else Some(s.nextJob)
  {
    var s', n, t := QueueJob(s, id, r, job), s.nextJob, job.target;
    var before := LatestJob(s, t);
    var overtaken := before.Some? && job.created < s.jobs[before.value].created;
    var latest := if overtaken then before.value else n;
    forall i | 0 <= i < n + 1 && i in s'.jobs && s'.jobs[i].target == t && i != latest
      ensures CreatedBefore(s'.jobs, i, latest)
    {
      if i != n {
        assert before.Some? && (i == before.value || CreatedBefore(s.jobs, i, before.value));
      }
    }
    LatestUnique(s'.jobs, n + 1, t, latest);
  }

  /** Every inserted job began no earlier than the jobs its target already has. */
  ghost predicate InsertsInOrder(s: State, policy: Policy, actions: seq<Action>)
    decreases |actions|
  {
    |actions| > 0 ==>
      && StartsLast(s, Next(s, policy, actions[0]))
      && InsertsInOrder(Next(s, policy, actions[0]), policy, actions[1..])
  }

  ghost predicate StartsLast(s: State, s': State) {
    forall i, j {:trigger s'.jobs[i], s'.jobs[j]} ::
      i in s'.jobs && j in s'.jobs && j !in s.jobs && i < j && s'.jobs[i].target == s'.jobs[j].target ==>
        s'.jobs[i].created <= s'.jobs[j].created
  }

  ghost predicate CreatedInOrder(s: State) {
    forall i, j {:trigger s.jobs[i], s.jobs[j]} ::
      i in s.jobs && j in s.jobs && i < j && s.jobs[i].target == s.jobs[j].target ==>
        s.jobs[i].created <= s.jobs[j].created
  }

  lemma {:induction false} OrderKeeps(s: State, policy: Policy, actions: seq<Action>)
    requires Inv(s) && CreatedInOrder(s) && InsertsInOrder(s, policy, actions)
    ensures CreatedInOrder(Run(s, policy, actions))
    decreases |actions|
  {
    hide Inv, Next;
    if |actions| > 0 {
      var s' := Next(s, policy, actions[0]);
      NextKeeps(s, policy, actions[0]);
      NextEvolves(s, policy, actions[0]);
      forall i, j | i in s'.jobs && j in s'.jobs && i < j && s'.jobs[i].target == s'.jobs[j].target
        ensures s'.jobs[i].created <= s'.jobs[j].created
      {
        assert JobEvolves(s, s', i) && JobEvolves(s, s', j);
        if j in s.jobs { IdsBelow(s, j); }
      }
      OrderKeeps(s', policy, actions[1..]);
    }
  }

  lemma InOrder(s: State, i: JobId, j: JobId)
    requires CreatedInOrder(s) && i in s.jobs && j in s.jobs && s.jobs[i].target == s.jobs[j].target
    ensures i < j ==> s.jobs[i].created <= s.jobs[j].created
  {
  }

  lemma {:induction false} IdsBelow(s: State, j: JobId)
    requires Inv(s) && j in s.jobs
    ensures j < s.nextJob
  {
    JobFacts(s, j);
  }

  /** Only the latest attempt of a target can be retried: a job inserted after it can
      only be one whose transaction had begun before; and if no job is ever inserted
      that began before one its target already has, the retried attempt is the last. */
  lemma {:induction false} OnlyLatestAttemptIsRetried(
    policy: Policy, actions: seq<Action>, id: ReleaseId, user: UserId, c: Checks, j: JobId)
    requires
      var s := Run(EMPTY, policy, actions);
      && id in s.releases && s.releases[id].operation.Deploy? && Enqueue(s, policy, id, user, true, c).1.Done?
      && j in s.jobs && s.jobs[j].target == s.releases[id].target
    ensures
      var s := Run(EMPTY, policy, actions);
      var retried := LatestFailedDeploy(s, id);
      && retried.Some? && retried.value in s.jobs && s.jobs[retried.value].release == id
      && s.jobs[retried.value].status.Failed?
      && (j > retried.value ==> s.jobs[j].created < s.jobs[retried.value].created)
      && (InsertsInOrder(EMPTY, policy, actions) ==> j <= retried.value)
  {
    hide Run, Policy.Required, TargetBusy, InsertsInOrder;
    var s := Run(EMPTY, policy, actions);
    Reachable(policy, actions);
    IdsBelow(s, j);
    var retried := LatestFailedDeploy(s, id);
    if InsertsInOrder(EMPTY, policy, actions) {
      InitOk();
      OrderKeeps(EMPTY, policy, actions);
      InOrder(s, retried.value, j);
    }
  }
}
