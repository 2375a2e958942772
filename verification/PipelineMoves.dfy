/** What one transaction of anybody else, and one move of a job's own process, do
    to what the pipeline claims about a job. */
module PipelineMoves {
  import opened Common
  import opened Domain
  import opened Transitions
  import opened Invariants
  import opened Fencing
  import opened Pipeline
  import QuickArtifact

  // --------------------------------------------- transactions of everybody else

  /** Nobody else's transaction touches what a job's process relies on, except by
      ending the job, by deleting it with its rows, or by creating it. */
  ghost predicate Outside(v: View, v': View) {
    || v' == v
    || (v'.job.None? && v'.steps == [] && v'.images == map[])
    || (&& v'.job.Some? && v'.steps == v.steps && v'.images == v.images
        && (v'.job.value.status.Failed? || (v'.job.value.status.Queued? && v'.job.value.lockedBy.None? && v.job.None?)))
  }

  lemma {:induction false} OutsideKeeps(v: View, v': View)
    requires Outside(v, v') && Blank(v) && Complete(v)
    ensures Blank(v') && Complete(v')
    ensures forall p :: Follows(v, p) ==> Follows(v', p)
  {
    hide PlanOf, Finished, Images, AllDigests;
  }

  /** A request queues a fresh, unlocked job or none. */
  predicate QueuesFresh(e: Effect) {
    e.Queue? ==> e.job.status.Queued? && e.job.lockedBy.None?
  }

  lemma {:induction false} CommitOutside(s: State, id: ReleaseId, e: Effect, k: JobId)
    requires Inv(s) && QueuesFresh(e)
    ensures Outside(ViewOf(s, k), ViewOf(Commit(s, id, e).0, k))
  {
    if k in s.jobs { JobFacts(s, k); }
    hide Inv;
  }

  lemma {:induction false} RequestsQueueFresh(
      s: State, policy: Policy, id: ReleaseId, user: UserId, flag: bool, status: Status, c: Checks)
    requires id in s.releases
    ensures QueuesFresh(DeployEffect(s, policy, id, user, flag, c))
    ensures QueuesFresh(RollbackEffect(s, policy, id, user, flag, c))
    ensures QueuesFresh(QuickEffect(s, id, status, c)) && QueuesFresh(RejectEffect(s, policy, id, flag))
  {
    hide ResolvePlan, LatestFailedDeploy, TargetBusy, Policy.Required, SourceUsable;
  }

  lemma {:induction false} QuickOutside(
      s: State, policy: Policy, id: ReleaseId, user: UserId, filename: string, preset: Option<Preset>,
      artifact: ArtifactId, expectedCurrent: string, c: Checks, k: JobId)
    requires Inv(s)
    ensures Outside(ViewOf(s, k),
            ViewOf(QuickRelease(s, policy, id, user, filename, preset, artifact, expectedCurrent, c).0, k))
  {
    hide Inv, QuickRelease, Policy.Required, QuickEffect, CurrentVersion, Commit, Outside;
    hide QuickArtifact.ParseName, QuickArtifact.ValidateQuickUpgrade;
    SameOutside(ViewOf(s, k));
    var r := QuickReleaseCases(s, policy, id, user, filename, preset, artifact, expectedCurrent, c);
    if QuickRelease(s, policy, id, user, filename, preset, artifact, expectedCurrent, c).0 != s {
      var inserted := PutRelease(s, id, r);
      InsertKeeps(s, id, r);
      RequestsQueueFresh(inserted, policy, id, user, false, Uploaded, c);
      CommitOutside(inserted, id, QuickEffect(inserted, id, Uploaded, c), k);
    }
  }

  lemma {:induction false} SameOutside(v: View)
    ensures Outside(v, v)
  {
  }

  lemma {:induction false} DecideOutside(
      s: State, policy: Policy, id: ReleaseId, user: UserId, verdict: Verdict, comment: bool, c: Checks, k: JobId)
    requires Inv(s)
    ensures Outside(ViewOf(s, k), ViewOf(Decide(s, policy, id, user, verdict, comment, c).0, k))
  {
    hide Inv, Policy.Required, Commit, ResolvePlan, LatestFailedDeploy, SourceUsable, QuickEffect, RejectEffect,
         Outside;
    SameOutside(ViewOf(s, k));
    if id in s.releases {
      RequestsQueueFresh(s, policy, id, user, comment, Approved, c);
      match verdict
      case Approve =>
        if ApproveRefusal(s, policy, id, user, c).None? {
          var approved := RecordApproval(s, id, user);
          RecordApprovalKeeps(s, id, user);
          RequestsQueueFresh(approved, policy, id, user, false, Approved, c);
          CommitOutside(approved, id, QuickEffect(approved, id, Approved, c), k);
        }
      case Reject => CommitOutside(s, id, RejectEffect(s, policy, id, comment), k);
      case Review =>
        CommitOutside(s, id, if s.releases[id].status.PendingReview? then
          Rewrite(s.releases[id].(status := UnderReview), Done)
                             else Nothing(InvalidState), k);
    }
  }

  lemma {:induction false} DeleteOutside(s: State, id: ReleaseId, k: JobId)
    requires Blank(ViewOf(s, k))
    ensures Outside(ViewOf(s, k), ViewOf(DeleteRelease(s, id).0, k))
  {
    hide Referenced;
  }

  lemma {:induction false} RecoverOutside(s: State, expired: seq<JobId>, k: JobId)
    ensures
      var v, v' := ViewOf(s, k), ViewOf(RecoverStale(s, expired), k);
      v' == v || (v'.job.Some? && v'.steps == v.steps && v'.images == v.images && v'.job.value.status.Failed?)
    decreases |expired|
  {
    hide DropLocks, DropLease, WriteJob;
    if |expired| > 0 {
      var j := expired[0];
      RecoverOutside(if j in s.jobs && Executing(s.jobs[j].status) then RecoverOne(s, j) else s, expired[1..], k);
    }
  }

  lemma {:induction false} ElsewhereOutside(s: State, policy: Policy, a: Action, k: JobId)
    requires Inv(s) && !ProcessCall(a) && Blank(ViewOf(s, k))
    ensures Outside(ViewOf(s, k), ViewOf(Next(s, policy, a), k))
  {
    hide Inv, Outside, Blank, DeleteRelease, DeployEffect, RollbackEffect, Commit, QuickRelease, Decide, RecoverStale,
         VersionTaken;
    SameOutside(ViewOf(s, k));
    match a
    case ADelete(id) => DeleteOutside(s, id, k);
    case AEnqueue(id, user, retry, c) =>
      if id in s.releases {
        RequestsQueueFresh(s, policy, id, user, retry, Approved, c);
        CommitOutside(s, id, RollbackEffect(s, policy, id, user, retry, c), k);
        CommitOutside(s, id, DeployEffect(s, policy, id, user, retry, c), k);
      }
    case ARollback(id, user, c) =>
      if id in s.releases {
        RequestsQueueFresh(s, policy, id, user, false, Approved, c);
        CommitOutside(s, id, RollbackEffect(s, policy, id, user, false, c), k);
      }
    case AQuick(id, user, filename, preset, artifact, expected, c) =>
      QuickOutside(s, policy, id, user, filename, preset, artifact, expected, c, k);
    case ADecide(id, user, verdict, comment, c) => DecideOutside(s, policy, id, user, verdict, comment, c, k);
    case ARecover(expired) =>
      RecoverOutside(s, expired, k);
      FailedOutside(ViewOf(s, k), ViewOf(RecoverStale(s, expired), k));
    case _ =>
  }

  lemma {:induction false} FailedOutside(v: View, v': View)
    requires v' == v || (v'.job.Some? && v'.steps == v.steps && v'.images == v.images && v'.job.value.status.Failed?)
    ensures Outside(v, v')
  {
  }

  // ------------------------------------------------------- a process's own calls

  /** What an accepted call does to its job's view. */
  function CallView(v: View, a: Action): View
    requires v.job.Some?
  {
    match a
    case ABeginStep(_, _, name) =>
      v.(job := Some(v.job.value.(status := name)), steps := v.steps + [Domain.Step(name, Running)])
    case AFinishStep(_, _, number, success) =>
      if number < |v.steps| then
        v.(steps := v.steps[number := v.steps[number].(state := if success then Succeeded else Broken)])
      else v
    case AImage(_, _, path, image) =>
      v.(images := v.images[path :=
        image.(digest := if path in v.images then image.digest.OrElse(v.images[path].digest) else image.digest)])
    case AFinishJob(_, _, status) => v.(job := Some(v.job.value.(status := status)))
    case _ => v
  }

  lemma {:induction false} CallOthers(s: State, policy: Policy, a: Action, j: JobId, k: JobId)
    requires ConcernsJob(a, j)
    ensures !Apply(s, policy, a).1.Done? ==> Next(s, policy, a) == s
    ensures k != j ==> ViewOf(Next(s, policy, a), k) == ViewOf(s, k)
  {
    hide OwnsJob, HasLockRow, NewHead, DropLocks, DropLease, WriteJob;
  }

  lemma {:induction false} CallOwn(s: State, policy: Policy, a: Action, j: JobId)
    requires ConcernsJob(a, j) && Apply(s, policy, a).1.Done?
    ensures OwnsJob(s, a.worker, j) && ViewOf(Next(s, policy, a), j) == CallView(ViewOf(s, j), a)
    ensures a.AFinishStep? ==> a.number < |StepsOf(s, j)|
    ensures a.AFinishJob? ==> Terminal(a.status)
  {
    hide HasLockRow, NewHead, DropLocks, DropLease, WriteJob;
  }

  // ---------------------------------------------------------------- one move, seen
  // from the job: v is the view before, v' after the call took effect

  lemma {:induction false} FinishedNext(plan: seq<StepName>, i: nat)
    requires i < |plan|
    ensures
      var steps := Finished(plan, i) + [Domain.Step(plan[i], Running)];
      steps[i := steps[i].(state := Succeeded)] == Finished(plan, i + 1)
  {
  }

  lemma {:induction false} BeginFollows(v: View, p: Proc, i: nat)
    requires Follows(v, p) && Owned(v, p) && p.phase == Beginning(i) && i < |p.Plan()|
    ensures
      var v' := CallView(v, ABeginStep(p.worker, 0, p.Plan()[i]));
      Follows(v', p.(phase := Working(i, |v.steps|, 0, true)))
  {
    hide PlanOf, Images;
    SameImages(p, p.(phase := Working(i, |v.steps|, 0, true)), v.images, i, 0);
  }

  /** Image claims look at a process's inputs, not at its phase. */
  lemma {:induction false} SameImages(p: Proc, q: Proc, images: map<string, Image>, i: nat, k: nat)
    requires q == p.(phase := q.phase) && Images(p, images, i, k)
    ensures Images(q, images, i, k)
  {
  }

  /** One more record: no digest is lost, and a push adds one. */
  lemma {:induction false} RecordImages(p: Proc, images: map<string, Image>, i: nat, calls: nat, digest: string)
    requires i < |p.Plan()| && calls < RecordsIn(p, i) && Images(p, images, i, calls)
    ensures
      var (path, image) := (p.images[calls].path, RecordOf(p, i, calls, digest));
      var row := image.(digest := if path in images then image.digest.OrElse(images[path].digest) else image.digest);
      Images(p, images[path := row], i, calls + 1)
  {
    if p.operation.Deploy? {
      PushIsAt(p.preCheck, i);
      hide PlanOf;
    } else {
      assert i == 0;
    }
  }

  lemma {:induction false} RecordFollows(v: View, p: Proc, i: nat, calls: nat, clean: bool, digest: string)
    requires Follows(v, p) && Owned(v, p) && p.phase == Working(i, i, calls, clean) && i < |p.Plan()|
    requires calls < RecordsIn(p, i)
    ensures
      var v' := CallView(v, AImage(p.worker, 0, p.images[calls].path, RecordOf(p, i, calls, digest)));
      Follows(v', p.(phase := Working(i, i, calls + 1, clean)))
  {
    RecordImages(p, v.images, i, calls, digest);
    hide PlanOf, Images, RecordOf, RecordsIn;
    var v' := CallView(v, AImage(p.worker, 0, p.images[calls].path, RecordOf(p, i, calls, digest)));
    SameImages(p, p.(phase := Working(i, i, calls + 1, clean)), v'.images, i, calls + 1);
    SameRecordsIn(p, p.(phase := Working(i, i, calls + 1, clean)), i);
  }

  lemma {:induction false} SameRecordsIn(p: Proc, q: Proc, i: nat)
    requires q == p.(phase := q.phase) && i < |p.Plan()|
    ensures RecordsIn(q, i) == RecordsIn(p, i)
  {
  }

  /** The records of a step are complete: the claims of the next step hold. */
  lemma {:induction false} StepImages(p: Proc, images: map<string, Image>, i: nat)
    requires i < |p.Plan()| && Images(p, images, i, RecordsIn(p, i))
    ensures Images(p, images, i + 1, 0)
  {
    if p.operation.Deploy? { PushIsAt(p.preCheck, i); }
  }

  lemma {:induction false} CloseFollows(v: View, p: Proc, i: nat)
    requires Follows(v, p) && Owned(v, p) && p.phase == Closing(i, i, true)
    ensures Follows(CallView(v, AFinishStep(p.worker, 0, i, true)), p.(phase := Beginning(i + 1)))
  {
    hide PlanOf, Images;
    FinishedNext(p.Plan(), i);
    SameImages(p, p.(phase := Beginning(i + 1)), v.images, i + 1, 0);
  }

  lemma {:induction false} EndComplete(v: View, p: Proc, status: Status)
    requires Follows(v, p) && Owned(v, p) && p.phase == Ending(status)
    ensures Complete(CallView(v, AFinishJob(p.worker, 0, status)))
  {
  }

  /** A move leaves every other job's view alone and keeps its own job's claims. */
  ghost predicate MoveOk(s: State, s': State, j: JobId, p': Option<Proc>) {
    && (forall k :: k != j ==> ViewOf(s', k) == ViewOf(s, k))
    && Blank(ViewOf(s', j)) && Complete(ViewOf(s', j))
    && (p'.Some? ==> Follows(ViewOf(s', j), p'.value))
  }

  ghost predicate JobClaims(s: State, j: JobId, p: Proc) {
    Blank(ViewOf(s, j)) && Complete(ViewOf(s, j)) && Follows(ViewOf(s, j), p)
  }

  lemma {:induction false} CallViews(s: State, policy: Policy, a: Action, j: JobId, fate: Fate)
    requires ConcernsJob(a, j)
    ensures
      var (s', ok) := Call(s, policy, a, fate);
      && (forall k :: k != j ==> ViewOf(s', k) == ViewOf(s, k))
      && (ViewOf(s', j) == ViewOf(s, j) || (OwnsJob(s, a.worker, j) && ViewOf(s', j) == CallView(ViewOf(s, j), a)))
      && (ok ==> OwnsJob(s, a.worker, j) && ViewOf(s', j) == CallView(ViewOf(s, j), a))
      && (a.AFinishJob? && !Terminal(a.status) ==> s' == s)
  {
    forall k | k != j ensures ViewOf(Next(s, policy, a), k) == ViewOf(s, k) { CallOthers(s, policy, a, j, k); }
    CallOthers(s, policy, a, j, j + 1);
    if Apply(s, policy, a).1.Done? { CallOwn(s, policy, a, j); }
    hide Apply, CallView, OwnsJob;
  }

  lemma {:induction false} BeginMove(s: State, policy: Policy, j: JobId, p: Proc, luck: Luck)
    requires JobClaims(s, j, p) && p.phase.Beginning?
    ensures var (s', p') := Move(s, policy, j, p, luck); MoveOk(s, s', j, p')
  {
    hide Call, Images, PlanOf, Finished;
    var i, v := p.phase.i, ViewOf(s, j);
    if i < |p.Plan()| {
      CallViews(s, policy, ABeginStep(p.worker, j, p.Plan()[i]), j, luck.fate);
      if Owned(v, p) { BeginFollows(v, p, i); }
    } else if Owned(v, p) {
      SameImages(p, p.(phase := Ending(TerminalOf(p.operation))), v.images, i, 0);
    }
  }

  lemma {:induction false} LogMove(s: State, policy: Policy, j: JobId, p: Proc, luck: Luck)
    requires JobClaims(s, j, p) && p.phase.Working? && luck.output.Some?
    ensures var (s', p') := Move(s, policy, j, p, luck); MoveOk(s, s', j, p')
  {
    hide Call, Images, PlanOf, Finished, RecordOf, RecordsIn;
    var i, v, p' := p.phase.i, ViewOf(s, j), Move(s, policy, j, p, luck).1.value;
    CallViews(s, policy, ALog(p.worker, j, luck.output.value.(step := p.phase.number)), j, luck.fate);
    if Owned(v, p) {
      SameImages(p, p', v.images, i, p.phase.calls);
      SameRecordsIn(p, p', i);
    }
  }

  lemma {:induction false} WorkMove(s: State, policy: Policy, j: JobId, p: Proc, luck: Luck)
    requires JobClaims(s, j, p) && p.phase.Working?
    ensures var (s', p') := Move(s, policy, j, p, luck); MoveOk(s, s', j, p')
  {
    hide Call, Images, PlanOf, Finished, RecordOf, RecordsIn;
    var i, calls, clean, v := p.phase.i, p.phase.calls, p.phase.clean, ViewOf(s, j);
    var p' := Move(s, policy, j, p, luck).1;
    if luck.output.Some? {
      LogMove(s, policy, j, p, luck);
    } else if luck.fails || i >= |p.Plan()| {
    } else if calls < RecordsIn(p, i) {
      CallViews(s, policy, AImage(p.worker, j, p.images[calls].path, RecordOf(p, i, calls, luck.digest)), j, luck.fate);
      if Owned(v, p) { RecordFollows(v, p, i, calls, clean, luck.digest); }
    } else if Owned(v, p) {
      StepImages(p, v.images, i);
      SameImages(p, p'.value, v.images, i + 1, 0);
    }
  }

  lemma {:induction false} CloseMove(s: State, policy: Policy, j: JobId, p: Proc, luck: Luck)
    requires JobClaims(s, j, p) && p.phase.Closing?
    ensures var (s', p') := Move(s, policy, j, p, luck); MoveOk(s, s', j, p')
  {
    hide Call, Images, PlanOf, Finished;
    var i, v := p.phase.i, ViewOf(s, j);
    CallViews(s, policy, AFinishStep(p.worker, j, p.phase.number, p.phase.ok), j, luck.fate);
    if Owned(v, p) && p.phase.ok { CloseFollows(v, p, i); }
  }

  lemma {:induction false} EndMove(s: State, policy: Policy, j: JobId, p: Proc, luck: Luck)
    requires JobClaims(s, j, p) && p.phase.Ending?
    ensures var (s', p') := Move(s, policy, j, p, luck); MoveOk(s, s', j, p')
  {
    hide Call, Images, PlanOf, Finished;
    var v := ViewOf(s, j);
    CallViews(s, policy, AFinishJob(p.worker, j, p.phase.status), j, luck.fate);
    if Owned(v, p) { EndComplete(v, p, p.phase.status); }
  }

  lemma {:induction false} MoveKeeps(s: State, policy: Policy, j: JobId, p: Proc, luck: Luck)
    requires JobClaims(s, j, p)
    ensures var (s', p') := Move(s, policy, j, p, luck); MoveOk(s, s', j, p')
  {
    hide JobClaims, Move, MoveOk;
    match p.phase
    case Beginning(_) => BeginMove(s, policy, j, p, luck);
    case Working(_, _, _, _) => WorkMove(s, policy, j, p, luck);
    case Closing(_, _, _) => CloseMove(s, policy, j, p, luck);
    case Ending(_) => EndMove(s, policy, j, p, luck);
  }
}
