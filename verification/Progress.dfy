/** What the control plane allows to be done: releases can be deployed one after the
    other and rolled back again, every request and every call on the way answered
    Done. The runs are written out; what they lead to is proved. */
module Progress {
  import opened Common
  import opened Domain
  import opened Transitions
  import opened Invariants
  import opened Fencing
  import opened DeploymentStack
  import opened RequestOutcomes
  import opened RunnerOutcomes
  import Pipeline

  // --------------------------------------------------------------------- runs of Done

  predicate AllDone(s: State, policy: Policy, actions: seq<Action>)
    decreases |actions|
  {
    |actions| > 0 ==>
      Apply(s, policy, actions[0]).1.Done? && AllDone(Next(s, policy, actions[0]), policy, actions[1..])
  }

  /** The actions lead from s to s', each answered Done. */
  ghost predicate Leads(s: State, policy: Policy, actions: seq<Action>, s': State) {
    s' == Run(s, policy, actions) && AllDone(s, policy, actions) && Inv(s) && Inv(s')
  }

  lemma {:induction false} LeadsOne(s: State, policy: Policy, a: Action)
    requires Inv(s) && Apply(s, policy, a).1.Done?
    ensures Leads(s, policy, [a], Next(s, policy, a))
  {
    NextKeeps(s, policy, a);
    hide Apply, Inv;
    var s' := Next(s, policy, a);
    assert [a][1..] == [];
    assert Run(s', policy, []) == s' && AllDone(s', policy, []);
  }

  lemma {:induction false} LeadsNone(s: State, policy: Policy)
    requires Inv(s)
    ensures Leads(s, policy, [], s)
  {
    hide Inv;
  }

  lemma {:induction false} LeadsJoin(
      a: State, policy: Policy, first: seq<Action>, b: State, second: seq<Action>, c: State)
    requires Leads(a, policy, first, b) && Leads(b, policy, second, c)
    ensures Leads(a, policy, first + second, c)
  {
    hide Inv;
    JoinRuns(a, policy, first, second);
  }

  lemma {:induction false} JoinRuns(s: State, policy: Policy, first: seq<Action>, second: seq<Action>)
    ensures Run(s, policy, first + second) == Run(Run(s, policy, first), policy, second)
    ensures AllDone(s, policy, first) && AllDone(Run(s, policy, first), policy, second) ==>
              AllDone(s, policy, first + second)
    decreases |first|
  {
    hide Apply, Next;
    if |first| == 0 {
      assert first + second == second;
    } else {
      assert (first + second)[1..] == first[1..] + second;
      JoinRuns(Next(s, policy, first[0]), policy, first[1..], second);
    }
  }

  // ------------------------------------------------------------- a job is carried out

  const WORKER: WorkerId := 0
  const ASKER: UserId := 1
  const APPROVER: UserId := 2

  function AllGood(started: nat): Checks { Checks(true, true, true, true, false, true, started) }

  const PATH := "images/app.tar"

  /** What pushing the package's image records. */
  const PUSHED := Image("registry/app:1", Some("sha256:00"))

  /** The calls of one step; pushing records the image. */
  function OneStepCalls(j: JobId, name: StepName, number: nat): seq<Action> {
    [ABeginStep(WORKER, j, name)] + (if name.ImagePush? then [AImage(WORKER, j, PATH, PUSHED)] else [])
    + [AFinishStep(WORKER, j, number, true)]
  }

  function StepCalls(j: JobId, names: seq<StepName>, first: nat): seq<Action>
    decreases |names|
  {
    if |names| == 0 then [] else OneStepCalls(j, names[0], first) + StepCalls(j, names[1..], first + 1)
  }

  /** Only the job's status, its release's status and what hangs off the job changed. */
  ghost predicate Worked(s: State, s': State, j: JobId) {
    && j in s.jobs && j in s'.jobs && Runs(s'.jobs[j].status)
    && s.jobs[j].release in s.releases && s.jobs[j].release in s'.releases
    && var job := s.jobs[j];
       && s'.jobs == s.jobs[j := job.(status := s'.jobs[j].status)]
       && s'.releases ==
          s.releases[job.release := s.releases[job.release].(status := s'.releases[job.release].status)]
       && s' == s.(jobs := s'.jobs, releases := s'.releases, steps := s'.steps, images := s'.images)
       && (forall k :: k != j ==> (k in s'.steps <==> k in s.steps))
       && (forall k :: k != j ==>
            (k in s'.images <==> k in s.images) && (k in s.images ==> s'.images[k] == s.images[k]))
  }

  lemma {:induction false} WorkedTwice(a: State, b: State, c: State, j: JobId)
    requires Worked(a, b, j) && Worked(b, c, j)
    ensures Worked(a, c, j)
  {
  }

  function WithPush(images: map<string, Image>, pushes: bool): map<string, Image> {
    if pushes then images[PATH := PUSHED] else images
  }

  lemma {:induction false} Begun(s: State, policy: Policy, j: JobId, name: StepName, first: nat) returns (s': State)
    requires Inv(s) && Holds(s, WORKER, j) && |RowsAt(s.steps, j)| == first
    ensures Leads(s, policy, [ABeginStep(WORKER, j, name)], s') && Worked(s, s', j)
    ensures Holds(s', WORKER, j) && |RowsAt(s'.steps, j)| == first + 1 && s'.images == s.images
  {
    var a := ABeginStep(WORKER, j, name);
    BeginExactly(s, WORKER, j, name);
    LeadsOne(s, policy, a);
    s' := Next(s, policy, a);
    assert s' == BeginStep(s, WORKER, j, name).0;
    hide Inv, BeginStep, Next, Leads;
  }

  lemma {:induction false} Recorded(s: State, policy: Policy, j: JobId, first: nat) returns (s': State)
    requires Inv(s) && Holds(s, WORKER, j) && |RowsAt(s.steps, j)| == first
    ensures Leads(s, policy, [AImage(WORKER, j, PATH, PUSHED)], s') && Worked(s, s', j)
    ensures Holds(s', WORKER, j) && |RowsAt(s'.steps, j)| == first
    ensures ImagesAt(s', j) == ImagesAt(s, j)[PATH := PUSHED]
  {
    var a := AImage(WORKER, j, PATH, PUSHED);
    ImageExactly(s, WORKER, j, PATH, PUSHED);
    LeadsOne(s, policy, a);
    s' := Next(s, policy, a);
    assert s' == RecordImage(s, WORKER, j, PATH, PUSHED).0;
    LeaseMeans(s, WORKER, j);
    hide Inv, RecordImage, Next, Leads;
    assert s'.jobs == s.jobs[j := s.jobs[j]];
  }

  lemma {:induction false} Closed(s: State, policy: Policy, j: JobId, first: nat) returns (s': State)
    requires Inv(s) && Holds(s, WORKER, j) && |RowsAt(s.steps, j)| == first + 1
    ensures Leads(s, policy, [AFinishStep(WORKER, j, first, true)], s') && Worked(s, s', j)
    ensures Holds(s', WORKER, j) && |RowsAt(s'.steps, j)| == first + 1 && s'.images == s.images
  {
    var a := AFinishStep(WORKER, j, first, true);
    FinishStepExactly(s, WORKER, j, first, true);
    LeadsOne(s, policy, a);
    s' := Next(s, policy, a);
    assert s' == FinishStep(s, WORKER, j, first, true).0;
    LeaseMeans(s, WORKER, j);
    hide Inv, FinishStep, Next, Leads;
    assert s'.jobs == s.jobs[j := s.jobs[j]];
  }

  lemma LeadsInv(s: State, policy: Policy, actions: seq<Action>, s': State)
    requires Leads(s, policy, actions, s')
    ensures Inv(s) && Inv(s')
  {
    hide Inv;
  }

  lemma {:induction false} OneStep(s: State, policy: Policy, j: JobId, name: StepName, first: nat) returns (s': State)
    requires Inv(s) && Holds(s, WORKER, j) && |RowsAt(s.steps, j)| == first
    ensures Leads(s, policy, OneStepCalls(j, name, first), s') && Worked(s, s', j)
    ensures Holds(s', WORKER, j) && |RowsAt(s'.steps, j)| == first + 1
    ensures ImagesAt(s', j) == WithPush(ImagesAt(s, j), name.ImagePush?)
  {
    hide Leads, Inv, Holds, Worked;
    var begin, record, finish := [ABeginStep(WORKER, j, name)], [AImage(WORKER, j, PATH, PUSHED)],
                                 [AFinishStep(WORKER, j, first, true)];
    var mid := Begun(s, policy, j, name, first);
    LeadsInv(s, policy, begin, mid);
    if name.ImagePush? {
      var pushed := Recorded(mid, policy, j, first + 1);
      LeadsInv(mid, policy, record, pushed);
      LeadsJoin(s, policy, begin, mid, record, pushed);
      WorkedTwice(s, mid, pushed, j);
      s' := Closed(pushed, policy, j, first);
      LeadsJoin(s, policy, begin + record, pushed, finish, s');
      WorkedTwice(s, pushed, s', j);
    } else {
      s' := Closed(mid, policy, j, first);
      LeadsJoin(s, policy, begin, mid, finish, s');
      WorkedTwice(s, mid, s', j);
      assert begin + [] == begin;
    }
  }

  predicate Pushes(names: seq<StepName>) { exists i :: 0 <= i < |names| && names[i].ImagePush? }

  /** A worker goes through any steps. */
  lemma {:induction false} AllSteps(s: State, policy: Policy, j: JobId, names: seq<StepName>, first: nat)
    returns (s': State)
    requires Inv(s) && Holds(s, WORKER, j) && |RowsAt(s.steps, j)| == first && |names| > 0
    ensures Leads(s, policy, StepCalls(j, names, first), s') && Worked(s, s', j)
    ensures Holds(s', WORKER, j) && ImagesAt(s', j) == WithPush(ImagesAt(s, j), Pushes(names))
    decreases |names|
  {
    hide Leads, Inv, Holds, Worked;
    var head, tail := OneStepCalls(j, names[0], first), names[1..];
    var mid := OneStep(s, policy, j, names[0], first);
    LeadsInv(s, policy, head, mid);
    PushesFirst(names);
    if |names| == 1 {
      s' := mid;
      assert StepCalls(j, tail, first + 1) == [] && head + [] == head;
    } else {
      s' := AllSteps(mid, policy, j, tail, first + 1);
      LeadsJoin(s, policy, head, mid, StepCalls(j, tail, first + 1), s');
      WorkedTwice(s, mid, s', j);
    }
  }

  lemma {:induction false} PushesFirst(names: seq<StepName>)
    requires |names| > 0
    ensures Pushes(names) <==> names[0].ImagePush? || Pushes(names[1..])
  {
    if i :| 0 <= i < |names| && names[i].ImagePush? { assert i > 0 ==> names[1..][i - 1].ImagePush?; }
    if i :| 0 <= i < |names[1..]| && names[1..][i].ImagePush? { assert names[i + 1].ImagePush?; }
  }

  /** A claim, the steps of the job's operation, and its successful end. */
  function CarryOut(j: JobId, op: Operation): seq<Action> {
    [AClaim(WORKER, Some(j), true)] + StepCalls(j, Pipeline.PlanOf(op, false), 0)
    + [AFinishJob(WORKER, j, Pipeline.TerminalOf(op))]
  }

  /** What carrying a job out leaves. */
  ghost predicate CarriedTo(s: State, s': State, j: JobId)
    requires j in s.jobs
  {
    var job := s.jobs[j];
    var status := if job.operation.Deploy? then Success else RolledBack;
    && job.release in s.releases
    && s'.jobs == s.jobs[j := job.(status := status, attempts := 1, lockedBy := Some(WORKER))]
    && s'.releases == s.releases[job.release := s.releases[job.release].(status := status)]
    && s'.locks == s.locks
    && (job.operation.Deploy? ==> s'.heads == s.heads[job.target := Basis(job.release, j)])
    && (job.operation.Rollback? ==> job.source.Some? && s'.heads == s.heads[job.target := job.source.value])
    && s'.nextJob == s.nextJob && s'.decisions == s.decisions
    && (job.operation.Deploy? ==> ImagesAt(s', j) == ImagesAt(s, j)[PATH := PUSHED])
    && (forall k :: k != j ==> (k in s'.images <==> k in s.images) && (k in s.images ==> s'.images[k] == s.images[k]))
    && (forall k :: k != j ==> (k in s'.steps <==> k in s.steps))
  }

  lemma {:induction false} Claimed(s: State, policy: Policy, j: JobId) returns (s': State)
    requires Inv(s) && j in s.jobs && s.jobs[j].status == Queued
    requires s.jobs[j].operation == Rollback ==> ImagesRecorded(s, s.jobs[j])
    ensures Leads(s, policy, [AClaim(WORKER, Some(j), true)], s') && Holds(s', WORKER, j)
    ensures
      var job := s.jobs[j];
      JobBecomes(s, s', j, job.(status := Validating, attempts := 1, lockedBy := Some(WORKER)),
                 s.locks[job.target := Lock(j, WORKER)])
    ensures s.jobs[j].target !in s.locks
  {
    var a := AClaim(WORKER, Some(j), true);
    ClaimExactly(s, WORKER, Some(j), true);
    WaitingHasNoLock(s, j);
    LeadsOne(s, policy, a);
    s' := Next(s, policy, a);
    assert s' == ClaimJob(s, WORKER, Some(j), true).0;
    hide Inv, ClaimJob, Next, Leads, ImagesRecorded;
  }

  lemma {:induction false} Ended(s: State, policy: Policy, j: JobId, status: Status) returns (s': State)
    requires Inv(s) && MayEnd(s, WORKER, j, status) && status != Failed
    ensures Leads(s, policy, [AFinishJob(WORKER, j, status)], s')
    ensures JobBecomes(s.(heads := s'.heads), s', j, s.jobs[j].(status := status), s.locks - {s.jobs[j].target})
    ensures
      var job := s.jobs[j];
      && (status == Success ==> s'.heads == s.heads[job.target := Basis(job.release, j)])
      && (status == RolledBack ==> job.source.Some? && s'.heads == s.heads[job.target := job.source.value])
  {
    var a := AFinishJob(WORKER, j, status);
    FinishExactly(s, WORKER, j, status);
    LeadsOne(s, policy, a);
    s' := Next(s, policy, a);
    assert s' == FinishJob(s, WORKER, j, status).0;
    hide Inv, FinishJob, Next, Leads;
    var job := s.jobs[j];
    assert s'.heads == s.heads[job.target := if status == Success then Basis(job.release, j) else job.source.value];
  }

  lemma {:induction false} PlanPushes(op: Operation)
    ensures |Pipeline.PlanOf(op, false)| > 0 && (Pushes(Pipeline.PlanOf(op, false)) <==> op.Deploy?)
    ensures Pipeline.TerminalOf(op) == if op.Deploy? then Success else RolledBack
  {
    if op.Deploy? { assert Pipeline.PlanOf(op, false)[5].ImagePush?; }
  }

  /** A waiting job whose images, for a rollback, are recorded can be carried out. */
  lemma {:induction false} CanBeCarriedOut(s: State, policy: Policy, j: JobId) returns (s': State)
    requires Inv(s) && j in s.jobs && s.jobs[j].status == Queued && RowsAt(s.steps, j) == []
    requires s.jobs[j].operation == Rollback ==> ImagesRecorded(s, s.jobs[j])
    ensures Leads(s, policy, CarryOut(j, s.jobs[j].operation), s') && CarriedTo(s, s', j)
  {
    hide Leads, Inv, ImagesRecorded, Pipeline.PlanOf;
    var op := s.jobs[j].operation;
    var claim, work := [AClaim(WORKER, Some(j), true)], StepCalls(j, Pipeline.PlanOf(op, false), 0);
    PlanPushes(op);
    var claimed := Claimed(s, policy, j);
    LeadsInv(s, policy, claim, claimed);
    var worked := AllSteps(claimed, policy, j, Pipeline.PlanOf(op, false), 0);
    LeadsJoin(s, policy, claim, claimed, work, worked);
    LeadsInv(claimed, policy, work, worked);
    s' := Ended(worked, policy, j, Pipeline.TerminalOf(op));
    LeadsJoin(s, policy, claim + work, worked, [AFinishJob(WORKER, j, Pipeline.TerminalOf(op))], s');
    Carries(s, claimed, worked, s', j);
  }

  lemma {:induction false} Carries(s: State, claimed: State, worked: State, s': State, j: JobId)
    requires j in s.jobs && s.jobs[j].target !in s.locks
    requires JobBecomes(s, claimed, j, s.jobs[j].(status := Validating, attempts := 1, lockedBy := Some(WORKER)),
                        s.locks[s.jobs[j].target := Lock(j, WORKER)])
    requires Worked(claimed, worked, j)
    requires ImagesAt(worked, j) == WithPush(ImagesAt(claimed, j), s.jobs[j].operation.Deploy?)
    requires
      var job, status := worked.jobs[j], if s.jobs[j].operation.Deploy? then Success else RolledBack;
      && JobBecomes(worked.(heads := s'.heads), s', j, job.(status := status), worked.locks - {job.target})
      && (status == Success ==> s'.heads == worked.heads[job.target := Basis(job.release, j)])
      && (status == RolledBack ==> job.source.Some? && s'.heads == worked.heads[job.target := job.source.value])
    ensures CarriedTo(s, s', j)
  {
    var t := s.jobs[j].target;
    assert s.locks[t := Lock(j, WORKER)] - {t} == s.locks;
  }

  // ---------------------------------------------------------------- a settled target

  /** A deployment that can be returned to: its release is as the deployment left it,
      and its images are recorded. */
  ghost predicate Deployment(s: State, t: Target, k: JobId) {
    && k in s.jobs && s.jobs[k].release in s.releases
    && k in s.images && |s.images[k]| > 0
    && (forall path :: path in s.images[k] ==>
          path != "" && s.images[k][path].destination != "" && s.images[k][path].digest.Some?)
    && var r := s.releases[s.jobs[k].release];
       && r.target == t && r.status == Success && r.operation == Deploy && r.artifact.Some?
       && r.baseStatus == None && r.retrySource == None
  }

  /** Nothing is pending on the target, its last attempt made the current deployment
      current, and every deployment below can be returned to. */
  ghost predicate Settled(s: State, t: Target) {
    && Inv(s) && Idle(s, t) && Fresh(s)
    && t in s.heads && LeftCurrent(s, t)
    && forall k :: k in StackOf(s, t) ==> Deployment(s, t, k)
  }

  ghost predicate LeftCurrent(s: State, t: Target)
    requires t in s.heads
  {
    Latest(s, t, s.heads[t].job) || exists j :: CameBackTo(s, t, s.heads[t], j)
  }

  /** Jobs that are not there yet have no rows. */
  ghost predicate Fresh(s: State) {
    (forall j :: j in s.steps ==> j < s.nextJob) && (forall j :: j in s.images ==> j < s.nextJob)
  }

  ghost predicate StartedBy(s: State, t: Target, started: nat) {
    forall j :: j in s.jobs && s.jobs[j].target == t ==> s.jobs[j].created <= started
  }

  /** The stack of a settled target, written out. */
  lemma {:induction false} SettledStack(s: State, t: Target)
    requires Settled(s, t)
    ensures
      var stack := StackOf(s, t);
      && |stack| > 0 && stack[0] == s.heads[t].job && IsStack(s, t, stack)
      && s.heads[t] == BasisAt(s, stack[0])
      && (|stack| > 1 ==>
            && stack[1] < stack[0]
            && s.jobs[stack[0]].source == Some(BasisAt(s, stack[1]))
            && Chain(s.jobs, s.jobs[stack[0]].source) == stack[1..])
      && (forall i :: 0 <= i < |stack| ==> Deployment(s, t, stack[i]))
  {
    HeadFacts(s, t);
    ChainShape(s, t, HeadOf(s, t));
    var stack, j := StackOf(s, t), s.heads[t].job;
    JobFacts(s, j);
    hide Inv, Deployment;
    assert Replaced(s, stack, 0);
    assert forall i :: 0 <= i < |stack| ==> stack[i] in stack;
  }

  // ----------------------------------------------------------------- asking for a rollback

  /** Asking for a rollback, with its approval where one is needed. */
  function AskRollback(needed: bool, id: ReleaseId, started: nat): seq<Action> {
    var c := AllGood(started);
    if needed then
      [ARollback(id, ASKER, c), ADecide(id, APPROVER, Approve, true, c), AEnqueue(id, ASKER, false, c)]
    else [ARollback(id, ASKER, c)]
  }

  /** A rollback of the release waits in the queue; nothing else happened. */
  ghost predicate RollbackWaits(s: State, s': State, id: ReleaseId, t: Target, to: Basis, started: nat) {
    var n := s.nextJob;
    && n in s'.jobs && s'.jobs == s.jobs[n := s'.jobs[n]] && s'.nextJob == n + 1
    && id in s'.releases && s'.releases == s.releases[id := s'.releases[id]]
    && s'.heads == s.heads && s'.locks == s.locks && s'.images == s.images && s'.steps == s.steps
    && var job := s'.jobs[n];
       && job.release == id && job.target == t && job.operation == Rollback && job.status == Queued
       && job.source == Some(to) && job.created == started
  }

  /** What the current deployment replaced. */
  function Back(s: State, t: Target): Basis {
    if t in s.heads && s.heads[t].job in s.jobs then s.jobs[s.heads[t].job].source.GetOr(Basis(0, 0)) else Basis(0, 0)
  }

  /** Where a settled target goes back to. */
  lemma {:induction false} CanGoBack(s: State, t: Target)
    requires Settled(s, t) && |StackOf(s, t)| >= 2
    ensures
      var id, to := s.heads[t].release, Back(s, t);
      && id in s.releases && s.releases[id].target == t
      && s.releases[id].status == Success && s.releases[id].operation == Deploy
      && s.releases[id].baseStatus == None && s.releases[id].retrySource == None
      && GoesBackTo(s, id, false, to) && GoesBackTo(s, id, true, to) && Restorable(s, t, to)
      && to.release != id && StackOf(s, t)[1] in s.jobs && to == BasisAt(s, StackOf(s, t)[1])
  {
    SettledStack(s, t);
    OtherRelease(s, t);
    var stack := StackOf(s, t);
    assert Deployment(s, t, stack[0]) && Deployment(s, t, stack[1]);
    hide Inv, Latest, CameBackTo, StackOf, Idle, Fresh;
  }

  lemma {:induction false} StillGoesBack(s: State, s': State, id: ReleaseId, to: Basis)
    requires GoesBackTo(s, id, true, to) && Restorable(s, s.releases[id].target, to) && to.release != id
    requires s'.jobs == s.jobs && s'.heads == s.heads && id in s'.releases
    requires s'.releases == s.releases[id := s'.releases[id]] && s'.releases[id].target == s.releases[id].target
    ensures GoesBackTo(s', id, true, to) && Restorable(s', s.releases[id].target, to)
    ensures forall t :: Idle(s, t) ==> Idle(s', t)
  {
    var t := s.releases[id].target;
    assert forall j :: Latest(s, t, j) <==> Latest(s', t, j);
    hide Latest, Idle;
    if id == s.heads[t].release {
      if j :| CameBackTo(s, t, s.heads[t], j) { assert CameBackTo(s', t, s'.heads[t], j); }
    } else {
      if j :| FailedAttempt(s, id, j) { assert FailedAttempt(s', id, j); }
    }
    if j :| FailedRollback(s, t, id, to, j) { assert FailedRollback(s', t, id, to, j); }
    assert forall u :: Idle(s, u) <==> Idle(s', u) by { SameIdle(s, s'); }
  }

  lemma SameIdle(s: State, s': State)
    requires s'.jobs == s.jobs
    ensures forall u :: Idle(s, u) <==> Idle(s', u)
  {
  }

  /** Without approval the request is queued at once. */
  /** A queued rollback waits. */
  lemma {:induction false} QueuedWaits(s: State, s': State, id: ReleaseId, t: Target, to: Basis, started: nat)
    requires id in s.releases && s.releases[id].target == t
    requires to.release in s.releases && s.releases[to.release].artifact.Some?
    requires
      var r := s.releases[id];
      RowAndJob(s, s', id, RollbackRow(r, ASKER, to), QueuedRollback(s, id, r, ASKER, to, started))
    ensures RollbackWaits(s, s', id, t, to, started)
  {
  }

  lemma {:induction false} AskedDirectly(s: State, policy: Policy, t: Target, started: nat) returns (s': State)
    requires Settled(s, t) && |StackOf(s, t)| >= 2
    requires
      var to := Back(s, t);
      to.release in s.releases && !ApprovalNeeded(policy, t, s.releases[to.release].profile)
    ensures Leads(s, policy, AskRollback(false, s.heads[t].release, started), s')
    ensures RollbackWaits(s, s', s.heads[t].release, t, Back(s, t), started)
  {
    var id, to, c := s.heads[t].release, Back(s, t), AllGood(started);
    CanGoBack(s, t);
    RollbackExactly(s, policy, id, ASKER, false, c, to);
    assert Inv(s) && Idle(s, t);
    hide Inv, GoesBackTo, Restorable, Idle, StackOf, RequestRollback, RollbackWaits, RollbackRow, QueuedRollback,
         RowAndJob, Leads;
    assert RollbackQueued(s, policy, id, false, c, to);
    LeadsOne(s, policy, ARollback(id, ASKER, c));
    s' := Next(s, policy, ARollback(id, ASKER, c));
    QueuedWaits(s, s', id, t, to, started);
  }

  /** With approval: submitted, approved by somebody else, then queued. */
  lemma {:induction false} AskedForReview(s: State, policy: Policy, t: Target, started: nat) returns (s': State)
    requires Settled(s, t) && |StackOf(s, t)| >= 2
    requires
      var to := Back(s, t);
      to.release in s.releases && ApprovalNeeded(policy, t, s.releases[to.release].profile)
    ensures
      var id, to := s.heads[t].release, Back(s, t);
      && id in s.releases && Leads(s, policy, [ARollback(id, ASKER, AllGood(started))], s')
      && RowBecomes(s, s', id, ReviewedRollback(s.releases[id], ASKER, to))
  {
    var id, to, c := s.heads[t].release, Back(s, t), AllGood(started);
    CanGoBack(s, t);
    RollbackExactly(s, policy, id, ASKER, false, c, to);
    assert Inv(s) && Idle(s, t);
    hide Inv, GoesBackTo, Restorable, Idle, StackOf, RequestRollback;
    assert RollbackReviewed(s, policy, id, false, c, to);
    LeadsOne(s, policy, ARollback(id, ASKER, c));
    s' := Next(s, policy, ARollback(id, ASKER, c));
  }

  /** The row of a submitted rollback, and its surroundings. */
  ghost predicate Submitted(s: State, id: ReleaseId, t: Target, to: Basis) {
    && Inv(s) && id in s.releases && Idle(s, t) && to.release != id
    && GoesBackTo(s, id, true, to) && Restorable(s, t, to)
    && var r := s.releases[id];
       && r.target == t && r.operation == Rollback && r.source == Some(to) && r.baseStatus == Some(Success)
       && r.retrySource == None && r.requestedBy == Some(ASKER)
  }

  lemma {:induction false} ApprovedRollback(
      s: State, policy: Policy, id: ReleaseId, t: Target, to: Basis, started: nat) returns (s': State)
    requires Submitted(s, id, t, to) && s.releases[id].status == PendingReview
    ensures Leads(s, policy, [ADecide(id, APPROVER, Approve, true, AllGood(started))], s')
    ensures Submitted(s', id, t, to) && s'.releases[id].status == Status.Approved
    ensures s' == s.(releases := s.releases[id := s'.releases[id]], decisions := s'.decisions)
  {
    var c := AllGood(started);
    DecideExactly(s, policy, id, APPROVER, Approve, true, c);
    hide GoesBackTo, Restorable, Idle, Decide;
    assert Approvable(s, policy, id, APPROVER, c);
    LeadsOne(s, policy, ADecide(id, APPROVER, Approve, true, c));
    s' := Next(s, policy, ADecide(id, APPROVER, Approve, true, c));
    LeadsInv(s, policy, [ADecide(id, APPROVER, Approve, true, c)], s');
    hide Inv, Leads, Next;
    assert ApprovedIs(s, s', id, APPROVER, c);
    StillGoesBack(s, s', id, to);
  }

  lemma {:induction false} QueuedApproved(
      s: State, policy: Policy, id: ReleaseId, t: Target, to: Basis, started: nat) returns (s': State)
    requires Submitted(s, id, t, to) && s.releases[id].status == Status.Approved
    ensures Leads(s, policy, [AEnqueue(id, ASKER, false, AllGood(started))], s')
    ensures RollbackWaits(s, s', id, t, to, started)
  {
    hide Inv, GoesBackTo, Restorable, Idle, RequestRollback, Leads, RollbackWaits, RollbackQueued, RollbackReviewed,
         RollbackRow, QueuedRollback, RowAndJob;
    var c := AllGood(started);
    RollbackExactly(s, policy, id, ASKER, false, c, to);
    assert Enqueue(s, policy, id, ASKER, false, c) == RequestRollback(s, policy, id, ASKER, false, c);
    SubmittedIsQueued(s, policy, id, t, to, started);
    hide Enqueue, Submitted;
    LeadsOne(s, policy, AEnqueue(id, ASKER, false, c));
    s' := Next(s, policy, AEnqueue(id, ASKER, false, c));
    QueuedWaits(s, s', id, t, to, started);
  }

  lemma {:induction false} SubmittedIsQueued(
      s: State, policy: Policy, id: ReleaseId, t: Target, to: Basis, started: nat)
    requires Submitted(s, id, t, to) && s.releases[id].status == Status.Approved
    ensures RollbackQueued(s, policy, id, false, AllGood(started), to)
  {
    hide Inv, GoesBackTo, Restorable, Idle;
  }

  /** A rollback of what is deployed can be asked for, and is queued. */
  lemma {:induction false} CanAskRollback(s: State, policy: Policy, t: Target, started: nat)
    returns (needed: bool, s': State)
    requires Settled(s, t) && |StackOf(s, t)| >= 2
    ensures
      var to := Back(s, t);
      to.release in s.releases && needed == ApprovalNeeded(policy, t, s.releases[to.release].profile)
    ensures Leads(s, policy, AskRollback(needed, s.heads[t].release, started), s')
    ensures RollbackWaits(s, s', s.heads[t].release, t, Back(s, t), started)
  {
    hide StackOf, Leads, AskRollback, RollbackWaits, ApprovalNeeded, Back, Inv;
    var to := Back(s, t);
    CanGoBack(s, t);
    needed := ApprovalNeeded(policy, t, s.releases[to.release].profile);
    if needed { s' := AskedAndReviewed(s, policy, t, started); } else { s' := AskedDirectly(s, policy, t, started); }
  }

  /** Where it must be approved: asked for, approved, and submitted again. */
  lemma {:induction false} AskedAndReviewed(s: State, policy: Policy, t: Target, started: nat) returns (s': State)
    requires Settled(s, t) && |StackOf(s, t)| >= 2
    requires
      var to := Back(s, t);
      to.release in s.releases && ApprovalNeeded(policy, t, s.releases[to.release].profile)
    ensures Leads(s, policy, AskRollback(true, s.heads[t].release, started), s')
    ensures RollbackWaits(s, s', s.heads[t].release, t, Back(s, t), started)
  {
    hide StackOf, Leads, GoesBackTo, Restorable, ApprovalNeeded, RollbackWaits;
    var id, to, c := s.heads[t].release, Back(s, t), AllGood(started);
    CanGoBack(s, t);
    var ask, approve, queue := ARollback(id, ASKER, c), ADecide(id, APPROVER, Approve, true, c),
      AEnqueue(id, ASKER, false, c);
    var asked := AskedForReview(s, policy, t, started);
    LeadsInv(s, policy, [ask], asked);
    assert Idle(s, t);
    hide Inv, Settled, Idle, Back;
    StillGoesBack(s, asked, id, to);
    assert Submitted(asked, id, t, to);
    var approved := ApprovedRollback(asked, policy, id, t, to, started);
    s' := QueuedApproved(approved, policy, id, t, to, started);
    hide Submitted;
    LeadsJoin(s, policy, [ask], asked, [approve], approved);
    LeadsJoin(s, policy, [ask] + [approve], approved, [queue], s');
    assert [ask] + [approve] + [queue] == [ask, approve, queue];
    StillWaits(s, asked, approved, s', id, t, to, started);
  }

  lemma {:induction false} StillWaits(
      s: State, asked: State, approved: State, s': State, id: ReleaseId, t: Target, to: Basis, started: nat)
    requires id in asked.releases && asked == s.(releases := s.releases[id := asked.releases[id]])
    requires id in approved.releases
    requires approved ==
      asked.(releases := asked.releases[id := approved.releases[id]], decisions := approved.decisions)
    requires RollbackWaits(approved, s', id, t, to, started)
    ensures RollbackWaits(s, s', id, t, to, started)
  {
    assert s.releases[id := asked.releases[id]][id := approved.releases[id]][id := s'.releases[id]] ==
      s.releases[id := s'.releases[id]];
  }

  /** Two deployments of a stack are of two releases. */
  lemma {:induction false} OtherRelease(s: State, t: Target)
    requires Settled(s, t)
    ensures
      var stack := StackOf(s, t);
      forall i, k :: 0 <= i < |stack| && 0 <= k < |stack| && i != k ==>
        stack[i] in s.jobs && stack[k] in s.jobs && s.jobs[stack[i]].release != s.jobs[stack[k]].release
  {
    SettledStack(s, t);
    var stack := StackOf(s, t);
    forall i, k | 0 <= i < |stack| && 0 <= k < |stack| && i != k
      ensures stack[i] in s.jobs && stack[k] in s.jobs && s.jobs[stack[i]].release != s.jobs[stack[k]].release
    {
      StackFalls(s, t, stack, i, k);
      StackFalls(s, t, stack, k, i);
      assert Apart(s, stack[i], stack[k]);
    }
  }

  lemma {:induction false} StackFalls(s: State, t: Target, stack: seq<JobId>, i: nat, k: nat)
    requires IsStack(s, t, stack) && i < |stack| && k < |stack|
    ensures i < k ==> stack[k] < stack[i]
    decreases k
  {
    hide IsBasis;
    if i < k {
      assert Replaced(s, stack, k - 1);
      StackFalls(s, t, stack, i, k - 1);
    }
  }

  // ------------------------------------------------------------------- a whole rollback

  function RollbackRound(needed: bool, id: ReleaseId, j: JobId, started: nat): seq<Action> {
    AskRollback(needed, id, started) + CarryOut(j, Rollback)
  }

  lemma {:induction false} RecordedAfterAsking(s: State, s': State, id: ReleaseId, t: Target, started: nat)
    requires Settled(s, t) && |StackOf(s, t)| >= 2 && RollbackWaits(s, s', id, t, Back(s, t), started)
    ensures ImagesRecorded(s', s'.jobs[s.nextJob])
    ensures RowsAt(s'.steps, s.nextJob) == [] && s.nextJob !in s.jobs
  {
    CanGoBack(s, t);
    SettledStack(s, t);
    assert Deployment(s, t, StackOf(s, t)[1]);
    NewId(s);
    hide Inv, StackOf, Idle;
  }

  lemma {:induction false} NewId(s: State)
    requires Inv(s)
    ensures s.nextJob !in s.jobs && forall j :: j in s.jobs ==> j < s.nextJob
  {
    forall j | j in s.jobs ensures j < s.nextJob { JobFacts(s, j); }
  }

  /** The tables after a rollback, from where it was asked. */
  ghost predicate RolledTo(s: State, s': State, t: Target, to: Basis, started: nat)
    requires t in s.heads
  {
    var n, id := s.nextJob, s.heads[t].release;
    && n in s'.jobs && s'.jobs == s.jobs[n := s'.jobs[n]] && s'.nextJob == n + 1
    && id in s'.releases && s'.releases == s.releases[id := s'.releases[id]]
    && s'.heads == s.heads[t := to] && s'.locks == s.locks
    && (forall k :: k != n ==> (k in s'.images <==> k in s.images) && (k in s.images ==> s'.images[k] == s.images[k]))
    && (forall k :: k != n ==> (k in s'.steps <==> k in s.steps))
    && var job := s'.jobs[n];
       && job.target == t && job.operation == Rollback && job.status == RolledBack && job.release == id
       && job.source == Some(to) && job.created == started
  }

  lemma {:induction false} RolledStack(
      s: State, policy: Policy, actions: seq<Action>, s': State, t: Target, started: nat)
    requires Settled(s, t) && |StackOf(s, t)| >= 2 && Leads(s, policy, actions, s')
    requires RolledTo(s, s', t, Back(s, t), started)
    ensures StackOf(s', t) == StackOf(s, t)[1..]
  {
    CanGoBack(s, t);
    SettledStack(s, t);
    RunEvolves(s, policy, actions);
    var to := Some(Back(s, t));
    HeadFacts(s, t);
    ChainStays(s, s', t, to);
    hide Inv, Chain, Evolves;
    assert HeadOf(s', t) == to;
    assert StackOf(s', t) == Chain(s'.jobs, HeadOf(s', t));
  }

  lemma {:induction false} RolledSettled(
      s: State, policy: Policy, actions: seq<Action>, s': State, t: Target, started: nat)
    requires Settled(s, t) && |StackOf(s, t)| >= 2 && Leads(s, policy, actions, s') && StartedBy(s, t, started)
    requires RolledTo(s, s', t, Back(s, t), started)
    ensures Settled(s', t) && StackOf(s', t) == StackOf(s, t)[1..] && StartedBy(s', t, started)
  {
    RolledStack(s, policy, actions, s', t, started);
    LeadsInv(s, policy, actions, s');
    SettledStack(s, t);
    OtherRelease(s, t);
    NewId(s);
    var n, stack, to := s.nextJob, StackOf(s, t), Back(s, t);
    assert Idle(s, t) && Fresh(s);
    hide Inv, StackOf, Leads, Back, Deployment;
    RolledRows(s, s', t, to, started);
    hide Idle, Fresh, StartedBy, LeftCurrent;
    forall k | k in stack[1..] ensures Deployment(s', t, k) {
      var i :| 0 <= i < |stack[1..]| && stack[1..][i] == k;
      assert k == stack[i + 1] && Deployment(s, t, k);
      StillDeployment(s, s', t, k, to, started);
    }
  }

  lemma {:induction false} RolledRows(s: State, s': State, t: Target, to: Basis, started: nat)
    requires t in s.heads && RolledTo(s, s', t, to, started) && Idle(s, t) && Fresh(s) && StartedBy(s, t, started)
    requires forall j :: j in s.jobs ==> j < s.nextJob
    ensures Idle(s', t) && Fresh(s') && t in s'.heads && LeftCurrent(s', t) && StartedBy(s', t, started)
  {
    assert CameBackTo(s', t, to, s.nextJob);
  }

  lemma {:induction false} StillDeployment(s: State, s': State, t: Target, k: JobId, to: Basis, started: nat)
    requires t in s.heads && RolledTo(s, s', t, to, started) && Deployment(s, t, k)
    requires k != s.nextJob && s.jobs[k].release != s.heads[t].release
    ensures Deployment(s', t, k)
  {
  }

  lemma {:induction false} RolledFrom(s: State, q: State, s': State, t: Target, to: Basis, started: nat)
    requires t in s.heads && RollbackWaits(s, q, s.heads[t].release, t, to, started)
    requires s.nextJob in q.jobs && CarriedTo(q, s', s.nextJob)
    ensures RolledTo(s, s', t, to, started)
  {
    hide Inv;
    var id, n := s.heads[t].release, s.nextJob;
    assert s.releases[id := q.releases[id]][id := s'.releases[id]] == s.releases[id := s'.releases[id]];
    assert s.jobs[n := q.jobs[n]][n := s'.jobs[n]] == s.jobs[n := s'.jobs[n]];
  }

  /** What is deployed on a settled target can be rolled back to what it replaced, and
      the target is settled again. */
  lemma {:induction false} RollbackCanBeDone(s: State, policy: Policy, t: Target, started: nat)
    returns (needed: bool, s': State)
    requires Settled(s, t) && |StackOf(s, t)| >= 2 && StartedBy(s, t, started)
    ensures Leads(s, policy, RollbackRound(needed, s.heads[t].release, s.nextJob, started), s')
    ensures Settled(s', t) && StackOf(s', t) == StackOf(s, t)[1..] && StartedBy(s', t, started)
    ensures s'.nextJob == s.nextJob + 1 && s.nextJob in s'.jobs
    ensures s'.jobs == s.jobs[s.nextJob := s'.jobs[s.nextJob]]
    ensures s'.jobs[s.nextJob].source == Some(Back(s, t)) && s'.jobs[s.nextJob].status == RolledBack
    ensures s'.jobs[s.nextJob].operation == Rollback
    ensures
      var stack := StackOf(s, t);
      stack[1] in s.jobs && Back(s, t) == BasisAt(s, stack[1])
  {
    var id, n := s.heads[t].release, s.nextJob;
    var asked;
    CanGoBack(s, t);
    needed, asked := CanAskRollback(s, policy, t, started);
    var ask := AskRollback(needed, id, started);
    LeadsInv(s, policy, ask, asked);
    RecordedAfterAsking(s, asked, id, t, started);
    hide Settled, StackOf, Inv, Leads, ImagesRecorded, AskRollback, CarryOut, StartedBy, Back, BasisAt;
    s' := CanBeCarriedOut(asked, policy, n);
    LeadsJoin(s, policy, ask, asked, CarryOut(n, Rollback), s');
    assert RolledTo(s, s', t, Back(s, t), started) by { RolledFrom(s, asked, s', t, Back(s, t), started); }
    hide RollbackWaits, CarriedTo;
    RolledSettled(s, policy, ask + CarryOut(n, Rollback), s', t, started);
  }

  // --------------------------------------------------------------------- a deployment

  /** Nothing is pending on the target, and what is deployed, if anything, is settled. */
  ghost predicate Free(s: State, t: Target) {
    Inv(s) && Idle(s, t) && Fresh(s) && (t in s.heads ==> Settled(s, t))
  }

  /** A draft with its artifact, asked to be deployed, with its approval where needed. */
  function AskDeploy(needed: bool, id: ReleaseId, started: nat): seq<Action> {
    var c := AllGood(started);
    if needed then
      [AEnqueue(id, ASKER, false, c), ADecide(id, APPROVER, Approve, true, c), AEnqueue(id, ASKER, false, c)]
    else [AEnqueue(id, ASKER, false, c)]
  }

  function Draft0(id: ReleaseId, t: Target, profile: ProfileId, version: string): seq<Action> {
    [ACreate(id, t, profile, version, ASKER, true), AUpload(id, 0)]
  }

  function DeployRound(
      needed: bool, id: ReleaseId, t: Target, profile: ProfileId, version: string, j: JobId, started: nat): seq<Action>
  {
    Draft0(id, t, profile, version) + AskDeploy(needed, id, started) + CarryOut(j, Deploy)
  }

  /** A release about to be deployed. */
  ghost predicate Drafted(
      s: State, s': State, id: ReleaseId, t: Target, profile: ProfileId, version: string, status: Status)
  {
    && Inv(s') && id !in s.releases && id in s'.releases && s'.releases == s.releases[id := s'.releases[id]]
    && s' == s.(releases := s'.releases, decisions := s'.decisions)
    && var r := s'.releases[id];
       && r.target == t && r.profile == profile && r.version == version && r.artifact == Some(0)
       && r.createdBy == ASKER && r.status == status && r.operation == Deploy && r.retrySource == None
       && r.baseStatus == None && r.requestedBy == None && !r.quick
  }

  lemma {:induction false} CanDraft(
      s: State, policy: Policy, id: ReleaseId, t: Target, profile: ProfileId, version: string) returns (s': State)
    requires Inv(s) && id !in s.releases && version != "" && VersionFree(s, None, t, version)
    ensures Leads(s, policy, Draft0(id, t, profile, version), s') && Drafted(s, s', id, t, profile, version, Uploaded)
  {
    var create, upload := ACreate(id, t, profile, version, ASKER, true), AUpload(id, 0);
    CreateExactly(s, id, t, profile, version, ASKER, true);
    LeadsOne(s, policy, create);
    var mid := Next(s, policy, create);
    assert mid == CreateRelease(s, id, t, profile, version, ASKER, true).0;
    UploadExactly(mid, id, 0);
    LeadsInv(s, policy, [create], mid);
    hide Inv, VersionFree, CreateRelease, Leads;
    LeadsOne(mid, policy, upload);
    s' := Next(mid, policy, upload);
    assert s' == UploadArtifact(mid, id, 0).0;
    LeadsInv(mid, policy, [upload], s');
    LeadsJoin(s, policy, [create], mid, [upload], s');
    assert [create] + [upload] == [create, upload];
  }

  /** The deployment waits in the queue; nothing else happened since. */
  ghost predicate DeployWaits(s: State, s': State, id: ReleaseId, t: Target, started: nat) {
    var n := s.nextJob;
    && n in s'.jobs && s'.jobs == s.jobs[n := s'.jobs[n]] && s'.nextJob == n + 1
    && id in s'.releases && s'.releases == s.releases[id := s'.releases[id]]
    && s'.heads == s.heads && s'.locks == s.locks && s'.images == s.images && s'.steps == s.steps
    && var job, r := s'.jobs[n], s'.releases[id];
       && job.release == id && job.target == t && job.operation == Deploy && job.status == Queued
       && job.source == Current(s, t) && job.created == started
       && r.target == t && r.operation == Deploy && r.artifact.Some? && r.baseStatus == None && r.retrySource == None
       && (id in s.releases ==> r.version == s.releases[id].version)
  }

  lemma {:induction false} QueuedDraft(
      s: State, d: State, policy: Policy, id: ReleaseId, t: Target, profile: ProfileId, version: string, started: nat)
    returns (s': State)
    requires Drafted(s, d, id, t, profile, version,
                     if ApprovalNeeded(policy, t, profile) then Status.Approved else Uploaded)
    requires Idle(s, t)
    ensures Leads(d, policy, [AEnqueue(id, ASKER, false, AllGood(started))], s') && DeployWaits(d, s', id, t, started)
  {
    var c := AllGood(started);
    SameIdle(s, d);
    EnqueueExactly(d, policy, id, ASKER, false, c, None);
    hide Inv, Idle, Enqueue, FailedAttempt;
    assert DeployQueued(d, policy, id, false, c, None);
    LeadsOne(d, policy, AEnqueue(id, ASKER, false, c));
    s' := Next(d, policy, AEnqueue(id, ASKER, false, c));
  }

  lemma {:induction false} ReviewedDraft(
      s: State, d: State, policy: Policy, id: ReleaseId, t: Target, profile: ProfileId, version: string, started: nat)
    returns (s': State)
    requires Drafted(s, d, id, t, profile, version, Uploaded) && ApprovalNeeded(policy, t, profile)
    ensures Leads(d, policy, [AEnqueue(id, ASKER, false, AllGood(started))], s')
    ensures Drafted(s, s', id, t, profile, version, PendingReview)
  {
    var c := AllGood(started);
    EnqueueExactly(d, policy, id, ASKER, false, c, None);
    assert Inv(d);
    hide Idle, Enqueue, FailedAttempt, Inv;
    assert DeployReviewed(d, policy, id, false, c, None);
    LeadsOne(d, policy, AEnqueue(id, ASKER, false, c));
    s' := Next(d, policy, AEnqueue(id, ASKER, false, c));
    LeadsInv(d, policy, [AEnqueue(id, ASKER, false, c)], s');
  }

  lemma {:induction false} ApprovedDraft(
      s: State, d: State, policy: Policy, id: ReleaseId, t: Target, profile: ProfileId, version: string, started: nat)
    returns (s': State)
    requires Drafted(s, d, id, t, profile, version, PendingReview)
    ensures Leads(d, policy, [ADecide(id, APPROVER, Approve, true, AllGood(started))], s')
    ensures Drafted(s, s', id, t, profile, version, Status.Approved)
  {
    var c := AllGood(started);
    DecideExactly(d, policy, id, APPROVER, Approve, true, c);
    assert Inv(d);
    hide Idle, Decide, FailedAttempt, GoesBackTo, Restorable, Inv;
    assert Approvable(d, policy, id, APPROVER, c);
    LeadsOne(d, policy, ADecide(id, APPROVER, Approve, true, c));
    s' := Next(d, policy, ADecide(id, APPROVER, Approve, true, c));
    LeadsInv(d, policy, [ADecide(id, APPROVER, Approve, true, c)], s');
  }

  /** A draft can be asked to be deployed, and is queued. */
  lemma {:induction false} CanAskDeploy(
      s: State, d: State, policy: Policy, id: ReleaseId, t: Target, profile: ProfileId, version: string, started: nat)
    returns (needed: bool, s': State)
    requires Drafted(s, d, id, t, profile, version, Uploaded) && Idle(s, t)
    ensures needed == ApprovalNeeded(policy, t, profile)
    ensures Leads(d, policy, AskDeploy(needed, id, started), s') && DeployWaits(d, s', id, t, started)
  {
    hide Inv, Leads, Drafted, DeployWaits, Idle, AllGood;
    var c := AllGood(started);
    needed := ApprovalNeeded(policy, t, profile);
    if !needed {
      s' := QueuedDraft(s, d, policy, id, t, profile, version, started);
    } else {
      var enqueue, approve := AEnqueue(id, ASKER, false, c), ADecide(id, APPROVER, Approve, true, c);
      var asked := ReviewedDraft(s, d, policy, id, t, profile, version, started);
      var approved := ApprovedDraft(s, asked, policy, id, t, profile, version, started);
      s' := QueuedDraft(s, approved, policy, id, t, profile, version, started);
      LeadsJoin(d, policy, [enqueue], asked, [approve], approved);
      LeadsJoin(d, policy, [enqueue] + [approve], approved, [enqueue], s');
      assert [enqueue] + [approve] + [enqueue] == [enqueue, approve, enqueue];
      WaitsFromDraft(s, d, approved, s', id, t, profile, version, Uploaded, Status.Approved, started);
    }
  }

  /** A draft and what became of it in review differ in its row only. */
  lemma {:induction false} WaitsFromDraft(
      s: State, a: State, b: State, s': State, id: ReleaseId, t: Target, profile: ProfileId, version: string,
      before: Status, after: Status, started: nat)
    requires Drafted(s, a, id, t, profile, version, before) && Drafted(s, b, id, t, profile, version, after)
    requires DeployWaits(b, s', id, t, started)
    ensures DeployWaits(a, s', id, t, started)
  {
    hide Inv;
    assert a.jobs == b.jobs && a.heads == b.heads && a.nextJob == b.nextJob;
    assert s.releases[id := b.releases[id]][id := s'.releases[id]] == s.releases[id := s'.releases[id]];
    assert s.releases[id := a.releases[id]][id := s'.releases[id]] == s.releases[id := s'.releases[id]];
  }

  /** The tables after a deployment. */
  ghost predicate DeployedTo(s: State, s': State, id: ReleaseId, t: Target, version: string, started: nat) {
    var n := s.nextJob;
    && n in s'.jobs && s'.jobs == s.jobs[n := s'.jobs[n]] && s'.nextJob == n + 1
    && id !in s.releases && id in s'.releases && s'.releases == s.releases[id := s'.releases[id]]
    && s'.heads == s.heads[t := Basis(id, n)] && s'.locks == s.locks
    && (forall k :: k != n ==> (k in s'.images <==> k in s.images) && (k in s.images ==> s'.images[k] == s.images[k]))
    && (forall k :: k != n ==> (k in s'.steps <==> k in s.steps))
    && ImagesAt(s', n) == map[PATH := PUSHED]
    && var job, r := s'.jobs[n], s'.releases[id];
       && job.release == id && job.target == t && job.operation == Deploy && job.status == Success
       && job.source == Current(s, t) && job.created == started
       && r.target == t && r.version == version && r.status == Success && r.operation == Deploy && r.artifact.Some?
       && r.baseStatus == None && r.retrySource == None
  }

  lemma {:induction false} NewDeployment(s: State, s': State, id: ReleaseId, t: Target, version: string, started: nat)
    requires DeployedTo(s, s', id, t, version, started)
    ensures Deployment(s', t, s.nextJob)
  {
    assert PATH in ImagesAt(s', s.nextJob);
    assert |map[PATH := PUSHED]| == 1;
  }

  lemma {:induction false} DeployedStack(
      s: State, policy: Policy, actions: seq<Action>, s': State, id: ReleaseId, t: Target, version: string,
      started: nat)
    requires Free(s, t) && Leads(s, policy, actions, s') && DeployedTo(s, s', id, t, version, started)
    ensures StackOf(s', t) == [s.nextJob] + StackOf(s, t)
  {
    RunEvolves(s, policy, actions);
    NewId(s);
    if t in s.heads {
      HeadFacts(s, t);
      JobFacts(s, s.heads[t].job);
    }
    ChainStays(s, s', t, HeadOf(s, t));
    hide Inv, Evolves, Settled;
    assert HeadOf(s', t) == Some(Basis(id, s.nextJob));
    assert s'.jobs[s.nextJob].source == HeadOf(s, t);
  }

  lemma {:induction false} DeployedSettled(
      s: State, policy: Policy, actions: seq<Action>, s': State, id: ReleaseId, t: Target, version: string,
      started: nat)
    requires Free(s, t) && Leads(s, policy, actions, s') && DeployedTo(s, s', id, t, version, started)
    requires StartedBy(s, t, started)
    ensures Settled(s', t) && StackOf(s', t) == [s.nextJob] + StackOf(s, t) && StartedBy(s', t, started)
  {
    DeployedStack(s, policy, actions, s', id, t, version, started);
    NewDeployment(s, s', id, t, version, started);
    LeadsInv(s, policy, actions, s');
    NewId(s);
    var n, stack := s.nextJob, StackOf(s, t);
    if t in s.heads { SettledStack(s, t); }
    assert forall k :: k in stack ==> Deployment(s, t, k);
    DeployedTables(s, s', id, t, version, started);
    hide Inv, StackOf, Leads, Settled, Free, Latest, Idle, Fresh, StartedBy;
    forall k | k in [n] + stack ensures Deployment(s', t, k) {
      if k != n {
        assert k in stack && Deployment(s, t, k);
        DeploymentStays(s, s', id, t, version, started, k);
      }
    }
    hide Deployment, DeployedTo;
    SettledFacts(s', t);
  }

  lemma {:induction false} DeploymentStays(
      s: State, s': State, id: ReleaseId, t: Target, version: string, started: nat, k: JobId)
    requires Inv(s) && DeployedTo(s, s', id, t, version, started) && Deployment(s, t, k)
    ensures Deployment(s', t, k)
  {
    NewId(s);
    hide Inv;
  }

  lemma {:induction false} DeployedTables(
      s: State, s': State, id: ReleaseId, t: Target, version: string, started: nat)
    requires Inv(s) && Idle(s, t) && Fresh(s) && StartedBy(s, t, started)
    requires DeployedTo(s, s', id, t, version, started)
    ensures Idle(s', t) && Fresh(s') && StartedBy(s', t, started) && t in s'.heads && LeftCurrent(s', t)
  {
    NewId(s);
    hide Inv;
    var n := s.nextJob;
    assert n in s'.jobs && s'.jobs[n].target == t;
    assert Latest(s', t, n);
  }

  lemma SettledFacts(s: State, t: Target)
    requires Inv(s) && Idle(s, t) && Fresh(s) && t in s.heads && LeftCurrent(s, t)
    requires forall k :: k in StackOf(s, t) ==> Deployment(s, t, k)
    ensures Settled(s, t)
  {
    hide Inv;
  }

  /** A release of a free version can be deployed on a free target. */
  lemma {:induction false} DeploymentCanBeDone(
      s: State, policy: Policy, id: ReleaseId, t: Target, profile: ProfileId, version: string, started: nat)
    returns (needed: bool, s': State)
    requires Free(s, t) && StartedBy(s, t, started)
    requires id !in s.releases && version != "" && VersionFree(s, None, t, version)
    ensures Leads(s, policy, DeployRound(needed, id, t, profile, version, s.nextJob, started), s')
    ensures Settled(s', t) && StackOf(s', t) == [s.nextJob] + StackOf(s, t) && StartedBy(s', t, started)
    ensures DeployedTo(s, s', id, t, version, started)
  {
    var drafted := CanDraft(s, policy, id, t, profile, version);
    var draft := Draft0(id, t, profile, version);
    var queued;
    needed, queued := CanAskDeploy(s, drafted, policy, id, t, profile, version, started);
    var ask, n := AskDeploy(needed, id, started), s.nextJob;
    LeadsInv(drafted, policy, ask, queued);
    FreshJob(s);
    WaitsFresh(s, drafted, queued, id, t, profile, version, started);
    hide Free, Settled, StackOf, Inv, Leads, VersionFree, Idle, Drafted, DeployWaits, CarriedTo, DeployedTo;
    s' := CanBeCarriedOut(queued, policy, n);
    LeadsJoin(s, policy, draft, drafted, ask, queued);
    LeadsJoin(s, policy, draft + ask, queued, CarryOut(n, Deploy), s');
    DeployedFrom(s, drafted, queued, s', id, t, profile, version, started);
    DeployedSettled(s, policy, draft + ask + CarryOut(n, Deploy), s', id, t, version, started);
  }

  lemma {:induction false} WaitsFresh(
      s: State, d: State, q: State, id: ReleaseId, t: Target, profile: ProfileId, version: string, started: nat)
    requires Drafted(s, d, id, t, profile, version, Uploaded) && DeployWaits(d, q, id, t, started)
    requires s.nextJob !in s.steps && s.nextJob !in s.images
    ensures
      var n := s.nextJob;
      && n in q.jobs && q.jobs[n].status == Queued && q.jobs[n].operation == Deploy
      && RowsAt(q.steps, n) == [] && ImagesAt(q, n) == map[]
  {
    hide Inv;
  }

  lemma {:induction false} DeployedFrom(
      s: State, d: State, q: State, s': State, id: ReleaseId, t: Target, profile: ProfileId, version: string,
      started: nat)
    requires Drafted(s, d, id, t, profile, version, Uploaded) && DeployWaits(d, q, id, t, started)
    requires s.nextJob in q.jobs && CarriedTo(q, s', s.nextJob) && ImagesAt(q, s.nextJob) == map[]
    ensures DeployedTo(s, s', id, t, version, started)
  {
    hide Inv;
    var n := s.nextJob;
    assert s.releases[id := d.releases[id]][id := q.releases[id]][id := s'.releases[id]] ==
      s.releases[id := s'.releases[id]];
    assert s.jobs[n := q.jobs[n]][n := s'.jobs[n]] == s.jobs[n := s'.jobs[n]];
    assert Current(d, t) == Current(s, t);
  }

  lemma FreshJob(s: State)
    requires Fresh(s)
    ensures s.nextJob !in s.steps && s.nextJob !in s.images
  {
  }

  // ------------------------------------------------------------- operations on the stack

  predicate NoEnd(actions: seq<Action>) { forall i :: 0 <= i < |actions| ==> !actions[i].AFinishJob? }

  lemma {:induction false} StepsEndNothing(j: JobId, names: seq<StepName>, first: nat)
    ensures NoEnd(StepCalls(j, names, first))
    decreases |names|
  {
    if |names| > 0 { StepsEndNothing(j, names[1..], first + 1); }
  }

  lemma {:induction false} CountJoins(a: seq<Op>, b: seq<Op>, push: bool)
    ensures Count(a + b, push) == Count(a, push) + Count(b, push)
  {
    if |a| == 0 {
      assert a + b == b;
    } else {
      assert (a + b)[1..] == a[1..] + b;
      CountJoins(a[1..], b, push);
    }
  }

  /** Actions that end no job leave every stack alone. */
  lemma {:induction false} NoEndKeeps(s: State, policy: Policy, actions: seq<Action>, t: Target)
    requires NoEnd(actions)
    ensures Count(OpsOf(s, policy, actions, t), true) == 0 && Count(OpsOf(s, policy, actions, t), false) == 0
    ensures PerformAll(StackOf(s, t), OpsOf(s, policy, actions, t)) == StackOf(s, t)
    decreases |actions|
  {
    hide Next, Apply, StackOf;
    if |actions| > 0 {
      var rest := actions[1..];
      NoEndKeeps(Next(s, policy, actions[0]), policy, rest, t);
      assert OpOf(s, policy, actions[0], t) == Keep;
      var ops := OpsOf(Next(s, policy, actions[0]), policy, rest, t);
      assert OpsOf(s, policy, actions, t) == [Keep] + ops && ([Keep] + ops)[1..] == ops;
      KeepsAll(ops, StackOf(s, t), StackOf(Next(s, policy, actions[0]), t));
    }
  }

  lemma {:induction false} KeepsAll(ops: seq<Op>, a: seq<JobId>, b: seq<JobId>)
    requires PerformAll(b, ops) == b && Count(ops, true) == 0 && Count(ops, false) == 0
    ensures PerformAll(a, ops) == a
    decreases |ops|
  {
    if |ops| > 0 { KeepsAll(ops[1..], a, b); }
  }

  /** A run whose last action alone ends a job pushes or pops what the stack shows. */
  lemma {:induction false} RoundOps(s: State, policy: Policy, actions: seq<Action>, last: Action, s': State, t: Target)
    requires Leads(s, policy, actions + [last], s') && NoEnd(actions) && last.AFinishJob?
    ensures
      var ops := OpsOf(s, policy, actions + [last], t);
      && (|StackOf(s', t)| == |StackOf(s, t)| + 1 ==> Count(ops, true) == 1 && Count(ops, false) == 0)
      && (|StackOf(s', t)| + 1 == |StackOf(s, t)| ==> Count(ops, true) == 0 && Count(ops, false) == 1)
  {
    NoEndKeeps(s, policy, actions, t);
    var mid := Run(s, policy, actions);
    RunJoins(s, policy, actions, [last], t);
    RunRefinesFrom(s, policy, actions, t);
    assert Inv(mid) by { RunKeeps(s, policy, actions); }
    StepRefinesStack(mid, policy, last, t);
    var op := OpOf(mid, policy, last, t);
    hide Inv, Next, StackOf, OpOf, AllDone;
    assert [last][1..] == [] && OpsOf(mid, policy, [last], t) == [op] + [] == [op];
    assert Run(mid, policy, [last]) == Next(mid, policy, last);
    CountJoins(OpsOf(s, policy, actions, t), [op], true);
    CountJoins(OpsOf(s, policy, actions, t), [op], false);
    assert [op][1..] == [];
  }

  /** A rollback round is one pop. */
  lemma {:induction false} RollbackPops(
      s: State, policy: Policy, needed: bool, id: ReleaseId, j: JobId, started: nat, s': State, t: Target)
    requires Leads(s, policy, RollbackRound(needed, id, j, started), s')
    requires |StackOf(s', t)| + 1 == |StackOf(s, t)|
    ensures
      var ops := OpsOf(s, policy, RollbackRound(needed, id, j, started), t);
      Count(ops, true) == 0 && Count(ops, false) == 1
  {
    StepsEndNothing(j, Pipeline.PlanOf(Rollback, false), 0);
    var work := AskRollback(needed, id, started) + ([AClaim(WORKER, Some(j), true)] +
                StepCalls(j, Pipeline.PlanOf(Rollback, false), 0));
    var last := AFinishJob(WORKER, j, Pipeline.TerminalOf(Rollback));
    assert RollbackRound(needed, id, j, started) == work + [last];
    RoundOps(s, policy, work, last, s', t);
  }

  /** A deployment round is one push. */
  lemma {:induction false} DeployPushes(
      s: State, policy: Policy, needed: bool, id: ReleaseId, t: Target, profile: ProfileId, version: string, j: JobId,
      started: nat, s': State)
    requires Leads(s, policy, DeployRound(needed, id, t, profile, version, j, started), s')
    requires |StackOf(s', t)| == |StackOf(s, t)| + 1
    ensures
      var ops := OpsOf(s, policy, DeployRound(needed, id, t, profile, version, j, started), t);
      Count(ops, true) == 1 && Count(ops, false) == 0
  {
    hide StackOf, OpsOf, Count, Pipeline.PlanOf, Leads;
    StepsEndNothing(j, Pipeline.PlanOf(Deploy, false), 0);
    var work := Draft0(id, t, profile, version) + AskDeploy(needed, id, started) +
                ([AClaim(WORKER, Some(j), true)] + StepCalls(j, Pipeline.PlanOf(Deploy, false), 0));
    var last := AFinishJob(WORKER, j, Pipeline.TerminalOf(Deploy));
    assert DeployRound(needed, id, t, profile, version, j, started) == work + [last];
    RoundOps(s, policy, work, last, s', t);
  }

  // ------------------------------------------------------------------------- theorems

  /** Job i of a run of rollbacks took the target from element i of the stack to the next. */
  ghost predicate WentDown(s: State, s': State, t: Target, i: nat)
    requires i + 1 < |StackOf(s, t)|
  {
    var j, below := s.nextJob + i, StackOf(s, t)[i + 1];
    && j in s'.jobs && s'.jobs[j].operation == Rollback && s'.jobs[j].status == RolledBack
    && below in s.jobs && s'.jobs[j].source == Some(BasisAt(s, below))
  }

  lemma {:induction false} NoActions(s: State, policy: Policy, t: Target)
    requires Inv(s)
    ensures Leads(s, policy, [], s) && Count(OpsOf(s, policy, [], t), true) == 0
    ensures Count(OpsOf(s, policy, [], t), false) == 0
  {
    LeadsNone(s, policy);
    hide Inv, Leads;
  }

  /** On a settled target with more than n deployments, n rollbacks can be carried out:
      every request and call is answered Done, each queues a job whose source is the
      next element of the stack, and each pops one. */
  lemma {:induction false} RollbacksCanBeDone(s: State, policy: Policy, t: Target, n: nat, started: nat)
    returns (actions: seq<Action>, s': State)
    requires Settled(s, t) && |StackOf(s, t)| > n && StartedBy(s, t, started)
    ensures Leads(s, policy, actions, s') && Settled(s', t) && StackOf(s', t) == StackOf(s, t)[n..]
    ensures Count(OpsOf(s, policy, actions, t), true) == 0 && Count(OpsOf(s, policy, actions, t), false) == n
    ensures forall i :: 0 <= i < n ==> WentDown(s, s', t, i)
    ensures forall k :: k in s.jobs ==> k in s'.jobs && s'.jobs[k] == s.jobs[k]
    decreases n
  {
    hide OpsOf, Count, Leads, StackOf, RollbackRound, Inv, WentDown, Run;
    if n == 0 {
      actions, s' := [], s;
      NoActions(s, policy, t);
      assert StackOf(s, t)[0..] == StackOf(s, t);
      assert Settled(s, t) ==> Inv(s);
    } else {
      var needed, mid := RollbackCanBeDone(s, policy, t, started);
      var first := RollbackRound(needed, s.heads[t].release, s.nextJob, started);
      RollbackPops(s, policy, needed, s.heads[t].release, s.nextJob, started, mid, t);
      var rest;
      rest, s' := RollbacksCanBeDone(mid, policy, t, n - 1, started);
      actions := first + rest;
      hide Settled, Back, BasisAt;
      LeadsJoin(s, policy, first, mid, rest, s');
      assert Run(s, policy, first) == mid by { LeadsRuns(s, policy, first, mid); }
      RunJoins(s, policy, first, rest, t);
      CountJoins(OpsOf(s, policy, first, t), OpsOf(mid, policy, rest, t), true);
      CountJoins(OpsOf(s, policy, first, t), OpsOf(mid, policy, rest, t), false);
      assert StackOf(s, t)[1..][n - 1..] == StackOf(s, t)[n..];
      GoesOnDown(s, mid, s', t, n);
    }
  }

  lemma {:induction false} GoesOnDown(s: State, mid: State, s': State, t: Target, n: nat)
    requires Settled(s, t) && 0 < n < |StackOf(s, t)| && StackOf(mid, t) == StackOf(s, t)[1..]
    requires mid.nextJob == s.nextJob + 1 && s.nextJob in mid.jobs
    requires mid.jobs == s.jobs[s.nextJob := mid.jobs[s.nextJob]]
    requires mid.jobs[s.nextJob].source == Some(Back(s, t)) && mid.jobs[s.nextJob].status == RolledBack
    requires mid.jobs[s.nextJob].operation == Rollback
    requires StackOf(s, t)[1] in s.jobs && Back(s, t) == BasisAt(s, StackOf(s, t)[1])
    requires forall i :: 0 <= i < n - 1 ==> WentDown(mid, s', t, i)
    requires forall k :: k in mid.jobs ==> k in s'.jobs && s'.jobs[k] == mid.jobs[k]
    ensures forall i :: 0 <= i < n ==> WentDown(s, s', t, i)
    ensures forall k :: k in s.jobs ==> k in s'.jobs && s'.jobs[k] == s.jobs[k]
  {
    NewIdOf(s, t);
    var stack := StackOf(s, t);
    forall i | 0 <= i < n ensures WentDown(s, s', t, i) {
      NextElement(s, t, i + 1);
      hide Settled, StackOf, Back;
      if i > 0 {
        assert WentDown(mid, s', t, i - 1);
        assert StackOf(mid, t)[i] == stack[i + 1];
      }
    }
    hide Settled, StackOf, Back, WentDown;
  }

  lemma LeadsRuns(s: State, policy: Policy, actions: seq<Action>, s': State)
    requires Leads(s, policy, actions, s')
    ensures Run(s, policy, actions) == s'
  {
    hide Inv;
  }

  lemma NewIdOf(s: State, t: Target)
    requires Settled(s, t)
    ensures s.nextJob !in s.jobs
  {
    NewId(s);
    hide Inv;
  }

  lemma NextElement(s: State, t: Target, i: nat)
    requires Settled(s, t) && i < |StackOf(s, t)|
    ensures StackOf(s, t)[i] in s.jobs && StackOf(s, t)[i] < s.nextJob
  {
    SettledStack(s, t);
    NewId(s);
    hide Inv;
  }

  /** Releases are numbered, and longer versions are still free. */
  ghost predicate Counted(s: State, t: Target, n: nat) {
    forall id :: id in s.releases ==> id < n && |s.releases[id].version| <= n
  }

  function VersionOf(n: nat): string { seq(n + 1, _ => '1') }

  /** Any number of releases can be deployed one after the other. */
  lemma {:induction false} DeploymentsCanBeDone(
      s: State, policy: Policy, t: Target, profile: ProfileId, n: nat, base: nat, started: nat)
    returns (actions: seq<Action>, s': State)
    requires Free(s, t) && StartedBy(s, t, started) && Counted(s, t, base)
    ensures Leads(s, policy, actions, s') && StartedBy(s', t, started)
    ensures |StackOf(s', t)| == |StackOf(s, t)| + n && (n > 0 ==> Settled(s', t))
    ensures Free(s', t) && Counted(s', t, base + n)
    ensures Count(OpsOf(s, policy, actions, t), true) == n && Count(OpsOf(s, policy, actions, t), false) == 0
    decreases n
  {
    hide OpsOf, Count, Leads, StackOf, DeployRound, Inv, Run, Settled;
    if n == 0 {
      actions, s' := [], s;
      assert Inv(s);
      NoActions(s, policy, t);
    } else {
      CountedFree(s, t, base);
      var needed, mid := DeploymentCanBeDone(s, policy, base, t, profile, VersionOf(base), started);
      var first := DeployRound(needed, base, t, profile, VersionOf(base), s.nextJob, started);
      DeployPushes(s, policy, needed, base, t, profile, VersionOf(base), s.nextJob, started, mid);
      SettledIsFree(mid, t);
      assert Counted(mid, t, base + 1);
      hide Free, DeployedTo, Counted;
      var rest;
      rest, s' := DeploymentsCanBeDone(mid, policy, t, profile, n - 1, base + 1, started);
      StackIsSettled(s', t);
      actions := first + rest;
      LeadsJoin(s, policy, first, mid, rest, s');
      LeadsRuns(s, policy, first, mid);
      RunJoins(s, policy, first, rest, t);
      CountJoins(OpsOf(s, policy, first, t), OpsOf(mid, policy, rest, t), true);
      CountJoins(OpsOf(s, policy, first, t), OpsOf(mid, policy, rest, t), false);
    }
  }

  lemma SettledIsFree(s: State, t: Target)
    requires Settled(s, t)
    ensures Free(s, t)
  {
    hide Inv;
  }

  lemma CountedFree(s: State, t: Target, base: nat)
    requires Counted(s, t, base)
    ensures base !in s.releases && VersionOf(base) != "" && VersionFree(s, None, t, VersionOf(base))
  {
    assert |VersionOf(base)| == base + 1;
  }

  lemma EmptyIsFree(t: Target)
    ensures Free(EMPTY, t) && StartedBy(EMPTY, t, 0) && Counted(EMPTY, t, 0) && StackOf(EMPTY, t) == []
  {
    InitOk();
  }

  /** Under any policy, on any target and for any n: after one deployment, n more can be
      deployed and then rolled back again, every request and every call answered Done;
      and the target is back at the first deployment. */
  lemma {:induction false} ThereAndBack(policy: Policy, t: Target, profile: ProfileId, n: nat)
    returns (before: seq<Action>, ups: seq<Action>, downs: seq<Action>)
    ensures AllDone(EMPTY, policy, before + ups + downs)
    ensures
      var first := Run(EMPTY, policy, before);
      var top := Run(first, policy, ups);
      var last := Run(top, policy, downs);
      && |StackOf(first, t)| == 1 && |StackOf(top, t)| == n + 1 && StackOf(last, t) == StackOf(top, t)[n..]
      && (forall i :: 0 <= i < n ==> WentDown(top, last, t, i))
      && HeadOf(last, t) == HeadOf(first, t) && HeadOf(first, t).Some?
  {
    EmptyIsFree(t);
    hide Free, Settled, Leads, StackOf, Counted, OpsOf, Run, AllDone;
    var first, top, last;
    before, first := DeploymentsCanBeDone(EMPTY, policy, t, profile, 1, 0, 0);
    ups, top := DeploymentsCanBeDone(first, policy, t, profile, n, 1, 0);
    StackIsSettled(top, t);
    downs, last := RollbacksCanBeDone(top, policy, t, n, 0);
    LeadsJoin(EMPTY, policy, before, first, ups, top);
    LeadsJoin(EMPTY, policy, before + ups, top, downs, last);
    LeadsRuns(EMPTY, policy, before, first);
    LeadsRuns(first, policy, ups, top);
    LeadsRuns(top, policy, downs, last);
    LeadsDone(EMPTY, policy, before + ups + downs, last);
    DeploysThenRollbacks(policy, before, ups, downs, t);
    HasHead(first, t);
  }

  lemma LeadsDone(s: State, policy: Policy, actions: seq<Action>, s': State)
    requires Leads(s, policy, actions, s')
    ensures AllDone(s, policy, actions)
  {
    hide Inv;
  }

  lemma StackIsSettled(s: State, t: Target)
    requires Free(s, t) && |StackOf(s, t)| > 0
    ensures Settled(s, t)
  {
    hide Inv, Settled;
  }

  lemma HasHead(s: State, t: Target)
    requires |StackOf(s, t)| > 0
    ensures HeadOf(s, t).Some?
  {
  }
}
