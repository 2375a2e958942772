/** One process of the pipeline as it runs when nobody interferes: the step loop,
    the image loops inside a step, and the terminal write, over the runner's store. */
module Processor {
  import opened Common
  import opened Domain
  import opened Pipeline
  import opened PipelineMoves
  import opened RunnerStore
  import Invariants
  import Outcomes = RunnerOutcomes
  import T = Transitions

  /** The upsert of one image row. */
  function Upsert(images: map<string, Image>, row: Planned): map<string, Image> {
    var given := row.image.digest;
    var digest := if row.path in images then given.OrElse(images[row.path].digest) else given;
    images[row.path := row.image.(digest := digest)]
  }

  function UpsertAll(images: map<string, Image>, rows: seq<Planned>): map<string, Image> {
    if |rows| == 0 then images else Upsert(UpsertAll(images, rows[..|rows| - 1]), rows[|rows| - 1])
  }

  /** The rows a step records. */
  function RowsOfStep(p: Proc, i: nat, digests: seq<string>): seq<Planned>
    requires i < |p.Plan()| && |digests| == |p.images|
  {
    seq(RecordsIn(p, i), k requires 0 <= k < RecordsIn(p, i) =>
      Planned(p.images[k].path, RecordOf(p, i, k, digests[k])))
  }

  const ANY := Policy(false, {}, {}, false, false)

  /** A step that went through: one finished row more, its records made, the job
      still the worker's. */
  ghost predicate Stepped(v: View, v': View, w: WorkerId, name: StepName, rows: seq<Planned>) {
    && v.job.Some? && v.job.value.lockedBy == Some(w)
    && v' == View(Some(v.job.value.(status := name)), v.steps + [Domain.Step(name, Succeeded)],
       UpsertAll(v.images, rows))
  }

  /** In the middle of a step, some of its records made. */
  ghost predicate InStep(v: View, v': View, name: StepName, rows: seq<Planned>) {
    && v.job.Some?
    && v' == View(Some(v.job.value.(status := name)), v.steps + [Domain.Step(name, Running)], UpsertAll(v.images, rows))
  }

  /** What can go wrong in a step: its own work, after some image records; or a
      writer reports that a row of output was not stored. */
  datatype Trouble = WorkFails(after: nat) | LogFails

  /** The records a step makes before the trouble. */
  function Made(trouble: Option<Trouble>, rows: seq<Planned>): seq<Planned> {
    if trouble.Some? && trouble.value.WorkFails? && trouble.value.after < |rows| then rows[..trouble.value.after]
    else rows
  }

  /** A step that failed: one broken row more, and the records made before. */
  ghost predicate Broke(v: View, v': View, name: StepName, rows: seq<Planned>) {
    && v.job.Some?
    && v' == View(Some(v.job.value.(status := name)), v.steps + [Domain.Step(name, Broken)], UpsertAll(v.images, rows))
  }

  class Processor {
    const repository: PGStore

    constructor (repository: PGStore)
      ensures this.repository == repository
    {
      this.repository := repository;
    }

    /** With the lease a step succeeds exactly when nothing goes wrong in it, and is
        recorded as broken otherwise; a worker that lost the job changes nothing. */
    method WithStep(j: JobId, name: StepName, rows: seq<Planned>, trouble: Option<Trouble>) returns (ok: bool)
      modifies repository.pool
      ensures
        var s, s', w := old(repository.pool.Rows()), repository.pool.Rows(), repository.workerID;
        && (ok ==> trouble.None? && Stepped(ViewOf(s, j), ViewOf(s', j), w, name, rows))
        && (T.HoldsLease(s, w, j) ==> T.HoldsLease(s', w, j) && (ok <==> trouble.None?))
        && (T.HoldsLease(s, w, j) && !ok ==> Broke(ViewOf(s, j), ViewOf(s', j), name, Made(trouble, rows)))
        && (!T.OwnsJob(s, w, j) ==> !ok && s' == s)
        && (Invariants.Inv(s) ==> Invariants.Inv(s'))
    {
      hide T.BeginStep, T.RecordImage, T.FinishStep, T.OwnsJob, T.HasLockRow, Upsert, Invariants.Inv;
      var w := repository.workerID;
      ghost var s := repository.pool.Rows();
      ghost var leased := T.HoldsLease(s, w, j);
      BeginLease(s, w, j, name);
      StepCallsKeep(s, w, j, name, Planned("", Image("", None)), 0, false);
      var reply, number := repository.BeginStep(j, name);
      if !reply.Done? {
        return false;
      }
      BeginView(s, w, j, name);
      ghost var v := ViewOf(s, j);
      ok := true;
      var made := Made(trouble, rows);
      var k := 0;
      while ok && k < |made|
        invariant 0 <= k <= |made|
        invariant ok ==> InStep(v, ViewOf(repository.pool.Rows(), j), name, made[..k])
        invariant leased ==> ok && T.HoldsLease(repository.pool.Rows(), w, j)
        invariant Invariants.Inv(s) ==> Invariants.Inv(repository.pool.Rows())
        decreases |made| - k
      {
        ghost var before := repository.pool.Rows();
        RecordLease(before, w, j, made[k]);
        StepCallsKeep(before, w, j, name, made[k], 0, false);
        reply := repository.RecordImage(j, made[k].path, made[k].image);
        ok := reply.Done?;
        if ok {
          RecordView(before, w, j, made[k]);
          assert made[..k + 1][..k] == made[..k];
        }
        k := k + 1;
      }
      ok := ok && trouble.None?;
      assert ok || leased ==> made[..k] == made;
      ghost var before := repository.pool.Rows();
      FinishLease(before, w, j, number, ok);
      StepCallsKeep(before, w, j, name, Planned("", Image("", None)), number, ok);
      reply := repository.FinishStep(j, number, ok);
      if reply.Done? && (ok || leased) { FinishView(before, w, j, number, name, ok, v.steps); }
      ok := ok && reply.Done?;
    }

    /** All steps of the plan in order, until one fails: then the steps before it are
        finished, it is broken, and no later one was begun. */
    method Run(j: JobId, p: Proc, digests: seq<string>, troubles: map<nat, Trouble>) returns (ok: bool)
      requires |digests| == |p.images|
      modifies repository.pool
      ensures
        var s, s', w := old(repository.pool.Rows()), repository.pool.Rows(), repository.workerID;
        && (ok ==> Ran(ViewOf(s, j), ViewOf(s', j), w, p, digests, |p.Plan()|)
                   && CarriedOut(p.operation, p.preCheck, NewSteps(ViewOf(s, j), ViewOf(s', j))))
        && (T.HoldsLease(s, w, j) ==> T.HoldsLease(s', w, j) && (ok <==> Smooth(p, troubles, |p.Plan()|)))
        && (T.HoldsLease(s, w, j) && !ok ==>
           exists n :: StoppedAt(ViewOf(s, j), ViewOf(s', j), p, digests, troubles, n))
        && (!T.OwnsJob(s, w, j) ==> !ok && s' == s)
        && (Invariants.Inv(s) ==> Invariants.Inv(s'))
    {
      hide PlanOf, Finished, RowsOfStep, UpsertAll, T.HoldsLease, T.OwnsJob, Made, CarriedOut, Invariants.Inv;
      hide RecordedBy, Ran, Stepped, Broke, T.StepsOf, T.ImagesOf, StoppedAt, Proc.Plan, NewSteps, ViewOf;
      var w := repository.workerID;
      ghost var s := repository.pool.Rows();
      ghost var v, leased := ViewOf(s, j), T.HoldsLease(s, w, j);
      LeaseOwns(s, w, j);
      NothingRan(v, p);
      PlanIsNotEmpty(p);
      var i := 0;
      while i < |p.Plan()|
        invariant 0 <= i <= |p.Plan()|
        invariant i == 0 ==> repository.pool.Rows() == s
        invariant i > 0 ==> T.OwnsJob(s, w, j) && Ran(v, ViewOf(repository.pool.Rows(), j), w, p, digests, i)
        invariant leased ==> T.HoldsLease(repository.pool.Rows(), w, j) && Smooth(p, troubles, i)
        invariant Invariants.Inv(s) ==> Invariants.Inv(repository.pool.Rows())
      {
        ghost var before := ViewOf(repository.pool.Rows(), j);
        var trouble := if i in troubles then Some(troubles[i]) else None;
        ok := WithStep(j, p.Plan()[i], RowsOfStep(p, i, digests), trouble);
        ghost var after := ViewOf(repository.pool.Rows(), j);
        if !ok {
          if leased { StepStopped(v, before, after, w, p, digests, troubles, i); }
          return;
        }
        StepRan(v, before, after, w, p, digests, i);
        i := i + 1;
      }
      RanCarriesOut(v, ViewOf(repository.pool.Rows(), j), w, p, digests);
      return true;
    }

    /** The whole process of a claimed job: success means that the terminal status was
        written after every step of the plan. If anything goes wrong while the lease
        is held, before, in or after the steps, the job ends as FAILED with what was
        done until then, and otherwise it ends well; a worker that lost the job changes
        nothing. */
    method Process(
        j: JobId, p: Proc, digests: seq<string>, setupFails: bool, troubles: map<nat, Trouble>, lateFails: bool)
      returns (ok: bool)
      requires |digests| == |p.images|
      modifies repository.pool
      ensures
        var v, v' := ViewOf(old(repository.pool.Rows()), j), ViewOf(repository.pool.Rows(), j);
        ok ==>
          && v.job.Some? && v'.job == Some(v.job.value.(status := if p.operation.Deploy? then Success else RolledBack))
          && v'.steps == v.steps + Finished(p.Plan(), |p.Plan()|)
          && CarriedOut(p.operation, p.preCheck, NewSteps(v, v'))
          && v'.images == RecordedBy(v.images, p, digests, |p.Plan()|)
          && (p.operation.Deploy? ==> forall m :: 0 <= m < |p.images| ==> HasDigest(v'.images, p.images[m].path))
      ensures
        var s, s', w := old(repository.pool.Rows()), repository.pool.Rows(), repository.workerID;
        && (T.HoldsLease(s, w, j) && (setupFails || lateFails || !Smooth(p, troubles, |p.Plan()|)) ==>
              !ok && exists mid :: FailedFrom(mid, ViewOf(s', j)) &&
                                   Reached(ViewOf(s, j), mid, w, p, digests, setupFails, troubles))
        && (!T.OwnsJob(s, w, j) ==> !ok && s' == s)
      ensures
        var s, w := old(repository.pool.Rows()), repository.workerID;
        Invariants.Inv(s) && T.HoldsLease(s, w, j) && s.jobs[j].operation == p.operation ==>
          (ok <==> !setupFails && !lateFails && Smooth(p, troubles, |p.Plan()|))
    {
      hide PlanOf, Finished, T.FinishJob, RecordedBy, T.HoldsLease, T.OwnsJob, Smooth, CarriedOut, Invariants.Inv;
      var w := repository.workerID;
      ghost var s := repository.pool.Rows();
      ghost var leased := T.HoldsLease(s, w, j);
      ok := !setupFails;
      if ok {
        ok := Run(j, p, digests, troubles);
        ok := ok && !lateFails;
      }
      ghost var before := repository.pool.Rows();
      EndNeedsLease(before, w, j);
      if !ok {
        var reply := repository.FinishJob(j, Failed);
        if reply.Done? { EndView(before, w, j, Failed); }
        if leased { assert Reached(ViewOf(s, j), ViewOf(before, j), w, p, digests, setupFails, troubles); }
        return false;
      }
      var status := TerminalOf(p.operation);
      if leased && Invariants.Inv(s) { EndTaken(before, w, j); }
      var reply := repository.FinishJob(j, status);
      ok := reply.Done?;
      if ok {
        EndView(before, w, j, status);
        if p.operation.Deploy? { PushedAll(ViewOf(s, j).images, p, digests); }
      }
    }
  }

  /** The step rows a process added. */
  function NewSteps(v: View, v': View): seq<Domain.Step> {
    if |v.steps| <= |v'.steps| then v'.steps[|v.steps|..] else []
  }

  /** Nothing goes wrong in the first n steps. */
  predicate Smooth(p: Proc, troubles: map<nat, Trouble>, n: nat) {
    forall i :: 0 <= i < n ==> i !in troubles
  }

  /** The first trouble was in step n: the steps before it are finished, and so are
      their records; step n is broken, with the records made before the trouble. */
  ghost predicate StoppedAt(v: View, v': View, p: Proc, digests: seq<string>, troubles: map<nat, Trouble>, n: nat) {
    && n < |p.Plan()| && |digests| == |p.images| && v.job.Some? && n in troubles && Smooth(p, troubles, n)
    && v' == View(Some(v.job.value.(status := p.Plan()[n])),
                  v.steps + Finished(p.Plan(), n) + [Domain.Step(p.Plan()[n], Broken)],
                  UpsertAll(RecordedBy(v.images, p, digests, n), Made(Some(troubles[n]), RowsOfStep(p, n, digests))))
  }

  ghost predicate FailedFrom(v: View, v': View) {
    v.job.Some? && v' == v.(job := Some(v.job.value.(status := Failed)))
  }

  /** Where a process that goes wrong comes to before it writes FAILED. */
  ghost predicate Reached(
    v: View, mid: View, w: WorkerId, p: Proc, digests: seq<string>, setupFails: bool, troubles: map<nat, Trouble>)
    requires |digests| == |p.images|
  {
    if setupFails then mid == v
    else if Smooth(p, troubles, |p.Plan()|) then Ran(v, mid, w, p, digests, |p.Plan()|)
    else exists n :: StoppedAt(v, mid, p, digests, troubles, n)
  }

  /** The image rows after the first n steps. */
  function RecordedBy(images: map<string, Image>, p: Proc, digests: seq<string>, n: nat): map<string, Image>
    requires n <= |p.Plan()| && |digests| == |p.images|
  {
    if n == 0 then images else UpsertAll(RecordedBy(images, p, digests, n - 1), RowsOfStep(p, n - 1, digests))
  }

  /** After n steps of the plan. */
  ghost predicate Ran(v: View, v': View, w: WorkerId, p: Proc, digests: seq<string>, n: nat)
    requires n <= |p.Plan()| && |digests| == |p.images|
  {
    && n > 0 && v.job.Some? && v.job.value.lockedBy == Some(w)
    && v' == View(Some(v.job.value.(status := p.Plan()[n - 1])),
                  v.steps + Finished(p.Plan(), n), RecordedBy(v.images, p, digests, n))
  }

  lemma {:induction false} RanCarriesOut(v: View, v': View, w: WorkerId, p: Proc, digests: seq<string>)
    requires |digests| == |p.images| && Ran(v, v', w, p, digests, |p.Plan()|)
    ensures CarriedOut(p.operation, p.preCheck, NewSteps(v, v'))
  {
    hide PlanOf, CarriedOut, RecordedBy;
    PlanCarriesOut(p.operation, p.preCheck);
    var steps := Finished(p.Plan(), |p.Plan()|);
    assert (v.steps + steps)[|v.steps|..] == steps;
  }

  lemma {:induction false} NothingRan(v: View, p: Proc)
    ensures v.steps + Finished(p.Plan(), 0) == v.steps
  {
    hide PlanOf;
  }

  lemma {:induction false} PlanIsNotEmpty(p: Proc)
    ensures |p.Plan()| > 0
  {
  }

  lemma {:induction false} StepRan(
      v: View, before: View, after: View, w: WorkerId, p: Proc, digests: seq<string>, i: nat)
    requires i < |p.Plan()| && |digests| == |p.images|
    requires if i == 0 then before == v else Ran(v, before, w, p, digests, i)
    requires Stepped(before, after, w, p.Plan()[i], RowsOfStep(p, i, digests))
    ensures Ran(v, after, w, p, digests, i + 1)
  {
    hide PlanOf, RowsOfStep, UpsertAll;
    var done, step := Finished(p.Plan(), i), Domain.Step(p.Plan()[i], Succeeded);
    assert Finished(p.Plan(), i + 1) == done + [step];
    if i == 0 { NothingRan(v, p); }
    assert before.steps == v.steps + done;
    assert (v.steps + done) + [step] == v.steps + (done + [step]);
    assert after.steps == v.steps + Finished(p.Plan(), i + 1);
    assert RecordedBy(v.images, p, digests, i + 1) ==
      UpsertAll(RecordedBy(v.images, p, digests, i), RowsOfStep(p, i, digests));
  }

  lemma {:induction false} BeginView(s: State, w: WorkerId, j: JobId, name: StepName)
    requires T.BeginStep(s, w, j, name).1.Done?
    ensures
      var v, v' := ViewOf(s, j), ViewOf(T.BeginStep(s, w, j, name).0, j);
      && v.job.Some? && v.job.value.lockedBy == Some(w)
      && v' == View(Some(v.job.value.(status := name)), v.steps + [Domain.Step(name, Running)], v.images)
      && |T.StepsOf(T.BeginStep(s, w, j, name).0, j)| == |v.steps| + 1
  {
    CallOwn(s, ANY, T.ABeginStep(w, j, name), j);
    hide T.WriteJob, T.ImagesOf;
  }

  lemma {:induction false} RecordView(s: State, w: WorkerId, j: JobId, row: Planned)
    requires T.RecordImage(s, w, j, row.path, row.image).1.Done?
    ensures
      var v := ViewOf(s, j);
      ViewOf(T.RecordImage(s, w, j, row.path, row.image).0, j) == v.(images := Upsert(v.images, row))
  {
    CallOwn(s, ANY, T.AImage(w, j, row.path, row.image), j);
    hide T.StepsOf, T.HoldsLease;
  }

  lemma {:induction false} FinishView(
    s: State, w: WorkerId, j: JobId, number: nat, name: StepName, success: bool, before: seq<Domain.Step>)
    requires T.FinishStep(s, w, j, number, success).1.Done?
    requires ViewOf(s, j).steps == before + [Domain.Step(name, Running)] && number == |before|
    ensures
      ViewOf(T.FinishStep(s, w, j, number, success).0, j) ==
      ViewOf(s, j).(steps := before + [Domain.Step(name, if success then Succeeded else Broken)])
  {
    CallOwn(s, ANY, T.AFinishStep(w, j, number, success), j);
    hide T.HoldsLease, T.ImagesOf;
    var steps, state := before + [Domain.Step(name, Running)], if success then Succeeded else Broken;
    assert steps[number := steps[number].(state := state)] == before + [Domain.Step(name, state)];
  }

  // ------------------------------------------------------- a process keeps its lease

  lemma {:induction false} LeaseOwns(s: State, w: WorkerId, j: JobId)
    ensures T.HoldsLease(s, w, j) ==> T.OwnsJob(s, w, j)
  {
  }

  lemma {:induction false} LeaseCarries(s: State, s': State, w: WorkerId, j: JobId)
    requires T.HoldsLease(s, w, j) && T.OwnsJob(s', w, j) && s'.locks == s.locks
    ensures T.HoldsLease(s', w, j)
  {
    var t :| t in s.locks && s.locks[t] == Lock(j, w);
    assert t in s'.locks && s'.locks[t] == Lock(j, w);
  }

  lemma {:induction false} BeginLease(s: State, w: WorkerId, j: JobId, name: StepName)
    ensures
      var (s', reply) := T.BeginStep(s, w, j, name);
      && (T.HoldsLease(s, w, j) ==> reply.Done? && T.HoldsLease(s', w, j))
      && (!T.OwnsJob(s, w, j) ==> !reply.Done?)
      && (!reply.Done? ==> s' == s)
  {
    hide T.WriteJob, T.HasLockRow;
    if T.HoldsLease(s, w, j) { LeaseCarries(s, T.BeginStep(s, w, j, name).0, w, j); }
  }

  lemma {:induction false} RecordLease(s: State, w: WorkerId, j: JobId, row: Planned)
    ensures
      var (s', reply) := T.RecordImage(s, w, j, row.path, row.image);
      T.HoldsLease(s, w, j) ==> reply.Done? && T.HoldsLease(s', w, j)
  {
    hide T.HasLockRow;
    if T.HoldsLease(s, w, j) { LeaseCarries(s, T.RecordImage(s, w, j, row.path, row.image).0, w, j); }
  }

  lemma {:induction false} FinishLease(s: State, w: WorkerId, j: JobId, number: nat, success: bool)
    ensures
      var (s', reply) := T.FinishStep(s, w, j, number, success);
      T.HoldsLease(s, w, j) && number < |ViewOf(s, j).steps| ==> reply.Done? && T.HoldsLease(s', w, j)
  {
    hide T.HasLockRow;
    if T.HoldsLease(s, w, j) && number < |T.StepsOf(s, j)| {
      LeaseCarries(s, T.FinishStep(s, w, j, number, success).0, w, j);
    }
  }

  lemma {:induction false} EndNeedsLease(s: State, w: WorkerId, j: JobId)
    ensures T.HoldsLease(s, w, j) ==> T.FinishJob(s, w, j, Failed).1.Done?
    ensures !T.OwnsJob(s, w, j) ==> T.FinishJob(s, w, j, Failed) == (s, Refused(LostLease))
  {
    hide T.HasLockRow;
  }

  /** The calls of a step keep the tables' invariant. */
  lemma {:induction false} StepCallsKeep(
      s: State, w: WorkerId, j: JobId, name: StepName, row: Planned, number: nat, success: bool)
    ensures Invariants.Inv(s) ==>
      && Invariants.Inv(T.BeginStep(s, w, j, name).0)
      && Invariants.Inv(T.RecordImage(s, w, j, row.path, row.image).0)
      && Invariants.Inv(T.FinishStep(s, w, j, number, success).0)
  {
    hide Invariants.Inv, T.BeginStep, T.RecordImage, T.FinishStep;
    if Invariants.Inv(s) {
      Invariants.NextKeeps(s, ANY, T.ABeginStep(w, j, name));
      Invariants.NextKeeps(s, ANY, T.AImage(w, j, row.path, row.image));
      Invariants.NextKeeps(s, ANY, T.AFinishStep(w, j, number, success));
    }
  }

  /** The holder of a job can end it in the way of its operation. */
  lemma {:induction false} EndTaken(s: State, w: WorkerId, j: JobId)
    requires Invariants.Inv(s) && T.HoldsLease(s, w, j)
    ensures T.FinishJob(s, w, j, TerminalOf(s.jobs[j].operation)).1.Done?
  {
    Outcomes.LeaseMeans(s, w, j);
    Outcomes.FinishExactly(s, w, j, TerminalOf(s.jobs[j].operation));
    hide Invariants.Inv, T.FinishJob;
  }

  lemma {:induction false} StepStopped(
    v: View, before: View, after: View, w: WorkerId, p: Proc, digests: seq<string>, troubles: map<nat, Trouble>, i: nat)
    requires i < |p.Plan()| && |digests| == |p.images| && i in troubles && Smooth(p, troubles, i)
    requires if i == 0 then before == v else Ran(v, before, w, p, digests, i)
    requires Broke(before, after, p.Plan()[i], Made(Some(troubles[i]), RowsOfStep(p, i, digests)))
    ensures StoppedAt(v, after, p, digests, troubles, i)
  {
    hide PlanOf, RowsOfStep, UpsertAll, Smooth, Made;
    if i == 0 {
      NothingRan(v, p);
      assert RecordedBy(v.images, p, digests, 0) == v.images;
    }
    assert before.steps == v.steps + Finished(p.Plan(), i);
  }

  lemma {:induction false} EndView(s: State, w: WorkerId, j: JobId, status: Status)
    requires T.FinishJob(s, w, j, status).1.Done?
    ensures
      var v := ViewOf(s, j);
      v.job.Some? && ViewOf(T.FinishJob(s, w, j, status).0, j) == v.(job := Some(v.job.value.(status := status)))
  {
    CallOwn(s, ANY, T.AFinishJob(w, j, status), j);
    hide T.FinishJob;
  }

  // ------------------------------------------------------------ digests of a DEPLOY

  /** An upsert loses no digest. */
  lemma {:induction false} UpsertKeepsDigest(images: map<string, Image>, rows: seq<Planned>, path: string)
    requires HasDigest(images, path)
    ensures HasDigest(UpsertAll(images, rows), path)
  {
    if |rows| > 0 { UpsertKeepsDigest(images, rows[..|rows| - 1], path); }
  }

  lemma {:induction false} UpsertsRecord(images: map<string, Image>, rows: seq<Planned>, m: nat)
    requires m < |rows| && rows[m].image.digest.Some?
    ensures HasDigest(UpsertAll(images, rows), rows[m].path)
  {
    var n := |rows| - 1;
    if m < n { UpsertsRecord(images, rows[..n], m); }
  }

  /** After the push every package image has its digest, and keeps it. */
  lemma {:induction false} PushedAll(images: map<string, Image>, p: Proc, digests: seq<string>)
    requires p.operation.Deploy? && |digests| == |p.images|
    ensures forall m :: 0 <= m < |p.images| ==> HasDigest(RecordedBy(images, p, digests, |p.Plan()|), p.images[m].path)
  {
    hide RecordedBy, UpsertAll, HasDigest;
    forall m | 0 <= m < |p.images| ensures HasDigest(RecordedBy(images, p, digests, |p.Plan()|), p.images[m].path) {
      PushedThen(images, p, digests, |p.Plan()|, m);
    }
  }

  lemma {:induction false} PushedThen(images: map<string, Image>, p: Proc, digests: seq<string>, n: nat, m: nat)
    requires p.operation.Deploy? && |digests| == |p.images| && PushAt(p.preCheck) < n <= |p.Plan()| && m < |p.images|
    ensures HasDigest(RecordedBy(images, p, digests, n), p.images[m].path)
    decreases n
  {
    var i := n - 1;
    PushIsAt(p.preCheck, i);
    hide PlanOf, UpsertAll, HasDigest;
    var before := RecordedBy(images, p, digests, i);
    if i == PushAt(p.preCheck) {
      assert RowsOfStep(p, i, digests)[m] == Planned(p.images[m].path, RecordOf(p, i, m, digests[m]));
      UpsertsRecord(before, RowsOfStep(p, i, digests), m);
    } else {
      PushedThen(images, p, digests, i, m);
      UpsertKeepsDigest(before, RowsOfStep(p, i, digests), p.images[m].path);
    }
  }
}
