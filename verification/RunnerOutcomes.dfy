/** What the runner's calls mean: exactly when each is answered Done, and what the
    tables then say. Everything is said through the tables. */
module RunnerOutcomes {
  import opened Common
  import opened Domain
  import opened Transitions
  import opened Invariants
  import opened Fencing

  predicate Runs(status: Status) {
    || status == Validating || status == PreCheck || status == Extracting || status == ImageInspect
    || status == ImageLoad || status == ImageTag || status == ImagePush || status == Deploying
    || status == Verifying || status == RollingBack
  }

  /** The worker executes the job: the job row says so. In reachable states the lock row
      of the target says the same. */
  predicate Holds(s: State, w: WorkerId, j: JobId) {
    j in s.jobs && s.jobs[j].lockedBy == Some(w) && Runs(s.jobs[j].status)
  }

  /** All images of the deployment to go back to are recorded with their digests. */
  ghost predicate ImagesRecorded(s: State, job: Job) {
    && job.source.Some?
    && var b := job.source.value;
       && b.job in s.jobs && s.jobs[b.job].release == b.release && s.jobs[b.job].target == job.target
       && s.jobs[b.job].operation == Deploy && s.jobs[b.job].status == Success
       && b.job in s.images && |s.images[b.job]| > 0
       && forall path :: path in s.images[b.job] ==>
            path != "" && s.images[b.job][path].destination != "" && s.images[b.job][path].digest.Some?
  }

  /** A waiting job can be taken and carried out. */
  ghost predicate Takeable(s: State, pick: Option<JobId>, loadable: bool) {
    && pick.Some? && pick.value in s.jobs && s.jobs[pick.value].status == Queued && loadable
    && (s.jobs[pick.value].operation == Rollback ==> ImagesRecorded(s, s.jobs[pick.value]))
  }

  /** The job and its release get a status; the job's other columns as given. */
  ghost predicate JobBecomes(s: State, s': State, j: JobId, job: Job, locks: map<Target, Lock>) {
    && job.release in s.releases
    && s' == s.(jobs := s.jobs[j := job], locks := locks,
                releases := s.releases[job.release := s.releases[job.release].(status := job.status)])
  }

  lemma {:induction false} ReadyMeans(s: State, job: Job)
    ensures RollbackImagesReady(s, job) <==> ImagesRecorded(s, job)
  {
  }

  lemma {:induction false} WaitingHasNoLock(s: State, j: JobId)
    requires Inv(s) && j in s.jobs && s.jobs[j].status.Queued?
    ensures s.jobs[j].target !in s.locks && DropLocks(s.locks, j) == s.locks && s.jobs[j].release in s.releases
  {
    JobFacts(s, j);
    var t := s.jobs[j].target;
    if t in s.locks {
      assert LockOk(s, t);
      assert Apart(s, j, s.locks[t].job);
    }
    forall u | u in s.locks ensures s.locks[u].job != j { assert LockOk(s, u); }
  }

  /** A claim, exactly: a waiting job that can be carried out becomes VALIDATING under
      the worker, with the lock row of its target; one that cannot fails at once. */
  lemma {:induction false} ClaimExactly(s: State, w: WorkerId, pick: Option<JobId>, loadable: bool)
    requires Inv(s)
    ensures
      var (s', reply) := ClaimJob(s, w, pick, loadable);
      var waits := pick.Some? && pick.value in s.jobs && s.jobs[pick.value].status == Queued;
      && (reply.Done? <==> Takeable(s, pick, loadable))
      && (reply.Done? ==>
            var job := s.jobs[pick.value];
            JobBecomes(s, s', pick.value, job.(status := Validating, attempts := 1, lockedBy := Some(w)),
                       s.locks[job.target := Lock(pick.value, w)]))
      && (!reply.Done? && waits ==>
            JobBecomes(s, s', pick.value, s.jobs[pick.value].(status := Failed), s.locks))
      && (!waits ==> s' == s)
  {
    if pick.Some? && pick.value in s.jobs && s.jobs[pick.value].status.Queued? {
      WaitingHasNoLock(s, pick.value);
      JobFacts(s, pick.value);
      ReadyMeans(s, s.jobs[pick.value]);
    }
    hide Inv, RollbackImagesReady, ImagesRecorded, DropLocks;
  }

  /** The lease, in a reachable state. */
  lemma {:induction false} LeaseMeans(s: State, w: WorkerId, j: JobId)
    requires Inv(s)
    ensures OwnsJob(s, w, j) <==> Holds(s, w, j)
    ensures HoldsLease(s, w, j) <==> Holds(s, w, j)
    ensures Holds(s, w, j) ==>
              && s.jobs[j].release in s.releases && s.releases[s.jobs[j].release].target == s.jobs[j].target
              && s.jobs[j].target in s.locks && s.locks[s.jobs[j].target] == Lock(j, w)
  {
    if j in s.jobs {
      JobFacts(s, j);
      if OwnsJob(s, w, j) {
        OwnerHasLock(s, w, j);
        LockFacts(s, j);
      }
    }
    hide Inv;
  }

  function RowsAt<T>(rows: map<JobId, seq<T>>, j: JobId): seq<T> { if j in rows then rows[j] else [] }

  function ImagesAt(s: State, j: JobId): map<string, Image> { if j in s.images then s.images[j] else map[] }

  /** Beginning and finishing a step, storing output and recording an image, exactly:
      each takes effect if and only if the worker holds the job. */
  lemma {:induction false} BeginExactly(s: State, w: WorkerId, j: JobId, name: StepName)
    requires Inv(s)
    ensures
      var (s', reply) := BeginStep(s, w, j, name);
      && (reply.Done? <==> Holds(s, w, j))
      && (reply.Done? ==>
            JobBecomes(s.(steps := s.steps[j := RowsAt(s.steps, j) + [Step(name, Running)]]), s', j,
                       s.jobs[j].(status := name), s.locks))
      && (!reply.Done? ==> s' == s)
  {
    LeaseMeans(s, w, j);
    hide Inv;
  }

  lemma {:induction false} FinishStepExactly(s: State, w: WorkerId, j: JobId, number: nat, success: bool)
    requires Inv(s)
    ensures
      var (s', reply) := FinishStep(s, w, j, number, success);
      && (reply.Done? <==> Holds(s, w, j) && number < |RowsAt(s.steps, j)|)
      && (reply.Done? ==>
            var step := RowsAt(s.steps, j)[number].(state := if success then Succeeded else Broken);
            s' == s.(steps := s.steps[j := RowsAt(s.steps, j)[number := step]]))
      && (!reply.Done? ==> s' == s)
  {
    LeaseMeans(s, w, j);
    hide Inv, HasLockRow;
  }

  lemma {:induction false} LogExactly(s: State, w: WorkerId, j: JobId, row: LogRow)
    requires Inv(s)
    ensures
      var (s', reply) := AppendLog(s, w, j, row);
      && (reply.Done? <==> Holds(s, w, j) && row.step < |RowsAt(s.steps, j)|)
      && (reply.Done? ==> s' == s.(logs := s.logs[j := RowsAt(s.logs, j) + [row]]))
      && (!reply.Done? ==> s' == s)
  {
    LeaseMeans(s, w, j);
    hide Inv, HasLockRow;
  }

  /** A recorded digest is never lost; anything else of the row is as last recorded. */
  lemma {:induction false} ImageExactly(s: State, w: WorkerId, j: JobId, path: string, image: Image)
    requires Inv(s)
    ensures
      var (s', reply) := RecordImage(s, w, j, path, image);
      var before := ImagesAt(s, j);
      var known := if path in before then before[path].digest else None;
      && (reply.Done? <==> Holds(s, w, j))
      && (reply.Done? ==>
            var digest := if image.digest.Some? then image.digest else known;
            s' == s.(images := s.images[j := before[path := Image(image.destination, digest)]]))
      && (!reply.Done? ==> s' == s)
  {
    LeaseMeans(s, w, j);
    hide Inv, HasLockRow;
  }

  /** A worker may end its job as FAILED, and successfully in the way of its operation. */
  predicate MayEnd(s: State, w: WorkerId, j: JobId, status: Status) {
    && Holds(s, w, j)
    && (status == Failed || (status == Success && s.jobs[j].operation == Deploy)
        || (status == RolledBack && s.jobs[j].operation == Rollback))
  }

  /** What is deployed after a job ended. */
  ghost predicate HeadAfterEnd(s: State, s': State, j: JobId, status: Status)
    requires j in s.jobs
  {
    var job := s.jobs[j];
    && (forall t :: t != job.target ==>
         (t in s'.heads <==> t in s.heads) && (t in s.heads ==> s'.heads[t] == s.heads[t]))
    && (status == Failed ==> s'.heads == s.heads)
    && (status == Success ==> job.target in s'.heads && s'.heads[job.target] == Basis(job.release, j))
    && (status == RolledBack ==> job.source.Some? && job.target in s'.heads && s'.heads[job.target] == job.source.value)
  }

  /** The end of a job, exactly: job and release get the status, the lock row goes, and
      what is deployed follows. */
  lemma {:induction false} FinishExactly(s: State, w: WorkerId, j: JobId, status: Status)
    requires Inv(s)
    ensures
      var (s', reply) := FinishJob(s, w, j, status);
      && (reply.Done? <==> MayEnd(s, w, j, status))
      && (reply.Done? ==>
            && JobBecomes(s.(heads := s'.heads), s', j, s.jobs[j].(status := status), s.locks - {s.jobs[j].target})
            && HeadAfterEnd(s, s', j, status))
      && (!reply.Done? ==> s' == s)
  {
    LeaseMeans(s, w, j);
    if Holds(s, w, j) {
      OnlyLease(s, w, j);
      HeadMeans(s, w, j, status);
    }
    hide Inv, HasLockRow, DropLease, NewHead;
    if MayEnd(s, w, j, status) {
      EndedTables(s, w, j, status);
      hide FinishJob;
    }
  }

  /** The head a terminal write installs, where the status fits the operation. */
  lemma {:induction false} HeadMeans(s: State, w: WorkerId, j: JobId, status: Status)
    requires Inv(s) && Holds(s, w, j)
    ensures
      var job := s.jobs[j];
      NewHead(s, j, status) ==
        if status == Success && job.operation == Deploy then Some(Basis(job.release, j))
        else if status == RolledBack && job.operation == Rollback then job.source else None
    ensures s.jobs[j].operation == Rollback ==> s.jobs[j].source.Some?
  {
    JobFacts(s, j);
    hide Inv;
  }

  lemma {:induction false} EndedTables(s: State, w: WorkerId, j: JobId, status: Status)
    requires Inv(s) && MayEnd(s, w, j, status)
    ensures
      var (s', reply) := FinishJob(s, w, j, status);
      var job := s.jobs[j];
      var t := job.target;
      && reply.Done? && job.release in s.releases
      && s'.jobs == s.jobs[j := job.(status := status)]
      && s'.releases == s.releases[job.release := s.releases[job.release].(status := status)]
      && s'.locks == s.locks - {t}
      && s'.heads == (if status == Failed then s.heads
                      else if status == Success then s.heads[t := Basis(job.release, j)]
                      else if job.source.Some? then s.heads[t := job.source.value] else s.heads)
      && s' == s.(jobs := s'.jobs, releases := s'.releases, locks := s'.locks, heads := s'.heads)
  {
    LeaseMeans(s, w, j);
    OnlyLease(s, w, j);
    HeadMeans(s, w, j, status);
    hide Inv, HasLockRow, DropLease, NewHead;
  }

  lemma {:induction false} OnlyLease(s: State, w: WorkerId, j: JobId)
    requires Inv(s) && Holds(s, w, j)
    ensures DropLease(s.locks, j, w) == s.locks - {s.jobs[j].target}
  {
    LeaseMeans(s, w, j);
    forall t | t in s.locks ensures s.locks[t] == Lock(j, w) <==> t == s.jobs[j].target { assert LockOk(s, t); }
  }
}
