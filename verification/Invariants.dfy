/** What every reachable state of the control plane satisfies, and the proof
    that every transaction keeps it. */
module Invariants {
  import opened Common
  import opened Domain
  import opened Transitions

  // -------------------------------------------------------------- release rows

  /** The columns of one release row fit together. */
  ghost predicate RowShape(r: Release) {
    && r.operation.Rollback? == r.source.Some? == r.baseStatus.Some?
    && (r.baseStatus.Some? ==> TerminalBase(r.baseStatus))
    && (r.retrySource.Some? ==> r.operation.Deploy? && InReview(r.status))
    && (r.operation.Rollback? ==> InReview(r.status) || InFlight(r.status) || r.status.Failed? || r.status.RolledBack?)
    && (r.operation.Deploy? ==> !r.status.RolledBack?)
    && (!Editable(r.status) ==> r.artifact.Some?)
  }

  /** What a release that was deployed once looks like for ever: its request is
      settled, or a rollback of it is under way or done. */
  ghost predicate Deployed(r: Release) {
    || (r.operation.Deploy? && r.status.Success?)
    || (r.operation.Rollback? && r.baseStatus == Some(Success))
  }

  ghost predicate HasActiveJob(s: State, id: ReleaseId) {
    exists j :: j in s.jobs && s.jobs[j].release == id && !Terminal(s.jobs[j].status)
  }

  ghost predicate ReleaseOk(s: State, id: ReleaseId)
    requires id in s.releases
  {
    var r := s.releases[id];
    && RowShape(r)
    && (r.source.Some? ==> IsBasis(s, r.target, r.source.value))
    && (InFlight(r.status) ==> HasActiveJob(s, id))
  }

  // ------------------------------------------------------------------ job rows

  /** A rollback of the head returns to what the head replaced; a rollback of
      another release returns to the head. */
  ghost predicate RollbackFits(s: State, job: Job) {
    && job.target in s.heads
    && var head := s.heads[job.target];
       && head.job in s.jobs
       && job.source == if job.release == head.release then s.jobs[head.job].source else Some(head)
  }

  /** Attempts and lock holder follow the status. */
  ghost predicate ClaimShape(job: Job) {
    && (job.status.Queued? || Executing(job.status) || Terminal(job.status))
    && job.attempts <= 1
    && (job.status.Queued? ==> job.attempts == 0 && job.lockedBy.None?)
    && (Executing(job.status) ==> job.attempts == 1 && job.lockedBy.Some?)
  }

  /** Facts about an unfinished job. */
  ghost predicate ActiveOk(s: State, job: Job)
    requires job.release in s.releases
  {
    && InFlight(s.releases[job.release].status)
    && s.releases[job.release].operation == job.operation
    && (job.operation.Deploy? ==> job.source == HeadOf(s, job.target))
    && (job.operation.Rollback? ==> job.source == s.releases[job.release].source && RollbackFits(s, job))
  }

  ghost predicate JobOk(s: State, j: JobId)
    requires j in s.jobs
  {
    var job := s.jobs[j];
    && j < s.nextJob
    && job.release in s.releases
    && s.releases[job.release].target == job.target
    && ClaimShape(job)
    && (job.operation.Rollback? ==> job.source.Some?)
    && (job.source.Some? ==> job.source.value.job < j && IsBasis(s, job.target, job.source.value))
    && (!Terminal(job.status) ==> ActiveOk(s, job))
    && (job.operation.Deploy? && job.status.Success? ==> Deployed(s.releases[job.release]))
    && (job.status.Success? ==> job.operation.Deploy?)
    && (job.status.RolledBack? ==> job.operation.Rollback?)
  }

  ghost predicate LockOk(s: State, t: Target)
    requires t in s.locks
  {
    var lock := s.locks[t];
    && lock.job in s.jobs
    && Executing(s.jobs[lock.job].status)
    && s.jobs[lock.job].target == t
    && s.jobs[lock.job].lockedBy == Some(lock.worker)
  }

  /** An executing job holds the lock row of its target. */
  ghost predicate Locked(s: State, j: JobId)
    requires j in s.jobs
  {
    Executing(s.jobs[j].status) ==> s.jobs[j].target in s.locks && s.locks[s.jobs[j].target].job == j
  }

  ghost predicate HeadOk(s: State, t: Target)
    requires t in s.heads
  {
    IsBasis(s, t, s.heads[t])
  }

  /** Two unfinished jobs of one target are one job; so are two successes of one release. */
  ghost predicate Apart(s: State, i: JobId, j: JobId)
    requires i in s.jobs && j in s.jobs
  {
    var (a, b) := (s.jobs[i], s.jobs[j]);
    && (a.target == b.target && !Terminal(a.status) && !Terminal(b.status) ==> i == j)
    && (a.release == b.release && a.status.Success? && b.status.Success? ==> i == j)
  }

  /** The triggers keep the quantifiers from unfolding each other: a row's facts
      are used where the row is named. */
  ghost predicate Inv(s: State) {
    && (forall id {:trigger ReleaseOk(s, id)} :: id in s.releases ==> ReleaseOk(s, id))
    && (forall j {:trigger JobOk(s, j)} :: j in s.jobs ==> JobOk(s, j))
    && (forall j {:trigger Locked(s, j)} :: j in s.jobs ==> Locked(s, j))
    && (forall t {:trigger LockOk(s, t)} :: t in s.locks ==> LockOk(s, t))
    && (forall t {:trigger HeadOk(s, t)} :: t in s.heads ==> HeadOk(s, t))
    && (forall i, j {:trigger Apart(s, i, j)} :: i in s.jobs && j in s.jobs ==> Apart(s, i, j))
  }

  lemma InitOk()
    ensures Inv(EMPTY)
  {
  }

  // ------------------------------------- writes of a release row with no job

  /** A release row may be rewritten when no job of it is under way and what a
      deployed release looks like is kept. */
  ghost predicate Rewritable(s: State, id: ReleaseId, r: Release)
    requires id in s.releases
  {
    var before := s.releases[id];
    && r.target == before.target
    && RowShape(r)
    && (r.source.Some? ==> IsBasis(s, r.target, r.source.value))
    && !InFlight(before.status) && !InFlight(r.status)
    && (Deployed(before) ==> Deployed(r))
  }

  // -------------------------------------------------- one row at a time

  ghost predicate BasesKept(s: State, s': State) {
    forall t, b {:trigger IsBasis(s', t, b)} :: IsBasis(s, t, b) ==> IsBasis(s', t, b)
  }

  /** The row a job belongs to still carries what the job relies on. */
  ghost predicate RowKept(s: State, s': State, job: Job)
    requires job.release in s.releases
  {
    && job.release in s'.releases
    && var (r, r') := (s.releases[job.release], s'.releases[job.release]);
       && r'.target == r.target
       && (Deployed(r) ==> Deployed(r'))
       && (!Terminal(job.status) ==> InFlight(r'.status) && r'.operation == r.operation && r'.source == r.source)
  }

  ghost predicate HeadKept(s: State, s': State, t: Target) {
    && HeadOf(s', t) == HeadOf(s, t)
    && (t in s.heads && s.heads[t].job in s.jobs ==>
          s.heads[t].job in s'.jobs && s'.jobs[s.heads[t].job].source == s.jobs[s.heads[t].job].source)
  }

  lemma {:induction false} JobFrame(s: State, s': State, j: JobId)
    requires j in s.jobs && JobOk(s, j)
    requires j in s'.jobs && s'.jobs[j] == s.jobs[j] && s.nextJob <= s'.nextJob
    requires BasesKept(s, s') && RowKept(s, s', s.jobs[j])
    requires !Terminal(s.jobs[j].status) ==> HeadKept(s, s', s.jobs[j].target)
    ensures JobOk(s', j)
  {
    var job := s.jobs[j];
    if job.source.Some? { assert IsBasis(s', job.target, job.source.value); }
  }

  lemma {:induction false} ReleaseFrame(s: State, s': State, id: ReleaseId)
    requires id in s.releases && ReleaseOk(s, id)
    requires id in s'.releases && s'.releases[id] == s.releases[id]
    requires BasesKept(s, s') && (HasActiveJob(s, id) ==> HasActiveJob(s', id))
    ensures ReleaseOk(s', id)
  {
    var r := s.releases[id];
    if r.source.Some? { assert IsBasis(s', r.target, r.source.value); }
  }

  lemma {:induction false} RewriteKeeps(s: State, id: ReleaseId, r: Release)
    requires Inv(s) && id in s.releases && Rewritable(s, id, r)
    ensures Inv(PutRelease(s, id, r))
  {
    var s' := PutRelease(s, id, r);
    forall k | k in s'.releases ensures ReleaseOk(s', k) {
      if k != id {
        assert ReleaseOk(s, k);
        ReleaseFrame(s, s', k);
      }
    }
    forall j | j in s'.jobs ensures JobOk(s', j) {
      assert JobOk(s, j);
      JobFrame(s, s', j);
    }
    RowsOnly(s, s');
  }

  lemma {:induction false} InsertKeeps(s: State, id: ReleaseId, r: Release)
    requires Inv(s) && id !in s.releases && RowShape(r) && r.operation.Deploy? && !InFlight(r.status)
    ensures Inv(PutRelease(s, id, r))
  {
    var s' := PutRelease(s, id, r);
    forall k | k in s'.releases ensures ReleaseOk(s', k) {
      if k != id {
        assert ReleaseOk(s, k);
        ReleaseFrame(s, s', k);
      }
    }
    forall j | j in s'.jobs ensures JobOk(s', j) {
      assert JobOk(s, j);
      JobFrame(s, s', j);
    }
    RowsOnly(s, s');
  }

  /** Locks, heads and pairs do not look at release rows. */
  lemma {:induction false} RowsOnly(s: State, s': State)
    requires Inv(s) && s'.jobs == s.jobs && s'.locks == s.locks && s'.heads == s.heads
    requires forall k {:trigger ReleaseOk(s', k)} :: k in s'.releases ==> ReleaseOk(s', k)
    requires forall j {:trigger JobOk(s', j)} :: j in s'.jobs ==> JobOk(s', j)
    ensures Inv(s')
  {
    hide ReleaseOk, JobOk;
    forall j | j in s'.jobs ensures Locked(s', j) { assert Locked(s, j); }
    forall t | t in s'.locks ensures LockOk(s', t) { assert LockOk(s, t); }
    forall t | t in s'.heads ensures HeadOk(s', t) { assert HeadOk(s, t); }
    forall i, j | i in s'.jobs && j in s'.jobs ensures Apart(s', i, j) { assert Apart(s, i, j); }
  }

  // -------------------------------------------------------------- job inserts

  /** A new job of release id with its release row r. */
  ghost predicate Queueable(s: State, id: ReleaseId, r: Release, job: Job)
    requires id in s.releases
  {
    var before := s.releases[id];
    && !TargetBusy(s, before.target)
    && r.target == before.target && job.target == before.target && job.release == id
    && RowShape(r) && InFlight(r.status) && r.operation == job.operation
    && (Deployed(before) ==> Deployed(r))
    && (r.source.Some? ==> IsBasis(s, r.target, r.source.value))
    && job.status.Queued? && job.attempts == 0 && job.lockedBy.None?
    && (job.operation.Rollback? ==> job.source.Some? && job.source == r.source && RollbackFits(s, job))
    && (job.source.Some? ==> IsBasis(s, job.target, job.source.value))
    && (job.operation.Deploy? ==> job.source == HeadOf(s, job.target))
  }

  lemma {:induction false} QueueBases(s: State, id: ReleaseId, r: Release, job: Job)
    requires Inv(s)
    ensures s.nextJob !in s.jobs
    ensures BasesKept(s, QueueJob(s, id, r, job))
  {
    forall j | j in s.jobs ensures j < s.nextJob { assert JobOk(s, j); }
  }

  lemma {:induction false} QueueKeeps(s: State, id: ReleaseId, r: Release, job: Job)
    requires Inv(s) && id in s.releases && Queueable(s, id, r, job)
    ensures Inv(QueueJob(s, id, r, job))
  {
    var s' := QueueJob(s, id, r, job);
    var n := s.nextJob;
    QueueBases(s, id, r, job);
    forall k | k in s'.releases ensures ReleaseOk(s', k) {
      if k == id {
        assert s'.jobs[n].release == id;
      } else {
        assert ReleaseOk(s, k);
        if HasActiveJob(s, k) {
          var j :| j in s.jobs && s.jobs[j].release == k && !Terminal(s.jobs[j].status);
          assert s'.jobs[j] == s.jobs[j];
        }
        ReleaseFrame(s, s', k);
      }
    }
    forall j | j in s'.jobs ensures JobOk(s', j) {
      if j == n {
        NewJobOk(s, id, r, job);
      } else {
        assert JobOk(s, j);
        QueueHead(s, id, r, job, s.jobs[j].target);
        JobFrame(s, s', j);
      }
    }
    QueuePairs(s, id, r, job);
  }

  lemma {:induction false} QueueHead(s: State, id: ReleaseId, r: Release, job: Job, t: Target)
    requires Inv(s)
    ensures HeadKept(s, QueueJob(s, id, r, job), t)
    ensures t in s.heads ==> HeadOk(QueueJob(s, id, r, job), t)
  {
    QueueBases(s, id, r, job);
    if t in s.heads { assert HeadOk(s, t); }
  }

  lemma {:induction false} NewJobOk(s: State, id: ReleaseId, r: Release, job: Job)
    requires Inv(s) && id in s.releases && Queueable(s, id, r, job)
    ensures JobOk(QueueJob(s, id, r, job), s.nextJob)
  {
    var s' := QueueJob(s, id, r, job);
    QueueBases(s, id, r, job);
    QueueHead(s, id, r, job, job.target);
    if job.source.Some? {
      assert JobOk(s, job.source.value.job);
      assert IsBasis(s', job.target, job.source.value);
    }
  }

  lemma {:induction false} QueuePairs(s: State, id: ReleaseId, r: Release, job: Job)
    requires Inv(s) && id in s.releases && Queueable(s, id, r, job)
    requires
      var s' := QueueJob(s, id, r, job);
      && (forall k {:trigger ReleaseOk(s', k)} :: k in s'.releases ==> ReleaseOk(s', k))
      && (forall j {:trigger JobOk(s', j)} :: j in s'.jobs ==> JobOk(s', j))
    ensures Inv(QueueJob(s, id, r, job))
  {
    hide ReleaseOk, JobOk;
    var s' := QueueJob(s, id, r, job);
    var n := s.nextJob;
    QueueBases(s, id, r, job);
    forall j | j in s'.jobs ensures Locked(s', j) { if j != n { assert Locked(s, j); } }
    forall t | t in s'.locks ensures LockOk(s', t) { assert LockOk(s, t); }
    forall t | t in s'.heads ensures HeadOk(s', t) { QueueHead(s, id, r, job, t); }
    forall i, j | i in s'.jobs && j in s'.jobs ensures Apart(s', i, j) {
      if i != n && j != n { assert Apart(s, i, j); }
    }
  }

  // -------------------------------------------------------- a job that goes on

  /** An unfinished job takes another unfinished status; its lock row is there afterwards. */
  ghost predicate Advances(s: State, s': State, j: JobId, job: Job) {
    && Active(s, j)
    && job == s.jobs[j].(status := job.status, attempts := job.attempts, lockedBy := job.lockedBy)
    && Executing(job.status) && ClaimShape(job)
    && s'.jobs == s.jobs[j := job]
    && job.release in s.releases
    && s'.releases == s.releases[job.release := s.releases[job.release].(status := job.status)]
    && s'.heads == s.heads && s'.nextJob == s.nextJob
    && job.target in s'.locks && s'.locks == s.locks[job.target := s'.locks[job.target]]
    && s'.locks[job.target].job == j && job.lockedBy == Some(s'.locks[job.target].worker)
  }

  lemma {:induction false} AdvanceRows(s: State, s': State, j: JobId, job: Job)
    requires Inv(s) && Advances(s, s', j, job)
    ensures BasesKept(s, s')
    ensures forall t {:trigger HeadKept(s, s', t)} :: HeadKept(s, s', t)
    ensures forall k {:trigger ReleaseOk(s', k)} :: k in s'.releases ==> ReleaseOk(s', k)
  {
    assert JobOk(s, j);
    forall k | k in s'.releases ensures ReleaseOk(s', k) {
      assert ReleaseOk(s, k);
      if HasActiveJob(s, k) {
        var i :| i in s.jobs && s.jobs[i].release == k && !Terminal(s.jobs[i].status);
        assert i in s'.jobs && s'.jobs[i].release == k && !Terminal(s'.jobs[i].status);
      }
      if k != job.release {
        ReleaseFrame(s, s', k);
      } else if s.releases[k].source.Some? {
        assert IsBasis(s', s.releases[k].target, s.releases[k].source.value);
      }
    }
  }

  lemma {:induction false} AdvanceKeeps(s: State, s': State, j: JobId, job: Job)
    requires Inv(s) && Advances(s, s', j, job)
    ensures Inv(s')
  {
    AdvanceRows(s, s', j, job);
    assert JobOk(s, j);
    forall k | k in s'.jobs ensures JobOk(s', k) {
      assert JobOk(s, k) && Apart(s, j, k) && HeadKept(s, s', s.jobs[k].target);
      if k != j {
        JobFrame(s, s', k);
      } else if job.source.Some? {
        assert IsBasis(s', job.target, job.source.value);
      }
    }
    AdvancePairs(s, s', j, job);
  }

  lemma {:induction false} AdvancePairs(s: State, s': State, j: JobId, job: Job)
    requires Inv(s) && Advances(s, s', j, job)
    requires forall k {:trigger ReleaseOk(s', k)} :: k in s'.releases ==> ReleaseOk(s', k)
    requires forall k {:trigger JobOk(s', k)} :: k in s'.jobs ==> JobOk(s', k)
    ensures Inv(s')
  {
    hide ReleaseOk, JobOk;
    forall i, k | i in s'.jobs && k in s'.jobs ensures Apart(s', i, k) { assert Apart(s, i, k); }
    forall k | k in s'.jobs ensures Locked(s', k) { assert Locked(s, k) && Apart(s, j, k); }
    forall t | t in s'.locks ensures LockOk(s', t) {
      if t != job.target {
        assert LockOk(s, t);
      }
    }
    forall t | t in s'.heads ensures HeadOk(s', t) { assert HeadOk(s, t); }
  }

  // ---------------------------------------------------------- a job that ends

  /** An unfinished job ends: a failure leaves the heads alone, a success moves
      the head of its own target. */
  ghost predicate Ends(s: State, s': State, j: JobId, job: Job) {
    && Active(s, j)
    && job == s.jobs[j].(status := job.status, lockedBy := job.lockedBy)
    && Terminal(job.status)
    && job.release in s.releases
    && s'.jobs == s.jobs[j := job]
    && s'.releases == s.releases[job.release := s.releases[job.release].(status := job.status)]
    && s'.nextJob == s.nextJob
    && s'.locks == DropLocks(s.locks, j)
    && (job.status.Failed? ==> s'.heads == s.heads)
    && (job.status.Success? ==> job.operation.Deploy? && s'.heads == s.heads[job.target := Basis(job.release, j)])
    && (job.status.RolledBack? ==>
       job.operation.Rollback? && job.source.Some? && s'.heads == s.heads[job.target := job.source.value])
  }

  lemma {:induction false} EndRows(s: State, s': State, j: JobId, job: Job)
    requires Inv(s) && Ends(s, s', j, job)
    ensures BasesKept(s, s')
    ensures forall t {:trigger HeadKept(s, s', t)} :: t != job.target ==> HeadKept(s, s', t)
    ensures Deployed(s.releases[job.release]) ==> Deployed(s'.releases[job.release])
    ensures forall k {:trigger ReleaseOk(s', k)} :: k in s'.releases ==> ReleaseOk(s', k)
  {
    assert JobOk(s, j) && ReleaseOk(s, job.release);
    forall k | k in s'.releases ensures ReleaseOk(s', k) {
      assert ReleaseOk(s, k);
      if k != job.release {
        if HasActiveJob(s, k) {
          var i :| i in s.jobs && s.jobs[i].release == k && !Terminal(s.jobs[i].status);
          assert s'.jobs[i] == s.jobs[i];
        }
        ReleaseFrame(s, s', k);
      } else if s.releases[k].source.Some? {
        assert IsBasis(s', s.releases[k].target, s.releases[k].source.value);
      }
    }
  }

  lemma {:induction false} EndKeeps(s: State, s': State, j: JobId, job: Job)
    requires Inv(s) && Ends(s, s', j, job)
    ensures Inv(s')
  {
    EndRows(s, s', j, job);
    assert JobOk(s, j);
    forall k | k in s'.jobs ensures JobOk(s', k) {
      assert JobOk(s, k) && Apart(s, j, k);
      if k != j {
        assert s.jobs[k].target != job.target ==> HeadKept(s, s', s.jobs[k].target);
        JobFrame(s, s', k);
      } else if job.source.Some? {
        assert IsBasis(s', job.target, job.source.value);
      }
    }
    EndPairs(s, s', j, job);
  }

  lemma {:induction false} EndPairs(s: State, s': State, j: JobId, job: Job)
    requires Inv(s) && Ends(s, s', j, job) && BasesKept(s, s')
    requires forall k {:trigger ReleaseOk(s', k)} :: k in s'.releases ==> ReleaseOk(s', k)
    requires forall k {:trigger JobOk(s', k)} :: k in s'.jobs ==> JobOk(s', k)
    ensures Inv(s')
  {
    forall i, k | i in s'.jobs && k in s'.jobs ensures Apart(s', i, k) {
      assert Apart(s, i, k) && JobOk(s, i) && JobOk(s, k) && JobOk(s, j);
    }
    forall k | k in s'.jobs ensures Locked(s', k) { assert Locked(s, k) && Locked(s, j); }
    forall t | t in s'.locks ensures LockOk(s', t) { assert LockOk(s, t); }
    forall t | t in s'.heads ensures HeadOk(s', t) {
      if t != job.target || job.status.Failed? {
        assert HeadOk(s, t) && IsBasis(s', t, s.heads[t]);
      } else if job.status.RolledBack? {
        assert JobOk(s, j) && IsBasis(s', t, job.source.value);
      }
    }
  }

  // ------------------------------------------------------------ other writes

  /** Steps, images, logs and history do not enter the invariant. */
  lemma {:induction false} SameTables(s: State, s': State)
    requires Inv(s)
    requires s'.releases == s.releases && s'.jobs == s.jobs && s'.nextJob == s.nextJob
    requires s'.locks == s.locks && s'.heads == s.heads
    ensures Inv(s')
  {
    forall k | k in s'.releases ensures ReleaseOk(s', k) {
      assert ReleaseOk(s, k);
      ReleaseFrame(s, s', k);
    }
    forall j | j in s'.jobs ensures JobOk(s', j) {
      assert JobOk(s, j);
      if !Terminal(s.jobs[j].status) { assert HeadKept(s, s', s.jobs[j].target); }
      JobFrame(s, s', j);
    }
    RowsOnly(s, s');
  }

  lemma {:induction false} DeletedJobs(s: State, id: ReleaseId)
    requires Inv(s) && id in s.releases && Editable(s.releases[id].status)
    ensures forall j :: j in s.jobs && s.jobs[j].release == id ==>
            s.jobs[j].status.Failed? || s.jobs[j].status.RolledBack?
  {
    assert ReleaseOk(s, id);
    forall j | j in s.jobs && s.jobs[j].release == id
      ensures s.jobs[j].status.Failed? || s.jobs[j].status.RolledBack?
    {
      assert JobOk(s, j);
    }
  }

  lemma {:induction false} DeleteKeeps(s: State, id: ReleaseId)
    requires Inv(s)
    ensures Inv(DeleteRelease(s, id).0)
  {
    var s' := DeleteRelease(s, id).0;
    if DeleteRelease(s, id).1.Done? {
      DeletedJobs(s, id);
      DeleteRows(s, s', id);
      forall i, k | i in s'.jobs && k in s'.jobs ensures Apart(s', i, k) { assert Apart(s, i, k); }
      forall k | k in s'.jobs ensures Locked(s', k) { assert Locked(s, k); }
      forall t | t in s'.locks ensures LockOk(s', t) { assert LockOk(s, t); }
      forall t | t in s'.heads ensures HeadOk(s', t) { assert HeadOk(s, t) && IsBasis(s', t, s.heads[t]); }
    }
  }

  lemma {:induction false} DeleteRows(s: State, s': State, id: ReleaseId)
    requires Inv(s) && (s', Done) == DeleteRelease(s, id)
    requires forall j :: j in s.jobs && s.jobs[j].release == id ==>
             s.jobs[j].status.Failed? || s.jobs[j].status.RolledBack?
    ensures BasesKept(s, s')
    ensures forall k {:trigger ReleaseOk(s', k)} :: k in s'.releases ==> ReleaseOk(s', k)
    ensures forall k {:trigger JobOk(s', k)} :: k in s'.jobs ==> JobOk(s', k)
  {
    forall k | k in s'.releases ensures ReleaseOk(s', k) {
      assert ReleaseOk(s, k);
      if HasActiveJob(s, k) {
        var i :| i in s.jobs && s.jobs[i].release == k && !Terminal(s.jobs[i].status);
        assert s'.jobs[i] == s.jobs[i];
      }
      ReleaseFrame(s, s', k);
    }
    forall k | k in s'.jobs ensures JobOk(s', k) {
      assert JobOk(s, k);
      var t := s.jobs[k].target;
      if t in s.heads {
        assert HeadOk(s, t) && IsBasis(s', t, s.heads[t]);
        assert HeadKept(s, s', t);
      }
      JobFrame(s, s', k);
    }
  }

  // -------------------------------------------------------- facts about a row

  lemma {:induction false} ReleaseFacts(s: State, id: ReleaseId)
    requires Inv(s) && id in s.releases
    ensures ReleaseOk(s, id)
  {
  }

  lemma {:induction false} JobFacts(s: State, j: JobId)
    requires Inv(s) && j in s.jobs
    ensures JobOk(s, j) && Locked(s, j)
  {
  }

  lemma {:induction false} HeadFacts(s: State, t: Target)
    requires Inv(s) && t in s.heads
    ensures IsBasis(s, t, s.heads[t])
    ensures s.jobs[s.heads[t].job].source.Some? ==> IsBasis(s, t, s.jobs[s.heads[t].job].source.value)
  {
    assert HeadOk(s, t);
    assert JobOk(s, s.heads[t].job);
  }

  // ----------------------------------------------------- one transaction each

  /** What an effect on one release must satisfy to keep the invariant. */
  ghost predicate EffectOk(s: State, id: ReleaseId, e: Effect)
    requires id in s.releases
  {
    match e
    case Nothing(_) => true
    case Rewrite(row, _) => Rewritable(s, id, row)
    case Queue(row, job) => Queueable(s, id, row, job)
  }

  lemma {:induction false} CommitKeeps(s: State, id: ReleaseId, e: Effect)
    requires Inv(s) && id in s.releases && EffectOk(s, id, e)
    ensures Inv(Commit(s, id, e).0)
  {
    hide Inv, Rewritable, Queueable;
    match e
    case Nothing(_) =>
    case Rewrite(row, _) => RewriteKeeps(s, id, row);
    case Queue(row, job) => QueueKeeps(s, id, row, job);
  }

  lemma {:induction false} DeployEffectOk(s: State, policy: Policy, id: ReleaseId, user: UserId, retry: bool, c: Checks)
    requires Inv(s) && id in s.releases && s.releases[id].operation.Deploy?
    ensures EffectOk(s, id, DeployEffect(s, policy, id, user, retry, c))
  {
    hide Inv, LatestFailedDeploy, TargetBusy, Policy.Required, HasActiveJob, IsBasis;
    ReleaseFacts(s, id);
    if s.releases[id].target in s.heads { HeadFacts(s, s.releases[id].target); }
  }

  /** A plan names a successful DEPLOY of the target and fits the head. */
  lemma {:induction false} PlanFacts(s: State, id: ReleaseId, allow: bool)
    requires Inv(s) && id in s.releases && ResolvePlan(s, id, allow).Some?
    ensures
      var t, plan := s.releases[id].target, ResolvePlan(s, id, allow);
      && IsBasis(s, t, plan.value)
      && t in s.heads && s.heads[t].job in s.jobs
      && plan == if id == s.heads[t].release then s.jobs[s.heads[t].job].source else Some(s.heads[t])
  {
    hide Inv, LatestJob, FailedRollbackTo;
    HeadFacts(s, s.releases[id].target);
  }

  lemma {:induction false} RollbackEffectOk(
      s: State, policy: Policy, id: ReleaseId, user: UserId, retry: bool, c: Checks)
    requires Inv(s) && id in s.releases
    ensures EffectOk(s, id, RollbackEffect(s, policy, id, user, retry, c))
  {
    hide Inv, ResolvePlan, TargetBusy, Policy.Required, IsBasis, HasActiveJob;
    var r := s.releases[id];
    ReleaseFacts(s, id);
    var allow := retry || (r.operation.Rollback? && InReview(r.status));
    if ResolvePlan(s, id, allow).Some? { PlanFacts(s, id, allow); }
  }

  lemma {:induction false} RequestRollbackKeeps(
      s: State, policy: Policy, id: ReleaseId, user: UserId, retry: bool, c: Checks)
    requires Inv(s)
    ensures Inv(RequestRollback(s, policy, id, user, retry, c).0)
  {
    hide Inv, RollbackEffect, EffectOk, Commit;
    if id in s.releases {
      RollbackEffectOk(s, policy, id, user, retry, c);
      CommitKeeps(s, id, RollbackEffect(s, policy, id, user, retry, c));
    }
  }

  lemma {:induction false} QueueQuickKeeps(s: State, id: ReleaseId, expected: Status, c: Checks)
    requires Inv(s) && id in s.releases && s.releases[id].operation.Deploy? && s.releases[id].retrySource.None?
    requires expected.Uploaded? || expected.Approved?
    ensures Inv(QueueQuickDeploy(s, id, expected, c).0)
  {
    hide Inv, TargetBusy, HasActiveJob, IsBasis;
    ReleaseFacts(s, id);
    if s.releases[id].target in s.heads { HeadFacts(s, s.releases[id].target); }
    CommitKeeps(s, id, QuickEffect(s, id, expected, c));
  }

  lemma {:induction false} QuickReleaseKeeps(
      s: State, policy: Policy, id: ReleaseId, user: UserId, filename: string, preset: Option<Preset>,
      artifact: ArtifactId, expectedCurrent: string, c: Checks)
    requires Inv(s)
    ensures Inv(QuickRelease(s, policy, id, user, filename, preset, artifact, expectedCurrent, c).0)
  {
    hide Inv, QuickRelease, QueueQuickDeploy, Policy.Required;
    hide QuickArtifact.ParseName, QuickArtifact.ValidateQuickUpgrade, CurrentVersion;
    var r := QuickReleaseCases(s, policy, id, user, filename, preset, artifact, expectedCurrent, c);
    if QuickRelease(s, policy, id, user, filename, preset, artifact, expectedCurrent, c).0 != s {
      InsertKeeps(s, id, r);
      InsertKeeps(s, id, r.(status := PendingReview, submitted := DeployRequestOf(r), submitter := Some(user)));
      QueueQuickKeeps(PutRelease(s, id, r), id, Uploaded, c);
    }
  }

  lemma {:induction false} RecordApprovalKeeps(s: State, id: ReleaseId, user: UserId)
    requires Inv(s) && id in s.releases && (s.releases[id].status.PendingReview? || s.releases[id].status.UnderReview?)
    ensures Inv(RecordApproval(s, id, user))
  {
    hide Inv, HasActiveJob, IsBasis;
    ReleaseFacts(s, id);
    var r' := s.releases[id].(status := Approved, approval := Some(|s.decisions|));
    RewriteKeeps(s, id, r');
    SameTables(PutRelease(s, id, r'), RecordApproval(s, id, user));
  }

  lemma {:induction false} ApproveKeeps(s: State, policy: Policy, id: ReleaseId, user: UserId, c: Checks)
    requires Inv(s) && id in s.releases
    ensures Inv(ApproveRequest(s, policy, id, user, c).0)
  {
    hide Inv, ResolvePlan, LatestFailedDeploy, SourceUsable, QueueQuickDeploy;
    if ApproveRefusal(s, policy, id, user, c).None? {
      RecordApprovalKeeps(s, id, user);
      var r := s.releases[id];
      if r.operation.Deploy? && r.retrySource.None? { QueueQuickKeeps(RecordApproval(s, id, user), id, Approved, c); }
    }
  }

  lemma {:induction false} DecideKeeps(
      s: State, policy: Policy, id: ReleaseId, user: UserId, verdict: Verdict, comment: bool, c: Checks)
    requires Inv(s)
    ensures Inv(Decide(s, policy, id, user, verdict, comment, c).0)
  {
    hide Inv, ApproveRequest, Policy.Required, Commit, HasActiveJob, IsBasis;
    if id in s.releases {
      ReleaseFacts(s, id);
      var r := s.releases[id];
      match verdict
      case Approve => ApproveKeeps(s, policy, id, user, c);
      case Reject => CommitKeeps(s, id, RejectEffect(s, policy, id, comment));
      case Review =>
        CommitKeeps(s, id, if r.status.PendingReview? then Rewrite(r.(status := UnderReview), Done)
          else Nothing(InvalidState));
    }
  }

  lemma {:induction false} DraftKeeps(s: State, a: Action, policy: Policy)
    requires Inv(s) && (a.ACreate? || a.AEdit? || a.AUpload?)
    ensures Inv(Next(s, policy, a))
  {
    hide Inv, VersionTaken;
    var s' := Next(s, policy, a);
    if s' != s {
      if a.ACreate? {
        InsertKeeps(s, a.id, s'.releases[a.id]);
      } else {
        ReleaseFacts(s, a.id);
        RewriteKeeps(s, a.id, s'.releases[a.id]);
      }
    }
  }

  lemma {:induction false} ClaimKeeps(s: State, w: WorkerId, pick: Option<JobId>, loadable: bool)
    requires Inv(s)
    ensures Inv(ClaimJob(s, w, pick, loadable).0)
  {
    hide Inv, RollbackImagesReady, DropLocks;
    var (s', reply) := ClaimJob(s, w, pick, loadable);
    if s' != s {
      var j := pick.value;
      JobFacts(s, j);
      if reply.Done? {
        AdvanceKeeps(s, s', j, s'.jobs[j]);
      } else {
        EndKeeps(s, s', j, s'.jobs[j]);
      }
    }
  }

  lemma {:induction false} BeginKeeps(s: State, w: WorkerId, j: JobId, name: StepName)
    requires Inv(s)
    ensures Inv(BeginStep(s, w, j, name).0)
  {
    hide Inv;
    var (s', reply) := BeginStep(s, w, j, name);
    if reply.Done? {
      JobFacts(s, j);
      LockFacts(s, j);
      AdvanceKeeps(s, s', j, s'.jobs[j]);
    }
  }

  /** The lock row of an executing job names its worker. */
  lemma {:induction false} LockFacts(s: State, j: JobId)
    requires Inv(s) && j in s.jobs && Executing(s.jobs[j].status)
    ensures
      var t := s.jobs[j].target;
      t in s.locks && s.locks[t].job == j && s.jobs[j].lockedBy == Some(s.locks[t].worker)
  {
    assert Locked(s, j) && LockOk(s, s.jobs[j].target);
  }

  /** The owner's lock rows are all the lock rows of the job. */
  lemma {:induction false} OneLease(s: State, j: JobId, w: WorkerId)
    requires Inv(s) && OwnsJob(s, w, j)
    ensures DropLease(s.locks, j, w) == DropLocks(s.locks, j)
  {
    forall t | t in s.locks ensures s.locks[t].job == j ==> s.locks[t] == Lock(j, w) { assert LockOk(s, t); }
  }

  lemma {:induction false} FinishKeeps(s: State, w: WorkerId, j: JobId, status: Status)
    requires Inv(s)
    ensures Inv(FinishJob(s, w, j, status).0)
  {
    hide Inv, HasLockRow, DropLease, DropLocks;
    var (s', reply) := FinishJob(s, w, j, status);
    if reply.Done? {
      JobFacts(s, j);
      OneLease(s, j, w);
      EndKeeps(s, s', j, s'.jobs[j]);
    }
  }

  lemma {:induction false} RecoverKeeps(s: State, expired: seq<JobId>)
    requires Inv(s)
    ensures Inv(RecoverStale(s, expired))
    decreases |expired|
  {
    hide Inv;
    if |expired| > 0 {
      var j := expired[0];
      if j in s.jobs && Executing(s.jobs[j].status) {
        JobFacts(s, j);
        var s' := RecoverOne(s, j);
        EndKeeps(s, s', j, s'.jobs[j]);
        RecoverKeeps(s', expired[1..]);
      } else {
        RecoverKeeps(s, expired[1..]);
      }
    }
  }

  /** Every transaction keeps the invariant. */
  lemma {:induction false} NextKeeps(s: State, policy: Policy, a: Action)
    requires Inv(s)
    ensures Inv(Next(s, policy, a))
  {
    hide Inv, CreateRelease, EditRelease, UploadArtifact, DeleteRelease, DeployEffect, Commit, EffectOk,
         RequestRollback, QuickRelease, Decide, ClaimJob, BeginStep, FinishJob, RecoverStale;
    match a
    case ADelete(id) => DeleteKeeps(s, id);
    case AEnqueue(id, user, retry, c) =>
      if id in s.releases {
        if s.releases[id].operation.Rollback? { RequestRollbackKeeps(s, policy, id, user, retry, c); }
        else {
          DeployEffectOk(s, policy, id, user, retry, c);
          CommitKeeps(s, id, DeployEffect(s, policy, id, user, retry, c));
        }
      }
    case ARollback(id, user, c) => RequestRollbackKeeps(s, policy, id, user, false, c);
    case AQuick(id, user, filename, preset, artifact, expected, c) =>
      QuickReleaseKeeps(s, policy, id, user, filename, preset, artifact, expected, c);
    case ADecide(id, user, verdict, comment, c) => DecideKeeps(s, policy, id, user, verdict, comment, c);
    case AClaim(w, pick, loadable) => ClaimKeeps(s, w, pick, loadable);
    case ABeginStep(w, j, name) => BeginKeeps(s, w, j, name);
    case AFinishStep(w, j, number, success) => SameTables(s, Next(s, policy, a));
    case ALog(w, j, row) => SameTables(s, Next(s, policy, a));
    case AImage(w, j, path, image) => SameTables(s, Next(s, policy, a));
    case AFinishJob(w, j, status) => FinishKeeps(s, w, j, status);
    case ARecover(expired) => RecoverKeeps(s, expired);
    case _ => DraftKeeps(s, a, policy);
  }

  /** Every reachable state satisfies the invariant. */
  lemma {:induction false} RunKeeps(s: State, policy: Policy, actions: seq<Action>)
    requires Inv(s)
    ensures Inv(Run(s, policy, actions))
    decreases |actions|
  {
    hide Inv, Next;
    if |actions| > 0 {
      NextKeeps(s, policy, actions[0]);
      RunKeeps(Next(s, policy, actions[0]), policy, actions[1..]);
    }
  }
}
