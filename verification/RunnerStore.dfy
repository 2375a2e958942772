/** The tables as a mutable database, and the runner's store: each method is a
    transaction that reads the tables, applies its statements one by one to its
    own view and commits it, or returns early and commits nothing. */
module RunnerStore {
  import opened Common
  import opened Domain
  import Invariants
  import opened Recovery
  import T = Transitions

  class Database {
    var releases: map<ReleaseId, Release>
    var jobs: map<JobId, Job>
    var nextJob: JobId
    var locks: map<Target, Lock>
    var heads: map<Target, Basis>
    var steps: map<JobId, seq<Step>>
    var images: map<JobId, map<string, Image>>
    var logs: map<JobId, seq<LogRow>>
    var decisions: seq<Decision>

    constructor ()
      ensures Rows() == EMPTY
    {
      releases, jobs, nextJob, locks, heads := map[], map[], 0, map[], map[];
      steps, images, logs, decisions := map[], map[], map[], [];
    }

    function Rows(): State
      reads this
    {
      State(releases, jobs, nextJob, locks, heads, steps, images, logs, decisions)
    }

    method Commit(tx: State)
      modifies this
      ensures Rows() == tx
    {
      releases, jobs, nextJob, locks, heads := tx.releases, tx.jobs, tx.nextJob, tx.locks, tx.heads;
      steps, images, logs, decisions := tx.steps, tx.images, tx.logs, tx.decisions;
    }
  }

  /** UPDATE releases SET status of a job's release: no row, no effect. */
  function SyncRelease(tx: State, id: ReleaseId, status: Status): State {
    if id in tx.releases then tx.(releases := tx.releases[id := tx.releases[id].(status := status)]) else tx
  }

  class PGStore {
    const pool: Database
    const workerID: WorkerId

    constructor (pool: Database, workerID: WorkerId)
      ensures this.pool == pool && this.workerID == workerID
    {
      this.pool, this.workerID := pool, workerID;
    }

    /** `pick` is the row the queue query selects and locks for this runner. */
    method ClaimJob(pick: Option<JobId>, loadable: bool) returns (reply: Reply)
      modifies pool
      ensures (pool.Rows(), reply) == T.ClaimJob(old(pool.Rows()), workerID, pick, loadable)
    {
      var tx := pool.Rows();
      if pick.None? || pick.value !in tx.jobs || !tx.jobs[pick.value].status.Queued? {
        return Refused(NoJob);
      }
      var j, job := pick.value, tx.jobs[pick.value];
      if job.target in tx.locks {
        return Refused(LockBusy);
      }
      InsertDeleted(tx.locks, job.target, Lock(j, workerID));
      ReadyIgnoresLocks(tx, tx.(locks := tx.locks[job.target := Lock(j, workerID)]), job);
      tx := tx.(locks := tx.locks[job.target := Lock(j, workerID)]);
      hide T.DropLocks, T.RollbackImagesReady, T.WriteJob, SyncRelease;
      if !loadable || (job.operation.Rollback? && !T.RollbackImagesReady(tx, job)) {
        tx := tx.(jobs := tx.jobs[j := job.(status := Failed)]);
        tx := tx.(locks := T.DropLocks(tx.locks, j));
        SyncIsWrite(old(pool.Rows()), j, tx.jobs[j], Failed, tx.locks);
        tx := SyncRelease(tx, job.release, Failed);
        pool.Commit(tx);
        return Refused(InvalidJob);
      }
      tx := tx.(jobs := tx.jobs[j :=
        job.(status := Validating, attempts := job.attempts + 1, lockedBy := Some(workerID))]);
      SyncIsWrite(old(pool.Rows()), j, tx.jobs[j], Validating, tx.locks);
      tx := SyncRelease(tx, job.release, Validating);
      pool.Commit(tx);
      return Done;
    }

    method Heartbeat(jobID: JobId) returns (reply: Reply)
      ensures reply == T.Heartbeat(pool.Rows(), workerID, jobID)
      ensures reply.Done? <==> T.HoldsLease(pool.Rows(), workerID, jobID)
    {
      if !T.OwnsJob(pool.Rows(), workerID, jobID) {
        return Refused(LostLease);
      }
      if !T.HasLockRow(pool.Rows(), workerID, jobID) {
        return Refused(LostLease);
      }
      return Done;
    }

    method BeginStep(jobID: JobId, status: StepName) returns (reply: Reply, number: nat)
      modifies pool
      ensures (pool.Rows(), reply) == T.BeginStep(old(pool.Rows()), workerID, jobID, status)
      ensures reply.Done? ==> number + 1 == |T.StepsOf(pool.Rows(), jobID)|
    {
      hide T.WriteJob, SyncRelease;
      var tx := pool.Rows();
      number := 0;
      if !T.OwnsJob(tx, workerID, jobID) {
        return Refused(LostLease), 0;
      }
      tx := tx.(jobs := tx.jobs[jobID := tx.jobs[jobID].(status := status)]);
      SyncIsWrite(old(pool.Rows()), jobID, tx.jobs[jobID], status, tx.locks);
      tx := SyncRelease(tx, tx.jobs[jobID].release, status);
      number := |T.StepsOf(tx, jobID)|;
      tx := tx.(steps := tx.steps[jobID := T.StepsOf(tx, jobID) + [Step(status, Running)]]);
      pool.Commit(tx);
      return Done, number;
    }

    method FinishStep(jobID: JobId, number: nat, success: bool) returns (reply: Reply)
      modifies pool
      ensures (pool.Rows(), reply) == T.FinishStep(old(pool.Rows()), workerID, jobID, number, success)
    {
      var tx := pool.Rows();
      if !T.HoldsLease(tx, workerID, jobID) || number >= |T.StepsOf(tx, jobID)| {
        return Refused(LostLease);
      }
      var rows := tx.steps[jobID];
      pool.steps := pool.steps[jobID := rows[number := Step(rows[number].name, if success then Succeeded else Broken)]];
      return Done;
    }

    method AppendLog(jobID: JobId, row: LogRow) returns (reply: Reply)
      modifies pool
      ensures (pool.Rows(), reply) == T.AppendLog(old(pool.Rows()), workerID, jobID, row)
    {
      var tx := pool.Rows();
      if !T.HoldsLease(tx, workerID, jobID) || row.step >= |T.StepsOf(tx, jobID)| {
        return Refused(LostLease);
      }
      pool.logs := pool.logs[jobID := T.LogsOf(tx, jobID) + [row]];
      return Done;
    }

    /** INSERT .. ON CONFLICT (job, path) DO UPDATE with COALESCE on the digest. */
    method RecordImage(jobID: JobId, path: string, image: Image) returns (reply: Reply)
      modifies pool
      ensures (pool.Rows(), reply) == T.RecordImage(old(pool.Rows()), workerID, jobID, path, image)
    {
      var tx := pool.Rows();
      if !T.HoldsLease(tx, workerID, jobID) {
        return Refused(LostLease);
      }
      var rows, row := T.ImagesOf(tx, jobID), image;
      if path in rows && image.digest.None? {
        row := Image(image.destination, rows[path].digest);
      }
      pool.images := pool.images[jobID := rows[path := row]];
      return Done;
    }

    method FinishJob(jobID: JobId, status: Status) returns (reply: Reply)
      modifies pool
      ensures (pool.Rows(), reply) == T.FinishJob(old(pool.Rows()), workerID, jobID, status)
    {
      if !Terminal(status) {
        return Refused(InvalidState);
      }
      var tx := pool.Rows();
      if !T.HoldsLease(tx, workerID, jobID) {
        return Refused(LostLease);
      }
      ghost var was := tx;
      tx := tx.(jobs := tx.jobs[jobID := tx.jobs[jobID].(status := status)]);
      var release := tx.jobs[jobID].release;
      tx := SyncRelease(tx, release, status);
      if status.Success? || status.RolledBack? {
        HeadAfterUpdate(was, tx, jobID, status);
        var head := T.NewHead(tx, jobID, status);
        if head.None? || release !in tx.releases {
          return Refused(LostLease);
        }
        tx := tx.(heads := tx.heads[tx.releases[release].target := head.value]);
      }
      tx := tx.(locks := T.DropLease(tx.locks, jobID, workerID));
      pool.Commit(tx);
      return Done;
    }

    /** `scan` is the heap order of the rows whose heartbeat has expired. */
    method RecoverStaleJobs(scan: seq<JobId>) returns (recovered: nat)
      requires forall i, k :: 0 <= i < k < |scan| ==> scan[i] != scan[k]
      modifies pool
      ensures pool.Rows() == T.RecoverStale(old(pool.Rows()), scan)
      ensures Invariants.Inv(old(pool.Rows())) ==> Recovered(old(pool.Rows()), pool.Rows(), scan)
      ensures recovered == |LapsedJobs(old(pool.Rows()), scan)|
    {
      hide Invariants.Inv, Recovered;
      var tx := pool.Rows();
      ghost var was := tx;
      var ids: seq<JobId> := [];
      for i := 0 to |scan|
        invariant ids == Stale(tx, scan[..i])
      {
        StaleStep(tx, scan, i);
        if scan[i] in tx.jobs && Executing(tx.jobs[scan[i]].status) {
          ids := ids + [scan[i]];
        }
      }
      assert scan[..|scan|] == scan;
      StaleIsSubset(tx, scan);
      for i := 0 to |ids|
        invariant forall k :: i <= k < |ids| ==> ids[k] in tx.jobs && Executing(tx.jobs[ids[k]].status)
        invariant T.RecoverStale(tx, ids[i..]) == T.RecoverStale(was, ids)
      {
        var j := ids[i];
        assert ids[i..][0] == j && ids[i..][1..] == ids[i + 1..];
        tx := tx.(jobs := tx.jobs[j := tx.jobs[j].(status := Failed, lockedBy := None)]);
        tx := tx.(locks := T.DropLocks(tx.locks, j));
        tx := SyncRelease(tx, tx.jobs[j].release, Failed);
      }
      StaleSuffices(was, scan);
      StaleCount(was, scan);
      if Invariants.Inv(was) { RecoveryFreesExactlyTheLapsed(was, scan); }
      pool.Commit(tx);
      return |ids|;
    }
  }

  /** Job row, lock rows and release row written one after the other. */
  lemma {:induction false} SyncIsWrite(s: State, j: JobId, job: Job, status: Status, locks: map<Target, Lock>)
    ensures SyncRelease(s.(jobs := s.jobs[j := job], locks := locks), job.release, status)
         == T.WriteJob(s, j, job, status).(locks := locks)
  {
    if job.release in s.releases {
      assert SyncRelease(s.(jobs := s.jobs[j := job], locks := locks), job.release, status).releases
          == T.WriteJob(s, j, job, status).releases;
    }
  }

  /** Deleting a job's lock rows takes the row just inserted with them. */
  lemma {:induction false} InsertDeleted(locks: map<Target, Lock>, t: Target, lock: Lock)
    requires t !in locks
    ensures T.DropLocks(locks[t := lock], lock.job) == T.DropLocks(locks, lock.job)
  {
  }

  lemma {:induction false} ReadyIgnoresLocks(s: State, tx: State, job: Job)
    requires tx.jobs == s.jobs && tx.images == s.images
    ensures T.RollbackImagesReady(tx, job) == T.RollbackImagesReady(s, job)
  {
  }

  /** The head statement sees the rows as already updated; the job it ends is not
      its own source, so it finds what it would have found before. */
  lemma {:induction false} HeadAfterUpdate(s: State, tx: State, j: JobId, status: Status)
    requires j in s.jobs && !Terminal(s.jobs[j].status) && Terminal(status)
    requires tx.jobs == s.jobs[j := s.jobs[j].(status := status)]
    ensures T.NewHead(tx, j, status) == T.NewHead(s, j, status)
  {
  }

  /** The rows the scan selects: executing jobs, in scan order. */
  function Stale(s: State, scan: seq<JobId>): seq<JobId> {
    if |scan| == 0 then []
    else
      var n := |scan| - 1;
      Stale(s, scan[..n]) + if scan[n] in s.jobs && Executing(s.jobs[scan[n]].status) then [scan[n]] else []
  }

  lemma {:induction false} StaleStep(s: State, scan: seq<JobId>, i: nat)
    requires i < |scan|
    ensures Stale(s, scan[..i + 1]) ==
            Stale(s, scan[..i]) + if scan[i] in s.jobs && Executing(s.jobs[scan[i]].status) then [scan[i]] else []
  {
    assert scan[..i + 1][..i] == scan[..i];
  }

  lemma {:induction false} StaleIsSubset(s: State, scan: seq<JobId>)
    requires forall i, k :: 0 <= i < k < |scan| ==> scan[i] != scan[k]
    ensures forall i :: 0 <= i < |Stale(s, scan)| ==>
              Stale(s, scan)[i] in scan && Stale(s, scan)[i] in s.jobs && Executing(s.jobs[Stale(s, scan)[i]].status)
    ensures forall i, k :: 0 <= i < k < |Stale(s, scan)| ==> Stale(s, scan)[i] != Stale(s, scan)[k]
  {
    if |scan| > 0 { StaleIsSubset(s, scan[..|scan| - 1]); }
  }

  /** The rows the scan selects are the lapsed jobs, each once. */
  lemma {:induction false} StaleCount(s: State, scan: seq<JobId>)
    requires forall i, k :: 0 <= i < k < |scan| ==> scan[i] != scan[k]
    ensures |Stale(s, scan)| == |LapsedJobs(s, scan)|
  {
    if |scan| > 0 {
      var n := |scan| - 1;
      var first := scan[..n];
      StaleCount(s, first);
      assert scan == first + [scan[n]] && scan[n] !in first;
      if scan[n] in s.jobs && Executing(s.jobs[scan[n]].status) {
        assert LapsedJobs(s, scan) == LapsedJobs(s, first) + {scan[n]};
      } else {
        assert LapsedJobs(s, scan) == LapsedJobs(s, first);
      }
    } else {
      assert LapsedJobs(s, scan) == {};
    }
  }

  /** Recovering a scan is recovering the executing jobs in it. */
  lemma {:induction false} StaleSuffices(s: State, scan: seq<JobId>)
    requires forall i, k :: 0 <= i < k < |scan| ==> scan[i] != scan[k]
    ensures T.RecoverStale(s, Stale(s, scan)) == T.RecoverStale(s, scan)
  {
    hide T.RecoverStale, T.RecoverOne;
    if |scan| > 0 {
      var n := |scan| - 1;
      var j, first := scan[n], scan[..n];
      StaleSuffices(s, first);
      RecoverSpares(s, first, j);
      assert scan == first + [j];
      RecoverJoins(s, first, [j]);
      if j in s.jobs && Executing(s.jobs[j].status) {
        RecoverJoins(s, Stale(s, first), [j]);
      } else {
        RecoverIdle(T.RecoverStale(s, first), j);
        assert Stale(s, scan) == Stale(s, first);
      }
    } else {
      assert scan == [];
    }
  }

  lemma {:induction false} RecoverIdle(s: State, j: JobId)
    requires !(j in s.jobs && Executing(s.jobs[j].status))
    ensures T.RecoverStale(s, [j]) == s
  {
    assert [j][1..] == [];
  }

  lemma {:induction false} RecoverJoins(s: State, first: seq<JobId>, second: seq<JobId>)
    ensures T.RecoverStale(s, first + second) == T.RecoverStale(T.RecoverStale(s, first), second)
    decreases |first|
  {
    if |first| == 0 {
      assert first + second == second;
    } else {
      assert (first + second)[1..] == first[1..] + second;
      var j := first[0];
      RecoverJoins(if j in s.jobs && Executing(s.jobs[j].status) then T.RecoverOne(s, j) else s, first[1..], second);
    }
  }

  /** Recovery leaves the rows of other jobs alone. */
  lemma {:induction false} RecoverSpares(s: State, scan: seq<JobId>, j: JobId)
    requires j !in scan
    ensures j in T.RecoverStale(s, scan).jobs <==> j in s.jobs
    ensures j in s.jobs ==> T.RecoverStale(s, scan).jobs[j] == s.jobs[j]
    decreases |scan|
  {
    if |scan| > 0 {
      var k := scan[0];
      RecoverSpares(if k in s.jobs && Executing(s.jobs[k].status) then T.RecoverOne(s, k) else s, scan[1..], j);
    }
  }
}
