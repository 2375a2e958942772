/** What the recovery of stale jobs does: it frees exactly the targets of the
    executing jobs among those whose lease has expired. */
module Recovery {
  import opened Common
  import opened Domain
  import opened Transitions
  import opened Invariants

  /** The jobs a recovery is for. */
  predicate Lapsed(s: State, expired: seq<JobId>, j: JobId) {
    j in expired && j in s.jobs && Executing(s.jobs[j].status)
  }

  function LapsedJobs(s: State, expired: seq<JobId>): set<JobId> {
    set j | j in s.jobs && Lapsed(s, expired, j)
  }

  /** The job failed and nobody holds it or its target. */
  ghost predicate Freed(s: State, s': State, j: JobId)
    requires j in s.jobs
  {
    var job := s.jobs[j];
    && j in s'.jobs && s'.jobs[j] == job.(status := Failed, lockedBy := None)
    && job.target !in s'.locks
    && (forall k :: k in s'.jobs && s'.jobs[k].target == job.target ==> Terminal(s'.jobs[k].status))
    && job.release in s.releases && job.release in s'.releases
    && s'.releases[job.release] == s.releases[job.release].(status := Failed)
  }

  /** Everything that does not belong to one of the jobs is as it was. */
  ghost predicate RestKept(s: State, s': State, expired: seq<JobId>) {
    && s'.jobs.Keys == s.jobs.Keys && s'.releases.Keys == s.releases.Keys
    && (forall j :: j in s.jobs && !Lapsed(s, expired, j) ==> s'.jobs[j] == s.jobs[j])
    && (forall t :: t in s'.locks <==> t in s.locks && !Lapsed(s, expired, s.locks[t].job))
    && (forall t :: t in s'.locks ==> s'.locks[t] == s.locks[t])
    && (forall id :: id in s.releases && (forall j :: Lapsed(s, expired, j) ==> s.jobs[j].release != id) ==>
          s'.releases[id] == s.releases[id])
    && s' == s.(jobs := s'.jobs, locks := s'.locks, releases := s'.releases)
  }

  ghost predicate Recovered(s: State, s': State, expired: seq<JobId>) {
    (forall j :: Lapsed(s, expired, j) ==> Freed(s, s', j)) && RestKept(s, s', expired)
  }

  // ------------------------------------------------------------- the tables afterwards

  predicate ReleaseLapsed(s: State, expired: seq<JobId>, id: ReleaseId) {
    exists j :: j in s.jobs && Lapsed(s, expired, j) && s.jobs[j].release == id
  }

  function JobsAfter(s: State, expired: seq<JobId>): map<JobId, Job> {
    map j | j in s.jobs :: if Lapsed(s, expired, j) then s.jobs[j].(status := Failed, lockedBy := None) else s.jobs[j]
  }

  function LocksAfter(s: State, expired: seq<JobId>): map<Target, Lock> {
    map t | t in s.locks && !Lapsed(s, expired, s.locks[t].job) :: s.locks[t]
  }

  function ReleasesAfter(s: State, expired: seq<JobId>): map<ReleaseId, Release> {
    map id | id in s.releases ::
      if ReleaseLapsed(s, expired, id) then s.releases[id].(status := Failed) else s.releases[id]
  }

  function Afterwards(s: State, expired: seq<JobId>): State {
    s.(jobs := JobsAfter(s, expired), locks := LocksAfter(s, expired), releases := ReleasesAfter(s, expired))
  }

  /** Failing the first job of a scan leaves the rest of the scan. */
  lemma {:induction false} OneLess(s: State, expired: seq<JobId>)
    requires |expired| > 0 && Lapsed(s, expired, expired[0]) && s.jobs[expired[0]].release in s.releases
    ensures
      var mid := RecoverOne(s, expired[0]);
      forall k :: Lapsed(mid, expired[1..], k) <==> Lapsed(s, expired, k) && k != expired[0]
  {
    assert forall k :: k in expired <==> k == expired[0] || k in expired[1..];
  }

  lemma {:induction false} OneFirst(s: State, expired: seq<JobId>)
    requires |expired| > 0 && Lapsed(s, expired, expired[0]) && s.jobs[expired[0]].release in s.releases
    ensures Afterwards(RecoverOne(s, expired[0]), expired[1..]) == Afterwards(s, expired)
  {
    var j, rest, mid := expired[0], expired[1..], RecoverOne(s, expired[0]);
    OneLess(s, expired);
    assert JobsAfter(mid, rest) == JobsAfter(s, expired);
    assert LocksAfter(mid, rest) == LocksAfter(s, expired);
    OneRelease(s, expired);
    assert ReleasesAfter(mid, rest) == ReleasesAfter(s, expired);
  }

  lemma {:induction false} OneRelease(s: State, expired: seq<JobId>)
    requires |expired| > 0 && Lapsed(s, expired, expired[0]) && s.jobs[expired[0]].release in s.releases
    ensures
      var mid := RecoverOne(s, expired[0]);
      forall id :: id != s.jobs[expired[0]].release ==>
        (ReleaseLapsed(mid, expired[1..], id) <==> ReleaseLapsed(s, expired, id))
    ensures ReleaseLapsed(s, expired, s.jobs[expired[0]].release)
  {
    var j, rest, mid := expired[0], expired[1..], RecoverOne(s, expired[0]);
    OneLess(s, expired);
    hide Lapsed;
    forall id | id != s.jobs[j].release
      ensures ReleaseLapsed(mid, rest, id) <==> ReleaseLapsed(s, expired, id)
    {
      if k :| k in s.jobs && Lapsed(s, expired, k) && s.jobs[k].release == id { assert mid.jobs[k] == s.jobs[k]; }
      if k :| k in mid.jobs && Lapsed(mid, rest, k) && mid.jobs[k].release == id { assert mid.jobs[k] == s.jobs[k]; }
    }
  }

  lemma {:induction false} NothingFirst(s: State, expired: seq<JobId>)
    requires |expired| > 0 && !Lapsed(s, expired, expired[0])
    ensures Afterwards(s, expired[1..]) == Afterwards(s, expired)
  {
    assert forall k :: k in expired <==> k == expired[0] || k in expired[1..];
    forall k ensures Lapsed(s, expired, k) <==> Lapsed(s, expired[1..], k) {}
    hide Lapsed;
  }

  lemma {:induction false} NothingAfter(s: State)
    ensures Afterwards(s, []) == s
  {
  }

  lemma {:induction false} RecoverIsAfterwards(s: State, expired: seq<JobId>)
    requires forall j :: j in s.jobs ==> s.jobs[j].release in s.releases
    ensures RecoverStale(s, expired) == Afterwards(s, expired)
    decreases |expired|
  {
    if |expired| == 0 {
      NothingAfter(s);
    } else {
      var j := expired[0];
      if j in s.jobs && Executing(s.jobs[j].status) {
        OneFirst(s, expired);
        ReleasesThere(s, j);
        hide RecoverOne, Afterwards;
        RecoverIsAfterwards(RecoverOne(s, j), expired[1..]);
      } else {
        NothingFirst(s, expired);
        hide Afterwards;
        RecoverIsAfterwards(s, expired[1..]);
      }
    }
  }

  lemma {:induction false} ReleasesThere(s: State, j: JobId)
    requires j in s.jobs && forall k :: k in s.jobs ==> s.jobs[k].release in s.releases
    ensures
      var mid := RecoverOne(s, j);
      forall k :: k in mid.jobs ==> mid.jobs[k].release in mid.releases
  {
  }

  // -------------------------------------------------------------------------- theorem

  /** Two unfinished jobs have different targets and releases. */
  lemma {:induction false} UnfinishedApart(s: State, i: JobId, j: JobId)
    requires Inv(s) && i in s.jobs && j in s.jobs && i != j
    requires !Terminal(s.jobs[i].status) && !Terminal(s.jobs[j].status)
    ensures s.jobs[i].target != s.jobs[j].target && s.jobs[i].release != s.jobs[j].release
  {
    assert Apart(s, i, j);
    JobFacts(s, i);
    JobFacts(s, j);
  }

  lemma {:induction false} FreedAfterwards(s: State, expired: seq<JobId>, j: JobId)
    requires Inv(s) && Lapsed(s, expired, j)
    ensures Freed(s, Afterwards(s, expired), j)
  {
    JobFacts(s, j);
    LockFacts(s, j);
    var s', t := Afterwards(s, expired), s.jobs[j].target;
    forall k | k in s'.jobs && s'.jobs[k].target == t ensures Terminal(s'.jobs[k].status) {
      if !Terminal(s.jobs[k].status) && k != j { UnfinishedApart(s, j, k); }
    }
    assert ReleaseLapsed(s, expired, s.jobs[j].release);
  }

  /** Recovery, exactly: every executing job of the scan ends FAILED with no holder,
      its target has no lock row and no unfinished job, its release is FAILED; and
      nothing else changes. */
  lemma {:induction false} RecoveryFreesExactlyTheLapsed(s: State, expired: seq<JobId>)
    requires Inv(s)
    ensures Recovered(s, RecoverStale(s, expired), expired)
  {
    forall j | j in s.jobs ensures s.jobs[j].release in s.releases { JobFacts(s, j); }
    RecoverIsAfterwards(s, expired);
    hide Inv, Freed, Lapsed, RecoverStale;
    forall j | Lapsed(s, expired, j) ensures Freed(s, Afterwards(s, expired), j) { FreedAfterwards(s, expired, j); }
    forall id | id in s.releases && (forall j :: Lapsed(s, expired, j) ==> j in s.jobs && s.jobs[j].release != id)
      ensures !ReleaseLapsed(s, expired, id) {}
    LapsedIsThere(s, expired);
  }

  lemma LapsedIsThere(s: State, expired: seq<JobId>)
    ensures forall j :: Lapsed(s, expired, j) ==> j in s.jobs
  {
  }

  /** After a recovery no worker holds one of the jobs, and their targets are free. */
  lemma {:induction false} LapsedAreFree(s: State, expired: seq<JobId>, j: JobId, w: WorkerId)
    requires Inv(s) && Lapsed(s, expired, j)
    ensures
      var s' := RecoverStale(s, expired);
      !OwnsJob(s', w, j) && !HoldsLease(s', w, j) && !TargetBusy(s', s.jobs[j].target)
  {
    hide Inv, RecoverStale;
    RecoveryFreesExactlyTheLapsed(s, expired);
    assert Freed(s, RecoverStale(s, expired), j);
  }
}
