/** All processes together: whole behaviours of the pipeline, and what a terminal
    status means in them. */
module PipelineRuns {
  import opened Common
  import opened Domain
  import opened Transitions
  import opened Invariants
  import opened Fencing
  import opened Pipeline
  import opened PipelineMoves

  // --------------------------------------------------------------- the whole system

  /** A rollback that went through re-created its source's rows. */
  ghost predicate Restored(s: State, j: JobId)
    requires j in s.jobs
  {
    s.jobs[j].status.RolledBack? ==> s.jobs[j].source.Some? && ImagesOf(s, j) == SourceRows(s, s.jobs[j].source.value)
  }

  /** A rollback's process works on its source's rows. */
  ghost predicate Sourced(s: State, j: JobId, p: Proc) {
    Owned(ViewOf(s, j), p) && s.jobs[j].operation.Rollback? ==>
      s.jobs[j].source.Some? && RowsOf(p.images, |p.images|) == SourceRows(s, s.jobs[j].source.value)
  }

  ghost predicate JobSound(sys: Sys, j: JobId) {
    && Blank(ViewOf(sys.tables, j)) && Complete(ViewOf(sys.tables, j))
    && (j in sys.tables.jobs ==> Restored(sys.tables, j))
    && (j in sys.procs ==> Follows(ViewOf(sys.tables, j), sys.procs[j]) && Sourced(sys.tables, j, sys.procs[j]))
  }

  ghost predicate SysInv(sys: Sys) {
    Inv(sys.tables) && forall j {:trigger JobSound(sys, j)} :: JobSound(sys, j)
  }

  /** The source of a rollback is a success, so its rows stay. */
  lemma {:induction false} SourceStays(s: State, s': State, j: JobId)
    requires Inv(s) && Evolves(s, s') && j in s.jobs && s.jobs[j].source.Some?
    ensures SourceRows(s', s.jobs[j].source.value) == SourceRows(s, s.jobs[j].source.value)
  {
    JobFacts(s, j);
    assert JobEvolves(s, s', s.jobs[j].source.value.job);
    hide Inv, Evolves;
  }

  /** A job whose view stays, or ends badly, stays restored and sourced. */
  lemma {:induction false} OutsideSources(s: State, s': State, j: JobId, p: Proc)
    requires Inv(s) && Evolves(s, s') && Outside(ViewOf(s, j), ViewOf(s', j))
    requires j in s.jobs ==> Restored(s, j)
    ensures j in s'.jobs ==> Restored(s', j)
    ensures Sourced(s, j, p) ==> Sourced(s', j, p)
  {
    hide Inv, Evolves, SourceRows, ImagesOf, StepsOf;
    if j in s.jobs && s.jobs[j].source.Some? { SourceStays(s, s', j); }
  }

  /** A claim that is refused changes at most the queued job, to FAILED. */
  lemma {:induction false} ClaimViews(s: State, w: WorkerId, pick: Option<JobId>, loadable: bool, k: JobId)
    ensures
      var (s', reply) := ClaimJob(s, w, pick, loadable);
      var v, v' := ViewOf(s, k), ViewOf(s', k);
      if reply.Done? && pick == Some(k) then
        && v.job.Some? && v.job.value.status.Queued?
        && v' == v.(job := Some(v.job.value.(status := Validating, attempts := v.job.value.attempts + 1,
           lockedBy := Some(w))))
      else v' == v || (v'.job.Some? && v'.steps == v.steps && v'.images == v.images && v'.job.value.status.Failed?)
  {
    hide RollbackImagesReady, WriteJob;
  }

  lemma {:induction false} NewProcFollows(v: View, v': View, p: Proc)
    requires Blank(v) && v.job.Some? && v.job.value.status.Queued? && p.phase == Beginning(0)
    requires v'.steps == v.steps && v'.images == v.images && v'.job.Some?
    requires v'.job.value.operation == p.operation && Executing(v'.job.value.status)
    requires p.operation.Rollback? ==> forall m :: 0 <= m < |p.images| ==> p.images[m].image.digest.Some?
    ensures Blank(v') && Complete(v') && Follows(v', p)
  {
    hide PlanOf;
    assert Finished(p.Plan(), 0) == [];
  }

  lemma {:induction false} ClaimedSound(sys: Sys, e: Event, j: JobId)
    requires SysInv(sys) && e.Claim? && Enabled(sys, e) && e.pick == Some(j)
    requires ClaimJob(sys.tables, e.worker, e.pick, e.loadable).1.Done?
    requires Evolves(sys.tables, ClaimJob(sys.tables, e.worker, e.pick, e.loadable).0)
    ensures
      var s, s' := sys.tables, ClaimJob(sys.tables, e.worker, e.pick, e.loadable).0;
      && j in s.jobs && j in s'.jobs
      && var p := Proc(e.worker, s.jobs[j].operation, e.preCheck, e.images, Beginning(0));
         && Blank(ViewOf(s', j)) && Complete(ViewOf(s', j)) && Follows(ViewOf(s', j), p)
         && Restored(s', j) && Sourced(s', j, p)
  {
    assert JobSound(sys, j);
    var s, s' := sys.tables, ClaimJob(sys.tables, e.worker, e.pick, e.loadable).0;
    ClaimViews(s, e.worker, e.pick, e.loadable, j);
    hide SysInv, Evolves, Inv, ClaimJob, SourceRows, RowsOf, ImagesOf, StepsOf, Blank, Complete, Follows;
    var p := Proc(e.worker, s.jobs[j].operation, e.preCheck, e.images, Beginning(0));
    NewProcFollows(ViewOf(s, j), ViewOf(s', j), p);
    if s.jobs[j].source.Some? { SourceStays(s, s', j); }
  }

  /** Tables that look to job j as after somebody else's transaction. */
  lemma {:induction false} OutsideSound(sys: Sys, sys': Sys, j: JobId)
    requires SysInv(sys) && Evolves(sys.tables, sys'.tables) && Outside(ViewOf(sys.tables, j), ViewOf(sys'.tables, j))
    requires j in sys'.procs ==> j in sys.procs && sys'.procs[j] == sys.procs[j]
    ensures JobSound(sys', j)
  {
    assert JobSound(sys, j);
    var s, s' := sys.tables, sys'.tables;
    hide SysInv, Complete, Follows, Blank, Restored, Sourced, Outside, Evolves, Inv;
    OutsideKeeps(ViewOf(s, j), ViewOf(s', j));
    OutsideSources(s, s', j, if j in sys.procs then sys.procs[j] else Proc(0, Deploy, false, [], Beginning(0)));
  }

  lemma {:induction false} ElsewhereSound(sys: Sys, policy: Policy, a: Action, j: JobId)
    requires SysInv(sys) && !ProcessCall(a)
    ensures JobSound(Happen(sys, policy, Elsewhere(a)), j)
  {
    assert JobSound(sys, j);
    hide SysInv, Next, JobSound, Outside, Evolves, Inv;
    ElsewhereOutside(sys.tables, policy, a, j);
    NextEvolves(sys.tables, policy, a);
    OutsideSound(sys, Happen(sys, policy, Elsewhere(a)), j);
  }

  lemma {:induction false} ClaimSound(sys: Sys, policy: Policy, e: Event, j: JobId)
    requires SysInv(sys) && e.Claim? && Enabled(sys, e)
    ensures JobSound(Happen(sys, policy, e), j)
  {
    hide SysInv, JobSound, Complete, Follows, Blank, Restored, Sourced, Outside, Evolves, Inv, ClaimJob, Enabled,
         ViewOf;
    var s, sys' := sys.tables, Happen(sys, policy, e);
    ClaimEvolves(s, e.worker, e.pick, e.loadable);
    ClaimViews(s, e.worker, e.pick, e.loadable, j);
    if ClaimJob(s, e.worker, e.pick, e.loadable).1.Done? && e.pick == Some(j) {
      ClaimedSound(sys, e, j);
      NewProcSound(sys', j);
    } else {
      FailedOutside(ViewOf(s, j), ViewOf(sys'.tables, j));
      OutsideSound(sys, sys', j);
    }
  }

  lemma {:induction false} NewProcSound(sys: Sys, j: JobId)
    requires j in sys.tables.jobs && j in sys.procs
    requires Blank(ViewOf(sys.tables, j)) && Complete(ViewOf(sys.tables, j))
    requires Follows(ViewOf(sys.tables, j), sys.procs[j])
    requires Restored(sys.tables, j) && Sourced(sys.tables, j, sys.procs[j])
    ensures JobSound(sys, j)
  {
  }

  /** A move is at most one transaction, about the process's own job. */
  lemma {:induction false} MoveIsCall(s: State, policy: Policy, j: JobId, p: Proc, luck: Luck)
    ensures
      var s' := Move(s, policy, j, p, luck).0;
      s' == s || exists a :: ConcernsJob(a, j) && a.worker == p.worker && s' == Next(s, policy, a)
  {
    hide Apply, PlanOf, RecordOf, RecordsIn, Next;
    var s' := Move(s, policy, j, p, luck).0;
    if s' != s {
      var a := match p.phase
        case Beginning(i) => ABeginStep(p.worker, j, p.Plan()[i])
        case Working(i, number, calls, _) =>
          if luck.output.Some? then ALog(p.worker, j, luck.output.value.(step := number))
          else AImage(p.worker, j, p.images[calls].path, RecordOf(p, i, calls, luck.digest))
        case Closing(_, number, ok) => AFinishStep(p.worker, j, number, ok)
        case Ending(status) => AFinishJob(p.worker, j, status);
      assert ConcernsJob(a, j) && s' == Next(s, policy, a);
    }
  }

  lemma {:induction false} MoveEvolves(s: State, policy: Policy, j: JobId, p: Proc, luck: Luck)
    requires Inv(s)
    ensures var s' := Move(s, policy, j, p, luck).0; Inv(s') && Evolves(s, s')
  {
    hide Inv, Evolves, Move, Next;
    MoveIsCall(s, policy, j, p, luck);
    EvolvesReflexive(s);
    var s' := Move(s, policy, j, p, luck).0;
    if s' != s {
      var a :| ConcernsJob(a, j) && a.worker == p.worker && s' == Next(s, policy, a);
      NextKeeps(s, policy, a);
      NextEvolves(s, policy, a);
    }
  }

  /** A process keeps its inputs. */
  lemma {:induction false} MoveInputs(s: State, policy: Policy, j: JobId, p: Proc, luck: Luck)
    ensures var p' := Move(s, policy, j, p, luck).1; p'.Some? ==> p'.value == p.(phase := p'.value.phase)
  {
    hide Call, PlanOf, RecordOf, RecordsIn;
  }

  /** A job row is completed by its owner's terminal write only. */
  lemma {:induction false} MoveRow(s: State, policy: Policy, j: JobId, p: Proc, luck: Luck)
    ensures
      var s' := Move(s, policy, j, p, luck).0;
      && (j in s'.jobs ==> j in s.jobs && s'.jobs[j] == s.jobs[j].(status := s'.jobs[j].status))
      && (j in s'.jobs && !Terminal(s'.jobs[j].status) ==> !Terminal(s.jobs[j].status))
      && (j in s'.jobs && Terminal(s'.jobs[j].status) && s'.jobs[j] != s.jobs[j] ==>
            p.phase == Ending(s'.jobs[j].status) && OwnsJob(s, p.worker, j) && ImagesOf(s', j) == ImagesOf(s, j))
  {
    hide Call, PlanOf, RecordOf, RecordsIn, StepsOf, ImagesOf;
    match p.phase
    case Beginning(i) =>
      if i < |p.Plan()| { CallRow(s, policy, ABeginStep(p.worker, j, p.Plan()[i]), j, luck.fate); }
    case Working(i, number, calls, _) =>
      if luck.output.Some? {
        CallRow(s, policy, ALog(p.worker, j, luck.output.value.(step := number)), j, luck.fate);
      } else if i < |p.Plan()| && calls < RecordsIn(p, i) {
        CallRow(s, policy, AImage(p.worker, j, p.images[calls].path, RecordOf(p, i, calls, luck.digest)), j, luck.fate);
      }
    case Closing(_, number, ok) => CallRow(s, policy, AFinishStep(p.worker, j, number, ok), j, luck.fate);
    case Ending(status) => CallRow(s, policy, AFinishJob(p.worker, j, status), j, luck.fate);
  }

  lemma {:induction false} CallRow(s: State, policy: Policy, a: Action, j: JobId, fate: Fate)
    requires ConcernsJob(a, j)
    ensures
      var s' := Call(s, policy, a, fate).0;
      && (j in s'.jobs <==> j in s.jobs)
      && (j in s.jobs ==> s'.jobs[j] == s.jobs[j].(status := s'.jobs[j].status))
      && (j in s.jobs && s'.jobs[j] != s.jobs[j] ==>
            && OwnsJob(s, a.worker, j)
            && if a.AFinishJob? then s'.jobs[j].status == a.status && ImagesOf(s', j) == ImagesOf(s, j)
               else Executing(s'.jobs[j].status))
  {
    hide Apply;
    CallViews(s, policy, a, j, fate);
    assert ViewOf(Call(s, policy, a, fate).0, j).job.Some? <==> j in Call(s, policy, a, fate).0.jobs;
  }

  lemma {:induction false} StepSound(sys: Sys, policy: Policy, i: JobId, luck: Luck, j: JobId)
    requires SysInv(sys) && i in sys.procs
    ensures JobSound(Happen(sys, policy, Event.Step(i, luck)), j)
  {
    assert JobSound(sys, i) && JobSound(sys, j);
    var s, p := sys.tables, sys.procs[i];
    var (s', p') := Move(s, policy, i, p, luck);
    hide SysInv, Inv, Evolves, Move;
    MoveEvolves(s, policy, i, p, luck);
    MoveKeeps(s, policy, i, p, luck);
    if j != i {
      hide JobSound, Complete, Follows, Blank, Outside, ViewOf;
      SameOutside(ViewOf(s, j));
      OutsideSound(sys, Happen(sys, policy, Event.Step(i, luck)), j);
    } else {
      MoveInputs(s, policy, i, p, luck);
      MoveRow(s, policy, i, p, luck);
      OwnSources(s, s', i, p, p');
      hide Complete, Follows, Blank, Restored, Sourced, ViewOf;
    }
  }

  lemma {:induction false} OwnSources(s: State, s': State, j: JobId, p: Proc, p': Option<Proc>)
    requires Inv(s) && Evolves(s, s') && Follows(ViewOf(s, j), p) && Sourced(s, j, p)
    requires j in s.jobs ==> Restored(s, j)
    requires p'.Some? ==> p'.value == p.(phase := p'.value.phase)
    requires j in s'.jobs ==> j in s.jobs && s'.jobs[j] == s.jobs[j].(status := s'.jobs[j].status)
    requires j in s'.jobs && !Terminal(s'.jobs[j].status) ==> !Terminal(s.jobs[j].status)
    requires j in s'.jobs && Terminal(s'.jobs[j].status) && s'.jobs[j] != s.jobs[j] ==>
               p.phase == Ending(s'.jobs[j].status) && OwnsJob(s, p.worker, j) && ImagesOf(s', j) == ImagesOf(s, j)
    ensures j in s'.jobs ==> Restored(s', j)
    ensures p'.Some? ==> Sourced(s', j, p'.value)
  {
    if j in s.jobs {
      JobFacts(s, j);
      assert JobEvolves(s, s', j);
      hide Inv, Evolves, SourceRows, RowsOf, PlanOf;
      if s.jobs[j].source.Some? { SourceStays(s, s', j); }
    }
  }

  lemma {:induction false} CrashSound(sys: Sys, policy: Policy, i: JobId, j: JobId)
    requires SysInv(sys)
    ensures JobSound(Happen(sys, policy, Crash(i)), j)
  {
    assert JobSound(sys, j);
    hide SysInv, Complete, Follows, Blank, Restored, Sourced, ViewOf;
  }

  lemma {:induction false} HappenKeeps(sys: Sys, policy: Policy, e: Event)
    requires SysInv(sys) && Enabled(sys, e)
    ensures SysInv(Happen(sys, policy, e))
  {
    hide SysInv, JobSound, Enabled, Inv, Happen;
    TablesKeep(sys, policy, e);
    forall j ensures JobSound(Happen(sys, policy, e), j) {
      match e
      case Elsewhere(a) => assert !ProcessCall(a) by { ElsewhereIsNoCall(sys, e); } ElsewhereSound(sys, policy, a, j);
      case Claim(_, _, _, _, _) => ClaimSound(sys, policy, e, j);
      case Step(i, luck) => assert i in sys.procs by { StepHasProc(sys, e); } StepSound(sys, policy, i, luck, j);
      case Crash(i) => CrashSound(sys, policy, i, j);
    }
    Gather(Happen(sys, policy, e));
  }

  lemma {:induction false} ElsewhereIsNoCall(sys: Sys, e: Event)
    requires Enabled(sys, e) && e.Elsewhere?
    ensures !ProcessCall(e.a)
  {
  }

  lemma {:induction false} StepHasProc(sys: Sys, e: Event)
    requires Enabled(sys, e) && e.Step?
    ensures e.job in sys.procs
  {
  }

  lemma {:induction false} Gather(sys: Sys)
    requires Inv(sys.tables) && forall j {:trigger JobSound(sys, j)} :: JobSound(sys, j)
    ensures SysInv(sys)
  {
  }

  lemma {:induction false} TablesKeep(sys: Sys, policy: Policy, e: Event)
    requires SysInv(sys) && Enabled(sys, e)
    ensures Inv(Happen(sys, policy, e).tables)
  {
    hide JobSound, Inv, Move, Next, Loaded;
    match e
    case Elsewhere(a) => NextKeeps(sys.tables, policy, a);
    case Claim(w, pick, loadable, _, _) => ClaimKeeps(sys.tables, w, pick, loadable);
    case Step(j, luck) => MoveEvolves(sys.tables, policy, j, sys.procs[j], luck);
    case Crash(_) =>
  }

  const START := Sys(EMPTY, map[])

  lemma {:induction false} StartSound()
    ensures SysInv(START)
  {
    InitOk();
    forall j ensures JobSound(START, j) {}
  }

  lemma {:induction false} PlayKeeps(sys: Sys, policy: Policy, events: seq<Event>)
    requires SysInv(sys) && Behaviour(sys, policy, events)
    ensures SysInv(Play(sys, policy, events))
    decreases |events|
  {
    hide SysInv, Enabled, Happen;
    if |events| > 0 {
      HappenKeeps(sys, policy, events[0]);
      PlayKeeps(Happen(sys, policy, events[0]), policy, events[1..]);
    }
  }

  // ---------------------------------------------------------------------- theorems

  /** SUCCESS and ROLLED_BACK mean the whole plan: in every behaviour, the step
      rows of such a job are all the steps of its operation, each finished
      successfully, in the plan's order and nothing else, so the operation was
      carried out, each thing in its turn and verification last; the terminal status
      is the operation's own; and every image row of a SUCCESS job has its digest. */
  lemma {:induction false} TerminalMeansWholePlan(policy: Policy, events: seq<Event>, j: JobId)
    requires Behaviour(START, policy, events)
    requires
      var s := Play(START, policy, events).tables;
      j in s.jobs && (s.jobs[j].status.Success? || s.jobs[j].status.RolledBack?)
    ensures
      var s := Play(START, policy, events).tables;
      var op := s.jobs[j].operation;
      && (exists preCheck: bool :: StepsOf(s, j) == Finished(PlanOf(op, preCheck), |PlanOf(op, preCheck)|)
                                   && CarriedOut(op, preCheck, StepsOf(s, j)))
      && s.jobs[j].status == (if op.Deploy? then Success else RolledBack)
      && (op.Deploy? ==> forall path :: path in ImagesOf(s, j) ==> ImagesOf(s, j)[path].digest.Some?)
  {
    hide Play, Behaviour;
    StartSound();
    PlayKeeps(START, policy, events);
    var s := Play(START, policy, events).tables;
    assert JobSound(Play(START, policy, events), j);
    hide SysInv, PlanOf, Finished, CarriedOut;
    var op := s.jobs[j].operation;
    var preCheck :| StepsOf(s, j) == Finished(PlanOf(op, preCheck), |PlanOf(op, preCheck)|);
    PlanCarriesOut(op, preCheck);
  }

  lemma {:induction false} DeployingIsAfterPush(preCheck: bool, i: nat)
    requires i < |PlanOf(Deploy, preCheck)| && PlanOf(Deploy, preCheck)[i].Deploying?
    ensures i > PushAt(preCheck)
  {
  }

  /** The row a move of a process adds is that of the step it begins. */
  lemma {:induction false} AddedRow(s: State, policy: Policy, j: JobId, p: Proc, luck: Luck, row: Domain.Step)
    requires StepsOf(Move(s, policy, j, p, luck).0, j) == StepsOf(s, j) + [row]
    ensures p.phase.Beginning? && p.phase.i < |p.Plan()| && row.name == p.Plan()[p.phase.i] && OwnsJob(s, p.worker, j)
  {
    hide Call, PlanOf, RecordOf, RecordsIn, StepsOf;
    var s' := Move(s, policy, j, p, luck).0;
    assert |StepsOf(s', j)| == |StepsOf(s, j)| + 1 && StepsOf(s', j)[|StepsOf(s, j)|] == row;
    match p.phase
    case Beginning(i) =>
      if i < |p.Plan()| { CallRows(s, policy, ABeginStep(p.worker, j, p.Plan()[i]), j, luck.fate); }
    case Working(i, number, calls, _) =>
      if luck.output.Some? {
        CallRows(s, policy, ALog(p.worker, j, luck.output.value.(step := number)), j, luck.fate);
      } else if i < |p.Plan()| && calls < RecordsIn(p, i) {
        CallRows(s, policy, AImage(p.worker, j, p.images[calls].path, RecordOf(p, i, calls, luck.digest)), j,
          luck.fate);
      }
    case Closing(_, number, ok) => CallRows(s, policy, AFinishStep(p.worker, j, number, ok), j, luck.fate);
    case Ending(status) => CallRows(s, policy, AFinishJob(p.worker, j, status), j, luck.fate);
  }

  /** Beginning a step adds its row; no other call of a process adds one. */
  lemma {:induction false} CallRows(s: State, policy: Policy, a: Action, j: JobId, fate: Fate)
    requires ConcernsJob(a, j)
    ensures
      var s' := Call(s, policy, a, fate).0;
      || |StepsOf(s', j)| == |StepsOf(s, j)|
      || (a.ABeginStep? && OwnsJob(s, a.worker, j) && StepsOf(s', j) == StepsOf(s, j) + [Domain.Step(a.name, Running)])
  {
    hide Apply, StepsOf;
    CallViews(s, policy, a, j, fate);
    assert ViewOf(s, j).steps == StepsOf(s, j);
    assert ViewOf(Call(s, policy, a, fate).0, j).steps == StepsOf(Call(s, policy, a, fate).0, j);
  }

  lemma {:induction false} ElsewhereAddsNone(sys: Sys, policy: Policy, a: Action, j: JobId)
    requires SysInv(sys) && !ProcessCall(a)
    ensures |StepsOf(Next(sys.tables, policy, a), j)| <= |StepsOf(sys.tables, j)|
  {
    SoundJob(sys, j);
    hide SysInv, Next, Complete, Follows, Blank, Restored, Sourced, Inv, StepsOf;
    var s, s' := sys.tables, Next(sys.tables, policy, a);
    ElsewhereOutside(s, policy, a, j);
    assert ViewOf(s', j).steps == StepsOf(s', j) && ViewOf(s, j).steps == StepsOf(s, j);
  }

  lemma {:induction false} ClaimAddsNone(s: State, w: WorkerId, pick: Option<JobId>, loadable: bool, j: JobId)
    ensures |StepsOf(ClaimJob(s, w, pick, loadable).0, j)| == |StepsOf(s, j)|
  {
    hide ClaimJob, StepsOf;
    ClaimViews(s, w, pick, loadable, j);
    var s' := ClaimJob(s, w, pick, loadable).0;
    assert ViewOf(s', j).steps == StepsOf(s', j) && ViewOf(s, j).steps == StepsOf(s, j);
  }

  lemma {:induction false} OtherMoveAddsNone(sys: Sys, policy: Policy, i: JobId, luck: Luck, j: JobId)
    requires SysInv(sys) && i in sys.procs && i != j
    ensures |StepsOf(Move(sys.tables, policy, i, sys.procs[i], luck).0, j)| == |StepsOf(sys.tables, j)|
  {
    SoundJob(sys, i);
    hide SysInv, Move, Complete, Blank, Restored, Sourced, Inv, Follows;
    var s, s' := sys.tables, Move(sys.tables, policy, i, sys.procs[i], luck).0;
    MoveKeeps(s, policy, i, sys.procs[i], luck);
    assert ViewOf(s', j).steps == StepsOf(s', j) && ViewOf(s, j).steps == StepsOf(s, j);
  }

  /** Only a job's own process adds step rows to it. */
  lemma {:induction false} OnlyStepsAddRows(sys: Sys, policy: Policy, e: Event, j: JobId, row: Domain.Step)
    requires SysInv(sys) && Enabled(sys, e)
    requires StepsOf(Happen(sys, policy, e).tables, j) == StepsOf(sys.tables, j) + [row]
    ensures e.Step? && e.job == j && j in sys.procs
  {
    assert |StepsOf(Happen(sys, policy, e).tables, j)| == |StepsOf(sys.tables, j)| + 1;
    hide SysInv, StepsOf, Next, Move, ClaimJob, Loaded;
    match e {
      case Elsewhere(a) => ElsewhereAddsNone(sys, policy, a, j);
      case Claim(w, pick, loadable, _, _) => ClaimAddsNone(sys.tables, w, pick, loadable, j);
      case Step(i, luck) => if i != j { OtherMoveAddsNone(sys, policy, i, luck, j); }
      case Crash(_) =>
    }
  }

  /** Nothing is deployed that was not pushed: whatever event of whatever behaviour
      begins the DEPLOYING step of a deployment, every package image of the job's
      process has its digest by then. */
  lemma {:induction false} DeploysPushedImagesOnly(
      policy: Policy, events: seq<Event>, e: Event, j: JobId, row: Domain.Step)
    requires Behaviour(START, policy, events) && Enabled(Play(START, policy, events), e)
    requires
      var sys := Play(START, policy, events);
      && j in sys.tables.jobs && sys.tables.jobs[j].operation.Deploy? && row.name.Deploying?
      && StepsOf(Happen(sys, policy, e).tables, j) == StepsOf(sys.tables, j) + [row]
    ensures
      var sys := Play(START, policy, events);
      && j in sys.procs
      && forall m :: 0 <= m < |sys.procs[j].images| ==>
           HasDigest(ImagesOf(sys.tables, j), sys.procs[j].images[m].path)
  {
    hide Play, Behaviour;
    StartSound();
    PlayKeeps(START, policy, events);
    var sys := Play(START, policy, events);
    hide Happen, Enabled, SysInv;
    OnlyStepsAddRows(sys, policy, e, j, row);
    assert JobSound(sys, j) by { SoundJob(sys, j); }
    StepMoves(sys, policy, e);
    var p := sys.procs[j];
    AddedRow(sys.tables, policy, j, p, e.luck, row);
    hide Move, PlanOf, HasDigest;
    assert Follows(ViewOf(sys.tables, j), p) && Owned(ViewOf(sys.tables, j), p);
    assert p.operation.Deploy?;
    DeployingIsAfterPush(p.preCheck, p.phase.i);
  }

  lemma SoundJob(sys: Sys, j: JobId)
    requires SysInv(sys)
    ensures Inv(sys.tables) && JobSound(sys, j)
  {
    hide Inv;
  }

  lemma StepMoves(sys: Sys, policy: Policy, e: Event)
    requires e.Step? && e.job in sys.procs
    ensures Happen(sys, policy, e).tables == Move(sys.tables, policy, e.job, sys.procs[e.job], e.luck).0
  {
    hide Move;
  }

  /** A rollback that went through has re-created exactly the image rows of the
      deployment it returned to: same paths and destinations, same digests in
      normal form. */
  lemma {:induction false} RollbackRestoresImages(policy: Policy, events: seq<Event>, j: JobId)
    requires Behaviour(START, policy, events)
    requires
      var s := Play(START, policy, events).tables;
      j in s.jobs && s.jobs[j].status.RolledBack?
    ensures
      var s := Play(START, policy, events).tables;
      s.jobs[j].source.Some? && ImagesOf(s, j) == SourceRows(s, s.jobs[j].source.value)
  {
    hide Play, Behaviour;
    StartSound();
    PlayKeeps(START, policy, events);
    assert JobSound(Play(START, policy, events), j);
    hide SysInv;
  }

  /** So a deployment with images, stored under proper names, can always be
      rolled back to: a claim never finds its rows incomplete. */
  lemma {:induction false} DeployedImagesAreReady(policy: Policy, events: seq<Event>, job: Job)
    requires Behaviour(START, policy, events)
    requires
      var s := Play(START, policy, events).tables;
      && job.source.Some? && IsBasis(s, job.target, job.source.value)
      && |ImagesOf(s, job.source.value.job)| > 0
      && forall path :: path in ImagesOf(s, job.source.value.job) ==>
           path != "" && ImagesOf(s, job.source.value.job)[path].destination != ""
    ensures RollbackImagesReady(Play(START, policy, events).tables, job)
  {
    hide Play, Behaviour, PlanOf, Finished;
    TerminalMeansWholePlan(policy, events, job.source.value.job);
  }
}
