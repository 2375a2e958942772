/** What a process of the pipeline achieves: it stays on its way to a good end exactly
    as long as nothing goes wrong, and left undisturbed it gets there. */
module PipelineProgress {
  import opened Common
  import opened Domain
  import opened Transitions
  import opened Invariants
  import opened Fencing
  import opened Pipeline
  import opened PipelineMoves
  import opened PipelineRuns
  import opened RunnerOutcomes

  /** Nothing went wrong so far. */
  predicate Promising(p: Proc) {
    match p.phase
    case Beginning(_) => true
    case Working(_, _, _, clean) => clean
    case Closing(_, _, ok) => ok
    case Ending(status) => status == TerminalOf(p.operation)
  }

  /** Nothing goes wrong in a move: an output row is stored and answered for; otherwise
      the work does not fail and the call, if one is made, is answered. */
  predicate Favourable(p: Proc, luck: Luck)
    requires p.phase.Working? ==> p.phase.i < |p.Plan()|
  {
    match p.phase
    case Beginning(i) => !luck.fails && (i < |p.Plan()| ==> luck.fate.Answered?)
    case Working(i, _, calls, _) =>
      if luck.output.Some? then luck.fate.Answered?
      else !luck.fails && (calls < RecordsIn(p, i) ==> luck.fate.Answered?)
    case Closing(_, _, _) => luck.fate.Answered?
    case Ending(_) => !luck.fate.NeverSent?
  }

  /** The database accepts every call an owner's process makes. */
  lemma {:induction false} CallAccepted(s: State, policy: Policy, a: Action, j: JobId)
    requires Inv(s) && ConcernsJob(a, j) && OwnsJob(s, a.worker, j)
    requires a.AFinishStep? ==> a.number < |StepsOf(s, j)|
    requires a.ALog? ==> a.row.step < |StepsOf(s, j)|
    requires a.AFinishJob? ==> a.status == Failed || a.status == TerminalOf(s.jobs[j].operation)
    ensures Apply(s, policy, a).1.Done?
  {
    LeaseMeans(s, a.worker, j);
    if a.AFinishJob? { FinishExactly(s, a.worker, j, a.status); }
    hide Inv, HoldsLease, OwnsJob, Holds, FinishJob;
  }

  /** A call of an owner's process: the answer is what happened to the call, and if the
      call was sent it took effect. */
  lemma {:induction false} OwnCall(s: State, policy: Policy, a: Action, j: JobId, fate: Fate)
    requires Inv(s) && ConcernsJob(a, j) && OwnsJob(s, a.worker, j)
    requires a.AFinishStep? ==> a.number < |StepsOf(s, j)|
    requires a.ALog? ==> a.row.step < |StepsOf(s, j)|
    requires a.AFinishJob? ==> a.status == Failed || a.status == TerminalOf(s.jobs[j].operation)
    ensures
      var (s', ok) := Call(s, policy, a, fate);
      && ok == fate.Answered? && j in s.jobs
      && ViewOf(s', j) == (if fate.NeverSent? then ViewOf(s, j) else CallView(ViewOf(s, j), a))
  {
    CallAccepted(s, policy, a, j);
    CallOwn(s, policy, a, j);
    hide Inv, Apply, ViewOf, CallView;
  }

  lemma {:induction false} OwnerOwns(s: State, j: JobId, p: Proc)
    ensures Owned(ViewOf(s, j), p) <==> OwnsJob(s, p.worker, j)
  {
  }

  /** The row of the step a process is in. */
  lemma {:induction false} RowIsThere(s: State, j: JobId, p: Proc)
    requires Follows(ViewOf(s, j), p) && Owned(ViewOf(s, j), p)
    ensures p.phase.Working? || p.phase.Closing? ==> p.phase.number < |StepsOf(s, j)|
  {
    hide PlanOf, Images;
  }

  /** A process that owns its job, anywhere before its last write: it still owns the job
      after a move, and is on its way to a good end exactly if it was and nothing went
      wrong in the move. */
  lemma {:induction false} MoveExactly(s: State, policy: Policy, j: JobId, p: Proc, luck: Luck)
    requires Inv(s) && Follows(ViewOf(s, j), p) && Owned(ViewOf(s, j), p) && !p.phase.Ending?
    ensures
      var (s', p') := Move(s, policy, j, p, luck);
      && p'.Some? && p'.value == p.(phase := p'.value.phase) && Owned(ViewOf(s', j), p'.value)
      && (Promising(p'.value) <==> Promising(p) && Favourable(p, luck))
  {
    hide Inv, Call, PlanOf, Finished, Images, RecordOf, RecordsIn, ViewOf;
    var v := ViewOf(s, j);
    OwnerOwns(s, j, p);
    RowIsThere(s, j, p);
    match p.phase
    case Beginning(i) =>
      if i < |p.Plan()| { OwnCall(s, policy, ABeginStep(p.worker, j, p.Plan()[i]), j, luck.fate); }
    case Working(i, number, calls, _) =>
      if luck.output.Some? {
        OwnCall(s, policy, ALog(p.worker, j, luck.output.value.(step := number)), j, luck.fate);
      } else if calls < RecordsIn(p, i) {
        OwnCall(s, policy, AImage(p.worker, j, p.images[calls].path, RecordOf(p, i, calls, luck.digest)), j, luck.fate);
      }
    case Closing(_, number, ok) => OwnCall(s, policy, AFinishStep(p.worker, j, number, ok), j, luck.fate);
  }

  /** The last write of a process that owns its job ends the job as the process was
      going to, unless the write was never sent; the process is over. */
  lemma {:induction false} EndExactly(s: State, policy: Policy, j: JobId, p: Proc, luck: Luck)
    requires Inv(s) && Follows(ViewOf(s, j), p) && Owned(ViewOf(s, j), p) && p.phase.Ending?
    ensures
      var (s', p') := Move(s, policy, j, p, luck);
      && p'.None? && j in s.jobs && s.jobs[j].operation == p.operation && j in s'.jobs
      && s'.jobs[j] == (if Favourable(p, luck) then s.jobs[j].(status := p.phase.status) else s.jobs[j])
  {
    hide Inv, Call, PlanOf, Finished, Images;
    OwnerOwns(s, j, p);
    OwnCall(s, policy, AFinishJob(p.worker, j, p.phase.status), j, luck.fate);
    var s' := Move(s, policy, j, p, luck).0;
    assert ViewOf(s', j).job.Some? && ViewOf(s', j).job.value == s'.jobs[j];
  }

  // ------------------------------------------------------- a process left alone

  /** Moves in which nothing goes wrong and nothing is put out. */
  function Smoothly(digest: string): Luck { Luck(false, None, digest, Answered) }

  function Turns(j: JobId, digest: string, n: nat): seq<Event> {
    if n == 0 then [] else [Event.Step(j, Smoothly(digest))] + Turns(j, digest, n - 1)
  }

  /** How far a process is from the end of its plan. */
  function StepsLeft(p: Proc): int {
    match p.phase
    case Beginning(i) => 2 * (|p.Plan()| - i) + 1
    case Working(i, _, _, _) => 2 * (|p.Plan()| - i)
    case Closing(i, _, _) => 2 * (|p.Plan()| - i)
    case Ending(_) => 0
  }

  /** How far it is from the end of its step. */
  function CallsLeft(p: Proc): int {
    match p.phase
    case Working(i, _, calls, _) => if i < |p.Plan()| then RecordsIn(p, i) - calls + 1 else 0
    case _ => 0
  }

  lemma {:induction false} Nearer(s: State, policy: Policy, j: JobId, p: Proc, digest: string)
    requires Inv(s) && Follows(ViewOf(s, j), p) && Owned(ViewOf(s, j), p) && !p.phase.Ending? && Promising(p)
    ensures
      var p' := Move(s, policy, j, p, Smoothly(digest)).1;
      && p'.Some? && StepsLeft(p) > 0
      && (StepsLeft(p'.value) < StepsLeft(p)
          || (StepsLeft(p'.value) == StepsLeft(p) && CallsLeft(p'.value) < CallsLeft(p)))
      && StepsLeft(p'.value) >= 0 && CallsLeft(p'.value) >= 0
  {
    MoveExactly(s, policy, j, p, Smoothly(digest));
    hide Inv, Call, PlanOf, Finished, Images, RecordOf, ViewOf;
    var p' := Move(s, policy, j, p, Smoothly(digest)).1;
    if p.phase.Working? && p.phase.i < |p.Plan()| { SameRecordsIn(p, p'.value, p.phase.i); }
  }

  /** A process that nobody disturbs and for which nothing goes wrong ends its job well,
      wherever it is: the theorem that makes the pipeline's claims about good ends
      more than claims about nothing. */
  lemma {:induction false} UndisturbedEndsWell(sys: Sys, policy: Policy, j: JobId, digest: string) returns (n: nat)
    requires SysInv(sys) && j in sys.procs && Owned(ViewOf(sys.tables, j), sys.procs[j]) && Promising(sys.procs[j])
    ensures Behaviour(sys, policy, Turns(j, digest, n))
    ensures
      var sys' := Play(sys, policy, Turns(j, digest, n));
      && SysInv(sys') && j !in sys'.procs && j in sys.tables.jobs && j in sys'.tables.jobs
      && sys'.tables.jobs[j] == sys.tables.jobs[j].(status := TerminalOf(sys.tables.jobs[j].operation))
    decreases StepsLeft(sys.procs[j]), CallsLeft(sys.procs[j])
  {
    hide SysInv, Owned, ViewOf, Promising, Happen, Play, Behaviour, Enabled, StepsLeft, CallsLeft, Proc.Plan;
    if sys.procs[j].phase.Ending? {
      LastTurn(sys, policy, j, digest);
      OneTurn(sys, policy, j, digest);
      n := 1;
    } else {
      NextTurn(sys, policy, j, digest);
      var m := UndisturbedEndsWell(Happen(sys, policy, Event.Step(j, Smoothly(digest))), policy, j, digest);
      MoreTurns(sys, policy, j, digest, m);
      n := m + 1;
    }
  }

  lemma {:induction false} LastTurn(sys: Sys, policy: Policy, j: JobId, digest: string)
    requires SysInv(sys) && j in sys.procs && Owned(ViewOf(sys.tables, j), sys.procs[j]) && Promising(sys.procs[j])
    requires sys.procs[j].phase.Ending?
    ensures
      var sys' := Happen(sys, policy, Event.Step(j, Smoothly(digest)));
      && SysInv(sys') && j !in sys'.procs && j in sys.tables.jobs && j in sys'.tables.jobs
      && sys'.tables.jobs[j] == sys.tables.jobs[j].(status := TerminalOf(sys.tables.jobs[j].operation))
  {
    assert JobSound(sys, j) && Inv(sys.tables) by { SoundJob(sys, j); }
    assert Follows(ViewOf(sys.tables, j), sys.procs[j]);
    HappenKeeps(sys, policy, Event.Step(j, Smoothly(digest)));
    hide SysInv, Inv, JobSound, Move, Follows, Owned, ViewOf;
    EndExactly(sys.tables, policy, j, sys.procs[j], Smoothly(digest));
  }

  lemma {:induction false} NextTurn(sys: Sys, policy: Policy, j: JobId, digest: string)
    requires SysInv(sys) && j in sys.procs && Owned(ViewOf(sys.tables, j), sys.procs[j]) && Promising(sys.procs[j])
    requires !sys.procs[j].phase.Ending?
    ensures
      var sys' := Happen(sys, policy, Event.Step(j, Smoothly(digest)));
      && SysInv(sys') && j in sys'.procs && Owned(ViewOf(sys'.tables, j), sys'.procs[j]) && Promising(sys'.procs[j])
      && j in sys.tables.jobs && j in sys'.tables.jobs
      && sys'.tables.jobs[j] == sys.tables.jobs[j].(status := sys'.tables.jobs[j].status)
      && 0 < StepsLeft(sys.procs[j]) && 0 <= StepsLeft(sys'.procs[j]) && 0 <= CallsLeft(sys'.procs[j])
      && (|| StepsLeft(sys'.procs[j]) < StepsLeft(sys.procs[j])
          || (&& StepsLeft(sys'.procs[j]) == StepsLeft(sys.procs[j])
              && CallsLeft(sys'.procs[j]) < CallsLeft(sys.procs[j])))
  {
    var s, p, luck := sys.tables, sys.procs[j], Smoothly(digest);
    assert JobSound(sys, j) && Inv(s) by { SoundJob(sys, j); }
    assert Follows(ViewOf(s, j), p);
    HappenKeeps(sys, policy, Event.Step(j, luck));
    hide SysInv, Inv, JobSound, Move, Follows, StepsLeft, CallsLeft, Promising;
    MoveExactly(s, policy, j, p, luck);
    Nearer(s, policy, j, p, digest);
    MoveRow(s, policy, j, p, luck);
    var s' := Move(s, policy, j, p, luck).0;
    assert ViewOf(s', j).job.Some? && j in s'.jobs;
  }

  lemma {:induction false} MoreTurns(sys: Sys, policy: Policy, j: JobId, digest: string, n: nat)
    requires j in sys.procs
    ensures
      var next := Happen(sys, policy, Event.Step(j, Smoothly(digest)));
      && Play(sys, policy, Turns(j, digest, n + 1)) == Play(next, policy, Turns(j, digest, n))
      && (Behaviour(next, policy, Turns(j, digest, n)) ==> Behaviour(sys, policy, Turns(j, digest, n + 1)))
  {
    hide Happen;
    var e := Event.Step(j, Smoothly(digest));
    assert Turns(j, digest, n + 1) == [e] + Turns(j, digest, n);
    assert ([e] + Turns(j, digest, n))[1..] == Turns(j, digest, n);
  }

  lemma {:induction false} OneTurn(sys: Sys, policy: Policy, j: JobId, digest: string)
    requires j in sys.procs
    ensures
      var e := Event.Step(j, Smoothly(digest));
      Behaviour(sys, policy, Turns(j, digest, 1)) && Play(sys, policy, Turns(j, digest, 1)) == Happen(sys, policy, e)
  {
    var e := Event.Step(j, Smoothly(digest));
    assert Turns(j, digest, 1) == [e] + Turns(j, digest, 0) == [e];
    assert [e][1..] == [];
    assert Play(Happen(sys, policy, e), policy, []) == Happen(sys, policy, e);
  }
}
