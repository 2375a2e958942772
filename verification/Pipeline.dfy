/** The runner's pipeline: each claimed job is driven by one process that makes
    repository calls in a fixed order. Processes interleave with each other and
    with the API; a call may fail to reach the database, or reach it and lose its
    answer; a process may die at any point. */
module Pipeline {
  import opened Common
  import opened Domain
  import opened Transitions

  // -------------------------------------------------------------------- the plan

  /** The steps of an operation in order; PRE_CHECK runs when the profile has a
      PRE_DEPLOY script. */
  function PlanOf(op: Operation, preCheck: bool): (plan: seq<StepName>) {
    if op.Rollback? then [Validating, RollingBack, Verifying]
    else
      [Validating] + (if preCheck then [PreCheck] else [])
      + [Extracting, ImageInspect, ImageLoad, ImageTag, ImagePush, Deploying, Verifying]
  }

  /** Where in a DEPLOY plan images are pushed. */
  function PushAt(preCheck: bool): nat { if preCheck then 6 else 5 }

  lemma {:induction false} PushIsAt(preCheck: bool, i: nat)
    requires i < |PlanOf(Deploy, preCheck)|
    ensures PlanOf(Deploy, preCheck)[i].ImagePush? <==> i == PushAt(preCheck)
  {
  }

  /** The order in which things must be done on a target, whatever the plan says. */
  function Rank(name: Status): nat {
    match name
    case Validating => 0
    case PreCheck => 1
    case Extracting => 2
    case ImageInspect => 3
    case ImageLoad => 4
    case ImageTag => 5
    case ImagePush => 6
    case Deploying => 7
    case RollingBack => 7
    case Verifying => 8
    case _ => 9
  }

  predicate Performed(steps: seq<Domain.Step>, name: Status) { Domain.Step(name, Succeeded) in steps }

  /** Step rows of an operation that was carried out: all succeeded, each in its turn;
      a deployment did everything from validation to verification, the pre-check if
      asked for; a rollback validated, rolled back and verified; verification was last. */
  ghost predicate CarriedOut(op: Operation, preCheck: bool, steps: seq<Domain.Step>) {
    && (forall i :: 0 <= i < |steps| ==> steps[i].state.Succeeded?)
    && (forall i, k :: 0 <= i < k < |steps| ==> Rank(steps[i].name) < Rank(steps[k].name))
    && (forall name: Status :: Performed(steps, name) <==>
         if op.Rollback? then name.Validating? || name.RollingBack? || name.Verifying?
         else
           || name.Validating? || (name.PreCheck? && preCheck) || name.Extracting? || name.ImageInspect?
           || name.ImageLoad? || name.ImageTag? || name.ImagePush? || name.Deploying? || name.Verifying?)
    && |steps| > 0 && steps[|steps| - 1] == Domain.Step(Verifying, Succeeded)
  }

  function TerminalOf(op: Operation): Status { if op.Deploy? then Success else RolledBack }

  /** The digest form a rollback records: the algorithm prefix and lower-case hex. */
  function Normalize(digest: string): string {
    var prefix := "sha256:";
    prefix + Lower(if prefix <= digest then digest[|prefix|..] else digest)
  }

  function Lower(s: string): string {
    if |s| == 0 then ""
    else [if 'A' <= s[0] <= 'Z' then s[0] - 'A' + 'a' else s[0]] + Lower(s[1..])
  }

  // ------------------------------------------------------------------ the process

  /** An image the process works on: a package image of a DEPLOY, or a stored row
      of the rollback's source job with its normalized digest. */
  datatype Planned = Planned(path: string, image: Image)

  /** Where a process is: about to begin step i; in step i after `calls` image
      records, `clean` until an output write is lost; about to finish the step;
      about to write the terminal status. */
  datatype Phase =
    | Beginning(i: nat)
    | Working(i: nat, number: nat, calls: nat, clean: bool)
    | Closing(i: nat, number: nat, ok: bool)
    | Ending(status: Status)

  datatype Proc = Proc(worker: WorkerId, operation: Operation, preCheck: bool, images: seq<Planned>, phase: Phase)
  {
    function Plan(): seq<StepName> { PlanOf(operation, preCheck) }
  }

  datatype Sys = Sys(tables: State, procs: map<JobId, Proc>)

  /** What happens to one repository call. */
  datatype Fate = Answered | AnswerLost | NeverSent

  function Call(s: State, policy: Policy, a: Action, fate: Fate): (State, bool) {
    match fate
    case Answered => (Next(s, policy, a), Apply(s, policy, a).1.Done?)
    case AnswerLost => (Next(s, policy, a), false)
    case NeverSent => (s, false)
  }

  /** Image records a step makes: inspection and push record every package image,
      the validation of a rollback every image of its source. */
  function RecordsIn(p: Proc, i: nat): (n: nat)
    requires i < |p.Plan()|
    ensures n <= |p.images|
  {
    var name := p.Plan()[i];
    if name.ImageInspect? || name.ImagePush? || (p.operation.Rollback? && name.Validating?) then |p.images| else 0
  }

  /** The row a record call writes: inspection knows no digest yet, a push has the
      one the registry answered, a rollback keeps its source's. */
  function RecordOf(p: Proc, i: nat, k: nat, digest: string): Image
    requires i < |p.Plan()| && k < |p.images|
  {
    if p.Plan()[i].ImageInspect? then p.images[k].image.(digest := None)
    else if p.operation.Deploy? then p.images[k].image.(digest := Some(digest))
    else p.images[k].image
  }

  /** What one move of a process needs from outside: whether its own work fails,
      an output row it writes instead of moving on, the registry's answer. */
  datatype Luck = Luck(fails: bool, output: Option<LogRow>, digest: string, fate: Fate)

  /** One move: at most one repository call. None means the process is over. */
  function Move(s: State, policy: Policy, j: JobId, p: Proc, luck: Luck): (State, Option<Proc>) {
    var w, failed := p.worker, Some(p.(phase := Ending(Failed)));
    match p.phase
    case Beginning(i) =>
      if luck.fails then (s, failed)
      else if i >= |p.Plan()| then (s, Some(p.(phase := Ending(TerminalOf(p.operation)))))
      else
        var (s', ok) := Call(s, policy, ABeginStep(w, j, p.Plan()[i]), luck.fate);
        (s', if ok then Some(p.(phase := Working(i, |StepsOf(s, j)|, 0, true))) else failed)
    case Working(i, number, calls, clean) =>
      if luck.output.Some? then
        var (s', ok) := Call(s, policy, ALog(w, j, luck.output.value.(step := number)), luck.fate);
        (s', Some(p.(phase := Working(i, number, calls, clean && ok))))
      else if luck.fails || i >= |p.Plan()| then (s, Some(p.(phase := Closing(i, number, false))))
      else if calls < RecordsIn(p, i) then
        var (s', ok) := Call(s, policy, AImage(w, j, p.images[calls].path, RecordOf(p, i, calls, luck.digest)),
          luck.fate);
        (s', Some(p.(phase := if ok then Working(i, number, calls + 1, clean) else Closing(i, number, false))))
      else (s, Some(p.(phase := Closing(i, number, clean))))
    case Closing(i, number, ok) =>
      var (s', answered) := Call(s, policy, AFinishStep(w, j, number, ok), luck.fate);
      (s', Some(p.(phase := if ok && answered then Beginning(i + 1) else Ending(Failed))))
    case Ending(status) =>
      (Call(s, policy, AFinishJob(w, j, status), luck.fate).0, None)
  }

  // ------------------------------------------------------------------- the system

  /** Calls only a pipeline process makes. */
  predicate ProcessCall(a: Action) {
    a.AClaim? || a.ABeginStep? || a.AFinishStep? || a.ALog? || a.AImage? || a.AFinishJob?
  }

  datatype Event =
    | Elsewhere(a: Action)
    | Claim(worker: WorkerId, pick: Option<JobId>, loadable: bool, preCheck: bool, images: seq<Planned>)
    | Step(job: JobId, luck: Luck)
    | Crash(job: JobId)

  /** The rows a rollback must re-create: its source's, digests normalized. */
  function SourceRows(s: State, source: Basis): map<string, Image> {
    var rows := ImagesOf(s, source.job);
    map path | path in rows ::
      rows[path].(digest := if rows[path].digest.Some? then Some(Normalize(rows[path].digest.value)) else None)
  }

  /** The images a claim hands to the process: for a rollback, its source's rows. */
  predicate Loaded(s: State, job: Job, images: seq<Planned>) {
    job.operation.Rollback? ==>
      && job.source.Some? && RowsOf(images, |images|) == SourceRows(s, job.source.value)
      && forall m :: 0 <= m < |images| ==> images[m].image.digest.Some?
  }

  function RowsOf(images: seq<Planned>, k: nat): map<string, Image>
    requires k <= |images|
  {
    if k == 0 then map[] else RowsOf(images, k - 1)[images[k - 1].path := images[k - 1].image]
  }

  predicate Enabled(sys: Sys, e: Event) {
    match e
    case Elsewhere(a) => !ProcessCall(a)
    case Claim(_, pick, _, _, images) =>
      pick.Some? && pick.value in sys.tables.jobs ==> Loaded(sys.tables, sys.tables.jobs[pick.value], images)
    case Step(j, _) => j in sys.procs
    case Crash(j) => j in sys.procs
  }

  function Happen(sys: Sys, policy: Policy, e: Event): Sys {
    var s := sys.tables;
    match e
    case Elsewhere(a) => sys.(tables := Next(s, policy, a))
    case Claim(w, pick, loadable, preCheck, images) =>
      var (s', reply) := ClaimJob(s, w, pick, loadable);
      if reply.Done? && pick.Some? && pick.value in s.jobs then
        Sys(s', sys.procs[pick.value := Proc(w, s.jobs[pick.value].operation, preCheck, images, Beginning(0))])
      else sys.(tables := s')
    case Step(j, luck) =>
      if j !in sys.procs then sys else
      var (s', p) := Move(s, policy, j, sys.procs[j], luck);
      Sys(s', if p.Some? then sys.procs[j := p.value] else sys.procs - {j})
    case Crash(j) => sys.(procs := sys.procs - {j})
  }

  ghost predicate Behaviour(sys: Sys, policy: Policy, events: seq<Event>)
    decreases |events|
  {
    |events| > 0 ==> Enabled(sys, events[0]) && Behaviour(Happen(sys, policy, events[0]), policy, events[1..])
  }

  function Play(sys: Sys, policy: Policy, events: seq<Event>): Sys
    decreases |events|
  {
    if |events| == 0 then sys else Play(Happen(sys, policy, events[0]), policy, events[1..])
  }

  // ---------------------------------------------------------- what a job looks like

  /** The part of the tables the pipeline's claims about one job depend on. */
  datatype View = View(job: Option<Job>, steps: seq<Domain.Step>, images: map<string, Image>)

  function ViewOf(s: State, j: JobId): View {
    View(if j in s.jobs then Some(s.jobs[j]) else None, StepsOf(s, j), ImagesOf(s, j))
  }

  /** The first n steps of a plan, all finished successfully. */
  function Finished(plan: seq<StepName>, n: nat): (steps: seq<Domain.Step>)
    requires n <= |plan|
  {
    seq(n, i requires 0 <= i < |plan| => Domain.Step(plan[i], Succeeded))
  }

  lemma {:induction false} PlanRanks(op: Operation, preCheck: bool)
    ensures
      var plan := PlanOf(op, preCheck);
      && |plan| > 0 && plan[|plan| - 1].Verifying?
      && (forall i, k :: 0 <= i < k < |plan| ==> Rank(plan[i]) < Rank(plan[k]))
  {
    hide Rank;
    assert Rank(Validating) < Rank(PreCheck) < Rank(Extracting) < Rank(ImageInspect) < Rank(ImageLoad) < Rank(ImageTag)
           < Rank(ImagePush) < Rank(Deploying) == Rank(RollingBack) < Rank(Verifying) by { Ranks(); }
    var plan := PlanOf(op, preCheck);
    if op.Rollback? {
      assert plan == [Validating, RollingBack, Verifying];
    } else if preCheck {
      assert plan ==
        [Validating, PreCheck, Extracting, ImageInspect, ImageLoad, ImageTag, ImagePush, Deploying, Verifying];
    } else {
      assert plan == [Validating, Extracting, ImageInspect, ImageLoad, ImageTag, ImagePush, Deploying, Verifying];
    }
  }

  lemma {:induction false} Ranks()
    ensures Rank(Validating) < Rank(PreCheck) < Rank(Extracting) < Rank(ImageInspect) < Rank(ImageLoad)
    ensures Rank(ImageLoad) < Rank(ImageTag) < Rank(ImagePush) < Rank(Deploying) == Rank(RollingBack) < Rank(Verifying)
  {
  }

  lemma {:induction false} PlanNames(op: Operation, preCheck: bool, name: Status)
    ensures
      var plan := PlanOf(op, preCheck);
      (exists i :: 0 <= i < |plan| && plan[i] == name) <==>
      if op.Rollback? then name.Validating? || name.RollingBack? || name.Verifying?
      else
        || name.Validating? || (name.PreCheck? && preCheck) || name.Extracting? || name.ImageInspect?
        || name.ImageLoad? || name.ImageTag? || name.ImagePush? || name.Deploying? || name.Verifying?
  {
    var plan := PlanOf(op, preCheck);
    var n := if preCheck then 1 else 0;
    if op.Rollback? {
      assert plan[0] == Validating && plan[1] == RollingBack && plan[2] == Verifying;
    } else {
      assert plan[0] == Validating && (preCheck ==> plan[1] == PreCheck) && plan[n + 1] == Extracting;
      assert plan[n + 2] == ImageInspect && plan[n + 3] == ImageLoad && plan[n + 4] == ImageTag;
      assert plan[n + 5] == ImagePush && plan[n + 6] == Deploying && plan[n + 7] == Verifying;
    }
  }

  /** Finishing a plan carries its operation out. */
  lemma {:induction false} PlanCarriesOut(op: Operation, preCheck: bool)
    ensures CarriedOut(op, preCheck, Finished(PlanOf(op, preCheck), |PlanOf(op, preCheck)|))
  {
    var plan := PlanOf(op, preCheck);
    var steps := Finished(plan, |plan|);
    PlanRanks(op, preCheck);
    hide PlanOf, Rank;
    forall name: Status ensures Performed(steps, name) <==> exists i :: 0 <= i < |plan| && plan[i] == name {
      if Performed(steps, name) {
        var i :| 0 <= i < |steps| && steps[i] == Domain.Step(name, Succeeded);
        assert plan[i] == name;
      }
      if i :| 0 <= i < |plan| && plan[i] == name { assert steps[i] == Domain.Step(name, Succeeded); }
    }
    forall name: Status { PlanNames(op, preCheck, name); }
  }

  /** A job that is not there yet, or waits unlocked in the queue, has no rows. */
  ghost predicate Blank(v: View) {
    && (v.job.None? || v.job.value.status.Queued? ==> v.steps == [] && v.images == map[])
    && (v.job.Some? && v.job.value.status.Queued? ==> v.job.value.lockedBy.None?)
  }

  ghost predicate AllDigests(images: map<string, Image>) {
    forall path :: path in images ==> images[path].digest.Some?
  }

  /** A job that ended well went through its whole plan. */
  ghost predicate Complete(v: View) {
    v.job.Some? && (v.job.value.status.Success? || v.job.value.status.RolledBack?) ==>
      && (exists preCheck: bool ::
            v.steps == Finished(PlanOf(v.job.value.operation, preCheck), |PlanOf(v.job.value.operation, preCheck)|))
      && v.job.value.status == TerminalOf(v.job.value.operation)
      && (v.job.value.operation.Deploy? ==> AllDigests(v.images))
  }

  ghost predicate Owned(v: View, p: Proc) {
    v.job.Some? && v.job.value.lockedBy == Some(p.worker) && !Terminal(v.job.value.status)
  }

  predicate Names(images: seq<Planned>, path: string) {
    exists m :: 0 <= m < |images| && images[m].path == path
  }

  predicate HasDigest(images: map<string, Image>, path: string) {
    path in images && images[path].digest.Some?
  }

  /** Image rows when step i has made k record calls: of a DEPLOY, only package
      images, with a digest once pushed; of a rollback, the first k source rows. */
  ghost predicate Images(p: Proc, images: map<string, Image>, i: nat, k: nat) {
    if p.operation.Deploy? then
      && (forall path :: path in images ==> Names(p.images, path))
      && forall m :: 0 <= m < |p.images| && (i > PushAt(p.preCheck) || (i == PushAt(p.preCheck) && m < k)) ==>
           HasDigest(images, p.images[m].path)
    else
      && (i == 0 ==> k <= |p.images|) && images == RowsOf(p.images, if i == 0 then k else |p.images|)
      && forall m :: 0 <= m < |p.images| ==> p.images[m].image.digest.Some?
  }

  /** A process that still owns its job is where the job's rows say. */
  ghost predicate Follows(v: View, p: Proc) {
    Owned(v, p) ==>
      && v.job.value.operation == p.operation
      && match p.phase
         case Beginning(i) => i <= |p.Plan()| && v.steps == Finished(p.Plan(), i) && Images(p, v.images, i, 0)
         case Working(i, number, calls, _) =>
           && i < |p.Plan()| && number == i && v.steps == Finished(p.Plan(), i) + [Domain.Step(p.Plan()[i], Running)]
           && calls <= RecordsIn(p, i) && Images(p, v.images, i, calls)
         case Closing(i, number, ok) =>
           && i < |p.Plan()| && number == i && v.steps == Finished(p.Plan(), i) + [Domain.Step(p.Plan()[i], Running)]
           && (ok ==> Images(p, v.images, i + 1, 0))
         case Ending(status) =>
           status.Failed?
           || (&& status == TerminalOf(p.operation)
               && v.steps == Finished(p.Plan(), |p.Plan()|) && Images(p, v.images, |p.Plan()|, 0))
  }
}
