/** What is deployed on a target is the top of a stack. The tables hold only a
    head row and, in each DEPLOY job, the head it replaced; following those
    columns gives the stack, and every transaction is a push, a pop or nothing. */
module DeploymentStack {
  import opened Common
  import opened Domain
  import opened Transitions
  import opened Invariants
  import opened Fencing
  import QuickArtifact

  // ---------------------------------------------------------- the simple form

  datatype Op = Push(job: JobId) | Pop | Keep

  function Perform(stack: seq<JobId>, op: Op): seq<JobId> {
    match op
    case Push(j) => [j] + stack
    case Pop => if |stack| == 0 then [] else stack[1..]
    case Keep => stack
  }

  function PerformAll(stack: seq<JobId>, ops: seq<Op>): seq<JobId>
    decreases |ops|
  {
    if |ops| == 0 then stack else PerformAll(Perform(stack, ops[0]), ops[1..])
  }

  // ---------------------------------------------------------- the stored form

  /** Follows the source columns from a head. The comparison of ids only makes
      the function total: StackShape shows that it never stops a chain. */
  function Chain(jobs: map<JobId, Job>, from: Option<Basis>): seq<JobId>
    decreases if from.Some? then from.value.job + 1 else 0
  {
    if from.None? || from.value.job !in jobs then []
    else
      var j := from.value.job;
      var below := jobs[j].source;
      [j] + if below.Some? && below.value.job < j then Chain(jobs, below) else []
  }

  function StackOf(s: State, t: Target): seq<JobId> { Chain(s.jobs, HeadOf(s, t)) }

  /** What a transaction does to a target's stack: a successful DEPLOY pushes, a
      completed rollback of the head's own release pops, anything else keeps. */
  function OpOf(s: State, policy: Policy, a: Action, t: Target): Op {
    if !a.AFinishJob? || a.job !in s.jobs || s.jobs[a.job].target != t || !Apply(s, policy, a).1.Done? then Keep
    else if a.status.Success? then Push(a.job)
    else if a.status.RolledBack? && t in s.heads && s.heads[t].release == s.jobs[a.job].release then Pop
    else Keep
  }

  function OpsOf(s: State, policy: Policy, actions: seq<Action>, t: Target): seq<Op>
    decreases |actions|
  {
    if |actions| == 0 then []
    else [OpOf(s, policy, actions[0], t)] + OpsOf(Next(s, policy, actions[0]), policy, actions[1..], t)
  }

  // ---------------------------------------------------------- shape of a stack

  /** The release and job a stack element stands for. */
  function BasisAt(s: State, j: JobId): Basis
    requires j in s.jobs
  {
    Basis(s.jobs[j].release, j)
  }

  /** Element i replaced the element below it, or nothing when it is the last. */
  ghost predicate Replaced(s: State, stack: seq<JobId>, i: nat)
    requires i < |stack| && forall k :: 0 <= k < |stack| ==> stack[k] in s.jobs
  {
    && (i + 1 < |stack| ==> stack[i + 1] < stack[i] && s.jobs[stack[i]].source == Some(BasisAt(s, stack[i + 1])))
    && (i + 1 == |stack| ==> s.jobs[stack[i]].source == None)
  }

  ghost predicate IsStack(s: State, t: Target, stack: seq<JobId>) {
    && (forall i :: 0 <= i < |stack| ==> stack[i] in s.jobs && IsBasis(s, t, BasisAt(s, stack[i])))
    && (forall i {:trigger Replaced(s, stack, i)} :: 0 <= i < |stack| ==> Replaced(s, stack, i))
  }

  lemma {:induction false} ConsStack(s: State, t: Target, j: JobId, rest: seq<JobId>)
    requires IsStack(s, t, rest) && j in s.jobs && IsBasis(s, t, BasisAt(s, j))
    requires s.jobs[j].source == if |rest| == 0 then None else Some(BasisAt(s, rest[0]))
    requires |rest| > 0 ==> rest[0] < j
    ensures IsStack(s, t, [j] + rest)
  {
    hide IsBasis;
    var c := [j] + rest;
    assert forall i :: 0 < i < |c| ==> c[i] == rest[i - 1];
    forall i | 0 <= i < |c| ensures Replaced(s, c, i) {
      if i > 0 { assert Replaced(s, rest, i - 1); }
    }
  }

  lemma {:induction false} ChainShape(s: State, t: Target, from: Option<Basis>)
    requires Inv(s) && (from.Some? ==> IsBasis(s, t, from.value))
    ensures
      var c := Chain(s.jobs, from);
      && IsStack(s, t, c)
      && from == if |c| == 0 then None else Some(BasisAt(s, c[0]))
    decreases if from.Some? then from.value.job + 1 else 0
  {
    hide Inv;
    if from.Some? {
      var j := from.value.job;
      JobFacts(s, j);
      ChainShape(s, t, s.jobs[j].source);
      var rest, c := Chain(s.jobs, s.jobs[j].source), Chain(s.jobs, from);
      assert c == [j] + rest;
      ConsStack(s, t, j, rest);
    }
  }

  /** In every reachable state the chain from the head is finite and whole: its
      elements are successful DEPLOY jobs of the target, ever older, each the
      one the job above replaced, and the last replaced nothing. */
  lemma {:induction false} StackShape(policy: Policy, actions: seq<Action>, t: Target)
    ensures
      var s := Run(EMPTY, policy, actions);
      && IsStack(s, t, StackOf(s, t))
      && HeadOf(s, t) == if |StackOf(s, t)| == 0 then None else Some(BasisAt(s, StackOf(s, t)[0]))
  {
    hide Run, Inv, IsStack;
    var s := Run(EMPTY, policy, actions);
    Reachable(policy, actions);
    if t in s.heads { HeadFacts(s, t); }
    ChainShape(s, t, HeadOf(s, t));
  }

  // ------------------------------------------------------------------ one step

  /** Successful jobs never change, so a chain of them never does. */
  lemma {:induction false} ChainStays(s: State, s': State, t: Target, from: Option<Basis>)
    requires Inv(s) && Evolves(s, s') && (from.Some? ==> IsBasis(s, t, from.value))
    ensures Chain(s'.jobs, from) == Chain(s.jobs, from)
    decreases if from.Some? then from.value.job + 1 else 0
  {
    hide Inv;
    if from.Some? {
      var j := from.value.job;
      JobFacts(s, j);
      assert JobEvolves(s, s', j);
      ChainStays(s, s', t, s.jobs[j].source);
    }
  }

  /** Only a terminal write moves a head. */
  lemma {:induction false} RecoverHeads(s: State, expired: seq<JobId>)
    ensures RecoverStale(s, expired).heads == s.heads
    decreases |expired|
  {
    if |expired| > 0 {
      var j := expired[0];
      RecoverHeads(if j in s.jobs && Executing(s.jobs[j].status) then RecoverOne(s, j) else s, expired[1..]);
    }
  }

  lemma {:induction false} CommitHeads(s: State, id: ReleaseId, e: Effect)
    ensures Commit(s, id, e).0.heads == s.heads
  {
  }

  lemma {:induction false} RequestHeads(s: State, policy: Policy, a: Action)
    requires a.AEnqueue? || a.ARollback? || a.AQuick? || a.ADecide?
    ensures Next(s, policy, a).heads == s.heads
  {
    hide DeployEffect, RollbackEffect, QuickEffect, RejectEffect, ApproveRefusal, VersionTaken, TargetBusy,
         CurrentVersion, Commit, Policy.Required, NewQuickRelease, QuickRelease, QuickArtifact.ParseName,
           QuickArtifact.ValidateQuickUpgrade;
    match a
    case AEnqueue(id, user, retry, c) =>
      if id in s.releases {
        CommitHeads(s, id, RollbackEffect(s, policy, id, user, retry, c));
        CommitHeads(s, id, DeployEffect(s, policy, id, user, retry, c));
      }
    case ARollback(id, user, c) =>
      if id in s.releases { CommitHeads(s, id, RollbackEffect(s, policy, id, user, false, c)); }
    case AQuick(id, user, filename, preset, artifact, expected, c) =>
      var r := QuickReleaseCases(s, policy, id, user, filename, preset, artifact, expected, c);
      CommitHeads(PutRelease(s, id, r), id, QuickEffect(PutRelease(s, id, r), id, Uploaded, c));
    case ADecide(id, user, verdict, comment, c) =>
      if id in s.releases {
        CommitHeads(s, id, RejectEffect(s, policy, id, comment));
        CommitHeads(RecordApproval(s, id, user), id, QuickEffect(RecordApproval(s, id, user), id, Approved, c));
        CommitHeads(s, id, Nothing(InvalidState));
        CommitHeads(s, id, Rewrite(s.releases[id].(status := UnderReview), Done));
      }
  }

  lemma {:induction false} HeadsStay(s: State, policy: Policy, a: Action)
    requires !a.AFinishJob?
    ensures Next(s, policy, a).heads == s.heads
  {
    hide OwnsJob, HasLockRow, VersionTaken, RollbackImagesReady, Referenced, RecoverStale, WriteJob;
    if a.AEnqueue? || a.ARollback? || a.AQuick? || a.ADecide? {
      RequestHeads(s, policy, a);
    } else if a.ARecover? {
      RecoverHeads(s, a.expired);
    } else {
      hide Enqueue, RequestRollback, QuickRelease, Decide, FinishJob;
    }
  }

  function HeadAfter(s: State, op: Op, t: Target): Option<Basis> {
    match op
    case Push(j) => if j in s.jobs then Some(BasisAt(s, j)) else None
    case Pop => if t in s.heads && s.heads[t].job in s.jobs then s.jobs[s.heads[t].job].source else None
    case Keep => HeadOf(s, t)
  }

  /** Where a terminal write leaves a target's head. */
  lemma {:induction false} FinishHead(s: State, policy: Policy, a: Action, t: Target)
    requires Inv(s) && a.AFinishJob?
    ensures
      var s', op := Next(s, policy, a), OpOf(s, policy, a, t);
      && HeadOf(s', t) == HeadAfter(s, op, t)
      && (op.Push? ==> op.job in s.jobs && s.jobs[op.job].source == HeadOf(s, t)
                       && op.job in s'.jobs && s'.jobs[op.job] == s.jobs[op.job].(status := Success))
      && (op.Pop? ==> t in s.heads && s.heads[t].job in s.jobs && s.jobs[s.heads[t].job].source.Some?)
  {
    hide Inv, HasLockRow, DropLocks, DropLease, WriteJob;
    var (s', reply) := FinishJob(s, a.worker, a.job, a.status);
    if reply.Done? { JobFacts(s, a.job); }
  }

  /** The tables refine the stack: every transaction changes the stored chain of
      every target exactly as its operation changes the stack, and a pop always
      leaves a deployment behind. */
  lemma {:induction false} StepRefinesStack(s: State, policy: Policy, a: Action, t: Target)
    requires Inv(s)
    ensures StackOf(Next(s, policy, a), t) == Perform(StackOf(s, t), OpOf(s, policy, a, t))
    ensures OpOf(s, policy, a, t).Pop? ==> |StackOf(s, t)| >= 2
  {
    hide Inv, Apply, Evolves;
    var s', op := Next(s, policy, a), OpOf(s, policy, a, t);
    NextEvolves(s, policy, a);
    if t in s.heads { HeadFacts(s, t); }
    ChainStays(s, s', t, HeadOf(s, t));
    if a.AFinishJob? {
      FinishHead(s, policy, a, t);
      match op
      case Push(j) => JobFacts(s, j);
      case Pop =>
        JobFacts(s, s.heads[t].job);
        ChainStays(s, s', t, s.jobs[s.heads[t].job].source);
      case Keep =>
    } else {
      HeadsStay(s, policy, a);
    }
  }

  // ---------------------------------------------------------------- whole runs

  lemma {:induction false} RunRefinesFrom(s: State, policy: Policy, actions: seq<Action>, t: Target)
    requires Inv(s)
    ensures StackOf(Run(s, policy, actions), t) == PerformAll(StackOf(s, t), OpsOf(s, policy, actions, t))
    decreases |actions|
  {
    hide Inv, Next, OpOf, StackOf, Perform;
    if |actions| > 0 {
      var s', op, ops := Next(s, policy, actions[0]), OpOf(s, policy, actions[0], t), OpsOf(s, policy, actions, t);
      NextKeeps(s, policy, actions[0]);
      StepRefinesStack(s, policy, actions[0], t);
      RunRefinesFrom(s', policy, actions[1..], t);
      assert ops[1..] == OpsOf(s', policy, actions[1..], t);
    }
  }

  /** From the empty tables, any run performs its operations on an empty stack. */
  lemma {:induction false} RunRefinesStack(policy: Policy, actions: seq<Action>, t: Target)
    ensures StackOf(Run(EMPTY, policy, actions), t) == PerformAll([], OpsOf(EMPTY, policy, actions, t))
  {
    InitOk();
    RunRefinesFrom(EMPTY, policy, actions, t);
  }

  /** Every pop undoes a push of the same stretch and every push is undone. */
  predicate Balanced(ops: seq<Op>, depth: nat)
    decreases |ops|
  {
    if |ops| == 0 then depth == 0
    else match ops[0]
      case Push(_) => Balanced(ops[1..], depth + 1)
      case Pop => depth > 0 && Balanced(ops[1..], depth - 1)
      case Keep => Balanced(ops[1..], depth)
  }

  lemma {:induction false} BalancedRestores(top: seq<JobId>, stack: seq<JobId>, ops: seq<Op>)
    requires Balanced(ops, |top|)
    ensures PerformAll(top + stack, ops) == stack
    decreases |ops|
  {
    if |ops| == 0 {
      assert top + stack == stack;
    } else {
      match ops[0]
      case Push(j) =>
        assert [j] + (top + stack) == ([j] + top) + stack;
        BalancedRestores([j] + top, stack, ops[1..]);
      case Pop =>
        assert (top + stack)[1..] == top[1..] + stack;
        BalancedRestores(top[1..], stack, ops[1..]);
      case Keep => BalancedRestores(top, stack, ops[1..]);
    }
  }

  /** After any stretch of a run in which each head rollback of the target undid a
      deployment of that stretch and none is left over, the target is back at the
      head it started from, whatever else happened in between. */
  lemma {:induction false} RollbacksUndoDeploys(policy: Policy, before: seq<Action>, stretch: seq<Action>, t: Target)
    requires Balanced(OpsOf(Run(EMPTY, policy, before), policy, stretch, t), 0)
    ensures
      var s := Run(EMPTY, policy, before);
      var later := Run(s, policy, stretch);
      HeadOf(later, t) == HeadOf(s, t) && StackOf(later, t) == StackOf(s, t)
  {
    hide Run, Inv;
    var s := Run(EMPTY, policy, before);
    var later := Run(s, policy, stretch);
    Reachable(policy, before);
    RunKeeps(s, policy, stretch);
    RunRefinesFrom(s, policy, stretch, t);
    BalancedRestores([], StackOf(s, t), OpsOf(s, policy, stretch, t));
    assert [] + StackOf(s, t) == StackOf(s, t);
    RunEvolves(s, policy, stretch);
    if t in s.heads { HeadFacts(s, t); }
    if t in later.heads { HeadFacts(later, t); }
    ChainShape(s, t, HeadOf(s, t));
    ChainShape(later, t, HeadOf(later, t));
    if |StackOf(s, t)| > 0 { assert JobEvolves(s, later, StackOf(s, t)[0]); }
  }

  /** n deployments followed by n head rollbacks are balanced, whatever other
      transactions lie between them. */
  function Count(ops: seq<Op>, push: bool): nat {
    if |ops| == 0 then 0
    else (if (push && ops[0].Push?) || (!push && ops[0].Pop?) then 1 else 0) + Count(ops[1..], push)
  }

  lemma {:induction false} PopsBalanced(ops: seq<Op>, n: nat)
    requires Count(ops, true) == 0 && Count(ops, false) == n
    ensures Balanced(ops, n)
    decreases |ops|
  {
    if |ops| > 0 { PopsBalanced(ops[1..], if ops[0].Pop? then n - 1 else n); }
  }

  lemma {:induction false} PushesThenPops(ups: seq<Op>, downs: seq<Op>, depth: nat)
    requires Count(ups, false) == 0 && Count(downs, true) == 0 && Count(downs, false) == Count(ups, true) + depth
    ensures Balanced(ups + downs, depth)
    decreases |ups|
  {
    if |ups| == 0 {
      assert ups + downs == downs;
      PopsBalanced(downs, depth);
    } else {
      assert (ups + downs)[1..] == ups[1..] + downs;
      PushesThenPops(ups[1..], downs, if ups[0].Push? then depth + 1 else depth);
    }
  }

  lemma {:induction false} RunJoins(s: State, policy: Policy, first: seq<Action>, second: seq<Action>, t: Target)
    ensures Run(s, policy, first + second) == Run(Run(s, policy, first), policy, second)
    ensures OpsOf(s, policy, first + second, t) ==
            OpsOf(s, policy, first, t) + OpsOf(Run(s, policy, first), policy, second, t)
    decreases |first|
  {
    hide Next, OpOf;
    if |first| == 0 {
      assert first + second == second;
    } else {
      assert (first + second)[1..] == first[1..] + second;
      RunJoins(Next(s, policy, first[0]), policy, first[1..], second, t);
    }
  }

  /** n deployments and then n head rollbacks of a target restore its head. */
  lemma {:induction false} DeploysThenRollbacks(
      policy: Policy, before: seq<Action>, ups: seq<Action>, downs: seq<Action>, t: Target)
    requires
      var s := Run(EMPTY, policy, before);
      var up, down := OpsOf(s, policy, ups, t), OpsOf(Run(s, policy, ups), policy, downs, t);
      Count(up, false) == 0 && Count(down, true) == 0 && Count(down, false) == Count(up, true)
    ensures
      var s := Run(EMPTY, policy, before);
      HeadOf(Run(Run(s, policy, ups), policy, downs), t) == HeadOf(s, t)
  {
    hide Run, OpsOf, Balanced;
    var s := Run(EMPTY, policy, before);
    RunJoins(s, policy, ups, downs, t);
    PushesThenPops(OpsOf(s, policy, ups, t), OpsOf(Run(s, policy, ups), policy, downs, t), 0);
    RollbacksUndoDeploys(policy, before, ups + downs, t);
  }
}
