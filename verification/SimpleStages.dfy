/** Simple mode: what follows a package's deployment command, and what a green
    upload of several packages means. */
module SimpleStages {
  datatype Scope = Each | Once

  datatype StageStatus = None | Skipped | Success | Failed | TimedOut

  datatype RunStatus = Green | Red | RedTimeout

  /** Enabled says that the stage is switched on and completely configured. */
  datatype Config = Config(replication: bool, replicationScope: Scope, app: bool, appScope: Scope)

  /** What happens outside: the command's end, whether the settings and the upload's
      other runs can be read, and how the stages end if they start. */
  datatype World = World(
    command: RunStatus,
    settingsRead: bool,
    othersRead: bool,
    replicationEnd: StageStatus,
    appEnd: StageStatus)

  /** One finished run; `replicationRan` and `appRan` say that the stage was started. */
  datatype Run = Run(status: RunStatus, replication: StageStatus, app: StageStatus, replicationRan: bool, appRan: bool)

  predicate StageFailed(s: StageStatus) { !s.None? && !s.Skipped? && !s.Success? }

  predicate StageRuns(scope: Scope, last: bool) { !scope.Once? || last }

  predicate AppStageRuns(scope: Scope, last: bool, replication: StageStatus) {
    !replication.Skipped? && StageRuns(scope, last)
  }

  predicate StageHeld(scope: Scope, incomplete: bool) { scope.Once? && incomplete }

  /** The other runs of the upload, all finished by now, did not all deploy; a read
      failure answers yes. */
  predicate HasFailedPackages(others: seq<Run>, w: World) {
    !w.othersRead || exists i :: 0 <= i < |others| && !others[i].status.Green?
  }

  /** A stage that starts ends in a result of its own. */
  predicate Ended(s: StageStatus) { !s.None? && !s.Skipped? }

  function ReplicationStage(cfg: Config, last: bool, incomplete: bool, w: World): StageStatus {
    if !cfg.replication then None
    else if !StageRuns(cfg.replicationScope, last) || StageHeld(cfg.replicationScope, incomplete) then Skipped
    else w.replicationEnd
  }

  function AppStage(cfg: Config, last: bool, incomplete: bool, replication: StageStatus, w: World): StageStatus {
    if StageFailed(replication) || !cfg.app then None
    else if StageHeld(cfg.appScope, incomplete) || !AppStageRuns(cfg.appScope, last, replication) then Skipped
    else w.appEnd
  }

  /** A run of one package. Without an upload there is nothing to wait for. */
  function Execute(cfg: Config, inUpload: bool, last: bool, others: seq<Run>, w: World): Run {
    if !w.command.Green? then Run(w.command, None, None, false, false)
    else if !w.settingsRead then Run(Red, None, None, false, false)
    else
      var incomplete := inUpload && last && HasFailedPackages(others, w);
      var replication := ReplicationStage(cfg, last, incomplete, w);
      var app := AppStage(cfg, last, incomplete, replication, w);
      var replicationHeld := cfg.replication && StageRuns(cfg.replicationScope, last) &&
        StageHeld(cfg.replicationScope, incomplete);
      var appHeld := !StageFailed(replication) && cfg.app && StageHeld(cfg.appScope, incomplete);
      Run(if StageFailed(replication) || StageFailed(app) || replicationHeld || appHeld then Red else Green,
          replication, app, Ended(replication), Ended(app))
  }

  /** The stage part of the handler, variable by variable. */
  method ExecuteSimpleRun(cfg: Config, inUpload: bool, last: bool, others: seq<Run>, w: World) returns (run: Run)
    requires Ended(w.replicationEnd) && Ended(w.appEnd)
    ensures run == Execute(cfg, inUpload, last, others, w)
  {
    var status := w.command;
    var replicationStatus, appStatus := StageStatus.None, StageStatus.None;
    var replicationHeld, appHeld := false, false;
    var replicationRan, appRan := false, false;
    if !w.settingsRead && status.Green? {
      status := Red;
    }
    if w.settingsRead && status.Green? {
      var incomplete := false;
      if inUpload && last {
        incomplete := UploadHasFailedPackages(others, w);
      }
      if cfg.replication {
        if !StageRuns(cfg.replicationScope, last) {
          replicationStatus := Skipped;
        } else if StageHeld(cfg.replicationScope, incomplete) {
          replicationStatus, replicationHeld := Skipped, true;
        } else {
          replicationRan, replicationStatus := true, w.replicationEnd;
        }
      }
      if StageFailed(replicationStatus) {
        status := Red;
      } else if cfg.app {
        if StageHeld(cfg.appScope, incomplete) {
          appStatus, appHeld := Skipped, true;
        } else if !AppStageRuns(cfg.appScope, last, replicationStatus) {
          appStatus := Skipped;
        } else {
          appRan, appStatus := true, w.appEnd;
        }
        if StageFailed(appStatus) {
          status := Red;
        }
      }
    }
    if (replicationHeld || appHeld) && status.Green? {
      status := Red;
    }
    return Run(status, replicationStatus, appStatus, replicationRan, appRan);
  }

  method UploadHasFailedPackages(others: seq<Run>, w: World) returns (failed: bool)
    ensures failed == HasFailedPackages(others, w)
  {
    if !w.othersRead {
      return true;
    }
    var count := 0;
    for i := 0 to |others|
      invariant 0 <= count <= i
      invariant count > 0 <==> exists k :: 0 <= k < i && !others[k].status.Green?
    {
      if !others[i].status.Green? {
        count := count + 1;
      }
    }
    return count > 0;
  }

  // ----------------------------------------------------------------------- one run

  /** Every other package of the upload is known to have deployed. */
  ghost predicate OthersDeployed(others: seq<Run>, w: World) {
    w.othersRead && forall i :: 0 <= i < |others| ==> others[i].status == Green
  }

  /** A once-per-upload stage has its turn in the last run, when the upload is complete. */
  ghost predicate HasTurn(scope: Scope, inUpload: bool, last: bool, others: seq<Run>, w: World) {
    scope == Each || (last && (inUpload ==> OthersDeployed(others, w)))
  }

  /** It would have had its turn, but another package did not deploy. */
  ghost predicate IsHeld(scope: Scope, inUpload: bool, last: bool, others: seq<Run>, w: World) {
    scope == Once && last && inUpload && !OthersDeployed(others, w)
  }

  /** A run, exactly: which stages start, and when it is green. After a good command an
      enabled replication starts in its turn; the application is deployed in its turn,
      and only behind a replication that succeeded, if one is enabled; the run is green
      if nothing that started failed and nothing that was due was held. */
  lemma {:induction false} RunExactly(cfg: Config, inUpload: bool, last: bool, others: seq<Run>, w: World)
    requires Ended(w.replicationEnd) && Ended(w.appEnd)
    ensures
      var run := Execute(cfg, inUpload, last, others, w);
      var good := w.command == Green && w.settingsRead;
      var replicated := cfg.replication ==> run.replicationRan && w.replicationEnd == Success;
      var replicationBroke := run.replicationRan && w.replicationEnd != Success;
      && (run.replicationRan <==>
            good && cfg.replication && HasTurn(cfg.replicationScope, inUpload, last, others, w))
      && (run.appRan <==>
            good && cfg.app && replicated && HasTurn(cfg.appScope, inUpload, last, others, w))
      && (run.status == Green <==>
            && good && !replicationBroke && (run.appRan ==> w.appEnd == Success)
            && !(cfg.replication && IsHeld(cfg.replicationScope, inUpload, last, others, w))
            && !(cfg.app && IsHeld(cfg.appScope, inUpload, last, others, w)))
      && (w.command != Green ==> run.status == w.command)
      && (run.replicationRan ==> run.replication == w.replicationEnd)
      && (run.appRan ==> run.app == w.appEnd)
  {
    FailedMeans(others, w);
    hide HasFailedPackages, OthersDeployed;
  }

  lemma {:induction false} FailedMeans(others: seq<Run>, w: World)
    ensures HasFailedPackages(others, w) <==> !OthersDeployed(others, w)
  {
  }

  // ------------------------------------------------------------------- an upload

  /** The packages of one upload run one after the other; only the final one is last. */
  function Upload(cfg: Config, worlds: seq<World>, n: nat): (runs: seq<Run>)
    requires n <= |worlds|
    ensures |runs| == n
  {
    if n == 0 then []
    else
      var before := Upload(cfg, worlds, n - 1);
      before + [Execute(cfg, true, n == |worlds|, before, worlds[n - 1])]
  }

  ghost predicate WellEnded(worlds: seq<World>) {
    forall i :: 0 <= i < |worlds| ==> Ended(worlds[i].replicationEnd) && Ended(worlds[i].appEnd)
  }

  lemma {:induction false} UploadRun(cfg: Config, worlds: seq<World>, n: nat, i: nat)
    requires i < n <= |worlds|
    ensures Upload(cfg, worlds, n)[..i] == Upload(cfg, worlds, i)
    ensures Upload(cfg, worlds, n)[i] == Execute(cfg, true, i + 1 == |worlds|, Upload(cfg, worlds, i), worlds[i])
    decreases n
  {
    if i + 1 < n {
      UploadRun(cfg, worlds, n - 1, i);
      assert Upload(cfg, worlds, n)[..i] == Upload(cfg, worlds, n - 1)[..i];
    }
  }

  /** In an upload a once-per-upload stage starts in the last run or not at all, and
      only when every other package is green; the app command starts only after
      an enabled replication that succeeded in the same run. */
  lemma {:induction false} StagesStartInOrder(cfg: Config, worlds: seq<World>, i: nat)
    requires WellEnded(worlds) && i < |worlds|
    ensures
      var runs := Upload(cfg, worlds, |worlds|);
      && (runs[i].replicationRan ==> cfg.replication && worlds[i].command.Green?)
      && (runs[i].appRan ==>
            && cfg.app && worlds[i].command.Green?
            && (cfg.replication ==> runs[i].replicationRan && runs[i].replication.Success?))
      && (cfg.replicationScope.Once? && runs[i].replicationRan ==>
            i + 1 == |worlds| && forall k :: 0 <= k < i ==> runs[k].status.Green?)
      && ((cfg.appScope.Once? || (cfg.replication && cfg.replicationScope.Once?)) && runs[i].appRan ==>
            i + 1 == |worlds| && forall k :: 0 <= k < i ==> runs[k].status.Green?)
  {
    var runs := Upload(cfg, worlds, |worlds|);
    UploadRun(cfg, worlds, |worlds|, i);
    var others := Upload(cfg, worlds, i);
    forall k | 0 <= k < i && !HasFailedPackages(others, worlds[i]) ensures runs[k].status.Green? {
      assert runs[k] == runs[..i][k];
    }
  }

  /** So a once-per-upload stage starts at most once. */
  lemma {:induction false} OnceMeansOnce(cfg: Config, worlds: seq<World>, i: nat, k: nat)
    requires WellEnded(worlds) && i < |worlds| && k < |worlds|
    ensures
      var runs := Upload(cfg, worlds, |worlds|);
      && (cfg.replicationScope.Once? && runs[i].replicationRan && runs[k].replicationRan ==> i == k)
      && (cfg.appScope.Once? && runs[i].appRan && runs[k].appRan ==> i == k)
  {
    StagesStartInOrder(cfg, worlds, i);
    StagesStartInOrder(cfg, worlds, k);
  }

  /** An enabled stage acts on the upload as a whole. */
  predicate HasOnceStage(cfg: Config) {
    (cfg.replication && cfg.replicationScope.Once?) || (cfg.app && cfg.appScope.Once?)
  }

  /** When the last run is green, its own package deployed and every enabled stage
      ran in it and succeeded; with a once-per-upload stage every other package
      deployed too. */
  lemma {:induction false} GreenLastRun(cfg: Config, worlds: seq<World>)
    requires WellEnded(worlds) && |worlds| > 0
    requires Upload(cfg, worlds, |worlds|)[|worlds| - 1].status.Green?
    ensures
      var runs, n := Upload(cfg, worlds, |worlds|), |worlds| - 1;
      && worlds[n].command.Green?
      && (cfg.replication ==> runs[n].replicationRan && runs[n].replication.Success?)
      && (cfg.app ==> runs[n].appRan && runs[n].app.Success?)
      && (HasOnceStage(cfg) ==> forall k :: 0 <= k <= n ==> runs[k].status.Green?)
  {
    var runs, n := Upload(cfg, worlds, |worlds|), |worlds| - 1;
    UploadRun(cfg, worlds, |worlds|, n);
    var others := Upload(cfg, worlds, n);
    if HasOnceStage(cfg) {
      assert !HasFailedPackages(others, worlds[n]);
      forall k | 0 <= k < n ensures runs[k].status.Green? { assert runs[k] == runs[..n][k]; }
    }
  }

  /** The last run stands for the whole upload. */
  ghost predicate LastSpeaksForAll(cfg: Config) {
    forall worlds: seq<World> {:trigger Upload(cfg, worlds, |worlds|)} ::
      WellEnded(worlds) && |worlds| > 0 && Upload(cfg, worlds, |worlds|)[|worlds| - 1].status.Green? ==>
        forall k :: 0 <= k < |worlds| ==> Upload(cfg, worlds, |worlds|)[k].status.Green?
  }

  /** A green last run means a green upload exactly when some enabled stage is
      once-per-upload: with per-package stages only, a failed first package
      followed by a good one ends green. */
  lemma {:induction false} GreenUploadExactly(cfg: Config)
    ensures LastSpeaksForAll(cfg) <==> HasOnceStage(cfg)
  {
    if HasOnceStage(cfg) {
      forall worlds: seq<World> | WellEnded(worlds) && |worlds| > 0 &&
        Upload(cfg, worlds, |worlds|)[|worlds| - 1].status.Green?
        ensures forall k :: 0 <= k < |worlds| ==> Upload(cfg, worlds, |worlds|)[k].status.Green?
      {
        GreenLastRun(cfg, worlds);
      }
    } else {
      FailedThenGood(cfg);
    }
  }

  lemma {:induction false} FailedThenGood(cfg: Config)
    requires !HasOnceStage(cfg)
    ensures !LastSpeaksForAll(cfg)
  {
    var bad, good := World(Red, true, true, Success, Success), World(Green, true, true, Success, Success);
    var worlds := [bad, good];
    UploadRun(cfg, worlds, 2, 0);
    UploadRun(cfg, worlds, 2, 1);
    var runs := Upload(cfg, worlds, |worlds|);
    assert WellEnded(worlds) && !runs[0].status.Green? && runs[1].status.Green?;
  }
}
