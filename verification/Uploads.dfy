/** Crash safety of artifact uploads. A file system keeps, besides what programs
    see, what the disk may hold: a changed directory entry may or may not have
    reached it until its directory is synchronized, and a file's contents are
    anything until the file is. Uploads run concurrently; the machine may crash at
    any point; a COMMIT may succeed, roll back, or stay undecided for a while. */
module Uploads {
  import opened Common

  type ReleaseId = nat
  type UploadId = nat
  type Contents = seq<nat>

  /** A release's directory below the root; `holder` has the release row locked. */
  datatype Directory = Directory(now: bool, maybe: set<bool>, holder: Option<UploadId>)

  /** The artifact row of an upload. */
  datatype Row = NoRow | InTransaction | Pending | Committed | RolledBack

  /** Where an upload is. Cleaning removes the partial file, the target and the
      empty directory, in that order; Over covers every way to end. */
  datatype Stage =
    | Locked | DirectoryMade | RootSynced | Writing | Written | Renamed | DirectorySynced | Inserted | Committing
    | Cleaning(left: nat) | Over

  /** What COMMIT returned: nothing, an error the server itself answered, or another. */
  datatype CommitError = NoError | ServerError | OtherError

  /** What looking for the row after an error came to. */
  datatype Probe = Visible | Invisible | ProbeFailed

  datatype Answer = Answer(error: CommitError, probe: Probe)

  /** The upload is reported as stored, its file is removed, or the outcome is
      reported as unknown and the file kept. */
  datatype Verdict = Stored | Removed | Unknown

  function Judge(a: Answer): Verdict {
    if a.error.NoError? || a.probe.Visible? then Stored
    else if a.error.ServerError? then Removed
    else Unknown
  }

  /** `recorded` stands for the size and hash the row records. History: `answer` is
      what the handler saw of its COMMIT. */
  datatype Upload = Upload(
    release: ReleaseId,
    stage: Stage,
    partial: bool,
    target: bool,
    targetMaybe: set<bool>,
    contents: Contents,
    synced: bool,
    recorded: Contents,
    row: Row,
    answer: Option<Answer>)

  datatype State = State(uploads: map<UploadId, Upload>, dirs: map<ReleaseId, Directory>)

  const EMPTY := State(map[], map[])

  function DirOf(s: State, r: ReleaseId): Directory {
    if r in s.dirs then s.dirs[r] else Directory(false, {false}, None)
  }

  predicate DirectoryEmpty(s: State, r: ReleaseId) {
    forall i :: i in s.uploads && s.uploads[i].release == r ==> !s.uploads[i].partial && !s.uploads[i].target
  }

  function Put(s: State, i: UploadId, u: Upload): State { s.(uploads := s.uploads[i := u]) }

  function PutDir(s: State, r: ReleaseId, d: Directory): State { s.(dirs := s.dirs[r := d]) }

  function Release(s: State, r: ReleaseId, i: UploadId): State {
    if DirOf(s, r).holder == Some(i) then PutDir(s, r, DirOf(s, r).(holder := None)) else s
  }

  /** fsync of the root: every directory entry is on disk as it is now. */
  function SyncRoot(s: State): State {
    s.(dirs := map r | r in s.dirs :: s.dirs[r].(maybe := {s.dirs[r].now}))
  }

  /** fsync of a release's directory: every entry in it is on disk as it is now. */
  function SyncEntries(s: State, r: ReleaseId): State {
    s.(uploads := map i | i in s.uploads ::
         if s.uploads[i].release == r then s.uploads[i].(targetMaybe := {s.uploads[i].target}) else s.uploads[i])
  }

  /** One step of an upload; `ok` says whether its system call or statement succeeds.
      Cleaning is arranged once the directory is there and synchronized. */
  function Advance(s: State, i: UploadId, ok: bool, chunk: Option<Contents>): State
    requires i in s.uploads
  {
    var u := s.uploads[i];
    var r, d := u.release, DirOf(s, u.release);
    var failed := Put(s, i, u.(stage := Cleaning(3), row := if u.row.InTransaction? then RolledBack else u.row));
    var leaves := Release(Put(s, i, u.(stage := Over)), r, i);
    match u.stage
    case Locked =>
      if !ok then leaves
      else
        var made := if d.now then s else PutDir(s, r, d.(now := true, maybe := d.maybe + {true}));
        Put(made, i, u.(stage := DirectoryMade))
    case DirectoryMade => if !ok then leaves else Put(SyncRoot(s), i, u.(stage := RootSynced))
    case RootSynced =>
      if !ok || !d.now then failed
        else Put(s, i, u.(stage := Writing, partial := true, contents := [], synced := false))
    case Writing =>
      if !ok then failed
      else if chunk.Some? then Put(s, i, u.(contents := u.contents + chunk.value))
      else Put(s, i, u.(stage := Written, synced := true))
    case Written =>
      if !ok || u.target then failed
      else Put(s, i, u.(stage := Renamed, partial := false, target := true, targetMaybe := u.targetMaybe + {true}))
    case Renamed =>
      if !ok then failed
      else var synced := SyncEntries(s, r); Put(synced, i, synced.uploads[i].(stage := DirectorySynced))
    case DirectorySynced =>
      if !ok then failed else Put(s, i, u.(stage := Inserted, row := InTransaction, recorded := u.contents))
    case Inserted => if !ok then failed else Put(s, i, u.(stage := Committing, row := Pending))
    case Committing => s
    case Cleaning(left) =>
      if left >= 3 then Put(s, i, u.(stage := Cleaning(2), partial := u.partial && !ok))
      else if left == 2 then
        var gone := u.target && ok;
        Put(s, i, u.(stage := Cleaning(1), target := u.target && !gone,
                     targetMaybe := if gone then u.targetMaybe + {false} else u.targetMaybe))
      else
        var next := Put(s, i, u.(stage := Over));
        var left :=
          if ok && DirectoryEmpty(s, r) && d.now then PutDir(next, r, d.(now := false, maybe := d.maybe + {false}))
          else next;
        if u.row.Pending? then left else Release(left, r, i)
    case Over => s
  }

  /** COMMIT returns without error, and its row is seen, only after it took effect. */
  predicate Possible(row: Row, a: Answer) { a.error.NoError? || a.probe.Visible? ==> row.Committed? }

  /** The handler learns what became of its COMMIT and acts on that alone. */
  function AnswerCommit(s: State, i: UploadId, a: Answer): State
    requires i in s.uploads
  {
    var u := s.uploads[i];
    if !u.stage.Committing? || !Possible(u.row, a) then s
    else Put(s, i, u.(stage := if Judge(a).Removed? then Cleaning(2) else Over, answer := Some(a)))
  }

  datatype Event =
    | Begin(id: UploadId, release: ReleaseId)
    | Step(id: UploadId, ok: bool, chunk: Option<Contents>)
    | Answered(id: UploadId, answer: Answer)
    | Resolve(id: UploadId, commits: bool)
    | Crash(dirs: map<ReleaseId, bool>, targets: map<UploadId, bool>, garbage: map<UploadId, Contents>)

  /** What the disk holds after a crash: any of the values it may hold. */
  function Pick(now: bool, maybe: set<bool>, choice: Option<bool>): bool {
    if choice.Some? && choice.value in maybe then choice.value else now
  }

  function Lookup<K, V>(m: map<K, V>, k: K): Option<V> { if k in m then Some(m[k]) else None }

  function CrashedUpload(u: Upload, target: Option<bool>, garbage: Option<Contents>): Upload {
    var there := Pick(u.target, u.targetMaybe, target);
    u.(stage := Over, partial := false, target := there, targetMaybe := {there},
       contents := if u.synced then u.contents else garbage.GetOr(u.contents), synced := true,
       row := if u.row.InTransaction? then RolledBack else u.row)
  }

  /** The processes are gone, and with them their open transactions; a COMMIT that
      was sent may still take effect. */
  function CrashedDirectory(s: State, d: Directory, choice: Option<bool>): Directory {
    var there := Pick(d.now, d.maybe, choice);
    var undecided := d.holder.Some? && d.holder.value in s.uploads && s.uploads[d.holder.value].row.Pending?;
    Directory(there, {there}, if undecided then d.holder else None)
  }

  function Next(s: State, e: Event): State {
    match e
    case Begin(i, r) =>
      if i in s.uploads || DirOf(s, r).holder.Some? then s
      else
        Put(PutDir(s, r, DirOf(s, r).(holder := Some(i))), i,
            Upload(r, Locked, false, false, {false}, [], false, [], NoRow, None))
    case Step(i, ok, chunk) => if i in s.uploads then Advance(s, i, ok, chunk) else s
    case Answered(i, a) => if i in s.uploads then AnswerCommit(s, i, a) else s
    case Resolve(i, commits) =>
      if i !in s.uploads || !s.uploads[i].row.Pending? then s
      else
        var u := s.uploads[i].(row := if commits then Committed else RolledBack);
        Release(Put(s, i, u), u.release, i)
    case Crash(dirs, targets, garbage) =>
      State(map i | i in s.uploads :: CrashedUpload(s.uploads[i], Lookup(targets, i), Lookup(garbage, i)),
            map r | r in s.dirs :: CrashedDirectory(s, s.dirs[r], Lookup(dirs, r)))
  }

  function Run(s: State, events: seq<Event>): State
    decreases |events|
  {
    if |events| == 0 then s else Run(Next(s, events[0]), events[1..])
  }

  // ------------------------------------------------------------------- invariant

  /** Writing the file; nothing is in the database yet. */
  predicate Storing(u: Upload) {
    || u.stage.Locked? || u.stage.DirectoryMade? || u.stage.RootSynced? || u.stage.Writing? || u.stage.Written?
    || u.stage.Renamed? || u.stage.DirectorySynced?
  }

  predicate Holding(u: Upload) { Storing(u) || u.stage.Inserted? || u.row.Pending? }

  /** The directory is there and will be after a crash. */
  ghost predicate DirectoryDurable(d: Directory) { d.now && d.maybe == {true} }

  /** The file is there, complete, and will be after a crash. */
  ghost predicate FileDurable(u: Upload, d: Directory) {
    u.target && u.targetMaybe == {true} && u.synced && u.contents == u.recorded && DirectoryDurable(d)
  }

  /** The COMMIT was answered by a server error and the row was not seen, so the
      file is to be removed. */
  predicate Condemned(u: Upload) { u.answer.Some? && Judge(u.answer.value).Removed? }

  /** What an upload's stage says about the disk. */
  ghost predicate StageOk(u: Upload, d: Directory) {
    && (u.row.InTransaction? || u.row.Pending? || u.row.Committed? ==> FileDurable(u, d) || Condemned(u))
    && (u.row.InTransaction? <==> u.stage.Inserted?)
    && (u.stage.Cleaning? ==> u.row.NoRow? || u.row.RolledBack? || Condemned(u))
    && (u.stage.Committing? ==> !u.row.NoRow? && !u.row.InTransaction?)
    && (u.answer.Some? ==> u.stage.Cleaning? || u.stage.Over?)
    && (u.answer.Some? && Judge(u.answer.value).Stored? ==> u.row.Committed?)
    && match u.stage
       case RootSynced => d.now ==> d.maybe == {true}
       case Writing => u.partial && DirectoryDurable(d)
       case Written => u.partial && u.synced && DirectoryDurable(d)
       case Renamed => u.target && u.synced && DirectoryDurable(d)
       case DirectorySynced => u.target && u.targetMaybe == {true} && u.synced && DirectoryDurable(d)
       case _ => true
  }

  ghost predicate UploadOk(s: State, i: UploadId)
    requires i in s.uploads
  {
    var u := s.uploads[i];
    && StageOk(u, DirOf(s, u.release))
    && (Storing(u) ==> u.row.NoRow?)
    && (Holding(u) ==> DirOf(s, u.release).holder == Some(i))
  }

  ghost predicate Inv(s: State) {
    forall i {:trigger UploadOk(s, i)} :: i in s.uploads ==> UploadOk(s, i)
  }

  // ------------------------------------------------------------- one kind of change

  lemma {:induction false} PutKeeps(s: State, i: UploadId, u: Upload)
    requires Inv(s) && UploadOk(Put(s, i, u), i)
    ensures Inv(Put(s, i, u))
  {
    var n := Put(s, i, u);
    forall k | k in n.uploads ensures UploadOk(n, k) { if k != i { assert UploadOk(s, k); } }
  }

  lemma {:induction false} UploadFacts(s: State, i: UploadId)
    requires Inv(s) && i in s.uploads
    ensures UploadOk(s, i)
  {
  }

  lemma {:induction false} SyncRootKeeps(s: State)
    requires Inv(s)
    ensures Inv(SyncRoot(s))
  {
    var n := SyncRoot(s);
    forall k | k in n.uploads ensures UploadOk(n, k) { assert UploadOk(s, k); }
  }

  lemma {:induction false} SyncEntriesKeeps(s: State, r: ReleaseId)
    requires Inv(s)
    ensures Inv(SyncEntries(s, r))
  {
    var n := SyncEntries(s, r);
    forall k | k in n.uploads ensures UploadOk(n, k) { assert UploadOk(s, k); }
  }

  /** mkdir under the release's lock: nobody else counts on the directory. */
  lemma {:induction false} MakeKeeps(s: State, i: UploadId)
    requires Inv(s) && i in s.uploads && s.uploads[i].stage.Locked?
    ensures
      var r := s.uploads[i].release;
      var d := DirOf(s, r);
      !d.now ==> Inv(PutDir(s, r, d.(now := true, maybe := d.maybe + {true})))
  {
    var r := s.uploads[i].release;
    var d := DirOf(s, r);
    var n := PutDir(s, r, d.(now := true, maybe := d.maybe + {true}));
    assert UploadOk(s, i);
    if !d.now {
      forall k | k in n.uploads ensures UploadOk(n, k) { assert UploadOk(s, k); }
    }
  }

  /** rmdir of an empty directory: nobody has a file in it. */
  lemma {:induction false} RemoveKeeps(s: State, r: ReleaseId)
    requires Inv(s) && DirectoryEmpty(s, r)
    ensures Inv(PutDir(s, r, DirOf(s, r).(now := false, maybe := DirOf(s, r).maybe + {false})))
  {
    var n := PutDir(s, r, DirOf(s, r).(now := false, maybe := DirOf(s, r).maybe + {false}));
    forall k | k in n.uploads ensures UploadOk(n, k) { assert UploadOk(s, k); }
  }

  lemma {:induction false} ReleaseKeeps(s: State, r: ReleaseId, i: UploadId)
    requires Inv(s) && (i in s.uploads ==> !Holding(s.uploads[i]))
    ensures Inv(Release(s, r, i))
  {
    var n := Release(s, r, i);
    forall k | k in n.uploads ensures UploadOk(n, k) { assert UploadOk(s, k); }
  }

  // ------------------------------------------------------------------- each event

  lemma {:induction false} LeavesKeep(s: State, i: UploadId)
    requires Inv(s) && i in s.uploads && (s.uploads[i].stage.Locked? || s.uploads[i].stage.DirectoryMade?)
    ensures Inv(Release(Put(s, i, s.uploads[i].(stage := Over)), s.uploads[i].release, i))
  {
    assert UploadOk(s, i);
    PutKeeps(s, i, s.uploads[i].(stage := Over));
    ReleaseKeeps(Put(s, i, s.uploads[i].(stage := Over)), s.uploads[i].release, i);
  }

  lemma {:induction false} StoreKeeps(s: State, i: UploadId, ok: bool, chunk: Option<Contents>)
    requires Inv(s) && i in s.uploads && Storing(s.uploads[i])
    ensures Inv(Advance(s, i, ok, chunk))
  {
    var u := s.uploads[i];
    var r, d := u.release, DirOf(s, u.release);
    assert UploadOk(s, i);
    PutKeeps(s, i, u.(stage := Cleaning(3), row := if u.row.InTransaction? then RolledBack else u.row));
    match u.stage
    case Locked =>
      MakeKeeps(s, i);
      LeavesKeep(s, i);
      if !d.now { PutKeeps(PutDir(s, r, d.(now := true, maybe := d.maybe + {true})), i, u.(stage := DirectoryMade)); }
      else { PutKeeps(s, i, u.(stage := DirectoryMade)); }
    case DirectoryMade =>
      LeavesKeep(s, i);
      SyncRootKeeps(s);
      PutKeeps(SyncRoot(s), i, u.(stage := RootSynced));
    case RootSynced =>
      if d.now { PutKeeps(s, i, u.(stage := Writing, partial := true, contents := [], synced := false)); }
    case Writing =>
      if chunk.Some? { PutKeeps(s, i, u.(contents := u.contents + chunk.value)); }
      PutKeeps(s, i, u.(stage := Written, synced := true));
    case Written =>
      PutKeeps(s, i, u.(stage := Renamed, partial := false, target := true, targetMaybe := u.targetMaybe + {true}));
    case Renamed =>
      SyncEntriesKeeps(s, r);
      assert UploadOk(SyncEntries(s, r), i);
      PutKeeps(SyncEntries(s, r), i, SyncEntries(s, r).uploads[i].(stage := DirectorySynced));
    case DirectorySynced => PutKeeps(s, i, u.(stage := Inserted, row := InTransaction, recorded := u.contents));
    case _ =>
  }

  lemma {:induction false} FinishKeeps(s: State, i: UploadId, ok: bool, chunk: Option<Contents>)
    requires Inv(s) && i in s.uploads && !Storing(s.uploads[i])
    ensures Inv(Advance(s, i, ok, chunk))
  {
    hide Inv, DirectoryEmpty, Release;
    var u := s.uploads[i];
    var r, d := u.release, DirOf(s, u.release);
    UploadFacts(s, i);
    match u.stage
    case Inserted =>
      PutKeeps(s, i, u.(stage := Cleaning(3), row := RolledBack));
      PutKeeps(s, i, u.(stage := Committing, row := Pending));
    case Cleaning(left) =>
      if left >= 3 {
        PutKeeps(s, i, u.(stage := Cleaning(2), partial := u.partial && !ok));
      } else if left == 2 {
        var gone := u.target && ok;
        PutKeeps(s, i, u.(stage := Cleaning(1), target := u.target && !gone,
                          targetMaybe := if gone then u.targetMaybe + {false} else u.targetMaybe));
      } else {
        LeaveKeeps(s, i, ok, chunk);
      }
    case _ =>
  }

  /** The last cleaning step: the empty directory goes, the lock is given back. */
  lemma {:induction false} LeaveKeeps(s: State, i: UploadId, ok: bool, chunk: Option<Contents>)
    requires Inv(s) && i in s.uploads && s.uploads[i].stage.Cleaning? && s.uploads[i].stage.left < 2
    ensures Inv(Advance(s, i, ok, chunk))
  {
    var u := s.uploads[i];
    var r, d, next := u.release, DirOf(s, u.release), Put(s, i, u.(stage := Over));
    assert UploadOk(s, i);
    PutKeeps(s, i, u.(stage := Over));
    hide Inv, UploadOk, Release, DirectoryEmpty;
    if ok && DirectoryEmpty(s, r) && d.now {
      EmptyStays(s, i, r);
      RemoveKeeps(next, r);
      if !u.row.Pending? { ReleaseKeeps(PutDir(next, r, d.(now := false, maybe := d.maybe + {false})), r, i); }
    } else if !u.row.Pending? {
      ReleaseKeeps(next, r, i);
    }
  }

  lemma {:induction false} EmptyStays(s: State, i: UploadId, r: ReleaseId)
    requires i in s.uploads && DirectoryEmpty(s, r)
    ensures DirectoryEmpty(Put(s, i, s.uploads[i].(stage := Over)), r)
  {
  }

  lemma {:induction false} CrashKeeps(s: State, e: Event)
    requires Inv(s) && e.Crash?
    ensures Inv(Next(s, e))
  {
    var n := Next(s, e);
    forall k | k in n.uploads ensures UploadOk(n, k) { assert UploadOk(s, k); }
  }

  lemma {:induction false} BeginKeeps(s: State, e: Event)
    requires Inv(s) && e.Begin?
    ensures Inv(Next(s, e))
  {
    var n := Next(s, e);
    forall k | k in n.uploads ensures UploadOk(n, k) { if k in s.uploads { assert UploadOk(s, k); } }
  }

  lemma {:induction false} ResolveKeeps(s: State, e: Event)
    requires Inv(s) && e.Resolve?
    ensures Inv(Next(s, e))
  {
    var i := e.id;
    if i in s.uploads && s.uploads[i].row.Pending? {
      assert UploadOk(s, i);
      var u := s.uploads[i].(row := if e.commits then Committed else RolledBack);
      PutKeeps(s, i, u);
      ReleaseKeeps(Put(s, i, u), u.release, i);
    }
  }

  lemma {:induction false} AnswerKeeps(s: State, i: UploadId, a: Answer)
    requires Inv(s) && i in s.uploads
    ensures Inv(AnswerCommit(s, i, a))
  {
    hide Inv;
    var u := s.uploads[i];
    UploadFacts(s, i);
    if u.stage.Committing? && Possible(u.row, a) {
      PutKeeps(s, i, u.(stage := if Judge(a).Removed? then Cleaning(2) else Over, answer := Some(a)));
    }
  }

  lemma {:induction false} NextKeeps(s: State, e: Event)
    requires Inv(s)
    ensures Inv(Next(s, e))
  {
    hide Inv, Advance;
    match e
    case Begin(_, _) => BeginKeeps(s, e);
    case Step(i, ok, chunk) =>
      if i in s.uploads {
        if Storing(s.uploads[i]) { StoreKeeps(s, i, ok, chunk); } else { FinishKeeps(s, i, ok, chunk); }
      }
    case Answered(i, a) => if i in s.uploads { AnswerKeeps(s, i, a); }
    case Resolve(_, _) => ResolveKeeps(s, e);
    case Crash(_, _, _) => CrashKeeps(s, e);
  }

  lemma {:induction false} RunKeeps(s: State, events: seq<Event>)
    requires Inv(s)
    ensures Inv(Run(s, events))
    decreases |events|
  {
    hide Inv, Next;
    if |events| > 0 {
      NextKeeps(s, events[0]);
      RunKeeps(Next(s, events[0]), events[1..]);
    }
  }

  // ------------------------------------------------------------- what a COMMIT came to

  const ATTEMPTS := 3

  /** One look for the row: it was there, it was not, or the query failed. */
  datatype Try = Saw | SawNot | QueryFailed

  /** The looks that were made before the time for them was over. */
  function ProbeOf(tries: seq<Try>): Probe {
    if Saw in tries then Visible
    else if |tries| == ATTEMPTS && tries[ATTEMPTS - 1].SawNot? then Invisible
    else ProbeFailed
  }

  method ArtifactCommitVisible(tries: seq<Try>) returns (visible: bool, failed: bool)
    requires 0 < |tries| <= ATTEMPTS
    ensures ProbeOf(tries) == if visible then Visible else if failed then ProbeFailed else Invisible
  {
    failed := false;
    var attempt := 0;
    while attempt < ATTEMPTS
      invariant 0 <= attempt <= |tries| && (attempt < |tries| || attempt == ATTEMPTS)
      invariant Saw !in tries[..attempt]
      invariant attempt > 0 ==> failed == tries[attempt - 1].QueryFailed?
    {
      var seen := tries[attempt];
      failed := seen.QueryFailed?;
      if seen.Saw? {
        return true, false;
      }
      assert tries[..attempt + 1] == tries[..attempt] + [seen];
      if attempt < ATTEMPTS - 1 && attempt + 1 == |tries| {
        return false, true;
      }
      attempt := attempt + 1;
    }
    return false, failed;
  }

  /** The end of an upload: a file goes exactly when the server answered COMMIT with
      an error and the row was not seen; success is reported exactly when there was
      no error or the row was seen. */
  method Settle(error: CommitError, tries: seq<Try>) returns (verdict: Verdict)
    requires 0 < |tries| <= ATTEMPTS
    ensures verdict == Judge(Answer(error, ProbeOf(tries)))
    ensures verdict.Removed? <==> error.ServerError? && Saw !in tries
    ensures verdict.Stored? <==> error.NoError? || Saw in tries
  {
    if !error.NoError? {
      var visible, failed := ArtifactCommitVisible(tries);
      if visible {
        return Stored;
      } else if error.ServerError? {
        return Removed;
      }
      return Unknown;
    }
    return Stored;
  }

  /** The end of a quick release, whose deferred clean-up asks a flag. */
  method SettleQuick(error: CommitError, tries: seq<Try>) returns (cleans: bool, reported: bool)
    requires 0 < |tries| <= ATTEMPTS
    ensures cleans == Judge(Answer(error, ProbeOf(tries))).Removed?
    ensures reported == Judge(Answer(error, ProbeOf(tries))).Stored?
  {
    var committed := false;
    reported := true;
    if !error.NoError? {
      var visible, failed := ArtifactCommitVisible(tries);
      if visible {
        committed := true;
      } else if error.ServerError? {
        reported := false;
      } else {
        committed := true;
        reported := false;
      }
    } else {
      committed := true;
    }
    cleans := !committed;
  }

  // --------------------------------------------------------------------- theorems

  /** An error that the server itself answers to COMMIT, with the row unseen, means
      that it rolled back. */
  predicate ServerErrorsRollBack(s: State, events: seq<Event>)
    decreases |events|
  {
    |events| > 0 ==> TruthfulNow(s, events[0]) && ServerErrorsRollBack(Next(s, events[0]), events[1..])
  }

  predicate TruthfulNow(s: State, e: Event) {
    e.Answered? && Judge(e.answer).Removed? && e.id in s.uploads && s.uploads[e.id].stage.Committing? ==>
      s.uploads[e.id].row.RolledBack?
  }

  ghost predicate CondemnedRolledBack(s: State) {
    forall i :: i in s.uploads && Condemned(s.uploads[i]) ==> s.uploads[i].row.RolledBack?
  }

  /** Only an answer condemns, and what is known of a COMMIT never changes again. */
  ghost predicate OutcomeKept(u: Upload, u': Upload, e: Event, i: UploadId) {
    && (u.answer.Some? ==> u'.answer == u.answer)
    && (u.row.RolledBack? ==> u'.row.RolledBack?)
    && (u.row.Committed? ==> u'.row.Committed?)
    && (u'.answer == u.answer ||
        (e.Answered? && e.id == i && u'.answer == Some(e.answer) && u.stage.Committing? && u'.row == u.row))
  }

  lemma {:induction false} StoreOutcome(s: State, i: UploadId, ok: bool, chunk: Option<Contents>, k: UploadId)
    requires i in s.uploads && Storing(s.uploads[i]) && s.uploads[i].row.NoRow? && k in s.uploads
    ensures k in Advance(s, i, ok, chunk).uploads
    ensures OutcomeKept(s.uploads[k], Advance(s, i, ok, chunk).uploads[k], Step(i, ok, chunk), k)
  {
    hide DirectoryEmpty, FileDurable, OutcomeKept;
    var u, u' := s.uploads[k], Advance(s, i, ok, chunk).uploads[k];
    assert u'.answer == u.answer && (u'.row == u.row || u.row.NoRow?);
    SameOutcome(u, u', Step(i, ok, chunk), k);
  }

  lemma {:induction false} FinishOutcome(s: State, i: UploadId, ok: bool, chunk: Option<Contents>, k: UploadId)
    requires i in s.uploads && !Storing(s.uploads[i]) && k in s.uploads
    requires StageOk(s.uploads[i], DirOf(s, s.uploads[i].release))
    ensures k in Advance(s, i, ok, chunk).uploads
    ensures OutcomeKept(s.uploads[k], Advance(s, i, ok, chunk).uploads[k], Step(i, ok, chunk), k)
  {
    var u := s.uploads[i];
    assert u.stage.Inserted? ==> u.row.InTransaction?;
    hide DirectoryEmpty, StageOk, OutcomeKept;
    var w, w' := s.uploads[k], Advance(s, i, ok, chunk).uploads[k];
    assert w'.answer == w.answer && (w'.row == w.row || w.row.InTransaction?);
    SameOutcome(w, w', Step(i, ok, chunk), k);
  }

  lemma {:induction false} SameOutcome(u: Upload, u': Upload, e: Event, i: UploadId)
    requires u'.answer == u.answer && (u'.row == u.row || u.row.NoRow? || u.row.InTransaction?)
    ensures OutcomeKept(u, u', e, i)
  {
  }

  lemma {:induction false} OutcomeStays(s: State, e: Event, i: UploadId)
    requires Inv(s) && i in s.uploads
    ensures i in Next(s, e).uploads && OutcomeKept(s.uploads[i], Next(s, e).uploads[i], e, i)
  {
    UploadFacts(s, i);
    if e.Step? && e.id in s.uploads {
      UploadFacts(s, e.id);
      if Storing(s.uploads[e.id]) { StoreOutcome(s, e.id, e.ok, e.chunk, i); }
      else { FinishOutcome(s, e.id, e.ok, e.chunk, i); }
      hide Advance;
    }
    hide Inv, UploadOk, StageOk;
  }

  lemma {:induction false} TruthKeeps(s: State, events: seq<Event>)
    requires Inv(s) && CondemnedRolledBack(s) && ServerErrorsRollBack(s, events)
    ensures CondemnedRolledBack(Run(s, events))
    decreases |events|
  {
    hide Next, Inv, Judge;
    if |events| > 0 {
      var next := Next(s, events[0]);
      NextKeeps(s, events[0]);
      forall i | i in next.uploads && Condemned(next.uploads[i]) ensures next.uploads[i].row.RolledBack? {
        if i in s.uploads { OutcomeStays(s, events[0], i); } else { NewUpload(s, events[0], i); }
      }
      TruthKeeps(next, events[1..]);
    }
  }

  lemma {:induction false} NewUpload(s: State, e: Event, i: UploadId)
    requires i !in s.uploads && i in Next(s, e).uploads
    ensures Next(s, e).uploads[i].answer.None?
  {
    hide DirectoryEmpty;
  }

  /** In every run of any number of uploads, with crashes anywhere, failing system
      calls and undecided commits: a committed artifact row has its file, in a
      directory that is there, with exactly the recorded contents, and a crash
      right now would not change that, unless a server error was the answer to its
      COMMIT and the row went unseen; and success is reported for committed rows
      only. */
  lemma {:induction false} CommittedUnlessCondemned(events: seq<Event>, i: UploadId)
    requires i in Run(EMPTY, events).uploads
    ensures
      var s := Run(EMPTY, events);
      var u := s.uploads[i];
      && (u.row.Committed? ==> FileDurable(u, DirOf(s, u.release)) || Condemned(u))
      && (u.answer.Some? && Judge(u.answer.value).Stored? ==>
            u.row.Committed? && FileDurable(u, DirOf(s, u.release)))
  {
    hide Run;
    RunKeeps(EMPTY, events);
    assert UploadOk(Run(EMPTY, events), i);
  }

  /** So where server errors mean rollbacks, no committed row ever misses its file. */
  lemma {:induction false} CommittedArtifactIsThere(events: seq<Event>, i: UploadId)
    requires ServerErrorsRollBack(EMPTY, events)
    requires i in Run(EMPTY, events).uploads && Run(EMPTY, events).uploads[i].row.Committed?
    ensures
      var s := Run(EMPTY, events);
      FileDurable(s.uploads[i], DirOf(s, s.uploads[i].release))
  {
    hide Run;
    TruthKeeps(EMPTY, events);
    CommittedUnlessCondemned(events, i);
  }

  /** A committed row without its file. */
  predicate Lost(s: State, i: UploadId) {
    i in s.uploads && s.uploads[i].row.Committed? && !s.uploads[i].target
  }

  lemma {:induction false} LossNeedsVerdict(s: State, more: seq<Event>, i: UploadId)
    requires Inv(s) && i in s.uploads && s.uploads[i].answer.Some?
    requires s.uploads[i].row.RolledBack? || !Condemned(s.uploads[i])
    ensures !Lost(Run(s, more), i)
    decreases |more|
  {
    hide Inv, Next;
    UploadFacts(s, i);
    if |more| > 0 {
      NextKeeps(s, more[0]);
      OutcomeStays(s, more[0], i);
      LossNeedsVerdict(Next(s, more[0]), more[1..], i);
    }
  }

  /** What follows when the answer removes the file of a COMMIT that takes effect. */
  function LossAfter(row: Row, i: UploadId): seq<Event> {
    (if row.Pending? then [Resolve(i, true)] else []) + [Step(i, true, None)]
  }

  lemma {:induction false} LossFollows(s: State, i: UploadId, a: Answer)
    requires Inv(s) && i in s.uploads && s.uploads[i].stage.Committing?
    requires Possible(s.uploads[i].row, a) && Judge(a).Removed? && !s.uploads[i].row.RolledBack?
    ensures Lost(Run(Next(s, Answered(i, a)), LossAfter(s.uploads[i].row, i)), i)
  {
    hide Inv, Judge, DirectoryEmpty, Release;
    UploadFacts(s, i);
    var next, row := Next(s, Answered(i, a)), s.uploads[i].row;
    var clean := Step(i, true, None);
    RunOne(next, Resolve(i, true), [clean]);
    RunOne(Next(next, Resolve(i, true)), clean, []);
    RunOne(next, clean, []);
    assert LossAfter(row, i) == if row.Pending? then [Resolve(i, true), clean] else [clean];
    if row.Pending? {
      ReleaseKeepsUploads(Put(next, i, next.uploads[i].(row := Committed)), next.uploads[i].release, i);
    }
  }

  lemma {:induction false} RunOne(s: State, e: Event, rest: seq<Event>)
    ensures Run(s, [e] + rest) == Run(Next(s, e), rest)
    ensures rest == [] ==> Run(s, [e]) == Next(s, e)
  {
    hide Next;
    assert ([e] + rest)[1..] == rest && [e][1..] == [];
  }

  lemma ReleaseKeepsUploads(s: State, r: ReleaseId, i: UploadId)
    ensures Release(s, r, i).uploads == s.uploads
  {
  }

  /** The exact condition. At the moment a COMMIT is answered, its committed row can
      ever come to miss its file if and only if the answer is a server error with
      the row unseen while the COMMIT took effect or still may. */
  lemma {:induction false} LostExactlyWhenMisled(events: seq<Event>, i: UploadId, a: Answer)
    requires
      var s := Run(EMPTY, events);
      i in s.uploads && s.uploads[i].stage.Committing? && Possible(s.uploads[i].row, a)
    ensures
      var s := Run(EMPTY, events);
      (exists more :: Lost(Run(Next(s, Answered(i, a)), more), i)) <==>
      a.error.ServerError? && !a.probe.Visible? && !s.uploads[i].row.RolledBack?
  {
    hide Run;
    var s := Run(EMPTY, events);
    RunKeeps(EMPTY, events);
    UploadFacts(s, i);
    NextKeeps(s, Answered(i, a));
    var next := Next(s, Answered(i, a));
    if Judge(a).Removed? && !s.uploads[i].row.RolledBack? {
      LossFollows(s, i, a);
    } else {
      hide Inv;
      forall more ensures !Lost(Run(next, more), i) { LossNeedsVerdict(next, more, i); }
    }
  }

  /** How many steps an undisturbed upload is away from its COMMIT. */
  function Distance(stage: Stage): nat {
    match stage
    case Locked => 8
    case DirectoryMade => 7
    case RootSynced => 6
    case Writing => 5
    case Written => 4
    case Renamed => 3
    case DirectorySynced => 2
    case Inserted => 1
    case _ => 0
  }

  predicate Undisturbed(s: State, i: UploadId) {
    && i in s.uploads
    && Distance(s.uploads[i].stage) > 0
    && (Distance(s.uploads[i].stage) > 3 ==> !s.uploads[i].target)
    && (!s.uploads[i].stage.Locked? ==> DirOf(s, s.uploads[i].release).now)
  }

  lemma {:induction false} ReachesCommit(s: State, i: UploadId, n: nat)
    requires Undisturbed(s, i) && n == Distance(s.uploads[i].stage)
    ensures
      var s' := Run(s, seq(n, _ => Step(i, true, None)));
      i in s'.uploads && s'.uploads[i].stage.Committing? && s'.uploads[i].row.Pending?
    decreases n
  {
    hide DirectoryEmpty;
    var go := Step(i, true, None);
    var next := Next(s, go);
    assert seq(n, _ => go) == [go] + seq(n - 1, _ => go);
    hide Run;
    RunOne(s, go, seq(n - 1, _ => go));
    if n == 1 {
      assert seq(0, _ => go) == [];
      RunNone(next);
    } else {
      ReachesCommit(next, i, n - 1);
    }
  }

  lemma RunNone(s: State)
    ensures Run(s, []) == s
  {
  }

  /** The witness: an upload comes to its COMMIT, the COMMIT takes effect, a server
      error is the answer and the probe fails; the clean-up removes the file of the
      committed row. */
  lemma {:induction false} MisledRun()
    ensures
      var s := Next(Run(Next(EMPTY, Begin(0, 0)), seq(8, _ => Step(0, true, None))), Resolve(0, true));
      Lost(Next(Next(s, Answered(0, Answer(ServerError, ProbeFailed))), Step(0, true, None)), 0)
  {
    hide Run, Advance;
    var begun := Next(EMPTY, Begin(0, 0));
    ReachesCommit(begun, 0, 8);
    var sent := Run(begun, seq(8, _ => Step(0, true, None)));
    NextKeeps(EMPTY, Begin(0, 0));
    RunKeeps(begun, seq(8, _ => Step(0, true, None)));
    NextKeeps(sent, Resolve(0, true));
    var s := Next(sent, Resolve(0, true));
    Resolved(sent, 0);
    hide Inv, Next;
    LossFollows(s, 0, Answer(ServerError, ProbeFailed));
    RunOne(Next(s, Answered(0, Answer(ServerError, ProbeFailed))), Step(0, true, None), []);
    assert [] + [Step(0, true, None)] == [Step(0, true, None)];
  }

  lemma {:induction false} Resolved(s: State, i: UploadId)
    requires i in s.uploads && s.uploads[i].row.Pending?
    ensures Next(s, Resolve(i, true)).uploads == s.uploads[i := s.uploads[i].(row := Committed)]
  {
    ReleaseKeepsUploads(Put(s, i, s.uploads[i].(row := Committed)), s.uploads[i].release, i);
    hide Release;
  }

  /** The same holds before the outcome of a COMMIT is known, so a row that becomes
      visible late, even after a crash, finds its file. */
  lemma {:induction false} UndecidedArtifactIsKept(events: seq<Event>, crash: Event, i: UploadId)
    requires ServerErrorsRollBack(EMPTY, events)
    requires crash.Crash? && i in Run(EMPTY, events).uploads && Run(EMPTY, events).uploads[i].row.Pending?
    ensures
      var s := Next(Next(Run(EMPTY, events), crash), Resolve(i, true));
      i in s.uploads && s.uploads[i].row.Committed? && FileDurable(s.uploads[i], DirOf(s, s.uploads[i].release))
      && s.uploads[i].contents == Run(EMPTY, events).uploads[i].recorded
  {
    hide Run;
    var before := Run(EMPTY, events);
    RunKeeps(EMPTY, events);
    TruthKeeps(EMPTY, events);
    assert UploadOk(before, i);
    CrashKeeps(before, crash);
    var crashed := Next(before, crash);
    ResolveKeeps(crashed, Resolve(i, true));
    assert UploadOk(Next(crashed, Resolve(i, true)), i);
  }
}
