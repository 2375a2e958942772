/** What an upload comes to: one in which nothing fails stores exactly what was sent,
    and one that fails leaves nothing behind. */
module UploadOutcomes {
  import opened Common
  import opened Uploads

  function Joined(chunks: seq<Contents>): Contents {
    if |chunks| == 0 then [] else chunks[0] + Joined(chunks[1..])
  }

  /** Other uploads are as they were; what the disk may hold of them may be less. */
  ghost predicate OthersKept(s: State, s': State, i: UploadId) {
    forall k :: k != i ==>
      && (k in s'.uploads <==> k in s.uploads)
      && (k in s.uploads ==>
            s'.uploads[k] == s.uploads[k].(targetMaybe := s'.uploads[k].targetMaybe)
            && s'.uploads[k].targetMaybe <= s.uploads[k].targetMaybe + {s.uploads[k].target})
  }

  lemma {:induction false} KeptTwice(a: State, b: State, c: State, i: UploadId)
    requires OthersKept(a, b, i) && OthersKept(b, c, i)
    ensures OthersKept(a, c, i)
  {
  }

  function NextStage(stage: Stage): Stage {
    match stage
    case Locked => DirectoryMade
    case DirectoryMade => RootSynced
    case RootSynced => Writing
    case Writing => Written
    case Written => Renamed
    case Renamed => DirectorySynced
    case DirectorySynced => Inserted
    case Inserted => Committing
    case _ => stage
  }

  /** An upload on its way. */
  ghost predicate Going(s: State, i: UploadId, r: ReleaseId, stage: Stage, contents: Contents) {
    && Inv(s) && i in s.uploads
    && var u := s.uploads[i];
       && u.release == r && u.stage == stage && u.answer.None? && u.contents == contents
       && (!stage.Locked? ==> DirOf(s, r).now)
       && (stage.Locked? || stage.DirectoryMade? || stage.RootSynced? || stage.Writing? || stage.Written? ==> !u.target)
       && (stage.Inserted? || stage.Committing? ==> u.recorded == contents)
       && (stage.Committing? ==> u.row.Pending?)
  }

  /** One step that does not fail. */
  lemma {:induction false} StepGoes(s: State, i: UploadId, r: ReleaseId, stage: Stage, contents: Contents)
    requires Going(s, i, r, stage, contents) && (Storing(s.uploads[i]) || stage.Inserted?)
    requires stage.Locked? || stage.DirectoryMade? || stage.RootSynced? ==> contents == []
    ensures
      var s' := Next(s, Step(i, true, None));
      Going(s', i, r, NextStage(stage), contents) && OthersKept(s, s', i)
  {
    NextKeeps(s, Step(i, true, None));
    UploadFacts(s, i);
    hide Inv, DirectoryEmpty, Release;
  }

  lemma {:induction false} ChunkGoes(s: State, i: UploadId, r: ReleaseId, contents: Contents, chunk: Contents)
    requires Going(s, i, r, Writing, contents)
    ensures
      var s' := Next(s, Step(i, true, Some(chunk)));
      Going(s', i, r, Writing, contents + chunk) && OthersKept(s, s', i)
  {
    NextKeeps(s, Step(i, true, Some(chunk)));
    hide Inv, DirectoryEmpty, Release;
  }

  function Writes(i: UploadId, chunks: seq<Contents>): seq<Event> {
    if |chunks| == 0 then [] else [Step(i, true, Some(chunks[0]))] + Writes(i, chunks[1..])
  }

  lemma {:induction false} WritesGo(s: State, i: UploadId, r: ReleaseId, contents: Contents, chunks: seq<Contents>)
    requires Going(s, i, r, Writing, contents)
    ensures
      var s' := Run(s, Writes(i, chunks));
      Going(s', i, r, Writing, contents + Joined(chunks)) && OthersKept(s, s', i)
    decreases |chunks|
  {
    hide Going, OthersKept, Next;
    if |chunks| == 0 {
      assert contents + Joined(chunks) == contents;
      assert OthersKept(s, s, i) by { Same(s, i); }
    } else {
      var next := Next(s, Step(i, true, Some(chunks[0])));
      ChunkGoes(s, i, r, contents, chunks[0]);
      WritesGo(next, i, r, contents + chunks[0], chunks[1..]);
      assert contents + chunks[0] + Joined(chunks[1..]) == contents + Joined(chunks);
      RunOne(s, Step(i, true, Some(chunks[0])), Writes(i, chunks[1..]));
      KeptTwice(s, next, Run(s, Writes(i, chunks)), i);
    }
  }

  lemma Same(s: State, i: UploadId)
    ensures OthersKept(s, s, i)
  {
  }

  /** n steps that do not fail and write nothing. */
  function Steps(i: UploadId, n: nat): seq<Event> {
    if n == 0 then [] else [Step(i, true, None)] + Steps(i, n - 1)
  }

  function StageAfter(stage: Stage, n: nat): Stage
    decreases n
  {
    if n == 0 then stage else StageAfter(NextStage(stage), n - 1)
  }

  predicate Early(stage: Stage) { stage.Locked? || stage.DirectoryMade? || stage.RootSynced? }

  predicate CanStep(stage: Stage) {
    || Early(stage) || stage.Writing? || stage.Written? || stage.Renamed? || stage.DirectorySynced? || stage.Inserted?
  }

  lemma {:induction false} StepsGo(s: State, i: UploadId, r: ReleaseId, stage: Stage, contents: Contents, n: nat)
    requires Going(s, i, r, stage, contents) && (Early(stage) ==> contents == [])
    requires forall m :: 0 <= m < n ==> CanStep(StageAfter(stage, m))
    ensures
      var s' := Run(s, Steps(i, n));
      Going(s', i, r, StageAfter(stage, n), contents) && OthersKept(s, s', i)
    decreases n
  {
    hide OthersKept, Next, NextStage, Inv;
    if n == 0 {
      Same(s, i);
    } else {
      assert CanStep(StageAfter(stage, 0));
      var next := Next(s, Step(i, true, None));
      StepGoes(s, i, r, stage, contents);
      assert Early(NextStage(stage)) ==> contents == [] by { EarlyStays(stage); }
      forall m | 0 <= m < n - 1 ensures CanStep(StageAfter(NextStage(stage), m)) {
        assert StageAfter(stage, m + 1) == StageAfter(NextStage(stage), m);
      }
      StepsGo(next, i, r, NextStage(stage), contents, n - 1);
      RunOne(s, Step(i, true, None), Steps(i, n - 1));
      KeptTwice(s, next, Run(s, Steps(i, n)), i);
    }
  }

  lemma EarlyStays(stage: Stage)
    ensures Early(NextStage(stage)) ==> Early(stage)
  {
  }

  lemma {:induction false} RunSplits(s: State, a: seq<Event>, b: seq<Event>)
    ensures Run(s, a + b) == Run(Run(s, a), b)
    decreases |a|
  {
    hide Next;
    if |a| == 0 {
      assert a + b == b;
    } else {
      assert (a + b)[1..] == a[1..] + b;
      RunSplits(Next(s, a[0]), a[1..], b);
    }
  }

  /** An upload from its start to the answer of its COMMIT, the file in chunks. */
  function Script(i: UploadId, r: ReleaseId, chunks: seq<Contents>): seq<Event> {
    ([Begin(i, r)] + Steps(i, 3)) + Writes(i, chunks) + Steps(i, 5)
    + [Resolve(i, true), Answered(i, Answer(NoError, ProbeFailed))]
  }

  /** An upload that is begun where nobody else holds the release: when nothing fails,
      its row is committed and success reported, the row records exactly the chunks
      that were sent, joined in order, and its file holds them now and after a crash;
      the release is free again, and nobody else's upload is touched. */
  lemma {:induction false} UploadStoresWhatWasSent(
      events: seq<Event>, i: UploadId, r: ReleaseId, chunks: seq<Contents>)
    requires var s := Run(EMPTY, events); i !in s.uploads && DirOf(s, r).holder.None?
    ensures
      var s, s' := Run(EMPTY, events), Run(EMPTY, events + Script(i, r, chunks));
      && i in s'.uploads && s'.uploads[i].release == r && s'.uploads[i].row.Committed?
      && s'.uploads[i].answer.Some? && Judge(s'.uploads[i].answer.value).Stored?
      && s'.uploads[i].recorded == Joined(chunks) && FileDurable(s'.uploads[i], DirOf(s', r))
      && DirOf(s', r).holder.None? && OthersKept(s, s', i)
  {
    hide Run, Next, Going, OthersKept, FileDurable, Judge, Writes, Joined;
    var s := Run(EMPTY, events);
    RunKeeps(EMPTY, events);
    RunSplits(EMPTY, events, Script(i, r, chunks));
    var begun := BeginGoes(s, i, r);
    var written := Run(begun, Writes(i, chunks));
    WritesGo(begun, i, r, [], chunks);
    assert [] + Joined(chunks) == Joined(chunks);
    var sent := Run(written, Steps(i, 5));
    StagesLater();
    StepsGo(written, i, r, Writing, Joined(chunks), 5);
    var answer := [Resolve(i, true), Answered(i, Answer(NoError, ProbeFailed))];
    CommitGoes(sent, i, r, Joined(chunks));
    var first, second := [Begin(i, r)] + Steps(i, 3), Writes(i, chunks);
    RunSplits(s, first, second);
    RunSplits(s, first + second, Steps(i, 5));
    RunSplits(s, first + second + Steps(i, 5), answer);
    KeptTwice(s, begun, written, i);
    KeptTwice(s, written, sent, i);
    KeptTwice(s, sent, Run(sent, answer), i);
  }

  lemma {:induction false} StagesLater()
    ensures StageAfter(Locked, 3) == Writing && StageAfter(Writing, 5) == Committing
    ensures forall m :: 0 <= m < 3 ==> CanStep(StageAfter(Locked, m))
    ensures forall m :: 0 <= m < 5 ==> CanStep(StageAfter(Writing, m))
  {
    assert StageAfter(Locked, 0) == Locked && StageAfter(Locked, 1) == DirectoryMade;
    assert StageAfter(DirectoryMade, 1) == RootSynced;
    assert StageAfter(Locked, 2) == RootSynced && StageAfter(RootSynced, 1) == Writing;
    assert StageAfter(DirectoryMade, 2) == Writing;
    assert StageAfter(Writing, 0) == Writing && StageAfter(Writing, 1) == Written && StageAfter(Written, 1) == Renamed;
    assert StageAfter(Writing, 2) == Renamed && StageAfter(Renamed, 1) == DirectorySynced;
    assert StageAfter(Written, 2) == DirectorySynced && StageAfter(Writing, 3) == DirectorySynced;
    assert StageAfter(DirectorySynced, 1) == Inserted && StageAfter(DirectorySynced, 2) == Committing;
    assert StageAfter(Renamed, 2) == Inserted && StageAfter(Renamed, 3) == Committing;
    assert StageAfter(Written, 3) == Inserted && StageAfter(Written, 4) == Committing;
    assert StageAfter(Writing, 4) == Inserted;
  }

  lemma {:induction false} BeginGoes(s: State, i: UploadId, r: ReleaseId) returns (s': State)
    requires Inv(s) && i !in s.uploads && DirOf(s, r).holder.None?
    ensures s' == Run(s, [Begin(i, r)] + Steps(i, 3)) && Going(s', i, r, Writing, []) && OthersKept(s, s', i)
  {
    var next := Next(s, Begin(i, r));
    NextKeeps(s, Begin(i, r));
    assert Going(next, i, r, Locked, []) && OthersKept(s, next, i) by { hide Inv; }
    hide Inv, Next, Going, OthersKept, StageAfter, CanStep;
    StagesLater();
    StepsGo(next, i, r, Locked, [], 3);
    RunOne(s, Begin(i, r), Steps(i, 3));
    s' := Run(next, Steps(i, 3));
    KeptTwice(s, next, s', i);
  }

  lemma {:induction false} CommitGoes(s: State, i: UploadId, r: ReleaseId, contents: Contents)
    requires Going(s, i, r, Committing, contents)
    ensures
      var s' := Run(s, [Resolve(i, true), Answered(i, Answer(NoError, ProbeFailed))]);
      && i in s'.uploads && s'.uploads[i].release == r && s'.uploads[i].row.Committed?
      && s'.uploads[i].answer.Some? && Judge(s'.uploads[i].answer.value).Stored?
      && s'.uploads[i].recorded == contents && FileDurable(s'.uploads[i], DirOf(s', r))
      && DirOf(s', r).holder.None? && OthersKept(s, s', i)
  {
    var resolve, answered := Resolve(i, true), Answered(i, Answer(NoError, ProbeFailed));
    UploadFacts(s, i);
    assert DirOf(s, r).holder == Some(i);
    NextKeeps(s, resolve);
    var next := Next(s, resolve);
    NextKeeps(next, answered);
    var s' := Next(next, answered);
    RunOne(s, resolve, [answered]);
    RunOne(next, answered, []);
    assert [resolve, answered] == [resolve] + [answered];
    hide Inv, DirectoryEmpty;
    UploadFacts(s', i);
  }

  // -------------------------------------------------------------- a failed upload

  /** A step that fails, and the cleaning that follows. */
  function GiveUp(i: UploadId): seq<Event> { [Step(i, false, None)] + Steps(i, 3) }

  /** Cleaning with `left` things still to do. */
  ghost predicate Leaving(s: State, i: UploadId, r: ReleaseId, left: nat, there: bool) {
    && Inv(s) && i in s.uploads
    && var u := s.uploads[i];
       && u.release == r && u.stage == Cleaning(left) && (u.row.NoRow? || u.row.RolledBack?)
       && (left < 3 ==> !u.partial) && (left < 2 ==> !u.target) && DirOf(s, r).now == there
       && DirOf(s, r).holder == Some(i)
  }

  /** It is over, with nothing left but perhaps the directory. */
  ghost predicate NothingLeft(s: State, i: UploadId, r: ReleaseId) {
    && i in s.uploads && s.uploads[i].stage.Over? && !s.uploads[i].partial && !s.uploads[i].target
    && (s.uploads[i].row.NoRow? || s.uploads[i].row.RolledBack?) && DirOf(s, r).holder.None?
  }

  lemma {:induction false} FailingStep(s: State, i: UploadId)
    requires Inv(s) && i in s.uploads && (Storing(s.uploads[i]) || s.uploads[i].stage.Inserted?)
    requires Unwritten(s.uploads[i])
    ensures
      var u, s' := s.uploads[i], Next(s, Step(i, false, None));
      var r := u.release;
      && OthersKept(s, s', i) && Inv(s')
      && if u.stage.Locked? || u.stage.DirectoryMade? then NothingLeft(s', i, r) && DirOf(s', r).now == DirOf(s, r).now
         else Leaving(s', i, r, 3, DirOf(s, r).now)
  {
    NextKeeps(s, Step(i, false, None));
    UploadFacts(s, i);
    hide Inv, DirectoryEmpty;
  }

  /** Before the file is begun there is none. */
  predicate Unwritten(u: Upload) {
    u.stage.Locked? || u.stage.DirectoryMade? ==> !u.partial && !u.target
  }

  lemma {:induction false} CleaningStep(s: State, i: UploadId, r: ReleaseId, left: nat, there: bool)
    requires Leaving(s, i, r, left, there) && 2 <= left <= 3
    ensures
      var s' := Next(s, Step(i, true, None));
      OthersKept(s, s', i) && Leaving(s', i, r, left - 1, there)
  {
    NextKeeps(s, Step(i, true, None));
    hide Inv, DirectoryEmpty, Release;
  }

  lemma {:induction false} SameFiles(s: State, s': State, i: UploadId, r: ReleaseId)
    requires i in s.uploads && s'.uploads == s.uploads[i := s.uploads[i].(stage := Over)]
    ensures DirectoryEmpty(s', r) <==> DirectoryEmpty(s, r)
  {
    if DirectoryEmpty(s', r) {
      forall k | k in s.uploads && s.uploads[k].release == r ensures !s.uploads[k].partial && !s.uploads[k].target {
        assert s'.uploads[k].release == r;
      }
    }
  }

  lemma {:induction false} LastStep(s: State, i: UploadId, r: ReleaseId, there: bool)
    requires Leaving(s, i, r, 1, there)
    ensures
      var s' := Next(s, Step(i, true, None));
      && OthersKept(s, s', i) && NothingLeft(s', i, r)
      && (DirOf(s', r).now <==> there && !DirectoryEmpty(s', r))
  {
    hide Inv;
    var s' := Next(s, Step(i, true, None));
    assert s'.uploads == s.uploads[i := s.uploads[i].(stage := Over)] by { hide DirectoryEmpty; }
    assert DirectoryEmpty(s', r) <==> DirectoryEmpty(s, r) by { SameFiles(s, s', i, r); }
    hide DirectoryEmpty;
  }

  lemma {:induction false} OverStays(s: State, i: UploadId, n: nat)
    requires i in s.uploads && s.uploads[i].stage.Over?
    ensures Run(s, Steps(i, n)) == s
    decreases n
  {
    hide DirectoryEmpty, Release;
    if n > 0 {
      RunOne(s, Step(i, true, None), Steps(i, n - 1));
      OverStays(s, i, n - 1);
    }
  }

  /** In every run, before an upload's file is begun there is none. */
  lemma {:induction false} NothingWrittenEarly(s: State, events: seq<Event>, i: UploadId)
    requires forall k :: k in s.uploads ==> Unwritten(s.uploads[k])
    requires i in Run(s, events).uploads
    ensures Unwritten(Run(s, events).uploads[i])
    decreases |events|
  {
    hide Next;
    if |events| > 0 {
      forall k | k in Next(s, events[0]).uploads ensures Unwritten(Next(s, events[0]).uploads[k]) {
        StillUnwritten(s, events[0], k);
      }
      NothingWrittenEarly(Next(s, events[0]), events[1..], i);
    }
  }

  lemma {:induction false} StillUnwritten(s: State, e: Event, k: UploadId)
    requires forall k :: k in s.uploads ==> Unwritten(s.uploads[k])
    requires k in Next(s, e).uploads
    ensures Unwritten(Next(s, e).uploads[k])
  {
    if e.Step? && e.id in s.uploads {
      SameUploads(s, e);
      StepUnwritten(s, e, k);
      hide Advance;
    }
    hide DirectoryEmpty;
  }

  lemma {:induction false} SameUploads(s: State, e: Event)
    requires e.Step? && e.id in s.uploads
    ensures Next(s, e).uploads.Keys == s.uploads.Keys
  {
    hide DirectoryEmpty;
  }

  lemma {:induction false} StepUnwritten(s: State, e: Event, k: UploadId)
    requires e.Step? && e.id in s.uploads && k in s.uploads && Unwritten(s.uploads[k])
    requires k in Next(s, e).uploads
    ensures Unwritten(Next(s, e).uploads[k])
  {
    if k == e.id { OwnStep(s, e); } else { OthersStep(s, e, k); }
    hide Next;
  }

  lemma {:induction false} OthersStep(s: State, e: Event, k: UploadId)
    requires e.Step? && e.id in s.uploads && k in s.uploads && k != e.id && k in Next(s, e).uploads
    ensures Next(s, e).uploads[k] == s.uploads[k].(targetMaybe := Next(s, e).uploads[k].targetMaybe)
  {
    hide DirectoryEmpty, DirOf;
  }

  /** A step past the first two never leads back to them. */
  lemma {:induction false} OwnStep(s: State, e: Event)
    requires e.Step? && e.id in s.uploads && e.id in Next(s, e).uploads && Unwritten(s.uploads[e.id])
    ensures Unwritten(Next(s, e).uploads[e.id])
  {
    hide DirectoryEmpty, DirOf;
    var u, u' := s.uploads[e.id], Next(s, e).uploads[e.id];
    if u'.stage.Locked? || u'.stage.DirectoryMade? {
      assert u.stage.Locked? && u'.partial == u.partial && u'.target == u.target;
    }
  }

  /** An upload that fails before its COMMIT leaves nothing behind when its cleaning
      works: no file, no partial file, no row; the release is free again, and nobody
      else's upload is touched. Its directory stays if the upload failed before it was
      synchronized, and otherwise exactly while another file is in it. */
  lemma {:induction false} FailureLeavesNothing(events: seq<Event>, i: UploadId)
    requires
      var s := Run(EMPTY, events);
      i in s.uploads && (Storing(s.uploads[i]) || s.uploads[i].stage.Inserted?)
    ensures
      var s, s' := Run(EMPTY, events), Run(EMPTY, events + GiveUp(i));
      var u, r := s.uploads[i], s.uploads[i].release;
      && i in s'.uploads && s'.uploads[i].stage.Over? && !s'.uploads[i].partial && !s'.uploads[i].target
      && (s'.uploads[i].row.NoRow? || s'.uploads[i].row.RolledBack?)
      && DirOf(s', r).holder.None? && OthersKept(s, s', i)
      && (DirOf(s', r).now <==>
            DirOf(s, r).now && (u.stage.Locked? || u.stage.DirectoryMade? || !DirectoryEmpty(s', r)))
  {
    hide Run, Next, OthersKept, DirectoryEmpty, Release;
    var s := Run(EMPTY, events);
    RunKeeps(EMPTY, events);
    hide Inv;
    NothingWrittenEarly(EMPTY, events, i);
    RunSplits(EMPTY, events, GiveUp(i));
    var failing := Step(i, false, None);
    var a := Next(s, failing);
    RunOne(s, failing, Steps(i, 3));
    FailingStep(s, i);
    if s.uploads[i].stage.Locked? || s.uploads[i].stage.DirectoryMade? {
      OverStays(a, i, 3);
    } else {
      Cleans(a, i, s.uploads[i].release, DirOf(s, s.uploads[i].release).now);
      KeptTwice(s, a, Run(a, Steps(i, 3)), i);
    }
  }

  lemma {:induction false} Cleans(a: State, i: UploadId, r: ReleaseId, there: bool)
    requires Leaving(a, i, r, 3, there)
    ensures
      var s' := Run(a, Steps(i, 3));
      && OthersKept(a, s', i) && NothingLeft(s', i, r)
      && (DirOf(s', r).now <==> there && !DirectoryEmpty(s', r))
  {
    hide Next, OthersKept, DirectoryEmpty, Leaving, NothingLeft;
    var clean := Step(i, true, None);
    var b := Next(a, clean);
    var c := Next(b, clean);
    RunOne(a, clean, Steps(i, 2));
    RunOne(b, clean, Steps(i, 1));
    RunOne(c, clean, []);
    assert Steps(i, 0) == [] && Steps(i, 1) == [clean] + Steps(i, 0) == [clean];
    assert Steps(i, 2) == [clean] + Steps(i, 1) && Steps(i, 3) == [clean] + Steps(i, 2);
    CleaningStep(a, i, r, 3, there);
    CleaningStep(b, i, r, 2, there);
    LastStep(c, i, r, there);
    KeptTwice(a, b, c, i);
    KeptTwice(a, c, Next(c, clean), i);
  }
}
