/** The output writers of a command share one byte budget without a lock. Every
    atomic operation is one step; the steps of any number of writers interleave
    in any order. */
module LogBudget {

  function Notice(): string { "\n[releasedock: command output truncated by profile limit]\n" }

  /** A row handed to the sink, and whether the sink stored it. */
  datatype Row = Row(sequence: nat, payload: string, stored: bool)

  /** Where a Write call is. */
  datatype Stage =
    | Idle
    | Loading(payload: string)
    | Swapping(payload: string, seen: int)
    | Storing(payload: string, allowed: nat, offset: nat)
    | Deciding(payload: string, allowed: nat)
    | Noticing(offset: nat)

  /** `err` says that the sink refused a row. History: `input` is everything written
      so far, `data` what was granted of it, `noticed` that this writer won the right
      to write the notice. */
  datatype Stream = Stream(
    stage: Stage,
    sequence: nat,
    rows: seq<Row>,
    err: bool,
    input: string,
    data: string,
    noticed: bool)

  /** The budget all writers share. */
  datatype Budget = Budget(maximum: int, chunk: nat, used: int, truncated: bool)

  datatype State = State(budget: Budget, streams: seq<Stream>)

  function Min(a: int, b: int): int { if a <= b then a else b }

  /** The next chunk of a text, as a row with the next sequence number; a refused row
      is remembered as an error, and the writer goes on. */
  function Emit(w: Stream, chunk: nat, text: string, offset: nat, stored: bool): Stream
    requires offset <= |text|
  {
    var size := Min(chunk, |text| - offset);
    w.(sequence := w.sequence + 1,
       rows := w.rows + [Row(w.sequence + 1, text[offset..offset + size], stored)],
       err := w.err || !stored)
  }

  /** Which writer moves, what it is called with if it is idle, and the sink's answer
      if it hands over a row. */
  datatype Move = Move(i: nat, given: string, stored: bool)

  /** One atomic operation of a writer; an idle one is called with the payload. */
  function Advance(g: Budget, w: Stream, m: Move): (Budget, Stream) {
    match w.stage
    case Idle => (g, w.(stage := Loading(m.given), input := w.input + m.given))
    case Loading(payload) =>
      (g, w.(stage := if g.maximum - g.used <= 0 then Storing(payload, 0, 0) else Swapping(payload, g.used)))
    case Swapping(payload, seen) =>
      if g.used != seen then (g, w.(stage := Loading(payload)))
      else
        var allowed := Min(|payload|, if g.maximum > seen then g.maximum - seen else 0);
        (g.(used := seen + allowed), w.(stage := Storing(payload, allowed, 0), data := w.data + payload[..allowed]))
    case Storing(payload, allowed, offset) =>
      if offset < allowed <= |payload| then
        var next := offset + Min(g.chunk, allowed - offset);
        (g, Emit(w, g.chunk, payload[..allowed], offset, m.stored).(stage := Storing(payload, allowed, next)))
      else (g, w.(stage := Deciding(payload, allowed)))
    case Deciding(payload, allowed) =>
      if allowed < |payload| && !g.truncated then (g.(truncated := true), w.(stage := Noticing(0), noticed := true))
      else (g, w.(stage := Idle))
    case Noticing(offset) =>
      if offset < |Notice()| then
        var next := offset + Min(g.chunk, |Notice()| - offset);
        (g, Emit(w, g.chunk, Notice(), offset, m.stored).(stage := Noticing(next)))
      else (g, w.(stage := Idle))
  }

  function Next(s: State, m: Move): State {
    if m.i >= |s.streams| then s
    else
      var (g, w) := Advance(s.budget, s.streams[m.i], m);
      State(g, s.streams[m.i := w])
  }

  // ------------------------------------------------------------------ invariant

  function Bytes(rows: seq<Row>): string {
    if |rows| == 0 then "" else Bytes(rows[..|rows| - 1]) + rows[|rows| - 1].payload
  }

  function Granted(streams: seq<Stream>): nat {
    if |streams| == 0 then 0 else Granted(streams[..|streams| - 1]) + |streams[|streams| - 1].data|
  }

  /** What this writer still has to store of the current call. */
  function Pending(w: Stream): string {
    match w.stage
    case Storing(payload, allowed, offset) => if offset <= allowed <= |payload| then payload[offset..allowed] else ""
    case Noticing(offset) => if offset <= |Notice()| then Notice()[offset..] else ""
    case _ => ""
  }

  /** The payload of a call that has not reserved yet. */
  function Unreserved(w: Stream): string {
    match w.stage
    case Loading(payload) => payload
    case Swapping(payload, _) => payload
    case _ => ""
  }

  /** Consecutive numbers from one, non-empty chunks of bounded size. */
  ghost predicate Numbered(rows: seq<Row>, chunk: nat) {
    forall k :: 0 <= k < |rows| ==> rows[k].sequence == k + 1 && 0 < |rows[k].payload| <= chunk
  }

  /** The sink refused one of the rows. */
  ghost predicate AnyRefused(rows: seq<Row>) { exists k :: 0 <= k < |rows| && !rows[k].stored }

  ghost predicate RowsOk(w: Stream, chunk: nat) {
    w.sequence == |w.rows| && Numbered(w.rows, chunk) && (w.err <==> AnyRefused(w.rows))
  }

  predicate Exhausted(g: Budget) { g.used >= g.maximum }

  /** Granted is a prefix of the input: all of what reserved so far unless the
      budget is used up, and then no more is ever granted. */
  ghost predicate DataOk(g: Budget, w: Stream) {
    && w.data <= w.input && |w.data| + |Unreserved(w)| <= |w.input|
    && Unreserved(w) == w.input[|w.input| - |Unreserved(w)|..]
    && (|w.data| + |Unreserved(w)| == |w.input| || Exhausted(g))
    && (w.noticed ==> Exhausted(g) && g.truncated && |w.data| < |w.input|)
  }

  ghost predicate StageOk(g: Budget, w: Stream) {
    match w.stage
    case Storing(payload, allowed, offset) =>
      && offset <= allowed <= |payload| && (w.noticed ==> allowed == 0)
      && (|w.data| < |w.input| ==> g.truncated || allowed < |payload|)
      && (allowed < |payload| ==> Exhausted(g) && |w.data| < |w.input|)
    case Deciding(payload, allowed) =>
      && allowed <= |payload|
      && (|w.data| < |w.input| ==> g.truncated || allowed < |payload|)
      && (allowed < |payload| ==> Exhausted(g) && |w.data| < |w.input|)
    case Noticing(offset) => w.noticed && offset <= |Notice()|
    case _ =>
      && (|w.data| + |Unreserved(w)| < |w.input| ==> g.truncated)
      && (w.stage.Swapping? ==> w.stage.seen < g.maximum)
  }

  ghost predicate StoredOk(w: Stream) {
    Bytes(w.rows) + Pending(w) == w.data + if w.noticed then Notice() else ""
  }

  ghost predicate StreamOk(g: Budget, w: Stream) {
    RowsOk(w, g.chunk) && DataOk(g, w) && StageOk(g, w) && StoredOk(w)
  }

  ghost predicate Inv(s: State) {
    && s.budget.chunk > 0
    && s.budget.used == Granted(s.streams) && (s.budget.used == 0 || s.budget.used <= s.budget.maximum)
    && (forall i {:trigger s.streams[i]} :: 0 <= i < |s.streams| ==> StreamOk(s.budget, s.streams[i]))
    && (s.budget.truncated <==> exists i :: 0 <= i < |s.streams| && s.streams[i].noticed)
    && OneNotice(s.streams)
  }

  /** No two writers won the notice. */
  ghost predicate OneNotice(streams: seq<Stream>) {
    forall i, k ::
      0 <= i < |streams| && 0 <= k < |streams| && streams[i].noticed && streams[k].noticed ==> i == k
  }

  // ----------------------------------------------------------------- preservation

  lemma {:induction false} BytesAppend(rows: seq<Row>, row: Row)
    ensures Bytes(rows + [row]) == Bytes(rows) + row.payload
  {
    assert (rows + [row])[..|rows|] == rows;
  }

  lemma {:induction false} GrantedUpdate(streams: seq<Stream>, i: nat, w: Stream)
    requires i < |streams|
    ensures Granted(streams[i := w]) == Granted(streams) - |streams[i].data| + |w.data|
    decreases |streams|
  {
    var n := |streams| - 1;
    if i < n {
      assert streams[i := w][..n] == streams[..n][i := w];
      GrantedUpdate(streams[..n], i, w);
    } else {
      assert streams[i := w][..n] == streams[..n];
    }
  }

  /** A budget never comes back, and the notice is never taken back. */
  lemma {:induction false} StreamLater(g: Budget, g': Budget, w: Stream)
    requires StreamOk(g, w) && g'.maximum == g.maximum && g'.chunk == g.chunk
    requires g.used <= g'.used && (g.truncated ==> g'.truncated)
    ensures StreamOk(g', w)
  {
    hide RowsOk, StoredOk;
  }

  lemma {:induction false} RefusedOne(rows: seq<Row>, row: Row)
    ensures AnyRefused(rows + [row]) <==> AnyRefused(rows) || !row.stored
  {
    var n := rows + [row];
    if AnyRefused(rows) {
      var k :| 0 <= k < |rows| && !rows[k].stored;
      assert !n[k].stored;
    }
    if !row.stored { assert !n[|rows|].stored; }
  }

  /** One more row: numbered next, cut to size, and a piece less to store. */
  lemma {:induction false} EmitStream(w: Stream, chunk: nat, text: string, offset: nat, stored: bool, stage: Stage)
    requires chunk > 0 && offset < |text| && RowsOk(w, chunk)
    ensures
      var next, size := Emit(w, chunk, text, offset, stored).(stage := stage), Min(chunk, |text| - offset);
      && next == w.(stage := stage, sequence := next.sequence, rows := next.rows, err := next.err)
      && RowsOk(next, chunk) && Bytes(next.rows) + text[offset + size..] == Bytes(w.rows) + text[offset..]
  {
    var size := Min(chunk, |text| - offset);
    var row := Row(w.sequence + 1, text[offset..offset + size], stored);
    BytesAppend(w.rows, row);
    RefusedOne(w.rows, row);
    hide AnyRefused;
    assert text[offset..] == text[offset..offset + size] + text[offset + size..];
  }

  lemma NoTail(text: string)
    ensures text[|text|..] == "" && text + "" == text
  {
  }

  lemma {:induction false} LoadStream(g: Budget, w: Stream, m: Move)
    requires StreamOk(g, w) && (w.stage.Idle? || w.stage.Loading?)
    ensures var (g', w') := Advance(g, w, m); StreamOk(g', w')
  {
    hide Bytes, Notice;
    var w' := Advance(g, w, m).1;
    NoTail(w'.input);
    if w.stage.Idle? {
      assert w'.input[|w.input|..] == m.given;
    } else {
      assert w.stage.payload[0..0] == "";
    }
  }

  /** A reservation succeeds only while the budget lasts, so everything before it
      was granted in full and what it grants is the next piece of the input. */
  lemma {:induction false} SwapStream(g: Budget, w: Stream, m: Move)
    requires StreamOk(g, w) && w.stage.Swapping?
    ensures var (g', w') := Advance(g, w, m); StreamOk(g', w')
  {
    hide Bytes, Notice, RowsOk;
    var (g', w') := Advance(g, w, m);
    SameRows(w, w'.stage, g.chunk);
    if g.used == w.stage.seen {
      var payload, allowed := w.stage.payload, w'.stage.allowed;
      assert !w.noticed && w.input == w.data + payload;
      assert w'.data == w.input[..|w.data| + allowed];
      SwapStored(w, payload, allowed);
      NoTail(w.input);
      RowsIgnoreData(w, w', g.chunk);
    }
  }

  lemma {:induction false} RowsIgnoreData(w: Stream, w': Stream, chunk: nat)
    requires RowsOk(w, chunk) && w' == w.(stage := w'.stage, data := w'.data)
    ensures RowsOk(w', chunk)
  {
  }

  lemma {:induction false} SwapStored(w: Stream, payload: string, allowed: nat)
    requires StoredOk(w) && w.stage.Swapping? && !w.noticed && allowed <= |payload|
    ensures StoredOk(w.(stage := Storing(payload, allowed, 0), data := w.data + payload[..allowed]))
  {
    hide Bytes, Notice;
    NoTail(Bytes(w.rows));
    NoTail(w.data);
    NoTail(w.data + payload[..allowed]);
    assert payload[0..allowed] == payload[..allowed];
  }

  lemma {:induction false} StoreStored(
    w: Stream, chunk: nat, payload: string, allowed: nat, offset: nat, stored: bool)
    requires chunk > 0 && RowsOk(w, chunk) && StoredOk(w)
    requires w.stage == Storing(payload, allowed, offset) && offset < allowed <= |payload|
    ensures
      var next := Storing(payload, allowed, offset + Min(chunk, allowed - offset));
      var w' := Emit(w, chunk, payload[..allowed], offset, stored).(stage := next);
      && RowsOk(w', chunk) && StoredOk(w')
      && w' == w.(stage := next, sequence := w'.sequence, rows := w'.rows, err := w'.err)
  {
    hide Bytes, RowsOk, Emit, Notice;
    var text, size := payload[..allowed], Min(chunk, allowed - offset);
    EmitStream(w, chunk, text, offset, stored, Storing(payload, allowed, offset + size));
    assert text[offset..] == payload[offset..allowed];
    assert text[offset + size..] == payload[offset + size..allowed];
  }

  /** Claims on data and stage carry over between stages without a payload of their own. */
  lemma {:induction false} DataStays(g: Budget, w: Stream, w': Stream)
    requires DataOk(g, w) && Unreserved(w) == Unreserved(w') == ""
    requires w' == w.(stage := w'.stage, sequence := w'.sequence, rows := w'.rows, err := w'.err)
    ensures DataOk(g, w')
  {
  }

  lemma {:induction false} StoreStream(g: Budget, w: Stream, m: Move)
    requires StreamOk(g, w) && g.chunk > 0 && w.stage.Storing?
    ensures var (g', w') := Advance(g, w, m); StreamOk(g', w')
  {
    hide Bytes, RowsOk, Notice, DataOk, Emit;
    var w' := Advance(g, w, m).1;
    var payload, allowed, offset := w.stage.payload, w.stage.allowed, w.stage.offset;
    if offset < allowed {
      StoreStored(w, g.chunk, payload, allowed, offset, m.stored);
      hide StoredOk;
    } else {
      assert payload[allowed..allowed] == "";
      SameRows(w, Deciding(payload, allowed), g.chunk);
    }
    DataStays(g, w, w');
  }

  lemma {:induction false} NoticeStream(g: Budget, w: Stream, m: Move)
    requires StreamOk(g, w) && g.chunk > 0 && w.stage.Noticing?
    ensures var (g', w') := Advance(g, w, m); StreamOk(g', w')
  {
    hide Emit, Bytes, RowsOk, Notice;
    var offset := w.stage.offset;
    if offset < |Notice()| {
      var next := offset + Min(g.chunk, |Notice()| - offset);
      EmitStream(w, g.chunk, Notice(), offset, m.stored, Noticing(next));
    } else {
      NoTail(Notice());
      SameRows(w, Idle, g.chunk);
    }
  }

  lemma {:induction false} SameRows(w: Stream, stage: Stage, chunk: nat)
    requires RowsOk(w, chunk)
    ensures RowsOk(w.(stage := stage), chunk)
  {
  }

  lemma {:induction false} DecideStream(g: Budget, w: Stream, m: Move)
    requires StreamOk(g, w) && w.stage.Deciding? && (!g.truncated ==> !w.noticed)
    ensures var (g', w') := Advance(g, w, m); StreamOk(g', w')
  {
    hide Bytes, Granted, Notice;
    NoTail(w.input);
    assert Notice()[0..] == Notice();
    assert Bytes(w.rows) + "" == Bytes(w.rows) && w.data + "" == w.data;
  }

  /** What one operation does to the budget and to its stream's claims on it. */
  lemma {:induction false} AdvanceShared(g: Budget, w: Stream, m: Move)
    requires g.chunk > 0 && StageOk(g, w) && (w.noticed ==> g.truncated) && (g.used == 0 || g.used <= g.maximum)
    ensures
      var (g', w') := Advance(g, w, m);
      && g'.maximum == g.maximum && g'.chunk == g.chunk
      && g.used <= g'.used && g'.used == g.used - |w.data| + |w'.data| && (g'.used == 0 || g'.used <= g'.maximum)
      && g'.truncated == (g.truncated || (w'.noticed && !w.noticed))
      && (w.noticed ==> w'.noticed) && (w'.noticed && !w.noticed ==> !g.truncated)
  {
  }

  lemma {:induction false} AdvanceKeeps(g: Budget, w: Stream, m: Move)
    requires g.chunk > 0 && StreamOk(g, w)
    ensures var (g', w') := Advance(g, w, m); StreamOk(g', w')
  {
    var noticed := w.noticed ==> g.truncated;
    assert noticed;
    hide StreamOk, Advance;
    match w.stage
    case Deciding(_, _) => DecideStream(g, w, m);
    case Storing(_, _, _) => StoreStream(g, w, m);
    case Noticing(_) => NoticeStream(g, w, m);
    case Swapping(_, _) => SwapStream(g, w, m);
    case _ => LoadStream(g, w, m);
  }

  /** One stream replaced by one that may have won the notice. */
  lemma {:induction false} NoticeKeeps(s: State, i: nat, g': Budget, w': Stream)
    requires i < |s.streams|
    requires s.budget.truncated <==> exists k :: 0 <= k < |s.streams| && s.streams[k].noticed
    requires OneNotice(s.streams)
    requires g'.truncated == (s.budget.truncated || (w'.noticed && !s.streams[i].noticed))
    requires (s.streams[i].noticed ==> w'.noticed) && (w'.noticed && !s.streams[i].noticed ==> !s.budget.truncated)
    ensures
      var n := s.streams[i := w'];
      && (g'.truncated <==> exists k :: 0 <= k < |n| && n[k].noticed)
      && OneNotice(n)
  {
    var n := s.streams[i := w'];
    if s.budget.truncated {
      var k :| 0 <= k < |s.streams| && s.streams[k].noticed;
      assert n[k].noticed;
    }
    if w'.noticed { assert n[i].noticed; }
    if k :| 0 <= k < |n| && n[k].noticed { assert k != i ==> s.streams[k].noticed; }
  }

  lemma {:induction false} NextKeeps(s: State, m: Move)
    requires Inv(s)
    ensures Inv(Next(s, m)) && Next(s, m).budget.maximum == s.budget.maximum && |Next(s, m).streams| == |s.streams|
  {
    hide Advance, StreamOk, Granted;
    if m.i < |s.streams| {
      var w, n := s.streams[m.i], Next(s, m);
      var (g', w') := Advance(s.budget, w, m);
      NoticedTruncates(s, m.i);
      StageHolds(s.budget, w);
      AdvanceShared(s.budget, w, m);
      AdvanceKeeps(s.budget, w, m);
      GrantedUpdate(s.streams, m.i, w');
      NoticeKeeps(s, m.i, g', w');
      forall i | 0 <= i < |n.streams| ensures StreamOk(n.budget, n.streams[i]) {
        if i != m.i { StreamLater(s.budget, n.budget, s.streams[i]); }
      }
    }
  }

  lemma {:induction false} StageHolds(g: Budget, w: Stream)
    requires StreamOk(g, w)
    ensures StageOk(g, w)
  {
  }

  lemma {:induction false} NoticedTruncates(s: State, i: nat)
    requires Inv(s) && i < |s.streams|
    ensures s.streams[i].noticed ==> s.budget.truncated
  {
  }

  // -------------------------------------------------------------------- theorems

  function Start(maximum: int, chunk: nat, writers: nat): State {
    State(Budget(maximum, chunk, 0, false), seq(writers, _ => Stream(Idle, 0, [], false, "", "", false)))
  }

  function Run(s: State, moves: seq<Move>): State
    decreases |moves|
  {
    if |moves| == 0 then s else Run(Next(s, moves[0]), moves[1..])
  }

  lemma {:induction false} NothingGranted(streams: seq<Stream>)
    requires forall i :: 0 <= i < |streams| ==> streams[i].data == ""
    ensures Granted(streams) == 0
  {
    if |streams| > 0 { NothingGranted(streams[..|streams| - 1]); }
  }

  lemma {:induction false} RunKeeps(s: State, moves: seq<Move>)
    requires Inv(s)
    ensures
      var n := Run(s, moves);
      Inv(n) && n.budget.maximum == s.budget.maximum && n.budget.chunk == s.budget.chunk && |n.streams| == |s.streams|
    decreases |moves|
  {
    hide Next, Inv;
    if |moves| > 0 {
      NextKeeps(s, moves[0]);
      SameChunk(s, moves[0]);
      RunKeeps(Next(s, moves[0]), moves[1..]);
    }
  }

  lemma {:induction false} SameChunk(s: State, m: Move)
    ensures Next(s, m).budget.chunk == s.budget.chunk
  {
  }

  lemma {:induction false} StartInv(maximum: int, chunk: nat, writers: nat)
    requires chunk > 0
    ensures Inv(Start(maximum, chunk, writers))
  {
    NothingGranted(Start(maximum, chunk, writers).streams);
  }

  /** In every interleaving of any number of writers: bytes granted never exceed
      the maximum; a stream's rows carry consecutive numbers and non-empty chunks
      of bounded size; what is granted is a prefix of its input, all of it while
      nothing was dropped; and between calls its rows are what was granted,
      followed by the notice if this writer wrote it. */
  lemma {:induction false} StreamsArePrefixes(maximum: int, chunk: nat, writers: nat, moves: seq<Move>, i: nat)
    requires chunk > 0 && i < writers
    ensures
      var s := Run(Start(maximum, chunk, writers), moves);
      && i < |s.streams|
      && Granted(s.streams) <= (if maximum > 0 then maximum else 0)
      && var w := s.streams[i];
         && Numbered(w.rows, chunk)
         && w.data <= w.input
         && (w.stage.Idle? ==> Bytes(w.rows) == w.data + if w.noticed then Notice() else "")
         && (w.stage.Idle? && !s.budget.truncated ==> w.data == w.input)
  {
    hide Run;
    StartInv(maximum, chunk, writers);
    RunKeeps(Start(maximum, chunk, writers), moves);
    var s := Run(Start(maximum, chunk, writers), moves);
    var w := s.streams[i];
    assert StreamOk(s.budget, w);
    assert Bytes(w.rows) + "" == Bytes(w.rows);
  }

  /** The notice is written by one writer at most; and whenever all writers are
      between calls, by one exactly when bytes were dropped somewhere. */
  lemma {:induction false} NoticeOnceExactlyWhenDropped(maximum: int, chunk: nat, writers: nat, moves: seq<Move>)
    requires chunk > 0
    ensures
      var s := Run(Start(maximum, chunk, writers), moves);
      && OneNotice(s.streams)
      && ((forall i :: 0 <= i < |s.streams| ==> s.streams[i].stage.Idle?) ==>
            ((exists i :: 0 <= i < |s.streams| && s.streams[i].noticed)
             <==> exists i :: 0 <= i < |s.streams| && s.streams[i].data != s.streams[i].input))
  {
    hide Run;
    StartInv(maximum, chunk, writers);
    RunKeeps(Start(maximum, chunk, writers), moves);
    var s := Run(Start(maximum, chunk, writers), moves);
    if i :| 0 <= i < |s.streams| && s.streams[i].noticed {
      assert StreamOk(s.budget, s.streams[i]);
      assert s.streams[i].data != s.streams[i].input;
    }
    if i :| 0 <= i < |s.streams| && s.streams[i].data != s.streams[i].input && s.streams[i].stage.Idle? {
      assert StreamOk(s.budget, s.streams[i]);
    }
  }

  // ------------------------------------------------------------- what is really stored

  /** The rows the sink stored. */
  function Stored(rows: seq<Row>): seq<Row> {
    if |rows| == 0 then []
    else
      var n := |rows| - 1;
      Stored(rows[..n]) + if rows[n].stored then [rows[n]] else []
  }

  /** No refused row is followed by a stored one. */
  ghost predicate NoGap(rows: seq<Row>) {
    forall k, l :: 0 <= k < l < |rows| && rows[l].stored ==> rows[k].stored
  }

  lemma {:induction false} StoredIsFewer(rows: seq<Row>)
    ensures |Stored(rows)| <= |rows|
    ensures |Stored(rows)| == |rows| <==> !AnyRefused(rows)
    ensures !AnyRefused(rows) ==> Stored(rows) == rows
  {
    if |rows| > 0 {
      var n := |rows| - 1;
      StoredIsFewer(rows[..n]);
      RefusedOne(rows[..n], rows[n]);
      assert rows[..n] + [rows[n]] == rows;
    }
  }

  lemma {:induction false} NoGapBefore(rows: seq<Row>)
    requires |rows| > 0
    ensures
      var n := |rows| - 1;
      NoGap(rows) <==> NoGap(rows[..n]) && (rows[n].stored ==> !AnyRefused(rows[..n]))
  {
    var n := |rows| - 1;
    var before := rows[..n];
    if NoGap(rows) {
      forall k, l | 0 <= k < l < n && before[l].stored ensures before[k].stored {
        assert rows[l].stored && rows[k] == before[k];
      }
    }
    if AnyRefused(before) {
      var k :| 0 <= k < n && !before[k].stored;
      assert !rows[k].stored;
    }
    if NoGap(before) && (rows[n].stored ==> !AnyRefused(before)) {
      forall k, l | 0 <= k < l < |rows| && rows[l].stored ensures rows[k].stored {
        assert before[k] == rows[k];
        if l < n { assert before[l] == rows[l]; }
      }
    }
  }

  /** Stored rows are numbered consecutively from one, and are the first of the rows
      handed over, if and only if no refused row is followed by a stored one. */
  lemma {:induction false} ConsecutiveExactlyWithoutGap(rows: seq<Row>, chunk: nat)
    requires Numbered(rows, chunk)
    ensures Numbered(Stored(rows), chunk) <==> NoGap(rows)
    ensures Stored(rows) <= rows <==> NoGap(rows)
    ensures NoGap(rows) ==> Bytes(Stored(rows)) <= Bytes(rows)
  {
    if |rows| > 0 {
      var n := |rows| - 1;
      var before := rows[..n];
      ConsecutiveExactlyWithoutGap(before, chunk);
      NoGapBefore(rows);
      StoredIsFewer(before);
      hide Bytes, AnyRefused, NoGap;
      BytesAppend(before, rows[n]);
      assert before + [rows[n]] == rows;
      if rows[n].stored {
        var stored := Stored(before) + [rows[n]];
        if NoGap(rows) {
          assert stored == rows;
        } else {
          LastSticksOut(stored, rows, chunk);
        }
      } else {
        assert Stored(rows) == Stored(before);
        if Stored(rows) <= rows { assert Stored(before) == rows[..|Stored(before)|] == before[..|Stored(before)|]; }
      }
    }
  }

  /** A stored row after a gap has a number too high for its place. */
  lemma {:induction false} LastSticksOut(stored: seq<Row>, rows: seq<Row>, chunk: nat)
    requires Numbered(rows, chunk) && 0 < |stored| < |rows| && stored[|stored| - 1] == rows[|rows| - 1]
    ensures !Numbered(stored, chunk) && !(stored <= rows)
  {
    var k := |stored| - 1;
    assert stored[k].sequence == |rows| != k + 1 == rows[k].sequence;
  }

  /** What a reader of the stored log sees, in every interleaving and whatever the
      sink answers: the stored rows are the first of the stream's rows, numbered
      without a gap, if and only if no refused row is followed by a stored one; then
      their bytes are a beginning of what was handed over; and the writer reports an
      error exactly when something is missing. */
  lemma {:induction false} StoredLogOfStream(maximum: int, chunk: nat, writers: nat, moves: seq<Move>, i: nat)
    requires chunk > 0 && i < writers
    ensures
      var s := Run(Start(maximum, chunk, writers), moves);
      && i < |s.streams|
      && var w := s.streams[i];
         && (Numbered(Stored(w.rows), chunk) <==> NoGap(w.rows))
         && (Stored(w.rows) <= w.rows <==> NoGap(w.rows))
         && (NoGap(w.rows) ==> Bytes(Stored(w.rows)) <= Bytes(w.rows))
         && (w.err <==> Stored(w.rows) != w.rows)
  {
    hide Run;
    StartInv(maximum, chunk, writers);
    RunKeeps(Start(maximum, chunk, writers), moves);
    var s := Run(Start(maximum, chunk, writers), moves);
    var w := s.streams[i];
    assert StreamOk(s.budget, w);
    ConsecutiveExactlyWithoutGap(w.rows, chunk);
    StoredIsFewer(w.rows);
  }

  /** A run with a gap: of "ab" in chunks of one, the sink refuses "a" and takes "b". */
  lemma {:induction false} RefusalLeavesGap()
    ensures
      var moves := [Move(0, "ab", true), Move(0, "", true), Move(0, "", true), Move(0, "", false), Move(0, "", true)];
      var w := Run(Start(10, 1, 1), moves).streams[0];
      && Stored(w.rows) == [Row(2, "b", true)]
      && w.err && !(Stored(w.rows) <= w.rows) && !(Bytes(Stored(w.rows)) <= w.input)
  {
    hide Next, Bytes, Stored;
    var go := Move(0, "", true);
    var last := [Move(0, "", false), go];
    var rows := [Row(1, "a", false), Row(2, "b", true)];
    var s := Start(10, 1, 1);
    RunMore(s, Move(0, "ab", true), [go, go] + last);
    RunMore(Next(s, Move(0, "ab", true)), go, [go] + last);
    RunMore(Next(Next(s, Move(0, "ab", true)), go), go, last);
    assert [Move(0, "ab", true), go, go, Move(0, "", false), go] == [Move(0, "ab", true)] + ([go, go] + last);
    assert [go, go] + last == [go] + ([go] + last);
    ReservesAll();
    RunMore(Next(Next(Next(s, Move(0, "ab", true)), go), go), Move(0, "", false), [go]);
    assert last == [Move(0, "", false)] + [go];
    StoresSecond();
    RunMore(Next(Next(Next(Next(s, Move(0, "ab", true)), go), go), Move(0, "", false)), go, []);
    GapRows();
    assert "ab"[0] == 'a' && rows[0] != Row(2, "b", true);
  }

  lemma {:induction false} ReservesAll()
    ensures
      Next(Next(Next(Start(10, 1, 1), Move(0, "ab", true)), Move(0, "", true)), Move(0, "", true)) ==
      State(Budget(10, 1, 2, false), [Stream(Storing("ab", 2, 0), 0, [], false, "ab", "ab", false)])
  {
    assert "" + "ab" == "ab" && "" + "ab"[..2] == "ab";
  }

  lemma {:induction false} StoresSecond()
    ensures
      var s := State(Budget(10, 1, 2, false), [Stream(Storing("ab", 2, 0), 0, [], false, "ab", "ab", false)]);
      Next(Next(s, Move(0, "", false)), Move(0, "", true)) ==
      State(Budget(10, 1, 2, false),
            [Stream(Storing("ab", 2, 2), 2, [Row(1, "a", false), Row(2, "b", true)], true, "ab", "ab", false)])
  {
    hide Notice;
    var text, first, second := "ab"[..2], Row(1, "a", false), Row(2, "b", true);
    assert text[0..1] == "a" && text[1..2] == "b";
    var w := Stream(Storing("ab", 2, 0), 0, [], false, "ab", "ab", false);
    var w1 := w.(stage := Storing("ab", 2, 1), sequence := 1, rows := [first], err := true);
    assert Emit(w, 1, text, 0, false).(stage := Storing("ab", 2, 1)) == w1;
    assert Emit(w1, 1, text, 1, true).rows == [first, second];
  }

  lemma {:induction false} GapRows()
    ensures
      var stored := Stored([Row(1, "a", false), Row(2, "b", true)]);
      stored == [Row(2, "b", true)] && Bytes(stored) == "b"
  {
    var rows := [Row(1, "a", false), Row(2, "b", true)];
    assert rows[..1] == [Row(1, "a", false)] && rows[..1][..0] == [];
    assert Stored(rows[..1]) == [] && Stored(rows) == [] + [Row(2, "b", true)] == [Row(2, "b", true)];
    assert [Row(2, "b", true)][..0] == [] && Bytes([Row(2, "b", true)]) == "" + "b" == "b";
  }

  lemma {:induction false} RunMore(s: State, m: Move, rest: seq<Move>)
    ensures Run(s, [m] + rest) == Run(Next(s, m), rest)
    ensures rest == [] ==> Run(s, [m]) == Next(s, m)
  {
    hide Next;
    assert ([m] + rest)[1..] == rest && [m][1..] == [];
  }

  /** A step succeeds when its work does and no writer reports an error. */
  predicate StepSucceeds(s: State, worked: bool) {
    worked && forall i :: 0 <= i < |s.streams| ==> !s.streams[i].err
  }

  /** The stored rows are numbered from one without a gap and are what was granted of
      the output, followed by the notice where it was cut. */
  ghost predicate WholeLog(w: Stream, chunk: nat) {
    && Numbered(Stored(w.rows), chunk)
    && w.data <= w.input
    && Bytes(Stored(w.rows)) == w.data + if w.noticed then Notice() else ""
  }

  lemma {:induction false} StreamWithoutErrorIsWhole(
      maximum: int, chunk: nat, writers: nat, moves: seq<Move>, i: nat)
    requires chunk > 0 && i < writers
    ensures
      var s := Run(Start(maximum, chunk, writers), moves);
      && i < |s.streams|
      && (s.streams[i].err <==> Stored(s.streams[i].rows) != s.streams[i].rows)
      && (s.streams[i].stage.Idle? && !s.streams[i].err ==> WholeLog(s.streams[i], chunk))
  {
    StoredLogOfStream(maximum, chunk, writers, moves, i);
    StreamsArePrefixes(maximum, chunk, writers, moves, i);
    hide Run, Start, Numbered, Bytes, Notice, NoGap, Granted, Stored;
  }

  /** The output of a step that worked: it succeeds if and only if every row of its
      writers is stored. So the log of a successful step has no gap. */
  lemma {:induction false} SuccessfulStepHasWholeLog(maximum: int, chunk: nat, writers: nat, moves: seq<Move>)
    requires chunk > 0
    ensures
      var streams := Run(Start(maximum, chunk, writers), moves).streams;
      var succeeds := StepSucceeds(Run(Start(maximum, chunk, writers), moves), true);
      && (succeeds <==> forall i :: 0 <= i < |streams| ==> Stored(streams[i].rows) == streams[i].rows)
      && (succeeds ==> forall i :: 0 <= i < |streams| && streams[i].stage.Idle? ==> WholeLog(streams[i], chunk))
  {
    var streams := Run(Start(maximum, chunk, writers), moves).streams;
    assert |streams| == writers by {
      StartInv(maximum, chunk, writers);
      RunKeeps(Start(maximum, chunk, writers), moves);
    }
    hide Run, Start, Stored, WholeLog;
    forall i | 0 <= i < writers
      ensures streams[i].err <==> Stored(streams[i].rows) != streams[i].rows
      ensures streams[i].stage.Idle? && !streams[i].err ==> WholeLog(streams[i], chunk)
    {
      StreamWithoutErrorIsWhole(maximum, chunk, writers, moves, i);
    }
  }

  // ------------------------------------------------------- one call among other writers

  /** What other writers do between two atomic operations of one: reserve some bytes,
      and perhaps win the notice. */
  datatype Others = Others(requested: nat, cuts: bool)

  class SharedBudget {
    const maximum: int
    var used: int
    var truncated: bool
    var script: seq<Others>
    ghost var foreign: nat

    constructor (maximum: int, script: seq<Others>)
      ensures this.maximum == maximum && used == 0 && !truncated && foreign == 0
    {
      this.maximum, used, truncated, this.script, foreign := maximum, 0, false, script, 0;
    }

    /** The others only ever take from what is left; `foreign` counts what they took. */
    twostate predicate OnlyOthers()
      reads this
    {
      && used - old(used) == foreign - old(foreign) >= 0
      && (used <= maximum || used == old(used))
      && (old(truncated) ==> truncated)
    }

    method Interfere()
      modifies this
      ensures OnlyOthers()
    {
      if |script| > 0 {
        var taken := Min(script[0].requested, if maximum > used then maximum - used else 0);
        used, foreign, truncated := used + taken, foreign + taken, truncated || script[0].cuts;
        script := script[1..];
      }
    }

    method LoadUsed() returns (seen: int)
      modifies this
      ensures OnlyOthers() && seen == used
    {
      Interfere();
      seen := used;
    }

    method CompareAndSwapUsed(seen: int, next: int) returns (swapped: bool)
      requires seen <= next <= maximum
      modifies this
      ensures old(truncated) ==> truncated
      ensures foreign >= old(foreign)
      ensures swapped ==> used == next && old(used) + (foreign - old(foreign)) == seen
      ensures !swapped ==> OnlyOthers() && used != seen
    {
      Interfere();
      swapped := used == seen;
      if swapped {
        used := next;
      }
    }

    method CompareAndSwapTruncated() returns (swapped: bool)
      modifies this
      ensures truncated && used - old(used) == foreign - old(foreign) >= 0
      ensures swapped ==> !old(truncated)
      ensures used <= maximum || used == old(used)
    {
      Interfere();
      swapped := !truncated;
      truncated := true;
    }

    /** A failed swap means that another writer took bytes, so the loop ends however
        the others interfere. What is granted is the request, up to what was left at
        the swap. */
    method Reserve(requested: nat) returns (allowed: nat)
      modifies this
      ensures old(truncated) ==> truncated
      ensures foreign >= old(foreign) && used - old(used) == (foreign - old(foreign)) + allowed
      ensures used <= maximum || used == old(used)
      ensures allowed == Min(requested, if maximum > used - allowed then maximum - (used - allowed) else 0)
    {
      var swapped := false;
      allowed := 0;
      while !swapped
        invariant old(truncated) ==> truncated
        invariant foreign >= old(foreign) && (used <= maximum || used == old(used))
        invariant !swapped ==> used - old(used) == foreign - old(foreign)
        invariant swapped ==> used - old(used) == (foreign - old(foreign)) + allowed
        invariant swapped ==> used - allowed < maximum && allowed == Min(requested, maximum - (used - allowed))
        decreases !swapped, maximum - used
      {
        var seen := LoadUsed();
        var remaining := maximum - seen;
        if remaining <= 0 {
          return 0;
        }
        allowed := requested;
        if allowed > remaining {
          allowed := remaining;
        }
        swapped := CompareAndSwapUsed(seen, seen + allowed);
      }
    }
  }

  class LogWriter {
    const budget: SharedBudget
    const chunkSize: nat
    var sink: seq<bool>
    var sequence: nat
    var rows: seq<Row>
    var err: bool
    ghost var noticed: bool

    constructor (budget: SharedBudget, chunkSize: nat, sink: seq<bool>)
      requires chunkSize > 0
      ensures this.budget == budget && this.chunkSize == chunkSize && rows == [] && Valid()
    {
      this.budget, this.chunkSize, this.sink := budget, chunkSize, sink;
      sequence, rows, err, noticed := 0, [], false, false;
    }

    /** The same claims on rows, numbers and the error as on a stream of the machine. */
    ghost predicate Valid()
      reads this, budget
    {
      && chunkSize > 0 && sequence == |rows| && Numbered(rows, chunkSize) && (err <==> AnyRefused(rows))
      && (noticed ==> budget.truncated)
    }

    /** The script says which rows the sink stores; beyond it, all. */
    method AppendLog(row: Row) returns (stored: bool)
      modifies this`sink
      ensures stored == (|old(sink)| == 0 || old(sink)[0])
    {
      stored := true;
      if |sink| > 0 {
        stored, sink := sink[0], sink[1..];
      }
    }

    /** All chunks are handed over, also after a refused one. */
    method AppendChunks(payload: string)
      requires Valid()
      modifies this`rows, this`sequence, this`sink, this`err
      ensures Valid() && old(rows) <= rows && Bytes(rows) == Bytes(old(rows)) + payload
    {
      hide Bytes, AnyRefused;
      var rest := payload;
      assert Bytes(rows) + rest == Bytes(old(rows)) + payload;
      while |rest| > 0
        invariant Valid() && old(rows) <= rows && Bytes(rows) + rest == Bytes(old(rows)) + payload
        decreases |rest|
      {
        var size := chunkSize;
        if size > |rest| {
          size := |rest|;
        }
        var chunk := rest[..size];
        sequence := sequence + 1;
        var stored := AppendLog(Row(sequence, chunk, true));
        if !stored {
          err := true;
        }
        BytesAppend(rows, Row(sequence, chunk, stored));
        RefusedOne(rows, Row(sequence, chunk, stored));
        assert rest == chunk + rest[size..];
        rows := rows + [Row(sequence, chunk, stored)];
        rest := rest[size..];
      }
      NoTail(Bytes(rows));
    }

    /** Hands over what the budget grants; the first writer to be cut adds the notice.
        The whole payload is always reported as written. */
    method Write(payload: string) returns (written: nat)
      requires Valid()
      modifies this`rows, this`sequence, this`sink, this`err, this`noticed, budget
      ensures Valid() && written == |payload|
      ensures budget.foreign >= old(budget.foreign) && (old(budget.truncated) ==> budget.truncated)
      ensures
        var granted := budget.used - old(budget.used) - (budget.foreign - old(budget.foreign));
        && 0 <= granted <= |payload|
        && (granted < |payload| ==> budget.truncated && budget.used >= budget.maximum)
        && Bytes(rows) == Bytes(old(rows)) + payload[..granted] + (if noticed && !old(noticed) then Notice() else "")
        && (noticed && !old(noticed) ==> granted < |payload| && !old(budget.truncated))
        && (old(noticed) ==> noticed)
    {
      hide Notice, Bytes, AnyRefused, Numbered;
      var allowed := budget.Reserve(|payload|);
      if allowed > 0 {
        AppendChunks(payload[..allowed]);
      }
      NoTail(Bytes(old(rows)));
      NoTail(Bytes(old(rows)) + payload[..allowed]);
      if allowed < |payload| {
        var won := budget.CompareAndSwapTruncated();
        if won {
          noticed := true;
          AppendChunks(Notice());
        }
      }
      return |payload|;
    }
  }
}
