/** The run logger of simple mode: whole lines from arbitrary chunks, stored under
    one budget for the command's output and a reserve for the server's own lines. */
module LineLogger {
  import opened Utf8

  const MAX_COMMAND := 0x80_0000
  const MAX_SYSTEM := 0x1_0000
  const MAX_LINE := 0x1_0000
  const NEWLINE: Byte := 10
  const CR: Byte := 13

  datatype Stream = Stdout | Stderr | System

  datatype Row = Row(stream: Stream, payload: Bytes)

  /** Tells the reader that the storage limit is reached and later command output
      is not recorded. */
  function Notice(): Bytes { Encode("로그 저장 한도에 도달하여 이후 명령 출력은 기록하지 않습니다") }

  // -------------------------------------------------------------------- the budget

  /** What is stored so far. History: `notices` counts the cap notices offered. The
      database's answers: `inserts` says which of the coming INSERT statements
      succeed, and `updates[k]` whether the UPDATE of log_bytes that follows the
      k-th stored row does; beyond the end of a script all do. */
  datatype Log = Log(
    command: int,
    system: int,
    rows: seq<Row>,
    logBytes: nat,
    notices: nat,
    inserts: seq<bool>,
    updates: seq<bool>)

  function NewLog(inserts: seq<bool>, updates: seq<bool>): Log {
    Log(MAX_COMMAND, MAX_SYSTEM, [], 0, 0, inserts, updates)
  }

  predicate Succeeds(script: seq<bool>, k: nat) { k < |script| ==> script[k] }

  function Remaining(log: Log, stream: Stream): int { if stream.System? then log.system else log.command }

  /** The charge of a payload: its size, one for a blank line, and no more than is left. */
  function Charge(remaining: int, size: nat): int {
    var charge := if size == 0 then 1 else size;
    if charge > remaining then remaining else charge
  }

  function Charged(log: Log, stream: Stream, charge: int): Log {
    if stream.System? then log.(system := log.system - charge) else log.(command := log.command - charge)
  }

  /** One payload charged and inserted; also whether it was stored and used up the
      last of the command budget. */
  function Store(log: Log, stream: Stream, payload: Bytes): (Log, bool) {
    if Remaining(log, stream) <= 0 then (log, false)
    else
      var charge := Charge(Remaining(log, stream), |payload|);
      var charged := Charged(log, stream, charge);
      var kept := Trimmed(payload, if |payload| > 0 then charge else 0);
      var next := charged.(inserts := if |log.inserts| == 0 then [] else log.inserts[1..]);
      if Succeeds(log.inserts, 0) then
        var counted := if Succeeds(log.updates, |log.rows|) then |kept| else 0;
        (next.(rows := next.rows + [Row(stream, kept)], logBytes := next.logBytes + counted),
         !stream.System? && next.command == 0)
      else (next, false)
  }

  /** One payload offered for storage, with the notice when it is the last to fit. */
  function Append(log: Log, stream: Stream, payload: Bytes): Log {
    var (next, capReached) := Store(log, stream, payload);
    if capReached then Store(next.(notices := next.notices + 1), System, Notice()).0 else next
  }

  /** Storage a row takes: its bytes, at least one. */
  function Cost(row: Row): nat { if |row.payload| == 0 then 1 else |row.payload| }

  function TotalCost(rows: seq<Row>, system: bool): nat {
    if |rows| == 0 then 0
    else
      var n := |rows| - 1;
      TotalCost(rows[..n], system) + if rows[n].stream.System? == system then Cost(rows[n]) else 0
  }

  function TotalBytes(rows: seq<Row>): nat {
    if |rows| == 0 then 0 else TotalBytes(rows[..|rows| - 1]) + |rows[|rows| - 1].payload|
  }

  /** The bytes of the rows whose UPDATE succeeded. */
  function CountedBytes(rows: seq<Row>, updates: seq<bool>): nat {
    if |rows| == 0 then 0
    else
      var n := |rows| - 1;
      CountedBytes(rows[..n], updates) + if Succeeds(updates, n) then |rows[n].payload| else 0
  }

  ghost predicate LogOk(log: Log) {
    && 0 <= log.command && 0 <= log.system
    && TotalCost(log.rows, false) + log.command <= MAX_COMMAND
    && TotalCost(log.rows, true) + log.system <= MAX_SYSTEM
    && log.logBytes == CountedBytes(log.rows, log.updates)
    && log.notices <= 1 && (log.command > 0 ==> log.notices == 0)
  }

  lemma {:induction false} RowsAppend(rows: seq<Row>, row: Row, updates: seq<bool>)
    ensures forall system ::
      TotalCost(rows + [row], system) ==
      TotalCost(rows, system) + if row.stream.System? == system then Cost(row) else 0
    ensures CountedBytes(rows + [row], updates) ==
            CountedBytes(rows, updates) + if Succeeds(updates, |rows|) then |row.payload| else 0
  {
    assert (rows + [row])[..|rows|] == rows;
  }

  /** log_bytes never exceeds what is stored, and is exact if and only if every
      UPDATE that failed followed a row without bytes. */
  lemma {:induction false} CountedIsTotal(rows: seq<Row>, updates: seq<bool>)
    ensures CountedBytes(rows, updates) <= TotalBytes(rows)
    ensures CountedBytes(rows, updates) == TotalBytes(rows) <==>
            forall k :: 0 <= k < |rows| && |rows[k].payload| > 0 ==> Succeeds(updates, k)
  {
    if |rows| > 0 {
      var n := |rows| - 1;
      CountedIsTotal(rows[..n], updates);
      forall k | 0 <= k < n ensures rows[..n][k] == rows[k] {}
      if forall k :: 0 <= k < |rows| && |rows[k].payload| > 0 ==> Succeeds(updates, k) {
        forall k | 0 <= k < n && |rows[..n][k].payload| > 0 ensures Succeeds(updates, k) {
          assert |rows[k].payload| > 0;
        }
      }
    }
  }

  lemma {:induction false} StoreKeeps(log: Log, stream: Stream, payload: Bytes)
    requires LogOk(log)
    ensures
      var (next, capReached) := Store(log, stream, payload);
      && LogOk(next) && next.notices == log.notices && next.updates == log.updates
      && (capReached ==> log.command > 0 && next.command == 0)
  {
    hide TotalCost, CountedBytes, Trimmed, Succeeds;
    if Remaining(log, stream) > 0 {
      var charge := Charge(Remaining(log, stream), |payload|);
      var kept := Trimmed(payload, if |payload| > 0 then charge else 0);
      RowsAppend(log.rows, Row(stream, kept), log.updates);
    }
  }

  /** Every payload offered keeps the bounds, whatever the database answers. */
  lemma {:induction false} AppendKeeps(log: Log, stream: Stream, payload: Bytes)
    requires LogOk(log)
    ensures LogOk(Append(log, stream, payload)) && Append(log, stream, payload).updates == log.updates
  {
    hide Store, TotalCost, CountedBytes, Notice;
    StoreKeeps(log, stream, payload);
    var (next, capReached) := Store(log, stream, payload);
    if capReached { StoreKeeps(next.(notices := next.notices + 1), System, Notice()); }
  }

  /** Rows cost at least one byte each, so their number is bounded too. */
  lemma {:induction false} CostsBoundRows(rows: seq<Row>)
    ensures |rows| <= TotalCost(rows, false) + TotalCost(rows, true)
    ensures TotalBytes(rows) <= TotalCost(rows, false) + TotalCost(rows, true)
  {
    if |rows| > 0 { CostsBoundRows(rows[..|rows| - 1]); }
  }

  // -------------------------------------------------------------------- the lines

  function TrimCR(line: Bytes): Bytes {
    if |line| > 0 && line[|line| - 1] == CR then line[..|line| - 1] else line
  }

  /** The complete lines of a text, and what follows the last newline. */
  function Lines(s: Bytes): seq<Bytes> {
    if |s| == 0 then []
    else if s[|s| - 1] == NEWLINE then Lines(s[..|s| - 1]) + [TrimCR(Rest(s[..|s| - 1]))]
    else Lines(s[..|s| - 1])
  }

  function Rest(s: Bytes): Bytes {
    if |s| == 0 then []
    else if s[|s| - 1] == NEWLINE then []
    else Rest(s[..|s| - 1]) + [s[|s| - 1]]
  }

  /** What the reader should see of a whole stream: its lines, and an unfinished last one. */
  function AllLines(s: Bytes): seq<Bytes> {
    Lines(s) + if |Rest(s)| > 0 then [Rest(s)] else []
  }

  /** What write sends on when a chunk arrives, and what it keeps. */
  function Sent(pending: Bytes, chunk: Bytes): seq<Bytes> {
    var buffer := pending + chunk;
    Lines(buffer) + if |Rest(buffer)| > MAX_LINE then [Rest(buffer)] else []
  }

  function Held(pending: Bytes, chunk: Bytes): Bytes {
    var rest := Rest(pending + chunk);
    if |rest| > MAX_LINE then [] else rest
  }

  lemma {:induction false} OneByteMore(s: Bytes, b: Byte)
    ensures Lines(s + [b]) == if b == NEWLINE then Lines(s) + [TrimCR(Rest(s))] else Lines(s)
    ensures Rest(s + [b]) == if b == NEWLINE then [] else Rest(s) + [b]
  {
    assert (s + [b])[..|s|] == s;
  }

  lemma {:induction false} RestOfRest(a: Bytes, b: Bytes)
    ensures Lines(a + b) == Lines(a) + Lines(Rest(a) + b)
    ensures Rest(a + b) == Rest(Rest(a) + b)
    decreases |b|
  {
    hide Lines, Rest, TrimCR;
    if |b| == 0 {
      assert a + b == a && Rest(a) + b == Rest(a);
      RestHasNoNewline(a);
      LinesOfPlain(Rest(a));
      assert Lines(a) + [] == Lines(a);
    } else {
      var n := |b| - 1;
      var before := b[..n];
      assert a + b == (a + before) + [b[n]] && Rest(a) + b == (Rest(a) + before) + [b[n]];
      OneByteMore(a + before, b[n]);
      OneByteMore(Rest(a) + before, b[n]);
      RestOfRest(a, before);
      if b[n] == NEWLINE {
        var line := [TrimCR(Rest(a + before))];
        assert Lines(a) + (Lines(Rest(a) + before) + line) == Lines(a) + Lines(Rest(a) + before) + line;
      }
    }
  }

  lemma {:induction false} RestHasNoNewline(s: Bytes)
    ensures NEWLINE !in Rest(s)
    ensures |Rest(s)| <= |s| && s[|s| - |Rest(s)|..] == Rest(s)
  {
    if |s| > 0 && s[|s| - 1] != NEWLINE {
      RestHasNoNewline(s[..|s| - 1]);
      assert s == s[..|s| - 1] + [s[|s| - 1]];
    }
  }

  lemma {:induction false} LinesOfPlain(s: Bytes)
    requires NEWLINE !in s
    ensures Lines(s) == [] && Rest(s) == s
  {
    if |s| > 0 {
      assert s[|s| - 1] in s;
      LinesOfPlain(s[..|s| - 1]);
      assert s == s[..|s| - 1] + [s[|s| - 1]];
    }
  }

  /** No stretch without a newline is longer than 64 KiB. */
  ghost predicate ShortLines(s: Bytes) {
    forall i, j {:trigger s[i..j]} :: 0 <= i <= j <= |s| && NEWLINE !in s[i..j] ==> j - i <= MAX_LINE
  }

  lemma {:induction false} ShortPrefix(s: Bytes, n: nat)
    requires ShortLines(s) && n <= |s|
    ensures ShortLines(s[..n]) && |Rest(s[..n])| <= MAX_LINE
  {
    var p := s[..n];
    forall i, j | 0 <= i <= j <= n && NEWLINE !in p[i..j] ensures j - i <= MAX_LINE {
      assert p[i..j] == s[i..j];
    }
    RestHasNoNewline(p);
    assert p[n - |Rest(p)|..n] == p[n - |Rest(p)|..];
  }

  function Concat(chunks: seq<Bytes>): Bytes {
    if |chunks| == 0 then [] else Concat(chunks[..|chunks| - 1]) + chunks[|chunks| - 1]
  }

  /** What a series of writes sends on and keeps. */
  function SentAll(chunks: seq<Bytes>): seq<Bytes> {
    if |chunks| == 0 then []
    else
      var n := |chunks| - 1;
      SentAll(chunks[..n]) + Sent(HeldAll(chunks[..n]), chunks[n])
  }

  function HeldAll(chunks: seq<Bytes>): Bytes {
    if |chunks| == 0 then [] else Held(HeldAll(chunks[..|chunks| - 1]), chunks[|chunks| - 1])
  }

  /** Short lines leave nothing to the chunks: after any writes, what was sent on
      are the complete lines so far and what is kept is the unfinished one; with
      the final flush, exactly the stream's lines. */
  lemma {:induction false} ChunksDoNotMatter(chunks: seq<Bytes>)
    requires ShortLines(Concat(chunks))
    ensures SentAll(chunks) == Lines(Concat(chunks)) && HeldAll(chunks) == Rest(Concat(chunks))
    ensures SentAll(chunks) + (if |HeldAll(chunks)| > 0 then [HeldAll(chunks)] else []) == AllLines(Concat(chunks))
    decreases |chunks|
  {
    if |chunks| > 0 {
      var n := |chunks| - 1;
      var before, last := Concat(chunks[..n]), chunks[n];
      assert (before + last)[..|before|] == before;
      ShortPrefix(before + last, |before|);
      ChunksDoNotMatter(chunks[..n]);
      RestOfRest(before, last);
      assert (before + last)[..|before + last|] == before + last;
      ShortPrefix(before + last, |before + last|);
      assert Lines(Rest(before) + last) + [] == Lines(Rest(before) + last);
    }
  }

  /** The unfinished line kept between writes never exceeds 64 KiB, whatever comes. */
  lemma {:induction false} HeldIsBounded(pending: Bytes, chunk: Bytes)
    ensures |Held(pending, chunk)| <= MAX_LINE && NEWLINE !in Held(pending, chunk)
  {
    RestHasNoNewline(pending + chunk);
  }

  // -------------------------------------------------------------------- the logger

  /** A series of payloads offered one after the other. */
  function OfferAll(log: Log, offers: seq<Row>): Log {
    if |offers| == 0 then log
    else
      var n := |offers| - 1;
      Append(OfferAll(log, offers[..n]), offers[n].stream, offers[n].payload)
  }

  lemma {:induction false} OfferOne(log: Log, offers: seq<Row>, offer: Row)
    ensures OfferAll(log, offers + [offer]) == Append(OfferAll(log, offers), offer.stream, offer.payload)
  {
    hide Append;
    assert (offers + [offer])[..|offers|] == offers;
  }

  function RowsFor(stream: Stream, payloads: seq<Bytes>): seq<Row> {
    seq(|payloads|, i requires 0 <= i < |payloads| => Row(stream, payloads[i]))
  }

  /** What a flush sends on: what is left of each stream. */
  function Leftovers(pending: map<Stream, Bytes>, order: seq<Stream>): seq<Row> {
    if |order| == 0 then []
    else
      var n := |order| - 1;
      var stream := order[n];
      Leftovers(pending, order[..n]) +
      if stream in pending && |pending[stream]| > 0 then [Row(stream, pending[stream])] else []
  }

  function Buffer(pending: map<Stream, Bytes>, stream: Stream): Bytes {
    if stream in pending then pending[stream] else []
  }

  /** A system line never reports the command budget used up. */
  lemma {:induction false} SystemHasNoCap(log: Log, payload: Bytes)
    ensures Append(log, System, payload) == Store(log, System, payload).0
  {
    hide Trimmed, Notice;
  }

  lemma {:induction false} CapIsCommand(log: Log, stream: Stream, payload: Bytes)
    ensures Store(log, stream, payload).1 ==> !stream.System?
  {
    hide Trimmed;
  }

  class LogBudget {
    var command: int
    var system: int

    constructor ()
      ensures command == MAX_COMMAND && system == MAX_SYSTEM
    {
      command, system := MAX_COMMAND, MAX_SYSTEM;
    }

    /** How much of a payload may be stored, and whether it used up the command budget. */
    method Take(stream: Stream, size: nat) returns (allowed: int, store: bool, exhausted: bool)
      modifies this
      ensures
        var remaining := if stream.System? then old(system) else old(command);
        var charge := if remaining <= 0 then 0 else Charge(remaining, size);
        && store == (remaining > 0)
        && allowed == (if size > 0 then charge else 0)
        && (if stream.System? then system == old(system) - charge && command == old(command)
            else command == old(command) - charge && system == old(system))
        && exhausted == (store && !stream.System? && command == 0)
    {
      var remaining := command;
      if stream.System? {
        remaining := system;
      }
      if remaining <= 0 {
        return 0, false, false;
      }
      var charge: int := size;
      if charge == 0 {
        charge := 1;
      }
      if charge > remaining {
        charge := remaining;
      }
      remaining := remaining - charge;
      if stream.System? {
        system := remaining;
      } else {
        command := remaining;
      }
      allowed := 0;
      if size > 0 {
        allowed := charge;
      }
      return allowed, true, !stream.System? && remaining == 0;
    }
  }

  class SimpleRunLogger {
    const budget: LogBudget
    var pending: map<Stream, Bytes>
    var rows: seq<Row>
    var logBytes: nat
    const updates: seq<bool>
    var inserts: seq<bool>
    ghost var notices: nat

    constructor (inserts: seq<bool>, updates: seq<bool>)
      ensures Stored() == NewLog(inserts, updates) && pending == map[] && fresh(budget)
    {
      budget := new LogBudget();
      this.updates, this.inserts := updates, inserts;
      pending, rows, logBytes, notices := map[], [], 0, 0;
    }

    ghost function Stored(): Log
      reads this, budget
    {
      Log(budget.command, budget.system, rows, logBytes, notices, inserts, updates)
    }

    /** The INSERT of one row; the script says whether the database accepts it. */
    method Insert(row: Row) returns (ok: bool)
      modifies this`rows, this`inserts
      ensures ok == Succeeds(old(inserts), 0)
      ensures inserts == if |old(inserts)| == 0 then [] else old(inserts)[1..]
      ensures rows == if ok then old(rows) + [row] else old(rows)
    {
      ok := true;
      if |inserts| > 0 {
        ok, inserts := inserts[0], inserts[1..];
      }
      if ok {
        rows := rows + [row];
      }
    }

    /** The UPDATE of log_bytes after a stored row; nobody looks at its error. */
    method Count(size: nat)
      requires |rows| > 0
      modifies this`logBytes
      ensures logBytes == old(logBytes) + if Succeeds(updates, |rows| - 1) then size else 0
    {
      if |rows| > |updates| || updates[|rows| - 1] {
        logBytes := logBytes + size;
      }
    }

    /** One payload charged, cut, inserted and counted. */
    method StoreRow(stream: Stream, payload: Bytes) returns (capReached: bool)
      modifies this`rows, this`inserts, this`logBytes, budget
      ensures (Stored(), capReached) == Store(old(Stored()), stream, payload)
    {
      hide Trimmed, Succeeds;
      var allowed, store, exhausted := budget.Take(stream, |payload|);
      if !store {
        return false;
      }
      var kept := TrimToRuneBoundary(payload, allowed);
      var ok := Insert(Row(stream, kept));
      if !ok {
        return false;
      }
      Count(|kept|);
      return exhausted;
    }

    method AppendRow(stream: Stream, payload: Bytes)
      modifies this`rows, this`inserts, this`logBytes, this`notices, budget
      ensures Stored() == Append(old(Stored()), stream, payload)
      decreases if stream.System? then 0 else 1
    {
      hide Notice, Trimmed;
      CapIsCommand(Stored(), stream, payload);
      hide Store;
      var capReached := StoreRow(stream, payload);
      if capReached {
        notices := notices + 1;
        SystemHasNoCap(Stored(), Notice());
        AppendRow(System, Notice());
      }
    }

    /** Whole lines are stored as they complete; an overlong one is stored as it is. */
    method Write(stream: Stream, chunk: Bytes)
      modifies this, budget
      ensures
        var before := Buffer(old(pending), stream);
        && Stored() == OfferAll(old(Stored()), RowsFor(stream, Sent(before, chunk)))
        && pending == old(pending)[stream := Held(before, chunk)]
    {
      hide Append, OfferAll, RowsFor, TrimCR;
      RowsForNone(Stored(), stream);
      var buffer := Buffer(pending, stream);
      buffer := buffer + chunk;
      ghost var whole, sent := buffer, [];
      var index := IndexByte(buffer, NEWLINE);
      while index >= 0
        invariant -1 <= index < |buffer|
        invariant index >= 0 ==> buffer[index] == NEWLINE && NEWLINE !in buffer[..index]
        invariant index == -1 ==> NEWLINE !in buffer
        invariant sent + Lines(buffer) == Lines(whole) && Rest(buffer) == Rest(whole)
        invariant Stored() == OfferAll(old(Stored()), RowsFor(stream, sent))
        invariant pending == old(pending)
        decreases |buffer|
      {
        FirstLine(buffer, index);
        var line := TrimCR(buffer[..index]);
        RowsForOne(old(Stored()), stream, sent, line);
        assert sent + ([line] + Lines(buffer[index + 1..])) == (sent + [line]) + Lines(buffer[index + 1..]);
        AppendRow(stream, line);
        sent := sent + [line];
        buffer := buffer[index + 1..];
        index := IndexByte(buffer, NEWLINE);
      }
      LinesOfPlain(buffer);
      assert sent + [] == sent;
      if |buffer| > MAX_LINE {
        RowsForOne(old(Stored()), stream, sent, buffer);
        AppendRow(stream, buffer);
        buffer := [];
      }
      pending := pending[stream := buffer];
    }

    /** What is left of every stream is a last line of its own; a map has no order. */
    method Flush(order: seq<Stream>)
      requires forall i, k :: 0 <= i < k < |order| ==> order[i] != order[k]
      requires forall stream :: stream in pending <==> stream in order
      modifies this, budget
      ensures pending == Cleared(old(pending), order)
      ensures Stored() == OfferAll(old(Stored()), Leftovers(old(pending), order))
    {
      hide Append, OfferAll, Leftovers, Cleared;
      ghost var was, before := pending, Stored();
      FlushNone(before, was);
      for i := 0 to |order|
        invariant pending == Cleared(was, order[..i])
        invariant Stored() == OfferAll(before, Leftovers(was, order[..i]))
      {
        var stream := order[i];
        ClearNext(was, order, i);
        FlushNext(before, was, order, i);
        var buffer := pending[stream];
        if |buffer| > 0 {
          AppendRow(stream, buffer);
        }
        pending := pending[stream := []];
      }
      assert order[..|order|] == order;
    }
  }

  /** The buffers after some of the streams have been flushed. */
  function Cleared(pending: map<Stream, Bytes>, done: seq<Stream>): map<Stream, Bytes> {
    map stream | stream in pending :: if stream in done then [] else pending[stream]
  }

  lemma {:induction false} ClearNext(pending: map<Stream, Bytes>, order: seq<Stream>, i: nat)
    requires i < |order| && forall j, k :: 0 <= j < k < |order| ==> order[j] != order[k]
    requires order[i] in pending
    ensures order[i] in Cleared(pending, order[..i]) && Cleared(pending, order[..i])[order[i]] == pending[order[i]]
    ensures Cleared(pending, order[..i + 1]) == Cleared(pending, order[..i])[order[i] := []]
  {
    assert order[..i + 1] == order[..i] + [order[i]];
  }

  lemma {:induction false} FlushNone(log: Log, pending: map<Stream, Bytes>)
    ensures OfferAll(log, Leftovers(pending, [])) == log && Cleared(pending, []) == pending
  {
    hide Append;
  }

  lemma {:induction false} FlushNext(log: Log, pending: map<Stream, Bytes>, order: seq<Stream>, i: nat)
    requires i < |order|
    ensures
      var before := OfferAll(log, Leftovers(pending, order[..i]));
      OfferAll(log, Leftovers(pending, order[..i + 1])) ==
        if |Buffer(pending, order[i])| > 0 then Append(before, order[i], pending[order[i]]) else before
  {
    hide Append, OfferAll;
    assert order[..i + 1][..i] == order[..i];
    var sent := Leftovers(pending, order[..i]);
    if |Buffer(pending, order[i])| > 0 { OfferOne(log, sent, Row(order[i], pending[order[i]])); }
    else { assert sent + [] == sent; }
  }

  lemma {:induction false} RowsForNone(log: Log, stream: Stream)
    ensures OfferAll(log, RowsFor(stream, [])) == log
  {
  }

  lemma {:induction false} RowsForOne(log: Log, stream: Stream, sent: seq<Bytes>, payload: Bytes)
    ensures OfferAll(log, RowsFor(stream, sent + [payload])) ==
            Append(OfferAll(log, RowsFor(stream, sent)), stream, payload)
  {
    hide Append, OfferAll;
    assert RowsFor(stream, sent + [payload]) == RowsFor(stream, sent) + [Row(stream, payload)];
    OfferOne(log, RowsFor(stream, sent), Row(stream, payload));
  }

  method IndexByte(data: Bytes, target: Byte) returns (index: int)
    ensures -1 <= index < |data|
    ensures index >= 0 ==> data[index] == target && target !in data[..index]
    ensures index == -1 ==> target !in data
  {
    index := 0;
    while index < |data|
      invariant 0 <= index <= |data| && target !in data[..index]
    {
      if data[index] == target {
        return;
      }
      index := index + 1;
    }
    return -1;
  }

  lemma {:induction false} OneLine(line: Bytes)
    requires NEWLINE !in line
    ensures Lines(line + [NEWLINE]) == [TrimCR(line)] && Rest(line + [NEWLINE]) == []
  {
    var s := line + [NEWLINE];
    assert s[..|s| - 1] == line;
    LinesOfPlain(line);
  }

  lemma {:induction false} FirstLine(s: Bytes, i: nat)
    requires i < |s| && s[i] == NEWLINE && NEWLINE !in s[..i]
    ensures Lines(s) == [TrimCR(s[..i])] + Lines(s[i + 1..]) && Rest(s) == Rest(s[i + 1..])
  {
    hide TrimCR, Lines, Rest;
    var head, tail := s[..i] + [NEWLINE], s[i + 1..];
    OneLine(s[..i]);
    assert s == head + tail;
    RestOfRest(head, tail);
    assert [] + tail == tail;
  }

  // ------------------------------------------------------------- the calls of a run

  /** What a run does to its logger: lines of the server's own, chunks of the
      command's output in any order of the streams, and flushes. */
  datatype Call = Say(message: Bytes) | Put(stream: Stream, chunk: Bytes) | Flush(order: seq<Stream>)

  function Offers(pending: map<Stream, Bytes>, call: Call): seq<Row> {
    match call
    case Say(message) => [Row(System, message)]
    case Put(stream, chunk) => RowsFor(stream, Sent(Buffer(pending, stream), chunk))
    case Flush(order) => Leftovers(pending, order)
  }

  function PendingAfter(pending: map<Stream, Bytes>, call: Call): map<Stream, Bytes> {
    match call
    case Say(_) => pending
    case Put(stream, chunk) => pending[stream := Held(Buffer(pending, stream), chunk)]
    case Flush(order) => Cleared(pending, order)
  }

  function Kept(calls: seq<Call>): map<Stream, Bytes> {
    if |calls| == 0 then map[] else PendingAfter(Kept(calls[..|calls| - 1]), calls[|calls| - 1])
  }

  /** Everything the calls of a run offer for storage, in order. */
  function Offered(calls: seq<Call>): seq<Row> {
    if |calls| == 0 then []
    else
      var n := |calls| - 1;
      Offered(calls[..n]) + Offers(Kept(calls[..n]), calls[n])
  }

  /** Only a command's two streams are buffered, and a flush meets every buffer once. */
  predicate GoodCall(pending: map<Stream, Bytes>, call: Call) {
    match call
    case Say(_) => true
    case Put(stream, _) => !stream.System?
    case Flush(order) =>
      && (forall i, k :: 0 <= i < k < |order| ==> order[i] != order[k])
      && (forall stream :: stream in pending <==> stream in order)
  }

  predicate GoodCalls(calls: seq<Call>) {
    |calls| > 0 ==>
      var n := |calls| - 1;
      GoodCalls(calls[..n]) && GoodCall(Kept(calls[..n]), calls[n])
  }

  /** One call after a run: the logger's methods, one after the other, are the run. */
  lemma {:induction false} OneCallMore(log: Log, calls: seq<Call>, call: Call)
    ensures OfferAll(log, Offered(calls + [call])) == OfferAll(OfferAll(log, Offered(calls)), Offers(Kept(calls), call))
    ensures Kept(calls + [call]) == PendingAfter(Kept(calls), call)
  {
    hide Offers, PendingAfter, OfferAll;
    assert (calls + [call])[..|calls|] == calls;
    OfferJoin(log, Offered(calls), Offers(Kept(calls), call));
  }

  lemma {:induction false} OfferJoin(log: Log, a: seq<Row>, b: seq<Row>)
    ensures OfferAll(log, a + b) == OfferAll(OfferAll(log, a), b)
    decreases |b|
  {
    hide Append;
    if |b| == 0 {
      assert a + b == a;
    } else {
      var n := |b| - 1;
      assert (a + b)[..|a + b| - 1] == a + b[..n];
      OfferJoin(log, a, b[..n]);
    }
  }

  // ---------------------------------------------------------------- bounds of a run

  lemma {:induction false} OfferKeeps(log: Log, offers: seq<Row>)
    requires LogOk(log)
    ensures LogOk(OfferAll(log, offers)) && OfferAll(log, offers).updates == log.updates
    decreases |offers|
  {
    hide Append, LogOk;
    if |offers| > 0 {
      var n := |offers| - 1;
      OfferKeeps(log, offers[..n]);
      AppendKeeps(OfferAll(log, offers[..n]), offers[n].stream, offers[n].payload);
    }
  }

  /** Whatever a run prints, in whatever pieces, and whichever statements fail: at
      most 8 MiB of command output and 64 KiB of the server's lines are stored, in
      at most as many rows; log_bytes never exceeds what is stored, and is exact if
      and only if no UPDATE after a stored non-empty row failed; the cap notice is
      offered at most once, and never before the command budget is used up. */
  lemma {:induction false} RunLogIsBounded(inserts: seq<bool>, updates: seq<bool>, calls: seq<Call>)
    ensures
      var log := OfferAll(NewLog(inserts, updates), Offered(calls));
      && TotalCost(log.rows, false) <= MAX_COMMAND && TotalCost(log.rows, true) <= MAX_SYSTEM
      && |log.rows| <= MAX_COMMAND + MAX_SYSTEM
      && log.logBytes <= TotalBytes(log.rows) <= MAX_COMMAND + MAX_SYSTEM
      && (log.logBytes == TotalBytes(log.rows) <==>
          forall k :: 0 <= k < |log.rows| && |log.rows[k].payload| > 0 ==> Succeeds(updates, k))
      && log.notices <= 1 && (log.command > 0 ==> log.notices == 0)
  {
    hide OfferAll, Offered;
    OfferKeeps(NewLog(inserts, updates), Offered(calls));
    var rows := OfferAll(NewLog(inserts, updates), Offered(calls)).rows;
    CostsBoundRows(rows);
    CountedIsTotal(rows, updates);
  }

  /** One lost UPDATE is enough: a line is stored and log_bytes says nothing of it. */
  lemma {:induction false} LogBytesFallBehind()
    ensures
      var log := OfferAll(NewLog([], [false]), Offered([Say([65])]));
      log.rows == [Row(System, [65])] && log.logBytes == 0
  {
    var log := NewLog([], [false]);
    var calls := [Say([65])];
    assert calls[..0] == [];
    assert Offered(calls) == [] + [Row(System, [65])] == [Row(System, [65])];
    var offers := Offered(calls);
    assert offers[..0] == [];
    SystemHasNoCap(log, [65]);
  }

  // ------------------------------------------------------------- within the budget

  /** The rows of the command's output, both streams in the order stored. */
  function Commands(rows: seq<Row>): seq<Row> {
    if |rows| == 0 then []
    else
      var n := |rows| - 1;
      Commands(rows[..n]) + if rows[n].stream.System? then [] else [rows[n]]
  }

  /** The payloads of one stream. */
  function Of(rows: seq<Row>, stream: Stream): seq<Bytes> {
    if |rows| == 0 then []
    else
      var n := |rows| - 1;
      Of(rows[..n], stream) + if rows[n].stream == stream then [rows[n].payload] else []
  }

  lemma {:induction false} CommandsOne(rows: seq<Row>, row: Row)
    ensures Commands(rows + [row]) == Commands(rows) + if row.stream.System? then [] else [row]
  {
    assert (rows + [row])[..|rows|] == rows;
  }

  lemma {:induction false} OfOne(rows: seq<Row>, row: Row, stream: Stream)
    ensures Of(rows + [row], stream) == Of(rows, stream) + if row.stream == stream then [row.payload] else []
  {
    assert (rows + [row])[..|rows|] == rows;
  }

  lemma {:induction false} CommandsCost(rows: seq<Row>)
    ensures TotalCost(Commands(rows), false) == TotalCost(rows, false)
  {
    hide Cost;
    if |rows| > 0 {
      var n := |rows| - 1;
      CommandsCost(rows[..n]);
      assert Commands(rows[..n]) + [] == Commands(rows[..n]);
      RowsAppend(Commands(rows[..n]), rows[n], []);
    }
  }

  lemma {:induction false} CommandsOf(rows: seq<Row>, stream: Stream)
    requires !stream.System?
    ensures Of(Commands(rows), stream) == Of(rows, stream)
  {
    if |rows| > 0 {
      var n := |rows| - 1;
      CommandsOf(rows[..n], stream);
      assert Commands(rows[..n]) + [] == Commands(rows[..n]);
      OfOne(Commands(rows[..n]), rows[n], stream);
    }
  }

  /** What fits is stored whole, as a row of its own. */
  lemma {:induction false} StoreWhole(log: Log, row: Row)
    requires false !in log.inserts && Cost(row) <= Remaining(log, row.stream)
    ensures
      var (next, capReached) := Store(log, row.stream, row.payload);
      && next.rows == log.rows + [row] && false !in next.inserts
      && next.command == log.command - (if row.stream.System? then 0 else Cost(row))
      && next.system == log.system - (if row.stream.System? then Cost(row) else 0)
      && (capReached ==> next.command == 0)
  {
  }

  /** The server's own lines leave the command's output alone. */
  lemma {:induction false} SystemAside(log: Log, payload: Bytes)
    requires false !in log.inserts
    ensures
      var next := Store(log, System, payload).0;
      Commands(next.rows) == Commands(log.rows) && next.command == log.command && false !in next.inserts
  {
    hide Trimmed, Commands;
    var next := Store(log, System, payload).0;
    if next.rows != log.rows { CommandsOne(log.rows, next.rows[|log.rows|]); }
  }

  /** One offer that fits: the command's rows grow by it, and so do all rows unless
      it used up the budget. */
  lemma {:induction false} OfferFits(log: Log, row: Row)
    requires false !in log.inserts && (row.stream.System? || Cost(row) <= log.command)
    ensures
      var next := Append(log, row.stream, row.payload);
      && Commands(next.rows) == Commands(log.rows) + (if row.stream.System? then [] else [row])
      && next.command == log.command - (if row.stream.System? then 0 else Cost(row))
      && false !in next.inserts
  {
    hide Commands, Notice;
    if row.stream.System? {
      SystemHasNoCap(log, row.payload);
      SystemAside(log, row.payload);
    } else {
      StoreWhole(log, row);
      var (next, capReached) := Store(log, row.stream, row.payload);
      CommandsOne(log.rows, row);
      hide Store;
      if capReached { SystemAside(next.(notices := next.notices + 1), Notice()); }
    }
  }

  lemma {:induction false} OffersFit(log: Log, offers: seq<Row>)
    requires false !in log.inserts && TotalCost(offers, false) <= log.command
    ensures
      var after := OfferAll(log, offers);
      && Commands(after.rows) == Commands(log.rows) + Commands(offers)
      && after.command == log.command - TotalCost(offers, false) && false !in after.inserts
    decreases |offers|
  {
    hide Append, Cost;
    if |offers| > 0 {
      var n := |offers| - 1;
      OffersFit(log, offers[..n]);
      OfferFits(OfferAll(log, offers[..n]), offers[n]);
    }
  }

  /** While neither budget is used up, everything is stored in the order offered. */
  lemma {:induction false} AllOffersFit(log: Log, offers: seq<Row>)
    requires false !in log.inserts && TotalCost(offers, false) < log.command && TotalCost(offers, true) <= log.system
    ensures
      var after := OfferAll(log, offers);
      && after.rows == log.rows + offers && false !in after.inserts
      && after.command == log.command - TotalCost(offers, false)
      && after.system == log.system - TotalCost(offers, true)
    decreases |offers|
  {
    hide Store, Cost;
    if |offers| > 0 {
      var n := |offers| - 1;
      AllOffersFit(log, offers[..n]);
      StoreWhole(OfferAll(log, offers[..n]), offers[n]);
      assert log.rows + offers == log.rows + offers[..n] + [offers[n]];
    }
  }

  // ------------------------------------------------------------ streams and their lines

  /** The text of a stream since the last flush. */
  function Since(calls: seq<Call>, stream: Stream): Bytes {
    if |calls| == 0 then []
    else
      var before := Since(calls[..|calls| - 1], stream);
      match calls[|calls| - 1]
      case Say(_) => before
      case Put(to, chunk) => if to == stream then before + chunk else before
      case Flush(_) => []
  }

  /** What the reader should see of a stream: the lines of every text a flush has
      ended, and the server's own messages one by one. */
  function Told(calls: seq<Call>, stream: Stream): seq<Bytes> {
    if |calls| == 0 then []
    else
      var n := |calls| - 1;
      Told(calls[..n], stream) +
      match calls[n]
      case Say(message) => if stream.System? then [message] else []
      case Put(_, _) => []
      case Flush(_) => AllLines(Since(calls[..n], stream))
  }

  ghost predicate AllShort(calls: seq<Call>, stream: Stream) {
    forall n :: 0 <= n <= |calls| ==> ShortLines(Since(calls[..n], stream))
  }

  lemma {:induction false} RowsOfOne(stream: Stream, to: Stream, payloads: seq<Bytes>)
    ensures Of(RowsFor(to, payloads), stream) == if to == stream then payloads else []
  {
    if |payloads| > 0 {
      var n := |payloads| - 1;
      assert RowsFor(to, payloads) == RowsFor(to, payloads[..n]) + [Row(to, payloads[n])];
      RowsOfOne(stream, to, payloads[..n]);
      OfOne(RowsFor(to, payloads[..n]), Row(to, payloads[n]), stream);
    }
  }

  lemma {:induction false} OfJoin(a: seq<Row>, b: seq<Row>, stream: Stream)
    ensures Of(a + b, stream) == Of(a, stream) + Of(b, stream)
    decreases |b|
  {
    if |b| == 0 {
      assert a + b == a;
    } else {
      var n := |b| - 1;
      assert (a + b)[..|a + b| - 1] == a + b[..n];
      OfJoin(a, b[..n], stream);
    }
  }

  lemma {:induction false} LeftoverOf(pending: map<Stream, Bytes>, order: seq<Stream>, stream: Stream)
    requires forall i, k :: 0 <= i < k < |order| ==> order[i] != order[k]
    ensures
      var rest := Buffer(pending, stream);
      Of(Leftovers(pending, order), stream) == if stream in order && |rest| > 0 then [rest] else []
  {
    if |order| > 0 {
      var n := |order| - 1;
      assert order == order[..n] + [order[n]];
      LeftoverOf(pending, order[..n], stream);
      hide Of;
      if order[n] in pending && |pending[order[n]]| > 0 {
        OfOne(Leftovers(pending, order[..n]), Row(order[n], pending[order[n]]), stream);
      } else {
        assert Leftovers(pending, order[..n]) + [] == Leftovers(pending, order[..n]);
      }
    }
  }

  /** One chunk of short lines: its lines are sent on, its unfinished rest is kept. */
  lemma {:induction false} ChunkOfShortLines(text: Bytes, chunk: Bytes)
    requires ShortLines(text + chunk)
    ensures Lines(text + chunk) == Lines(text) + Sent(Rest(text), chunk)
    ensures Rest(text + chunk) == Held(Rest(text), chunk)
  {
    hide Lines, Rest, ShortLines;
    var whole := text + chunk;
    RestOfRest(text, chunk);
    assert whole[..|whole|] == whole;
    ShortPrefix(whole, |whole|);
    assert Lines(Rest(text) + chunk) + [] == Lines(Rest(text) + chunk);
  }

  lemma {:induction false} ShortBefore(calls: seq<Call>, stream: Stream)
    requires |calls| > 0 && AllShort(calls, stream)
    ensures AllShort(calls[..|calls| - 1], stream) && ShortLines(Since(calls, stream))
  {
    hide ShortLines, Since;
    var before := calls[..|calls| - 1];
    forall n | 0 <= n <= |before| ensures ShortLines(Since(before[..n], stream)) { assert before[..n] == calls[..n]; }
    assert calls[..|calls|] == calls;
  }

  /** What one more call offers of a stream are the lines it completes. */
  ghost predicate CallTells(calls: seq<Call>, stream: Stream)
    requires |calls| > 0
  {
    var before, call := calls[..|calls| - 1], calls[|calls| - 1];
    && Told(before, stream) + (Lines(Since(before, stream)) + Of(Offers(Kept(before), call), stream))
       == Told(calls, stream) + Lines(Since(calls, stream))
    && Buffer(Kept(calls), stream) == Rest(Since(calls, stream))
  }

  lemma {:induction false} SayTells(calls: seq<Call>, stream: Stream)
    requires |calls| > 0 && calls[|calls| - 1].Say?
    requires Buffer(Kept(calls[..|calls| - 1]), stream) == Rest(Since(calls[..|calls| - 1], stream))
    requires stream.System? ==> Since(calls[..|calls| - 1], stream) == []
    ensures CallTells(calls, stream)
  {
    var before, message := calls[..|calls| - 1], calls[|calls| - 1].message;
    hide Rest, Lines, Kept, AllLines;
    LinesOfPlain([]);
    OfOne([], Row(System, message), stream);
    assert [] + [Row(System, message)] == [Row(System, message)];
    var told, lines := Told(before, stream), Lines(Since(before, stream));
    assert Of([Row(System, message)], stream) == if stream.System? then [message] else [];
    assert Since(calls, stream) == Since(before, stream) && Kept(calls) == Kept(before) by { KeptNext(calls); }
    assert Told(calls, stream) == told + if stream.System? then [message] else [];
    hide Of, Since, Told;
    if stream.System? { SayJoins(told, lines, [message]); } else { SayJoins(told, lines, []); }
  }

  lemma {:induction false} SayJoins(told: seq<Bytes>, lines: seq<Bytes>, said: seq<Bytes>)
    requires lines == [] || said == []
    ensures told + (lines + said) == (told + said) + lines
  {
  }

  lemma {:induction false} KeptNext(calls: seq<Call>)
    requires |calls| > 0
    ensures Kept(calls) == PendingAfter(Kept(calls[..|calls| - 1]), calls[|calls| - 1])
  {
  }

  lemma {:induction false} PutTells(calls: seq<Call>, stream: Stream)
    requires |calls| > 0 && calls[|calls| - 1].Put?
    requires Buffer(Kept(calls[..|calls| - 1]), stream) == Rest(Since(calls[..|calls| - 1], stream))
    requires ShortLines(Since(calls, stream))
    ensures CallTells(calls, stream)
  {
    var before, to, chunk := calls[..|calls| - 1], calls[|calls| - 1].stream, calls[|calls| - 1].chunk;
    var told, text := Told(before, stream), Since(before, stream);
    assert Told(calls, stream) == told by { assert told + [] == told; }
    assert Since(calls, stream) == if to == stream then text + chunk else text;
    KeptNext(calls);
    hide Lines, Rest, Of, ShortLines, RowsFor, Sent, Held, Since, Told, Kept;
    RowsOfOne(stream, to, Sent(Buffer(Kept(before), to), chunk));
    if to == stream {
      ChunkOfShortLines(text, chunk);
    } else {
      assert Lines(text) + [] == Lines(text);
    }
  }

  lemma {:induction false} FlushTells(calls: seq<Call>, stream: Stream)
    requires |calls| > 0 && calls[|calls| - 1].Flush?
    requires GoodCall(Kept(calls[..|calls| - 1]), calls[|calls| - 1])
    requires Buffer(Kept(calls[..|calls| - 1]), stream) == Rest(Since(calls[..|calls| - 1], stream))
    ensures CallTells(calls, stream)
  {
    var before, order := calls[..|calls| - 1], calls[|calls| - 1].order;
    LeftoverOf(Kept(before), order, stream);
    LinesOfPlain([]);
    hide Lines, Rest, Of, Leftovers;
    assert Told(calls, stream) + [] == Told(calls, stream);
  }

  /** However the chunks of the streams, the server's lines and the flushes are
      interleaved: what is offered of a stream are its lines. */
  lemma {:induction false} OffersAreTheLines(calls: seq<Call>, stream: Stream)
    requires GoodCalls(calls) && AllShort(calls, stream)
    ensures Of(Offered(calls), stream) == Told(calls, stream) + Lines(Since(calls, stream))
    ensures Buffer(Kept(calls), stream) == Rest(Since(calls, stream))
    ensures stream.System? ==> Since(calls, stream) == []
    decreases |calls|
  {
    hide ShortLines, AllShort, Of, Offered, Offers, Told, Lines, Rest, Since, Kept, GoodCall, CallTells;
    if |calls| == 0 {
      NothingOffered(stream);
    } else {
      var before, call := calls[..|calls| - 1], calls[|calls| - 1];
      ShortBefore(calls, stream);
      OffersAreTheLines(before, stream);
      OfJoin(Offered(before), Offers(Kept(before), call), stream);
      OfferedNext(calls);
      SystemHasNoText(calls, stream);
      match call {
        case Say(_) => SayTells(calls, stream);
        case Put(_, _) => PutTells(calls, stream);
        case Flush(_) => FlushTells(calls, stream);
      }
      LinesTold(calls, stream);
    }
  }

  lemma {:induction false} NothingOffered(stream: Stream)
    ensures Of(Offered([]), stream) == Told([], stream) + Lines(Since([], stream))
    ensures Buffer(Kept([]), stream) == Rest(Since([], stream)) && Since([], stream) == []
  {
  }

  lemma {:induction false} OfferedNext(calls: seq<Call>)
    requires |calls| > 0
    ensures
      var n := |calls| - 1;
      Offered(calls) == Offered(calls[..n]) + Offers(Kept(calls[..n]), calls[n])
  {
    hide Offers;
  }

  /** Nothing is buffered for the server's own lines. */
  lemma {:induction false} SystemHasNoText(calls: seq<Call>, stream: Stream)
    requires |calls| > 0 && GoodCall(Kept(calls[..|calls| - 1]), calls[|calls| - 1])
    requires stream.System? ==> Since(calls[..|calls| - 1], stream) == []
    ensures stream.System? ==> Since(calls, stream) == []
  {
    hide Kept;
  }

  lemma {:induction false} LinesTold(calls: seq<Call>, stream: Stream)
    requires |calls| > 0 && CallTells(calls, stream)
    requires
      var before := calls[..|calls| - 1];
      Of(Offered(calls), stream) ==
      Told(before, stream) + Lines(Since(before, stream)) + Of(Offers(Kept(before), calls[|calls| - 1]), stream)
    ensures Of(Offered(calls), stream) == Told(calls, stream) + Lines(Since(calls, stream))
    ensures Buffer(Kept(calls), stream) == Rest(Since(calls, stream))
  {
    hide Lines, Of, Offered, Told, Since, Offers, Kept, Rest;
  }

  /** The log of a run whose inserts succeed holds the command's output exactly as
      its lines if and only if they fit the command budget: stdout and stderr each
      line by line, interleaved as they came, whatever the chunks. While neither
      budget is used up, the server's own lines stand between them in order too. */
  lemma {:induction false} StreamsAreStoredAsTheirLines(
    inserts: seq<bool>, updates: seq<bool>, calls: seq<Call>, stream: Stream)
    requires false !in inserts && GoodCalls(calls) && AllShort(calls, stream)
    ensures
      var rows, offers := OfferAll(NewLog(inserts, updates), Offered(calls)).rows, Offered(calls);
      var lines := Told(calls, stream) + Lines(Since(calls, stream));
      && (Commands(rows) == Commands(offers) <==> TotalCost(offers, false) <= MAX_COMMAND)
      && (!stream.System? && TotalCost(offers, false) <= MAX_COMMAND ==> Of(rows, stream) == lines)
      && (TotalCost(offers, false) < MAX_COMMAND && TotalCost(offers, true) <= MAX_SYSTEM ==>
            rows == offers && Of(rows, stream) == lines)
  {
    hide OfferAll, Offered, Told, Lines, Since, Of, Commands, TotalCost, AllShort, GoodCalls;
    var log, offers := NewLog(inserts, updates), Offered(calls);
    var rows := OfferAll(log, offers).rows;
    OffersAreTheLines(calls, stream);
    CommandsCost(rows);
    CommandsCost(offers);
    if !stream.System? {
      CommandsOf(rows, stream);
      CommandsOf(offers, stream);
    }
    Fresh(log);
    if TotalCost(offers, false) <= MAX_COMMAND { OffersFit(log, offers); } else { OfferKeeps(log, offers); }
    if TotalCost(offers, false) < MAX_COMMAND && TotalCost(offers, true) <= MAX_SYSTEM { AllOffersFit(log, offers); }
    assert Commands([]) + Commands(offers) == Commands(offers) && [] + offers == offers;
  }

  lemma {:induction false} Fresh(log: Log)
    requires log == NewLog(log.inserts, log.updates)
    ensures LogOk(log) && Commands(log.rows) == []
  {
  }
}
