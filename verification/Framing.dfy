/** The executor's wire protocol: length-prefixed packets over a connection that
    may take short writes, output cut into frames, and the size of every frame. */
module Framing {
  import opened Common
  import opened Output
  import opened Utf8

  const MAX_FRAME := 0x1_0000
  const MAX_CHUNK := 0x8000
  const MAX_ERROR := 4096

  // --------------------------------------------------------------------- packets

  function BigEndian32(n: nat): (bytes: Bytes)
    requires n < 0x1_0000_0000
    ensures |bytes| == 4
  {
    [n / 256 / 256 / 256, n / 256 / 256 % 256, n / 256 % 256, n % 256]
  }

  function Value32(bytes: Bytes): nat
    requires |bytes| == 4
  {
    var (a: int, b: int, c: int, d: int) := (bytes[0], bytes[1], bytes[2], bytes[3]);
    ((a * 256 + b) * 256 + c) * 256 + d
  }

  predicate Fits(payload: Bytes, maximum: nat) { 0 < |payload| <= maximum }

  function Packet(payload: Bytes): Bytes
    requires |payload| < 0x1_0000_0000
  {
    BigEndian32(|payload|) + payload
  }

  ghost predicate AllFit(payloads: seq<Bytes>, maximum: nat) {
    forall i :: 0 <= i < |payloads| ==> Fits(payloads[i], maximum)
  }

  function Packets(payloads: seq<Bytes>, maximum: nat): Bytes
    requires maximum < 0x1_0000_0000 && AllFit(payloads, maximum)
  {
    if |payloads| == 0 then [] else Packet(payloads[0]) + Packets(payloads[1..], maximum)
  }

  /** Reads one packet off the front; None when it is cut short or its size is refused. */
  function ReadOne(stream: Bytes, maximum: nat): (Option<Bytes>, Bytes) {
    if |stream| < 4 then (None, [])
    else
      var length := Value32(stream[..4]);
      if length == 0 || length > maximum then (None, stream[4..])
      else if |stream| - 4 < length then (None, [])
      else (Some(stream[4..4 + length]), stream[4 + length..])
  }

  /** Everything a reader gets until the stream ends or a packet is refused. */
  function ReadAll(stream: Bytes, maximum: nat): seq<Bytes>
    decreases |stream|
  {
    var (payload, rest) := ReadOne(stream, maximum);
    if payload.None? then [] else [payload.value] + ReadAll(rest, maximum)
  }

  lemma {:induction false} Value32OfBigEndian(n: nat)
    requires n < 0x1_0000_0000
    ensures Value32(BigEndian32(n)) == n
  {
  }

  lemma {:induction false} ReadWritten(payload: Bytes, rest: Bytes, maximum: nat)
    requires Fits(payload, maximum) && maximum < 0x1_0000_0000
    ensures ReadOne(Packet(payload) + rest, maximum) == (Some(payload), rest)
  {
    var stream := Packet(payload) + rest;
    Value32OfBigEndian(|payload|);
    assert stream[..4] == BigEndian32(|payload|);
    assert stream[4..4 + |payload|] == payload && stream[4 + |payload|..] == rest;
  }

  /** Reading what was written gives the same packets in the same order; and when
      the connection breaks anywhere, what is read is a beginning of them. */
  lemma {:induction false} ReadWhatWasWritten(payloads: seq<Bytes>, maximum: nat, cut: nat)
    requires maximum < 0x1_0000_0000 && AllFit(payloads, maximum) && cut <= |Packets(payloads, maximum)|
    ensures ReadAll(Packets(payloads, maximum), maximum) == payloads
    ensures ReadAll(Packets(payloads, maximum)[..cut], maximum) <= payloads
    decreases |payloads|
  {
    if |payloads| > 0 {
      var first, rest := Packet(payloads[0]), Packets(payloads[1..], maximum);
      var stream := first + rest;
      ReadWritten(payloads[0], rest, maximum);
      ReadWhatWasWritten(payloads[1..], maximum, if cut >= |first| then cut - |first| else 0);
      assert payloads == [payloads[0]] + payloads[1..];
      if cut >= |first| {
        assert stream[..cut] == first + rest[..cut - |first|];
        ReadWritten(payloads[0], rest[..cut - |first|], maximum);
      } else {
        ReadCut(payloads[0], stream[..cut], maximum);
      }
    }
  }

  lemma {:induction false} ReadCut(payload: Bytes, stream: Bytes, maximum: nat)
    requires Fits(payload, maximum) && maximum < 0x1_0000_0000
    requires stream <= Packet(payload) && |stream| < |Packet(payload)|
    ensures ReadAll(stream, maximum) == []
  {
    Value32OfBigEndian(|payload|);
    if |stream| >= 4 { assert stream[..4] == Packet(payload)[..4] == BigEndian32(|payload|); }
  }

  // ------------------------------------------------------------- writing and reading

  method WritePacket(writer: Destination<Byte>, payload: Bytes, maximum: nat) returns (ok: bool)
    requires maximum < 0x1_0000_0000
    modifies writer
    ensures old(writer.received) <= writer.received
    ensures !Fits(payload, maximum) ==> !ok && writer.received == old(writer.received)
    ensures Fits(payload, maximum) ==> writer.received <= old(writer.received) + Packet(payload)
    ensures ok ==> writer.received == old(writer.received) + Packet(payload)
    ensures Fits(payload, maximum) && Reliable(old(writer.script)) ==> ok
    ensures Reliable(old(writer.script)) ==> Reliable(writer.script)
  {
    if |payload| == 0 || |payload| > maximum {
      return false;
    }
    ghost var done: nat;
    var size := BigEndian32(|payload|);
    ok, done := WriteAll(writer, size);
    if !ok {
      assert size[..done] <= Packet(payload);
      return;
    }
    ok, done := WriteAll(writer, payload);
    assert writer.received == old(writer.received) + (size + payload[..done]);
  }

  class Reader {
    var stream: Bytes

    constructor (stream: Bytes)
      ensures this.stream == stream
    {
      this.stream := stream;
    }

    /** io.ReadFull: n bytes, or what is left of them and an error. */
    method ReadFull(n: nat) returns (ok: bool, bytes: Bytes)
      modifies this
      ensures ok == (|old(stream)| >= n)
      ensures ok ==> bytes == old(stream)[..n] && stream == old(stream)[n..]
      ensures !ok ==> stream == []
    {
      if |stream| < n {
        bytes, stream := stream, [];
        return false, bytes;
      }
      bytes, stream := stream[..n], stream[n..];
      return true, bytes;
    }

    method ReadPacket(maximum: nat) returns (payload: Option<Bytes>)
      modifies this
      ensures (payload, stream) == ReadOne(old(stream), maximum)
    {
      var ok, size := ReadFull(4);
      if !ok {
        return None;
      }
      var length := Value32(size);
      if length == 0 || length > maximum {
        return None;
      }
      var bytes;
      ok, bytes := ReadFull(length);
      if !ok {
        return None;
      }
      assert old(stream)[4..][..length] == old(stream)[4..4 + length];
      assert old(stream)[4..][length..] == old(stream)[4 + length..];
      return Some(bytes);
    }
  }

  // ---------------------------------------------------------------------- frames

  datatype Kind = Stdout | Stderr | Result | Error

  /** Numbers that fit an int64, as Go prints them. */
  type Int64 = n: int | -0x8000_0000_0000_0000 <= n < 0x8000_0000_0000_0000

  datatype Frame = Frame(kind: Kind, data: Bytes, exitCode: Int64, durationMillis: Int64, error: Bytes)

  function Ascii(s: string): (bytes: Bytes)
    ensures |bytes| == |s|
  {
    seq(|s|, i requires 0 <= i < |s| => s[i] as int % 256)
  }

  function Name(kind: Kind): string {
    match kind case Stdout => "stdout" case Stderr => "stderr" case Result => "result" case Error => "error"
  }

  function Letter64(v: nat): Byte
    requires v < 64
  {
    if v < 26 then 65 + v else if v < 52 then 71 + v else if v < 62 then v - 4 else if v == 62 then 43 else 47
  }

  /** Standard base64 with padding, as encoding/json writes a byte slice. */
  function Base64(data: Bytes): (text: Bytes)
    ensures |text| == (|data| + 2) / 3 * 4
    decreases |data|
  {
    if |data| == 0 then []
    else
      var a := data[0];
      var b: nat := if |data| > 1 then data[1] else 0;
      var c: nat := if |data| > 2 then data[2] else 0;
      var head := [Letter64(a / 4), Letter64(a % 4 * 16 + b / 16)];
      if |data| == 1 then head + [61, 61]
      else if |data| == 2 then head + [Letter64(b % 16 * 4), 61]
      else head + [Letter64(b % 16 * 4 + c / 64), Letter64(c % 64)] + Base64(data[3..])
  }

  function Decimal(n: nat): Bytes
    decreases n
  {
    if n < 10 then [48 + n] else Decimal(n / 10) + [48 + n % 10]
  }

  function Number(n: int): Bytes { if n < 0 then [45] + Decimal(-n) else Decimal(n) }

  /** A byte of an ASCII character inside a JSON string. */
  function EscapeAscii(b: Byte): Bytes {
    if b == 34 || b == 92 then [92, b]
    else if b == 8 then Ascii("\\b") else if b == 12 then Ascii("\\f") else if b == 10 then Ascii("\\n")
    else if b == 13 then Ascii("\\r") else if b == 9 then Ascii("\\t")
    else if b < 32 || b == 60 || b == 62 || b == 38 then
      Ascii("\\u00") + [Hex(b / 16), Hex(b % 16)]
    else [b]
  }

  function Hex(v: nat): Byte
    requires v < 16
  {
    if v < 10 then 48 + v else 87 + v
  }

  /** Characters are copied or escaped; a byte of no character becomes U+FFFD. */
  function Escape(s: Bytes): Bytes
    decreases |s|
  {
    if |s| == 0 then []
    else
      var n := CharLength(s);
      if n == 0 then Ascii("\\ufffd") + Escape(s[1..])
      else if n == 1 then EscapeAscii(s[0]) + Escape(s[1..])
      else if n == 3 && s[0] == 0xE2 && s[1] == 0x80 && (s[2] == 0xA8 || s[2] == 0xA9) then
        Ascii("\\u202") + [Hex(s[2] - 0xA0)] + Escape(s[3..])
      else s[..n] + Escape(s[n..])
  }

  /** The JSON text of a frame; empty and zero fields are left out. */
  function FrameText(f: Frame): Bytes {
    Ascii("{\"type\":\"") + Ascii(Name(f.kind)) + Ascii("\"")
    + (if |f.data| == 0 then [] else Ascii(",\"data\":\"") + Base64(f.data) + Ascii("\""))
    + (if f.exitCode == 0 then [] else Ascii(",\"exitCode\":") + Number(f.exitCode))
    + (if f.durationMillis == 0 then [] else Ascii(",\"durationMillis\":") + Number(f.durationMillis))
    + (if |f.error| == 0 then [] else Ascii(",\"error\":\"") + Escape(f.error) + Ascii("\""))
    + Ascii("}")
  }

  function Pow10(k: nat): nat { if k == 0 then 1 else 10 * Pow10(k - 1) }

  lemma {:induction false} DecimalLength(n: nat, k: nat)
    requires k > 0 && n < Pow10(k)
    ensures |Decimal(n)| <= k
    decreases k
  {
    if n >= 10 { DecimalLength(n / 10, k - 1); }
  }

  lemma {:induction false} NumberLength(n: Int64)
    ensures |Number(n)| <= 20
  {
    assert Pow10(2) == 100;
    assert Pow10(4) == 10_000;
    assert Pow10(6) == 1_000_000;
    assert Pow10(8) == 100_000_000;
    assert Pow10(10) == 10_000_000_000;
    assert Pow10(12) == 1_000_000_000_000;
    assert Pow10(14) == 100_000_000_000_000;
    assert Pow10(16) == 10_000_000_000_000_000;
    assert Pow10(18) == 1_000_000_000_000_000_000;
    var magnitude: int := n;
    DecimalLength(if magnitude < 0 then -magnitude else magnitude, 19);
  }

  /** Escaping makes a text at most six times as long. */
  lemma {:induction false} EscapeLength(s: Bytes)
    ensures |Escape(s)| <= 6 * |s|
    decreases |s|
  {
    if |s| > 0 {
      var n := CharLength(s);
      EscapeLength(s[1..]);
      if n > 0 { EscapeLength(s[n..]); }
      if n == 3 { assert s[n..] == s[3..]; }
    }
  }

  function TruncateProtocolError(value: Bytes): (r: Bytes)
    ensures |r| <= MAX_ERROR && r <= value
  {
    if |value| <= MAX_ERROR then value else value[..MAX_ERROR]
  }

  /** Every frame the executor sends fits: output frames carry a chunk of at most
      32 KiB, terminal ones an error cut to 4096 bytes, whatever bytes it holds. */
  lemma {:induction false} EveryFrameFits(kind: Kind, data: Bytes, exitCode: Int64, duration: Int64, error: Bytes)
    requires |data| <= MAX_CHUNK
    ensures Fits(FrameText(Frame(kind, data, 0, 0, [])), MAX_FRAME)
    ensures Fits(FrameText(Frame(kind, [], exitCode, duration, TruncateProtocolError(error))), MAX_FRAME)
  {
    hide Base64, Escape, Number;
    NumberLength(exitCode);
    NumberLength(duration);
    EscapeLength(TruncateProtocolError(error));
    assert |Base64(data)| <= 43692;
  }

  // ------------------------------------------------------------------ output stream

  /** The output cut into chunks of 32 KiB. */
  function Chunks(value: Bytes): (chunks: seq<Bytes>)
    decreases |value|
  {
    if |value| == 0 then []
    else
      var end := if |value| < MAX_CHUNK then |value| else MAX_CHUNK;
      [value[..end]] + Chunks(value[end..])
  }

  function Concat(chunks: seq<Bytes>): Bytes {
    if |chunks| == 0 then [] else chunks[0] + Concat(chunks[1..])
  }

  /** No chunk is empty or too long, and together they are the output. */
  lemma {:induction false} ChunksReassemble(value: Bytes)
    ensures Concat(Chunks(value)) == value
    ensures forall i :: 0 <= i < |Chunks(value)| ==> 0 < |Chunks(value)[i]| <= MAX_CHUNK
    decreases |value|
  {
    if |value| > 0 {
      var end := if |value| < MAX_CHUNK then |value| else MAX_CHUNK;
      ChunksReassemble(value[end..]);
      var chunks := Chunks(value);
      assert chunks == [value[..end]] + Chunks(value[end..]) && chunks[1..] == Chunks(value[end..]);
      assert value == value[..end] + value[end..];
    }
  }

  function OutputFrames(kind: Kind, chunks: seq<Bytes>): seq<Bytes> {
    seq(|chunks|, i requires 0 <= i < |chunks| => FrameText(Frame(kind, chunks[i], 0, 0, [])))
  }

  lemma {:induction false} OutputFramesFit(kind: Kind, chunks: seq<Bytes>)
    requires forall i :: 0 <= i < |chunks| ==> |chunks[i]| <= MAX_CHUNK
    ensures AllFit(OutputFrames(kind, chunks), MAX_FRAME)
  {
    hide FrameText;
    forall i | 0 <= i < |chunks| ensures Fits(OutputFrames(kind, chunks)[i], MAX_FRAME) {
      EveryFrameFits(kind, chunks[i], 0, 0, []);
    }
  }

  class FrameWriter {
    const connection: Destination<Byte>
    var failed: bool

    constructor (connection: Destination<Byte>)
      ensures this.connection == connection && !failed
    {
      this.connection, failed := connection, false;
    }

    /** After the first error nothing more is written. */
    method WriteFrame(frame: Frame) returns (ok: bool)
      modifies this, connection
      ensures ok == !failed
      ensures old(failed) ==> !ok && connection.received == old(connection.received)
      ensures old(connection.received) <= connection.received
      ensures Fits(FrameText(frame), MAX_FRAME) ==>
              connection.received <= old(connection.received) + Packet(FrameText(frame))
      ensures ok ==> Fits(FrameText(frame), MAX_FRAME)
      ensures ok ==> connection.received == old(connection.received) + Packet(FrameText(frame))
      ensures !old(failed) && Fits(FrameText(frame), MAX_FRAME) && Reliable(old(connection.script)) ==> ok
      ensures Reliable(old(connection.script)) ==> Reliable(connection.script)
    {
      hide FrameText;
      if failed {
        return false;
      }
      ok := WritePacket(connection, FrameText(frame), MAX_FRAME);
      failed := !ok;
    }
  }

  /** One Write of a command's output. A reliable connection takes all of it, as
      the packets of its chunks. */
  method WriteStream(writer: FrameWriter, kind: Kind, value: Bytes) returns (written: nat, ok: bool)
    modifies writer, writer.connection
    ensures written <= |value| && (ok ==> written == |value|)
    ensures AllFit(OutputFrames(kind, Chunks(value)), MAX_FRAME)
    ensures ok ==>
              writer.connection.received ==
              old(writer.connection.received) + Packets(OutputFrames(kind, Chunks(value)), MAX_FRAME)
    ensures !old(writer.failed) && Reliable(old(writer.connection.script)) ==> ok
  {
    hide FrameText, Packets, Packet, Fits, Chunks, OutputFrames;
    ChunksReassemble(value);
    OutputFramesFit(kind, Chunks(value));
    ghost var all := OutputFrames(kind, Chunks(value));
    ghost var sent: nat := 0;
    var offset := 0;
    assert all[0..] == all && value[0..] == value;
    while offset < |value|
      invariant 0 <= offset <= |value| && sent <= |all|
      invariant OutputFrames(kind, Chunks(value[offset..])) == all[sent..] && AllFit(all[sent..], MAX_FRAME)
      invariant writer.connection.received + Packets(all[sent..], MAX_FRAME) ==
                old(writer.connection.received) + Packets(all, MAX_FRAME)
      invariant !old(writer.failed) && Reliable(old(writer.connection.script)) ==>
                !writer.failed && Reliable(writer.connection.script)
    {
      var end := if offset + MAX_CHUNK < |value| then offset + MAX_CHUNK else |value|;
      NextChunk(kind, value, offset, end);
      var frame := Frame(kind, value[offset..end], 0, 0, []);
      EveryFrameFits(kind, value[offset..end], 0, 0, []);
      assert all[sent..][0] == FrameText(frame) && all[sent..][1..] == all[sent + 1..];
      PacketsNext(all, sent, MAX_FRAME);
      ok := writer.WriteFrame(frame);
      if !ok {
        return offset, false;
      }
      sent := sent + 1;
      offset := end;
    }
    assert value[offset..] == [];
    NothingLeft(kind, MAX_FRAME);
    return |value|, true;
  }

  lemma {:induction false} PacketsNext(payloads: seq<Bytes>, i: nat, maximum: nat)
    requires maximum < 0x1_0000_0000 && i < |payloads| && AllFit(payloads[i..], maximum)
    ensures Fits(payloads[i], maximum) && AllFit(payloads[i + 1..], maximum)
    ensures Packets(payloads[i..], maximum) == Packet(payloads[i]) + Packets(payloads[i + 1..], maximum)
  {
    assert payloads[i..][1..] == payloads[i + 1..] && payloads[i..][0] == payloads[i];
  }

  lemma {:induction false} NothingLeft(kind: Kind, maximum: nat)
    requires maximum < 0x1_0000_0000
    ensures OutputFrames(kind, Chunks([])) == [] && Packets([], maximum) == []
  {
  }

  lemma {:induction false} FramesCons(kind: Kind, first: Bytes, chunks: seq<Bytes>)
    ensures OutputFrames(kind, [first] + chunks) ==
            [FrameText(Frame(kind, first, 0, 0, []))] + OutputFrames(kind, chunks)
  {
    hide FrameText;
  }

  lemma {:induction false} NextChunk(kind: Kind, value: Bytes, offset: nat, end: nat)
    requires offset < |value| && end == if offset + MAX_CHUNK < |value| then offset + MAX_CHUNK else |value|
    ensures
      var frames := OutputFrames(kind, Chunks(value[offset..]));
      && |frames| > 0 && frames[0] == FrameText(Frame(kind, value[offset..end], 0, 0, []))
      && frames[1..] == OutputFrames(kind, Chunks(value[end..]))
  {
    hide FrameText, OutputFrames;
    var rest := value[offset..];
    assert rest[..end - offset] == value[offset..end] && rest[end - offset..] == value[end..];
    FramesCons(kind, value[offset..end], Chunks(value[end..]));
  }
}
