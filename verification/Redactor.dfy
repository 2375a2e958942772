/** The streaming secret redactor: whatever the chunks, what reaches the
    destination is the leftmost non-overlapping replacement of the secret in the
    whole input. Bytes are written as characters. */
module Redactor {
  import opened Common
  import opened Output

  const MARKER := "[REDACTED TARGET CREDENTIAL]"

  // ------------------------------------------------------------ one-shot meaning

  predicate Occurs(s: string, secret: string, k: nat) {
    k + |secret| <= |s| && s[k..k + |secret|] == secret
  }

  /** Position of the leftmost occurrence at or after `from`. */
  function FindFrom(s: string, secret: string, from: nat): (r: Option<nat>)
    requires from <= |s|
    ensures r.Some? ==>
              && from <= r.value && Occurs(s, secret, r.value)
              && forall k :: from <= k < r.value ==> !Occurs(s, secret, k)
    ensures r.None? ==> forall k: nat :: from <= k ==> !Occurs(s, secret, k)
    decreases |s| - from
  {
    if Occurs(s, secret, from) then Some(from)
    else if from == |s| then None
    else FindFrom(s, secret, from + 1)
  }

  function Find(s: string, secret: string): (r: Option<nat>)
    ensures r.Some? ==> Occurs(s, secret, r.value) && forall k: nat :: k < r.value ==> !Occurs(s, secret, k)
    ensures r.None? ==> forall k: nat :: !Occurs(s, secret, k)
  {
    FindFrom(s, secret, 0)
  }

  /** The text between the matches of a left-to-right scan. */
  function Gaps(s: string, secret: string): (gaps: seq<string>)
    requires |secret| > 0
    ensures |gaps| > 0
    decreases |s|
  {
    var hit := Find(s, secret);
    if hit.None? then [s] else [s[..hit.value]] + Gaps(s[hit.value + |secret|..], secret)
  }

  function Join(parts: seq<string>, separator: string): string {
    if |parts| == 0 then "" else if |parts| == 1 then parts[0] else parts[0] + separator + Join(parts[1..], separator)
  }

  function Replaced(s: string, secret: string): string
    requires |secret| > 0
  {
    Join(Gaps(s, secret), MARKER)
  }

  /** The gaps are the input cut at its secrets: putting the secret back gives
      the input, and no gap holds a secret. */
  lemma {:induction false} GapsAreTheInput(s: string, secret: string)
    requires |secret| > 0
    ensures Join(Gaps(s, secret), secret) == s
    ensures forall i, k: nat :: 0 <= i < |Gaps(s, secret)| ==> !Occurs(Gaps(s, secret)[i], secret, k)
    decreases |s|
  {
    hide Find, Occurs;
    var hit := Find(s, secret);
    if hit.Some? {
      FindInside(s, secret);
      var first, rest := s[..hit.value], s[hit.value + |secret|..];
      var gaps, tail := Gaps(s, secret), Gaps(rest, secret);
      assert gaps == [first] + tail && gaps[1..] == tail;
      GapsAreTheInput(rest, secret);
      assert s == first + secret + rest by { HitSplits(s, secret); }
      forall i, k: nat | 0 <= i < |gaps| ensures !Occurs(gaps[i], secret, k) {
        if i > 0 { assert gaps[i] == tail[i - 1]; } else { BeforeHit(s, secret, k); }
      }
    }
  }

  lemma {:induction false} HitSplits(s: string, secret: string)
    requires Find(s, secret).Some?
    ensures Find(s, secret).value + |secret| <= |s|
    ensures s == s[..Find(s, secret).value] + secret + s[Find(s, secret).value + |secret|..]
  {
  }

  lemma {:induction false} PrefixOccurs(s: string, secret: string, n: nat, k: nat)
    requires n <= |s| && Occurs(s[..n], secret, k)
    ensures Occurs(s, secret, k)
  {
    assert s[..n][k..k + |secret|] == s[k..k + |secret|];
  }

  lemma {:induction false} BeforeHit(s: string, secret: string, k: nat)
    requires Find(s, secret).Some? && Find(s, secret).value <= |s| && |secret| > 0
    ensures !Occurs(s[..Find(s, secret).value], secret, k)
  {
    hide Find;
    if Occurs(s[..Find(s, secret).value], secret, k) { PrefixOccurs(s, secret, Find(s, secret).value, k); }
  }

  /** Each cut is the leftmost one: joined with the secret that follows it, a gap
      holds no earlier occurrence. */
  lemma {:induction false} CutsAreLeftmost(s: string, secret: string, i: nat, k: nat)
    requires |secret| > 0 && i + 1 < |Gaps(s, secret)|
    ensures Occurs(Gaps(s, secret)[i] + secret, secret, k) ==> k == |Gaps(s, secret)[i]|
    decreases |s|
  {
    var hit := Find(s, secret).value;
    if i == 0 {
      var cut := s[..hit] + secret;
      assert cut == s[..hit + |secret|];
      if Occurs(cut, secret, k) { assert cut[k..k + |secret|] == s[k..k + |secret|]; assert Occurs(s, secret, k); }
    } else {
      var rest := s[hit + |secret|..];
      assert Gaps(s, secret)[i] == Gaps(rest, secret)[i - 1];
      CutsAreLeftmost(rest, secret, i - 1, k);
    }
  }

  /** These three facts leave no choice: any other way to cut the input at
      leftmost secrets is the same way. */
  lemma {:induction false} GapsAreUnique(s: string, secret: string, cut: seq<string>)
    requires |secret| > 0 && |cut| > 0 && Join(cut, secret) == s
    requires forall i, k: nat :: 0 <= i < |cut| - 1 && Occurs(cut[i] + secret, secret, k) ==> k == |cut[i]|
    requires Find(cut[|cut| - 1], secret).None?
    ensures cut == Gaps(s, secret)
    decreases |cut|
  {
    hide Find, Occurs;
    if |cut| > 1 {
      var rest := Join(cut[1..], secret);
      assert s == cut[0] + secret + rest;
      FirstCut(cut[0], rest, secret);
      forall i, k: nat | 0 <= i < |cut[1..]| - 1 && Occurs(cut[1..][i] + secret, secret, k) ensures k == |cut[1..][i]| {
        assert cut[1..][i] == cut[i + 1];
      }
      GapsAreUnique(rest, secret, cut[1..]);
    }
  }

  lemma {:induction false} OccursEarly(gap: string, rest: string, secret: string, k: nat)
    requires k <= |gap| && Occurs(gap + secret + rest, secret, k)
    ensures Occurs(gap + secret, secret, k)
  {
    assert (gap + secret)[k..k + |secret|] == (gap + secret + rest)[k..k + |secret|];
  }

  /** A gap before a leftmost secret is what the scan finds first. */
  lemma {:induction false} FirstCut(gap: string, rest: string, secret: string)
    requires |secret| > 0 && forall k: nat :: Occurs(gap + secret, secret, k) ==> k == |gap|
    ensures
      var s := gap + secret + rest;
      Find(s, secret) == Some(|gap|) && s[..|gap|] == gap && s[|gap| + |secret|..] == rest
  {
    hide Find;
    var s, n := gap + secret + rest, |gap|;
    assert s[n..n + |secret|] == secret;
    forall k: nat | k < n ensures !Occurs(s, secret, k) {
      if Occurs(s, secret, k) { OccursEarly(gap, rest, secret, k); }
    }
    assert Occurs(s, secret, n);
  }

  // ------------------------------------------------------------ cutting the scan

  /** A match stays the leftmost match whatever follows. */
  lemma {:induction false} ReplaceHit(s: string, secret: string, i: nat, x: string)
    requires |secret| > 0 && i <= |s| && Find(s, secret) == Some(i)
    ensures Replaced(s + x, secret) == s[..i] + MARKER + Replaced(s[i + |secret|..] + x, secret)
  {
    var t := s + x;
    assert t[i..i + |secret|] == s[i..i + |secret|];
    forall k: nat | k < i ensures !Occurs(t, secret, k) {
      assert !Occurs(s, secret, k);
      assert t[k..k + |secret|] == s[k..k + |secret|];
    }
    assert Occurs(t, secret, i) && Find(t, secret) == Some(i);
    assert t[..i] == s[..i] && t[i + |secret|..] == s[i + |secret|..] + x;
    var gaps := Gaps(t, secret);
    assert gaps == [t[..i]] + Gaps(t[i + |secret|..], secret) && gaps[1..] == Gaps(t[i + |secret|..], secret);
  }

  lemma {:induction false} FindShifts(s: string, secret: string, k: nat)
    requires k <= |s| && forall i: nat :: i < k ==> !Occurs(s, secret, i)
    ensures Find(s, secret).Some? ==> k <= Find(s, secret).value
    ensures Find(s[k..], secret) == if Find(s, secret).None? then None else Some(Find(s, secret).value - k)
  {
    hide Find;
    var t := s[k..];
    forall i: nat ensures Occurs(t, secret, i) <==> Occurs(s, secret, k + i) {
      if i + |secret| <= |t| { assert t[i..i + |secret|] == s[k + i..k + i + |secret|]; }
    }
    if Find(s, secret).None? {
      forall i: nat ensures !Occurs(t, secret, i) { assert !Occurs(s, secret, k + i); }
    } else {
      var n := Find(s, secret).value - k;
      assert Occurs(t, secret, n);
      forall i: nat | i < n ensures !Occurs(t, secret, i) { assert !Occurs(s, secret, k + i); }
    }
  }

  lemma {:induction false} JoinGrows(prefix: string, parts: seq<string>, separator: string)
    requires |parts| > 0
    ensures Join([prefix + parts[0]] + parts[1..], separator) == prefix + Join(parts, separator)
  {
    var grown := [prefix + parts[0]] + parts[1..];
    assert grown[1..] == parts[1..];
  }

  /** Text before which no match starts passes unchanged. */
  lemma {:induction false} ReplaceSkip(s: string, secret: string, k: nat)
    requires |secret| > 0 && k <= |s| && forall i: nat :: i < k ==> !Occurs(s, secret, i)
    ensures Replaced(s, secret) == s[..k] + Replaced(s[k..], secret)
  {
    hide Find, Join, Occurs;
    var t, hit := s[k..], Find(s, secret);
    FindShifts(s, secret, k);
    if hit.None? {
      assert s == s[..k] + t;
      JoinGrows(s[..k], [t], MARKER);
      assert [s[..k] + [t][0]] + [t][1..] == [s];
    } else {
      FindInside(s, secret);
      var n := hit.value - k;
      assert s[..hit.value] == s[..k] + t[..n];
      assert s[hit.value + |secret|..] == t[n + |secret|..];
      JoinGrows(s[..k], Gaps(t, secret), MARKER);
    }
  }

  lemma {:induction false} FindInside(s: string, secret: string)
    requires Find(s, secret).Some?
    ensures Find(s, secret).value + |secret| <= |s|
  {
  }

  // ------------------------------------------------------------ the stream

  /** Whatever comes next, what is out plus the redacted rest is the redacted whole. */
  ghost predicate Continues(out: string, rest: string, whole: string, secret: string)
    requires |secret| > 0
  {
    forall x: string {:trigger Replaced(rest + x, secret)} {:trigger Replaced(whole + x, secret)} ::
      out + Replaced(rest + x, secret) == Replaced(whole + x, secret)
  }

  /** What is out is a beginning of the redacted whole, whatever comes next. */
  ghost predicate Begins(out: string, whole: string, secret: string)
    requires |secret| > 0
  {
    forall x: string {:trigger Replaced(whole + x, secret)} :: out <= Replaced(whole + x, secret)
  }

  lemma {:induction false} HitContinues(out: string, rest: string, whole: string, secret: string, i: nat)
    requires |secret| > 0 && Continues(out, rest, whole, secret) && i + |secret| <= |rest|
    requires Find(rest, secret) == Some(i)
    ensures Continues(out + rest[..i] + MARKER, rest[i + |secret|..], whole, secret)
    ensures forall part: string :: part <= rest[..i] + MARKER ==> Begins(out + part, whole, secret)
  {
    hide Replaced, Find;
    forall x: string
      ensures out + rest[..i] + MARKER + Replaced(rest[i + |secret|..] + x, secret) == Replaced(whole + x, secret)
    {
      ReplaceHit(rest, secret, i, x);
      assert out + Replaced(rest + x, secret) == Replaced(whole + x, secret);
    }
    forall part: string, x: string | part <= rest[..i] + MARKER ensures out + part <= Replaced(whole + x, secret) {
      assert out + rest[..i] + MARKER + Replaced(rest[i + |secret|..] + x, secret) == Replaced(whole + x, secret);
    }
  }

  lemma {:induction false} SkipContinues(out: string, rest: string, whole: string, secret: string, k: nat)
    requires |secret| > 0 && Continues(out, rest, whole, secret) && Find(rest, secret).None?
    requires k <= |rest| && (k == 0 || k + |secret| <= |rest| + 1)
    ensures Continues(out + rest[..k], rest[k..], whole, secret)
    ensures forall part: string :: part <= rest[..k] ==> Begins(out + part, whole, secret)
  {
    hide Replaced;
    forall x: string ensures out + rest[..k] + Replaced(rest[k..] + x, secret) == Replaced(whole + x, secret) {
      var t := rest + x;
      forall i: nat | i < k ensures !Occurs(t, secret, i) {
        assert t[i..i + |secret|] == rest[i..i + |secret|];
        assert !Occurs(rest, secret, i);
      }
      ReplaceSkip(t, secret, k);
      assert t[..k] == rest[..k] && t[k..] == rest[k..] + x;
      assert out + Replaced(rest + x, secret) == Replaced(whole + x, secret);
    }
    forall part: string, x: string | part <= rest[..k] ensures out + part <= Replaced(whole + x, secret) {
      assert out + rest[..k] + Replaced(rest[k..] + x, secret) == Replaced(whole + x, secret);
    }
  }

  lemma {:induction false} StartContinues(secret: string)
    requires |secret| > 0
    ensures Continues("", "", "", secret)
  {
  }

  lemma {:induction false} AppendContinues(out: string, rest: string, whole: string, secret: string, value: string)
    requires |secret| > 0 && Continues(out, rest, whole, secret)
    ensures Continues(out, rest + value, whole + value, secret)
  {
    hide Replaced;
    forall x: string ensures out + Replaced(rest + value + x, secret) == Replaced(whole + value + x, secret) {
      assert rest + (value + x) == rest + value + x && whole + (value + x) == whole + value + x;
      assert out + Replaced(rest + (value + x), secret) == Replaced(whole + (value + x), secret);
    }
  }

  lemma {:induction false} AppendBegins(out: string, whole: string, secret: string, value: string)
    requires |secret| > 0 && Begins(out, whole, secret)
    ensures Begins(out, whole + value, secret)
  {
    hide Replaced;
    forall x: string ensures out <= Replaced(whole + value + x, secret) {
      assert whole + (value + x) == whole + value + x;
      assert out <= Replaced(whole + (value + x), secret);
    }
  }

  lemma {:induction false} ContinuesBegins(out: string, rest: string, whole: string, secret: string)
    requires |secret| > 0 && Continues(out, rest, whole, secret)
    ensures Begins(out, whole, secret)
  {
    hide Replaced;
    forall x: string ensures out <= Replaced(whole + x, secret) {
      assert out + Replaced(rest + x, secret) == Replaced(whole + x, secret);
    }
  }

  lemma {:induction false} DrainedIsReplaced(out: string, whole: string, secret: string)
    requires |secret| > 0 && Continues(out, "", whole, secret)
    ensures out == Replaced(whole, secret)
  {
    assert out + Replaced("" + "", secret) == Replaced(whole + "", secret);
    assert whole + "" == whole && Gaps("", secret) == [""];
  }

  /** The writer in front of a destination. History: `key` is the secret it was
      made with, `before` what the destination had then, `whole` the input so far. */
  class SecretRedactor {
    const destination: Destination<char>
    ghost const key: string
    ghost const before: string
    ghost var whole: string
    ghost var open: bool
    var secret: string
    var pending: string
    var failed: bool

    constructor (destination: Destination<char>, secret: string)
      ensures Valid() && this.destination == destination && key == secret && open && !failed
      ensures whole == "" && before == destination.received
    {
      this.destination, this.secret, key, before := destination, secret, secret, destination.received;
      pending, failed, whole, open := "", false, "", true;
      new;
      if |secret| > 0 {
        StartContinues(secret);
        ContinuesBegins("", "", "", secret);
      }
    }

    /** What this writer has sent on. */
    ghost function Out(): string
      requires before <= destination.received
      reads this, destination
    {
      destination.received[|before|..]
    }

    ghost predicate Valid()
      reads this, destination
    {
      && before <= destination.received
      && (if open then secret == key else secret == "" && (!failed ==> pending == ""))
      && (key == "" ==> Out() == "" && (!failed ==> whole == "" && pending == ""))
      && (key != "" && open && !failed ==> |pending| < |key| && Continues(Out(), pending, whole, key))
      && (key != "" && open ==> Begins(Out(), whole, key))
      && (key != "" && !open ==> Out() <= Replaced(whole, key))
    }

    /** The text before a match, then the marker. */
    method SendMatch(gap: string) returns (ok: bool, ghost part: string)
      requires before <= destination.received
      modifies destination
      ensures old(destination.received) <= destination.received
      ensures part <= gap + MARKER && Out() == old(Out()) + part
      ensures ok ==> Out() == old(Out()) + gap + MARKER
      ensures Reliable(old(destination.script)) ==> ok && Reliable(destination.script)
    {
      hide Reliable;
      ghost var n: nat;
      ok, n := WriteAll(destination, gap);
      if !ok {
        return false, gap[..n];
      }
      ok, n := WriteAll(destination, MARKER);
      return ok, gap + MARKER[..n];
    }

    /** Sends on the text up to the last match; `cursor` is where it ends. */
    method SendMatches(limit: int, final: bool) returns (ok: bool, cursor: nat)
      requires before <= destination.received && secret == key && key != ""
      requires limit == if final then |pending| + 1 else |pending| - |secret| + 1
      requires Continues(Out(), pending, whole, key)
      modifies destination
      ensures old(destination.received) <= destination.received
      ensures ok ==>
                && cursor <= |pending| && Continues(Out(), pending[cursor..], whole, key)
                && Find(pending[cursor..], secret).None?
      ensures !ok ==> Begins(Out(), whole, key)
      ensures Reliable(old(destination.script)) ==> ok && Reliable(destination.script)
    {
      hide Continues, Begins, Find, Replaced, Reliable, Occurs, FindFrom;
      cursor := 0;
      assert pending[0..] == pending;
      while cursor < |pending|
        invariant cursor <= |pending|
        invariant before <= destination.received && old(destination.received) <= destination.received
        invariant Continues(Out(), pending[cursor..], whole, key)
        invariant Reliable(old(destination.script)) ==> Reliable(destination.script)
      {
        ghost var out, rest := Out(), pending[cursor..];
        var relative := Find(pending[cursor..], secret);
        if relative.None? {
          break;
        }
        FindInside(rest, secret);
        var index := cursor + relative.value;
        if !final && index >= limit {
          break;
        }
        HitContinues(out, rest, whole, secret, relative.value);
        assert pending[cursor..index] == rest[..relative.value];
        ghost var part;
        ok, part := SendMatch(pending[cursor..index]);
        if !ok {
          assert Begins(out + part, whole, key);
          return;
        }
        cursor := index + |secret|;
        assert pending[cursor..] == rest[relative.value + |secret|..];
      }
      if cursor == |pending| { FindNoneInShort(pending[cursor..], secret); }
      ok := true;
    }

    /** Sends on what can no longer be part of a secret: all of it at the end. */
    method Drain(final: bool) returns (ok: bool)
      requires before <= destination.received
      requires secret == "" || (secret == key && Continues(Out(), pending, whole, key))
      modifies this`pending, destination
      ensures old(destination.received) <= destination.received
      ensures secret == "" ==>
              destination.received == old(destination.received) && pending == old(pending) && ok == (pending == "")
      ensures secret != "" && ok && !final ==> |pending| < |key| && Continues(Out(), pending, whole, key)
      ensures secret != "" && ok && final ==> pending == "" && Out() == Replaced(whole, key)
      ensures secret != "" && !ok && !final ==> Begins(Out(), whole, key)
      ensures secret != "" && !ok && final ==> Out() <= Replaced(whole, key)
      ensures secret != "" && Reliable(old(destination.script)) ==> ok && Reliable(destination.script)
    {
      hide Continues, Begins, Find, Replaced, Reliable, Occurs, FindFrom;
      if |pending| == 0 {
        if secret != "" { DrainedIsReplaced(Out(), whole, key); }
        return true;
      }
      if |secret| == 0 {
        return false;
      }
      var limit := |pending| - |secret| + 1;
      if final {
        limit := |pending| + 1;
      } else if limit <= 0 {
        return true;
      }
      var cursor;
      ok, cursor := SendMatches(limit, final);
      if !ok {
        BeginsNow(Out(), whole, key);
        return;
      }
      ghost var out, rest := Out(), pending[cursor..];
      var flushThrough := |pending|;
      if !final {
        flushThrough := limit;
        if cursor > flushThrough {
          flushThrough := cursor;
        }
      }
      assert pending[cursor..flushThrough] == rest[..flushThrough - cursor];
      if !final {
        SkipContinues(out, rest, whole, secret, flushThrough - cursor);
      } else {
        LastPart(out, rest, whole, secret);
      }
      ghost var n: nat;
      ok, n := WriteAll(destination, pending[cursor..flushThrough]);
      assert Out() == out + rest[..flushThrough - cursor][..n];
      if !ok {
        assert !final ==> Begins(out + rest[..flushThrough - cursor][..n], whole, key);
        return;
      }
      assert Out() == out + rest[..flushThrough - cursor];
      assert pending[flushThrough..] == rest[flushThrough - cursor..];
      pending := pending[flushThrough..];
    }

    method Write(value: string) returns (ok: bool)
      requires Valid()
      modifies this, destination
      ensures Valid() && open == old(open) && ok == !failed
      ensures old(failed) ==> !ok && destination.received == old(destination.received)
      ensures whole == if old(failed) || !open then old(whole) else old(whole) + value
      ensures old(destination.received) <= destination.received
      ensures ok && open && key != "" ==> |pending| < |key|
      ensures !old(failed) && open && key != "" && Reliable(old(destination.script)) ==>
              ok && Reliable(destination.script)
    {
      hide Continues, Begins, Replaced;
      if failed {
        return false;
      }
      if open && key != "" {
        AppendContinues(Out(), pending, whole, key, value);
        AppendBegins(Out(), whole, key, value);
      }
      pending := pending + value;
      if open {
        whole := whole + value;
      }
      ok := Drain(false);
      if !ok {
        failed := true;
      } else if open && key != "" {
        ContinuesBegins(Out(), pending, whole, key);
      }
    }

    /** Sends on the rest and forgets the secret. */
    method Flush() returns (ok: bool)
      requires Valid()
      modifies this, destination
      ensures Valid() && !open && ok == !failed && whole == old(whole)
      ensures secret == "" && pending == ""
      ensures old(destination.received) <= destination.received
      ensures old(failed) ==> !ok && destination.received == old(destination.received)
      ensures ok && old(open) && key != "" ==> Out() == Replaced(whole, key)
      ensures !old(failed) && old(open) && key != "" && Reliable(old(destination.script)) ==> ok
    {
      hide Continues, Begins, Replaced;
      if !failed {
        ok := Drain(true);
        failed := !ok;
      } else if open && key != "" {
        BeginsNow(Out(), whole, key);
      }
      secret := "";
      pending := "";
      open := false;
      return !failed;
    }
  }

  lemma {:induction false} BeginsNow(out: string, whole: string, secret: string)
    requires |secret| > 0 && Begins(out, whole, secret)
    ensures out <= Replaced(whole, secret)
  {
    assert whole + "" == whole;
    assert out <= Replaced(whole + "", secret);
  }

  lemma {:induction false} FindNoneInShort(s: string, secret: string)
    requires |s| < |secret|
    ensures Find(s, secret).None?
  {
  }

  /** At the end, text without a match passes whole. */
  lemma {:induction false} LastPart(out: string, rest: string, whole: string, secret: string)
    requires |secret| > 0 && Continues(out, rest, whole, secret) && Find(rest, secret).None?
    ensures out + rest == Replaced(whole, secret)
  {
    assert rest + "" == rest && whole + "" == whole;
    assert out + Replaced(rest + "", secret) == Replaced(whole + "", secret);
  }

  // ------------------------------------------------------------ any chunking

  function Concat(chunks: seq<string>): string {
    if |chunks| == 0 then "" else Concat(chunks[..|chunks| - 1]) + chunks[|chunks| - 1]
  }

  /** All chunks and a flush, as the runner does with a command's output: what
      arrives is always a beginning of the redacted input, and all of it when
      every write succeeds, which it does on a reliable destination. */
  method RedactStream(destination: Destination<char>, secret: string, chunks: seq<string>) returns (ok: bool)
    requires |secret| > 0
    modifies destination
    ensures old(destination.received) <= destination.received
    ensures destination.received[|old(destination.received)|..] <= Replaced(Concat(chunks), secret)
    ensures ok ==> destination.received == old(destination.received) + Replaced(Concat(chunks), secret)
    ensures Reliable(old(destination.script)) ==> ok
  {
    hide Replaced, Continues, Begins;
    var w := new SecretRedactor(destination, secret);
    for i := 0 to |chunks|
      invariant w.Valid() && w.open && w.key == secret && w.destination == destination && fresh(w)
      invariant w.before == old(destination.received)
      invariant !w.failed ==> w.whole == Concat(chunks[..i])
      invariant Begins(w.Out(), Concat(chunks[..i]), secret)
      invariant Reliable(old(destination.script)) ==> !w.failed && Reliable(destination.script)
    {
      assert chunks[..i + 1][..i] == chunks[..i];
      AppendBegins(w.Out(), Concat(chunks[..i]), secret, chunks[i]);
      var written := w.Write(chunks[i]);
    }
    assert chunks[..|chunks|] == chunks;
    BeginsNow(w.Out(), Concat(chunks), secret);
    ok := w.Flush();
  }
}
