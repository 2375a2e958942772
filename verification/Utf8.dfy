/** Well-formed UTF-8 as section 4 of RFC 3629 writes it down, and the cut that
    never splits a character. */
module Utf8 {

  type Byte = b: int | 0 <= b < 256

  type Bytes = seq<Byte>

  predicate Tail(b: Byte) { 0x80 <= b <= 0xBF }

  /** utf8.RuneStart: not a continuation byte. */
  predicate RuneStart(b: Byte) { !Tail(b) }

  /** Length of the character at the front, or 0 when there is none. */
  function CharLength(s: Bytes): (n: nat)
    ensures n <= |s| && n <= 4
    ensures n > 0 ==> RuneStart(s[0]) && forall i :: 0 < i < n ==> Tail(s[i])
  {
    if |s| == 0 then 0
    else
      var b := s[0];
      if b <= 0x7F then 1
      else if |s| < 2 || !Tail(s[1]) then 0
      else if 0xC2 <= b <= 0xDF then 2
      else if |s| < 3 || !Tail(s[2]) then 0
      else if (b == 0xE0 && s[1] >= 0xA0) || 0xE1 <= b <= 0xEC || (b == 0xED && s[1] <= 0x9F) || 0xEE <= b <= 0xEF then
        3
      else if |s| < 4 || !Tail(s[3]) then 0
      else if (b == 0xF0 && s[1] >= 0x90) || 0xF1 <= b <= 0xF3 || (b == 0xF4 && s[1] <= 0x8F) then 4
      else 0
  }

  predicate Valid(s: Bytes)
    decreases |s|
  {
    |s| == 0 || (CharLength(s) > 0 && Valid(s[CharLength(s)..]))
  }

  lemma {:induction false} CharLengthPrefix(s: Bytes, p: nat)
    requires p <= |s| && CharLength(s) > 0
    ensures CharLength(s[..p]) == if p < CharLength(s) then 0 else CharLength(s)
  {
  }

  /** In valid text the valid prefixes are those that end before a character. */
  lemma {:induction false} ValidPrefix(s: Bytes, p: nat)
    requires Valid(s) && p < |s|
    ensures Valid(s[..p]) <==> RuneStart(s[p])
    decreases |s|
  {
    var n := CharLength(s);
    if p > 0 {
      CharLengthPrefix(s, p);
      if p >= n {
        assert s[..p][n..] == s[n..][..p - n];
        if n < |s| && p - n < |s[n..]| { ValidPrefix(s[n..], p - n); }
      }
    }
  }

  /** A character starts at most three bytes back. */
  lemma {:induction false} StartNearby(s: Bytes, p: nat) returns (q: nat)
    requires Valid(s) && p < |s|
    ensures q <= p < q + 4 && RuneStart(s[q])
    ensures forall k :: q < k <= p ==> Tail(s[k])
    decreases |s|
  {
    var n := CharLength(s);
    if p < n {
      q := 0;
    } else {
      var r := StartNearby(s[n..], p - n);
      q := n + r;
      forall k | q < k <= p ensures Tail(s[k]) { assert s[k] == s[n..][k - n]; }
    }
  }

  /** The position the cut ends at: back to where a character starts, by three
      bytes at most since the payload may be anything. */
  function Back(payload: Bytes, cut: nat, step: nat): (r: nat)
    requires cut < |payload|
    ensures r <= cut
    decreases cut
  {
    if step < 3 && cut > 0 && !RuneStart(payload[cut]) then Back(payload, cut - 1, step + 1) else cut
  }

  function Trimmed(payload: Bytes, allowed: nat): (kept: Bytes)
    ensures |kept| <= allowed && kept <= payload
  {
    if allowed >= |payload| then payload else payload[..Back(payload, allowed, 0)]
  }

  lemma {:induction false} BackStops(payload: Bytes, cut: nat, step: nat, start: nat)
    requires start <= cut < |payload| && step <= 3 && RuneStart(payload[start])
    requires forall k :: start < k <= cut ==> Tail(payload[k])
    ensures Back(payload, cut, step) == if cut - start <= 3 - step then start else cut - (3 - step)
    decreases cut
  {
    if step < 3 && cut > start { BackStops(payload, cut - 1, step + 1, start); }
  }

  lemma {:induction false} BackBounded(payload: Bytes, cut: nat, step: nat)
    requires cut < |payload| && step <= 3
    ensures Back(payload, cut, step) + (3 - step) >= cut
    decreases cut
  {
    if step < 3 && cut > 0 && !RuneStart(payload[cut]) { BackBounded(payload, cut - 1, step + 1); }
  }

  /** The cut gives up at most three bytes of what was allowed; of valid text it
      keeps the longest valid beginning that fits. */
  lemma {:induction false} TrimmedIsLongestValid(payload: Bytes, allowed: nat)
    ensures |Trimmed(payload, allowed)| + 3 >= if allowed < |payload| then allowed else |payload|
    ensures Valid(payload) ==> Valid(Trimmed(payload, allowed))
    ensures Valid(payload) ==>
            forall p :: |Trimmed(payload, allowed)| < p <= allowed && p <= |payload| ==> !Valid(payload[..p])
  {
    if allowed < |payload| {
      BackBounded(payload, allowed, 0);
      if Valid(payload) {
        var start := StartNearby(payload, allowed);
        BackStops(payload, allowed, 0, start);
        ValidPrefix(payload, start);
        forall p | start < p <= allowed ensures !Valid(payload[..p]) { ValidPrefix(payload, p); }
      }
    }
  }

  method TrimToRuneBoundary(payload: Bytes, allowed: nat) returns (kept: Bytes)
    ensures kept == Trimmed(payload, allowed)
  {
    if allowed >= |payload| {
      return payload;
    }
    var cut: nat, step := allowed, 0;
    while step < 3 && cut > 0 && !RuneStart(payload[cut])
      invariant 0 <= step <= 3 && cut <= allowed
      invariant Back(payload, allowed, 0) == Back(payload, cut, step)
    {
      cut := cut - 1;
      step := step + 1;
    }
    return payload[..cut];
  }

  /** The bytes of a character. */
  function EncodeChar(c: char): Bytes {
    var v := c as int;
    if v <= 0x7F then [v]
    else if v <= 0x7FF then [0xC0 + v / 64, 0x80 + v % 64]
    else if v <= 0xFFFF then [0xE0 + v / 4096, 0x80 + v / 64 % 64, 0x80 + v % 64]
    else [0xF0 + v / 262144, 0x80 + v / 4096 % 64, 0x80 + v / 64 % 64, 0x80 + v % 64]
  }

  function Encode(text: string): Bytes {
    if |text| == 0 then [] else EncodeChar(text[0]) + Encode(text[1..])
  }

  /** Three bytes: no overlong form, no surrogate. */
  lemma {:induction false} ThreeBytes(v: int)
    requires 0x7FF < v <= 0xFFFF && (v < 0xD800 || 0xE000 <= v)
    ensures
      var (a, b) := (0xE0 + v / 4096, 0x80 + v / 64 % 64);
      && (a == 0xE0 ==> b >= 0xA0) && (a == 0xED ==> b <= 0x9F) && 0xE0 <= a <= 0xEF && 0x80 <= b <= 0xBF
  {
    assert v / 64 == v / 4096 * 64 + v / 64 % 64;
  }

  /** Four bytes: no overlong form, nothing above U+10FFFF. */
  lemma {:induction false} FourBytes(v: int)
    requires 0xFFFF < v < 0x110000
    ensures
      var (a, b) := (0xF0 + v / 262144, 0x80 + v / 4096 % 64);
      && (a == 0xF0 ==> b >= 0x90) && (a == 0xF4 ==> b <= 0x8F) && 0xF0 <= a <= 0xF4 && 0x80 <= b <= 0xBF
  {
    assert v / 4096 == v / 262144 * 64 + v / 4096 % 64;
  }

  lemma {:induction false} EncodeCharIsOne(c: char, rest: Bytes)
    ensures CharLength(EncodeChar(c) + rest) == |EncodeChar(c)| > 0
  {
    var v := c as int;
    assert v < 0xD800 || 0xE000 <= v < 0x110000;
    var s := EncodeChar(c) + rest;
    if v <= 0x7FF {
    } else if v <= 0xFFFF {
      ThreeBytes(v);
      assert s[0] == 0xE0 + v / 4096 && s[1] == 0x80 + v / 64 % 64 && Tail(s[2]);
    } else {
      FourBytes(v);
      assert s[0] == 0xF0 + v / 262144 && s[1] == 0x80 + v / 4096 % 64 && Tail(s[2]) && Tail(s[3]);
    }
  }

  /** Text is written as valid UTF-8. */
  lemma {:induction false} EncodedTextIsValid(text: string)
    ensures Valid(Encode(text))
  {
    if |text| > 0 {
      var head, tail := EncodeChar(text[0]), Encode(text[1..]);
      EncodeCharIsOne(text[0], tail);
      assert (head + tail)[|head|..] == tail;
      EncodedTextIsValid(text[1..]);
    }
  }
}
