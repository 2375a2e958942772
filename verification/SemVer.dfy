/** Strict SemVer without build metadata: parsing, printing and precedence
    (backend/internal/server/presets.go). Numerals stay strings of any length. */
module SemVer {
  import opened Common
  import opened Text

  datatype Identifier = Identifier(value: string, numeric: bool)

  datatype Version = Version(major: string, minor: string, patch: string, prerelease: seq<Identifier>)

  // ---------------------------------------------------------------- grammar

  predicate Digit(c: char) { '0' <= c <= '9' }

  predicate IdentifierChar(c: char) {
    Digit(c) || 'a' <= c <= 'z' || 'A' <= c <= 'Z' || c == '-'
  }

  predicate Digits(s: string) { forall i :: 0 <= i < |s| ==> Digit(s[i]) }

  /** 0 or a numeral that does not start with 0. */
  predicate Numeral(s: string) {
    |s| > 0 && Digits(s) && (|s| > 1 ==> s[0] != '0')
  }

  predicate IdentifierText(s: string) {
    |s| > 0 && forall i :: 0 <= i < |s| ==> IdentifierChar(s[i])
  }

  predicate ValidIdentifier(id: Identifier) {
    && IdentifierText(id.value)
    && id.numeric == Digits(id.value)
    && (id.numeric ==> Numeral(id.value))
  }

  predicate ValidIdentifiers(ids: seq<Identifier>) {
    forall i :: 0 <= i < |ids| ==> ValidIdentifier(ids[i])
  }

  predicate ValidVersion(v: Version) {
    Numeral(v.major) && Numeral(v.minor) && Numeral(v.patch) && ValidIdentifiers(v.prerelease)
  }

  // ------------------------------------------------------- split and parse

  /** The identifiers of a pre-release, or None when one of them is not allowed. */
  function ParseIdentifiers(parts: seq<string>): (r: Option<seq<Identifier>>) {
    if |parts| == 0 then Some([])
    else if !IdentifierText(parts[0]) then None
    else if Digits(parts[0]) && !Numeral(parts[0]) then None
    else
      var rest := ParseIdentifiers(parts[1..]);
      if rest.None? then None
      else Some([Identifier(parts[0], Digits(parts[0]))] + rest.value)
  }

  /** The major.minor.patch part; the pre-release is left empty. */
  function ParseCore(s: string): (r: Option<Version>) {
    var core := Split(s, '.');
    if |core| != 3 || !Numeral(core[0]) || !Numeral(core[1]) || !Numeral(core[2]) then None
    else Some(Version(core[0], core[1], core[2], []))
  }

  function Parse(s: string): (r: Option<Version>) {
    var dash := IndexOf(s, '-');
    var core := ParseCore(s[..dash]);
    if core.None? || dash == |s| then core
    else
      var ids := ParseIdentifiers(Split(s[dash + 1..], '.'));
      if ids.None? then None
      else Some(core.value.(prerelease := ids.value))
  }

  function Texts(ids: seq<Identifier>): (parts: seq<string>)
    ensures |parts| == |ids|
    ensures forall i :: 0 <= i < |ids| ==> parts[i] == ids[i].value
  {
    seq(|ids|, i requires 0 <= i < |ids| => ids[i].value)
  }

  function PrintCore(v: Version): string {
    v.major + "." + v.minor + "." + v.patch
  }

  function Print(v: Version): string {
    if |v.prerelease| == 0 then PrintCore(v)
    else PrintCore(v) + ['-'] + Join(Texts(v.prerelease), '.')
  }

  lemma {:induction false} ParseIdentifiersTexts(ids: seq<Identifier>)
    requires ValidIdentifiers(ids)
    ensures ParseIdentifiers(Texts(ids)) == Some(ids)
  {
    if |ids| > 0 {
      assert Texts(ids)[1..] == Texts(ids[1..]);
      ParseIdentifiersTexts(ids[1..]);
      assert ids == [ids[0]] + ids[1..];
    }
  }

  lemma {:induction false} ParseIdentifiersSound(parts: seq<string>)
    requires ParseIdentifiers(parts).Some?
    ensures ValidIdentifiers(ParseIdentifiers(parts).value)
    ensures Texts(ParseIdentifiers(parts).value) == parts
  {
    if |parts| > 0 {
      ParseIdentifiersSound(parts[1..]);
      var ids, rest := ParseIdentifiers(parts).value, ParseIdentifiers(parts[1..]).value;
      assert ids == [ids[0]] + rest;
      assert forall i :: 1 <= i < |parts| ==> Texts(ids)[i] == Texts(rest)[i - 1] == parts[1..][i - 1];
    }
  }

  lemma JoinThree(a: string, b: string, c: string)
    ensures Join([a, b, c], '.') == a + "." + b + "." + c
  {
    assert [a, b, c][1..] == [b, c] && [b, c][1..] == [c];
    assert Join([b, c], '.') == b + "." + c;
    assert a + ['.'] + (b + "." + c) == a + "." + b + "." + c;
  }

  lemma ParsePrintCore(v: Version)
    requires ValidVersion(v)
    ensures ParseCore(PrintCore(v)) == Some(v.(prerelease := []))
    ensures '-' !in PrintCore(v)
  {
    JoinThree(v.major, v.minor, v.patch);
    assert '.' !in v.major && '.' !in v.minor && '.' !in v.patch;
    SplitJoin([v.major, v.minor, v.patch], '.');
  }

  lemma PrintParseCore(s: string)
    requires ParseCore(s).Some?
    ensures ValidVersion(ParseCore(s).value) && PrintCore(ParseCore(s).value) == s
  {
    JoinSplit(s, '.');
    var core := Split(s, '.');
    assert core == [core[0], core[1], core[2]];
    JoinThree(core[0], core[1], core[2]);
  }

  lemma ParsePrintIdentifiers(ids: seq<Identifier>)
    requires ValidIdentifiers(ids) && |ids| > 0
    ensures ParseIdentifiers(Split(Join(Texts(ids), '.'), '.')) == Some(ids)
  {
    var texts := Texts(ids);
    forall i | 0 <= i < |texts| ensures '.' !in texts[i] {
      assert ValidIdentifier(ids[i]);
    }
    SplitJoin(texts, '.');
    ParseIdentifiersTexts(ids);
  }

  lemma PrintParseIdentifiers(s: string)
    requires ParseIdentifiers(Split(s, '.')).Some?
    ensures
      var ids := ParseIdentifiers(Split(s, '.')).value;
      ValidIdentifiers(ids) && |ids| > 0 && Join(Texts(ids), '.') == s
  {
    ParseIdentifiersSound(Split(s, '.'));
    JoinSplit(s, '.');
  }

  /** Printing then parsing gives the version back: the parser accepts every
      text of the grammar and recovers all its parts. */
  lemma {:induction false} ParsePrint(v: Version)
    requires ValidVersion(v)
    ensures Parse(Print(v)) == Some(v)
  {
    var core := PrintCore(v);
    ParsePrintCore(v);
    if |v.prerelease| == 0 {
      assert IndexOf(core, '-') == |core| && core[..|core|] == core;
    } else {
      var tail := Join(Texts(v.prerelease), '.');
      IndexOfAppend(core, '-', tail);
      var s := core + ['-'] + tail;
      assert s[..|core|] == core && s[|core| + 1..] == tail;
      ParsePrintIdentifiers(v.prerelease);
    }
  }

  lemma CutAt(s: string, i: nat)
    requires i < |s|
    ensures s == s[..i] + [s[i]] + s[i + 1..]
  {
  }

  /** The parts a successful parse went through. */
  lemma {:induction false} ParsedParts(s: string, dash: nat)
    requires Parse(s).Some? && dash == IndexOf(s, '-')
    ensures ParseCore(s[..dash]).Some? && PrintCore(Parse(s).value) == PrintCore(ParseCore(s[..dash]).value)
    ensures ParseCore(s[..dash]).value.prerelease == []
    ensures dash == |s| ==> Parse(s) == ParseCore(s[..dash])
    ensures dash < |s| ==>
      ParseIdentifiers(Split(s[dash + 1..], '.')) == Some(Parse(s).value.prerelease)
    ensures ValidVersion(ParseCore(s[..dash]).value) && ValidIdentifiers(Parse(s).value.prerelease) ==>
      ValidVersion(Parse(s).value)
  {
  }

  /** The parser accepts nothing else: what it accepts is the printed form of a
      valid version. */
  lemma {:induction false} PrintParse(s: string)
    requires Parse(s).Some?
    ensures ValidVersion(Parse(s).value) && Print(Parse(s).value) == s
  {
    var dash := IndexOf(s, '-');
    var v := Parse(s).value;
    ParsedParts(s, dash);
    PrintParseCore(s[..dash]);
    if dash == |s| {
      assert s[..dash] == s;
    } else {
      PrintParseIdentifiers(s[dash + 1..]);
      CutAt(s, dash);
    }
  }

  // ------------------------------------------------------------- comparison

  /** Byte order of two texts: -1, 0 or 1. */
  function CompareText(a: string, b: string): (r: int)
    ensures -1 <= r <= 1
  {
    if |a| == 0 then (if |b| == 0 then 0 else -1)
    else if |b| == 0 then 1
    else if a[0] < b[0] then -1
    else if a[0] > b[0] then 1
    else CompareText(a[1..], b[1..])
  }

  /** Length first, then text. */
  function CompareNumeral(a: string, b: string): (r: int)
    ensures -1 <= r <= 1
  {
    if |a| < |b| then -1 else if |a| > |b| then 1 else CompareText(a, b)
  }

  function CompareIdentifier(a: Identifier, b: Identifier): (r: int)
    ensures -1 <= r <= 1
  {
    if a.numeric && b.numeric then CompareNumeral(a.value, b.value)
    else if a.numeric then -1
    else if b.numeric then 1
    else CompareText(a.value, b.value)
  }

  /** Identifiers from position i on; the shorter list is smaller when it is a prefix. */
  function CompareIdentifiers(a: seq<Identifier>, b: seq<Identifier>, i: nat): (r: int)
    requires i <= |a| && i <= |b|
    ensures -1 <= r <= 1
    decreases |a| - i
  {
    if i == |a| || i == |b| then (if |a| < |b| then -1 else if |a| > |b| then 1 else 0)
    else
      var c := CompareIdentifier(a[i], b[i]);
      if c != 0 then c else CompareIdentifiers(a, b, i + 1)
  }

  function ComparePrerelease(a: seq<Identifier>, b: seq<Identifier>): (r: int)
    ensures -1 <= r <= 1
  {
    if |a| == 0 || |b| == 0 then
      (if |a| == 0 && |b| == 0 then 0 else if |a| == 0 then 1 else -1)
    else CompareIdentifiers(a, b, 0)
  }

  function CompareVersions(a: Version, b: Version): (r: int)
    ensures -1 <= r <= 1
  {
    var major, minor, patch :=
      CompareNumeral(a.major, b.major), CompareNumeral(a.minor, b.minor), CompareNumeral(a.patch, b.patch);
    if major != 0 then major
    else if minor != 0 then minor
    else if patch != 0 then patch
    else ComparePrerelease(a.prerelease, b.prerelease)
  }

  /** None is the error for a text that is not an accepted version. */
  function Compare(a: string, b: string): Option<int> {
    var left, right := Parse(a), Parse(b);
    if left.None? || right.None? then None
    else Some(CompareVersions(left.value, right.value))
  }

  /** The comparison with its loops. */
  method CompareLoop(a: string, b: string) returns (r: Option<int>)
    ensures r == Compare(a, b)
  {
    var left, right := Parse(a), Parse(b);
    if left.None? || right.None? { return None; }
    var lefts := [left.value.major, left.value.minor, left.value.patch];
    var rights := [right.value.major, right.value.minor, right.value.patch];
    assert lefts[0] == left.value.major && lefts[1] == left.value.minor && lefts[2] == left.value.patch;
    assert rights[0] == right.value.major && rights[1] == right.value.minor && rights[2] == right.value.patch;
    for k := 0 to 3
      invariant k > 0 ==> CompareNumeral(lefts[0], rights[0]) == 0
      invariant k > 1 ==> CompareNumeral(lefts[1], rights[1]) == 0
      invariant k > 2 ==> CompareNumeral(lefts[2], rights[2]) == 0
    {
      var comparison := CompareNumeral(lefts[k], rights[k]);
      if comparison != 0 { return Some(comparison); }
    }
    var l, m := left.value.prerelease, right.value.prerelease;
    if |l| == 0 || |m| == 0 {
      return Some(if |l| == 0 && |m| == 0 then 0 else if |l| == 0 then 1 else -1);
    }
    var index := 0;
    while index < |l| && index < |m|
      invariant 0 <= index <= |l| && index <= |m|
      invariant CompareIdentifiers(l, m, 0) == CompareIdentifiers(l, m, index)
    {
      var comparison := CompareIdentifier(l[index], m[index]);
      if comparison != 0 { return Some(comparison); }
      index := index + 1;
    }
    r := Some(if |l| < |m| then -1 else if |l| > |m| then 1 else 0);
  }

  // ------------------------------------- numerals of any length as integers

  function Pow10(n: nat): (p: nat)
    ensures p > 0
  {
    if n == 0 then 1 else 10 * Pow10(n - 1)
  }

  function DigitValue(c: char): nat
    requires Digit(c)
  {
    c as int - '0' as int
  }

  /** The integer a numeral denotes. */
  function Value(s: string): (n: nat)
    requires Digits(s)
  {
    if |s| == 0 then 0 else DigitValue(s[0]) * Pow10(|s| - 1) + Value(s[1..])
  }

  lemma DigitTimes(d: nat, p: nat)
    requires d <= 9
    ensures d * p <= 9 * p
  {
  }

  lemma {:induction false} ValueBelow(s: string)
    requires Digits(s)
    ensures Value(s) < Pow10(|s|)
  {
    if |s| > 0 {
      ValueBelow(s[1..]);
      DigitTimes(DigitValue(s[0]), Pow10(|s| - 1));
    }
  }

  lemma {:induction false} Pow10Grows(a: nat, b: nat)
    requires a <= b
    ensures Pow10(a) <= Pow10(b)
  {
    if a < b { Pow10Grows(a, b - 1); }
  }

  lemma ValueAtLeast(s: string)
    requires Numeral(s) && |s| > 1
    ensures Value(s) >= Pow10(|s| - 1)
  {
    assert s[0] != '0' && Digit(s[0]);
    var p := Pow10(|s| - 1);
    assert DigitValue(s[0]) * p >= 1 * p;
  }

  /** A leading digit outweighs everything after it. */
  lemma LeadingDigitDecides(x: nat, y: nat, p: nat, u: nat, v: nat)
    requires u < p && v < p && x < y
    ensures x * p + u < y * p + v
  {
    assert (x + 1) * p <= y * p;
  }

  lemma {:induction false} CompareTextValue(a: string, b: string)
    requires Digits(a) && Digits(b) && |a| == |b|
    ensures CompareText(a, b) == Sign(Value(a) - Value(b))
  {
    if |a| > 0 {
      CompareTextValue(a[1..], b[1..]);
      ValueBelow(a[1..]);
      ValueBelow(b[1..]);
      var p := Pow10(|a| - 1);
      if a[0] < b[0] {
        LeadingDigitDecides(DigitValue(a[0]), DigitValue(b[0]), p, Value(a[1..]), Value(b[1..]));
      } else if b[0] < a[0] {
        LeadingDigitDecides(DigitValue(b[0]), DigitValue(a[0]), p, Value(b[1..]), Value(a[1..]));
      }
    }
  }

  function Sign(n: int): int { if n < 0 then -1 else if n > 0 then 1 else 0 }

  /** Length-then-text comparison of numerals is comparison of the integers
      they denote, whatever their length. */
  lemma CompareNumeralIsNumeric(a: string, b: string)
    requires Numeral(a) && Numeral(b)
    ensures CompareNumeral(a, b) == Sign(Value(a) - Value(b))
  {
    if |a| == |b| {
      CompareTextValue(a, b);
    } else {
      var (s, l) := if |a| < |b| then (a, b) else (b, a);
      ValueBelow(s);
      Pow10Grows(|s|, |l| - 1);
      ValueAtLeast(l);
    }
  }

  // ---------------------------- precedence of section 11 of SemVer 2.0.0

  /** Rule 11.4.1-11.4.3 for two identifiers. */
  ghost predicate IdentifierBelow(a: Identifier, b: Identifier)
    requires ValidIdentifier(a) && ValidIdentifier(b)
  {
    || (a.numeric && b.numeric && Value(a.value) < Value(b.value))
    || (a.numeric && !b.numeric)
    || (!a.numeric && !b.numeric && TextBelow(a.value, b.value))
  }

  /** ASCII sort order: a proper prefix, or smaller at the first difference. */
  ghost predicate TextBelow(a: string, b: string) {
    exists k: nat :: DiffersFirstAt(a, b, k)
  }

  predicate DiffersFirstAt(a: string, b: string, k: nat) {
    && k <= |a| && k < |b|
    && a[..k] == b[..k]
    && (k < |a| ==> a[k] < b[k])
  }

  /** Rule 11.4: left to right at the first identifier that differs; rule
      11.4.4: a larger set of fields wins when all preceding ones are equal. */
  ghost predicate FieldsDecideAt(a: seq<Identifier>, b: seq<Identifier>, k: nat)
    requires ValidIdentifiers(a) && ValidIdentifiers(b)
  {
    && k <= |a| && k < |b|
    && a[..k] == b[..k]
    && (k < |a| ==> IdentifierBelow(a[k], b[k]))
  }

  ghost predicate PrereleaseBelow(a: seq<Identifier>, b: seq<Identifier>)
    requires ValidIdentifiers(a) && ValidIdentifiers(b)
  {
    // Rule 11.3: a pre-release is below its normal version.
    || (|a| > 0 && |b| == 0)
    || (|a| > 0 && |b| > 0 && exists k: nat :: FieldsDecideAt(a, b, k))
  }

  /** Rule 11.2: major, minor and patch numerically, in that order. */
  ghost predicate Precedes(a: Version, b: Version)
    requires ValidVersion(a) && ValidVersion(b)
  {
    var (ma, na, pa) := (Value(a.major), Value(a.minor), Value(a.patch));
    var (mb, nb, pb) := (Value(b.major), Value(b.minor), Value(b.patch));
    || ma < mb
    || (ma == mb && na < nb)
    || (ma == mb && na == nb && pa < pb)
    || (ma == mb && na == nb && pa == pb && PrereleaseBelow(a.prerelease, b.prerelease))
  }

  lemma SamePrefix<T>(a: seq<T>, b: seq<T>, k: nat)
    requires k <= |a| && k <= |b| && a[..k] == b[..k]
    ensures forall i :: 0 <= i < k ==> a[i] == b[i]
  {
    assert forall i :: 0 <= i < k ==> a[i] == a[..k][i] && b[i] == b[..k][i];
  }

  lemma {:induction false} CompareTextMeaning(a: string, b: string)
    ensures CompareText(a, b) == -1 <==> TextBelow(a, b)
    ensures CompareText(a, b) == 0 <==> a == b
    ensures CompareText(b, a) == -CompareText(a, b)
  {
    if |a| == 0 || |b| == 0 {
      if |b| > 0 { assert DiffersFirstAt(a, b, 0); }
    } else {
      CompareTextMeaning(a[1..], b[1..]);
      if a[0] == b[0] {
        assert a == [a[0]] + a[1..] && b == [b[0]] + b[1..];
        if TextBelow(a[1..], b[1..]) {
          var k: nat :| DiffersFirstAt(a[1..], b[1..], k);
          assert a[..k + 1] == [a[0]] + a[1..][..k] && b[..k + 1] == [b[0]] + b[1..][..k];
          assert DiffersFirstAt(a, b, k + 1);
        }
        if TextBelow(a, b) {
          var k: nat :| DiffersFirstAt(a, b, k);
          assert k > 0;
          assert a[1..][..k - 1] == a[..k][1..] && b[1..][..k - 1] == b[..k][1..];
          assert DiffersFirstAt(a[1..], b[1..], k - 1);
        }
      } else {
        if a[0] < b[0] { assert DiffersFirstAt(a, b, 0); }
        if TextBelow(a, b) {
          var k: nat :| DiffersFirstAt(a, b, k);
          SamePrefix(a, b, k);
        }
      }
    }
  }

  lemma CompareIdentifierMeaning(a: Identifier, b: Identifier)
    requires ValidIdentifier(a) && ValidIdentifier(b)
    ensures CompareIdentifier(a, b) == -1 <==> IdentifierBelow(a, b)
    ensures CompareIdentifier(a, b) == 0 <==> a == b
    ensures CompareIdentifier(b, a) == -CompareIdentifier(a, b)
  {
    CompareTextMeaning(a.value, b.value);
    if a.numeric && b.numeric {
      CompareNumeralIsNumeric(a.value, b.value);
      CompareNumeralIsNumeric(b.value, a.value);
      EqualNumerals(a.value, b.value);
    }
  }

  lemma EqualNumerals(a: string, b: string)
    requires Numeral(a) && Numeral(b)
    ensures Value(a) == Value(b) <==> a == b
  {
    CompareNumeralIsNumeric(a, b);
    CompareTextMeaning(a, b);
  }

  lemma {:induction false} CompareIdentifiersMeaning(a: seq<Identifier>, b: seq<Identifier>, i: nat)
    requires ValidIdentifiers(a) && ValidIdentifiers(b)
    requires i <= |a| && i <= |b| && a[..i] == b[..i]
    ensures CompareIdentifiers(a, b, i) == -1 <==> exists k: nat :: FieldsDecideAt(a, b, k)
    ensures CompareIdentifiers(a, b, i) == 0 <==> a == b
    ensures CompareIdentifiers(b, a, i) == -CompareIdentifiers(a, b, i)
    decreases |a| - i
  {
    if i < |a| && i < |b| {
      CompareIdentifierMeaning(a[i], b[i]);
      if a[i] == b[i] {
        assert a[..i + 1] == a[..i] + [a[i]] && b[..i + 1] == b[..i] + [b[i]];
        CompareIdentifiersMeaning(a, b, i + 1);
      } else {
        if IdentifierBelow(a[i], b[i]) { assert FieldsDecideAt(a, b, i); }
        OnlyDecidesAt(a, b, i);
      }
    } else {
      if |a| < |b| { assert FieldsDecideAt(a, b, i); }
      OnlyDecidesAt(a, b, i);
      if |a| == |b| { assert a == a[..i] && b == b[..i]; }
    }
  }

  /** When the lists agree below i and not at i, the decision is taken at i. */
  lemma OnlyDecidesAt(a: seq<Identifier>, b: seq<Identifier>, i: nat)
    requires ValidIdentifiers(a) && ValidIdentifiers(b)
    requires i <= |a| && i <= |b| && a[..i] == b[..i]
    requires i < |a| && i < |b| ==> a[i] != b[i]
    ensures forall k: nat :: FieldsDecideAt(a, b, k) ==> k == i
  {
    forall k: nat | FieldsDecideAt(a, b, k) ensures k == i {
      if k < i {
        assert a[k] == a[..i][k] == b[..i][k] == b[k];
        CompareIdentifierMeaning(a[k], b[k]);
      }
      SamePrefix(a, b, k);
    }
  }

  lemma ComparePrereleaseMeaning(a: seq<Identifier>, b: seq<Identifier>)
    requires ValidIdentifiers(a) && ValidIdentifiers(b)
    ensures ComparePrerelease(a, b) == -1 <==> PrereleaseBelow(a, b)
    ensures ComparePrerelease(a, b) == 0 <==> a == b
    ensures ComparePrerelease(b, a) == -ComparePrerelease(a, b)
  {
    if |a| > 0 && |b| > 0 {
      CompareIdentifiersMeaning(a, b, 0);
    }
  }

  /** On parsed versions the comparison is precedence, in both directions. */
  lemma CompareVersionsMeaning(a: Version, b: Version)
    requires ValidVersion(a) && ValidVersion(b)
    ensures CompareVersions(a, b) == -1 <==> Precedes(a, b)
    ensures CompareVersions(a, b) == 0 <==> a == b
    ensures CompareVersions(b, a) == -CompareVersions(a, b)
  {
    CompareNumeralIsNumeric(a.major, b.major);
    CompareNumeralIsNumeric(b.major, a.major);
    CompareNumeralIsNumeric(a.minor, b.minor);
    CompareNumeralIsNumeric(b.minor, a.minor);
    CompareNumeralIsNumeric(a.patch, b.patch);
    CompareNumeralIsNumeric(b.patch, a.patch);
    EqualNumerals(a.major, b.major);
    EqualNumerals(a.minor, b.minor);
    EqualNumerals(a.patch, b.patch);
    ComparePrereleaseMeaning(a.prerelease, b.prerelease);
  }

  // -------------------------------------------------------------- main laws

  predicate Accepted(s: string) { Parse(s).Some? }

  /** Comparison of accepted texts decides precedence of section 11 of SemVer 2.0.0. */
  lemma CompareIsPrecedence(a: string, b: string)
    requires Accepted(a) && Accepted(b)
    ensures ValidVersion(Parse(a).value) && ValidVersion(Parse(b).value)
    ensures Compare(a, b) == Some(-1) <==> Precedes(Parse(a).value, Parse(b).value)
    ensures Compare(a, b) == Some(1) <==> Precedes(Parse(b).value, Parse(a).value)
  {
    PrintParse(a);
    PrintParse(b);
    CompareVersionsMeaning(Parse(a).value, Parse(b).value);
    CompareVersionsMeaning(Parse(b).value, Parse(a).value);
  }

  /** Two accepted texts compare equal only when they are the same text. */
  lemma CompareZeroOnlyForEqual(a: string, b: string)
    requires Accepted(a) && Accepted(b)
    ensures Compare(a, b) == Some(0) <==> a == b
    ensures Compare(b, a) == Some(-Compare(a, b).value)
  {
    PrintParse(a);
    PrintParse(b);
    CompareVersionsMeaning(Parse(a).value, Parse(b).value);
  }

  lemma TextBelowTransitive(a: string, b: string, c: string)
    requires TextBelow(a, b) && TextBelow(b, c)
    ensures TextBelow(a, c)
  {
    var i: nat :| DiffersFirstAt(a, b, i);
    var j: nat :| DiffersFirstAt(b, c, j);
    var k := if i < j then i else j;
    assert a[..k] == a[..i][..k] && b[..k] == b[..i][..k] && b[..k] == b[..j][..k] && c[..k] == c[..j][..k];
    if i < j { assert b[i] == b[..j][i] == c[..j][i] == c[i]; }
    if j < i { assert a[j] == a[..i][j] == b[..i][j] == b[j]; }
    assert DiffersFirstAt(a, c, k);
  }

  lemma IdentifierBelowTransitive(a: Identifier, b: Identifier, c: Identifier)
    requires ValidIdentifier(a) && ValidIdentifier(b) && ValidIdentifier(c)
    requires IdentifierBelow(a, b) && IdentifierBelow(b, c)
    ensures IdentifierBelow(a, c)
  {
    if !a.numeric && !b.numeric && !c.numeric {
      TextBelowTransitive(a.value, b.value, c.value);
    }
  }

  lemma FieldsTransitive(a: seq<Identifier>, b: seq<Identifier>, c: seq<Identifier>, i: nat, j: nat)
    requires ValidIdentifiers(a) && ValidIdentifiers(b) && ValidIdentifiers(c)
    requires FieldsDecideAt(a, b, i) && FieldsDecideAt(b, c, j)
    ensures FieldsDecideAt(a, c, if i < j then i else j)
  {
    var k := if i < j then i else j;
    assert a[..k] == a[..i][..k] && b[..k] == b[..i][..k] && b[..k] == b[..j][..k] && c[..k] == c[..j][..k];
    if i < j { assert b[i] == b[..j][i] == c[..j][i] == c[i]; }
    if j < i { assert a[j] == a[..i][j] == b[..i][j] == b[j]; }
    if i == j && i < |a| && i < |b| { IdentifierBelowTransitive(a[i], b[i], c[i]); }
  }

  lemma PrecedesTransitive(a: Version, b: Version, c: Version)
    requires ValidVersion(a) && ValidVersion(b) && ValidVersion(c)
    requires Precedes(a, b) && Precedes(b, c)
    ensures Precedes(a, c)
  {
    if PrereleaseBelow(a.prerelease, b.prerelease) && PrereleaseBelow(b.prerelease, c.prerelease) &&
      |c.prerelease| > 0 {
      var i: nat :| FieldsDecideAt(a.prerelease, b.prerelease, i);
      var j: nat :| FieldsDecideAt(b.prerelease, c.prerelease, j);
      FieldsTransitive(a.prerelease, b.prerelease, c.prerelease, i, j);
    }
  }

  /** A newer version of a newer version is newer. */
  lemma CompareTransitive(a: string, b: string, c: string)
    requires Accepted(a) && Accepted(b) && Accepted(c)
    requires Compare(a, b) == Some(1) && Compare(b, c) == Some(1)
    ensures Compare(a, c) == Some(1)
  {
    CompareIsPrecedence(a, b);
    CompareIsPrecedence(b, c);
    CompareIsPrecedence(a, c);
    PrecedesTransitive(Parse(c).value, Parse(b).value, Parse(a).value);
  }
}
