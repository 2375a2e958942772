/** Quick-deploy artifact names, prefix-v<semver>.tar.gz, and the upgrade rule
    (backend/internal/server/presets.go). */
module QuickArtifact {
  import opened Common
  import opened SemVer
  import opened Text

  datatype QuickName = QuickName(prefix: string, version: string)

  const SUFFIX := ".tar.gz"

  predicate PrefixChar(c: char) { 'a' <= c <= 'z' || Digit(c) || c == '-' }

  /** One to 64 lower-case letters, digits or inner hyphens. */
  predicate ValidPrefix(p: string) {
    && 1 <= |p| <= 64
    && p[0] != '-' && p[|p| - 1] != '-'
    && forall i :: 0 <= i < |p| ==> PrefixChar(p[i])
  }

  /** Position of the last occurrence of c, or None. */
  function LastIndexOf(s: string, c: char): (r: Option<nat>)
    ensures r.Some? ==> r.value < |s| && s[r.value] == c && forall k :: r.value < k < |s| ==> s[k] != c
    ensures r.None? ==> c !in s
  {
    if |s| == 0 then None
    else if s[|s| - 1] == c then Some(|s| - 1)
    else
      assert s == s[..|s| - 1] + [s[|s| - 1]];
      LastIndexOf(s[..|s| - 1], c)
  }

  function Name(prefix: string, version: string): string {
    prefix + ['-', 'v'] + version + SUFFIX
  }

  /** A prefix holds no dot and a version starts with digits and a dot, so the
      hyphen before the version is the last one before the first dot. */
  function ParseName(filename: string): Option<QuickName> {
    if |filename| > 256 || |filename| < |SUFFIX| || filename[|filename| - |SUFFIX|..] != SUFFIX then None
    else
      var stem := filename[..|filename| - |SUFFIX|];
      var cut := LastIndexOf(stem[..IndexOf(stem, '.')], '-');
      if cut.None? || cut.value + 1 >= |stem| || stem[cut.value + 1] != 'v' then None
      else
        var prefix, version := stem[..cut.value], stem[cut.value + 2..];
        if ValidPrefix(prefix) && |version| <= 128 && Accepted(version) then Some(QuickName(prefix, version))
        else None
  }

  ghost predicate IsQuickName(filename: string, prefix: string, version: string) {
    && filename == Name(prefix, version)
    && ValidPrefix(prefix) && Accepted(version) && |version| <= 128 && |filename| <= 256
  }

  lemma {:induction false} PrintStart(v: Version) returns (rest: string)
    ensures Print(v) == v.major + ['.'] + rest
  {
    hide Join, Texts;
    rest := v.minor + "." + v.patch;
    assert PrintCore(v) == v.major + ['.'] + rest;
    if |v.prerelease| > 0 {
      var tail := Join(Texts(v.prerelease), '.');
      assert Print(v) == v.major + ['.'] + (rest + ['-'] + tail);
      rest := rest + ['-'] + tail;
    }
  }

  lemma {:induction false} VersionStart(version: string)
    requires Accepted(version)
    ensures
      var dot := IndexOf(version, '.');
      0 < dot < |version| && Digits(version[..dot])
  {
    hide Parse, Print, IndexOf;
    PrintParse(version);
    var v := Parse(version).value;
    var rest := PrintStart(v);
    assert '.' !in v.major;
    IndexOfAppend(v.major, '.', rest);
    assert version[..|v.major|] == v.major;
  }

  lemma {:induction false} IndexOfIs(s: string, c: char, i: nat)
    requires i < |s| && s[i] == c && forall k :: 0 <= k < i ==> s[k] != c
    ensures IndexOf(s, c) == i
  {
  }

  /** The parser accepts exactly the names of the documented form and returns
      their parts; since it is a function, no name has two readings. */
  lemma {:induction false} ParseNameExact(filename: string, prefix: string, version: string)
    ensures ParseName(filename) == Some(QuickName(prefix, version)) <==> IsQuickName(filename, prefix, version)
  {
    hide Accepted;
    if IsQuickName(filename, prefix, version) {
      NameParses(filename, prefix, version);
    }
    if ParseName(filename) == Some(QuickName(prefix, version)) {
      var n := |filename| - |SUFFIX|;
      var stem := filename[..n];
      var cut := LastIndexOf(stem[..IndexOf(stem, '.')], '-').value;
      assert stem == prefix + ['-', 'v'] + version;
      assert filename == stem + filename[n..];
    }
  }

  lemma {:induction false} LastIndexOfIs(s: string, c: char, i: nat)
    requires i < |s| && s[i] == c && forall k :: i < k < |s| ==> s[k] != c
    ensures LastIndexOf(s, c) == Some(i)
  {
    hide LastIndexOf;
    assert s[i] in s;
  }

  /** The first dot of the stem is the version's, and the last hyphen before it
      is the one that ends the prefix. */
  lemma {:induction false} CutPoint(prefix: string, version: string, dot: nat)
    requires ValidPrefix(prefix)
    requires dot < |version| && version[dot] == '.' && Digits(version[..dot])
    ensures
      var stem := prefix + ['-', 'v'] + version;
      var first := IndexOf(stem, '.');
      first == |prefix| + 2 + dot && LastIndexOf(stem[..first], '-') == Some(|prefix|)
  {
    hide IndexOf, LastIndexOf;
    var stem, p := prefix + ['-', 'v'] + version, |prefix|;
    forall k | 0 <= k < p + 2 + dot ensures stem[k] != '.' {
      if k < p { assert PrefixChar(prefix[k]); }
      if k >= p + 2 { assert stem[k] == version[..dot][k - p - 2]; }
    }
    assert stem[p + 2 + dot] == version[dot];
    IndexOfIs(stem, '.', p + 2 + dot);
    var head := stem[..p + 2 + dot];
    forall k | p < k < |head| ensures head[k] != '-' {
      if k >= p + 2 { assert head[k] == version[..dot][k - p - 2]; }
    }
    LastIndexOfIs(head, '-', p);
  }

  lemma {:induction false} NameParses(filename: string, prefix: string, version: string)
    requires IsQuickName(filename, prefix, version)
    ensures ParseName(filename) == Some(QuickName(prefix, version))
  {
    hide Accepted, IndexOf, LastIndexOf;
    var n := |filename| - |SUFFIX|;
    var stem := prefix + ['-', 'v'] + version;
    assert filename[n..] == SUFFIX && filename[..n] == stem;
    VersionStart(version);
    CutPoint(prefix, version, IndexOf(version, '.'));
    assert stem[..|prefix|] == prefix && stem[|prefix| + 2..] == version;
  }

  // ------------------------------------------------------------ upgrade rule

  datatype Upgrade = Allowed | CurrentVersionNotSemVer | InvalidArtifactFilename | QuickUpgradeRequired

  function ValidateQuickUpgrade(current: Option<string>, next: string): Upgrade {
    if current.None? then Allowed
    else if !Accepted(current.value) then CurrentVersionNotSemVer
    else
      var comparison := Compare(next, current.value);
      if comparison.None? then InvalidArtifactFilename
      else if comparison.value <= 0 then QuickUpgradeRequired
      else Allowed
  }

  /** An accepted next version is let through exactly on an empty target or when
      the deployed version is SemVer and has lower precedence. */
  lemma {:induction false} UpgradeMeansNewer(current: Option<string>, next: string)
    requires Accepted(next)
    ensures ValidVersion(Parse(next).value)
    ensures current.Some? && Accepted(current.value) ==> ValidVersion(Parse(current.value).value)
    ensures ValidateQuickUpgrade(current, next).Allowed? <==>
      current.None? || (Accepted(current.value) && Precedes(Parse(current.value).value, Parse(next).value))
  {
    hide Parse, Precedes, CompareVersions, ValidVersion;
    PrintParse(next);
    if current.Some? && Accepted(current.value) {
      CompareIsPrecedence(next, current.value);
    }
  }
}
