/** The parser of a registry's Bearer challenge, and the printer it undoes. Text is
    characters; keys are lower-cased in ASCII. */
module Bearer {
  import opened Common

  // ----------------------------------------------------------------- text helpers

  /** unicode.IsSpace. */
  predicate Space(c: char) {
    || '\t' <= c <= '\r' || c == ' ' || c == '\U{85}' || c == '\U{A0}' || c == '\U{1680}' ||
       '\U{2000}' <= c <= '\U{200A}'
    || c == '\U{2028}' || c == '\U{2029}' || c == '\U{202F}' || c == '\U{205F}' || c == '\U{3000}'
  }

  predicate Separator(c: char) { c == ' ' || c == '\t' || c == ',' }

  function DropSpaces(s: string): (r: string)
    ensures |r| <= |s|
  {
    if |s| > 0 && Space(s[0]) then DropSpaces(s[1..]) else s
  }

  function DropLastSpaces(s: string): (r: string)
    ensures r <= s
  {
    if |s| > 0 && Space(s[|s| - 1]) then DropLastSpaces(s[..|s| - 1]) else s
  }

  function TrimSpace(s: string): (r: string)
    ensures |r| <= |s|
  {
    DropLastSpaces(DropSpaces(s))
  }

  /** strings.TrimLeft with the separators. */
  function DropSeparators(s: string): (r: string)
    ensures |r| <= |s| && (|r| > 0 ==> !Separator(r[0]))
  {
    if |s| > 0 && Separator(s[0]) then DropSeparators(s[1..]) else s
  }

  function IndexByte(s: string, c: char): (i: int)
    ensures -1 <= i < |s|
    ensures i >= 0 ==> s[i] == c && c !in s[..i]
    ensures i == -1 ==> c !in s
  {
    if |s| == 0 then -1
    else if s[0] == c then 0
    else
      var i := IndexByte(s[1..], c);
      assert s == [s[0]] + s[1..];
      assert i >= 0 ==> s[..i + 1] == [s[0]] + s[1..][..i];
      if i == -1 then -1 else i + 1
  }

  function Lower(s: string): (r: string)
    ensures |r| == |s|
  {
    seq(|s|, i requires 0 <= i < |s| => if 'A' <= s[i] <= 'Z' then s[i] - 'A' + 'a' else s[i])
  }

  // -------------------------------------------------------------------- the parser

  /** The text of a quoted string up to its closing quote, and what follows it. */
  function Unquote(s: string): (r: Option<(string, string)>)
    ensures r.Some? ==> |r.value.1| < |s|
    decreases |s|
  {
    if |s| == 0 then None
    else if s[0] == '\\' && |s| > 1 then
      var rest := Unquote(s[2..]);
      if rest.None? then None else Some(([s[1]] + rest.value.0, rest.value.1))
    else if s[0] == '"' then Some(("", s[1..]))
    else
      var rest := Unquote(s[1..]);
      if rest.None? then None else Some(([s[0]] + rest.value.0, rest.value.1))
  }

  /** One value: quoted, or up to the next comma. */
  function TakeValue(input: string): (r: Option<(string, string)>)
    requires |input| > 0
    ensures r.Some? ==> |r.value.1| < |input|
  {
    if input[0] == '"' then Unquote(input[1..])
    else
      var comma := IndexByte(input, ',');
      if comma < 0 then Some((TrimSpace(input), "")) else Some((TrimSpace(input[..comma]), input[comma + 1..]))
  }

  function TakeParameters(input: string, parameters: map<string, string>): Option<map<string, string>>
    decreases |input|
  {
    var here := DropSeparators(input);
    if |here| == 0 then Some(parameters)
    else
      var equals := IndexByte(here, '=');
      if equals <= 0 then None
      else
        var key, rest := Lower(TrimSpace(here[..equals])), TrimSpace(here[equals + 1..]);
        if key == "" || rest == "" then None
        else
          var value := TakeValue(rest);
          if value.None? then None else TakeParameters(value.value.1, parameters[key := value.value.0])
  }

  function FirstBlank(s: string): (i: int)
    ensures -1 <= i < |s|
  {
    if |s| == 0 then -1
    else if s[0] == ' ' || s[0] == '\t' then 0
    else
      var i := FirstBlank(s[1..]);
      if i == -1 then -1 else i + 1
  }

  function Parse(challenge: string): Option<map<string, string>> {
    var value := TrimSpace(challenge);
    var space := FirstBlank(value);
    if space < 0 || Lower(value[..space]) != "bearer" then None
    else
      var parameters := TakeParameters(TrimSpace(value[space + 1..]), map[]);
      if parameters.None? || "realm" !in parameters.value || parameters.value["realm"] == "" then None else parameters
  }

  method ParseBearerChallenge(challenge: string) returns (result: Option<map<string, string>>)
    ensures result == Parse(challenge)
  {
    hide TrimSpace, Lower, IndexByte, DropSeparators, Unquote, FirstBlank;
    var value := TrimSpace(challenge);
    var space := FirstBlank(value);
    if space < 0 || Lower(value[..space]) != "bearer" {
      return None;
    }
    var input := TrimSpace(value[space + 1..]);
    var parameters: map<string, string> := map[];
    ghost var goal := TakeParameters(input, map[]);
    while |input| > 0
      invariant TakeParameters(input, parameters) == goal
      decreases |input|
    {
      input := DropSeparators(input);
      DropTwice(input, parameters);
      if input == "" {
        break;
      }
      var equals := IndexByte(input, '=');
      if equals <= 0 {
        return None;
      }
      var key := Lower(TrimSpace(input[..equals]));
      var rest := TrimSpace(input[equals + 1..]);
      if key == "" || rest == "" {
        return None;
      }
      var parsed := "";
      if rest[0] == '"' {
        var closed;
        closed, parsed, input := ReadQuoted(rest[1..]);
        if !closed {
          return None;
        }
      } else {
        var comma := IndexByte(rest, ',');
        if comma < 0 {
          parsed, input := TrimSpace(rest), "";
        } else {
          parsed, input := TrimSpace(rest[..comma]), rest[comma + 1..];
        }
      }
      parameters := parameters[key := parsed];
    }
    if "realm" !in parameters || parameters["realm"] == "" {
      return None;
    }
    return Some(parameters);
  }

  lemma {:induction false} DropTwice(input: string, parameters: map<string, string>)
    ensures DropSeparators(DropSeparators(input)) == DropSeparators(input)
  {
  }

  /** The byte loop over a quoted string. */
  method ReadQuoted(input: string) returns (closed: bool, parsed: string, rest: string)
    ensures closed == Unquote(input).Some?
    ensures closed ==> Unquote(input) == Some((parsed, rest))
  {
    parsed, rest := "", input;
    var index := 0;
    assert input[0..] == input && (Unquote(input).Some? ==> "" + Unquote(input).value.0 == Unquote(input).value.0);
    while index < |input|
      invariant 0 <= index <= |input|
      invariant Unquote(input).Some? <==> Unquote(input[index..]).Some?
      invariant Unquote(input).Some? ==>
        Unquote(input).value == (parsed + Unquote(input[index..]).value.0, Unquote(input[index..]).value.1)
    {
      ghost var here := input[index..];
      if input[index] == '\\' && index + 1 < |input| {
        index := index + 1;
        assert here[2..] == input[index + 1..];
        ghost var tail := Unquote(input[index + 1..]);
        assert tail.Some? ==> parsed + ([input[index]] + tail.value.0) == (parsed + [input[index]]) + tail.value.0;
        parsed := parsed + [input[index]];
        index := index + 1;
      } else if input[index] == '"' {
        rest := input[index + 1..];
        assert here[1..] == rest && parsed + "" == parsed;
        return true, parsed, rest;
      } else {
        assert here[1..] == input[index + 1..];
        ghost var tail := Unquote(input[index + 1..]);
        assert tail.Some? ==> parsed + ([input[index]] + tail.value.0) == (parsed + [input[index]]) + tail.value.0;
        parsed := parsed + [input[index]];
        index := index + 1;
      }
    }
    assert input[|input|..] == "";
    return false, parsed, rest;
  }

  // ------------------------------------------------------------------- the printer

  /** How a value is written: quoted, or as it is, with a comma behind it or not. */
  datatype Style = Quoted | Bare(comma: bool)

  /** A parameter and the separators written in front of it. */
  datatype Parameter = Parameter(gap: string, key: string, value: string, style: Style)

  function Escape(value: string): string {
    if |value| == 0 then ""
    else (if value[0] == '"' || value[0] == '\\' then ['\\', value[0]] else [value[0]]) + Escape(value[1..])
  }

  function Written(p: Parameter): string {
    match p.style
    case Quoted => "\"" + Escape(p.value) + "\""
    case Bare(comma) => p.value + (if comma then "," else "")
  }

  function PrintOne(p: Parameter): string { p.gap + p.key + "=" + Written(p) }

  function PrintAll(ps: seq<Parameter>): string {
    if |ps| == 0 then "" else PrintOne(ps[0]) + PrintAll(ps[1..])
  }

  function Print(ps: seq<Parameter>): string { "Bearer " + PrintAll(ps) }

  function MapOf(ps: seq<Parameter>, start: map<string, string>): map<string, string> {
    if |ps| == 0 then start else MapOf(ps[1..], start[ps[0].key := ps[0].value])
  }

  /** Lower-case token characters (section 3.2.6 of RFC 7230). */
  predicate TokenChar(c: char) { 'a' <= c <= 'z' || '0' <= c <= '9' || c in "!#$%&'*+-.^_`|~" }

  ghost predicate Printable(p: Parameter) {
    && (forall i :: 0 <= i < |p.gap| ==> Separator(p.gap[i]))
    && |p.key| > 0 && (forall i :: 0 <= i < |p.key| ==> TokenChar(p.key[i]))
    && (p.style.Bare? ==> Plain(p.value))
  }

  /** A value that can be written without quotes. */
  ghost predicate Plain(value: string) {
    |value| > 0 && ',' !in value && value[0] != '"' && !Space(value[0]) && !Space(value[|value| - 1])
  }

  /** Only the last value may be written bare and without a comma behind it. */
  ghost predicate AllPrintable(ps: seq<Parameter>) {
    && (forall i :: 0 <= i < |ps| ==> Printable(ps[i]))
    && (forall i :: 0 <= i < |ps| && ps[i].style == Bare(false) ==> i == |ps| - 1)
  }

  lemma {:induction false} UnquoteEscape(value: string, rest: string)
    ensures Unquote(Escape(value) + "\"" + rest) == Some((value, rest))
  {
    if |value| == 0 {
      assert Escape(value) + "\"" + rest == "\"" + rest;
    } else {
      UnquoteEscape(value[1..], rest);
      var tail := Escape(value[1..]) + "\"" + rest;
      var head := if value[0] == '"' || value[0] == '\\' then ['\\', value[0]] else [value[0]];
      assert Escape(value) + "\"" + rest == head + tail;
      assert (head + tail)[|head|..] == tail;
      assert value == [value[0]] + value[1..];
    }
  }

  lemma {:induction false} DropGap(gap: string, rest: string)
    requires forall i :: 0 <= i < |gap| ==> Separator(gap[i])
    requires |rest| > 0 ==> !Separator(rest[0])
    ensures DropSeparators(gap + rest) == rest
  {
    if |gap| > 0 {
      assert (gap + rest)[1..] == gap[1..] + rest;
      DropGap(gap[1..], rest);
    } else {
      assert gap + rest == rest;
    }
  }

  /** Spaces in front are separators or dropped anyway. */
  lemma {:induction false} DropSpacesGap(gap: string, rest: string)
    requires forall i :: 0 <= i < |gap| ==> Separator(gap[i])
    requires |rest| > 0 && !Separator(rest[0]) && !Space(rest[0])
    ensures DropSeparators(DropSpaces(gap + rest)) == rest
  {
    if |gap| > 0 && Space(gap[0]) {
      assert (gap + rest)[1..] == gap[1..] + rest;
      DropSpacesGap(gap[1..], rest);
    } else {
      DropGap(gap, rest);
      if |gap| == 0 { assert gap + rest == rest; }
    }
  }

  lemma {:induction false} KeepsText(s: string)
    requires |s| > 0 && !Space(s[|s| - 1])
    ensures DropLastSpaces(s) == s
    ensures !Space(s[0]) ==> TrimSpace(s) == s
  {
  }

  /** Printed parameters end with no space. */
  lemma {:induction false} EndsPlainly(ps: seq<Parameter>)
    requires |ps| > 0 && AllPrintable(ps)
    ensures |PrintAll(ps)| > 0 && !Space(PrintAll(ps)[|PrintAll(ps)| - 1])
  {
    hide Escape, Space, TokenChar;
    assert !Space('"') && !Space(',') by { NoSpaces(); }
    if |ps| > 1 {
      EndsPlainly(ps[1..]);
    } else {
      assert PrintAll(ps[1..]) == "";
      assert PrintAll(ps) == PrintOne(ps[0]);
    }
  }

  lemma NoSpaces()
    ensures !Space('"') && !Space(',')
  {
  }

  lemma {:induction false} TokenIsPlain(c: char)
    requires TokenChar(c)
    ensures !Space(c) && !Separator(c) && c != '=' && !('A' <= c <= 'Z')
  {
  }

  lemma {:induction false} KeyParts(key: string, rest: string)
    requires |key| > 0 && forall i :: 0 <= i < |key| ==> TokenChar(key[i])
    ensures
      var s := key + "=" + rest;
      && IndexByte(s, '=') == |key| && s[..|key|] == key && s[|key| + 1..] == rest
      && Lower(TrimSpace(key)) == key
  {
    var s := key + "=" + rest;
    forall i | 0 <= i < |key| ensures s[i] == key[i] && !Space(key[i]) && key[i] != '=' && Lower(key)[i] == key[i] {
      TokenIsPlain(key[i]);
    }
    KeepsText(key);
    assert Lower(key) == key && s[..|key|] == key;
    IndexIs(s, '=', |key|);
  }

  lemma {:induction false} IndexIs(s: string, c: char, i: nat)
    requires i < |s| && s[i] == c && c !in s[..i]
    ensures IndexByte(s, c) == i
  {
    if i > 0 {
      assert s[..i][0] in s[..i] && s[1..][..i - 1] == s[..i][1..];
      IndexIs(s[1..], c, i - 1);
    }
  }

  /** One round of the parser, from what it finds. */
  lemma {:induction false} TakeStep(here: string, n: nat, key: string, quoted: string, value: string, rest: string,
                                    parameters: map<string, string>)
    requires |here| > 0 && DropSeparators(here) == here && 0 < n < |here| && IndexByte(here, '=') == n
    requires key != "" && Lower(TrimSpace(here[..n])) == key
    requires quoted != "" && TrimSpace(here[n + 1..]) == quoted && TakeValue(quoted) == Some((value, rest))
    ensures TakeParameters(here, parameters) == TakeParameters(rest, parameters[key := value])
  {
    hide TakeValue, TrimSpace, Lower, IndexByte, DropSeparators;
  }

  /** A written value is read back, whatever it holds. */
  lemma {:induction false} WrittenValue(p: Parameter, rest: string)
    requires Printable(p) && (|rest| > 0 ==> !Space(rest[|rest| - 1]) && p.style != Bare(false))
    ensures
      var written := Written(p) + rest;
      written != "" && TrimSpace(written) == written && TakeValue(written) == Some((p.value, rest))
  {
    hide Escape, Unquote, IndexByte, TrimSpace, TokenChar, Space;
    assert !Space('"') && !Space(',') by { NoSpaces(); }
    var written := Written(p) + rest;
    if p.style.Quoted? {
      assert written == "\"" + (Escape(p.value) + "\"" + rest);
      assert written[1..] == Escape(p.value) + "\"" + rest;
      UnquoteEscape(p.value, rest);
      KeepsText(written);
    } else {
      KeepsText(p.value);
      if p.style.comma {
        assert written == p.value + "," + rest && written[..|p.value|] == p.value;
        assert written[|p.value|] == ',' && written[|p.value| + 1..] == rest;
        IndexIs(written, ',', |p.value|);
        KeepsText(written);
      } else {
        assert rest == "" && written == p.value && IndexByte(written, ',') == -1;
      }
    }
  }

  /** What the parser meets at the start of a printed parameter. */
  lemma {:induction false} TakePrinted(p: Parameter, rest: string, parameters: map<string, string>)
    requires Printable(p) && (|rest| > 0 ==> !Space(rest[|rest| - 1]) && p.style != Bare(false))
    ensures
      var here := p.key + "=" + Written(p) + rest;
      && |here| > 0 && !Separator(here[0]) && !Space(here[0])
      && TakeParameters(here, parameters) == TakeParameters(rest, parameters[p.key := p.value])
  {
    hide TakeParameters, TrimSpace, Lower, IndexByte, DropSeparators, Written, TakeValue, TokenChar, Plain;
    var written := Written(p) + rest;
    var here := p.key + "=" + Written(p) + rest;
    assert here == p.key + "=" + written;
    KeyParts(p.key, written);
    TokenIsPlain(p.key[0]);
    assert here[0] == p.key[0];
    WrittenValue(p, rest);
    DropGap("", here);
    assert "" + here == here;
    TakeStep(here, |p.key|, p.key, written, p.value, rest, parameters);
  }

  lemma {:induction false} TakePrintedAll(ps: seq<Parameter>, parameters: map<string, string>)
    requires AllPrintable(ps)
    ensures TakeParameters(PrintAll(ps), parameters) == Some(MapOf(ps, parameters))
    decreases |ps|
  {
    if |ps| > 0 {
      TakeGap(ps, parameters);
      TakePrintedAll(ps[1..], parameters[ps[0].key := ps[0].value]);
    }
  }

  /** The first printed parameter without its gap. */
  function FirstHere(ps: seq<Parameter>): string
    requires |ps| > 0
  {
    ps[0].key + "=" + Written(ps[0]) + PrintAll(ps[1..])
  }

  lemma {:induction false} TakeHere(ps: seq<Parameter>, parameters: map<string, string>)
    requires |ps| > 0 && AllPrintable(ps)
    ensures
      var here := FirstHere(ps);
      && |here| > 0 && !Separator(here[0]) && !Space(here[0]) && !Space(here[|here| - 1])
      && PrintAll(ps) == ps[0].gap + here
      && TakeParameters(here, parameters) == TakeParameters(PrintAll(ps[1..]), parameters[ps[0].key := ps[0].value])
  {
    hide TakeParameters, Written, TokenChar, Space, Plain;
    if |ps| > 1 {
      assert AllPrintable(ps[1..]);
      EndsPlainly(ps[1..]);
    }
    EndsPlainly(ps);
    TakePrinted(ps[0], PrintAll(ps[1..]), parameters);
  }

  lemma {:induction false} TakeGap(ps: seq<Parameter>, parameters: map<string, string>)
    requires |ps| > 0 && AllPrintable(ps)
    ensures TakeParameters(PrintAll(ps), parameters) ==
            TakeParameters(PrintAll(ps[1..]), parameters[ps[0].key := ps[0].value])
    ensures TakeParameters(TrimSpace(PrintAll(ps)), parameters) ==
            TakeParameters(PrintAll(ps[1..]), parameters[ps[0].key := ps[0].value])
  {
    hide TakeParameters, TrimSpace, DropSpaces, DropSeparators, FirstHere, PrintAll;
    var here := FirstHere(ps);
    TakeHere(ps, parameters);
    DropGap(ps[0].gap, here);
    DropGap("", here);
    assert "" + here == here;
    DropSpacesGap(ps[0].gap, here);
    EndKept(ps[0].gap, here);
    SameStart(PrintAll(ps), here, parameters);
    SameStart(TrimSpace(PrintAll(ps)), here, parameters);
  }

  lemma {:induction false} EndKept(gap: string, here: string)
    requires |here| > 0 && !Space(here[|here| - 1]) && !Space(here[0])
    ensures TrimSpace(gap + here) == DropSpaces(gap + here)
    decreases |gap|
  {
    assert (gap + here)[|gap + here| - 1] == here[|here| - 1];
    if |gap| > 0 && Space(gap[0]) {
      assert (gap + here)[1..] == gap[1..] + here;
      EndKept(gap[1..], here);
    }
  }

  lemma {:induction false} SameStart(a: string, b: string, parameters: map<string, string>)
    requires DropSeparators(a) == DropSeparators(b)
    ensures TakeParameters(a, parameters) == TakeParameters(b, parameters)
  {
    hide TakeValue, TrimSpace, Lower, IndexByte, DropSeparators;
  }

  /** Parsing undoes printing: any parameters with lower-case token keys and any
      values at all, written as quoted strings behind any separators, or bare where a
      comma or the end of the text shows where they end, read back as the map they
      stand for, provided the realm is not empty. */
  lemma {:induction false} ParseUndoesPrint(ps: seq<Parameter>)
    requires AllPrintable(ps)
    requires "realm" in MapOf(ps, map[]) && MapOf(ps, map[])["realm"] != ""
    ensures Parse(Print(ps)) == Some(MapOf(ps, map[]))
  {
    hide TakeParameters, TrimSpace, Written;
    var printed := Print(ps);
    EndsPlainly(ps);
    assert !Space(printed[|printed| - 1]) && printed[0] == 'B';
    KeepsText(printed);
    BearerFirst(PrintAll(ps));
    TakeGap(ps, map[]);
    TakePrintedAll(ps, map[]);
  }

  lemma {:induction false} FirstBlankIs(s: string, i: nat)
    requires i < |s| && (s[i] == ' ' || s[i] == '\t') && forall k :: 0 <= k < i ==> s[k] != ' ' && s[k] != '\t'
    ensures FirstBlank(s) == i
  {
    if i > 0 { FirstBlankIs(s[1..], i - 1); }
  }

  lemma {:induction false} BearerFirst(rest: string)
    ensures FirstBlank("Bearer " + rest) == 6 && ("Bearer " + rest)[7..] == rest
    ensures Lower(("Bearer " + rest)[..6]) == "bearer"
  {
    var word := "Bearer";
    var s := "Bearer " + rest;
    assert s == word + " " + rest;
    assert s[..6] == word && s[7..] == rest;
    assert Lower(word) == "bearer";
    FirstBlankIs(s, 6);
  }

  /** With distinct keys the map holds every parameter as it was written. */
  lemma {:induction false} DistinctKeysAllKept(ps: seq<Parameter>, start: map<string, string>, i: nat)
    requires i < |ps| && forall j, k :: 0 <= j < k < |ps| ==> ps[j].key != ps[k].key
    ensures ps[i].key in MapOf(ps, start) && MapOf(ps, start)[ps[i].key] == ps[i].value
    decreases |ps|
  {
    if i == 0 {
      LaterKeysKeep(ps[1..], start[ps[0].key := ps[0].value], ps[0].key);
    } else {
      DistinctKeysAllKept(ps[1..], start[ps[0].key := ps[0].value], i - 1);
    }
  }

  lemma {:induction false} LaterKeysKeep(ps: seq<Parameter>, start: map<string, string>, key: string)
    requires key in start && forall k :: 0 <= k < |ps| ==> ps[k].key != key
    ensures key in MapOf(ps, start) && MapOf(ps, start)[key] == start[key]
    decreases |ps|
  {
    if |ps| > 0 { LaterKeysKeep(ps[1..], start[ps[0].key := ps[0].value], key); }
  }
}
