/**
 * String primitives the pipeline is built from, with Python's meaning:
 * whitespace is what `str.isspace` (and the regex class `\s`) accepts,
 * `Strip`/`RStrip`/`LStrip` are `str.strip`/`rstrip`/`lstrip` without
 * arguments, `SplitOn` is `str.split(c)`, `JoinWith` is `sep.join(parts)`,
 * `SplitLines` is `str.splitlines()` and `NatToString` is `str(n)`.
 */
module Text {

  /** Python's `str.isspace` for one character (bidirectional classes WS, B, S and category Zs). */
  predicate IsSpace(c: char) {
    c == ' ' || c == '\t' || c == '\n' || c == '\r' || c == '\U{000B}' || c == '\U{000C}'
    || ('\U{001C}' <= c <= '\U{001F}') || c == '\U{0085}' || c == '\U{00A0}' || c == '\U{1680}'
    || ('\U{2000}' <= c <= '\U{200A}') || c == '\U{2028}' || c == '\U{2029}' || c == '\U{202F}'
    || c == '\U{205F}' || c == '\U{3000}'
  }

  predicate IsDigit(c: char) {
    '0' <= c <= '9'
  }

  /** True when some character of `s` is not whitespace. */
  predicate NotBlank(s: string) {
    exists k :: 0 <= k < |s| && !IsSpace(s[k])
  }

  predicate StartsWith(s: string, prefix: string) {
    |prefix| <= |s| && s[..|prefix|] == prefix
  }

  predicate EndsWith(s: string, suffix: string) {
    |suffix| <= |s| && s[|s| - |suffix|..] == suffix
  }

  /** The first index at or after `i` that is not whitespace (or `|s|`). */
  function SkipSpaces(s: string, i: nat): (j: nat)
    requires i <= |s|
    ensures i <= j <= |s|
    ensures forall k :: i <= k < j ==> IsSpace(s[k])
    ensures j < |s| ==> !IsSpace(s[j])
    decreases |s| - i
  {
    if i == |s| || !IsSpace(s[i]) then i else SkipSpaces(s, i + 1)
  }

  /** The first index at or after `i` that is not an ASCII digit (or `|s|`). */
  function SkipDigits(s: string, i: nat): (j: nat)
    requires i <= |s|
    ensures i <= j <= |s|
    ensures forall k :: i <= k < j ==> IsDigit(s[k])
    ensures j < |s| ==> !IsDigit(s[j])
    decreases |s| - i
  {
    if i == |s| || !IsDigit(s[i]) then i else SkipDigits(s, i + 1)
  }

  /** Two strings that agree on a prefix ending in a non-space skip to the same index. */
  lemma {:induction false} SkipSpacesPrefix(t: string, s: string, i: nat)
    requires i <= |t| <= |s| && t == s[..|t|]
    requires SkipSpaces(t, i) < |t|
    ensures SkipSpaces(s, i) == SkipSpaces(t, i)
    decreases |t| - i
  {
    if IsSpace(t[i]) {
      SkipSpacesPrefix(t, s, i + 1);
    }
  }

  /** `str.rstrip()`: drop trailing whitespace. */
  function RStrip(s: string): (r: string)
    ensures |r| <= |s| && r == s[..|r|]
    ensures forall k :: |r| <= k < |s| ==> IsSpace(s[k])
    ensures r == [] || !IsSpace(r[|r| - 1])
  {
    if s == [] || !IsSpace(s[|s| - 1]) then s else RStrip(s[..|s| - 1])
  }

  /** `str.lstrip()`: drop leading whitespace. */
  function LStrip(s: string): (r: string)
    ensures |r| <= |s| && r == s[|s| - |r|..]
    ensures forall k :: 0 <= k < |s| - |r| ==> IsSpace(s[k])
    ensures r == [] || !IsSpace(r[0])
  {
    s[SkipSpaces(s, 0)..]
  }

  /** `str.strip()`: drop whitespace at both ends. */
  function Strip(s: string): (r: string)
    ensures r == [] || (!IsSpace(r[0]) && !IsSpace(r[|r| - 1]))
    ensures |r| <= |s|
  {
    LStrip(RStrip(s))
  }

  /** Stripping leaves something exactly when the string is not all whitespace. */
  lemma StripNotBlank(s: string)
    ensures Strip(s) != [] <==> NotBlank(s)
  {
    var t := RStrip(s);
    var r := LStrip(t);
    if r == [] {
      assert t == [];
      assert forall k :: 0 <= k < |s| ==> IsSpace(s[k]);
    } else {
      assert !IsSpace(s[|t| - |r|]);
    }
  }

  /** A string with no whitespace at either end is its own `strip()`. */
  lemma StripTrimmed(s: string)
    requires s == [] || (!IsSpace(s[0]) && !IsSpace(s[|s| - 1]))
    ensures Strip(s) == s
  {
    if s != [] {
      assert RStrip(s) == s;
      assert SkipSpaces(s, 0) == 0;
    }
  }

  /** Trailing whitespace is invisible to `rstrip()`. */
  lemma {:induction false} RStripSpaces(x: string, b: string)
    requires forall k :: 0 <= k < |b| ==> IsSpace(b[k])
    ensures RStrip(x + b) == RStrip(x)
    decreases |b|
  {
    if b == [] {
      assert x + b == x;
    } else {
      var c := b[..|b| - 1];
      assert (x + b)[..|x + b| - 1] == x + c;
      RStripSpaces(x, c);
    }
  }

  /** Leading whitespace before a non-space is skipped exactly. */
  lemma {:induction false} SkipSpacesOver(a: string, m: string, i: nat)
    requires i <= |a|
    requires forall k :: 0 <= k < |a| ==> IsSpace(a[k])
    requires m != [] && !IsSpace(m[0])
    ensures SkipSpaces(a + m, i) == |a|
    decreases |a| - i
  {
    assert (a + m)[|a|] == m[0];
    if i < |a| {
      assert (a + m)[i] == a[i];
      SkipSpacesOver(a, m, i + 1);
    }
  }

  /** Stripping removes exactly the whitespace around a trimmed middle. */
  lemma StripAround(a: string, m: string, b: string)
    requires forall k :: 0 <= k < |a| ==> IsSpace(a[k])
    requires forall k :: 0 <= k < |b| ==> IsSpace(b[k])
    requires m == [] || (!IsSpace(m[0]) && !IsSpace(m[|m| - 1]))
    ensures Strip(a + m + b) == m
  {
    var s := a + m + b;
    if m == [] {
      assert forall k :: 0 <= k < |s| ==> IsSpace(s[k]) by {
        forall k | 0 <= k < |s| ensures IsSpace(s[k]) {
          if k < |a| { assert s[k] == a[k]; } else { assert s[k] == b[k - |a|]; }
        }
      }
      assert !NotBlank(s);
      StripNotBlank(s);
    } else {
      RStripSpaces(a + m, b);
      assert RStrip(a + m) == a + m;
      SkipSpacesOver(a, m, 0);
      assert (a + m)[|a|..] == m;
    }
  }

  /** `sep.join(parts)`. */
  function JoinWith(sep: string, parts: seq<string>): (r: string)
  {
    if |parts| == 0 then ""
    else if |parts| == 1 then parts[0]
    else parts[0] + sep + JoinWith(sep, parts[1..])
  }

  /** `[f(x) for x in parts]`. */
  function MapEach(parts: seq<string>, f: string -> string): (r: seq<string>)
    ensures |r| == |parts|
    ensures forall k :: 0 <= k < |r| ==> r[k] == f(parts[k])
  {
    seq(|parts|, k requires 0 <= k < |parts| => f(parts[k]))
  }

  /** Strips every element (`[x.strip() for x in parts]`). */
  function StripAll(parts: seq<string>): seq<string> {
    MapEach(parts, Strip)
  }

  /** The first index of `c` in `s`, if any. */
  function IndexOf(s: string, c: char): (r: nat)
    ensures r <= |s|
    ensures r < |s| ==> s[r] == c
    ensures forall k :: 0 <= k < r ==> s[k] != c
  {
    if s == [] then 0 else if s[0] == c then 0 else 1 + IndexOf(s[1..], c)
  }

  /** `s.split(c)` (equivalently `re.split` on a one-character literal pattern). */
  function SplitOn(s: string, c: char): (r: seq<string>)
    ensures |r| >= 1
    ensures forall k :: 0 <= k < |r| ==> c !in r[k]
    decreases |s|
  {
    var i := IndexOf(s, c);
    if i == |s| then [s] else [s[..i]] + SplitOn(s[i + 1..], c)
  }

  /** Splitting on `c` and joining with `c` gives the string back. */
  lemma {:induction false} SplitJoinRoundTrip(s: string, c: char)
    ensures JoinWith([c], SplitOn(s, c)) == s
    decreases |s|
  {
    var i := IndexOf(s, c);
    if i < |s| {
      var rest := SplitOn(s[i + 1..], c);
      SplitJoinRoundTrip(s[i + 1..], c);
      var parts := [s[..i]] + rest;
      assert SplitOn(s, c) == parts;
      assert |parts| > 1 && parts[0] == s[..i] && parts[1..] == rest;
      assert JoinWith([c], parts) == s[..i] + [c] + s[i + 1..];
      assert s == s[..i] + [c] + s[i + 1..];
    }
  }

  /** Characters at which `str.splitlines()` ends a line. */
  predicate IsLineBreak(c: char) {
    c == '\n' || c == '\r' || c == '\U{000B}' || c == '\U{000C}' || c == '\U{001C}' || c == '\U{001D}'
    || c == '\U{001E}' || c == '\U{0085}' || c == '\U{2028}' || c == '\U{2029}'
  }

  function FirstBreak(s: string): (i: nat)
    ensures i <= |s|
    ensures i < |s| ==> IsLineBreak(s[i])
    ensures forall k :: 0 <= k < i ==> !IsLineBreak(s[k])
  {
    if s == [] then 0 else if IsLineBreak(s[0]) then 0 else 1 + FirstBreak(s[1..])
  }

  /** `str.splitlines()`: lines without their terminators; `\r\n` ends one line. */
  function SplitLines(s: string): (lines: seq<string>)
    ensures s == [] <==> lines == []
    ensures forall k :: 0 <= k < |lines| ==> forall j :: 0 <= j < |lines[k]| ==> !IsLineBreak(lines[k][j])
    decreases |s|
  {
    if s == [] then []
    else
      var i := FirstBreak(s);
      if i == |s| then [s]
      else
        var width := if s[i] == '\r' && i + 1 < |s| && s[i + 1] == '\n' then 2 else 1;
        [s[..i]] + SplitLines(s[i + width..])
  }

  /** What ends a line for `str.splitlines()`: one break character, or `\r\n` taken together. */
  predicate IsTerminator(t: string) {
    (|t| == 1 && IsLineBreak(t[0])) || t == "\r\n"
  }

  /** Each line followed by its terminator, all concatenated. */
  function Rejoin(lines: seq<string>, ends: seq<string>): string
    requires |lines| == |ends|
  {
    if lines == [] then "" else lines[0] + ends[0] + Rejoin(lines[1..], ends[1..])
  }

  /**
   * `lines` with `ends` are the segments of `s` between line boundaries:
   * every line but the last is followed by a terminator, the last by a
   * terminator or nothing, no segment is empty, and a `\r` ends a line on
   * its own only when no `\n` follows it.
   */
  predicate Segments(lines: seq<string>, ends: seq<string>, s: string) {
    && |ends| == |lines|
    && Rejoin(lines, ends) == s
    && (forall k :: 0 <= k < |ends| - 1 ==> IsTerminator(ends[k]))
    && (forall k :: 0 <= k < |ends| ==> lines[k] + ends[k] != [])
    && (|ends| > 0 ==> ends[|ends| - 1] == [] || IsTerminator(ends[|ends| - 1]))
    && (forall k :: 0 <= k < |ends| - 1 && ends[k] == "\r" ==> (lines[k + 1] + ends[k + 1])[0] != '\n')
  }

  /** A line and its terminator put in front of the segments of the rest. */
  lemma SegmentsCons(head: string, term: string, rest: string, lines: seq<string>, ends: seq<string>)
    requires Segments(lines, ends, rest)
    requires IsTerminator(term)
    requires term == "\r" && rest != [] ==> rest[0] != '\n'
    ensures Segments([head] + lines, [term] + ends, head + term + rest)
  {
    var lines', ends' := [head] + lines, [term] + ends;
    assert lines'[1..] == lines && ends'[1..] == ends;
    forall k | 0 <= k < |ends'| - 1 && ends'[k] == "\r"
      ensures (lines'[k + 1] + ends'[k + 1])[0] != '\n'
    {
      if k == 0 {
        RejoinHead(lines, ends);
      } else {
        assert lines'[k + 1] == lines[k] && ends'[k + 1] == ends[k];
      }
    }
    forall k | 0 <= k < |ends'| - 1 ensures IsTerminator(ends'[k]) {
      if k > 0 { assert ends'[k] == ends[k - 1]; }
    }
    forall k | 0 <= k < |ends'| ensures lines'[k] + ends'[k] != [] {
      if k > 0 { assert lines'[k] == lines[k - 1] && ends'[k] == ends[k - 1]; }
    }
  }

  /** The first line, its terminator and the text after it, when the text holds a line break. */
  lemma FirstSegment(s: string) returns (term: string, rest: string)
    requires FirstBreak(s) < |s|
    ensures s == s[..FirstBreak(s)] + term + rest && |rest| < |s|
    ensures IsTerminator(term)
    ensures term == "\r" && rest != [] ==> rest[0] != '\n'
    ensures SplitLines(s) == [s[..FirstBreak(s)]] + SplitLines(rest)
  {
    var i := FirstBreak(s);
    var width := if s[i] == '\r' && i + 1 < |s| && s[i + 1] == '\n' then 2 else 1;
    term, rest := s[i..i + width], s[i + width..];
    if width == 2 {
      assert term == "\r\n";
    } else if rest != [] {
      assert rest[0] == s[i + 1];
    }
    assert s == s[..i] + term + rest;
  }

  /** The lines of `splitlines()` are the text's segments between line boundaries, `\r\n` being one boundary. */
  lemma {:induction false} SplitLinesSegments(s: string) returns (ends: seq<string>)
    ensures Segments(SplitLines(s), ends, s)
    decreases |s|
  {
    if s == [] {
      ends := [];
    } else if FirstBreak(s) == |s| {
      ends := [""];
      assert Rejoin([s], [""]) == s + "" + Rejoin([], []);
    } else {
      var term, rest := FirstSegment(s);
      var restEnds := SplitLinesSegments(rest);
      SegmentsCons(s[..FirstBreak(s)], term, rest, SplitLines(rest), restEnds);
      ends := [term] + restEnds;
    }
  }

  /** A non-empty first segment starts the rejoined text. */
  lemma RejoinHead(lines: seq<string>, ends: seq<string>)
    requires |lines| == |ends| > 0 && lines[0] + ends[0] != []
    ensures Rejoin(lines, ends) != [] && Rejoin(lines, ends)[0] == (lines[0] + ends[0])[0]
  {
    var head := lines[0] + ends[0];
    assert Rejoin(lines, ends) == head + Rejoin(lines[1..], ends[1..]);
  }

  function DigitChar(d: nat): (c: char)
    requires d < 10
    ensures IsDigit(c) && c as int - '0' as int == d
  {
    ('0' as int + d) as char
  }

  function DigitValue(c: char): (d: nat)
    requires IsDigit(c)
    ensures d < 10 && DigitChar(d) == c
  {
    (c as int - '0' as int)
  }

  /** `str(n)` for a natural number: decimal digits, no leading zero. */
  function NatToString(n: nat): (r: string)
    ensures |r| >= 1
    ensures forall k :: 0 <= k < |r| ==> IsDigit(r[k])
    ensures |r| > 1 ==> r[0] != '0'
  {
    if n < 10 then [DigitChar(n)] else NatToString(n / 10) + [DigitChar(n % 10)]
  }

  /** The value of a string of decimal digits. */
  function DecimalValue(s: string): nat
    requires forall k :: 0 <= k < |s| ==> IsDigit(s[k])
  {
    if s == [] then 0 else 10 * DecimalValue(s[..|s| - 1]) + DigitValue(s[|s| - 1])
  }

  /** Reading back what `NatToString` wrote gives the number. */
  lemma {:induction false} NatToStringRoundTrip(n: nat)
    ensures DecimalValue(NatToString(n)) == n
  {
    if n >= 10 {
      NatToStringRoundTrip(n / 10);
      var s := NatToString(n);
      assert s[..|s| - 1] == NatToString(n / 10);
    }
  }
}
