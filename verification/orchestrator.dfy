/**
 * The string rules around the network call in `models/aihackathon.py`:
 * pulling the fenced markdown out of the model's reply, choosing the PDF
 * file name and path, and the outcome dictionary of `generate_report`.
 * The HTTP request, the clock and the file system are parameters.
 */
module Orchestrator {
  import opened Wrappers
  import opened Text
  import opened Markdown
  import opened Story

  // ---------------------------------------------------------------------
  // Fence extraction: re.search(r"```(?:markdown)?\s*(.*?)\s*```", text, re.DOTALL)
  // ---------------------------------------------------------------------

  const Fence: string := "```"
  const MarkdownTag: string := "markdown"

  predicate FenceAt(s: string, p: nat) {
    p + 3 <= |s| && s[p..p + 3] == Fence
  }

  /** The first fence starting at or after `i`, or `|s|` when there is none. */
  function FindFence(s: string, i: nat): (p: nat)
    requires i <= |s|
    ensures i <= p <= |s|
    ensures p < |s| ==> FenceAt(s, p)
    ensures forall k :: i <= k < p ==> !FenceAt(s, k)
    decreases |s| - i
  {
    if i == |s| || FenceAt(s, i) then i else FindFence(s, i + 1)
  }

  /**
   * The lazy group `(.*?)` followed by `\s*```` : the smallest end `e`
   * (from `e` on) at which optional whitespace and then a fence follow,
   * or `|s|` when the scan runs off the end.
   */
  function LazyEnd(s: string, e: nat): (r: nat)
    requires e <= |s|
    ensures e <= r <= |s|
    ensures r == |s| || FenceAt(s, SkipSpaces(s, r))
    ensures forall k :: e <= k < r ==> !FenceAt(s, SkipSpaces(s, k))
    decreases |s| - e
  {
    if e == |s| || FenceAt(s, SkipSpaces(s, e)) then e else LazyEnd(s, e + 1)
  }

  /**
   * The regex attempt after the opening fence (and tag), from `q`: `\s*`
   * takes all the whitespace (giving it back never helps, since the
   * closing fence starts with a non-space), then the lazy group.
   */
  function MatchFrom(s: string, q: nat): Option<string>
    requires q <= |s|
  {
    var g := SkipSpaces(s, q);
    var e := LazyEnd(s, g);
    if FenceAt(s, SkipSpaces(s, e)) then Some(s[g..e]) else None
  }

  /** The regex attempt at start `p`: the `markdown` tag is tried first, then no tag. */
  function MatchAt(s: string, p: nat): Option<string>
    requires p <= |s|
  {
    if !FenceAt(s, p) then None
    else if StartsWith(s[p + 3..], MarkdownTag) && MatchFrom(s, p + 11).Some? then MatchFrom(s, p + 11)
    else MatchFrom(s, p + 3)
  }

  /** `re.search`: the leftmost start at which the pattern matches; the result is group 1. */
  function Search(s: string, p: nat): Option<string>
    requires p <= |s|
    decreases |s| - p
  {
    if p == |s| then None
    else if MatchAt(s, p).Some? then MatchAt(s, p)
    else Search(s, p + 1)
  }

  /** The markdown taken from the model's reply (models/aihackathon.py:100-103). */
  function ExtractMarkdown(text: string): (md: string)
    ensures md == [] || (!IsSpace(md[0]) && !IsSpace(md[|md| - 1]))
  {
    match Search(text, 0)
    case Some(group) => Strip(group)
    case None => Strip(text)
  }

  /** Where the content begins after the opening fence at `p`: past the `markdown` tag when it is there. */
  function AfterOpening(s: string, p: nat): (q: nat)
    requires FenceAt(s, p)
    ensures p + 3 <= q <= |s|
  {
    if StartsWith(s[p + 3..], MarkdownTag) then p + 11 else p + 3
  }

  /** The fenced region: an opening fence and a later closing one exist. */
  predicate HasFencedBlock(s: string) {
    var p := FindFence(s, 0);
    p < |s| && FindFence(s, AfterOpening(s, p)) < |s|
  }

  /** The text between the first opening fence (and tag) and the next fence. */
  function FencedContent(s: string): string
    requires HasFencedBlock(s)
  {
    var q := AfterOpening(s, FindFence(s, 0));
    s[q..FindFence(s, q)]
  }

  lemma NoFenceInSpaces(s: string, k: nat)
    requires k < |s| && IsSpace(s[k])
    ensures !FenceAt(s, k)
  {
    if k + 3 <= |s| {
      assert s[k..k + 3][0] == s[k];
    }
  }

  /** A non-space stops whitespace skipping. */
  lemma {:induction false} SkipSpacesStops(s: string, i: nat, c: nat)
    requires i <= c < |s| && !IsSpace(s[c])
    ensures SkipSpaces(s, i) <= c
    decreases c - i
  {
    if i < c && IsSpace(s[i]) {
      SkipSpacesStops(s, i + 1, c);
    }
  }

  /** The lazy scan stops at the latest at an end followed directly by a fence. */
  lemma {:induction false} LazyEndBound(s: string, e: nat, c: nat)
    requires e <= c < |s| && FenceAt(s, c)
    ensures LazyEnd(s, e) <= c
    decreases c - e
  {
    assert s[c] == '`' by { assert s[c..c + 3][0] == s[c]; }
    assert SkipSpaces(s, c) == c;
    if e < c && !FenceAt(s, SkipSpaces(s, e)) {
      LazyEndBound(s, e + 1, c);
    }
  }

  /** Without a later fence the attempt from `q` fails. */
  lemma MatchFromNone(s: string, q: nat)
    requires q <= |s| && FindFence(s, q) == |s|
    ensures MatchFrom(s, q) == None
  {
    var g := SkipSpaces(s, q);
    var e := LazyEnd(s, g);
    assert !FenceAt(s, SkipSpaces(s, e));
  }

  lemma FenceStartsWithTick(s: string, c: nat)
    requires FenceAt(s, c)
    ensures c < |s| && s[c] == '`' && !IsSpace(s[c])
  {
    assert s[c..c + 3][0] == s[c];
  }

  /** The lazy group ends where only whitespace separates it from the first later fence. */
  lemma GroupEnd(s: string, q: nat)
    requires q <= |s| && FindFence(s, q) < |s|
    ensures var g := SkipSpaces(s, q); var e := LazyEnd(s, g);
      e <= FindFence(s, q) && SkipSpaces(s, e) == FindFence(s, q)
  {
    var c := FindFence(s, q);
    FenceStartsWithTick(s, c);
    var g := SkipSpaces(s, q);
    SkipSpacesStops(s, q, c);
    LazyEndBound(s, g, c);
    var e := LazyEnd(s, g);
    SkipSpacesStops(s, e, c);
    assert FenceAt(s, SkipSpaces(s, e));
  }

  /** A non-empty group ends in a non-space: one character less would already reach the fence. */
  lemma GroupLastChar(s: string, g: nat, e: nat)
    requires g < e < |s| && e == LazyEnd(s, g)
    ensures !IsSpace(s[e - 1])
  {
    assert FenceAt(s, SkipSpaces(s, e));
    assert !FenceAt(s, SkipSpaces(s, e - 1));
  }

  /**
   * With a later fence at `c`, the attempt from `q` succeeds and its group
   * `s[g..e]` sits between whitespace runs `s[q..g]` and `s[e..c]`.
   */
  lemma MatchFromFound(s: string, q: nat) returns (g: nat, e: nat)
    requires q <= |s| && FindFence(s, q) < |s|
    ensures q <= g <= e <= FindFence(s, q)
    ensures MatchFrom(s, q) == Some(s[g..e])
    ensures forall k :: q <= k < g ==> IsSpace(s[k])
    ensures forall k :: e <= k < FindFence(s, q) ==> IsSpace(s[k])
    ensures g < e ==> !IsSpace(s[g]) && !IsSpace(s[e - 1])
  {
    g := SkipSpaces(s, q);
    e := LazyEnd(s, g);
    GroupEnd(s, q);
    if g < e {
      FenceStartsWithTick(s, FindFence(s, q));
      GroupLastChar(s, g, e);
    }
  }

  lemma SliceThree(s: string, q: nat, g: nat, e: nat, c: nat)
    requires q <= g <= e <= c <= |s|
    ensures s[q..c] == s[q..g] + s[g..e] + s[e..c]
  {
  }

  lemma SliceSpaces(s: string, i: nat, j: nat)
    requires i <= j <= |s| && forall k :: i <= k < j ==> IsSpace(s[k])
    ensures forall k :: 0 <= k < |s[i..j]| ==> IsSpace(s[i..j][k])
  {
  }

  lemma SliceEnds(s: string, i: nat, j: nat)
    requires i < j <= |s|
    ensures s[i..j][0] == s[i] && s[i..j][|s[i..j]| - 1] == s[j - 1]
  {
  }

  /** The group is the stripped text up to the first later fence. */
  lemma MatchFromStrip(s: string, q: nat)
    requires q <= |s| && FindFence(s, q) < |s|
    ensures MatchFrom(s, q).Some?
    ensures Strip(s[q..FindFence(s, q)]) == MatchFrom(s, q).value
  {
    var g, e := MatchFromFound(s, q);
    StripBetweenSpaces(s, q, g, e, FindFence(s, q));
  }

  /** Text framed by whitespace runs strips to the trimmed text in the middle. */
  lemma StripBetweenSpaces(s: string, q: nat, g: nat, e: nat, c: nat)
    requires q <= g <= e <= c <= |s|
    requires forall k :: q <= k < g ==> IsSpace(s[k])
    requires forall k :: e <= k < c ==> IsSpace(s[k])
    requires g < e ==> !IsSpace(s[g]) && !IsSpace(s[e - 1])
    ensures Strip(s[q..c]) == s[g..e]
  {
    SliceSpaces(s, q, g);
    SliceSpaces(s, e, c);
    if g < e {
      SliceEnds(s, g, e);
    }
    SliceThree(s, q, g, e, c);
    StripAround(s[q..g], s[g..e], s[e..c]);
  }

  /** The group holds no fence of its own. */
  lemma MatchFromNoFence(s: string, q: nat)
    requires q <= |s| && FindFence(s, q) < |s|
    ensures MatchFrom(s, q).Some?
    ensures forall f :: 0 <= f <= |MatchFrom(s, q).value| - 3 ==> !FenceAt(MatchFrom(s, q).value, f)
  {
    var c := FindFence(s, q);
    var g, e := MatchFromFound(s, q);
    var m := s[g..e];
    forall f | 0 <= f <= |m| - 3 ensures !FenceAt(m, f) {
      SubSlice(s, g, e, f);
      assert q <= g + f < c;
      assert !FenceAt(s, g + f);
    }
  }

  lemma SubSlice(s: string, g: nat, e: nat, f: nat)
    requires g <= e <= |s| && f + 3 <= e - g
    ensures s[g..e][f..f + 3] == s[g + f..g + f + 3]
  {
    var m := s[g..e];
    var w := m[f..f + 3];
    assert w[0] == s[g + f] && w[1] == s[g + f + 1] && w[2] == s[g + f + 2];
  }

  /** A match can only start at the first fence; a later start never succeeds when that one fails. */
  lemma {:induction false} SearchFromFirst(s: string, p: nat)
    requires p <= |s|
    requires forall k :: p <= k < |s| && FenceAt(s, k) ==> FindFence(s, k + 3) == |s|
    ensures Search(s, p) == None
    decreases |s| - p
  {
    if p < |s| {
      if FenceAt(s, p) {
        MatchFromNone(s, p + 3);
        if StartsWith(s[p + 3..], MarkdownTag) {
          assert FindFence(s, p + 11) == |s|;
          MatchFromNone(s, p + 11);
        }
      }
      SearchFromFirst(s, p + 1);
    }
  }

  /** Positions before the first fence never start a match. */
  lemma {:induction false} SearchSkipsToFence(s: string, i: nat)
    requires i <= |s|
    ensures Search(s, i) == Search(s, FindFence(s, i))
    decreases |s| - i
  {
    if i < |s| && !FenceAt(s, i) {
      SearchSkipsToFence(s, i + 1);
    }
  }

  /** The `markdown` tag holds no backtick, so no fence starts inside it. */
  lemma NoFenceInTag(s: string, p: nat)
    requires FenceAt(s, p) && StartsWith(s[p + 3..], MarkdownTag)
    ensures forall k :: p + 3 <= k < p + 11 ==> !FenceAt(s, k)
  {
    forall k | p + 3 <= k < p + 11 ensures !FenceAt(s, k) {
      assert s[k] == s[p + 3..][..8][k - p - 3] == MarkdownTag[k - p - 3];
      if k + 3 <= |s| {
        assert s[k..k + 3][0] == s[k];
      }
    }
  }

  /** Skipping the tag never passes a fence: the first fence after the opening one is the same either way. */
  lemma AfterTagSameFence(s: string, p: nat)
    requires FenceAt(s, p)
    ensures FindFence(s, AfterOpening(s, p)) == FindFence(s, p + 3)
  {
    if StartsWith(s[p + 3..], MarkdownTag) {
      NoFenceInTag(s, p);
      FindFenceFrom(s, p + 3, p + 11);
    }
  }

  lemma {:induction false} FindFenceFrom(s: string, i: nat, j: nat)
    requires i <= j <= |s|
    requires forall k :: i <= k < j ==> !FenceAt(s, k)
    ensures FindFence(s, i) == FindFence(s, j)
    decreases j - i
  {
    if i < j {
      FindFenceFrom(s, i + 1, j);
    }
  }

  /** At the first fence, the attempt is the one after the opening fence and tag. */
  lemma MatchAtOpening(s: string, p: nat)
    requires p < |s| && FenceAt(s, p)
    ensures MatchAt(s, p) == MatchFrom(s, AfterOpening(s, p))
  {
    AfterTagSameFence(s, p);
    if StartsWith(s[p + 3..], MarkdownTag) && MatchFrom(s, p + 11).None? {
      if FindFence(s, p + 11) < |s| {
        MatchFromStrip(s, p + 11);
      } else {
        MatchFromNone(s, p + 3);
      }
    }
  }

  /**
   * The fence rule: when the reply holds an opening fence (with an optional
   * `markdown` tag) and a later closing fence, the markdown is the stripped
   * text between the first such pair, and it holds no fence; otherwise it
   * is the whole reply, stripped.
   */
  lemma ExtractMarkdownSpec(text: string)
    ensures HasFencedBlock(text) ==> ExtractMarkdown(text) == Strip(FencedContent(text))
    ensures HasFencedBlock(text) ==>
      forall f :: 0 <= f <= |ExtractMarkdown(text)| - 3 ==> !FenceAt(ExtractMarkdown(text), f)
    ensures !HasFencedBlock(text) ==> ExtractMarkdown(text) == Strip(text)
  {
    var p := FindFence(text, 0);
    SearchSkipsToFence(text, 0);
    if p < |text| {
      var q := AfterOpening(text, p);
      MatchAtOpening(text, p);
      if FindFence(text, q) < |text| {
        MatchFromStrip(text, q);
        MatchFromNoFence(text, q);
        var m := MatchFrom(text, q).value;
        StripTrimmed(m);
      } else {
        MatchFromNone(text, q);
        AfterTagSameFence(text, p);
        SearchFromFirst(text, p + 1);
      }
    }
  }

  // ---------------------------------------------------------------------
  // File name and output path (models/aihackathon.py:299-307)
  // ---------------------------------------------------------------------

  /** The moment `datetime.now()` returned, passed in by the caller. */
  datatype DateTime = DateTime(year: nat, month: nat, day: nat, hour: nat, minute: nat, second: nat)

  predicate ValidDateTime(t: DateTime) {
    1 <= t.year <= 9999 && 1 <= t.month <= 12 && 1 <= t.day <= 31
    && t.hour < 24 && t.minute < 60 && t.second < 60
  }

  /** A zero-padded two-digit field (`%m`, `%d`, `%H`, `%M`, `%S`). */
  function Pad2(n: nat): (r: string)
    requires n < 100
    ensures |r| == 2 && IsDigit(r[0]) && IsDigit(r[1])
    ensures DecimalValue(r) == n
  {
    var r := [DigitChar(n / 10), DigitChar(n % 10)];
    assert r[..1] == [DigitChar(n / 10)] && r[..1][..0] == [];
    assert DecimalValue(r[..1]) == n / 10;
    r
  }

  /** `strftime("%Y%m%d_%H%M%S")`. */
  function Timestamp(t: DateTime): string
    requires ValidDateTime(t)
  {
    NatToString(t.year) + Pad2(t.month) + Pad2(t.day) + "_" + Pad2(t.hour) + Pad2(t.minute) + Pad2(t.second)
  }

  lemma FourDigitYear(y: nat)
    requires 1000 <= y <= 9999
    ensures |NatToString(y)| == 4
  {
    assert |NatToString(y / 1000)| == 1;
    assert y / 10 / 10 / 10 == y / 1000;
    assert |NatToString(y / 10 / 10)| == 2;
  }

  /** For years 1000 to 9999 the stamp is eight digits, an underscore and six digits. */
  lemma TimestampShape(t: DateTime)
    requires ValidDateTime(t) && t.year >= 1000
    ensures |Timestamp(t)| == 15 && Timestamp(t)[8] == '_'
    ensures forall k :: 0 <= k < 15 && k != 8 ==> IsDigit(Timestamp(t)[k])
  {
    FourDigitYear(t.year);
  }

  const PdfSuffix: string := ".pdf"
  const OutputDir: string := "./generated_reports"

  /** The file name when the caller gave none (or an empty one). */
  function DefaultFilename(now: DateTime): string
    requires ValidDateTime(now)
  {
    "AI_Report_" + Timestamp(now) + PdfSuffix
  }

  /** Appends `.pdf` unless the name already ends with it. */
  function EnsurePdf(name: string): (r: string)
    ensures EndsWith(r, PdfSuffix)
    ensures StartsWith(r, name) && |r| <= |name| + |PdfSuffix|
    ensures r == name <==> EndsWith(name, PdfSuffix)
  {
    var r := if EndsWith(name, PdfSuffix) then name else name + PdfSuffix;
    assert r[..|name|] == name;
    assert r[|r| - 4..] == PdfSuffix;
    r
  }

  /** Applying the suffix rule twice is the same as once. */
  lemma EnsurePdfIdempotent(name: string)
    ensures EnsurePdf(EnsurePdf(name)) == EnsurePdf(name)
  {
  }

  /** `if not filename` (both `None` and `""`), then the `.pdf` rule. */
  function ResolveFilename(filename: Option<string>, now: DateTime): (r: string)
    requires ValidDateTime(now)
    ensures EndsWith(r, PdfSuffix)
    ensures filename.Some? && filename.value != [] ==> StartsWith(r, filename.value)
  {
    var name := if filename.None? || filename.value == [] then DefaultFilename(now) else filename.value;
    EnsurePdf(name)
  }

  /** Without a usable name, the result is the time-stamped default, which already ends with `.pdf`. */
  lemma ResolveFilenameDefault(filename: Option<string>, now: DateTime)
    requires ValidDateTime(now)
    requires filename.None? || filename.value == []
    ensures ResolveFilename(filename, now) == "AI_Report_" + Timestamp(now) + ".pdf"
  {
    var d := DefaultFilename(now);
    assert d[|d| - 4..] == PdfSuffix;
  }

  /** `os.path.join(OUTPUT_DIR, filename)`: an absolute name replaces the directory. */
  function OutputPath(filename: string): (path: string)
    ensures EndsWith(path, filename)
    ensures StartsWith(path, OutputDir + "/") <==> !StartsWith(filename, "/")
  {
    var path := if StartsWith(filename, "/") then filename else OutputDir + "/" + filename;
    assert path[|path| - |filename|..] == filename;
    assert StartsWith(filename, "/") ==> path[0] == '/' != (OutputDir + "/")[0];
    path
  }

  // ---------------------------------------------------------------------
  // generate_report (models/aihackathon.py:291-332)
  // ---------------------------------------------------------------------

  const EmptyReplyMessage: string := "Empty response received from Ollama API"
  const SuccessMessage: string := "PDF report generated successfully"

  /** The dictionary `generate_report` returns. */
  datatype Response = Response(
    status: string,
    message: string,
    filename: Option<string>,
    path: Option<string>,
    sizeBytes: Option<nat>)

  function ErrorResponse(message: string): (r: Response)
    ensures r.status == "error" && r.message == message
    ensures r.filename.None? && r.path.None? && r.sizeBytes.None?
  {
    Response("error", message, None, None, None)
  }

  /**
   * `generate_report`. `reply` is what `fetch_markdown_from_ollama` saw from
   * the server before the fence rule (the raw `response` text, or the
   * message of the exception it raised), `written` is what writing the PDF
   * gave (its size in bytes, or the message of the exception). The second
   * result is the story handed to the PDF writer, when one was built.
   */
  method GenerateReport(filename: Option<string>, now: DateTime, reply: Result<string>, written: Result<nat>)
    returns (response: Response, rendered: Option<seq<Elem>>)
    requires ValidDateTime(now)
    ensures response.status == "success" <==>
      reply.Success? && ExtractMarkdown(reply.value) != [] && written.Success?
    ensures response.status == "success" ==>
      response == Response("success", SuccessMessage,
                           Some(ResolveFilename(filename, now)),
                           Some(OutputPath(ResolveFilename(filename, now))),
                           Some(written.value))
    ensures response.status != "success" ==>
      response.status == "error" && response.filename.None? && response.path.None? && response.sizeBytes.None?
    ensures reply.Failure? ==> response.message == reply.error
    ensures reply.Success? && ExtractMarkdown(reply.value) == [] ==> response.message == EmptyReplyMessage
    ensures rendered.Some? <==> reply.Success? && ExtractMarkdown(reply.value) != []
    ensures rendered.Some? ==> rendered.value == StorySpec(Parse(SplitLines(ExtractMarkdown(reply.value))))
    ensures rendered.Some? && written.Failure? ==> response.message == written.error
  {
    var name := ResolveFilename(filename, now);
    var outputPath := OutputPath(name);
    if reply.Failure? {
      return ErrorResponse(reply.error), None;
    }
    var markdown := ExtractMarkdown(reply.value);
    if markdown == [] {
      return ErrorResponse(EmptyReplyMessage), None;
    }
    var blocks := ParseMarkdown(markdown);
    ParsedIsRenderable(SplitLines(markdown));
    var story := BuildStory(blocks);
    rendered := Some(story);
    if written.Failure? {
      response := ErrorResponse(written.error);
    } else {
      response := Response("success", SuccessMessage, Some(name), Some(outputPath), Some(written.value));
    }
  }
}
