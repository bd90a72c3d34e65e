/**
 * The block parser of the report generator: one forward pass over the lines
 * of the markdown text that splits it into headings, paragraphs, bullet
 * lists, numbered lists and tables. It never fails; a line no rule claims
 * goes to the pending paragraph.
 *
 * `Parse` is the reference definition (one step per line or per run of
 * lines); `ParseMarkdown` is the cursor loop of the source, proved equal to it.
 */
module Markdown {
  import opened Text

  datatype Block =
    | H(level: nat, text: string)          // 'h1', 'h2', 'h3'
    | P(text: string)                      // 'p'
    | UL(items: seq<string>)               // 'ul'
    | OL(items: seq<string>)               // 'ol'
    | Table(rows: seq<seq<string>>)        // 'table'

  /** The shape every block the parser emits has. */
  predicate WellFormed(b: Block) {
    match b
    case H(level, text) => 1 <= level <= 3 && text != ""
    case P(text) => text != ""
    case UL(items) => items != []
    case OL(items) => items != []
    case Table(rows) => rows != [] && forall k :: 0 <= k < |rows| ==> rows[k] != []
  }

  // ---------------------------------------------------------------- line rules

  /** 1, 2 or 3 for a line starting with `# `, `## ` or `### ` (tested in that order), else 0. */
  function HeadingLevel(ln: string): nat {
    if StartsWith(ln, "# ") then 1
    else if StartsWith(ln, "## ") then 2
    else if StartsWith(ln, "### ") then 3
    else 0
  }

  /** `re.match(r'^\s*[-\*]\s+', line)`. */
  predicate IsBulletLine(line: string) {
    var j := SkipSpaces(line, 0);
    j + 1 < |line| && (line[j] == '-' || line[j] == '*') && IsSpace(line[j + 1])
  }

  /** `re.sub(r'^\s*[-\*]\s+', '', line)`: the greedy match is removed, or nothing. */
  function RemoveBulletMarker(line: string): string {
    if IsBulletLine(line) then line[SkipSpaces(line, SkipSpaces(line, 0) + 1)..] else line
  }

  /** `re.match(r'^\s*\d+\.\s+', line)` (digits are ASCII digits here). */
  predicate IsNumberedLine(line: string) {
    var j := SkipSpaces(line, 0);
    var k := SkipDigits(line, j);
    j < k && k + 1 < |line| && line[k] == '.' && IsSpace(line[k + 1])
  }

  /** `re.sub(r'^\s*\d+\.\s+', '', line)`. */
  function RemoveNumberMarker(line: string): string {
    if IsNumberedLine(line) then line[SkipSpaces(line, SkipDigits(line, SkipSpaces(line, 0)) + 1)..] else line
  }

  predicate HasPipe(line: string) {
    '|' in line
  }

  /** A line that ends a run of list or table lines and flushes the paragraph. */
  predicate IsBlankLine(line: string) {
    RStrip(line) == ""
  }

  /** A list marker found on the right-stripped line is also found on the line itself. */
  lemma BulletLineOfStripped(line: string)
    requires IsBulletLine(RStrip(line))
    ensures IsBulletLine(line)
  {
    var t := RStrip(line);
    SkipSpacesPrefix(t, line, 0);
  }

  lemma NumberedLineOfStripped(line: string)
    requires IsNumberedLine(RStrip(line))
    ensures IsNumberedLine(line)
  {
    var t := RStrip(line);
    SkipSpacesPrefix(t, line, 0);
    var j := SkipSpaces(t, 0);
    SkipDigitsPrefix(t, line, j);
  }

  lemma {:induction false} SkipDigitsPrefix(t: string, s: string, i: nat)
    requires i <= |t| <= |s| && t == s[..|t|]
    requires SkipDigits(t, i) < |t|
    ensures SkipDigits(s, i) == SkipDigits(t, i)
    decreases |t| - i
  {
    if IsDigit(t[i]) {
      SkipDigitsPrefix(t, s, i + 1);
    }
  }

  /** A `|` found on the right-stripped line is on the line itself. */
  lemma PipeOfStripped(line: string)
    requires HasPipe(RStrip(line))
    ensures HasPipe(line)
  {
    var t := RStrip(line);
    var k :| 0 <= k < |t| && t[k] == '|';
    assert line[k] == '|';
  }

  lemma BlankLineMatchesNothing(line: string)
    requires IsBlankLine(line)
    ensures !IsBulletLine(line) && !IsNumberedLine(line) && !HasPipe(line)
  {
    assert forall k :: 0 <= k < |line| ==> IsSpace(line[k]);
  }

  // ---------------------------------------------------------------- runs of lines

  /** The end of the maximal run of lines from `i` on that all satisfy `matches`. */
  function RunEnd(lines: seq<string>, i: nat, matches: string -> bool): (j: nat)
    requires i <= |lines|
    ensures i <= j <= |lines|
    ensures forall k :: i <= k < j ==> matches(lines[k])
    ensures j < |lines| ==> !matches(lines[j])
    decreases |lines| - i
  {
    if i == |lines| || !matches(lines[i]) then i else RunEnd(lines, i + 1, matches)
  }

  /** The run ends at the only index from which every line before matches and the line at it does not. */
  lemma {:induction false} RunEndUnique(lines: seq<string>, i: nat, j: nat, matches: string -> bool)
    requires i <= j <= |lines|
    requires forall k :: i <= k < j ==> matches(lines[k])
    requires j < |lines| ==> !matches(lines[j])
    ensures RunEnd(lines, i, matches) == j
    decreases j - i
  {
    if i < j {
      RunEndUnique(lines, i + 1, j, matches);
    }
  }

  /** One list item: the line with its marker removed, stripped. */
  function BulletItem(line: string): string {
    Strip(RemoveBulletMarker(line))
  }

  function NumberedItem(line: string): string {
    Strip(RemoveNumberMarker(line))
  }

  // ---------------------------------------------------------------- tables

  /** A cell of the separator pattern: `\s*-{2,}\s*`. */
  predicate IsDashCell(cell: string) {
    var t := Strip(cell);
    |t| >= 2 && forall k :: 0 <= k < |t| ==> t[k] == '-'
  }

  /**
   * The language of `^\s*\|?\s*-{2,}\s*(\|\s*-{2,}\s*)+\|?\s*$`: an optional
   * leading and trailing `|`, and at least two dash cells between them.
   */
  predicate IsSeparatorRow(row: string) {
    SeparatorParts(SplitOn(row, '|'))
  }

  /** The pieces between the pipes of a separator row: optional blank edges around two or more dash cells. */
  predicate SeparatorParts(parts: seq<string>) {
    var b := DropBlankEdges(parts);
    |b| >= 2 && AllDashCells(b)
  }

  /** One blank piece dropped at each end: the optional `\s*\|?\s*` at the start and `\|?\s*` at the end. */
  function DropBlankEdges(parts: seq<string>): seq<string> {
    var a := if |parts| > 0 && Strip(parts[0]) == "" then parts[1..] else parts;
    if |a| > 0 && Strip(a[|a| - 1]) == "" then a[..|a| - 1] else a
  }

  predicate AllDashCells(cells: seq<string>) {
    forall k :: 0 <= k < |cells| ==> IsDashCell(cells[k])
  }

  /** The row split on `|`, each cell stripped, one empty edge cell dropped at each end. */
  function RowCells(row: string): seq<string> {
    DropEdgeCells(StripAll(SplitOn(row, '|')))
  }

  function DropEdgeCells(cells: seq<string>): seq<string> {
    var a := if |cells| > 0 && cells[0] == "" then cells[1..] else cells;
    if |a| > 0 && a[|a| - 1] == "" then a[..|a| - 1] else a
  }

  /** The rows a run of (stripped) table lines yields: separators and empty rows dropped. */
  function TableRows(texts: seq<string>): (rows: seq<seq<string>>)
    ensures |rows| <= |texts|
    ensures forall k :: 0 <= k < |rows| ==> rows[k] != []
  {
    if texts == [] then []
    else
      var last := texts[|texts| - 1];
      TableRows(texts[..|texts| - 1])
        + (if IsSeparatorRow(last) || RowCells(last) == [] then [] else [RowCells(last)])
  }

  /** No table block for a table left without rows. */
  function TableBlock(rows: seq<seq<string>>): seq<Block> {
    if rows == [] then [] else [Table(rows)]
  }

  // ---------------------------------------------------------------- paragraphs

  /** `push_paragraph`: the buffered lines, stripped, joined by one space and stripped again. */
  function Flush(buf: seq<string>): (r: seq<Block>)
    ensures buf == [] <==> r == []
    ensures r == [] || (|r| == 1 && r[0].P?)
  {
    if buf == [] then [] else [P(Paragraph(buf))]
  }

  /** The text of the paragraph flushed from a non-empty buffer. */
  function Paragraph(buf: seq<string>): string {
    Strip(JoinWith(" ", StripAll(buf)))
  }

  // ---------------------------------------------------------------- the parser

  /**
   * What one pass of the loop body does at the cursor: the blocks it
   * appends, the cursor it moves to and the paragraph buffer it leaves.
   */
  datatype Step = Step(emitted: seq<Block>, next: nat, pending: seq<string>)

  /**
   * One pass of the loop body at line `i`, the rules tried in the source's
   * order: blank line, heading, bullet run, numbered run, table run,
   * paragraph line.
   */
  function StepAt(lines: seq<string>, i: nat, buf: seq<string>): (st: Step)
    requires i < |lines|
    ensures i < st.next <= |lines|
  {
    var ln := RStrip(lines[i]);
    var level := HeadingLevel(ln);
    if ln == "" then
      Step(Flush(buf), i + 1, [])
    else if level > 0 then
      Step(Flush(buf) + [H(level, Strip(ln[level + 1..]))], i + 1, [])
    else if IsBulletLine(ln) then
      BulletLineOfStripped(lines[i]);
      var j := RunEnd(lines, i, IsBulletLine);
      Step(Flush(buf) + [UL(MapEach(lines[i..j], BulletItem))], j, [])
    else if IsNumberedLine(ln) then
      NumberedLineOfStripped(lines[i]);
      var j := RunEnd(lines, i, IsNumberedLine);
      Step(Flush(buf) + [OL(MapEach(lines[i..j], NumberedItem))], j, [])
    else if HasPipe(ln) then
      PipeOfStripped(lines[i]);
      var j := RunEnd(lines, i, HasPipe);
      Step(Flush(buf) + TableBlock(TableRows(MapEach(lines[i..j], Strip))), j, [])
    else
      Step([], i + 1, buf + [ln])
  }

  /** The blocks the input yields from cursor `i` on, `buf` being the pending paragraph. */
  function ParseFrom(lines: seq<string>, i: nat, buf: seq<string>): seq<Block>
    requires i <= |lines|
    decreases |lines| - i
  {
    if i == |lines| then Flush(buf)
    else
      var st := StepAt(lines, i, buf);
      st.emitted + ParseFrom(lines, st.next, st.pending)
  }

  function Parse(lines: seq<string>): seq<Block> {
    ParseFrom(lines, 0, [])
  }

  // One lemma per rule of `StepAt`.

  lemma BlankStep(lines: seq<string>, i: nat, buf: seq<string>)
    requires i < |lines| && RStrip(lines[i]) == ""
    ensures StepAt(lines, i, buf) == Step(Flush(buf), i + 1, [])
    ensures ParseFrom(lines, i, buf) == Flush(buf) + ParseFrom(lines, i + 1, [])
  {
  }

  lemma HeadingStep(lines: seq<string>, i: nat, buf: seq<string>)
    requires i < |lines| && RStrip(lines[i]) != "" && HeadingLevel(RStrip(lines[i])) > 0
    ensures var ln := RStrip(lines[i]); var level := HeadingLevel(ln);
      StepAt(lines, i, buf) == Step(Flush(buf) + [H(level, Strip(ln[level + 1..]))], i + 1, [])
  {
  }

  /** A bullet line starts a list of the items of the maximal run of bullet lines `i..j`. */
  lemma BulletStep(lines: seq<string>, i: nat, j: nat, buf: seq<string>)
    requires i < j <= |lines|
    requires var ln := RStrip(lines[i]); ln != "" && HeadingLevel(ln) == 0 && IsBulletLine(ln)
    requires forall k :: i <= k < j ==> IsBulletLine(lines[k])
    requires j < |lines| ==> !IsBulletLine(lines[j])
    ensures StepAt(lines, i, buf) == Step(Flush(buf) + [UL(MapEach(lines[i..j], BulletItem))], j, [])
    ensures ParseFrom(lines, i, buf) == Flush(buf) + [UL(MapEach(lines[i..j], BulletItem))] + ParseFrom(lines, j, [])
  {
    RunEndUnique(lines, i, j, IsBulletLine);
  }

  lemma NumberedStep(lines: seq<string>, i: nat, j: nat, buf: seq<string>)
    requires i < j <= |lines|
    requires var ln := RStrip(lines[i]);
      ln != "" && HeadingLevel(ln) == 0 && !IsBulletLine(ln) && IsNumberedLine(ln)
    requires forall k :: i <= k < j ==> IsNumberedLine(lines[k])
    requires j < |lines| ==> !IsNumberedLine(lines[j])
    ensures StepAt(lines, i, buf) == Step(Flush(buf) + [OL(MapEach(lines[i..j], NumberedItem))], j, [])
    ensures ParseFrom(lines, i, buf) == Flush(buf) + [OL(MapEach(lines[i..j], NumberedItem))] + ParseFrom(lines, j, [])
  {
    RunEndUnique(lines, i, j, IsNumberedLine);
  }

  lemma TableStep(lines: seq<string>, i: nat, j: nat, buf: seq<string>)
    requires i < j <= |lines|
    requires var ln := RStrip(lines[i]);
      ln != "" && HeadingLevel(ln) == 0 && !IsBulletLine(ln) && !IsNumberedLine(ln) && HasPipe(ln)
    requires forall k :: i <= k < j ==> HasPipe(lines[k])
    requires j < |lines| ==> !HasPipe(lines[j])
    ensures StepAt(lines, i, buf) == Step(Flush(buf) + TableBlock(TableRows(MapEach(lines[i..j], Strip))), j, [])
  {
    RunEndUnique(lines, i, j, HasPipe);
  }

  lemma PlainStep(lines: seq<string>, i: nat, buf: seq<string>)
    requires i < |lines|
    requires var ln := RStrip(lines[i]);
      ln != "" && HeadingLevel(ln) == 0 && !IsBulletLine(ln) && !IsNumberedLine(ln) && !HasPipe(ln)
    ensures StepAt(lines, i, buf) == Step([], i + 1, buf + [RStrip(lines[i])])
    ensures ParseFrom(lines, i, buf) == ParseFrom(lines, i + 1, buf + [RStrip(lines[i])])
  {
  }

  /**
   * The inner `while` of the list and table branches: `item(line)` for each
   * line of the maximal run from `i` whose lines satisfy `matches`.
   */
  method CollectRun(lines: seq<string>, i: nat, matches: string -> bool, item: string -> string)
    returns (items: seq<string>, j: nat)
    requires i <= |lines|
    ensures j == RunEnd(lines, i, matches)
    ensures items == MapEach(lines[i..j], item)
  {
    items, j := [], i;
    while j < |lines| && matches(lines[j])
      invariant i <= j <= |lines|
      invariant RunEnd(lines, j, matches) == RunEnd(lines, i, matches)
      invariant items == MapEach(lines[i..j], item)
      decreases |lines| - j
    {
      items := items + [item(lines[j])];
      j := j + 1;
    }
  }

  lemma TableRowsSnoc(texts: seq<string>, r: nat)
    requires r < |texts|
    ensures var row := texts[r];
      TableRows(texts[..r + 1]) == TableRows(texts[..r])
        + (if IsSeparatorRow(row) || RowCells(row) == [] then [] else [RowCells(row)])
  {
    assert texts[..r + 1][..r] == texts[..r];
  }

  /** The `for row in table_lines` loop: separators skipped, edge cells dropped, empty rows dropped. */
  method CollectRows(tableLines: seq<string>) returns (rows: seq<seq<string>>)
    ensures rows == TableRows(tableLines)
  {
    rows := [];
    for r := 0 to |tableLines|
      invariant rows == TableRows(tableLines[..r])
    {
      TableRowsSnoc(tableLines, r);
      var row := tableLines[r];
      if IsSeparatorRow(row) {
        continue;
      }
      var cells := RowCells(row);
      if cells != [] {
        rows := rows + [cells];
      }
    }
    assert tableLines[..|tableLines|] == tableLines;
  }

  /**
   * One pass of the body of the `while` loop of `parse_markdown` at cursor `i`:
   * it appends the blocks of `StepAt`, leaves its buffer and moves the cursor
   * where `StepAt` says.
   */
  method ParseLine(lines: seq<string>, i: nat, blocks: seq<Block>, paraBuf: seq<string>)
    returns (blocks': seq<Block>, paraBuf': seq<string>, i': nat)
    requires i < |lines|
    ensures var st := StepAt(lines, i, paraBuf);
      blocks' == blocks + st.emitted && paraBuf' == st.pending && i' == st.next
  {
    var ln := RStrip(lines[i]);
    if ln == "" {
      BlankStep(lines, i, paraBuf);
      blocks', paraBuf', i' := blocks + Flush(paraBuf), [], i + 1;
    } else if HeadingLevel(ln) > 0 {
      HeadingStep(lines, i, paraBuf);
      var level := HeadingLevel(ln);
      blocks', paraBuf', i' := blocks + (Flush(paraBuf) + [H(level, Strip(ln[level + 1..]))]), [], i + 1;
    } else if IsBulletLine(ln) {
      blocks', paraBuf', i' := ParseBulletRun(lines, i, blocks, paraBuf);
    } else if IsNumberedLine(ln) {
      blocks', paraBuf', i' := ParseNumberedRun(lines, i, blocks, paraBuf);
    } else if HasPipe(ln) {
      blocks', paraBuf', i' := ParseTableRun(lines, i, blocks, paraBuf);
    } else {
      PlainStep(lines, i, paraBuf);
      blocks', paraBuf', i' := blocks, paraBuf + [ln], i + 1;
    }
  }

  /** The `ul` branch: flush, then one list of the items of the maximal run of bullet lines. */
  method ParseBulletRun(lines: seq<string>, i: nat, blocks: seq<Block>, paraBuf: seq<string>)
    returns (blocks': seq<Block>, paraBuf': seq<string>, i': nat)
    requires i < |lines|
    requires var ln := RStrip(lines[i]); ln != "" && HeadingLevel(ln) == 0 && IsBulletLine(ln)
    ensures var st := StepAt(lines, i, paraBuf);
      blocks' == blocks + st.emitted && paraBuf' == st.pending && i' == st.next
  {
    BulletLineOfStripped(lines[i]);
    var items, j := CollectRun(lines, i, IsBulletLine, BulletItem);
    BulletStep(lines, i, j, paraBuf);
    blocks', paraBuf', i' := blocks + (Flush(paraBuf) + [UL(items)]), [], j;
  }

  /** The `ol` branch: flush, then one list of the items of the maximal run of numbered lines. */
  method ParseNumberedRun(lines: seq<string>, i: nat, blocks: seq<Block>, paraBuf: seq<string>)
    returns (blocks': seq<Block>, paraBuf': seq<string>, i': nat)
    requires i < |lines|
    requires var ln := RStrip(lines[i]);
      ln != "" && HeadingLevel(ln) == 0 && !IsBulletLine(ln) && IsNumberedLine(ln)
    ensures var st := StepAt(lines, i, paraBuf);
      blocks' == blocks + st.emitted && paraBuf' == st.pending && i' == st.next
  {
    NumberedLineOfStripped(lines[i]);
    var items, j := CollectRun(lines, i, IsNumberedLine, NumberedItem);
    NumberedStep(lines, i, j, paraBuf);
    blocks', paraBuf', i' := blocks + (Flush(paraBuf) + [OL(items)]), [], j;
  }

  /** The `table` branch: flush, then a table of the rows of the maximal run of lines with a pipe, if any. */
  method ParseTableRun(lines: seq<string>, i: nat, blocks: seq<Block>, paraBuf: seq<string>)
    returns (blocks': seq<Block>, paraBuf': seq<string>, i': nat)
    requires i < |lines|
    requires var ln := RStrip(lines[i]);
      ln != "" && HeadingLevel(ln) == 0 && !IsBulletLine(ln) && !IsNumberedLine(ln) && HasPipe(ln)
    ensures var st := StepAt(lines, i, paraBuf);
      blocks' == blocks + st.emitted && paraBuf' == st.pending && i' == st.next
  {
    PipeOfStripped(lines[i]);
    var tableLines, j := CollectRun(lines, i, HasPipe, Strip);
    var rows := CollectRows(tableLines);
    TableStep(lines, i, j, paraBuf);
    blocks', paraBuf', i' := blocks + Flush(paraBuf), [], j;
    if rows != [] {
      blocks' := blocks' + [Table(rows)];
      Associate(blocks, Flush(paraBuf), [Table(rows)]);
    } else {
      assert Flush(paraBuf) + TableBlock(rows) == Flush(paraBuf);
    }
  }

  /** `parse_markdown`: the cursor loop over `md_text.splitlines()`. */
  method ParseMarkdown(mdText: string) returns (blocks: seq<Block>)
    ensures blocks == Parse(SplitLines(mdText))
  {
    var lines := SplitLines(mdText);
    blocks := [];
    var paraBuf: seq<string> := [];
    var i := 0;
    while i < |lines|
      invariant 0 <= i <= |lines|
      invariant blocks + ParseFrom(lines, i, paraBuf) == Parse(lines)
      decreases |lines| - i
    {
      ghost var st := StepAt(lines, i, paraBuf);
      ghost var before := blocks;
      blocks, paraBuf, i := ParseLine(lines, i, blocks, paraBuf);
      Associate(before, st.emitted, ParseFrom(lines, i, paraBuf));
    }
    blocks := blocks + Flush(paraBuf);
  }

  /** Concatenation regrouped (sequence algebra for the loop invariant). */
  lemma Associate(done: seq<Block>, step: seq<Block>, rest: seq<Block>)
    ensures done + step + rest == done + (step + rest)
  {
  }

  // ---------------------------------------------------------------- properties

  /** A joined string starts with its first part. */
  lemma JoinWithHead(sep: string, parts: seq<string>)
    requires parts != []
    ensures StartsWith(JoinWith(sep, parts), parts[0])
  {
    if |parts| > 1 {
      assert JoinWith(sep, parts) == parts[0] + (sep + JoinWith(sep, parts[1..]));
    }
  }

  predicate AllWellFormed(bs: seq<Block>) {
    forall k :: 0 <= k < |bs| ==> WellFormed(bs[k])
  }

  lemma ConcatWellFormed(a: seq<Block>, b: seq<Block>)
    requires AllWellFormed(a) && AllWellFormed(b)
    ensures AllWellFormed(a + b)
  {
    forall k | 0 <= k < |a + b| ensures WellFormed((a + b)[k]) {
      if k < |a| {
        assert (a + b)[k] == a[k];
      } else {
        assert (a + b)[k] == b[k - |a|];
      }
    }
  }

  /** A paragraph built from lines that are not blank has text. */
  lemma FlushWellFormed(buf: seq<string>)
    requires forall k :: 0 <= k < |buf| ==> NotBlank(buf[k])
    ensures AllWellFormed(Flush(buf))
  {
    if buf != [] {
      var parts := StripAll(buf);
      var joined := JoinWith(" ", parts);
      StripNotBlank(buf[0]);
      JoinWithHead(" ", parts);
      assert joined[0] == parts[0][0];
      assert NotBlank(joined);
      StripNotBlank(joined);
    }
  }

  /** A heading line that survived `rstrip` has text after its marker. */
  lemma HeadingHasText(ln: string)
    requires ln != "" && !IsSpace(ln[|ln| - 1]) && HeadingLevel(ln) > 0
    ensures Strip(ln[HeadingLevel(ln) + 1..]) != ""
    ensures WellFormed(H(HeadingLevel(ln), Strip(ln[HeadingLevel(ln) + 1..])))
  {
    var level := HeadingLevel(ln);
    var rest := ln[level + 1..];
    assert IsSpace(ln[level]);
    assert rest[|rest| - 1] == ln[|ln| - 1];
    StripNotBlank(rest);
  }

  /**
   * Every step emits well-formed blocks and leaves a buffer of lines that
   * are not blank.
   */
  lemma StepWellFormed(lines: seq<string>, i: nat, buf: seq<string>)
    requires i < |lines|
    requires forall k :: 0 <= k < |buf| ==> NotBlank(buf[k])
    ensures AllWellFormed(StepAt(lines, i, buf).emitted)
    ensures forall k :: 0 <= k < |StepAt(lines, i, buf).pending| ==> NotBlank(StepAt(lines, i, buf).pending[k])
  {
    var ln := RStrip(lines[i]);
    if ln == "" {
      BlankStep(lines, i, buf);
      FlushWellFormed(buf);
    } else if HeadingLevel(ln) > 0 {
      HeadingStep(lines, i, buf);
      HeadingWellFormed(ln, buf);
    } else if IsBulletLine(ln) {
      BulletWellFormed(lines, i, buf);
    } else if IsNumberedLine(ln) {
      NumberedWellFormed(lines, i, buf);
    } else if HasPipe(ln) {
      TableWellFormed(lines, i, buf);
    } else {
      PlainStep(lines, i, buf);
      StrippedNotBlank(lines[i]);
      PendingNotBlank(buf, ln);
    }
  }

  lemma StrippedNotBlank(line: string)
    requires RStrip(line) != ""
    ensures NotBlank(RStrip(line))
  {
    var ln := RStrip(line);
    assert !IsSpace(ln[|ln| - 1]);
  }

  lemma PendingNotBlank(buf: seq<string>, ln: string)
    requires forall k :: 0 <= k < |buf| ==> NotBlank(buf[k])
    requires NotBlank(ln)
    ensures forall k :: 0 <= k < |buf + [ln]| ==> NotBlank((buf + [ln])[k])
  {
  }

  /** A heading line emits a heading with text after the flushed paragraph. */
  lemma HeadingWellFormed(ln: string, buf: seq<string>)
    requires ln != "" && !IsSpace(ln[|ln| - 1]) && HeadingLevel(ln) > 0
    requires forall k :: 0 <= k < |buf| ==> NotBlank(buf[k])
    ensures AllWellFormed(Flush(buf) + [H(HeadingLevel(ln), Strip(ln[HeadingLevel(ln) + 1..]))])
  {
    HeadingHasText(ln);
    EmitWellFormed(buf, [H(HeadingLevel(ln), Strip(ln[HeadingLevel(ln) + 1..]))]);
  }

  /** Flushing a buffer of non-blank lines before well-formed blocks keeps them well formed. */
  lemma EmitWellFormed(buf: seq<string>, blocks: seq<Block>)
    requires forall k :: 0 <= k < |buf| ==> NotBlank(buf[k])
    requires AllWellFormed(blocks)
    ensures AllWellFormed(Flush(buf) + blocks)
  {
    FlushWellFormed(buf);
    ConcatWellFormed(Flush(buf), blocks);
  }

  lemma BulletWellFormed(lines: seq<string>, i: nat, buf: seq<string>)
    requires i < |lines|
    requires var ln := RStrip(lines[i]); ln != "" && HeadingLevel(ln) == 0 && IsBulletLine(ln)
    requires forall k :: 0 <= k < |buf| ==> NotBlank(buf[k])
    ensures AllWellFormed(StepAt(lines, i, buf).emitted) && StepAt(lines, i, buf).pending == []
  {
    BulletLineOfStripped(lines[i]);
    var j := RunEnd(lines, i, IsBulletLine);
    EmitWellFormed(buf, [UL(MapEach(lines[i..j], BulletItem))]);
    BulletStep(lines, i, j, buf);
  }

  lemma NumberedWellFormed(lines: seq<string>, i: nat, buf: seq<string>)
    requires i < |lines|
    requires var ln := RStrip(lines[i]);
      ln != "" && HeadingLevel(ln) == 0 && !IsBulletLine(ln) && IsNumberedLine(ln)
    requires forall k :: 0 <= k < |buf| ==> NotBlank(buf[k])
    ensures AllWellFormed(StepAt(lines, i, buf).emitted) && StepAt(lines, i, buf).pending == []
  {
    NumberedLineOfStripped(lines[i]);
    var j := RunEnd(lines, i, IsNumberedLine);
    EmitWellFormed(buf, [OL(MapEach(lines[i..j], NumberedItem))]);
    NumberedStep(lines, i, j, buf);
  }

  lemma TableWellFormed(lines: seq<string>, i: nat, buf: seq<string>)
    requires i < |lines|
    requires var ln := RStrip(lines[i]);
      ln != "" && HeadingLevel(ln) == 0 && !IsBulletLine(ln) && !IsNumberedLine(ln) && HasPipe(ln)
    requires forall k :: 0 <= k < |buf| ==> NotBlank(buf[k])
    ensures AllWellFormed(StepAt(lines, i, buf).emitted) && StepAt(lines, i, buf).pending == []
  {
    PipeOfStripped(lines[i]);
    var j := RunEnd(lines, i, HasPipe);
    var rows := TableRows(MapEach(lines[i..j], Strip));
    TableBlockWellFormed(rows);
    EmitWellFormed(buf, TableBlock(rows));
    TableStep(lines, i, j, buf);
  }

  lemma TableBlockWellFormed(rows: seq<seq<string>>)
    requires forall k :: 0 <= k < |rows| ==> rows[k] != []
    ensures AllWellFormed(TableBlock(rows))
  {
    if rows != [] {
      assert TableBlock(rows)[0] == Table(rows);
    }
  }

  /**
   * Every block the parser emits from cursor `i` on is well formed: headings
   * of level 1 to 3 with text, paragraphs with text, non-empty lists, and
   * tables whose rows are all non-empty.
   */
  lemma {:induction false} ParseFromWellFormed(lines: seq<string>, i: nat, buf: seq<string>)
    requires i <= |lines|
    requires forall k :: 0 <= k < |buf| ==> NotBlank(buf[k])
    ensures AllWellFormed(ParseFrom(lines, i, buf))
    decreases |lines| - i
  {
    if i == |lines| {
      FlushWellFormed(buf);
    } else {
      var st := StepAt(lines, i, buf);
      StepWellFormed(lines, i, buf);
      ParseFromWellFormed(lines, st.next, st.pending);
      ConcatWellFormed(st.emitted, ParseFrom(lines, st.next, st.pending));
    }
  }

  lemma ParseWellFormed(lines: seq<string>)
    ensures AllWellFormed(Parse(lines))
  {
    ParseFromWellFormed(lines, 0, []);
  }
}
