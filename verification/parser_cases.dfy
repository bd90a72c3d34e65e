/**
 * Worked inputs for the block parser, each pinned to the rule it shows:
 * a blank line splits a list, the list rules are tried before the table
 * rule, indentation stops a heading, a one-column dash row is data and a
 * two-column dash row is a separator.
 */
module ParserCases {
  import opened Text
  import opened Markdown

  /** A line with no trailing whitespace that is not blank and not a heading. */
  predicate PlainShape(ln: string) {
    RStrip(ln) == ln && ln != "" && HeadingLevel(ln) == 0
  }

  /** A line with no whitespace at its end is its own `rstrip()`. */
  lemma RStripKeeps(s: string)
    requires s != [] && !IsSpace(s[|s| - 1])
    ensures RStrip(s) == s
  {
  }

  /** A line that does not begin with `#` is no heading. */
  lemma NotHeading(s: string)
    requires |s| > 0 && s[0] != '#'
    ensures HeadingLevel(s) == 0
  {
    if |s| >= 2 {
      assert s[..2][0] == s[0];
    }
    if |s| >= 3 {
      assert s[..3][0] == s[0];
    }
    if |s| >= 4 {
      assert s[..4][0] == s[0];
    }
  }

  /** `- x` for a single non-space `x` is a bullet line whose item is `x`. */
  lemma ShortBullet(s: string, c: char)
    requires s == ['-', ' ', c] && !IsSpace(c)
    ensures PlainShape(s)
    ensures IsBulletLine(s) && BulletItem(s) == [c]
  {
    RStripKeeps(s);
    NotHeading(s);
    assert SkipSpaces(s, 0) == 0;
    assert SkipSpaces(s, 1) == 2;
    assert RemoveBulletMarker(s) == [c];
    StripTrimmed([c]);
  }

  // ---------------------------------------------------------------- rules on an empty buffer

  lemma BulletRunAlone(lines: seq<string>, i: nat, j: nat)
    requires i < j <= |lines| && PlainShape(lines[i])
    requires forall k :: i <= k < j ==> IsBulletLine(lines[k])
    requires j < |lines| ==> !IsBulletLine(lines[j])
    ensures ParseFrom(lines, i, []) == [UL(MapEach(lines[i..j], BulletItem))] + ParseFrom(lines, j, [])
  {
    BulletStep(lines, i, j, []);
    var u := [UL(MapEach(lines[i..j], BulletItem))];
    assert Flush([]) + u == u;
  }

  lemma NumberedRunAlone(lines: seq<string>, i: nat, j: nat)
    requires i < j <= |lines| && PlainShape(lines[i]) && !IsBulletLine(lines[i])
    requires forall k :: i <= k < j ==> IsNumberedLine(lines[k])
    requires j < |lines| ==> !IsNumberedLine(lines[j])
    ensures ParseFrom(lines, i, []) == [OL(MapEach(lines[i..j], NumberedItem))] + ParseFrom(lines, j, [])
  {
    NumberedStep(lines, i, j, []);
    var u := [OL(MapEach(lines[i..j], NumberedItem))];
    assert Flush([]) + u == u;
  }

  lemma BlankAlone(lines: seq<string>, i: nat)
    requires i < |lines| && lines[i] == ""
    ensures ParseFrom(lines, i, []) == ParseFrom(lines, i + 1, [])
  {
    BlankStep(lines, i, []);
    assert Flush([]) + ParseFrom(lines, i + 1, []) == ParseFrom(lines, i + 1, []);
  }

  /** A paragraph line on an empty buffer is buffered. */
  lemma PlainAlone(lines: seq<string>, i: nat)
    requires i < |lines| && PlainShape(lines[i])
    requires !IsBulletLine(lines[i]) && !IsNumberedLine(lines[i]) && !HasPipe(lines[i])
    ensures ParseFrom(lines, i, []) == ParseFrom(lines, i + 1, [lines[i]])
  {
    PlainStep(lines, i, []);
    assert [] + [lines[i]] == [lines[i]];
  }

  lemma AtEnd(lines: seq<string>, buf: seq<string>)
    ensures ParseFrom(lines, |lines|, buf) == Flush(buf)
  {
  }

  /** A paragraph of one line is that line stripped twice. */
  lemma FlushOne(x: string)
    ensures Flush([x]) == [P(Strip(Strip(x)))]
  {
    assert StripAll([x]) == [Strip(x)];
  }

  // ---------------------------------------------------------------- lists

  /** Two bullet lines and then a line that is none make one list of two items. */
  lemma BulletPairAlone(lines: seq<string>, i: nat)
    requires i + 2 < |lines| && PlainShape(lines[i])
    requires IsBulletLine(lines[i]) && IsBulletLine(lines[i + 1]) && !IsBulletLine(lines[i + 2])
    ensures ParseFrom(lines, i, []) == [UL([BulletItem(lines[i]), BulletItem(lines[i + 1])])] + ParseFrom(lines, i + 2, [])
  {
    forall k | i <= k < i + 2 ensures IsBulletLine(lines[k]) {
      if k != i {
        assert k == i + 1;
      }
    }
    BulletRunAlone(lines, i, i + 2);
    MapPair(lines, i, BulletItem);
  }

  /** A bullet line followed by no bullet line is a one-item list. */
  lemma BulletSingleAlone(lines: seq<string>, i: nat)
    requires i < |lines| && PlainShape(lines[i]) && IsBulletLine(lines[i])
    requires i + 1 < |lines| ==> !IsBulletLine(lines[i + 1])
    ensures ParseFrom(lines, i, []) == [UL([BulletItem(lines[i])])] + ParseFrom(lines, i + 1, [])
  {
    BulletRunAlone(lines, i, i + 1);
    MapSingle(lines, i, BulletItem);
  }

  /** A numbered line followed by no numbered line is a one-item list. */
  lemma NumberedSingleAlone(lines: seq<string>, i: nat)
    requires i < |lines| && PlainShape(lines[i]) && !IsBulletLine(lines[i]) && IsNumberedLine(lines[i])
    requires i + 1 < |lines| ==> !IsNumberedLine(lines[i + 1])
    ensures ParseFrom(lines, i, []) == [OL([NumberedItem(lines[i])])] + ParseFrom(lines, i + 1, [])
  {
    NumberedRunAlone(lines, i, i + 1);
    MapSingle(lines, i, NumberedItem);
  }

  /** Two bullet lines followed by a blank line make one list and leave the cursor at the blank line. */
  lemma FirstListOfTwo(lines: seq<string>)
    requires |lines| == 4 && lines[2] == ""
    requires PlainShape(lines[0]) && IsBulletLine(lines[0]) && IsBulletLine(lines[1])
    ensures ParseFrom(lines, 0, []) == [UL([BulletItem(lines[0]), BulletItem(lines[1])])] + ParseFrom(lines, 2, [])
  {
    assert !IsBulletLine(lines[2]);
    BulletPairAlone(lines, 0);
  }

  /** A last bullet line on its own is a one-item list. */
  lemma LastList(lines: seq<string>)
    requires |lines| == 4 && PlainShape(lines[3]) && IsBulletLine(lines[3])
    ensures ParseFrom(lines, 3, []) == [UL([BulletItem(lines[3])])]
  {
    BulletSingleAlone(lines, 3);
    AtEnd(lines, []);
    OneBlock(UL([BulletItem(lines[3])]));
  }

  /** Two bullet lines, a blank line, a bullet line: two lists. */
  lemma TwoListsAroundBlank(lines: seq<string>)
    requires |lines| == 4 && lines[2] == ""
    requires PlainShape(lines[0]) && PlainShape(lines[3])
    requires IsBulletLine(lines[0]) && IsBulletLine(lines[1]) && IsBulletLine(lines[3])
    ensures Parse(lines) == [UL([BulletItem(lines[0]), BulletItem(lines[1])]), UL([BulletItem(lines[3])])]
  {
    var first := UL([BulletItem(lines[0]), BulletItem(lines[1])]);
    var last := UL([BulletItem(lines[3])]);
    FirstListOfTwo(lines);
    BlankAlone(lines, 2);
    LastList(lines);
    TwoBlocks(first, last);
  }

  /** A blank line ends a bullet list: `- a`, `- b`, ``, `- c` gives two lists. */
  lemma BlankLineSplitsList(lines: seq<string>, a: char, b: char, c: char)
    requires !IsSpace(a) && !IsSpace(b) && !IsSpace(c)
    requires lines == [['-', ' ', a], ['-', ' ', b], "", ['-', ' ', c]]
    ensures Parse(lines) == [UL([[a], [b]]), UL([[c]])]
  {
    ShortBullet(lines[0], a);
    ShortBullet(lines[1], b);
    ShortBullet(lines[3], c);
    TwoListsAroundBlank(lines);
  }

  /** A one-line input that is a numbered item. */
  lemma SingleNumbered(lines: seq<string>)
    requires |lines| == 1 && PlainShape(lines[0])
    requires !IsBulletLine(lines[0]) && IsNumberedLine(lines[0])
    ensures Parse(lines) == [OL([NumberedItem(lines[0])])]
  {
    NumberedSingleAlone(lines, 0);
    AtEnd(lines, []);
    OneBlock(OL([NumberedItem(lines[0])]));
  }

  lemma NumberedWithPipeShape(s: string)
    requires s == "1. a | b"
    ensures PlainShape(s)
    ensures !IsBulletLine(s) && IsNumberedLine(s) && HasPipe(s)
  {
    RStripKeeps(s);
    NotHeading(s);
    assert SkipSpaces(s, 0) == 0;
    assert SkipDigits(s, 0) == 1;
    assert s[5] == '|';
  }

  lemma NumberedWithPipeItem(s: string)
    requires s == "1. a | b"
    ensures NumberedItem(s) == "a | b"
  {
    NumberedWithPipeShape(s);
    assert SkipSpaces(s, 0) == 0;
    assert SkipDigits(s, 0) == 1;
    assert SkipSpaces(s, 2) == 3;
    assert s[3..] == "a | b";
    StripTrimmed("a | b");
  }

  /** The list rules come before the table rule: `1. a | b` is a numbered item, not a table row. */
  lemma NumberedBeforeTable(lines: seq<string>)
    requires lines == ["1. a | b"]
    ensures Parse(lines) == [OL(["a | b"])]
  {
    NumberedWithPipeShape(lines[0]);
    NumberedWithPipeItem(lines[0]);
    SingleNumbered(lines);
  }

  // ---------------------------------------------------------------- headings

  /** A one-line input that no rule claims is one paragraph. */
  lemma SinglePlain(lines: seq<string>)
    requires |lines| == 1 && PlainShape(lines[0])
    requires !IsBulletLine(lines[0]) && !IsNumberedLine(lines[0]) && !HasPipe(lines[0])
    ensures Parse(lines) == [P(Strip(Strip(lines[0])))]
  {
    PlainAlone(lines, 0);
    AtEnd(lines, [lines[0]]);
    FlushOne(lines[0]);
  }

  lemma IndentedHashShape(s: string)
    requires s == " # x"
    ensures PlainShape(s)
    ensures !IsBulletLine(s) && !IsNumberedLine(s) && !HasPipe(s)
  {
    RStripKeeps(s);
    NotHeading(s);
    assert SkipSpaces(s, 0) == 1;
    assert SkipDigits(s, 1) == 1;
  }

  lemma IndentedHashText(s: string)
    requires s == " # x"
    ensures Strip(Strip(s)) == "# x"
  {
    assert s == " " + "# x" + "";
    StripAround(" ", "# x", "");
    StripTrimmed("# x");
  }

  /** Indentation stops a heading: ` # x` is paragraph text. */
  lemma IndentedHashIsText(lines: seq<string>)
    requires lines == [" # x"]
    ensures Parse(lines) == [P("# x")]
  {
    IndentedHashShape(lines[0]);
    IndentedHashText(lines[0]);
    SinglePlain(lines);
  }

  // ---------------------------------------------------------------- table rows

  /** `split` at the first occurrence of the separator. */
  lemma SplitAt(s: string, i: nat)
    requires i < |s| && s[i] == '|' && forall k :: 0 <= k < i ==> s[k] != '|'
    ensures SplitOn(s, '|') == [s[..i]] + SplitOn(s[i + 1..], '|')
  {
    assert IndexOf(s, '|') == i;
  }

  /** A cell without a pipe, a pipe, and the rest of the row. */
  lemma SplitCell(cell: string, rest: string)
    requires '|' !in cell
    ensures SplitOn(cell + "|" + rest, '|') == [cell] + SplitOn(rest, '|')
  {
    CellSlices(cell, rest);
    SplitAt(cell + "|" + rest, |cell|);
  }

  /** A cell of two or more dashes. */
  predicate Dashes(d: string) {
    |d| >= 2 && forall k :: 0 <= k < |d| ==> d[k] == '-'
  }

  lemma DashesTrimmed(d: string)
    requires Dashes(d)
    ensures IsDashCell(d) && '|' !in d
    ensures d != [] && !IsSpace(d[0]) && !IsSpace(d[|d| - 1])
  {
    StripTrimmed(d);
  }

  lemma OneCellGrouped(d: string)
    ensures "|" + d + "|" == "" + "|" + (d + "|" + "")
  {
  }

  lemma TwoCellsGrouped(d: string)
    ensures "|" + d + "|" + d + "|" == "" + "|" + (d + "|" + (d + "|" + ""))
  {
  }

  lemma SplitOneCell(s: string, d: string)
    requires s == "|" + d + "|" && Dashes(d)
    ensures SplitOn(s, '|') == ["", d, ""]
  {
    DashesTrimmed(d);
    OneCellGrouped(d);
    SplitCell("", d + "|" + "");
    SplitCell(d, "");
    SplitNone("");
    Three("", d, "");
  }

  lemma SplitTwoCells(s: string, d: string)
    requires s == "|" + d + "|" + d + "|" && Dashes(d)
    ensures SplitOn(s, '|') == ["", d, d, ""]
  {
    DashesTrimmed(d);
    TwoCellsGrouped(d);
    SplitCell("", d + "|" + (d + "|" + ""));
    SplitCell(d, d + "|" + "");
    SplitCell(d, "");
    SplitNone("");
    Four("", d, d, "");
  }

  lemma SplitNone(s: string)
    requires '|' !in s
    ensures SplitOn(s, '|') == [s]
  {
    assert IndexOf(s, '|') == |s|;
  }

  /** A row `|c|` with a trimmed, non-empty cell `c` is one data cell. */
  lemma OneCellRow(row: string, cell: string)
    requires SplitOn(row, '|') == ["", cell, ""]
    requires cell != [] && !IsSpace(cell[0]) && !IsSpace(cell[|cell| - 1])
    ensures RowCells(row) == [cell]
  {
    StripThree("", cell);
    OneCellDropped(cell);
  }

  lemma StripThree(edge: string, cell: string)
    requires edge == ""
    requires cell != [] && !IsSpace(cell[0]) && !IsSpace(cell[|cell| - 1])
    ensures StripAll([edge, cell, edge]) == [edge, cell, edge]
  {
    StripEach(edge, cell, edge);
    StripTrimmed(cell);
    StripTrimmed(edge);
  }

  lemma StripEach(a: string, b: string, c: string)
    ensures StripAll([a, b, c]) == [Strip(a), Strip(b), Strip(c)]
  {
    MapThree([a, b, c], Strip);
  }

  lemma MapThree(xs: seq<string>, f: string -> string)
    requires |xs| == 3
    ensures MapEach(xs, f) == [f(xs[0]), f(xs[1]), f(xs[2])]
  {
  }

  lemma OneCellDropped(cell: string)
    requires cell != ""
    ensures DropEdgeCells(["", cell, ""]) == [cell]
  {
    var a := ["", cell, ""][1..];
    assert a == [cell, ""];
    assert a[..1] == [cell];
  }

  /** Blank pieces at both ends are dropped and the cells between them are kept. */
  lemma BlankEdgesDropped(e: string, mid: seq<string>)
    requires e == ""
    ensures DropBlankEdges([e] + mid + [e]) == mid
  {
    StripTrimmed(e);
    EdgeSlices(e, mid);
  }

  lemma EdgeSlices(e: string, mid: seq<string>)
    ensures ([e] + mid + [e])[0] == e && ([e] + mid + [e])[1..] == mid + [e]
    ensures (mid + [e])[|mid|] == e && (mid + [e])[..|mid|] == mid
  {
  }

  /** A row `|c|` has one cell between its pipes, too few for a separator. */
  lemma OneCellNoSeparator(cell: string)
    ensures !SeparatorParts(["", cell, ""])
  {
    EdgesAround("", cell);
    BlankEdgesDropped("", [cell]);
  }

  lemma TwoDashCellsSeparator(cell: string)
    requires IsDashCell(cell)
    ensures SeparatorParts(["", cell, cell, ""])
  {
    EdgesAroundTwo("", cell);
    BlankEdgesDropped("", [cell, cell]);
    TwoDashCells(cell);
  }

  lemma TwoDashCells(cell: string)
    requires IsDashCell(cell)
    ensures AllDashCells([cell, cell])
  {
  }

  /** The rows a single table line yields. */
  lemma TableRowsOfOne(s: string)
    ensures TableRows([s]) == if IsSeparatorRow(s) || RowCells(s) == [] then [] else [RowCells(s)]
  {
    assert [s][..0] == [];
  }

  /** A one-column row of dashes such as `|---|` is not a separator (the pattern wants two dash cells): it stays as data. */
  lemma OneColumnDashesAreData(s: string, d: string)
    requires s == "|" + d + "|" && Dashes(d)
    ensures !IsSeparatorRow(s)
    ensures RowCells(s) == [d]
    ensures TableRows([s]) == [[d]]
  {
    SplitOneCell(s, d);
    DashesTrimmed(d);
    OneCellNoSeparator(d);
    OneCellRow(s, d);
    TableRowsOfOne(s);
  }

  /** A row of two dash cells such as `|---|---|` is a separator and is dropped from the table. */
  lemma TwoColumnSeparatorDropped(s: string, d: string)
    requires s == "|" + d + "|" + d + "|" && Dashes(d)
    ensures IsSeparatorRow(s)
    ensures TableRows([s]) == []
  {
    SplitTwoCells(s, d);
    DashesTrimmed(d);
    TwoDashCellsSeparator(d);
    TableRowsOfOne(s);
  }

  // ---------------------------------------------------------------- sequence algebra
  // Regroupings of sequence displays and slices that the cases above use;
  // they state nothing about the parser.

  lemma MapSingle(lines: seq<string>, i: nat, f: string -> string)
    requires i < |lines|
    ensures MapEach(lines[i..i + 1], f) == [f(lines[i])]
  {
  }

  lemma MapPair(lines: seq<string>, i: nat, f: string -> string)
    requires i + 1 < |lines|
    ensures MapEach(lines[i..i + 2], f) == [f(lines[i]), f(lines[i + 1])]
  {
  }

  lemma OneBlock(b: Block)
    ensures [b] + [] == [b]
  {
  }

  lemma TwoBlocks(a: Block, b: Block)
    ensures [a] + [b] == [a, b]
  {
  }

  lemma CellSlices(cell: string, rest: string)
    ensures var s := cell + "|" + rest;
      |cell| < |s| && s[|cell|] == '|' && s[..|cell|] == cell && s[|cell| + 1..] == rest
      && forall k :: 0 <= k < |cell| ==> s[k] == cell[k]
  {
  }

  lemma Three(a: string, b: string, c: string)
    ensures [a] + ([b] + [c]) == [a, b, c]
  {
  }

  lemma Four(a: string, b: string, c: string, d: string)
    ensures [a] + ([b] + ([c] + [d])) == [a, b, c, d]
  {
  }

  lemma EdgesAround(e: string, x: string)
    ensures [e, x, e] == [e] + [x] + [e]
  {
  }

  lemma EdgesAroundTwo(e: string, x: string)
    ensures [e, x, x, e] == [e] + [x, x] + [e]
  {
  }
}
