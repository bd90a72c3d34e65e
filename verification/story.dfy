/**
 * From parsed blocks to the flat list of render elements (the "story") of
 * the report document. Paragraph styles are names only; fonts, colours and
 * page geometry belong to the rendering library and are not modelled.
 *
 * `StorySpec` is the reference definition; `BuildStory` is the loop of the
 * source, proved equal to it.
 */
module Story {
  import opened Text
  import opened Markdown

  datatype Style = TitleCenter | H1 | H2 | Body | BulletList

  datatype Elem =
    | Para(text: string, style: Style)
    | Spacer(height: nat)
    | KeptTable(rows: seq<seq<string>>)   // a table kept on one page

  /** The bullet prefix exactly as the source spells it (a mis-encoded bullet sign, then a space). */
  const Bullet: string := "\U{201A}\U{00C4}\U{00A2} "

  // ---------------------------------------------------------------- tables

  /** `max(len(r) for r in rows)`, and 0 for no rows. */
  function MaxCols(rows: seq<seq<string>>): (m: nat)
    ensures forall k :: 0 <= k < |rows| ==> |rows[k]| <= m
    ensures rows != [] ==> exists k :: 0 <= k < |rows| && |rows[k]| == m
    ensures rows == [] ==> m == 0
  {
    if rows == [] then 0
    else
      var m := MaxCols(rows[..|rows| - 1]);
      var last := |rows[|rows| - 1]|;
      if last > m then last else m
  }

  function PadRow(row: seq<string>, width: nat): seq<string>
    requires |row| <= width
  {
    row + seq(width - |row|, _ => "")
  }

  /** `[r + [''] * (max_cols - len(r)) for r in rows]`: every row right-padded with empty cells. */
  function PadRows(rows: seq<seq<string>>): (padded: seq<seq<string>>)
    ensures |padded| == |rows|
    ensures forall k :: 0 <= k < |rows| ==> |padded[k]| == MaxCols(rows)
    ensures forall k :: 0 <= k < |rows| ==> |rows[k]| <= |padded[k]| && padded[k][..|rows[k]|] == rows[k]
    ensures forall k, c :: 0 <= k < |rows| && |rows[k]| <= c < MaxCols(rows) ==> padded[k][c] == ""
  {
    var width := MaxCols(rows);
    seq(|rows|, k requires 0 <= k < |rows| => PadRow(rows[k], width))
  }

  /** The padded table is a rectangle as wide as its widest row, and a row already that wide is unchanged. */
  lemma PadRowsRectangular(rows: seq<seq<string>>)
    requires rows != []
    ensures var padded := PadRows(rows);
      && (forall k, l :: 0 <= k < |padded| && 0 <= l < |padded| ==> |padded[k]| == |padded[l]|)
      && (exists k :: 0 <= k < |rows| && padded[k] == rows[k])
  {
    var padded := PadRows(rows);
    var k :| 0 <= k < |rows| && |rows[k]| == MaxCols(rows);
    assert padded[k] == padded[k][..|rows[k]|];
  }

  // ---------------------------------------------------------------- blocks

  /** `• item` for each item of a bullet list. */
  function BulletElems(items: seq<string>): (es: seq<Elem>)
    ensures |es| == |items|
    ensures forall k :: 0 <= k < |items| ==> es[k] == Para(Bullet + items[k], BulletList)
  {
    seq(|items|, k requires 0 <= k < |items| => Para(Bullet + items[k], BulletList))
  }

  /** The label of the item at index `k` of a numbered list: `enumerate(..., start=1)`. */
  function Label(k: nat): string {
    NatToString(k + 1) + ". "
  }

  /** `1. item`, `2. item`, ... whatever numbers the markdown used. */
  function NumberedElems(items: seq<string>): (es: seq<Elem>)
    ensures |es| == |items|
    ensures forall k :: 0 <= k < |items| ==> es[k] == Para(Label(k) + items[k], BulletList)
  {
    seq(|items|, k requires 0 <= k < |items| => Para(Label(k) + items[k], BulletList))
  }

  /** The elements one block contributes, before its trailing spacer. */
  function BlockElems(b: Block): seq<Elem> {
    match b
    case H(level, text) =>
      if level == 1 then [Para(text, H1)]
      else if level == 2 then [Para(text, H2)]
      else if level == 3 then [Para("<b>" + text + "</b>", Body), Spacer(4)]
      else []
    case P(text) => [Para(text, Body)]
    case UL(items) => BulletElems(items)
    case OL(items) => NumberedElems(items)
    case Table(rows) => [KeptTable(PadRows(rows))]
  }

  /** Every block's elements, each followed by a spacer of 6. */
  function Rendered(bs: seq<Block>): seq<Elem> {
    if bs == [] then []
    else Rendered(bs[..|bs| - 1]) + BlockElems(bs[|bs| - 1]) + [Spacer(6)]
  }

  predicate FirstIsH1(bs: seq<Block>) {
    bs != [] && bs[0].H? && bs[0].level == 1
  }

  /** The story: a centred title and a spacer of 8 when the first block is an `h1`, then the rendered blocks. */
  function StorySpec(bs: seq<Block>): seq<Elem> {
    if FirstIsH1(bs) then [Para(bs[0].text, TitleCenter), Spacer(8)] + Rendered(bs[1..])
    else Rendered(bs)
  }

  /** What the source needs of its blocks: `max` over the rows of a table must not be empty. */
  predicate Renderable(bs: seq<Block>) {
    forall k :: 0 <= k < |bs| ==> (bs[k].Table? ==> bs[k].rows != [])
  }

  // ---------------------------------------------------------------- the loop

  method AppendBullets(story: seq<Elem>, items: seq<string>) returns (story': seq<Elem>)
    ensures story' == story + BulletElems(items)
  {
    story' := story;
    for j := 0 to |items|
      invariant story' == story + BulletElems(items[..j])
    {
      assert BulletElems(items[..j + 1]) == BulletElems(items[..j]) + [Para(Bullet + items[j], BulletList)];
      story' := story' + [Para(Bullet + items[j], BulletList)];
    }
    assert items[..|items|] == items;
  }

  method AppendNumbered(story: seq<Elem>, items: seq<string>) returns (story': seq<Elem>)
    ensures story' == story + NumberedElems(items)
  {
    story' := story;
    for j := 0 to |items|
      invariant story' == story + NumberedElems(items[..j])
    {
      var idx := j + 1;
      assert NumberedElems(items[..j + 1]) == NumberedElems(items[..j]) + [Para(Label(j) + items[j], BulletList)];
      story' := story' + [Para(NatToString(idx) + ". " + items[j], BulletList)];
    }
    assert items[..|items|] == items;
  }

  /** The `max_cols` / `norm_rows` step of a table. */
  method NormalizeRows(rows: seq<seq<string>>) returns (normRows: seq<seq<string>>)
    requires rows != []
    ensures normRows == PadRows(rows)
  {
    var maxCols := |rows[0]|;
    assert rows[..1][..0] == [];
    for k := 1 to |rows|
      invariant maxCols == MaxCols(rows[..k])
    {
      assert rows[..k + 1][..k] == rows[..k];
      assert rows[..k + 1][k] == rows[k];
      if |rows[k]| > maxCols {
        maxCols := |rows[k]|;
      }
    }
    assert rows[..|rows|] == rows;
    normRows := seq(|rows|, k requires 0 <= k < |rows| => PadRow(rows[k], maxCols));
  }

  /** The body of the `for` loop: one block's elements, then a spacer of 6. */
  method AppendBlock(story: seq<Elem>, b: Block) returns (story': seq<Elem>)
    requires b.Table? ==> b.rows != []
    ensures story' == story + (BlockElems(b) + [Spacer(6)])
  {
    story' := story;
    match b {
      case H(level, text) =>
        if level == 1 {
          story' := story' + [Para(text, H1)];
        } else if level == 2 {
          story' := story' + [Para(text, H2)];
        } else if level == 3 {
          story' := story' + [Para("<b>" + text + "</b>", Body)];
          story' := story' + [Spacer(4)];
        }
      case P(text) =>
        story' := story' + [Para(text, Body)];
      case UL(items) =>
        story' := AppendBullets(story', items);
      case OL(items) =>
        story' := AppendNumbered(story', items);
      case Table(rows) =>
        var normRows := NormalizeRows(rows);
        story' := story' + [KeptTable(normRows)];
    }
    story' := story' + [Spacer(6)];
  }

  /** The `for typ, content in blocks` loop. */
  method AppendBlocks(story: seq<Elem>, bs: seq<Block>) returns (story': seq<Elem>)
    requires Renderable(bs)
    ensures story' == story + Rendered(bs)
  {
    story' := story;
    assert bs[..0] == [];
    for k := 0 to |bs|
      invariant story' == story + Rendered(bs[..k])
    {
      RenderedSnoc(bs, k);
      Regroup(story, Rendered(bs[..k]), BlockElems(bs[k]) + [Spacer(6)]);
      story' := AppendBlock(story', bs[k]);
    }
    assert bs[..|bs|] == bs;
  }

  /** `build_story_from_blocks`. */
  method BuildStory(blocks: seq<Block>) returns (story: seq<Elem>)
    requires Renderable(blocks)
    ensures story == StorySpec(blocks)
  {
    story := [];
    var rest := blocks;
    if blocks != [] && blocks[0].H? && blocks[0].level == 1 {
      story := story + [Para(blocks[0].text, TitleCenter)];
      story := story + [Spacer(8)];
      rest := blocks[1..];
    }
    story := AppendBlocks(story, rest);
  }

  /** Appending in two steps is appending the concatenation (sequence algebra for the loop invariant). */
  lemma Regroup(a: seq<Elem>, b: seq<Elem>, c: seq<Elem>)
    ensures a + b + c == a + (b + c)
  {
  }

  lemma RenderedSnoc(bs: seq<Block>, k: nat)
    requires k < |bs|
    ensures Rendered(bs[..k + 1]) == Rendered(bs[..k]) + (BlockElems(bs[k]) + [Spacer(6)])
  {
    assert bs[..k + 1][..k] == bs[..k];
  }

  // ---------------------------------------------------------------- properties

  predicate IsTitle(e: Elem) {
    e.Para? && e.style == TitleCenter
  }

  /** Counts the spacers of height `h`. */
  function CountSpacers(es: seq<Elem>, h: nat): nat {
    if es == [] then 0
    else CountSpacers(es[..|es| - 1], h) + (if es[|es| - 1] == Spacer(h) then 1 else 0)
  }

  lemma {:induction false} CountSpacersConcat(a: seq<Elem>, b: seq<Elem>, h: nat)
    ensures CountSpacers(a + b, h) == CountSpacers(a, h) + CountSpacers(b, h)
    decreases |b|
  {
    if b == [] {
      assert a + b == a;
    } else {
      assert (a + b)[..|a + b| - 1] == a + b[..|b| - 1];
      CountSpacersConcat(a, b[..|b| - 1], h);
    }
  }

  lemma {:induction false} NoSpacerOfSix(es: seq<Elem>)
    requires forall k :: 0 <= k < |es| ==> es[k] != Spacer(6)
    ensures CountSpacers(es, 6) == 0
    decreases |es|
  {
    if es != [] {
      NoSpacerOfSix(es[..|es| - 1]);
    }
  }

  /** A block's own elements never include a spacer of 6. */
  lemma BlockHasNoSpacerOfSix(b: Block)
    ensures CountSpacers(BlockElems(b), 6) == 0
  {
    NoSpacerOfSix(BlockElems(b));
  }

  /** One spacer of 6 per rendered block: no block contributes one of its own. */
  lemma {:induction false} RenderedSpacers(bs: seq<Block>)
    ensures CountSpacers(Rendered(bs), 6) == |bs|
    decreases |bs|
  {
    if bs != [] {
      var init := bs[..|bs| - 1];
      var es := BlockElems(bs[|bs| - 1]);
      RenderedSpacers(init);
      BlockHasNoSpacerOfSix(bs[|bs| - 1]);
      CountSpacersConcat(Rendered(init), es, 6);
      CountSpacersConcat(Rendered(init) + es, [Spacer(6)], 6);
      assert CountSpacers([Spacer(6)], 6) == 1 by {
        assert [Spacer(6)][..0] == [];
      }
    }
  }

  /** Only the title uses the title style. */
  lemma {:induction false} RenderedHasNoTitle(bs: seq<Block>)
    ensures forall k :: 0 <= k < |Rendered(bs)| ==> !IsTitle(Rendered(bs)[k])
    decreases |bs|
  {
    if bs != [] {
      RenderedHasNoTitle(bs[..|bs| - 1]);
    }
  }

  /**
   * The story has a title exactly when the first block is an `h1`: then it
   * is the first element, holds that block's text, and is followed by a
   * spacer of 8; nowhere else is the title style used.
   */
  lemma TitleExactlyWhenFirstIsH1(bs: seq<Block>)
    ensures var s := StorySpec(bs);
      && ((exists k :: 0 <= k < |s| && IsTitle(s[k])) <==> FirstIsH1(bs))
      && (forall k :: 0 <= k < |s| && IsTitle(s[k]) ==> k == 0)
      && (FirstIsH1(bs) ==> s[0] == Para(bs[0].text, TitleCenter) && s[1] == Spacer(8))
  {
    var s := StorySpec(bs);
    if FirstIsH1(bs) {
      RenderedHasNoTitle(bs[1..]);
      var body := Rendered(bs[1..]);
      forall k | 2 <= k < |s| ensures !IsTitle(s[k]) {
        assert s[k] == body[k - 2];
      }
      assert IsTitle(s[0]);
    } else {
      RenderedHasNoTitle(bs);
    }
  }

  /** The number of blocks the story renders below the title, counted by their spacers. */
  lemma StorySpacers(bs: seq<Block>)
    ensures CountSpacers(StorySpec(bs), 6) == if FirstIsH1(bs) then |bs| - 1 else |bs|
  {
    RenderedSpacers(bs);
    if FirstIsH1(bs) {
      RenderedSpacers(bs[1..]);
      CountSpacersConcat([Para(bs[0].text, TitleCenter), Spacer(8)], Rendered(bs[1..]), 6);
      assert CountSpacers([Para(bs[0].text, TitleCenter), Spacer(8)], 6) == 0 by {
        NoSpacerOfSix([Para(bs[0].text, TitleCenter), Spacer(8)]);
      }
    }
  }

  /** Distinct items of a numbered list get distinct labels, and label `k` reads back as `k + 1`. */
  lemma LabelsNumberFromOne(k: nat, l: nat)
    ensures DecimalValue(Label(k)[..|Label(k)| - 2]) == k + 1
    ensures k != l ==> Label(k) != Label(l)
  {
    assert Label(k)[..|Label(k)| - 2] == NatToString(k + 1);
    assert Label(l)[..|Label(l)| - 2] == NatToString(l + 1);
    NatToStringRoundTrip(k + 1);
    NatToStringRoundTrip(l + 1);
  }

  /** A parsed document can always be rendered: the parser never emits an empty table. */
  lemma ParsedIsRenderable(lines: seq<string>)
    ensures Renderable(Parse(lines))
  {
    ParseWellFormed(lines);
  }
}
