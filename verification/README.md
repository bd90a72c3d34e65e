# CSR 360 report core, modelled in Dafny

This project models the computational core of the CSR 360 module, an Odoo
add-on for tracking corporate social responsibility pledges. The core has
three parts.

- **The AI PDF report generator** (`models/aihackathon.py`). It takes the
  markdown out of a language model's reply, which may wrap it in a fenced
  block. It parses that markdown into blocks: headings, paragraphs, bullet
  and numbered lists, and tables. It turns the blocks into the flat list of
  elements a PDF is built from. It picks the PDF file name and path, and
  returns a success or error dictionary.
- **Pledge progress** (`models/pledge.py`). A pledge's current value is the
  value of its latest progress update. Its progress is that value as a
  percentage of the target. Its status moves between draft, in progress,
  completed and at risk, following the percentage bands.
- **The impact report** (`models/report.py`). A report chooses the pledges
  it covers from its search domain. Its default period is `YYYY-Qn` and its
  name is `CSR Report - <period>`. It computes:
  - the impact score, which is the mean progress;
  - the on-track verdict;
  - a rule-based summary: an opening sentence, the leading department, an
    at-risk warning and notable achievements;
  - the recommendation lines it stores when generated.

  It also truncates names for the PDF table.

The project has one module per part of the program:
- `Text`: the Python string primitives, i.e. `isspace`, `strip`, `split`,
  `join`, `splitlines` and `str(n)`.
- `Markdown`: `parse_markdown`.
- `Story`: `build_story_from_blocks`.
- `Orchestrator`: the fence regex, the file name and path, and
  `generate_report`.
- `Pledges`: the `csr.pledge` computations, with a class `Pledge`.
- `Reports`: the `csr.report` computations, with a class `Report`.
- `ParserCases`: worked inputs of the parser.
- `Wrappers`: `Option` and `Result`.

The parser and the story builder each come in two forms. One is a
reference function (`Parse`, `StorySpec`). The other is the source's loop
written as a method (`ParseMarkdown`, `BuildStory`), proved equal to the
reference. The properties are then proved about the reference. The same
pattern is used for:
- the department statistics (`CollectDeptStats` and `DeptStats`);
- the summary (`AiSummary` and `Summary`);
- the recommendations (`Recommend` and `RecommendationList`);
- the search domain (`BuildDomain` and `Domain`).

Pledges and reports are classes, because the source's compute methods
assign their fields in place.

## Model

| member | source | states |
|---|---|---|
| Text.SkipSpaces | models/aihackathon.py:157 | the index of the first non-whitespace character at or after `i`; everything skipped is whitespace (`\s*`) |
| Text.SkipDigits | models/aihackathon.py:167 | the index of the first non-digit at or after `i`; everything skipped is a digit (`\d+`) |
| Text.RStrip | models/aihackathon.py:131 | `rstrip()` returns a prefix of the line that does not end in whitespace, and everything dropped is whitespace |
| Text.LStrip | models/aihackathon.py:125 | `lstrip()` returns a suffix that does not start with whitespace, and everything dropped is whitespace |
| Text.Strip | models/aihackathon.py:125 | `strip()` returns a string with no whitespace at either end, no longer than the input |
| Text.StripNotBlank | models/aihackathon.py:134 | stripping leaves text exactly when some character is not whitespace |
| Text.StripAround | models/aihackathon.py:102 | whitespace on both sides of a trimmed middle is exactly what `strip()` removes |
| Text.SplitOn | models/aihackathon.py:189 | splitting on the pipe character gives at least one piece, and no piece contains the separator |
| Text.SplitJoinRoundTrip | models/aihackathon.py:189 | joining the pieces of `split(c)` with `c` gives the original string back |
| Text.SplitLines | models/aihackathon.py:119 | `splitlines()` returns no line for empty text, and no line contains a line break |
| Text.SplitLinesSegments | models/aihackathon.py:119 | the lines are exactly the text's segments between line boundaries. The text is each line followed by its terminator. Every terminator but the last is one break character or `\r\n`, and the last may be empty. No segment is empty. A lone `\r` is never followed by `\n` |
| Text.NatToString | models/report.py:298 | `str(n)` gives decimal digits with no leading zero |
| Text.NatToStringRoundTrip | models/report.py:298 | reading back the digits of `str(n)` gives `n` |
| Markdown.BulletLineOfStripped | models/aihackathon.py:157-160 | a bullet marker found on the right-stripped line is also found on the raw line that the inner loop tests |
| Markdown.NumberedLineOfStripped | models/aihackathon.py:167-170 | the same as above for numbered markers |
| Markdown.PipeOfStripped | models/aihackathon.py:177-180 | the same as above for a pipe |
| Markdown.BlankLineMatchesNothing | models/aihackathon.py:157-180 | an empty line is not a bullet, numbered or table line, so it ends every run |
| Markdown.RunEnd | models/aihackathon.py:160-162 | the end of the maximal run of matching lines from `i`: every line in the run matches, and the line after it does not |
| Markdown.RunEndUnique | models/aihackathon.py:160-162 | the run end is the only index with that property |
| Markdown.TableRows | models/aihackathon.py:184-196 | at most one row per table line, and never an empty row |
| Markdown.Flush | models/aihackathon.py:123-126 | `push_paragraph` emits nothing for an empty buffer and exactly one paragraph otherwise |
| Markdown.StepAt | models/aihackathon.py:130-204 | each pass of the loop consumes at least one line and never runs past the end |
| Markdown.BlankStep | models/aihackathon.py:133-137 | an empty line flushes the paragraph and moves on by one line |
| Markdown.HeadingStep | models/aihackathon.py:139-154 | `# `, `## ` or `### ` flushes, then emits a heading of that level with the stripped rest of the line |
| Markdown.BulletStep | models/aihackathon.py:156-164 | a bullet line flushes, then emits one list of the stripped, unmarked items of the maximal run of bullet lines, and continues after the run |
| Markdown.NumberedStep | models/aihackathon.py:166-174 | the same as above for numbered lines |
| Markdown.TableStep | models/aihackathon.py:176-200 | a line with a pipe flushes, then emits the rows of the maximal run of pipe lines (separators and empty rows dropped), or nothing when no row is left |
| Markdown.PlainStep | models/aihackathon.py:202-204 | any other line goes to the paragraph buffer right-stripped, and nothing is emitted |
| Markdown.CollectRun | models/aihackathon.py:159-162 | the inner list loop stops at the end of the maximal run and collects exactly the items of that run |
| Markdown.CollectRows | models/aihackathon.py:184-196 | the row loop yields exactly `TableRows` of the table lines |
| Markdown.ParseLine | models/aihackathon.py:130-204 | one pass of the loop: the new blocks, cursor and buffer are the reference step's |
| Markdown.ParseBulletRun | models/aihackathon.py:156-164 | the `ul` branch performs the reference step |
| Markdown.ParseNumberedRun | models/aihackathon.py:166-174 | the `ol` branch performs the reference step |
| Markdown.ParseTableRun | models/aihackathon.py:176-200 | the `table` branch performs the reference step |
| Markdown.ParseMarkdown | models/aihackathon.py:114-207 | `parse_markdown` returns exactly `Parse(SplitLines(text))` |
| Markdown.HeadingHasText | models/aihackathon.py:140-152 | a heading line that survived `rstrip()` has text after its marker |
| Markdown.FlushWellFormed | models/aihackathon.py:123-126 | a paragraph flushed from non-blank lines has text |
| Markdown.StepWellFormed | models/aihackathon.py:130-204 | every step emits only well-formed blocks and buffers only non-blank lines |
| Markdown.TableBlockWellFormed | models/aihackathon.py:198-199 | a table block is emitted only with rows, each of them non-empty |
| Markdown.ParseFromWellFormed | models/aihackathon.py:130-206 | what the loop emits from any cursor is well formed |
| Markdown.ParseWellFormed | models/aihackathon.py:114-207 | every block of a parse is well formed: headings of level 1 to 3 with text, non-empty paragraphs and lists, tables with at least one row and no empty row |
| ParserCases.BlankLineSplitsList | models/aihackathon.py:133-164 | `- a`, `- b`, an empty line and `- c` parse into two lists |
| ParserCases.TwoListsAroundBlank | models/aihackathon.py:133-164 | two bullet lines, an empty line and a bullet line give two lists |
| ParserCases.BulletPairAlone | models/aihackathon.py:156-164 | two bullet lines followed by another kind of line give one two-item list |
| ParserCases.SingleNumbered | models/aihackathon.py:166-174 | a single numbered line is a one-item numbered list |
| ParserCases.NumberedBeforeTable | models/aihackathon.py:166-177 | a numbered line that also holds a pipe is a numbered item, because the list rules are tried before the table rule |
| ParserCases.SinglePlain | models/aihackathon.py:202-206 | a single line that no rule claims is a paragraph, stripped |
| ParserCases.IndentedHashIsText | models/aihackathon.py:140-152 | ` # x` is paragraph text `# x`, because indentation stops a heading |
| ParserCases.OneColumnDashesAreData | models/aihackathon.py:187-196 | a row of one dash cell between pipes is not a separator (the pattern needs two dash cells), so it stays as a data row |
| ParserCases.TwoColumnSeparatorDropped | models/aihackathon.py:187-188 | a row of two dash cells between pipes is a separator and is dropped |
| ParserCases.OneCellNoSeparator | models/aihackathon.py:187 | one cell between pipes never matches the separator pattern |
| ParserCases.TableRowsOfOne | models/aihackathon.py:185-196 | a single table line yields no row when it is a separator or empty, else exactly its cells |
| ParserCases.FlushOne | models/aihackathon.py:125 | a one-line paragraph is the line stripped |
| Story.MaxCols | models/aihackathon.py:238 | `max(len(r))`: no row is longer, and some row reaches it |
| Story.PadRows | models/aihackathon.py:239 | every row is padded with empty cells to the widest row's width, and its own cells are kept |
| Story.PadRowsRectangular | models/aihackathon.py:238-239 | the padded table is rectangular, and the widest row is unchanged |
| Story.NormalizeRows | models/aihackathon.py:238-239 | the `max_cols` and `norm_rows` step computes `PadRows` |
| Story.BulletElems | models/aihackathon.py:232-233 | one bullet paragraph per item: the bullet prefix and the item, in order |
| Story.NumberedElems | models/aihackathon.py:235-236 | one paragraph per item labelled by its position from 1, in order |
| Story.AppendBullets | models/aihackathon.py:231-233 | appends one bullet paragraph per item, in order |
| Story.AppendNumbered | models/aihackathon.py:234-236 | appends one labelled paragraph per item, in order |
| Story.AppendBlock | models/aihackathon.py:221-254 | appends one block's elements and then a spacer of 6 |
| Story.AppendBlocks | models/aihackathon.py:221-254 | the `for` loop appends the rendering of every block |
| Story.BuildStory | models/aihackathon.py:211-256 | `build_story_from_blocks` returns exactly `StorySpec(blocks)`: a centred title and a spacer of 8 when the first block is an `h1`, then each block's elements and a spacer |
| Story.RenderedSpacers | models/aihackathon.py:221-254 | the rendering holds exactly one spacer of 6 per block |
| Story.RenderedHasNoTitle | models/aihackathon.py:221-254 | the loop never uses the title style |
| Story.TitleExactlyWhenFirstIsH1 | models/aihackathon.py:215-219 | the story has a title element exactly when the first block is an `h1`; it is the first element and carries that heading's text |
| Story.StorySpacers | models/aihackathon.py:215-254 | the number of blocks rendered below the title is the number of blocks, minus one when the first was used as the title |
| Story.LabelsNumberFromOne | models/aihackathon.py:235-236 | the item at index `k` is labelled `k + 1`, and distinct items get distinct labels |
| Story.ParsedIsRenderable | models/aihackathon.py:198-199 | the parser never emits an empty table, so `max` over the rows always has a row |
| Orchestrator.FindFence | models/aihackathon.py:100 | the first triple backtick at or after `i` |
| Orchestrator.LazyEnd | models/aihackathon.py:100 | the lazy `(.*?)` stops at the first end that whitespace alone separates from a closing fence |
| Orchestrator.MatchFromFound | models/aihackathon.py:100-102 | when a later fence exists, group 1 is the text up to it with whitespace trimmed at both ends |
| Orchestrator.MatchFromStrip | models/aihackathon.py:100-102 | group 1 equals the stripped text between the opening and the first closing fence |
| Orchestrator.MatchFromNoFence | models/aihackathon.py:100 | group 1 contains no fence of its own |
| Orchestrator.SearchFromFirst | models/aihackathon.py:100 | when no fence is followed by another, `re.search` finds nothing |
| Orchestrator.SearchSkipsToFence | models/aihackathon.py:100 | positions before the first fence never start a match |
| Orchestrator.AfterTagSameFence | models/aihackathon.py:100 | skipping the optional `markdown` tag never skips a fence |
| Orchestrator.MatchAtOpening | models/aihackathon.py:100 | at the first fence, the match is the attempt after the fence and its tag |
| Orchestrator.ExtractMarkdown | models/aihackathon.py:100-103 | the returned markdown never has whitespace at either end |
| Orchestrator.ExtractMarkdownSpec | models/aihackathon.py:100-103 | with a fenced block, the result is the stripped content of the first one, which holds no fence; without one, the result is the stripped reply |
| Orchestrator.Pad2 | models/aihackathon.py:300 | a two-digit zero-padded field that reads back as its value |
| Orchestrator.TimestampShape | models/aihackathon.py:300 | for years 1000 to 9999 the stamp is eight digits, `_` and six digits |
| Orchestrator.EnsurePdf | models/aihackathon.py:304-305 | the name ends with `.pdf` and extends the given one; it is unchanged exactly when it already ended with `.pdf` |
| Orchestrator.EnsurePdfIdempotent | models/aihackathon.py:304-305 | applying the suffix rule twice is the same as applying it once |
| Orchestrator.ResolveFilename | models/aihackathon.py:299-305 | the file name always ends with `.pdf` and starts with the caller's name when one was given |
| Orchestrator.ResolveFilenameDefault | models/aihackathon.py:299-301 | with no name or an empty one, the file name is `AI_Report_<timestamp>.pdf` |
| Orchestrator.OutputPath | models/aihackathon.py:307 | `os.path.join` ends with the file name and lies under the output directory exactly when the name is not absolute |
| Orchestrator.ErrorResponse | models/aihackathon.py:326-332 | the error dictionary carries the message and no file name, path or size |
| Orchestrator.GenerateReport | models/aihackathon.py:292-332 | success exactly when the reply arrived, its markdown is non-empty and the PDF was written, with the resolved name, its path and the size; otherwise an error carrying the reply's failure, the empty-response message or the write failure; the story handed to the writer is `StorySpec(Parse(SplitLines(markdown)))` |
| Pledges.LatestIndex | models/pledge.py:58-59 | `max(progress_ids, key=date)`: the entry with the greatest date, the first one on ties |
| Pledges.CurrentValueOfLatest | models/pledge.py:57-62 | the current value is the value of the unique first entry with the latest date |
| Pledges.ProgressPercent | models/pledge.py:64-67 | the value as a percentage of a positive target, else 0 |
| Pledges.NextStatus | models/pledge.py:69-80 | the status bands: completed at or above 100; in progress from 70 unless already completed; at risk below 40 for any non-draft pledge; a draft below 70 starts exactly when a value was reported; a started pledge never returns to draft |
| Pledges.StatusBounds | models/pledge.py:69-80 | what each resulting status says about the percentage and the value |
| Pledges.NextStatusNotIdempotent | models/pledge.py:73-80 | recomputing twice differs from once: a draft with a low positive value starts, then falls to at risk |
| Pledges.Pledge.constructor | models/pledge.py:22-35 | a new pledge is a draft with no updates and zero value, percentage and count |
| Pledges.Pledge.ComputeProgress | models/pledge.py:55-80 | the record's value, percentage and status become those of the rules above, from its old status; the target, updates and count are unchanged |
| Pledges.Pledge.ComputeProgressCount | models/pledge.py:82-84 | the count becomes the number of updates, and nothing else changes |
| Pledges.ComputeProgressAll | models/pledge.py:55-80 | each record of the recordset is recomputed from its own old state |
| Reports.Domain | models/report.py:98-120 | no search when not including all and no pledge is chosen. Otherwise there is one scope clause, a department clause exactly when departments are chosen, and a status clause exactly when the filter is not `all`; for an unset filter that clause asks for `False` |
| Reports.BuildDomain | models/report.py:98-119 | building the domain clause by clause gives `Domain` |
| Reports.Search | models/report.py:120 | `search(domain)` returns exactly the records of the table that satisfy every clause |
| Reports.ScopeMembers | models/report.py:98-120 | a pledge is covered exactly when it is in the table, is in the chosen set (or is not a draft when all are included), is in a chosen department when any are chosen, has the filtered status when one is set, and the filter is not unset |
| Reports.IncludeAllDraftIsEmpty | models/report.py:108-118 | including all pledges while filtering on `draft` covers nothing |
| Reports.UnsetFilterIsEmpty | models/report.py:29-33 | an unset status filter (the optional field left empty) asks for a status equal to `False`, which no pledge has, so nothing is covered |
| Reports.Quarter | models/report.py:22 | `((month - 1) // 3) + 1` is the quarter, 1 to 4, that holds the month |
| Reports.DefaultPeriod | models/report.py:22 | the default period is the year, `-Q` and the quarter digit |
| Reports.DefaultPeriodReadBack | models/report.py:22 | reading the period back gives the year and the quarter it came from |
| Reports.ReportName | models/report.py:63-66 | the name is `CSR Report - ` followed by the period |
| Reports.ImpactScore | models/report.py:68-75 | the mean progress of the covered pledges, 0 for none |
| Reports.ImpactScoreBetween | models/report.py:68-75 | the score lies between the lowest and the highest progress |
| Reports.Percent | models/report.py:86 | `part / total * 100`, 0 for no pledges |
| Reports.Classify | models/report.py:77-96 | each verdict holds exactly under its thresholds, tested in the source's order |
| Reports.MonitoringExactly | models/report.py:89-96 | the fallback verdict is reached exactly when both values are at least 40 and one is below 50 |
| Reports.TruncateTitle | models/report.py:855 | a title over 30 characters becomes its first 30 and `...`; a shorter one is unchanged |
| Reports.TruncateName | models/report.py:856-857 | a department or owner name is cut to its first 20 characters |
| Reports.DeptNames | models/report.py:161-165 | the dictionary keys: no department twice, every pledge's department (`Unknown` when it has no name) present, and at least one key when there are pledges |
| Reports.DeptStats | models/report.py:159-168 | each department's entry holds the progress of exactly its pledges, in order |
| Reports.Mean | models/report.py:173-175 | the mean, 0 for no values |
| Reports.TopIndex | models/report.py:172-173 | `max(..., key=average)`: a department with the highest average, the first one on ties |
| Reports.FindDept | models/report.py:164 | the dictionary lookup finds the department's entry, or reports it absent |
| Reports.DeptStatsStep | models/report.py:162-168 | one pledge either opens a new department entry or appends its progress to its department's entry |
| Reports.NoProgressOutside | models/report.py:162-168 | a department no pledge belongs to has collected nothing |
| Reports.CollectDeptStats | models/report.py:159-168 | the department loop computes `DeptStats` |
| Reports.RatingOf | models/report.py:153-158 | `Excellent` from 70, `Moderate` from 40, `Limited` below 40 |
| Reports.CompletedTitles | models/report.py:183 | one title per completed pledge |
| Reports.SummaryParts | models/report.py:150-185 | the overall sentence always comes first |
| Reports.SummaryShape | models/report.py:150-185 | one part per condition that holds; the achievements come last and name the first three completed titles |
| Reports.LeaderPresent | models/report.py:171-176 | the summary names a leading department exactly when there are pledges |
| Reports.LeaderHasTopAverage | models/report.py:171-176 | the department named has the highest average progress and is the first such department, with its own average |
| Reports.OpeningRating | models/report.py:152-158 | the summary opens with `Excellent`, `Moderate` or `Limited` exactly in the completion bands |
| Reports.WarningTextOnlyFromWarning | models/report.py:178-180 | only the at-risk part formats to the warning sentence |
| Reports.WarningPresent | models/report.py:178-180 | with at-risk pledges the warning sentence is among the summary's sentences |
| Reports.WarningExactlyWhenAtRisk | models/report.py:178-187 | the warning is among the summary's sentences exactly when some pledge is at risk |
| Reports.OpeningPart | models/report.py:140-158 | the overall part from the status counts |
| Reports.AddLeader | models/report.py:159-176 | appends the leading department exactly when there is one |
| Reports.AddWarning | models/report.py:178-180 | appends the warning exactly when a pledge is at risk |
| Reports.AddAchievements | models/report.py:182-185 | appends up to three completed titles when a pledge is completed |
| Reports.AiSummary | models/report.py:138-187 | the summary built step by step is the parts' sentences joined by single spaces |
| Reports.RecommendationText | models/report.py:292-304 | every recommendation line has at least two characters |
| Reports.CountBelow | models/report.py:296-297 | the number of pledges below a threshold is zero exactly when none is below it |
| Reports.RecommendationList | models/report.py:289-304 | one to four lines; each rule's line is present exactly when its condition holds, with its own count; the all-well line appears exactly when no rule fires, and then alone |
| Reports.RecommendationTextInjective | models/report.py:289-304 | different recommendations give different lines, so a stored line names its rule and count |
| Reports.FramedNumberUnique | models/report.py:298-301 | a count between a fixed prefix and suffix reads back uniquely |
| Reports.Recommend | models/report.py:289-304 | building the list rule by rule gives `RecommendationList` |
| Reports.Report.constructor | models/report.py:22-33 | a new report has the default period for its month, includes all pledges, has no filters and is not generated |
| Reports.Report.FilteredPledges | models/report.py:98-120 | `_get_filtered_pledges` returns exactly the covered pledges |
| Reports.Report.ComputeName | models/report.py:63-66 | the name becomes `ReportName(period)`, and nothing else changes |
| Reports.Report.ComputeImpactScore | models/report.py:68-75 | the score becomes the mean progress of the covered pledges, and nothing else changes |
| Reports.Report.ComputeOnTrackStatus | models/report.py:77-96 | the verdict is classified from the covered pledges and the stored score, and nothing else changes |
| Reports.Report.ComputeAiSummary | models/report.py:137-187 | the summary becomes `Summary` of the covered pledges, and nothing else changes |
| Reports.Report.GenerateReport | models/report.py:189-310 | with no covered pledge, nothing is written and the warning is returned; otherwise the recommendation lines are stored joined by newlines and the report is marked generated |

## Left out

- Network, clock and disk. The HTTP request to the model server, `datetime.now()` and the PDF writer are parameters:
  - the reply or its error;
  - the current date and time;
  - the written size or the write error.
- The Flask routes, the request logging and the wrapping of every exception into `RuntimeError` are not modelled. `GenerateReport` takes the error message as given.
- The rendering library is not modelled: fonts, colours, page geometry, the table style and the page footer. Elements are data (`Para`, `Spacer`, `KeptTable`); styles are names.
- Orchestrator.ExtractMarkdown: the regex is modelled by its meaning (leftmost match, lazy group), not by backtracking.
- Markdown.IsNumberedLine: `\d` is modelled as the ASCII digits `0` to `9`; Python also accepts other Unicode decimal digits.
- Orchestrator.Timestamp: the four-digit shape is proved only for years 1000 to 9999; `%Y` for earlier years is not modelled.
- Floats are modelled as exact `real` values, so rounding is not captured. The `:.0f` and `:.1f` formats of the summary are parameters (`fmt0`, `fmt1`).
- Reports.Summary: the sentences are modelled as a datatype of parts (`SummaryPart`), each rendered by its own template. The same holds for the recommendations (`Recommendation`).
- Reports.Search: the ORM search is modelled as a filter over the pledge table, in the table's order. The record ordering `create_date desc` is not modelled.
- Reports.DeptStats: the per-department `total` and `completed` counters are never read by the summary, so they are not modelled.
- Reports.Report.GenerateReport: the HTML executive summary and detailed analysis, the energy and volunteer totals and the top-pledges list are not modelled, because they are formatting. Only the recommendations and the state are.
- The `kpi_snapshot` text, the HTML dashboards and the standard PDF report are not modelled. The name truncation of its table is modelled.
- Pledges.Pledge: the recordset loop `for rec in self` is modelled once per record (`ComputeProgress`) and over a sequence of distinct records (`ComputeProgressAll`). Odoo's recompute triggers are not modelled.
- The department, progress, KPI, dashboard, project, task, employee and CRM models are not part of this model.
