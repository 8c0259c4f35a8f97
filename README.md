# check-page-speed, text core, in Dafny

A model of the text-processing core of check-page-speed, a Go tool that asks the PageSpeed Insights service to analyse web pages. The tool then prints the Lighthouse results as a summary table, followed by one listing per page.

The model covers four parts of the tool:

- **`elide`** (strutil.go, with an identical earlier copy in util.go). It shortens a string to at most `max` code points. When a URL is too long, it keeps the `scheme://authority/` prefix and a head and tail of the path around a single `…`.
- **`table`** (table.go). Its `appendRow` insists on rows as long as the first one. Its `format(maxLines, spacing)` pads every column to its widest cell, drops all-empty columns and caps the output with a `[k more]` line.
- **Report construction** (report.go):
  - `score100`, which maps a score to 0..100, or -1 when there is none;
  - `categoryAbbrev`;
  - `getDetails` after JSON decoding: the heading row, one row per item, and the per-type cell text;
  - `readReport`, which builds the five categories in DevTools order and fails on a missing audit.
- **Text output** (text.go):
  - `writeSummary`;
  - `writeReports`, which puts an 80-character `=` divider before each report;
  - `writeReport`: the audit filter, the audit lines, in-place elision of detail cells, the `[k more]` cap and four-space indentation.

Output written to an `io.Writer` is modelled as the sequence of lines written.

main.go holds an earlier revision of the report and text code. It is modelled separately, in module `MainProgram`, because it differs from report.go and text.go:

- a missing audit is logged and skipped;
- every item cell is elided to 40 code points;
- the summary heading comes from the first report;
- audits without a score, or with 100, are never listed;
- `formatTable` can fail, and its error ends the report.

Modules:

| module | file | models |
|---|---|---|
| `Wrappers` | wrappers.dfy | `Option` and `Result` |
| `Fmt` | fmt.dfy | the parts of Go's `strings`, `strconv` and `fmt` the core uses: `strings.Repeat`, `strconv.Itoa`, `%3d`, `strings.TrimSpace`, `strings.TrimSuffix` and the `[k more]` cap |
| `StrUtil` | strutil.dfy | `elide` and the regular expression `^([^/]+://[^/]+/)(.+)$` |
| `StrUtilExamples` | strutil_examples.dfy | the cases of strutil_test.go and util_test.go, as lemmas |
| `TableFormat` | table.dfy | class `Table`, with `newTable`, `appendRow` and `format` |
| `TableExamples` | table_examples.dfy | the cases of table_test.go that table.go can run, as lemmas |
| `Reports` | report.dfy | report.go |
| `Text` | text.dfy | text.go |
| `MainProgram` | main_variant.dfy | the main.go revisions of `getDetails`, the report loop, `writeSummary` and `writeReport` |

Where the code works by changing things step by step, it is modelled the same way:
- `table`
- `readReport`
- `getDetails`
- `writeSummary`
- `writeReport`
- `writeReports`

This gives a `class` with a `rows` field, `array`s for `widths` and `lines`, and methods with loops. Each such method's `ensures` ties its result to a specification function, and that function's properties are proved as lemmas. Pure switches and string arithmetic, such as `elide`, `score100` and `categoryAbbrev`, are functions.

Facts about the code that shape the model:

- table.go has no alignment option. Its `appendRow` panics on a row of another length. Its `format` tolerates rows shorter than the first but indexes out of range on longer ones, so `Table.Format` requires `RowsFit`.
- An over-long string with `max <= 0` makes `elide` slice `r[:max-1]` and panic, so `Elide` requires `max >= 1` whenever the string is longer than `max`.
- Every item row of the details table is exactly as long as the heading row, which `Reports.DetailsShape` proves.

## Model

| member | source | states |
|---|---|---|
| Fmt.Repeat | text.go:73 | `strings.Repeat(c, n)` has length `n` and every character is `c` |
| Fmt.Digit | text.go:42 | a digit below ten becomes the character whose code is `'0'` plus that digit |
| Fmt.NatToStringDigits | text.go:42 | the decimal text of a natural number is non-empty, all digits, and has no leading zero unless it is `0` |
| Fmt.NatToStringRoundTrip | text.go:42 | reading the decimal digits of `NatToString(n)` gives `n` back (the `strconv.Itoa` round trip) |
| Fmt.ItoaInjective | text.go:42 | `strconv.Itoa` never prints two different integers the same way |
| Fmt.PadLeft | text.go:69 | `%3d`-style left padding gives the longer of the text and the width |
| Fmt.PadLeftSpec | text.go:69 | the padded text ends with the original text and is spaces before it |
| Fmt.Int3ThirdIsDigit | text.go:81 | for a non-negative score, `%3d` is at least three characters and the third is a digit |
| Fmt.TrimLeftSpec | report.go:132 | trimming leading space leaves a suffix, removes only white space, and never starts with a space; text without leading space is kept |
| Fmt.TrimRightSpec | report.go:132 | trimming trailing space leaves a prefix, removes only white space, and never ends with a space; text without trailing space is kept |
| Fmt.TrimSpaceTrimmed | report.go:132 | `strings.TrimSpace` neither starts nor ends with white space, and leaves an already trimmed string alone |
| Fmt.TrimSpaceParts | report.go:152 | `strings.TrimSpace` is a contiguous slice of its input, with only white space removed on either side |
| Fmt.TrimSpaceTail | report.go:152 | a trimmed suffix `l` trimmed again is a slice of the original, with only white space after it |
| Fmt.TrimSpaceIdempotent | report.go:152 | trimming twice is trimming once |
| Fmt.TrimSuffix | report.go:154 | `strings.TrimSuffix` removes the suffix exactly when the text ends with it, and otherwise returns the text unchanged |
| Fmt.CapLines | table.go:57-60 | more than `max` lines become `max` lines: the first `max-1` unchanged, the last `[k more]` with `k = len - max + 1`; at most `max` lines are kept as they are |
| StrUtil.IndexFrom | strutil.go:37 | the first position of `c` at or after `k`, or the length when there is none |
| StrUtil.IndexOf | strutil.go:37 | the first position of `c`, or the length when `c` does not occur |
| StrUtil.IndexOfConcat | strutil.go:37 | when `x` has no `c` and `y` starts with one, the first `c` of `x + y` is at `|x|` |
| StrUtil.IndexOfAbsent | strutil.go:37 | a character that does not occur is found at the end |
| StrUtil.MatchUrl | strutil.go:22 | when the match succeeds, prefix and rest together are as long as the string |
| StrUtil.MatchUrlSound | strutil.go:37 | a match splits the string exactly into `scheme://authority/` and a non-empty rest, with scheme and authority non-empty and free of `/` and the rest free of newlines |
| StrUtil.MatchUrlComplete | strutil.go:37 | every string of the shape `[^/]+://[^/]+/.+` is matched, with exactly those parts (the other direction of the regular expression) |
| StrUtil.BeforeIndex | strutil.go:37 | nothing before the first `c` is a `c` |
| StrUtil.MatchUrlSplit | strutil.go:37 | the parts cut at the `://` and at the next `/` put back together give the string |
| StrUtil.NoSlashNoMatch | strutil.go:22-23 | a string without `/` is never URL-shaped, so it takes the plain fallback |
| StrUtil.Elide | strutil.go:15-34 | a string of at most `max` code points is returned unchanged; a longer one comes back exactly `max` code points long |
| StrUtil.ElideUrl | strutil.go:24-30 | the URL branch produces exactly `max` code points |
| StrUtil.ElideBounded | strutil.go:14-19 | the result never exceeds `max` code points, and equals the input exactly when the input fits |
| StrUtil.ElideIdempotent | strutil.go:15-34 | eliding an elided string again changes nothing |
| StrUtil.ElideFallback | strutil.go:33 | without a URL match, or when the prefix is not shorter than `max`, the result is the first `max-1` code points and `…` |
| StrUtil.ElideUrlParts | strutil.go:24-30 | the URL branch is the prefix, the first `(max-p)/2` code points of the rest, `…`, and the last `max-p-(max-p)/2-1` of them; lengths add up to `max`, and the head is never shorter than the tail |
| StrUtil.ElideUrlShape | strutil.go:24-30 | on any match, the URL branch is the prefix, a head, `…` and a tail, head and tail differing by at most one |
| StrUtil.ElideCutsMiddle | util.go:13-31 | every elision keeps a prefix and a suffix of the string around a single `…`, cutting at least two code points |
| StrUtil.CutUrl | strutil.go:24-30 | the URL branch is a prefix of the string, `…`, and a suffix; both slices are in bounds |
| StrUtil.CutMatch | strutil.go:24-30 | on a match that splits `s`, the URL branch keeps a prefix and a suffix of `s` around `…` |
| StrUtil.CutAround | strutil.go:25-28 | head and tail taken from the rest are also a prefix and a suffix of the whole string |
| StrUtilExamples.ElideExamples | strutil_test.go:16-22 | the plain cases of strutil_test.go, `elide("hello there", 1) == "…"` among them |
| StrUtilExamples.ExampleUrlMatch | strutil_test.go:23 | the test URL splits as `https://example.org/` (20 code points) and `dir/file.html` (13) |
| StrUtilExamples.ExampleUrlElided | strutil_test.go:24-35 | for `max` from 21 to 32 the test URL keeps its prefix, a head and a tail of its path |
| StrUtilExamples.ElideUrlExamples | strutil_test.go:23-38 | `max` 20 falls back to `https://example.org…`, 21 keeps only the prefix and `…`, 33 and 34 keep the URL |
| StrUtilExamples.ElideUrlHeadTailExamples | strutil_test.go:26-28 | the cases `https://example.org/d…l` and `https://example.org/di…ml` |
| StrUtilExamples.ElideUrlLongerExample | strutil_test.go:31 | the case `https://example.org/dir/…tml` |
| StrUtilExamples.ElideUrlLongestExample | strutil_test.go:35 | the case `https://example.org/dir/fi….html` |
| StrUtilExamples.UtilElideExamples | util_test.go:16-17 | util.go's copy gives `hello` and `hello thi…` |
| StrUtilExamples.UtilElideUrlExamples | util_test.go:20-23 | util.go's copy gives `https://example.org/d…` and `https://example.org/di…l` |
| StrUtilExamples.UtilElideUrlLongerExamples | util_test.go:29-33 | util.go's copy gives `https://example.org/dir/f….html` and keeps the URL at 35 |
| TableFormat.ColumnWidthIsMax | table.go:33-40 | the width of column `j` is at least every cell of that column, and equal to one of them unless it is 0 |
| TableFormat.Widths | table.go:32-40 | one width per column of the first row, each the column's maximum |
| TableFormat.Spaces | table.go:52 | `strings.Repeat(" ", n)`: `n` spaces for `n >= 0`; for `n < 0`, where `strings.Repeat` panics, the model gives no spaces, and `Table.Format` requires padding that is never negative |
| TableFormat.PadsFitRows | table.go:52 | when no padding is negative, every row's padding is non-negative |
| TableFormat.FormatLines | table.go:42-55 | one line per row |
| TableFormat.FormatLinesFrom | table.go:42-55 | a list of lines that matches every row's format is the formatted table |
| TableFormat.FormattedLines | table.go:57-60 | `format` is the row lines capped at `maxLines` with `[k more]` |
| TableFormat.ReplaceThenCut | table.go:58-59 | overwriting element `m-1` and keeping `m` elements is the first `m-1` followed by the new one |
| TableFormat.ColumnWidths | table.go:33-40 | the `widths` array filled by the nested loop holds the maximum rune count of every column |
| TableFormat.FormatRows | table.go:42-55 | each entry of `lines` is its row's formatted line |
| TableFormat.FormatRow | table.go:44-54 | appending cell and padding one cell at a time builds the row's formatted line |
| TableFormat.RowLines | table.go:42-55 | the `lines` array holds one formatted line per row |
| TableFormat.Table.constructor | table.go:16-18 | a new table has no rows |
| TableFormat.Table.AppendRow | table.go:20-25 | a row is accepted exactly when the table is empty or the row is as long as the first; an accepted row is appended and nothing else changes, a refused one leaves the rows alone; rectangular tables stay rectangular |
| TableFormat.Table.Format | table.go:27-63 | `format` returns exactly the capped formatted lines and leaves the rows untouched |
| TableFormat.FormattedShape | table.go:28-30 | an empty table gives no lines; otherwise one line per row up to the cap, a `[k more]` last line beyond it, and every kept line is its row's format |
| TableFormat.ZeroWidthIffEmpty | table.go:46-48 | a column has width 0 exactly when all its cells are empty |
| TableFormat.ZeroWidthSilent | table.go:46-48 | a column of width 0 adds neither text nor padding |
| TableFormat.NonNegativeSpacingFits | table.go:52 | with non-negative spacing no padding is negative |
| TableFormat.ColumnStart | table.go:49-53 | with non-negative spacing every column starts at a non-negative offset |
| TableFormat.CellsBeforeWidth | table.go:49-53 | the cells before column `j` take exactly the widths and spacing of those columns |
| TableFormat.FormatCellsPrefix | table.go:44-54 | the line built from the first `n` cells is a prefix of the line built from the first `m` |
| TableFormat.ColumnsLineUp | table.go:49-53 | cell `j` of every row starts at the same offset: the sum of the earlier widths and their spacing |
| TableFormat.LastCellUnpadded | table.go:50 | a row's line ends with its last cell, with no padding after it |
| TableExamples.SpacesExamples | table.go:52 | one, two and three spaces |
| TableExamples.ColumnWidthOfTwo | table.go:33-40 | the width of a column of a two-row table is the longer of its two cells |
| TableExamples.FormattedTwoRows | table.go:42-60 | a two-row table under the cap formats as its two row lines |
| TableExamples.TwoColumnsExample | table_test.go:19-21 | `["ab","foo"],["c","barber"]` with spacing 2 gives `"ab  foo"` and `"c   barber"` |
| TableExamples.EmptyTableExample | table_test.go:17 | no rows give no lines |
| TableExamples.ShortRowExample | table_test.go:29-31 | a row shorter than the first has fewer cells and an unpadded last cell |
| TableExamples.EmptyColumnExample | table_test.go:39-41 | an all-empty first column disappears from every line |
| TableExamples.EmptyLastColumnExample | table.go:46-53 | an all-empty last column leaves the padding of the cell before it |
| TableExamples.CapExample | table.go:57-60 | three rows capped at two lines keep the first line and end with `[2 more]` |
| Reports.Round | report.go:82 | `math.Round`: within one half of the argument, halves away from zero |
| Reports.Score100 | report.go:77-83 | -1 when the score is not a number, otherwise `f * 100` rounded |
| Reports.Score100Range | report.go:75-76 | a score in [0, 1] becomes an integer in [0, 100] |
| Reports.Score100Half | main.go:176-182 | a score ending exactly at a half percent is rounded up; main.go's `score100` is the same function |
| Reports.CategoryAbbrev | report.go:86-100 | an id other than the five known ones is returned unchanged |
| Reports.CategoryAbbrevTable | report.go:87-97 | accessibility, best-practices, performance, pwa and seo become A11Y, Best, Perf, PWA and SEO |
| Reports.CategoryAbbrevChanges | main.go:278-292 | the abbreviation differs from the id exactly for the five known ids, and is then at most four characters; main.go's `categoryAbbrev` is the same function |
| Reports.ColumnListsLen | report.go:124-142 | one heading name, key and unit per heading |
| Reports.ColumnListsAt | report.go:125-142 | column `j` has heading `j`'s trimmed text (or label), its key, and its unit |
| Reports.RowCellsAt | report.go:146-171 | an item's row has one cell per key, cell `m` computed from key `m` and unit `m` |
| Reports.ItemRowsAt | report.go:145-173 | one row per item, in item order |
| Reports.DetailsWithoutTable | report.go:104-122 | no rows exactly for empty raw data or decoded data without headings or items; raw data that does not decode gives the single cell `[[raw]]` |
| Reports.DetailsShape | report.go:144-175 | with a table: one heading row and one row per item, all as long as the heading list, and the heading row is the heading names |
| Reports.DetailsCell | report.go:147-170 | cell `j` of item row `i` is item `i`'s value for heading `j`'s key, with heading `j`'s unit |
| Reports.HeadingsTrimmed | report.go:126-132 | heading names never start or end with white space |
| Reports.ItemCellCases | report.go:148-168 | a missing key gives `""`, a string is trimmed, a number is `%.1f` without `.0` plus `" ms"` or `" bytes"` when the heading says so, an object gives its `snippet` string, else its `url` string, else its `fmt.Sprint` printing, and any other value its `fmt.Sprint` printing |
| Reports.Column | report.go:125-142 | one iteration of the heading loop yields the heading's name, key and unit |
| Reports.Columns | report.go:124-142 | the heading loop builds the three column lists |
| Reports.BuildRow | report.go:146-171 | the key loop builds an item's row |
| Reports.BuildRows | report.go:145-173 | the item loop builds one row per item, in item order |
| Reports.GetDetails | report.go:103-176 | `getDetails` returns exactly `DetailsTable` |
| Reports.PresentConcat | report.go:42-52 | skipping absent categories distributes over concatenation |
| Reports.PresentMembers | report.go:50-52 | a category is kept exactly when it is present in the list |
| Reports.PresentAllFive | report.go:42-49 | with all five categories present they are taken in DevTools order: Performance, Accessibility, Best Practices, SEO, PWA |
| Reports.FirstMissing | report.go:58-62 | the first reference without an audit: all before it resolve |
| Reports.FirstIncomplete | report.go:42-70 | the first category with an unresolved reference: all before it resolve |
| Reports.ReadCategory | report.go:53-68 | the audit loop of one category returns its audits or the first missing one |
| Reports.FirstIncompleteAt | report.go:58-62 | the category the loop stops at is the first incomplete one |
| Reports.ReadReport | report.go:39-73 | `readReport` returns exactly `ReportOf`: the report, or the first missing audit |
| Reports.ErrorAt | report.go:58-62 | when the loop stops at category `i`, that is the first incomplete present category |
| Reports.ReportOfOk | report.go:58-62 | a report is built exactly when every present category resolves all its references |
| Reports.ReportOfContents | report.go:40-70 | the report's URL is the response id; one category per present one, in order, with title, abbreviation and score; one audit per reference, in order, with title, score, empty value and details |
| Reports.ReportOfError | report.go:59-62 | the error names the first category and the first reference in it that has no audit |
| Text.FirstWithCategories | text.go:22-32 | the first report with categories: every report before it has none |
| Text.AbbrevsAt | text.go:26-28 | one heading cell per category: its abbreviation |
| Text.ScoresAt | text.go:41-43 | one score cell per category: `strconv.Itoa` of its score |
| Text.RightColsAt | text.go:28 | column `i + 1` is right-aligned for every category `i` |
| Text.SummaryBodyAt | text.go:34-45 | one summary row per report, in order |
| Text.SummaryRowOf | text.go:35-44 | the row loop builds a report's summary row |
| Text.CategoryColumns | text.go:26-29 | the heading loop builds `URL` and the abbreviations, with spacing 2 and right-aligned score columns |
| Text.SummaryColumns | text.go:21-32 | the heading comes from the first report with categories, or is just `URL` |
| Text.WriteSummary | text.go:20-50 | `writeSummary` writes exactly the formatted summary table |
| Text.SummaryShape | text.go:22-45 | heading row first, then one row per report in input order |
| Text.SummaryRowCells | text.go:35-44 | a row is the full URL or its path, then one decimal score per category, so a report without categories has a single cell |
| Text.SummaryHeadingCells | text.go:21-32 | `URL` and spacing 2 first; one abbreviation and one right-aligned column per category of the first report that has categories, nothing more when none has |
| Text.IndentAt | text.go:105-107 | every detail line is printed after four spaces |
| Text.ElideRowInPlace | text.go:95-97 | overwriting each cell of a row with its elision gives the elided row |
| Text.ElideInPlace | text.go:94-98 | overwriting the cells row by row elides every cell of the details |
| Text.CapInPlace | text.go:101-104 | overwrite then reslice: the detail lines capped at `maxDetails` |
| Text.WriteIndented | text.go:105-107 | the print loop writes each detail line after four spaces |
| Text.AuditLineOf | text.go:79-88 | the audit line is built as the score field, a space, the title and `": " + value` |
| Text.WriteAudit | text.go:75-108 | one audit: exactly its lines, and the audit with its details elided in place |
| Text.WriteAudits | text.go:74-109 | the audit loop writes each audit's lines in order and leaves each audit elided |
| Text.WriteCategory | text.go:68-110 | one category: header, and unless audits are off, underline, audits and a blank line |
| Text.WriteCategories | text.go:68-111 | the category loop writes each category in order |
| Text.WriteReport | text.go:64-113 | `writeReport` writes exactly `ReportText` and leaves the report elided as the caller sees it |
| Text.WriteReports | text.go:53-61 | `writeReports` writes each report's block in order, and never fails |
| Text.AuditLineMarks | text.go:80-84 | the audit line starts with the score field; its third character is `.` exactly when the score is negative and a digit otherwise |
| Text.FailedFilter | text.go:75-77 | with `auditsFailed`, an audit is left out exactly when its score is negative or 100; otherwise every audit is written; a written audit starts with its line |
| Text.DetailLinesCapped | text.go:91-107 | no detail lines without details or with `maxDetails == 0`; when not over the cap, all lines indented; over a positive cap, exactly `maxDetails` lines ending in an indented `[k more]` |
| Text.ElideRowLength | text.go:95-97 | eliding a row keeps its length |
| Text.ElideRowIndex | text.go:96 | cell `j` of an elided row is cell `j` elided |
| Text.ElideRowAt | text.go:95-97 | every cell of an elided row is the elision of the original cell |
| Text.ElideCellsAt | text.go:94-98 | every row of elided details is the elided row |
| Text.ElidedCellsBounded | text.go:93-99 | after elision every cell is at most `detailWidth` code points, the shape is kept, and a cell changes exactly when it was too long |
| Text.ElideRowIdempotent | text.go:96 | eliding a row twice is eliding it once |
| Text.ElideCellsIdempotent | text.go:94-98 | eliding details twice is eliding them once |
| Text.ElidedAuditStable | text.go:93-100 | in-place elision keeps title, score, value and the number of rows; a second pass changes nothing and prints the same lines |
| Text.ElidedAuditsStable | text.go:74-109 | writing the elided audits again changes nothing and prints the same |
| Text.ElidedCategoriesStable | text.go:68-111 | writing the elided categories again changes nothing and prints the same |
| Text.ElidedReportStable | text.go:64-113 | writing a report left elided by `writeReport` prints the same lines and changes nothing more; URL and number of categories are kept |
| Text.ElidedCategoriesLength | text.go:68 | elision keeps the number of categories |
| Text.CategoryFrame | text.go:69-73 | unless audits are off: the `%3d Title` header, 20 dashes, the audits' lines and a closing blank line |
| Text.HeadersAt | text.go:69 | one `%3d Title` header per category, in order |
| Text.AuditsNoneText | text.go:70-72 | with `auditsNone` every category writes only its header: no underline, no audits, no blank line |
| Text.AuditsNoneKeeps | text.go:70-72 | with `auditsNone` no details are elided |
| Text.AuditsNoneReport | text.go:65-72 | with `auditsNone` a report is its URL, a blank line and one header per category |
| Text.ReportBlocksLength | text.go:54-60 | one block per report |
| Text.ReportBlocksIndex | text.go:54-60 | block `i` is report `i`'s divider and listing |
| Text.ReportBlockStart | text.go:55 | a block starts with 80 `=`, a blank line, the URL and a blank line |
| Text.FlattenAt | text.go:53-61 | block `i` sits in the concatenated output right after the blocks before it |
| Text.ReportsTextBlock | text.go:53-61 | report `i`'s block starts right after the blocks of the reports before it, with the divider, a blank line, its URL and a blank line |
| MainProgram.BuildElidedRow | main.go:227-252 | the key loop builds an item's row with every cell elided |
| MainProgram.BuildElidedRows | main.go:226-254 | the item loop builds one elided row per item, in item order |
| MainProgram.GetElidedDetails | main.go:184-257 | main.go's `getDetails` returns exactly `ElidedDetailsTable` |
| MainProgram.ElidedRowIsElided | main.go:251 | an elided row is report.go's row with every cell elided to 40 |
| MainProgram.ElidedItemRowsAreElided | main.go:226-254 | the elided item rows are report.go's item rows, each elided to 40 |
| MainProgram.ElidedDetailsRelation | main.go:184-257 | without a table main.go's details equal report.go's, raw text included, unelided; with one, the same heading row and every item row elided |
| MainProgram.ElidedDetailsCell | main.go:225-251 | headings are not elided; item cell `j` is report.go's cell elided, at most 40 code points, and unchanged exactly when it fits |
| MainProgram.BuildCategory | main.go:81-98 | the audit loop keeps the references with an audit, in order, and logs each missing one with the category's title |
| MainProgram.BuildReport | main.go:71-99 | all five categories in DevTools order; the report and the log lines are exactly `VariantReport` and `VariantMissing` |
| MainProgram.KnownRefsLength | main.go:86-96 | one audit per kept reference, never more than there are references |
| MainProgram.MissingRefsCount | main.go:86-91 | every reference is either kept or logged, and each log line names the category and an absent audit |
| MainProgram.KnownAuditsIndex | main.go:92-96 | audit `k` is the audit of the `k`-th kept reference, which names an audit of the response |
| MainProgram.KnownRefsAll | main.go:86-91 | nothing is skipped exactly when every reference names an audit |
| MainProgram.VariantCategoryComplete | main.go:81-97 | for a complete category, main.go agrees with report.go on title, abbreviation, score and audits, except that the details are elided |
| MainProgram.BuildSummaryRow | main.go:126-134 | the row loop builds the path or URL, then the scores |
| MainProgram.WriteSummary | main.go:118-145 | main.go's `writeSummary` returns the formatted table, or `failed formatting table: ` and the error |
| MainProgram.SummaryBodySame | main.go:125-136 | main.go's summary rows are text.go's with `pathOnly` the negation of `fullURLs` |
| MainProgram.SummaryAgrees | main.go:118-136 | when the first report has categories, main.go's table and options are exactly text.go's |
| MainProgram.SummaryHeadingColumns | main.go:119-124 | the heading is `URL` and the abbreviations of `reps[0]`, with columns 1 to k right-aligned |
| MainProgram.WriteAudit | main.go:155-169 | one audit: nothing when unscored or perfect, else its line, then its indented details or the error |
| MainProgram.WriteAudits | main.go:154-170 | the audit loop writes each audit in order and stops at the first error |
| MainProgram.WriteCategory | main.go:152-171 | header, underline, the audits, and a blank line unless an audit failed |
| MainProgram.WriteReport | main.go:147-174 | main.go's `writeReport` writes exactly `ReportOut`, stopping at the first error |
| MainProgram.AuditFilter | main.go:155-162 | an audit writes nothing exactly when its score is negative or 100; otherwise its first line is `%3d title[: value]`, the same as text.go's line |
| MainProgram.AuditFailure | main.go:163-166 | writing fails exactly for a listed audit whose table `formatTable` refuses; the error names the audit and only its line was written |
| MainProgram.AuditDetails | main.go:163-169 | a listed audit's detail lines are `formatTable`'s lines after four spaces |
| MainProgram.AuditsOutOk | main.go:154-170 | the audits finish without error exactly when no single audit fails |
| MainProgram.CategoryFrame | main.go:152-171 | the header and 20 dashes come first, and the closing blank line is there exactly when no audit failed |
| MainProgram.ReportStart | main.go:148-149 | the URL and a blank line come first, whatever follows |

## Left out

- I/O. The writer is a list of lines. `main()` itself is not modelled: flags, the PageSpeed Insights client, `os.Exit`, stderr, and the sequencing of summary and reports in main.go:101-115. The same goes for the error wrapping in `writeReports` (text.go:56-58), which never fires because text.go's `writeReport` cannot fail.
- mail.go is not part of this model. It is SMTP delivery and template execution.
- JSON decoding in `getDetails`. The input is `RawDetails`: the raw text and, when it decodes, the headings and items. Item values form a closed `Value` datatype.
- Floating point. Scores are `real`s, and `Reports.Round` is rounding half away from zero on reals. `%.1f` and `fmt.Sprint` are the function parameters `Printer.fixed1` and `Printer.sprint`.
- `urlPath` is a wrapper over `net/url`, so it is the parameter `Env.urlPath`.
- `formatTable` and the table options are not part of this model, so they are passed in. `Text.Env.formatTable` never fails, as in text.go. `MainProgram.MainEnv.formatTable` returns a `Result` (main.go:137, 163).
- table_test.go exercises `formatTable`, not `table.format`. Its right-alignment case does not hold for table.go, which has no alignment, so it is not restated. Its case with a longer second row does not hold either, because table.go indexes out of range on such a row.
- TableFormat.Table.AppendRow: the panic on a row of the wrong length is the result `ok == false`, with the rows unchanged.
- TableFormat.Table.Format: it requires `RowsFit` (no row longer than the first) and non-negative padding, where table.go panics instead. It also requires `maxLines >= 1` when there are more rows than `maxLines`, because table.go indexes `lines[maxLines-1]`.
- StrUtil.Elide: it requires `max >= 1` when the string is longer than `max`, where the Go code panics.
- Aliasing. `writeReport` in text.go elides the audits' detail cells in place, and the caller sees the change. The model returns the changed report as a value (`Text.ElidedReport`) beside the lines.
- MainProgram.BuildReport: it requires all five categories to be present, because main.go dereferences them without a nil check.
- MainProgram.WriteSummary: it requires at least one report, because main.go:121 indexes `reps[0]`. Its only caller, at main.go:101-103, passes a single report.
- Reports.ReadReport: a nil `LighthouseResult` or nil `Categories` is not modelled. report.go:41-48 dereferences both without a check, so `Response` always carries them.
- The `log.Printf` line of a skipped audit is the value `MissingAudit(category, audit)`. The URL it starts with and its format are not modelled.
- The `%q` quoting of the audit title in main.go's error is not modelled. The error is the value `DetailsError(audit, cause)`.
- `reportConfig` and the `audits*` constants are not part of this model. `Text.ReportConfig` holds only the fields text.go reads.
- Strings are sequences of code points, so invalid UTF-8 is not modelled.
