# Better World Ed sous chef — row processing model

`souschef.py` converts a spreadsheet export of Better World Ed lessons into a
folder/file tree for a content-channel archive. Each CSV record holds a grade
level, a math topic, a specific objective, and three resource cells: a written
story, a video and a lesson plan. Folder cells and resource cells may hold a
spreadsheet formula `=HYPERLINK("<url>","<title>")`. The script pulls the quoted
parts out with `re.findall(r'"(.+?)"', cell)` and replaces every `/` in a title
by `|`. For each row it then calls the data writer: one `add_folder`, then one
`add_file` per resource whose cell parses.

The model has two modules:

- `CellParsing` (`cell_parsing.dfy`) holds the pure per-cell logic:
  - The regular-expression scan is written as functions. `MatchEnd` makes one
    attempt of the pattern, and `QuotedSegments` is the left-to-right,
    non-overlapping `findall`.
  - The predicates `QuotedAt` and `LazyMatch` are an independent definition of
    what the pattern matches, including the shortest match chosen by `+?`.
  - `Sanitize` models `.replace('/', '|')`.
  - `GradeLevel` handles the `"Other"` default, `FolderName` the math-topic
    and objective columns, and `ResourceLink` the resource columns.
  - Lemmas cover the hyperlink formula and the edge cases of the scan.
- `SousChef` (`souschef.dfy`) holds `scrape_source`:
  - The data writer is a class whose only state is the list of calls made on
    it, in order.
  - The global `PATH` cursor is a class holding the triple last passed to
    `set`.
  - `ProcessRow` is the loop body and `ScrapeSource` is the row loop with its
    `count` guard. Both are methods, proved against the functions `RowCalls`,
    `ScrapeCalls` and `ScrapeOutcome`.
  - Lemmas state the order and shape of the calls.

Behaviour of the code that its own docstring and comments (souschef.py:41-80)
do not spell out, and that the model keeps:

- The grade level is not sanitised: a `/` in column 0 reaches the path.
  `GradeLevel` passes a non-empty cell through unchanged.
- The math topic and the objective can be empty: an empty cell gives the
  folder name `""`.
- A folder or resource cell is read as a hyperlink when it has at least two
  quoted segments, not exactly two. The second segment is used even when
  there are more.
- A resource cell that does not parse is skipped. It does not fall back to a
  title without a URL.
- A data row with fewer than three cells makes `row[0]`, `row[1]` or
  `row[2]` (souschef.py:97, 106, 107) raise `IndexError` outside any `try`.
  This ends the run before any call, and the model returns
  `Crashed(MissingColumn(n))`, where `n` is the row's length.
- A data row with three to five cells also ends the run. Its folder call is
  made and its present resource columns are tried. At the first missing
  column, `row[k]` raises inside the `try`, and the `except` handler reads
  `row[k]` again to print it (souschef.py:136, 146, 155). That second
  `IndexError` escapes the run. So the run ends with `Crashed(MissingColumn(n))`
  after the folder call and the file calls of the columns before `n`
  (`ShortRowCalls`). Only a data row with at least six cells completes.
- A formula with an empty URL, `=HYPERLINK("","t")`, yields the single
  segment `",` because `.+?` needs one character and takes the second quote.
  The resource is therefore skipped (`EmptyUrlDropsLink`).

## Model

| member | source | states |
|---|---|---|
| CellParsing.ClosingQuote | souschef.py:115 | the lazy scan for the closing quote returns the first quote at or after the start with no newline before it, and fails exactly when every later quote has a newline before it |
| CellParsing.MatchEnd | souschef.py:115 | one attempt of `"(.+?)"` succeeds exactly when some closing quote fits, and the index it returns is the shortest match (`LazyMatch`) |
| CellParsing.QuotedSegments | souschef.py:131 | every segment `findall` returns is non-empty, contains no newline, and can hold a quote only as its first character; each segment uses at least three characters of the cell |
| CellParsing.Sanitize | souschef.py:116 | the result has the input's length and no `/`; each `/` becomes `|` and every other character is unchanged |
| CellParsing.SanitizeFixesExactlySlashFree | souschef.py:118 | sanitising leaves a string unchanged if and only if it contains no `/` |
| CellParsing.SanitizeIdempotent | souschef.py:132 | sanitising twice equals sanitising once |
| CellParsing.GradeLevel | souschef.py:97-99 | an empty grade-level cell becomes "Other"; a non-empty one is kept as it is, unsanitised |
| CellParsing.FolderName | souschef.py:114-123 | the folder name has no `/`; it is the sanitised second segment when the cell has at least two, otherwise the sanitised whole cell |
| CellParsing.ResourceLink | souschef.py:130-132 | a link exists exactly when the cell has at least two segments; its URL is the first segment, its title the sanitised second; both are non-empty and the title has no `/` |
| CellParsing.SkipUnquoted | souschef.py:115 | text without a quote adds no segment in front of what follows it |
| CellParsing.MatchQuoted | souschef.py:131 | a quoted run whose first character is not a newline and whose later characters are neither quote nor newline is the next segment, and the scan resumes after it |
| CellParsing.HyperlinkSegments | souschef.py:131-134 | for `=HYPERLINK("u","t")` with plain non-empty `u` and `t`, the segments are exactly `[u, t]`: the URL first, the title second |
| CellParsing.HyperlinkCell | souschef.py:111-121 | such a formula gives the link (u, sanitised t) in a resource column and the folder name sanitised t in a folder column |
| CellParsing.EmptyUrlDropsLink | souschef.py:130-136 | a formula with an empty URL yields the one segment `",`, so the resource is skipped |
| CellParsing.PlainCell | souschef.py:117-118 | a cell without a quote has no segment; as a folder it gives the sanitised cell, unchanged when slash-free; as a resource it gives nothing |
| CellParsing.DoubleSlashTitle | souschef.py:57-62 | a title `A // B` with slash-free `A` and `B` keeps its URL and becomes `A \|\| B` |
| CellParsing.EmptyQuotesCell | souschef.py:130-136 | a cell holding just `""` has no segment, so that resource is skipped |
| SousChef.RowPath | souschef.py:97-123 | the path's grade level is never empty ("Other" for an empty cell, else the cell); the math topic and the objective never hold `/` |
| SousChef.FileCalls | souschef.py:129-155 | a resource gives at most one `add_file`; it gives one exactly when its column exists and has at least two segments, carrying the sanitised title, the first segment as URL, the column's extension, CC_BY and "betterworlded" |
| SousChef.RowCalls | souschef.py:125-155 | a row gives 1 to 4 calls: first `add_folder` on the row's path named after the objective, then only `add_file` calls on that same path with CC_BY and "betterworlded" |
| SousChef.RowCallsOrder | souschef.py:129-155 | the number of file calls is the number of resources that parse; the story's call comes right after the folder, the video's after it, and the lesson plan's last, so a skipped resource does not stop the later ones |
| SousChef.VideoCallIndependent | souschef.py:138-146 | the row has a `.mp4` call if and only if the video cell parses, whatever the story and lesson-plan cells hold |
| SousChef.ScrapeCalls | souschef.py:82-94 | the header is skipped and only the first data row is processed: no call without a data row or when that row has fewer than three cells, otherwise at most four calls with that row's folder call first |
| SousChef.ScrapeOutcome | souschef.py:97-155 | a run crashes exactly when its first data row has fewer than six cells, at the first missing index (columns 0-2 read unguarded, columns 3-5 re-read in the `except` handlers) |
| SousChef.ShortRowCalls | souschef.py:126-155 | a data row of three to five cells leaves, before its crash, the folder call followed by the file calls of the resource columns it has |
| SousChef.AtMostOneDataRow | souschef.py:82-94 | the header alone gives no call; rows after the first data row change neither the calls nor the outcome; only the first call can be an `add_folder` |
| SousChef.HyperlinkFileCall | souschef.py:130-134 | a resource cell holding a hyperlink formula gives the `add_file` with the formula's URL and sanitised title |
| SousChef.FormulaRowCalls | souschef.py:126-155 | a row whose three resource cells are formulas gives exactly the folder call and the three file calls with `.pdf`, `.mp4`, `.pdf`, each formula's URL and sanitised title, CC_BY and "betterworlded" |
| SousChef.FullRow | souschef.py:126-155 | a header plus one row with three formula resources completes and gives one folder call, then three file calls with `.pdf`, `.mp4`, `.pdf` and each formula's URL and title |
| SousChef.DataWriter.AddFolder | souschef.py:127 | appends one folder call to the writer's call list |
| SousChef.DataWriter.AddFile | souschef.py:134 | appends one file call to the writer's call list |
| SousChef.PathBuilder.Set | souschef.py:126 | the cursor now holds the given triple |
| SousChef.AddResource | souschef.py:139-146 | one resource `try` block appends exactly that resource's `FileCalls`, and crashes with the column's index exactly when the column is missing |
| SousChef.AddResources | souschef.py:129-155 | the three resource blocks append the story, video and lesson-plan file calls in order, and crash at the first missing column exactly when the row has fewer than six cells |
| SousChef.ProcessRow | souschef.py:96-157 | a row under three cells crashes with nothing changed; otherwise the cursor is set to the row's path and exactly `RowCalls(row)` is appended, and the row crashes at index `\|row\|` when it has fewer than six cells |
| SousChef.ScrapeSource | souschef.py:82-157 | the loop appends exactly `ScrapeCalls(rows)`, ends with `ScrapeOutcome(rows)`, and leaves the cursor at the processed row's path |

## Left out

- Opening the CSV file and parsing it with `csv.reader` (souschef.py:84-89). Rows arrive as sequences of already-unquoted cells.
- What the data writer does with a call: downloading, storing and zipping files. `DataWriter`, `PathBuilder` and `downloader` live in `utils`, which is not part of this model. A path is kept as the triple given to `PATH.set`, not as its string rendering `str(PATH)`.
- DataWriter.AddFile: never fails in the model. In the source, an exception raised inside `writer.add_file` is also swallowed by the bare `except` blocks (souschef.py:135, 145, 154), and that call is then missing. Writer failures are outside this model.
- The text of the `print` diagnostics in the `try` and `except` blocks. It is output only. The `IndexError` raised by the handlers' read of a missing cell is modelled.
- The `__main__` block (souschef.py:164-176): the thumbnail `add_file`, channel registration and archive finalisation. This is orchestration over the external writer.
- The `licenses` constants: CC_BY is an opaque tag.
- Re-running on the same input gives the same calls. This holds because every function in the model is deterministic, so no lemma states it.
- Characters are Dafny `char`s. The model does no encoding or Unicode handling.
