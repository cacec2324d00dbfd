/** `scrape_source` of the Better World Ed conversion script: every data row
    becomes one folder call and up to three file calls on the data writer,
    under the three-level path held by the global path cursor. The writer is
    modelled by the calls made on it, in order; the cursor by the triple last
    passed to its `set`. */
module SousChef {
  import opened CellParsing

  /** One CSV record, its cells already unquoted by the CSV reader. */
  type Row = seq<string>

  /** The licence tag every file is registered under. */
  datatype License = CC_BY

  const CopyrightHolder: string := "betterworlded"

  /** The three resource columns, in the order the script reads them. */
  datatype Resource = WrittenStory | Video | LessonPlan
  {
    function Column(): nat
    {
      match this
      case WrittenStory => 3
      case Video => 4
      case LessonPlan => 5
    }

    function Extension(): string
    {
      match this
      case WrittenStory => ".pdf"
      case Video => ".mp4"
      case LessonPlan => ".pdf"
    }
  }

  /** The triple passed to `PATH.set`: grade level, math topic, objective. */
  datatype FolderPath = FolderPath(gradeLevel: string, mathTopic: string, objective: string)

  /** One call on the data writer. */
  datatype Call =
    | AddFolder(path: FolderPath, title: string)
    | AddFile(path: FolderPath, title: string, url: string, ext: string,
              license: License, copyrightHolder: string)

  /** Reading `row[index]` raised an IndexError that left `scrape_source`:
      either outside any `try`, or inside an `except` handler that reads the
      cell again to report it. */
  datatype ScrapeError = MissingColumn(index: nat)

  /** How a run of `scrape_source` ends: normally, or by the IndexError
      propagating out of it. */
  datatype Outcome = Completed | Crashed(error: ScrapeError)

  /* ---------------------------------------------------------------------
     What one row produces
     --------------------------------------------------------------------- */

  /** The folder path of a row. The grade level is never empty; the math
      topic and the objective never hold a `/`. */
  function RowPath(row: Row): (p: FolderPath)
    requires |row| >= 3
    ensures p.gradeLevel != [] && '/' !in p.mathTopic && '/' !in p.objective
    ensures row[0] != [] ==> p.gradeLevel == row[0]
    ensures row[0] == [] ==> p.gradeLevel == "Other"
  {
    FolderPath(GradeLevel(row[0]), FolderName(row[1]), FolderName(row[2]))
  }

  /** The file call one resource column of a row contributes: one call when
      the column is present and its cell has at least two quoted segments,
      none otherwise. */
  function FileCalls(p: FolderPath, row: Row, r: Resource): (c: seq<Call>)
    ensures |c| <= 1
    ensures |c| == 1 <==> r.Column() < |row| && |QuotedSegments(row[r.Column()])| >= 2
    ensures |c| == 1 ==>
      var segments := QuotedSegments(row[r.Column()]);
      c[0] == AddFile(p, Sanitize(segments[1]), segments[0], r.Extension(), CC_BY, CopyrightHolder)
  {
    if r.Column() < |row| then
      match ResourceLink(row[r.Column()])
      case Some(link) => [AddFile(p, link.title, link.url, r.Extension(), CC_BY, CopyrightHolder)]
      case None => []
    else []
  }

  /** The calls one data row produces: its folder, named after the
      objective, and then the file calls of the story, the video and the
      lesson plan. */
  function RowCalls(row: Row): (c: seq<Call>)
    requires |row| >= 3
    ensures 1 <= |c| <= 4
    ensures c[0] == AddFolder(RowPath(row), RowPath(row).objective)
    ensures forall i :: 1 <= i < |c| ==>
      c[i].AddFile? && c[i].path == RowPath(row) &&
      c[i].license == CC_BY && c[i].copyrightHolder == CopyrightHolder
  {
    var p := RowPath(row);
    [AddFolder(p, p.objective)]
      + FileCalls(p, row, WrittenStory) + FileCalls(p, row, Video) + FileCalls(p, row, LessonPlan)
  }

  /** 1 when the resource column yields a file call, 0 otherwise. */
  function Present(row: Row, r: Resource): nat
  {
    if r.Column() < |row| && |QuotedSegments(row[r.Column()])| >= 2 then 1 else 0
  }

  /** The file calls of a row come in column order, and a resource that is
      skipped leaves the others in place: the story (if any) right after the
      folder, the video after it, and the lesson plan last. */
  lemma RowCallsOrder(row: Row)
    requires |row| >= 3
    ensures var c := RowCalls(row);
      |c| == 1 + Present(row, WrittenStory) + Present(row, Video) + Present(row, LessonPlan)
    ensures var c, p := RowCalls(row), RowPath(row);
      Present(row, WrittenStory) == 1 ==> [c[1]] == FileCalls(p, row, WrittenStory)
    ensures var c, p := RowCalls(row), RowPath(row);
      Present(row, Video) == 1 ==> [c[1 + Present(row, WrittenStory)]] == FileCalls(p, row, Video)
    ensures var c, p := RowCalls(row), RowPath(row);
      Present(row, LessonPlan) == 1 ==> [c[|c| - 1]] == FileCalls(p, row, LessonPlan)
  {
  }

  /** The video is the only `.mp4` resource: a `.mp4` call is in the row's
      calls exactly when the video cell yields a link, whatever the other
      two cells hold. */
  lemma VideoCallIndependent(row: Row)
    requires |row| >= 3
    ensures (exists i :: 0 <= i < |RowCalls(row)| && RowCalls(row)[i].AddFile? && RowCalls(row)[i].ext == ".mp4")
        <==> Present(row, Video) == 1
  {
    var p := RowPath(row);
    var story, video, lesson := FileCalls(p, row, WrittenStory), FileCalls(p, row, Video), FileCalls(p, row, LessonPlan);
    var c := [AddFolder(p, p.objective)] + story + video + lesson;
    assert RowCalls(row) == c;
    RowCallsOrder(row);
    if Present(row, Video) == 1 {
      var i := 1 + Present(row, WrittenStory);
      assert c[i].ext == ".mp4";
    } else {
      assert video == [];
      assert forall i :: 0 <= i < |c| && c[i].AddFile? ==> c[i].ext == ".pdf" by {
        forall i | 0 <= i < |c| && c[i].AddFile?
          ensures c[i].ext == ".pdf"
        {
          assert c == [AddFolder(p, p.objective)] + story + lesson;
          if i <= |story| { assert c[i] == story[i - 1]; }
          else { assert c[i] == lesson[i - 1 - |story|]; }
        }
      }
    }
  }

  /* ---------------------------------------------------------------------
     What a whole run produces
     --------------------------------------------------------------------- */

  /** A run skips the header and, because of the `count` guard, stops
      before the second data row: only `rows[1]` is ever processed. A run
      makes no call when there is no data row or the data row has fewer than
      three cells, and otherwise at most four, the folder call first. */
  function ScrapeCalls(rows: seq<Row>): (c: seq<Call>)
    ensures c == [] <==> |rows| < 2 || |rows[1]| < 3
    ensures |c| <= 4
    ensures c != [] ==> c[0] == AddFolder(RowPath(rows[1]), RowPath(rows[1]).objective)
  {
    if |rows| >= 2 && |rows[1]| >= 3 then RowCalls(rows[1]) else []
  }

  /** A run crashes exactly when its one data row has fewer than six
      cells, at the first missing index: columns 0 to 2 are read unguarded,
      and the handler of each resource block reads its column again. */
  function ScrapeOutcome(rows: seq<Row>): (o: Outcome)
    ensures o.Crashed? <==> |rows| >= 2 && |rows[1]| < 6
    ensures o.Crashed? ==> o.error == MissingColumn(|rows[1]|)
  {
    if |rows| >= 2 && |rows[1]| < 6 then Crashed(MissingColumn(|rows[1]|)) else Completed
  }

  /** A data row of three to five cells crashes after its folder call and
      the file calls of the resource columns it has; the calls before the
      crash are exactly `RowCalls`. */
  lemma ShortRowCalls(row: Row)
    requires 3 <= |row| < 6
    ensures var p := RowPath(row);
      RowCalls(row) == [AddFolder(p, p.objective)]
        + (if |row| > 3 then FileCalls(p, row, WrittenStory) else [])
        + (if |row| > 4 then FileCalls(p, row, Video) else [])
  {
    var p := RowPath(row);
    assert FileCalls(p, row, LessonPlan) == [];
    assert |row| <= 4 ==> FileCalls(p, row, Video) == [];
    assert |row| == 3 ==> FileCalls(p, row, WrittenStory) == [];
  }

  /** The header alone produces nothing, rows after the first data row
      change nothing, and a run makes at most one folder call. */
  lemma AtMostOneDataRow(rows: seq<Row>, later: seq<Row>)
    ensures |rows| <= 1 ==> ScrapeCalls(rows) == []
    ensures |rows| >= 2 ==> ScrapeCalls(rows + later) == ScrapeCalls(rows)
    ensures |rows| >= 2 ==> ScrapeOutcome(rows + later) == ScrapeOutcome(rows)
    ensures forall j :: 1 <= j < |ScrapeCalls(rows)| ==> !ScrapeCalls(rows)[j].AddFolder?
  {
  }

  /** A resource cell holding a hyperlink formula yields the file call with
      the formula's URL and sanitised title. */
  lemma HyperlinkFileCall(p: FolderPath, row: Row, r: Resource, url: string, title: string)
    requires r.Column() < |row| && row[r.Column()] == HyperlinkFormula(url, title)
    requires PlainText(url) && PlainText(title)
    ensures FileCalls(p, row, r) == [AddFile(p, Sanitize(title), url, r.Extension(), CC_BY, CopyrightHolder)]
  {
    HyperlinkSegments(url, title);
  }

  /** The calls of a row whose three resource cells are hyperlink formulas:
      the folder, then the three files in column order. */
  lemma FormulaRowCalls(row: Row, urls: seq<string>, titles: seq<string>)
    requires |row| >= 6 && |urls| == 3 && |titles| == 3
    requires forall i :: 0 <= i < 3 ==> PlainText(urls[i]) && PlainText(titles[i])
    requires forall i :: 0 <= i < 3 ==> row[3 + i] == HyperlinkFormula(urls[i], titles[i])
    ensures var p := RowPath(row);
      RowCalls(row) == [
        AddFolder(p, p.objective),
        AddFile(p, Sanitize(titles[0]), urls[0], ".pdf", CC_BY, CopyrightHolder),
        AddFile(p, Sanitize(titles[1]), urls[1], ".mp4", CC_BY, CopyrightHolder),
        AddFile(p, Sanitize(titles[2]), urls[2], ".pdf", CC_BY, CopyrightHolder)]
  {
    var p := RowPath(row);
    assert row[WrittenStory.Column()] == HyperlinkFormula(urls[0], titles[0]);
    assert row[Video.Column()] == HyperlinkFormula(urls[1], titles[1]);
    assert row[LessonPlan.Column()] == HyperlinkFormula(urls[2], titles[2]);
    HyperlinkFileCall(p, row, WrittenStory, urls[0], titles[0]);
    HyperlinkFileCall(p, row, Video, urls[1], titles[1]);
    HyperlinkFileCall(p, row, LessonPlan, urls[2], titles[2]);
  }

  /** A header and one data row whose three resource cells are hyperlink
      formulas give a completed run with one folder call and then three file
      calls, with the extensions `.pdf`, `.mp4`, `.pdf`, each carrying its
      formula's URL and sanitised title. */
  lemma FullRow(header: Row, row: Row, urls: seq<string>, titles: seq<string>)
    requires |row| >= 6 && |urls| == 3 && |titles| == 3
    requires forall i :: 0 <= i < 3 ==> PlainText(urls[i]) && PlainText(titles[i])
    requires forall i :: 0 <= i < 3 ==> row[3 + i] == HyperlinkFormula(urls[i], titles[i])
    ensures ScrapeOutcome([header, row]) == Completed
    ensures var c := ScrapeCalls([header, row]);
      |c| == 4 && c[0].AddFolder? &&
      c[1].ext == ".pdf" && c[2].ext == ".mp4" && c[3].ext == ".pdf" &&
      forall i :: 1 <= i < 4 ==> c[i].url == urls[i - 1] && c[i].title == Sanitize(titles[i - 1])
  {
    assert [header, row][1] == row;
    FormulaRowCalls(row, urls, titles);
  }

  /* ---------------------------------------------------------------------
     The collaborators and the script itself
     --------------------------------------------------------------------- */

  /** The data writer, seen through the calls made on it. */
  class DataWriter
  {
    var calls: seq<Call>

    constructor ()
      ensures calls == []
    {
      calls := [];
    }

    method AddFolder(path: FolderPath, title: string)
      modifies this
      ensures calls == old(calls) + [Call.AddFolder(path, title)]
    {
      calls := calls + [Call.AddFolder(path, title)];
    }

    method AddFile(path: FolderPath, title: string, url: string, ext: string,
                   license: License, copyrightHolder: string)
      modifies this
      ensures calls == old(calls) + [Call.AddFile(path, title, url, ext, license, copyrightHolder)]
    {
      calls := calls + [Call.AddFile(path, title, url, ext, license, copyrightHolder)];
    }
  }

  /** The global path cursor: the triple last set, none before the first
      `set`. */
  class PathBuilder
  {
    var current: Option<FolderPath>

    constructor ()
      ensures current == None
    {
      current := None;
    }

    method Set(gradeLevel: string, mathTopic: string, objective: string)
      modifies this
      ensures current == Some(FolderPath(gradeLevel, mathTopic, objective))
    {
      current := Some(FolderPath(gradeLevel, mathTopic, objective));
    }
  }

  /** One `try` block for a resource column. A cell with fewer than two
      segments raises inside the block, is reported and adds nothing. A
      missing cell raises too, and the handler's own read of the cell raises
      again, out of the run. */
  method AddResource(writer: DataWriter, here: FolderPath, row: Row, r: Resource) returns (outcome: Outcome)
    modifies writer
    ensures writer.calls == old(writer.calls) + FileCalls(here, row, r)
    ensures outcome == if r.Column() < |row| then Completed else Crashed(MissingColumn(r.Column()))
  {
    if r.Column() >= |row| {
      return Crashed(MissingColumn(r.Column()));
    }
    var matches := QuotedSegments(row[r.Column()]);
    if |matches| >= 2 {
      writer.AddFile(here, Sanitize(matches[1]), matches[0], r.Extension(), CC_BY, CopyrightHolder);
    }
    outcome := Completed;
  }

  /** The three resource blocks in column order; the first missing column
      ends the row, and every later column is missing too. */
  method AddResources(writer: DataWriter, here: FolderPath, row: Row) returns (outcome: Outcome)
    modifies writer
    ensures writer.calls == old(writer.calls)
      + FileCalls(here, row, WrittenStory) + FileCalls(here, row, Video) + FileCalls(here, row, LessonPlan)
    ensures outcome == if |row| < 6 then Crashed(MissingColumn(if |row| < 3 then 3 else |row|)) else Completed
  {
    outcome := AddResource(writer, here, row, WrittenStory);
    if outcome.Crashed? {
      assert FileCalls(here, row, Video) == [] && FileCalls(here, row, LessonPlan) == [];
      return;
    }
    outcome := AddResource(writer, here, row, Video);
    if outcome.Crashed? {
      assert FileCalls(here, row, LessonPlan) == [];
      return;
    }
    outcome := AddResource(writer, here, row, LessonPlan);
  }

  /** The body of the row loop: resolve and set the path, add the folder,
      then try the three resources in column order. A row with fewer than
      three cells raises before anything is changed; one with three to five
      cells raises at its first missing resource column, after its folder
      call and the file calls of the columns before it. */
  method ProcessRow(writer: DataWriter, path: PathBuilder, row: Row) returns (outcome: Outcome)
    modifies writer, path
    ensures |row| < 3 ==> outcome == Crashed(MissingColumn(|row|))
    ensures |row| < 3 ==> writer.calls == old(writer.calls) && path.current == old(path.current)
    ensures |row| >= 3 ==> outcome == if |row| < 6 then Crashed(MissingColumn(|row|)) else Completed
    ensures |row| >= 3 ==> writer.calls == old(writer.calls) + RowCalls(row)
    ensures |row| >= 3 ==> path.current == Some(RowPath(row))
  {
    if |row| < 3 {
      return Crashed(MissingColumn(|row|));
    }
    var gradeLevel := GradeLevel(row[0]);
    var mathTopic := FolderName(row[1]);
    var objective := FolderName(row[2]);
    path.Set(gradeLevel, mathTopic, objective);
    var here := path.current.value;
    assert here == RowPath(row);
    writer.AddFolder(here, objective);
    outcome := AddResources(writer, here, row);
    assert RowCalls(row) == [AddFolder(here, objective)]
      + FileCalls(here, row, WrittenStory) + FileCalls(here, row, Video) + FileCalls(here, row, LessonPlan);
  }

  /** The row loop of `scrape_source`, with its `count` guard: the first
      row is skipped as the header, and the loop stops when it reaches the
      row after the first data row. */
  method ScrapeSource(writer: DataWriter, path: PathBuilder, rows: seq<Row>) returns (outcome: Outcome)
    modifies writer, path
    ensures outcome == ScrapeOutcome(rows)
    ensures writer.calls == old(writer.calls) + ScrapeCalls(rows)
    ensures path.current == if |rows| >= 2 && |rows[1]| >= 3 then Some(RowPath(rows[1])) else old(path.current)
  {
    var count := 0;
    var i := 0;
    while i < |rows|
      invariant i <= |rows| && i <= 2
      invariant count == i
      invariant i < 2 ==> writer.calls == old(writer.calls) && path.current == old(path.current)
      invariant i == 2 ==> |rows[1]| >= 6
      invariant i == 2 ==> writer.calls == old(writer.calls) + RowCalls(rows[1])
      invariant i == 2 ==> path.current == Some(RowPath(rows[1]))
    {
      var row := rows[i];
      if count == 0 {
        count := count + 1;
        i := i + 1;
        continue;
      }
      if count == 2 {
        break;
      }
      outcome := ProcessRow(writer, path, row);
      if outcome.Crashed? {
        return;
      }
      count := count + 1;
      i := i + 1;
    }
    outcome := Completed;
  }
}
