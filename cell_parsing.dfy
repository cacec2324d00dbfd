/** The per-cell logic of the Better World Ed conversion script: the scan
    that `re.findall(r'"(.+?)"', cell)` performs, the `/`-to-`|` replacement,
    and how a grade level, a folder name and a resource link are read from one
    spreadsheet cell. Everything here is pure. */
module CellParsing {

  datatype Option<+T> = None | Some(value: T)

  /* ---------------------------------------------------------------------
     The pattern "(.+?)"
     --------------------------------------------------------------------- */

  /** The pattern can match at the start of `s` with its closing quote at
      index `k`: an opening quote, one or more characters that are not a
      newline (`.` never matches one), and a closing quote. */
  predicate QuotedAt(s: string, k: nat)
  {
    2 <= k < |s| && s[0] == '"' && s[k] == '"' && '\n' !in s[1..k]
  }

  /** The lazy `+?` makes the engine take the shortest such match. */
  predicate LazyMatch(s: string, k: nat)
  {
    QuotedAt(s, k) && forall k': nat :: 2 <= k' < k ==> !QuotedAt(s, k')
  }

  /** Looks for the quote that closes a match, starting at index `k`: the
      first quote ends the match, and a newline met before it makes the
      attempt fail. */
  function ClosingQuote(s: string, k: nat): (r: Option<nat>)
    ensures r.Some? ==> k <= r.value < |s| && s[r.value] == '"'
    ensures r.Some? ==> '"' !in s[k..r.value] && '\n' !in s[k..r.value]
    ensures r.None? ==> forall m :: k <= m < |s| && s[m] == '"' ==> '\n' in s[k..m]
    decreases |s| - k
  {
    if k >= |s| then None
    else if s[k] == '"' then Some(k)
    else if s[k] == '\n' then None
    else
      var r := ClosingQuote(s, k + 1);
      assert forall m :: k + 1 <= m <= |s| ==> s[k..m] == [s[k]] + s[k + 1..m];
      r
  }

  /** One attempt of the pattern at the start of `s`: the index of the
      closing quote when it matches there. */
  function MatchEnd(s: string): (r: Option<nat>)
    ensures r.Some? ==> LazyMatch(s, r.value)
    ensures r.None? ==> forall k: nat :: !QuotedAt(s, k)
  {
    if |s| >= 2 && s[0] == '"' && s[1] != '\n' then
      var r := ClosingQuote(s, 2);
      assert forall m :: 2 <= m <= |s| ==> s[1..m] == [s[1]] + s[2..m];
      assert r.Some? ==> forall k': nat :: 2 <= k' < r.value ==> s[k'] == s[2..r.value][k' - 2];
      r
    else if |s| >= 2 && s[0] == '"' then
      assert forall k: nat :: 2 <= k <= |s| ==> s[1..k][0] == '\n';
      None
    else
      None
  }

  /** The list `re.findall(r'"(.+?)"', s)` returns: the scan tries the
      pattern at each position from left to right, resumes after a match and
      moves on by one character after a failed attempt. Every segment has at
      least one character and no newline, and only its first character can
      be a quote (an empty `""` makes its second quote the first character
      of a segment). Each match uses at least three characters. */
  function QuotedSegments(s: string): (r: seq<string>)
    ensures forall i :: 0 <= i < |r| ==> |r[i]| > 0 && '\n' !in r[i] && '"' !in r[i][1..]
    ensures 3 * |r| <= |s|
    decreases |s|
  {
    if s == [] then []
    else
      match MatchEnd(s)
      case Some(k) =>
        assert s[1..k][1..] == s[2..k];
        [s[1..k]] + QuotedSegments(s[k + 1..])
      case None => QuotedSegments(s[1..])
  }

  /* ---------------------------------------------------------------------
     Sanitisation: `.replace('/', '|')`
     --------------------------------------------------------------------- */

  /** Replaces every `/` by `|` so that the writer does not read a title
      as a nested path; every other character stays where it was. */
  function Sanitize(s: string): (r: string)
    ensures |r| == |s| && '/' !in r
    ensures forall i :: 0 <= i < |s| && s[i] != '/' ==> r[i] == s[i]
    ensures forall i :: 0 <= i < |s| && s[i] == '/' ==> r[i] == '|'
  {
    if s == [] then []
    else [if s[0] == '/' then '|' else s[0]] + Sanitize(s[1..])
  }

  /** Sanitisation changes a string exactly when it holds a `/`. */
  lemma SanitizeFixesExactlySlashFree(s: string)
    ensures Sanitize(s) == s <==> '/' !in s
  {
  }

  /** The replacement works character by character, so it distributes
      over concatenation. */
  lemma SanitizeAppend(a: string, b: string)
    ensures Sanitize(a + b) == Sanitize(a) + Sanitize(b)
  {
  }

  /** Applying the replacement twice is the same as applying it once. */
  lemma SanitizeIdempotent(s: string)
    ensures Sanitize(Sanitize(s)) == Sanitize(s)
  {
  }

  /* ---------------------------------------------------------------------
     Reading the folder columns and the resource columns
     --------------------------------------------------------------------- */

  /** Column 0: an empty grade level becomes "Other"; any other value is
      used as it stands, `/` included (it is not sanitised). */
  function GradeLevel(cell: string): (r: string)
    ensures r != []
    ensures cell == [] ==> r == "Other"
    ensures cell != [] ==> r == cell
  {
    if cell == "" then "Other" else cell
  }

  /** Columns 1 and 2: the second quoted segment when the cell has at least
      two (the title of a hyperlink formula), otherwise the whole cell; in
      both cases sanitised. */
  function FolderName(cell: string): (r: string)
    ensures '/' !in r
    ensures |QuotedSegments(cell)| >= 2 ==> r == Sanitize(QuotedSegments(cell)[1])
    ensures |QuotedSegments(cell)| < 2 ==> r == Sanitize(cell)
  {
    var segments := QuotedSegments(cell);
    if |segments| >= 2 then Sanitize(segments[1]) else Sanitize(cell)
  }

  /** What a resource cell yields: the first segment as the URL and the
      sanitised second segment as the title. */
  datatype Link = Link(url: string, title: string)

  /** Columns 3 to 5: a link exactly when the cell has at least two quoted
      segments (with fewer, `matches[1]` raises and the resource is
      skipped). Its URL and title are never empty and the title holds no
      `/`. */
  function ResourceLink(cell: string): (r: Option<Link>)
    ensures r.Some? <==> |QuotedSegments(cell)| >= 2
    ensures r.Some? ==> r.value.url == QuotedSegments(cell)[0]
    ensures r.Some? ==> r.value.title == Sanitize(QuotedSegments(cell)[1])
    ensures r.Some? ==> r.value.url != [] && r.value.title != [] && '/' !in r.value.title
  {
    var matches := QuotedSegments(cell);
    if |matches| >= 2 then Some(Link(matches[0], Sanitize(matches[1]))) else None
  }

  /* ---------------------------------------------------------------------
     The hyperlink formula and plain cells
     --------------------------------------------------------------------- */

  /** The spreadsheet formula `=HYPERLINK("<url>","<title>")`. */
  function HyperlinkFormula(url: string, title: string): string
  {
    "=HYPERLINK(\"" + url + "\",\"" + title + "\")"
  }

  /** Text the scan can read back unchanged between two quotes. */
  predicate PlainText(x: string)
  {
    x != [] && '"' !in x && '\n' !in x
  }

  /** Text without a quote contributes no segment and never starts one. */
  lemma {:induction false} SkipUnquoted(a: string, b: string)
    requires '"' !in a
    ensures QuotedSegments(a + b) == QuotedSegments(b)
    decreases |a|
  {
    if a != [] {
      var s := a + b;
      assert s[0] == a[0];
      assert s[1..] == a[1..] + b;
      SkipUnquoted(a[1..], b);
    } else {
      assert a + b == b;
    }
  }

  /** A quote, a segment `x` and a quote give `x` as the next segment and
      the scan goes on after them. `x` may start with a quote: that is how
      an empty `""` swallows the quote after it. */
  lemma MatchQuoted(x: string, rest: string)
    requires x != [] && x[0] != '\n' && '"' !in x[1..] && '\n' !in x[1..]
    ensures QuotedSegments("\"" + x + "\"" + rest) == [x] + QuotedSegments(rest)
  {
    var s := "\"" + x + "\"" + rest;
    var k := |x| + 1;
    assert s[1..k] == x;
    assert s[k + 1..] == rest;
    assert x == [x[0]] + x[1..];
    assert QuotedAt(s, k);
  }

  /** A hyperlink formula whose URL and title are plain text yields exactly
      the URL and the title, in that order. */
  lemma HyperlinkSegments(url: string, title: string)
    requires PlainText(url) && PlainText(title)
    ensures QuotedSegments(HyperlinkFormula(url, title)) == [url, title]
  {
    var tail := "\"" + title + "\"" + ")";
    var afterUrl := "," + tail;
    assert HyperlinkFormula(url, title) == "=HYPERLINK(" + ("\"" + url + "\"" + afterUrl);
    SkipUnquoted("=HYPERLINK(", "\"" + url + "\"" + afterUrl);
    MatchQuoted(url, afterUrl);
    SkipUnquoted(",", tail);
    MatchQuoted(title, ")");
    SkipUnquoted(")", []);
    assert ")" + [] == ")";
  }

  /** Such a formula in a resource column gives its URL and its sanitised
      title; in a folder column it gives the sanitised title. */
  lemma HyperlinkCell(url: string, title: string)
    requires PlainText(url) && PlainText(title)
    ensures ResourceLink(HyperlinkFormula(url, title)) == Some(Link(url, Sanitize(title)))
    ensures FolderName(HyperlinkFormula(url, title)) == Sanitize(title)
  {
    HyperlinkSegments(url, title);
  }

  /** A formula with an empty URL loses its title: the `""` takes the next
      quote as its first character, so the scan finds the one segment `",`
      and the resource is skipped. */
  lemma EmptyUrlDropsLink(title: string)
    requires PlainText(title)
    ensures QuotedSegments(HyperlinkFormula("", title)) == ["\","]
    ensures ResourceLink(HyperlinkFormula("", title)) == None
  {
    var tail := "\")";
    assert HyperlinkFormula("", title) == "=HYPERLINK(" + ("\"" + "\"," + "\"" + (title + tail));
    SkipUnquoted("=HYPERLINK(", "\"" + "\"," + "\"" + (title + tail));
    MatchQuoted("\",", title + tail);
    SkipUnquoted(title, tail);
    assert MatchEnd(tail) == None;
    SkipUnquoted(")", []);
    assert tail[1..] == ")" + [];
  }

  /** A cell without any quote has no segment: a folder column uses the
      whole sanitised cell, unchanged when it holds no `/`, and a resource
      column is skipped. */
  lemma PlainCell(cell: string)
    requires '"' !in cell
    ensures QuotedSegments(cell) == []
    ensures FolderName(cell) == Sanitize(cell)
    ensures '/' !in cell ==> FolderName(cell) == cell
    ensures ResourceLink(cell) == None
  {
  }

  /** A title such as `I Am X // Y` keeps its URL and has each `/` of the
      `//` replaced, giving `I Am X || Y`. */
  lemma DoubleSlashTitle(url: string, before: string, after: string)
    requires PlainText(url) && PlainText(before) && PlainText(after)
    requires '/' !in before && '/' !in after
    ensures ResourceLink(HyperlinkFormula(url, before + "//" + after))
         == Some(Link(url, before + "||" + after))
  {
    var title := before + "//" + after;
    assert Sanitize(title) == before + "||" + after by {
      SanitizeAppend(before + "//", after);
      SanitizeAppend(before, "//");
      SanitizeFixesExactlySlashFree(before);
      SanitizeFixesExactlySlashFree(after);
      assert Sanitize("//") == "||";
    }
    assert PlainText(title);
    HyperlinkCell(url, title);
  }

  /** A cell made of two quotes has no segment: the first quote is taken as
      the content of a match that then finds no closing quote. */
  lemma EmptyQuotesCell()
    ensures QuotedSegments("\"\"") == []
    ensures ResourceLink("\"\"") == None
  {
  }
}
