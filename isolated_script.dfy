/** The standalone advanced-playoffs scraper (`isolated_scrape.go`): the
    header line is the display text of at most the first 29 header cells
    plus "Player-additional", and a row is its `th` text, the text of each
    `td`, and the `data-append-csv` value of its first `td` that has the
    attribute. The selectors are not modelled: the header cells and body
    rows they select are given, and are empty when the page has no
    `#div_advanced_stats table#advanced_stats`. */
module IsolatedScript {
  import opened Wrappers
  import opened GoStrings
  import opened Strconv
  import opened TableMapper
  import TotalsScript

  const UrlPrefix: string := "https://www.basketball-reference.com/playoffs/NBA_"
  const UrlSuffix: string := "_advanced.html"

  /** The playoff advanced stats of `season`. */
  function Url(season: int): string {
    UrlPrefix + Itoa(season) + UrlSuffix
  }

  /** The header cells the script keeps. */
  const MaxHeaders: nat := 29

  const IdHeader: string := "Player-additional"

  /** What `http.Get` and parsing yield: an error, a body that does not
      parse, or the header cells and body rows the selectors find. */
  datatype Page = HttpFailed | Unparsable | Document(table: TableData)

  /** How `main` ends: `os.Exit(1)` before any CSV line is written, or the
      lines written. */
  datatype ScriptRun = Exited | Wrote(lines: seq<seq<string>>)

  /** The trimmed display texts of the head cells, in order. */
  function ThTexts(ths: seq<Th>): seq<string>
    decreases |ths|
  {
    if |ths| == 0 then [] else ThTexts(ths[..|ths| - 1]) + [TrimSpace(ths[|ths| - 1].text)]
  }

  /** The header line: the first 29 head cells' texts, then the id column. */
  function HeaderLine(ths: seq<Th>): seq<string> {
    ThTexts(if |ths| <= MaxHeaders then ths else ths[..MaxHeaders]) + [IdHeader]
  }

  /** `row.Find("th").Text()`: the texts of the row's `th` cells, joined. */
  function ThText(cells: seq<Cell>): string
    decreases |cells|
  {
    if |cells| == 0 then ""
    else ThText(cells[..|cells| - 1]) + (if cells[|cells| - 1].isTh then cells[|cells| - 1].text else "")
  }

  /** The trimmed texts of the row's `td` cells, in order. */
  function TdTexts(cells: seq<Cell>): seq<string>
    decreases |cells|
  {
    if |cells| == 0 then []
    else TdTexts(cells[..|cells| - 1]) + (if cells[|cells| - 1].isTh then [] else [TrimSpace(cells[|cells| - 1].text)])
  }

  /** `row.Find("td[data-append-csv]").Attr("data-append-csv")`: the
      attribute of the first `td` that has it, empty or not. */
  function FirstTdAppend(cells: seq<Cell>): Option<string>
    decreases |cells|
  {
    if |cells| == 0 then None
    else if !cells[0].isTh && cells[0].appendCsv.Some? then cells[0].appendCsv
    else FirstTdAppend(cells[1..])
  }

  /** A body row as a CSV line, or None when it is not written: it has the
      class token "thead", or no `td` has the attribute. */
  function CsvLine(row: TableRow): Option<seq<string>> {
    if TheadByToken(row.classAttr) then None
    else match FirstTdAppend(row.cells)
      case None => None
      case Some(id) => Some([TrimSpace(ThText(row.cells))] + TdTexts(row.cells) + [id])
  }

  /** The lines of the written rows, in table order. */
  function CsvLines(rows: seq<TableRow>): seq<seq<string>>
    decreases |rows|
  {
    if |rows| == 0 then []
    else
      var init := CsvLines(rows[..|rows| - 1]);
      match CsvLine(rows[|rows| - 1])
      case None => init
      case Some(line) => init + [line]
  }

  /** `main` for the `-season` flag it was given; `createFails` is an
      `-out` file that cannot be created. */
  function Main(season: int, outPath: string, fetch: string -> Page, createFails: bool): ScriptRun {
    if season == 0 then Exited
    else match fetch(Url(season))
      case HttpFailed => Exited
      case Unparsable => Exited
      case Document(table) =>
        if outPath != "" && createFails then Exited
        else Wrote([HeaderLine(table.ths)] + CsvLines(table.rows))
  }

  // ---------------------------------------------------------------------
  // The loops of `main`.

  /** The `EachWithBreak` over the head cells: keep the text of cells 0 to
      28 and stop at cell 29; then the id column. */
  method CollectHeaders(ths: seq<Th>) returns (headers: seq<string>)
    ensures headers == HeaderLine(ths)
  {
    headers := [];
    var i := 0;
    while i < |ths|
      invariant 0 <= i <= |ths| && i <= MaxHeaders
      invariant headers == ThTexts(ths[..i])
    {
      if i >= MaxHeaders {
        break;
      }
      assert ths[..i + 1][..i] == ths[..i];
      headers := headers + [TrimSpace(ths[i].text)];
      i := i + 1;
    }
    assert ths[..i] == (if |ths| <= MaxHeaders then ths else ths[..MaxHeaders]);
    headers := headers + [IdHeader];
  }

  /** The `td` loop of one row, after its `th` text. */
  method RowValues(cells: seq<Cell>) returns (vals: seq<string>)
    ensures vals == [TrimSpace(ThText(cells))] + TdTexts(cells)
  {
    vals := [TrimSpace(ThText(cells))];
    var i := 0;
    while i < |cells|
      invariant 0 <= i <= |cells|
      invariant vals == [TrimSpace(ThText(cells))] + TdTexts(cells[..i])
    {
      assert cells[..i + 1][..i] == cells[..i];
      if !cells[i].isTh {
        vals := vals + [TrimSpace(cells[i].text)];
      }
      i := i + 1;
    }
    assert cells[..i] == cells;
  }

  /** The `tbody tr` loop. */
  method CollectLines(rows: seq<TableRow>) returns (lines: seq<seq<string>>)
    ensures lines == CsvLines(rows)
  {
    lines := [];
    var i := 0;
    while i < |rows|
      invariant 0 <= i <= |rows|
      invariant lines == CsvLines(rows[..i])
    {
      assert rows[..i + 1][..i] == rows[..i];
      if !HasClass(rows[i].classAttr, "thead") {
        var vals := RowValues(rows[i].cells);
        var id := FirstTdAppend(rows[i].cells);
        if id.Some? {
          vals := vals + [id.value];
          lines := lines + [vals];
        }
      }
      i := i + 1;
    }
    assert rows[..i] == rows;
  }

  /** `main`. */
  method IsolatedScrapeMain(season: int, outPath: string, fetch: string -> Page, createFails: bool)
    returns (run: ScriptRun)
    ensures run == Main(season, outPath, fetch, createFails)
  {
    if season == 0 {
      return Exited;
    }
    var page := fetch(Url(season));
    if !page.Document? {
      return Exited;
    }
    var headers := CollectHeaders(page.table.ths);
    var rows := CollectLines(page.table.rows);
    if outPath != "" && createFails {
      return Exited;
    }
    return Wrote([headers] + rows);
  }

  // ---------------------------------------------------------------------
  // What the script writes.

  lemma {:induction false} ThTextsAt(ths: seq<Th>, j: nat)
    requires j < |ths|
    ensures |ThTexts(ths)| == |ths| && ThTexts(ths)[j] == TrimSpace(ths[j].text)
    decreases |ths|
  {
    var n := |ths| - 1;
    ThTextsLength(ths[..n]);
    if j < n {
      ThTextsAt(ths[..n], j);
    }
  }

  lemma {:induction false} ThTextsLength(ths: seq<Th>)
    ensures |ThTexts(ths)| == |ths|
    decreases |ths|
  {
    if |ths| > 0 {
      ThTextsLength(ths[..|ths| - 1]);
    }
  }

  /** At most 30 headers: the texts of the first 29 head cells, in order,
      then "Player-additional". */
  lemma HeaderLineShape(ths: seq<Th>)
    ensures var h := HeaderLine(ths);
      && |h| == (if |ths| <= MaxHeaders then |ths| else MaxHeaders) + 1 <= 30
      && h[|h| - 1] == IdHeader
      && forall j | 0 <= j < |h| - 1 :: h[j] == TrimSpace(ths[j].text)
  {
    var kept := if |ths| <= MaxHeaders then ths else ths[..MaxHeaders];
    ThTextsLength(kept);
    forall j | 0 <= j < |kept|
      ensures HeaderLine(ths)[j] == TrimSpace(ths[j].text)
    {
      ThTextsAt(kept, j);
    }
  }

  /** The first `td` with the attribute decides: a row is kept exactly when
      some `td` has it, and the value written is that first one's. */
  lemma {:induction false} FirstTdAppendIsFirst(cells: seq<Cell>)
    ensures FirstTdAppend(cells).Some? <==> exists j | 0 <= j < |cells| :: !cells[j].isTh && cells[j].appendCsv.Some?
    ensures FirstTdAppend(cells).Some? ==>
      exists j | 0 <= j < |cells| :: !cells[j].isTh && cells[j].appendCsv == FirstTdAppend(cells)
        && forall k | 0 <= k < j :: cells[k].isTh || cells[k].appendCsv.None?
    decreases |cells|
  {
    if |cells| > 0 && !(!cells[0].isTh && cells[0].appendCsv.Some?) {
      var tail := cells[1..];
      FirstTdAppendIsFirst(tail);
      if exists j | 0 <= j < |cells| :: !cells[j].isTh && cells[j].appendCsv.Some? {
        var j :| 0 <= j < |cells| && !cells[j].isTh && cells[j].appendCsv.Some?;
        assert tail[j - 1] == cells[j];
      }
      if FirstTdAppend(tail).Some? {
        var j :| 0 <= j < |tail| && !tail[j].isTh && tail[j].appendCsv == FirstTdAppend(tail)
          && forall k | 0 <= k < j :: tail[k].isTh || tail[k].appendCsv.None?;
        assert cells[j + 1] == tail[j];
        forall k | 0 <= k < j + 1
          ensures cells[k].isTh || cells[k].appendCsv.None?
        {
          if k > 0 {
            assert cells[k] == tail[k - 1];
          }
        }
      }
    }
  }

  /** Writing the rows of two parts of a table is writing each part's
      rows, one after the other: lines keep table order. */
  lemma {:induction false} CsvLinesAppend(a: seq<TableRow>, b: seq<TableRow>)
    ensures CsvLines(a + b) == CsvLines(a) + CsvLines(b)
    decreases |b|
  {
    if |b| == 0 {
      assert a + b == a;
    } else {
      var n := |b| - 1;
      assert (a + b)[..|a + b| - 1] == a + b[..n];
      assert (a + b)[|a + b| - 1] == b[n];
      CsvLinesAppend(a, b[..n]);
    }
  }

  /** Unlike the totals script, an empty attribute keeps the row, and a
      `th` carrying the attribute does not: the row below is written by
      this script with an empty id and skipped by the totals script. */
  lemma EmptyIdIsWritten()
    ensures var row := TableRow("", [Cell(true, "1", Some("kept01")), Cell(false, "A", Some(""))]);
      CsvLine(row) == Some(["1", "A", ""]) && TotalsScript.CsvLine(row).None?
  {
    var cells := [Cell(true, "1", Some("kept01")), Cell(false, "A", Some(""))];
    var row := TableRow("", cells);
    assert cells[..1] == [cells[0]];
    assert LastAppend(cells) == "";
    assert FirstTdAppend(cells) == Some("") by {
      assert cells[1..] == [cells[1]];
    }
    TrimSpaceOfWord("1");
    TrimSpaceOfWord("A");
    assert ThText(cells) == "1" by {
      assert ThText(cells[..1]) == "" + "1";
    }
    assert TdTexts(cells) == ["A"] by {
      assert TdTexts(cells[..1]) == [];
    }
    NoTokenInEmpty();
    assert !TheadByToken(row.classAttr);
    assert CsvLine(row) == Some([TrimSpace(ThText(cells))] + TdTexts(cells) + [""]);
    assert [TrimSpace(ThText(cells))] + TdTexts(cells) + [""] == ["1", "A", ""];
    assert TotalsScript.CsvLine(row).None?;
  }

  lemma NoTokenInEmpty()
    ensures !HasClass("", "thead")
  {
    var padded := " " + BlankControls("") + " ";
    assert |padded| == 2;
    assert forall j | 0 <= j :: !OccursAt(padded, " thead ", j);
  }
}
