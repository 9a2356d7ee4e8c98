/** The standalone totals scraper (`scrape_totals.go`): fetch the playoff
    totals page of one season, take the same header list as the service,
    and write each kept body row as the trimmed text of its cells followed
    by the player id. Cells are not zipped to headers, so a long row cannot
    panic. The HTTP round trip and HTML parsing are a parameter; the CSV
    lines are the output, not the bytes of the file. */
module TotalsScript {
  import opened Wrappers
  import opened GoStrings
  import opened Strconv
  import opened TableMapper

  const UrlPrefix: string := "https://www.basketball-reference.com/playoffs/NBA_"
  const UrlSuffix: string := "_totals.html"

  /** The only page the script fetches: the playoff totals of `season`. */
  function Url(season: int): string {
    UrlPrefix + Itoa(season) + UrlSuffix
  }

  /** What fetching the page yields: the request cannot be built, the
      round trip fails, the body cannot be read, it does not parse, or the
      document, with `table#totals_stats` if it selects one. */
  datatype Page = RequestFailed | HttpFailed | ReadFailed | Unparsable | Document(totals: Option<TableData>)

  /** How `main` ends: `os.Exit(1)` before any CSV line is written, or the
      lines written. */
  datatype ScriptRun = Exited | Wrote(lines: seq<seq<string>>)

  /** The trimmed text of each cell, in order. */
  function Texts(cells: seq<Cell>): seq<string>
    decreases |cells|
  {
    if |cells| == 0 then [] else Texts(cells[..|cells| - 1]) + [TrimSpace(cells[|cells| - 1].text)]
  }

  /** A body row as a CSV line, or None when it is not written: its class
      contains "thead", or no cell has a non-empty `data-append-csv` last. */
  function CsvLine(row: TableRow): Option<seq<string>> {
    if TheadBySubstring(row.classAttr) then None
    else
      var playerId := LastAppend(row.cells);
      if playerId == "" then None else Some(Texts(row.cells) + [playerId])
  }

  /** The lines of the written rows, in table order. */
  function CsvLines(rows: seq<TableRow>): seq<seq<string>>
    decreases |rows|
  {
    if |rows| == 0 then []
    else
      var init := CsvLines(rows[..|rows| - 1]);
      match CsvLine(rows[|rows| - 1])
      case None => init
      case Some(line) => init + [line]
  }

  /** `main` for the `-season` flag it was given; `createFails` is an
      `-out` file that cannot be created. */
  function Main(season: int, outPath: string, fetch: string -> Page, createFails: bool): ScriptRun {
    if season == 0 then Exited
    else match fetch(Url(season))
      case RequestFailed => Exited
      case HttpFailed => Exited
      case ReadFailed => Exited
      case Unparsable => Exited
      case Document(totals) =>
        match totals
        case None => Exited
        case Some(table) =>
          if outPath != "" && createFails then Exited
          else Wrote([Headers(table.ths)] + CsvLines(table.rows))
  }

  // ---------------------------------------------------------------------
  // The loops of `main`.

  /** The `th, td` loop of one row: the trimmed texts, and the last
      `data-append-csv` value seen. */
  method RowCells(cells: seq<Cell>) returns (row: seq<string>, playerId: string)
    ensures row == Texts(cells) && playerId == LastAppend(cells)
  {
    row := [];
    playerId := "";
    var i := 0;
    while i < |cells|
      invariant 0 <= i <= |cells|
      invariant row == Texts(cells[..i]) && playerId == LastAppend(cells[..i])
    {
      assert cells[..i + 1][..i] == cells[..i];
      row := row + [TrimSpace(cells[i].text)];
      if cells[i].appendCsv.Some? {
        playerId := cells[i].appendCsv.value;
      }
      i := i + 1;
    }
    assert cells[..i] == cells;
  }

  /** The `tbody tr` loop: skip repeated headers, append each row that has
      a player id with that id at its end. */
  method CollectLines(rows: seq<TableRow>) returns (lines: seq<seq<string>>)
    ensures lines == CsvLines(rows)
  {
    lines := [];
    var i := 0;
    while i < |rows|
      invariant 0 <= i <= |rows|
      invariant lines == CsvLines(rows[..i])
    {
      assert rows[..i + 1][..i] == rows[..i];
      if !Contains(rows[i].classAttr, "thead") {
        var row, playerId := RowCells(rows[i].cells);
        if playerId != "" {
          row := row + [playerId];
          lines := lines + [row];
        }
      }
      i := i + 1;
    }
    assert rows[..i] == rows;
  }

  /** `main`. */
  method ScrapeTotalsMain(season: int, outPath: string, fetch: string -> Page, createFails: bool)
    returns (run: ScriptRun)
    ensures run == Main(season, outPath, fetch, createFails)
  {
    if season == 0 {
      return Exited;
    }
    var page := fetch(Url(season));
    if !page.Document? || page.totals.None? {
      return Exited;
    }
    var table := page.totals.value;
    var headers := CollectHeaders(table.ths);
    var rows := CollectLines(table.rows);
    if outPath != "" && createFails {
      return Exited;
    }
    return Wrote([headers] + rows);
  }

  // ---------------------------------------------------------------------
  // What the script writes.

  /** Every cell contributes its trimmed text, in order. */
  lemma {:induction false} TextsAt(cells: seq<Cell>, j: nat)
    requires j < |cells|
    ensures |Texts(cells)| == |cells| && Texts(cells)[j] == TrimSpace(cells[j].text)
    decreases |cells|
  {
    var n := |cells| - 1;
    TextsLength(cells[..n]);
    if j < n {
      TextsAt(cells[..n], j);
    }
  }

  lemma {:induction false} TextsLength(cells: seq<Cell>)
    ensures |Texts(cells)| == |cells|
    decreases |cells|
  {
    if |cells| > 0 {
      TextsLength(cells[..|cells| - 1]);
    }
  }

  /** A row is written exactly when it is not a repeated header and some
      cell carries a player id; it is written as one field per cell and the
      player id last, which is the value of the last cell with the
      attribute. */
  lemma CsvLineShape(row: TableRow)
    ensures CsvLine(row).Some? <==> !TheadBySubstring(row.classAttr) && LastAppend(row.cells) != ""
    ensures CsvLine(row).Some? ==>
      var line := CsvLine(row).value;
      |line| == |row.cells| + 1 && line[|row.cells|] == LastAppend(row.cells) != ""
  {
    TextsLength(row.cells);
  }

  /** Writing the rows of two parts of a table is writing each part's
      rows, one after the other: lines keep table order. */
  lemma {:induction false} CsvLinesAppend(a: seq<TableRow>, b: seq<TableRow>)
    ensures CsvLines(a + b) == CsvLines(a) + CsvLines(b)
    decreases |b|
  {
    if |b| == 0 {
      assert a + b == a;
    } else {
      var n := |b| - 1;
      assert (a + b)[..|a + b| - 1] == a + b[..n];
      assert (a + b)[|a + b| - 1] == b[n];
      CsvLinesAppend(a, b[..n]);
    }
  }

  /** One row on its own. */
  lemma CsvLinesOfOne(row: TableRow)
    ensures CsvLines([row]) == match CsvLine(row) case None => [] case Some(line) => [line]
  {
    assert [row][..0] == [];
  }

  /** The script and the service agree on a row that fits the headers:
      field `j` of the line is what the service stores under `headers[j]`
      when no later cell shares that header, and the last field is the
      player id the service keys the record on. */
  lemma AgreesWithService(headers: seq<string>, row: TableRow, j: nat)
    requires |row.cells| <= |headers| && j < |row.cells|
    requires forall j' | j < j' < |row.cells| :: headers[j'] != headers[j]
    requires CsvLine(row).Some?
    ensures ZipRow(headers, row.cells).Some? && |CsvLine(row).value| == |row.cells| + 1
    ensures var (data, playerId) := ZipRow(headers, row.cells).value;
      headers[j] in data && CsvLine(row).value[j] == data[headers[j]] && CsvLine(row).value[|row.cells|] == playerId
  {
    CsvLineShape(row);
    RowFieldsLookup(headers, row.cells, j);
    TextsAt(row.cells, j);
  }

  /** A run that writes begins with the header line, whose last key is the
      player column, and has at most one line per body row; season 0 exits
      before anything is fetched. */
  lemma MainWrites(season: int, outPath: string, fetch: string -> Page, createFails: bool)
    ensures season == 0 ==> Main(season, outPath, fetch, createFails) == Exited
    ensures Main(season, outPath, fetch, createFails).Wrote? ==>
      var page := fetch(Url(season));
      var lines := Main(season, outPath, fetch, createFails).lines;
      && page.Document? && page.totals.Some?
      && lines[0] == Headers(page.totals.value.ths)
      && lines[0][|lines[0]| - 1] == PlayerAdditional
      && |lines| <= |page.totals.value.rows| + 1
  {
    var page := fetch(Url(season));
    if season != 0 && page.Document? && page.totals.Some? {
      HeadersShape(page.totals.value.ths);
      CsvLinesCount(page.totals.value.rows);
    }
  }

  lemma {:induction false} CsvLinesCount(rows: seq<TableRow>)
    ensures |CsvLines(rows)| <= |rows|
    decreases |rows|
  {
    if |rows| > 0 {
      CsvLinesCount(rows[..|rows| - 1]);
    }
  }
}
