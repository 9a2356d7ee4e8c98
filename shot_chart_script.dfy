/** The standalone shot-chart scraper (`scrape_shotchart.go`): the same
    walk over seasons as the service, but every failure skips the season,
    the status code is not looked at, tooltips are not deduplicated, and each
    season's shots become the rows of a CSV file instead of database rows. */
module ShotChartScript {
  import opened Wrappers
  import opened GoInt
  import opened Strconv
  import opened CommentExtractor
  import opened Tooltip
  import opened ShotChartScrape

  /** `fmt.Sprint` of a bool. */
  function BoolText(b: bool): string {
    if b then "true" else "false"
  }

  /** The 16 CSV column names. */
  const CsvHeaders: seq<string> := [
    "playerName", "top", "left", "date", "qtr", "timeRemaining",
    "result", "shotType", "distanceFt", "lead",
    "teamScore", "opponentTeamScore", "opponent", "team", "season", "playerId"]

  /** One CSV field before formatting: text, an `strconv.Itoa`, or a
      `fmt.Sprint` of a bool. */
  datatype Cell = Text(text: string) | Int(value: int) | Flag(on: bool)

  /** The field as written. */
  function Render(c: Cell): string {
    match c
    case Text(t) => t
    case Int(n) => Itoa(n)
    case Flag(b) => BoolText(b)
  }

  /** The CSV row of one tooltip, in the order of `CsvHeaders`. */
  function CsvRow(playerId: string, playerName: string, season: int, s: Shot): seq<Cell> {
    [Text(playerName), Int(s.top), Int(s.left), Text(s.date), Text(s.quarter), Text(s.timeRemaining),
     Flag(s.made), Text(s.shotType), Int(s.distance), Flag(s.lead),
     Int(s.teamScore), Int(s.opponentScore), Text(s.opponent), Text(s.team), Int(season), Text(playerId)]
  }

  /** A written field reads back as what was formatted: an int64 through
      the script's own `parseInt`, a bool as "true" exactly when set. */
  lemma RenderReadsBack(c: Cell)
    requires c.Int? ==> IsInt64(c.value)
    ensures c.Int? ==> ParseInt(Render(c)) == c.value
    ensures c.Flag? ==> (Render(c) == "true" <==> c.on)
    ensures c.Text? ==> Render(c) == c.text
  {
    if c.Int? {
      ParseIntOfItoa(c.value);
    }
  }

  /** A row has one field per header, and each field holds the value its
      header names. */
  lemma CsvRowColumns(playerId: string, playerName: string, season: int, s: Shot)
    ensures var row := CsvRow(playerId, playerName, season, s);
      && |row| == |CsvHeaders| == 16
      && CsvHeaders[0] == "playerName" && row[0] == Text(playerName)
      && CsvHeaders[1] == "top" && row[1] == Int(s.top)
      && CsvHeaders[2] == "left" && row[2] == Int(s.left)
      && CsvHeaders[6] == "result" && row[6] == Flag(s.made)
      && CsvHeaders[9] == "lead" && row[9] == Flag(s.lead)
      && CsvHeaders[14] == "season" && row[14] == Int(season)
      && CsvHeaders[15] == "playerId" && row[15] == Text(playerId)
  {
  }

  /** The script's coercions give int64 values, so every integer field of a
      row it builds reads back through `RenderReadsBack`. */
  lemma ScriptShotInRange(style: string, tip: string)
    requires ParseTooltipScript(style, tip).Some?
    ensures var s := ParseTooltipScript(style, tip).value;
      IsInt64(s.top) && IsInt64(s.left) && IsInt64(s.distance)
      && IsInt64(s.teamScore) && IsInt64(s.opponentScore)
  {
  }

  /** The rows of all parsed tooltips in document order, or None when one
      of them panicked. */
  function ParseRows(playerId: string, playerName: string, season: int,
                     shots: seq<Option<Shot>>): Option<seq<seq<Cell>>>
    decreases |shots|
  {
    if |shots| == 0 then Some([])
    else
      match ParseRows(playerId, playerName, season, shots[..|shots| - 1])
      case None => None
      case Some(rows) =>
        match shots[|shots| - 1]
        case None => None
        case Some(s) => Some(rows + [CsvRow(playerId, playerName, season, s)])
  }

  /** Each tooltip gives exactly one row, in order: nothing is deduplicated,
      and the rows exist exactly when no tooltip panicked. */
  lemma {:induction false} ParseRowsOnePerTooltip(playerId: string, playerName: string, season: int,
                                                  shots: seq<Option<Shot>>)
    ensures ParseRows(playerId, playerName, season, shots).Some? <==>
      forall i | 0 <= i < |shots| :: shots[i].Some?
    ensures ParseRows(playerId, playerName, season, shots).Some? ==>
      var rows := ParseRows(playerId, playerName, season, shots).value;
      && |rows| == |shots|
      && forall i | 0 <= i < |shots| :: rows[i] == CsvRow(playerId, playerName, season, shots[i].value)
    decreases |shots|
  {
    if |shots| > 0 {
      var init := shots[..|shots| - 1];
      ParseRowsOnePerTooltip(playerId, playerName, season, init);
      assert forall i | 0 <= i < |init| :: init[i] == shots[i];
    }
  }

  lemma {:induction false} ParseRowsPrefixFails(playerId: string, playerName: string, season: int,
                                                shots: seq<Option<Shot>>, i: nat)
    requires i <= |shots| && ParseRows(playerId, playerName, season, shots[..i]).None?
    ensures ParseRows(playerId, playerName, season, shots).None?
    decreases |shots| - i
  {
    if i < |shots| {
      assert shots[..i + 1][..i] == shots[..i];
      ParseRowsPrefixFails(playerId, playerName, season, shots, i + 1);
    } else {
      assert shots[..i] == shots;
    }
  }

  /** One more tooltip parsed. */
  lemma ParseRowsStep(playerId: string, playerName: string, season: int,
                      shots: seq<Option<Shot>>, i: nat, rows: seq<seq<Cell>>)
    requires i < |shots| && ParseRows(playerId, playerName, season, shots[..i]) == Some(rows)
    ensures ParseRows(playerId, playerName, season, shots[..i + 1]) ==
      match shots[i]
      case None => None
      case Some(s) => Some(rows + [CsvRow(playerId, playerName, season, s)])
  {
    assert shots[..i + 1][..i] == shots[..i];
  }

  /** The `Each` over the tooltips, appending one row per tooltip. */
  method CollectRows(playerId: string, playerName: string, season: int,
                     tips: seq<(string, string)>) returns (rows: Option<seq<seq<Cell>>>)
    ensures rows == ParseRows(playerId, playerName, season, ParseTooltipsScript(tips))
  {
    ghost var shots := ParseTooltipsScript(tips);
    var acc: seq<seq<Cell>> := [];
    var i := 0;
    while i < |tips|
      invariant 0 <= i <= |tips|
      invariant ParseRows(playerId, playerName, season, shots[..i]) == Some(acc)
    {
      var shot := ParseTooltipScript(tips[i].0, tips[i].1);
      ParseRowsStep(playerId, playerName, season, shots, i, acc);
      if shot.None? {
        ParseRowsPrefixFails(playerId, playerName, season, shots, i + 1);
        return None;
      }
      acc := acc + [CsvRow(playerId, playerName, season, shot.value)];
      i := i + 1;
    }
    assert shots[..i] == shots;
    return Some(acc);
  }

  // ---------------------------------------------------------------------
  // The season loop of `main`.

  /** The command-line flags. */
  datatype Flags = Flags(playerId: string, playerName: string, start: int, end: int, outDir: string)

  /** The flags `main` runs with; otherwise it exits with status 1 before any request. */
  predicate FlagsValid(f: Flags) {
    f.playerId != "" && f.playerName != "" && f.start != 0 && f.end != 0 && f.start >= f.end
  }

  /** The CSV a season yields: the `CsvHeaders` line, then one row per tooltip. */
  datatype CsvFile = CsvFile(season: int, rows: seq<seq<Cell>>)

  /** One season: skipped, written, or the tooltip that panics ends the program. */
  datatype ScriptStep = Skip | Write(file: CsvFile) | Crash

  /** How `main` ends, with the CSVs written until then in season order. */
  datatype ScriptRun = ScriptRun(exitCode: int, files: seq<CsvFile>, panicked: bool)

  function SeasonCsv(f: Flags, season: int, fetch: int -> Fetch, snippet: string -> Snippet,
                     createFails: int -> bool): ScriptStep
  {
    match fetch(season)
    case RequestError => Skip
    case HttpError => Skip
    case Response(_, body) =>
      match body
      case ReadError => Skip
      case Page(doc, _) =>
        var shotHtml := Extracted(doc);
        if shotHtml == "" then Skip
        else match snippet(shotHtml)
          case Unparsable => Skip
          case NoWrapper => Skip
          case Wrapper(tips) =>
            match ParseRows(f.playerId, f.playerName, season, ParseTooltipsScript(tips))
            case None => Crash
            case Some(rows) =>
              if f.outDir != "" && createFails(season) then Skip
              else Write(CsvFile(season, rows))
  }

  /** What each season yields, as `main`'s loop body computes it. */
  function StepsOf(f: Flags, fetch: int -> Fetch, snippet: string -> Snippet,
                   createFails: int -> bool): int -> ScriptStep
  {
    season => SeasonCsv(f, season, fetch, snippet, createFails)
  }

  /** The seasons from `season` down to `f.end`, given what each yields. */
  function Seasons(f: Flags, season: int, steps: int -> ScriptStep): ScriptRun
    decreases season - f.end + 1
  {
    if season < f.end then ScriptRun(0, [], false)
    else match steps(season)
      case Crash => ScriptRun(2, [], true)
      case Skip => Seasons(f, season - 1, steps)
      case Write(file) =>
        var rest := Seasons(f, season - 1, steps);
        ScriptRun(rest.exitCode, [file] + rest.files, rest.panicked)
  }

  /** What `main` does with the flags it was given. */
  function Main(f: Flags, fetch: int -> Fetch, snippet: string -> Snippet,
                createFails: int -> bool): ScriptRun
  {
    if !FlagsValid(f) then ScriptRun(1, [], false)
    else Seasons(f, f.start, StepsOf(f, fetch, snippet, createFails))
  }

  /** `steps` is what `SeasonCsv` yields for every season. */
  ghost predicate StepsAre(steps: int -> ScriptStep, f: Flags, fetch: int -> Fetch,
                           snippet: string -> Snippet, createFails: int -> bool)
  {
    forall season {:trigger SeasonCsv(f, season, fetch, snippet, createFails)} ::
      steps(season) == SeasonCsv(f, season, fetch, snippet, createFails)
  }

  /** The body of `main`'s season loop, as `SeasonCsv` states it: the
      request, the commented chart, the tooltips and the file. */
  method ScrapeSeasonCsv(f: Flags, season: int, fetch: int -> Fetch, snippet: string -> Snippet,
                         createFails: int -> bool) returns (step: ScriptStep)
    ensures step == SeasonCsv(f, season, fetch, snippet, createFails)
  {
    var resp := fetch(season);
    if resp.RequestError? || resp.HttpError? || resp.body.ReadError? {
      return Skip;
    }
    var shotHtml := ExtractCommentedShotChart(resp.body.doc);
    if shotHtml == "" {
      return Skip;
    }
    var wrapper := snippet(shotHtml);
    if wrapper.Unparsable? || wrapper.NoWrapper? {
      return Skip;
    }
    var rows := CollectRows(f.playerId, f.playerName, season, wrapper.tooltips);
    if rows.None? {
      return Crash;
    }
    if f.outDir != "" && createFails(season) {
      return Skip;
    }
    return Write(CsvFile(season, rows.value));
  }

  /** The files written before a season, followed by how the rest ends. */
  function After(files: seq<CsvFile>, rest: ScriptRun): ScriptRun {
    ScriptRun(rest.exitCode, files + rest.files, rest.panicked)
  }

  lemma AfterNothing(r: ScriptRun)
    ensures After([], r) == r
  {
    assert [] + r.files == r.files;
  }

  /** One turn of `main`'s loop: a crash ends the program with the files
      written so far, a written file joins them, a skip changes nothing. */
  lemma SeasonsStep(f: Flags, season: int, steps: int -> ScriptStep, files: seq<CsvFile>)
    requires season >= f.end
    ensures steps(season).Crash? ==> After(files, Seasons(f, season, steps)) == ScriptRun(2, files, true)
    ensures steps(season).Skip? ==> After(files, Seasons(f, season, steps)) == After(files, Seasons(f, season - 1, steps))
    ensures steps(season).Write? ==>
      After(files, Seasons(f, season, steps)) == After(files + [steps(season).file], Seasons(f, season - 1, steps))
  {
    if steps(season).Write? {
      var rest := Seasons(f, season - 1, steps);
      assert files + ([steps(season).file] + rest.files) == files + [steps(season).file] + rest.files;
    }
  }

  /** `main`. `fetch` is the request of each season, `snippet` the selectors
      over the parsed chart, and `createFails` a season whose output file
      cannot be created. A panic exits with Go's status 2. */
  method ScrapeShotchartMain(f: Flags, fetch: int -> Fetch, snippet: string -> Snippet,
                             createFails: int -> bool) returns (run: ScriptRun)
    ensures run == Main(f, fetch, snippet, createFails)
  {
    if f.playerId == "" || f.playerName == "" || f.start == 0 || f.end == 0 {
      return ScriptRun(1, [], false);
    }
    if f.start < f.end {
      return ScriptRun(1, [], false);
    }
    run := ScrapeSeasons(f, fetch, snippet, createFails, StepsOf(f, fetch, snippet, createFails));
  }

  /** The season loop of `main`, from `f.start` down to `f.end`. */
  method ScrapeSeasons(f: Flags, fetch: int -> Fetch, snippet: string -> Snippet,
                       createFails: int -> bool, ghost steps: int -> ScriptStep) returns (run: ScriptRun)
    requires StepsAre(steps, f, fetch, snippet, createFails)
    ensures run == Seasons(f, f.start, steps)
  {
    var files: seq<CsvFile> := [];
    var season := f.start;
    AfterNothing(Seasons(f, season, steps));
    while season >= f.end
      invariant Seasons(f, f.start, steps) == After(files, Seasons(f, season, steps))
      decreases season - f.end + 1
    {
      var step := ScrapeSeasonCsv(f, season, fetch, snippet, createFails);
      SeasonsStep(f, season, steps, files);
      if step.Crash? {
        return ScriptRun(2, files, true);
      }
      if step.Write? {
        files := files + [step.file];
      }
      season := season - 1;
    }
    assert files + [] == files;
    return ScriptRun(0, files, false);
  }
}
