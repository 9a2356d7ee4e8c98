/** `FetchAndStorePlayerAdvancedScrapedStats`: fetch the season's advanced
    page (regular season or playoffs), find the advanced table directly or
    inside the comment that hides it, map each body row to an advanced
    record and upsert the batch in one statement keyed on (player, season,
    team, playoff flag). The HTTP round trip, HTML parsing and CSS
    selection are parameters. */
module AdvancedScrape {
  import opened Wrappers
  import opened GoInt
  import opened GoStrings
  import opened Strconv
  import opened Database
  import opened Records
  import opened CommentExtractor
  import opened TableMapper

  const RegularPrefix: string := "https://www.basketball-reference.com/leagues/NBA_"
  const PlayoffPrefix: string := "https://www.basketball-reference.com/playoffs/NBA_"
  const AdvancedSuffix: string := "_advanced.html"

  /** `urlForAdvSeason`. */
  function UrlForAdvSeason(season: int, isPlayoff: bool): string {
    (if isPlayoff then PlayoffPrefix else RegularPrefix) + Itoa(season) + AdvancedSuffix
  }

  /** Two calls fetch the same page only for the same season and kind. */
  lemma UrlForAdvSeasonInjective(a: int, p: bool, b: int, q: bool)
    requires IsInt64(a) && IsInt64(b)
    requires UrlForAdvSeason(a, p) == UrlForAdvSeason(b, q)
    ensures a == b && p == q
  {
    var u := UrlForAdvSeason(a, p);
    assert u[37] == (if p then 'p' else 'l');
    assert UrlForAdvSeason(b, q)[37] == (if q then 'p' else 'l');
    var prefix := if p then PlayoffPrefix else RegularPrefix;
    DropAffixes(prefix, Itoa(a), Itoa(b), AdvancedSuffix);
    ItoaInjective(a, b);
  }

  /** The wrapper div and the table inside it, by kind of season. */
  function ParentSelector(isPlayoff: bool): string {
    if isPlayoff then "#all_advanced_stats" else "#all_advanced"
  }

  function TableSelector(isPlayoff: bool): string {
    if isPlayoff then "table#advanced_stats" else "table#advanced"
  }

  /** Where a call gave up with an error. */
  datatype Stage = Request | Read | Parse | NoComment | CommentParse | NoTable | Upsert

  /** `nil`, an error, or a panic: a nil `FirstChild`, or a row with more
      cells than headers. */
  datatype Outcome = Done | Err(stage: Stage) | Panicked

  /** A parsed document as the selectors see it: the table a selector finds,
      if it finds one, and the child nodes (`Contents`) of what a selector
      finds. */
  datatype Document = Document(find: string -> Option<TableData>, contents: string -> seq<Node>)

  /** What fetching a URL yields. */
  datatype Page = RequestFailed | ReadFailed | Unparsable | Parsed(doc: Document)

  /** The comment nodes of a node list, in order. */
  function Comments(ns: seq<Node>): (r: seq<Node>)
    ensures |r| <= |ns|
    decreases |ns|
  {
    if |ns| == 0 then []
    else
      var init := Comments(ns[..|ns| - 1]);
      if ns[|ns| - 1].kind == CommentNode then init + [ns[|ns| - 1]] else init
  }

  lemma {:induction false} CommentsAreComments(ns: seq<Node>)
    ensures forall k | 0 <= k < |Comments(ns)| :: Comments(ns)[k].kind == CommentNode && Comments(ns)[k] in ns
    ensures (exists j | 0 <= j < |ns| :: ns[j].kind == CommentNode) <==> |Comments(ns)| > 0
    decreases |ns|
  {
    if |ns| > 0 {
      var init := ns[..|ns| - 1];
      CommentsAreComments(init);
      if exists j | 0 <= j < |init| :: init[j].kind == CommentNode {
        var j :| 0 <= j < |init| && init[j].kind == CommentNode;
        assert ns[j] == init[j];
      }
      if exists j | 0 <= j < |ns| :: ns[j].kind == CommentNode {
        var j :| 0 <= j < |ns| && ns[j].kind == CommentNode;
        if j < |init| {
          assert init[j] == ns[j];
        }
      }
      forall k | 0 <= k < |Comments(ns)|
        ensures Comments(ns)[k] in ns
      {
        if k < |Comments(init)| {
          assert Comments(init)[k] in init;
        }
      }
    }
  }

  /** Where the table lookup ends. */
  datatype Lookup = Found(table: TableData) | Missing(stage: Stage) | Crash

  /** The table under the wrapper div; failing that, the first comment child
      of the wrapper is re-parsed (`reparse` is None when that fails) and the
      table looked up in it. The comment's markup is read from its
      `FirstChild`, and a comment without children makes that nil. */
  function LocateTable(doc: Document, isPlayoff: bool, reparse: string -> Option<Document>): Lookup {
    match doc.find(ParentSelector(isPlayoff) + " " + TableSelector(isPlayoff))
    case Some(table) => Found(table)
    case None =>
      var comments := Comments(doc.contents(ParentSelector(isPlayoff)));
      if |comments| == 0 then Missing(NoComment)
      else if |comments[0].children| == 0 then Crash
      else match reparse(comments[0].children[0].data)
        case None => Missing(CommentParse)
        case Some(inner) =>
          match inner.find(TableSelector(isPlayoff))
          case None => Missing(NoTable)
          case Some(table) => Found(table)
  }

  /** A table found under the wrapper is used as it is, whatever comments
      the page holds. */
  lemma DirectTableWins(doc: Document, isPlayoff: bool, reparse: string -> Option<Document>, table: TableData)
    requires doc.find(ParentSelector(isPlayoff) + " " + TableSelector(isPlayoff)) == Some(table)
    ensures LocateTable(doc, isPlayoff, reparse) == Found(table)
  {
  }

  /** The HTML parser gives a comment node no children, so whenever the
      table is not found directly and the wrapper holds a comment, the
      fallback dereferences a nil `FirstChild` and panics: the hidden table
      is never reached. */
  lemma CommentFallbackPanics(doc: Document, isPlayoff: bool, reparse: string -> Option<Document>)
    requires doc.find(ParentSelector(isPlayoff) + " " + TableSelector(isPlayoff)).None?
    requires exists j | 0 <= j < |doc.contents(ParentSelector(isPlayoff))| ::
      doc.contents(ParentSelector(isPlayoff))[j].kind == CommentNode
    requires forall n | n in doc.contents(ParentSelector(isPlayoff)) && n.kind == CommentNode :: n.children == []
    ensures LocateTable(doc, isPlayoff, reparse) == Crash
  {
    CommentsAreComments(doc.contents(ParentSelector(isPlayoff)));
  }

  /** The lookup only finds a table that a selector of the page, or of the
      re-parsed comment, finds. */
  lemma FoundTableIsSelected(doc: Document, isPlayoff: bool, reparse: string -> Option<Document>)
    ensures var r := LocateTable(doc, isPlayoff, reparse);
      r.Found? ==> (doc.find(ParentSelector(isPlayoff) + " " + TableSelector(isPlayoff)) == Some(r.table)
                    || exists text :: reparse(text).Some? && reparse(text).value.find(TableSelector(isPlayoff)) == Some(r.table))
  {
    var r := LocateTable(doc, isPlayoff, reparse);
    if r.Found? && doc.find(ParentSelector(isPlayoff) + " " + TableSelector(isPlayoff)).None? {
      var text := Comments(doc.contents(ParentSelector(isPlayoff)))[0].children[0].data;
      assert reparse(text).Some? && reparse(text).value.find(TableSelector(isPlayoff)) == Some(r.table);
    }
  }

  /** The lookup as the method runs it: `table` is reassigned when the
      fallback finds one. */
  method FindTable(doc: Document, isPlayoff: bool, reparse: string -> Option<Document>) returns (r: Lookup)
    ensures r == LocateTable(doc, isPlayoff, reparse)
  {
    var parentDivSelector := ParentSelector(isPlayoff);
    var tableSelector := TableSelector(isPlayoff);
    var table := doc.find(parentDivSelector + " " + tableSelector);
    if table.None? {
      var commentSel := Comments(doc.contents(parentDivSelector));
      if |commentSel| == 0 {
        return Missing(NoComment);
      }
      if |commentSel[0].children| == 0 {
        return Crash;
      }
      var commentedHtml := commentSel[0].children[0].data;
      var innerDoc := reparse(commentedHtml);
      if innerDoc.None? {
        return Missing(CommentParse);
      }
      table := innerDoc.value.find(tableSelector);
      if table.None? {
        return Missing(NoTable);
      }
    }
    return Found(table.value);
  }

  // ---------------------------------------------------------------------
  // Rows to records.

  /** The record a kept row becomes. `games_started` is never read, and
      minutes are an integer column here. */
  function AdvancedOfFields(data: Fields, playerId: string, season: int, isPlayoff: bool): AdvancedStat {
    AdvancedStat(
      PickInt(data, "rk", "ranker"), playerId, PickText(data, "player", "name_display"),
      Get(data, "pos"), MustAtoi(Get(data, "age")), PickInt(data, "games", "g"), 0,
      MustAtoi(Get(data, "mp")),
      MustParseFloat(Get(data, "per")), MustParseFloat(Get(data, "ts_pct")),
      MustParseFloat(Get(data, "fg3a_per_fga_pct")), MustParseFloat(Get(data, "fta_per_fga_pct")),
      MustParseFloat(Get(data, "orb_pct")), MustParseFloat(Get(data, "drb_pct")),
      MustParseFloat(Get(data, "trb_pct")), MustParseFloat(Get(data, "ast_pct")),
      MustParseFloat(Get(data, "stl_pct")), MustParseFloat(Get(data, "blk_pct")),
      MustParseFloat(Get(data, "tov_pct")), MustParseFloat(Get(data, "usg_pct")),
      MustParseFloat(Get(data, "ows")), MustParseFloat(Get(data, "dws")),
      MustParseFloat(Get(data, "ws")), MustParseFloat(Get(data, "ws_per_48")),
      MustParseFloat(Get(data, "obpm")), MustParseFloat(Get(data, "dbpm")),
      MustParseFloat(Get(data, "bpm")), MustParseFloat(Get(data, "vorp")),
      PickText(data, "team_id", "team_name_abbr"), season, isPlayoff)
  }

  function AdvancedBuilder(season: int, isPlayoff: bool): (Fields, string) -> AdvancedStat {
    (data, playerId) => AdvancedOfFields(data, playerId, season, isPlayoff)
  }

  /** The advanced scrape skips a row only with the class token "thead". */
  function SkipRow(): string -> bool {
    c => TheadByToken(c)
  }

  /** What every record of a scrape of `season` carries. */
  predicate OfScrape(r: AdvancedStat, season: int, isPlayoff: bool) {
    r.playerId != "" && r.season == season && r.isPlayoff == isPlayoff && r.gamesStarted == 0
  }

  /** Every record carries the call's season and playoff flag, a non-empty
      player id and no games-started count, one at most per body row. */
  lemma RecordsOfScrape(headers: seq<string>, rows: seq<TableRow>, season: int, isPlayoff: bool)
    requires RecordsOf(headers, rows, SkipRow(), AdvancedBuilder(season, isPlayoff)).Some?
    ensures var rs := RecordsOf(headers, rows, SkipRow(), AdvancedBuilder(season, isPlayoff)).value;
      |rs| <= |rows| && forall k | 0 <= k < |rs| :: OfScrape(rs[k], season, isPlayoff)
  {
    var p := (r: AdvancedStat) => OfScrape(r, season, isPlayoff);
    RecordsSatisfy(headers, rows, SkipRow(), AdvancedBuilder(season, isPlayoff), p);
  }

  /** A page in the new layout, with none of the old column names, reads
      its identity, team and games from the new names. */
  lemma NewLayoutReads(data: Fields, playerId: string, season: int, isPlayoff: bool)
    requires "rk" !in data && "player" !in data && "team_id" !in data && "games" !in data
    ensures var r := AdvancedOfFields(data, playerId, season, isPlayoff);
      && r.externalId == MustAtoi(Get(data, "ranker")) && r.playerName == Get(data, "name_display")
      && r.team == Get(data, "team_name_abbr") && r.games == MustAtoi(Get(data, "g"))
  {
    PickIntChoice(data, "rk", "ranker");
    PickIntChoice(data, "games", "g");
  }

  // ---------------------------------------------------------------------
  // The batch upsert.

  /** The constraint of an advanced table names advanced columns only. */
  predicate AdvancedTable(constraint: seq<Col>) {
    Elems(constraint) <= Elems(AdvancedColumns)
  }

  function AdvancedRows(rs: seq<AdvancedStat>): (rows: seq<Row>)
    ensures |rows| == |rs|
    ensures forall i | 0 <= i < |rs| :: rows[i] == AdvancedRow(rs[i])
  {
    seq(|rs|, i requires 0 <= i < |rs| => AdvancedRow(rs[i]))
  }

  lemma AdvancedRowsHaveCols(rs: seq<AdvancedStat>, constraint: seq<Col>)
    requires AdvancedTable(constraint)
    ensures AllHaveCols(AdvancedRows(rs), constraint)
  {
    forall i | 0 <= i < |rs|
      ensures HasCols(AdvancedRows(rs)[i], constraint)
    {
      AdvancedRowColumns(rs[i]);
      forall k | 0 <= k < |constraint|
        ensures constraint[k] in AdvancedRows(rs)[i]
      {
        assert constraint[k] in Elems(constraint);
      }
    }
  }

  /** The upsert of the batch, skipped when it is empty. */
  function Store(t: Table, constraint: seq<Col>, stats: seq<AdvancedStat>, refused: bool): (Outcome, Table)
    requires AdvancedTable(constraint)
  {
    if |stats| == 0 then (Done, t)
    else
      AdvancedRowsHaveCols(stats, constraint);
      match Statement(t, constraint, AdvancedConflict, AdvancedUpdates, AdvancedRows(stats), refused)
      case Some(t') => (Done, t')
      case None => (Err(Upsert), t)
  }

  /** One call, as the outcome and the table it leaves. */
  function Scrape(t: Table, constraint: seq<Col>, season: int, isPlayoff: bool, fetch: string -> Page,
                  reparse: string -> Option<Document>, refused: bool): (Outcome, Table)
    requires AdvancedTable(constraint)
  {
    match fetch(UrlForAdvSeason(season, isPlayoff))
    case RequestFailed => (Err(Request), t)
    case ReadFailed => (Err(Read), t)
    case Unparsable => (Err(Parse), t)
    case Parsed(doc) =>
      match LocateTable(doc, isPlayoff, reparse)
      case Crash => (Panicked, t)
      case Missing(stage) => (Err(stage), t)
      case Found(table) =>
        match RecordsOf(Headers(table.ths), table.rows, SkipRow(), AdvancedBuilder(season, isPlayoff))
        case None => (Panicked, t)
        case Some(stats) => Store(t, constraint, stats, refused)
  }

  /** `FetchAndStorePlayerAdvancedScrapedStats(db, season, isPlayoff)`.
      `fetch` stands for the HTTP round trip and HTML parsing, `reparse` for
      parsing the commented markup, and `refused` for a database that fails
      the statement for reasons outside the model. */
  method FetchAndStorePlayerAdvancedScrapedStats(db: Db, season: int, isPlayoff: bool, fetch: string -> Page,
                                                 reparse: string -> Option<Document>, refused: bool)
    returns (outcome: Outcome)
    requires db.Valid() && AdvancedTable(db.constraint)
    modifies db
    ensures db.Valid()
    ensures (outcome, db.table) == Scrape(old(db.table), db.constraint, season, isPlayoff, fetch, reparse, refused)
  {
    AdvancedUpdatesHaveNoId();
    var url := UrlForAdvSeason(season, isPlayoff);
    var page := fetch(url);
    if page.RequestFailed? {
      return Err(Request);
    }
    if page.ReadFailed? {
      return Err(Read);
    }
    if page.Unparsable? {
      return Err(Parse);
    }
    var lookup := FindTable(page.doc, isPlayoff, reparse);
    if lookup.Crash? {
      return Panicked;
    }
    if lookup.Missing? {
      return Err(lookup.stage);
    }
    var table := lookup.table;
    var headers := CollectHeaders(table.ths);
    var statsToUpsert := CollectRecords(headers, table.rows, SkipRow(), AdvancedBuilder(season, isPlayoff));
    if statsToUpsert.None? {
      return Panicked;
    }
    var stats := statsToUpsert.value;
    if |stats| > 0 {
      AdvancedRowsHaveCols(stats, db.constraint);
      var ok := db.Create(AdvancedConflict, AdvancedUpdates, AdvancedRows(stats), refused);
      if !ok {
        return Err(Upsert);
      }
    }
    return Done;
  }

  // ---------------------------------------------------------------------
  // What a call does to the table.

  /** The batch is stored exactly when it is empty, or the database accepts
      the statement; then each record is upserted in turn. */
  lemma StoreOutcome(t: Table, constraint: seq<Col>, stats: seq<AdvancedStat>, refused: bool)
    requires AdvancedTable(constraint)
    ensures AllHaveCols(AdvancedRows(stats), constraint)
    ensures var (outcome, t') := Store(t, constraint, stats, refused);
      && (outcome == Done <==> |stats| == 0 || (!refused && Accepts(constraint, AdvancedConflict)
                                                 && DistinctKeys(AdvancedRows(stats), constraint)))
      && (outcome == Done && |stats| > 0 ==> t' == UpsertAll(t, constraint, AdvancedUpdates, AdvancedRows(stats)))
      && (outcome != Done ==> outcome == Err(Upsert) && t' == t)
  {
    AdvancedRowsHaveCols(stats, constraint);
  }

  /** A call that does not return `nil` leaves the table as it was. */
  lemma FailureWritesNothing(t: Table, constraint: seq<Col>, season: int, isPlayoff: bool, fetch: string -> Page,
                             reparse: string -> Option<Document>, refused: bool)
    requires AdvancedTable(constraint)
    ensures var (outcome, t') := Scrape(t, constraint, season, isPlayoff, fetch, reparse, refused);
      outcome != Done ==> t' == t
  {
  }
}
