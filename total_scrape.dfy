/** `FetchAndStorePlayerTotalScrapedStats`: fetch the season's totals page
    (regular season or playoffs), find `table#totals_stats`, map each body
    row to a totals record and upsert the whole batch in one statement keyed
    on (player, season, team, playoff flag). The HTTP round trip and HTML
    parsing are a parameter: what fetching a URL yields. */
module TotalScrape {
  import opened Wrappers
  import opened GoInt
  import opened Strconv
  import opened Database
  import opened Records
  import opened TableMapper
  import opened GoStrings

  const RegularPrefix: string := "https://www.basketball-reference.com/leagues/NBA_"
  const PlayoffPrefix: string := "https://www.basketball-reference.com/playoffs/NBA_"
  const TotalsSuffix: string := "_totals.html"

  /** `urlForSeason`. */
  function UrlForSeason(season: int, isPlayoff: bool): string {
    (if isPlayoff then PlayoffPrefix else RegularPrefix) + Itoa(season) + TotalsSuffix
  }

  /** Two calls fetch the same page only for the same season and kind. */
  lemma UrlForSeasonInjective(a: int, p: bool, b: int, q: bool)
    requires IsInt64(a) && IsInt64(b)
    requires UrlForSeason(a, p) == UrlForSeason(b, q)
    ensures a == b && p == q
  {
    var u := UrlForSeason(a, p);
    assert u[37] == (if p then 'p' else 'l');
    assert UrlForSeason(b, q)[37] == (if q then 'p' else 'l');
    var prefix := if p then PlayoffPrefix else RegularPrefix;
    DropAffixes(prefix, Itoa(a), Itoa(b), TotalsSuffix);
    ItoaInjective(a, b);
  }

  /** Where a call gave up with an error. */
  datatype Stage = Request | Read | Parse | NoTable | Upsert

  /** `nil`, an error, or a panic (a row with more cells than headers). */
  datatype Outcome = Done | Err(stage: Stage) | Panicked

  /** What fetching a URL yields: the request fails, the body cannot be
      read, it does not parse, or the document, with the table
      `table#totals_stats` selects if it selects one. */
  datatype Page = RequestFailed | ReadFailed | Unparsable | Document(totals: Option<TableData>)

  /** The record a kept row becomes: the site's old column names first,
      the new ones as fallback. */
  function TotalOfFields(data: Fields, playerId: string, season: int, isPlayoff: bool): TotalStat {
    TotalStat(
      PickInt(data, "rk", "ranker"), playerId, PickText(data, "player", "name_display"),
      Get(data, "pos"), MustAtoi(Get(data, "age")),
      PickInt(data, "games", "g"), PickInt(data, "games_started", "gs"),
      MustParseFloat(Get(data, "mp")),
      MustAtoi(Get(data, "fg")), MustAtoi(Get(data, "fga")), MustParseFloat(Get(data, "fg_pct")),
      MustAtoi(Get(data, "fg3")), MustAtoi(Get(data, "fg3a")), MustParseFloat(Get(data, "fg3_pct")),
      MustAtoi(Get(data, "fg2")), MustAtoi(Get(data, "fg2a")), MustParseFloat(Get(data, "fg2_pct")),
      MustParseFloat(Get(data, "efg_pct")),
      MustAtoi(Get(data, "ft")), MustAtoi(Get(data, "fta")), MustParseFloat(Get(data, "ft_pct")),
      MustAtoi(Get(data, "orb")), MustAtoi(Get(data, "drb")), MustAtoi(Get(data, "trb")),
      MustAtoi(Get(data, "ast")), MustAtoi(Get(data, "stl")), MustAtoi(Get(data, "blk")),
      MustAtoi(Get(data, "tov")), MustAtoi(Get(data, "pf")), MustAtoi(Get(data, "pts")),
      PickText(data, "team_id", "team_name_abbr"), season, isPlayoff)
  }

  function TotalBuilder(season: int, isPlayoff: bool): (Fields, string) -> TotalStat {
    (data, playerId) => TotalOfFields(data, playerId, season, isPlayoff)
  }

  /** The totals scrape skips a row whose class contains "thead". */
  function SkipRow(): string -> bool {
    c => TheadBySubstring(c)
  }

  /** The identity a totals record is stored under, and carried by every
      record of a scrape of `season`. */
  predicate OfScrape(r: TotalStat, season: int, isPlayoff: bool) {
    r.playerId != "" && r.season == season && r.isPlayoff == isPlayoff
  }

  /** A page in the new layout, with none of the old column names, reads
      its identity, team and game counts from the new names. */
  lemma NewLayoutReads(data: Fields, playerId: string, season: int, isPlayoff: bool)
    requires "rk" !in data && "player" !in data && "team_id" !in data
    requires "games" !in data && "games_started" !in data
    ensures var r := TotalOfFields(data, playerId, season, isPlayoff);
      && r.externalId == MustAtoi(Get(data, "ranker")) && r.playerName == Get(data, "name_display")
      && r.team == Get(data, "team_name_abbr")
      && r.games == MustAtoi(Get(data, "g")) && r.gamesStarted == MustAtoi(Get(data, "gs"))
  {
    PickIntChoice(data, "rk", "ranker");
    PickIntChoice(data, "games", "g");
    PickIntChoice(data, "games_started", "gs");
  }

  /** Every record of a scrape carries the scrape's season and playoff flag
      and a non-empty player id, and there is at most one per body row. */
  lemma RecordsOfScrape(headers: seq<string>, rows: seq<TableRow>, season: int, isPlayoff: bool)
    requires RecordsOf(headers, rows, SkipRow(), TotalBuilder(season, isPlayoff)).Some?
    ensures var rs := RecordsOf(headers, rows, SkipRow(), TotalBuilder(season, isPlayoff)).value;
      |rs| <= |rows| && forall k | 0 <= k < |rs| :: OfScrape(rs[k], season, isPlayoff)
  {
    var p := (r: TotalStat) => OfScrape(r, season, isPlayoff);
    RecordsSatisfy(headers, rows, SkipRow(), TotalBuilder(season, isPlayoff), p);
  }

  // ---------------------------------------------------------------------
  // The batch upsert.

  /** The constraint of a totals table names totals columns only. */
  predicate TotalTable(constraint: seq<Col>) {
    Elems(constraint) <= Elems(TotalColumns)
  }

  function TotalRows(rs: seq<TotalStat>): (rows: seq<Row>)
    ensures |rows| == |rs|
    ensures forall i | 0 <= i < |rs| :: rows[i] == TotalRow(rs[i])
  {
    seq(|rs|, i requires 0 <= i < |rs| => TotalRow(rs[i]))
  }

  lemma TotalRowsHaveCols(rs: seq<TotalStat>, constraint: seq<Col>)
    requires TotalTable(constraint)
    ensures AllHaveCols(TotalRows(rs), constraint)
  {
    forall i | 0 <= i < |rs|
      ensures HasCols(TotalRows(rs)[i], constraint)
    {
      TotalRowColumns(rs[i]);
      forall k | 0 <= k < |constraint|
        ensures constraint[k] in TotalRows(rs)[i]
      {
        assert constraint[k] in Elems(constraint);
      }
    }
  }

  /** The upsert of the batch, skipped when it is empty. */
  function Store(t: Table, constraint: seq<Col>, stats: seq<TotalStat>, refused: bool): (Outcome, Table)
    requires TotalTable(constraint)
  {
    if |stats| == 0 then (Done, t)
    else
      TotalRowsHaveCols(stats, constraint);
      match Statement(t, constraint, TotalConflict, TotalScrapeUpdates, TotalRows(stats), refused)
      case Some(t') => (Done, t')
      case None => (Err(Upsert), t)
  }

  /** One call, as the outcome and the table it leaves. */
  function Scrape(t: Table, constraint: seq<Col>, season: int, isPlayoff: bool,
                  fetch: string -> Page, refused: bool): (Outcome, Table)
    requires TotalTable(constraint)
  {
    match fetch(UrlForSeason(season, isPlayoff))
    case RequestFailed => (Err(Request), t)
    case ReadFailed => (Err(Read), t)
    case Unparsable => (Err(Parse), t)
    case Document(totals) =>
      match totals
      case None => (Err(NoTable), t)
      case Some(table) =>
        match RecordsOf(Headers(table.ths), table.rows, SkipRow(), TotalBuilder(season, isPlayoff))
        case None => (Panicked, t)
        case Some(stats) => Store(t, constraint, stats, refused)
  }

  /** `FetchAndStorePlayerTotalScrapedStats(db, season, isPlayoff)`.
      `fetch` stands for the HTTP round trip and HTML parsing, `refused`
      for a database that fails the statement for reasons outside the model. */
  method FetchAndStorePlayerTotalScrapedStats(db: Db, season: int, isPlayoff: bool,
                                              fetch: string -> Page, refused: bool)
    returns (outcome: Outcome)
    requires db.Valid() && TotalTable(db.constraint)
    modifies db
    ensures db.Valid()
    ensures (outcome, db.table) == Scrape(old(db.table), db.constraint, season, isPlayoff, fetch, refused)
  {
    TotalScrapeUpdateColumns();
    var url := UrlForSeason(season, isPlayoff);
    var page := fetch(url);
    if page.RequestFailed? {
      return Err(Request);
    }
    if page.ReadFailed? {
      return Err(Read);
    }
    if page.Unparsable? {
      return Err(Parse);
    }
    if page.totals.None? {
      return Err(NoTable);
    }
    var table := page.totals.value;
    var headers := CollectHeaders(table.ths);
    var statsToUpsert := CollectRecords(headers, table.rows, SkipRow(), TotalBuilder(season, isPlayoff));
    if statsToUpsert.None? {
      return Panicked;
    }
    var stats := statsToUpsert.value;
    if |stats| > 0 {
      TotalRowsHaveCols(stats, db.constraint);
      var ok := db.Create(TotalConflict, TotalScrapeUpdates, TotalRows(stats), refused);
      if !ok {
        return Err(Upsert);
      }
    }
    return Done;
  }

  // ---------------------------------------------------------------------
  // What a call does to the table.

  /** A call that does not return `nil` leaves the table as it was. */
  lemma FailureWritesNothing(t: Table, constraint: seq<Col>, season: int, isPlayoff: bool,
                             fetch: string -> Page, refused: bool)
    requires TotalTable(constraint)
    ensures var (outcome, t') := Scrape(t, constraint, season, isPlayoff, fetch, refused);
      outcome != Done ==> t' == t
  {
  }

  /** The batch is stored exactly when it is empty, or the database accepts
      the statement; then each record is upserted in turn. */
  lemma StoreOutcome(t: Table, constraint: seq<Col>, stats: seq<TotalStat>, refused: bool)
    requires TotalTable(constraint)
    ensures AllHaveCols(TotalRows(stats), constraint)
    ensures var (outcome, t') := Store(t, constraint, stats, refused);
      && (outcome == Done <==> |stats| == 0 || (!refused && Accepts(constraint, TotalConflict)
                                                && DistinctKeys(TotalRows(stats), constraint)))
      && (outcome == Done && |stats| > 0 ==> t' == UpsertAll(t, constraint, TotalScrapeUpdates, TotalRows(stats)))
      && (outcome != Done ==> outcome == Err(Upsert) && t' == t)
  {
    TotalRowsHaveCols(stats, constraint);
  }

  /** Two records of a batch with the same (player, season, team, playoff
      flag) make the whole statement fail, whatever the database would do. */
  lemma RepeatedIdentityFails(t: Table, stats: seq<TotalStat>, i: nat, j: nat, refused: bool)
    requires i < j < |stats|
    requires stats[i].playerId == stats[j].playerId && stats[i].team == stats[j].team
    requires stats[i].season == stats[j].season && stats[i].isPlayoff == stats[j].isPlayoff
    ensures Store(t, TotalConflict, stats, refused) == (Err(Upsert), t)
  {
    TotalConflictInTable();
    TotalRowsHaveCols(stats, TotalConflict);
    TotalKey(stats[i]);
    TotalKey(stats[j]);
    assert Project(TotalRows(stats)[i], TotalConflict) == Project(TotalRows(stats)[j], TotalConflict);
  }

  lemma TotalConflictInTable()
    ensures TotalTable(TotalConflict)
  {
  }
}
