/** `GetAllAdvancedPlayerStats`: the filtered, sorted and paginated list of
    advanced stats. The sort parameter goes through a whitelist of six
    columns, and the player filter also accepts `player_id`. */
module AdvancedController {
  import opened Wrappers
  import opened Strconv
  import opened Listing

  /** `advancedSortMap`: the API's sort names and their columns. */
  const AdvancedSortMap: map<string, string> := map[
    "winShares" := "win_shares", "per" := "per", "tsPercent" := "ts_percent",
    "playerId" := "player_id", "season" := "season", "team" := "team"]

  const DefaultColumn: string := "win_shares"

  /** The column a `sortBy` value sorts on, `win_shares` when it is not a
      known name. */
  function SortColumn(sortBy: string): string {
    if sortBy in AdvancedSortMap then AdvancedSortMap[sortBy] else DefaultColumn
  }

  /** `playerId`, or `player_id` when that is empty. */
  function PlayerIdParam(q: Query): string {
    var id := Raw(q, "playerId");
    if id == "" then Raw(q, "player_id") else id
  }

  /** The `Where` clauses of the query. */
  function AdvancedFilters(q: Query): Filters {
    var season := Int(q, "season", 0);
    var team := Raw(q, "team");
    var playerId := PlayerIdParam(q);
    Filters(if season != 0 then Some(season) else None,
            if team != "" then Some(team) else None,
            if playerId != "" then Some(playerId) else None,
            if Raw(q, "isPlayoff") != "" then Some(Bool(q, "isPlayoff", false)) else None)
  }

  /** The query the handler runs. */
  function AdvancedRequest(q: Query): Request {
    var page := Int(q, "page", 1);
    var pageSize := Int(q, "pageSize", 20);
    var column := SortColumn(Text(q, "sortBy", "winShares"));
    Request(AdvancedFilters(q), Order(column, Bool(q, "ascending", false)), page, pageSize, Offset(page, pageSize))
  }

  /** The handler. */
  function GetAllAdvancedPlayerStats(q: Query, count: Filters -> int, findFails: bool): Response {
    Respond(AdvancedRequest(q), count, findFails)
  }

  // ---------------------------------------------------------------------
  // What the handler promises.

  /** Only the six whitelisted columns reach `ORDER BY`, and an unknown
      sort name sorts like "winShares". */
  lemma SortIsWhitelisted(q: Query)
    ensures var order := AdvancedRequest(q).order;
      exists c | c in AdvancedSortMap.Values :: order == Order(c, false) || order == Order(c, true)
    ensures Text(q, "sortBy", "winShares") !in AdvancedSortMap ==>
      AdvancedRequest(q).order == Order("win_shares", Bool(q, "ascending", false))
  {
    var c := SortColumn(Text(q, "sortBy", "winShares"));
    assert AdvancedSortMap["winShares"] == DefaultColumn;
    assert c in AdvancedSortMap.Values;
  }

  /** The sort column is `win_shares` exactly for "winShares", an absent
      parameter, and names the map does not know. */
  lemma DefaultSort(sortBy: string)
    ensures SortColumn(sortBy) == "win_shares" <==> sortBy == "winShares" || sortBy !in AdvancedSortMap
  {
    if sortBy in AdvancedSortMap && sortBy != "winShares" {
      assert sortBy in {"per", "tsPercent", "playerId", "season", "team"};
    }
  }

  /** With no parameters: no filter, page 1 of 20 rows from row 0, by
      win shares descending. */
  lemma EmptyQuery()
    ensures AdvancedRequest(map[]) == Request(Filters(None, None, None, None), "win_shares DESC", 1, 20, 0)
  {
    assert Atoi("").SyntaxErr?;
    assert ParseBool("") == None;
  }

  /** The player filter reads `player_id` only when `playerId` is empty. */
  lemma PlayerIdFallback(q: Query)
    ensures AdvancedFilters(q).playerId ==
      if Raw(q, "playerId") != "" then Some(Raw(q, "playerId"))
      else if Raw(q, "player_id") != "" then Some(Raw(q, "player_id"))
      else None
  {
  }

  /** The playoff filter is applied whenever the parameter is present, and
      a value `ParseBool` rejects filters on regular-season rows. */
  lemma UnreadablePlayoffFlag(q: Query)
    requires Raw(q, "isPlayoff") != "" && ParseBool(Raw(q, "isPlayoff")).None?
    ensures AdvancedFilters(q).isPlayoff == Some(false)
  {
  }

  /** A season that is not a number is no filter at all, like season 0. */
  lemma UnreadableSeason(q: Query)
    requires !Atoi(Raw(q, "season")).Ok?
    ensures AdvancedFilters(q).season == None
  {
  }
}
