/** `GetPlayerTotalStats`: the filtered, sorted and paginated list of
    totals. Unlike the advanced list, the sort parameter is put into
    `ORDER BY` as given, and only `playerId` names the player filter. */
module TotalController {
  import opened Wrappers
  import opened Strconv
  import opened Listing
  import AdvancedController

  /** The `Where` clauses of the query. */
  function TotalFilters(q: Query): Filters {
    var season := Int(q, "season", 0);
    var team := Raw(q, "team");
    var playerId := Raw(q, "playerId");
    var isPlayoffStr := Raw(q, "isPlayoff");
    Filters(if season != 0 then Some(season) else None,
            if team != "" then Some(team) else None,
            if playerId != "" then Some(playerId) else None,
            if isPlayoffStr != "" then Some(Bool(q, "isPlayoff", false)) else None)
  }

  /** The query the handler runs. */
  function TotalRequest(q: Query): Request {
    var page := Int(q, "page", 1);
    var pageSize := Int(q, "pageSize", 20);
    var sortBy := Text(q, "sortBy", "points");
    Request(TotalFilters(q), Order(sortBy, Bool(q, "ascending", false)), page, pageSize, Offset(page, pageSize))
  }

  /** The handler. */
  function GetPlayerTotalStats(q: Query, count: Filters -> int, findFails: bool): Response {
    Respond(TotalRequest(q), count, findFails)
  }

  // ---------------------------------------------------------------------
  // What the handler promises.

  /** Whatever text `sortBy` holds starts the `ORDER BY` clause: nothing
      checks it against the table's columns. */
  lemma SortIsUnvalidated(q: Query)
    requires Raw(q, "sortBy") != ""
    ensures var order := TotalRequest(q).order;
      |order| > |Raw(q, "sortBy")| && order[..|Raw(q, "sortBy")|] == Raw(q, "sortBy")
  {
  }

  /** With no parameters: no filter, page 1 of 20 rows from row 0, by
      points descending. */
  lemma EmptyQuery()
    ensures TotalRequest(map[]) == Request(Filters(None, None, None, None), "points DESC", 1, 20, 0)
  {
    assert Atoi("").SyntaxErr?;
    assert ParseBool("") == None;
  }

  /** `player_id` is not read here: alone it filters nothing. */
  lemma NoPlayerIdAlias(q: Query)
    requires Raw(q, "playerId") == "" && Raw(q, "player_id") != ""
    ensures TotalFilters(q).playerId == None
  {
  }

  /** The playoff filter is applied whenever the parameter is present, and
      a value `ParseBool` rejects filters on regular-season rows. */
  lemma UnreadablePlayoffFlag(q: Query)
    requires Raw(q, "isPlayoff") != "" && ParseBool(Raw(q, "isPlayoff")).None?
    ensures TotalFilters(q).isPlayoff == Some(false)
  {
  }

  /** The two lists read their filters alike except for the player alias. */
  lemma SameFiltersAsAdvanced(q: Query)
    requires Raw(q, "playerId") != "" || Raw(q, "player_id") == ""
    ensures TotalFilters(q) == AdvancedController.AdvancedFilters(q)
  {
  }
}
