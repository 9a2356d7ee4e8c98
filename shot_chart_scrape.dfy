/** `FetchAndStoreShotChartScrapedForPlayer`: for each season from the most
    recent down, fetch the player's shooting page, find the chart hidden in a
    comment, parse every tooltip, drop repeated shots and upsert the season's
    batch in one statement. Fetching, HTML parsing and CSS selection are
    parameters: a per-season fetch outcome, the parsed page, and what the
    chart snippet's selectors find. */
module ShotChartScrape {
  import opened Wrappers
  import opened Database
  import opened Records
  import opened CommentExtractor
  import opened Tooltip
  import opened KeyedDedup

  /** The record the closure builds from a parsed tooltip; the external id is
      never set. */
  function ShotRecord(playerId: string, playerName: string, season: int, s: Shot): ShotChart {
    ShotChart(0, playerId, playerName, s.top, s.left, s.date, s.quarter, s.timeRemaining,
              s.made, s.shotType, s.distance, s.lead, s.teamScore, s.opponentScore,
              s.opponent, s.team, season)
  }

  /** The `uniqueShots` key of a record. */
  function ShotKey(r: ShotChart): string {
    DedupKey(r.playerId, r.season, r.date, r.quarter, r.timeRemaining, r.top, r.left)
  }

  /** The records of the parsed tooltips in order, or None when one of
      them panicked. */
  function ParseAll(playerId: string, playerName: string, season: int,
                    shots: seq<Option<Shot>>): Option<seq<ShotChart>>
    decreases |shots|
  {
    if |shots| == 0 then Some([])
    else
      match ParseAll(playerId, playerName, season, shots[..|shots| - 1])
      case None => None
      case Some(rs) =>
        match shots[|shots| - 1]
        case None => None
        case Some(s) => Some(rs + [ShotRecord(playerId, playerName, season, s)])
  }

  /** The batch of one season: None when a tooltip panics. */
  function Batch(playerId: string, playerName: string, season: int,
                 tips: seq<(string, string)>): Option<seq<ShotChart>>
  {
    match ParseAll(playerId, playerName, season, ParseTooltips(tips))
    case None => None
    case Some(rs) => Some(Dedup(rs, ShotKey))
  }

  /** The rows of a batch, in order. */
  function Rows(rs: seq<ShotChart>): (rows: seq<Row>)
    ensures |rows| == |rs|
    ensures forall i | 0 <= i < |rs| :: rows[i] == ShotChartRow(rs[i])
  {
    seq(|rs|, i requires 0 <= i < |rs| => ShotChartRow(rs[i]))
  }

  /** The constraint of a shot-chart table names shot-chart columns only. */
  predicate ShotTable(constraint: seq<Col>) {
    Elems(constraint) <= Elems(ShotChartColumns)
  }

  lemma RowsHaveCols(rs: seq<ShotChart>, constraint: seq<Col>)
    requires ShotTable(constraint)
    ensures AllHaveCols(Rows(rs), constraint)
  {
    forall i | 0 <= i < |rs|
      ensures HasCols(Rows(rs)[i], constraint)
    {
      ShotChartRowColumns(rs[i]);
      forall k | 0 <= k < |constraint|
        ensures constraint[k] in Rows(rs)[i]
      {
        assert constraint[k] in Elems(constraint);
      }
    }
  }

  /** Equal conflict keys mean equal dedup keys: the dedup key is built
      from the same seven fields. */
  lemma ConflictKeyDeterminesShotKey(a: ShotChart, b: ShotChart)
    ensures HasCols(ShotChartRow(a), ShotChartConflict) && HasCols(ShotChartRow(b), ShotChartConflict)
    ensures Project(ShotChartRow(a), ShotChartConflict) == Project(ShotChartRow(b), ShotChartConflict)
            ==> ShotKey(a) == ShotKey(b)
  {
    ShotChartKey(a);
    ShotChartKey(b);
    var ka, kb := Project(ShotChartRow(a), ShotChartConflict), Project(ShotChartRow(b), ShotChartConflict);
    if ka == kb {
      assert ka[0] == kb[0] && ka[1] == kb[1] && ka[2] == kb[2] && ka[3] == kb[3];
      assert ka[4] == kb[4] && ka[5] == kb[5] && ka[6] == kb[6];
    }
  }

  /** Records with distinct dedup keys have distinct seven-column conflict keys. */
  lemma DistinctShotKeysAreDistinctConflictKeys(rs: seq<ShotChart>)
    requires DistinctBy(rs, ShotKey)
    ensures AllHaveCols(Rows(rs), ShotChartConflict)
    ensures DistinctKeys(Rows(rs), ShotChartConflict)
  {
    forall i | 0 <= i < |rs|
      ensures HasCols(Rows(rs)[i], ShotChartConflict)
    {
      ShotChartKey(rs[i]);
    }
    forall i, j | 0 <= i < j < |rs|
      ensures Project(Rows(rs)[i], ShotChartConflict) != Project(Rows(rs)[j], ShotChartConflict)
    {
      ConflictKeyDeterminesShotKey(rs[i], rs[j]);
    }
  }

  /** The season's dedup keeps, of the shots sharing a `uniqueShots` key,
      the first in document order and only that one, and drops no key. */
  lemma ShotDedup(rs: seq<ShotChart>)
    ensures KeySet(Dedup(rs, ShotKey), ShotKey) == KeySet(rs, ShotKey)
    ensures DistinctBy(Dedup(rs, ShotKey), ShotKey)
    ensures KeepsFirst(rs, Dedup(rs, ShotKey), ShotKey)
  {
    DedupKeySet(rs, ShotKey);
    DedupKeysDistinct(rs, ShotKey);
    DedupKeepsFirst(rs, ShotKey);
  }

  /** A deduplicated batch never repeats a conflict key, so a table whose
      constraint is the seven-column target accepts it. */
  lemma DedupBatchHasDistinctKeys(rs: seq<ShotChart>)
    ensures AllHaveCols(Rows(Dedup(rs, ShotKey)), ShotChartConflict)
    ensures DistinctKeys(Rows(Dedup(rs, ShotKey)), ShotChartConflict)
  {
    DedupKeysDistinct(rs, ShotKey);
    DistinctShotKeysAreDistinctConflictKeys(Dedup(rs, ShotKey));
  }

  // ---------------------------------------------------------------------
  // The tooltip loop.

  lemma {:induction false} ParseAllPrefixFails(playerId: string, playerName: string, season: int,
                                               shots: seq<Option<Shot>>, i: nat)
    requires i <= |shots| && ParseAll(playerId, playerName, season, shots[..i]).None?
    ensures ParseAll(playerId, playerName, season, shots).None?
    decreases |shots| - i
  {
    if i < |shots| {
      assert shots[..i + 1][..i] == shots[..i];
      ParseAllPrefixFails(playerId, playerName, season, shots, i + 1);
    } else {
      assert shots[..i] == shots;
    }
  }

  /** One more tooltip parsed. */
  lemma ParseAllStep(playerId: string, playerName: string, season: int,
                     shots: seq<Option<Shot>>, i: nat, parsed: seq<ShotChart>)
    requires i < |shots| && ParseAll(playerId, playerName, season, shots[..i]) == Some(parsed)
    ensures ParseAll(playerId, playerName, season, shots[..i + 1]) ==
      match shots[i]
      case None => None
      case Some(s) => Some(parsed + [ShotRecord(playerId, playerName, season, s)])
  {
    assert shots[..i + 1][..i] == shots[..i];
  }

  /** The `Each` over the tooltips: parse each one (a malformed one panics),
      skip it when its key was seen, otherwise remember the key and append
      the record. */
  method CollectShots(playerId: string, playerName: string, season: int,
                      tips: seq<(string, string)>) returns (batch: Option<seq<ShotChart>>)
    ensures batch == Batch(playerId, playerName, season, tips)
  {
    ghost var shots := ParseTooltips(tips);
    var shotsToUpsert: seq<ShotChart> := [];
    var uniqueShots: set<string> := {};
    ghost var parsed: seq<ShotChart> := [];
    var i := 0;
    while i < |tips|
      invariant 0 <= i <= |tips|
      invariant ParseAll(playerId, playerName, season, shots[..i]) == Some(parsed)
      invariant shotsToUpsert == Dedup(parsed, ShotKey)
      invariant uniqueShots == KeySet(parsed, ShotKey)
    {
      var shot := ParseTooltip(tips[i].0, tips[i].1);
      ParseAllStep(playerId, playerName, season, shots, i, parsed);
      if shot.None? {
        ParseAllPrefixFails(playerId, playerName, season, shots, i + 1);
        return None;
      }
      var record := ShotRecord(playerId, playerName, season, shot.value);
      shotsToUpsert, uniqueShots := KeepIfNew(shotsToUpsert, uniqueShots, parsed, record, ShotKey);
      parsed := parsed + [record];
      i := i + 1;
    }
    assert shots[..i] == shots;
    return Some(shotsToUpsert);
  }

  // ---------------------------------------------------------------------
  // The season loop.

  /** Where a call gave up with an error. */
  datatype Stage = Request | Http | Read | NameParse | SnippetParse | Upsert

  /** How a call ends: `nil`, an error naming its season and stage, or a
      panic (an empty player id, a malformed tooltip). */
  datatype Outcome = Done | Failed(season: int, stage: Stage) | Panicked

  /** The page body: unreadable, or read and parsed (`doc` is None when the
      document does not parse) with the text of the name selector. */
  datatype Body = ReadError | Page(doc: Option<Node>, nameText: string)

  /** What the request for one season yields. */
  datatype Fetch = RequestError | HttpError | Response(status: int, body: Body)

  /** What the selectors find in the chart snippet: it does not parse, it has
      no `div#shot-wrapper`, or the `(style, tip)` attributes of its tooltip
      divs in document order (a missing attribute reads as ""). */
  datatype Snippet = Unparsable | NoWrapper | Wrapper(tooltips: seq<(string, string)>)

  const StatusOK: int := 200

  /** After one season: go on with the table, or stop with an outcome. */
  datatype Step = Next(table: Table) | Stop(outcome: Outcome, table: Table)

  /** The upsert of one non-empty season batch. */
  function Store(t: Table, constraint: seq<Col>, season: int, batch: seq<ShotChart>, refused: bool): Step
    requires ShotTable(constraint)
  {
    RowsHaveCols(batch, constraint);
    match Statement(t, constraint, ShotChartConflict, ShotChartUpdates, Rows(batch), refused)
    case Some(t') => Next(t')
    case None => Stop(Failed(season, Upsert), t)
  }

  /** One turn of the season loop. */
  function SeasonStep(t: Table, constraint: seq<Col>, playerId: string, season: int,
                      fetch: int -> Fetch, snippet: string -> Snippet, refused: int -> bool): Step
    requires ShotTable(constraint)
  {
    if playerId == "" then Stop(Panicked, t)
    else match fetch(season)
      case RequestError => Stop(Failed(season, Request), t)
      case HttpError => Stop(Failed(season, Http), t)
      case Response(status, body) =>
        if status != StatusOK then Next(t)
        else match body
          case ReadError => Stop(Failed(season, Read), t)
          case Page(doc, nameText) =>
            if doc.None? then Stop(Failed(season, NameParse), t)
            else
              var name := if nameText == "" then playerId else nameText;
              var shotHtml := Extracted(doc);
              if shotHtml == "" then Next(t)
              else match snippet(shotHtml)
                case Unparsable => Stop(Failed(season, SnippetParse), t)
                case NoWrapper => Next(t)
                case Wrapper(tips) =>
                  match Batch(playerId, name, season, tips)
                  case None => Stop(Panicked, t)
                  case Some(batch) =>
                    if |batch| == 0 then Next(t) else Store(t, constraint, season, batch, refused(season))
  }

  /** The seasons from `season` down to `endSeason`, given what one turn
      does to the table in a season. */
  function RunSeasons(t: Table, season: int, endSeason: int, step: (Table, int) -> Step): (Outcome, Table)
    decreases season - endSeason + 1
  {
    if season < endSeason then (Done, t)
    else match step(t, season)
      case Stop(outcome, t') => (outcome, t')
      case Next(t') => RunSeasons(t', season - 1, endSeason, step)
  }

  /** The turn of the season loop, as a function of the table and the season. */
  function SeasonSteps(constraint: seq<Col>, playerId: string, fetch: int -> Fetch,
                       snippet: string -> Snippet, refused: int -> bool): (Table, int) -> Step
    requires ShotTable(constraint)
  {
    (t, season) => SeasonStep(t, constraint, playerId, season, fetch, snippet, refused)
  }

  /** The seasons from `season` down to `endSeason`. */
  function Run(t: Table, constraint: seq<Col>, playerId: string, season: int, endSeason: int,
               fetch: int -> Fetch, snippet: string -> Snippet, refused: int -> bool): (Outcome, Table)
    requires ShotTable(constraint)
  {
    RunSeasons(t, season, endSeason, SeasonSteps(constraint, playerId, fetch, snippet, refused))
  }

  /** `FetchAndStoreShotChartScrapedForPlayer(db, playerID, startSeason, endSeason)`.
      `fetch` stands for the HTTP round trip of each season, `snippet` for
      parsing the chart snippet and running its selectors, and `refused` for
      a database that fails a statement for reasons outside the model. */
  method FetchAndStoreShotChartScrapedForPlayer(db: Db, playerId: string, startSeason: int, endSeason: int,
                                                fetch: int -> Fetch, snippet: string -> Snippet,
                                                refused: int -> bool) returns (outcome: Outcome)
    requires db.Valid() && ShotTable(db.constraint)
    modifies db
    ensures db.Valid()
    ensures (outcome, db.table) == Run(old(db.table), db.constraint, playerId, startSeason, endSeason, fetch, snippet, refused)
  {
    ShotChartUpdateList();
    ShotChartUpdateColumns();
    var season := startSeason;
    while season >= endSeason
      invariant db.Valid()
      invariant Run(old(db.table), db.constraint, playerId, startSeason, endSeason, fetch, snippet, refused)
             == Run(db.table, db.constraint, playerId, season, endSeason, fetch, snippet, refused)
      decreases season - endSeason + 1
    {
      ghost var before := db.table;
      if playerId == "" {
        return Panicked;
      }
      var resp := fetch(season);
      if resp.RequestError? {
        return Failed(season, Request);
      }
      if resp.HttpError? {
        return Failed(season, Http);
      }
      if resp.status != StatusOK {
        season := season - 1;
        continue;
      }
      if resp.body.ReadError? {
        return Failed(season, Read);
      }
      if resp.body.doc.None? {
        return Failed(season, NameParse);
      }
      var playerName := resp.body.nameText;
      if playerName == "" {
        playerName := playerId;
      }
      var shotHtml := ExtractCommentedShotChart(resp.body.doc);
      if shotHtml == "" {
        season := season - 1;
        continue;
      }
      var wrapper := snippet(shotHtml);
      if wrapper.Unparsable? {
        return Failed(season, SnippetParse);
      }
      if wrapper.NoWrapper? {
        season := season - 1;
        continue;
      }
      var shotsToUpsert := CollectShots(playerId, playerName, season, wrapper.tooltips);
      if shotsToUpsert.None? {
        return Panicked;
      }
      if |shotsToUpsert.value| > 0 {
        RowsHaveCols(shotsToUpsert.value, db.constraint);
        var ok := db.Create(ShotChartConflict, ShotChartUpdates, Rows(shotsToUpsert.value), refused(season));
        if !ok {
          return Failed(season, Upsert);
        }
      }
      season := season - 1;
    }
    return Done;
  }

  // ---------------------------------------------------------------------
  // What a call does to the table.

  /** An empty player id panics on `playerID[:1]` before any request, as
      soon as the range holds one season. */
  lemma EmptyPlayerIdPanics(t: Table, constraint: seq<Col>, startSeason: int, endSeason: int,
                            fetch: int -> Fetch, snippet: string -> Snippet, refused: int -> bool)
    requires ShotTable(constraint)
    ensures Run(t, constraint, "", startSeason, endSeason, fetch, snippet, refused) ==
      if startSeason < endSeason then (Done, t) else (Panicked, t)
  {
  }

  /** An error names a season of the range. */
  lemma FailureSeasonInRange(t: Table, constraint: seq<Col>, playerId: string,
                             season: int, endSeason: int, fetch: int -> Fetch,
                             snippet: string -> Snippet, refused: int -> bool)
    requires ShotTable(constraint)
    ensures var r := Run(t, constraint, playerId, season, endSeason, fetch, snippet, refused);
      r.0.Failed? ==> endSeason <= r.0.season <= season
  {
    var step := SeasonSteps(constraint, playerId, fetch, snippet, refused);
    forall t': Table, s: int
      ensures FailsAt(step(t', s), s)
    {
      SeasonStepFailsAt(t', constraint, playerId, s, fetch, snippet, refused);
    }
    RunSeasonsFailureInRange(t, season, endSeason, step);
  }

  /** A turn that fails names its own season. */
  predicate FailsAt(step: Step, season: int) {
    step.Stop? && step.outcome.Failed? ==> step.outcome.season == season
  }

  lemma {:induction false} RunSeasonsFailureInRange(t: Table, season: int, endSeason: int, step: (Table, int) -> Step)
    requires forall t': Table, s: int :: FailsAt(step(t', s), s)
    ensures var r := RunSeasons(t, season, endSeason, step);
      r.0.Failed? ==> endSeason <= r.0.season <= season
    decreases season - endSeason + 1
  {
    if season >= endSeason {
      assert FailsAt(step(t, season), season);
      if step(t, season).Next? {
        RunSeasonsFailureInRange(step(t, season).table, season - 1, endSeason, step);
      }
    }
  }

  lemma SeasonStepFailsAt(t: Table, constraint: seq<Col>, playerId: string, season: int,
                          fetch: int -> Fetch, snippet: string -> Snippet, refused: int -> bool)
    requires ShotTable(constraint)
    ensures FailsAt(SeasonStep(t, constraint, playerId, season, fetch, snippet, refused), season)
  {
  }

  /** A season's statement only adds and updates rows: every stored key
      survives the call. */
  lemma StoreKeepsKeys(t: Table, constraint: seq<Col>, season: int, batch: seq<ShotChart>, refused: bool)
    requires ShotTable(constraint)
    ensures t.rows.Keys <= Store(t, constraint, season, batch, refused).table.rows.Keys
  {
    RowsHaveCols(batch, constraint);
    var rows := Rows(batch);
    if Statement(t, constraint, ShotChartConflict, ShotChartUpdates, rows, refused).Some? {
      UpsertAllEffect(t, constraint, ShotChartUpdates, rows);
    }
  }

  lemma {:induction false} RunKeepsKeys(t: Table, constraint: seq<Col>, playerId: string,
                                        season: int, endSeason: int, fetch: int -> Fetch,
                                        snippet: string -> Snippet, refused: int -> bool)
    requires ShotTable(constraint)
    ensures t.rows.Keys <= Run(t, constraint, playerId, season, endSeason, fetch, snippet, refused).1.rows.Keys
    decreases season - endSeason + 1
  {
    if season >= endSeason {
      var step := SeasonStep(t, constraint, playerId, season, fetch, snippet, refused);
      SeasonStepKeepsKeys(t, constraint, playerId, season, fetch, snippet, refused);
      if step.Next? {
        RunKeepsKeys(step.table, constraint, playerId, season - 1, endSeason, fetch, snippet, refused);
      }
    }
  }

  lemma SeasonStepKeepsKeys(t: Table, constraint: seq<Col>, playerId: string, season: int,
                            fetch: int -> Fetch, snippet: string -> Snippet, refused: int -> bool)
    requires ShotTable(constraint)
    ensures t.rows.Keys <= SeasonStep(t, constraint, playerId, season, fetch, snippet, refused).table.rows.Keys
  {
    var step := SeasonStep(t, constraint, playerId, season, fetch, snippet, refused);
    if step.table != t {
      var f := fetch(season);
      var name := if f.body.nameText == "" then playerId else f.body.nameText;
      var tips := snippet(Extracted(f.body.doc)).tooltips;
      var batch := Batch(playerId, name, season, tips).value;
      assert step == Store(t, constraint, season, batch, refused(season));
      StoreKeepsKeys(t, constraint, season, batch, refused(season));
    }
  }

  /** Against the unique index the model declares (`player_id` alone) the
      seven-column conflict target is refused, so no call ever changes the
      table, and every season that reaches the upsert ends the call with an
      error. */
  lemma {:induction false} DeclaredIndexNeverWrites(t: Table, playerId: string, season: int, endSeason: int,
                                                    fetch: int -> Fetch, snippet: string -> Snippet,
                                                    refused: int -> bool)
    requires ShotTable(ShotChartDeclaredIndex)
    ensures Run(t, ShotChartDeclaredIndex, playerId, season, endSeason, fetch, snippet, refused).1 == t
    decreases season - endSeason + 1
  {
    ConflictTargetsAgainstIndexes();
    if season >= endSeason {
      var step := SeasonStep(t, ShotChartDeclaredIndex, playerId, season, fetch, snippet, refused);
      assert step.table == t;
      if step.Next? {
        DeclaredIndexNeverWrites(t, playerId, season - 1, endSeason, fetch, snippet, refused);
      }
    }
  }

  /** Against a unique constraint on the seven conflict columns, in their
      order, the deduplicated batches are never refused for repeated keys: a
      call fails at the upsert only when the database refuses for a reason of
      its own. */
  lemma {:induction false} ConflictIndexAcceptsBatches(t: Table, playerId: string, season: int, endSeason: int,
                                                       fetch: int -> Fetch, snippet: string -> Snippet,
                                                       refused: int -> bool)
    requires ShotTable(ShotChartConflict)
    ensures var r := Run(t, ShotChartConflict, playerId, season, endSeason, fetch, snippet, refused);
      r.0.Failed? && r.0.stage == Upsert ==> refused(r.0.season)
    decreases season - endSeason + 1
  {
    if season >= endSeason {
      var step := SeasonStep(t, ShotChartConflict, playerId, season, fetch, snippet, refused);
      SeasonStepAccepts(t, playerId, season, fetch, snippet, refused);
      if step.Next? {
        ConflictIndexAcceptsBatches(step.table, playerId, season - 1, endSeason, fetch, snippet, refused);
      }
    }
  }

  lemma SeasonStepAccepts(t: Table, playerId: string, season: int,
                          fetch: int -> Fetch, snippet: string -> Snippet, refused: int -> bool)
    requires ShotTable(ShotChartConflict)
    ensures var step := SeasonStep(t, ShotChartConflict, playerId, season, fetch, snippet, refused);
      step == Stop(Failed(season, Upsert), t) ==> refused(season)
  {
    var step := SeasonStep(t, ShotChartConflict, playerId, season, fetch, snippet, refused);
    if step == Stop(Failed(season, Upsert), t) {
      var f := fetch(season);
      var name := if f.body.nameText == "" then playerId else f.body.nameText;
      var tips := snippet(Extracted(f.body.doc)).tooltips;
      var rs := ParseAll(playerId, name, season, ParseTooltips(tips)).value;
      DedupBatchHasDistinctKeys(rs);
      assert step == Store(t, ShotChartConflict, season, Dedup(rs, ShotKey), refused(season));
    }
  }
}
