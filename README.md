# NBA_Go: the scrapers, loaders, import loops and list endpoints in Dafny

NBA_Go is a Go service that fills a database with NBA player statistics and
serves them over HTTP. It gets the statistics in two ways:

- by scraping Basketball-Reference pages: shot charts, season totals and
  advanced stats;
- by calling a public JSON API.

This project models the core of that service and proves properties of the
model:

- **Shot charts.** The shot-chart scraper finds the chart that the page
  hides inside an HTML comment (`extractCommentedShotChart`). It parses each
  tooltip into a shot (`parsePx` and the tooltip closure), drops shots that
  repeat the seven identity fields, and upserts each season's batch.
- **Stats tables.** The totals and advanced scrapers read a stats table the
  same way:
  - they take the `data-stat` header list;
  - they zip each row's cells to those headers;
  - they use the last `data-append-csv` value as the player id;
  - they pick between the old and new column names of the page;
  - they upsert the whole batch in one statement.

  The advanced scraper also has a fallback for a table hidden inside a
  comment.
- **API loaders.** The JSON API loaders upsert one record at a time. They
  log a failure and go on.
- **Upserts.** gorm's `OnConflict` upsert is modelled as a transformation of
  a keyed table, with the database's unique constraint as a parameter.
- **Import loops.** The four loops of `import.go` walk the seasons 2017 to
  2022. After each season they pause for 1100ms plus `SleepWithJitter(base)`.
- **Jitter.** `SleepWithJitter` is modelled in int64 durations with Go's
  truncating division.
- **List endpoints.** The two list handlers cover:
  - how Fiber reads query parameters (`Query`, `QueryInt`, `QueryBool`);
  - the filters;
  - the `ORDER BY` text;
  - the offset and the page count, in int64.
- **Standalone scripts.** There are three: `scrape_shotchart.go`,
  `scrape_totals.go` and `isolated_scrape.go`. Each script's output is
  modelled as the CSV lines it writes, or an exit.

The model uses each piece of Go's standard library that the source depends
on, written out with Go's behaviour:

- `strconv.Atoi` with its overflow saturation;
- `strings.Split`, `SplitN`, `Fields`, `TrimSpace`, `TrimSuffix` and
  `Contains`;
- `time.Parse("Jan 2, 2006")`;
- int64 wrap-around and truncating division, except for the decrement of
  the two shot-chart season loops (see "## Left out").

HTTP, HTML parsing, CSS selection, JSON decoding, randomness and the
database's own failures are parameters of the operations: a function from
URL to page outcome, a sequence of random draws, a "refused" predicate.
Each operation is proved equal to a specification function, and the
properties are proved about those functions.

Where the code and the repository's comments or documentation disagree, the
model follows the code:

- A malformed tooltip panics (index out of range) and aborts the whole
  call. The closure does not skip it.
- The advanced scraper's comment fallback reads `FirstChild.Data` of a
  comment node. An HTML parser gives comment nodes no children, so the
  fallback dereferences nil and panics.
- `PlayerShotChart` declares its unique index on `player_id` alone. Every
  shot-chart writer names a seven-column conflict target, and no index
  matches it. Both targets are modelled: the declared index
  (`DeclaredIndexNeverWrites`) and a matching one
  (`ConflictIndexAcceptsBatches`).
- The regular-season advanced API loader uses a three-column conflict
  target. The declared index has four columns.
- The comments in `import.go` speak of seasons 2017–2025 and 2023–2025. The
  loops run from 2017 to 2022.

## Model

| member | source | states |
|---|---|---|
| CommentExtractor.FirstChart | services/player_shot_chart_scrape_service.go:210-218 | the position found holds a chart comment, and no earlier node does |
| CommentExtractor.ChartCommentIsNotEmpty | services/player_shot_chart_scrape_service.go:211-212 | a chart comment's body is never "", so `found == ""` means nothing was found yet |
| CommentExtractor.ChartTextEmptyIffNone | services/player_shot_chart_scrape_service.go:202-221 | the extractor returns "" exactly when no chart comment exists |
| CommentExtractor.ChartTextAppend | services/player_shot_chart_scrape_service.go:215 | once a node list yields a chart comment, later nodes are never looked at |
| CommentExtractor.FirstChartAt | services/player_shot_chart_scrape_service.go:210-218 | the first chart comment is at the index before which none occurs |
| CommentExtractor.PreOrderAllAppend | services/player_shot_chart_scrape_service.go:215-217 | pre-order of siblings is the concatenation of each subtree's pre-order |
| CommentExtractor.LaterSiblingsIgnored | services/player_shot_chart_scrape_service.go:215-217 | a chart comment inside an earlier sibling wins over any in later siblings |
| CommentExtractor.Walker.constructor | services/player_shot_chart_scrape_service.go:208 | `found` starts empty |
| CommentExtractor.Walker.Walk | services/player_shot_chart_scrape_service.go:210-218 | the recursive walk leaves in `found` the body of the first chart comment of the subtree in pre-order |
| CommentExtractor.VisitNextChild | services/player_shot_chart_scrape_service.go:215-217 | one turn of the sibling loop adds the next child's subtree to what has been searched |
| CommentExtractor.WalkStops | services/player_shot_chart_scrape_service.go:215 | leaving the sibling loop, on a match or after the last child, the walk has the subtree's answer |
| CommentExtractor.ExtractCommentedShotChart | services/player_shot_chart_scrape_service.go:202-221 | "" for a page that does not parse, else the first chart comment's body |
| Tooltip.ParseInt | scrape_shotchart.go:223-226 | the script's `parseInt` always yields an int64 |
| Tooltip.DigitsArePlain | services/player_shot_chart_scrape_service.go:137 | a printed natural is a non-empty digit run with none of the tooltip's separators |
| Tooltip.ParseIntOfItoa | scrape_shotchart.go:223-226 | `parseInt` reads a printed int64 back |
| Tooltip.PxOfDigits | services/player_shot_chart_scrape_service.go:224-228 | `parsePx("name:<digits>px")` coerces exactly the digits |
| Tooltip.StyleParts | services/player_shot_chart_scrape_service.go:96 | a style "top:Tpx;left:Lpx;" splits on ';' into the two declarations and a trailing "" |
| Tooltip.PositionOfStyle | services/player_shot_chart_scrape_service.go:95-98 | top is style part 0 and left part 1 |
| Tooltip.HeaderSegments | services/player_shot_chart_scrape_service.go:106 | `SplitN(header, ", ", 3)` yields month and day, year, and the game segment |
| Tooltip.ThreeSegments | services/player_shot_chart_scrape_service.go:106 | "a, b, c" splits into three segments when a and b hold no comma |
| Tooltip.MatchupOfGame | services/player_shot_chart_scrape_service.go:110-117 | " at " and " vs " games both yield team and opponent |
| Tooltip.HeaderRoundTrip | services/player_shot_chart_scrape_service.go:105-117 | the service reads date (glued with a bare comma), team and opponent back from a well-formed header |
| Tooltip.HeaderRoundTripScript | scrape_shotchart.go:104-115 | the script reads the same date and opponent but takes the whole game segment as the team |
| Tooltip.ClockRoundTrip | services/player_shot_chart_scrape_service.go:120-122 | quarter is before the first comma, and the time is the first word after it |
| Tooltip.AttemptRoundTrip | services/player_shot_chart_scrape_service.go:125-128 | made iff the first word is "Made"; the type is the second word; the distance is the coerced second-to-last word |
| Tooltip.ScoreRoundTrip | services/player_shot_chart_scrape_service.go:131-133 | the two scores are the last word split on '-' |
| Tooltip.TipLines | services/player_shot_chart_scrape_service.go:102 | a well-formed tip splits on "<br>" into exactly its four lines |
| Tooltip.StyleReadsBack | services/player_shot_chart_scrape_service.go:95-98 | top and left read back under `mustAtoi` and under the script's `parseInt` |
| Tooltip.AttemptReadsBack | services/player_shot_chart_scrape_service.go:125-128 | the distance reads back under both coercions |
| Tooltip.ScoreReadsBack | services/player_shot_chart_scrape_service.go:131-133 | both scores read back under both coercions |
| Tooltip.TooltipRoundTrip | services/player_shot_chart_scrape_service.go:95-134 | parsing a well-formed tooltip gives back every field; lead iff team score is strictly higher |
| Tooltip.TooltipRoundTripScript | scrape_shotchart.go:94-133 | the script's parse of the same tooltip differs only in the team |
| Tooltip.HeaderExample | services/player_shot_chart_scrape_service.go:105-117 | "Oct 20, 2021, CHI at DET" gives date "Oct 20,2021", team CHI, opponent DET |
| Tooltip.HeaderExampleScript | scrape_shotchart.go:104-115 | the script reads that header with team "CHI at DET" |
| Tooltip.PxOfPaddedDigits | scrape_shotchart.go:218-226 | with a blank after the colon, `mustAtoi` reads 0 while `parseInt` reads the number |
| Tooltip.PxExample | services/player_shot_chart_scrape_service.go:224-228 | "top:120px" is 120; "top: 120px" is 0 for the service and 120 for the script |
| Tooltip.ParseIntOfWord | scrape_shotchart.go:223-226 | on blank-free text `parseInt` and `mustAtoi` agree |
| Tooltip.AttemptCoercionsAgree | scrape_shotchart.go:123-126 | the attempt line parses identically under both coercions |
| Tooltip.ScoreCoercionsAgree | scrape_shotchart.go:129-132 | the score line parses identically under both coercions |
| Tooltip.ScriptAgreesWithService | scrape_shotchart.go:93-133 | the script panics on exactly the tooltips the service panics on; otherwise they differ only in position, team and opponent |
| Tooltip.PositionsAgree | scrape_shotchart.go:98-100 | position parsing fails under one coercion iff under the other |
| Tooltip.HeadersAgree | scrape_shotchart.go:104-105 | both header readings fail together and agree on the date |
| Tooltip.AssembleAgrees | scrape_shotchart.go:135-152 | assembling with another position and game changes only those fields |
| Tooltip.ItoaHasNoBar | services/player_shot_chart_scrape_service.go:137-138 | a printed integer holds no '\|' |
| Tooltip.DedupKeyFields | services/player_shot_chart_scrape_service.go:137-138 | the `uniqueShots` key splits back into its seven fields when the texts hold no '\|' |
| Tooltip.DedupKeyInjective | services/player_shot_chart_scrape_service.go:137-138 | equal keys mean equal identity fields |
| KeyedDedup.FirstWithKey | services/player_shot_chart_scrape_service.go:141-144 | the first record with a key has that key, and no earlier one does |
| KeyedDedup.KeySetSnoc | services/player_shot_chart_scrape_service.go:144 | appending a record adds its key to the seen set |
| KeyedDedup.DedupKeySet | services/player_shot_chart_scrape_service.go:141-144 | the dedup keeps every key and no other |
| KeyedDedup.DedupSnoc | services/player_shot_chart_scrape_service.go:141-167 | one more record is kept iff its key was not seen |
| KeyedDedup.DedupKeysDistinct | services/player_shot_chart_scrape_service.go:141-144 | no two kept records share a key |
| KeyedDedup.FirstWithKeyAt | services/player_shot_chart_scrape_service.go:141-144 | characterises the first position of a key |
| KeyedDedup.FirstWithKeyOfPrefix | services/player_shot_chart_scrape_service.go:141-144 | appending does not move the first record of a seen key |
| KeyedDedup.FirstWithKeyOfLast | services/player_shot_chart_scrape_service.go:141-144 | a new key's first record is the appended one |
| KeyedDedup.KeepsFirstSnoc | services/player_shot_chart_scrape_service.go:141-144 | keeping-the-first survives one more record |
| KeyedDedup.DedupKeepsFirst | services/player_shot_chart_scrape_service.go:141-144 | each kept record is the first in document order with its key |
| KeyedDedup.DedupKeepsOrder | services/player_shot_chart_scrape_service.go:141-167 | the kept records stay in document order: one kept before another has its key's first occurrence earlier in the input |
| KeyedDedup.KeepIfNew | services/player_shot_chart_scrape_service.go:141-167 | one turn of the loop keeps the dedup and seen set equal to their specifications |
| ShotChartScrape.Rows | services/player_shot_chart_scrape_service.go:186 | one row per record, in order |
| ShotChartScrape.RowsHaveCols | services/player_shot_chart_scrape_service.go:176-186 | every row has the constraint's columns |
| ShotChartScrape.ConflictKeyDeterminesShotKey | services/player_shot_chart_scrape_service.go:136-138 | equal seven-column conflict keys mean equal dedup keys |
| ShotChartScrape.DistinctShotKeysAreDistinctConflictKeys | services/player_shot_chart_scrape_service.go:176-180 | distinct dedup keys give distinct conflict keys |
| ShotChartScrape.ShotDedup | services/player_shot_chart_scrape_service.go:136-144 | the season's dedup keeps the first shot of each key, only that one, and drops no key |
| ShotChartScrape.DedupBatchHasDistinctKeys | services/player_shot_chart_scrape_service.go:171-186 | a deduplicated batch never repeats a conflict key |
| ShotChartScrape.ParseAllPrefixFails | services/player_shot_chart_scrape_service.go:93-168 | a panic in a prefix of the tooltips panics the whole season |
| ShotChartScrape.ParseAllStep | services/player_shot_chart_scrape_service.go:93-168 | one more tooltip parsed appends its record or panics |
| ShotChartScrape.CollectShots | services/player_shot_chart_scrape_service.go:87-168 | the `Each` loop yields the deduplicated batch, or a panic |
| ShotChartScrape.FetchAndStoreShotChartScrapedForPlayer | services/player_shot_chart_scrape_service.go:22-198 | the season loop's outcome and table are those of the specification, from the newest season down |
| ShotChartScrape.EmptyPlayerIdPanics | services/player_shot_chart_scrape_service.go:28-31 | an empty player id panics on `playerID[:1]` when the range holds a season, and returns nil otherwise |
| ShotChartScrape.FailureSeasonInRange | services/player_shot_chart_scrape_service.go:28-57 | an error names a season of the range |
| ShotChartScrape.RunSeasonsFailureInRange | services/player_shot_chart_scrape_service.go:28 | a loop whose turns fail only at their own season fails within the range |
| ShotChartScrape.SeasonStepFailsAt | services/player_shot_chart_scrape_service.go:35-57 | a season's error names that season |
| ShotChartScrape.StoreKeepsKeys | services/player_shot_chart_scrape_service.go:170-194 | a season's statement deletes no row |
| ShotChartScrape.RunKeepsKeys | services/player_shot_chart_scrape_service.go:28-196 | a call deletes no row |
| ShotChartScrape.SeasonStepKeepsKeys | services/player_shot_chart_scrape_service.go:28-196 | one season deletes no row |
| ShotChartScrape.DeclaredIndexNeverWrites | models/player_shot_chart.go:9 | against the declared `player_id` index the seven-column target is refused and the table never changes |
| ShotChartScrape.ConflictIndexAcceptsBatches | services/player_shot_chart_scrape_service.go:176-189 | against a seven-column index, an upsert error comes only from the database's own refusal |
| ShotChartScrape.SeasonStepAccepts | services/player_shot_chart_scrape_service.go:171-189 | a season fails at the upsert only when the database refuses |
| Records.ShotChartRowColumns | models/player_shot_chart.go:6-24 | a shot-chart row has exactly the table's columns |
| Records.ShotChartRowRoundTrip | models/player_shot_chart.go:6-24 | a record written as a row reads back as the same record |
| Records.ShotChartKey | services/player_shot_chart_scrape_service.go:177-179 | the conflict key is the seven identity fields in target order |
| Records.AdvancedRowColumns | models/player_advanced_stat.go:9-46 | an advanced row has exactly the table's columns |
| Records.AdvancedKey | services/player_advanced_playoffs_scrape_service.go:191-196 | the four-column conflict key of an advanced record |
| Records.AdvancedApiKey | services/player_advanced_service.go:33 | the three-column API key of an advanced record |
| Records.TotalRowColumns | models/player_total_stat.go:9-49 | a totals row has exactly the table's columns |
| Records.TotalKey | services/player_total_scrape_service.go:176-181 | the four-column conflict key of a totals record |
| Records.ShotChartUpdateList | services/player_shot_chart_scrape_service.go:181-185 | nine updated columns, disjoint from the conflict target |
| Records.ShotChartUpdateColumns | services/player_shot_chart_service.go:52-57 | the id is neither updated nor a key; updates and key are table columns |
| Records.AdvancedUpdateList | services/player_advanced_playoffs_scrape_service.go:197-204 | 26 updated columns, disjoint from the conflict target |
| Records.AdvancedUpdateColumns | services/player_advanced_playoffs_scrape_service.go:197-204 | `external_id` is overwritten and `games_started` is not |
| Records.AdvancedUpdatesHaveNoId | services/player_advanced_playoffs_scrape_service.go:197-204 | the id is never overwritten |
| Records.AdvancedKeysHaveNoId | models/player_advanced_stat.go:12-41 | the id is part of no advanced key |
| Records.AdvancedUpdatesInTable | services/player_advanced_playoffs_scrape_service.go:197-204 | every updated column is a table column |
| Records.TotalScrapeUpdateList | services/player_total_scrape_service.go:182-193 | 29 updated columns, disjoint from the conflict target |
| Records.TotalScrapeUpdateColumns | services/player_total_scrape_service.go:183 | `external_id` is overwritten; the id is not |
| Records.TotalIndexHasNoId | models/player_total_stat.go:13-44 | the id is not part of the totals index |
| Records.TotalScrapeUpdatesInTable | services/player_total_scrape_service.go:182-193 | every updated column is a table column |
| Records.TotalPlayoffsUpdateList | services/player_total_playoffs_service.go:36-43 | 28 updated columns, disjoint from the conflict target |
| Records.TotalPlayoffsUpdateColumns | services/player_total_playoffs_service.go:36-43 | neither `external_id` nor the id is overwritten |
| Records.TotalPlayoffsUpdatesInTable | services/player_total_playoffs_service.go:36-43 | every updated column is a table column |
| Records.ConflictTargetsAgainstIndexes | services/player_advanced_service.go:33 | the four-column targets match their indexes; the shot-chart and regular-season API targets match none |
| Database.UpsertFrame | services/player_shot_chart_service.go:42-58 | an upsert touches only the proposed key, which is present afterwards |
| Database.UpsertInserts | services/player_shot_chart_service.go:42-58 | a new key inserts the row whole with a fresh id |
| Database.UpsertUpdates | services/player_shot_chart_service.go:52-57 | a stored key takes the proposed values in the update list only |
| Database.ProjectAssign | services/player_shot_chart_service.go:52-57 | an update keeps the row's key |
| Database.UpsertKeepsValid | services/player_shot_chart_service.go:42-58 | an upsert keeps rows filed under their own keys with distinct ids |
| Database.AssignIdempotent | services/player_shot_chart_service.go:52-57 | applying an update twice is applying it once |
| Database.UpsertIdempotent | services/player_shot_chart_service.go:42-58 | repeating an upsert changes nothing |
| Database.UpsertAllEffect | services/player_total_scrape_service.go:175-194 | with distinct keys a batch upserts each row: exactly its keys are touched and nothing else changes |
| Database.BatchTail | services/player_total_scrape_service.go:175-194 | the tail of a distinct-key batch is a distinct-key batch without the head's key |
| Database.UpsertAllKeepsValid | services/player_total_scrape_service.go:175-194 | a batch keeps the table's invariant |
| Database.Db.constructor | models/player_total_stat.go:9-49 | an empty table under a unique constraint |
| Database.Db.Create | services/player_total_scrape_service.go:175-198 | the statement succeeds iff not refused, the target matches the constraint and the keys are distinct; it applies in full or not at all |
| TableMapper.CollectHeaders | services/player_total_scrape_service.go:63-69 | the header loop yields the non-empty `data-stat` values then "player-additional" |
| TableMapper.DataStatsAreAttributes | services/player_total_scrape_service.go:64-68 | a header is exactly a non-empty `data-stat` of some head cell |
| TableMapper.HeadersShape | services/player_total_scrape_service.go:63-69 | the list ends with the player column and has at most one entry per head cell plus it |
| TableMapper.MapCells | services/player_total_scrape_service.go:81-92 | the cell loop yields the field map and last id, or panics when a row has more cells than headers |
| TableMapper.RowFieldsLookup | services/player_total_scrape_service.go:85-88 | under each header is the trimmed text of the last cell with that header |
| TableMapper.RowFieldsKeys | services/player_total_scrape_service.go:85-88 | the field map's keys are the headers of the row's cells |
| TableMapper.LastAppendIsLast | services/player_total_scrape_service.go:89-91 | the player id is the last `data-append-csv` value present |
| TableMapper.LastAppendOfNone | services/player_total_scrape_service.go:83-97 | with no attribute the id is "" and the row is skipped |
| TableMapper.PickIntChoice | services/player_total_scrape_service.go:101-104 | the primary column unless it coerces to 0; 0 only when both do |
| TableMapper.MustAtoiOfEmpty | services/helpers.go:6-9 | a missing column coerces to 0 |
| TableMapper.PickTextChoice | services/player_total_scrape_service.go:107-110 | the primary text unless empty; "" only when both are |
| TableMapper.RecordsStep | services/player_total_scrape_service.go:76-168 | one more row appends its record, skips it, or panics |
| TableMapper.RecordsPrefixPanics | services/player_total_scrape_service.go:76-168 | a panic in a prefix panics the whole table |
| TableMapper.MapRow | services/player_total_scrape_service.go:77-98 | one turn of the row loop: skipped, built, or panicked |
| TableMapper.CollectRecords | services/player_total_scrape_service.go:76-168 | the row loop yields the specification's records |
| TableMapper.RecordsPanicIff | services/player_total_scrape_service.go:85-88 | the table fails exactly when some row panics |
| TableMapper.RecordsSatisfy | services/player_total_scrape_service.go:94-98 | at most one record per row, each built with a non-empty player id |
| TableMapper.TokenImpliesSubstring | services/player_advanced_playoffs_scrape_service.go:107 | whatever `HasClass("thead")` skips, `Contains(class, "thead")` skips too |
| TableMapper.TokenInside | services/player_advanced_playoffs_scrape_service.go:107 | a class token occurs in the attribute text |
| TableMapper.ContainsAt | services/player_total_scrape_service.go:77 | an occurrence means `strings.Contains` |
| TableMapper.TestsDisagree | services/player_total_scrape_service.go:77 | "theadless" is skipped by the totals scrapers and kept by the advanced ones |
| TableMapper.NoTokenIn | services/player_advanced_playoffs_scrape_service.go:107 | "theadless" has no "thead" class token |
| TotalScrape.UrlForSeasonInjective | services/player_total_scrape_service.go:19-30 | two calls fetch the same page only for the same season and kind |
| TotalScrape.NewLayoutReads | services/player_total_scrape_service.go:100-128 | a new-layout page reads id, name, team and game counts from the new names |
| TotalScrape.RecordsOfScrape | services/player_total_scrape_service.go:94-163 | every record carries the call's season and flag and a non-empty id, at most one per row |
| TotalScrape.TotalRows | services/player_total_scrape_service.go:194 | one row per record, in order |
| TotalScrape.TotalRowsHaveCols | services/player_total_scrape_service.go:175-194 | every row has the constraint's columns |
| TotalScrape.FetchAndStorePlayerTotalScrapedStats | services/player_total_scrape_service.go:34-207 | outcome and table are those of the specification |
| TotalScrape.FailureWritesNothing | services/player_total_scrape_service.go:34-60 | a call that does not return nil leaves the table as it was |
| TotalScrape.StoreOutcome | services/player_total_scrape_service.go:170-203 | stored iff empty or accepted; then each record is upserted; otherwise an upsert error and no change |
| TotalScrape.RepeatedIdentityFails | services/player_total_scrape_service.go:175-198 | two records with the same player, season, team and flag make the statement fail |
| TotalScrape.TotalConflictInTable | models/player_total_stat.go:13-44 | the conflict target names totals columns without the id |
| AdvancedScrape.UrlForAdvSeasonInjective | services/player_advanced_playoffs_scrape_service.go:19-30 | two calls fetch the same page only for the same season and kind |
| AdvancedScrape.Comments | services/player_advanced_playoffs_scrape_service.go:70-75 | the comment filter keeps at most the wrapper's nodes |
| AdvancedScrape.CommentsAreComments | services/player_advanced_playoffs_scrape_service.go:70-77 | the filter keeps only comment nodes, and finds one iff the wrapper holds one |
| AdvancedScrape.DirectTableWins | services/player_advanced_playoffs_scrape_service.go:68-69 | a table under the wrapper is used as it is |
| AdvancedScrape.CommentFallbackPanics | services/player_advanced_playoffs_scrape_service.go:77-81 | the fallback dereferences a nil `FirstChild` and panics whenever it is reached with a comment |
| AdvancedScrape.FoundTableIsSelected | services/player_advanced_playoffs_scrape_service.go:68-90 | the lookup only returns a table a selector found |
| AdvancedScrape.FindTable | services/player_advanced_playoffs_scrape_service.go:57-90 | the lookup method agrees with its specification |
| AdvancedScrape.RecordsOfScrape | services/player_advanced_playoffs_scrape_service.go:121-179 | every record carries the call's season and flag, a non-empty id and no games-started count |
| AdvancedScrape.NewLayoutReads | services/player_advanced_playoffs_scrape_service.go:127-146 | a new-layout page reads id, name, team and games from the new names |
| AdvancedScrape.AdvancedRows | services/player_advanced_playoffs_scrape_service.go:205 | one row per record, in order |
| AdvancedScrape.AdvancedRowsHaveCols | services/player_advanced_playoffs_scrape_service.go:190-205 | every row has the constraint's columns |
| AdvancedScrape.FetchAndStorePlayerAdvancedScrapedStats | services/player_advanced_playoffs_scrape_service.go:34-216 | outcome and table are those of the specification |
| AdvancedScrape.StoreOutcome | services/player_advanced_playoffs_scrape_service.go:186-212 | stored iff empty or accepted; then each record is upserted; otherwise an upsert error and no change |
| AdvancedScrape.FailureWritesNothing | services/player_advanced_playoffs_scrape_service.go:34-90 | a call that does not return nil leaves the table as it was |
| ApiLoaders.UpsertOneEffect | services/player_advanced_service.go:32-42 | a single-record statement is one upsert iff accepted and not refused |
| ApiLoaders.UpsertEachRejected | services/player_advanced_service.go:28-49 | with a target the constraint refuses, nothing is written |
| ApiLoaders.UpsertAllLast | services/player_advanced_playoffs_service.go:28-50 | the last row of a batch is applied last |
| ApiLoaders.UpsertEachSequential | services/player_advanced_playoffs_service.go:28-50 | accepted and never refused, the records land as a batch would, repeated keys updating earlier rows |
| ApiLoaders.UpsertEachKeys | services/player_total_playoffs_service.go:30-49 | the stored keys become the old ones plus those of records not refused |
| ApiLoaders.WrittenKeysLast | services/player_total_playoffs_service.go:30-49 | the written keys of one more record |
| ApiLoaders.RowsOf | services/player_advanced_service.go:28-31 | each record with the loader's overrides, in order |
| ApiLoaders.RowsOfHaveCols | services/player_advanced_service.go:28-42 | every proposed row has the constraint's columns |
| ApiLoaders.LoadRecords | services/player_advanced_service.go:28-51 | the per-record loop agrees with its specification |
| ApiLoaders.LoadOutcome | services/player_advanced_service.go:18-51 | nil iff the records were fetched and decoded; an error writes nothing |
| ApiLoaders.ColumnsCover | models/player_advanced_stat.go:9-46 | a row has the columns of any constraint drawn from its columns |
| ApiLoaders.AdvancedApiUrlInjective | services/player_advanced_service.go:16 | different seasons use different URLs |
| ApiLoaders.AdvancedRowsFit | services/player_advanced_service.go:32-42 | every advanced row fits the constraint |
| ApiLoaders.FetchAndStorePlayerAdvancedStats | services/player_advanced_service.go:14-52 | outcome and table are those of the specification |
| ApiLoaders.AdvancedApiRow | services/player_advanced_service.go:28-33 | the row is keyed on player, the call's season and team, and keeps the decoded flag |
| ApiLoaders.AdvancedApiNeverWrites | services/player_advanced_service.go:32-48 | against the declared four-column index the loader stores nothing |
| ApiLoaders.FetchAndStorePlayerAdvancedPlayoffsStats | services/player_advanced_playoffs_service.go:14-53 | outcome and table are those of the specification |
| ApiLoaders.AdvancedPlayoffsRow | services/player_advanced_playoffs_service.go:28-34 | the row is keyed on player, the call's season, team and the call's flag |
| ApiLoaders.AdvancedPlayoffsKeys | services/player_advanced_playoffs_service.go:28-50 | against the declared index the stored keys are the old ones plus one per decoded record |
| ApiLoaders.AdvancedIndexKey | models/player_advanced_stat.go:12-41 | the index key in field order |
| ApiLoaders.TotalRowsFit | services/player_total_playoffs_service.go:34-44 | every totals row fits the constraint |
| ApiLoaders.FetchAndStorePlayerTotalPlayoffsStats | services/player_total_playoffs_service.go:14-52 | outcome and table are those of the specification |
| ApiLoaders.UpsertOneKeeps | services/player_total_playoffs_service.go:34-44 | a column outside the update list keeps its stored value |
| ApiLoaders.UpsertOneOverwrites | services/player_total_playoffs_service.go:34-44 | a listed column takes the proposed value |
| ApiLoaders.TotalPlayoffsKeepExternalId | services/player_total_playoffs_service.go:36-43 | the playoffs loader keeps the stored `external_id` |
| ApiLoaders.TotalScrapeOverwritesExternalId | services/player_total_scrape_service.go:182-183 | the scraper overwrites `external_id` with the scraped rank |
| ApiLoaders.SeasonOfPrintedDate | services/player_shot_chart_service.go:37-40 | a shot dated "Jan 2, 2006"-style is stored under that year |
| ApiLoaders.SeasonOfUnreadableDate | services/player_shot_chart_service.go:38-40 | a date that does not parse keeps the decoded season |
| ApiLoaders.SeasonFromDateKeepsDate | services/player_shot_chart_service.go:36-40 | only the season is rewritten |
| ApiLoaders.ShotRowsFit | services/player_shot_chart_service.go:42-58 | every shot row fits the constraint |
| ApiLoaders.FetchAndStoreShotChartForPlayer | services/player_shot_chart_service.go:22-68 | outcome and table are those of the specification |
| ApiLoaders.ShotLoadDeclaredIndexNeverWrites | services/player_shot_chart_service.go:42-58 | against the declared `player_id` index nothing is stored |
| ApiLoaders.FetchAndStoreAllPlayerShotCharts | services/player_shot_chart_service.go:73-88 | every id is tried in order, one 1100ms pause is recorded after each player whatever its outcome, and the call returns nil |
| ApiLoaders.AllShotsAppend | services/player_shot_chart_service.go:81-86 | one player's failure does not stop the players after it |
| ApiLoaders.AllShotsSkipsFailedPlayer | services/player_shot_chart_service.go:81-84 | a player whose shots cannot be fetched changes nothing |
| GoTime.LookupFrom | services/player_shot_chart_service.go:38 | a matched month name gives a month number in range |
| GoTime.CutSpace | services/player_shot_chart_service.go:38 | leading blanks are dropped |
| GoTime.GetNum | services/player_shot_chart_service.go:38 | the day field is one or two digits |
| GoTime.ParseFormat | services/player_shot_chart_service.go:38 | printing a valid date in "Jan 2, 2006" and parsing it gives it back |
| GoTime.ParseLoose | services/player_shot_chart_service.go:38 | any case of the month name and any run of blanks parse to the same date |
| GoTime.RejectsDay | services/player_shot_chart_service.go:38 | a day past the month's end is refused |
| GoTime.ParseLooseSteps | services/player_shot_chart_service.go:38 | the stages of a loose parse, for any day 1 to 31 |
| GoTime.ParseSteps | services/player_shot_chart_service.go:38 | the parse stage by stage |
| GoTime.NamesDiffer | services/player_shot_chart_service.go:38 | no two month names are equal up to case |
| GoTime.DayDigits | services/player_shot_chart_service.go:38 | a day prints as digits that read back |
| GoTime.YearDigits | services/player_shot_chart_service.go:38 | a year prints as four digits that read back |
| Strconv.Atoi | services/helpers.go:7 | a parsed value is an int64; an out-of-range one saturates |
| Strconv.MustAtoi | services/helpers.go:6-9 | an int64, and 0 on a syntax error |
| Strconv.ScanDigitsValue | services/helpers.go:7 | the digit loop computes the value exactly and overflows exactly above 64 unsigned bits |
| Strconv.MustAtoiOfDecimal | services/helpers.go:6-9 | a signed digit run parses to its value, saturated |
| Strconv.MustAtoiOfNonDecimal | services/helpers.go:6-9 | short non-numeric text parses to 0 |
| Strconv.MustAtoiOfLeadingNonDigit | services/helpers.go:6-9 | text starting with neither digit nor sign is a syntax error |
| Strconv.NatToDecimal | services/player_shot_chart_scrape_service.go:137 | the digits of n, without leading zeros |
| Strconv.Itoa | services/player_shot_chart_scrape_service.go:137 | a printed integer is an optionally signed digit run |
| Strconv.MustAtoiOfItoa | scrape_shotchart.go:137-146 | formatting then parsing an int64 gives it back |
| Strconv.ItoaInjective | services/player_shot_chart_scrape_service.go:137-138 | distinct int64 values print differently |
| Strconv.MustParseFloat | services/helpers.go:12-15 | 0.0 for text that is not a decimal literal |
| Strconv.FloatAgreesWithInt | services/helpers.go:6-15 | on a short signed digit run the two coercions agree |
| GoInt.Clamp64 | services/helpers.go:7 | saturation to the int64 range |
| GoInt.Wrap64 | utils/sleep.go:23 | two's-complement wrap-around into int64 |
| GoInt.SeasonDecrement | services/player_shot_chart_scrape_service.go:28 | `season--` never wraps while the loop's end is above math.MinInt64; at end == math.MinInt64 it wraps from the smallest int64 to the largest and the loop guard holds again |
| GoInt.Quo | controllers/player_advanced_controller.go:159 | Go's `/` truncates toward zero |
| GoStrings.Index | scrape_shotchart.go:111 | the first occurrence of the separator, if any |
| GoStrings.Split | services/player_shot_chart_scrape_service.go:96 | the pieces join back to the input and none holds the separator |
| GoStrings.SplitN | services/player_shot_chart_scrape_service.go:106 | at most n pieces, joined back to the input, the last holding the rest |
| GoStrings.TrimSuffix | services/player_shot_chart_scrape_service.go:227 | the suffix is removed exactly when present |
| GoStrings.TrimSpaceTrims | services/player_total_scrape_service.go:86 | `TrimSpace` drops exactly the leading and trailing white space |
| GoStrings.Fields | services/player_shot_chart_scrape_service.go:122 | non-empty blank-free words whose concatenation is the input without white space |
| GoStrings.FieldsOfJoin | services/player_shot_chart_scrape_service.go:125 | words joined by blanks split back into the same words |
| GoStrings.SplitOfJoin | services/player_shot_chart_scrape_service.go:137 | parts free of the separator come back from a split of their join |
| ShotChartScript.RenderReadsBack | scrape_shotchart.go:135-152 | a written field reads back as the value formatted |
| ShotChartScript.CsvRowColumns | scrape_shotchart.go:135-159 | one field per header, each holding the value its header names |
| ShotChartScript.ScriptShotInRange | scrape_shotchart.go:223-226 | the script's integer fields are int64 |
| ShotChartScript.ParseRowsOnePerTooltip | scrape_shotchart.go:91-153 | exactly one row per tooltip, in order, with no dedup; rows exist iff no tooltip panicked |
| ShotChartScript.ParseRowsPrefixFails | scrape_shotchart.go:93-153 | a panic in a prefix panics the season |
| ShotChartScript.ParseRowsStep | scrape_shotchart.go:93-153 | one more tooltip appends its row or panics |
| ShotChartScript.CollectRows | scrape_shotchart.go:91-153 | the `Each` loop yields the specification's rows |
| ShotChartScript.ScrapeSeasonCsv | scrape_shotchart.go:40-192 | one season: skipped, a file written, or a crash |
| ShotChartScript.SeasonsStep | scrape_shotchart.go:39-193 | a crash ends the program, a written file joins the rest, a skip changes nothing |
| ShotChartScript.ScrapeShotchartMain | scrape_shotchart.go:22-194 | `main` agrees with its specification, including the flag checks |
| ShotChartScript.ScrapeSeasons | scrape_shotchart.go:39-193 | the season loop from start down to end |
| ImportLoops.AdvancedSeason | import.go:15-17 | one advanced season: the outcome and the table are those of the advanced scraper for that season; the table stays consistent with its constraint |
| ImportLoops.TotalSeason | import.go:49-51 | one totals season: the outcome and the table are those of the totals scraper for that season; the table stays consistent with its constraint |
| ImportLoops.ImportAdvanced | import.go:14-21 | the advanced loop ends with the run and the table that `Imports` gives from 2017 with nothing done, and the table stays consistent |
| ImportLoops.ImportTotals | import.go:48-55 | the totals loop ends with the run and the table that `Imports` gives from 2017 with nothing done, and the table stays consistent |
| ImportLoops.ImportPlayerAdvanced | import.go:13-22 | regular-season advanced stats, pausing 1100ms plus the jitter of a 1000ms base |
| ImportLoops.ImportPlayerAdvancedPlayoffs | import.go:25-34 | playoff advanced stats, pausing 1100ms plus the jitter of a 1250ms base |
| ImportLoops.ImportPlayerTotalsScrape | import.go:47-56 | regular-season totals, pausing 1100ms plus the jitter of a 1500ms base |
| ImportLoops.ImportPlayerTotalsPlayoffsScrape | import.go:59-68 | playoff totals, pausing 1100ms plus the jitter of a 1750ms base |
| ImportLoops.VisitFrom | import.go:14-21 | from any point of a loop: without a panic every remaining season up to 2022 is called once, in order, with a pause after each; a panic stops right after its season, which has no pause; errors only for called seasons |
| ImportLoops.ImportsVisitEachSeason | import.go:14-21 | without a panic every season 2017..2022 is called once, in order, with a pause after each; with one, the seasons from 2017 to the one that panicked; errors only for called seasons |
| ImportLoops.ImportPausesBounded | import.go:19-20 | every pause is 1100ms plus a jitter within a quarter of the base |
| ImportLoops.FailedSeasonsWriteNothing | import.go:48-51 | a loop whose every season fails writes nothing and logs every season |
| Jitter.SleepWithJitter | utils/sleep.go:17-25 | defined iff base >= 2ns; without wrap-around the sleep lies in [base - half/2, base + half - half/2) and is positive |
| Jitter.QuoOfNat | utils/sleep.go:18 | Go's division agrees with Euclid's on naturals |
| Jitter.WithinAQuarter | utils/sleep.go:15-23 | the jitter is at most a quarter of the base either way |
| Jitter.EachDurationHasOneDraw | utils/sleep.go:20-23 | every duration of the range comes from exactly one draw |
| Jitter.ImportBases | utils/sleep.go:17-23 | the 1000/1250/1500/1750ms bases sleep within [750,1250), [937.5,1562.5), [1125,1875), [1312.5,2187.5) ms |
| TotalsScript.RowCells | scrape_totals.go:84-91 | the cell loop yields the trimmed texts and the last id |
| TotalsScript.CollectLines | scrape_totals.go:79-96 | the row loop yields the specification's lines |
| TotalsScript.ScrapeTotalsMain | scrape_totals.go:20-117 | `main` agrees with its specification |
| TotalsScript.TextsAt | scrape_totals.go:86-87 | field j is cell j's trimmed text |
| TotalsScript.TextsLength | scrape_totals.go:86-87 | one field per cell |
| TotalsScript.CsvLineShape | scrape_totals.go:80-95 | written iff not a header row and some cell has a non-empty id; one field per cell then the id |
| TotalsScript.CsvLinesAppend | scrape_totals.go:80-96 | lines keep table order |
| TotalsScript.CsvLinesOfOne | scrape_totals.go:80-96 | a single row gives its line or none |
| TotalsScript.AgreesWithService | scrape_totals.go:84-95 | field j is what the service stores under header j, and the last field is its player id |
| TotalsScript.MainWrites | scrape_totals.go:25-117 | season 0 exits; a written file starts with the header line and has at most one line per row |
| TotalsScript.CsvLinesCount | scrape_totals.go:79-96 | at most one line per body row |
| IsolatedScript.CollectHeaders | isolated_scrape.go:44-54 | keep the first 29 head cells' texts, stop, add "Player-additional" |
| IsolatedScript.RowValues | isolated_scrape.go:63-66 | the joined `th` text then each `td` text |
| IsolatedScript.CollectLines | isolated_scrape.go:57-71 | the row loop yields the specification's lines |
| IsolatedScript.IsolatedScrapeMain | isolated_scrape.go:18-90 | `main` agrees with its specification |
| IsolatedScript.ThTextsAt | isolated_scrape.go:47 | header j is head cell j's trimmed text |
| IsolatedScript.ThTextsLength | isolated_scrape.go:45-53 | one text per head cell |
| IsolatedScript.HeaderLineShape | isolated_scrape.go:44-54 | at most 30 headers: the first 29 texts in order, then "Player-additional" |
| IsolatedScript.FirstTdAppendIsFirst | isolated_scrape.go:67-70 | a row is kept iff some `td` has the attribute, and the first one's value is written |
| IsolatedScript.CsvLinesAppend | isolated_scrape.go:58-71 | lines keep table order |
| IsolatedScript.EmptyIdIsWritten | isolated_scrape.go:67-70 | an empty attribute keeps the row here and the totals script skips it |
| IsolatedScript.NoTokenInEmpty | isolated_scrape.go:59 | an empty class is not a header row |
| Listing.Offset | controllers/player_advanced_controller.go:108 | the offset is an int64 |
| Listing.Pages | controllers/player_advanced_controller.go:159 | defined iff the page size is non-zero, and then an int64 |
| Listing.OrderReadsBack | controllers/player_advanced_controller.go:121-124 | column and direction can be read back from the order text |
| Listing.OffsetSteps | controllers/player_advanced_controller.go:106-108 | page 1 starts at row 0 and each page starts `pageSize` rows later |
| Listing.PagesIsCeiling | controllers/player_advanced_controller.go:159 | for a positive page size the page count is the ceiling of total/pageSize |
| Listing.QuotientBounds | controllers/player_advanced_controller.go:159 | Euclid's quotient of naturals lies between 0 and the dividend |
| Listing.MulGrows | controllers/player_advanced_controller.go:159 | multiplying by a positive size does not shrink |
| Listing.ZeroPageSizePanics | controllers/player_advanced_controller.go:159 | page size 0 divides by zero and panics |
| AdvancedController.SortIsWhitelisted | controllers/player_advanced_controller.go:112-124 | only the six mapped columns reach `ORDER BY`; an unknown name sorts by win shares |
| AdvancedController.DefaultSort | controllers/player_advanced_controller.go:11-18 | the column is `win_shares` exactly for "winShares" or an unknown name |
| AdvancedController.EmptyQuery | controllers/player_advanced_controller.go:95-124 | no parameters: no filter, page 1 of 20 from row 0, by win shares descending |
| AdvancedController.PlayerIdFallback | controllers/player_advanced_controller.go:95-98 | `player_id` is read only when `playerId` is empty |
| AdvancedController.UnreadablePlayoffFlag | controllers/player_advanced_controller.go:139-142 | a present but unreadable flag filters regular-season rows |
| AdvancedController.UnreadableSeason | controllers/player_advanced_controller.go:101 | a season that is not a number filters nothing |
| TotalController.SortIsUnvalidated | controllers/player_total_controller.go:86-92 | any `sortBy` text begins the `ORDER BY` clause unchecked |
| TotalController.EmptyQuery | controllers/player_total_controller.go:81-92 | no parameters: no filter, page 1 of 20 from row 0, by points descending |
| TotalController.NoPlayerIdAlias | controllers/player_total_controller.go:83 | `player_id` alone filters nothing |
| TotalController.UnreadablePlayoffFlag | controllers/player_total_controller.go:106-110 | a present but unreadable flag filters regular-season rows |
| TotalController.SameFiltersAsAdvanced | controllers/player_total_controller.go:81-110 | the two lists build the same filters except for the player alias |

## Left out

- HTTP requests, response status codes and body reads are modelled as one
  outcome per URL. The HTML grammar, goquery's CSS selectors and JSON
  decoding are modelled as parameters that return what a selector or a
  decoder yields.
- The name lookup on the shot-chart page is modelled as a parameter. The
  name is stored, and nothing else depends on it.
- Logging, metrics counters, `time.Sleep` itself and the RNG seeding are
  left out. The pauses of the four import loops and of the all-players
  shot-chart loop are recorded as durations, and the random draws are a
  parameter.
- The SQL that gorm emits is not modelled. Only its effect on a keyed table
  is: soft deletes, timestamps and `Limit`/`Offset` execution are left out.
  The list endpoints take the row count of the filtered query as a
  parameter.
- The bytes of the CSV files are not modelled. The scripts' output is the
  sequence of CSV lines, and `encoding/csv` quoting is not covered.
- CSV writer errors are not modelled. In scrape_totals.go and
  isolated_scrape.go they exit with status 1 after the lines were handed to
  the writer. The scripts' console echo of the first five rows is also left
  out.
- Strconv.MustParseFloat: modelled on plain decimal literals as exact
  reals. Any other text yields 0.0, so exponents, "Inf" and "NaN" are not
  modelled, and neither is float64 rounding.
- Fiber routing, the API-key middleware, the metrics middleware, Swagger
  and the scrape-trigger handlers are outside the modelled core.
- FetchAndStoreShotChartScrapedForPlayer: with endSeason == math.MinInt64
  Go's `season--` wraps from the smallest int64 to the largest, so the loop
  never ends unless a season returns. The model counts down in unbounded
  integers and returns after the season math.MinInt64. It agrees with Go
  for every endSeason above math.MinInt64 (GoInt.SeasonDecrement), but it
  does not model the endless loop.
- ScrapeSeasons: the same endless loop at `-end=-9223372036854775808` is not
  modelled. The model's loop ends there, while the script keeps scraping
  until a season panics.
- ScrapeShotchartMain: the flag checks accept `-end=-9223372036854775808`,
  and the script then loops as described for ScrapeSeasons. The model
  returns after its seasons instead.
- Listing.Pages: the count is taken as an int64 without modelling gorm's
  own overflow handling.
- Negative page sizes are passed through. gorm treats a negative `Limit` as
  no limit, which the model does not represent.
