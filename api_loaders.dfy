/** The loaders that read the public JSON API instead of scraping pages:
    advanced stats (regular season and playoffs), playoff totals, and shot
    charts per player. Each fetches one URL, decodes a list of records,
    overrides some fields of each record and upserts the records one at a
    time, logging and skipping a record the database refuses. The HTTP
    round trip and JSON decoding are a parameter: what fetching a URL
    yields. */
module ApiLoaders {
  import opened Wrappers
  import opened GoInt
  import opened Strconv
  import opened GoStrings
  import opened GoTime
  import opened Database
  import opened Records
  import AdvancedScrape
  import TotalScrape
  import ShotChartScrape

  // ---------------------------------------------------------------------
  // One statement per record.

  /** One record's statement: the table after it, or the table as it was
      when the database refuses it (the error is only logged). */
  function UpsertOne(t: Table, constraint: seq<Col>, conflict: seq<Col>, updates: seq<Col>,
                     row: Row, refused: bool): Table
    requires HasCols(row, constraint)
  {
    match Statement(t, constraint, conflict, updates, [row], refused)
    case Some(t') => t'
    case None => t
  }

  /** The records' statements in order; `refused(i)` says whether the
      database fails the statement of record `i` for reasons outside the
      model. */
  function UpsertEach(t: Table, constraint: seq<Col>, conflict: seq<Col>, updates: seq<Col>,
                      rows: seq<Row>, refused: nat -> bool): Table
    requires AllHaveCols(rows, constraint)
    decreases |rows|
  {
    if |rows| == 0 then t
    else
      var n := |rows| - 1;
      UpsertOne(UpsertEach(t, constraint, conflict, updates, rows[..n], refused),
                constraint, conflict, updates, rows[n], refused(n))
  }

  /** A single-row statement is one upsert, made exactly when the database
      accepts the target and does not refuse it. */
  lemma UpsertOneEffect(t: Table, constraint: seq<Col>, conflict: seq<Col>, updates: seq<Col>,
                        row: Row, refused: bool)
    requires HasCols(row, constraint)
    ensures UpsertOne(t, constraint, conflict, updates, row, refused) ==
      if !refused && Accepts(constraint, conflict) then Upsert(t, constraint, updates, row) else t
  {
    var rows := [row];
    assert AllHaveCols(rows, constraint) && DistinctKeys(rows, constraint);
    assert rows[1..] == [];
    assert UpsertAll(t, constraint, updates, rows) ==
      UpsertAll(Upsert(t, constraint, updates, row), constraint, updates, []);
  }

  /** With a conflict target the table's constraint does not accept, every
      statement fails and nothing is written. */
  lemma {:induction false} UpsertEachRejected(t: Table, constraint: seq<Col>, conflict: seq<Col>,
                                              updates: seq<Col>, rows: seq<Row>, refused: nat -> bool)
    requires AllHaveCols(rows, constraint) && !Accepts(constraint, conflict)
    ensures UpsertEach(t, constraint, conflict, updates, rows, refused) == t
    decreases |rows|
  {
    if |rows| > 0 {
      var n := |rows| - 1;
      UpsertEachRejected(t, constraint, conflict, updates, rows[..n], refused);
      UpsertOneEffect(t, constraint, conflict, updates, rows[n], refused(n));
    }
  }

  /** The last row of a batch statement is applied last. */
  lemma {:induction false} UpsertAllLast(t: Table, keyCols: seq<Col>, updates: seq<Col>, rows: seq<Row>)
    requires AllHaveCols(rows, keyCols) && |rows| > 0
    ensures var n := |rows| - 1;
      UpsertAll(t, keyCols, updates, rows) ==
      Upsert(UpsertAll(t, keyCols, updates, rows[..n]), keyCols, updates, rows[n])
    decreases |rows|
  {
    var n := |rows| - 1;
    if n > 0 {
      var t1 := Upsert(t, keyCols, updates, rows[0]);
      assert rows[1..][..n - 1] == rows[..n][1..];
      assert rows[1..][n - 1] == rows[n];
      UpsertAllLast(t1, keyCols, updates, rows[1..]);
    } else {
      assert rows[1..] == [] && rows[..n] == [];
    }
  }

  /** When the target is accepted and no statement is refused, the records
      land as a batch statement would apply them, but without the batch's
      demand for distinct keys: a later record with a repeated key updates
      the row the earlier one wrote. */
  lemma {:induction false} UpsertEachSequential(t: Table, constraint: seq<Col>, conflict: seq<Col>,
                                                updates: seq<Col>, rows: seq<Row>, refused: nat -> bool)
    requires AllHaveCols(rows, constraint) && Accepts(constraint, conflict)
    requires forall i | 0 <= i < |rows| :: !refused(i)
    ensures UpsertEach(t, constraint, conflict, updates, rows, refused) == UpsertAll(t, constraint, updates, rows)
    decreases |rows|
  {
    if |rows| > 0 {
      var n := |rows| - 1;
      UpsertEachSequential(t, constraint, conflict, updates, rows[..n], refused);
      UpsertOneEffect(UpsertEach(t, constraint, conflict, updates, rows[..n], refused),
                      constraint, conflict, updates, rows[n], refused(n));
      UpsertAllLast(t, constraint, updates, rows);
    }
  }

  /** The keys of the records the database did not refuse. */
  function WrittenKeys(rows: seq<Row>, constraint: seq<Col>, refused: nat -> bool): set<Key>
    requires AllHaveCols(rows, constraint)
  {
    set i | 0 <= i < |rows| && !refused(i) :: Project(rows[i], constraint)
  }

  /** With an accepted target, the stored keys afterwards are the old ones
      and those of the records not refused: nothing is deleted, and a
      refused record writes nothing. */
  lemma {:induction false} UpsertEachKeys(t: Table, constraint: seq<Col>, conflict: seq<Col>,
                                          updates: seq<Col>, rows: seq<Row>, refused: nat -> bool)
    requires AllHaveCols(rows, constraint) && Accepts(constraint, conflict)
    ensures UpsertEach(t, constraint, conflict, updates, rows, refused).rows.Keys ==
      t.rows.Keys + WrittenKeys(rows, constraint, refused)
    decreases |rows|
  {
    if |rows| > 0 {
      var n := |rows| - 1;
      var prefix := rows[..n];
      var t1 := UpsertEach(t, constraint, conflict, updates, prefix, refused);
      UpsertEachKeys(t, constraint, conflict, updates, prefix, refused);
      UpsertOneEffect(t1, constraint, conflict, updates, rows[n], refused(n));
      UpsertFrame(t1, constraint, updates, rows[n]);
      WrittenKeysLast(rows, constraint, refused);
    }
  }

  lemma WrittenKeysLast(rows: seq<Row>, constraint: seq<Col>, refused: nat -> bool)
    requires AllHaveCols(rows, constraint) && |rows| > 0
    ensures var n := |rows| - 1;
      WrittenKeys(rows, constraint, refused) ==
      WrittenKeys(rows[..n], constraint, refused) + (if refused(n) then {} else {Project(rows[n], constraint)})
  {
    var n := |rows| - 1;
    var prefix := rows[..n];
    forall k | k in WrittenKeys(rows, constraint, refused)
      ensures k in WrittenKeys(prefix, constraint, refused) || (!refused(n) && k == Project(rows[n], constraint))
    {
      var i :| 0 <= i < |rows| && !refused(i) && k == Project(rows[i], constraint);
      if i < n {
        assert prefix[i] == rows[i];
      }
    }
    forall k | k in WrittenKeys(prefix, constraint, refused)
      ensures k in WrittenKeys(rows, constraint, refused)
    {
      var i :| 0 <= i < |prefix| && !refused(i) && k == Project(prefix[i], constraint);
      assert rows[i] == prefix[i];
    }
  }

  // ---------------------------------------------------------------------
  // The shape every loader shares.

  /** Where a loader gave up with an error. */
  datatype ApiStage = Fetch | Unmarshal

  /** `nil` or the returned error. */
  datatype ApiOutcome = Done | Err(stage: ApiStage)

  /** What fetching a URL yields: the request fails (including a non-200
      status), the body is not a JSON list of records, or the records. */
  datatype Fetched<T> = FetchFailed | Undecodable | Decoded(records: seq<T>)

  /** The rows the loop proposes: each record with the loader's overrides. */
  function RowsOf<T>(records: seq<T>, prepare: T -> T, toRow: T -> Row): (rows: seq<Row>)
    ensures |rows| == |records|
    ensures forall i | 0 <= i < |records| :: rows[i] == toRow(prepare(records[i]))
  {
    seq(|records|, i requires 0 <= i < |records| => toRow(prepare(records[i])))
  }

  lemma RowsOfHaveCols<T(!new)>(records: seq<T>, prepare: T -> T, toRow: T -> Row, constraint: seq<Col>)
    requires forall r :: HasCols(toRow(r), constraint)
    ensures AllHaveCols(RowsOf(records, prepare, toRow), constraint)
  {
  }

  /** One loader call, as its outcome and the table it leaves. */
  function Load<T(!new)>(t: Table, constraint: seq<Col>, conflict: seq<Col>, updates: seq<Col>,
                   fetched: Fetched<T>, prepare: T -> T, toRow: T -> Row, refused: nat -> bool): (ApiOutcome, Table)
    requires forall r :: HasCols(toRow(r), constraint)
  {
    match fetched
    case FetchFailed => (Err(Fetch), t)
    case Undecodable => (Err(Unmarshal), t)
    case Decoded(records) =>
      RowsOfHaveCols(records, prepare, toRow, constraint);
      (Done, UpsertEach(t, constraint, conflict, updates, RowsOf(records, prepare, toRow), refused))
  }

  /** The loop every loader runs once the records are decoded: override
      the record's fields, upsert it on its own, log a failure and go on. */
  method LoadRecords<T(!new)>(db: Db, conflict: seq<Col>, updates: seq<Col>, fetched: Fetched<T>,
                        prepare: T -> T, toRow: T -> Row, refused: nat -> bool)
    returns (outcome: ApiOutcome)
    requires db.Valid() && IdColumn !in updates
    requires forall r :: HasCols(toRow(r), db.constraint)
    modifies db
    ensures db.Valid()
    ensures (outcome, db.table) == Load(old(db.table), db.constraint, conflict, updates, fetched, prepare, toRow, refused)
  {
    if fetched.FetchFailed? {
      return Err(Fetch);
    }
    if fetched.Undecodable? {
      return Err(Unmarshal);
    }
    var records := fetched.records;
    ghost var rows := RowsOf(records, prepare, toRow);
    RowsOfHaveCols(records, prepare, toRow, db.constraint);
    var i := 0;
    while i < |records|
      invariant 0 <= i <= |records|
      invariant db.Valid()
      invariant db.table == UpsertEach(old(db.table), db.constraint, conflict, updates, rows[..i], refused)
    {
      var record := prepare(records[i]);
      var ok := db.Create(conflict, updates, [toRow(record)], refused(i));
      assert rows[..i + 1][..i] == rows[..i];
      i := i + 1;
    }
    assert rows[..|records|] == rows;
    return Done;
  }

  /** A loader writes nothing unless the records were fetched and decoded,
      and then it returns `nil` whatever the database did with them. */
  lemma LoadOutcome<T(!new)>(t: Table, constraint: seq<Col>, conflict: seq<Col>, updates: seq<Col>,
                       fetched: Fetched<T>, prepare: T -> T, toRow: T -> Row, refused: nat -> bool)
    requires forall r :: HasCols(toRow(r), constraint)
    ensures var (outcome, t') := Load(t, constraint, conflict, updates, fetched, prepare, toRow, refused);
      && (outcome == Done <==> fetched.Decoded?)
      && (outcome == Err(Fetch) <==> fetched.FetchFailed?)
      && (outcome != Done ==> t' == t)
  {
  }

  /** A row has the columns of a constraint drawn from its columns. */
  lemma ColumnsCover(row: Row, columns: seq<Col>, constraint: seq<Col>)
    requires row.Keys == Elems(columns) && Elems(constraint) <= Elems(columns)
    ensures HasCols(row, constraint)
  {
    forall k | 0 <= k < |constraint|
      ensures constraint[k] in row
    {
      assert constraint[k] in Elems(constraint);
    }
  }

  // ---------------------------------------------------------------------
  // FetchAndStorePlayerAdvancedStats

  const ApiBase: string := "http://rest.nbaapi.com/api/"
  const ByPointsPage: string := "&sortBy=Points&ascending=false&pageNumber=1&pageSize=1000"
  const ByNamePage: string := "&sortBy=PlayerName&ascending=true&pageNumber=1&pageSize=1000"

  function AdvancedApiUrl(season: int): string {
    ApiBase + "PlayerDataAdvanced/query?season=" + Itoa(season) + ByPointsPage
  }

  /** Different seasons are fetched from different URLs. */
  lemma AdvancedApiUrlInjective(a: int, b: int)
    requires IsInt64(a) && IsInt64(b) && AdvancedApiUrl(a) == AdvancedApiUrl(b)
    ensures a == b
  {
    DropAffixes(ApiBase + "PlayerDataAdvanced/query?season=", Itoa(a), Itoa(b), ByPointsPage);
    ItoaInjective(a, b);
  }

  lemma AdvancedRowsFit(constraint: seq<Col>)
    requires AdvancedScrape.AdvancedTable(constraint)
    ensures forall a :: HasCols(AdvancedRow(a), constraint)
  {
    forall a: AdvancedStat
      ensures HasCols(AdvancedRow(a), constraint)
    {
      AdvancedRowColumns(a);
      ColumnsCover(AdvancedRow(a), AdvancedColumns, constraint);
    }
  }

  /** The regular-season loader sets the season of each record and leaves
      its playoff flag as decoded. */
  function WithSeason(season: int): AdvancedStat -> AdvancedStat {
    (a: AdvancedStat) => a.(season := season)
  }

  function AdvancedLoad(t: Table, constraint: seq<Col>, season: int,
                        fetch: string -> Fetched<AdvancedStat>, refused: nat -> bool): (ApiOutcome, Table)
    requires AdvancedScrape.AdvancedTable(constraint)
  {
    AdvancedRowsFit(constraint);
    Load(t, constraint, AdvancedApiConflict, AdvancedUpdates, fetch(AdvancedApiUrl(season)),
         WithSeason(season), AdvancedRow, refused)
  }

  /** `FetchAndStorePlayerAdvancedStats(db, season)`. */
  method FetchAndStorePlayerAdvancedStats(db: Db, season: int, fetch: string -> Fetched<AdvancedStat>,
                                          refused: nat -> bool)
    returns (outcome: ApiOutcome)
    requires db.Valid() && AdvancedScrape.AdvancedTable(db.constraint)
    modifies db
    ensures db.Valid()
    ensures (outcome, db.table) == AdvancedLoad(old(db.table), db.constraint, season, fetch, refused)
  {
    AdvancedUpdatesHaveNoId();
    AdvancedRowsFit(db.constraint);
    var fetched := fetch(AdvancedApiUrl(season));
    outcome := LoadRecords(db, AdvancedApiConflict, AdvancedUpdates, fetched, WithSeason(season), AdvancedRow, refused);
  }

  /** The row written for a record is keyed on its player, the call's
      season and its team, and keeps the decoded playoff flag. */
  lemma AdvancedApiRow(a: AdvancedStat, season: int)
    ensures var row := AdvancedRow(WithSeason(season)(a));
      && HasCols(row, AdvancedApiConflict)
      && Project(row, AdvancedApiConflict) == [VStr(a.playerId), VInt(season), VStr(a.team)]
      && row[IsPlayoff] == VBool(a.isPlayoff)
  {
    AdvancedApiKey(WithSeason(season)(a));
  }

  /** Against the declared four-column index the three-column target is
      refused for every record, so the loader stores nothing and still
      returns `nil` once the records are decoded. */
  lemma AdvancedApiNeverWrites(t: Table, season: int, fetch: string -> Fetched<AdvancedStat>,
                               refused: nat -> bool)
    ensures AdvancedLoad(t, AdvancedIndex, season, fetch, refused).1 == t
  {
    ConflictTargetsAgainstIndexes();
    AdvancedRowsFit(AdvancedIndex);
    match fetch(AdvancedApiUrl(season))
    case Decoded(records) =>
      RowsOfHaveCols(records, WithSeason(season), AdvancedRow, AdvancedIndex);
      UpsertEachRejected(t, AdvancedIndex, AdvancedApiConflict, AdvancedUpdates,
                         RowsOf(records, WithSeason(season), AdvancedRow), refused);
    case _ =>
  }

  // ---------------------------------------------------------------------
  // FetchAndStorePlayerAdvancedPlayoffsStats

  function AdvancedPlayoffsUrl(season: int): string {
    ApiBase + "PlayerDataAdvancedPlayoffs/query?season=" + Itoa(season) + ByNamePage
  }

  /** The playoffs loaders set both the season and the playoff flag. */
  function WithSeasonAndFlag(season: int, isPlayoff: bool): AdvancedStat -> AdvancedStat {
    (a: AdvancedStat) => a.(season := season, isPlayoff := isPlayoff)
  }

  function AdvancedPlayoffsLoad(t: Table, constraint: seq<Col>, season: int, isPlayoff: bool,
                                fetch: string -> Fetched<AdvancedStat>, refused: nat -> bool): (ApiOutcome, Table)
    requires AdvancedScrape.AdvancedTable(constraint)
  {
    AdvancedRowsFit(constraint);
    Load(t, constraint, AdvancedConflict, AdvancedUpdates, fetch(AdvancedPlayoffsUrl(season)),
         WithSeasonAndFlag(season, isPlayoff), AdvancedRow, refused)
  }

  /** `FetchAndStorePlayerAdvancedPlayoffsStats(db, season, isPlayoff)`. */
  method FetchAndStorePlayerAdvancedPlayoffsStats(db: Db, season: int, isPlayoff: bool,
                                                  fetch: string -> Fetched<AdvancedStat>, refused: nat -> bool)
    returns (outcome: ApiOutcome)
    requires db.Valid() && AdvancedScrape.AdvancedTable(db.constraint)
    modifies db
    ensures db.Valid()
    ensures (outcome, db.table) == AdvancedPlayoffsLoad(old(db.table), db.constraint, season, isPlayoff, fetch, refused)
  {
    AdvancedUpdatesHaveNoId();
    AdvancedRowsFit(db.constraint);
    var fetched := fetch(AdvancedPlayoffsUrl(season));
    outcome := LoadRecords(db, AdvancedConflict, AdvancedUpdates, fetched,
                           WithSeasonAndFlag(season, isPlayoff), AdvancedRow, refused);
  }

  /** The row written for a record is keyed on its player, the call's
      season, its team and the call's playoff flag. */
  lemma AdvancedPlayoffsRow(a: AdvancedStat, season: int, isPlayoff: bool)
    ensures var row := AdvancedRow(WithSeasonAndFlag(season, isPlayoff)(a));
      && HasCols(row, AdvancedConflict)
      && Project(row, AdvancedConflict) == [VStr(a.playerId), VInt(season), VStr(a.team), VBool(isPlayoff)]
  {
    AdvancedKey(WithSeasonAndFlag(season, isPlayoff)(a));
  }

  /** Against the declared index, with no statement refused, the stored
      keys afterwards are the old ones and one per decoded record. */
  lemma AdvancedPlayoffsKeys(t: Table, season: int, isPlayoff: bool, records: seq<AdvancedStat>,
                             fetch: string -> Fetched<AdvancedStat>, refused: nat -> bool)
    requires fetch(AdvancedPlayoffsUrl(season)) == Decoded(records)
    requires forall i | 0 <= i < |records| :: !refused(i)
    ensures AdvancedPlayoffsLoad(t, AdvancedIndex, season, isPlayoff, fetch, refused).1.rows.Keys ==
      t.rows.Keys + (set i | 0 <= i < |records| ::
                       [VStr(records[i].playerId), VStr(records[i].team), VInt(season), VBool(isPlayoff)])
  {
    ConflictTargetsAgainstIndexes();
    AdvancedRowsFit(AdvancedIndex);
    var prepare := WithSeasonAndFlag(season, isPlayoff);
    var rows := RowsOf(records, prepare, AdvancedRow);
    RowsOfHaveCols(records, prepare, AdvancedRow, AdvancedIndex);
    UpsertEachKeys(t, AdvancedIndex, AdvancedConflict, AdvancedUpdates, rows, refused);
    var expected := set i | 0 <= i < |records| ::
      [VStr(records[i].playerId), VStr(records[i].team), VInt(season), VBool(isPlayoff)];
    forall i | 0 <= i < |records|
      ensures Project(rows[i], AdvancedIndex) ==
        [VStr(records[i].playerId), VStr(records[i].team), VInt(season), VBool(isPlayoff)]
    {
      AdvancedIndexKey(prepare(records[i]));
    }
    assert WrittenKeys(rows, AdvancedIndex, refused) == expected;
  }

  lemma AdvancedIndexKey(a: AdvancedStat)
    ensures HasCols(AdvancedRow(a), AdvancedIndex)
    ensures Project(AdvancedRow(a), AdvancedIndex) ==
      [VStr(a.playerId), VStr(a.team), VInt(a.season), VBool(a.isPlayoff)]
  {
  }

  // ---------------------------------------------------------------------
  // FetchAndStorePlayerTotalPlayoffsStats

  function TotalPlayoffsUrl(season: int): string {
    ApiBase + "PlayerDataTotalsPlayoffs/query?season=" + Itoa(season) + ByNamePage
  }

  lemma TotalRowsFit(constraint: seq<Col>)
    requires TotalScrape.TotalTable(constraint)
    ensures forall s :: HasCols(TotalRow(s), constraint)
  {
    forall s: TotalStat
      ensures HasCols(TotalRow(s), constraint)
    {
      TotalRowColumns(s);
      ColumnsCover(TotalRow(s), TotalColumns, constraint);
    }
  }

  function TotalWithSeasonAndFlag(season: int, isPlayoff: bool): TotalStat -> TotalStat {
    (s: TotalStat) => s.(season := season, isPlayoff := isPlayoff)
  }

  function TotalPlayoffsLoad(t: Table, constraint: seq<Col>, season: int, isPlayoff: bool,
                             fetch: string -> Fetched<TotalStat>, refused: nat -> bool): (ApiOutcome, Table)
    requires TotalScrape.TotalTable(constraint)
  {
    TotalRowsFit(constraint);
    Load(t, constraint, TotalConflict, TotalPlayoffsUpdates, fetch(TotalPlayoffsUrl(season)),
         TotalWithSeasonAndFlag(season, isPlayoff), TotalRow, refused)
  }

  /** `FetchAndStorePlayerTotalPlayoffsStats(db, season, isPlayoff)`. */
  method FetchAndStorePlayerTotalPlayoffsStats(db: Db, season: int, isPlayoff: bool,
                                               fetch: string -> Fetched<TotalStat>, refused: nat -> bool)
    returns (outcome: ApiOutcome)
    requires db.Valid() && TotalScrape.TotalTable(db.constraint)
    modifies db
    ensures db.Valid()
    ensures (outcome, db.table) == TotalPlayoffsLoad(old(db.table), db.constraint, season, isPlayoff, fetch, refused)
  {
    TotalPlayoffsUpdateColumns();
    TotalRowsFit(db.constraint);
    var fetched := fetch(TotalPlayoffsUrl(season));
    outcome := LoadRecords(db, TotalConflict, TotalPlayoffsUpdates, fetched,
                           TotalWithSeasonAndFlag(season, isPlayoff), TotalRow, refused);
  }

  /** A record meeting a stored row under an accepted target leaves a
      column outside the update list as it was stored. */
  lemma UpsertOneKeeps(t: Table, constraint: seq<Col>, updates: seq<Col>, row: Row, refused: bool, c: Col)
    requires HasCols(row, constraint) && Project(row, constraint) in t.rows
    requires c in t.rows[Project(row, constraint)] && c !in updates
    ensures var k, t' := Project(row, constraint), UpsertOne(t, constraint, constraint, updates, row, refused);
      k in t'.rows && c in t'.rows[k] && t'.rows[k][c] == t.rows[k][c]
  {
    UpsertOneEffect(t, constraint, constraint, updates, row, refused);
    if !refused {
      UpsertUpdates(t, constraint, updates, row);
    }
  }

  /** ... and gives a listed column the proposed value, unless refused. */
  lemma UpsertOneOverwrites(t: Table, constraint: seq<Col>, updates: seq<Col>, row: Row, c: Col)
    requires HasCols(row, constraint) && Project(row, constraint) in t.rows
    requires c in updates && c in row
    ensures var k, t' := Project(row, constraint), UpsertOne(t, constraint, constraint, updates, row, false);
      k in t'.rows && c in t'.rows[k] && t'.rows[k][c] == row[c]
  {
    UpsertOneEffect(t, constraint, constraint, updates, row, false);
    UpsertUpdates(t, constraint, updates, row);
  }

  /** A playoffs-totals record that meets a stored row keeps the stored
      `external_id`. */
  lemma TotalPlayoffsKeepExternalId(t: Table, s: TotalStat, refused: bool)
    requires var k := [VStr(s.playerId), VInt(s.season), VStr(s.team), VBool(s.isPlayoff)];
      k in t.rows && ExternalId in t.rows[k]
    ensures HasCols(TotalRow(s), TotalConflict)
    ensures var k := [VStr(s.playerId), VInt(s.season), VStr(s.team), VBool(s.isPlayoff)];
      var t' := UpsertOne(t, TotalConflict, TotalConflict, TotalPlayoffsUpdates, TotalRow(s), refused);
      k in t'.rows && ExternalId in t'.rows[k] && t'.rows[k][ExternalId] == t.rows[k][ExternalId]
  {
    TotalKey(s);
    TotalPlayoffsUpdateColumns();
    UpsertOneKeeps(t, TotalConflict, TotalPlayoffsUpdates, TotalRow(s), refused, ExternalId);
  }

  /** The scraper's update list, by contrast, overwrites the stored
      `external_id` with the scraped rank. */
  lemma TotalScrapeOverwritesExternalId(t: Table, s: TotalStat)
    requires [VStr(s.playerId), VInt(s.season), VStr(s.team), VBool(s.isPlayoff)] in t.rows
    ensures HasCols(TotalRow(s), TotalConflict)
    ensures var k := [VStr(s.playerId), VInt(s.season), VStr(s.team), VBool(s.isPlayoff)];
      var t' := UpsertOne(t, TotalConflict, TotalConflict, TotalScrapeUpdates, TotalRow(s), false);
      k in t'.rows && ExternalId in t'.rows[k] && t'.rows[k][ExternalId] == VInt(s.externalId)
  {
    TotalKey(s);
    TotalScrapeUpdateColumns();
    var row := TotalRow(s);
    assert ExternalId in row && row[ExternalId] == VInt(s.externalId);
    UpsertOneOverwrites(t, TotalConflict, TotalScrapeUpdates, row, ExternalId);
  }

  // ---------------------------------------------------------------------
  // FetchAndStoreShotChartForPlayer

  const ShotChartApi: string := "http://rest.nbaapi.com/api/ShotChartData/playerid/"

  function ShotChartUrl(playerId: string): string {
    ShotChartApi + playerId
  }

  /** The season a shot is stored under: the year of its date when the
      date reads as "Jan 2, 2006", otherwise the decoded season. */
  function SeasonFromDate(): ShotChart -> ShotChart {
    (s: ShotChart) => match ParseDate(s.date)
         case Some(d) => s.(season := d.year)
         case None => s
  }

  /** A shot dated as Go prints a date is stored under that date's year,
      with every other field as decoded. */
  lemma SeasonOfPrintedDate(s: ShotChart, d: Date)
    requires ValidDate(d) && s.date == FormatDate(d)
    ensures SeasonFromDate()(s) == s.(season := d.year)
  {
    ParseFormat(d);
  }

  /** A shot whose date does not parse keeps its decoded season. */
  lemma SeasonOfUnreadableDate(s: ShotChart)
    requires ParseDate(s.date) == None
    ensures SeasonFromDate()(s) == s
  {
  }

  /** The date itself is never rewritten, only the season. */
  lemma SeasonFromDateKeepsDate(s: ShotChart)
    ensures var s' := SeasonFromDate()(s);
      s'.date == s.date && s' == s.(season := s'.season)
  {
  }

  lemma ShotRowsFit(constraint: seq<Col>)
    requires ShotChartScrape.ShotTable(constraint)
    ensures forall s :: HasCols(ShotChartRow(s), constraint)
  {
    forall s: ShotChart
      ensures HasCols(ShotChartRow(s), constraint)
    {
      ShotChartRowColumns(s);
      ColumnsCover(ShotChartRow(s), ShotChartColumns, constraint);
    }
  }

  function ShotLoad(t: Table, constraint: seq<Col>, playerId: string,
                    fetch: string -> Fetched<ShotChart>, refused: nat -> bool): (ApiOutcome, Table)
    requires ShotChartScrape.ShotTable(constraint)
  {
    ShotRowsFit(constraint);
    Load(t, constraint, ShotChartConflict, ShotChartUpdates, fetch(ShotChartUrl(playerId)),
         SeasonFromDate(), ShotChartRow, refused)
  }

  /** `FetchAndStoreShotChartForPlayer(db, playerID)`. */
  method FetchAndStoreShotChartForPlayer(db: Db, playerId: string, fetch: string -> Fetched<ShotChart>,
                                         refused: nat -> bool)
    returns (outcome: ApiOutcome)
    requires db.Valid() && ShotChartScrape.ShotTable(db.constraint)
    modifies db
    ensures db.Valid()
    ensures (outcome, db.table) == ShotLoad(old(db.table), db.constraint, playerId, fetch, refused)
  {
    ShotChartUpdateColumns();
    ShotRowsFit(db.constraint);
    var fetched := fetch(ShotChartUrl(playerId));
    outcome := LoadRecords(db, ShotChartConflict, ShotChartUpdates, fetched, SeasonFromDate(), ShotChartRow, refused);
  }

  /** Against the index the model declares, on `player_id` alone, the
      seven-column target is refused for every shot: nothing is stored. */
  lemma ShotLoadDeclaredIndexNeverWrites(t: Table, playerId: string, fetch: string -> Fetched<ShotChart>,
                                         refused: nat -> bool)
    ensures ShotLoad(t, ShotChartDeclaredIndex, playerId, fetch, refused).1 == t
  {
    ConflictTargetsAgainstIndexes();
    ShotRowsFit(ShotChartDeclaredIndex);
    match fetch(ShotChartUrl(playerId))
    case Decoded(records) =>
      RowsOfHaveCols(records, SeasonFromDate(), ShotChartRow, ShotChartDeclaredIndex);
      UpsertEachRejected(t, ShotChartDeclaredIndex, ShotChartConflict, ShotChartUpdates,
                         RowsOf(records, SeasonFromDate(), ShotChartRow), refused);
    case _ =>
  }

  // ---------------------------------------------------------------------
  // FetchAndStoreAllPlayerShotCharts

  /** The table after the per-player loader has run for each id in turn;
      `refused(p)` is the database's behaviour during player `p`'s call. */
  function AllShots(t: Table, constraint: seq<Col>, playerIds: seq<string>,
                    fetch: string -> Fetched<ShotChart>, refused: string -> nat -> bool): Table
    requires ShotChartScrape.ShotTable(constraint)
    decreases |playerIds|
  {
    if |playerIds| == 0 then t
    else
      var n := |playerIds| - 1;
      var p := playerIds[n];
      ShotLoad(AllShots(t, constraint, playerIds[..n], fetch, refused), constraint, p, fetch, refused(p)).1
  }

  /** `time.Sleep(1100 * time.Millisecond)` after every player, in
      nanoseconds. */
  const PlayerThrottle: int := 1100 * 1_000_000

  /** `FetchAndStoreAllPlayerShotCharts(db)`, given the distinct player ids
      of the totals table: every id is tried, an error is logged, the loop
      sleeps 1100ms after each player whatever the outcome, and the call
      returns `nil`. `pauses` holds the sleeps, one per player in order. */
  method FetchAndStoreAllPlayerShotCharts(db: Db, playerIds: seq<string>, fetch: string -> Fetched<ShotChart>,
                                          refused: string -> nat -> bool)
    returns (outcome: ApiOutcome, pauses: seq<int>)
    requires db.Valid() && ShotChartScrape.ShotTable(db.constraint)
    modifies db
    ensures db.Valid()
    ensures outcome == Done
    ensures |pauses| == |playerIds| && forall k | 0 <= k < |pauses| :: pauses[k] == PlayerThrottle
    ensures db.table == AllShots(old(db.table), db.constraint, playerIds, fetch, refused)
  {
    pauses := [];
    var i := 0;
    while i < |playerIds|
      invariant 0 <= i <= |playerIds|
      invariant db.Valid()
      invariant |pauses| == i && forall k | 0 <= k < i :: pauses[k] == PlayerThrottle
      invariant db.table == AllShots(old(db.table), db.constraint, playerIds[..i], fetch, refused)
    {
      var pid := playerIds[i];
      var err := FetchAndStoreShotChartForPlayer(db, pid, fetch, refused(pid));
      pauses := pauses + [PlayerThrottle];
      assert playerIds[..i + 1][..i] == playerIds[..i];
      i := i + 1;
    }
    assert playerIds[..|playerIds|] == playerIds;
    return Done, pauses;
  }

  /** Running the ids in two parts is running them all: one player's
      failure does not stop the players after it. */
  lemma {:induction false} AllShotsAppend(t: Table, constraint: seq<Col>, first: seq<string>, second: seq<string>,
                                          fetch: string -> Fetched<ShotChart>, refused: string -> nat -> bool)
    requires ShotChartScrape.ShotTable(constraint)
    ensures AllShots(t, constraint, first + second, fetch, refused) ==
      AllShots(AllShots(t, constraint, first, fetch, refused), constraint, second, fetch, refused)
    decreases |second|
  {
    var ids := first + second;
    if |second| == 0 {
      assert ids == first;
    } else {
      var n := |second| - 1;
      assert ids[..|ids| - 1] == first + second[..n];
      assert ids[|ids| - 1] == second[n];
      AllShotsAppend(t, constraint, first, second[..n], fetch, refused);
    }
  }

  /** A player whose shots cannot be fetched or decoded changes nothing. */
  lemma AllShotsSkipsFailedPlayer(t: Table, constraint: seq<Col>, playerIds: seq<string>, p: string,
                                  fetch: string -> Fetched<ShotChart>, refused: string -> nat -> bool)
    requires ShotChartScrape.ShotTable(constraint) && !fetch(ShotChartUrl(p)).Decoded?
    ensures AllShots(t, constraint, playerIds + [p], fetch, refused) == AllShots(t, constraint, playerIds, fetch, refused)
  {
    var ids := playerIds + [p];
    assert ids[..|ids| - 1] == playerIds;
  }
}
