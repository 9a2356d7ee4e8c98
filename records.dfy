/** The three persisted record shapes of models/, their column names as gorm
    derives them, their declared unique indexes, and the conflict targets and
    update lists the loaders pair with them. */
module Records {
  import opened Database
  import opened Wrappers

  // ---------------------------------------------------------------------
  // PlayerShotChart

  datatype ShotChart = ShotChart(
    externalId: int,
    playerId: string,
    playerName: string,
    top: int,
    left: int,
    date: string,
    quarter: string,
    timeRemaining: string,
    result: bool,
    shotType: string,
    distanceFt: int,
    lead: bool,
    teamScore: int,
    opponentTeamScore: int,
    opponent: string,
    team: string,
    season: int)

  /** The columns of `player_shot_charts` besides the surrogate id and timestamps. */
  const ShotChartColumns: seq<Col> := [
    ExternalId, PlayerId, PlayerName, Top, Left, Date, Qtr,
    TimeRemaining, Result, ShotType, DistanceFt, Lead, TeamScore,
    OpponentTeamScore, Opponent, Team, Season]

  /** The unique index as the model declares it: on `player_id` alone. */
  const ShotChartDeclaredIndex: seq<Col> := [PlayerId]

  /** The conflict target every shot-chart writer uses. */
  const ShotChartConflict: seq<Col> := [
    PlayerId, Season, Date, Qtr, TimeRemaining, Top, Left]

  /** The columns a shot-chart conflict overwrites. */
  const ShotChartUpdates: seq<Col> := [
    PlayerName, Result, ShotType, DistanceFt,
    Lead, TeamScore, OpponentTeamScore, Opponent, Team]

  function ShotChartRow(s: ShotChart): Row
  {
    map[
      ExternalId := VInt(s.externalId), PlayerId := VStr(s.playerId),
      PlayerName := VStr(s.playerName), Top := VInt(s.top), Left := VInt(s.left),
      Date := VStr(s.date), Qtr := VStr(s.quarter), TimeRemaining := VStr(s.timeRemaining),
      Result := VBool(s.result), ShotType := VStr(s.shotType),
      DistanceFt := VInt(s.distanceFt), Lead := VBool(s.lead),
      TeamScore := VInt(s.teamScore), OpponentTeamScore := VInt(s.opponentTeamScore),
      Opponent := VStr(s.opponent), Team := VStr(s.team), Season := VInt(s.season)]
  }

  /** The row has exactly the table's columns. */
  lemma ShotChartRowColumns(s: ShotChart)
    ensures HasCols(ShotChartRow(s), ShotChartColumns)
    ensures ShotChartRow(s).Keys == Elems(ShotChartColumns)
  {
  }

  predicate IntAt(r: Row, c: Col) { c in r && r[c].VInt? }
  predicate StrAt(r: Row, c: Col) { c in r && r[c].VStr? }
  predicate BoolAt(r: Row, c: Col) { c in r && r[c].VBool? }

  /** A row whose columns hold values of the shot-chart field types. */
  predicate IsShotChartRow(r: Row) {
    && IntAt(r, ExternalId) && StrAt(r, PlayerId) && StrAt(r, PlayerName)
       && IntAt(r, Top) && IntAt(r, Left) && StrAt(r, Date) && StrAt(r, Qtr)
       && StrAt(r, TimeRemaining) && BoolAt(r, Result) && StrAt(r, ShotType)
       && IntAt(r, DistanceFt) && BoolAt(r, Lead) && IntAt(r, TeamScore)
       && IntAt(r, OpponentTeamScore) && StrAt(r, Opponent) && StrAt(r, Team)
       && IntAt(r, Season)
  }

  /** Reading a stored row back into the record, as a query does. */
  function ShotChartOfRow(r: Row): Option<ShotChart> {
    if IsShotChartRow(r)
    then Some(ShotChart(
      r[ExternalId].i, r[PlayerId].s, r[PlayerName].s, r[Top].i, r[Left].i,
      r[Date].s, r[Qtr].s, r[TimeRemaining].s, r[Result].b, r[ShotType].s,
      r[DistanceFt].i, r[Lead].b, r[TeamScore].i, r[OpponentTeamScore].i,
      r[Opponent].s, r[Team].s, r[Season].i))
    else None
  }

  /** A record written as a row reads back as the same record: every field
      has a column of its own, `Quarter` as `qtr` and `TimeRemaining` as
      `time_remaining`. */
  lemma ShotChartRowRoundTrip(s: ShotChart)
    ensures ShotChartOfRow(ShotChartRow(s)) == Some(s)
  {
    var r := ShotChartRow(s);
    assert IsShotChartRow(r);
    assert r[ExternalId].i == s.externalId && r[PlayerId].s == s.playerId;
    assert r[PlayerName].s == s.playerName && r[Top].i == s.top && r[Left].i == s.left;
    assert r[Date].s == s.date && r[Qtr].s == s.quarter && r[TimeRemaining].s == s.timeRemaining;
    assert r[Result].b == s.result && r[ShotType].s == s.shotType && r[DistanceFt].i == s.distanceFt;
    assert r[Lead].b == s.lead && r[TeamScore].i == s.teamScore;
    assert r[OpponentTeamScore].i == s.opponentTeamScore && r[Opponent].s == s.opponent;
    assert r[Team].s == s.team && r[Season].i == s.season;
  }

  /** The key a shot is filed under: its seven identity fields. */
  lemma ShotChartKey(s: ShotChart)
    ensures HasCols(ShotChartRow(s), ShotChartConflict)
    ensures Project(ShotChartRow(s), ShotChartConflict) == [
      VStr(s.playerId), VInt(s.season), VStr(s.date), VStr(s.quarter),
      VStr(s.timeRemaining), VInt(s.top), VInt(s.left)]
  {
  }

  // ---------------------------------------------------------------------
  // PlayerAdvancedStat

  datatype AdvancedStat = AdvancedStat(
    externalId: int,
    playerId: string,
    playerName: string,
    position: string,
    age: int,
    games: int,
    gamesStarted: int,
    minutesPlayed: int,
    per: real,
    tsPercent: real,
    threePAR: real,
    ftr: real,
    offensiveRBPercent: real,
    defensiveRBPercent: real,
    totalRBPercent: real,
    assistPercent: real,
    stealPercent: real,
    blockPercent: real,
    turnoverPercent: real,
    usagePercent: real,
    offensiveWS: real,
    defensiveWS: real,
    winShares: real,
    winSharesPer: real,
    offensiveBox: real,
    defensiveBox: real,
    box: real,
    vorp: real,
    team: string,
    season: int,
    isPlayoff: bool)

  const AdvancedColumns: seq<Col> := [
    ExternalId, PlayerId, PlayerName, Position, Age, Games,
    GamesStarted, MinutesPlayed, Per, TsPercent, ThreePar, Ftr,
    OffensiveRbPercent, DefensiveRbPercent, TotalRbPercent,
    AssistPercent, StealPercent, BlockPercent, TurnoverPercent,
    UsagePercent, OffensiveWs, DefensiveWs, WinShares,
    WinSharesPer, OffensiveBox, DefensiveBox, Box, Vorp,
    Team, Season, IsPlayoff]

  /** `idx_player_season_team`, in field order. */
  const AdvancedIndex: seq<Col> := [PlayerId, Team, Season, IsPlayoff]

  /** The conflict target of the scraper and of the playoffs API loader. */
  const AdvancedConflict: seq<Col> := [PlayerId, Season, Team, IsPlayoff]

  /** The conflict target of the regular-season API loader: no `is_playoff`. */
  const AdvancedApiConflict: seq<Col> := [PlayerId, Season, Team]

  /** The columns every advanced-stat conflict overwrites. */
  const AdvancedUpdates: seq<Col> := [
    ExternalId, PlayerName, Position, Age, Games,
    MinutesPlayed, Per, TsPercent, ThreePar, Ftr,
    OffensiveRbPercent, DefensiveRbPercent, TotalRbPercent,
    AssistPercent, StealPercent, BlockPercent, TurnoverPercent,
    UsagePercent, OffensiveWs, DefensiveWs, WinShares,
    WinSharesPer, OffensiveBox, DefensiveBox, Box, Vorp]

  function AdvancedRow(a: AdvancedStat): Row
  {
    map[
      ExternalId := VInt(a.externalId), PlayerId := VStr(a.playerId),
      PlayerName := VStr(a.playerName), Position := VStr(a.position),
      Age := VInt(a.age), Games := VInt(a.games), GamesStarted := VInt(a.gamesStarted),
      MinutesPlayed := VInt(a.minutesPlayed), Per := VReal(a.per),
      TsPercent := VReal(a.tsPercent), ThreePar := VReal(a.threePAR),
      Ftr := VReal(a.ftr), OffensiveRbPercent := VReal(a.offensiveRBPercent),
      DefensiveRbPercent := VReal(a.defensiveRBPercent),
      TotalRbPercent := VReal(a.totalRBPercent), AssistPercent := VReal(a.assistPercent),
      StealPercent := VReal(a.stealPercent), BlockPercent := VReal(a.blockPercent),
      TurnoverPercent := VReal(a.turnoverPercent), UsagePercent := VReal(a.usagePercent),
      OffensiveWs := VReal(a.offensiveWS), DefensiveWs := VReal(a.defensiveWS),
      WinShares := VReal(a.winShares), WinSharesPer := VReal(a.winSharesPer),
      OffensiveBox := VReal(a.offensiveBox), DefensiveBox := VReal(a.defensiveBox),
      Box := VReal(a.box), Vorp := VReal(a.vorp), Team := VStr(a.team),
      Season := VInt(a.season), IsPlayoff := VBool(a.isPlayoff)]
  }

  /** The row has exactly the table's columns. */
  lemma AdvancedRowColumns(a: AdvancedStat)
    ensures HasCols(AdvancedRow(a), AdvancedColumns)
    ensures AdvancedRow(a).Keys == Elems(AdvancedColumns)
  {
  }

  lemma AdvancedKey(a: AdvancedStat)
    ensures HasCols(AdvancedRow(a), AdvancedConflict)
    ensures Project(AdvancedRow(a), AdvancedConflict) ==
      [VStr(a.playerId), VInt(a.season), VStr(a.team), VBool(a.isPlayoff)]
  {
  }

  lemma AdvancedApiKey(a: AdvancedStat)
    ensures HasCols(AdvancedRow(a), AdvancedApiConflict)
    ensures Project(AdvancedRow(a), AdvancedApiConflict) ==
      [VStr(a.playerId), VInt(a.season), VStr(a.team)]
  {
  }

  // ---------------------------------------------------------------------
  // PlayerTotalStat

  datatype TotalStat = TotalStat(
    externalId: int,
    playerId: string,
    playerName: string,
    position: string,
    age: int,
    games: int,
    gamesStarted: int,
    minutesPG: real,
    fieldGoals: int,
    fieldAttempts: int,
    fieldPercent: real,
    threeFG: int,
    threeAttempts: int,
    threePercent: real,
    twoFG: int,
    twoAttempts: int,
    twoPercent: real,
    effectFGPercent: real,
    ft: int,
    ftAttempts: int,
    ftPercent: real,
    offensiveRB: int,
    defensiveRB: int,
    totalRB: int,
    assists: int,
    steals: int,
    blocks: int,
    turnovers: int,
    personalFouls: int,
    points: int,
    team: string,
    season: int,
    isPlayoff: bool)

  const TotalColumns: seq<Col> := [
    ExternalId, PlayerId, PlayerName, Position, Age, Games,
    GamesStarted, MinutesPg, FieldGoals, FieldAttempts, FieldPercent,
    ThreeFg, ThreeAttempts, ThreePercent, TwoFg, TwoAttempts,
    TwoPercent, EffectFgPercent, Ft, FtAttempts, FtPercent,
    OffensiveRb, DefensiveRb, TotalRb, Assists, Steals, Blocks,
    Turnovers, PersonalFouls, Points, Team, Season, IsPlayoff]

  /** `idx_total_player_season_team`, in field order. */
  const TotalIndex: seq<Col> := [PlayerId, Team, Season, IsPlayoff]

  const TotalConflict: seq<Col> := [PlayerId, Season, Team, IsPlayoff]

  /** The columns the scraper overwrites on conflict. */
  const TotalScrapeUpdates: seq<Col> := [
    ExternalId, PlayerName, Position, Age,
    Games, GamesStarted, MinutesPg,
    FieldGoals, FieldAttempts, FieldPercent,
    ThreeFg, ThreeAttempts, ThreePercent,
    TwoFg, TwoAttempts, TwoPercent,
    EffectFgPercent,
    Ft, FtAttempts, FtPercent,
    OffensiveRb, DefensiveRb, TotalRb,
    Assists, Steals, Blocks, Turnovers,
    PersonalFouls, Points]

  /** The columns the playoffs API loader overwrites: `external_id` is not among them. */
  const TotalPlayoffsUpdates: seq<Col> := [
    PlayerName, Position, Age, Games, GamesStarted,
    MinutesPg, FieldGoals, FieldAttempts, FieldPercent,
    ThreeFg, ThreeAttempts, ThreePercent, TwoFg, TwoAttempts,
    TwoPercent, EffectFgPercent, Ft, FtAttempts, FtPercent,
    OffensiveRb, DefensiveRb, TotalRb, Assists, Steals,
    Blocks, Turnovers, PersonalFouls, Points]

  function TotalRow(t: TotalStat): Row
  {
    map[
      ExternalId := VInt(t.externalId), PlayerId := VStr(t.playerId),
      PlayerName := VStr(t.playerName), Position := VStr(t.position),
      Age := VInt(t.age), Games := VInt(t.games), GamesStarted := VInt(t.gamesStarted),
      MinutesPg := VReal(t.minutesPG), FieldGoals := VInt(t.fieldGoals),
      FieldAttempts := VInt(t.fieldAttempts), FieldPercent := VReal(t.fieldPercent),
      ThreeFg := VInt(t.threeFG), ThreeAttempts := VInt(t.threeAttempts),
      ThreePercent := VReal(t.threePercent), TwoFg := VInt(t.twoFG),
      TwoAttempts := VInt(t.twoAttempts), TwoPercent := VReal(t.twoPercent),
      EffectFgPercent := VReal(t.effectFGPercent), Ft := VInt(t.ft),
      FtAttempts := VInt(t.ftAttempts), FtPercent := VReal(t.ftPercent),
      OffensiveRb := VInt(t.offensiveRB), DefensiveRb := VInt(t.defensiveRB),
      TotalRb := VInt(t.totalRB), Assists := VInt(t.assists), Steals := VInt(t.steals),
      Blocks := VInt(t.blocks), Turnovers := VInt(t.turnovers),
      PersonalFouls := VInt(t.personalFouls), Points := VInt(t.points),
      Team := VStr(t.team), Season := VInt(t.season), IsPlayoff := VBool(t.isPlayoff)]
  }

  /** The row has exactly the table's columns. */
  lemma TotalRowColumns(t: TotalStat)
    ensures HasCols(TotalRow(t), TotalColumns)
    ensures TotalRow(t).Keys == Elems(TotalColumns)
  {
  }

  lemma TotalKey(t: TotalStat)
    ensures HasCols(TotalRow(t), TotalConflict)
    ensures Project(TotalRow(t), TotalConflict) ==
      [VStr(t.playerId), VInt(t.season), VStr(t.team), VBool(t.isPlayoff)]
  {
  }

  // ---------------------------------------------------------------------
  // How the conflict targets and update lists relate to the schema.

  predicate Disjoint(a: seq<Col>, b: seq<Col>) {
    forall i, j | 0 <= i < |a| && 0 <= j < |b| :: a[i] != b[j]
  }

  /** The shot-chart update list: nine columns of the table, none of them
      an identity column or the id. */
  lemma ShotChartUpdateList()
    ensures |ShotChartUpdates| == 9 && Disjoint(ShotChartUpdates, ShotChartConflict)
  {
  }

  lemma ShotChartUpdateColumns()
    ensures IdColumn !in ShotChartUpdates && IdColumn !in ShotChartConflict
    ensures Elems(ShotChartUpdates) <= Elems(ShotChartColumns)
    ensures Elems(ShotChartConflict) <= Elems(ShotChartColumns)
  {
  }

  /** The advanced update list: 26 columns, none of them in the conflict target. */
  lemma AdvancedUpdateList()
    ensures |AdvancedUpdates| == 26 && Disjoint(AdvancedUpdates, AdvancedConflict)
  {
  }

  /** `external_id` is overwritten, `games_started` is not. */
  lemma AdvancedUpdateColumns()
    ensures ExternalId in AdvancedUpdates && GamesStarted !in AdvancedUpdates
  {
  }

  /** The id is never overwritten and is part of no advanced key. */
  lemma AdvancedUpdatesHaveNoId()
    ensures IdColumn !in AdvancedUpdates
  {
  }

  lemma AdvancedKeysHaveNoId()
    ensures IdColumn !in AdvancedIndex && IdColumn !in AdvancedApiConflict
  {
  }

  lemma AdvancedUpdatesInTable()
    ensures Elems(AdvancedUpdates) <= Elems(AdvancedColumns)
  {
  }

  /** The scraper's totals update list: 29 columns, none of them in the conflict target. */
  lemma TotalScrapeUpdateList()
    ensures |TotalScrapeUpdates| == 29 && Disjoint(TotalScrapeUpdates, TotalConflict)
  {
  }

  /** `external_id` is among the scraper's overwritten columns; the id is not. */
  lemma TotalScrapeUpdateColumns()
    ensures ExternalId in TotalScrapeUpdates && IdColumn !in TotalScrapeUpdates
  {
  }

  lemma TotalIndexHasNoId()
    ensures IdColumn !in TotalIndex
  {
  }

  lemma TotalScrapeUpdatesInTable()
    ensures Elems(TotalScrapeUpdates) <= Elems(TotalColumns)
  {
  }

  /** The playoffs API loader's totals update list: 28 columns, none of them in the conflict target. */
  lemma TotalPlayoffsUpdateList()
    ensures |TotalPlayoffsUpdates| == 28 && Disjoint(TotalPlayoffsUpdates, TotalConflict)
  {
  }

  /** The playoffs API loader leaves `external_id` and the id alone. */
  lemma TotalPlayoffsUpdateColumns()
    ensures ExternalId !in TotalPlayoffsUpdates && IdColumn !in TotalPlayoffsUpdates
  {
  }

  lemma TotalPlayoffsUpdatesInTable()
    ensures Elems(TotalPlayoffsUpdates) <= Elems(TotalColumns)
  {
  }

  /** The 4-column targets match their declared indexes; the shot-chart
      target and the regular-season advanced API target match none. */
  lemma ConflictTargetsAgainstIndexes()
    ensures Elems(AdvancedConflict) == Elems(AdvancedIndex)
    ensures Elems(TotalConflict) == Elems(TotalIndex)
    ensures Elems(ShotChartConflict) != Elems(ShotChartDeclaredIndex)
    ensures Elems(AdvancedApiConflict) != Elems(AdvancedIndex)
  {
    assert Season in Elems(ShotChartConflict);
    assert IsPlayoff in Elems(AdvancedIndex);
  }
}
