/** The four import loops of `import.go`. Each walks the seasons 2017 to
    2022 upwards, calls one scrape service per season, logs and ignores a
    returned error, and then pauses 1100ms plus a jittered pause whose base
    differs per loop. A panic inside a service is not recovered and ends the
    program. The services' collaborators are parameters, per season where
    they can differ between seasons; the random draw of each pause is one of
    them. */
module ImportLoops {
  import opened Wrappers
  import opened GoInt
  import opened Database
  import opened Jitter
  import AdvancedScrape
  import TotalScrape

  const FirstSeason: int := 2017
  const LastSeason: int := 2022

  /** `time.Sleep(1100 * time.Millisecond)` after every season. */
  const FixedPause: int := 1100 * Millisecond

  /** How a season ended, as the loop sees it. */
  datatype SeasonResult = Stored | Logged | Crashed

  /** What a loop did: the seasons it called the service for, in order,
      those whose error it logged, the pause after each season that
      returned, and whether a panic ended it. */
  datatype ImportRun = ImportRun(attempted: seq<int>, failed: seq<int>, pauses: seq<int>, crashed: bool)

  /** The draws of `rand.Int63n` are valid for `base` in every season. */
  ghost predicate Draws(base: int, draws: int -> int) {
    IsInt64(base) && base >= 2 && forall season :: IsDraw(base, draws(season))
  }

  /** The pause after `season`: the fixed 1100ms, then the jittered
      pause for that season's draw. */
  function PauseAfter(base: int, draws: int -> int, season: int): int
    requires Draws(base, draws)
  {
    FixedPause + SleepWithJitter(base, draws(season)).value
  }

  /** The pause after each season of a loop with jitter base `base`. */
  function Pauses(base: int, draws: int -> int): int -> int
    requires Draws(base, draws)
  {
    season => PauseAfter(base, draws, season)
  }

  /** Nothing done yet. */
  const Start: ImportRun := ImportRun([], [], [], false)

  /** What was done once `season` has returned `r` and paused `pause`. */
  function Next(done: ImportRun, season: int, r: SeasonResult, pause: int): ImportRun {
    ImportRun(done.attempted + [season], done.failed + (if r.Logged? then [season] else []), done.pauses + [pause], false)
  }

  /** The loop from `season` up to `LastSeason`, after `done`, given what
      calling the service does to the table in each season and how long the
      loop pauses after it: the run it ends with and the table it leaves. */
  function Imports(t: Table, season: int, step: (Table, int) --> (SeasonResult, Table), pause: int -> int,
                   done: ImportRun): (ImportRun, Table)
    requires forall t', s :: step.requires(t', s)
    decreases LastSeason + 1 - season
  {
    if season > LastSeason then (done, t)
    else
      var (r, t1) := step(t, season);
      if r.Crashed? then (ImportRun(done.attempted + [season], done.failed, done.pauses, true), t1)
      else Imports(t1, season + 1, step, pause, Next(done, season, r, pause(season)))
  }

  // ---------------------------------------------------------------------
  // The two services as loop steps.

  function AdvancedResult(o: AdvancedScrape.Outcome): SeasonResult {
    match o
    case Done => Stored
    case Err(_) => Logged
    case Panicked => Crashed
  }

  function TotalResult(o: TotalScrape.Outcome): SeasonResult {
    match o
    case Done => Stored
    case Err(_) => Logged
    case Panicked => Crashed
  }

  /** One season of an advanced-stats loop. */
  function AdvancedStep(constraint: seq<Col>, isPlayoff: bool, fetch: string -> AdvancedScrape.Page,
                        reparse: string -> Option<AdvancedScrape.Document>,
                        refused: int -> bool): (Table, int) --> (SeasonResult, Table)
  {
    (t: Table, season: int) requires AdvancedScrape.AdvancedTable(constraint) =>
      var (o, t') := AdvancedScrape.Scrape(t, constraint, season, isPlayoff, fetch, reparse, refused(season));
      (AdvancedResult(o), t')
  }

  /** One season of a totals loop. */
  function TotalStep(constraint: seq<Col>, isPlayoff: bool, fetch: string -> TotalScrape.Page,
                     refused: int -> bool): (Table, int) --> (SeasonResult, Table)
  {
    (t: Table, season: int) requires TotalScrape.TotalTable(constraint) =>
      var (o, t') := TotalScrape.Scrape(t, constraint, season, isPlayoff, fetch, refused(season));
      (TotalResult(o), t')
  }

  /** `step` ends each season as the advanced scraper does. The link is
      triggered by the scraper's own term only, so a loop that reasons about
      `step` does not unfold the scraper. */
  ghost predicate IsAdvancedStep(step: (Table, int) --> (SeasonResult, Table), constraint: seq<Col>, isPlayoff: bool,
                                 fetch: string -> AdvancedScrape.Page,
                                 reparse: string -> Option<AdvancedScrape.Document>, refused: int -> bool)
    requires AdvancedScrape.AdvancedTable(constraint)
  {
    forall t: Table, s: int {:trigger AdvancedScrape.Scrape(t, constraint, s, isPlayoff, fetch, reparse, refused(s))} ::
      step.requires(t, s)
      && step(t, s) == (AdvancedResult(AdvancedScrape.Scrape(t, constraint, s, isPlayoff, fetch, reparse, refused(s)).0),
                        AdvancedScrape.Scrape(t, constraint, s, isPlayoff, fetch, reparse, refused(s)).1)
  }

  /** `step` ends each season as the totals scraper does. */
  ghost predicate IsTotalStep(step: (Table, int) --> (SeasonResult, Table), constraint: seq<Col>, isPlayoff: bool,
                              fetch: string -> TotalScrape.Page, refused: int -> bool)
    requires TotalScrape.TotalTable(constraint)
  {
    forall t: Table, s: int {:trigger TotalScrape.Scrape(t, constraint, s, isPlayoff, fetch, refused(s))} ::
      step.requires(t, s)
      && step(t, s) == (TotalResult(TotalScrape.Scrape(t, constraint, s, isPlayoff, fetch, refused(s)).0),
                        TotalScrape.Scrape(t, constraint, s, isPlayoff, fetch, refused(s)).1)
  }

  /** `AdvancedStep` is total and ends each season as the scraper does. */
  lemma AdvancedStepIsAdvanced(constraint: seq<Col>, isPlayoff: bool, fetch: string -> AdvancedScrape.Page,
                               reparse: string -> Option<AdvancedScrape.Document>, refused: int -> bool)
    requires AdvancedScrape.AdvancedTable(constraint)
    ensures var step := AdvancedStep(constraint, isPlayoff, fetch, reparse, refused);
      (forall t, s :: step.requires(t, s)) && IsAdvancedStep(step, constraint, isPlayoff, fetch, reparse, refused)
  {
  }

  /** `TotalStep` is total and ends each season as the scraper does. */
  lemma TotalStepIsTotal(constraint: seq<Col>, isPlayoff: bool, fetch: string -> TotalScrape.Page, refused: int -> bool)
    requires TotalScrape.TotalTable(constraint)
    ensures var step := TotalStep(constraint, isPlayoff, fetch, refused);
      (forall t, s :: step.requires(t, s)) && IsTotalStep(step, constraint, isPlayoff, fetch, refused)
  {
  }

  // ---------------------------------------------------------------------
  // The loops.

  /** One season of an advanced-stats loop: the service call, seen as the
      loop sees its outcome. */
  method AdvancedSeason(db: Db, season: int, isPlayoff: bool, fetch: string -> AdvancedScrape.Page,
                        reparse: string -> Option<AdvancedScrape.Document>, refused: int -> bool,
                        ghost step: (Table, int) --> (SeasonResult, Table))
    returns (r: SeasonResult)
    requires db.Valid() && AdvancedScrape.AdvancedTable(db.constraint)
    requires IsAdvancedStep(step, db.constraint, isPlayoff, fetch, reparse, refused)
    modifies db
    ensures db.Valid()
    ensures step.requires(old(db.table), season) && (r, db.table) == step(old(db.table), season)
  {
    var outcome := AdvancedScrape.FetchAndStorePlayerAdvancedScrapedStats(db, season, isPlayoff, fetch, reparse,
                                                                         refused(season));
    r := AdvancedResult(outcome);
  }

  /** One season of a totals loop. */
  method TotalSeason(db: Db, season: int, isPlayoff: bool, fetch: string -> TotalScrape.Page, refused: int -> bool,
                     ghost step: (Table, int) --> (SeasonResult, Table))
    returns (r: SeasonResult)
    requires db.Valid() && TotalScrape.TotalTable(db.constraint)
    requires IsTotalStep(step, db.constraint, isPlayoff, fetch, refused)
    modifies db
    ensures db.Valid()
    ensures step.requires(old(db.table), season) && (r, db.table) == step(old(db.table), season)
  {
    var outcome := TotalScrape.FetchAndStorePlayerTotalScrapedStats(db, season, isPlayoff, fetch, refused(season));
    r := TotalResult(outcome);
  }

  /** The loop body shared by `importPlayerAdvanced` and
      `importPlayerAdvancedPlayoffs`; `fetch`, `reparse` and `refused`
      stand for the service's collaborators, `pause` for how long the loop
      sleeps after each season, and the ghost `step` for what one service
      call does to the table. */
  method ImportAdvanced(db: Db, isPlayoff: bool, fetch: string -> AdvancedScrape.Page,
                        reparse: string -> Option<AdvancedScrape.Document>, refused: int -> bool,
                        pause: int -> int, ghost step: (Table, int) --> (SeasonResult, Table)) returns (run: ImportRun)
    requires db.Valid() && AdvancedScrape.AdvancedTable(db.constraint)
    requires (forall t, s :: step.requires(t, s)) && IsAdvancedStep(step, db.constraint, isPlayoff, fetch, reparse, refused)
    modifies db
    ensures db.Valid()
    ensures (run, db.table) == Imports(old(db.table), FirstSeason, step, pause, Start)
  {
    var done := Start;
    var season := FirstSeason;
    while season <= LastSeason
      invariant db.Valid() && season <= LastSeason + 1 && !done.crashed
      invariant Imports(db.table, season, step, pause, done) == Imports(old(db.table), FirstSeason, step, pause, Start)
      decreases LastSeason + 1 - season
    {
      var r := AdvancedSeason(db, season, isPlayoff, fetch, reparse, refused, step);
      if r.Crashed? {
        return ImportRun(done.attempted + [season], done.failed, done.pauses, true);
      }
      done := Next(done, season, r, pause(season));
      season := season + 1;
    }
    return done;
  }

  /** The loop body shared by `importPlayerTotalsScrape` and
      `importPlayerTotalsPlayoffsScrape`. */
  method ImportTotals(db: Db, isPlayoff: bool, fetch: string -> TotalScrape.Page, refused: int -> bool,
                      pause: int -> int, ghost step: (Table, int) --> (SeasonResult, Table))
    returns (run: ImportRun)
    requires db.Valid() && TotalScrape.TotalTable(db.constraint)
    requires (forall t, s :: step.requires(t, s)) && IsTotalStep(step, db.constraint, isPlayoff, fetch, refused)
    modifies db
    ensures db.Valid()
    ensures (run, db.table) == Imports(old(db.table), FirstSeason, step, pause, Start)
  {
    var done := Start;
    var season := FirstSeason;
    while season <= LastSeason
      invariant db.Valid() && season <= LastSeason + 1 && !done.crashed
      invariant Imports(db.table, season, step, pause, done) == Imports(old(db.table), FirstSeason, step, pause, Start)
      decreases LastSeason + 1 - season
    {
      var r := TotalSeason(db, season, isPlayoff, fetch, refused, step);
      if r.Crashed? {
        return ImportRun(done.attempted + [season], done.failed, done.pauses, true);
      }
      done := Next(done, season, r, pause(season));
      season := season + 1;
    }
    return done;
  }

  /** `importPlayerAdvanced`: regular-season advanced stats, 1000ms base. */
  method ImportPlayerAdvanced(db: Db, fetch: string -> AdvancedScrape.Page,
                              reparse: string -> Option<AdvancedScrape.Document>, refused: int -> bool,
                              draws: int -> int) returns (run: ImportRun)
    requires db.Valid() && AdvancedScrape.AdvancedTable(db.constraint) && Draws(1000 * Millisecond, draws)
    modifies db
    ensures db.Valid()
    ensures (run, db.table) ==
      Imports(old(db.table), FirstSeason, AdvancedStep(db.constraint, false, fetch, reparse, refused), Pauses(1000 * Millisecond, draws), Start)
  {
    AdvancedStepIsAdvanced(db.constraint, false, fetch, reparse, refused);
    run := ImportAdvanced(db, false, fetch, reparse, refused, Pauses(1000 * Millisecond, draws),
                          AdvancedStep(db.constraint, false, fetch, reparse, refused));
  }

  /** `importPlayerAdvancedPlayoffs`: playoff advanced stats, 1250ms base. */
  method ImportPlayerAdvancedPlayoffs(db: Db, fetch: string -> AdvancedScrape.Page,
                                      reparse: string -> Option<AdvancedScrape.Document>, refused: int -> bool,
                                      draws: int -> int) returns (run: ImportRun)
    requires db.Valid() && AdvancedScrape.AdvancedTable(db.constraint) && Draws(1250 * Millisecond, draws)
    modifies db
    ensures db.Valid()
    ensures (run, db.table) ==
      Imports(old(db.table), FirstSeason, AdvancedStep(db.constraint, true, fetch, reparse, refused), Pauses(1250 * Millisecond, draws), Start)
  {
    AdvancedStepIsAdvanced(db.constraint, true, fetch, reparse, refused);
    run := ImportAdvanced(db, true, fetch, reparse, refused, Pauses(1250 * Millisecond, draws),
                          AdvancedStep(db.constraint, true, fetch, reparse, refused));
  }

  /** `importPlayerTotalsScrape`: regular-season totals, 1500ms base. */
  method ImportPlayerTotalsScrape(db: Db, fetch: string -> TotalScrape.Page, refused: int -> bool,
                                  draws: int -> int) returns (run: ImportRun)
    requires db.Valid() && TotalScrape.TotalTable(db.constraint) && Draws(1500 * Millisecond, draws)
    modifies db
    ensures db.Valid()
    ensures (run, db.table) ==
      Imports(old(db.table), FirstSeason, TotalStep(db.constraint, false, fetch, refused), Pauses(1500 * Millisecond, draws), Start)
  {
    TotalStepIsTotal(db.constraint, false, fetch, refused);
    run := ImportTotals(db, false, fetch, refused, Pauses(1500 * Millisecond, draws),
                        TotalStep(db.constraint, false, fetch, refused));
  }

  /** `importPlayerTotalsPlayoffsScrape`: playoff totals, 1750ms base. */
  method ImportPlayerTotalsPlayoffsScrape(db: Db, fetch: string -> TotalScrape.Page, refused: int -> bool,
                                          draws: int -> int) returns (run: ImportRun)
    requires db.Valid() && TotalScrape.TotalTable(db.constraint) && Draws(1750 * Millisecond, draws)
    modifies db
    ensures db.Valid()
    ensures (run, db.table) ==
      Imports(old(db.table), FirstSeason, TotalStep(db.constraint, true, fetch, refused), Pauses(1750 * Millisecond, draws), Start)
  {
    TotalStepIsTotal(db.constraint, true, fetch, refused);
    run := ImportTotals(db, true, fetch, refused, Pauses(1750 * Millisecond, draws),
                        TotalStep(db.constraint, true, fetch, refused));
  }

  // ---------------------------------------------------------------------
  // What the loops promise.

  /** The seasons `lo..hi` in ascending order. */
  function Range(lo: int, hi: int): (r: seq<int>)
    decreases hi + 1 - lo
  {
    if lo > hi then [] else [lo] + Range(lo + 1, hi)
  }

  /** From any point of a loop: a run that no panic ends goes on to call
      the service once for every season from `season` to 2022, in
      ascending order, with one pause after each; one that a panic ends
      stops right after the season that panicked, which has no pause; and
      an error is logged only for a season that was called. */
  lemma {:induction false} VisitFrom(t: Table, season: int, step: (Table, int) --> (SeasonResult, Table),
                                     pause: int -> int, done: ImportRun)
    requires forall t', s :: step.requires(t', s)
    requires !done.crashed && |done.pauses| == |done.attempted| && forall s | s in done.failed :: s in done.attempted
    ensures var run := Imports(t, season, step, pause, done).0;
      && |done.pauses| <= |run.pauses|
      && (!run.crashed ==> run.attempted == done.attempted + Range(season, LastSeason) && |run.pauses| == |run.attempted|)
      && (run.crashed ==> run.attempted == done.attempted + Range(season, season + |run.pauses| - |done.pauses|)
                          && |run.attempted| == |run.pauses| + 1)
      && (forall s | s in run.failed :: s in run.attempted)
    decreases LastSeason + 1 - season
  {
    if season > LastSeason {
      assert done.attempted + [] == done.attempted;
    } else {
      var (r, t1) := step(t, season);
      if r.Crashed? {
        assert Range(season, season) == [season];
      } else {
        var next := Next(done, season, r, pause(season));
        VisitFrom(t1, season + 1, step, pause, next);
        var run := Imports(t1, season + 1, step, pause, next).0;
        var hi := if run.crashed then season + |run.pauses| - |done.pauses| else LastSeason;
        assert done.attempted + [season] + Range(season + 1, hi) == done.attempted + Range(season, hi);
      }
    }
  }

  /** A loop that no panic ends calls the service once for every season
      from 2017 to 2022, in ascending order, and pauses once after each of
      them; one that a panic ends has called the seasons from 2017 up to
      the one that panicked, and paused after each but that one; an error
      is logged only for a season that was called. */
  lemma ImportsVisitEachSeason(t: Table, step: (Table, int) --> (SeasonResult, Table), pause: int -> int)
    requires forall t', s :: step.requires(t', s)
    ensures var run := Imports(t, FirstSeason, step, pause, Start).0;
      && (!run.crashed ==> run.attempted == Range(FirstSeason, LastSeason) && |run.pauses| == |run.attempted|)
      && (run.crashed ==> run.attempted == Range(FirstSeason, FirstSeason + |run.pauses|))
      && (forall s | s in run.failed :: s in run.attempted)
  {
    VisitFrom(t, FirstSeason, step, pause, Start);
    var run := Imports(t, FirstSeason, step, pause, Start).0;
    assert [] + Range(FirstSeason, LastSeason) == Range(FirstSeason, LastSeason);
    assert [] + Range(FirstSeason, FirstSeason + |run.pauses|) == Range(FirstSeason, FirstSeason + |run.pauses|);
  }

  /** Every pause is the fixed 1100ms plus a jitter within a quarter of
      `base`. */
  predicate PausesWithin(pauses: seq<int>, base: int) {
    forall k | 0 <= k < |pauses| :: 4 * Abs(pauses[k] - FixedPause - base) <= base
  }

  /** Every pause a loop makes is the fixed 1100ms plus a jitter within a
      quarter of the loop's base: the loop keeps that true of the pauses
      made so far. */
  lemma {:induction false} ImportPausesBounded(t: Table, season: int, step: (Table, int) --> (SeasonResult, Table),
                                               base: int, draws: int -> int, done: ImportRun)
    requires forall t', s :: step.requires(t', s)
    requires Draws(base, draws) && NoWrap(base)
    requires PausesWithin(done.pauses, base)
    ensures PausesWithin(Imports(t, season, step, Pauses(base, draws), done).0.pauses, base)
    decreases LastSeason + 1 - season
  {
    if season <= LastSeason {
      var (r, t1) := step(t, season);
      if !r.Crashed? {
        var pause := PauseAfter(base, draws, season);
        WithinAQuarter(base, draws(season));
        var next := Next(done, season, r, pause);
        forall k | 0 <= k < |next.pauses|
          ensures 4 * Abs(next.pauses[k] - FixedPause - base) <= base
        {
          if k < |done.pauses| {
            assert next.pauses[k] == done.pauses[k];
          }
        }
        ImportPausesBounded(t1, season + 1, step, base, draws, next);
        assert Pauses(base, draws)(season) == pause;
      }
    }
  }

  /** A season whose call returns an error leaves the table as it was, so
      a loop whose every season fails writes nothing and logs every season
      it calls. */
  lemma {:induction false} FailedSeasonsWriteNothing(t: Table, season: int, constraint: seq<Col>, isPlayoff: bool,
                                                     fetch: string -> TotalScrape.Page, refused: int -> bool,
                                                     pause: int -> int, done: ImportRun)
    requires TotalScrape.TotalTable(constraint)
    requires forall s :: TotalScrape.Scrape(t, constraint, s, isPlayoff, fetch, refused(s)).0.Err?
    requires done.failed == done.attempted
    ensures var (run, t') := Imports(t, season, TotalStep(constraint, isPlayoff, fetch, refused), pause, done);
      t' == t && run.failed == run.attempted
    decreases LastSeason + 1 - season
  {
    if season <= LastSeason {
      TotalScrape.FailureWritesNothing(t, constraint, season, isPlayoff, fetch, refused(season));
      FailedSeasonsWriteNothing(t, season + 1, constraint, isPlayoff, fetch, refused, pause,
                                Next(done, season, Logged, pause(season)));
    }
  }
}
