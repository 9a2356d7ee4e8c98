/** The part of the database the loaders rely on: a table with one unique
    constraint besides its surrogate `id`, written with
    `INSERT ... ON CONFLICT (cols) DO UPDATE SET c = excluded.c` for each
    column `c` of an update list, which is the statement gorm issues for
    `db.Clauses(clause.OnConflict{Columns: ..., DoUpdates: clause.AssignmentColumns(...)}).Create(...)`. */
module Database {
  import opened Wrappers

  /** The columns of the three tables. Each constructor is its SQL column
      name in CamelCase: `PlayerId` is `player_id`, `Qtr` is `qtr`,
      `ThreePar` is `three_par`, `WinSharesPer` is `win_shares_per`. */
  datatype Col =
    | Id | ExternalId | PlayerId | PlayerName | Team | Season | IsPlayoff
    // player_shot_charts
    | Top | Left | Date | Qtr | TimeRemaining | Result | ShotType | DistanceFt
    | Lead | TeamScore | OpponentTeamScore | Opponent
    // player_advanced_stats and player_total_stats
    | Position | Age | Games | GamesStarted
    | MinutesPlayed | Per | TsPercent | ThreePar | Ftr | OffensiveRbPercent
    | DefensiveRbPercent | TotalRbPercent | AssistPercent | StealPercent
    | BlockPercent | TurnoverPercent | UsagePercent | OffensiveWs | DefensiveWs
    | WinShares | WinSharesPer | OffensiveBox | DefensiveBox | Box | Vorp
    | MinutesPg | FieldGoals | FieldAttempts | FieldPercent | ThreeFg
    | ThreeAttempts | ThreePercent | TwoFg | TwoAttempts | TwoPercent
    | EffectFgPercent | Ft | FtAttempts | FtPercent | OffensiveRb | DefensiveRb
    | TotalRb | Assists | Steals | Blocks | Turnovers | PersonalFouls | Points

  datatype Value = VInt(i: int) | VStr(s: string) | VBool(b: bool) | VReal(r: real)

  /** A row, as column name to stored value. */
  type Row = map<Col, Value>

  /** The values of a row under the columns of a unique constraint. */
  type Key = seq<Value>

  /** The surrogate primary key every model carries, assigned by the database on insert. */
  const IdColumn: Col := Id

  predicate HasCols(row: Row, cols: seq<Col>) {
    forall i | 0 <= i < |cols| :: cols[i] in row
  }

  function Project(row: Row, cols: seq<Col>): Key
    requires HasCols(row, cols)
  {
    seq(|cols|, i requires 0 <= i < |cols| => row[cols[i]])
  }

  function Elems(cols: seq<Col>): set<Col> {
    set c | c in cols
  }

  /** What `DO UPDATE SET` makes of a stored row: each listed column the
      proposed row carries takes the proposed value; every other column keeps
      what was stored. */
  function Assign(stored: Row, proposed: Row, updates: seq<Col>): Row {
    map c | c in stored.Keys + (set u | u in updates && u in proposed) ::
      if c in updates && c in proposed then proposed[c] else stored[c]
  }

  datatype Table = Table(rows: map<Key, Row>, nextId: nat)

  /** A fresh table: no rows, and the id sequence starting at 1. */
  const Empty: Table := Table(map[], 1)

  /** One proposed row against the table. */
  function Upsert(t: Table, keyCols: seq<Col>, updates: seq<Col>, row: Row): Table
    requires HasCols(row, keyCols)
  {
    var k := Project(row, keyCols);
    if k in t.rows then Table(t.rows[k := Assign(t.rows[k], row, updates)], t.nextId)
    else Table(t.rows[k := row[IdColumn := VInt(t.nextId)]], t.nextId + 1)
  }

  predicate AllHaveCols(rows: seq<Row>, cols: seq<Col>) {
    forall i | 0 <= i < |rows| :: HasCols(rows[i], cols)
  }

  /** The rows of one multi-row statement, applied in order. */
  function UpsertAll(t: Table, keyCols: seq<Col>, updates: seq<Col>, rows: seq<Row>): Table
    requires AllHaveCols(rows, keyCols)
    decreases |rows|
  {
    if |rows| == 0 then t
    else UpsertAll(Upsert(t, keyCols, updates, rows[0]), keyCols, updates, rows[1..])
  }

  /** No two proposed rows share a key: otherwise Postgres refuses the whole
      statement, since `ON CONFLICT DO UPDATE` cannot affect a row twice. */
  predicate DistinctKeys(rows: seq<Row>, keyCols: seq<Col>)
    requires AllHaveCols(rows, keyCols)
  {
    forall i, j | 0 <= i < j < |rows| :: Project(rows[i], keyCols) != Project(rows[j], keyCols)
  }

  function KeysOf(rows: seq<Row>, keyCols: seq<Col>): set<Key>
    requires AllHaveCols(rows, keyCols)
  {
    set i | 0 <= i < |rows| :: Project(rows[i], keyCols)
  }

  /** The table's invariant: every row is filed under its own key and
      carries an id of its own below the next id to hand out. */
  ghost predicate Consistent(t: Table, keyCols: seq<Col>) {
    && t.nextId > 0
    && (forall k | k in t.rows :: HasCols(t.rows[k], keyCols) && Project(t.rows[k], keyCols) == k)
    && (forall k | k in t.rows :: IdColumn in t.rows[k] && t.rows[k][IdColumn].VInt?
                                  && 0 < t.rows[k][IdColumn].i < t.nextId)
    && (forall k1, k2 | k1 in t.rows && k2 in t.rows && k1 != k2 :: t.rows[k1][IdColumn] != t.rows[k2][IdColumn])
  }

  // ---------------------------------------------------------------------
  // Laws of one upsert.

  /** Only the proposed row's key is touched: every other stored row is
      unchanged, and the key is present afterwards. */
  lemma UpsertFrame(t: Table, keyCols: seq<Col>, updates: seq<Col>, row: Row)
    requires HasCols(row, keyCols)
    ensures var t' := Upsert(t, keyCols, updates, row);
      && t'.rows.Keys == t.rows.Keys + {Project(row, keyCols)}
      && (forall k | k in t.rows && k != Project(row, keyCols) :: t'.rows[k] == t.rows[k])
  {
  }

  /** A new key inserts the proposed row whole, with a fresh id. */
  lemma UpsertInserts(t: Table, keyCols: seq<Col>, updates: seq<Col>, row: Row)
    requires HasCols(row, keyCols) && Consistent(t, keyCols)
    requires Project(row, keyCols) !in t.rows
    ensures var stored := Upsert(t, keyCols, updates, row).rows[Project(row, keyCols)];
      && stored.Keys == row.Keys + {IdColumn}
      && (forall c | c in row && c != IdColumn :: stored[c] == row[c])
      && (forall k | k in t.rows :: t.rows[k][IdColumn] != stored[IdColumn])
  {
  }

  /** A key already stored is updated in the listed columns only: they take
      the proposed values, while the identity columns, the id and every
      insert-only column keep what was stored. */
  lemma UpsertUpdates(t: Table, keyCols: seq<Col>, updates: seq<Col>, row: Row)
    requires HasCols(row, keyCols)
    requires Project(row, keyCols) in t.rows
    ensures var k := Project(row, keyCols);
      var stored := Upsert(t, keyCols, updates, row).rows[k];
      && (forall c | c in updates && c in row :: stored[c] == row[c])
      && (forall c | c in t.rows[k] && c !in updates :: stored[c] == t.rows[k][c])
      && Upsert(t, keyCols, updates, row).nextId == t.nextId
  {
  }

  lemma {:induction false} ProjectAssign(stored: Row, proposed: Row, updates: seq<Col>, keyCols: seq<Col>)
    requires HasCols(stored, keyCols) && HasCols(proposed, keyCols)
    requires Project(stored, keyCols) == Project(proposed, keyCols)
    ensures HasCols(Assign(stored, proposed, updates), keyCols)
    ensures Project(Assign(stored, proposed, updates), keyCols) == Project(stored, keyCols)
  {
    var r := Assign(stored, proposed, updates);
    forall i | 0 <= i < |keyCols|
      ensures r[keyCols[i]] == stored[keyCols[i]]
    {
      assert Project(stored, keyCols)[i] == Project(proposed, keyCols)[i];
    }
  }

  /** An upsert keeps the table's invariant, even when the update list
      names an identity column (a conflicting row has the same values there). */
  lemma UpsertKeepsValid(t: Table, keyCols: seq<Col>, updates: seq<Col>, row: Row)
    requires HasCols(row, keyCols) && Consistent(t, keyCols)
    requires IdColumn !in keyCols && IdColumn !in updates
    ensures Consistent(Upsert(t, keyCols, updates, row), keyCols)
  {
    var k := Project(row, keyCols);
    var t' := Upsert(t, keyCols, updates, row);
    if k in t.rows {
      ProjectAssign(t.rows[k], row, updates, keyCols);
    } else {
      var r := row[IdColumn := VInt(t.nextId)];
      forall i | 0 <= i < |keyCols|
        ensures keyCols[i] in r && r[keyCols[i]] == row[keyCols[i]]
      {
        assert keyCols[i] != IdColumn;
      }
      assert Project(r, keyCols) == k;
    }
  }

  lemma AssignIdempotent(stored: Row, proposed: Row, updates: seq<Col>)
    ensures Assign(Assign(stored, proposed, updates), proposed, updates) == Assign(stored, proposed, updates)
  {
  }

  /** Repeating an upsert changes nothing: re-running a loader over the same
      data leaves the table as the first run left it. */
  lemma UpsertIdempotent(t: Table, keyCols: seq<Col>, updates: seq<Col>, row: Row)
    requires HasCols(row, keyCols)
    requires IdColumn !in updates
    ensures var t1 := Upsert(t, keyCols, updates, row);
      Upsert(t1, keyCols, updates, row) == t1
  {
    var k := Project(row, keyCols);
    var t1 := Upsert(t, keyCols, updates, row);
    if k in t.rows {
      AssignIdempotent(t.rows[k], row, updates);
    } else {
      var r := row[IdColumn := VInt(t.nextId)];
      assert Assign(r, row, updates) == r;
    }
  }

  // ---------------------------------------------------------------------
  // Laws of a multi-row statement.

  /** With distinct keys a statement is the same as upserting each row on
      its own: the rows a batch touches are exactly its keys, each ends up as
      its own upsert would leave it, and nothing else changes. */
  lemma {:induction false} UpsertAllEffect(t: Table, keyCols: seq<Col>, updates: seq<Col>, rows: seq<Row>)
    requires AllHaveCols(rows, keyCols) && DistinctKeys(rows, keyCols)
    decreases |rows|
    ensures var t' := UpsertAll(t, keyCols, updates, rows);
      && t'.rows.Keys == t.rows.Keys + KeysOf(rows, keyCols)
      && (forall k | k in t.rows && k !in KeysOf(rows, keyCols) :: t'.rows[k] == t.rows[k])
      && (forall i | 0 <= i < |rows| ::
            var k := Project(rows[i], keyCols);
            k in t.rows ==> t'.rows[k] == Assign(t.rows[k], rows[i], updates))
  {
    if |rows| > 0 {
      var t1 := Upsert(t, keyCols, updates, rows[0]);
      var k0 := Project(rows[0], keyCols);
      var tail := rows[1..];
      BatchTail(rows, keyCols);
      UpsertAllEffect(t1, keyCols, updates, tail);
      forall i | 0 <= i < |rows|
        ensures var k := Project(rows[i], keyCols);
          k in t.rows ==> UpsertAll(t, keyCols, updates, rows).rows[k] == Assign(t.rows[k], rows[i], updates)
      {
        if i > 0 {
          assert rows[i] == tail[i - 1];
          assert Project(rows[i], keyCols) != k0;
        }
      }
    }
  }

  /** The rest of a batch after its first row is a batch whose keys are the
      batch's other keys. */
  lemma BatchTail(rows: seq<Row>, keyCols: seq<Col>)
    requires |rows| > 0 && AllHaveCols(rows, keyCols) && DistinctKeys(rows, keyCols)
    ensures var tail, k0 := rows[1..], Project(rows[0], keyCols);
      && AllHaveCols(tail, keyCols) && DistinctKeys(tail, keyCols)
      && k0 !in KeysOf(tail, keyCols)
      && KeysOf(rows, keyCols) == {k0} + KeysOf(tail, keyCols)
  {
    var k0 := Project(rows[0], keyCols);
    var tail := rows[1..];
    assert AllHaveCols(tail, keyCols);
    assert DistinctKeys(tail, keyCols) by {
      forall i, j | 0 <= i < j < |tail|
        ensures Project(tail[i], keyCols) != Project(tail[j], keyCols)
      {
        assert tail[i] == rows[i + 1] && tail[j] == rows[j + 1];
      }
    }
    assert k0 !in KeysOf(tail, keyCols) by {
      forall i | 0 <= i < |tail|
        ensures Project(tail[i], keyCols) != k0
      {
        assert tail[i] == rows[i + 1];
      }
    }
    forall k | k in KeysOf(rows, keyCols)
      ensures k in {k0} + KeysOf(tail, keyCols)
    {
      var i :| 0 <= i < |rows| && Project(rows[i], keyCols) == k;
      if i > 0 {
        assert rows[i] == tail[i - 1];
      }
    }
    forall k | k in KeysOf(tail, keyCols)
      ensures k in KeysOf(rows, keyCols)
    {
      var i :| 0 <= i < |tail| && Project(tail[i], keyCols) == k;
      assert tail[i] == rows[i + 1];
    }
  }

  lemma {:induction false} UpsertAllKeepsValid(t: Table, keyCols: seq<Col>, updates: seq<Col>, rows: seq<Row>)
    requires AllHaveCols(rows, keyCols) && Consistent(t, keyCols)
    requires IdColumn !in keyCols && IdColumn !in updates
    ensures Consistent(UpsertAll(t, keyCols, updates, rows), keyCols)
    decreases |rows|
  {
    if |rows| > 0 {
      UpsertKeepsValid(t, keyCols, updates, rows[0]);
      UpsertAllKeepsValid(Upsert(t, keyCols, updates, rows[0]), keyCols, updates, rows[1..]);
    }
  }

  // ---------------------------------------------------------------------
  // The database connection as the loaders see it.

  /** Whether the database accepts `ON CONFLICT (conflict)` against a table
      whose unique constraint is `constraint`: the target must name exactly
      the constraint's columns. */
  predicate Accepts(constraint: seq<Col>, conflict: seq<Col>) {
    Elems(conflict) == Elems(constraint)
  }

  /** One `Create` statement with an `OnConflict` clause over `rows`: the
      table it leaves, or None when it fails as a whole because the target is
      not the table's constraint, two rows share a key, or the database
      refuses it for a reason of its own (`refused`). */
  function Statement(t: Table, constraint: seq<Col>, conflict: seq<Col>, updates: seq<Col>,
                     rows: seq<Row>, refused: bool): Option<Table>
    requires AllHaveCols(rows, constraint)
  {
    if !refused && Accepts(constraint, conflict) && DistinctKeys(rows, constraint)
    then Some(UpsertAll(t, constraint, updates, rows))
    else None
  }

  /** One table behind a gorm handle. `constraint` is the table's unique
      constraint, the only conflict target the database accepts. */
  class Db {
    const constraint: seq<Col>
    var table: Table

    ghost predicate Valid()
      reads this
    {
      IdColumn !in constraint && Consistent(table, constraint)
    }

    constructor (constraint: seq<Col>)
      requires IdColumn !in constraint
      ensures this.constraint == constraint && table == Empty
      ensures Valid()
    {
      this.constraint := constraint;
      table := Empty;
    }

    /** `db.Clauses(OnConflict{...}).Create(rows)`: the statement either
        applies in full or leaves the table as it was. */
    method Create(conflict: seq<Col>, updates: seq<Col>, rows: seq<Row>, refused: bool) returns (ok: bool)
      requires Valid() && AllHaveCols(rows, constraint) && IdColumn !in updates
      modifies this
      ensures Valid()
      ensures ok <==> !refused && Accepts(constraint, conflict) && DistinctKeys(rows, constraint)
      ensures table == match Statement(old(table), constraint, conflict, updates, rows, refused)
                       case Some(t) => t
                       case None => old(table)
    {
      ok := !refused && Accepts(constraint, conflict) && DistinctKeys(rows, constraint);
      if ok {
        UpsertAllKeepsValid(table, constraint, updates, rows);
        table := UpsertAll(table, constraint, updates, rows);
      }
    }
  }
}
