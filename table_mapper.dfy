/** The row mapper the totals and advanced scrapers share: a header list
    from the `data-stat` attributes of the table head, body rows zipped to
    that list by position into a field map, the player id from the cells'
    `data-append-csv` attribute, and the primary/fallback picks that cover
    the site's old and new column names. The table itself comes from CSS
    selectors, which are not modelled: it is given as its head cells and
    its body rows. */
module TableMapper {
  import opened Wrappers
  import opened GoStrings
  import opened Strconv

  /** A `thead tr th` cell: its text and its `data-stat` attribute. */
  datatype Th = Th(text: string, dataStat: Option<string>)

  /** A `th` or `td` cell of a body row, in document order: its text and
      its `data-append-csv` attribute. */
  datatype Cell = Cell(isTh: bool, text: string, appendCsv: Option<string>)

  /** A `tbody tr`: its class attribute ("" when absent) and its cells. */
  datatype TableRow = TableRow(classAttr: string, cells: seq<Cell>)

  /** A table as the selectors see it. */
  datatype TableData = TableData(ths: seq<Th>, rows: seq<TableRow>)

  /** A field map: cell text by header key. */
  type Fields = map<string, string>

  /** The synthetic key the player id is stored under. */
  const PlayerAdditional: string := "player-additional"

  // ---------------------------------------------------------------------
  // The header list.

  /** The non-empty `data-stat` values, in document order. */
  function DataStats(ths: seq<Th>): seq<string>
    decreases |ths|
  {
    if |ths| == 0 then []
    else
      var init := DataStats(ths[..|ths| - 1]);
      match ths[|ths| - 1].dataStat
      case Some(s) => if s != "" then init + [s] else init
      case None => init
  }

  function Headers(ths: seq<Th>): seq<string> {
    DataStats(ths) + [PlayerAdditional]
  }

  /** The header loop: append each non-empty `data-stat`, then the
      synthetic player column. */
  method CollectHeaders(ths: seq<Th>) returns (headers: seq<string>)
    ensures headers == Headers(ths)
  {
    headers := [];
    var i := 0;
    while i < |ths|
      invariant 0 <= i <= |ths|
      invariant headers == DataStats(ths[..i])
    {
      assert ths[..i + 1][..i] == ths[..i];
      var stat := ths[i].dataStat;
      if stat.Some? && stat.value != "" {
        headers := headers + [stat.value];
      }
      i := i + 1;
    }
    assert ths[..i] == ths;
    headers := headers + [PlayerAdditional];
  }

  /** A header of the list is exactly a non-empty `data-stat` of some head cell. */
  lemma {:induction false} DataStatsAreAttributes(ths: seq<Th>, s: string)
    ensures s in DataStats(ths) <==> s != "" && exists j | 0 <= j < |ths| :: ths[j].dataStat == Some(s)
    decreases |ths|
  {
    if |ths| > 0 {
      var init := ths[..|ths| - 1];
      DataStatsAreAttributes(init, s);
      if exists j | 0 <= j < |ths| :: ths[j].dataStat == Some(s) {
        var j :| 0 <= j < |ths| && ths[j].dataStat == Some(s);
        if j < |ths| - 1 {
          assert init[j] == ths[j];
        }
      }
      if exists j | 0 <= j < |init| :: init[j].dataStat == Some(s) {
        var j :| 0 <= j < |init| && init[j].dataStat == Some(s);
        assert ths[j] == init[j];
      }
    }
  }

  /** The list ends with the player column, and has one entry per head cell
      with a non-empty `data-stat`, plus that one. */
  lemma {:induction false} HeadersShape(ths: seq<Th>)
    ensures |Headers(ths)| >= 1 && Headers(ths)[|Headers(ths)| - 1] == PlayerAdditional
    ensures |Headers(ths)| <= |ths| + 1
    decreases |ths|
  {
    if |ths| > 0 {
      HeadersShape(ths[..|ths| - 1]);
    }
  }

  // ---------------------------------------------------------------------
  // One body row.

  /** The field map of the first `|cells|` cells: cell `i`'s trimmed text
      under `headers[i]`, a later cell overwriting an earlier one under the
      same key. */
  function RowFields(headers: seq<string>, cells: seq<Cell>): Fields
    requires |cells| <= |headers|
    decreases |cells|
  {
    if |cells| == 0 then map[]
    else RowFields(headers, cells[..|cells| - 1])[headers[|cells| - 1] := TrimSpace(cells[|cells| - 1].text)]
  }

  /** The `data-append-csv` value of the last cell that has the attribute,
      or "" when none has. */
  function LastAppend(cells: seq<Cell>): string
    decreases |cells|
  {
    if |cells| == 0 then ""
    else match cells[|cells| - 1].appendCsv
      case Some(id) => id
      case None => LastAppend(cells[..|cells| - 1])
  }

  /** What the cell loop of a row yields: None when the row has more cells
      than there are headers (`headers[i]` panics), otherwise the field map
      and the player id. */
  function ZipRow(headers: seq<string>, cells: seq<Cell>): Option<(Fields, string)> {
    if |cells| > |headers| then None else Some((RowFields(headers, cells), LastAppend(cells)))
  }

  /** The cell loop: store each trimmed text under its header and remember
      the last `data-append-csv` seen. */
  method MapCells(headers: seq<string>, cells: seq<Cell>) returns (r: Option<(Fields, string)>)
    ensures r == ZipRow(headers, cells)
  {
    var data: Fields := map[];
    var playerId := "";
    var i := 0;
    while i < |cells|
      invariant 0 <= i <= |cells|
      invariant i <= |headers|
      invariant data == RowFields(headers, cells[..i])
      invariant playerId == LastAppend(cells[..i])
    {
      if i >= |headers| {
        return None;
      }
      assert cells[..i + 1][..i] == cells[..i];
      var text := TrimSpace(cells[i].text);
      data := data[headers[i] := text];
      if cells[i].appendCsv.Some? {
        playerId := cells[i].appendCsv.value;
      }
      i := i + 1;
    }
    assert cells[..i] == cells;
    return Some((data, playerId));
  }

  /** The keys of a row's field map are the headers of its cells, and under
      each key is the text of the last cell with that header. */
  lemma {:induction false} RowFieldsLookup(headers: seq<string>, cells: seq<Cell>, j: nat)
    requires |cells| <= |headers| && j < |cells|
    requires forall j' | j < j' < |cells| :: headers[j'] != headers[j]
    ensures headers[j] in RowFields(headers, cells)
    ensures RowFields(headers, cells)[headers[j]] == TrimSpace(cells[j].text)
    decreases |cells|
  {
    var n := |cells| - 1;
    if j < n {
      var init := cells[..n];
      assert init[j] == cells[j];
      RowFieldsLookup(headers, init, j);
    }
  }

  lemma {:induction false} RowFieldsKeys(headers: seq<string>, cells: seq<Cell>)
    requires |cells| <= |headers|
    ensures RowFields(headers, cells).Keys == set j | 0 <= j < |cells| :: headers[j]
    decreases |cells|
  {
    if |cells| > 0 {
      RowFieldsKeys(headers, cells[..|cells| - 1]);
    }
  }

  /** The player id is the value of the last cell that has the attribute,
      and "" when no cell has it. */
  lemma {:induction false} LastAppendIsLast(cells: seq<Cell>, j: nat)
    requires j < |cells| && cells[j].appendCsv.Some?
    requires forall j' | j < j' < |cells| :: cells[j'].appendCsv.None?
    ensures LastAppend(cells) == cells[j].appendCsv.value
    decreases |cells|
  {
    var n := |cells| - 1;
    if j < n {
      var init := cells[..n];
      assert init[j] == cells[j];
      LastAppendIsLast(init, j);
    }
  }

  lemma {:induction false} LastAppendOfNone(cells: seq<Cell>)
    requires forall j | 0 <= j < |cells| :: cells[j].appendCsv.None?
    ensures LastAppend(cells) == ""
    decreases |cells|
  {
    if |cells| > 0 {
      LastAppendOfNone(cells[..|cells| - 1]);
    }
  }

  // ---------------------------------------------------------------------
  // From rows to records.

  /** A missing key reads as "", as indexing a Go map does. */
  function Get(data: Fields, key: string): string {
    if key in data then data[key] else ""
  }

  /** `mustAtoi(data[primary])`, or the fallback's when that is 0. */
  function PickInt(data: Fields, primary: string, fallback: string): int {
    var v := MustAtoi(Get(data, primary));
    if v == 0 then MustAtoi(Get(data, fallback)) else v
  }

  /** `data[primary]`, or the fallback's when that is "". */
  function PickText(data: Fields, primary: string, fallback: string): string {
    var v := Get(data, primary);
    if v == "" then Get(data, fallback) else v
  }

  /** The integer pick is the primary's value unless that is 0, is 0 only
      when both coerce to 0, and a missing primary column defers to the
      fallback. */
  lemma PickIntChoice(data: Fields, primary: string, fallback: string)
    ensures var r := PickInt(data, primary, fallback);
      && (MustAtoi(Get(data, primary)) != 0 ==> r == MustAtoi(Get(data, primary)))
      && (r == 0 <==> MustAtoi(Get(data, primary)) == 0 && MustAtoi(Get(data, fallback)) == 0)
      && (primary !in data ==> r == MustAtoi(Get(data, fallback)))
  {
    if primary !in data {
      MustAtoiOfEmpty();
    }
  }

  lemma MustAtoiOfEmpty()
    ensures MustAtoi("") == 0
  {
  }

  /** The text pick is "" only when both are, and a missing primary column
      defers to the fallback. */
  lemma PickTextChoice(data: Fields, primary: string, fallback: string)
    ensures var r := PickText(data, primary, fallback);
      && (Get(data, primary) != "" ==> r == Get(data, primary))
      && (r == "" <==> Get(data, primary) == "" && Get(data, fallback) == "")
      && (primary !in data ==> r == Get(data, fallback))
  {
  }

  /** What becomes of one body row. */
  datatype RowOutcome<T> = Skipped | Built(record: T) | Panic

  /** A row is skipped when `skip` holds of its class; otherwise its cells
      are zipped to the headers (a panic when there are too many), and a
      row without a player id is skipped; otherwise the record is built from
      the field map, with the player id stored under the synthetic key. */
  function RowRecord<T>(headers: seq<string>, row: TableRow, skip: string -> bool,
                        build: (Fields, string) -> T): RowOutcome<T>
  {
    if skip(row.classAttr) then Skipped
    else match ZipRow(headers, row.cells)
      case None => Panic
      case Some(zipped) =>
        var (data, playerId) := zipped;
        if playerId == "" then Skipped else Built(build(data[PlayerAdditional := playerId], playerId))
  }

  /** The records of the body rows in table order, or None when a row panics. */
  function RecordsOf<T>(headers: seq<string>, rows: seq<TableRow>, skip: string -> bool,
                      build: (Fields, string) -> T): Option<seq<T>>
    decreases |rows|
  {
    if |rows| == 0 then Some([])
    else match RecordsOf(headers, rows[..|rows| - 1], skip, build)
      case None => None
      case Some(rs) =>
        match RowRecord(headers, rows[|rows| - 1], skip, build)
        case Panic => None
        case Skipped => Some(rs)
        case Built(r) => Some(rs + [r])
  }

  lemma RecordsStep<T>(headers: seq<string>, rows: seq<TableRow>, skip: string -> bool,
                       build: (Fields, string) -> T, i: nat, rs: seq<T>)
    requires i < |rows| && RecordsOf(headers, rows[..i], skip, build) == Some(rs)
    ensures RecordsOf(headers, rows[..i + 1], skip, build) ==
      match RowRecord(headers, rows[i], skip, build)
      case Panic => None
      case Skipped => Some(rs)
      case Built(r) => Some(rs + [r])
  {
    assert rows[..i + 1][..i] == rows[..i];
  }

  lemma {:induction false} RecordsPrefixPanics<T>(headers: seq<string>, rows: seq<TableRow>, skip: string -> bool,
                                                  build: (Fields, string) -> T, i: nat)
    requires i <= |rows| && RecordsOf(headers, rows[..i], skip, build).None?
    ensures RecordsOf(headers, rows, skip, build).None?
    decreases |rows| - i
  {
    if i < |rows| {
      assert rows[..i + 1][..i] == rows[..i];
      RecordsPrefixPanics(headers, rows, skip, build, i + 1);
    } else {
      assert rows[..i] == rows;
    }
  }

  /** One turn of the row loop. */
  method MapRow<T>(headers: seq<string>, row: TableRow, skip: string -> bool,
                   build: (Fields, string) -> T) returns (r: RowOutcome<T>)
    ensures r == RowRecord(headers, row, skip, build)
  {
    if skip(row.classAttr) {
      return Skipped;
    }
    var zipped := MapCells(headers, row.cells);
    if zipped.None? {
      return Panic;
    }
    var (data, playerId) := zipped.value;
    if playerId == "" {
      return Skipped;
    }
    data := data[PlayerAdditional := playerId];
    return Built(build(data, playerId));
  }

  /** The row loop: append the record of every row that yields one. */
  method CollectRecords<T>(headers: seq<string>, rows: seq<TableRow>, skip: string -> bool,
                           build: (Fields, string) -> T) returns (records: Option<seq<T>>)
    ensures records == RecordsOf(headers, rows, skip, build)
  {
    var built: seq<T> := [];
    var i := 0;
    while i < |rows|
      invariant 0 <= i <= |rows|
      invariant RecordsOf(headers, rows[..i], skip, build) == Some(built)
    {
      var r := MapRow(headers, rows[i], skip, build);
      RecordsStep(headers, rows, skip, build, i, built);
      if r.Panic? {
        RecordsPrefixPanics(headers, rows, skip, build, i + 1);
        return None;
      }
      if r.Built? {
        built := built + [r.record];
      }
      i := i + 1;
    }
    assert rows[..i] == rows;
    return Some(built);
  }

  /** The rows fail as a whole exactly when one of them panics. */
  lemma {:induction false} RecordsPanicIff<T>(headers: seq<string>, rows: seq<TableRow>, skip: string -> bool,
                                              build: (Fields, string) -> T)
    ensures RecordsOf(headers, rows, skip, build).None?
        <==> exists i | 0 <= i < |rows| :: RowRecord(headers, rows[i], skip, build).Panic?
    decreases |rows|
  {
    if |rows| > 0 {
      var init := rows[..|rows| - 1];
      RecordsPanicIff(headers, init, skip, build);
      if exists i | 0 <= i < |init| :: RowRecord(headers, init[i], skip, build).Panic? {
        var i :| 0 <= i < |init| && RowRecord(headers, init[i], skip, build).Panic?;
        assert rows[i] == init[i];
      }
      if exists i | 0 <= i < |rows| :: RowRecord(headers, rows[i], skip, build).Panic? {
        var i :| 0 <= i < |rows| && RowRecord(headers, rows[i], skip, build).Panic?;
        if i < |init| {
          assert init[i] == rows[i];
        }
      }
    }
  }

  /** Every record is built from a row that was kept: at most one record
      per row, and a property every build with a non-empty player id has
      holds of every record. */
  lemma {:induction false} RecordsSatisfy<T>(headers: seq<string>, rows: seq<TableRow>, skip: string -> bool,
                                             build: (Fields, string) -> T, p: T -> bool)
    requires forall data: Fields, playerId: string | playerId != "" :: p(build(data, playerId))
    requires RecordsOf(headers, rows, skip, build).Some?
    ensures var rs := RecordsOf(headers, rows, skip, build).value;
      |rs| <= |rows| && forall k | 0 <= k < |rs| :: p(rs[k])
    decreases |rows|
  {
    if |rows| > 0 {
      RecordsSatisfy(headers, rows[..|rows| - 1], skip, build, p);
    }
  }

  // ---------------------------------------------------------------------
  // The two repeated-header tests.

  /** The totals scrapers skip a row whose class contains "thead" anywhere. */
  predicate TheadBySubstring(classAttr: string) {
    Contains(classAttr, "thead")
  }

  /** The advanced scrapers skip a row only with the class token "thead". */
  predicate TheadByToken(classAttr: string) {
    HasClass(classAttr, "thead")
  }

  /** Whatever the token test skips, the substring test skips too. */
  lemma TokenImpliesSubstring(classAttr: string)
    ensures TheadByToken(classAttr) ==> TheadBySubstring(classAttr)
  {
    if TheadByToken(classAttr) {
      var blanked := BlankControls(classAttr);
      var padded := " " + blanked + " ";
      assert " " + "thead" + " " == " thead ";
      var j := Index(padded, " thead ").value;
      TokenInside(classAttr, j);
      ContainsAt(classAttr, "thead", j);
    }
  }

  lemma TokenInside(classAttr: string, j: int)
    requires OccursAt(" " + BlankControls(classAttr) + " ", " thead ", j)
    ensures OccursAt(classAttr, "thead", j)
  {
    var blanked := BlankControls(classAttr);
    var padded := " " + blanked + " ";
    assert j + 5 <= |classAttr|;
    forall k | 0 <= k < 5
      ensures classAttr[j + k] == "thead"[k]
    {
      assert padded[j..j + 7][k + 1] == " thead "[k + 1];
      assert padded[j + 1 + k] == blanked[j + k];
    }
    assert classAttr[j..j + 5] == "thead";
  }

  lemma ContainsAt(s: string, sub: string, j: int)
    requires |sub| > 0 && OccursAt(s, sub, j)
    ensures Contains(s, sub)
  {
  }

  /** The converse fails: a class such as "theadless" is skipped by the
      totals scrapers and kept by the advanced ones. */
  lemma TestsDisagree()
    ensures TheadBySubstring("theadless") && !TheadByToken("theadless")
  {
    ContainsAt("theadless", "thead", 0);
    NoTokenIn("theadless");
  }

  lemma NoTokenIn(classAttr: string)
    requires classAttr == "theadless"
    ensures !HasClass(classAttr, "thead")
  {
    var blanked := BlankControls(classAttr);
    assert blanked == classAttr;
    var padded := " " + blanked + " ";
    assert " " + "thead" + " " == " thead ";
    forall j | 0 <= j
      ensures !OccursAt(padded, " thead ", j)
    {
      if j == 0 {
        assert padded[6] == 'l';
      } else if j + 7 <= |padded| {
        assert padded[j] != ' ';
      }
    }
  }
}
