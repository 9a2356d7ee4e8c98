/** What the two list endpoints share: reading the query string the way
    Fiber's `Query`, `QueryInt` and `QueryBool` do, the optional filters,
    the `ORDER BY` text, and the page arithmetic in Go's 64-bit `int`.
    The database is not modelled: the row count of a filtered query is a
    parameter of the handlers. */
module Listing {
  import opened Wrappers
  import opened GoInt
  import opened Strconv

  /** The decoded query string: the value of each parameter present. */
  type Query = map<string, string>

  /** `c.Query(key)`: "" when the parameter is absent. */
  function Raw(q: Query, key: string): string {
    if key in q then q[key] else ""
  }

  /** `c.Query(key, default)`: the default when the value is "". */
  function Text(q: Query, key: string, default: string): string {
    var v := Raw(q, key);
    if v == "" then default else v
  }

  /** `c.QueryInt(key, default)`: `strconv.Atoi` of the value, the default
      when that fails (an absent parameter, a non-number, an int64
      overflow). */
  function Int(q: Query, key: string, default: int): int {
    match Atoi(Raw(q, key))
    case Ok(v) => v
    case SyntaxErr => default
    case RangeErr(_) => default
  }

  /** `strconv.ParseBool`. */
  function ParseBool(s: string): Option<bool> {
    if s in {"1", "t", "T", "TRUE", "true", "True"} then Some(true)
    else if s in {"0", "f", "F", "FALSE", "false", "False"} then Some(false)
    else None
  }

  /** `c.QueryBool(key, default)`: the default when `ParseBool` fails. */
  function Bool(q: Query, key: string, default: bool): bool {
    ParseBool(Raw(q, key)).GetOr(default)
  }

  /** The `Where` clauses a handler adds, None for a clause it leaves out. */
  datatype Filters = Filters(season: Option<int>, team: Option<string>, playerId: Option<string>,
                             isPlayoff: Option<bool>)

  /** The query a handler runs: its filters, `Order`, `Limit` and `Offset`,
      and the page it reports. */
  datatype Request = Request(filters: Filters, order: string, page: int, pageSize: int, offset: int)

  /** The handler's answer: a 500 when the page query fails, the page and
      its pagination otherwise, or a runtime panic (division by zero). */
  datatype Response = ServerError | Listed(request: Request, total: int, pages: int) | Panicked

  /** `sortBy + " DESC"`, or `sortBy + " ASC"` when ascending. */
  function Order(column: string, ascending: bool): string {
    column + (if ascending then " ASC" else " DESC")
  }

  /** `(page - 1) * pageSize` in int64. */
  function Offset(page: int, pageSize: int): (offset: int)
    ensures IsInt64(offset)
  {
    Wrap64((page - 1) * pageSize)
  }

  /** `(total + int64(pageSize) - 1) / int64(pageSize)` in int64: None
      when `pageSize` is 0, which panics. */
  function Pages(total: int, pageSize: int): (pages: Option<int>)
    ensures pages.Some? <==> pageSize != 0
    ensures pages.Some? ==> IsInt64(pages.value)
  {
    if pageSize == 0 then None else Some(Wrap64(Quo(Wrap64(total + pageSize - 1), pageSize)))
  }

  /** The pagination part of a handler, once the filters and order are
      known; `count` is what `query.Count` stores for the filters. */
  function Respond(r: Request, count: Filters -> int, findFails: bool): Response {
    var total := count(r.filters);
    if findFails then ServerError
    else match Pages(total, r.pageSize)
      case None => Panicked
      case Some(pages) => Listed(r, total, pages)
  }

  // ---------------------------------------------------------------------
  // The arithmetic.

  /** The order text names the direction in its last word, and the
      column and direction can be read back from it. */
  lemma OrderReadsBack(c1: string, a1: bool, c2: string, a2: bool)
    ensures Order(c1, a1) == Order(c2, a2) <==> c1 == c2 && a1 == a2
  {
    var o1, o2 := Order(c1, a1), Order(c2, a2);
    if o1 == o2 {
      var s1 := if a1 then " ASC" else " DESC";
      var s2 := if a2 then " ASC" else " DESC";
      assert o1[|o1| - 4] == s1[|s1| - 4];
      assert o2[|o2| - 4] == s2[|s2| - 4];
      assert a1 == a2;
      assert c1 == o1[..|c1|] == o2[..|c2|] == c2;
    }
  }

  /** Page 1 starts at row 0, and each page starts `pageSize` rows after
      the one before, while the offsets fit in int64. */
  lemma OffsetSteps(page: int, pageSize: int)
    requires page >= 1 && pageSize >= 0 && page * pageSize <= MaxInt64
    ensures Offset(1, pageSize) == 0
    ensures 0 <= Offset(page, pageSize) == (page - 1) * pageSize
    ensures Offset(page + 1, pageSize) == Offset(page, pageSize) + pageSize
  {
    assert 0 <= (page - 1) * pageSize <= page * pageSize;
  }

  /** For a positive page size the page count is the ceiling of
      total/pageSize: the pages hold every row, and one page fewer would
      not. */
  lemma PagesIsCeiling(total: int, pageSize: int)
    requires 0 <= total && 0 < pageSize && total + pageSize - 1 <= MaxInt64
    ensures var pages := Pages(total, pageSize).value;
      0 <= pages && total <= pages * pageSize < total + pageSize
  {
    var n := total + pageSize - 1;
    var q := n / pageSize;
    QuotientBounds(n, pageSize);
    assert Quo(n, pageSize) == q;
    assert Wrap64(q) == q;
  }

  /** Euclid's division of a natural number, with the quotient between 0
      and the dividend. */
  lemma QuotientBounds(n: int, d: int)
    requires 0 <= n && 0 < d
    ensures 0 <= n / d <= n
    ensures (n / d) * d <= n < (n / d) * d + d
  {
    assert n == d * (n / d) + n % d;
    if n / d > n {
      MulGrows(n / d, d);
    }
  }

  lemma MulGrows(q: int, d: int)
    requires 0 <= q && 1 <= d
    ensures q <= q * d
  {
  }

  /** A page size of 0 panics whatever the count. */
  lemma ZeroPageSizePanics(r: Request, count: Filters -> int)
    requires r.pageSize == 0
    ensures Respond(r, count, false) == Panicked
  {
  }
}
