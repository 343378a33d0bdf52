/**
 * The request normalisation of the two list endpoints, `listAllUsers` and
 * `listAllTransactions`: paging, sort field and direction, the `ORDER BY`
 * clause spliced into the query text, and the filter parameters.
 */
module Listing {
  import opened Wrappers
  import opened Density

  const DefaultPage: nat := 1
  const DefaultLimit: nat := 25
  const MaxLimit: nat := 200

  /**
   * A page number or row offset as the controller computes it: a whole
   * number, or `Infinity`, which `Math.max` and the offset arithmetic pass
   * through unchanged.
   */
  datatype Extended = Whole(n: nat) | PlusInfinity

  /** `Math.max(1, Number(q) || 1)`. */
  function PageNumber(p: Param<int>): (r: Extended)
    ensures r.Whole? ==> r.n >= 1
    ensures r == PlusInfinity <==> p == Infinite(false)
    ensures p.Finite? && p.value >= 1 ==> r == Whole(p.value)
    ensures !(p.Finite? && p.value >= 1) && p != Infinite(false) ==> r == Whole(DefaultPage)
  {
    match p
    case Infinite(negative) => if negative then Whole(DefaultPage) else PlusInfinity
    case Finite(v) => if v >= 1 then Whole(v) else Whole(DefaultPage)
    case _ => Whole(DefaultPage)
  }

  /** `Math.max(1, Math.min(200, Number(q) || 25))`. */
  function PageSize(p: Param<int>): (r: nat)
    ensures 1 <= r <= MaxLimit
    ensures p.Finite? && 1 <= p.value <= MaxLimit ==> r == p.value
    ensures (p.Finite? && p.value > MaxLimit) || p == Infinite(false) ==> r == MaxLimit
    ensures (p.Finite? && p.value < 0) || p == Infinite(true) ==> r == 1
    ensures p.Absent? || p.Blank? || p.NotANumber? || p == Finite(0) ==> r == DefaultLimit
  {
    match p
    case Infinite(negative) => if negative then 1 else MaxLimit
    case Finite(v) => if v == 0 then DefaultLimit else IntMax(1, IntMin(MaxLimit, v))
    case _ => DefaultLimit
  }

  /** `(page - 1) * limit`: the number of rows on the pages before `page`. */
  function Offset(page: Extended, limit: nat): (r: Extended)
    requires page.Whole? ==> page.n >= 1
    requires limit >= 1
    ensures r.Whole? <==> page.Whole?
    ensures page.Whole? ==> r.n + limit == page.n * limit
  {
    match page
    case Whole(n) => Whole((n - 1) * limit)
    case PlusInfinity => PlusInfinity
  }

  /** Consecutive pages are adjacent windows: no row is skipped and none is shown twice. */
  lemma PagesTile(n: nat, limit: nat)
    requires n >= 1 && limit >= 1
    ensures Offset(Whole(n + 1), limit).n == Offset(Whole(n), limit).n + limit
  {
    var before := Offset(Whole(n), limit).n;
    var after := Offset(Whole(n + 1), limit).n;
    assert after + limit == (n + 1) * limit == n * limit + limit;
  }

  /** The page is recovered from its offset: the offset is a multiple of the limit. */
  lemma OffsetRecoversPage(n: nat, limit: nat)
    requires n >= 1 && limit >= 1
    ensures Offset(Whole(n), limit).n % limit == 0
    ensures Offset(Whole(n), limit).n / limit == n - 1
  {
    var o := Offset(Whole(n), limit).n;
    assert o == (n - 1) * limit by {
      assert o + limit == n * limit == (n - 1) * limit + limit;
    }
    MultipleDivides(n - 1, limit);
  }

  lemma MultipleDivides(k: nat, limit: nat)
    requires limit >= 1
    ensures (k * limit) % limit == 0 && (k * limit) / limit == k
  {
    var x := k * limit;
    var q, r := x / limit, x % limit;
    assert x == q * limit + r && 0 <= r < limit;
    if q < k {
      MultiplyMonotone(q + 1, k, limit);
    }
  }

  /** Later pages start strictly after earlier pages end. */
  lemma PageWindowsDisjoint(m: nat, n: nat, limit: nat)
    requires 1 <= m < n && limit >= 1
    ensures Offset(Whole(m), limit).n + limit <= Offset(Whole(n), limit).n
  {
    var a := Offset(Whole(m), limit).n;
    var b := Offset(Whole(n), limit).n;
    assert m * limit <= (n - 1) * limit by {
      MultiplyMonotone(m, n - 1, limit);
    }
    assert b + limit == n * limit == (n - 1) * limit + limit;
  }

  lemma MultiplyMonotone(x: nat, y: nat, k: nat)
    requires x <= y
    ensures x * k <= y * k
  {
  }

  /** `req.query.x || null` for a string parameter: missing and empty both mean no filter. */
  function TextFilter(q: Option<string>): (r: Option<string>)
    ensures r.Some? <==> q.Some? && q.value != ""
    ensures r.Some? ==> r == q
  {
    if q.Some? && q.value != "" then q else None
  }

  /**
   * `req.query.x ? Number(req.query.x) : null` for an amount: a missing or
   * empty parameter means no filter; any other is the number `Number` reads,
   * which may be NaN or an infinity.
   */
  function AmountFilter(p: Param<real>): (r: Option<Param<real>>)
    ensures r.None? <==> p.Absent? || p.Blank?
    ensures r.Some? ==> r.value == p && !r.value.Absent? && !r.value.Blank?
  {
    if p.Absent? || p.Blank? then None else Some(p)
  }

  /** `req.query.direction === 'desc' ? 'desc' : 'asc'`. */
  function Direction(q: Option<string>): (d: string)
    ensures d == "desc" <==> q == Some("desc")
    ensures d == "desc" || d == "asc"
  {
    if q == Some("desc") then "desc" else "asc"
  }

  /** `direction === 'desc' ? 'DESC' : 'ASC'`. */
  function SqlDirection(d: string): (r: string)
    ensures r == "DESC" <==> d == "desc"
    ensures r == "DESC" || r == "ASC"
  {
    if d == "desc" then "DESC" else "ASC"
  }

  /** `req.query.sortBy || 'id'`. */
  function SortKey(q: Option<string>): (k: string)
    ensures q.Some? && q.value != "" ==> k == q.value
    ensures q.None? || q == Some("") ==> k == "id"
  {
    if q.Some? && q.value != "" then q.value else "id"
  }

  /** `sortFieldMap[sortBy] || sortFieldMap.id` over `{ name: 'u.name', id: 'u.id' }`. */
  function UserSortField(key: string): (f: string)
    ensures f == "u.name" <==> key == "name"
    ensures f == "u.name" || f == "u.id"
  {
    if key == "name" then "u.name" else "u.id"
  }

  /** `sortFieldMap[sortBy] || sortFieldMap.id` over `{ amount: 't.amount', id: 't.id' }`. */
  function TransactionSortField(key: string): (f: string)
    ensures f == "t.amount" <==> key == "amount"
    ensures f == "t.amount" || f == "t.id"
  {
    if key == "amount" then "t.amount" else "t.id"
  }

  const OrderByKeyword: string := "ORDER BY "

  /** `` `ORDER BY ${sortField} ${sortDirection}` ``. */
  function OrderBy(field: string, direction: string): (c: string)
    ensures |c| == |OrderByKeyword| + |field| + 1 + |direction|
    ensures c[..|OrderByKeyword|] == OrderByKeyword
  {
    OrderByKeyword + field + " " + direction
  }

  /** The index of the first `c` in `s`, or `|s|` when there is none. */
  function FirstIndexOf(s: string, c: char): (i: nat)
    ensures i <= |s|
    ensures i < |s| ==> s[i] == c
    ensures forall j :: 0 <= j < i ==> s[j] != c
  {
    if s == [] then 0 else if s[0] == c then 0 else 1 + FirstIndexOf(s[1..], c)
  }

  datatype Ordering = Ordering(field: string, direction: string)

  /** Reads a sort field and direction back out of an `ORDER BY` clause. */
  function ParseOrderBy(c: string): (r: Option<Ordering>) {
    if |c| >= |OrderByKeyword| && c[..|OrderByKeyword|] == OrderByKeyword then
      var rest := c[|OrderByKeyword|..];
      var i := FirstIndexOf(rest, ' ');
      if i < |rest| then Some(Ordering(rest[..i], rest[i + 1..])) else None
    else
      None
  }

  /** For a field without spaces, the clause gives back the field and the direction. */
  lemma ParseOrderByRoundTrip(field: string, direction: string)
    requires ' ' !in field
    ensures ParseOrderBy(OrderBy(field, direction)) == Some(Ordering(field, direction))
  {
    var c := OrderBy(field, direction);
    var rest := c[|OrderByKeyword|..];
    assert rest == field + " " + direction;
    var i := FirstIndexOf(rest, ' ');
    assert rest[|field|] == ' ';
    assert forall j :: 0 <= j < |field| ==> rest[j] == field[j];
    assert i == |field|;
    assert rest[..i] == field;
    assert rest[i + 1..] == direction;
  }

  /** Distinct sort choices give distinct clauses. */
  lemma OrderByInjective(f1: string, d1: string, f2: string, d2: string)
    requires ' ' !in f1 && ' ' !in f2
    requires OrderBy(f1, d1) == OrderBy(f2, d2)
    ensures f1 == f2 && d1 == d2
  {
    ParseOrderByRoundTrip(f1, d1);
    ParseOrderByRoundTrip(f2, d2);
  }

  /** What the list query receives besides the filters. */
  datatype Paging = Paging(page: Extended, limit: nat, offset: Extended, orderClause: string)

  /** The raw `listAllUsers` query parameters. */
  datatype UserQuery = UserQuery(
    page: Param<int>, limit: Param<int>, sortBy: Option<string>, direction: Option<string>, q: Option<string>)

  datatype UserListing = UserListing(paging: Paging, q: Option<string>)

  /** Lines 27-41 of `listAllUsers`. */
  function NormalizeUserQuery(query: UserQuery): (r: UserListing)
    ensures r.paging.page == PageNumber(query.page)
    ensures r.paging.limit == PageSize(query.limit)
    ensures r.paging.offset == Offset(r.paging.page, r.paging.limit)
    ensures ParseOrderBy(r.paging.orderClause)
         == Some(Ordering(if query.sortBy == Some("name") then "u.name" else "u.id",
                          if query.direction == Some("desc") then "DESC" else "ASC"))
    ensures r.q == TextFilter(query.q)
  {
    var page := PageNumber(query.page);
    var limit := PageSize(query.limit);
    var direction := Direction(query.direction);
    var field := UserSortField(SortKey(query.sortBy));
    var sql := SqlDirection(direction);
    ParseOrderByRoundTrip(field, sql);
    UserListing(Paging(page, limit, Offset(page, limit), OrderBy(field, sql)), TextFilter(query.q))
  }

  /** The user list's clause is always one of four fixed strings: no request text reaches the query. */
  lemma UserOrderClauseFixed(query: UserQuery)
    ensures NormalizeUserQuery(query).paging.orderClause
         in {"ORDER BY u.name ASC", "ORDER BY u.name DESC", "ORDER BY u.id ASC", "ORDER BY u.id DESC"}
  {
    assert OrderBy("u.name", "ASC") == "ORDER BY u.name ASC";
    assert OrderBy("u.name", "DESC") == "ORDER BY u.name DESC";
    assert OrderBy("u.id", "ASC") == "ORDER BY u.id ASC";
    assert OrderBy("u.id", "DESC") == "ORDER BY u.id DESC";
  }

  /** The raw `listAllTransactions` query parameters. */
  datatype TransactionQuery = TransactionQuery(
    page: Param<int>, limit: Param<int>, sortBy: Option<string>, direction: Option<string>,
    ip: Option<string>, deviceId: Option<string>, senderId: Option<string>, receiverId: Option<string>,
    minAmount: Param<real>, maxAmount: Param<real>)

  datatype TransactionFilters = TransactionFilters(
    ip: Option<string>, deviceId: Option<string>, senderId: Option<string>, receiverId: Option<string>,
    minAmount: Option<Param<real>>, maxAmount: Option<Param<real>>)

  datatype TransactionListing = TransactionListing(paging: Paging, filters: TransactionFilters)

  /** Lines 33-53 of `listAllTransactions`. */
  function NormalizeTransactionQuery(query: TransactionQuery): (r: TransactionListing)
    ensures r.paging.page == PageNumber(query.page)
    ensures r.paging.limit == PageSize(query.limit)
    ensures r.paging.offset == Offset(r.paging.page, r.paging.limit)
    ensures ParseOrderBy(r.paging.orderClause)
         == Some(Ordering(if query.sortBy == Some("amount") then "t.amount" else "t.id",
                          if query.direction == Some("desc") then "DESC" else "ASC"))
    ensures r.filters == TransactionFilters(
      TextFilter(query.ip), TextFilter(query.deviceId), TextFilter(query.senderId), TextFilter(query.receiverId),
      AmountFilter(query.minAmount), AmountFilter(query.maxAmount))
  {
    var page := PageNumber(query.page);
    var limit := PageSize(query.limit);
    var direction := Direction(query.direction);
    var field := TransactionSortField(SortKey(query.sortBy));
    var sql := SqlDirection(direction);
    ParseOrderByRoundTrip(field, sql);
    var filters := TransactionFilters(
      TextFilter(query.ip), TextFilter(query.deviceId), TextFilter(query.senderId), TextFilter(query.receiverId),
      AmountFilter(query.minAmount), AmountFilter(query.maxAmount));
    TransactionListing(Paging(page, limit, Offset(page, limit), OrderBy(field, sql)), filters)
  }

  /** The transaction list's clause is always one of four fixed strings. */
  lemma TransactionOrderClauseFixed(query: TransactionQuery)
    ensures NormalizeTransactionQuery(query).paging.orderClause
         in {"ORDER BY t.amount ASC", "ORDER BY t.amount DESC", "ORDER BY t.id ASC", "ORDER BY t.id DESC"}
  {
    assert OrderBy("t.amount", "ASC") == "ORDER BY t.amount ASC";
    assert OrderBy("t.amount", "DESC") == "ORDER BY t.amount DESC";
    assert OrderBy("t.id", "ASC") == "ORDER BY t.id ASC";
    assert OrderBy("t.id", "DESC") == "ORDER BY t.id DESC";
  }
}
