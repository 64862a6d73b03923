/** The pagination arithmetic the catalogue, forum, price and resource
    services share: `parseInt(x) || default` for the query values,
    offset = (page - 1) * limit, `LIMIT`/`OFFSET` as a slice of the ordered
    rows, and totalPages = ceil(totalItems / limit). */
module Pagination {
  import opened Common
  import opened Text
  import opened Http
  import opened Sorting

  /** `parseInt(raw, 10) || fallback`: NaN and 0 are falsy, so the
      fallback replaces them; `None` is an absent query value. */
  function QueryInt(raw: Option<string>, fallback: int): (r: int)
    ensures fallback != 0 ==> r != 0
    ensures raw.None? ==> r == fallback
  {
    match raw
    case None => fallback
    case Some(s) =>
      match ParseIntJs(s)
      case None => fallback
      case Some(n) => if n == 0 then fallback else n
  }

  /** A page number written in decimal is read back as it is, except
      0, which falls back. */
  lemma QueryIntReadsBack(n: int, fallback: int)
    ensures QueryInt(Some(IntToString(n)), fallback) == if n == 0 then fallback else n
  {
    ParseIntJsRoundTrip(n);
  }

  /** `parseInt(raw) || fallback`, with no radix. */
  function QueryIntAuto(raw: Option<string>, fallback: int): (r: int)
    ensures fallback != 0 ==> r != 0
    ensures raw.None? ==> r == fallback
  {
    match raw
    case None => fallback
    case Some(s) =>
      match ParseIntAuto(s)
      case None => fallback
      case Some(n) => if n == 0 then fallback else n
  }

  /** Both readings take a decimal query value as written, and differ on
      hexadecimal text: `"0x1A"` is 26 without a radix and falls back to the
      default with radix 10, whose `parseInt` stops at the `x` after a 0. */
  lemma QueryIntAutoAgrees(n: int, fallback: int)
    ensures QueryIntAuto(Some(IntToString(n)), fallback) == QueryInt(Some(IntToString(n)), fallback)
    ensures n != 0 ==> QueryIntAuto(Some(IntToString(n)), fallback) == n
    ensures QueryIntAuto(Some("0x1A"), fallback) == 26
    ensures QueryInt(Some("0x1A"), fallback) == fallback
  {
    ParseIntAutoRoundTrip(n);
    ParseIntJsRoundTrip(n);
    HexQueryValue();
  }

  /** `{ page = p, limit = l }` destructuring defaults. */
  function OrDefault(v: Option<int>, default: int): int
  {
    if v.Some? then v.value else default
  }

  function Offset(page: int, limit: int): int
  {
    (page - 1) * limit
  }

  /** `Math.ceil(n / d)` for a positive divisor. */
  function CeilDiv(n: nat, d: nat): (r: nat)
    requires d > 0
    ensures r * d >= n && (r - 1) * d < n
  {
    var q := (n + d - 1) / d;
    assert q * d <= n + d - 1 < q * d + d;
    q
  }

  const LimitNegative := DbError("2201W", "LIMIT must not be negative")
  const OffsetNegative := DbError("2201X", "OFFSET must not be negative")
  const BigintSyntax := DbError("22P02", "invalid input syntax for type bigint")
  const BigintRange := DbError("22003", "value out of range for type bigint")
  const MinInt8 := -0x8000_0000_0000_0000
  const MaxInt8 := 0x7FFF_FFFF_FFFF_FFFF

  /** The `LIMIT` and `OFFSET` placeholders are bigint parameters. The
      driver sends a number as `String(n)`, which is plain decimal below
      10^21 in magnitude and exponent notation (`"1e+21"`) from there on;
      PostgreSQL refuses the exponent form as bigint text and a decimal
      outside the 64-bit range as out of range. */
  function BindBigint(n: int): (r: Option<DbError>)
    ensures r.None? <==> MinInt8 <= n <= MaxInt8
    ensures r.Some? ==> r.value == BigintSyntax || r.value == BigintRange
  {
    if n <= -1_000_000_000_000_000_000_000 || n >= 1_000_000_000_000_000_000_000 then Some(BigintSyntax)
    else if n < MinInt8 || n > MaxInt8 then Some(BigintRange)
    else None
  }

  /** `LIMIT limit OFFSET offset` over the ordered rows. Binding reads the
      limit's placeholder before the offset's; executing then rejects a
      negative offset, then a negative limit. */
  function Window<T>(rows: seq<T>, limit: int, offset: int): (r: Result<seq<T>, DbError>)
    ensures BindBigint(limit).Some? ==> r == Err(BindBigint(limit).value)
    ensures BindBigint(limit).None? && BindBigint(offset).Some? ==> r == Err(BindBigint(offset).value)
    ensures offset < 0 && offset >= MinInt8 && MinInt8 <= limit <= MaxInt8 ==> r == Err(OffsetNegative)
    ensures 0 <= offset <= MaxInt8 && MinInt8 <= limit < 0 ==> r == Err(LimitNegative)
    ensures r.Ok? <==> 0 <= limit <= MaxInt8 && 0 <= offset <= MaxInt8
    ensures r.Ok? ==>
      (|r.value| <= limit &&
       |r.value| == Min(limit, Max(0, |rows| - offset)) &&
       forall k :: 0 <= k < |r.value| ==> r.value[k] == rows[offset + k])
  {
    if BindBigint(limit).Some? then Err(BindBigint(limit).value)
    else if BindBigint(offset).Some? then Err(BindBigint(offset).value)
    else if offset < 0 then Err(OffsetNegative)
    else if limit < 0 then Err(LimitNegative)
    else if offset >= |rows| then Ok([])
    else Ok(rows[offset..Min(|rows|, offset + limit)])
  }

  lemma MulMonotone(a: int, b: int, c: int)
    requires a <= b && c >= 0
    ensures a * c <= b * c
  {
    assert b * c - a * c == (b - a) * c;
  }

  /** With a positive limit, the offset is non-negative exactly when the
      page is at least 1. */
  lemma OffsetSign(page: int, limit: int)
    requires limit != 0
    ensures limit > 0 ==> (Offset(page, limit) >= 0 <==> page >= 1)
  {
    if limit > 0 {
      if page >= 1 {
        MulMonotone(0, page - 1, limit);
      } else {
        assert (1 - page) * limit > 0 by { MulMonotone(1, 1 - page, limit); }
        assert Offset(page, limit) == -((1 - page) * limit);
      }
    }
  }

  /** The `pagination` object of a listing answer. */
  datatype PageInfo = PageInfo(currentPage: int, totalPages: nat, totalItems: nat, limit: int)

  datatype Page<T> = Page(data: seq<T>, pagination: PageInfo)

  /** The page and limit a listing answers for: a positive limit, and an
      offset (page - 1) * limit from page 1 on, both within bigint. */
  predicate Pageable(page: int, limit: int)
  {
    0 < limit <= MaxInt8 && page >= 1 && Offset(page, limit) <= MaxInt8
  }

  /** A listing: the window at offset (page - 1) * limit over the ordered
      rows, and the metadata from the count query's `totalItems`. A
      database error from the data query fails the whole listing. The
      handlers never pass a zero limit. */
  function Paginate<T>(rows: seq<T>, totalItems: nat, page: int, limit: int): (r: Result<Page<T>, DbError>)
    requires limit != 0
    ensures r.Ok? <==> Pageable(page, limit)
    ensures limit > MaxInt8 ==> r == Err(BindBigint(limit).value)
    ensures 0 < limit <= MaxInt8 && page >= 1 && Offset(page, limit) > MaxInt8 ==>
      r == Err(BindBigint(Offset(page, limit)).value)
    ensures r.Ok? ==>
      r.value.pagination == PageInfo(page, CeilDiv(totalItems, limit), totalItems, limit) &&
      0 <= Min(|rows|, (page - 1) * limit) <= Min(|rows|, page * limit) <= |rows| &&
      r.value.data == rows[Min(|rows|, (page - 1) * limit)..Min(|rows|, page * limit)]
  {
    var offset := Offset(page, limit);
    OffsetSign(page, limit);
    match Window(rows, limit, offset)
    case Err(e) => Err(e)
    case Ok(data) =>
      assert limit > 0 && page >= 1;
      assert offset + limit == page * limit;
      assert data == rows[Min(|rows|, offset)..Min(|rows|, page * limit)];
      Ok(Page(data, PageInfo(page, CeilDiv(totalItems, limit), totalItems, limit)))
  }

  /** A page before a pageable one is pageable. */
  lemma EarlierPageable(q: int, p: int, limit: int)
    requires Pageable(p, limit) && 1 <= q <= p
    ensures Pageable(q, limit)
  {
    MulMonotone(q - 1, p - 1, limit);
  }

  /** The rows on pages 1..p, in order. */
  function PagesUpTo<T>(rows: seq<T>, limit: int, p: nat): seq<T>
    requires p == 0 || Pageable(p, limit)
  {
    if p == 0 then []
    else if p == 1 then Paginate(rows, |rows|, 1, limit).value.data
    else
      EarlierPageable(p - 1, p, limit);
      PagesUpTo(rows, limit, p - 1) + Paginate(rows, |rows|, p, limit).value.data
  }

  /** Reading pages 1, 2, ... gives the rows in order without gaps or
      repeats: the first p pages hold the first p * limit rows. */
  lemma {:induction false} PagesArePrefixes<T>(rows: seq<T>, limit: int, p: nat)
    requires p == 0 || Pageable(p, limit)
    ensures PagesUpTo(rows, limit, p) == rows[..Min(|rows|, p * limit)]
  {
    if p > 0 {
      if p > 1 { EarlierPageable(p - 1, p, limit); }
      PagesArePrefixes(rows, limit, p - 1);
      MulMonotone(p - 1, p, limit);
      MulMonotone(0, p - 1, limit);
    }
  }

  /** The last page is pageable when the rows fit a bigint count. */
  lemma LastPageable(n: nat, limit: int)
    requires 0 < limit <= MaxInt8 && n <= MaxInt8
    ensures CeilDiv(n, limit) == 0 || Pageable(CeilDiv(n, limit), limit)
  {
    var last := CeilDiv(n, limit);
    if last > 0 {
      assert Offset(last, limit) == (last - 1) * limit < n;
    }
  }

  /** A page after totalPages starts past the last row. */
  lemma PastLastEmpty<T>(rows: seq<T>, limit: int, p: nat)
    requires Pageable(p, limit) && p > CeilDiv(|rows|, limit)
    ensures Paginate(rows, |rows|, p, limit).value.data == []
  {
    MulMonotone(CeilDiv(|rows|, limit), p - 1, limit);
  }

  /** Every row is on some page up to totalPages, and the pages after
      totalPages are empty. Every page up to totalPages is pageable when
      the rows fit a bigint count. */
  lemma PagesCoverRows<T>(rows: seq<T>, limit: int, p: nat)
    requires 0 < limit <= MaxInt8 && |rows| <= MaxInt8
    ensures CeilDiv(|rows|, limit) == 0 || Pageable(CeilDiv(|rows|, limit), limit)
    ensures PagesUpTo(rows, limit, CeilDiv(|rows|, limit)) == rows
    ensures p > CeilDiv(|rows|, limit) && Pageable(p, limit) ==> Paginate(rows, |rows|, p, limit).value.data == []
  {
    var n := CeilDiv(|rows|, limit);
    LastPageable(|rows|, limit);
    PagesArePrefixes(rows, limit, n);
    if p > n && Pageable(p, limit) {
      PastLastEmpty(rows, limit, p);
    }
  }

  /** A page of an ordered sequence is ordered and holds only its rows. */
  lemma PageOfSorted<T>(sorted: seq<T>, totalItems: nat, le: (T, T) -> bool, page: int, limit: int)
    requires SortedBy(sorted, le) && limit != 0
    requires Paginate(sorted, totalItems, page, limit).Ok?
    ensures SortedBy(Paginate(sorted, totalItems, page, limit).value.data, le)
    ensures forall x :: x in Paginate(sorted, totalItems, page, limit).value.data ==> x in sorted
  {
    var lo, hi := Min(|sorted|, (page - 1) * limit), Min(|sorted|, page * limit);
    SliceSorted(sorted, le, lo, hi);
  }
}
