/** The page metadata every listing returns: totalPages = Math.ceil(total /
    limit) and hasMore = page < totalPages, with JavaScript number semantics
    (a zero limit divides to Infinity or NaN). */
module Pagination {

  /** The value Math.ceil(total / limit) takes. */
  datatype PageCount = Finite(n: int) | PosInfinity | NaN

  /** Math.ceil(total / limit) for a count total and an integer limit. */
  function TotalPages(total: nat, limit: int): (c: PageCount)
    ensures limit > 0 ==> c.Finite? && c.n >= 0
    ensures limit == 0 ==> c == (if total == 0 then NaN else PosInfinity)
    ensures limit < 0 ==> c.Finite? && c.n <= 0
  {
    if limit > 0 then Finite((total + limit - 1) / limit)
    else if limit == 0 then (if total == 0 then NaN else PosInfinity)
    else Finite(-(total / -limit))
  }

  /** page < c, as JavaScript compares a number with Infinity and NaN. */
  predicate Below(page: int, c: PageCount) {
    match c
    case Finite(n) => page < n
    case PosInfinity => true
    case NaN => false
  }

  datatype Meta = Meta(total: nat, page: int, limit: int, totalPages: PageCount, hasMore: bool)

  function PageMeta(total: nat, page: int, limit: int): (m: Meta)
    ensures m.total == total && m.page == page && m.limit == limit
    ensures m.totalPages == TotalPages(total, limit)
    ensures m.hasMore <==> Below(page, m.totalPages)
  {
    var totalPages := TotalPages(total, limit);
    Meta(total, page, limit, totalPages, Below(page, totalPages))
  }

  /** With a positive limit, totalPages is the least number of pages of
      `limit` items that hold `total` items. */
  lemma TotalPagesIsCeiling(total: nat, limit: int)
    requires limit > 0
    ensures var n := TotalPages(total, limit).n;
      n * limit >= total && (n == 0 || (n - 1) * limit < total)
  {
    var n := (total + limit - 1) / limit;
    var r := (total + limit - 1) % limit;
    assert total + limit - 1 == n * limit + r;
  }

  /** With a positive limit, hasMore says exactly that items remain after
      page `page`: page * limit < total. No items means no pages. */
  lemma HasMoreMeaning(total: nat, page: int, limit: int)
    requires limit > 0
    ensures PageMeta(total, page, limit).hasMore <==> page * limit < total
    ensures total == 0 ==> PageMeta(total, page, limit).totalPages == Finite(0)
  {
    var n := TotalPages(total, limit).n;
    TotalPagesIsCeiling(total, limit);
    if page < n {
      assert page <= n - 1;
      MulMono(page, n - 1, limit);
    } else {
      MulMono(n, page, limit);
    }
  }

  lemma MulMono(a: int, b: int, c: int)
    requires a <= b && c > 0
    ensures a * c <= b * c
  {
    assert b * c - a * c == (b - a) * c;
  }

  /** A zero limit, as ListCompaniesUseCase can receive it, gives an infinite
      page count and hasMore for any non-empty listing, and NaN and no more
      for an empty one. */
  lemma ZeroLimit(total: nat, page: int)
    ensures PageMeta(total, page, 0).hasMore <==> total > 0
  {
  }
}
