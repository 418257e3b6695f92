/** The page arithmetic shared by every paginated listing: the row offset of a
    page, `(page - 1) * limit`, and the page count, `Math.ceil(total / limit)`. */
module Paging {

  /** `Math.ceil(total / limit)`; `Unbounded` stands for the Infinity (or NaN) that
      JavaScript produces when `limit` is zero. */
  datatype PageCount = Pages(n: int) | Unbounded

  function Offset(page: int, limit: int): int
  {
    (page - 1) * limit
  }

  /** The ceiling of `total / limit` for a non-zero limit; division by zero gives `Unbounded`. */
  function TotalPages(total: nat, limit: int): (r: PageCount)
    ensures limit == 0 <==> r == Unbounded
    ensures limit > 0 ==> r.Pages? && (r.n - 1) * limit < total <= r.n * limit
    ensures limit < 0 ==> r.Pages? && r.n * limit <= total < (r.n - 1) * limit
  {
    if limit == 0 then Unbounded
    else if limit > 0 then Pages((total + limit - 1) / limit)
    else Pages(-(total / -limit))
  }

  /** With a positive limit the pages tile the rows: page p covers rows
      [Offset(p), Offset(p) + limit), consecutive pages meet, and the last page
      TotalPages(total, limit) holds the last row. */
  lemma PagesCoverRows(total: nat, limit: int, page: int)
    requires limit > 0 && total > 0
    ensures Offset(page + 1, limit) == Offset(page, limit) + limit
    ensures Offset(1, limit) == 0
    ensures TotalPages(total, limit).n >= 1
    ensures Offset(TotalPages(total, limit).n, limit) < total <= Offset(TotalPages(total, limit).n, limit) + limit
  {
    var n := TotalPages(total, limit).n;
    assert Offset(n, limit) + limit == n * limit;
  }
}
