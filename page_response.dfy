/** `PageResponse.of`: a page descriptor filled in through its four setters. */
module PageResponse {
  import opened JavaInt

  /** The exact ceiling of `a / b`. */
  function CeilDiv(a: int, b: int): (q: int)
    requires b != 0
    ensures b > 0 ==> (q - 1) * b < a <= q * b
    ensures b < 0 ==> q == CeilDiv(-a, -b)
    decreases if b < 0 then 1 else 0
  {
    if b < 0 then CeilDiv(-a, -b)
    else
      var f := (-a) / b;
      assert -a == f * b + (-a) % b;
      -f
  }

  /** `(int) Math.ceil((double) total / size)`: a zero size divides into an infinity or NaN, which the cast turns into a bound or 0. */
  function TotalPages(total: int, size: int): (n: int)
    ensures IsInt(n)
    ensures size != 0 ==> n == Saturate(CeilDiv(total, size))
    ensures size == 0 ==> n == if total > 0 then INT_MAX else if total < 0 then INT_MIN else 0
    ensures total == 0 ==> n == 0
    ensures size > 0 && total > 0 && CeilDiv(total, size) <= INT_MAX ==> (n - 1) * size < total <= n * size
  {
    if size == 0 then (if total > 0 then INT_MAX else if total < 0 then INT_MIN else 0)
    else Saturate(CeilDiv(total, size))
  }

  lemma MulMonotone(a: int, b: int)
    requires b > 0
    ensures a <= 0 ==> a * b <= 0
    ensures a >= 0 ==> a * b >= a
  {
  }

  /** With a positive size, the pages exactly cover the elements: none empty, none missing. */
  lemma TotalPagesCover(total: int, size: int)
    requires size > 0 && 0 <= total && total <= INT_MAX
    ensures 0 <= TotalPages(total, size) <= total
    ensures total > 0 ==> (TotalPages(total, size) - 1) * size < total <= TotalPages(total, size) * size
  {
    var q := CeilDiv(total, size);
    MulMonotone(q, size);
    MulMonotone(q - 1, size);
    assert 0 <= q <= total;
  }

  class PageResponse {
    var currentPage: int
    var totalPages: int
    var pageSize: int
    var totalElements: int

    ghost predicate Valid()
      reads this
    {
      IsInt(currentPage) && IsInt(totalPages) && IsInt(pageSize) && LONG_MIN <= totalElements <= LONG_MAX
    }

    constructor ()
      ensures Valid()
      ensures currentPage == 0 && totalPages == 0 && pageSize == 0 && totalElements == 0
    {
      currentPage, totalPages, pageSize, totalElements := 0, 0, 0, 0;
    }

    method SetCurrentPage(page: int)
      requires Valid() && IsInt(page)
      modifies this
      ensures Valid()
      ensures currentPage == page
      ensures totalPages == old(totalPages) && pageSize == old(pageSize) && totalElements == old(totalElements)
    {
      currentPage := page;
    }

    method SetPageSize(size: int)
      requires Valid() && IsInt(size)
      modifies this
      ensures Valid()
      ensures pageSize == size
      ensures currentPage == old(currentPage) && totalPages == old(totalPages) && totalElements == old(totalElements)
    {
      pageSize := size;
    }

    method SetTotalElements(total: int)
      requires Valid() && LONG_MIN <= total <= LONG_MAX
      modifies this
      ensures Valid()
      ensures totalElements == total
      ensures currentPage == old(currentPage) && totalPages == old(totalPages) && pageSize == old(pageSize)
    {
      totalElements := total;
    }

    method SetTotalPages(pages: int)
      requires Valid() && IsInt(pages)
      modifies this
      ensures Valid()
      ensures totalPages == pages
      ensures currentPage == old(currentPage) && pageSize == old(pageSize) && totalElements == old(totalElements)
    {
      totalPages := pages;
    }
  }

  /** `PageResponse.of(page, size, totalElements)`. */
  method Of(page: int, size: int, totalElements: int) returns (p: PageResponse)
    requires IsInt(page) && IsInt(size) && LONG_MIN <= totalElements <= LONG_MAX
    ensures fresh(p) && p.Valid()
    ensures p.currentPage == page && p.pageSize == size && p.totalElements == totalElements
    ensures p.totalPages == TotalPages(totalElements, size)
  {
    p := new PageResponse();
    p.SetCurrentPage(page);
    p.SetPageSize(size);
    p.SetTotalElements(totalElements);
    p.SetTotalPages(TotalPages(totalElements, size));
  }
}
