/** The pagination state machine of src/hooks/usePagination.ts. */
module Pagination {
  import opened Common

  /**
   * `Math.ceil(total / pageSize)` on integer operands: a whole page count, or
   * the IEEE value JavaScript produces when pageSize is 0.
   */
  datatype PageCount = Pages(n: int) | PlusInfinity | MinusInfinity | NotANumber

  /** The ceiling of a / b: the least q with a <= q * b (for b > 0). */
  function CeilDiv(a: int, b: int): (q: int)
    requires b != 0
    ensures b > 0 ==> (q - 1) * b < a <= q * b
    ensures b < 0 ==> q * b <= a < (q - 1) * b
  {
    if b > 0 then
      var d := (-a) / b;
      assert -a == d * b + (-a) % b;
      assert (-d - 1) * b == -(d * b) - b;
      -d
    else
      var d := a / (-b);
      assert a == d * (-b) + a % (-b);
      assert (-d) * b == d * (-b);
      assert (-d - 1) * b == d * (-b) - b;
      -d
  }

  /** `totalPages`: `Math.ceil(total / pageSize)`. */
  function PageCountOf(total: int, pageSize: int): (c: PageCount)
    ensures pageSize > 0 ==> c.Pages? && (c.n - 1) * pageSize < total <= c.n * pageSize
    ensures pageSize > 0 && total >= 0 ==> c.Pages? && c.n >= 0
    ensures pageSize > 0 && total == 0 ==> c == Pages(0)
    ensures pageSize == 0 ==> !c.Pages?
  {
    if pageSize != 0 then Pages(CeilDiv(total, pageSize))
    else if total > 0 then PlusInfinity
    else if total < 0 then MinusInfinity
    else NotANumber
  }

  /** JavaScript `page > totalPages`; every comparison with NaN is false. */
  predicate Exceeds(page: int, c: PageCount): (b: bool)
    ensures c.NotANumber? || c.PlusInfinity? ==> !b
    ensures c.MinusInfinity? ==> b
    ensures c.Pages? ==> (b <==> page >= c.n + 1)
  {
    match c
    case Pages(n) => page > n
    case PlusInfinity => false
    case MinusInfinity => true
    case NotANumber => false
  }

  /** JavaScript `v || d` on an optional number: a missing value or 0 gives the default. */
  function OrDefault(v: Option<int>, d: int): (r: int)
    ensures v.Some? && v.value != 0 ==> r == v.value
    ensures v.None? || v.value == 0 ==> r == d
  {
    if v.Some? && v.value != 0 then v.value else d
  }

  /**
   * For a positive page size, a page exceeds the page count exactly when it
   * would start at or after the last item: it would show nothing.
   */
  lemma ExceedsMeansEmptyPage(page: int, total: int, pageSize: int)
    requires pageSize > 0
    ensures Exceeds(page, PageCountOf(total, pageSize)) <==> (page - 1) * pageSize >= total
  {
    var n := PageCountOf(total, pageSize).n;
    if page > n {
      MulMonotone(n, page - 1, pageSize);
    } else {
      MulMonotone(page - 1, n - 1, pageSize);
    }
  }

  /** Multiplying by a non-negative factor keeps the order. */
  lemma MulMonotone(a: int, b: int, c: int)
    requires a <= b && c >= 0
    ensures a * c <= b * c
  {
    var d := b - a;
    assert d * c >= 0;
    assert b * c == a * c + d * c;
  }

  /** What `getParams()` returns. */
  datatype PageParams = PageParams(page: int, pageSize: int)

  /** The reactive `pagination` object. */
  class Paginator {
    var page: int
    var pageSize: int
    var total: int

    /** `usePagination(initParams)`: page defaults to 1, pageSize to 10, total starts at 0. */
    constructor (initPage: Option<int>, initPageSize: Option<int>)
      ensures page == OrDefault(initPage, 1) && pageSize == OrDefault(initPageSize, 10) && total == 0
    {
      page := OrDefault(initPage, 1);
      pageSize := OrDefault(initPageSize, 10);
      total := 0;
    }

    /** The computed `totalPages`. */
    function TotalPages(): (c: PageCount)
      reads this
      ensures pageSize > 0 ==> c.Pages? && (c.n - 1) * pageSize < total <= c.n * pageSize
    {
      PageCountOf(total, pageSize)
    }

    /** `handlePageChange(p)`: only the page changes, and it is not range-checked. */
    method HandlePageChange(p: int)
      modifies this
      ensures page == p && pageSize == old(pageSize) && total == old(total)
    {
      page := p;
    }

    /**
     * `handleSizeChange(s)`: set the page size, and go back to page 1 when the
     * current page lies beyond the new last page.
     */
    method HandleSizeChange(size: int)
      modifies this
      ensures pageSize == size && total == old(total)
      ensures page == if Exceeds(old(page), PageCountOf(old(total), size)) then 1 else old(page)
      ensures page == 1 || !Exceeds(page, TotalPages())
    {
      pageSize := size;
      if Exceeds(page, TotalPages()) {
        page := 1;
      }
    }

    /** `resetPagination()`: back to page 1 with no items; the page size is kept. */
    method ResetPagination()
      modifies this
      ensures page == 1 && total == 0 && pageSize == old(pageSize)
    {
      page := 1;
      total := 0;
    }

    /** `setTotal(t)`: only the total changes; the page is not corrected. */
    method SetTotal(t: int)
      modifies this
      ensures total == t && page == old(page) && pageSize == old(pageSize)
    {
      total := t;
    }

    /** `getParams()`: the current page and page size, with no change of state. */
    method GetParams() returns (p: PageParams)
      ensures p.page == page && p.pageSize == pageSize
    {
      p := PageParams(page, pageSize);
    }
  }
}
