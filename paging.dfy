// Paging arithmetic of Page (0-based page numbers) and LogQueryResult (1-based page numbers).
module Paging {
  import JavaInt

  /** Ceiling of a / b for a positive divisor; Math.ceil((double) a / b) on exact arithmetic. */
  function CeilDiv(a: int, b: int): (q: int)
    requires b > 0
    ensures b * (q - 1) < a <= b * q
  {
    -((-a) / b)
  }

  /** Page: the content and numbers of one page, with totalPages fixed at construction. */
  datatype Page<T> = Page(content: seq<T>, pageNumber: int, pageSize: int, totalElements: int, totalPages: int)

  function PageTotalPages(pageSize: int, totalElements: int): int
  {
    if pageSize > 0 then CeilDiv(totalElements, pageSize) else 0
  }

  /** The constructor: totalPages is derived from the size and the element count. */
  function NewPage<T>(content: seq<T>, pageNumber: int, pageSize: int, totalElements: int): (p: Page<T>)
    ensures p.content == content && p.pageNumber == pageNumber
    ensures p.pageSize == pageSize && p.totalElements == totalElements
    ensures pageSize <= 0 ==> p.totalPages == 0
    ensures pageSize > 0 ==> pageSize * (p.totalPages - 1) < totalElements <= pageSize * p.totalPages
  {
    Page(content, pageNumber, pageSize, totalElements, PageTotalPages(pageSize, totalElements))
  }

  predicate HasContent<T>(p: Page<T>) { |p.content| > 0 }
  predicate IsFirst<T>(p: Page<T>) { p.pageNumber == 0 }
  predicate IsLast<T>(p: Page<T>) { p.pageNumber == p.totalPages - 1 }
  predicate HasNext<T>(p: Page<T>) { p.pageNumber < p.totalPages - 1 }
  predicate HasPrevious<T>(p: Page<T>) { p.pageNumber > 0 }

  /**
   * For a page that exists (0 <= pageNumber < totalPages): exactly one of hasNext and isLast
   * holds, and hasPrevious is the negation of isFirst.
   */
  lemma PageNavigation<T>(p: Page<T>)
    requires 0 <= p.pageNumber < p.totalPages
    ensures HasNext(p) <==> !IsLast(p)
    ensures HasPrevious(p) <==> !IsFirst(p)
  {
  }

  /** The ceiling is the only q with b * (q - 1) < a <= b * q. */
  lemma CeilDivUnique(a: int, b: int, q: int)
    requires b > 0 && b * (q - 1) < a <= b * q
    ensures CeilDiv(a, b) == q
  {
    var c := CeilDiv(a, b);
    if c < q {
      JavaInt.MulMonotone(c, q - 1, b);
    } else if q < c {
      JavaInt.MulMonotone(q, c - 1, b);
    }
  }

  /**
   * With n >= 0 elements and a positive page size: there are no pages exactly when there are
   * no elements, and pageSize more elements take exactly one more page.
   */
  lemma {:induction false} PageCountMinimal(pageSize: int, n: int)
    requires pageSize > 0 && n >= 0
    ensures n == 0 <==> PageTotalPages(pageSize, n) == 0
    ensures PageTotalPages(pageSize, n) >= 0
    ensures PageTotalPages(pageSize, n + pageSize) == PageTotalPages(pageSize, n) + 1
  {
    var k := PageTotalPages(pageSize, n);
    if k < 0 {
      JavaInt.MulMonotone(k, 0, pageSize);
    }
    if n == 0 {
      CeilDivUnique(0, pageSize, 0);
    }
    assert pageSize * k == pageSize * (k + 1 - 1);
    assert pageSize * (k + 1) == pageSize * k + pageSize;
    CeilDivUnique(n + pageSize, pageSize, k + 1);
  }

  /** LogQueryResult: one page of a search, pages numbered from 1. */
  datatype LogQueryResult<T> = LogQueryResult(logs: seq<T>, totalHits: int, pageNumber: int, pageSize: int)

  function QueryTotalPages<T>(r: LogQueryResult<T>): int
  {
    if r.pageSize <= 0 then 0 else CeilDiv(r.totalHits, r.pageSize)
  }

  predicate QueryHasNext<T>(r: LogQueryResult<T>) { r.pageNumber < QueryTotalPages(r) }
  predicate QueryHasPrevious<T>(r: LogQueryResult<T>) { r.pageNumber > 1 }

  /** A non-positive page size means no pages, so no next page from any page number >= 0. */
  lemma NoNextPageWithoutPageSize<T>(r: LogQueryResult<T>)
    requires r.pageSize <= 0 && r.pageNumber >= 0
    ensures QueryTotalPages(r) == 0 && !QueryHasNext(r)
  {
  }

  /**
   * With 1-based pages and a positive page size, page p has a next page exactly when the hits
   * reach past the end of page p.
   */
  lemma {:induction false} QueryHasNextMeaning<T>(r: LogQueryResult<T>)
    requires r.pageSize > 0
    ensures QueryHasNext(r) <==> r.totalHits > r.pageNumber * r.pageSize
  {
    var k := QueryTotalPages(r);
    assert r.pageSize * (k - 1) < r.totalHits <= r.pageSize * k;
    assert r.pageNumber * r.pageSize == r.pageSize * r.pageNumber;
    if r.pageNumber < k {
      JavaInt.MulMonotone(r.pageNumber, k - 1, r.pageSize);
    } else {
      JavaInt.MulMonotone(k, r.pageNumber, r.pageSize);
    }
  }
}
