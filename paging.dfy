/** The Previous / "Page p of n" / Next control. The dashboard's profile
    search and the analytics search carry the same state and the same
    handlers for it. */
module Paging {

  /** The `pagination` object of a paginated search response. */
  datatype Pagination = Pagination(currentPage: int, totalPages: int)

  /** The page shown after a click on Previous; a disabled button does
      nothing. Clicking never leaves the pages numbered from 1, and the page
      stays put exactly on page 1. */
  function PreviousPage(page: int): (r: int)
    ensures page >= 1 ==> 1 <= r <= page
    ensures r == page <==> page == 1
    ensures r != page ==> r == page - 1
  {
    if page == 1 then page else page - 1
  }

  /** The page shown after a click on Next; a disabled button does
      nothing. From a page within range the next page is within range, and
      the page stays put exactly on the last page. */
  function NextPage(page: int, totalPages: int): (r: int)
    ensures page <= totalPages ==> page <= r <= totalPages
    ensures r == page <==> page == totalPages
    ensures r != page ==> r == page + 1
  {
    if page == totalPages then page else page + 1
  }

  /** The page shown after `n` clicks on Next. */
  function NextClicks(page: int, totalPages: int, n: nat): int
    decreases n
  {
    if n == 0 then page else NextClicks(NextPage(page, totalPages), totalPages, n - 1)
  }

  /** From a page within range, any number of clicks on Next stays within
      range and stops at the last page. */
  lemma {:induction false} NextStaysInRange(page: int, totalPages: int, n: nat)
    requires 1 <= page <= totalPages
    ensures page <= NextClicks(page, totalPages, n) <= totalPages
    ensures NextClicks(page, totalPages, n) == if page + n <= totalPages then page + n else totalPages
    decreases n
  {
    if n > 0 {
      NextStaysInRange(NextPage(page, totalPages), totalPages, n - 1);
    }
  }

  /** When the current page is already past `totalPages` (for instance a
      search with no result and `totalPages` 0), Next is never disabled
      again and every click moves one page further. */
  lemma {:induction false} NextRunsPastLast(page: int, totalPages: int, n: nat)
    requires totalPages < page
    ensures NextClicks(page, totalPages, n) == page + n
    decreases n
  {
    if n > 0 {
      NextRunsPastLast(page + 1, totalPages, n - 1);
    }
  }

  class Pager {
    var query: string
    var page: int
    var pagination: Pagination

    /** Pages are numbered from 1. */
    ghost predicate Valid()
      reads this
    {
      page >= 1
    }

    /** The initial state: empty query, page 1 of 1. */
    constructor ()
      ensures Valid()
      ensures query == "" && page == 1 && pagination == Pagination(1, 1)
    {
      query := "";
      page := 1;
      pagination := Pagination(1, 1);
    }

    /** `disabled={page === 1}` on Previous. */
    function PreviousDisabled(): bool
      reads this
    {
      page == 1
    }

    /** `disabled={page === pagination.totalPages}` on Next. */
    function NextDisabled(): bool
      reads this
    {
      page == pagination.totalPages
    }

    /** The search box's onChange: the new query, and back to page 1. */
    method ChangeQuery(q: string)
      modifies this
      ensures Valid()
      ensures query == q && page == 1 && pagination == old(pagination)
    {
      query := q;
      page := 1;
    }

    /** A click on Previous. */
    method Previous()
      requires Valid()
      modifies this
      ensures Valid()
      ensures page == PreviousPage(old(page))
      ensures old(PreviousDisabled()) <==> page == old(page)
      ensures query == old(query) && pagination == old(pagination)
    {
      if !PreviousDisabled() {
        page := page - 1;
      }
    }

    /** A click on Next. */
    method Next()
      requires Valid()
      modifies this
      ensures Valid()
      ensures page == NextPage(old(page), old(pagination.totalPages))
      ensures old(NextDisabled()) <==> page == old(page)
      ensures query == old(query) && pagination == old(pagination)
    {
      if !NextDisabled() {
        page := page + 1;
      }
    }

    /** `setPagination(data.pagination)` after a successful search. The
        page shown is still `page`, not `pagination.currentPage`. */
    method Receive(p: Pagination)
      requires Valid()
      modifies this
      ensures Valid()
      ensures pagination == p && page == old(page) && query == old(query)
    {
      pagination := p;
    }
  }
}
