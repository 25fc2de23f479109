/** The "my reviews" page's pagination: ten reviews per page from page 1,
    and a page change that moves only the page. The page strip it renders is
    the one of the Pager module. */
module MyReviewsPage {
  import opened Pager

  class ReviewsPage {
    var pagination: Pagination

    /** Page 1 of an empty result, ten per page. */
    constructor()
      ensures pagination == Pagination(0, 1, 10, 0)
    {
      pagination := Pagination(0, 1, 10, 0);
    }

    /** `getMyReviews(pagination.page, pagination.limit)`. */
    function Request(): (int, int)
      reads this
    {
      (pagination.page, pagination.limit)
    }

    /** `setPagination(result.pagination)` after an answer. */
    method Loaded(result: Pagination)
      modifies this
      ensures pagination == result
    {
      pagination := result;
    }

    /** `handlePageChange`: the page moves; total, limit and page count stay. */
    method HandlePageChange(page: int)
      modifies this
      ensures pagination == old(pagination).(page := page)
    {
      pagination := pagination.(page := page);
    }
  }

  /** Paging through the strip from a page in range never leaves the range
      and never changes the page size asked for. */
  method ClickThrough(page: ReviewsPage, target: int)
    requires Rendered(page.pagination) && 1 <= page.pagination.page <= page.pagination.totalPages
    requires target in Window(page.pagination.page, page.pagination.totalPages)
    modifies page
    ensures 1 <= page.pagination.page <= page.pagination.totalPages
    ensures page.Request() == (target, old(page.pagination.limit))
  {
    NavigationStaysInRange(page.pagination, target);
    page.HandlePageChange(target);
  }
}
