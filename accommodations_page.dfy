/** The search page's state: the filters the user chose and the pagination
    block of the last answer. A new search starts again at page 1, a page
    change moves only the page, and the sort menu's "column-direction" value
    is split into the two sort filters. */
module AccommodationsPage {
  import opened Common
  import opened QueryParams
  import Search
  import opened Pager

  /** `useState<any>({})`: no filter set. */
  const NoFilters := ClientFilters(None, None, None, None, None, None, None, None, None, None, None, None, None, None, None)

  /** `const [sortBy, sortOrder] = value.split('-')`: the first piece and,
      when there is one, the second. */
  function SortParts(value: string): (Option<string>, Option<string>)
  {
    var parts := Split(value, '-');
    (Some(parts[0]), if |parts| > 1 then Some(parts[1]) else None)
  }

  /** `{ ...filters, sortBy, sortOrder }`. */
  function WithSort(f: ClientFilters, value: string): ClientFilters
  {
    f.(sortBy := SortParts(value).0, sortOrder := SortParts(value).1)
  }

  /** A value made of a column and a direction, neither holding '-', splits
      back into that column and that direction. */
  lemma SortPartsOf(column: string, direction: string)
    requires '-' !in column && '-' !in direction
    ensures SortParts(column + "-" + direction) == (Some(column), Some(direction))
  {
    SplitAfterPiece(column, '-', direction);
    SplitNoSeparator(direction, '-');
  }

  /** A value without '-' sets only the sort column; the direction becomes
      undefined. */
  lemma SortPartsWithoutDirection(value: string)
    requires '-' !in value
    ensures SortParts(value) == (Some(value), None)
  {
    SplitNoSeparator(value, '-');
  }

  /** The four entries of the sort menu reach the server as the column and
      direction they are labelled with: newest first, best rated first,
      cheapest first and dearest first. */
  lemma SortOptions(f: ClientFilters)
    ensures Search.ResolveSortColumn(WithSort(f, "created_at-desc").sortBy) == Search.CreatedAt
    ensures Search.ResolveDirection(WithSort(f, "created_at-desc").sortOrder) == Search.Desc
    ensures Search.ResolveSortColumn(WithSort(f, "average_rating-desc").sortBy) == Search.AverageRating
    ensures Search.ResolveDirection(WithSort(f, "average_rating-desc").sortOrder) == Search.Desc
    ensures Search.ResolveSortColumn(WithSort(f, "min_price-asc").sortBy) == Search.MinPrice
    ensures Search.ResolveDirection(WithSort(f, "min_price-asc").sortOrder) == Search.Asc
    ensures Search.ResolveSortColumn(WithSort(f, "min_price-desc").sortBy) == Search.MinPrice
    ensures Search.ResolveDirection(WithSort(f, "min_price-desc").sortOrder) == Search.Desc
  {
    assert "created_at" + "-" + "desc" == "created_at-desc";
    SortPartsOf("created_at", "desc");
    assert "average_rating" + "-" + "desc" == "average_rating-desc";
    SortPartsOf("average_rating", "desc");
    assert "min_price" + "-" + "asc" == "min_price-asc";
    SortPartsOf("min_price", "asc");
    assert "min_price" + "-" + "desc" == "min_price-desc";
    SortPartsOf("min_price", "desc");
  }

  /** `{ ...filters, page, limit }`: the request carries the pagination's
      page and limit. */
  function RequestOf(filters: ClientFilters, pagination: Pagination): (r: ClientFilters)
    ensures pagination.page != 0 ==> Lookup(SearchParams(r), PageParam) == Some(IntText(pagination.page))
    ensures pagination.page == 0 ==> Lookup(SearchParams(r), PageParam) == None
    ensures pagination.limit != 0 ==> Lookup(SearchParams(r), LimitParam) == Some(IntText(pagination.limit))
  {
    var r := filters.(page := Some(pagination.page), limit := Some(pagination.limit));
    AppendedLookup(r, 15, PageParam.Rank());
    AppendedLookup(r, 15, LimitParam.Rank());
    r
  }

  /** The append of rank `name.Rank()` is the one for that name. */
  lemma AppendOfName(f: ClientFilters, name: ParamName)
    ensures AppendAt(f, name.Rank()).name == name
  {
    match name
    case RegionParam =>
    case CheckInParam =>
    case CheckOutParam =>
    case AdultsParam =>
    case ChildrenParam =>
    case InfantsParam =>
    case AgeMonthsParam =>
    case AmenitiesParam =>
    case MinPriceParam =>
    case MaxPriceParam =>
    case MinRatingParam =>
    case PageParam =>
    case LimitParam =>
    case SortByParam =>
    case SortOrderParam =>
  }

  /** Every parameter other than page and limit goes out exactly as the
      filters alone would send it. */
  lemma RequestKeepsFilters(filters: ClientFilters, pagination: Pagination, name: ParamName)
    requires name != PageParam && name != LimitParam
    ensures Lookup(SearchParams(RequestOf(filters, pagination)), name) == Lookup(SearchParams(filters), name)
  {
    var r := RequestOf(filters, pagination);
    AppendOfName(r, name);
    AppendOfName(filters, name);
    assert AppendAt(r, name.Rank()) == AppendAt(filters, name.Rank());
    AppendedLookup(r, 15, name.Rank());
    AppendedLookup(filters, 15, name.Rank());
  }

  class SearchPage {
    var filters: ClientFilters
    var pagination: Pagination

    /** No filters, page 1 of an empty result, 12 per page. */
    constructor()
      ensures filters == NoFilters
      ensures pagination == Pagination(0, 1, 12, 0)
    {
      filters := NoFilters;
      pagination := Pagination(0, 1, 12, 0);
    }

    /** What `loadAccommodations` asks for. */
    function Request(): ClientFilters
      reads this
    {
      RequestOf(filters, pagination)
    }

    /** `setPagination(result.pagination)` after an answer. */
    method Loaded(result: Pagination)
      modifies this
      ensures pagination == result && filters == old(filters)
    {
      pagination := result;
    }

    /** `handleSearch`: the new filters replace the old ones and the page
        goes back to 1; total, limit and page count stay. */
    method HandleSearch(searchFilters: ClientFilters)
      modifies this
      ensures filters == searchFilters
      ensures pagination == old(pagination).(page := 1)
    {
      filters := searchFilters;
      pagination := pagination.(page := 1);
    }

    /** `handlePageChange`: only the page moves. */
    method HandlePageChange(page: int)
      modifies this
      ensures filters == old(filters)
      ensures pagination == old(pagination).(page := page)
    {
      pagination := pagination.(page := page);
    }

    /** The sort menu's `onChange`: both sort filters come from the chosen
        value, every other filter and the page stay. */
    method HandleSortChange(value: string)
      modifies this
      ensures filters == WithSort(old(filters), value)
      ensures pagination == old(pagination)
    {
      var parts := Split(value, '-');
      var sortBy := parts[0];
      var sortOrder := if |parts| > 1 then Some(parts[1]) else None;
      filters := filters.(sortBy := Some(sortBy), sortOrder := sortOrder);
    }
  }

  /** After a search the next request asks for page 1 with the new filters
      and the limit the page had. */
  method SearchAsksFirstPage(page: SearchPage, searchFilters: ClientFilters)
    modifies page
    ensures Lookup(SearchParams(page.Request()), PageParam) == Some("1")
    ensures forall name | name != PageParam && name != LimitParam ::
      Lookup(SearchParams(page.Request()), name) == Lookup(SearchParams(searchFilters), name)
    ensures page.pagination.limit == old(page.pagination.limit)
  {
    page.HandleSearch(searchFilters);
    assert IntText(1) == "1";
    forall name | name != PageParam && name != LimitParam
      ensures Lookup(SearchParams(page.Request()), name) == Lookup(SearchParams(searchFilters), name)
    {
      RequestKeepsFilters(searchFilters, page.pagination, name);
    }
  }
}
