/** The accommodation HTTP handlers: reading the search query into filters,
    shaping the list summaries and the pagination block, the detail response
    (404 before any further lookup, one-to-one DTO maps, amenities grouped by
    category name) and the per-month amenities listing. */
module AccommodationController {
  import opened Common
  import opened QueryParams
  import Search
  import opened AccommodationDetail

  // ---------------------------------------------------------------------------
  // Reading `req.query`

  /** The decoded query parameters the handler reads. */
  type RawQuery = seq<(ParamName, string)>

  /** `q ? q.split(',').map(Number) : undefined`. */
  function OptionalList(v: Option<string>): (r: Option<Option<seq<int>>>)
    ensures !TruthyText(v) ==> r == Some(None)
    ensures TruthyText(v) ==> (r.Some? <==> DecodeList(v.value).Some?)
    ensures r.Some? && r.value.Some? ==> TruthyText(v) && DecodeList(v.value) == r.value
  {
    if !TruthyText(v) then Some(None)
    else
      var xs := DecodeList(v.value);
      if xs.Some? then Some(Some(xs.value)) else None
  }

  /** `q ? parseFloat(q) : undefined` for the rating. */
  function OptionalTenths(v: Option<string>): (r: Option<Option<real>>)
    ensures !TruthyText(v) ==> r == Some(None)
    ensures TruthyText(v) ==> (r.Some? <==> ParseTenths(v.value).Some?)
    ensures r.Some? && r.value.Some? ==> TruthyText(v) && ParseTenths(v.value) == r.value
  {
    if !TruthyText(v) then Some(None)
    else
      var x := ParseTenths(v.value);
      if x.Some? then Some(Some(x.value)) else None
  }

  /** The filters object `getAccommodations` builds from `req.query`; None
      when a present numeric parameter does not parse. The check-in/out
      dates and guest counts are read but never used, and are not carried. */
  function ParseQuery(q: RawQuery): (r: Option<Search.SearchFilters>)
    ensures r.Some? ==> r.value.page.Some? && r.value.limit.Some? && r.value.sortOrder.Some?
    ensures r.Some? && !TruthyText(Lookup(q, PageParam)) ==> r.value.page == Some(Search.DefaultPage)
    ensures r.Some? && !TruthyText(Lookup(q, LimitParam)) ==> r.value.limit == Some(Search.DefaultLimit)
    ensures r.Some? && !TruthyText(Lookup(q, SortOrderParam)) ==> r.value.sortOrder == Some("desc")
    ensures r.Some? ==> r.value.region == Lookup(q, RegionParam) && r.value.sortBy == Lookup(q, SortByParam)
    ensures r.Some? ==> (r.value.ageMonths.Some? <==> TruthyText(Lookup(q, AgeMonthsParam)))
    ensures r.Some? ==> (r.value.amenities.Some? <==> TruthyText(Lookup(q, AmenitiesParam)))
    ensures r.Some? ==> (r.value.minRating.Some? <==> TruthyText(Lookup(q, MinRatingParam)))
  {
    var ageMonths := OptionalList(Lookup(q, AgeMonthsParam));
    var amenities := OptionalList(Lookup(q, AmenitiesParam));
    var minPrice := OptionalInt(Lookup(q, MinPriceParam));
    var maxPrice := OptionalInt(Lookup(q, MaxPriceParam));
    var minRating := OptionalTenths(Lookup(q, MinRatingParam));
    var page := DefaultedInt(Lookup(q, PageParam), Search.DefaultPage);
    var limit := DefaultedInt(Lookup(q, LimitParam), Search.DefaultLimit);
    var sortOrder := Lookup(q, SortOrderParam);
    if ageMonths.None? || amenities.None? || minPrice.None? || maxPrice.None? || minRating.None?
       || page.None? || limit.None? then None
    else
      Some(Search.SearchFilters(
        Lookup(q, RegionParam),
        ageMonths.value,
        amenities.value,
        minPrice.value,
        maxPrice.value,
        minRating.value,
        Some(page.value),
        Some(limit.value),
        Lookup(q, SortByParam),
        Some(if TruthyText(sortOrder) then sortOrder.value else "desc")))
  }

  // ---------------------------------------------------------------------------
  // Browser to API round trip

  /** What the API should see for filters the browser holds: each filter
      that is truthy (a list: non-empty) arrives as it was, every other one
      is absent, and page, limit and sort order take their defaults. */
  function Received(f: ClientFilters): Search.SearchFilters
  {
    Search.SearchFilters(
      if TruthyText(f.region) then f.region else None,
      if NonEmptyList(f.ageMonths) then f.ageMonths else None,
      if NonEmptyList(f.amenities) then f.amenities else None,
      if TruthyInt(f.minPrice) then f.minPrice else None,
      if TruthyInt(f.maxPrice) then f.maxPrice else None,
      if TruthyReal(f.minRating) then f.minRating else None,
      Some(if TruthyInt(f.page) then f.page.value else Search.DefaultPage),
      Some(if TruthyInt(f.limit) then f.limit.value else Search.DefaultLimit),
      if TruthyText(f.sortBy) then f.sortBy else None,
      Some(if TruthyText(f.sortOrder) then f.sortOrder.value else "desc"))
  }

  lemma IntTextNotEmpty(i: int)
    ensures IntText(i) != ""
  {
    NatTextDigits(if i < 0 then -i else i);
  }

  lemma {:induction false} JoinNotEmpty(parts: seq<string>, sep: char)
    requires parts != [] && parts[0] != ""
    ensures Join(parts, sep) != ""
  {
  }

  lemma ListField(xs: Option<seq<int>>)
    ensures OptionalList(if NonEmptyList(xs) then Some(EncodeList(xs.value)) else None)
            == Some(if NonEmptyList(xs) then xs else None)
  {
    if NonEmptyList(xs) {
      IntTextsIndex(xs.value);
      IntTextNotEmpty(xs.value[0]);
      JoinNotEmpty(IntTexts(xs.value), ',');
      DecodeEncodeList(xs.value);
    }
  }

  lemma IntField(n: Option<int>)
    ensures OptionalInt(if TruthyInt(n) then Some(IntText(n.value)) else None)
            == Some(if TruthyInt(n) then n else None)
  {
    if TruthyInt(n) {
      IntTextNotEmpty(n.value);
      ParseIntText(n.value);
    }
  }

  lemma DefaultedField(n: Option<int>, d: int)
    ensures DefaultedInt(if TruthyInt(n) then Some(IntText(n.value)) else None, d)
            == Some(if TruthyInt(n) then n.value else d)
  {
    if TruthyInt(n) {
      IntTextNotEmpty(n.value);
      ParseIntText(n.value);
    }
  }

  lemma RatingField(x: Option<real>, tenths: nat)
    requires x.Some? ==> x.value == tenths as real / 10.0
    ensures OptionalTenths(if TruthyReal(x) then Some(TenthsText(x.value)) else None)
            == Some(if TruthyReal(x) then x else None)
  {
    if TruthyReal(x) {
      TenthsRoundTrip(tenths);
      UnsignedTenthsLeadingDigit(x.value);
    }
  }

  /** Reading a query whose parameters carry exactly the truthy filters of
      `f`, each written as the browser writes it, yields `Received(f)`. */
  lemma ParseTruthyFields(q: RawQuery, f: ClientFilters, ratingTenths: nat)
    requires f.minRating.Some? ==> f.minRating.value == ratingTenths as real / 10.0
    requires Lookup(q, RegionParam) == (if TruthyText(f.region) then f.region else None)
    requires Lookup(q, AgeMonthsParam) == (if NonEmptyList(f.ageMonths) then Some(EncodeList(f.ageMonths.value)) else None)
    requires Lookup(q, AmenitiesParam) == (if NonEmptyList(f.amenities) then Some(EncodeList(f.amenities.value)) else None)
    requires Lookup(q, MinPriceParam) == (if TruthyInt(f.minPrice) then Some(IntText(f.minPrice.value)) else None)
    requires Lookup(q, MaxPriceParam) == (if TruthyInt(f.maxPrice) then Some(IntText(f.maxPrice.value)) else None)
    requires Lookup(q, MinRatingParam) == (if TruthyReal(f.minRating) then Some(TenthsText(f.minRating.value)) else None)
    requires Lookup(q, PageParam) == (if TruthyInt(f.page) then Some(IntText(f.page.value)) else None)
    requires Lookup(q, LimitParam) == (if TruthyInt(f.limit) then Some(IntText(f.limit.value)) else None)
    requires Lookup(q, SortByParam) == (if TruthyText(f.sortBy) then f.sortBy else None)
    requires Lookup(q, SortOrderParam) == (if TruthyText(f.sortOrder) then f.sortOrder else None)
    ensures ParseQuery(q) == Some(Received(f))
  {
    ListField(f.ageMonths);
    ListField(f.amenities);
    IntField(f.minPrice);
    IntField(f.maxPrice);
    RatingField(f.minRating, ratingTenths);
    DefaultedField(f.page, Search.DefaultPage);
    DefaultedField(f.limit, Search.DefaultLimit);
  }

  /** The browser's encoder and the API's reader agree: for filters whose
      rating is a non-negative multiple of a tenth, reading the query
      `getAccommodations` sends yields exactly the received filters. */
  lemma EncodeThenParse(f: ClientFilters, ratingTenths: nat)
    requires f.minRating.Some? ==> f.minRating.value == ratingTenths as real / 10.0
    ensures ParseQuery(SearchParams(f)) == Some(Received(f))
  {
    SearchParamsLookup(f);
    ParseTruthyFields(SearchParams(f), f, ratingTenths);
  }

  // ---------------------------------------------------------------------------
  // List response

  /** A row of the search result with its three aggregates as the driver
      returns them (None is SQL NULL / `undefined`). */
  datatype SummaryRow = SummaryRow(
    accommodation: Search.Accommodation,
    averageRating: Option<real>,
    reviewCount: Option<int>,
    minPrice: Option<int>)

  datatype Summary = Summary(
    id: int,
    name: string,
    region: string,
    averageRating: real,
    reviewCount: int,
    minPrice: Option<int>)

  /** One element of `result.data.map(...)`: `parseFloat(x?.toString() || '0')`
      for the rating, `parseInt(... || '0')` for the count, and
      `min_price ? parseFloat(min_price) : null`. */
  function ToSummary(row: SummaryRow): (s: Summary)
    ensures s.id == row.accommodation.id && s.name == row.accommodation.name && s.region == row.accommodation.region
    ensures row.averageRating.None? ==> s.averageRating == 0.0
    ensures row.averageRating.Some? ==> s.averageRating == row.averageRating.value
    ensures row.reviewCount.None? ==> s.reviewCount == 0
    ensures row.reviewCount.Some? ==> s.reviewCount == row.reviewCount.value
    ensures s.minPrice.None? <==> row.minPrice.None? || row.minPrice.value == 0
    ensures s.minPrice.Some? ==> s.minPrice.value == row.minPrice.value
  {
    Summary(
      row.accommodation.id,
      row.accommodation.name,
      row.accommodation.region,
      row.averageRating.GetOr(0.0),
      row.reviewCount.GetOr(0),
      if row.minPrice.Some? && row.minPrice.value != 0 then row.minPrice else None)
  }

  /** The row `findAll` selects for an accommodation: `COALESCE(AVG, 0)`,
      the review count and `MIN(price_per_night)`. */
  function SummaryRowOf(db: Search.Tables, a: Search.Accommodation): SummaryRow
  {
    SummaryRow(a, Some(Search.AverageRatingOf(db, a)), Some(|Search.RatingsOf(db.reviews, a.id)|), Search.MinPriceOf(db, a))
  }

  /** An accommodation without room types lists no minimum price; one
      without reviews lists rating 0 and count 0. */
  lemma SummaryDefaults(db: Search.Tables, a: Search.Accommodation)
    ensures Search.PricesOf(db.roomTypes, a.id) == [] ==> ToSummary(SummaryRowOf(db, a)).minPrice.None?
    ensures Search.RatingsOf(db.reviews, a.id) == [] ==>
      ToSummary(SummaryRowOf(db, a)).averageRating == 0.0 && ToSummary(SummaryRowOf(db, a)).reviewCount == 0
  {
  }

  function Summaries(db: Search.Tables, rows: seq<Search.Accommodation>): (r: seq<Summary>)
    ensures |r| == |rows|
    ensures forall i | 0 <= i < |rows| :: r[i] == ToSummary(SummaryRowOf(db, rows[i]))
  {
    if rows == [] then [] else [ToSummary(SummaryRowOf(db, rows[0]))] + Summaries(db, rows[1..])
  }

  datatype Pagination = Pagination(total: nat, page: int, limit: int, totalPages: nat)

  /** `Math.ceil(total / (limit || 12))`: a zero limit counts pages of 12. */
  function TotalPages(total: nat, limit: nat): (n: nat)
    ensures var pageSize := if limit == 0 then Search.DefaultLimit else limit;
      total <= n * pageSize && (n > 0 ==> (n - 1) * pageSize < total)
  {
    CeilDiv(total, if limit == 0 then Search.DefaultLimit else limit)
  }

  datatype ListResponse =
    | ListOk(data: seq<Summary>, pagination: Pagination)
    | ListFailed  // 500: the database rejected a negative LIMIT or OFFSET

  /** `getAccommodations` after the query is read (`ParseQuery`): the
      service call, then one page of summaries with its pagination block.
      `ordered` is the database's ORDER BY order of the kept groups: sorted
      by the requested column in the requested direction, ties in any
      order. */
  method GetAccommodations(db: Search.Tables, f: Search.SearchFilters, ordered: seq<Search.Accommodation>)
    returns (res: ListResponse)
    requires f.page.Some? && f.limit.Some?
    requires multiset(ordered) == multiset(Search.Filtered(db, Search.PlanOf(f)))
    requires Search.SortedBy(db, Search.ResolveSortColumn(f.sortBy), Search.ResolveDirection(f.sortOrder), ordered)
    ensures res.ListFailed? <==> Search.OffsetOf(f) < 0 || Search.LimitOf(f) < 0
    ensures res.ListOk? ==>
      && res.pagination.total == |Search.Filtered(db, Search.PlanOf(f))|
      && res.pagination.page == f.page.value
      && res.pagination.limit == f.limit.value
      && res.pagination.totalPages == TotalPages(res.pagination.total, f.limit.value)
    ensures res.ListOk? ==>
      && |res.data| <= f.limit.value
      && forall i | 0 <= i < |res.data| ::
           Search.OffsetOf(f) + i < |ordered| && res.data[i] == ToSummary(SummaryRowOf(db, ordered[Search.OffsetOf(f) + i]))
    ensures res.ListOk? && Search.OffsetOf(f) < res.pagination.total ==>
      |res.data| == if Search.OffsetOf(f) + f.limit.value <= res.pagination.total then f.limit.value
                    else res.pagination.total - Search.OffsetOf(f)
    ensures res.ListOk? && |res.data| > 0 ==>
      && Search.OffsetOf(f) + |res.data| <= |ordered|
      && Search.SortedBy(db, Search.ResolveSortColumn(f.sortBy), Search.ResolveDirection(f.sortOrder),
           ordered[Search.OffsetOf(f)..Search.OffsetOf(f) + |res.data|])
  {
    var result := Search.FindAll(db, f, ordered);
    if result.None? {
      return ListFailed;
    }
    var page, total := result.value.data, result.value.total;
    var offset: nat := Search.OffsetOf(f);
    assert Search.LimitOf(f) == f.limit.value;
    Search.SortedWindow(db, Search.ResolveSortColumn(f.sortBy), Search.ResolveDirection(f.sortOrder), ordered,
      page, offset);
    SummariesOfWindow(db, ordered, page, offset);
    var data := Summaries(db, page);
    res := ListOk(data, Pagination(total, f.page.value, f.limit.value, TotalPages(total, f.limit.value)));
  }

  /** The summaries of a page taken from the listing at an offset are the
      summaries of the listing's rows from that offset on. */
  lemma SummariesOfWindow(db: Search.Tables, ordered: seq<Search.Accommodation>, page: seq<Search.Accommodation>, offset: nat)
    requires forall i | 0 <= i < |page| :: offset + i < |ordered| && page[i] == ordered[offset + i]
    ensures var data := Summaries(db, page);
      && |data| == |page|
      && forall i | 0 <= i < |data| ::
           offset + i < |ordered| && data[i] == ToSummary(SummaryRowOf(db, ordered[offset + i]))
  {
    var data := Summaries(db, page);
    forall i | 0 <= i < |data|
      ensures offset + i < |ordered| && data[i] == ToSummary(SummaryRowOf(db, ordered[offset + i]))
    {
      var row := page[i];
      assert row == ordered[offset + i];
    }
  }

  // ---------------------------------------------------------------------------
  // Detail response

  /** The model lookups the detail handler performs, in order. */
  datatype DbLookup = FindByIdLookup | ImagesLookup | RoomTypesLookup | StatsLookup | AmenitiesLookup | ReviewsLookup

  datatype ImageDto = ImageDto(id: int, isMain: bool, sortOrder: int)
  datatype RoomDto = RoomDto(id: int, pricePerNight: int)
  datatype AmenityDto = AmenityDto(id: int, isAvailable: bool, ageMonthFrom: Option<int>, ageMonthTo: Option<int>)
  datatype ReviewDto = ReviewDto(
    id: int,
    rating: real,
    userId: int,
    userName: string,
    pros: seq<int>,
    cons: seq<int>,
    images: seq<ReviewImage>)

  datatype DetailResponse =
    | DetailNotFound  // 404
    | DetailFailed    // 500: a lookup's statement was refused
    | Detail(
        accommodation: Search.Accommodation,
        averageRating: real,
        reviewCount: nat,
        images: seq<ImageDto>,
        roomTypes: seq<RoomDto>,
        amenities: map<string, seq<AmenityDto>>,
        reviews: seq<ReviewDto>)

  function ImageDtos(images: seq<Image>): (r: seq<ImageDto>)
    ensures |r| == |images|
    ensures forall i | 0 <= i < |images| ::
      r[i] == ImageDto(images[i].id, images[i].isMain, images[i].sortOrder)
  {
    if images == [] then []
    else [ImageDto(images[0].id, images[0].isMain, images[0].sortOrder)] + ImageDtos(images[1..])
  }

  function RoomDtos(rooms: seq<Room>): (r: seq<RoomDto>)
    ensures |r| == |rooms|
    ensures forall i | 0 <= i < |rooms| :: r[i] == RoomDto(rooms[i].id, rooms[i].pricePerNight)
  {
    if rooms == [] then [] else [RoomDto(rooms[0].id, rooms[0].pricePerNight)] + RoomDtos(rooms[1..])
  }

  /** One review of the response: the three aggregates fall back to `[]`
      (`pros || []`) when the subquery found nothing. */
  function ReviewDtoOf(e: ReviewEntry): (d: ReviewDto)
    ensures d.id == e.review.id && d.userId == e.review.userId && d.userName == e.userName
    ensures e.pros.None? ==> d.pros == []
    ensures e.pros.Some? ==> d.pros == e.pros.value
    ensures e.cons.None? ==> d.cons == []
    ensures e.cons.Some? ==> d.cons == e.cons.value
    ensures e.images.None? ==> d.images == []
    ensures e.images.Some? ==> d.images == e.images.value
  {
    ReviewDto(e.review.id, e.review.rating, e.review.userId, e.userName,
      e.pros.GetOr([]), e.cons.GetOr([]), e.images.GetOr([]))
  }

  function ReviewDtos(entries: seq<ReviewEntry>): (r: seq<ReviewDto>)
    ensures |r| == |entries|
    ensures forall i | 0 <= i < |entries| :: r[i] == ReviewDtoOf(entries[i])
  {
    if entries == [] then [] else [ReviewDtoOf(entries[0])] + ReviewDtos(entries[1..])
  }

  /** Each amenity row keyed by its `category_name`, the id taken from
      `amenity_id`. */
  function Keyed(rows: seq<AmenityRow>): (r: seq<(string, AmenityDto)>)
    ensures |r| == |rows|
    ensures forall i | 0 <= i < |rows| ::
      r[i] == (rows[i].categoryName, AmenityDto(rows[i].amenityId, rows[i].isAvailable, rows[i].ageMonthFrom, rows[i].ageMonthTo))
  {
    if rows == [] then []
    else
      [(rows[0].categoryName, AmenityDto(rows[0].amenityId, rows[0].isAvailable, rows[0].ageMonthFrom, rows[0].ageMonthTo))]
        + Keyed(rows[1..])
  }

  /** `getAccommodationById`: a missing accommodation answers 404 after the
      first lookup and runs no other; otherwise every lookup runs once, in
      order, and the response maps each list one-to-one. */
  method GetAccommodationById(db: Catalog, id: int) returns (res: DetailResponse, lookups: seq<DbLookup>)
    ensures !res.DetailFailed?
    ensures res.DetailNotFound? <==> FindById(db.accommodations, id).None?
    ensures res.DetailNotFound? ==> lookups == [FindByIdLookup]
    ensures res.Detail? ==>
      lookups == [FindByIdLookup, ImagesLookup, RoomTypesLookup, StatsLookup, AmenitiesLookup, ReviewsLookup]
    ensures res.Detail? ==>
      && res.accommodation == FindById(db.accommodations, id).value
      && res.averageRating == GetStats(db, id).averageRating
      && res.reviewCount == GetStats(db, id).reviewCount
      && res.images == ImageDtos(GetImages(db, id))
      && res.roomTypes == RoomDtos(GetRoomTypes(db, id))
      && res.reviews == ReviewDtos(GetReviews(db, id))
    ensures res.Detail? ==>
      && res.amenities.Keys == Keys(Keyed(GetAmenities(db, id, None)))
      && forall c | c in res.amenities :: res.amenities[c] == Group(Keyed(GetAmenities(db, id, None)), c)
  {
    lookups := [FindByIdLookup];
    var accommodation := FindById(db.accommodations, id);
    if accommodation.None? {
      return DetailNotFound, lookups;
    }
    var images := GetImages(db, id);
    lookups := lookups + [ImagesLookup];
    var roomTypes := GetRoomTypes(db, id);
    lookups := lookups + [RoomTypesLookup];
    var stats := GetStats(db, id);
    lookups := lookups + [StatsLookup];
    var amenitiesData := GetAmenities(db, id, None);
    lookups := lookups + [AmenitiesLookup];
    var reviewsRun := Executed(InsideAggregate, GetReviews(db, id));
    lookups := lookups + [ReviewsLookup];
    var amenities := GroupBy(Keyed(amenitiesData));
    var found := accommodation.value;
    match reviewsRun {
      case None =>
        res := DetailFailed;
      case Some(reviewsData) =>
        res := Detail(found, stats.averageRating, stats.reviewCount,
          ImageDtos(images), RoomDtos(roomTypes), amenities, ReviewDtos(reviewsData));
    }
  }

  /** `getAccommodationById` as written: `getReviews` carries the images
      subquery PostgreSQL refuses, so every accommodation that exists
      answers 500 once the five lookups have been issued; a missing one
      still answers 404. */
  method GetAccommodationByIdAsWritten(db: Catalog, id: int) returns (res: DetailResponse, lookups: seq<DbLookup>)
    ensures res.DetailNotFound? <==> FindById(db.accommodations, id).None?
    ensures res.DetailNotFound? ==> lookups == [FindByIdLookup]
    ensures !res.DetailNotFound? ==>
      && res == DetailFailed
      && lookups == [FindByIdLookup, ImagesLookup, RoomTypesLookup, StatsLookup, AmenitiesLookup, ReviewsLookup]
  {
    lookups := [FindByIdLookup];
    var accommodation := FindById(db.accommodations, id);
    if accommodation.None? {
      return DetailNotFound, lookups;
    }
    var images := GetImages(db, id);
    lookups := lookups + [ImagesLookup];
    var roomTypes := GetRoomTypes(db, id);
    lookups := lookups + [RoomTypesLookup];
    var stats := GetStats(db, id);
    lookups := lookups + [StatsLookup];
    var amenitiesData := GetAmenities(db, id, None);
    lookups := lookups + [AmenitiesLookup];
    var reviewsRun := Executed(ImagesOrderAsWritten, GetReviews(db, id));
    lookups := lookups + [ReviewsLookup];
    var amenities := GroupBy(Keyed(amenitiesData));
    var found := accommodation.value;
    res := match reviewsRun
      case None => DetailFailed
      case Some(reviewsData) =>
        Detail(found, stats.averageRating, stats.reviewCount,
          ImageDtos(images), RoomDtos(roomTypes), amenities, ReviewDtos(reviewsData));
  }

  /** `getAccommodationAmenities`: `ageMonth` read with `parseInt` when
      truthy, the amenities fetched with that month and grouped by category
      name. A month that does not parse is NaN, which the integer age
      comparison of the statement rejects: the handler answers 500. */
  method GetAccommodationAmenities(db: Catalog, id: int, ageMonth: Option<string>)
    returns (reply: Reply<map<string, seq<AmenityDto>>>)
    ensures OptionalInt(ageMonth).None? ==> reply == Reply(500, Failure("Failed to get amenities"))
    ensures OptionalInt(ageMonth).Some? ==> reply.status == 200 && reply.body.Json?
    ensures OptionalInt(ageMonth).Some? && reply.body.Json? ==>
      && reply.body.value.Keys == Keys(Keyed(GetAmenities(db, id, OptionalInt(ageMonth).value)))
      && forall c | c in reply.body.value ::
           reply.body.value[c] == Group(Keyed(GetAmenities(db, id, OptionalInt(ageMonth).value)), c)
  {
    match OptionalInt(ageMonth) {
      case None =>
        reply := Reply(500, Failure("Failed to get amenities"));
      case Some(month) =>
        var rows := GetAmenities(db, id, month);
        var grouped := GroupBy(Keyed(rows));
        reply := Reply(200, Json(grouped));
    }
  }

  /** The month the browser's `?ageMonth=` query carries to the handler. */
  function SentAgeMonth(ageMonth: Option<int>): Option<string>
  {
    var query := AmenitiesQuery(ageMonth);
    if query == "" then None else Some(query[|"?ageMonth="|..])
  }

  /** Browser to API: month 0 (falsy) sends no filter at all, and every other
      month arrives unchanged. */
  lemma AgeMonthRoundTrip(ageMonth: Option<int>)
    ensures OptionalInt(SentAgeMonth(ageMonth)) == Some(if TruthyInt(ageMonth) then ageMonth else None)
  {
    if TruthyInt(ageMonth) {
      var text := IntText(ageMonth.value);
      assert AmenitiesQuery(ageMonth) == "?ageMonth=" + text;
      assert ("?ageMonth=" + text)[|"?ageMonth="|..] == text;
      IntTextNotEmpty(ageMonth.value);
      ParseIntText(ageMonth.value);
    }
  }
}
