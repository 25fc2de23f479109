# BebeTrip core, modelled in Dafny

BebeTrip is a travel site for families with babies. A visitor searches
accommodations by region, the baby's age in months, amenities, price and
rating. They open one accommodation's detail page. They write reviews with
pros, cons and photos, and keep a wishlist. This project models the core of
that system:

- the backend search: the `findAll` statement builder, and an evaluator that
  says which accommodations a built statement admits (module `Search`);
- the detail lookups (`AccommodationDetail`);
- the accommodation, review and wishlist controllers;
- the Review, User and Wishlist models, as classes over in-memory tables;
- the tourism API's response decoder (`PublicData`);
- the frontend query encoder (`QueryParams`) and the pager shared by the
  search page and the "my reviews" page (`Pager`, `AccommodationsPage`,
  `MyReviewsPage`);
- the filter sidebar, the review form, the image gallery and the guest
  selector.

Each database table is a sequence of rows, or a map keyed by id. Every SQL
statement is modelled by what it returns and what it changes. The search
builder is modelled in two parts:

- a method that builds a plan: joins, WHERE conditions, HAVING conditions,
  numbered `$k` placeholders and bound values;
- a predicate `Admits` that evaluates a plan against the tables.

Its main theorem, `Search.BuildPlan`, says that the built plan admits an
accommodation exactly when the accommodation meets the filters. That meaning
of the filters is stated on its own in `Search.Matches`. Where SQL orders
rows by a column, the order is a parameter of the operation. The operation
requires that it is a permutation of the selected rows, sorted by that
column in the requested direction. Rows with equal keys may come in any
order, as PostgreSQL promises none.

Shared pieces:

- `Common`: `Option`, table scans (`Select`, `First`), paging, and grouping
  by a key;
- `Ordering`: an insertion sort used as the reference for the ordered
  lookups. It fixes one tie order: a later row of the scan comes before an
  earlier row with the same key.

## Model

| member | source | states |
|---|---|---|
| Search.ResolveSortColumn | backend/src/models/Accommodation.ts:142-143 | Each of the three allowed sort names picks its own column; any other value, or none, sorts by creation time |
| Search.ResolveDirection | backend/src/models/Accommodation.ts:144 | Ascending exactly when the requested order is "asc"; descending otherwise, and by default |
| Search.Minimum | backend/src/models/Accommodation.ts:57-59 | MIN over a group is NULL exactly for no rows; otherwise it is a member no larger than any other |
| Search.SeqMin | backend/src/models/Accommodation.ts:88-103 | The smallest requested age month is one of the months and is at most all of them |
| Search.SeqMax | backend/src/models/Accommodation.ts:88-103 | The largest requested age month is one of the months and is at least all of them |
| Search.BuildPlan | backend/src/models/Accommodation.ts:40-151 | Placeholders are numbered 1..n with no gap or repeat, in the order the text emits them. LIMIT and OFFSET take the last two slots and carry the defaulted limit and offset. Every condition names a joined alias. The sort comes from the allow-list. The plan admits an accommodation exactly when it meets the filters |
| Search.RegionBlock | backend/src/models/Accommodation.ts:70-74 | The region block adds its condition, value and counter step exactly as the stage function does |
| Search.AmenityBlock | backend/src/models/Accommodation.ts:77-85 | The amenity block adds one join, two conditions and one bound list, as the stage function does |
| Search.AgeBlock | backend/src/models/Accommodation.ts:88-103 | The age block adds its join and binds the largest month first, then the smallest, as the stage function does |
| Search.HavingBlock | backend/src/models/Accommodation.ts:112-134 | A HAVING block adds its condition at the current counter and binds its value, as the stage function does |
| Search.FilteredOfStages | backend/src/models/Accommodation.ts:70-134 | The six optional blocks applied in source order give the filtered builder state |
| Search.PlanOfFiltered | backend/src/models/Accommodation.ts:149-151 | The final plan appends the limit and offset values to the filtered state, with the sort resolved |
| Search.PlanNumbered | backend/src/models/Accommodation.ts:65-151 | For every filter combination the placeholders are 1..n in emission order, and LIMIT/OFFSET bind the limit and the offset |
| Search.PlanJoinsAndConditions | backend/src/models/Accommodation.ts:70-107 | The joins and WHERE conditions of every plan, written out per present filter |
| Search.PlanHavingAndValues | backend/src/models/Accommodation.ts:112-151 | The HAVING list and the bound values of every plan, written out per present filter |
| Search.RowMeaning | backend/src/models/Accommodation.ts:70-74 | The accommodation-row conditions hold exactly when the region matches, or when no region was given |
| Search.LinkMeaning | backend/src/models/Accommodation.ts:77-85 | The amenity-link conditions hold on a link exactly when it is available and its amenity is in the list |
| Search.AgeWindowMeaning | backend/src/models/Accommodation.ts:88-103 | The age conditions hold exactly when the link is available and the amenity's age window overlaps the span from the smallest to the largest month |
| Search.HavingMeaning | backend/src/models/Accommodation.ts:112-134 | Each given bound becomes one predicate on its own value: lowest price at least min, at most max, average rating at least the minimum |
| Search.PlanScoped | backend/src/models/Accommodation.ts:77-103 | No condition refers to the `aa` or `aa2`/`am` aliases unless their join is present |
| Search.PlanMeaning | backend/src/models/Accommodation.ts:65-134 | A built plan admits an accommodation if and only if it meets the filters |
| Search.LinkExists | backend/src/models/Accommodation.ts:77-85 | The inner join on `aa` keeps an accommodation exactly when one of its available links names a listed amenity |
| Search.AgeExists | backend/src/models/Accommodation.ts:88-103 | The inner join on `aa2`/`am` keeps an accommodation exactly when one of its available amenities has a window overlapping the requested span |
| Search.FilterRows | backend/src/models/Accommodation.ts:105-134 | The kept groups are exactly the table's rows the plan admits, never more rows than the table |
| Search.FilterRowsSame | backend/src/models/Accommodation.ts:105-134 | Two plans that admit the same rows keep the same groups in the same order |
| Search.RunQueries | backend/src/models/Accommodation.ts:137-153 | With the bound OFFSET and LIMIT: refused exactly when either is negative; otherwise the count of the kept groups and the window of the sorted listing from the offset, `limit` rows or all that remain, every row matching the filters |
| Search.FindAll | backend/src/models/Accommodation.ts:137-158 | The query fails exactly for a negative limit or offset. The total counts every matching accommodation. The page holds `limit` rows, or all that remain from the offset when fewer do. They all match, are taken in order from the offset, and are sorted by the resolved column and direction. The page is empty past the end |
| Search.TextOrderTotal | backend/src/models/Accommodation.ts:142-146 | The name order used by `ORDER BY a.name` relates any two names, and two names each at most the other are equal |
| Search.TextOrderTransitive | backend/src/models/Accommodation.ts:142-146 | The name order is transitive |
| Search.ColumnOrderTotal | backend/src/models/Accommodation.ts:142-146 | Each sort column's order is total and transitive, so a sorted listing exists for every table |
| Search.NullPricePlacement | backend/src/models/Accommodation.ts:142-146 | Sorting by price puts accommodations without a price last in ascending order and first in descending order |
| Search.SortedWindow | backend/src/models/Accommodation.ts:142-158 | A page taken from a sorted listing lies inside it and is a sorted window of it |
| Search.SortedSlice | backend/src/models/Accommodation.ts:142-158 | A page taken in order from a sorted listing is itself sorted |
| Search.TotalIgnoresPaging | backend/src/models/Accommodation.ts:137-139 | The count query gives the same total whatever the page, limit and sort |
| Search.NoRoomTypesAndPriceBounds | backend/src/models/Accommodation.ts:114-124 | An accommodation with no room types is excluded by any price bound, because MIN is NULL, and is unaffected when no price bound is given |
| Search.NoReviewsAndMinRating | backend/src/models/Accommodation.ts:126-130 | With no reviews the average counts as 0: a positive minimum rating excludes the accommodation, and a minimum of 0 or less does not |
| Search.PerMonthMatchPassesWindow | backend/src/models/Accommodation.ts:88-103 | An amenity suited to any one requested month passes the collapsed window |
| Search.WindowWiderThanMonths | backend/src/models/Accommodation.ts:88-103 | An amenity for months 10-20 passes a request for months 2 and 40, though it suits neither: the window is wider than a per-month check |
| AccommodationDetail.FindById | backend/src/models/Accommodation.ts:161-167 | A found row has that id; none is found exactly when no row has it |
| AccommodationDetail.GetImages | backend/src/models/Accommodation.ts:169-177 | A permutation of the accommodation's images, main images first, then by sort order |
| AccommodationDetail.GetImagesMembers | backend/src/models/Accommodation.ts:169-177 | An image is returned exactly when it belongs to the accommodation |
| AccommodationDetail.GetRoomTypes | backend/src/models/Accommodation.ts:179-187 | A permutation of the accommodation's room types, in ascending price |
| AccommodationDetail.GetRoomTypesMembers | backend/src/models/Accommodation.ts:179-187 | A room type is returned exactly when it belongs to the accommodation |
| AccommodationDetail.BuildAmenityStatement | backend/src/models/Accommodation.ts:189-214 | The id is `$1`. The two age placeholders exist exactly when an age month is given, both bind that month, and they are the next two slots |
| AccommodationDetail.GetAmenities | backend/src/models/Accommodation.ts:189-220 | One row per admitted link, ordered by category id and then by amenity id |
| AccommodationDetail.AdmittedRowsMeaning | backend/src/models/Accommodation.ts:189-214 | A joined row is admitted exactly when it is the accommodation's link, and, with an age month, the amenity's window contains that month (open ends allowed) |
| AccommodationDetail.GetAmenitiesMeaning | backend/src/models/Accommodation.ts:189-220 | A row is in the result exactly when it is one of those admitted rows |
| AccommodationDetail.RatingsOf | backend/src/models/Accommodation.ts:222-232 | One rating per review of the accommodation |
| AccommodationDetail.GetStats | backend/src/models/Accommodation.ts:222-232 | The count is the number of the accommodation's reviews; with none, the average is 0 |
| AccommodationDetail.AverageWithin | backend/src/models/Accommodation.ts:222-232 | The average of ratings between lo and hi lies between lo and hi, and is 0 for no ratings |
| AccommodationDetail.Aggregate | backend/src/models/Accommodation.ts:240-258 | `json_agg` is NULL exactly when the subquery selects no rows, and otherwise the rows themselves |
| AccommodationDetail.Executed | backend/src/models/Accommodation.ts:252-257 | A statement whose images subquery puts ORDER BY after the aggregate is refused and yields no rows; one that orders inside the aggregate yields its rows unchanged |
| AccommodationDetail.ImagesOfReview | backend/src/models/Accommodation.ts:252-257 | With the ORDER BY inside the aggregate, a permutation of the review's images, by sort order |
| AccommodationDetail.LinkedIdsMeaning | backend/src/models/Review.ts:96-107 | A pro or con id is listed for the review exactly when the review has a link row for it |
| AccommodationDetail.GetReviews | backend/src/models/Accommodation.ts:234-265 | A permutation of the accommodation's review entries, newest first |
| AccommodationDetail.ReviewEntriesMeaning | backend/src/models/Accommodation.ts:234-265 | An entry is listed exactly when its review belongs to the accommodation, with the author's name and the review's pros, cons and images |
| AccommodationDetail.GetReviewsMeaning | backend/src/models/Accommodation.ts:234-265 | The same membership holds for the ordered list, and the pros aggregate is NULL exactly when the review has no pros |
| AccommodationController.OptionalList | backend/src/controllers/accommodationController.ts:13-14 | A missing or empty parameter is undefined; otherwise the list is the decoded pieces, and the request fails when a piece is not a number |
| AccommodationController.OptionalTenths | backend/src/controllers/accommodationController.ts:17 | A missing or empty rating is undefined; otherwise it is the parsed decimal, and a text that does not parse makes the filters fail (see Left out for the source's NaN) |
| AccommodationController.ParseQuery | backend/src/controllers/accommodationController.ts:6-22 | Page, limit and sort order get their defaults when absent. Region and sort column pass through. Each list and the rating are present exactly when their parameter is non-empty |
| AccommodationController.ListField | backend/src/controllers/accommodationController.ts:13-14 | Decoding the encoder's text for a list gives back a non-empty list, and undefined for an empty one |
| AccommodationController.IntField | backend/src/controllers/accommodationController.ts:10-12 | Decoding the encoder's text for a number gives back a non-zero number, and undefined for 0 |
| AccommodationController.DefaultedField | backend/src/controllers/accommodationController.ts:18-19 | Decoding a page or limit gives back a non-zero number, and the default otherwise |
| AccommodationController.RatingField | backend/src/controllers/accommodationController.ts:17 | Decoding the encoder's text for a rating in tenths gives back the rating, and undefined for 0 |
| AccommodationController.ParseTruthyFields | backend/src/controllers/accommodationController.ts:6-22 | A query whose every parameter is the encoder's text parses to the filters the backend receives |
| AccommodationController.EncodeThenParse | frontend/src/services/accommodationService.ts:8-26 | Encoding client filters and parsing the query on the server gives the filters with falsy values dropped: the client and the server agree |
| AccommodationController.ToSummary | backend/src/controllers/accommodationController.ts:27-40 | Id, name and region are copied. A missing average rating or count becomes 0. The price is null exactly when the minimum is missing or 0 |
| AccommodationController.SummaryDefaults | backend/src/controllers/accommodationController.ts:35-37 | An accommodation without room types has a null price; one without reviews shows rating 0 and count 0 |
| AccommodationController.Summaries | backend/src/controllers/accommodationController.ts:27-40 | One summary per row, in row order |
| AccommodationController.TotalPages | backend/src/controllers/accommodationController.ts:41-46 | The least page count whose pages hold the total, with pages of 12 when the limit is 0 |
| AccommodationController.GetAccommodations | backend/src/controllers/accommodationController.ts:24-51 | It fails exactly for a negative limit or offset. Otherwise it returns the matching total, the requested page and limit, the page count, and the summaries of the ordered matches from the offset on: `limit` of them, or all that remain when fewer do. They form a sorted window of the listing |
| AccommodationController.ImageDtos | backend/src/controllers/accommodationController.ts:99-104 | One DTO per image, in order, keeping id, main flag and sort order |
| AccommodationController.RoomDtos | backend/src/controllers/accommodationController.ts:105-111 | One DTO per room type, in order, keeping id and price |
| AccommodationController.ReviewDtoOf | backend/src/controllers/accommodationController.ts:113-129 | Review id, author and name are copied; a NULL aggregate of pros, cons or images becomes an empty list |
| AccommodationController.ReviewDtos | backend/src/controllers/accommodationController.ts:113-129 | One DTO per review entry, in order |
| AccommodationController.Keyed | backend/src/controllers/accommodationController.ts:72-87 | Each amenity row paired with its category name |
| AccommodationController.GetAccommodationById | backend/src/controllers/accommodationController.ts:54-137 | 404 exactly when no accommodation has the id, after that lookup alone. Otherwise, with the reviews' image subquery ordered inside the aggregate, six lookups in source order, stats, image, room and review DTOs, and amenities grouped by category in order. It never fails with 500 |
| AccommodationController.GetAccommodationByIdAsWritten | backend/src/controllers/accommodationController.ts:54-137 | As written, 404 exactly when no accommodation has the id. For every existing accommodation, the six lookups run and the reviews lookup is refused, so the reply is 500 |
| AccommodationController.GetAccommodationAmenities | backend/src/controllers/accommodationController.ts:139-169 | A month that does not parse (NaN) is answered 500 'Failed to get amenities'. Otherwise 200, the keys are the categories of the admitted amenities, and each key holds that category's rows in query order |
| AccommodationController.AgeMonthRoundTrip | frontend/src/services/accommodationService.ts:37-41 | The age month the client sends is the one the server reads back; 0 or none is read as none |
| AccommodationsPage.SortPartsOf | frontend/src/pages/AccommodationsPage.tsx:116 | Splitting "column-direction" gives the column and the direction |
| AccommodationsPage.SortPartsWithoutDirection | frontend/src/pages/AccommodationsPage.tsx:116 | A value without a dash gives only a column |
| AccommodationsPage.SortOptions | frontend/src/pages/AccommodationsPage.tsx:113-121 | Each of the four sort options resolves on the server to its intended column and direction |
| AccommodationsPage.RequestOf | frontend/src/pages/AccommodationsPage.tsx:30-34 | The request carries the current page and limit, each dropped when it is 0 |
| AccommodationsPage.RequestKeepsFilters | frontend/src/pages/AccommodationsPage.tsx:30-34 | Every parameter other than page and limit is the one the filters alone give |
| AccommodationsPage.SearchPage.constructor | frontend/src/pages/AccommodationsPage.tsx:13-19 | No filters, and page 1 of an empty result, 12 per page |
| AccommodationsPage.SearchPage.Loaded | frontend/src/pages/AccommodationsPage.tsx:36 | The pagination becomes the server's; the filters stay |
| AccommodationsPage.SearchPage.HandleSearch | frontend/src/pages/AccommodationsPage.tsx:45-48 | The filters are replaced and the page goes back to 1 |
| AccommodationsPage.SearchPage.HandlePageChange | frontend/src/pages/AccommodationsPage.tsx:50-53 | Only the page moves |
| AccommodationsPage.SearchPage.HandleSortChange | frontend/src/pages/AccommodationsPage.tsx:113-118 | The sort column and order are set from the option, and nothing else changes |
| AccommodationsPage.SearchAsksFirstPage | frontend/src/pages/AccommodationsPage.tsx:45-48 | After a search the next request asks for page 1, with the new filters and the same limit |
| Pager.ShownFromMeaning | frontend/src/pages/AccommodationsPage.tsx:160-166 | The strip is the ascending list of pages that are first, last, or within two of the current page |
| Pager.WindowBounds | frontend/src/pages/AccommodationsPage.tsx:160-166 | The first and last pages are always shown, and never more than seven pages |
| Pager.InnerNearCurrent | frontend/src/pages/AccommodationsPage.tsx:160-166 | Every page between the two ends is within two of the current page |
| Pager.WindowAscending | frontend/src/pages/AccommodationsPage.tsx:160-166 | The strip ascends within 1..totalPages and holds exactly the pages the filter keeps |
| Pager.EllipsisPlaces | frontend/src/pages/AccommodationsPage.tsx:167-171 | An ellipsis can appear only after the first page or before the last |
| Pager.EllipsisMeansGap | frontend/src/pages/AccommodationsPage.tsx:167-171 | An ellipsis is drawn exactly where neighbouring shown pages are not consecutive |
| Pager.HiddenUnderEllipsis | frontend/src/pages/MyReviewsPage.tsx:240-251 | Every page left out lies between two shown pages separated by an ellipsis |
| Pager.NavigationStaysInRange | frontend/src/pages/AccommodationsPage.tsx:148-189 | Previous and next are enabled only when their target is a page, and every strip button names a page in range |
| Pager.WindowExample | frontend/src/pages/MyReviewsPage.tsx:240-251 | Page 6 of 12 shows 1, 4-8 and 12, with ellipses after 1 and before 12 |
| MyReviewsPage.ReviewsPage.constructor | frontend/src/pages/MyReviewsPage.tsx:28-33 | Page 1 of an empty result, ten per page |
| MyReviewsPage.ReviewsPage.Loaded | frontend/src/pages/MyReviewsPage.tsx:41-52 | The pagination becomes the server's |
| MyReviewsPage.ReviewsPage.HandlePageChange | frontend/src/pages/MyReviewsPage.tsx:73-76 | Only the page moves |
| MyReviewsPage.ClickThrough | frontend/src/pages/MyReviewsPage.tsx:229-267 | Clicking a strip page from a page in range stays in range and keeps the limit asked for |
| QueryParams.DigitChar | frontend/src/services/accommodationService.ts:12-24 | The character is a digit whose value is the given digit |
| QueryParams.NatTextDigits | frontend/src/services/accommodationService.ts:12-24 | A number's decimal text is a non-empty digit string without a leading zero |
| QueryParams.ParseNat | backend/src/controllers/accommodationController.ts:10-19 | A text reads as a natural number exactly when it is a non-empty digit string |
| QueryParams.ParseInt | backend/src/controllers/accommodationController.ts:10-19 | A text reads as an integer exactly when it is digits, or `-` followed by digits |
| QueryParams.NumberOf | backend/src/controllers/accommodationController.ts:13-14 | `Number` of an empty piece is 0; otherwise it is the integer reading |
| QueryParams.DigitsOfNatText | frontend/src/services/accommodationService.ts:12-24 | A number's decimal text is all digits, and its value is the number |
| QueryParams.ParseNatText | frontend/src/services/accommodationService.ts:12-24 | Reading back a natural number's text gives the number |
| QueryParams.ParseIntText | frontend/src/services/accommodationService.ts:12-24 | Reading back an integer's text gives the integer, with both parseInt and Number |
| QueryParams.ParseUnsignedTenths | backend/src/controllers/accommodationController.ts:17 | An unsigned decimal reads as a non-negative value |
| QueryParams.TenthsParts | backend/src/controllers/accommodationController.ts:17 | A value in tenths splits into a whole part and one decimal digit |
| QueryParams.UnsignedTenthsRoundTrip | backend/src/controllers/accommodationController.ts:17 | Reading back the text of a non-negative rating in tenths gives the rating |
| QueryParams.UnsignedTenthsLeadingDigit | frontend/src/services/accommodationService.ts:22 | A non-negative rating's text starts with a digit |
| QueryParams.SignedTenths | backend/src/controllers/accommodationController.ts:17 | A leading minus negates what the unsigned reading gives |
| QueryParams.TenthsRoundTrip | backend/src/controllers/accommodationController.ts:17 | parseFloat of a rating's text gives back any non-negative rating in tenths |
| QueryParams.NegativeTenthsRoundTrip | backend/src/controllers/accommodationController.ts:17 | ...and any negative one |
| QueryParams.Split | backend/src/controllers/accommodationController.ts:13-14 | `split(',')` gives at least one piece |
| QueryParams.SplitNoSeparator | backend/src/controllers/accommodationController.ts:13-14 | A text without a comma splits into itself |
| QueryParams.SplitAfterPiece | backend/src/controllers/accommodationController.ts:13-14 | A leading comma-free piece and its comma split off as the first piece |
| QueryParams.SplitJoin | backend/src/controllers/accommodationController.ts:13-14 | Splitting a join gives back the pieces when no piece holds the separator |
| QueryParams.IntTextsIndex | frontend/src/services/accommodationService.ts:14-19 | The i-th piece of an encoded list is the text of the i-th number |
| QueryParams.NumbersOf | backend/src/controllers/accommodationController.ts:13-14 | `map(Number)` succeeds exactly when every piece reads as a number, one number per piece |
| QueryParams.NumbersOfTexts | backend/src/controllers/accommodationController.ts:13-14 | Reading back the texts of numbers gives the numbers |
| QueryParams.DecodeEncodeList | frontend/src/services/accommodationService.ts:14-19 | Decoding the comma-joined text of a non-empty list gives the list back |
| QueryParams.EmptyListDecodesToZero | frontend/src/services/accommodationService.ts:14-19 | An empty list would decode as [0], which is why the encoder drops empty lists |
| QueryParams.Lookup | backend/src/controllers/accommodationController.ts:7 | A parameter is absent exactly when no pair carries its name |
| QueryParams.LookupConcat | frontend/src/services/accommodationService.ts:8-26 | Looking up in appended lists finds the first list's value first |
| QueryParams.AppendAt | frontend/src/services/accommodationService.ts:8-26 | The k-th conditional append concerns the k-th parameter name |
| QueryParams.AppendStep | frontend/src/services/accommodationService.ts:8-26 | One conditional append adds that parameter's pair, or nothing |
| QueryParams.EncodeSearchParams | frontend/src/services/accommodationService.ts:8-26 | Fifteen conditional appends in source order, one per parameter, build exactly the encoded query |
| QueryParams.AppendedInOrder | frontend/src/services/accommodationService.ts:8-26 | The names come out in append order, each after the appends made so far |
| QueryParams.AppendedLookup | frontend/src/services/accommodationService.ts:8-26 | Every name already appended looks up to its own append |
| QueryParams.SearchParamsInOrder | frontend/src/services/accommodationService.ts:8-26 | Each name appears at most once, in the fixed order |
| QueryParams.SearchParamsLookup | frontend/src/services/accommodationService.ts:8-26 | Each of the fifteen parameters is present exactly when its filter is truthy (a list when it is non-empty), with the encoded value |
| QueryParams.AmenitiesQuery | frontend/src/services/accommodationService.ts:37-41 | The amenities request has a query string exactly when the age month is truthy |
| QueryParams.OptionalInt | backend/src/controllers/accommodationController.ts:142 | A missing or empty parameter is undefined; otherwise it is the integer reading, failing on non-numbers |
| QueryParams.DefaultedInt | backend/src/controllers/reviewController.ts:148-149 | A missing or empty parameter gives the default; otherwise it is the integer reading |
| ReviewController.NewReviewOf | backend/src/controllers/reviewController.ts:29-39 | The stored review takes the author, the body's fields, rating 0 when absent, and empty pros and cons when absent |
| ReviewController.RequiredFields | backend/src/controllers/reviewController.ts:19-22 | The required-field check passes exactly when accommodation, room type and party size are truthy and the age is given; age 0 is accepted |
| ReviewController.CreateReview | backend/src/controllers/reviewController.ts:4-48 | 400 and nothing stored for a missing field or a rating outside 0..5. Otherwise, with the corrected image subquery, 201 with the new review, stored with its pros and cons |
| ReviewController.CreateReviewAsWritten | backend/src/controllers/reviewController.ts:4-48 | As written, the same 400 cases; a valid review is stored with its pros and cons and committed, and the reply is then 500 because the re-read is refused |
| ReviewController.GetReviewById | backend/src/controllers/reviewController.ts:50-66 | With the corrected image subquery, 404 exactly when the review is not found, otherwise 200 with the joined review |
| ReviewController.GetReviewByIdAsWritten | backend/src/controllers/reviewController.ts:50-66 | As written, every request is answered 500 |
| ReviewController.UpdateReview | backend/src/controllers/reviewController.ts:68-117 | 403 and nothing changed when the user does not own the review; 400 for a bad rating; otherwise, with the corrected image subquery, 200 with the row updated. The 404 branch is never reached |
| ReviewController.UpdateReviewAsWritten | backend/src/controllers/reviewController.ts:68-117 | As written, the same 403 and 400 cases; an owner's valid update is committed, and the reply is then 500 |
| ReviewController.DeleteReview | backend/src/controllers/reviewController.ts:119-143 | 403 and nothing changed when not the owner; otherwise the review and its pros, cons and images are gone |
| ReviewController.TotalPagesOrNull | backend/src/controllers/reviewController.ts:170-175 | The least page count holding the total, or null when the limit is 0 |
| ReviewController.Shaped | backend/src/controllers/reviewController.ts:154-169 | Each entry keeps the review, and a missing pros, cons or images aggregate becomes an empty list |
| ReviewController.ShapedAll | backend/src/controllers/reviewController.ts:154-169 | One shaped entry per row, in order |
| ReviewController.AggregateOrEmpty | backend/src/controllers/reviewController.ts:154-169 | `aggregate || []` gives back exactly the aggregated rows |
| ReviewController.ShapedLists | backend/src/controllers/reviewController.ts:154-169 | Each entry's lists are exactly the review's pro links, con links and images by sort order |
| ReviewController.GetMyReviews | backend/src/controllers/reviewController.ts:145-181 | Page and limit default to 1 and 10. A page or limit that is not a number makes the query fail with 500. Otherwise, with the corrected image subquery, the reply holds the user's total, that page of their reviews newest first, and the page count |
| ReviewController.GetMyReviewsAsWritten | backend/src/controllers/reviewController.ts:145-181 | As written, every request is answered 500 |
| ReviewController.MyReviewsDefaults | backend/src/controllers/reviewController.ts:148-149 | Without query parameters the first ten reviews are asked for |
| ReviewController.NewImages | backend/src/controllers/reviewController.ts:210-220 | One image row per uploaded file |
| ReviewController.Uploaded | backend/src/controllers/reviewController.ts:210-220 | One reply entry per inserted row |
| ReviewController.NewImagesAt | backend/src/controllers/reviewController.ts:210-220 | The i-th row has the next id plus i, the file's upload URL, and sort order existing + i + 1 |
| ReviewController.UploadedAt | backend/src/controllers/reviewController.ts:210-220 | The i-th reply entry shows the i-th row's id, URL and sort order |
| ReviewController.ConsecutiveSortOrders | backend/src/controllers/reviewController.ts:210-220 | New images continue the review's sort order without gaps: existing+1, existing+2, ... |
| ReviewController.ImageCountAfterUpload | backend/src/controllers/reviewController.ts:210-220 | After the upload the review has its old image count plus one per file |
| ReviewController.InsertImages | backend/src/controllers/reviewController.ts:210-220 | The loop appends exactly the new rows, in file order, advances the image id by the file count, and leaves the other tables alone |
| ReviewController.UploadReviewImages | backend/src/controllers/reviewController.ts:183-227 | 403 for a non-owner and 400 for no files, each with nothing changed. Otherwise 201 with the inserted images |
| ReviewController.DeleteReviewImageAsWritten | backend/src/controllers/reviewController.ts:229-254 | After the ownership check on the review, the image is deleted by its id alone, whichever review it belongs to; 200 when an image had that id, otherwise 404 'Image not found' |
| ReviewController.DeleteReviewImage | backend/src/controllers/reviewController.ts:229-254 | The corrected handler deletes the image only if it belongs to the owned review; other reviews' images stay. 200 when the owned review had that image, otherwise 404 'Image not found' |
| ReviewModal.Urls | frontend/src/components/ReviewModal.tsx:38-40 | The previews of the existing images are their URLs, in order |
| ReviewModal.DataUrls | frontend/src/components/ReviewModal.tsx:74-80 | The previews of picked files are their data URLs, in order |
| ReviewModal.RemoveAt | frontend/src/components/ReviewModal.tsx:84-87 | `filter((_, i) => i !== index)` drops exactly the element at the index, and changes nothing for an index out of range |
| ReviewModal.RemoveAtSecond | frontend/src/components/ReviewModal.tsx:85-88 | Removing from the new-image part of the preview strip leaves the existing part |
| ReviewModal.RemoveAtFirst | frontend/src/components/ReviewModal.tsx:97-98 | Removing from the existing-image part leaves the new part |
| ReviewModal.UrlsRemoveAt | frontend/src/components/ReviewModal.tsx:97-98 | Removing an existing image and removing its preview agree |
| ReviewModal.DataUrlsRemoveAt | frontend/src/components/ReviewModal.tsx:83-89 | Removing a new image and removing its preview agree |
| ReviewModal.DataUrlsAppend | frontend/src/components/ReviewModal.tsx:72-80 | The previews of two picks are the previews of each in turn |
| ReviewModal.ZeroMonthEditRefused | frontend/src/components/ReviewModal.tsx:26 | As written, editing a review with age 0 opens with an empty age, and submitting unchanged is refused: the browser's `required` check stops it, and `handleSubmit`'s own check would too |
| ReviewModal.EditKeepsAge | frontend/src/components/ReviewModal.tsx:26 | The corrected age field is never empty and reads back as the review's age ("0" for a newborn). An unchanged edit of a complete review passes `handleSubmit`'s check, and passes the browser's check too when its age is within 0..120 and its party within 1..20 |
| ReviewModal.AgeFieldAsWritten | frontend/src/components/ReviewModal.tsx:26 | As written, the age field opens empty exactly when there is no review or its age is 0 months; otherwise it reads back as the age |
| ReviewModal.AgeField | frontend/src/components/ReviewModal.tsx:26 | The corrected field opens empty exactly for a new review; for an edit it reads back as the review's age |
| ReviewModal.PeopleField | frontend/src/components/ReviewModal.tsx:27 | The party-size field opens empty exactly when there is no review or its party size is 0 (falsy); otherwise it reads back as the party size |
| ReviewModal.AgeTextCheck | frontend/src/components/ReviewModal.tsx:109 | The submit check refuses an empty age text, and accepts the text "0" once room type and party size are filled in |
| ReviewModal.SentCreatePassesServerCheck | frontend/src/components/ReviewModal.tsx:135-153 | A create the form sends passes the server's required-field check |
| ReviewModal.GroupedByCategory | frontend/src/components/ReviewModal.tsx:179-189 | One list per category present, holding that category's options in list order |
| ReviewModal.TargetShowsPreview | frontend/src/components/ReviewModal.tsx:386-394 | The trash button of a preview removes the image that preview shows |
| ReviewModal.ReviewForm.constructor | frontend/src/components/ReviewModal.tsx:25-41 | The form opens with the edited review's values, or empty, and the previews are the existing images' URLs |
| ReviewModal.ReviewForm.HandleImageSelect | frontend/src/components/ReviewModal.tsx:63-81 | A pick is accepted exactly when the total stays within 10. Then the files and their previews are appended; otherwise nothing changes |
| ReviewModal.ReviewForm.HandleRemoveNewImage | frontend/src/components/ReviewModal.tsx:83-89 | The new image and its preview, offset by the existing count, are removed |
| ReviewModal.ReviewForm.HandleRemoveExistingImage | frontend/src/components/ReviewModal.tsx:91-104 | The server is called only when editing and confirmed. The image and its preview go only when the server deletes it |
| ReviewModal.ReviewForm.HandlePreviewTrash | frontend/src/components/ReviewModal.tsx:386-394 | A preview in the existing part removes an existing image, and one in the new part a new image |
| ReviewModal.ReviewForm.TogglePro | frontend/src/components/ReviewModal.tsx:166-170 | The pro's membership flips and nothing else changes |
| ReviewModal.ReviewForm.ToggleCon | frontend/src/components/ReviewModal.tsx:172-176 | The con's membership flips and nothing else changes |
| ReviewModal.ConstraintCoversAlert | frontend/src/components/ReviewModal.tsx:108-112 | Whatever `handleSubmit`'s required-field check refuses, the browser's constraint validation (ReviewModal.tsx:208-263) has refused already; a form the browser lets through has an age in 0..120 and a party in 1..20 |
| ReviewModal.PartyOverMaxBlocked | frontend/src/components/ReviewModal.tsx:258-263 | A party of "25" passes `handleSubmit`'s check but is blocked by the input's `max="20"` |
| ReviewModal.ReviewForm.HandleSubmit | frontend/src/components/ReviewModal.tsx:106-164 | Refused exactly when the browser's constraint validation blocks the form: no room type, or an age outside 0..120 or a party outside 1..20 (including empty or not a whole number); every case `handleSubmit`'s own check refuses is among them. Otherwise an update of the edited review or a create for the accommodation, with the numbers parsed, within those bounds, and the new images attached |
| ReviewModal.PickWithinLimit | frontend/src/components/ReviewModal.tsx:404 | The form never holds more than 10 images, and once the add-photo control is hidden no pick is accepted |
| ReviewStore.Binds | backend/src/models/Review.ts:129-164 | One `column = $k` per requested field |
| ReviewStore.Values | backend/src/models/Review.ts:129-164 | One bound value per requested field |
| ReviewStore.Numbered | backend/src/models/Review.ts:129-164 | The i-th assignment binds `$(i+1)`, whose value is the i-th field's |
| ReviewStore.Snoc | backend/src/models/Review.ts:129-164 | One more field adds its assignment at the next placeholder and its value at the end |
| ReviewStore.PushField | backend/src/models/Review.ts:131-164 | One `if (x !== undefined)` block keeps the assignments, the values and the counter in step |
| ReviewStore.BuildUpdate | backend/src/models/Review.ts:129-172 | The step-by-step builder yields the statement `UpdateOf` defines, whose numbering and effect the next rows state |
| ReviewStore.UpdateNumbering | backend/src/models/Review.ts:166-172 | The SET placeholders are 1..n, `updated_at = NOW()` follows, and the id is bound last |
| ReviewStore.UpdateOfNothing | backend/src/models/Review.ts:166-172 | With no fields the statement still sets `updated_at` |
| ReviewStore.StoreRequested | backend/src/models/Review.ts:129-172 | Storing the requested fields and the time gives the updated row |
| ReviewStore.ExecuteBinds | backend/src/models/Review.ts:166-172 | Executing the numbered assignments stores each field's value |
| ReviewStore.ExecuteStatement | backend/src/models/Review.ts:166-172 | Executing the full statement updates the row and stamps the time |
| ReviewStore.UpdateMeaning | backend/src/models/Review.ts:166-177 | The statement targets exactly the row with the id, and turns it into the updated row |
| ReviewStore.RunUpdate | backend/src/models/Review.ts:166-172 | The executed statement gives the updated row |
| ReviewStore.Links | backend/src/models/Review.ts:64-77 | One link row per listed id, paired with the review |
| ReviewStore.LinksMembers | backend/src/models/Review.ts:64-77 | The inserted rows are exactly the review paired with each listed id |
| ReviewStore.InsertedLinks | backend/src/models/Review.ts:64-77 | The link table after creation is the old table followed by the new links |
| ReviewStore.ReplacedLinksMeaning | backend/src/models/Review.ts:182-201 | Absent lists leave the links alone. A given list replaces exactly the review's links. Other reviews' links stay |
| ReviewStore.ImagesExceptDrops | backend/src/models/Review.ts:293-299 | A delete by image id removes a row exactly when an image has that id |
| ReviewStore.ImagesExceptOfReviewDrops | backend/src/models/Review.ts:293-299 | The review-scoped delete removes a row exactly when that review has an image with that id |
| ReviewStore.LinksReferMeaning | backend/src/models/Review.ts:64-77 | Every link row names a stored review |
| ReviewStore.ImagesReferMeaning | backend/src/models/Review.ts:283-291 | Every image row names a stored review |
| ReviewStore.CreateConsistent | backend/src/models/Review.ts:39-87 | A new review with fresh id and its links keeps the tables consistent |
| ReviewStore.UpdateConsistent | backend/src/models/Review.ts:123-211 | Updating a stored review and replacing its links keeps the tables consistent |
| ReviewStore.DeleteConsistent | backend/src/models/Review.ts:213-235 | Removing a review with its links and images keeps the tables consistent |
| ReviewStore.DeleteStepsConsistent | backend/src/models/Review.ts:219-228 | Each of the four deletes, children first, leaves the tables consistent |
| ReviewStore.ParentFirstBreaks | backend/src/models/Review.ts:219-228 | Deleting the review before its links would leave a dangling link |
| ReviewStore.AddImageConsistent | backend/src/models/Review.ts:283-291 | An image row for a stored review keeps the tables consistent |
| ReviewStore.FewerImagesConsistent | backend/src/models/Review.ts:293-299 | Removing image rows keeps the tables consistent |
| ReviewStore.ReviewDatabase.constructor | backend/src/models/Review.ts:1-38 | Empty review, link and image tables |
| ReviewStore.ReviewDatabase.Create | backend/src/models/Review.ts:39-87 | The review gets the next id and is stored with its pro and con links, all in one transaction; images untouched |
| ReviewStore.ReviewDatabase.Update | backend/src/models/Review.ts:123-211 | None and nothing changed for an unknown id. Otherwise the row is updated and stamped, and given pro and con lists replace the old links |
| ReviewStore.ReviewDatabase.Delete | backend/src/models/Review.ts:213-235 | True exactly when the review existed; it and its links and images are gone |
| ReviewStore.ReviewDatabase.AddImage | backend/src/models/Review.ts:283-291 | For a stored review, appends the image row with the next id. For an unknown review nothing changes |
| ReviewStore.ReviewDatabase.DeleteImage | backend/src/models/Review.ts:293-299 | True exactly when an image has the id; every image with it is removed, whatever its review |
| ReviewStore.ReviewDatabase.DeleteImageOfReview | backend/src/models/Review.ts:293-299 | The corrected delete: true exactly when that review has the image, and only its row goes |
| ReviewStore.ReviewDatabase.FindById | backend/src/models/Review.ts:89-121 | None exactly when the review or a joined row is missing. Otherwise the stored review with its author's and accommodation's names; the pros, cons and images aggregates are NULL exactly when the review has none, and otherwise list exactly its linked pros, its linked cons and its own images, the images by sort order |
| ReviewStore.ReviewDatabase.CheckOwnership | backend/src/models/Review.ts:311-317 | True exactly when the review is one of the user's reviews; a review has at most one owner |
| ReviewStore.ReviewDatabase.Entries | backend/src/models/Review.ts:237-281 | One joined entry per review row, in order |
| ReviewStore.ReviewDatabase.FindByUserId | backend/src/models/Review.ts:237-281 | Fails exactly for a negative offset or limit. Otherwise the user's review total and the entries from the offset of the newest-first listing: `limit` of them, or all that remain when fewer do. Every entry is one of the user's stored reviews, and the page is newest first |
| ReviewStore.ReviewDatabase.UserPage | backend/src/models/Review.ts:239-281 | The statement with the offset computed: it fails exactly for a negative offset or limit, and otherwise returns `limit` entries from the offset, or all that remain, each one of the user's stored reviews, newest first, with the user's total |
| ReviewStore.PageOfListing | backend/src/models/Review.ts:268-281 | A window of a newest-first listing of the user's reviews is itself newest first and holds only their reviews |
| ReviewStore.ImagesByReviewMeaning | backend/src/models/Review.ts:301-309 | The review's images are exactly its rows, by sort order |
| ReviewStore.ImagesOfReviewMembers | backend/src/models/Review.ts:301-309 | An image is listed exactly when it belongs to the review |
| ReviewStore.DeleteImageOfReviewKeepsOthers | backend/src/models/Review.ts:293-299 | The corrected delete never touches another review's image |
| ReviewStore.DeleteImageRemovesForeignImage | backend/src/models/Review.ts:293-299 | The delete as written removes image 7 of review 2 when asked through review 1 |
| UserStore.BuildUserUpdate | backend/src/models/User.ts:67-86 | The step-by-step builder yields the statement `UserUpdateOf` defines, whose numbering and effect the next rows state |
| UserStore.UserUpdateNumbering | backend/src/models/User.ts:72-86 | There is no statement exactly when neither name nor phone is given; otherwise the SET placeholders are 1..n and the id is bound last |
| UserStore.Changed | backend/src/models/User.ts:67-95 | Identity, email and provider stay; name and phone take the given values |
| UserStore.UserUpdateMeaning | backend/src/models/User.ts:84-94 | The statement targets exactly the row with the id and turns it into the changed row |
| UserStore.UpdateRows | backend/src/models/User.ts:84-94 | An UPDATE keeps the table's length |
| UserStore.ChangedRows | backend/src/models/User.ts:67-95 | The row with the id is changed and every other row stays |
| UserStore.UpdateRowsMeaning | backend/src/models/User.ts:84-94 | Executing the statement on the table gives exactly those changed rows |
| UserStore.ReturnedMeaning | backend/src/models/User.ts:88-94 | RETURNING gives back the changed row with that id, or nothing |
| UserStore.ChangedRowsConsistent | backend/src/models/User.ts:67-95 | An update keeps the ids distinct and below the next id |
| UserStore.AppendConsistent | backend/src/models/User.ts:54-65 | Appending a row with the next id keeps the ids distinct |
| UserStore.SelectConsistent | backend/src/models/User.ts:97-103 | Deleting rows keeps the remaining ids distinct |
| UserStore.UserDatabase.constructor | backend/src/models/User.ts:1-29 | An empty users table with ids from 1 |
| UserStore.UserDatabase.FindById | backend/src/models/User.ts:30-36 | A found user has the id; none exactly when no user has it |
| UserStore.UserDatabase.FindByEmail | backend/src/models/User.ts:38-44 | A found user has the email; none exactly when no user has it |
| UserStore.UserDatabase.FindByProvider | backend/src/models/User.ts:46-52 | A found user has the provider and provider id; none exactly when no user has both |
| UserStore.UserDatabase.Create | backend/src/models/User.ts:54-65 | The new user gets a fresh id and now for both timestamps, and is appended |
| UserStore.UserDatabase.Update | backend/src/models/User.ts:67-95 | None exactly for an unknown id. Otherwise the changed user, with only that row rewritten. Nothing to change leaves the table as it was |
| UserStore.UserDatabase.Delete | backend/src/models/User.ts:97-103 | True exactly when a user had the id; the user is gone and no one else is |
| UserStore.UpdateThenFind | backend/src/models/User.ts:67-95 | After an update, finding by id gives the changed user |
| WishlistStore.PairsWithout | backend/src/models/Wishlist.ts:51-57 | Deleting by pair removes exactly that pair |
| WishlistStore.DeleteDrops | backend/src/models/Wishlist.ts:51-57 | A delete removes a row exactly when the pair was saved |
| WishlistStore.AddThenRemove | backend/src/models/Wishlist.ts:43-57 | Saving a new pair and deleting it gives back the saved pairs |
| WishlistStore.Joined | backend/src/models/Wishlist.ts:11-33 | The inner join never lists more rows than the table holds |
| WishlistStore.JoinedMembers | backend/src/models/Wishlist.ts:11-33 | A row is listed exactly when its accommodation exists, and each listing joins its own accommodation |
| WishlistStore.ListingOf | backend/src/models/Wishlist.ts:11-33 | The listing is no longer than the table and is newest first |
| WishlistStore.ListingRows | backend/src/models/Wishlist.ts:11-33 | Every listing comes from a row of the user and carries the summary of that row's own accommodation |
| WishlistStore.WishlistTable.FindByUserId | backend/src/models/Wishlist.ts:11-33 | Every listed row is one of the table's rows for the user, and the listing is newest first |
| WishlistStore.ListingMeaning | backend/src/models/Wishlist.ts:11-33 | The listing holds exactly the user's rows that join, newest first |
| WishlistStore.ListingRatingDefault | backend/src/models/Wishlist.ts:16-22 | With no reviews the listed average rating is 0 and the count 0 |
| WishlistStore.WishlistTable.constructor | backend/src/models/Wishlist.ts:3-10 | An empty table with ids from 1 |
| WishlistStore.WishlistTable.FindByUserAndAccommodation | backend/src/models/Wishlist.ts:35-41 | A found row holds the pair; none exactly when the pair is not saved |
| WishlistStore.WishlistTable.IsWishlisted | backend/src/models/Wishlist.ts:59-65 | True exactly when the pair is saved |
| WishlistStore.WishlistTable.Create | backend/src/models/Wishlist.ts:43-49 | A row with the next id is appended, and the pair is saved |
| WishlistStore.WishlistTable.Delete | backend/src/models/Wishlist.ts:51-57 | True exactly when the pair was saved. The pair is gone and every other row stays |
| WishlistStore.KeepAll | backend/src/models/Wishlist.ts:51-57 | A delete that matches no row leaves the table as it was |
| WishlistController.ItemOf | backend/src/controllers/wishlistController.ts:16-33 | The item keeps the row's id, accommodation and time; a missing rating or count is 0; the price is null when missing or 0 |
| WishlistController.Items | backend/src/controllers/wishlistController.ts:16-33 | One item per listed row, in order |
| WishlistController.ItemDefaults | backend/src/controllers/wishlistController.ts:27-29 | An accommodation without reviews lists rating 0, and one without rooms a null price |
| WishlistController.GetWishlists | backend/src/controllers/wishlistController.ts:5-38 | 401 without a user; otherwise 200 with the user's items |
| WishlistController.AddToWishlist | backend/src/controllers/wishlistController.ts:40-75 | 401 without a user, 400 without an accommodation id, 400 for a pair already saved, each with nothing changed. Otherwise 201 and the pair is saved |
| WishlistController.RemoveFromWishlist | backend/src/controllers/wishlistController.ts:77-100 | 401 without a user and 500 for an unreadable id, with nothing changed. 404 when the pair was not saved. Otherwise 200 and the pair is gone |
| WishlistController.CheckWishlist | backend/src/controllers/wishlistController.ts:102-120 | 401 without a user, 500 for an unreadable id; otherwise whether the pair is saved |
| WishlistController.AddThenRemoveRestores | backend/src/controllers/wishlistController.ts:40-100 | Adding a new pair, checking it, then removing it sees the pair and gives back the saved pairs |
| PublicData.NumberOr | backend/src/services/publicDataService.ts:223-226 | `x \|\| d` on a number: undefined and 0 both give the default |
| PublicData.TextOr | backend/src/services/publicDataService.ts:231 | `x \|\| d` on a text: undefined and "" both give the default |
| PublicData.ParseResponse | backend/src/services/publicDataService.ts:218-235 | Success needs the envelope and code "0000". A success without a body throws; otherwise its items and counts are defaulted. A failure has no items and the API's message, or "Unknown error" |
| PublicData.MissingEnvelopeFails | backend/src/services/publicDataService.ts:228-234 | Without the response or header the result is a failure with "Unknown error" |
| PublicData.OtherCodeFails | backend/src/services/publicDataService.ts:228-234 | Any other result code fails with the API's message |
| PublicData.EmptySuccess | backend/src/services/publicDataService.ts:219-227 | A success whose body has no items, counts or page (or page 0) gives total 0, page 1, 0 rows and no items |
| FilterSidebar.PriceOf | frontend/src/components/FilterSidebar.tsx:55-56 | An empty box is undefined; otherwise the price is the number the text reads as |
| FilterSidebar.Applied | frontend/src/components/FilterSidebar.tsx:51-61 | The lists go out when non-empty, the prices when the box is filled, and the rating when above 0. Every other filter is kept |
| FilterSidebar.Cleared | frontend/src/components/FilterSidebar.tsx:63-77 | The five panel filters become undefined and every other filter is kept |
| FilterSidebar.ApplyClearedIsReset | frontend/src/components/FilterSidebar.tsx:51-77 | Applying an empty panel hands on what reset hands on |
| FilterSidebar.ApplyThenReopen | frontend/src/components/FilterSidebar.tsx:14-18 | Reopening the panel on what it applied shows the same selections, prices and rating |
| FilterSidebar.PriceTextRoundTrip | frontend/src/components/FilterSidebar.tsx:16-17 | A price shown in the box reads back as the same price |
| FilterSidebar.AppliedQuery | frontend/src/components/FilterSidebar.tsx:51-61 | An applied list reaches the query exactly when it is non-empty, and the rating exactly when above 0 |
| FilterSidebar.AmenitiesByCategory | frontend/src/components/FilterSidebar.tsx:80-86 | One list per category present, holding its amenities in list order |
| FilterSidebar.Sidebar.constructor | frontend/src/components/FilterSidebar.tsx:14-18 | The panel starts from the filters it is given |
| FilterSidebar.Sidebar.ToggleAgeMonth | frontend/src/components/FilterSidebar.tsx:37-42 | The month's membership flips and nothing else changes |
| FilterSidebar.Sidebar.ToggleAmenity | frontend/src/components/FilterSidebar.tsx:44-49 | The amenity's membership flips and nothing else changes |
| FilterSidebar.Sidebar.HandleApply | frontend/src/components/FilterSidebar.tsx:51-61 | Hands on the applied filters |
| FilterSidebar.Sidebar.HandleReset | frontend/src/components/FilterSidebar.tsx:63-77 | The panel is emptied and the cleared filters are handed on |
| FilterSidebar.ResetThenApply | frontend/src/components/FilterSidebar.tsx:51-77 | Reset then apply hands on the same filters twice |
| FilterSidebar.ToggleTwice | frontend/src/components/FilterSidebar.tsx:37-42 | Toggling an unselected month twice gives back the selection |
| GuestSelector.Increment | frontend/src/components/ui/GuestSelector.tsx:36-41 | The chosen count goes up by one, the others stay, and the total grows by one |
| GuestSelector.Decrement | frontend/src/components/ui/GuestSelector.tsx:43-51 | Nothing happens exactly at the minimum (one adult, zero children or infants). Otherwise the count drops by one and the others stay |
| GuestSelector.StepsKeepValid | frontend/src/components/ui/GuestSelector.tsx:95 | Both buttons keep at least one adult and no negative count, and a minus button is disabled exactly when it would do nothing |
| GuestSelector.IncrementThenDecrement | frontend/src/components/ui/GuestSelector.tsx:36-51 | Plus then minus gives back the counts |
| GuestSelector.DecrementThenIncrement | frontend/src/components/ui/GuestSelector.tsx:36-51 | Minus, when enabled, then plus gives back the counts |
| GuestSelector.TotalAtLeastOne | frontend/src/components/ui/GuestSelector.tsx:53 | A valid party has at least one guest |
| ImageGallery.PreviousIndex | frontend/src/components/ImageGallery.tsx:25-27 | From a photo, previous stays on a photo, and lands on the last photo exactly when leaving the first |
| ImageGallery.NextIndex | frontend/src/components/ImageGallery.tsx:29-31 | From a photo, next stays on a photo, and lands on the first photo exactly when leaving the last |
| ImageGallery.Stepping | frontend/src/components/ImageGallery.tsx:25-31 | Previous and next stay on a photo and undo each other |
| ImageGallery.NextTimesClimb | frontend/src/components/ImageGallery.tsx:29-31 | Before the last photo, each next moves up by one |
| ImageGallery.NextTimesAdd | frontend/src/components/ImageGallery.tsx:29-31 | Pressing next a times and then b times is pressing it a + b times |
| ImageGallery.FullCircle | frontend/src/components/ImageGallery.tsx:29-31 | Next wraps from the last photo to the first, and a full round comes back to the start |
| ImageGallery.View | frontend/src/components/ImageGallery.tsx:17-73 | No photos show a placeholder. Otherwise the first photo is main, the next up to four are thumbnails, and a "+n" badge appears exactly beyond five photos |
| ImageGallery.BadgeCountsHidden | frontend/src/components/ImageGallery.tsx:66-70 | The main photo, the thumbnails and the badge count every photo once |
| ImageGallery.Gallery.constructor | frontend/src/components/ImageGallery.tsx:13-15 | The viewer starts closed on photo 0 |
| ImageGallery.Gallery.OpenMain | frontend/src/components/ImageGallery.tsx:39-42 | The main photo opens the viewer on photo 0 |
| ImageGallery.Gallery.OpenThumbnail | frontend/src/components/ImageGallery.tsx:56-59 | A thumbnail opens the viewer on the photo it shows |
| ImageGallery.Gallery.HandlePrevious | frontend/src/components/ImageGallery.tsx:25-27 | Steps back, wrapping to the last photo, and stays on a photo |
| ImageGallery.Gallery.HandleNext | frontend/src/components/ImageGallery.tsx:29-31 | Steps on, wrapping to the first photo, and stays on a photo |
| ImageGallery.Gallery.Close | frontend/src/components/ImageGallery.tsx:81 | Closes the viewer and keeps the photo |
| Common.CeilDiv | backend/src/controllers/accommodationController.ts:45 | The least page count whose pages hold the total |
| Common.PageOfRows | backend/src/models/Accommodation.ts:149-151 | LIMIT/OFFSET fails for a negative bound. Otherwise it takes at most `limit` rows in order from the offset: a full page when there are enough, none past the end |
| Common.Select | backend/src/models/Accommodation.ts:105-107 | A scan with a WHERE keeps exactly the rows that satisfy it |
| Common.First | backend/src/models/User.ts:30-36 | `rows[0]` of a scan: none exactly when no row satisfies it, otherwise a row that does |
| Common.SelectAll | backend/src/models/Wishlist.ts:51-57 | A scan whose condition every row meets keeps the table |
| Common.SelectDrops | backend/src/models/User.ts:97-103 | A scan drops a row exactly when some row fails its condition |
| Common.Without | frontend/src/components/FilterSidebar.tsx:39 | `filter(y => y !== x)` keeps every element except x |
| Common.Toggle | frontend/src/components/FilterSidebar.tsx:37-42 | Toggling flips x's membership and keeps every other element's |
| Common.ToggleTwiceRestores | frontend/src/components/FilterSidebar.tsx:37-42 | Toggling an unselected value twice gives back the selection |
| Common.GroupBy | backend/src/controllers/accommodationController.ts:72-87 | The reduce loop gives one key per key present, each holding its rows in order |
| Common.GroupIsSelect | frontend/src/components/FilterSidebar.tsx:80-86 | A group is the scan for its key |
| Common.KeysOfKeyedBy | frontend/src/components/FilterSidebar.tsx:80-86 | The keys of a grouping are the values the field takes |
| Common.EveryRowInExactlyOneGroup | backend/src/controllers/accommodationController.ts:72-87 | The groups together hold every row exactly once |
| Ordering.Insert | backend/src/models/Accommodation.ts:216 | Inserting into a sorted list keeps it sorted and adds exactly that row |
| Ordering.SortBy | backend/src/models/Accommodation.ts:216 | ORDER BY gives a sorted permutation of the rows (one fixed tie order) |
| Ordering.SortByMembers | backend/src/models/Accommodation.ts:216 | A sorted permutation holds exactly the rows it was given |

## Left out

- The database pool, connections and transactions are not modelled as
  such. Each model method is one atomic state change. `Review.create` and
  `Review.update` commit or roll back as a whole, and no failure inside a
  transaction is modelled.
- Concurrency is left out. The count and page queries of `findAll` and
  `findByUserId` read one snapshot, so the gap between the two reads is not
  modelled.
- `NOW()` and the time stamps are a `now` parameter. The `updated_at`
  trigger is not part of this model.
- ReviewModal.ReviewForm.HandleSubmit: the browser's constraint validation
  is modelled on the text the number inputs hold, read by `ParseInt`. A
  valid number text with a fraction or exponent that denotes a whole
  number, such as "1.0" or "1e1", passes the browser but is refused by the
  model. The validity messages the browser shows are not modelled.
- Integer width: ids, pages, limits, counts and ages are unbounded integers.
  The source reads them with `parseInt` into IEEE doubles and computes
  `Math.ceil(total / limit)` and `(page - 1) * limit` in double arithmetic,
  so above 2^53 two different id texts can read as the same number. That
  rounding, and the range limits of the database's integer columns, are not
  modelled.
- Joined display columns: the pro and con `name` columns joined from `pros`
  and `cons`, `user_profile_image` and `accommodation_thumbnail` are not
  carried. The review listings carry the linked pro and con ids, the
  author's and accommodation's names, and the images.
- Numbers: JavaScript's NaN is modelled as the error path of `ParseInt`, and
  prices are whole numbers. `parseInt`'s prefix parse of texts such as "12abc"
  is not modelled. `Number()` also accepts texts such as " 12", "0x10" and
  "1e2", which `ParseInt` and `NumberOf` read as not a number. Ratings are read as decimals with at most one decimal
  digit, so `parseFloat` of longer decimals is not modelled.
- `FileReader` completes asynchronously. The previews are appended in the
  order the files were picked, so a reordering by completion time is not
  modelled.
- `window.confirm`, `alert`, the upload service's answer and the server
  round trips are parameters of the methods that use them.
- The loading flags, the sort select's displayed value, the filter panel's
  open state, click-outside handling, `hoverRating` and `window.scrollTo`
  are left out. They do not change what is searched or stored.
- The loading of the master data lists (pros, cons, amenities,
  categories), which are fetched once and shown, is left out.
- JSON `null` and `undefined` are both `None`. The HTTP and Express layers,
  authentication middleware and multer's file handling are reduced to the
  user id and the uploaded file names they supply.
- SQL injection and quoting are out of scope: every value is bound, and ids
  are modelled as values.
- Check-in, check-out, adults, children and infants are encoded by the
  client and parsed by the server, but `findAll` never uses them, so the
  search filters do not carry them.
- The tourism API's `items.item` can also arrive as a single object rather
  than a list; the model only takes lists. The network and key-handling
  parts of `publicDataService` are out of scope.
- ORDER BY with ties: PostgreSQL promises no order among rows with equal
  keys. In `findAll` the listing is an `ordered` parameter: a permutation of
  the selected rows, sorted by the resolved column and direction (rows
  without a price last in ascending order and first in descending order),
  with ties in any order. Elsewhere `Ordering.SortBy` fixes one tie order,
  so the tie order of the wishlist, review and room listings is one of
  those PostgreSQL may return, not the only one.
- AccommodationController.OptionalTenths: a `minRating` that does not parse
  makes `ParseQuery` yield no filters, a failed request. In the source
  `parseFloat` gives NaN, which is bound into `COALESCE(AVG(r.rating), 0) >=
  $n` (backend/src/models/Accommodation.ts:126-128). PostgreSQL's numeric
  NaN is greater than every number, so no accommodation meets the bound and
  the reply is 200 with an empty page; that reply is not modelled.
- Search.TextOrderTotal: names are compared by character code, not by the
  database's collation.
- AccommodationDetail.GetReviews, AccommodationDetail.ImagesOfReview,
  ReviewStore.ReviewDatabase.FindById and
  ReviewStore.ReviewDatabase.FindByUserId: these follow the images
  subquery with its ORDER BY inside `json_agg`. As written, PostgreSQL
  refuses the statement (see Findings).
- AccommodationController.GetAccommodationById: it runs the corrected
  images subquery and so never answers 500. As written, every existing
  accommodation is answered 500, which `GetAccommodationByIdAsWritten`
  states.
- ReviewController.CreateReview: it re-reads the new review with the
  corrected subquery. As written, a valid review is committed and then
  answered 500, which `CreateReviewAsWritten` states.
- ReviewController.GetReviewById: with the corrected subquery. As written,
  every request is answered 500 (`GetReviewByIdAsWritten`).
- ReviewController.UpdateReview: its 200 reply uses the corrected subquery.
  As written, an owner's valid update is committed and then answered 500
  (`UpdateReviewAsWritten`).
- ReviewController.GetMyReviews: its 200 reply uses the corrected subquery.
  As written, every request is answered 500 (`GetMyReviewsAsWritten`).
- ReviewController.UpdateReview: the 404 branch at lines 105-108 is
  unreachable, because the ownership check already rejects an unknown
  review. The model proves the status is never 404, instead of modelling a
  reply that cannot occur.
- ReviewModal.ReviewForm.constructor: it opens the age field with the
  corrected `AgeField`; the as-written field is kept in
  `AgeFieldAsWritten` for the finding below.
- Pager: the strip is modelled once and cited from both pages; the two
  pages render it identically.

## Findings

| source | as written | input that shows it | evidently intended | confidence | as-written member | corrected member |
|---|---|---|---|---|---|---|
| backend/src/controllers/reviewController.ts:229-254 | `deleteReviewImage` checks that the user owns review `:id` and then deletes image `:imageId` by id alone (`Review.deleteImage`, backend/src/models/Review.ts:293-299) | The user owns review 1, and image 7 belongs to review 2. `DELETE /reviews/1/images/7` deletes image 7 | Only an image of the owned review can be deleted | not executed | ReviewController.DeleteReviewImageAsWritten, ReviewStore.DeleteImageRemovesForeignImage | ReviewController.DeleteReviewImage, ReviewStore.ReviewDatabase.DeleteImageOfReview |
| frontend/src/components/ReviewModal.tsx:26 | `existingReview?.childAgeMonths \|\| ''` turns an age of 0 months into an empty field | Editing a review with `childAgeMonths = 0` and submitting it unchanged is refused: the browser's `required` prompt on the empty age field stops it, and the missing-fields check at line 109 would refuse it too | The field opens as `String(existingReview.childAgeMonths)`, "0" for a newborn, and an unchanged edit is accepted | not executed | ReviewModal.AgeFieldAsWritten, ReviewModal.ZeroMonthEditRefused | ReviewModal.AgeField, ReviewModal.EditKeepsAge, ReviewModal.AgeTextCheck |
| backend/src/models/Review.ts:108-113 | The images subquery ends with `ORDER BY ri.sort_order` after `json_agg(...)`, while `ri.sort_order` is neither grouped nor aggregated. The same subquery is at backend/src/models/Review.ts:263-268 and backend/src/models/Accommodation.ts:252-257 | `GET /reviews/1` for an existing review: PostgreSQL refuses the statement, and the reply is 500. So is `POST /reviews` after the commit, `PUT /reviews/1` after the commit, `GET /reviews/my` and `GET /accommodations/1` | `json_agg(json_build_object(...) ORDER BY ri.sort_order)`, which lists each review's images in sort order | not executed | ReviewController.GetReviewByIdAsWritten, ReviewController.CreateReviewAsWritten, ReviewController.UpdateReviewAsWritten, ReviewController.GetMyReviewsAsWritten, AccommodationController.GetAccommodationByIdAsWritten | ReviewController.GetReviewById, ReviewController.CreateReview, ReviewController.UpdateReview, ReviewController.GetMyReviews, AccommodationController.GetAccommodationById, AccommodationDetail.ImagesOfReview |
