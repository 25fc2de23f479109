/** The single-accommodation lookups of `AccommodationModel`: `findById`,
    `getImages`, `getRoomTypes`, `getAmenities` (with its optional age-month
    statement builder), `getStats` and `getReviews`, each over in-memory
    tables with the database's `ORDER BY` modelled as a sorted permutation. */
module AccommodationDetail {
  import opened Common
  import opened Ordering
  import Search

  datatype Image = Image(id: int, accommodationId: int, isMain: bool, sortOrder: int)
  datatype Room = Room(id: int, accommodationId: int, pricePerNight: int)
  datatype ReviewRow = ReviewRow(id: int, accommodationId: int, userId: int, rating: real, createdAt: int)
  datatype ReviewImage = ReviewImage(id: int, reviewId: int, imageUrl: string, sortOrder: int)

  /** The tables the detail page reads. Amenities, categories and users are
      keyed by their primary key. */
  datatype Catalog = Catalog(
    accommodations: seq<Search.Accommodation>,
    images: seq<Image>,
    rooms: seq<Room>,
    amenities: map<int, Search.Amenity>,
    categories: map<int, string>,
    links: seq<Search.AmenityLink>,
    reviews: seq<ReviewRow>,
    users: map<int, string>,
    reviewPros: seq<(int, int)>,
    reviewCons: seq<(int, int)>,
    reviewImages: seq<ReviewImage>)

  // ---------------------------------------------------------------------------
  // findById

  /** `SELECT * FROM accommodations WHERE id = $1`, first row or null. */
  function FindById(accommodations: seq<Search.Accommodation>, id: int): (r: Option<Search.Accommodation>)
    ensures r.Some? ==> r.value in accommodations && r.value.id == id
    ensures r.None? <==> forall a | a in accommodations :: a.id != id
  {
    First(accommodations, (a: Search.Accommodation) => a.id == id)
  }

  // ---------------------------------------------------------------------------
  // getImages, getRoomTypes

  /** `ORDER BY is_main DESC, sort_order ASC`. */
  function ImageKey(im: Image): (int, int)
  {
    (if im.isMain then 0 else 1, im.sortOrder)
  }

  function GetImages(db: Catalog, id: int): (r: seq<Image>)
    ensures multiset(r) == multiset(Select(db.images, (im: Image) => im.accommodationId == id))
    ensures forall i, j | 0 <= i < j < |r| :: r[j].isMain ==> r[i].isMain
    ensures forall i, j | 0 <= i < j < |r| && r[i].isMain == r[j].isMain :: r[i].sortOrder <= r[j].sortOrder
  {
    SortBy(Select(db.images, (im: Image) => im.accommodationId == id), ImageKey)
  }

  /** The accommodation's images are exactly those returned. */
  lemma GetImagesMembers(db: Catalog, id: int, im: Image)
    ensures im in GetImages(db, id) <==> im in db.images && im.accommodationId == id
  {
    SortByMembers(Select(db.images, (im: Image) => im.accommodationId == id), ImageKey, im);
  }

  /** `ORDER BY price_per_night ASC`. */
  function GetRoomTypes(db: Catalog, id: int): (r: seq<Room>)
    ensures multiset(r) == multiset(Select(db.rooms, (rt: Room) => rt.accommodationId == id))
    ensures forall i, j | 0 <= i < j < |r| :: r[i].pricePerNight <= r[j].pricePerNight
  {
    SortBy(Select(db.rooms, (rt: Room) => rt.accommodationId == id), (rt: Room) => (rt.pricePerNight, 0))
  }

  lemma GetRoomTypesMembers(db: Catalog, id: int, rt: Room)
    ensures rt in GetRoomTypes(db, id) <==> rt in db.rooms && rt.accommodationId == id
  {
    SortByMembers(Select(db.rooms, (rt: Room) => rt.accommodationId == id), (rt: Room) => (rt.pricePerNight, 0), rt);
  }

  // ---------------------------------------------------------------------------
  // getAmenities

  /** The bound values of the amenities statement and the placeholders of
      its two optional age conditions. */
  datatype AmenityStatement = AmenityStatement(values: seq<int>, fromSlot: Option<nat>, toSlot: Option<nat>)

  function AmenityStatementOf(id: int, ageMonth: Option<int>): AmenityStatement
  {
    if ageMonth.None? then AmenityStatement([id], None, None)
    else AmenityStatement([id, ageMonth.value, ageMonth.value], Some(2), Some(3))
  }

  /** The statement builder: `$1` is the accommodation; a month that is not
      `undefined` (0 included) adds `age_month_from <= $2` and
      `age_month_to >= $3`, both bound to the month. */
  method BuildAmenityStatement(id: int, ageMonth: Option<int>) returns (st: AmenityStatement)
    ensures st == AmenityStatementOf(id, ageMonth)
    ensures |st.values| >= 1 && st.values[0] == id
    ensures st.fromSlot.Some? <==> ageMonth.Some?
    ensures st.toSlot.Some? <==> ageMonth.Some?
    ensures st.fromSlot.Some? ==> 1 <= st.fromSlot.value <= |st.values| && st.values[st.fromSlot.value - 1] == ageMonth.value
    ensures st.toSlot.Some? ==> 1 <= st.toSlot.value <= |st.values| && st.values[st.toSlot.value - 1] == ageMonth.value
    ensures st.fromSlot.Some? && st.toSlot.Some? ==> st.fromSlot.value < st.toSlot.value == |st.values|
  {
    var values := [id];
    var paramCount := 2;
    var fromSlot: Option<nat> := None;
    var toSlot: Option<nat> := None;
    if ageMonth.Some? {
      fromSlot := Some(paramCount);
      values := values + [ageMonth.value];
      paramCount := paramCount + 1;
      toSlot := Some(paramCount);
      values := values + [ageMonth.value];
      paramCount := paramCount + 1;
    }
    assert paramCount == |values| + 1;
    st := AmenityStatement(values, fromSlot, toSlot);
  }

  /** One row of the amenities join. */
  datatype AmenityRow = AmenityRow(
    amenityId: int,
    categoryId: int,
    categoryName: string,
    isAvailable: bool,
    ageMonthFrom: Option<int>,
    ageMonthTo: Option<int>)

  /** The INNER JOINs with `amenities` and `amenity_categories`: a link whose
      amenity or category is missing yields no row. */
  function JoinedRow(db: Catalog, l: Search.AmenityLink): Option<AmenityRow>
  {
    if l.amenityId in db.amenities && db.amenities[l.amenityId].categoryId in db.categories then
      var am := db.amenities[l.amenityId];
      Some(AmenityRow(l.amenityId, am.categoryId, db.categories[am.categoryId], l.isAvailable, am.ageMonthFrom, am.ageMonthTo))
    else None
  }

  /** The WHERE clause of the statement on one joined row. */
  predicate StatementAdmits(st: AmenityStatement, l: Search.AmenityLink, row: AmenityRow)
  {
    && |st.values| >= 1 && l.accommodationId == st.values[0]
    && (st.fromSlot.Some? ==>
         1 <= st.fromSlot.value <= |st.values| &&
         (row.ageMonthFrom.None? || row.ageMonthFrom.value <= st.values[st.fromSlot.value - 1]))
    && (st.toSlot.Some? ==>
         1 <= st.toSlot.value <= |st.values| &&
         (row.ageMonthTo.None? || row.ageMonthTo.value >= st.values[st.toSlot.value - 1]))
  }

  /** The joined rows the statement keeps, in link-table order. */
  function AdmittedRows(db: Catalog, links: seq<Search.AmenityLink>, st: AmenityStatement): seq<AmenityRow>
  {
    if links == [] then []
    else
      var l := links[|links| - 1];
      var row := JoinedRow(db, l);
      AdmittedRows(db, links[..|links| - 1], st)
        + (if row.Some? && StatementAdmits(st, l, row.value) then [row.value] else [])
  }

  /** `ORDER BY ac.id, am.id`. */
  function AmenityKey(row: AmenityRow): (int, int)
  {
    (row.categoryId, row.amenityId)
  }

  /** `getAmenities(id, ageMonth)`. */
  function GetAmenities(db: Catalog, id: int, ageMonth: Option<int>): (r: seq<AmenityRow>)
    ensures |r| == |AdmittedRows(db, db.links, AmenityStatementOf(id, ageMonth))|
    ensures forall i, j | 0 <= i < j < |r| ::
      r[i].categoryId < r[j].categoryId || (r[i].categoryId == r[j].categoryId && r[i].amenityId <= r[j].amenityId)
  {
    SortBy(AdmittedRows(db, db.links, AmenityStatementOf(id, ageMonth)), AmenityKey)
  }

  /** What a link contributes when the month filter is read directly off the
      amenity: it belongs to the accommodation, its amenity and category
      exist, and with a month m the amenity's range contains m. */
  predicate KeepsLink(db: Catalog, id: int, ageMonth: Option<int>, l: Search.AmenityLink)
  {
    && l.accommodationId == id
    && JoinedRow(db, l).Some?
    && (ageMonth.Some? ==> Search.Overlaps(db.amenities[l.amenityId], ageMonth.value, ageMonth.value))
  }

  lemma {:induction false} AdmittedRowsMeaning(db: Catalog, links: seq<Search.AmenityLink>, id: int, ageMonth: Option<int>, row: AmenityRow)
    ensures row in AdmittedRows(db, links, AmenityStatementOf(id, ageMonth)) <==>
      exists l | l in links :: KeepsLink(db, id, ageMonth, l) && JoinedRow(db, l) == Some(row)
  {
    if links != [] {
      var front := links[..|links| - 1];
      var l := links[|links| - 1];
      AdmittedRowsMeaning(db, front, id, ageMonth, row);
      assert links == front + [l];
      var st := AmenityStatementOf(id, ageMonth);
      if JoinedRow(db, l).Some? {
        assert StatementAdmits(st, l, JoinedRow(db, l).value) <==> KeepsLink(db, id, ageMonth, l);
      }
      if exists l' | l' in links :: KeepsLink(db, id, ageMonth, l') && JoinedRow(db, l') == Some(row) {
        var l' :| l' in links && KeepsLink(db, id, ageMonth, l') && JoinedRow(db, l') == Some(row);
        if l' != l {
          assert l' in front;
        }
      }
    }
  }

  /** `getAmenities` keeps a row iff its link is the accommodation's, its
      amenity and category exist and, given a month m, the amenity's
      `[age_month_from, age_month_to]` range (NULL = open) contains m;
      without a month every joined row is kept. */
  lemma GetAmenitiesMeaning(db: Catalog, id: int, ageMonth: Option<int>, row: AmenityRow)
    ensures row in GetAmenities(db, id, ageMonth) <==>
      exists l | l in db.links :: KeepsLink(db, id, ageMonth, l) && JoinedRow(db, l) == Some(row)
  {
    var rows := AdmittedRows(db, db.links, AmenityStatementOf(id, ageMonth));
    SortByMembers(rows, AmenityKey, row);
    AdmittedRowsMeaning(db, db.links, id, ageMonth, row);
  }

  // ---------------------------------------------------------------------------
  // getStats

  datatype Stats = Stats(averageRating: real, reviewCount: nat)

  function RatingsOf(reviews: seq<ReviewRow>, id: int): (xs: seq<real>)
    ensures |xs| == |Select(reviews, (r: ReviewRow) => r.accommodationId == id)|
  {
    if reviews == [] then []
    else
      var r := reviews[|reviews| - 1];
      RatingsOf(reviews[..|reviews| - 1], id) + (if r.accommodationId == id then [r.rating] else [])
  }

  /** `COALESCE(AVG(rating), 0)` and `COUNT(*)` over the accommodation's reviews. */
  function GetStats(db: Catalog, id: int): (s: Stats)
    ensures s.reviewCount == |Select(db.reviews, (r: ReviewRow) => r.accommodationId == id)|
    ensures s.reviewCount == 0 ==> s.averageRating == 0.0
  {
    var xs := RatingsOf(db.reviews, id);
    Stats(Search.AverageOrZero(xs), |xs|)
  }

  lemma {:induction false} SumWithin(xs: seq<real>, lo: real, hi: real)
    requires forall i | 0 <= i < |xs| :: lo <= xs[i] <= hi
    ensures (|xs| as real) * lo <= Search.Sum(xs) <= (|xs| as real) * hi
  {
    if xs != [] {
      SumWithin(xs[..|xs| - 1], lo, hi);
    }
  }

  /** The average of ratings in a range stays in that range (so the star
      rating of reviews validated to [0, 5] is in [0, 5]). */
  lemma AverageWithin(xs: seq<real>, lo: real, hi: real)
    requires 0.0 <= lo <= hi
    requires forall i | 0 <= i < |xs| :: lo <= xs[i] <= hi
    ensures xs != [] ==> lo <= Search.AverageOrZero(xs) <= hi
    ensures xs == [] ==> Search.AverageOrZero(xs) == 0.0
  {
    SumWithin(xs, lo, hi);
    if xs != [] {
      var n := |xs| as real;
      assert Search.Sum(xs) / n >= lo by {
        assert n * lo <= Search.Sum(xs);
      }
      assert Search.Sum(xs) / n <= hi by {
        assert Search.Sum(xs) <= n * hi;
      }
    }
  }

  // ---------------------------------------------------------------------------
  // getReviews

  /** One review row with its author's name and the three `json_agg`
      subqueries; an aggregate over no rows is NULL (None). */
  datatype ReviewEntry = ReviewEntry(
    review: ReviewRow,
    userName: string,
    pros: Option<seq<int>>,
    cons: Option<seq<int>>,
    images: Option<seq<ReviewImage>>)

  /** `json_agg` over a subquery: NULL when it selects no rows. */
  function Aggregate<T>(rows: seq<T>): (r: Option<seq<T>>)
    ensures r.None? <==> rows == []
    ensures r.Some? ==> r.value == rows
  {
    if rows == [] then None else Some(rows)
  }

  /** The `pro_id`s (or `con_id`s) of one review's link rows, in scan
      order. */
  function LinkedIds(links: seq<(int, int)>, reviewId: int): seq<int>
  {
    if links == [] then []
    else
      var l := links[|links| - 1];
      LinkedIds(links[..|links| - 1], reviewId) + (if l.0 == reviewId then [l.1] else [])
  }

  /** An id is listed exactly when the review has a link row for it. */
  lemma {:induction false} LinkedIdsMeaning(links: seq<(int, int)>, reviewId: int)
    ensures forall x :: x in LinkedIds(links, reviewId) <==> (reviewId, x) in links
  {
    if links != [] {
      var init, l := links[..|links| - 1], links[|links| - 1];
      LinkedIdsMeaning(init, reviewId);
      assert links == init + [l];
      forall x
        ensures x in LinkedIds(links, reviewId) <==> (reviewId, x) in links
      {
        assert (reviewId, x) in links <==> (reviewId, x) in init || (reviewId, x) == l;
      }
    }
  }

  /** Where an images subquery puts its `ORDER BY ri.sort_order`. The
      source writes it after the aggregate (`SELECT json_agg(...) FROM
      review_images ri WHERE ri.review_id = r.id ORDER BY ri.sort_order`):
      a subquery that aggregates all its rows, with no GROUP BY, ordered by
      a column that is neither grouped nor aggregated, which PostgreSQL
      refuses when it analyses the statement. Inside the aggregate
      (`json_agg(... ORDER BY ri.sort_order)`) it orders the images being
      aggregated, which is what `ImagesOfReview` computes. */
  datatype ImagesOrderBy = AfterAggregate | InsideAggregate

  const ImagesOrderAsWritten: ImagesOrderBy := AfterAggregate

  /** Running a statement that carries the images subquery: PostgreSQL
      refuses it whatever the data when the ORDER BY follows the aggregate
      (None: the driver throws), and otherwise returns its rows. */
  function Executed<T>(orderBy: ImagesOrderBy, rows: T): (r: Option<T>)
    ensures r.None? <==> orderBy == AfterAggregate
    ensures r.Some? ==> r.value == rows
  {
    if orderBy == AfterAggregate then None else Some(rows)
  }

  /** The review's images by `sort_order`: the images subquery with its
      ORDER BY inside the aggregate. */
  function ImagesOfReview(images: seq<ReviewImage>, reviewId: int): (r: seq<ReviewImage>)
    ensures forall i, j | 0 <= i < j < |r| :: r[i].sortOrder <= r[j].sortOrder
    ensures multiset(r) == multiset(Select(images, (im: ReviewImage) => im.reviewId == reviewId))
  {
    SortBy(Select(images, (im: ReviewImage) => im.reviewId == reviewId), (im: ReviewImage) => (im.sortOrder, 0))
  }

  function EntryOf(db: Catalog, r: ReviewRow): ReviewEntry
    requires r.userId in db.users
  {
    ReviewEntry(r, db.users[r.userId],
      Aggregate(LinkedIds(db.reviewPros, r.id)),
      Aggregate(LinkedIds(db.reviewCons, r.id)),
      Aggregate(ImagesOfReview(db.reviewImages, r.id)))
  }

  /** The accommodation's reviews whose author exists (`INNER JOIN users`). */
  function ReviewEntries(db: Catalog, reviews: seq<ReviewRow>, id: int): seq<ReviewEntry>
  {
    if reviews == [] then []
    else
      var r := reviews[|reviews| - 1];
      ReviewEntries(db, reviews[..|reviews| - 1], id)
        + (if r.accommodationId == id && r.userId in db.users then [EntryOf(db, r)] else [])
  }

  /** `getReviews`: `ORDER BY r.created_at DESC`, each review's images
      aggregated in `sort_order` (the subquery ordered inside the
      aggregate). */
  function GetReviews(db: Catalog, id: int): (r: seq<ReviewEntry>)
    ensures multiset(r) == multiset(ReviewEntries(db, db.reviews, id))
    ensures forall i, j | 0 <= i < j < |r| :: r[i].review.createdAt >= r[j].review.createdAt
  {
    SortBy(ReviewEntries(db, db.reviews, id), (e: ReviewEntry) => (-e.review.createdAt, 0))
  }

  lemma {:induction false} ReviewEntriesMeaning(db: Catalog, reviews: seq<ReviewRow>, id: int, e: ReviewEntry)
    ensures e in ReviewEntries(db, reviews, id) <==>
      exists r | r in reviews :: r.accommodationId == id && r.userId in db.users && e == EntryOf(db, r)
  {
    if reviews != [] {
      var front := reviews[..|reviews| - 1];
      ReviewEntriesMeaning(db, front, id, e);
      assert reviews == front + [reviews[|reviews| - 1]];
    }
  }

  /** Only the accommodation's reviews with an existing author are listed,
      and an aggregate list is NULL exactly when the review has no such rows. */
  lemma GetReviewsMeaning(db: Catalog, id: int, e: ReviewEntry)
    ensures e in GetReviews(db, id) <==>
      exists r | r in db.reviews :: r.accommodationId == id && r.userId in db.users && e == EntryOf(db, r)
    ensures e in GetReviews(db, id) ==> (e.pros.None? <==> LinkedIds(db.reviewPros, e.review.id) == [])
  {
    SortByMembers(ReviewEntries(db, db.reviews, id), (e: ReviewEntry) => (-e.review.createdAt, 0), e);
    ReviewEntriesMeaning(db, db.reviews, id, e);
  }
}
