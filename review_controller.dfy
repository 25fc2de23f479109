/** The review endpoints: request validation, the ownership check that
    comes before anything else, the image upload loop with its cap of ten
    and consecutive `sortOrder`, and the shaping of "my reviews". */
module ReviewController {
  import opened Common
  import opened QueryParams
  import opened AccommodationDetail
  import opened ReviewStore

  // ---------------------------------------------------------------------------
  // Validation

  /** The fields of a create request; None is an absent field. */
  datatype CreateBody = CreateBody(
    accommodationId: Option<int>,
    roomType: Option<string>,
    childAgeMonths: Option<int>,
    totalPeople: Option<int>,
    rating: Option<real>,
    content: Option<string>,
    pros: Option<seq<int>>,
    cons: Option<seq<int>>)

  /** `!accommodationId || !roomType || childAgeMonths === undefined || !totalPeople`:
      a zero or empty value is missing, except that a child of 0 months is
      accepted. */
  predicate MissingRequired(body: CreateBody)
  {
    !TruthyInt(body.accommodationId) || !TruthyText(body.roomType)
      || body.childAgeMonths.None? || !TruthyInt(body.totalPeople)
  }

  /** `rating !== undefined && (rating < 0 || rating > 5)`. */
  predicate RatingOutOfRange(rating: Option<real>)
  {
    rating.Some? && (rating.value < 0.0 || rating.value > 5.0)
  }

  /** The row `create` is asked for: a missing rating is stored as 0 and
      missing pros and cons as empty lists. */
  function NewReviewOf(userId: int, body: CreateBody): (r: NewReview)
    requires !MissingRequired(body)
    ensures r.rating == if body.rating.Some? then body.rating.value else 0.0
    ensures r.pros == Some(body.pros.GetOr([])) && r.cons == Some(body.cons.GetOr([]))
    ensures r.userId == userId && r.accommodationId == body.accommodationId.value
    ensures r.childAgeMonths == body.childAgeMonths.value && r.content == body.content
  {
    NewReview(userId, body.accommodationId.value, body.roomType.value, body.childAgeMonths.value,
      body.totalPeople.value, if TruthyReal(body.rating) then body.rating.value else 0.0, body.content,
      Some(if body.pros.Some? then body.pros.value else []), Some(if body.cons.Some? then body.cons.value else []))
  }

  /** The required-field check accepts exactly the requests that name an
      accommodation, a room type, a head count and an age, and a child of
      0 months counts as an age. */
  lemma RequiredFields(body: CreateBody)
    ensures !MissingRequired(body) <==>
      && body.accommodationId.Some? && body.accommodationId.value != 0
      && body.roomType.Some? && body.roomType.value != ""
      && body.childAgeMonths.Some?
      && body.totalPeople.Some? && body.totalPeople.value != 0
    ensures (body.childAgeMonths == Some(0) && TruthyInt(body.accommodationId) && TruthyText(body.roomType)
             && TruthyInt(body.totalPeople)) ==> !MissingRequired(body)
  {
  }

  // ---------------------------------------------------------------------------
  // Handlers

  /** `createReview`: 400 for a missing field, then 400 for a rating out of
      range; otherwise the review is created and its joined form sent with
      201 (null when the join finds no author or accommodation). */
  method CreateReview(db: ReviewDatabase, userId: int, body: CreateBody, now: int)
    returns (reply: Reply<Option<ReviewDetail>>)
    requires db.Valid()
    modifies db
    ensures db.Valid()
    ensures MissingRequired(body) ==> reply == Reply(400, Failure("Missing required fields")) && unchanged(db)
    ensures !MissingRequired(body) && RatingOutOfRange(body.rating) ==>
      reply == Reply(400, Failure("Rating must be between 0 and 5")) && unchanged(db)
    ensures !MissingRequired(body) && !RatingOutOfRange(body.rating) ==>
      && var id := old(db.nextReviewId);
      && id !in old(db.reviews)
      && db.reviews == old(db.reviews)[id := StoredReview(id, userId, body.accommodationId.value, body.roomType.value,
           body.childAgeMonths.value, body.totalPeople.value, body.rating.GetOr(0.0), body.content, now, now)]
      && db.pros == old(db.pros) + Links(id, body.pros.GetOr([]))
      && db.cons == old(db.cons) + Links(id, body.cons.GetOr([]))
      && reply == Reply(201, Json(db.FindById(id)))
  {
    if MissingRequired(body) {
      return Reply(400, Failure("Missing required fields"));
    }
    if RatingOutOfRange(body.rating) {
      return Reply(400, Failure("Rating must be between 0 and 5"));
    }
    var review := db.Create(NewReviewOf(userId, body), now);
    reply := match Executed(InsideAggregate, db.FindById(review.id))
      case None => Reply(500, Failure("Failed to create review"))
      case Some(detail) => Reply(201, Json(detail));
  }

  /** `createReview` as written: the review and its pros and cons are
      stored, then `findById` carries the images subquery PostgreSQL refuses
      and the `catch` answers 500, so the client is told the creation
      failed although it committed. */
  method CreateReviewAsWritten(db: ReviewDatabase, userId: int, body: CreateBody, now: int)
    returns (reply: Reply<Option<ReviewDetail>>)
    requires db.Valid()
    modifies db
    ensures db.Valid()
    ensures MissingRequired(body) ==> reply == Reply(400, Failure("Missing required fields")) && unchanged(db)
    ensures !MissingRequired(body) && RatingOutOfRange(body.rating) ==>
      reply == Reply(400, Failure("Rating must be between 0 and 5")) && unchanged(db)
    ensures !MissingRequired(body) && !RatingOutOfRange(body.rating) ==>
      && var id := old(db.nextReviewId);
      && id !in old(db.reviews)
      && db.reviews == old(db.reviews)[id := StoredReview(id, userId, body.accommodationId.value, body.roomType.value,
           body.childAgeMonths.value, body.totalPeople.value, body.rating.GetOr(0.0), body.content, now, now)]
      && db.pros == old(db.pros) + Links(id, body.pros.GetOr([]))
      && db.cons == old(db.cons) + Links(id, body.cons.GetOr([]))
      && reply == Reply(500, Failure("Failed to create review"))
  {
    if MissingRequired(body) {
      return Reply(400, Failure("Missing required fields"));
    }
    if RatingOutOfRange(body.rating) {
      return Reply(400, Failure("Rating must be between 0 and 5"));
    }
    var review := db.Create(NewReviewOf(userId, body), now);
    reply := match Executed(ImagesOrderAsWritten, db.FindById(review.id))
      case None => Reply(500, Failure("Failed to create review"))
      case Some(detail) => Reply(201, Json(detail));
  }

  /** `getReviewById`: 404 when the joined review is absent. */
  method GetReviewById(db: ReviewDatabase, id: int) returns (reply: Reply<Option<ReviewDetail>>)
    ensures db.FindById(id).None? ==> reply == Reply(404, Failure("Review not found"))
    ensures db.FindById(id).Some? ==> reply == Reply(200, Json(db.FindById(id)))
  {
    reply := match Executed(InsideAggregate, db.FindById(id))
      case None => Reply(500, Failure("Failed to get review"))
      case Some(review) => if review.None? then Reply(404, Failure("Review not found")) else Reply(200, Json(review));
  }

  /** `getReviewById` as written: `findById` is refused whatever the id,
      and the `catch` answers 500. */
  method GetReviewByIdAsWritten(db: ReviewDatabase, id: int) returns (reply: Reply<Option<ReviewDetail>>)
    ensures reply == Reply(500, Failure("Failed to get review"))
  {
    reply := match Executed(ImagesOrderAsWritten, db.FindById(id))
      case None => Reply(500, Failure("Failed to get review"))
      case Some(review) => if review.None? then Reply(404, Failure("Review not found")) else Reply(200, Json(review));
  }

  /** `updateReview`: ownership first (403), then the rating (400), then the
      update; a 404 would need the review to vanish between the check and
      the update, which the sequential model cannot do. */
  method UpdateReview(db: ReviewDatabase, userId: int, id: int, data: ReviewChanges, now: int)
    returns (reply: Reply<Option<ReviewDetail>>)
    requires db.Valid()
    modifies db
    ensures db.Valid()
    ensures !old(db.CheckOwnership(id, userId)) ==>
      reply == Reply(403, Failure("Not authorized to update this review")) && unchanged(db)
    ensures old(db.CheckOwnership(id, userId)) && RatingOutOfRange(data.rating) ==>
      reply == Reply(400, Failure("Rating must be between 0 and 5")) && unchanged(db)
    ensures old(db.CheckOwnership(id, userId)) && !RatingOutOfRange(data.rating) ==>
      && db.reviews == old(db.reviews)[id := Applied(old(db.reviews)[id], data, now)]
      && db.pros == ReplacedLinks(old(db.pros), id, data.pros)
      && db.cons == ReplacedLinks(old(db.cons), id, data.cons)
      && reply == Reply(200, Json(db.FindById(id)))
    ensures reply.status != 404
  {
    if !db.CheckOwnership(id, userId) {
      return Reply(403, Failure("Not authorized to update this review"));
    }
    if RatingOutOfRange(data.rating) {
      return Reply(400, Failure("Rating must be between 0 and 5"));
    }
    var review := db.Update(id, data, now);
    if review.None? {
      return Reply(404, Failure("Review not found"));
    }
    reply := match Executed(InsideAggregate, db.FindById(id))
      case None => Reply(500, Failure("Failed to update review"))
      case Some(detail) => Reply(200, Json(detail));
  }

  /** `updateReview` as written: for the author with a rating in range the
      update commits, then `findById` is refused and the `catch` answers
      500. */
  method UpdateReviewAsWritten(db: ReviewDatabase, userId: int, id: int, data: ReviewChanges, now: int)
    returns (reply: Reply<Option<ReviewDetail>>)
    requires db.Valid()
    modifies db
    ensures db.Valid()
    ensures !old(db.CheckOwnership(id, userId)) ==>
      reply == Reply(403, Failure("Not authorized to update this review")) && unchanged(db)
    ensures old(db.CheckOwnership(id, userId)) && RatingOutOfRange(data.rating) ==>
      reply == Reply(400, Failure("Rating must be between 0 and 5")) && unchanged(db)
    ensures old(db.CheckOwnership(id, userId)) && !RatingOutOfRange(data.rating) ==>
      && db.reviews == old(db.reviews)[id := Applied(old(db.reviews)[id], data, now)]
      && db.pros == ReplacedLinks(old(db.pros), id, data.pros)
      && db.cons == ReplacedLinks(old(db.cons), id, data.cons)
      && reply == Reply(500, Failure("Failed to update review"))
  {
    if !db.CheckOwnership(id, userId) {
      return Reply(403, Failure("Not authorized to update this review"));
    }
    if RatingOutOfRange(data.rating) {
      return Reply(400, Failure("Rating must be between 0 and 5"));
    }
    var review := db.Update(id, data, now);
    if review.None? {
      return Reply(404, Failure("Review not found"));
    }
    reply := match Executed(ImagesOrderAsWritten, db.FindById(id))
      case None => Reply(500, Failure("Failed to update review"))
      case Some(detail) => Reply(200, Json(detail));
  }

  /** `deleteReview`: ownership first (403), then the delete. */
  method DeleteReview(db: ReviewDatabase, userId: int, id: int) returns (reply: Reply<()>)
    requires db.Valid()
    modifies db
    ensures db.Valid()
    ensures !old(db.CheckOwnership(id, userId)) ==>
      reply == Reply(403, Failure("Not authorized to delete this review")) && unchanged(db)
    ensures old(db.CheckOwnership(id, userId)) ==>
      && reply == Reply(200, Note("Review deleted successfully"))
      && db.reviews == old(db.reviews) - {id}
      && db.pros == Unlinked(old(db.pros), id) && db.cons == Unlinked(old(db.cons), id)
      && db.images == ImagesOutside(old(db.images), id)
  {
    if !db.CheckOwnership(id, userId) {
      return Reply(403, Failure("Not authorized to delete this review"));
    }
    var deleted := db.Delete(id);
    if !deleted {
      return Reply(404, Failure("Review not found"));
    }
    reply := Reply(200, Note("Review deleted successfully"));
  }

  // ---------------------------------------------------------------------------
  // My reviews

  /** One entry of the "my reviews" response. */
  datatype MyReview = MyReview(
    id: int,
    accommodationId: int,
    accommodationName: string,
    roomType: string,
    childAgeMonths: int,
    totalPeople: int,
    rating: real,
    content: Option<string>,
    createdAt: int,
    updatedAt: int,
    pros: seq<int>,
    cons: seq<int>,
    images: seq<ReviewImage>)

  /** `totalPages` is a JavaScript number: `Math.ceil(total / limit)` is
      Infinity or NaN for a limit of 0, and JSON writes both as null (None). */
  datatype MyPagination = MyPagination(total: nat, page: int, limit: int, totalPages: Option<nat>)
  datatype MyReviewsPage = MyReviewsPage(data: seq<MyReview>, pagination: MyPagination)

  /** `Math.ceil(total / limit)` as JSON. */
  function TotalPagesOrNull(total: nat, limit: int): (r: Option<nat>)
    ensures limit > 0 ==> r.Some? && total <= r.value * limit && (r.value > 0 ==> (r.value - 1) * limit < total)
    ensures limit == 0 ==> r.None?
  {
    if limit > 0 then Some(CeilDiv(total, limit))
    else if limit == 0 then None
    else Some(0)
  }

  /** The entry for one row: missing aggregates become empty lists. */
  function Shaped(e: UserReview): (m: MyReview)
    ensures m.id == e.review.id && m.rating == e.review.rating
    ensures m.pros == e.pros.GetOr([]) && m.cons == e.cons.GetOr([]) && m.images == e.images.GetOr([])
  {
    MyReview(e.review.id, e.review.accommodationId, e.accommodationName, e.review.roomType,
      e.review.childAgeMonths, e.review.totalPeople, e.review.rating, e.review.content,
      e.review.createdAt, e.review.updatedAt,
      if e.pros.Some? then e.pros.value else [],
      if e.cons.Some? then e.cons.value else [],
      if e.images.Some? then e.images.value else [])
  }

  function ShapedAll(rows: seq<UserReview>): (r: seq<MyReview>)
    ensures |r| == |rows|
    ensures forall i | 0 <= i < |rows| :: r[i] == Shaped(rows[i])
  {
    if rows == [] then [] else ShapedAll(rows[..|rows| - 1]) + [Shaped(rows[|rows| - 1])]
  }

  /** `json_agg(...) || []` gives back exactly the linked rows: the null of
      an empty aggregate and the empty list agree. */
  lemma AggregateOrEmpty<T>(rows: seq<T>)
    ensures Aggregate(rows).GetOr([]) == rows
  {
  }

  /** Each entry's lists are exactly the review's links and images. */
  lemma ShapedLists(db: ReviewDatabase, r: StoredReview)
    requires r.accommodationId in db.accommodationNames
    ensures Shaped(db.EntryOf(r)).pros == LinkedIds(db.pros, r.id)
    ensures Shaped(db.EntryOf(r)).cons == LinkedIds(db.cons, r.id)
    ensures Shaped(db.EntryOf(r)).images == ImagesOfReview(db.images, r.id)
  {
    AggregateOrEmpty(LinkedIds(db.pros, r.id));
    AggregateOrEmpty(LinkedIds(db.cons, r.id));
    AggregateOrEmpty(ImagesOfReview(db.images, r.id));
  }

  /** `getMyReviews`: page defaults to 1 and limit to 10; a reading that is
      not a number (NaN) or a negative LIMIT or OFFSET makes the query fail
      (500). */
  method GetMyReviews(db: ReviewDatabase, userId: int, pageParam: Option<string>, limitParam: Option<string>,
                      ordered: seq<StoredReview>)
    returns (reply: Reply<MyReviewsPage>)
    requires db.NewestFirstListing(userId, ordered)
    ensures DefaultedInt(pageParam, 1).None? || DefaultedInt(limitParam, 10).None? ==>
      reply == Reply(500, Failure("Failed to get reviews"))
    ensures DefaultedInt(pageParam, 1).Some? && DefaultedInt(limitParam, 10).Some? ==>
      var page, limit := DefaultedInt(pageParam, 1).value, DefaultedInt(limitParam, 10).value;
      && ((page - 1) * limit < 0 || limit < 0 ==> reply == Reply(500, Failure("Failed to get reviews")))
      && (!((page - 1) * limit < 0 || limit < 0) ==>
            && reply.status == 200 && reply.body.Json?
            && reply.body.value.pagination
                 == MyPagination(|db.ReviewsOf(userId)|, page, limit, TotalPagesOrNull(|db.ReviewsOf(userId)|, limit))
            && reply.body.value.data == ShapedAll(db.FindByUserId(userId, page, limit, ordered).value.data))
  {
    var pageRead := DefaultedInt(pageParam, 1);
    var limitRead := DefaultedInt(limitParam, 10);
    if pageRead.None? || limitRead.None? {
      // NaN reaches LIMIT or OFFSET and PostgreSQL rejects it
      return Reply(500, Failure("Failed to get reviews"));
    }
    var page, limit := pageRead.value, limitRead.value;
    var run := Executed(InsideAggregate, db.FindByUserId(userId, page, limit, ordered));
    reply := match run
      case None => Reply(500, Failure("Failed to get reviews"))
      case Some(result) =>
        (match result
          case None => Reply(500, Failure("Failed to get reviews"))
          case Some(found) =>
            Reply(200, Json(MyReviewsPage(ShapedAll(found.data),
              MyPagination(found.total, page, limit, TotalPagesOrNull(found.total, limit))))));
  }

  /** `getMyReviews` as written: `findByUserId` carries the images subquery
      PostgreSQL refuses, so every request answers 500. */
  method GetMyReviewsAsWritten(db: ReviewDatabase, userId: int, pageParam: Option<string>, limitParam: Option<string>,
                               ordered: seq<StoredReview>)
    returns (reply: Reply<MyReviewsPage>)
    requires db.NewestFirstListing(userId, ordered)
    ensures reply == Reply(500, Failure("Failed to get reviews"))
  {
    var pageRead := DefaultedInt(pageParam, 1);
    var limitRead := DefaultedInt(limitParam, 10);
    if pageRead.None? || limitRead.None? {
      return Reply(500, Failure("Failed to get reviews"));
    }
    var page, limit := pageRead.value, limitRead.value;
    var run := Executed(ImagesOrderAsWritten, db.FindByUserId(userId, page, limit, ordered));
    reply := match run
      case None => Reply(500, Failure("Failed to get reviews"))
      case Some(result) =>
        (match result
          case None => Reply(500, Failure("Failed to get reviews"))
          case Some(found) =>
            Reply(200, Json(MyReviewsPage(ShapedAll(found.data),
              MyPagination(found.total, page, limit, TotalPagesOrNull(found.total, limit))))));
  }

  /** Without query parameters the first ten reviews are asked for. */
  lemma MyReviewsDefaults()
    ensures DefaultedInt(None, 1) == Some(1) && DefaultedInt(None, 10) == Some(10)
    ensures DefaultedInt(Some(""), 10) == Some(10)
  {
  }

  // ---------------------------------------------------------------------------
  // Images

  /** The `{ id, imageUrl, sortOrder }` sent back for an uploaded image. */
  datatype UploadedImage = UploadedImage(id: int, imageUrl: string, sortOrder: int)

  const MaxImages := 10

  /** `/uploads/reviews/${filename}`. */
  function UploadUrl(filename: string): string
  {
    "/uploads/reviews/" + filename
  }

  /** The rows the upload loop inserts: the i-th file gets the i-th id of
      the sequence and `sortOrder` existing + i + 1. */
  function NewImages(firstId: int, reviewId: int, files: seq<string>, existing: nat): (r: seq<ReviewImage>)
    ensures |r| == |files|
  {
    if files == [] then []
    else
      var n := |files| - 1;
      NewImages(firstId, reviewId, files[..n], existing) + [ReviewImage(firstId + n, reviewId, UploadUrl(files[n]), existing + n + 1)]
  }

  function Uploaded(images: seq<ReviewImage>): (r: seq<UploadedImage>)
    ensures |r| == |images|
  {
    if images == [] then []
    else Uploaded(images[..|images| - 1]) + [UploadedImage(images[|images| - 1].id, images[|images| - 1].imageUrl, images[|images| - 1].sortOrder)]
  }

  /** The i-th inserted row, and what is sent back for it. */
  lemma {:induction false} NewImagesAt(firstId: int, reviewId: int, files: seq<string>, existing: nat)
    ensures var r := NewImages(firstId, reviewId, files, existing);
      forall i | 0 <= i < |r| :: r[i] == ReviewImage(firstId + i, reviewId, UploadUrl(files[i]), existing + i + 1)
  {
    if files != [] {
      NewImagesAt(firstId, reviewId, files[..|files| - 1], existing);
    }
  }

  lemma {:induction false} UploadedAt(images: seq<ReviewImage>)
    ensures forall i | 0 <= i < |images| ::
      Uploaded(images)[i] == UploadedImage(images[i].id, images[i].imageUrl, images[i].sortOrder)
  {
    if images != [] {
      UploadedAt(images[..|images| - 1]);
    }
  }

  /** The inserted `sortOrder`s continue the existing ones without a gap:
      existing + 1, ..., existing + n, in file order. */
  lemma ConsecutiveSortOrders(firstId: int, reviewId: int, files: seq<string>, existing: nat)
    ensures var r := NewImages(firstId, reviewId, files, existing);
      && (|r| > 0 ==> r[0].sortOrder == existing + 1 && r[|r| - 1].sortOrder == existing + |files|)
      && forall i | 0 <= i < |r| - 1 :: r[i + 1].sortOrder == r[i].sortOrder + 1
  {
    NewImagesAt(firstId, reviewId, files, existing);
  }

  /** After an upload the review has its old images and exactly one more per
      file. */
  lemma ImageCountAfterUpload(images: seq<ReviewImage>, added: seq<ReviewImage>, reviewId: int)
    requires forall i | 0 <= i < |added| :: added[i].reviewId == reviewId
    ensures |ImagesOfReview(images + added, reviewId)| == |ImagesOfReview(images, reviewId)| + |added|
  {
    var keep := (im: ReviewImage) => im.reviewId == reviewId;
    SelectAppend(images, added, keep);
    SelectAll(added, keep);
    assert |ImagesOfReview(images + added, reviewId)| == |multiset(Select(images + added, keep))|;
    assert |ImagesOfReview(images, reviewId)| == |multiset(Select(images, keep))|;
  }

  /** One more file: its row goes at the end. */
  lemma NewImagesStep(firstId: int, reviewId: int, files: seq<string>, existing: nat, i: nat)
    requires i < |files|
    ensures NewImages(firstId, reviewId, files[..i + 1], existing)
      == NewImages(firstId, reviewId, files[..i], existing) + [ReviewImage(firstId + i, reviewId, UploadUrl(files[i]), existing + i + 1)]
    ensures Uploaded(NewImages(firstId, reviewId, files[..i + 1], existing))
      == Uploaded(NewImages(firstId, reviewId, files[..i], existing)) + [UploadedImage(firstId + i, UploadUrl(files[i]), existing + i + 1)]
  {
    assert files[..i + 1][..i] == files[..i];
    var prefix := NewImages(firstId, reviewId, files[..i], existing);
    var row := ReviewImage(firstId + i, reviewId, UploadUrl(files[i]), existing + i + 1);
    assert (prefix + [row])[..|prefix|] == prefix;
  }

  /** One pass of the upload loop: `addImage` for file i, whose row and
      reply entry follow those of the earlier files. */
  method InsertImage(db: ReviewDatabase, reviewId: int, files: seq<string>, existing: nat, i: nat,
                     ghost id0: int, ghost images0: seq<ReviewImage>, images: seq<UploadedImage>)
    returns (next: seq<UploadedImage>)
    requires i < |files|
    requires db.Valid() && reviewId in db.reviews && db.nextImageId == id0 + i
    requires db.images == images0 + NewImages(id0, reviewId, files[..i], existing)
    requires images == Uploaded(NewImages(id0, reviewId, files[..i], existing))
    modifies db
    ensures db.Valid() && db.nextImageId == id0 + i + 1
    ensures db.images == images0 + NewImages(id0, reviewId, files[..i + 1], existing)
    ensures next == Uploaded(NewImages(id0, reviewId, files[..i + 1], existing))
    ensures db.reviews == old(db.reviews) && db.pros == old(db.pros) && db.cons == old(db.cons)
    ensures db.userNames == old(db.userNames) && db.accommodationNames == old(db.accommodationNames)
    ensures db.nextReviewId == old(db.nextReviewId)
  {
    var image := db.AddImage(reviewId, UploadUrl(files[i]), existing + i + 1);
    next := images + [UploadedImage(image.value.id, image.value.imageUrl, image.value.sortOrder)];
    NewImagesStep(id0, reviewId, files, existing, i);
  }

  /** The upload loop: `addImage` once per file, in file order, with
      `sortOrder` existing + i + 1. */
  method InsertImages(db: ReviewDatabase, reviewId: int, files: seq<string>, existing: nat)
    returns (images: seq<UploadedImage>)
    requires db.Valid() && reviewId in db.reviews
    modifies db
    ensures db.Valid()
    ensures db.images == old(db.images) + NewImages(old(db.nextImageId), reviewId, files, existing)
    ensures images == Uploaded(NewImages(old(db.nextImageId), reviewId, files, existing))
    ensures db.nextImageId == old(db.nextImageId) + |files|
    ensures db.reviews == old(db.reviews) && db.pros == old(db.pros) && db.cons == old(db.cons)
    ensures db.userNames == old(db.userNames) && db.accommodationNames == old(db.accommodationNames)
    ensures db.nextReviewId == old(db.nextReviewId)
  {
    images := [];
    ghost var id0, images0 := db.nextImageId, db.images;
    var i := 0;
    while i < |files|
      invariant 0 <= i <= |files|
      invariant db.Valid() && db.nextImageId == id0 + i
      invariant db.images == images0 + NewImages(id0, reviewId, files[..i], existing)
      invariant images == Uploaded(NewImages(id0, reviewId, files[..i], existing))
      invariant db.reviews == old(db.reviews) && db.pros == old(db.pros) && db.cons == old(db.cons)
      invariant db.userNames == old(db.userNames) && db.accommodationNames == old(db.accommodationNames)
      invariant db.nextReviewId == old(db.nextReviewId)
    {
      images := InsertImage(db, reviewId, files, existing, i, id0, images0, images);
      i := i + 1;
    }
    assert files[..i] == files;
  }

  /** `uploadReviewImages`: ownership first (403), then 400 for no files
      and 400 when the review would pass ten images; otherwise one row per
      file, in file order, and 201 with the new rows. */
  method UploadReviewImages(db: ReviewDatabase, userId: int, reviewId: int, files: seq<string>)
    returns (reply: Reply<seq<UploadedImage>>)
    requires db.Valid()
    modifies db
    ensures db.Valid()
    ensures !old(db.CheckOwnership(reviewId, userId)) ==>
      reply == Reply(403, Failure("Not authorized to upload images for this review")) && unchanged(db)
    ensures old(db.CheckOwnership(reviewId, userId)) && files == [] ==>
      reply == Reply(400, Failure("No images provided")) && unchanged(db)
    ensures old(db.CheckOwnership(reviewId, userId)) && files != []
            && |old(db.ImagesByReview(reviewId))| + |files| > MaxImages ==>
      reply == Reply(400, Failure("Maximum 10 images allowed per review")) && unchanged(db)
    ensures reply.status == 201 ==>
      && var added := NewImages(old(db.nextImageId), reviewId, files, |old(db.ImagesByReview(reviewId))|);
      && db.images == old(db.images) + added
      && reply.body == Json(Uploaded(added))
      && |db.ImagesByReview(reviewId)| == |old(db.ImagesByReview(reviewId))| + |files| <= MaxImages
    ensures reply.status in {201, 400, 403}
    ensures reply.status != 201 ==> unchanged(db)
  {
    if !db.CheckOwnership(reviewId, userId) {
      return Reply(403, Failure("Not authorized to upload images for this review"));
    }
    var existing := db.ImagesByReview(reviewId);
    if files == [] {
      return Reply(400, Failure("No images provided"));
    }
    if |existing| + |files| > MaxImages {
      return Reply(400, Failure("Maximum 10 images allowed per review"));
    }
    ghost var firstId := db.nextImageId;
    ghost var before := db.images;
    var images := InsertImages(db, reviewId, files, |existing|);
    NewImagesAt(firstId, reviewId, files, |existing|);
    ImageCountAfterUpload(before, NewImages(firstId, reviewId, files, |existing|), reviewId);
    reply := Reply(201, Json(images));
  }

  /** `deleteReviewImage` as written: ownership of review `reviewId` is
      checked, but the image is deleted by its id alone, whichever review
      it belongs to. */
  method DeleteReviewImageAsWritten(db: ReviewDatabase, userId: int, reviewId: int, imageId: int)
    returns (reply: Reply<()>)
    requires db.Valid()
    modifies db
    ensures db.Valid()
    ensures !old(db.CheckOwnership(reviewId, userId)) ==>
      reply == Reply(403, Failure("Not authorized to delete images for this review")) && unchanged(db)
    ensures old(db.CheckOwnership(reviewId, userId)) ==>
      && db.images == ImagesExcept(old(db.images), imageId)
      && reply == if exists im | im in old(db.images) :: im.id == imageId
                  then Reply(200, Note("Image deleted successfully"))
                  else Reply(404, Failure("Image not found"))
  {
    if !db.CheckOwnership(reviewId, userId) {
      return Reply(403, Failure("Not authorized to delete images for this review"));
    }
    var deleted := db.DeleteImage(imageId);
    if !deleted {
      return Reply(404, Failure("Image not found"));
    }
    reply := Reply(200, Note("Image deleted successfully"));
  }

  /** The image delete as intended: only an image of the review whose
      ownership was checked can go, so no other review's image is ever
      touched. */
  method DeleteReviewImage(db: ReviewDatabase, userId: int, reviewId: int, imageId: int)
    returns (reply: Reply<()>)
    requires db.Valid()
    modifies db
    ensures db.Valid()
    ensures !old(db.CheckOwnership(reviewId, userId)) ==>
      reply == Reply(403, Failure("Not authorized to delete images for this review")) && unchanged(db)
    ensures old(db.CheckOwnership(reviewId, userId)) ==>
      && db.images == ImagesExceptOfReview(old(db.images), reviewId, imageId)
      && reply == if exists im | im in old(db.images) :: im.id == imageId && im.reviewId == reviewId
                  then Reply(200, Note("Image deleted successfully"))
                  else Reply(404, Failure("Image not found"))
    ensures forall im | im in old(db.images) && im.reviewId != reviewId :: im in db.images
  {
    if !db.CheckOwnership(reviewId, userId) {
      return Reply(403, Failure("Not authorized to delete images for this review"));
    }
    var deleted := db.DeleteImageOfReview(reviewId, imageId);
    forall im | im in old(db.images) && im.reviewId != reviewId
      ensures im in db.images
    {
      DeleteImageOfReviewKeepsOthers(old(db.images), reviewId, imageId, im);
    }
    if !deleted {
      return Reply(404, Failure("Image not found"));
    }
    reply := Reply(200, Note("Image deleted successfully"));
  }
}
