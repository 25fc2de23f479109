/** The review tables and the statements `ReviewModel` runs against them:
    the transactional create, the partial UPDATE with its `$k` counter, the
    delete that clears the link tables first, the per-user page, the image
    rows and the ownership test. */
module ReviewStore {
  import opened Common
  import opened Ordering
  import opened AccommodationDetail

  /** A row of `reviews`. `createdAt`/`updatedAt` are clock readings. */
  datatype StoredReview = StoredReview(
    id: int,
    userId: int,
    accommodationId: int,
    roomType: string,
    childAgeMonths: int,
    totalPeople: int,
    rating: real,
    content: Option<string>,
    createdAt: int,
    updatedAt: int)

  /** `CreateReviewDTO`. */
  datatype NewReview = NewReview(
    userId: int,
    accommodationId: int,
    roomType: string,
    childAgeMonths: int,
    totalPeople: int,
    rating: real,
    content: Option<string>,
    pros: Option<seq<int>>,
    cons: Option<seq<int>>)

  /** `UpdateReviewDTO`: None is an `undefined` field. */
  datatype ReviewChanges = ReviewChanges(
    roomType: Option<string>,
    childAgeMonths: Option<int>,
    totalPeople: Option<int>,
    rating: Option<real>,
    content: Option<string>,
    pros: Option<seq<int>>,
    cons: Option<seq<int>>)

  // ---------------------------------------------------------------------------
  // The SET clause of `update`

  datatype Column = RoomTypeColumn | ChildAgeMonthsColumn | TotalPeopleColumn | RatingColumn | ContentColumn | UpdatedAtColumn

  /** `column = $slot`, or `column = NOW()`. */
  datatype Assignment = Bind(column: Column, slot: nat) | Now(column: Column)

  /** `UPDATE reviews SET assignments WHERE id = $idSlot`, with `values`
      bound to `$1 .. $|values|`. */
  datatype UpdateStatement = UpdateStatement(assignments: seq<Assignment>, values: seq<SqlValue>, idSlot: nat)

  /** The k-th field the builder tests (roomType, childAgeMonths,
      totalPeople, rating, content), with the value it binds when defined. */
  function FieldAt(data: ReviewChanges, k: nat): Option<(Column, SqlValue)>
    requires k < 5
  {
    match k
    case 0 => if data.roomType.Some? then Some((RoomTypeColumn, Text(data.roomType.value))) else None
    case 1 => if data.childAgeMonths.Some? then Some((ChildAgeMonthsColumn, Int(data.childAgeMonths.value))) else None
    case 2 => if data.totalPeople.Some? then Some((TotalPeopleColumn, Int(data.totalPeople.value))) else None
    case 3 => if data.rating.Some? then Some((RatingColumn, Real(data.rating.value))) else None
    case _ => if data.content.Some? then Some((ContentColumn, Text(data.content.value))) else None
  }

  function Present(f: Option<(Column, SqlValue)>): seq<(Column, SqlValue)>
  {
    if f.Some? then [f.value] else []
  }

  /** The defined fields, in the order the builder tests them. */
  function Requested(data: ReviewChanges): seq<(Column, SqlValue)>
  {
    Present(FieldAt(data, 0)) + Present(FieldAt(data, 1)) + Present(FieldAt(data, 2))
      + Present(FieldAt(data, 3)) + Present(FieldAt(data, 4))
  }

  /** `column = $k` for the k-th requested field. */
  function Binds(req: seq<(Column, SqlValue)>): (r: seq<Assignment>)
    ensures |r| == |req|
  {
    if req == [] then [] else Binds(req[..|req| - 1]) + [Bind(req[|req| - 1].0, |req|)]
  }

  function Values(req: seq<(Column, SqlValue)>): (r: seq<SqlValue>)
    ensures |r| == |req|
  {
    if req == [] then [] else Values(req[..|req| - 1]) + [req[|req| - 1].1]
  }

  lemma {:induction false} Numbered(req: seq<(Column, SqlValue)>)
    ensures forall i | 0 <= i < |req| :: Binds(req)[i] == Bind(req[i].0, i + 1) && Values(req)[i] == req[i].1
  {
    if req != [] {
      Numbered(req[..|req| - 1]);
    }
  }

  lemma Snoc(req: seq<(Column, SqlValue)>, p: (Column, SqlValue))
    ensures Binds(req + [p]) == Binds(req) + [Bind(p.0, |req| + 1)]
    ensures Values(req + [p]) == Values(req) + [p.1]
  {
    assert (req + [p])[..|req|] == req;
  }

  /** The statement `update` sends: one assignment per defined field, then
      `updated_at = NOW()`, with the id bound after the field values. */
  function UpdateOf(id: int, data: ReviewChanges): UpdateStatement
  {
    var req := Requested(data);
    UpdateStatement(Binds(req) + [Now(UpdatedAtColumn)], Values(req) + [Int(id)], |req| + 1)
  }

  /** One `if (data.x !== undefined)` block of the builder: push the
      assignment `x = $paramCount`, push the value, bump the counter. */
  method PushField(fields: seq<Assignment>, values: seq<SqlValue>, paramCount: nat,
                   field: Option<(Column, SqlValue)>, ghost req: seq<(Column, SqlValue)>)
    returns (fields': seq<Assignment>, values': seq<SqlValue>, paramCount': nat)
    requires fields == Binds(req) && values == Values(req) && paramCount == |req| + 1
    ensures fields' == Binds(req + Present(field)) && values' == Values(req + Present(field))
    ensures paramCount' == |req + Present(field)| + 1
  {
    fields', values', paramCount' := fields, values, paramCount;
    if field.Some? {
      Snoc(req, field.value);
      fields' := fields + [Bind(field.value.0, paramCount)];
      values' := values + [field.value.1];
      paramCount' := paramCount + 1;
    } else {
      assert req + [] == req;
    }
  }

  /** The counter-and-values builder of `update`. */
  method BuildUpdate(id: int, data: ReviewChanges) returns (st: UpdateStatement)
    ensures st == UpdateOf(id, data)
  {
    var fields: seq<Assignment> := [];
    var values: seq<SqlValue> := [];
    var paramCount: nat := 1;
    ghost var req: seq<(Column, SqlValue)> := [];
    fields, values, paramCount := PushField(fields, values, paramCount, FieldAt(data, 0), req);
    assert req + Present(FieldAt(data, 0)) == Present(FieldAt(data, 0));
    req := Present(FieldAt(data, 0));
    fields, values, paramCount := PushField(fields, values, paramCount, FieldAt(data, 1), req);
    req := req + Present(FieldAt(data, 1));
    fields, values, paramCount := PushField(fields, values, paramCount, FieldAt(data, 2), req);
    req := req + Present(FieldAt(data, 2));
    fields, values, paramCount := PushField(fields, values, paramCount, FieldAt(data, 3), req);
    req := req + Present(FieldAt(data, 3));
    fields, values, paramCount := PushField(fields, values, paramCount, FieldAt(data, 4), req);
    req := req + Present(FieldAt(data, 4));
    st := UpdateStatement(fields + [Now(UpdatedAtColumn)], values + [Int(id)], paramCount);
  }

  /** Every `$k` of the statement names a value: each field's slot holds that
      field's value, the id binds the last slot, and `updated_at = NOW()`
      closes the SET list. */
  lemma UpdateNumbering(id: int, data: ReviewChanges)
    ensures var st := UpdateOf(id, data);
      && st.idSlot == |st.values| == |Requested(data)| + 1
      && st.values[st.idSlot - 1] == Int(id)
      && st.assignments[|st.assignments| - 1] == Now(UpdatedAtColumn)
      && forall i | 0 <= i < |st.assignments| - 1 ::
           && st.assignments[i] == Bind(Requested(data)[i].0, i + 1)
           && st.values[st.assignments[i].slot - 1] == Requested(data)[i].1
  {
    Numbered(Requested(data));
  }

  /** Without any defined field the statement still sets `updated_at` and
      binds the id at `$1`. */
  lemma UpdateOfNothing(id: int)
    ensures UpdateOf(id, ReviewChanges(None, None, None, None, None, None, None))
            == UpdateStatement([Now(UpdatedAtColumn)], [Int(id)], 1)
  {
  }

  // ---------------------------------------------------------------------------
  // What the UPDATE does to a row

  /** One assignment of a value to a column; a value of the wrong kind for
      the column leaves the row as it was. */
  function Store(row: StoredReview, c: Column, v: SqlValue): StoredReview
  {
    match c
    case RoomTypeColumn => if v.Text? then row.(roomType := v.text) else row
    case ChildAgeMonthsColumn => if v.Int? then row.(childAgeMonths := v.i) else row
    case TotalPeopleColumn => if v.Int? then row.(totalPeople := v.i) else row
    case RatingColumn => if v.Real? then row.(rating := v.r) else row
    case ContentColumn => if v.Text? then row.(content := Some(v.text)) else row
    case UpdatedAtColumn => row
  }

  function Assign(row: StoredReview, a: Assignment, values: seq<SqlValue>, now: int): StoredReview
  {
    match a
    case Now(c) => if c == UpdatedAtColumn then row.(updatedAt := now) else row
    case Bind(c, k) => if 1 <= k <= |values| then Store(row, c, values[k - 1]) else row
  }

  /** The SET clause applied left to right. */
  function Execute(assignments: seq<Assignment>, values: seq<SqlValue>, row: StoredReview, now: int): StoredReview
  {
    if assignments == [] then row
    else Assign(Execute(assignments[..|assignments| - 1], values, row, now), assignments[|assignments| - 1], values, now)
  }

  /** `WHERE id = $idSlot`. */
  predicate Targets(st: UpdateStatement, id: int)
  {
    1 <= st.idSlot <= |st.values| && st.values[st.idSlot - 1] == Int(id)
  }

  /** The intended effect of an update on a row: each defined field takes
      its new value, the others keep theirs, and `updated_at` is now. */
  function Applied(row: StoredReview, data: ReviewChanges, now: int): StoredReview
  {
    row.(
      roomType := data.roomType.GetOr(row.roomType),
      childAgeMonths := data.childAgeMonths.GetOr(row.childAgeMonths),
      totalPeople := data.totalPeople.GetOr(row.totalPeople),
      rating := data.rating.GetOr(row.rating),
      content := if data.content.Some? then data.content else row.content,
      updatedAt := now)
  }

  /** The requested pairs stored one after the other. */
  function StorePairs(row: StoredReview, req: seq<(Column, SqlValue)>): StoredReview
  {
    if req == [] then row else Store(StorePairs(row, req[..|req| - 1]), req[|req| - 1].0, req[|req| - 1].1)
  }

  lemma {:induction false} StorePairsAppend(row: StoredReview, a: seq<(Column, SqlValue)>, b: seq<(Column, SqlValue)>)
    ensures StorePairs(row, a + b) == StorePairs(StorePairs(row, a), b)
  {
    if b == [] {
      assert a + b == a;
    } else {
      StorePairsAppend(row, a, b[..|b| - 1]);
      assert (a + b)[..|a + b| - 1] == a + b[..|b| - 1];
    }
  }

  lemma StorePresent(row: StoredReview, f: Option<(Column, SqlValue)>)
    ensures StorePairs(row, Present(f)) == if f.Some? then Store(row, f.value.0, f.value.1) else row
  {
    if f.Some? {
      assert Present(f)[..0] == [];
    }
  }

  lemma StoreRequested(row: StoredReview, data: ReviewChanges, now: int)
    ensures StorePairs(row, Requested(data)).(updatedAt := now) == Applied(row, data, now)
  {
    var p0, p1, p2, p3, p4 := Present(FieldAt(data, 0)), Present(FieldAt(data, 1)), Present(FieldAt(data, 2)),
      Present(FieldAt(data, 3)), Present(FieldAt(data, 4));
    StorePairsAppend(row, p0 + p1 + p2 + p3, p4);
    StorePairsAppend(row, p0 + p1 + p2, p3);
    StorePairsAppend(row, p0 + p1, p2);
    StorePairsAppend(row, p0, p1);
    var r0 := StorePairs(row, p0);
    StorePresent(row, FieldAt(data, 0));
    var r1 := StorePairs(r0, p1);
    StorePresent(r0, FieldAt(data, 1));
    var r2 := StorePairs(r1, p2);
    StorePresent(r1, FieldAt(data, 2));
    var r3 := StorePairs(r2, p3);
    StorePresent(r2, FieldAt(data, 3));
    StorePresent(r3, FieldAt(data, 4));
  }

  lemma {:induction false} ExecuteBinds(req: seq<(Column, SqlValue)>, values: seq<SqlValue>, row: StoredReview, now: int)
    requires |req| <= |values|
    requires forall i | 0 <= i < |req| :: values[i] == req[i].1
    ensures Execute(Binds(req), values, row, now) == StorePairs(row, req)
  {
    if req != [] {
      var n := |req|;
      assert Binds(req)[..n - 1] == Binds(req[..n - 1]);
      ExecuteBinds(req[..n - 1], values, row, now);
    }
  }

  /** The SET list followed by `updated_at = NOW()`, with the id bound last. */
  lemma ExecuteStatement(req: seq<(Column, SqlValue)>, id: int, row: StoredReview, now: int)
    ensures Execute(Binds(req) + [Now(UpdatedAtColumn)], Values(req) + [Int(id)], row, now)
            == StorePairs(row, req).(updatedAt := now)
  {
    var assignments := Binds(req) + [Now(UpdatedAtColumn)];
    var values := Values(req) + [Int(id)];
    Numbered(req);
    assert assignments[..|assignments| - 1] == Binds(req);
    ExecuteBinds(req, values, row, now);
  }

  /** The statement `update` builds does what the DTO asks: it targets
      exactly the row with that id, and on it yields exactly `Applied`. */
  lemma UpdateMeaning(id: int, data: ReviewChanges, row: StoredReview, now: int)
    ensures Targets(UpdateOf(id, data), row.id) <==> row.id == id
    ensures var st := UpdateOf(id, data);
      Execute(st.assignments, st.values, row, now) == Applied(row, data, now)
  {
    ExecuteStatement(Requested(data), id, row, now);
    StoreRequested(row, data, now);
  }

  /** Build the statement for the row's id and run it on that row: the row
      comes back exactly as `Applied` describes. */
  method RunUpdate(row: StoredReview, data: ReviewChanges, now: int) returns (updated: StoredReview)
    ensures updated == Applied(row, data, now)
  {
    var st := BuildUpdate(row.id, data);
    UpdateMeaning(row.id, data, row, now);
    updated := Execute(st.assignments, st.values, row, now);
  }

  // ---------------------------------------------------------------------------
  // Link rows

  /** `(review_id, id)` for each listed id: the rows of the multi-row
      `INSERT INTO review_pros` (or `review_cons`). */
  function Links(reviewId: int, ids: seq<int>): (r: seq<(int, int)>)
    ensures |r| == |ids|
    ensures forall i | 0 <= i < |r| :: r[i] == (reviewId, ids[i])
  {
    if ids == [] then [] else Links(reviewId, ids[..|ids| - 1]) + [(reviewId, ids[|ids| - 1])]
  }

  /** The inserted rows are exactly the review paired with each listed id. */
  lemma LinksMembers(reviewId: int, ids: seq<int>, l: (int, int))
    ensures l in Links(reviewId, ids) <==> l.0 == reviewId && l.1 in ids
  {
    if l in Links(reviewId, ids) {
      var i :| 0 <= i < |ids| && Links(reviewId, ids)[i] == l;
    }
    if l.0 == reviewId && l.1 in ids {
      var i :| 0 <= i < |ids| && ids[i] == l.1;
      assert Links(reviewId, ids)[i] == l;
    }
  }

  /** The link rows after `create`: the multi-row insert runs only for a
      defined, non-empty list. */
  function InsertedLinks(links: seq<(int, int)>, reviewId: int, ids: Option<seq<int>>): (r: seq<(int, int)>)
    ensures r == links + Links(reviewId, ids.GetOr([]))
  {
    if ids.Some? && |ids.value| > 0 then links + Links(reviewId, ids.value)
    else
      assert links + Links(reviewId, ids.GetOr([])) == links;
      links
  }

  /** `DELETE FROM <links> WHERE review_id = id`. */
  function Unlinked(links: seq<(int, int)>, reviewId: int): seq<(int, int)>
  {
    Select(links, (l: (int, int)) => l.0 != reviewId)
  }

  /** The link rows after `update`: an undefined list leaves them alone; a
      defined one deletes the review's links and, when not empty, inserts
      the new ones. */
  function ReplacedLinks(links: seq<(int, int)>, reviewId: int, ids: Option<seq<int>>): seq<(int, int)>
  {
    if ids.None? then links
    else if |ids.value| > 0 then Unlinked(links, reviewId) + Links(reviewId, ids.value)
    else Unlinked(links, reviewId)
  }

  /** After the replacement the review is linked to exactly the listed ids
      (when a list was given) and every other review keeps its links. */
  lemma ReplacedLinksMeaning(links: seq<(int, int)>, reviewId: int, ids: Option<seq<int>>, l: (int, int))
    ensures ids.None? ==> ReplacedLinks(links, reviewId, ids) == links
    ensures ids.Some? && l.0 == reviewId ==> (l in ReplacedLinks(links, reviewId, ids) <==> l.1 in ids.value)
    ensures l.0 != reviewId ==> (l in ReplacedLinks(links, reviewId, ids) <==> l in links)
  {
    if ids.Some? {
      LinksMembers(reviewId, ids.value, l);
    }
  }

  // ---------------------------------------------------------------------------
  // Image rows

  /** `DELETE FROM review_images WHERE review_id = $1`. */
  function ImagesOutside(images: seq<ReviewImage>, reviewId: int): seq<ReviewImage>
  {
    Select(images, (im: ReviewImage) => im.reviewId != reviewId)
  }

  /** `DELETE FROM review_images WHERE id = $1`. */
  function ImagesExcept(images: seq<ReviewImage>, imageId: int): seq<ReviewImage>
  {
    Select(images, (im: ReviewImage) => im.id != imageId)
  }

  /** `DELETE FROM review_images WHERE id = $1 AND review_id = $2`. */
  function ImagesExceptOfReview(images: seq<ReviewImage>, reviewId: int, imageId: int): seq<ReviewImage>
  {
    Select(images, (im: ReviewImage) => !(im.id == imageId && im.reviewId == reviewId))
  }

  /** A delete by image id removes a row iff an image has that id. */
  lemma ImagesExceptDrops(images: seq<ReviewImage>, imageId: int)
    ensures |ImagesExcept(images, imageId)| < |images| <==> exists im | im in images :: im.id == imageId
  {
    SelectDrops(images, (im: ReviewImage) => im.id != imageId);
  }

  lemma ImagesExceptOfReviewDrops(images: seq<ReviewImage>, reviewId: int, imageId: int)
    ensures |ImagesExceptOfReview(images, reviewId, imageId)| < |images|
            <==> exists im | im in images :: im.id == imageId && im.reviewId == reviewId
  {
    SelectDrops(images, (im: ReviewImage) => !(im.id == imageId && im.reviewId == reviewId));
  }

  // ---------------------------------------------------------------------------
  // Integrity of the tables

  /** Every link row's review id is one of the keys (the foreign key),
      checked row by row from the end. */
  predicate LinksRefer(links: seq<(int, int)>, keys: set<int>)
  {
    links == [] || (LinksRefer(links[..|links| - 1], keys) && links[|links| - 1].0 in keys)
  }

  predicate ImagesRefer(images: seq<ReviewImage>, keys: set<int>)
  {
    images == [] || (ImagesRefer(images[..|images| - 1], keys) && images[|images| - 1].reviewId in keys)
  }

  lemma {:induction false} LinksReferMeaning(links: seq<(int, int)>, keys: set<int>)
    ensures LinksRefer(links, keys) <==> forall l | l in links :: l.0 in keys
  {
    if links != [] {
      var init := links[..|links| - 1];
      LinksReferMeaning(init, keys);
      assert links == init + [links[|links| - 1]];
      if forall l | l in links :: l.0 in keys {
        assert forall l | l in init :: l in links;
      }
    }
  }

  lemma {:induction false} ImagesReferMeaning(images: seq<ReviewImage>, keys: set<int>)
    ensures ImagesRefer(images, keys) <==> forall im | im in images :: im.reviewId in keys
  {
    if images != [] {
      var init := images[..|images| - 1];
      ImagesReferMeaning(init, keys);
      assert images == init + [images[|images| - 1]];
      if forall im | im in images :: im.reviewId in keys {
        assert forall im | im in init :: im in images;
      }
    }
  }

  /** The integrity the schema enforces: each review stored under its own id
      below the id sequence, and every link and image row pointing at an
      existing review. */
  predicate Consistent(reviews: map<int, StoredReview>, nextReviewId: int,
                       pros: seq<(int, int)>, cons: seq<(int, int)>, images: seq<ReviewImage>)
  {
    && (forall id | id in reviews :: reviews[id].id == id && id < nextReviewId)
    && LinksRefer(pros, reviews.Keys)
    && LinksRefer(cons, reviews.Keys)
    && ImagesRefer(images, reviews.Keys)
  }

  /** `create` keeps the tables consistent: the new id is fresh, and the new
      link rows point at the new review. */
  lemma CreateConsistent(reviews: map<int, StoredReview>, nextReviewId: int, pros: seq<(int, int)>,
                         cons: seq<(int, int)>, images: seq<ReviewImage>, review: StoredReview,
                         proIds: seq<int>, conIds: seq<int>)
    requires Consistent(reviews, nextReviewId, pros, cons, images)
    requires review.id == nextReviewId
    ensures nextReviewId !in reviews
    ensures Consistent(reviews[nextReviewId := review], nextReviewId + 1,
                       pros + Links(nextReviewId, proIds), cons + Links(nextReviewId, conIds), images)
  {
    var keys := reviews[nextReviewId := review].Keys;
    LinksReferMeaning(pros, reviews.Keys);
    LinksReferMeaning(cons, reviews.Keys);
    ImagesReferMeaning(images, reviews.Keys);
    LinksReferMeaning(pros + Links(nextReviewId, proIds), keys);
    LinksReferMeaning(cons + Links(nextReviewId, conIds), keys);
    ImagesReferMeaning(images, keys);
    forall l | l in pros + Links(nextReviewId, proIds)
      ensures l.0 in keys
    {
      LinksMembers(nextReviewId, proIds, l);
    }
    forall l | l in cons + Links(nextReviewId, conIds)
      ensures l.0 in keys
    {
      LinksMembers(nextReviewId, conIds, l);
    }
  }

  /** `update` keeps the tables consistent: the row stays under its id and
      the replaced links point at it. */
  lemma UpdateConsistent(reviews: map<int, StoredReview>, nextReviewId: int, pros: seq<(int, int)>,
                         cons: seq<(int, int)>, images: seq<ReviewImage>, id: int, row: StoredReview,
                         proIds: Option<seq<int>>, conIds: Option<seq<int>>)
    requires Consistent(reviews, nextReviewId, pros, cons, images)
    requires id in reviews && row.id == id
    ensures Consistent(reviews[id := row], nextReviewId,
                       ReplacedLinks(pros, id, proIds), ReplacedLinks(cons, id, conIds), images)
  {
    assert reviews[id := row].Keys == reviews.Keys;
    var newPros := ReplacedLinks(pros, id, proIds);
    var newCons := ReplacedLinks(cons, id, conIds);
    LinksReferMeaning(pros, reviews.Keys);
    LinksReferMeaning(cons, reviews.Keys);
    LinksReferMeaning(newPros, reviews.Keys);
    LinksReferMeaning(newCons, reviews.Keys);
    forall l | l in newPros
      ensures l.0 in reviews.Keys
    {
      ReplacedLinksMeaning(pros, id, proIds, l);
    }
    forall l | l in newCons
      ensures l.0 in reviews.Keys
    {
      ReplacedLinksMeaning(cons, id, conIds, l);
    }
  }

  /** `delete` keeps the tables consistent: with the review's links and
      images gone, nothing points at the removed review. */
  lemma DeleteConsistent(reviews: map<int, StoredReview>, nextReviewId: int, pros: seq<(int, int)>,
                         cons: seq<(int, int)>, images: seq<ReviewImage>, id: int)
    requires Consistent(reviews, nextReviewId, pros, cons, images)
    ensures Consistent(reviews - {id}, nextReviewId, Unlinked(pros, id), Unlinked(cons, id), ImagesOutside(images, id))
  {
    DeleteStepsConsistent(reviews, nextReviewId, pros, cons, images, id);
  }

  /** Each of the four statements of `delete` leaves the tables consistent:
      the links and images go before the review they point at. */
  lemma DeleteStepsConsistent(reviews: map<int, StoredReview>, nextReviewId: int, pros: seq<(int, int)>,
                              cons: seq<(int, int)>, images: seq<ReviewImage>, id: int)
    requires Consistent(reviews, nextReviewId, pros, cons, images)
    ensures Consistent(reviews, nextReviewId, Unlinked(pros, id), cons, images)
    ensures Consistent(reviews, nextReviewId, Unlinked(pros, id), Unlinked(cons, id), images)
    ensures Consistent(reviews, nextReviewId, Unlinked(pros, id), Unlinked(cons, id), ImagesOutside(images, id))
    ensures Consistent(reviews - {id}, nextReviewId, Unlinked(pros, id), Unlinked(cons, id), ImagesOutside(images, id))
  {
    var keys := (reviews - {id}).Keys;
    LinksReferMeaning(pros, reviews.Keys);
    LinksReferMeaning(cons, reviews.Keys);
    ImagesReferMeaning(images, reviews.Keys);
    LinksReferMeaning(Unlinked(pros, id), reviews.Keys);
    LinksReferMeaning(Unlinked(cons, id), reviews.Keys);
    ImagesReferMeaning(ImagesOutside(images, id), reviews.Keys);
    LinksReferMeaning(Unlinked(pros, id), keys);
    LinksReferMeaning(Unlinked(cons, id), keys);
    ImagesReferMeaning(ImagesOutside(images, id), keys);
  }

  /** Why the order matters: deleting the review while one of its links
      remains leaves a row pointing at nothing. */
  lemma ParentFirstBreaks(reviews: map<int, StoredReview>, nextReviewId: int, pros: seq<(int, int)>,
                          cons: seq<(int, int)>, images: seq<ReviewImage>, id: int, l: (int, int))
    requires l in pros && l.0 == id
    ensures !Consistent(reviews - {id}, nextReviewId, pros, cons, images)
  {
    LinksReferMeaning(pros, (reviews - {id}).Keys);
  }

  /** An image row for an existing review keeps the tables consistent. */
  lemma AddImageConsistent(reviews: map<int, StoredReview>, nextReviewId: int, pros: seq<(int, int)>,
                           cons: seq<(int, int)>, images: seq<ReviewImage>, image: ReviewImage)
    requires Consistent(reviews, nextReviewId, pros, cons, images)
    requires image.reviewId in reviews
    ensures Consistent(reviews, nextReviewId, pros, cons, images + [image])
  {
    assert (images + [image])[..|images|] == images;
  }

  /** Removing image rows keeps the tables consistent. */
  lemma FewerImagesConsistent(reviews: map<int, StoredReview>, nextReviewId: int, pros: seq<(int, int)>,
                              cons: seq<(int, int)>, images: seq<ReviewImage>, kept: seq<ReviewImage>)
    requires Consistent(reviews, nextReviewId, pros, cons, images)
    requires forall im | im in kept :: im in images
    ensures Consistent(reviews, nextReviewId, pros, cons, kept)
  {
    ImagesReferMeaning(images, reviews.Keys);
    ImagesReferMeaning(kept, reviews.Keys);
  }

  // ---------------------------------------------------------------------------
  // Read results

  /** `findById`: the review with its author's name, its accommodation's name
      and the three aggregates. */
  datatype ReviewDetail = ReviewDetail(
    review: StoredReview,
    userName: string,
    accommodationName: string,
    pros: Option<seq<int>>,
    cons: Option<seq<int>>,
    images: Option<seq<ReviewImage>>)

  /** A row of `findByUserId`. */
  datatype UserReview = UserReview(
    review: StoredReview,
    accommodationName: string,
    pros: Option<seq<int>>,
    cons: Option<seq<int>>,
    images: Option<seq<ReviewImage>>)

  datatype UserReviewPage = UserReviewPage(data: seq<UserReview>, total: nat)

  // ---------------------------------------------------------------------------
  // The tables

  /** `reviews` keyed by its primary key, the two link tables and
      `review_images`; user and accommodation names are read-only here. */
  class ReviewDatabase {
    var reviews: map<int, StoredReview>
    var pros: seq<(int, int)>     // review_pros (review_id, pro_id)
    var cons: seq<(int, int)>     // review_cons (review_id, con_id)
    var images: seq<ReviewImage>  // review_images
    var userNames: map<int, string>
    var accommodationNames: map<int, string>
    var nextReviewId: int         // the `reviews.id` sequence
    var nextImageId: int          // the `review_images.id` sequence

    ghost predicate Valid()
      reads this
    {
      Consistent(reviews, nextReviewId, pros, cons, images)
    }

    constructor (userNames: map<int, string>, accommodationNames: map<int, string>)
      ensures Valid()
      ensures reviews == map[] && pros == [] && cons == [] && images == []
      ensures this.userNames == userNames && this.accommodationNames == accommodationNames
    {
      reviews := map[];
      pros := [];
      cons := [];
      images := [];
      this.userNames := userNames;
      this.accommodationNames := accommodationNames;
      nextReviewId := 1;
      nextImageId := 1;
    }

    /** `create`: insert the review under a fresh id, then one link per
        listed pro and con paired with that id; all in one transaction. */
    method Create(data: NewReview, now: int) returns (review: StoredReview)
      requires Valid()
      modifies this
      ensures Valid()
      ensures review == StoredReview(old(nextReviewId), data.userId, data.accommodationId, data.roomType,
        data.childAgeMonths, data.totalPeople, data.rating, data.content, now, now)
      ensures review.id !in old(reviews)
      ensures reviews == old(reviews)[review.id := review]
      ensures pros == old(pros) + Links(review.id, data.pros.GetOr([]))
      ensures cons == old(cons) + Links(review.id, data.cons.GetOr([]))
      ensures nextReviewId == old(nextReviewId) + 1
      ensures images == old(images) && nextImageId == old(nextImageId)
      ensures userNames == old(userNames) && accommodationNames == old(accommodationNames)
    {
      review := StoredReview(nextReviewId, data.userId, data.accommodationId, data.roomType,
        data.childAgeMonths, data.totalPeople, data.rating, data.content, now, now);
      CreateConsistent(reviews, nextReviewId, pros, cons, images, review, data.pros.GetOr([]), data.cons.GetOr([]));
      reviews := reviews[review.id := review];
      nextReviewId := nextReviewId + 1;
      pros := InsertedLinks(pros, review.id, data.pros);
      cons := InsertedLinks(cons, review.id, data.cons);
    }

    /** `update`: run the built statement; when it matches no row, roll back
        and answer null; otherwise replace each defined link list. */
    method Update(id: int, data: ReviewChanges, now: int) returns (r: Option<StoredReview>)
      requires Valid()
      modifies this
      ensures Valid()
      ensures r.None? <==> id !in old(reviews)
      ensures r.None? ==> unchanged(this)
      ensures r.Some? ==> r.value == Applied(old(reviews)[id], data, now)
      ensures r.Some? ==> reviews == old(reviews)[id := r.value]
      ensures r.Some? ==> pros == ReplacedLinks(old(pros), id, data.pros)
      ensures r.Some? ==> cons == ReplacedLinks(old(cons), id, data.cons)
      ensures images == old(images) && nextReviewId == old(nextReviewId) && nextImageId == old(nextImageId)
      ensures userNames == old(userNames) && accommodationNames == old(accommodationNames)
    {
      if id !in reviews {
        return None;
      }
      var updated := RunUpdate(reviews[id], data, now);
      UpdateConsistent(reviews, nextReviewId, pros, cons, images, id, updated, data.pros, data.cons);
      reviews := reviews[id := updated];
      r := Some(updated);
      pros := ReplacedLinks(pros, id, data.pros);
      cons := ReplacedLinks(cons, id, data.cons);
    }

    /** `delete`: the review's pros, cons and images, then the review itself;
        true iff a review row went. */
    method Delete(id: int) returns (deleted: bool)
      requires Valid()
      modifies this
      ensures Valid()
      ensures deleted <==> id in old(reviews)
      ensures reviews == old(reviews) - {id}
      ensures pros == Unlinked(old(pros), id) && cons == Unlinked(old(cons), id)
      ensures images == ImagesOutside(old(images), id)
      ensures nextReviewId == old(nextReviewId) && nextImageId == old(nextImageId)
      ensures userNames == old(userNames) && accommodationNames == old(accommodationNames)
    {
      var kept := reviews - {id};
      DeleteConsistent(reviews, nextReviewId, pros, cons, images, id);
      deleted := id in reviews;
      // the four statements commit together
      pros, cons, images, reviews := Unlinked(pros, id), Unlinked(cons, id), ImagesOutside(images, id), kept;
    }

    /** `checkOwnership`: a review with that id has that author. It is one
        of the user's reviews, and of nobody else's. */
    function CheckOwnership(reviewId: int, userId: int): (owned: bool)
      reads this
      ensures owned <==> reviewId in ReviewsOf(userId)
      ensures owned ==> forall other | other != userId :: reviewId !in ReviewsOf(other)
    {
      reviewId in reviews && reviews[reviewId].userId == userId
    }

    /** `getImagesByReviewId`: the review's images by `sort_order`. */
    function ImagesByReview(reviewId: int): seq<ReviewImage>
      reads this
    {
      ImagesOfReview(images, reviewId)
    }

    /** `addImage`: a new `review_images` row; the foreign key refuses an
        image for a review that does not exist (None). */
    method AddImage(reviewId: int, imageUrl: string, sortOrder: int) returns (image: Option<ReviewImage>)
      requires Valid()
      modifies this
      ensures Valid()
      ensures image.None? <==> reviewId !in reviews
      ensures image.None? ==> unchanged(this)
      ensures image.Some? ==> image.value == ReviewImage(old(nextImageId), reviewId, imageUrl, sortOrder)
      ensures image.Some? ==> images == old(images) + [image.value] && nextImageId == old(nextImageId) + 1
      ensures reviews == old(reviews) && pros == old(pros) && cons == old(cons)
      ensures nextReviewId == old(nextReviewId) && userNames == old(userNames) && accommodationNames == old(accommodationNames)
    {
      if reviewId !in reviews {
        return None;
      }
      var row := ReviewImage(nextImageId, reviewId, imageUrl, sortOrder);
      AddImageConsistent(reviews, nextReviewId, pros, cons, images, row);
      images := images + [row];
      nextImageId := nextImageId + 1;
      image := Some(row);
    }

    /** `deleteImage`: removes the image with that id, whichever review it
        belongs to; true iff a row went. */
    method DeleteImage(imageId: int) returns (deleted: bool)
      requires Valid()
      modifies this
      ensures Valid()
      ensures deleted <==> exists im | im in old(images) :: im.id == imageId
      ensures images == ImagesExcept(old(images), imageId)
      ensures reviews == old(reviews) && pros == old(pros) && cons == old(cons) && nextReviewId == old(nextReviewId)
      ensures nextImageId == old(nextImageId) && userNames == old(userNames) && accommodationNames == old(accommodationNames)
    {
      var remaining := ImagesExcept(images, imageId);
      ImagesExceptDrops(images, imageId);
      FewerImagesConsistent(reviews, nextReviewId, pros, cons, images, remaining);
      deleted := |remaining| < |images|;
      images := remaining;
    }

    /** The image delete as intended: only an image of that review. */
    method DeleteImageOfReview(reviewId: int, imageId: int) returns (deleted: bool)
      requires Valid()
      modifies this
      ensures Valid()
      ensures deleted <==> exists im | im in old(images) :: im.id == imageId && im.reviewId == reviewId
      ensures images == ImagesExceptOfReview(old(images), reviewId, imageId)
      ensures reviews == old(reviews) && pros == old(pros) && cons == old(cons) && nextReviewId == old(nextReviewId)
      ensures nextImageId == old(nextImageId) && userNames == old(userNames) && accommodationNames == old(accommodationNames)
    {
      var remaining := ImagesExceptOfReview(images, reviewId, imageId);
      ImagesExceptOfReviewDrops(images, reviewId, imageId);
      FewerImagesConsistent(reviews, nextReviewId, pros, cons, images, remaining);
      deleted := |remaining| < |images|;
      images := remaining;
    }

    /** `findById`: the review joined with its author and accommodation (an
        inner join: a missing user or accommodation hides it), with the
        images subquery ordered inside the aggregate (`Executed` says what
        the statement as written does). */
    function FindById(id: int): (r: Option<ReviewDetail>)
      reads this
      ensures r.None? <==> (id !in reviews
        || reviews[id].userId !in userNames || reviews[id].accommodationId !in accommodationNames)
      ensures r.Some? ==> r.value.review == reviews[id]
      ensures r.Some? ==>
        && r.value.userName == userNames[reviews[id].userId]
        && r.value.accommodationName == accommodationNames[reviews[id].accommodationId]
      ensures r.Some? ==> (r.value.pros.None? <==> LinkedIds(pros, id) == [])
      ensures r.Some? ==> (r.value.cons.None? <==> LinkedIds(cons, id) == [])
      ensures r.Some? ==> (r.value.images.None? <==> ImagesOfReview(images, id) == [])
      ensures r.Some? && r.value.pros.Some? ==> forall x :: x in r.value.pros.value <==> (id, x) in pros
      ensures r.Some? && r.value.cons.Some? ==> forall x :: x in r.value.cons.value <==> (id, x) in cons
      ensures r.Some? && r.value.images.Some? ==>
        && (forall im :: im in r.value.images.value <==> im in images && im.reviewId == id)
        && (forall i, j | 0 <= i < j < |r.value.images.value| ::
              r.value.images.value[i].sortOrder <= r.value.images.value[j].sortOrder)
    {
      if id !in reviews || reviews[id].userId !in userNames || reviews[id].accommodationId !in accommodationNames then None
      else
        LinkedIdsMeaning(pros, id);
        LinkedIdsMeaning(cons, id);
        ImagesOfReviewMeaning(images, id);
        var row := reviews[id];
        Some(ReviewDetail(row, userNames[row.userId], accommodationNames[row.accommodationId],
          Aggregate(LinkedIds(pros, id)), Aggregate(LinkedIds(cons, id)), Aggregate(ImagesOfReview(images, id))))
    }

    /** The ids of the user's reviews (`WHERE user_id = $1`). */
    function ReviewsOf(userId: int): set<int>
      reads this
    {
      set id | id in reviews && reviews[id].userId == userId
    }

    /** A listing the database may return for `findByUserId` before paging:
        each of the user's reviews that joins an accommodation, once,
        newest first (ties in either order). */
    ghost predicate NewestFirstListing(userId: int, ordered: seq<StoredReview>)
      reads this
    {
      && (forall i, j | 0 <= i < j < |ordered| :: ordered[i].id != ordered[j].id)
      && (forall i | 0 <= i < |ordered| ::
            && ordered[i].id in reviews && reviews[ordered[i].id] == ordered[i]
            && ordered[i].userId == userId && ordered[i].accommodationId in accommodationNames)
      && (forall id | id in reviews && reviews[id].userId == userId && reviews[id].accommodationId in accommodationNames ::
            reviews[id] in ordered)
      && (forall i, j | 0 <= i < j < |ordered| :: ordered[i].createdAt >= ordered[j].createdAt)
    }

    function EntryOf(r: StoredReview): UserReview
      reads this
      requires r.accommodationId in accommodationNames
    {
      UserReview(r, accommodationNames[r.accommodationId],
        Aggregate(LinkedIds(pros, r.id)), Aggregate(LinkedIds(cons, r.id)), Aggregate(ImagesOfReview(images, r.id)))
    }

    function Entries(rows: seq<StoredReview>): (r: seq<UserReview>)
      reads this
      requires forall i | 0 <= i < |rows| :: rows[i].accommodationId in accommodationNames
      ensures |r| == |rows|
      ensures forall i | 0 <= i < |rows| :: r[i] == EntryOf(rows[i])
    {
      if rows == [] then [] else [EntryOf(rows[0])] + Entries(rows[1..])
    }

    /** `findByUserId`: the count of all the user's reviews, and the page at
        offset `(page - 1) * limit` of the newest-first listing; None when
        PostgreSQL rejects the LIMIT or OFFSET. The images subquery is the
        one ordered inside the aggregate, as in `findById`. */
    function FindByUserId(userId: int, page: int, limit: int, ordered: seq<StoredReview>): (r: Option<UserReviewPage>)
      reads this
      requires NewestFirstListing(userId, ordered)
      ensures r.None? <==> (page - 1) * limit < 0 || limit < 0
      ensures r.Some? ==> r.value.total == |ReviewsOf(userId)|
      ensures r.Some? ==> |r.value.data| <= limit
      ensures r.Some? && (page - 1) * limit < |ordered| ==>
        |r.value.data| == if (page - 1) * limit + limit <= |ordered| then limit else |ordered| - (page - 1) * limit
      ensures r.Some? ==> forall i | 0 <= i < |r.value.data| ::
        && 0 <= (page - 1) * limit + i < |ordered|
        && r.value.data[i] == EntryOf(ordered[(page - 1) * limit + i])
      ensures r.Some? ==> forall e | e in r.value.data ::
        e.review.id in reviews && reviews[e.review.id] == e.review && e.review.userId == userId
      ensures r.Some? ==> forall i, j | 0 <= i < j < |r.value.data| ::
        r.value.data[i].review.createdAt >= r.value.data[j].review.createdAt
    {
      UserPage(userId, (page - 1) * limit, limit, ordered)
    }

    /** The statement of `findByUserId` once the offset is computed: `LIMIT
        limit OFFSET offset` over the listing, with the user's total. */
    function UserPage(userId: int, offset: int, limit: int, ordered: seq<StoredReview>): (r: Option<UserReviewPage>)
      reads this
      requires NewestFirstListing(userId, ordered)
      ensures r.None? <==> offset < 0 || limit < 0
      ensures r.Some? ==> r.value.total == |ReviewsOf(userId)|
      ensures r.Some? ==> |r.value.data| <= limit
      ensures r.Some? && offset < |ordered| ==>
        |r.value.data| == if offset + limit <= |ordered| then limit else |ordered| - offset
      ensures r.Some? ==> forall i | 0 <= i < |r.value.data| ::
        0 <= offset + i < |ordered| && r.value.data[i] == EntryOf(ordered[offset + i])
      ensures r.Some? ==> forall e | e in r.value.data ::
        e.review.id in reviews && reviews[e.review.id] == e.review && e.review.userId == userId
      ensures r.Some? ==> forall i, j | 0 <= i < j < |r.value.data| ::
        r.value.data[i].review.createdAt >= r.value.data[j].review.createdAt
    {
      var rows := PageOfRows(ordered, offset, limit);
      if rows.None? then None
      else
        var data := Entries(rows.value);
        PageOfListing(reviews, userId, ordered, offset, data);
        Some(UserReviewPage(data, |ReviewsOf(userId)|))
    }
  }

  /** A run of consecutive rows of a newest-first listing of the user's
      reviews is itself made of the user's reviews, newest first. */
  lemma PageOfListing(reviews: map<int, StoredReview>, userId: int, ordered: seq<StoredReview>, offset: int,
                      page: seq<UserReview>)
    requires forall i | 0 <= i < |ordered| ::
      ordered[i].id in reviews && reviews[ordered[i].id] == ordered[i] && ordered[i].userId == userId
    requires forall i, j | 0 <= i < j < |ordered| :: ordered[i].createdAt >= ordered[j].createdAt
    requires forall i | 0 <= i < |page| :: 0 <= offset + i < |ordered| && page[i].review == ordered[offset + i]
    ensures forall e | e in page :: e.review.id in reviews && reviews[e.review.id] == e.review && e.review.userId == userId
    ensures forall i, j | 0 <= i < j < |page| :: page[i].review.createdAt >= page[j].review.createdAt
  {
    forall e | e in page
      ensures e.review.id in reviews && reviews[e.review.id] == e.review && e.review.userId == userId
    {
      var i :| 0 <= i < |page| && page[i] == e;
      assert e.review == ordered[offset + i];
    }
    forall i, j | 0 <= i < j < |page|
      ensures page[i].review.createdAt >= page[j].review.createdAt
    {
      assert page[i].review == ordered[offset + i] && page[j].review == ordered[offset + j];
    }
  }

  /** Every image `getImagesByReviewId` returns belongs to that review, all
      of them come back, and in `sort_order`. */
  lemma ImagesByReviewMeaning(db: ReviewDatabase, reviewId: int, im: ReviewImage)
    ensures im in db.ImagesByReview(reviewId) <==> im in db.images && im.reviewId == reviewId
    ensures var r := db.ImagesByReview(reviewId);
      forall i, j | 0 <= i < j < |r| :: r[i].sortOrder <= r[j].sortOrder
  {
    ImagesOfReviewMembers(db.images, reviewId, im);
  }

  /** The same, for every image at once. */
  lemma ImagesOfReviewMeaning(images: seq<ReviewImage>, reviewId: int)
    ensures forall im :: im in ImagesOfReview(images, reviewId) <==> im in images && im.reviewId == reviewId
  {
    forall im
      ensures im in ImagesOfReview(images, reviewId) <==> im in images && im.reviewId == reviewId
    {
      ImagesOfReviewMembers(images, reviewId, im);
    }
  }

  lemma ImagesOfReviewMembers(images: seq<ReviewImage>, reviewId: int, im: ReviewImage)
    ensures im in ImagesOfReview(images, reviewId) <==> im in images && im.reviewId == reviewId
  {
    SortByMembers(Select(images, (im: ReviewImage) => im.reviewId == reviewId), (im: ReviewImage) => (im.sortOrder, 0), im);
  }

  /** The corrected image delete never touches another review's images. */
  lemma DeleteImageOfReviewKeepsOthers(images: seq<ReviewImage>, reviewId: int, imageId: int, im: ReviewImage)
    requires im in images && im.reviewId != reviewId
    ensures im in ImagesExceptOfReview(images, reviewId, imageId)
  {
  }

  /** As written, the image delete removes an image of another review: the
      owner of review 1 asking to delete image 7 of review 2 removes it. */
  lemma DeleteImageRemovesForeignImage()
    ensures var images := [ReviewImage(7, 2, "/uploads/reviews/b.jpg", 1)];
      && images[0].reviewId != 1
      && ImagesExcept(images, 7) == []
      && ImagesExceptOfReview(images, 1, 7) == images
  {
    var images := [ReviewImage(7, 2, "/uploads/reviews/b.jpg", 1)];
    assert images[..0] == [];
  }
}
