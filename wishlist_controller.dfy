/** The wishlist endpoints: every one answers 401 without a signed-in user
    and touches nothing; adding checks for the pair first, removing reports
    a missing pair as 404, and checking reports membership. */
module WishlistController {
  import opened Common
  import opened QueryParams
  import Search
  import AccommodationController
  import opened WishlistStore

  /** An element of the `getWishlists` response. */
  datatype WishlistItem = WishlistItem(id: int, accommodationId: int, accommodation: AccommodationController.Summary, createdAt: int)

  /** The `{ id, accommodationId, createdAt }` of a new entry. */
  datatype AddedEntry = AddedEntry(id: int, accommodationId: int, createdAt: int)

  /** The shaping of one listing row: the accommodation's rating, count and
      lowest price go through the same coercions as the search results. */
  function ItemOf(l: WishlistListing): (item: WishlistItem)
    ensures item.id == l.row.id && item.accommodationId == l.row.accommodationId && item.createdAt == l.row.createdAt
    ensures l.summary.averageRating.None? ==> item.accommodation.averageRating == 0.0
    ensures l.summary.reviewCount.None? ==> item.accommodation.reviewCount == 0
    ensures item.accommodation.minPrice.None? <==> l.summary.minPrice.None? || l.summary.minPrice.value == 0
  {
    WishlistItem(l.row.id, l.row.accommodationId, AccommodationController.ToSummary(l.summary), l.row.createdAt)
  }

  function Items(ls: seq<WishlistListing>): (r: seq<WishlistItem>)
    ensures |r| == |ls|
    ensures forall i | 0 <= i < |ls| :: r[i] == ItemOf(ls[i])
  {
    if ls == [] then [] else Items(ls[..|ls| - 1]) + [ItemOf(ls[|ls| - 1])]
  }

  /** An accommodation without reviews is shown with rating 0 and count 0,
      and one without room types with no lowest price. */
  lemma ItemDefaults(db: Search.Tables, l: WishlistListing)
    requires l.summary == AccommodationController.SummaryRowOf(db, l.summary.accommodation)
    ensures Search.RatingsOf(db.reviews, l.summary.accommodation.id) == [] ==>
      ItemOf(l).accommodation.averageRating == 0.0 && ItemOf(l).accommodation.reviewCount == 0
    ensures Search.PricesOf(db.roomTypes, l.summary.accommodation.id) == [] ==> ItemOf(l).accommodation.minPrice.None?
  {
    AccommodationController.SummaryDefaults(db, l.summary.accommodation);
  }

  /** `getWishlists`. */
  method GetWishlists(table: WishlistTable, db: Search.Tables, user: Option<int>) returns (reply: Reply<seq<WishlistItem>>)
    ensures user.None? ==> reply == Reply(401, Failure("Not authenticated"))
    ensures user.Some? ==> reply == Reply(200, Json(Items(table.FindByUserId(db, user.value))))
  {
    if user.None? {
      return Reply(401, Failure("Not authenticated"));
    }
    var wishlists := table.FindByUserId(db, user.value);
    reply := Reply(200, Json(Items(wishlists)));
  }

  /** `addToWishlist`: 401, then 400 for a missing (or zero) id, then 400
      for a pair already saved; otherwise the pair is saved and 201. */
  method AddToWishlist(table: WishlistTable, user: Option<int>, accommodationId: Option<int>, now: int)
    returns (reply: Reply<AddedEntry>)
    requires table.Valid()
    modifies table
    ensures table.Valid()
    ensures user.None? ==> reply == Reply(401, Failure("Not authenticated")) && unchanged(table)
    ensures user.Some? && !TruthyInt(accommodationId) ==>
      reply == Reply(400, Failure("Accommodation ID is required")) && unchanged(table)
    ensures user.Some? && TruthyInt(accommodationId) && (user.value, accommodationId.value) in Pairs(old(table.rows)) ==>
      reply == Reply(400, Failure("Already in wishlist")) && unchanged(table)
    ensures user.Some? && TruthyInt(accommodationId) && (user.value, accommodationId.value) !in Pairs(old(table.rows)) ==>
      && reply == Reply(201, Json(AddedEntry(old(table.nextId), accommodationId.value, now)))
      && table.rows == old(table.rows) + [WishlistRow(old(table.nextId), user.value, accommodationId.value, now)]
      && Pairs(table.rows) == Pairs(old(table.rows)) + {(user.value, accommodationId.value)}
  {
    if user.None? {
      return Reply(401, Failure("Not authenticated"));
    }
    if !TruthyInt(accommodationId) {
      return Reply(400, Failure("Accommodation ID is required"));
    }
    var existing := table.FindByUserAndAccommodation(user.value, accommodationId.value);
    if existing.Some? {
      return Reply(400, Failure("Already in wishlist"));
    }
    var wishlist := table.Create(user.value, accommodationId.value, now);
    reply := Reply(201, Json(AddedEntry(wishlist.id, wishlist.accommodationId, wishlist.createdAt)));
  }

  /** `removeFromWishlist`: 401, then the delete; an id the model does not
      parse (NaN) makes the query fail (500). */
  method RemoveFromWishlist(table: WishlistTable, user: Option<int>, accommodationParam: string)
    returns (reply: Reply<()>)
    requires table.Valid()
    modifies table
    ensures table.Valid()
    ensures user.None? ==> reply == Reply(401, Failure("Not authenticated")) && unchanged(table)
    ensures user.Some? && ParseInt(accommodationParam).None? ==>
      reply == Reply(500, Failure("Failed to remove from wishlist")) && unchanged(table)
    ensures user.Some? && ParseInt(accommodationParam).Some? ==>
      var pair := (user.value, ParseInt(accommodationParam).value);
      && Pairs(table.rows) == Pairs(old(table.rows)) - {pair}
      && (pair !in Pairs(old(table.rows)) ==> reply == Reply(404, Failure("Wishlist not found")) && table.rows == old(table.rows))
      && (pair in Pairs(old(table.rows)) ==> reply == Reply(200, Note("Removed from wishlist")))
  {
    if user.None? {
      return Reply(401, Failure("Not authenticated"));
    }
    var accommodationId := ParseInt(accommodationParam);
    if accommodationId.None? {
      return Reply(500, Failure("Failed to remove from wishlist"));
    }
    var deleted := table.Delete(user.value, accommodationId.value);
    if !deleted {
      return Reply(404, Failure("Wishlist not found"));
    }
    reply := Reply(200, Note("Removed from wishlist"));
  }

  /** `checkWishlist`: `{ isWishlisted }` is the pair's membership. */
  method CheckWishlist(table: WishlistTable, user: Option<int>, accommodationParam: string)
    returns (reply: Reply<bool>)
    ensures user.None? ==> reply == Reply(401, Failure("Not authenticated"))
    ensures user.Some? && ParseInt(accommodationParam).None? ==> reply == Reply(500, Failure("Failed to check wishlist"))
    ensures user.Some? && ParseInt(accommodationParam).Some? ==>
      reply == Reply(200, Json((user.value, ParseInt(accommodationParam).value) in Pairs(table.rows)))
  {
    if user.None? {
      return Reply(401, Failure("Not authenticated"));
    }
    var accommodationId := ParseInt(accommodationParam);
    if accommodationId.None? {
      return Reply(500, Failure("Failed to check wishlist"));
    }
    var isWishlisted := table.IsWishlisted(user.value, accommodationId.value);
    reply := Reply(200, Json(isWishlisted));
  }

  /** Adding a pair and removing it again restores the wishlist, and the
      check sees the pair in between. */
  method AddThenRemoveRestores(table: WishlistTable, userId: int, accommodationId: int, now: int)
    returns (seen: bool)
    requires table.Valid() && accommodationId != 0
    requires (userId, accommodationId) !in Pairs(table.rows)
    modifies table
    ensures seen
    ensures Pairs(table.rows) == Pairs(old(table.rows))
  {
    var added := AddToWishlist(table, Some(userId), Some(accommodationId), now);
    var check := CheckWishlist(table, Some(userId), IntText(accommodationId));
    ParseIntText(accommodationId);
    seen := check.body.value;
    var removed := RemoveFromWishlist(table, Some(userId), IntText(accommodationId));
  }
}
