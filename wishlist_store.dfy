/** The wishlists table: a user's saved accommodations, kept as rows whose
    (user, accommodation) pairs form the wishlist, with the joined listing
    that shows each saved accommodation's rating, review count and lowest
    price, newest first. */
module WishlistStore {
  import opened Common
  import opened Ordering
  import Search
  import AccommodationDetail
  import AccommodationController

  datatype WishlistRow = WishlistRow(id: int, userId: int, accommodationId: int, createdAt: int)

  /** `user_id = $1 AND accommodation_id = $2`. */
  predicate IsPair(w: WishlistRow, userId: int, accommodationId: int)
  {
    w.userId == userId && w.accommodationId == accommodationId
  }

  /** The wishlist as a set of (user, accommodation) pairs. */
  function Pairs(rows: seq<WishlistRow>): set<(int, int)>
  {
    set w | w in rows :: (w.userId, w.accommodationId)
  }

  /** Row ids come from a sequence: each is below the next one handed out. */
  predicate RowsConsistent(rows: seq<WishlistRow>, nextId: int)
  {
    forall i | 0 <= i < |rows| :: rows[i].id < nextId
  }

  /** Removing the rows of one pair removes exactly that pair. */
  lemma PairsWithout(rows: seq<WishlistRow>, userId: int, accommodationId: int)
    ensures Pairs(Select(rows, (w: WishlistRow) => !IsPair(w, userId, accommodationId)))
         == Pairs(rows) - {(userId, accommodationId)}
  {
    var keep := (w: WishlistRow) => !IsPair(w, userId, accommodationId);
    var kept := Select(rows, keep);
    forall p | p in Pairs(rows) - {(userId, accommodationId)}
      ensures p in Pairs(kept)
    {
      var w :| w in rows && (w.userId, w.accommodationId) == p;
      assert w in kept;
    }
  }

  /** A delete by pair removes a row iff the pair was saved. */
  lemma DeleteDrops(rows: seq<WishlistRow>, userId: int, accommodationId: int)
    ensures |Select(rows, (w: WishlistRow) => !IsPair(w, userId, accommodationId))| < |rows|
            <==> (userId, accommodationId) in Pairs(rows)
  {
    SelectDrops(rows, (w: WishlistRow) => !IsPair(w, userId, accommodationId));
  }

  /** Saving a pair that was not saved and then removing it gives back the
      wishlist it started from. */
  lemma AddThenRemove(rows: seq<WishlistRow>, w: WishlistRow)
    requires (w.userId, w.accommodationId) !in Pairs(rows)
    ensures Pairs(Select(rows + [w], (x: WishlistRow) => !IsPair(x, w.userId, w.accommodationId))) == Pairs(rows)
  {
    PairsWithout(rows + [w], w.userId, w.accommodationId);
    assert Pairs(rows + [w]) == Pairs(rows) + {(w.userId, w.accommodationId)};
  }

  // ---------------------------------------------------------------------------
  // The listing of `findByUserId`

  /** One row of the listing: the wishlist row with the accommodation and
      its `COALESCE(AVG(rating), 0)`, `COUNT(DISTINCT r.id)` and
      `MIN(price_per_night)` columns. */
  datatype WishlistListing = WishlistListing(row: WishlistRow, summary: AccommodationController.SummaryRow)

  /** `INNER JOIN accommodations`: a row whose accommodation is gone is not
      listed. */
  function Joined(db: Search.Tables, rows: seq<WishlistRow>): (r: seq<WishlistListing>)
    ensures |r| <= |rows|
  {
    if rows == [] then []
    else
      var w := rows[|rows| - 1];
      var a := AccommodationDetail.FindById(db.accommodations, w.accommodationId);
      Joined(db, rows[..|rows| - 1])
        + (if a.Some? then [WishlistListing(w, AccommodationController.SummaryRowOf(db, a.value))] else [])
  }

  /** A listing row stands for one stored row whose accommodation exists,
      and every such row is listed. */
  lemma {:induction false} JoinedMembers(db: Search.Tables, rows: seq<WishlistRow>, w: WishlistRow)
    ensures (exists l | l in Joined(db, rows) :: l.row == w)
            <==> w in rows && AccommodationDetail.FindById(db.accommodations, w.accommodationId).Some?
    ensures forall l | l in Joined(db, rows) ::
      && l.row in rows
      && AccommodationDetail.FindById(db.accommodations, l.row.accommodationId) == Some(l.summary.accommodation)
      && l.summary == AccommodationController.SummaryRowOf(db, l.summary.accommodation)
  {
    if rows != [] {
      var init := rows[..|rows| - 1];
      var last := rows[|rows| - 1];
      JoinedMembers(db, init, w);
      assert rows == init + [last];
      var a := AccommodationDetail.FindById(db.accommodations, last.accommodationId);
      var tail := if a.Some? then [WishlistListing(last, AccommodationController.SummaryRowOf(db, a.value))] else [];
      assert Joined(db, rows) == Joined(db, init) + tail;
      if w in rows && AccommodationDetail.FindById(db.accommodations, w.accommodationId).Some? && w != last {
        assert w in init;
      }
    }
  }

  /** The listing's sort key: `ORDER BY w.created_at DESC`. */
  function NewestFirstKey(l: WishlistListing): (int, int)
  {
    (-l.row.createdAt, 0)
  }

  /** `findByUserId` on a snapshot of the table. */
  function ListingOf(db: Search.Tables, rows: seq<WishlistRow>, userId: int): (r: seq<WishlistListing>)
    ensures |r| <= |rows|
    ensures forall i, j | 0 <= i < j < |r| :: r[i].row.createdAt >= r[j].row.createdAt
  {
    SortBy(Joined(db, Select(rows, (w: WishlistRow) => w.userId == userId)), NewestFirstKey)
  }

  /** Every listing stands for one of the user's stored rows and carries
      its accommodation's aggregates. */
  lemma ListingRows(db: Search.Tables, rows: seq<WishlistRow>, userId: int)
    ensures forall l | l in ListingOf(db, rows, userId) ::
      && l.row in rows && l.row.userId == userId
      && l.summary == AccommodationController.SummaryRowOf(db, l.summary.accommodation)
      && l.summary.accommodation.id == l.row.accommodationId
  {
    var selected := Select(rows, (x: WishlistRow) => x.userId == userId);
    forall l | l in ListingOf(db, rows, userId)
      ensures l.row in rows && l.row.userId == userId
      ensures l.summary == AccommodationController.SummaryRowOf(db, l.summary.accommodation)
      ensures l.summary.accommodation.id == l.row.accommodationId
    {
      SortByMembers(Joined(db, selected), NewestFirstKey, l);
      JoinedMembers(db, selected, l.row);
    }
  }

  /** Only the user's rows, every one of them whose accommodation exists,
      newest first, each with its aggregates (a rating of 0 when there are
      no reviews). */
  lemma ListingMeaning(db: Search.Tables, rows: seq<WishlistRow>, userId: int, w: WishlistRow)
    ensures var r := ListingOf(db, rows, userId);
      && (forall i, j | 0 <= i < j < |r| :: r[i].row.createdAt >= r[j].row.createdAt)
      && (forall l | l in r :: l.row in rows && l.row.userId == userId
            && l.summary == AccommodationController.SummaryRowOf(db, l.summary.accommodation)
            && l.summary.accommodation.id == l.row.accommodationId)
      && ((exists l | l in r :: l.row == w)
            <==> w in rows && w.userId == userId && AccommodationDetail.FindById(db.accommodations, w.accommodationId).Some?)
  {
    var selected := Select(rows, (x: WishlistRow) => x.userId == userId);
    var joined := Joined(db, selected);
    var r := ListingOf(db, rows, userId);
    JoinedMembers(db, selected, w);
    forall l | l in r
      ensures l in joined
    {
      SortByMembers(joined, NewestFirstKey, l);
    }
    forall l | l in joined
      ensures l in r
    {
      SortByMembers(joined, NewestFirstKey, l);
    }
  }

  /** With no reviews the listed average rating is 0 and the count 0. */
  lemma ListingRatingDefault(db: Search.Tables, l: WishlistListing)
    requires l.summary == AccommodationController.SummaryRowOf(db, l.summary.accommodation)
    requires Search.RatingsOf(db.reviews, l.summary.accommodation.id) == []
    ensures l.summary.averageRating == Some(0.0) && l.summary.reviewCount == Some(0)
  {
  }

  // ---------------------------------------------------------------------------
  // The table

  class WishlistTable {
    var rows: seq<WishlistRow>
    var nextId: int

    ghost predicate Valid()
      reads this
    {
      RowsConsistent(rows, nextId)
    }

    constructor()
      ensures Valid() && rows == [] && nextId == 1
    {
      rows := [];
      nextId := 1;
    }

    /** `findByUserAndAccommodation`. */
    function FindByUserAndAccommodation(userId: int, accommodationId: int): (r: Option<WishlistRow>)
      reads this
      ensures r.Some? ==> r.value in rows && IsPair(r.value, userId, accommodationId)
      ensures r.None? <==> (userId, accommodationId) !in Pairs(rows)
    {
      First(rows, (w: WishlistRow) => IsPair(w, userId, accommodationId))
    }

    /** `isWishlisted`: some row holds the pair. */
    function IsWishlisted(userId: int, accommodationId: int): (r: bool)
      reads this
      ensures r <==> (userId, accommodationId) in Pairs(rows)
    {
      var found := Select(rows, (w: WishlistRow) => IsPair(w, userId, accommodationId));
      assert (userId, accommodationId) in Pairs(rows) ==> exists w | w in rows :: IsPair(w, userId, accommodationId);
      assert |found| > 0 ==> found[0] in found;
      |found| > 0
    }

    /** `create`: a new row with the next id, stamped now. */
    method Create(userId: int, accommodationId: int, now: int) returns (w: WishlistRow)
      requires Valid()
      modifies this
      ensures Valid()
      ensures w == WishlistRow(old(nextId), userId, accommodationId, now)
      ensures rows == old(rows) + [w] && nextId == old(nextId) + 1
      ensures Pairs(rows) == Pairs(old(rows)) + {(userId, accommodationId)}
    {
      w := WishlistRow(nextId, userId, accommodationId, now);
      rows := rows + [w];
      nextId := nextId + 1;
    }

    /** `delete`: removes the pair's rows; true iff there was one. */
    method Delete(userId: int, accommodationId: int) returns (deleted: bool)
      requires Valid()
      modifies this
      ensures Valid() && nextId == old(nextId)
      ensures deleted <==> (userId, accommodationId) in Pairs(old(rows))
      ensures Pairs(rows) == Pairs(old(rows)) - {(userId, accommodationId)}
      ensures forall w :: w in rows <==> w in old(rows) && !IsPair(w, userId, accommodationId)
      ensures !deleted ==> rows == old(rows)
    {
      var keep := (w: WishlistRow) => !IsPair(w, userId, accommodationId);
      var remaining := Select(rows, keep);
      DeleteDrops(rows, userId, accommodationId);
      PairsWithout(rows, userId, accommodationId);
      if |remaining| == |rows| {
        KeepAll(rows, userId, accommodationId);
      }
      deleted := |remaining| < |rows|;
      rows := remaining;
    }

    /** `findByUserId`: the user's saved rows whose accommodation exists,
        newest first. */
    function FindByUserId(db: Search.Tables, userId: int): (r: seq<WishlistListing>)
      reads this
      ensures forall l | l in r :: l.row in rows && l.row.userId == userId
      ensures forall i, j | 0 <= i < j < |r| :: r[i].row.createdAt >= r[j].row.createdAt
    {
      ListingRows(db, rows, userId);
      ListingOf(db, rows, userId)
    }
  }

  /** A delete that matches no row leaves the table as it was. */
  lemma KeepAll(rows: seq<WishlistRow>, userId: int, accommodationId: int)
    requires |Select(rows, (w: WishlistRow) => !IsPair(w, userId, accommodationId))| == |rows|
    ensures Select(rows, (w: WishlistRow) => !IsPair(w, userId, accommodationId)) == rows
  {
    var keep := (w: WishlistRow) => !IsPair(w, userId, accommodationId);
    SelectDrops(rows, keep);
    SelectAll(rows, keep);
  }
}
