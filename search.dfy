/** The accommodation search of `AccommodationModel.findAll`: the builder that
    classifies the optional filters into row predicates, existence joins and
    post-GROUP BY HAVING predicates while numbering `$k` placeholders in step
    with the bound values, and an evaluator over in-memory tables that says
    which accommodations a built plan admits. */
module Search {
  import opened Common

  // ---------------------------------------------------------------------------
  // Tables (the snapshot a search reads)

  datatype Accommodation = Accommodation(id: int, name: string, region: string, createdAt: int)
  datatype RoomType = RoomType(accommodationId: int, pricePerNight: int)
  datatype Review = Review(id: int, accommodationId: int, rating: real)
  datatype Amenity = Amenity(id: int, categoryId: int, ageMonthFrom: Option<int>, ageMonthTo: Option<int>)
  datatype AmenityLink = AmenityLink(accommodationId: int, amenityId: int, isAvailable: bool)

  datatype Tables = Tables(
    accommodations: seq<Accommodation>,
    roomTypes: seq<RoomType>,
    reviews: seq<Review>,
    amenities: seq<Amenity>,
    links: seq<AmenityLink>)

  /** The sparse filter object; `None` is `undefined`. The inert fields
      (check-in/out dates and guest counts) never reach the query and are not
      carried. */
  datatype SearchFilters = SearchFilters(
    region: Option<string>,
    ageMonths: Option<seq<int>>,
    amenities: Option<seq<int>>,
    minPrice: Option<int>,
    maxPrice: Option<int>,
    minRating: Option<real>,
    page: Option<int>,
    limit: Option<int>,
    sortBy: Option<string>,
    sortOrder: Option<string>)

  // ---------------------------------------------------------------------------
  // The plan

  /** The extra INNER JOINs: `accommodation_amenities aa`, and
      `accommodation_amenities aa2` joined with `amenities am`. */
  datatype Join = AmenityLinks | AgeAmenities

  /** WHERE conditions; `slot` is the k of `$k`. */
  datatype Cond =
    | RegionIs(slot: nat)          // a.region = $k
    | AmenityAnyOf(slot: nat)      // aa.amenity_id = ANY($k)
    | LinkAvailable                // aa.is_available = true
    | AgeFromAtMost(slot: nat)     // am.age_month_from IS NULL OR am.age_month_from <= $k
    | AgeToAtLeast(slot: nat)      // am.age_month_to IS NULL OR am.age_month_to >= $k
    | AgeLinkAvailable             // aa2.is_available = true

  /** HAVING conditions on the per-accommodation aggregates. */
  datatype HavingCond =
    | MinPriceAtLeast(slot: nat)   // MIN(rt.price_per_night) >= $k
    | MinPriceAtMost(slot: nat)    // MIN(rt.price_per_night) <= $k
    | RatingAtLeast(slot: nat)     // COALESCE(AVG(r.rating), 0) >= $k

  datatype SortColumn = CreatedAt | Name | AverageRating | MinPrice
  datatype Direction = Asc | Desc

  datatype Plan = Plan(
    joins: seq<Join>,
    conditions: seq<Cond>,
    having: seq<HavingCond>,
    values: seq<SqlValue>,
    sortColumn: SortColumn,
    direction: Direction,
    limitSlot: nat,
    offsetSlot: nat)

  predicate OnAccommodation(c: Cond) { c.RegionIs? }
  predicate OnLink(c: Cond) { c.AmenityAnyOf? || c.LinkAvailable? }
  predicate OnAgeAmenity(c: Cond) { c.AgeFromAtMost? || c.AgeToAtLeast? || c.AgeLinkAvailable? }

  /** The placeholder a single condition emits, if any. */
  function SlotsOf(c: Cond): seq<nat>
  {
    match c
    case RegionIs(k) => [k]
    case AmenityAnyOf(k) => [k]
    case AgeFromAtMost(k) => [k]
    case AgeToAtLeast(k) => [k]
    case _ => []
  }

  /** The placeholder numbers a condition list emits, in order. */
  function CondSlots(cs: seq<Cond>): seq<nat>
  {
    if cs == [] then [] else CondSlots(cs[..|cs| - 1]) + SlotsOf(cs[|cs| - 1])
  }

  function HavingSlots(hs: seq<HavingCond>): seq<nat>
  {
    if hs == [] then [] else HavingSlots(hs[..|hs| - 1]) + [hs[|hs| - 1].slot]
  }

  /** Every `$k` of the final statement, in the order the text emits them:
      WHERE, then HAVING, then LIMIT and OFFSET. */
  function Placeholders(p: Plan): seq<nat>
  {
    CondSlots(p.conditions) + HavingSlots(p.having) + [p.limitSlot, p.offsetSlot]
  }

  /** A condition never mentions an alias whose join is absent. */
  predicate Scoped(p: Plan)
  {
    && (forall c | c in p.conditions :: OnLink(c) ==> AmenityLinks in p.joins)
    && (forall c | c in p.conditions :: OnAgeAmenity(c) ==> AgeAmenities in p.joins)
  }

  // ---------------------------------------------------------------------------
  // Filter normalisation (destructuring defaults) and the sort allow-list

  const DefaultPage := 1
  const DefaultLimit := 12

  function PageOf(f: SearchFilters): int { f.page.GetOr(DefaultPage) }
  function LimitOf(f: SearchFilters): int { f.limit.GetOr(DefaultLimit) }

  /** `(page - 1) * limit`, with page and limit defaulted. */
  function OffsetOf(f: SearchFilters): int { (PageOf(f) - 1) * LimitOf(f) }

  /** `validSortColumns.includes(sortBy) ? sortBy : 'created_at'`. */
  function ResolveSortColumn(sortBy: Option<string>): (c: SortColumn)
    ensures sortBy == Some("name") <==> c == Name
    ensures sortBy == Some("average_rating") <==> c == AverageRating
    ensures sortBy == Some("min_price") <==> c == MinPrice
    ensures c == CreatedAt <==> sortBy !in {Some("name"), Some("average_rating"), Some("min_price")}
  {
    match sortBy.GetOr("created_at")
    case "name" => Name
    case "average_rating" => AverageRating
    case "min_price" => MinPrice
    case _ => CreatedAt
  }

  /** `sortOrder === 'asc' ? 'ASC' : 'DESC'` with `sortOrder` defaulting to 'desc'. */
  function ResolveDirection(sortOrder: Option<string>): (d: Direction)
    ensures d == Asc <==> sortOrder == Some("asc")
  {
    if sortOrder.GetOr("desc") == "asc" then Asc else Desc
  }

  // ---------------------------------------------------------------------------
  // Aggregates per accommodation (LEFT JOIN reviews, LEFT JOIN room_types)

  function PricesOf(rts: seq<RoomType>, id: int): seq<int>
  {
    if rts == [] then []
    else
      var rt := rts[|rts| - 1];
      PricesOf(rts[..|rts| - 1], id) + (if rt.accommodationId == id then [rt.pricePerNight] else [])
  }

  function RatingsOf(rs: seq<Review>, id: int): seq<real>
  {
    if rs == [] then []
    else
      var r := rs[|rs| - 1];
      RatingsOf(rs[..|rs| - 1], id) + (if r.accommodationId == id then [r.rating] else [])
  }

  /** MIN over a list; NULL (None) for no rows. */
  function Minimum(xs: seq<int>): (m: Option<int>)
    ensures m.None? <==> xs == []
    ensures m.Some? ==> m.value in xs && forall x | x in xs :: m.value <= x
  {
    if xs == [] then None
    else
      var m := Minimum(xs[1..]);
      assert xs == [xs[0]] + xs[1..];
      if m.Some? && m.value < xs[0] then m else Some(xs[0])
  }

  function Sum(xs: seq<real>): real
  {
    if xs == [] then 0.0 else Sum(xs[..|xs| - 1]) + xs[|xs| - 1]
  }

  /** COALESCE(AVG(rating), 0). */
  function AverageOrZero(xs: seq<real>): real
  {
    if xs == [] then 0.0 else Sum(xs) / (|xs| as real)
  }

  function MinPriceOf(db: Tables, a: Accommodation): Option<int>
  {
    Minimum(PricesOf(db.roomTypes, a.id))
  }

  function AverageRatingOf(db: Tables, a: Accommodation): real
  {
    AverageOrZero(RatingsOf(db.reviews, a.id))
  }

  // ---------------------------------------------------------------------------
  // ORDER BY ${sortColumn} ${order}

  /** The text order of `name`, character by character, a proper prefix
      first. */
  predicate TextAtMost(s: string, t: string)
  {
    s == [] || (t != [] && (s[0] < t[0] || (s[0] == t[0] && TextAtMost(s[1..], t[1..]))))
  }

  /** PostgreSQL places NULL above every value: a NULL `min_price` sorts
      last ascending and first descending. */
  predicate NullableAtMost(x: Option<int>, y: Option<int>)
  {
    y.None? || (x.Some? && x.value <= y.value)
  }

  /** `a` sorts no later than `b` in ascending order of the column. */
  predicate ColumnAtMost(db: Tables, c: SortColumn, a: Accommodation, b: Accommodation)
  {
    match c
    case CreatedAt => a.createdAt <= b.createdAt
    case Name => TextAtMost(a.name, b.name)
    case AverageRating => AverageRatingOf(db, a) <= AverageRatingOf(db, b)
    case MinPrice => NullableAtMost(MinPriceOf(db, a), MinPriceOf(db, b))
  }

  /** `a` may come before `b` under `ORDER BY c d`. */
  predicate MayPrecede(db: Tables, c: SortColumn, d: Direction, a: Accommodation, b: Accommodation)
  {
    if d == Asc then ColumnAtMost(db, c, a, b) else ColumnAtMost(db, c, b, a)
  }

  /** Rows in `ORDER BY c d` order; rows with equal keys may come in either
      order. */
  predicate SortedBy(db: Tables, c: SortColumn, d: Direction, rows: seq<Accommodation>)
  {
    forall i, j {:trigger MayPrecede(db, c, d, rows[i], rows[j])} | 0 <= i < j < |rows| ::
      MayPrecede(db, c, d, rows[i], rows[j])
  }

  lemma {:induction false} TextOrderTotal(s: string, t: string)
    ensures TextAtMost(s, t) || TextAtMost(t, s)
    ensures TextAtMost(s, t) && TextAtMost(t, s) ==> s == t
  {
    if s != [] && t != [] && s[0] == t[0] {
      TextOrderTotal(s[1..], t[1..]);
      assert s == [s[0]] + s[1..] && t == [t[0]] + t[1..];
    }
  }

  lemma {:induction false} TextOrderTransitive(s: string, t: string, u: string)
    requires TextAtMost(s, t) && TextAtMost(t, u)
    ensures TextAtMost(s, u)
  {
    if s != [] && s[0] == t[0] && t[0] == u[0] {
      TextOrderTransitive(s[1..], t[1..], u[1..]);
    }
  }

  /** Every column orders any two accommodations one way or the other, and
      the order is transitive: a sorted listing of any rows exists, and the
      only freedom left is among equal keys. */
  lemma ColumnOrderTotal(db: Tables, c: SortColumn, a: Accommodation, b: Accommodation, e: Accommodation)
    ensures ColumnAtMost(db, c, a, b) || ColumnAtMost(db, c, b, a)
    ensures ColumnAtMost(db, c, a, b) && ColumnAtMost(db, c, b, e) ==> ColumnAtMost(db, c, a, e)
  {
    if c == Name {
      TextOrderTotal(a.name, b.name);
      if TextAtMost(a.name, b.name) && TextAtMost(b.name, e.name) {
        TextOrderTransitive(a.name, b.name, e.name);
      }
    }
  }

  /** By `min_price`, the accommodations without room types come after all
      the others ascending and before all the others descending. */
  lemma NullPricePlacement(db: Tables, d: Direction, rows: seq<Accommodation>, i: int, j: int)
    requires SortedBy(db, MinPrice, d, rows)
    requires 0 <= i < j < |rows|
    ensures d == Asc && MinPriceOf(db, rows[i]).None? ==> MinPriceOf(db, rows[j]).None?
    ensures d == Desc && MinPriceOf(db, rows[j]).None? ==> MinPriceOf(db, rows[i]).None?
  {
    assert MayPrecede(db, MinPrice, d, rows[i], rows[j]);
  }

  /** The rows a page taken at `offset` of a sorted listing covers are in
      order. */
  lemma SortedWindow(db: Tables, c: SortColumn, d: Direction, rows: seq<Accommodation>, page: seq<Accommodation>, offset: int)
    requires SortedBy(db, c, d, rows)
    requires forall i | 0 <= i < |page| :: 0 <= offset + i < |rows| && page[i] == rows[offset + i]
    ensures |page| > 0 ==> 0 <= offset && offset + |page| <= |rows| && SortedBy(db, c, d, rows[offset..offset + |page|])
  {
    if |page| > 0 {
      var first, last := page[0], page[|page| - 1];
      assert first == rows[offset + 0] && last == rows[offset + (|page| - 1)];
      var window := rows[offset..offset + |page|];
      forall i, j | 0 <= i < j < |window|
        ensures MayPrecede(db, c, d, window[i], window[j])
      {
        assert window[i] == rows[offset + i] && window[j] == rows[offset + j];
      }
    }
  }

  /** A run of consecutive rows of a sorted listing is sorted. */
  lemma SortedSlice(db: Tables, c: SortColumn, d: Direction, rows: seq<Accommodation>, page: seq<Accommodation>, offset: int)
    requires SortedBy(db, c, d, rows)
    requires forall i | 0 <= i < |page| :: 0 <= offset + i < |rows| && page[i] == rows[offset + i]
    ensures SortedBy(db, c, d, page)
  {
    forall i, j | 0 <= i < j < |page|
      ensures MayPrecede(db, c, d, page[i], page[j])
    {
      var x, y := page[i], page[j];
      assert x == rows[offset + i] && y == rows[offset + j];
      assert MayPrecede(db, c, d, rows[offset + i], rows[offset + j]);
    }
  }

  // ---------------------------------------------------------------------------
  // Evaluator: which accommodations a plan admits

  /** The value bound to `$k`, if there is one. */
  function Bound(values: seq<SqlValue>, k: nat): Option<SqlValue>
  {
    if 1 <= k <= |values| then Some(values[k - 1]) else None
  }

  predicate RowCondHolds(c: Cond, values: seq<SqlValue>, a: Accommodation)
  {
    match c
    case RegionIs(k) => Bound(values, k) == Some(Text(a.region))
    case _ => true
  }

  predicate LinkCondHolds(c: Cond, values: seq<SqlValue>, l: AmenityLink)
  {
    match c
    case AmenityAnyOf(k) =>
      var v := Bound(values, k);
      v.Some? && v.value.IntList? && l.amenityId in v.value.ints
    case LinkAvailable => l.isAvailable
    case _ => true
  }

  predicate AgeCondHolds(c: Cond, values: seq<SqlValue>, l: AmenityLink, am: Amenity)
  {
    match c
    case AgeFromAtMost(k) =>
      var v := Bound(values, k);
      v.Some? && v.value.Int? && (am.ageMonthFrom.None? || am.ageMonthFrom.value <= v.value.i)
    case AgeToAtLeast(k) =>
      var v := Bound(values, k);
      v.Some? && v.value.Int? && (am.ageMonthTo.None? || am.ageMonthTo.value >= v.value.i)
    case AgeLinkAvailable => l.isAvailable
    case _ => true
  }

  predicate RowCondsHold(cs: seq<Cond>, values: seq<SqlValue>, a: Accommodation)
  {
    forall c | c in cs :: OnAccommodation(c) ==> RowCondHolds(c, values, a)
  }

  predicate LinkCondsHold(cs: seq<Cond>, values: seq<SqlValue>, l: AmenityLink)
  {
    forall c | c in cs :: OnLink(c) ==> LinkCondHolds(c, values, l)
  }

  predicate AgeCondsHold(cs: seq<Cond>, values: seq<SqlValue>, l: AmenityLink, am: Amenity)
  {
    forall c | c in cs :: OnAgeAmenity(c) ==> AgeCondHolds(c, values, l, am)
  }

  /** Some joined row of `a` satisfies the WHERE clause. The conditions on the
      three aliases are independent, so the existence of one joined row is the
      conjunction of one existence per joined alias. */
  predicate WhereHolds(db: Tables, p: Plan, a: Accommodation)
  {
    && RowCondsHold(p.conditions, p.values, a)
    && (AmenityLinks in p.joins ==>
          exists l | l in db.links :: l.accommodationId == a.id && LinkCondsHold(p.conditions, p.values, l))
    && (AgeAmenities in p.joins ==>
          exists l, am | l in db.links && am in db.amenities ::
            l.accommodationId == a.id && l.amenityId == am.id && AgeCondsHold(p.conditions, p.values, l, am))
  }

  predicate HavingCondHolds(h: HavingCond, values: seq<SqlValue>, minPrice: Option<int>, avg: real)
  {
    var v := Bound(values, h.slot);
    match h
    case MinPriceAtLeast(_) => v.Some? && v.value.Int? && minPrice.Some? && minPrice.value >= v.value.i
    case MinPriceAtMost(_) => v.Some? && v.value.Int? && minPrice.Some? && minPrice.value <= v.value.i
    case RatingAtLeast(_) => v.Some? && v.value.Real? && avg >= v.value.r
  }

  predicate HavingAllHold(hs: seq<HavingCond>, values: seq<SqlValue>, minPrice: Option<int>, avg: real)
  {
    forall h | h in hs :: HavingCondHolds(h, values, minPrice, avg)
  }

  predicate HavingHolds(db: Tables, p: Plan, a: Accommodation)
  {
    HavingAllHold(p.having, p.values, MinPriceOf(db, a), AverageRatingOf(db, a))
  }

  /** The accommodation is one of the groups the filtered, grouped query keeps. */
  predicate Admits(db: Tables, p: Plan, a: Accommodation)
  {
    a in db.accommodations && Scoped(p) && WhereHolds(db, p, a) && HavingHolds(db, p, a)
  }

  // ---------------------------------------------------------------------------
  // Reference semantics of the filters, stated without any plan

  /** `if (region)`: an absent or empty region does not filter. */
  predicate RegionMatches(region: Option<string>, a: Accommodation)
  {
    region.None? || region.value == "" || a.region == region.value
  }

  /** Any-of: some available link of the accommodation names a listed amenity. */
  predicate AmenitiesMatch(db: Tables, ids: seq<int>, a: Accommodation)
  {
    ids == [] ||
    exists l | l in db.links :: l.accommodationId == a.id && l.isAvailable && l.amenityId in ids
  }

  function SeqMin(xs: seq<int>): (m: int)
    requires xs != []
    ensures m in xs && forall x | x in xs :: m <= x
  {
    if |xs| == 1 then xs[0]
    else
      var m := SeqMin(xs[1..]);
      assert xs == [xs[0]] + xs[1..];
      if m < xs[0] then m else xs[0]
  }

  function SeqMax(xs: seq<int>): (m: int)
    requires xs != []
    ensures m in xs && forall x | x in xs :: x <= m
  {
    if |xs| == 1 then xs[0]
    else
      var m := SeqMax(xs[1..]);
      assert xs == [xs[0]] + xs[1..];
      if m > xs[0] then m else xs[0]
  }

  /** The amenity's age range (NULL ends unbounded) overlaps [lo, hi]. */
  predicate Overlaps(am: Amenity, lo: int, hi: int)
  {
    (am.ageMonthFrom.None? || am.ageMonthFrom.value <= hi) &&
    (am.ageMonthTo.None? || am.ageMonthTo.value >= lo)
  }

  /** The requested months collapse to [min, max]; some available amenity of
      the accommodation overlaps that window. */
  predicate AgeMatches(db: Tables, months: seq<int>, a: Accommodation)
  {
    months == [] ||
    exists l, am | l in db.links && am in db.amenities ::
      l.accommodationId == a.id && l.amenityId == am.id && l.isAvailable &&
      Overlaps(am, SeqMin(months), SeqMax(months))
  }

  /** Price bounds compare MIN(price); a NULL minimum fails every bound. */
  predicate PriceMatches(minPrice: Option<int>, maxPrice: Option<int>, lowest: Option<int>)
  {
    (minPrice.None? || (lowest.Some? && lowest.value >= minPrice.value)) &&
    (maxPrice.None? || (lowest.Some? && lowest.value <= maxPrice.value))
  }

  predicate RatingMatches(minRating: Option<real>, average: real)
  {
    minRating.None? || average >= minRating.value
  }

  predicate Matches(db: Tables, f: SearchFilters, a: Accommodation)
  {
    && a in db.accommodations
    && RegionMatches(f.region, a)
    && AmenitiesMatch(db, f.amenities.GetOr([]), a)
    && AgeMatches(db, f.ageMonths.GetOr([]), a)
    && PriceMatches(f.minPrice, f.maxPrice, MinPriceOf(db, a))
    && RatingMatches(f.minRating, AverageRatingOf(db, a))
  }

  // ---------------------------------------------------------------------------
  // The builder: its state after each `if` block of `findAll`

  /** The builder's local variables: the extra joins, the WHERE and HAVING
      lists, the bound values and `paramCount`, the next placeholder number. */
  datatype Builder = Builder(
    joins: seq<Join>,
    conditions: seq<Cond>,
    having: seq<HavingCond>,
    values: seq<SqlValue>,
    paramCount: nat)

  /** `if (region)`: JavaScript truthiness, so the empty string filters nothing. */
  predicate RegionGiven(region: Option<string>)
  {
    region.Some? && region.value != ""
  }

  function Start(): Builder
  {
    Builder([], [], [], [], 1)
  }

  /** Region block: `a.region = $k`. */
  function RegionStage(b: Builder, region: Option<string>): Builder
  {
    if RegionGiven(region) then
      b.(conditions := b.conditions + [RegionIs(b.paramCount)],
         values := b.values + [Text(region.value)],
         paramCount := b.paramCount + 1)
    else b
  }

  /** Amenities block: join `aa`, `aa.amenity_id = ANY($k)`, `aa.is_available = true`. */
  function AmenityStage(b: Builder, ids: seq<int>): Builder
  {
    if ids != [] then
      b.(joins := b.joins + [AmenityLinks],
         conditions := b.conditions + [AmenityAnyOf(b.paramCount)] + [LinkAvailable],
         values := b.values + [IntList(ids)],
         paramCount := b.paramCount + 1)
    else b
  }

  /** Age block: join `aa2` and `am`; `$k` holds the largest month and
      `$k+1` the smallest. */
  function AgeStage(b: Builder, months: seq<int>): Builder
  {
    if months != [] then
      b.(joins := b.joins + [AgeAmenities],
         conditions := b.conditions + [AgeFromAtMost(b.paramCount)] + [AgeToAtLeast(b.paramCount + 1)] + [AgeLinkAvailable],
         values := b.values + [Int(SeqMax(months))] + [Int(SeqMin(months))],
         paramCount := b.paramCount + 2)
    else b
  }

  /** One aggregate block: push the HAVING predicate using `$paramCount` and its value. */
  function HavingStage(b: Builder, given: bool, h: HavingCond, v: SqlValue): Builder
  {
    if given then
      b.(having := b.having + [h], values := b.values + [v], paramCount := b.paramCount + 1)
    else b
  }

  function MinPriceStage(b: Builder, minPrice: Option<int>): Builder
  {
    HavingStage(b, minPrice.Some?, MinPriceAtLeast(b.paramCount), Int(minPrice.GetOr(0)))
  }

  function MaxPriceStage(b: Builder, maxPrice: Option<int>): Builder
  {
    HavingStage(b, maxPrice.Some?, MinPriceAtMost(b.paramCount), Int(maxPrice.GetOr(0)))
  }

  function MinRatingStage(b: Builder, minRating: Option<real>): Builder
  {
    HavingStage(b, minRating.Some?, RatingAtLeast(b.paramCount), Real(minRating.GetOr(0.0)))
  }

  /** The state after the three WHERE blocks. */
  function WhereOf(f: SearchFilters): Builder
  {
    AgeStage(AmenityStage(RegionStage(Start(), f.region), f.amenities.GetOr([])), f.ageMonths.GetOr([]))
  }

  /** The state after the three HAVING blocks. */
  function FilteredOf(f: SearchFilters): Builder
  {
    MinRatingStage(MaxPriceStage(MinPriceStage(WhereOf(f), f.minPrice), f.maxPrice), f.minRating)
  }

  /** The finished statement: sort through the allow-list, then
      `LIMIT $k OFFSET $k+1`. */
  function PlanOf(f: SearchFilters): Plan
  {
    var b := FilteredOf(f);
    Plan(b.joins, b.conditions, b.having, b.values + [Int(LimitOf(f)), Int(OffsetOf(f))],
         ResolveSortColumn(f.sortBy), ResolveDirection(f.sortOrder), b.paramCount, b.paramCount + 1)
  }

  /** Builds the statement for `findAll(filters)`: the placeholders are exactly
      $1..$n for the n bound values in emission order, LIMIT and OFFSET bind
      the last two, every condition names a joined alias, and the plan admits
      precisely the accommodations the filters describe. */
  method BuildPlan(f: SearchFilters) returns (p: Plan)
    ensures p == PlanOf(f)
    ensures Placeholders(p) == Iota(|p.values|)
    ensures Scoped(p)
    ensures p.limitSlot == |p.values| - 1 && p.offsetSlot == |p.values|
    ensures p.values[p.limitSlot - 1] == Int(LimitOf(f))
    ensures p.values[p.offsetSlot - 1] == Int(OffsetOf(f))
    ensures p.sortColumn == ResolveSortColumn(f.sortBy)
    ensures p.direction == ResolveDirection(f.sortOrder)
    ensures forall db, a :: Admits(db, p, a) <==> Matches(db, f, a)
  {
    var b := Start();
    b := RegionBlock(b, f.region);
    ghost var b1 := b;
    b := AmenityBlock(b, f.amenities.GetOr([]));
    ghost var b2 := b;
    b := AgeBlock(b, f.ageMonths.GetOr([]));
    ghost var b3 := b;
    if f.minPrice.Some? {
      b := HavingBlock(b, MinPriceAtLeast(b.paramCount), Int(f.minPrice.value));
    }
    ghost var b4 := b;
    if f.maxPrice.Some? {
      b := HavingBlock(b, MinPriceAtMost(b.paramCount), Int(f.maxPrice.value));
    }
    ghost var b5 := b;
    if f.minRating.Some? {
      b := HavingBlock(b, RatingAtLeast(b.paramCount), Real(f.minRating.value));
    }
    FilteredOfStages(f, b1, b2, b3, b4, b5, b);

    var limit := f.limit.GetOr(DefaultLimit);
    var offset := OffsetOf(f);
    p := Plan(b.joins, b.conditions, b.having, b.values + [Int(limit), Int(offset)],
              ResolveSortColumn(f.sortBy), ResolveDirection(f.sortOrder), b.paramCount, b.paramCount + 1);
    PlanOfFiltered(f, b);

    PlanNumbered(f);
    PlanScoped(f);
    forall db, a
      ensures Admits(db, p, a) <==> Matches(db, f, a)
    {
      PlanMeaning(db, f, a);
    }
  }

  /** `if (region) { conditions.push(...); values.push(region); paramCount++ }` */
  method RegionBlock(b: Builder, region: Option<string>) returns (r: Builder)
    ensures r == RegionStage(b, region)
  {
    r := b;
    if region.Some? && region.value != "" {
      r := r.(conditions := r.conditions + [RegionIs(r.paramCount)]);
      r := r.(values := r.values + [Text(region.value)]);
      r := r.(paramCount := r.paramCount + 1);
    }
  }

  /** The amenities block: one join, two conditions, one bound list. */
  method AmenityBlock(b: Builder, amenities: seq<int>) returns (r: Builder)
    ensures r == AmenityStage(b, amenities)
  {
    r := b;
    if |amenities| > 0 {
      r := r.(joins := r.joins + [AmenityLinks]);
      r := r.(conditions := r.conditions + [AmenityAnyOf(r.paramCount)]);
      r := r.(conditions := r.conditions + [LinkAvailable]);
      r := r.(values := r.values + [IntList(amenities)]);
      r := r.(paramCount := r.paramCount + 1);
    }
  }

  /** The age block: the largest month is bound first, then the smallest. */
  method AgeBlock(b: Builder, ageMonths: seq<int>) returns (r: Builder)
    ensures r == AgeStage(b, ageMonths)
  {
    r := b;
    if |ageMonths| > 0 {
      var minAge := SeqMin(ageMonths);
      var maxAge := SeqMax(ageMonths);
      r := r.(joins := r.joins + [AgeAmenities]);
      r := r.(conditions := r.conditions + [AgeFromAtMost(r.paramCount)]);
      r := r.(values := r.values + [Int(maxAge)]);
      r := r.(paramCount := r.paramCount + 1);
      r := r.(conditions := r.conditions + [AgeToAtLeast(r.paramCount)]);
      r := r.(values := r.values + [Int(minAge)]);
      r := r.(paramCount := r.paramCount + 1);
      r := r.(conditions := r.conditions + [AgeLinkAvailable]);
    }
  }

  /** `havingConditions.push(...); values.push(v); paramCount++` */
  method HavingBlock(b: Builder, h: HavingCond, v: SqlValue) returns (r: Builder)
    ensures r == HavingStage(b, true, h, v)
  {
    r := b.(having := b.having + [h]);
    r := r.(values := r.values + [v]);
    r := r.(paramCount := r.paramCount + 1);
  }

  /** The six blocks, applied in order, give `FilteredOf`. */
  lemma FilteredOfStages(f: SearchFilters, b1: Builder, b2: Builder, b3: Builder, b4: Builder, b5: Builder, b6: Builder)
    requires b1 == RegionStage(Start(), f.region)
    requires b2 == AmenityStage(b1, f.amenities.GetOr([]))
    requires b3 == AgeStage(b2, f.ageMonths.GetOr([]))
    requires b4 == MinPriceStage(b3, f.minPrice)
    requires b5 == MaxPriceStage(b4, f.maxPrice)
    requires b6 == MinRatingStage(b5, f.minRating)
    ensures b6 == FilteredOf(f)
  {
  }

  lemma PlanOfFiltered(f: SearchFilters, b: Builder)
    requires b == FilteredOf(f)
    ensures PlanOf(f) == Plan(b.joins, b.conditions, b.having, b.values + [Int(LimitOf(f)), Int(OffsetOf(f))],
                              ResolveSortColumn(f.sortBy), ResolveDirection(f.sortOrder), b.paramCount, b.paramCount + 1)
  {
  }

  // ---------------------------------------------------------------------------
  // Placeholder numbering

  /** Every placeholder the builder has emitted, in order. */
  function Slots(b: Builder): seq<nat>
  {
    CondSlots(b.conditions) + HavingSlots(b.having)
  }

  /** The placeholders emitted so far are $1..$n for the n bound values, and
      `paramCount` is n + 1. */
  predicate Numbered(b: Builder)
  {
    Slots(b) == Iota(|b.values|) && b.paramCount == |b.values| + 1
  }

  lemma CondSlotsAppend(cs: seq<Cond>, c: Cond)
    ensures CondSlots(cs + [c]) == CondSlots(cs) + SlotsOf(c)
  {
    assert (cs + [c])[..|cs|] == cs;
  }

  lemma HavingSlotsAppend(hs: seq<HavingCond>, h: HavingCond)
    ensures HavingSlots(hs + [h]) == HavingSlots(hs) + [h.slot]
  {
    assert (hs + [h])[..|hs|] == hs;
  }

  lemma RegionStageNumbered(b: Builder, region: Option<string>)
    requires Numbered(b) && b.having == []
    ensures Numbered(RegionStage(b, region)) && RegionStage(b, region).having == []
  {
    CondSlotsAppend(b.conditions, RegionIs(b.paramCount));
  }

  lemma AmenityStageNumbered(b: Builder, ids: seq<int>)
    requires Numbered(b) && b.having == []
    ensures Numbered(AmenityStage(b, ids)) && AmenityStage(b, ids).having == []
  {
    CondSlotsAppend(b.conditions, AmenityAnyOf(b.paramCount));
    CondSlotsAppend(b.conditions + [AmenityAnyOf(b.paramCount)], LinkAvailable);
  }

  lemma AgeStageNumbered(b: Builder, months: seq<int>)
    requires Numbered(b) && b.having == []
    ensures Numbered(AgeStage(b, months)) && AgeStage(b, months).having == []
  {
    AgeStageShape(b, months);
    if months != [] {
      var k := b.paramCount;
      var c1 := b.conditions + [AgeFromAtMost(k)];
      var c2 := c1 + [AgeToAtLeast(k + 1)];
      CondSlotsAppend(b.conditions, AgeFromAtMost(k));
      CondSlotsAppend(c1, AgeToAtLeast(k + 1));
      CondSlotsAppend(c2, AgeLinkAvailable);
      assert c2 + [AgeLinkAvailable] == b.conditions + AgeConds(months, k);
      var n := |b.values|;
      assert Iota(n + 2) == Iota(n) + [n + 1] + [n + 2];
      assert CondSlots(b.conditions + AgeConds(months, k)) == Iota(n) + [n + 1] + [n + 2];
    }
  }

  lemma HavingStageNumbered(b: Builder, given: bool, h: HavingCond, v: SqlValue)
    requires Numbered(b) && h.slot == b.paramCount
    ensures Numbered(HavingStage(b, given, h, v))
  {
    if given {
      HavingSlotsAppend(b.having, h);
      var cs := CondSlots(b.conditions);
      assert cs + (HavingSlots(b.having) + [h.slot]) == (cs + HavingSlots(b.having)) + [h.slot];
    }
  }

  lemma FilteredNumbered(f: SearchFilters)
    ensures Numbered(FilteredOf(f))
  {
    var b0 := Start();
    assert Slots(b0) == [];
    RegionStageNumbered(b0, f.region);
    var b1 := RegionStage(b0, f.region);
    AmenityStageNumbered(b1, f.amenities.GetOr([]));
    var b2 := AmenityStage(b1, f.amenities.GetOr([]));
    AgeStageNumbered(b2, f.ageMonths.GetOr([]));
    var b3 := WhereOf(f);
    HavingStageNumbered(b3, f.minPrice.Some?, MinPriceAtLeast(b3.paramCount), Int(f.minPrice.GetOr(0)));
    var b4 := MinPriceStage(b3, f.minPrice);
    HavingStageNumbered(b4, f.maxPrice.Some?, MinPriceAtMost(b4.paramCount), Int(f.maxPrice.GetOr(0)));
    var b5 := MaxPriceStage(b4, f.maxPrice);
    HavingStageNumbered(b5, f.minRating.Some?, RatingAtLeast(b5.paramCount), Real(f.minRating.GetOr(0.0)));
  }

  /** The finished statement's placeholders are $1..$n in emission order
      (WHERE, HAVING, LIMIT, OFFSET), and LIMIT and OFFSET take the last two. */
  lemma PlanNumbered(f: SearchFilters)
    ensures Placeholders(PlanOf(f)) == Iota(|PlanOf(f).values|)
    ensures PlanOf(f).limitSlot == |PlanOf(f).values| - 1 && PlanOf(f).offsetSlot == |PlanOf(f).values|
    ensures PlanOf(f).values[PlanOf(f).limitSlot - 1] == Int(LimitOf(f))
    ensures PlanOf(f).values[PlanOf(f).offsetSlot - 1] == Int(OffsetOf(f))
  {
    FilteredNumbered(f);
    FinishNumbered(FilteredOf(f), PlanOf(f), LimitOf(f), OffsetOf(f));
  }

  /** Appending LIMIT and OFFSET to a numbered builder numbers them last. */
  lemma FinishNumbered(b: Builder, p: Plan, limit: int, offset: int)
    requires Numbered(b)
    requires p.conditions == b.conditions && p.having == b.having
    requires p.values == b.values + [Int(limit), Int(offset)]
    requires p.limitSlot == b.paramCount && p.offsetSlot == b.paramCount + 1
    ensures Placeholders(p) == Iota(|p.values|)
    ensures p.limitSlot == |p.values| - 1 && p.offsetSlot == |p.values|
    ensures p.values[p.limitSlot - 1] == Int(limit) && p.values[p.offsetSlot - 1] == Int(offset)
  {
    var n := |b.values|;
    assert Iota(n + 2) == Iota(n) + [n + 1] + [n + 2];
  }

  // ---------------------------------------------------------------------------
  // The shape of the finished statement, block by block

  /** The values each block binds, in emission order. */
  function RegionVals(region: Option<string>): seq<SqlValue>
  {
    if RegionGiven(region) then [Text(region.value)] else []
  }

  function AmenityVals(ids: seq<int>): seq<SqlValue>
  {
    if ids != [] then [IntList(ids)] else []
  }

  function AgeVals(months: seq<int>): seq<SqlValue>
  {
    if months != [] then [Int(SeqMax(months)), Int(SeqMin(months))] else []
  }

  function HavingVals(f: SearchFilters): seq<SqlValue>
  {
    (if f.minPrice.Some? then [Int(f.minPrice.value)] else []) +
    (if f.maxPrice.Some? then [Int(f.maxPrice.value)] else []) +
    (if f.minRating.Some? then [Real(f.minRating.value)] else [])
  }

  /** The conditions each WHERE block contributes, given the first
      placeholder number it is handed. */
  function RegionConds(region: Option<string>, k: nat): seq<Cond>
  {
    if RegionGiven(region) then [RegionIs(k)] else []
  }

  function AmenityConds(ids: seq<int>, k: nat): seq<Cond>
  {
    if ids != [] then [AmenityAnyOf(k), LinkAvailable] else []
  }

  function AgeConds(months: seq<int>, k: nat): seq<Cond>
  {
    if months != [] then [AgeFromAtMost(k), AgeToAtLeast(k + 1), AgeLinkAvailable] else []
  }

  /** The HAVING predicates, numbered from k. */
  function HavingConds(f: SearchFilters, k: nat): seq<HavingCond>
  {
    var k2 := if f.minPrice.Some? then k + 1 else k;
    var k3 := if f.maxPrice.Some? then k2 + 1 else k2;
    (if f.minPrice.Some? then [MinPriceAtLeast(k)] else []) +
    (if f.maxPrice.Some? then [MinPriceAtMost(k2)] else []) +
    (if f.minRating.Some? then [RatingAtLeast(k3)] else [])
  }

  function AmenitySlot(f: SearchFilters): nat
  {
    1 + |RegionVals(f.region)|
  }

  function AgeSlot(f: SearchFilters): nat
  {
    AmenitySlot(f) + |AmenityVals(f.amenities.GetOr([]))|
  }

  lemma RegionStageShape(region: Option<string>)
    ensures RegionStage(Start(), region) ==
      Builder([], RegionConds(region, 1), [], RegionVals(region), 1 + |RegionVals(region)|)
  {
  }

  lemma AmenityStageShape(b: Builder, ids: seq<int>)
    ensures AmenityStage(b, ids) ==
      Builder(b.joins + (if ids != [] then [AmenityLinks] else []),
              b.conditions + AmenityConds(ids, b.paramCount), b.having,
              b.values + AmenityVals(ids), b.paramCount + |AmenityVals(ids)|)
  {
  }

  lemma AgeStageShape(b: Builder, months: seq<int>)
    ensures AgeStage(b, months) ==
      Builder(b.joins + (if months != [] then [AgeAmenities] else []),
              b.conditions + AgeConds(months, b.paramCount), b.having,
              b.values + AgeVals(months), b.paramCount + |AgeVals(months)|)
  {
    if months != [] {
      var cs := b.conditions;
      var k := b.paramCount;
      assert cs + [AgeFromAtMost(k)] + [AgeToAtLeast(k + 1)] + [AgeLinkAvailable] == cs + AgeConds(months, k);
      assert b.values + [Int(SeqMax(months))] + [Int(SeqMin(months))] == b.values + AgeVals(months);
    }
  }

  /** After the WHERE blocks: the joins, conditions and values are the three
      blocks' contributions in order, and nothing is in HAVING yet. */
  lemma WhereShape(f: SearchFilters)
    ensures WhereOf(f).joins ==
      (if f.amenities.GetOr([]) != [] then [AmenityLinks] else []) +
      (if f.ageMonths.GetOr([]) != [] then [AgeAmenities] else [])
    ensures WhereOf(f).conditions ==
      RegionConds(f.region, 1) + AmenityConds(f.amenities.GetOr([]), AmenitySlot(f)) +
      AgeConds(f.ageMonths.GetOr([]), AgeSlot(f))
    ensures WhereOf(f).values ==
      RegionVals(f.region) + AmenityVals(f.amenities.GetOr([])) + AgeVals(f.ageMonths.GetOr([]))
    ensures WhereOf(f).having == []
    ensures WhereOf(f).paramCount == |WhereOf(f).values| + 1
  {
    var b1 := RegionStage(Start(), f.region);
    RegionStageShape(f.region);
    var b2 := AmenityStage(b1, f.amenities.GetOr([]));
    AmenityStageShape(b1, f.amenities.GetOr([]));
    AgeStageShape(b2, f.ageMonths.GetOr([]));
  }

  lemma HavingStageShape(b: Builder, given: bool, h: HavingCond, v: SqlValue)
    ensures HavingStage(b, given, h, v) ==
      b.(having := b.having + (if given then [h] else []),
         values := b.values + (if given then [v] else []),
         paramCount := b.paramCount + (if given then 1 else 0))
  {
  }

  /** The three HAVING blocks append their predicates, numbered from
      `paramCount`, and their values; joins and conditions are left alone. */
  lemma HavingStagesShape(b: Builder, f: SearchFilters)
    ensures MinRatingStage(MaxPriceStage(MinPriceStage(b, f.minPrice), f.maxPrice), f.minRating) ==
      b.(having := b.having + HavingConds(f, b.paramCount),
         values := b.values + HavingVals(f),
         paramCount := b.paramCount + |HavingVals(f)|)
  {
    var b4 := MinPriceStage(b, f.minPrice);
    HavingStageShape(b, f.minPrice.Some?, MinPriceAtLeast(b.paramCount), Int(f.minPrice.GetOr(0)));
    var b5 := MaxPriceStage(b4, f.maxPrice);
    HavingStageShape(b4, f.maxPrice.Some?, MinPriceAtMost(b4.paramCount), Int(f.maxPrice.GetOr(0)));
    HavingStageShape(b5, f.minRating.Some?, RatingAtLeast(b5.paramCount), Real(f.minRating.GetOr(0.0)));
    var hv1 := if f.minPrice.Some? then [Int(f.minPrice.value)] else [];
    var hv2 := if f.maxPrice.Some? then [Int(f.maxPrice.value)] else [];
    var hv3 := if f.minRating.Some? then [Real(f.minRating.value)] else [];
    assert b.values + hv1 + hv2 + hv3 == b.values + HavingVals(f);
    var h1 := if f.minPrice.Some? then [MinPriceAtLeast(b.paramCount)] else [];
    var h2 := if f.maxPrice.Some? then [MinPriceAtMost(b4.paramCount)] else [];
    var h3 := if f.minRating.Some? then [RatingAtLeast(b5.paramCount)] else [];
    assert b.having + h1 + h2 + h3 == b.having + HavingConds(f, b.paramCount);
  }

  /** The WHERE joins: `aa` for amenities, then `aa2`/`am` for ages. */
  function WhereJoins(f: SearchFilters): seq<Join>
  {
    (if f.amenities.GetOr([]) != [] then [AmenityLinks] else []) +
    (if f.ageMonths.GetOr([]) != [] then [AgeAmenities] else [])
  }

  /** The finished statement, block by block: each block's joins, conditions
      and values in emission order, then the HAVING predicates numbered after
      the WHERE values, then LIMIT and OFFSET. */
  ghost predicate Shaped(p: Plan, f: SearchFilters)
  {
    var ids := f.amenities.GetOr([]);
    var months := f.ageMonths.GetOr([]);
    && p.joins == WhereJoins(f)
    && p.conditions == RegionConds(f.region, 1) + AmenityConds(ids, AmenitySlot(f)) + AgeConds(months, AgeSlot(f))
    && p.having == HavingConds(f, AgeSlot(f) + |AgeVals(months)|)
    && p.values == RegionVals(f.region) + AmenityVals(ids) + AgeVals(months) + HavingVals(f) + [Int(LimitOf(f)), Int(OffsetOf(f))]
  }

  lemma PlanShape(f: SearchFilters)
    ensures Shaped(PlanOf(f), f)
  {
    PlanJoinsAndConditions(f);
    PlanHavingAndValues(f);
  }

  lemma PlanJoinsAndConditions(f: SearchFilters)
    ensures PlanOf(f).joins == WhereJoins(f)
    ensures PlanOf(f).conditions ==
      RegionConds(f.region, 1) + AmenityConds(f.amenities.GetOr([]), AmenitySlot(f)) +
      AgeConds(f.ageMonths.GetOr([]), AgeSlot(f))
  {
    WhereShape(f);
    HavingStagesShape(WhereOf(f), f);
  }

  lemma PlanHavingAndValues(f: SearchFilters)
    ensures PlanOf(f).having == HavingConds(f, AgeSlot(f) + |AgeVals(f.ageMonths.GetOr([]))|)
    ensures PlanOf(f).values ==
      RegionVals(f.region) + AmenityVals(f.amenities.GetOr([])) + AgeVals(f.ageMonths.GetOr([])) +
      HavingVals(f) + [Int(LimitOf(f)), Int(OffsetOf(f))]
  {
    WhereShape(f);
    HavingStagesShape(WhereOf(f), f);
  }

  // ---------------------------------------------------------------------------
  // Scoping and meaning, alias by alias

  /** The region predicate alone decides the accommodation row. */
  lemma RowMeaning(cs: seq<Cond>, vs: seq<SqlValue>, region: Option<string>, a: Accommodation)
    requires forall c | c in cs && OnAccommodation(c) :: c == RegionIs(1)
    requires RegionGiven(region) ==> RegionIs(1) in cs && Bound(vs, 1) == Some(Text(region.value))
    requires !RegionGiven(region) ==> forall c | c in cs :: !OnAccommodation(c)
    ensures RowCondsHold(cs, vs, a) <==> RegionMatches(region, a)
  {
    if RegionGiven(region) && RowCondsHold(cs, vs, a) {
      assert RowCondHolds(RegionIs(1), vs, a);
    }
  }

  /** `aa.amenity_id = ANY($k)` with `aa.is_available` is "an available link to a listed amenity". */
  lemma LinkMeaning(cs: seq<Cond>, vs: seq<SqlValue>, k: nat, ids: seq<int>, l: AmenityLink)
    requires forall c | c in cs && OnLink(c) :: c == AmenityAnyOf(k) || c == LinkAvailable
    requires AmenityAnyOf(k) in cs && LinkAvailable in cs
    requires Bound(vs, k) == Some(IntList(ids))
    ensures LinkCondsHold(cs, vs, l) <==> l.isAvailable && l.amenityId in ids
  {
    if LinkCondsHold(cs, vs, l) {
      assert LinkCondHolds(AmenityAnyOf(k), vs, l);
      assert LinkCondHolds(LinkAvailable, vs, l);
    }
  }

  /** The collapsed window: `age_month_from <= max` and `age_month_to >= min`. */
  lemma AgeWindowMeaning(cs: seq<Cond>, vs: seq<SqlValue>, k: nat, months: seq<int>, l: AmenityLink, am: Amenity)
    requires months != []
    requires forall c | c in cs && OnAgeAmenity(c) :: c == AgeFromAtMost(k) || c == AgeToAtLeast(k + 1) || c == AgeLinkAvailable
    requires AgeFromAtMost(k) in cs && AgeToAtLeast(k + 1) in cs && AgeLinkAvailable in cs
    requires Bound(vs, k) == Some(Int(SeqMax(months))) && Bound(vs, k + 1) == Some(Int(SeqMin(months)))
    ensures AgeCondsHold(cs, vs, l, am) <==> l.isAvailable && Overlaps(am, SeqMin(months), SeqMax(months))
  {
    if AgeCondsHold(cs, vs, l, am) {
      assert AgeCondHolds(AgeFromAtMost(k), vs, l, am);
      assert AgeCondHolds(AgeToAtLeast(k + 1), vs, l, am);
      assert AgeCondHolds(AgeLinkAvailable, vs, l, am);
    }
  }

  /** Each present bound contributes one predicate on its own value. */
  lemma HavingMeaning(f: SearchFilters, pre: seq<SqlValue>, post: seq<SqlValue>, lowest: Option<int>, average: real)
    ensures HavingAllHold(HavingConds(f, |pre| + 1), pre + HavingVals(f) + post, lowest, average) <==>
      PriceMatches(f.minPrice, f.maxPrice, lowest) && RatingMatches(f.minRating, average)
  {
    var vs := pre + HavingVals(f) + post;
    var k := |pre| + 1;
    var k2 := if f.minPrice.Some? then k + 1 else k;
    var k3 := if f.maxPrice.Some? then k2 + 1 else k2;
    var hs := HavingConds(f, k);
    if f.minPrice.Some? {
      assert Bound(vs, k) == Some(Int(f.minPrice.value));
    }
    if f.maxPrice.Some? {
      assert Bound(vs, k2) == Some(Int(f.maxPrice.value));
    }
    if f.minRating.Some? {
      assert Bound(vs, k3) == Some(Real(f.minRating.value));
    }
    if HavingAllHold(hs, vs, lowest, average) {
      if f.minPrice.Some? { assert HavingCondHolds(MinPriceAtLeast(k), vs, lowest, average); }
      if f.maxPrice.Some? { assert HavingCondHolds(MinPriceAtMost(k2), vs, lowest, average); }
      if f.minRating.Some? { assert HavingCondHolds(RatingAtLeast(k3), vs, lowest, average); }
    }
  }

  /** Region part: the only row predicate is `a.region = $1`, present exactly
      when a non-empty region is given. */
  lemma RowPart(p: Plan, f: SearchFilters)
    requires Shaped(p, f)
    ensures RowPartMeans(p, f)
  {
    forall a
      ensures RowCondsHold(p.conditions, p.values, a) <==> RegionMatches(f.region, a)
    {
      RowMeaning(p.conditions, p.values, f.region, a);
    }
  }

  /** Amenity part: `aa.amenity_id = ANY($k)` and `aa.is_available`, joined
      exactly when the id list is non-empty. */
  lemma LinkPart(p: Plan, f: SearchFilters)
    requires Shaped(p, f)
    ensures LinkPartMeans(p, f)
    ensures forall c | c in p.conditions :: OnLink(c) ==> AmenityLinks in p.joins
  {
    var ids := f.amenities.GetOr([]);
    var k := AmenitySlot(f);
    if ids != [] {
      assert Bound(p.values, k) == Some(IntList(ids));
      forall l
        ensures LinkCondsHold(p.conditions, p.values, l) <==> l.isAvailable && l.amenityId in ids
      {
        LinkMeaning(p.conditions, p.values, k, ids, l);
      }
    }
  }

  /** Age part: the collapsed window `am.age_month_from <= $k` (the largest
      month) and `am.age_month_to >= $k+1` (the smallest) with
      `aa2.is_available`, joined exactly when months are given. */
  lemma AgePart(p: Plan, f: SearchFilters)
    requires Shaped(p, f)
    ensures AgePartMeans(p, f)
    ensures forall c | c in p.conditions :: OnAgeAmenity(c) ==> AgeAmenities in p.joins
  {
    var ids := f.amenities.GetOr([]);
    var months := f.ageMonths.GetOr([]);
    var pre := RegionConds(f.region, 1) + AmenityConds(ids, AmenitySlot(f));
    var before := RegionVals(f.region) + AmenityVals(ids);
    AgeWindowBlock(pre, months, AgeSlot(f), before, HavingVals(f), [Int(LimitOf(f)), Int(OffsetOf(f))]);
    assert AgeAmenities in p.joins <==> months != [];
  }

  /** The age block on its own: its conditions follow conditions that are not
      on the age aliases, and its two values follow the earlier blocks'
      values, so `$k` holds the largest month and `$k+1` the smallest. */
  lemma AgeWindowBlock(pre: seq<Cond>, months: seq<int>, k: nat, before: seq<SqlValue>,
                 after1: seq<SqlValue>, after2: seq<SqlValue>)
    requires forall c | c in pre :: !OnAgeAmenity(c)
    requires |before| + 1 == k
    ensures forall c | c in pre + AgeConds(months, k) :: OnAgeAmenity(c) ==> months != []
    ensures months != [] ==>
      forall l, am :: AgeCondsHold(pre + AgeConds(months, k), before + AgeVals(months) + after1 + after2, l, am) <==>
        l.isAvailable && Overlaps(am, SeqMin(months), SeqMax(months))
  {
    if months != [] {
      var cs := pre + AgeConds(months, k);
      var vs := before + AgeVals(months) + after1 + after2;
      assert vs[k - 1] == Int(SeqMax(months)) && vs[k] == Int(SeqMin(months));
      forall l, am
        ensures AgeCondsHold(cs, vs, l, am) <==> l.isAvailable && Overlaps(am, SeqMin(months), SeqMax(months))
      {
        AgeWindowMeaning(cs, vs, k, months, l, am);
      }
    }
  }

  /** HAVING part: each present bound contributes one predicate whose
      placeholder holds that bound, and nothing else is in the list. */
  lemma HavingPart(p: Plan, f: SearchFilters)
    requires Shaped(p, f)
    ensures HavingPartMeans(p, f)
  {
    var ids := f.amenities.GetOr([]);
    var months := f.ageMonths.GetOr([]);
    var pre := RegionVals(f.region) + AmenityVals(ids) + AgeVals(months);
    assert |pre| + 1 == AgeSlot(f) + |AgeVals(months)|;
    forall lowest, average
      ensures HavingAllHold(p.having, p.values, lowest, average) <==>
        PriceMatches(f.minPrice, f.maxPrice, lowest) && RatingMatches(f.minRating, average)
    {
      HavingMeaning(f, pre, [Int(LimitOf(f)), Int(OffsetOf(f))], lowest, average);
    }
  }

  /** Every condition names an alias whose join is present. */
  lemma PlanScoped(f: SearchFilters)
    ensures Scoped(PlanOf(f))
  {
    PlanShape(f);
    LinkPart(PlanOf(f), f);
    AgePart(PlanOf(f), f);
  }
  // The meaning of each part of a plan, alias by alias.

  ghost predicate RowPartMeans(p: Plan, f: SearchFilters)
  {
    forall a :: RowCondsHold(p.conditions, p.values, a) <==> RegionMatches(f.region, a)
  }

  ghost predicate LinkPartMeans(p: Plan, f: SearchFilters)
  {
    var ids := f.amenities.GetOr([]);
    && (AmenityLinks in p.joins <==> ids != [])
    && (ids != [] ==>
          forall l :: LinkCondsHold(p.conditions, p.values, l) <==> l.isAvailable && l.amenityId in ids)
  }

  ghost predicate AgePartMeans(p: Plan, f: SearchFilters)
  {
    var months := f.ageMonths.GetOr([]);
    && (AgeAmenities in p.joins <==> months != [])
    && (months != [] ==>
          forall l, am :: AgeCondsHold(p.conditions, p.values, l, am) <==>
            l.isAvailable && Overlaps(am, SeqMin(months), SeqMax(months)))
  }

  ghost predicate HavingPartMeans(p: Plan, f: SearchFilters)
  {
    forall lowest, average :: HavingAllHold(p.having, p.values, lowest, average) <==>
      PriceMatches(f.minPrice, f.maxPrice, lowest) && RatingMatches(f.minRating, average)
  }

  /** The finished statement admits exactly the accommodations the filters
      describe: the per-alias parts combine into the whole WHERE and HAVING. */
  lemma PlanMeaning(db: Tables, f: SearchFilters, a: Accommodation)
    ensures Admits(db, PlanOf(f), a) <==> Matches(db, f, a)
  {
    PlanShape(f);
    ShapedMeaning(db, PlanOf(f), f, a);
  }

  lemma ShapedMeaning(db: Tables, p: Plan, f: SearchFilters, a: Accommodation)
    requires Shaped(p, f)
    ensures Admits(db, p, a) <==> Matches(db, f, a)
  {
    RowPart(p, f);
    LinkPart(p, f);
    AgePart(p, f);
    LinkExists(db, p, f, a);
    AgeExists(db, p, f, a);
    HavingPart(p, f);
  }

  /** The `aa` join finds a row exactly when the any-of amenity filter holds. */
  lemma LinkExists(db: Tables, p: Plan, f: SearchFilters, a: Accommodation)
    requires LinkPartMeans(p, f)
    ensures (AmenityLinks in p.joins ==>
               exists l | l in db.links :: l.accommodationId == a.id && LinkCondsHold(p.conditions, p.values, l))
            <==> AmenitiesMatch(db, f.amenities.GetOr([]), a)
  {
  }

  /** The `aa2`/`am` join finds a row exactly when the collapsed age window
      overlaps some available amenity. */
  lemma AgeExists(db: Tables, p: Plan, f: SearchFilters, a: Accommodation)
    requires AgePartMeans(p, f)
    ensures (AgeAmenities in p.joins ==>
               exists l, am | l in db.links && am in db.amenities ::
                 l.accommodationId == a.id && l.amenityId == am.id && AgeCondsHold(p.conditions, p.values, l, am))
            <==> AgeMatches(db, f.ageMonths.GetOr([]), a)
  {
  }

  // ---------------------------------------------------------------------------
  // Running the statement: the count query and the page query

  /** The groups the filtered query keeps, in table order. */
  function FilterRows(rows: seq<Accommodation>, db: Tables, p: Plan): (r: seq<Accommodation>)
    ensures forall a :: a in r <==> a in rows && Admits(db, p, a)
    ensures |r| <= |rows|
  {
    if rows == [] then []
    else
      var last := rows[|rows| - 1];
      FilterRows(rows[..|rows| - 1], db, p) + (if Admits(db, p, last) then [last] else [])
  }

  function Filtered(db: Tables, p: Plan): seq<Accommodation>
  {
    FilterRows(db.accommodations, db, p)
  }

  lemma {:induction false} FilterRowsSame(rows: seq<Accommodation>, db: Tables, p: Plan, q: Plan)
    requires forall a | a in rows :: Admits(db, p, a) <==> Admits(db, q, a)
    ensures FilterRows(rows, db, p) == FilterRows(rows, db, q)
  {
    if rows != [] {
      FilterRowsSame(rows[..|rows| - 1], db, p, q);
    }
  }

  datatype FindAllResult = FindAllResult(data: seq<Accommodation>, total: nat)

  /** `findAll`: the count query runs over the filtered, grouped statement
      before ORDER BY and LIMIT; the page query returns the slice at
      `(page - 1) * limit` of the rows in the database's ORDER BY order
      (`ordered`, the kept groups sorted by the resolved column in the
      resolved direction, ties in any order). A negative LIMIT or OFFSET is
      rejected by the database (None). */
  method FindAll(db: Tables, f: SearchFilters, ordered: seq<Accommodation>) returns (r: Option<FindAllResult>)
    requires multiset(ordered) == multiset(Filtered(db, PlanOf(f)))
    requires SortedBy(db, ResolveSortColumn(f.sortBy), ResolveDirection(f.sortOrder), ordered)
    ensures r.None? <==> OffsetOf(f) < 0 || LimitOf(f) < 0
    ensures r.Some? ==> r.value.total == |Filtered(db, PlanOf(f))|
    ensures r.Some? ==> |r.value.data| <= LimitOf(f)
    ensures r.Some? && OffsetOf(f) < r.value.total ==>
      |r.value.data| == if OffsetOf(f) + LimitOf(f) <= r.value.total then LimitOf(f) else r.value.total - OffsetOf(f)
    ensures r.Some? ==> SortedBy(db, ResolveSortColumn(f.sortBy), ResolveDirection(f.sortOrder), r.value.data)
    ensures r.Some? ==> forall a | a in r.value.data :: Matches(db, f, a)
    ensures r.Some? && OffsetOf(f) >= r.value.total ==> r.value.data == []
    ensures r.Some? ==> forall i | 0 <= i < |r.value.data| ::
      OffsetOf(f) + i < |ordered| && r.value.data[i] == ordered[OffsetOf(f) + i]
  {
    var p := BuildPlan(f);
    r := RunQueries(db, f, ordered, p.values[p.offsetSlot - 1].i, p.values[p.limitSlot - 1].i);
  }

  /** The two statements `findAll` runs, with the OFFSET and LIMIT it binds:
      `COUNT(*)` over the kept groups, then the page of the database's
      listing at that offset. A negative LIMIT or OFFSET is refused (None). */
  function RunQueries(db: Tables, f: SearchFilters, ordered: seq<Accommodation>, offset: int, limit: int): (r: Option<FindAllResult>)
    requires multiset(ordered) == multiset(Filtered(db, PlanOf(f)))
    requires SortedBy(db, ResolveSortColumn(f.sortBy), ResolveDirection(f.sortOrder), ordered)
    ensures r.None? <==> offset < 0 || limit < 0
    ensures r.Some? ==> r.value.total == |Filtered(db, PlanOf(f))|
    ensures r.Some? ==> |r.value.data| <= limit
    ensures r.Some? && offset < r.value.total ==>
      |r.value.data| == if offset + limit <= r.value.total then limit else r.value.total - offset
    ensures r.Some? ==> SortedBy(db, ResolveSortColumn(f.sortBy), ResolveDirection(f.sortOrder), r.value.data)
    ensures r.Some? ==> forall a | a in r.value.data :: Matches(db, f, a)
    ensures r.Some? && offset >= r.value.total ==> r.value.data == []
    ensures r.Some? ==> forall i | 0 <= i < |r.value.data| :: offset + i < |ordered| && r.value.data[i] == ordered[offset + i]
  {
    var page := PageOfRows(ordered, offset, limit);
    if page.None? then None
    else
      FilteredMatch(db, f);
      WindowOfListing(db, ResolveSortColumn(f.sortBy), ResolveDirection(f.sortOrder), f,
                      Filtered(db, PlanOf(f)), ordered, page.value, offset);
      Some(FindAllResult(page.value, |Filtered(db, PlanOf(f))|))
  }

  /** Every row the finished statement keeps is one the filters describe. */
  lemma FilteredMatch(db: Tables, f: SearchFilters)
    ensures forall a | a in Filtered(db, PlanOf(f)) :: Matches(db, f, a)
  {
    forall a | a in Filtered(db, PlanOf(f))
      ensures Matches(db, f, a)
    {
      PlanMeaning(db, f, a);
    }
  }

  /** A window at a non-negative offset of a sorted listing of rows the
      filters describe is sorted the same way and holds only such rows; the
      listing has as many rows as it lists. */
  lemma WindowOfListing(db: Tables, c: SortColumn, d: Direction, f: SearchFilters, rows: seq<Accommodation>,
                        ordered: seq<Accommodation>, page: seq<Accommodation>, offset: int)
    requires multiset(ordered) == multiset(rows)
    requires SortedBy(db, c, d, ordered)
    requires forall a | a in rows :: Matches(db, f, a)
    requires offset >= 0
    requires forall i | 0 <= i < |page| :: offset + i < |ordered| && page[i] == ordered[offset + i]
    ensures |ordered| == |rows|
    ensures SortedBy(db, c, d, page)
    ensures forall a | a in page :: Matches(db, f, a)
  {
    assert |multiset(ordered)| == |multiset(rows)|;
    assert forall i | 0 <= i < |page| :: 0 <= offset + i < |ordered| && page[i] == ordered[offset + i];
    SortedSlice(db, c, d, ordered, page, offset);
    forall a | a in page
      ensures Matches(db, f, a)
    {
      var i :| 0 <= i < |page| && page[i] == a;
      assert a in multiset(ordered);
      assert a in rows;
    }
  }

  /** The count ignores paging and sorting: filters that differ only in page,
      limit, sort column and direction keep the same groups. */
  lemma TotalIgnoresPaging(db: Tables, f: SearchFilters, g: SearchFilters)
    requires f.(page := g.page, limit := g.limit, sortBy := g.sortBy, sortOrder := g.sortOrder) == g
    ensures Filtered(db, PlanOf(f)) == Filtered(db, PlanOf(g))
  {
    forall a | a in db.accommodations
      ensures Admits(db, PlanOf(f), a) <==> Admits(db, PlanOf(g), a)
    {
      PlanMeaning(db, f, a);
      PlanMeaning(db, g, a);
    }
    FilterRowsSame(db.accommodations, db, PlanOf(f), PlanOf(g));
  }

  /** An accommodation with no room types has a NULL `MIN(price)`: any price
      bound excludes it, and without price bounds the price never does. */
  lemma NoRoomTypesAndPriceBounds(db: Tables, f: SearchFilters, a: Accommodation)
    requires PricesOf(db.roomTypes, a.id) == []
    ensures f.minPrice.Some? || f.maxPrice.Some? ==> !Admits(db, PlanOf(f), a)
    ensures f.minPrice.None? && f.maxPrice.None? ==>
      (Admits(db, PlanOf(f), a) <==>
         a in db.accommodations && RegionMatches(f.region, a) &&
         AmenitiesMatch(db, f.amenities.GetOr([]), a) && AgeMatches(db, f.ageMonths.GetOr([]), a) &&
         RatingMatches(f.minRating, AverageRatingOf(db, a)))
  {
    PlanMeaning(db, f, a);
  }

  /** A review-less accommodation rates `COALESCE(AVG, 0) = 0`: it passes
      `minRating <= 0` and fails `minRating > 0`. */
  lemma NoReviewsAndMinRating(db: Tables, f: SearchFilters, a: Accommodation)
    requires RatingsOf(db.reviews, a.id) == []
    ensures f.minRating.Some? && f.minRating.value > 0.0 ==> !Admits(db, PlanOf(f), a)
    ensures f.minRating.Some? && f.minRating.value <= 0.0 ==>
      (Admits(db, PlanOf(f), a) <==> Admits(db, PlanOf(f.(minRating := None)), a))
  {
    PlanMeaning(db, f, a);
    PlanMeaning(db, f.(minRating := None), a);
  }

  /** Any requested month that falls inside an amenity's range also passes
      the collapsed window, so the collapse never loses a match... */
  lemma PerMonthMatchPassesWindow(months: seq<int>, m: int, am: Amenity)
    requires m in months && Overlaps(am, m, m)
    ensures Overlaps(am, SeqMin(months), SeqMax(months))
  {
  }

  /** ...but it can add some: months {2, 40} match an amenity for 10 to 20
      months although neither month lies in its range. */
  lemma WindowWiderThanMonths()
    ensures var am := Amenity(1, 1, Some(10), Some(20));
      && Overlaps(am, SeqMin([2, 40]), SeqMax([2, 40]))
      && !Overlaps(am, 2, 2) && !Overlaps(am, 40, 40)
  {
    assert [2, 40][1..] == [40];
  }
}
