/** The filter panel of the search page. It keeps its own copy of the
    age-month and amenity selections, the two price boxes and the minimum
    rating. "Apply" hands the search page the filters it was opened with,
    with those five keys normalised; "Reset" clears them. The amenity list
    is shown grouped by category. */
module FilterSidebar {
  import opened Common
  import opened QueryParams

  /** An amenity of the master data list. */
  datatype MasterAmenity = MasterAmenity(id: int, name: string, categoryName: string)

  /** `filters.minPrice?.toString() || ''`. */
  function PriceText(p: Option<int>): string
  {
    if p.Some? then IntText(p.value) else ""
  }

  /** `minPrice ? parseFloat(minPrice) : undefined` on whole numbers: an
      empty box is undefined, and so is text that does not read as a number
      (JavaScript's NaN, which the query encoder drops the same way). */
  function PriceOf(text: string): (p: Option<int>)
    ensures text == "" ==> p.None?
    ensures p.Some? ==> ParseInt(text) == p
  {
    if text == "" then None else ParseInt(text)
  }

  /** `filters.minRating || 0`. */
  function RatingOf(r: Option<real>): real
  {
    if r.Some? then r.value else 0.0
  }

  /** What `handleApply` passes on: `{ ...filters, ageMonths, amenities,
      minPrice, maxPrice, minRating }`. */
  function Applied(filters: ClientFilters, ageMonths: seq<int>, amenities: seq<int>,
                   minPrice: string, maxPrice: string, minRating: real): (g: ClientFilters)
    ensures g.ageMonths.None? <==> ageMonths == []
    ensures g.ageMonths.Some? ==> g.ageMonths.value == ageMonths
    ensures g.amenities.None? <==> amenities == []
    ensures g.amenities.Some? ==> g.amenities.value == amenities
    ensures minPrice == "" ==> g.minPrice.None?
    ensures minPrice != "" ==> g.minPrice == ParseInt(minPrice)
    ensures maxPrice == "" ==> g.maxPrice.None?
    ensures maxPrice != "" ==> g.maxPrice == ParseInt(maxPrice)
    ensures g.minRating.None? <==> minRating <= 0.0
    ensures g.minRating.Some? ==> g.minRating.value == minRating
    ensures g.(ageMonths := filters.ageMonths, amenities := filters.amenities, minPrice := filters.minPrice,
               maxPrice := filters.maxPrice, minRating := filters.minRating) == filters
  {
    filters.(
      ageMonths := if |ageMonths| > 0 then Some(ageMonths) else None,
      amenities := if |amenities| > 0 then Some(amenities) else None,
      minPrice := PriceOf(minPrice),
      maxPrice := PriceOf(maxPrice),
      minRating := if minRating > 0.0 then Some(minRating) else None)
  }

  /** What `handleReset` passes on: the five keys undefined, the rest kept. */
  function Cleared(filters: ClientFilters): (g: ClientFilters)
    ensures g.ageMonths.None? && g.amenities.None? && g.minPrice.None? && g.maxPrice.None? && g.minRating.None?
    ensures g.(ageMonths := filters.ageMonths, amenities := filters.amenities, minPrice := filters.minPrice,
               maxPrice := filters.maxPrice, minRating := filters.minRating) == filters
  {
    filters.(ageMonths := None, amenities := None, minPrice := None, maxPrice := None, minRating := None)
  }

  /** Applying the cleared panel passes on what resetting passes on. */
  lemma ApplyClearedIsReset(filters: ClientFilters)
    ensures Applied(filters, [], [], "", "", 0.0) == Cleared(filters)
  {
  }

  /** Applying and reopening the panel on the result shows the same
      selections, prices and rating: the panel and the filters it produces
      agree. */
  lemma ApplyThenReopen(filters: ClientFilters, ageMonths: seq<int>, amenities: seq<int>,
                        minPrice: Option<int>, maxPrice: Option<int>, minRating: real)
    requires minRating >= 0.0
    ensures var g := Applied(filters, ageMonths, amenities, PriceText(minPrice), PriceText(maxPrice), minRating);
      && g.ageMonths.GetOr([]) == ageMonths
      && g.amenities.GetOr([]) == amenities
      && PriceText(g.minPrice) == PriceText(minPrice)
      && PriceText(g.maxPrice) == PriceText(maxPrice)
      && RatingOf(g.minRating) == minRating
  {
    if minPrice.Some? {
      PriceTextRoundTrip(minPrice.value);
    }
    if maxPrice.Some? {
      PriceTextRoundTrip(maxPrice.value);
    }
  }

  lemma PriceTextRoundTrip(p: int)
    ensures PriceText(Some(p)) != "" && PriceOf(PriceText(Some(p))) == Some(p)
  {
    ParseIntText(p);
    NatTextDigits(if p < 0 then -p else p);
  }

  /** An applied selection reaches the query: a list goes out iff it is
      non-empty and the rating iff it is above 0. */
  lemma AppliedQuery(filters: ClientFilters, ageMonths: seq<int>, amenities: seq<int>,
                     minPrice: string, maxPrice: string, minRating: real)
    ensures var g := Applied(filters, ageMonths, amenities, minPrice, maxPrice, minRating);
      && (Lookup(SearchParams(g), AgeMonthsParam).Some? <==> ageMonths != [])
      && (Lookup(SearchParams(g), AmenitiesParam).Some? <==> amenities != [])
      && (Lookup(SearchParams(g), MinRatingParam).Some? <==> minRating > 0.0)
      && (minPrice == "" ==> Lookup(SearchParams(g), MinPriceParam).None?)
  {
    var g := Applied(filters, ageMonths, amenities, minPrice, maxPrice, minRating);
    SearchParamsLookup(g);
  }

  /** The amenities grouped by category: `acc[categoryName]` collects them
      in list order. */
  method AmenitiesByCategory(amenities: seq<MasterAmenity>) returns (acc: map<string, seq<MasterAmenity>>)
    ensures acc.Keys == set i | 0 <= i < |amenities| :: amenities[i].categoryName
    ensures forall c | c in acc :: acc[c] == Select(amenities, (a: MasterAmenity) => a.categoryName == c)
  {
    var key := (a: MasterAmenity) => a.categoryName;
    acc := GroupBy(KeyedBy(amenities, key));
    KeysOfKeyedBy(amenities, key);
    forall c | c in acc
      ensures acc[c] == Select(amenities, (a: MasterAmenity) => a.categoryName == c)
    {
      GroupIsSelect(amenities, key, c, (a: MasterAmenity) => a.categoryName == c);
    }
  }

  class Sidebar {
    /** The search page's filters the panel was opened with. */
    var filters: ClientFilters
    var selectedAgeMonths: seq<int>
    var selectedAmenities: seq<int>
    var minPrice: string
    var maxPrice: string
    var minRating: real

    /** The panel's state starts from the filters it is given. */
    constructor(filters: ClientFilters)
      ensures this.filters == filters
      ensures selectedAgeMonths == filters.ageMonths.GetOr([])
      ensures selectedAmenities == filters.amenities.GetOr([])
      ensures minPrice == PriceText(filters.minPrice) && maxPrice == PriceText(filters.maxPrice)
      ensures minRating == RatingOf(filters.minRating)
    {
      this.filters := filters;
      selectedAgeMonths := filters.ageMonths.GetOr([]);
      selectedAmenities := filters.amenities.GetOr([]);
      minPrice := PriceText(filters.minPrice);
      maxPrice := PriceText(filters.maxPrice);
      minRating := RatingOf(filters.minRating);
    }

    /** `handleAgeMonthToggle`: the month's membership flips, the others
        stay. */
    method ToggleAgeMonth(monthFrom: int)
      modifies this
      ensures selectedAgeMonths == Toggle(old(selectedAgeMonths), monthFrom)
      ensures monthFrom in selectedAgeMonths <==> monthFrom !in old(selectedAgeMonths)
      ensures selectedAmenities == old(selectedAmenities) && filters == old(filters)
      ensures minPrice == old(minPrice) && maxPrice == old(maxPrice) && minRating == old(minRating)
    {
      selectedAgeMonths := if monthFrom in selectedAgeMonths then Without(selectedAgeMonths, monthFrom)
                           else selectedAgeMonths + [monthFrom];
    }

    /** `handleAmenityToggle`: likewise for an amenity id. */
    method ToggleAmenity(amenityId: int)
      modifies this
      ensures selectedAmenities == Toggle(old(selectedAmenities), amenityId)
      ensures amenityId in selectedAmenities <==> amenityId !in old(selectedAmenities)
      ensures selectedAgeMonths == old(selectedAgeMonths) && filters == old(filters)
      ensures minPrice == old(minPrice) && maxPrice == old(maxPrice) && minRating == old(minRating)
    {
      selectedAmenities := if amenityId in selectedAmenities then Without(selectedAmenities, amenityId)
                           else selectedAmenities + [amenityId];
    }

    /** `handleApply`: the filters to hand on; the panel keeps its state. */
    method HandleApply() returns (next: ClientFilters)
      ensures next == Applied(filters, selectedAgeMonths, selectedAmenities, minPrice, maxPrice, minRating)
    {
      next := filters.(
        ageMonths := if |selectedAgeMonths| > 0 then Some(selectedAgeMonths) else None,
        amenities := if |selectedAmenities| > 0 then Some(selectedAmenities) else None,
        minPrice := if minPrice != "" then ParseInt(minPrice) else None,
        maxPrice := if maxPrice != "" then ParseInt(maxPrice) else None,
        minRating := if minRating > 0.0 then Some(minRating) else None);
    }

    /** `handleReset`: the panel is cleared and the five keys are handed on
        as undefined. */
    method HandleReset() returns (next: ClientFilters)
      modifies this
      ensures selectedAgeMonths == [] && selectedAmenities == []
      ensures minPrice == "" && maxPrice == "" && minRating == 0.0
      ensures filters == old(filters)
      ensures next == Cleared(filters)
    {
      selectedAgeMonths := [];
      selectedAmenities := [];
      minPrice := "";
      maxPrice := "";
      minRating := 0.0;
      next := filters.(ageMonths := None, amenities := None, minPrice := None, maxPrice := None, minRating := None);
    }
  }

  /** Reset followed by apply hands on the same filters twice. */
  method ResetThenApply(panel: Sidebar) returns (reset: ClientFilters, applied: ClientFilters)
    modifies panel
    ensures reset == applied
    ensures reset == Cleared(old(panel.filters))
  {
    reset := panel.HandleReset();
    applied := panel.HandleApply();
    ApplyClearedIsReset(panel.filters);
  }

  /** Toggling an unselected month twice gives back the selection. */
  method ToggleTwice(panel: Sidebar, monthFrom: int)
    requires monthFrom !in panel.selectedAgeMonths
    modifies panel
    ensures panel.selectedAgeMonths == old(panel.selectedAgeMonths)
  {
    panel.ToggleAgeMonth(monthFrom);
    panel.ToggleAgeMonth(monthFrom);
    ToggleTwiceRestores(old(panel.selectedAgeMonths), monthFrom);
  }
}
