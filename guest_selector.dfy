/** The guest counter of the search bar: adults, children and infants, each
    with a plus and a minus button. Minus stops at one adult and at zero
    children or infants; the label shows the total. */
module GuestSelector {
  import opened Common

  datatype GuestCounts = GuestCounts(adults: int, children: int, infants: int)

  datatype GuestField = Adults | Children | Infants

  function Get(c: GuestCounts, f: GuestField): int
  {
    match f
    case Adults => c.adults
    case Children => c.children
    case Infants => c.infants
  }

  function Set(c: GuestCounts, f: GuestField, v: int): GuestCounts
  {
    match f
    case Adults => c.(adults := v)
    case Children => c.(children := v)
    case Infants => c.(infants := v)
  }

  /** `type === 'adults' ? 1 : 0`. */
  function MinValue(f: GuestField): int
  {
    if f == Adults then 1 else 0
  }

  /** At least one adult, and no negative count. */
  predicate Valid(c: GuestCounts)
  {
    c.adults >= 1 && c.children >= 0 && c.infants >= 0
  }

  /** `totalGuests`. */
  function Total(c: GuestCounts): int
  {
    c.adults + c.children + c.infants
  }

  /** `handleIncrement`: the chosen count goes up by one, the other two
      stay. */
  function Increment(c: GuestCounts, f: GuestField): (r: GuestCounts)
    ensures Get(r, f) == Get(c, f) + 1
    ensures forall g | g != f :: Get(r, g) == Get(c, g)
    ensures Total(r) == Total(c) + 1
  {
    Set(c, f, Get(c, f) + 1)
  }

  /** `handleDecrement`: the new counts, or None when the count is already
      at its minimum and `onChange` is not called. */
  function Decrement(c: GuestCounts, f: GuestField): (r: Option<GuestCounts>)
    ensures r.None? <==> Get(c, f) <= MinValue(f)
    ensures r.Some? ==> Get(r.value, f) == Get(c, f) - 1 && Total(r.value) == Total(c) - 1
    ensures r.Some? ==> forall g | g != f :: Get(r.value, g) == Get(c, g)
  {
    if Get(c, f) > MinValue(f) then Some(Set(c, f, Get(c, f) - 1)) else None
  }

  /** `disabled={value.adults <= 1}` and `disabled={value.children <= 0}`:
      a minus button is disabled exactly when pressing it would do
      nothing. */
  predicate MinusDisabled(c: GuestCounts, f: GuestField)
  {
    Get(c, f) <= MinValue(f)
  }

  /** Both buttons keep the counts valid. */
  lemma StepsKeepValid(c: GuestCounts, f: GuestField)
    requires Valid(c)
    ensures Valid(Increment(c, f))
    ensures Decrement(c, f).Some? ==> Valid(Decrement(c, f).value)
    ensures MinusDisabled(c, f) <==> Decrement(c, f).None?
  {
  }

  /** Plus then minus on the same count gives back the counts. */
  lemma IncrementThenDecrement(c: GuestCounts, f: GuestField)
    requires Valid(c)
    ensures Decrement(Increment(c, f), f) == Some(c)
  {
  }

  /** Minus then plus, when minus did something, gives back the counts. */
  lemma DecrementThenIncrement(c: GuestCounts, f: GuestField)
    requires Decrement(c, f).Some?
    ensures Increment(Decrement(c, f).value, f) == c
  {
  }

  /** A valid party has at least one guest. */
  lemma TotalAtLeastOne(c: GuestCounts)
    requires Valid(c)
    ensures Total(c) >= 1
  {
  }
}
