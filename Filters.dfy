/** The filter sidebar (components/Filters.tsx): every control replaces one key of the
    criteria record and keeps the rest; the reset button installs the default record. */
module Filters {
  import opened Types

  /** One `updateFilter(key, value)` call: which key, and its new value. */
  datatype FilterChange =
    | SetCategory(category: string)
    | SetPriceRange(low: real, high: real)
    | SetBrand(brand: string)
    | SetRating(rating: real)
    | SetInStock(inStock: bool)

  datatype FilterKey = CategoryKey | PriceRangeKey | BrandKey | RatingKey | InStockKey

  function KeyOf(change: FilterChange): FilterKey
  {
    match change
    case SetCategory(_) => CategoryKey
    case SetPriceRange(_, _) => PriceRangeKey
    case SetBrand(_) => BrandKey
    case SetRating(_) => RatingKey
    case SetInStock(_) => InStockKey
  }

  /** `{ ...filters, [key]: value }`: the changed key takes the new value, every other key keeps its old one. */
  function UpdateFilter(f: FilterState, change: FilterChange): (r: FilterState)
    ensures r.category == (if change.SetCategory? then change.category else f.category)
    ensures r.priceRange == (if change.SetPriceRange? then (change.low, change.high) else f.priceRange)
    ensures r.brand == (if change.SetBrand? then change.brand else f.brand)
    ensures r.rating == (if change.SetRating? then change.rating else f.rating)
    ensures r.inStock == (if change.SetInStock? then change.inStock else f.inStock)
  {
    match change
    case SetCategory(c) => f.(category := c)
    case SetPriceRange(lo, hi) => f.(priceRange := (lo, hi))
    case SetBrand(b) => f.(brand := b)
    case SetRating(x) => f.(rating := x)
    case SetInStock(b) => f.(inStock := b)
  }

  /** The "Reset Filters" button. */
  function ResetFilters(): FilterState
  {
    FilterState("All", (0.0, 1000.0), "All", 0.0, false)
  }

  const PriceSliderMin: int := 0
  const PriceSliderMax: int := 1000
  /** The rating slider runs from 0 to 5 in steps of 0.5: ten half steps. */
  const RatingHalfSteps: int := 10

  /** The low-price slider: `parseInt(value)` becomes `priceRange[0]`, `priceRange[1]` is kept. */
  function LowPriceSlider(f: FilterState, value: int): (r: FilterState)
    requires PriceSliderMin <= value <= PriceSliderMax
    ensures r.priceRange.0 == value as real && r.priceRange.1 == f.priceRange.1
    ensures r == f.(priceRange := r.priceRange)
  {
    UpdateFilter(f, SetPriceRange(value as real, f.priceRange.1))
  }

  /** The high-price slider: `parseInt(value)` becomes `priceRange[1]`, `priceRange[0]` is kept. */
  function HighPriceSlider(f: FilterState, value: int): (r: FilterState)
    requires PriceSliderMin <= value <= PriceSliderMax
    ensures r.priceRange.1 == value as real && r.priceRange.0 == f.priceRange.0
    ensures r == f.(priceRange := r.priceRange)
  {
    UpdateFilter(f, SetPriceRange(f.priceRange.0, value as real))
  }

  /** The rating slider at position `halfSteps` (0..10) sets a floor of `halfSteps / 2` stars. */
  function RatingSlider(f: FilterState, halfSteps: int): (r: FilterState)
    requires 0 <= halfSteps <= RatingHalfSteps
    ensures 0.0 <= r.rating <= 5.0 && r.rating * 2.0 == halfSteps as real
    ensures r == f.(rating := r.rating)
  {
    UpdateFilter(f, SetRating(halfSteps as real / 2.0))
  }

  /** The values the sliders can produce: whole prices in 0..1000, a rating in half steps from 0 to 5. */
  predicate InSliderRange(f: FilterState)
  {
    && 0.0 <= f.priceRange.0 <= 1000.0 && f.priceRange.0.Floor as real == f.priceRange.0
    && 0.0 <= f.priceRange.1 <= 1000.0 && f.priceRange.1.Floor as real == f.priceRange.1
    && 0.0 <= f.rating <= 5.0 && (f.rating * 2.0).Floor as real == f.rating * 2.0
  }

  /** The reset record is within the sliders' range, and every slider move stays within it. */
  lemma SlidersStayInRange(f: FilterState, price: int, halfSteps: int)
    requires InSliderRange(f)
    requires PriceSliderMin <= price <= PriceSliderMax && 0 <= halfSteps <= RatingHalfSteps
    ensures InSliderRange(ResetFilters())
    ensures InSliderRange(LowPriceSlider(f, price))
    ensures InSliderRange(HighPriceSlider(f, price))
    ensures InSliderRange(RatingSlider(f, halfSteps))
  {
    var r := RatingSlider(f, halfSteps);
    assert r.rating * 2.0 == halfSteps as real;
  }

  /** Nothing keeps the range ordered: from the reset record, moving the low slider to 900 and
      the high slider to 100 leaves low above high. */
  lemma SlidersCanInvertRange()
    ensures var f := HighPriceSlider(LowPriceSlider(ResetFilters(), 900), 100);
            f.priceRange.0 > f.priceRange.1
  {
  }

  /** Changes to different keys commute. */
  lemma UpdatesCommute(f: FilterState, a: FilterChange, b: FilterChange)
    requires KeyOf(a) != KeyOf(b)
    ensures UpdateFilter(UpdateFilter(f, a), b) == UpdateFilter(UpdateFilter(f, b), a)
  {
  }

  /** A later change to the same key overrides an earlier one. */
  lemma LastChangeWins(f: FilterState, a: FilterChange, b: FilterChange)
    requires KeyOf(a) == KeyOf(b)
    ensures UpdateFilter(UpdateFilter(f, a), b) == UpdateFilter(f, b)
  {
  }
}
