/** The catalogue's filter panel (AnticcaReale-main/src/components/product/
    ProductFilters.tsx): the edits it makes to the filter record and the price slider's
    local range. */
module ProductFilters {
  import opened Types

  /** The slider's upper end, which stands for "no upper bound". */
  const MAX_PRICE: int := 500000

  /** The keys `updateFilter` is called with, and the value given. */
  datatype FilterEdit =
    | SetSearch(search: string)
    | SetSortBy(sortBy: SortBy)
    | SetShopId(shopId: string)
    | SetCategory(category: Option<Category>)   // `None` for the "all" button's ''

  /** `value || undefined` for a string. */
  function OrUndefined(s: string): (r: Option<string>)
    ensures r.None? <==> s == ""
    ensures r.Some? ==> r.value == s
  {
    if s == "" then None else Some(s)
  }

  /** `updateFilter(key, value)`: sets that key, a falsy value clearing it. */
  function UpdateFilter(filters: FilterState, edit: FilterEdit): (r: FilterState)
    ensures r.minPrice == filters.minPrice && r.maxPrice == filters.maxPrice
      && r.saleType == filters.saleType
    ensures edit.SetSearch? ==> r == filters.(search := OrUndefined(edit.search))
    ensures edit.SetSortBy? ==> r == filters.(sortBy := edit.sortBy)
    ensures edit.SetShopId? ==> r == filters.(shopId := OrUndefined(edit.shopId))
    ensures edit.SetCategory? ==> r == filters.(category := edit.category)
  {
    match edit
    case SetSearch(v) => filters.(search := if v == "" then None else Some(v))
    case SetSortBy(v) => filters.(sortBy := v)
    case SetShopId(v) => filters.(shopId := if v == "" then None else Some(v))
    case SetCategory(v) => filters.(category := v)
  }

  /** `applyPriceFilter`: the slider's range becomes the price bounds, an end at the
      slider's limit meaning no bound. */
  function ApplyPriceFilter(filters: FilterState, localMin: int, localMax: int): (r: FilterState)
    ensures r.minPrice == (if localMin > 0 then Some(localMin) else None)
    ensures r.maxPrice == (if localMax < MAX_PRICE then Some(localMax) else None)
    ensures r.(minPrice := filters.minPrice, maxPrice := filters.maxPrice) == filters
  {
    filters.(minPrice := if localMin > 0 then Some(localMin) else None,
             maxPrice := if localMax < MAX_PRICE then Some(localMax) else None)
  }

  /** The filters `resetFilters` publishes. */
  const ResetFilters: FilterState := FilterState(None, None, None, None, None, Newest, None)

  /** `hasActiveFilters`: any of category, shop, search or a non-zero price bound is set.
      The sale type is not counted. */
  predicate HasActiveFilters(filters: FilterState)
  {
    || filters.category.Some?
    || TruthyString(filters.shopId)
    || TruthyString(filters.search)
    || (filters.minPrice.Some? && filters.minPrice.value != 0)
    || (filters.maxPrice.Some? && filters.maxPrice.value != 0)
  }

  /** After a reset nothing is active; applying the full slider range sets no bound. */
  lemma ResetClearsFilters(filters: FilterState)
    ensures !HasActiveFilters(ResetFilters)
    ensures ResetFilters.sortBy == Newest
    ensures var r := ApplyPriceFilter(filters, 0, MAX_PRICE);
      r.minPrice.None? && r.maxPrice.None?
    ensures !HasActiveFilters(filters) ==> !HasActiveFilters(ApplyPriceFilter(filters, 0, MAX_PRICE))
  {
  }

  /** The slider position the panel derives from the filters (`|| 0`, `|| MAX_PRICE`). */
  function SliderMin(filters: FilterState): int
  {
    if filters.minPrice.Some? && filters.minPrice.value != 0 then filters.minPrice.value else 0
  }

  function SliderMax(filters: FilterState): int
  {
    if filters.maxPrice.Some? && filters.maxPrice.value != 0 then filters.maxPrice.value else MAX_PRICE
  }

  /** Applying a slider range and reading the slider back from the new filters gives the
      same range, whenever the range is one the slider can hold. */
  lemma ApplyThenReadBack(filters: FilterState, localMin: int, localMax: int)
    requires 0 <= localMin < localMax <= MAX_PRICE
    ensures SliderMin(ApplyPriceFilter(filters, localMin, localMax)) == localMin
    ensures SliderMax(ApplyPriceFilter(filters, localMin, localMax)) == localMax
  {
  }

  /** The price slider's local range. */
  class PriceSlider {
    var localMin: int
    var localMax: int

    constructor (filters: FilterState)
      ensures localMin == SliderMin(filters) && localMax == SliderMax(filters)
    {
      localMin := SliderMin(filters);
      localMax := SliderMax(filters);
    }

    /** The lower thumb moved to `v`: taken only below the upper end. */
    method MoveMin(v: int)
      modifies this
      ensures localMax == old(localMax)
      ensures localMin == (if v < old(localMax) then v else old(localMin))
      ensures old(localMin) < old(localMax) ==> localMin < localMax
    {
      if v < localMax {
        localMin := v;
      }
    }

    /** The upper thumb moved to `v`: taken only above the lower end. */
    method MoveMax(v: int)
      modifies this
      ensures localMin == old(localMin)
      ensures localMax == (if v > old(localMin) then v else old(localMax))
      ensures old(localMin) < old(localMax) ==> localMin < localMax
    {
      if v > localMin {
        localMax := v;
      }
    }

    /** `resetFilters`: the published filters and the slider back to the full range. */
    method Reset() returns (published: FilterState)
      modifies this
      ensures published == ResetFilters
      ensures localMin == 0 && localMax == MAX_PRICE
    {
      published := FilterState(None, None, None, None, None, Newest, None);
      localMin := 0;
      localMax := MAX_PRICE;
    }

    /** The effect that re-reads the range when the filters' price bounds change. */
    method Sync(filters: FilterState)
      modifies this
      ensures localMin == SliderMin(filters) && localMax == SliderMax(filters)
    {
      localMin := SliderMin(filters);
      localMax := SliderMax(filters);
    }
  }
}
