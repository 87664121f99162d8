/** The catalogue toolbar: a search box whose text reaches the search only
    after a debounce, a category select and a price slider. The search
    parameters and the badge counting active filters are derived from that
    state. */
module SweetsToolbar {
  import opened Types
  import Seqs

  const MaxPrice: int := 50

  /** The slider's untouched position. */
  const FullRange: PriceRange := PriceRange(0, MaxPrice)

  /** The range narrows the search when it is not the full [0, 50]. */
  predicate RangeActive(range: PriceRange)
  {
    range.low > 0 || range.high < MaxPrice
  }

  /** The parameters handed to the search: each key only when its filter is set. */
  function BuildParams(debouncedQuery: string, category: string, range: PriceRange): (p: SearchParams)
    ensures p.query.Some? <==> debouncedQuery != ""
    ensures p.query.Some? ==> p.query.value == debouncedQuery
    ensures p.category.Some? <==> category != ""
    ensures p.category.Some? ==> p.category.value == category
    ensures p.priceRange.Some? <==> RangeActive(range)
    ensures p.priceRange.Some? ==> p.priceRange.value == range
  {
    SearchParams(
      if debouncedQuery != "" then Some(debouncedQuery) else None,
      if category != "" then Some(category) else None,
      if RangeActive(range) then Some(range) else None)
  }

  /** How many keys a parameter object carries. */
  function KeyCount(p: SearchParams): (n: nat)
    ensures n <= 3
    ensures n == 0 <==> p == NoSearchParams
  {
    (if p.query.Some? then 1 else 0)
    + (if p.category.Some? then 1 else 0)
    + (if p.priceRange.Some? then 1 else 0)
  }

  function Truthy(b: bool): bool { b }

  /** The badge: `[debouncedQuery, category, rangeActive].filter(Boolean).length`. */
  function ActiveFiltersCount(debouncedQuery: string, category: string, range: PriceRange): (n: nat)
    ensures n <= 3
  {
    |Seqs.Filter([debouncedQuery != "", category != "", RangeActive(range)], Truthy)|
  }

  /** The badge counts exactly the keys of the emitted parameters, so it is
      at most 3 and is 0 exactly when nothing filters the catalogue. */
  lemma ActiveCountMatchesParams(debouncedQuery: string, category: string, range: PriceRange)
    ensures ActiveFiltersCount(debouncedQuery, category, range) == KeyCount(BuildParams(debouncedQuery, category, range))
    ensures ActiveFiltersCount(debouncedQuery, category, range) <= 3
    ensures ActiveFiltersCount(debouncedQuery, category, range) == 0
      <==> BuildParams(debouncedQuery, category, range) == NoSearchParams
  {
    var flags := [debouncedQuery != "", category != "", RangeActive(range)];
    assert flags == [flags[0]] + [flags[1]] + [flags[2]];
    Seqs.FilterAppend([flags[0]] + [flags[1]], [flags[2]], Truthy);
    Seqs.FilterAppend([flags[0]], [flags[1]], Truthy);
  }

  /** The state at rest emits no parameters and shows no badge. */
  lemma DefaultStateUnfiltered()
    ensures BuildParams("", "", FullRange) == NoSearchParams
    ensures ActiveFiltersCount("", "", FullRange) == 0
  {
    ActiveCountMatchesParams("", "", FullRange);
  }

  /** `handleCategoryChange`: the "all" entry clears the category. */
  function SelectedCategory(value: string): (c: string)
    ensures c == "" <==> value == "all" || value == ""
    ensures c != "" ==> c == value
  {
    if value == "all" then "" else value
  }

  class Toolbar {
    var query: string
    var debouncedQuery: string
    var category: string
    var priceRange: PriceRange

    /** The slider keeps 0 <= low <= high <= 50. */
    ghost predicate Valid()
      reads this
    {
      0 <= priceRange.low <= priceRange.high <= MaxPrice
    }

    /** The parameters the toolbar currently emits. */
    function EmittedParams(): SearchParams
      reads this
    {
      BuildParams(debouncedQuery, category, priceRange)
    }

    function FilterCount(): nat
      reads this
    {
      ActiveFiltersCount(debouncedQuery, category, priceRange)
    }

    constructor ()
      ensures Valid()
      ensures query == "" && debouncedQuery == "" && category == "" && priceRange == FullRange
      ensures EmittedParams() == NoSearchParams && FilterCount() == 0
    {
      query, debouncedQuery, category, priceRange := "", "", "", FullRange;
      DefaultStateUnfiltered();
    }

    /** Typing in the search box, or its clear button with "". The search is
        not affected until the debounce elapses. */
    method SetQuery(text: string)
      requires Valid()
      modifies this
      ensures Valid()
      ensures query == text
      ensures debouncedQuery == old(debouncedQuery) && category == old(category) && priceRange == old(priceRange)
      ensures EmittedParams() == old(EmittedParams())
    {
      query := text;
    }

    /** The debounce timer fires: the search picks up the text in the box. */
    method DebounceElapsed()
      requires Valid()
      modifies this
      ensures Valid()
      ensures debouncedQuery == query == old(query)
      ensures category == old(category) && priceRange == old(priceRange)
      ensures EmittedParams().query.Some? <==> query != ""
    {
      debouncedQuery := query;
    }

    /** Choosing in the category select; "all" removes the category filter. */
    method HandleCategoryChange(value: string)
      requires Valid()
      modifies this
      ensures Valid()
      ensures category == SelectedCategory(value)
      ensures query == old(query) && debouncedQuery == old(debouncedQuery) && priceRange == old(priceRange)
      ensures value == "all" ==> EmittedParams().category.None?
    {
      category := SelectedCategory(value);
    }

    /** Moving the slider, whose bounds are 0 and 50. */
    method SetPriceRange(low: int, high: int)
      requires Valid()
      requires 0 <= low <= high <= MaxPrice
      modifies this
      ensures Valid()
      ensures priceRange == PriceRange(low, high)
      ensures query == old(query) && debouncedQuery == old(debouncedQuery) && category == old(category)
      ensures EmittedParams().priceRange.Some? <==> low > 0 || high < MaxPrice
    {
      priceRange := PriceRange(low, high);
    }

    /** `handleReset`: the box, the select and the slider go back to rest.
        The search text already debounced stays in effect until the timer
        fires; from then on nothing is filtered. */
    method HandleReset()
      requires Valid()
      modifies this
      ensures Valid()
      ensures query == "" && category == "" && priceRange == FullRange
      ensures debouncedQuery == old(debouncedQuery)
      ensures EmittedParams() == BuildParams(old(debouncedQuery), "", FullRange)
      ensures FilterCount() == (if old(debouncedQuery) == "" then 0 else 1)
    {
      query, category, priceRange := "", "", FullRange;
      ActiveCountMatchesParams(debouncedQuery, category, priceRange);
    }
  }

  /** Reset followed by the debounce leaves the toolbar emitting nothing,
      whatever state it was in. */
  method ResetThenSettle(t: Toolbar)
    requires t.Valid()
    modifies t
    ensures t.EmittedParams() == NoSearchParams && t.FilterCount() == 0
  {
    t.HandleReset();
    t.DebounceElapsed();
    DefaultStateUnfiltered();
  }
}
