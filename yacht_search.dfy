/** The yacht search results page (app/yachts/search/page.tsx): the price
    band chosen by label and the filter of the fetched yachts by text and
    price. */
module YachtSearch {
  import opened Common

  /** The fields of a fetched yacht that the filter reads. */
  datatype Yacht = Yacht(name: string, description: string, price: int)

  /** A closed price band; a `max` of `None` is `Infinity`. */
  datatype PriceBand = PriceBand(min: int, max: Option<int>)

  const BELOW_ONE_MILLION: string := "Dưới 1 triệu"
  const ONE_TO_THREE_MILLION: string := "1-3 triệu"
  const ABOVE_THREE_MILLION: string := "Trên 3 triệu"

  /** `getPriceRange`. */
  function GetPriceRange(choice: string): PriceBand
  {
    if choice == BELOW_ONE_MILLION then PriceBand(0, Some(1000000))
    else if choice == ONE_TO_THREE_MILLION then PriceBand(1000000, Some(3000000))
    else if choice == ABOVE_THREE_MILLION then PriceBand(3000000, None)
    else PriceBand(0, None)
  }

  /** `price >= min && price <= max`: both bounds are inclusive. */
  predicate InBand(price: int, band: PriceBand)
  {
    price >= band.min && (band.max.None? || price <= band.max.value)
  }

  /** Which prices each label admits. The bands overlap at their shared
      bounds, so 1000000 and 3000000 each match two adjacent bands; every
      non-negative price matches at least one named band; and any other
      label, the empty one included, admits every non-negative price. */
  lemma PriceBands(price: int, other: string)
    requires other != BELOW_ONE_MILLION && other != ONE_TO_THREE_MILLION && other != ABOVE_THREE_MILLION
    ensures InBand(price, GetPriceRange(BELOW_ONE_MILLION)) <==> 0 <= price <= 1000000
    ensures InBand(price, GetPriceRange(ONE_TO_THREE_MILLION)) <==> 1000000 <= price <= 3000000
    ensures InBand(price, GetPriceRange(ABOVE_THREE_MILLION)) <==> 3000000 <= price
    ensures InBand(price, GetPriceRange(other)) <==> 0 <= price
    ensures InBand(1000000, GetPriceRange(BELOW_ONE_MILLION)) && InBand(1000000, GetPriceRange(ONE_TO_THREE_MILLION))
    ensures InBand(3000000, GetPriceRange(ONE_TO_THREE_MILLION)) && InBand(3000000, GetPriceRange(ABOVE_THREE_MILLION))
    ensures price >= 0 ==> (InBand(price, GetPriceRange(BELOW_ONE_MILLION))
      || InBand(price, GetPriceRange(ONE_TO_THREE_MILLION)) || InBand(price, GetPriceRange(ABOVE_THREE_MILLION)))
  {
  }

  /** The band for the `price` parameter (`price || ''`). */
  function BandFor(price: Option<string>): PriceBand
  {
    GetPriceRange(if price.Some? then price.value else "")
  }

  /** The text test: no query (or an empty one) matches every yacht;
      otherwise the name or the description must contain the query,
      ignoring case. */
  predicate MatchesSearch(y: Yacht, query: Option<string>)
  {
    query.None? || query.value == ""
    || ContainsIgnoreCase(y.name, query.value) || ContainsIgnoreCase(y.description, query.value)
  }

  /** The combined test `filteredYachts` applies to each yacht. */
  predicate Kept(y: Yacht, query: Option<string>, price: Option<string>)
  {
    MatchesSearch(y, query) && InBand(y.price, BandFor(price))
  }

  /** `filteredYachts`. */
  function FilteredYachts(yachts: seq<Yacht>, query: Option<string>, price: Option<string>): seq<Yacht>
  {
    Filter(yachts, y => Kept(y, query, price))
  }

  /** The result is the yachts that pass both tests, in their fetched order,
      each as many times as it was fetched. */
  lemma FilteredYachtsSpec(yachts: seq<Yacht>, query: Option<string>, price: Option<string>)
    ensures forall y :: y in FilteredYachts(yachts, query, price) <==>
      y in yachts && MatchesSearch(y, query) && InBand(y.price, BandFor(price))
    ensures IsSubsequence(FilteredYachts(yachts, query, price), yachts)
    ensures forall y :: (multiset(FilteredYachts(yachts, query, price))[y]
      == if MatchesSearch(y, query) && InBand(y.price, BandFor(price)) then multiset(yachts)[y] else 0)
  {
    FilterIsSubsequence(yachts, y => Kept(y, query, price));
    FilterMultiset(yachts, y => Kept(y, query, price));
  }

  /** With neither a query nor a price every yacht of non-negative price is
      kept. */
  lemma FilteredYachtsUnfiltered(yachts: seq<Yacht>)
    requires forall k :: 0 <= k < |yachts| ==> yachts[k].price >= 0
    ensures FilteredYachts(yachts, None, None) == yachts
  {
    FilterAllPass(yachts, y => Kept(y, None, None));
  }
}
