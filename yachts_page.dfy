/** The yacht list page (app/yachts/page.tsx): the checkbox filters, each a
    list toggled value by value, and the search form that turns the query,
    the price choice and the filters into the page's own URL. */
module YachtsPage {
  import opened Common
  import opened QueryParams

  /** A checkbox value: ratings are numbers, facilities and ship types are
      strings, and `includes` tells the two kinds apart. */
  datatype FilterValue = Num(n: int) | Text(s: string)

  datatype Category = Rating | Facilities | ShipType

  datatype Filters = Filters(rating: seq<FilterValue>, facilities: seq<FilterValue>, shipType: seq<FilterValue>)

  const ALL_PRICES: string := "Tất cả mức giá"

  function Get(f: Filters, c: Category): seq<FilterValue>
  {
    match c
    case Rating => f.rating
    case Facilities => f.facilities
    case ShipType => f.shipType
  }

  /** One list's toggle: a present value is removed, an absent one appended. */
  function Toggle(values: seq<FilterValue>, v: FilterValue): (r: seq<FilterValue>)
    ensures v in values ==>
      (v !in r && (forall x :: x in r <==> x in values && x != v) && IsSubsequence(r, values))
    ensures v !in values ==> r == values + [v]
  {
    if v in values then
      WithoutIsSubsequence(values, v);
      Without(values, v)
    else values + [v]
  }

  /** `handleFilterChange`: toggles the value in the named category only. */
  function ChangeFilter(f: Filters, c: Category, v: FilterValue): (r: Filters)
    ensures Get(r, c) == Toggle(Get(f, c), v)
    ensures forall other :: other != c ==> Get(r, other) == Get(f, other)
  {
    match c
    case Rating => f.(rating := Toggle(f.rating, v))
    case Facilities => f.(facilities := Toggle(f.facilities, v))
    case ShipType => f.(shipType := Toggle(f.shipType, v))
  }

  /** Checking and unchecking a box restores the list it started from. */
  lemma ToggleTwice(f: Filters, c: Category, v: FilterValue)
    requires v !in Get(f, c)
    ensures ChangeFilter(ChangeFilter(f, c, v), c, v) == f
  {
    WithoutAppended(Get(f, c), v);
  }

  /** `String(v)`. */
  function ValueText(v: FilterValue): string
  {
    match v
    case Num(n) => if n < 0 then "-" + NatToString(-n) else NatToString(n)
    case Text(s) => s
  }

  /** `values.join(',')`. */
  function JoinValues(values: seq<FilterValue>): string
  {
    Join(seq(|values|, i requires 0 <= i < |values| => ValueText(values[i])), ",")
  }

  /** The parameter set for one filter list: nothing for an empty list. */
  function FilterParam(values: seq<FilterValue>): Option<string>
  {
    if |values| > 0 then Some(JoinValues(values)) else None
  }

  /** `searchQuery?.trim()` when it is non-empty. */
  function QueryParam(q: Option<string>): Option<string>
  {
    if q.Some? && Trim(q.value) != "" then Some(Trim(q.value)) else None
  }

  /** The price choice, unless it is empty or the "all prices" entry. */
  function PriceParam(price: Option<string>): Option<string>
  {
    if price.Some? && price.value != "" && price.value != ALL_PRICES then price else None
  }

  /** The pair a present value contributes. */
  function Pair(key: string, value: Option<string>): (r: Params)
    ensures value.None? ==> r == []
    ensures value.Some? ==> r == [(key, value.value)]
  {
    if value.Some? then [(key, value.value)] else []
  }

  /** The pairs of the search URL: `q`, `price`, `rating`, `facilities` and
      `shipType`, each present exactly when its value is, in that order. */
  function SearchPairs(q: Option<string>, price: Option<string>, filters: Filters): Params
  {
    FivePairs(QueryParam(q), PriceParam(price), FilterParam(filters.rating),
      FilterParam(filters.facilities), FilterParam(filters.shipType))
  }

  /** Reading the search URL back gives each parameter's value, and nothing
      for a parameter that was left out. */
  lemma SearchPairsLookup(q: Option<string>, price: Option<string>, filters: Filters)
    ensures var ps := SearchPairs(q, price, filters);
      Lookup(ps, "q") == QueryParam(q)
      && Lookup(ps, "price") == PriceParam(price)
      && Lookup(ps, "rating") == FilterParam(filters.rating)
      && Lookup(ps, "facilities") == FilterParam(filters.facilities)
      && Lookup(ps, "shipType") == FilterParam(filters.shipType)
  {
    var a := Pair("q", QueryParam(q));
    var b := Pair("price", PriceParam(price));
    var c := Pair("rating", FilterParam(filters.rating));
    var d := Pair("facilities", FilterParam(filters.facilities));
    var e := Pair("shipType", FilterParam(filters.shipType));
    assert "q" != "price" && "q" != "rating" && "q" != "facilities" && "q" != "shipType";
    assert "price" != "rating" && "price" != "facilities" && "price" != "shipType";
    assert "rating" != "facilities" && "rating" != "shipType" && "facilities" != "shipType";
    LookupFirst(a, b, c, d, e, "q");
    LookupFirst(a, b, c, d, e, "price");
    LookupFirst(a, b, c, d, e, "rating");
    LookupFirst(a, b, c, d, e, "facilities");
    LookupFirst(a, b, c, d, e, "shipType");
  }

  lemma LookupFirst(a: Params, b: Params, c: Params, d: Params, e: Params, key: string)
    ensures Lookup(a + b + c + d + e, key) ==
      if Lookup(a, key).Some? then Lookup(a, key)
      else if Lookup(b, key).Some? then Lookup(b, key)
      else if Lookup(c, key).Some? then Lookup(c, key)
      else if Lookup(d, key).Some? then Lookup(d, key)
      else Lookup(e, key)
  {
    LookupAppend(a + b + c + d, e, key);
    LookupAppend(a + b + c, d, key);
    LookupAppend(a + b, c, key);
    LookupAppend(a, b, key);
  }

  /** The pairs for the five values, in the order `handleSearch` sets them. */
  function FivePairs(qv: Option<string>, pv: Option<string>, rv: Option<string>, fv: Option<string>, sv: Option<string>): Params
  {
    Pair("q", qv) + Pair("price", pv) + Pair("rating", rv) + Pair("facilities", fv) + Pair("shipType", sv)
  }

  /** `handleSearch`'s successive `params.set` calls on a fresh parameter
      list build exactly the search pairs. */
  method SearchParams(q: Option<string>, price: Option<string>, filters: Filters) returns (params: Params)
    ensures params == SearchPairs(q, price, filters)
  {
    params := SetAll(QueryParam(q), PriceParam(price), FilterParam(filters.rating),
      FilterParam(filters.facilities), FilterParam(filters.shipType));
  }

  /** The five `if (value) params.set(key, value)` steps. */
  method SetAll(qv: Option<string>, pv: Option<string>, rv: Option<string>, fv: Option<string>, sv: Option<string>)
    returns (params: Params)
    ensures params == FivePairs(qv, pv, rv, fv, sv)
  {
    var a := Pair("q", qv);
    var b := Pair("price", pv);
    var c := Pair("rating", rv);
    var d := Pair("facilities", fv);
    assert "q" != "price" && "q" != "rating" && "q" != "facilities" && "q" != "shipType";
    assert "price" != "rating" && "price" != "facilities" && "price" != "shipType";
    assert "rating" != "facilities" && "rating" != "shipType" && "facilities" != "shipType";
    params := SetWhen([], "q", qv);
    assert params == a;
    PairsAbsent(a, [], [], [], "price");
    assert a + [] + [] + [] == a;
    params := SetWhen(params, "price", pv);
    PairsAbsent(a, b, [], [], "rating");
    assert a + b + [] + [] == a + b;
    params := SetWhen(params, "rating", rv);
    PairsAbsent(a, b, c, [], "facilities");
    assert a + b + c + [] == a + b + c;
    params := SetWhen(params, "facilities", fv);
    PairsAbsent(a, b, c, d, "shipType");
    params := SetWhen(params, "shipType", sv);
  }

  /** The keys of the search pairs are distinct, so a key not among the
      first lists' keys is not set yet. */
  lemma PairsAbsent(a: Params, b: Params, c: Params, d: Params, key: string)
    requires Lookup(a, key).None? && Lookup(b, key).None? && Lookup(c, key).None? && Lookup(d, key).None?
    ensures Lookup(a + b + c + d, key).None?
  {
    LookupAppend(a + b + c, d, key);
    LookupAppend(a + b, c, key);
    LookupAppend(a, b, key);
  }

  /** `if (value) params.set(key, value)` on a key not yet set. */
  method SetWhen(ps: Params, key: string, value: Option<string>) returns (r: Params)
    requires Lookup(ps, key).None?
    ensures r == ps + Pair(key, value)
  {
    r := ps;
    if value.Some? {
      SetParamFresh(ps, key, value.value);
      r := SetParam(ps, key, value.value);
    }
  }

  /** The state of the yacht list page. */
  class YachtListPage {
    var filters: Filters
    var navigation: Option<string>

    constructor ()
      ensures filters == Filters([], [], []) && navigation == None
    {
      filters := Filters([], [], []);
      navigation := None;
    }

    /** A checkbox changes. */
    method HandleFilterChange(c: Category, v: FilterValue)
      modifies this`filters
      ensures filters == ChangeFilter(old(filters), c, v)
    {
      filters := ChangeFilter(filters, c, v);
    }

    /** The search form is submitted: the page moves to its own URL with
        the built parameters. */
    method HandleSearch(q: Option<string>, price: Option<string>)
      modifies this`navigation
      ensures navigation == Some("/yachts?" + QueryString(SearchPairs(q, price, filters)))
    {
      var params := SearchParams(q, price, filters);
      navigation := Some("/yachts?" + QueryString(params));
    }
  }
}
