/** The server actions of the home page (app/page.tsx): the search form,
    which redirects to the yacht search results, and the booking form. */
module HomePage {
  import opened Common
  import opened Booking
  import opened QueryParams
  import opened YachtsPage

  const ALL_LOCATIONS: string := "Tất cả địa điểm"

  /** `q` is the query exactly as typed, when it is non-empty: this form
      does not trim it. */
  function HomeQueryParam(q: Option<string>): Option<string>
  {
    if q.Some? && q.value != "" then q else None
  }

  /** The location, unless it is empty or the "all locations" entry. */
  function LocationParam(location: Option<string>): Option<string>
  {
    if location.Some? && location.value != "" && location.value != ALL_LOCATIONS then location else None
  }

  /** The pairs of the redirect URL: `q`, `location` and `price`, each
      present exactly when its value is, in that order. */
  function HomePairs(q: Option<string>, location: Option<string>, price: Option<string>): Params
  {
    Pair("q", HomeQueryParam(q)) + Pair("location", LocationParam(location)) + Pair("price", PriceParam(price))
  }

  /** Reading the redirect URL back gives each parameter's value. */
  lemma HomePairsLookup(q: Option<string>, location: Option<string>, price: Option<string>)
    ensures var ps := HomePairs(q, location, price);
      Lookup(ps, "q") == HomeQueryParam(q)
      && Lookup(ps, "location") == LocationParam(location)
      && Lookup(ps, "price") == PriceParam(price)
  {
    var a := Pair("q", HomeQueryParam(q));
    var b := Pair("location", LocationParam(location));
    var c := Pair("price", PriceParam(price));
    assert "q" != "location" && "q" != "price" && "location" != "price";
    LookupAppend(a + b, c, "q");
    LookupAppend(a, b, "q");
    LookupAppend(a + b, c, "location");
    LookupAppend(a, b, "location");
    LookupAppend(a + b, c, "price");
    LookupAppend(a, b, "price");
  }

  /** The two search forms treat a padded query differently: the home page
      sends it as typed, the yacht list page trims it, and a query of
      blanks only is sent by the home page and dropped by the other. */
  lemma PaddedQueries()
    ensures HomeQueryParam(Some(" sea ")) == Some(" sea ")
    ensures QueryParam(Some(" sea ")) == Some("sea")
    ensures HomeQueryParam(Some(" ")) == Some(" ") && QueryParam(Some(" ")) == None
  {
    TrimStartPadded();
    TrimEndPadded();
    TrimBlank();
  }

  lemma TrimStartPadded()
    ensures TrimStart(" sea ") == "sea "
  {
    assert " sea "[1..] == "sea ";
    assert !IsSpace("sea "[0]);
  }

  lemma TrimEndPadded()
    ensures TrimEnd("sea ") == "sea"
  {
    assert "sea "[..3] == "sea";
    assert !IsSpace("sea"[2]);
  }

  lemma TrimBlank()
    ensures Trim(" ") == ""
  {
    assert " "[1..] == "";
  }

  /** `handleSearch`: the parameters are set one after the other on a fresh
      list, and the action redirects to the yacht search results. */
  method HandleSearch(q: Option<string>, location: Option<string>, price: Option<string>)
    returns (redirect: string)
    ensures redirect == "/yachts/search?" + QueryString(HomePairs(q, location, price))
  {
    var a := Pair("q", HomeQueryParam(q));
    var b := Pair("location", LocationParam(location));
    var params: Params := [];
    params := SetWhen(params, "q", HomeQueryParam(q));
    assert params == a;
    LookupAppend(a, b, "price");
    params := SetWhen(params, "location", LocationParam(location));
    params := SetWhen(params, "price", PriceParam(price));
    redirect := "/yachts/search?" + QueryString(params);
  }

  /** `yacht_id` of the booking action: undefined unless the service is a
      yacht, and otherwise `parseInt(serviceId)`, which may be NaN. */
  datatype IdField = Undefined | NotANumber | Id(n: int)

  function YachtIdField(serviceType: string, serviceId: string): (r: IdField)
    ensures serviceType != "yacht" <==> r.Undefined?
    ensures serviceType == "yacht" ==> (r.Id? <==> ParseInt(serviceId).Some?)
    ensures r.Id? ==> ParseInt(serviceId) == Some(r.n)
  {
    if serviceType != "yacht" then Undefined
    else match ParseInt(serviceId)
      case None => NotANumber
      case Some(n) => Id(n)
  }

  /** A yacht booked by its decimal id carries that id. */
  lemma YachtIdOfDecimal(n: nat)
    ensures YachtIdField("yacht", NatToString(n)) == Id(n)
  {
    ParseIntOfNatToString(n, "");
    assert NatToString(n) + "" == NatToString(n);
  }

  /** The body the booking action sends. */
  datatype ActionBooking = ActionBooking(serviceType: string, yachtId: IdField, bookingDate: Timestamp)

  /** The `createBooking` server action: it sends the booking and throws
      when the reply carries an error text or the request fails. */
  method CreateBookingAction(serviceType: string, serviceId: string, now: Timestamp, reply: Reply)
    returns (sent: ActionBooking, threw: bool)
    ensures sent.serviceType == serviceType && sent.bookingDate == now
    ensures sent.yachtId == YachtIdField(serviceType, serviceId)
    ensures threw <==> reply.Rejected? || ErrorTruthy(reply)
  {
    sent := ActionBooking(serviceType, YachtIdField(serviceType, serviceId), now);
    threw := reply.Rejected?;
    if !threw && reply.HttpError? && reply.text != "" {
      threw := true;
    }
  }
}
