/** The flight search page (app/flights/FlightSearch.tsx): passenger forms
    that follow the party size, the completeness gate of the "Tiếp" button,
    the airline filter, airport suggestions, five-per-page results with
    windowed page buttons, and the draft the page saves for the seat page. */
module FlightSearch {
  import opened Common
  import opened Booking

  const PAGE_SIZE: nat := 5

  // ---------------------------------------------------------------------------
  // Passenger forms

  function BlankPassenger(): Passenger
  {
    Passenger("", "", "", "", "", "")
  }

  /** The effect on `adults` and `children`: the list of traveller forms grows
      with blank forms or is cut down to `total` (infants get no form). */
  function ResizePassengers(inputs: seq<Passenger>, total: nat): (r: seq<Passenger>)
    ensures |r| == total
    ensures forall k :: 0 <= k < total && k < |inputs| ==> r[k] == inputs[k]
    ensures forall k :: |inputs| <= k < total ==> r[k] == BlankPassenger()
  {
    if |inputs| < total then inputs + seq(total - |inputs|, _ => BlankPassenger())
    else if |inputs| > total then inputs[..total]
    else inputs
  }

  /** Every one of the six fields of a traveller's form is filled in. */
  predicate Complete(p: Passenger)
  {
    p.kind != "" && p.ho != "" && p.ten != "" && p.dob != "" && p.cccd != "" && p.cccdExp != ""
  }

  /** `isFormValid()`: one form per adult and child, and each complete. */
  predicate FormValid(passengers: seq<Passenger>, party: PartySize)
  {
    |passengers| == party.adults + party.children
    && forall k :: 0 <= k < |passengers| ==> Complete(passengers[k])
  }

  /** `isFormValid` as the page runs it: a length check, then a loop that
      returns false at the first incomplete form. */
  method IsFormValid(passengers: seq<Passenger>, party: PartySize) returns (valid: bool)
    ensures valid <==> FormValid(passengers, party)
  {
    if |passengers| != party.adults + party.children {
      return false;
    }
    for i := 0 to |passengers|
      invariant forall k :: 0 <= k < i ==> Complete(passengers[k])
    {
      var p := passengers[i];
      if p.kind == "" || p.ho == "" || p.ten == "" || p.dob == "" || p.cccd == "" || p.cccdExp == "" {
        return false;
      }
    }
    return true;
  }

  /** Right after a change of party size the gate opens exactly when the old
      forms already covered the whole party and those kept are complete: a
      blank form added for a new traveller always closes it. */
  lemma ResizedFormValid(inputs: seq<Passenger>, party: PartySize)
    ensures var total := party.adults + party.children;
      FormValid(ResizePassengers(inputs, total), party)
      <==> total <= |inputs| && forall k :: 0 <= k < total ==> Complete(inputs[k])
  {
    var total := party.adults + party.children;
    var r := ResizePassengers(inputs, total);
    if total > |inputs| {
      assert !Complete(r[|inputs|]);
    }
  }

  datatype PassengerField = Kind | Ho | Ten | Dob | Cccd | CccdExp

  /** `cp[idx].<field> = value` on one form. */
  function WithField(p: Passenger, field: PassengerField, value: string): Passenger
  {
    match field
    case Kind => p.(kind := value)
    case Ho => p.(ho := value)
    case Ten => p.(ten := value)
    case Dob => p.(dob := value)
    case Cccd => p.(cccd := value)
    case CccdExp => p.(cccdExp := value)
  }

  // ---------------------------------------------------------------------------
  // Airline filter

  /** `Object.keys(filter).filter(k => filter[k])`. */
  function CheckedAirlines(filter: map<string, bool>): set<string>
  {
    set k | k in filter && filter[k]
  }

  predicate PassesAirline(f: Flight, checked: set<string>)
  {
    checked == {} || (f.airline.name.Some? && f.airline.name.value in checked)
  }

  /** `filteredFlights`. */
  function FilterFlights(flights: seq<Flight>, filter: map<string, bool>): seq<Flight>
  {
    Filter(flights, f => PassesAirline(f, CheckedAirlines(filter)))
  }

  /** With no airline ticked every flight is shown; otherwise exactly the
      flights whose airline name is ticked, in their original order. */
  lemma AirlineFilter(flights: seq<Flight>, filter: map<string, bool>)
    ensures CheckedAirlines(filter) == {} ==> FilterFlights(flights, filter) == flights
    ensures forall f :: f in FilterFlights(flights, filter) <==>
      f in flights && (CheckedAirlines(filter) == {}
        || (f.airline.name.Some? && f.airline.name.value in filter && filter[f.airline.name.value]))
    ensures IsSubsequence(FilterFlights(flights, filter), flights)
    ensures forall f :: (multiset(FilterFlights(flights, filter))[f]
      == if PassesAirline(f, CheckedAirlines(filter)) then multiset(flights)[f] else 0)
  {
    var checked := CheckedAirlines(filter);
    if checked == {} {
      FilterAllPass(flights, f => PassesAirline(f, checked));
    }
    FilterIsSubsequence(flights, f => PassesAirline(f, checked));
    FilterMultiset(flights, f => PassesAirline(f, checked));
  }

  // ---------------------------------------------------------------------------
  // Airport suggestions

  datatype Airport = Airport(code: string, name: string)

  const AIRPORTS: seq<Airport> := [
    Airport("HAN", "Sân bay Nội Bài (HAN)"),
    Airport("SGN", "Sân bay Tân Sơn Nhất (SGN)"),
    Airport("DAD", "Sân bay Đà Nẵng (DAD)"),
    Airport("CXR", "Sân bay Cam Ranh (CXR)"),
    Airport("HUI", "Sân bay Phú Bài (HUI)"),
    Airport("VCA", "Sân bay Cần Thơ (VCA)"),
    Airport("PQC", "Sân bay Phú Quốc (PQC)"),
    Airport("VDH", "Sân bay Đồng Hới (VDH)"),
    Airport("VII", "Sân bay Vinh (VII)")
  ]

  predicate Suggests(a: Airport, typed: string)
  {
    ContainsIgnoreCase(a.name, typed) || ContainsIgnoreCase(a.code, typed)
  }

  /** `filteredFrom` / `filteredTo`: the matching airports, each as often
      as the table lists it, in table order. */
  function Suggestions(typed: string): (r: seq<Airport>)
    ensures forall a :: a in r <==> a in AIRPORTS && Suggests(a, typed)
    ensures IsSubsequence(r, AIRPORTS)
    ensures forall a :: multiset(r)[a] == if Suggests(a, typed) then multiset(AIRPORTS)[a] else 0
  {
    SuggestionsFilter(AIRPORTS, typed)
  }

  /** The airport filter over any table, with what it keeps. */
  function SuggestionsFilter(table: seq<Airport>, typed: string): (r: seq<Airport>)
    ensures forall a :: a in r <==> a in table && Suggests(a, typed)
    ensures IsSubsequence(r, table)
    ensures forall a :: multiset(r)[a] == if Suggests(a, typed) then multiset(table)[a] else 0
  {
    FilterIsSubsequence(table, a => Suggests(a, typed));
    FilterMultiset(table, a => Suggests(a, typed));
    Filter(table, a => Suggests(a, typed))
  }

  /** Before anything is typed every airport is offered, in table order. */
  lemma SuggestionsOfEmpty()
    ensures Suggestions("") == AIRPORTS
  {
    forall k | 0 <= k < |AIRPORTS|
      ensures Suggests(AIRPORTS[k], "")
    {
      ContainsEmpty(Lower(AIRPORTS[k].name));
    }
    FilterAllPass(AIRPORTS, a => Suggests(a, ""));
  }

  // ---------------------------------------------------------------------------
  // Pagination

  /** `Math.ceil(total / PAGE_SIZE)`. */
  function TotalPages(total: nat): (r: nat)
  {
    (total + PAGE_SIZE - 1) / PAGE_SIZE
  }

  lemma TotalPagesIsCeiling(total: nat)
    ensures TotalPages(total) * PAGE_SIZE >= total
    ensures total > 0 ==> (TotalPages(total) - 1) * PAGE_SIZE < total
    ensures total == 0 <==> TotalPages(total) == 0
  {
  }

  function Min(a: int, b: int): int { if a < b then a else b }
  function Max(a: int, b: int): int { if a < b then b else a }

  /** `items.slice((page-1)*PAGE_SIZE, page*PAGE_SIZE)`; `slice` clamps both
      ends to the length, so a page past the end is empty. */
  function PageItems<T>(items: seq<T>, page: nat): (r: seq<T>)
    requires page >= 1
  {
    var lo := Min((page - 1) * PAGE_SIZE, |items|);
    var hi := Min(page * PAGE_SIZE, |items|);
    items[lo..hi]
  }

  /** The "Đang xem" counter. */
  function ViewingCount(page: nat, total: nat): nat
  {
    Min(page * PAGE_SIZE, total)
  }

  /** Page `page` shows exactly the items at positions
      [(page-1)*5, min(page*5, total)), and the counter names the end of
      that range. */
  lemma PageContents<T>(items: seq<T>, page: nat)
    requires page >= 1
    ensures var r := PageItems(items, page);
      |r| == Max(0, ViewingCount(page, |items|) - (page - 1) * PAGE_SIZE)
      && forall k :: 0 <= k < |r| ==> r[k] == items[(page - 1) * PAGE_SIZE + k]
  {
  }

  /** Every result is on exactly one page: item `i` is entry `i % 5` of page
      `i / 5 + 1`, which is one of the `TotalPages` numbered pages. */
  lemma {:induction false} EveryItemOnItsPage<T>(items: seq<T>, i: nat)
    requires i < |items|
    ensures 1 <= i / PAGE_SIZE + 1 <= TotalPages(|items|)
    ensures var r := PageItems(items, i / PAGE_SIZE + 1);
      i % PAGE_SIZE < |r| && r[i % PAGE_SIZE] == items[i]
  {
    var p := i / PAGE_SIZE + 1;
    assert (p - 1) * PAGE_SIZE + i % PAGE_SIZE == i;
    assert p * PAGE_SIZE > i;
  }

  /** "← Trước": `Math.max(1, p - 1)`. */
  function PrevPage(page: int): int
  {
    Max(1, page - 1)
  }

  /** "Tiếp →": `Math.min(totalPages, p + 1)`. */
  function NextPage(page: int, totalPages: nat): int
  {
    Min(totalPages, page + 1)
  }

  /** From a page in [1, totalPages] the two arrows stay in that range, and
      each moves by one page unless it is at its end. */
  lemma ArrowsStayInRange(page: int, totalPages: nat)
    requires 1 <= page <= totalPages
    ensures 1 <= PrevPage(page) <= totalPages && 1 <= NextPage(page, totalPages) <= totalPages
    ensures PrevPage(page) == if page == 1 then 1 else page - 1
    ensures NextPage(page, totalPages) == if page == totalPages then page else page + 1
  {
  }

  // ---------------------------------------------------------------------------
  // Page buttons

  datatype Slot = Button(n: nat) | Ellipsis | Hidden

  function Abs(x: int): nat { if x < 0 then -x else x }

  /** What the page renders in place of page number `n`. */
  function SlotAt(n: nat, page: int, totalPages: nat): Slot
  {
    if totalPages > 7 && n != 1 && n != totalPages && Abs(n - page) > 1 && n != page then
      if n == 2 && page > 4 then Ellipsis
      else if n == totalPages - 1 && page < totalPages - 3 then Ellipsis
      else if n < page - 1 && n != 1 then Hidden
      else if n > page + 1 && n != totalPages then Hidden
      else Button(n)
    else Button(n)
  }

  /** The row of page buttons, slot `i` standing for page `i + 1`. */
  function PageSlots(page: int, totalPages: nat): (r: seq<Slot>)
    ensures |r| == totalPages
  {
    seq(totalPages, i requires 0 <= i < totalPages => SlotAt(i + 1, page, totalPages))
  }

  /** Up to seven pages every page has a button. */
  lemma AllButtonsUpToSeven(page: int, totalPages: nat)
    requires totalPages <= 7
    ensures forall i :: 0 <= i < totalPages ==> PageSlots(page, totalPages)[i] == Button(i + 1)
  {
  }

  /** Beyond seven pages the numbered buttons are the first page, the last
      page and the current page with its two neighbours; an ellipsis stands
      in place of page 2 exactly when page > 4 and in place of page
      totalPages-1 exactly when page < totalPages-3; every other page is
      hidden. */
  lemma WindowedButtons(page: int, totalPages: nat)
    requires totalPages > 7
    ensures var r := PageSlots(page, totalPages);
      && (forall i :: 0 <= i < totalPages ==>
            (r[i].Button? <==> i + 1 == 1 || i + 1 == totalPages || page - 1 <= i + 1 <= page + 1))
      && (forall i :: 0 <= i < totalPages && r[i].Button? ==> r[i].n == i + 1)
      && (r[1] == Ellipsis <==> page > 4)
      && (r[totalPages - 2] == Ellipsis <==> page < totalPages - 3)
      && (forall i :: 0 <= i < totalPages && r[i] == Ellipsis ==> i + 1 == 2 || i + 1 == totalPages - 1)
  {
  }

  // ---------------------------------------------------------------------------
  // The draft saved by "Tiếp →"

  /** The contact name: title, family name and given names joined by spaces,
      then trimmed. */
  function ContactName(title: string, firstName: string, lastName: string): string
  {
    Trim(title + " " + firstName + " " + lastName)
  }

  /** With all three parts filled in and none padded with spaces the name is
      the plain join; with no title it starts with the family name instead
      of a space. */
  lemma ContactNameJoin(title: string, firstName: string, lastName: string)
    requires firstName != [] && !IsSpace(firstName[0])
    requires lastName != [] && !IsSpace(lastName[|lastName| - 1])
    ensures title != [] && !IsSpace(title[0]) ==>
      ContactName(title, firstName, lastName) == title + " " + firstName + " " + lastName
    ensures title == [] ==>
      ContactName(title, firstName, lastName) == firstName + " " + lastName
  {
    var s := title + " " + firstName + " " + lastName;
    if title != [] && !IsSpace(title[0]) {
      assert s[0] == title[0] && s[|s| - 1] == lastName[|lastName| - 1];
      TrimOfTrimmed(s);
    }
    if title == [] {
      assert s == [' '] + (firstName + " " + lastName);
      var t := firstName + " " + lastName;
      assert t[0] == firstName[0] && t[|t| - 1] == lastName[|lastName| - 1];
      assert TrimStart(s) == TrimStart(t);
      TrimOfTrimmed(t);
    }
  }

  /** The record stored under `flightBookingData`. */
  function NewDraft(flight: Flight, party: PartySize, passengers: seq<Passenger>,
                    title: string, firstName: string, lastName: string,
                    phone: string, email: string): FlightDraft
  {
    FlightDraft(
      flight := flight,
      party := party,
      passengers := passengers,
      contact := Contact(ContactName(title, firstName, lastName), phone, email),
      totalPrice := flight.price,
      numberOfGuests := party.adults + party.children + party.infants,
      selectedSeats := None,
      selectedBaggage := None,
      selectedMeal := None)
  }

  /** The fields of the contact form. */
  datatype ContactField = Title | FirstName | LastName | Phone | Email

  /** The state of the search page that its handlers change. */
  class SearchPage {
    var party: PartySize
    var passengers: seq<Passenger>
    var flights: seq<Flight>
    var filter: map<string, bool>
    var page: nat
    var selectedFlight: Option<Flight>
    var title: string
    var firstName: string
    var lastName: string
    var phone: string
    var email: string
    var showValidationError: bool
    var navigation: Option<string>

    /** One form per adult and child, and a page number of at least 1. */
    ghost predicate Valid()
      reads this
    {
      |passengers| == party.adults + party.children && page >= 1
    }

    /** The initial state after the passenger effect's first run. */
    constructor ()
      ensures Valid()
      ensures party == PartySize(1, 0, 0) && passengers == [BlankPassenger()]
      ensures page == 1 && flights == [] && filter == map[] && selectedFlight == None
      ensures !showValidationError && navigation == None
    {
      party := PartySize(1, 0, 0);
      passengers := ResizePassengers([], 1);
      flights := [];
      filter := map[];
      page := 1;
      selectedFlight := None;
      title, firstName, lastName, phone, email := "", "", "", "", "";
      showValidationError := false;
      navigation := None;
    }

    /** Typing a party size; the passenger effect then resizes the forms
        (infants change only the size). */
    method SetParty(adults: nat, children: nat, infants: nat)
      requires Valid()
      modifies this`party, this`passengers
      ensures Valid()
      ensures party == PartySize(adults, children, infants)
      ensures passengers == ResizePassengers(old(passengers), adults + children)
    {
      party := PartySize(adults, children, infants);
      passengers := ResizePassengers(passengers, adults + children);
    }

    /** A field of traveller `idx`'s form changes; `idx` is one of the forms
        the page renders. */
    method SetPassengerField(idx: nat, field: PassengerField, value: string)
      requires Valid() && idx < |passengers|
      modifies this`passengers
      ensures Valid()
      ensures passengers == old(passengers)[idx := WithField(old(passengers)[idx], field, value)]
    {
      passengers := passengers[idx := WithField(passengers[idx], field, value)];
    }

    /** Results arrive from a search; the page number is not reset. */
    method ShowResults(results: seq<Flight>)
      requires Valid()
      modifies this`flights
      ensures Valid() && flights == results
    {
      flights := results;
    }

    /** "← Trước", rendered like "Tiếp →" only when there is more than one
        page. */
    method Prev()
      requires Valid() && TotalPages(|FilterFlights(flights, filter)|) > 1
      modifies this`page
      ensures Valid() && page == PrevPage(old(page))
    {
      page := Max(1, page - 1);
    }

    /** "Tiếp →" is only rendered when there is more than one page. */
    method Next()
      requires Valid() && TotalPages(|FilterFlights(flights, filter)|) > 1
      modifies this`page
      ensures Valid() && page == NextPage(old(page), TotalPages(|FilterFlights(flights, filter)|))
    {
      page := Min(TotalPages(|FilterFlights(flights, filter)|), page + 1);
    }

    /** A numbered page button: one of the buttons the windowed row renders,
        which is rendered only when there is more than one page. */
    method GoToPage(n: nat)
      requires Valid() && 1 <= n <= TotalPages(|FilterFlights(flights, filter)|)
      requires TotalPages(|FilterFlights(flights, filter)|) > 1
      requires PageSlots(page, TotalPages(|FilterFlights(flights, filter)|))[n - 1] == Button(n)
      modifies this`page
      ensures Valid() && page == n
    {
      page := n;
    }

    /** "Chọn" on one of the flights the current page shows. */
    method SelectFlight(f: Flight)
      requires Valid() && f in PageItems(FilterFlights(flights, filter), page)
      modifies this`selectedFlight
      ensures Valid() && selectedFlight == Some(f)
    {
      selectedFlight := Some(f);
    }

    /** "← Quay lại" on the traveller form: back to the results. */
    method ClearFlight()
      requires Valid()
      modifies this`selectedFlight
      ensures Valid() && selectedFlight == None
    {
      selectedFlight := None;
    }

    /** A contact input: `{ ...contact, [field]: value }`. */
    method SetContactField(field: ContactField, value: string)
      requires Valid()
      modifies this`title, this`firstName, this`lastName, this`phone, this`email
      ensures Valid()
      ensures title == (if field == Title then value else old(title))
      ensures firstName == (if field == FirstName then value else old(firstName))
      ensures lastName == (if field == LastName then value else old(lastName))
      ensures phone == (if field == Phone then value else old(phone))
      ensures email == (if field == Email then value else old(email))
    {
      match field
      case Title => title := value;
      case FirstName => firstName := value;
      case LastName => lastName := value;
      case Phone => phone := value;
      case Email => email := value;
    }

    /** The "Tiếp →" button of the traveller form: it saves the draft and
        moves on only when the form is valid, and otherwise shows the error. */
    method Continue(store: LocalStorage)
      requires Valid() && selectedFlight.Some?
      modifies this`showValidationError, this`navigation, store
      ensures Valid()
      ensures FormValid(passengers, party) ==>
        store.items == old(store.items)[FLIGHT_KEY := FlightData(NewDraft(selectedFlight.value,
          party, passengers, title, firstName, lastName, phone, email))]
        && navigation == Some("/flights/booking")
        && showValidationError == old(showValidationError)
      ensures !FormValid(passengers, party) ==>
        store.items == old(store.items) && navigation == old(navigation) && showValidationError
    {
      var valid := IsFormValid(passengers, party);
      if !valid {
        showValidationError := true;
      } else {
        var draft := NewDraft(selectedFlight.value, party, passengers, title, firstName, lastName, phone, email);
        store.SetItem(FLIGHT_KEY, FlightData(draft));
        navigation := Some("/flights/booking");
      }
    }
  }
}
