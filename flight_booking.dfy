/** The seat and ancillary page (app/flights/booking/page.tsx): seats are
    toggled up to a hard capacity, baggage and meal add their listed prices
    to the stored total, and "Tiếp tục" writes the choices back into the
    draft. */
module FlightBooking {
  import opened Common
  import opened Booking

  /** The nine example seats of the seat map; every one costs 0. */
  const SEATS: seq<string> := ["A1", "A2", "A3", "B1", "B2", "B3", "C1", "C2", "C3"]

  datatype PricedOption = PricedOption(id: string, price: int)

  const BAGGAGE_OPTIONS: seq<PricedOption> := [
    PricedOption("none", 0),
    PricedOption("7kg", 0),
    PricedOption("20kg", 500000),
    PricedOption("30kg", 800000)
  ]

  const MEAL_OPTIONS: seq<PricedOption> := [
    PricedOption("none", 0),
    PricedOption("chicken", 150000),
    PricedOption("beef", 150000),
    PricedOption("vegetarian", 150000)
  ]

  /** `options.find(o => o.id === id)?.price || 0`: the price of the first
      option with that id, and 0 for an id no option has. */
  function PriceOf(options: seq<PricedOption>, id: string): (r: int)
    ensures (forall k :: 0 <= k < |options| ==> options[k].id != id) ==> r == 0
    ensures forall k :: (0 <= k < |options| && options[k].id == id
      && (forall j :: 0 <= j < k ==> options[j].id != id)) ==> r == options[k].price
  {
    if options == [] then 0
    else if options[0].id == id then options[0].price
    else PriceOf(options[1..], id)
  }

  // ---------------------------------------------------------------------------
  // Seats

  /** `handleSeatClick`: a selected seat is deselected; an unselected one is
      appended while fewer than `capacity` seats are selected, and otherwise
      the click has no effect. */
  function ToggleSeat(selected: seq<string>, seat: string, capacity: int): (r: seq<string>)
    ensures seat in selected ==> (seat !in r && |r| < |selected|
      && (forall x :: x in r <==> x in selected && x != seat)
      && IsSubsequence(r, selected))
    ensures seat !in selected && |selected| < capacity ==> r == selected + [seat]
    ensures seat !in selected && |selected| >= capacity ==> r == selected
  {
    if seat in selected then
      WithoutLength(selected, seat);
      WithoutIsSubsequence(selected, seat);
      Without(selected, seat)
    else if |selected| < capacity then selected + [seat]
    else selected
  }

  /** What the page keeps true of its selection. */
  predicate SeatsOk(selected: seq<string>, capacity: int)
  {
    NoDuplicates(selected) && (selected == [] || |selected| <= capacity)
    && forall k :: 0 <= k < |selected| ==> selected[k] in SEATS
  }

  /** One click keeps the selection free of duplicates, inside the seat map
      and within the capacity. */
  lemma ToggleKeepsSeatsOk(selected: seq<string>, seat: string, capacity: int)
    requires SeatsOk(selected, capacity) && seat in SEATS
    ensures SeatsOk(ToggleSeat(selected, seat, capacity), capacity)
  {
    var r := ToggleSeat(selected, seat, capacity);
    if seat in selected {
      WithoutNoDuplicates(selected, seat);
      forall k | 0 <= k < |r| ensures r[k] in SEATS {
        assert r[k] in selected;
      }
    }
  }

  /** The selection after a sequence of clicks. */
  function Clicks(selected: seq<string>, seats: seq<string>, capacity: int): seq<string>
    decreases |seats|
  {
    if seats == [] then selected else Clicks(ToggleSeat(selected, seats[0], capacity), seats[1..], capacity)
  }

  /** Under any sequence of clicks on the seat map, starting from no seats,
      the selection has no duplicates and at most `capacity` seats. */
  lemma {:induction false} ClicksKeepSeatsOk(selected: seq<string>, seats: seq<string>, capacity: int)
    requires SeatsOk(selected, capacity)
    requires forall k :: 0 <= k < |seats| ==> seats[k] in SEATS
    ensures SeatsOk(Clicks(selected, seats, capacity), capacity)
    decreases |seats|
  {
    if seats != [] {
      ToggleKeepsSeatsOk(selected, seats[0], capacity);
      ClicksKeepSeatsOk(ToggleSeat(selected, seats[0], capacity), seats[1..], capacity);
    }
  }

  /** The continue button is enabled exactly when one seat per guest is
      chosen (infants included, since the count is `number_of_guests`). */
  predicate CanContinue(selected: seq<string>, totalPassengers: int)
  {
    |selected| == totalPassengers
  }

  /** Once the continue gate is open no further seat can be added: a click on
      an unselected seat changes nothing, while a click on a selected seat
      closes the gate again. */
  lemma FullSelectionRejectsMore(selected: seq<string>, seat: string, totalPassengers: int)
    requires CanContinue(selected, totalPassengers)
    ensures seat !in selected ==> ToggleSeat(selected, seat, totalPassengers) == selected
    ensures seat in selected ==> !CanContinue(ToggleSeat(selected, seat, totalPassengers), totalPassengers)
  {
  }

  // ---------------------------------------------------------------------------
  // Price and draft update

  /** `getTotalPrice()`: 0 before a draft is loaded, and otherwise the stored
      total plus the baggage and meal prices. */
  function TotalPrice(draft: Option<FlightDraft>, baggage: string, meal: string): int
  {
    if draft.None? then 0
    else draft.value.totalPrice + PriceOf(BAGGAGE_OPTIONS, baggage) + PriceOf(MEAL_OPTIONS, meal)
  }

  /** The listed prices: 20 kg of checked baggage with chicken adds 650000,
      every meal other than "none" adds 150000, and an unknown id adds 0. */
  lemma TotalPriceExamples(d: FlightDraft, unknown: string)
    requires unknown !in ["none", "7kg", "20kg", "30kg", "chicken", "beef", "vegetarian"]
    ensures TotalPrice(Some(d), "20kg", "chicken") == d.totalPrice + 650000
    ensures TotalPrice(Some(d), "none", "none") == d.totalPrice
    ensures TotalPrice(Some(d), "30kg", "beef") == d.totalPrice + 950000
    ensures TotalPrice(Some(d), unknown, unknown) == d.totalPrice
    ensures TotalPrice(None, "20kg", "chicken") == 0
  {
    assert PriceOf(BAGGAGE_OPTIONS, unknown) == 0;
    assert PriceOf(MEAL_OPTIONS, unknown) == 0;
  }

  /** The draft `handleContinue` stores: the seats, baggage and meal added and
      `total_price` replaced by `getTotalPrice()`. */
  function ContinueDraft(d: FlightDraft, seats: seq<string>, baggage: string, meal: string): FlightDraft
  {
    d.(selectedSeats := Some(seats), selectedBaggage := Some(baggage), selectedMeal := Some(meal),
       totalPrice := TotalPrice(Some(d), baggage, meal))
  }

  /** The stored total is overwritten with itself plus the ancillaries, so
      coming back to the page (which reloads the stored draft) and continuing
      again with the same choices counts them twice. */
  lemma ReentryCountsAncillariesTwice(d: FlightDraft, seats: seq<string>, baggage: string, meal: string)
    ensures var once := ContinueDraft(d, seats, baggage, meal);
      var twice := ContinueDraft(once, seats, baggage, meal);
      twice.totalPrice == d.totalPrice + 2 * (PriceOf(BAGGAGE_OPTIONS, baggage) + PriceOf(MEAL_OPTIONS, meal))
      && (PriceOf(BAGGAGE_OPTIONS, baggage) + PriceOf(MEAL_OPTIONS, meal) != 0 ==> twice.totalPrice != once.totalPrice)
  {
  }

  /** The state of the seat page. */
  class SeatPage {
    var selectedSeats: seq<string>
    var selectedBaggage: string
    var selectedMeal: string
    var totalPassengers: int
    var bookingData: Option<FlightDraft>
    var navigation: Option<string>

    ghost predicate Valid()
      reads this
    {
      SeatsOk(selectedSeats, totalPassengers)
    }

    constructor ()
      ensures Valid()
      ensures selectedSeats == [] && selectedBaggage == "none" && selectedMeal == "none"
      ensures totalPassengers == 0 && bookingData == None && navigation == None
    {
      selectedSeats := [];
      selectedBaggage := "none";
      selectedMeal := "none";
      totalPassengers := 0;
      bookingData := None;
      navigation := None;
    }

    /** The mount effect: load the draft and the guest count, or go back to
        the search page when there is none. */
    method Mount(store: LocalStorage)
      requires Valid() && selectedSeats == []
      modifies this`bookingData, this`totalPassengers, this`navigation
      ensures Valid()
      ensures match FlightDraftIn(store.items)
        case Some(d) => bookingData == Some(d) && totalPassengers == d.numberOfGuests
                        && navigation == old(navigation)
        case None => bookingData == old(bookingData) && totalPassengers == old(totalPassengers)
                     && navigation == Some("/flights")
    {
      var stored := FlightDraftIn(store.items);
      if stored.Some? {
        bookingData := stored;
        totalPassengers := stored.value.numberOfGuests;
      } else {
        navigation := Some("/flights");
      }
    }

    /** The page renders nothing until a draft is loaded. */
    predicate Renders()
      reads this
    {
      bookingData.Some?
    }

    /** A click on one of the seat map's seats. */
    method ClickSeat(seat: string)
      requires Valid() && seat in SEATS
      modifies this`selectedSeats
      ensures Valid()
      ensures selectedSeats == ToggleSeat(old(selectedSeats), seat, totalPassengers)
    {
      ToggleKeepsSeatsOk(selectedSeats, seat, totalPassengers);
      if seat in selectedSeats {
        selectedSeats := Without(selectedSeats, seat);
      } else if |selectedSeats| < totalPassengers {
        selectedSeats := selectedSeats + [seat];
      }
    }

    method ChooseBaggage(id: string)
      requires Valid()
      modifies this`selectedBaggage
      ensures Valid() && selectedBaggage == id
    {
      selectedBaggage := id;
    }

    method ChooseMeal(id: string)
      requires Valid()
      modifies this`selectedMeal
      ensures Valid() && selectedMeal == id
    {
      selectedMeal := id;
    }

    /** "Tiếp tục", which is rendered only with a draft and enabled only when
        the seat count equals the guest count: the draft is saved with the
        choices and the new total, then the payment page opens. */
    method Continue(store: LocalStorage)
      requires Valid() && Renders() && CanContinue(selectedSeats, totalPassengers)
      modifies store, this`navigation
      ensures store.items == old(store.items)[FLIGHT_KEY :=
        FlightData(ContinueDraft(bookingData.value, selectedSeats, selectedBaggage, selectedMeal))]
      ensures navigation == Some("/flights/payment")
    {
      var updated := bookingData.value.(
        selectedSeats := Some(selectedSeats),
        selectedBaggage := Some(selectedBaggage),
        selectedMeal := Some(selectedMeal),
        totalPrice := TotalPrice(bookingData, selectedBaggage, selectedMeal));
      store.SetItem(FLIGHT_KEY, FlightData(updated));
      navigation := Some("/flights/payment");
    }
  }
}
