/** The records the booking wizard passes from page to page through the
    browser's `localStorage`, the storage itself, and what the booking
    back end answers. */
module Booking {
  import opened Common

  /** An instant, as a JavaScript `Date` holds it. Its `toISOString()` is
      never empty, so a field of this type stands for a non-empty ISO string. */
  datatype Timestamp = Timestamp(millis: int)

  /** `new Date(s)`: the instant `s` denotes, or `None` for an invalid date
      (whose `getTime()` is NaN and whose `toISOString()` throws). How a
      string is read as a date is left to the caller. */
  type DateParser = string -> Option<Timestamp>

  datatype Contact = Contact(name: string, phone: string, email: string)

  /** One end of a flight as `/api/flights` returns it; a field the upstream
      record lacks is `None` (`undefined` in JSON). */
  datatype Endpoint = Endpoint(
    airport: Option<string>,
    iata: Option<string>,
    scheduled: Option<string>,
    terminal: Option<string>,
    gate: Option<string>)

  datatype Airline = Airline(iata: Option<string>, name: Option<string>)

  /** A flight offer as `/api/flights` returns it (`flight_number`, `airline`,
      `departure`, `arrival`, `status`, `price`, `seats_left`). */
  datatype Flight = Flight(
    flightNumber: Option<string>,
    airline: Airline,
    departure: Endpoint,
    arrival: Endpoint,
    status: Option<string>,
    price: int,
    seatsLeft: int)

  /** One traveller's form: `type` (gender), `ho` (family name), `ten` (given
      names), `dob`, `cccd` (national id) and `cccd_exp` (its expiry). */
  datatype Passenger = Passenger(
    kind: string, ho: string, ten: string, dob: string, cccd: string, cccdExp: string)

  datatype PartySize = PartySize(adults: nat, children: nat, infants: nat)

  /** The value stored under `flightBookingData`. The three `selected*` fields
      are absent until the seat page adds them. */
  datatype FlightDraft = FlightDraft(
    flight: Flight,
    party: PartySize,
    passengers: seq<Passenger>,
    contact: Contact,
    totalPrice: int,
    numberOfGuests: int,
    selectedSeats: Option<seq<string>>,
    selectedBaggage: Option<string>,
    selectedMeal: Option<string>)

  /** The value stored under `yachtBookingData`. Every field may be missing,
      since the payment page also reads drafts of an older shape
      (`date`, `guests`, `total`) next to the current one (`booking_date`,
      `number_of_guests`, `total_price`). */
  datatype YachtDraft = YachtDraft(
    yachtId: Option<int>,
    date: Option<string>,
    bookingDate: Option<string>,
    guests: Option<int>,
    numberOfGuests: Option<int>,
    total: Option<int>,
    totalPrice: Option<int>,
    contact: Option<Contact>,
    specialRequests: Option<string>)

  datatype Stored = FlightData(flightDraft: FlightDraft) | YachtData(yachtDraft: YachtDraft)

  const FLIGHT_KEY: string := "flightBookingData"
  const YACHT_KEY: string := "yachtBookingData"

  /** The draft under `flightBookingData`, if one is stored. */
  function FlightDraftIn(items: map<string, Stored>): (r: Option<FlightDraft>)
    ensures r.Some? <==> FLIGHT_KEY in items && items[FLIGHT_KEY].FlightData?
  {
    if FLIGHT_KEY in items && items[FLIGHT_KEY].FlightData? then Some(items[FLIGHT_KEY].flightDraft) else None
  }

  /** The draft under `yachtBookingData`, if one is stored. */
  function YachtDraftIn(items: map<string, Stored>): (r: Option<YachtDraft>)
    ensures r.Some? <==> YACHT_KEY in items && items[YACHT_KEY].YachtData?
  {
    if YACHT_KEY in items && items[YACHT_KEY].YachtData? then Some(items[YACHT_KEY].yachtDraft) else None
  }

  /** The browser's `localStorage`, shared by all pages of the origin. */
  class LocalStorage {
    var items: map<string, Stored>

    constructor (initial: map<string, Stored>)
      ensures items == initial
    {
      items := initial;
    }

    method SetItem(key: string, value: Stored)
      modifies this
      ensures items == old(items)[key := value]
    {
      items := items[key := value];
    }

    method RemoveItem(key: string)
      modifies this
      ensures items == old(items) - {key}
    {
      items := items - {key};
    }
  }

  /** What `createBooking` (lib/bookings.ts) settles with: `{ data }` after a
      2xx response (`hasData` says whether the parsed body is truthy),
      `{ data: null, error: text }` after any other status, or a rejected
      promise when the request itself fails (`message` is the rejection's
      message when it is an `Error`, and `None` for any other value). */
  datatype Reply = Created(hasData: bool) | HttpError(text: string) | Rejected(message: Option<string>)

  /** `result.error` is truthy: an error reply whose text is not empty. */
  predicate ErrorTruthy(r: Reply)
  {
    r.HttpError? && r.text != ""
  }
}
