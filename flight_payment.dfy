/** The flight payment page (app/flights/payment/page.tsx): the card form,
    and the submission that turns the stored draft into a booking request,
    clears the draft on success and opens the confirmation page. */
module FlightPayment {
  import opened Common
  import opened Booking
  import opened CardFormat

  /** The request body `handleInsertBooking` sends. */
  datatype FlightPayload = FlightPayload(
    serviceType: string,
    bookingDate: Timestamp,
    numberOfGuests: int,
    totalPrice: int,
    flightNumber: Option<string>,
    flightFrom: Option<string>,
    flightTo: Option<string>,
    departureDate: Timestamp,
    airline: Option<string>,
    customerName: string,
    customerEmail: string,
    customerPhone: string,
    specialRequests: string,
    status: string)

  /** `new Date(flight.departure.scheduled)`, when it is a valid date. A
      missing `scheduled` gives an invalid date as well. */
  function DepartureInstant(d: FlightDraft, parse: DateParser): Option<Timestamp>
  {
    if d.flight.departure.scheduled.Some? then parse(d.flight.departure.scheduled.value) else None
  }

  /** The payload, or `None` when building it throws because the departure
      time is not a valid date (`toISOString` of an invalid date throws). The
      field read for `flight_number` is `flight.flightNumber`, which the
      stored flight record never has (it carries `flight_number`), so the
      flight number is always sent as undefined. */
  function Payload(d: FlightDraft, now: Timestamp, parse: DateParser): (r: Option<FlightPayload>)
    ensures r.Some? <==> DepartureInstant(d, parse).Some?
    ensures r.Some? ==>
      var p := r.value;
      p.serviceType == "flight" && p.status == "confirmed" && p.specialRequests == ""
      && p.bookingDate == now && p.departureDate == DepartureInstant(d, parse).value
      && p.numberOfGuests == d.numberOfGuests && p.totalPrice == d.totalPrice
      && p.flightNumber == None
      && p.flightFrom == d.flight.departure.iata && p.flightTo == d.flight.arrival.iata
      && p.airline == d.flight.airline.name
      && p.customerName == d.contact.name && p.customerEmail == d.contact.email
      && p.customerPhone == d.contact.phone
  {
    match DepartureInstant(d, parse)
    case None => None
    case Some(departure) =>
      Some(FlightPayload(
        serviceType := "flight",
        bookingDate := now,
        numberOfGuests := d.numberOfGuests,
        totalPrice := d.totalPrice,
        flightNumber := None,
        flightFrom := d.flight.departure.iata,
        flightTo := d.flight.arrival.iata,
        departureDate := departure,
        airline := d.flight.airline.name,
        customerName := d.contact.name,
        customerEmail := d.contact.email,
        customerPhone := d.contact.phone,
        specialRequests := "",
        status := "confirmed"))
  }

  /** `handleInsertBooking` returns true for a settled request exactly when
      the reply has no error text and carries data. An error reply with an
      empty text is not an error to the page, but its `data` is null, so it
      fails all the same; a rejected request is caught and fails. */
  function Succeeded(reply: Reply): (ok: bool)
    ensures ok ==> !ErrorTruthy(reply) && !reply.Rejected?
    ensures reply.HttpError? || reply.Rejected? ==> !ok
    ensures reply.Created? ==> (ok <==> reply.hasData)
  {
    match reply
    case Created(hasData) => hasData
    case HttpError(_) => false
    case Rejected(_) => false
  }

  /** Every failure alert of `handleInsertBooking` starts with this text. */
  const FAILURE_PREFIX := "Đặt vé thất bại: "
  /** The alert's detail when a reply carries no error text and no data. */
  const NO_RESPONSE := "Không nhận được phản hồi từ hệ thống"
  /** The alert's detail when what was thrown is not an `Error`. */
  const UNKNOWN_ERROR := "Lỗi không xác định"
  /** The message of the `RangeError` that `toISOString` throws for an
      invalid date, as V8 words it. */
  const INVALID_TIME := "Invalid time value"

  /** How the synchronous part of `handleInsertBooking` ends: refused by the
      guard, failed while building the payload, or with the request sent. */
  datatype Begin = Refused | Failed | Sending

  /** The state of the payment page. */
  class PaymentPage {
    var selectedMethod: string
    var cardNumber: string
    var cardHolder: string
    var expiryDate: string
    var cvv: string
    var bookingData: Option<FlightDraft>
    var isSubmitting: bool
    /** The request awaiting its reply, if one is. */
    var pending: Option<FlightPayload>
    /** Every request body sent to the booking service, in order. */
    var requests: seq<FlightPayload>
    var navigation: Option<string>
    /** Every `alert` text shown, in order. */
    var alerts: seq<string>

    /** The flag is set exactly while a request is awaiting its reply. */
    ghost predicate Valid()
      reads this
    {
      isSubmitting <==> pending.Some?
    }

    constructor ()
      ensures Valid()
      ensures selectedMethod == "" && cardNumber == "" && cardHolder == "" && expiryDate == "" && cvv == ""
      ensures bookingData == None && !isSubmitting && pending == None && requests == [] && navigation == None
      ensures alerts == []
    {
      selectedMethod := "";
      cardNumber := "";
      cardHolder := "";
      expiryDate := "";
      cvv := "";
      bookingData := None;
      isSubmitting := false;
      pending := None;
      requests := [];
      navigation := None;
      alerts := [];
    }

    /** The mount effect: load the draft, or go back to the flight search. */
    method Mount(store: LocalStorage)
      modifies this`bookingData, this`navigation
      ensures match FlightDraftIn(store.items)
        case Some(d) => bookingData == Some(d) && navigation == old(navigation)
        case None => bookingData == old(bookingData) && navigation == Some("/flights")
    {
      var stored := FlightDraftIn(store.items);
      if stored.Some? {
        bookingData := stored;
      } else {
        navigation := Some("/flights");
      }
    }

    method ChooseMethod(id: string)
      modifies this`selectedMethod
      ensures selectedMethod == id
    {
      selectedMethod := id;
    }

    method TypeCardNumber(input: string)
      modifies this`cardNumber
      ensures cardNumber == FormatCardNumber(input)
    {
      cardNumber := FormatCardNumber(input);
    }

    method TypeCardHolder(input: string)
      modifies this`cardHolder
      ensures cardHolder == input
    {
      cardHolder := input;
    }

    method TypeExpiry(input: string)
      modifies this`expiryDate
      ensures expiryDate == FormatExpiry(input, old(expiryDate))
    {
      expiryDate := FormatExpiry(input, expiryDate);
    }

    method TypeCvv(input: string)
      modifies this`cvv
      ensures cvv == FormatCvv(input)
    {
      cvv := FormatCvv(input);
    }

    /** `handleInsertBooking` up to its `await`: the guard, the flag, the
        payload and the request. A payload that throws is caught, and the
        `finally` block clears the flag again, after the failure alert
        with the error's message. */
    method BeginInsert(now: Timestamp, parse: DateParser) returns (started: Begin)
      requires Valid()
      modifies this`isSubmitting, this`pending, this`requests, this`alerts
      ensures Valid()
      ensures old(isSubmitting) || old(bookingData).None? ==>
        started == Refused && isSubmitting == old(isSubmitting) && pending == old(pending) && requests == old(requests)
        && alerts == old(alerts)
      ensures !old(isSubmitting) && old(bookingData).Some? ==>
        match Payload(old(bookingData).value, now, parse)
        case None => (started == Failed && !isSubmitting && pending == None && requests == old(requests)
          && alerts == old(alerts) + [FAILURE_PREFIX + INVALID_TIME])
        case Some(p) => (started == Sending && isSubmitting && pending == Some(p) && requests == old(requests) + [p]
          && alerts == old(alerts))
    {
      if isSubmitting || bookingData.None? {
        return Refused;
      }
      isSubmitting := true;
      var payload := Payload(bookingData.value, now, parse);
      if payload.None? {
        alerts := alerts + [FAILURE_PREFIX + INVALID_TIME];
        isSubmitting := false;
        return Failed;
      }
      pending := payload;
      requests := requests + [payload.value];
      return Sending;
    }

    /** The rest of `handleInsertBooking` once the request settles: the draft
        is removed only on success, every failure shows one alert naming its
        cause, and the flag is cleared in every case. */
    method FinishInsert(store: LocalStorage, reply: Reply) returns (ok: bool)
      requires Valid() && pending.Some?
      modifies store, this`isSubmitting, this`pending, this`alerts
      ensures Valid() && !isSubmitting
      ensures ok == Succeeded(reply)
      ensures store.items == if ok then old(store.items) - {FLIGHT_KEY} else old(store.items)
      ensures ok ==> alerts == old(alerts)
      ensures ErrorTruthy(reply) ==> alerts == old(alerts) + [FAILURE_PREFIX + reply.text]
      ensures !ok && !ErrorTruthy(reply) && !reply.Rejected? ==> alerts == old(alerts) + [FAILURE_PREFIX + NO_RESPONSE]
      ensures reply.Rejected? ==>
        alerts == old(alerts) + [FAILURE_PREFIX + (if reply.message.Some? then reply.message.value else UNKNOWN_ERROR)]
    {
      ok := Succeeded(reply);
      if ErrorTruthy(reply) {
        alerts := alerts + [FAILURE_PREFIX + reply.text];
      } else if reply.Rejected? {
        alerts := alerts + [FAILURE_PREFIX + (if reply.message.Some? then reply.message.value else UNKNOWN_ERROR)];
      } else if !ok {
        alerts := alerts + [FAILURE_PREFIX + NO_RESPONSE];
      }
      if ok {
        store.RemoveItem(FLIGHT_KEY);
      }
      isSubmitting := false;
      pending := None;
    }

    /** `handleSubmit`, with the request settling with `reply`: the page
        moves to the confirmation page exactly when the booking succeeded,
        and an attempt past the guard that fails shows exactly one alert. */
    method Submit(store: LocalStorage, now: Timestamp, parse: DateParser, reply: Reply) returns (ok: bool)
      requires Valid()
      modifies store, this`isSubmitting, this`pending, this`requests, this`navigation, this`alerts
      ensures Valid()
      ensures ok <==> !old(isSubmitting) && old(bookingData).Some?
                      && Payload(old(bookingData).value, now, parse).Some? && Succeeded(reply)
      ensures store.items == if ok then old(store.items) - {FLIGHT_KEY} else old(store.items)
      ensures navigation == if ok then Some("/flights/confirmation") else old(navigation)
      ensures requests == if !old(isSubmitting) && old(bookingData).Some?
                            && Payload(old(bookingData).value, now, parse).Some?
        then old(requests) + [Payload(old(bookingData).value, now, parse).value] else old(requests)
      ensures !old(isSubmitting) ==> !isSubmitting
      ensures ok || old(isSubmitting) || old(bookingData).None? ==> alerts == old(alerts)
      ensures !ok && !old(isSubmitting) && old(bookingData).Some? ==>
        |alerts| == |old(alerts)| + 1 && alerts[..|old(alerts)|] == old(alerts) && FAILURE_PREFIX <= alerts[|old(alerts)|]
    {
      var started := BeginInsert(now, parse);
      ok := false;
      if started == Sending {
        ok := FinishInsert(store, reply);
      }
      if ok {
        navigation := Some("/flights/confirmation");
      }
    }
  }
}
