/** The yacht payment page (app/yachts/payment/page.tsx): the same card
    form as the flight payment page, and a submission that falls back to a
    built-in sample booking, insists on a yacht id, normalises the date and
    the guest and price fields, and clears the draft unless the booking
    service reports an error. */
module YachtPayment {
  import opened Common
  import opened Booking
  import opened CardFormat

  /** The sample booking used when no draft is stored. */
  const MOCK_BOOKING: YachtDraft := YachtDraft(
    yachtId := Some(1),
    date := Some("2024-07-20"),
    bookingDate := None,
    guests := Some(4),
    numberOfGuests := Some(4),
    total := Some(25000000),
    totalPrice := Some(25000000),
    contact := Some(Contact("Nguyễn Văn A", "0123456789", "nguyenvana@email.com")),
    specialRequests := None)

  /** The request body. A numeric field that is `None` is NaN (`Number` of
      an absent value); an absent contact leaves the three customer fields
      undefined. */
  datatype YachtPayload = YachtPayload(
    serviceType: string,
    bookingDate: Timestamp,
    yachtId: int,
    numberOfGuests: Option<int>,
    totalPrice: Option<int>,
    customerName: Option<string>,
    customerEmail: Option<string>,
    customerPhone: Option<string>,
    specialRequests: string,
    status: string)

  /** The draft the submission works on: the stored one, or the sample. */
  function DraftToSend(items: map<string, Stored>): (r: YachtDraft)
    ensures YachtDraftIn(items).None? ==> r == MOCK_BOOKING
    ensures YachtDraftIn(items).Some? ==> r == YachtDraftIn(items).value
  {
    match YachtDraftIn(items)
    case Some(d) => d
    case None => MOCK_BOOKING
  }

  /** `!bookingData.yacht_id`: the id is missing or 0. */
  predicate MissingYachtId(d: YachtDraft)
  {
    d.yachtId.None? || d.yachtId.value == 0
  }

  /** `a ?? b`. */
  function OrElse<T>(a: Option<T>, b: Option<T>): (r: Option<T>)
    ensures a.Some? ==> r == a
    ensures a.None? ==> r == b
  {
    if a.Some? then a else b
  }

  /** The booking date sent: the draft's `date` when it is non-empty and
      denotes a valid date, and the current time otherwise. The draft's
      `booking_date` field is not consulted. */
  function BookingInstant(d: YachtDraft, now: Timestamp, parse: DateParser): (r: Timestamp)
    ensures d.date.Some? && d.date.value != "" && parse(d.date.value).Some? ==> r == parse(d.date.value).value
    ensures !(d.date.Some? && d.date.value != "" && parse(d.date.value).Some?) ==> r == now
  {
    if d.date.Some? && d.date.value != "" && parse(d.date.value).Some? then parse(d.date.value).value else now
  }

  /** The payload for a draft that has a yacht id. */
  function Payload(d: YachtDraft, now: Timestamp, parse: DateParser): (r: YachtPayload)
    requires !MissingYachtId(d)
    ensures r.serviceType == "yacht" && r.status == "confirmed" && r.specialRequests == ""
    ensures r.yachtId == d.yachtId.value && r.yachtId != 0
    ensures r.bookingDate == BookingInstant(d, now, parse)
    ensures r.numberOfGuests == if d.numberOfGuests.Some? then d.numberOfGuests else d.guests
    ensures r.totalPrice == if d.totalPrice.Some? then d.totalPrice else d.total
    ensures d.contact.Some? ==> (r.customerName == Some(d.contact.value.name)
      && r.customerEmail == Some(d.contact.value.email) && r.customerPhone == Some(d.contact.value.phone))
    ensures d.contact.None? ==> r.customerName == None && r.customerEmail == None && r.customerPhone == None
  {
    YachtPayload(
      serviceType := "yacht",
      bookingDate := BookingInstant(d, now, parse),
      yachtId := d.yachtId.value,
      numberOfGuests := OrElse(d.numberOfGuests, d.guests),
      totalPrice := OrElse(d.totalPrice, d.total),
      customerName := if d.contact.Some? then Some(d.contact.value.name) else None,
      customerEmail := if d.contact.Some? then Some(d.contact.value.email) else None,
      customerPhone := if d.contact.Some? then Some(d.contact.value.phone) else None,
      specialRequests := "",
      status := "confirmed")
  }

  /** With no draft stored, the sample booking is what gets booked: yacht 1
      for four guests at 25000000 on 20 July 2024 (when the caller's date
      reading accepts that date). */
  lemma SampleBookingPayload(items: map<string, Stored>, now: Timestamp, parse: DateParser)
    requires YachtDraftIn(items).None?
    ensures !MissingYachtId(DraftToSend(items))
    ensures var p := Payload(DraftToSend(items), now, parse);
      p.yachtId == 1 && p.numberOfGuests == Some(4) && p.totalPrice == Some(25000000)
      && p.customerPhone == Some("0123456789")
      && p.bookingDate == if parse("2024-07-20").Some? then parse("2024-07-20").value else now
  {
  }

  /** A draft written by the yacht detail page stores its day under
      `booking_date` and has no `date`, so its booking is sent for the
      moment of payment, whatever day was chosen; the other fields fall back
      through `??` to the older names. */
  lemma DetailDraftIsBookedForNow(d: YachtDraft, now: Timestamp, parse: DateParser)
    requires !MissingYachtId(d) && d.date.None? && d.bookingDate.Some?
    ensures Payload(d, now, parse).bookingDate == now
  {
  }

  /** How a started submission ends: it returned a value, or the request
      rejected and the exception escaped the handler. */
  datatype Settled = Returned(ok: bool) | Threw

  /** The alert shown when the draft to send has no yacht id. */
  const NO_YACHT_ID_ALERT := "Không tìm thấy mã du thuyền (yacht_id). Vui lòng quay lại chọn lại du thuyền!"

  /** How the synchronous part of `handleInsertBooking` ends. */
  datatype Begin = Refused | NoYachtId | Sending

  /** The state of the yacht payment page. */
  class YachtPaymentPage {
    var selectedMethod: string
    var cardNumber: string
    var cardHolder: string
    var expiryDate: string
    var cvv: string
    var isSubmitting: bool
    /** `isSubmittingRef.current`. */
    var submittingRef: bool
    var pending: Option<YachtPayload>
    /** Every request body sent to the booking service, in order. */
    var requests: seq<YachtPayload>
    var navigation: Option<string>
    /** Every `alert` text shown, in order. */
    var alerts: seq<string>

    /** Both flags move together, and a request is awaiting its reply only
        while they are set. A request that rejected leaves them set with
        nothing pending. */
    ghost predicate Valid()
      reads this
    {
      isSubmitting == submittingRef && (pending.Some? ==> isSubmitting)
    }

    constructor ()
      ensures Valid()
      ensures selectedMethod == "" && cardNumber == "" && cardHolder == "" && expiryDate == "" && cvv == ""
      ensures !isSubmitting && !submittingRef && pending == None && requests == [] && navigation == None
      ensures alerts == []
    {
      selectedMethod := "";
      cardNumber := "";
      cardHolder := "";
      expiryDate := "";
      cvv := "";
      isSubmitting := false;
      submittingRef := false;
      pending := None;
      requests := [];
      navigation := None;
      alerts := [];
    }

    method ChooseMethod(id: string)
      modifies this`selectedMethod
      ensures selectedMethod == id
    {
      selectedMethod := id;
    }

    method TypeCardNumber(input: string)
      modifies this`cardNumber
      ensures cardNumber == FormatCardNumber(input)
    {
      cardNumber := FormatCardNumber(input);
    }

    method TypeCardHolder(input: string)
      modifies this`cardHolder
      ensures cardHolder == input
    {
      cardHolder := input;
    }

    method TypeExpiry(input: string)
      modifies this`expiryDate
      ensures expiryDate == FormatExpiry(input, old(expiryDate))
    {
      expiryDate := FormatExpiry(input, expiryDate);
    }

    method TypeCvv(input: string)
      modifies this`cvv
      ensures cvv == FormatCvv(input)
    {
      cvv := FormatCvv(input);
    }

    /** `handleInsertBooking` up to its `await`. A draft without a yacht id
        is refused with an alert asking the user to choose the yacht again. */
    method BeginInsert(store: LocalStorage, now: Timestamp, parse: DateParser) returns (started: Begin)
      requires Valid()
      modifies this`isSubmitting, this`submittingRef, this`pending, this`requests, this`alerts
      ensures Valid()
      ensures old(isSubmitting) || old(submittingRef) ==>
        started == Refused && isSubmitting == old(isSubmitting) && submittingRef == old(submittingRef)
        && pending == old(pending) && requests == old(requests) && alerts == old(alerts)
      ensures !old(isSubmitting) && !old(submittingRef) && MissingYachtId(DraftToSend(store.items)) ==>
        started == NoYachtId && !isSubmitting && !submittingRef && pending == old(pending) && requests == old(requests)
        && alerts == old(alerts) + [NO_YACHT_ID_ALERT]
      ensures !old(isSubmitting) && !old(submittingRef) && !MissingYachtId(DraftToSend(store.items)) ==>
        var p := Payload(DraftToSend(store.items), now, parse);
        started == Sending && isSubmitting && submittingRef && pending == Some(p) && requests == old(requests) + [p]
        && alerts == old(alerts)
    {
      if isSubmitting || submittingRef {
        return Refused;
      }
      isSubmitting := true;
      submittingRef := true;
      var bookingData := MOCK_BOOKING;
      var stored := YachtDraftIn(store.items);
      if stored.Some? {
        bookingData := stored.value;
      }
      if bookingData.yachtId.None? || bookingData.yachtId.value == 0 {
        alerts := alerts + [NO_YACHT_ID_ALERT];
        isSubmitting := false;
        submittingRef := false;
        return NoYachtId;
      }
      var bookingDate := now;
      if bookingData.date.Some? && bookingData.date.value != "" && parse(bookingData.date.value).Some? {
        bookingDate := parse(bookingData.date.value).value;
      }
      var payload := YachtPayload(
        serviceType := "yacht",
        bookingDate := bookingDate,
        yachtId := bookingData.yachtId.value,
        numberOfGuests := OrElse(bookingData.numberOfGuests, bookingData.guests),
        totalPrice := OrElse(bookingData.totalPrice, bookingData.total),
        customerName := if bookingData.contact.Some? then Some(bookingData.contact.value.name) else None,
        customerEmail := if bookingData.contact.Some? then Some(bookingData.contact.value.email) else None,
        customerPhone := if bookingData.contact.Some? then Some(bookingData.contact.value.phone) else None,
        specialRequests := "",
        status := "confirmed");
      pending := Some(payload);
      requests := requests + [payload];
      return Sending;
    }

    /** The rest of `handleInsertBooking` once the request settles. A reply
        clears both flags, removes the draft unless its error text is
        non-empty, and returns whether it was not. A rejection escapes the
        handler before the flags are cleared, so they stay set. */
    method FinishInsert(store: LocalStorage, reply: Reply) returns (outcome: Settled)
      requires Valid() && pending.Some?
      modifies store, this`isSubmitting, this`submittingRef, this`pending
      ensures Valid() && pending == None
      ensures reply.Rejected? ==>
        outcome == Threw && isSubmitting && submittingRef && store.items == old(store.items)
      ensures !reply.Rejected? ==>
        outcome == Returned(!ErrorTruthy(reply)) && !isSubmitting && !submittingRef
        && store.items == if ErrorTruthy(reply) then old(store.items) else old(store.items) - {YACHT_KEY}
    {
      pending := None;
      if reply.Rejected? {
        return Threw;
      }
      isSubmitting := false;
      submittingRef := false;
      if !ErrorTruthy(reply) {
        store.RemoveItem(YACHT_KEY);
      }
      if ErrorTruthy(reply) {
        return Returned(false);
      }
      return Returned(true);
    }

    /** A pay button's click handler, with the request settling with
        `reply`: the confirmation page opens exactly when the insertion
        returned true. */
    method Pay(store: LocalStorage, now: Timestamp, parse: DateParser, reply: Reply) returns (ok: bool)
      requires Valid()
      modifies store, this`isSubmitting, this`submittingRef, this`pending, this`requests, this`navigation, this`alerts
      ensures Valid()
      ensures ok <==> !old(isSubmitting) && !MissingYachtId(DraftToSend(old(store.items)))
                      && !reply.Rejected? && !ErrorTruthy(reply)
      ensures store.items == if ok then old(store.items) - {YACHT_KEY} else old(store.items)
      ensures navigation == if ok then Some("/yachts/confirmation") else old(navigation)
      ensures requests == if !old(isSubmitting) && !MissingYachtId(DraftToSend(old(store.items)))
        then old(requests) + [Payload(DraftToSend(old(store.items)), now, parse)] else old(requests)
      ensures !old(isSubmitting) && !MissingYachtId(DraftToSend(old(store.items))) && reply.Rejected? ==>
        isSubmitting && submittingRef
      ensures alerts == if !old(isSubmitting) && MissingYachtId(DraftToSend(old(store.items)))
        then old(alerts) + [NO_YACHT_ID_ALERT] else old(alerts)
    {
      var started := BeginInsert(store, now, parse);
      ok := false;
      if started == Sending {
        var outcome := FinishInsert(store, reply);
        ok := outcome == Returned(true);
      }
      if ok {
        navigation := Some("/yachts/confirmation");
      }
    }
  }

  /** Once a request has rejected, the page can never book again: every
      later click is refused by the guard and changes nothing. */
  method RejectionLocksThePage(d: YachtDraft, now: Timestamp, parse: DateParser, later: Reply)
    returns (first: bool, second: bool, sentCount: nat)
    requires !MissingYachtId(d)
    ensures !first && !second && sentCount == 1
  {
    var store := new LocalStorage(map[YACHT_KEY := YachtData(d)]);
    var page := new YachtPaymentPage();
    first := page.Pay(store, now, parse, Rejected(None));
    second := page.Pay(store, now, parse, later);
    sentCount := |page.requests|;
  }

  /** A draft whose yacht id is missing or 0 is never sent: the click
      shows the alert asking for the yacht again and books nothing. */
  method MissingYachtIdIsAlerted(d: YachtDraft, now: Timestamp, parse: DateParser, reply: Reply)
    returns (ok: bool, sentCount: nat, alerts: seq<string>)
    requires MissingYachtId(d)
    ensures !ok && sentCount == 0 && alerts == [NO_YACHT_ID_ALERT]
  {
    var store := new LocalStorage(map[YACHT_KEY := YachtData(d)]);
    var page := new YachtPaymentPage();
    ok := page.Pay(store, now, parse, reply);
    sentCount := |page.requests|;
    alerts := page.alerts;
  }

  /** An error reply with an empty text counts as success: the draft is
      removed and the confirmation page opens. */
  method EmptyErrorCountsAsSuccess(d: YachtDraft, now: Timestamp, parse: DateParser)
    returns (ok: bool, draftKept: bool, navigation: Option<string>)
    requires !MissingYachtId(d)
    ensures ok && !draftKept && navigation == Some("/yachts/confirmation")
  {
    var store := new LocalStorage(map[YACHT_KEY := YachtData(d)]);
    var page := new YachtPaymentPage();
    ok := page.Pay(store, now, parse, HttpError(""));
    draftKept := YACHT_KEY in store.items;
    navigation := page.navigation;
  }
}
