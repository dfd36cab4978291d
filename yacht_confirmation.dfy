/** The yacht confirmation page (app/yachts/confirmation/page.tsx): on
    mount it sends a stored draft, with `user_id` cleared and `booking_date`
    normalised, and clears the draft once the request resolves; it returns
    to the yacht list five seconds after mounting, and what it shows comes
    from a built-in sample, not from the draft. */
module YachtConfirmation {
  import opened Common
  import opened Booking
  import opened Confirmation
  import YachtPayment

  /** The draft as sent: `user_id` is set to null (`None`) and
      `booking_date` to an ISO instant. */
  datatype YachtRequest = YachtRequest(draft: YachtDraft, userId: Option<string>, bookingDate: Timestamp)

  /** What the page shows. */
  datatype Summary = Summary(code: string, yacht: string, date: string, guests: int, room: string,
                             total: int, contact: Contact)

  /** `booking_date` as normalised before sending: the instant of a
      non-empty stored value, or now when there is none. A non-empty value
      that is not a valid date makes `toISOString` throw (`None`). */
  function NormalisedDate(d: YachtDraft, now: Timestamp, parse: DateParser): (r: Option<Timestamp>)
    ensures d.bookingDate.None? || d.bookingDate.value == "" ==> r == Some(now)
    ensures d.bookingDate.Some? && d.bookingDate.value != "" ==> r == parse(d.bookingDate.value)
  {
    if d.bookingDate.Some? && d.bookingDate.value != "" then parse(d.bookingDate.value) else Some(now)
  }

  /** The state of the confirmation page. */
  class YachtConfirmationPage {
    var timer: Timer
    var bookingSent: bool
    /** The send effect has run. It depends on `bookingSent` only, so it
        runs once on mount and once more when `bookingSent` turns true, when
        its guard stops it. */
    var effectRan: bool
    var inFlight: bool
    /** The send effect threw: the error escapes the effect, React unmounts
        the page in favour of the error boundary, and the countdown's
        timeout is cleared with it. */
    var crashed: bool
    /** Every request sent, in order. */
    var requests: seq<YachtRequest>
    var navigation: Option<string>
    /** The code drawn when the page's module was loaded. */
    const displayCode: string

    /** At most one request is ever sent; `bookingSent` is set only by its
        resolution. */
    ghost predicate Valid()
      reads this
    {
      "YACHT" <= displayCode
      && |requests| <= 1
      && (|requests| == 1 ==> effectRan)
      && (inFlight ==> |requests| == 1 && !bookingSent)
      && (bookingSent ==> |requests| == 1 && !inFlight)
      && (crashed ==> effectRan && requests == [] && !inFlight)
    }

    constructor (fraction: string)
      requires forall k :: 0 <= k < |fraction| ==> IsBase36(fraction[k])
      ensures Valid()
      ensures displayCode == BookingCode("YACHT", fraction)
      ensures timer == InitialTimer() && !bookingSent && !effectRan && !inFlight && !crashed
      ensures requests == [] && navigation == None
    {
      displayCode := BookingCode("YACHT", fraction);
      timer := InitialTimer();
      bookingSent := false;
      effectRan := false;
      inFlight := false;
      crashed := false;
      requests := [];
      navigation := None;
    }

    /** The send effect on mount: with a draft stored, the request is sent,
        unless normalising its date throws, which crashes the page. */
    method SendEffect(store: LocalStorage, now: Timestamp, parse: DateParser)
      requires Valid() && !effectRan
      modifies this`effectRan, this`inFlight, this`requests, this`crashed
      ensures Valid() && effectRan
      ensures match YachtDraftIn(store.items)
        case None => !inFlight && !crashed && requests == old(requests)
        case Some(d) =>
          match NormalisedDate(d, now, parse)
          case None => crashed && !inFlight && requests == old(requests)
          case Some(t) => !crashed && inFlight && requests == [YachtRequest(d, None, t)]
    {
      effectRan := true;
      var stored := YachtDraftIn(store.items);
      if stored.Some? && !bookingSent {
        var date := NormalisedDate(stored.value, now, parse);
        if date.Some? {
          requests := requests + [YachtRequest(stored.value, None, date.value)];
          inFlight := true;
        } else {
          crashed := true;
        }
      }
    }

    /** The request settles. Any reply resolves `createBooking`'s promise,
        an error reply included, so `bookingSent` is set and the draft is
        removed; a rejection has no handler and changes nothing. */
    method Settle(store: LocalStorage, reply: Reply)
      requires Valid() && inFlight
      modifies store, this`bookingSent, this`inFlight
      ensures Valid() && !inFlight
      ensures bookingSent <==> !reply.Rejected?
      ensures store.items == if reply.Rejected? then old(store.items) else old(store.items) - {YACHT_KEY}
    {
      inFlight := false;
      if !reply.Rejected? {
        bookingSent := true;
        store.RemoveItem(YACHT_KEY);
      }
    }

    /** One second passes on the countdown; at 0 the page returns to the
        yacht list. A crashed page has no countdown left and stays put. */
    method Tick()
      requires Valid()
      modifies this`timer, this`navigation
      ensures Valid()
      ensures crashed ==> timer == old(timer) && navigation == old(navigation)
      ensures !crashed ==> timer == Confirmation.Tick(old(timer))
      ensures !crashed ==> navigation == if timer.redirected then Some("/yachts") else old(navigation)
    {
      if !crashed {
        timer := Confirmation.Tick(timer);
        if timer.redirected {
          navigation := Some("/yachts");
        }
      }
    }

    /** What is shown: the sample booking under the module-load code,
        whatever draft was stored or sent. */
    function Shown(): (r: Summary)
      requires Valid()
      reads this
      ensures r.code == displayCode && "YACHT" <= r.code
      ensures r.yacht == "Paradise Luxury" && r.guests == 4 && r.total == 25000000
    {
      Summary(displayCode, "Paradise Luxury", "2024-07-20", 4, "Suite", 25000000,
              Contact("Nguyễn Văn A", "0123456789", "nguyenvana@email.com"))
    }
  }

  /** Two stores with different drafts give pages that show the same
      booking: the display does not depend on the draft. */
  method DisplayIgnoresDraft(a: YachtDraft, b: YachtDraft, now: Timestamp, parse: DateParser)
    returns (shownA: Summary, shownB: Summary)
    ensures shownA == shownB
  {
    var storeA := new LocalStorage(map[YACHT_KEY := YachtData(a)]);
    var storeB := new LocalStorage(map[YACHT_KEY := YachtData(b)]);
    var pageA := new YachtConfirmationPage("x7");
    var pageB := new YachtConfirmationPage("x7");
    pageA.SendEffect(storeA, now, parse);
    pageB.SendEffect(storeB, now, parse);
    shownA := pageA.Shown();
    shownB := pageB.Shown();
  }

  /** A stored `booking_date` that is not a valid date crashes the page:
      nothing is sent and the countdown never sends the page back to the
      yacht list. */
  method InvalidDateCrashesThePage(d: YachtDraft, now: Timestamp, parse: DateParser)
    returns (sent: nat, navigation: Option<string>)
    requires d.bookingDate.Some? && d.bookingDate.value != "" && parse(d.bookingDate.value).None?
    ensures sent == 0 && navigation == None
  {
    var store := new LocalStorage(map[YACHT_KEY := YachtData(d)]);
    var page := new YachtConfirmationPage("x7");
    page.SendEffect(store, now, parse);
    page.Tick();
    page.Tick();
    page.Tick();
    page.Tick();
    page.Tick();
    page.Tick();
    sent := |page.requests|;
    navigation := page.navigation;
  }

  /** The happy path through both yacht pages: a successful payment removes
      the draft, so the confirmation page that opens next finds none and
      sends nothing. */
  method PaidYachtDraftIsNeverSent(d: YachtDraft, now: Timestamp, parse: DateParser)
    returns (paid: bool, sent: nat)
    requires !YachtPayment.MissingYachtId(d)
    ensures paid && sent == 0
  {
    var store := new LocalStorage(map[YACHT_KEY := YachtData(d)]);
    var payment := new YachtPayment.YachtPaymentPage();
    paid := payment.Pay(store, now, parse, Created(true));
    var page := new YachtConfirmationPage("x7");
    page.SendEffect(store, now, parse);
    sent := |page.requests|;
  }
}
