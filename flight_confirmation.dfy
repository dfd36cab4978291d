/** The flight confirmation page (app/flights/confirmation/page.tsx): it
    loads the draft, posts it once with a booking code, clears it when the
    post resolves, and returns to the flight search five seconds after
    mounting. */
module FlightConfirmation {
  import opened Common
  import opened Booking
  import opened Confirmation
  import opened FlightPayment

  /** The POST body: the draft with `payment_status` and `booking_code`. */
  datatype ConfirmationBody = ConfirmationBody(draft: FlightDraft, paymentStatus: string, bookingCode: string)

  /** The state of the confirmation page. */
  class ConfirmationPage {
    var timer: Timer
    var bookingData: Option<FlightDraft>
    var bookingCode: string
    var sent: bool
    /** A POST has been issued and has not settled. The send effect depends
        on `bookingData` and `sent` only, so it does not run again meanwhile. */
    var inFlight: bool
    /** Every POST body issued, in order. */
    var posts: seq<ConfirmationBody>
    var navigation: Option<string>

    /** At most one POST is ever issued: it is either awaiting its outcome
        or has settled, after which `sent` is set for good. */
    ghost predicate Valid()
      reads this
    {
      |posts| <= 1
      && !(sent && inFlight)
      && (|posts| == 1 <==> sent || inFlight)
      && (|posts| == 1 ==> bookingData.Some? && posts[0].draft == bookingData.value)
    }

    constructor ()
      ensures Valid()
      ensures timer == InitialTimer() && bookingData == None && bookingCode == ""
      ensures !sent && !inFlight && posts == [] && navigation == None
    {
      timer := InitialTimer();
      bookingData := None;
      bookingCode := "";
      sent := false;
      inFlight := false;
      posts := [];
      navigation := None;
    }

    /** The mount effect: load the draft, or go back to the flight search. */
    method Mount(store: LocalStorage)
      requires Valid() && posts == []
      modifies this`bookingData, this`navigation
      ensures Valid()
      ensures match FlightDraftIn(store.items)
        case Some(d) => bookingData == Some(d) && navigation == old(navigation)
        case None => bookingData == old(bookingData) && navigation == Some("/flights")
    {
      var stored := FlightDraftIn(store.items);
      if stored.Some? {
        bookingData := stored;
      } else {
        navigation := Some("/flights");
      }
    }

    /** The send effect, run after a change of `bookingData` or `sent`:
        with a draft loaded and nothing sent, it posts the draft with the
        status "completed" and a fresh "FL" code drawn from `fraction`. */
    method SendEffect(fraction: string)
      requires Valid()
      requires forall k :: 0 <= k < |fraction| ==> IsBase36(fraction[k])
      modifies this`inFlight, this`posts
      ensures Valid()
      ensures old(bookingData.Some? && !sent && !inFlight) ==>
        inFlight && posts == [ConfirmationBody(bookingData.value, "completed", BookingCode("FL", fraction))]
      ensures !old(bookingData.Some? && !sent && !inFlight) ==>
        inFlight == old(inFlight) && posts == old(posts)
    {
      if bookingData.Some? && !sent && !inFlight {
        posts := posts + [ConfirmationBody(bookingData.value, "completed", BookingCode("FL", fraction))];
        inFlight := true;
      }
    }

    /** The POST resolves: `sent` is set, a second, independent "FL" code is
        drawn for display, and the draft is removed from storage. */
    method Resolve(store: LocalStorage, fraction: string)
      requires Valid() && inFlight
      requires forall k :: 0 <= k < |fraction| ==> IsBase36(fraction[k])
      modifies store, this`sent, this`inFlight, this`bookingCode
      ensures Valid() && sent && !inFlight
      ensures bookingCode == BookingCode("FL", fraction)
      ensures store.items == old(store.items) - {FLIGHT_KEY}
    {
      sent := true;
      inFlight := false;
      bookingCode := BookingCode("FL", fraction);
      store.RemoveItem(FLIGHT_KEY);
    }

    /** The POST rejects: `sent` is set, but the draft stays in storage and
        no code is shown. */
    method Reject()
      requires Valid() && inFlight
      modifies this`sent, this`inFlight
      ensures Valid() && sent && !inFlight
    {
      sent := true;
      inFlight := false;
    }

    /** One second passes on the countdown; at 0 the page returns to the
        flight search. */
    method Tick()
      requires Valid()
      modifies this`timer, this`navigation
      ensures Valid()
      ensures timer == Confirmation.Tick(old(timer))
      ensures navigation == if timer.redirected then Some("/flights") else old(navigation)
    {
      timer := Confirmation.Tick(timer);
      if timer.redirected {
        navigation := Some("/flights");
      }
    }
  }

  /** The happy path through both pages: a successful payment removes the
      draft, so the confirmation page that opens next finds none. It
      redirects to the flight search at once, never posts, and shows no
      code. */
  method PaidDraftIsNeverConfirmed(d: FlightDraft, now: Timestamp, parse: DateParser)
    returns (paid: bool, posted: nat, shownCode: string, navigation: Option<string>)
    requires DepartureInstant(d, parse).Some?
    ensures paid && posted == 0 && shownCode == "" && navigation == Some("/flights")
  {
    var store := new LocalStorage(map[FLIGHT_KEY := FlightData(d)]);
    var payment := new PaymentPage();
    payment.Mount(store);
    paid := payment.Submit(store, now, parse, Created(true));
    var page := new ConfirmationPage();
    page.Mount(store);
    page.SendEffect("k3x9q2");
    posted := |page.posts|;
    shownCode := page.bookingCode;
    navigation := page.navigation;
  }
}
