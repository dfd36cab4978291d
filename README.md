# LetGoNow booking front end, modelled in Dafny

This project models the booking logic of the LetGoNow web front end. The
front end is a Next.js application that sells flights on Vietnamese carriers
and yacht cruises. The model covers:

- **Flight search** (`FlightSearch`): one traveller form per adult and
  child, the completeness gate on the "Tiếp" button, the airline filter,
  airport suggestions, five results per page with windowed page buttons,
  and the draft saved under `flightBookingData`.
- **Seat and ancillary page** (`FlightBooking`): seat toggling bounded by
  the guest count, baggage and meal prices, and the updated draft.
- **Payment pages** (`FlightPayment`, `YachtPayment`, with the shared
  `CardFormat`): the card field formatters, the re-entry guard, the booking
  payload, the outcome of `createBooking`, and the navigation that follows.
- **Confirmation pages** (`FlightConfirmation`, `YachtConfirmation`, with
  the shared `Confirmation`): the five-second countdown, the random booking
  code, and the booking sent on arrival.
- **Yacht list and search** (`YachtsPage`, `YachtSearch`, `HomePage`, over
  `QueryParams`): checkbox filters, the query strings the forms build, the
  price bands, and the text filter of the results.
- **Flight search endpoint** (`FlightsApi`): the upstream query, the filter
  to Vietnamese carriers, the projection of upstream records, and the mock
  prices and seat counts.
- **Admin yacht form** (`YachtForm`): room types, image uploads and
  removal, and the saved record.

Pages that update state in place are classes. Their fields are the page's
React state, plus `navigation` (the last `router.push` target) and a log of
the requests sent. Each handler is a method with a `modifies` clause. The
browser's `localStorage` is a shared `LocalStorage` object over a map. The
pure computations are functions, and lemmas state what they promise.

Values from outside the program are parameters:

- the clock is a `now` instant;
- date parsing is a `parse` function (`new Date(s)`, `None` for an invalid date);
- `Math.random` is a draw in `[0, 1)`, or its base-36 digits;
- the outcome of `createBooking` is a `Reply`: created with or without data,
  an HTTP error with its text, or a rejected promise.

An `await` splits a handler into a method for the part before it and a
method for the part after the request settles.

Some source behaviour is surprising. The model keeps it as written and
states it as a lemma or as a scenario method:

- The flight payment page removes the draft on success, so the
  confirmation page finds no draft: it never posts the booking to
  `/api/bookings` and redirects to `/flights`
  (`FlightConfirmation.PaidDraftIsNeverConfirmed`).
- The flight payload reads `flight.flightNumber`, which the stored flight
  never has (it has `flight_number`), so the flight number is always
  undefined (`FlightPayment.Payload`).
- The seat page adds the ancillaries to the stored total and stores the
  sum, so continuing twice counts them twice
  (`FlightBooking.ReentryCountsAncillariesTwice`).
- The yacht payment reads `date`, while a yacht detail draft carries
  `booking_date`, so such a draft is booked for the current time
  (`YachtPayment.DetailDraftIsBookedForNow`).
- A rejected `createBooking` on the yacht payment page leaves both
  submitting flags set, so the page refuses every later attempt
  (`YachtPayment.RejectionLocksThePage`).
- An HTTP error with an empty body counts as success on the yacht payment
  page (`YachtPayment.EmptyErrorCountsAsSuccess`).
- The yacht confirmation shows the module-level sample booking, whatever
  the draft (`YachtConfirmation.DisplayIgnoresDraft`).
- The home page does not trim the query, while the yacht list page does
  (`HomePage.PaddedQueries`).
- The flight search's "Tiếp" button is disabled while the form is
  incomplete, so its click never sets the validation flag and the message
  asking to complete every traveller is never shown
  (`FlightSearch.SearchPage.Continue` keeps that branch as written).
- The yacht payment page removes the draft on success, so the yacht
  confirmation page that opens next finds none and sends nothing
  (`YachtConfirmation.PaidYachtDraftIsNeverSent`).
- A stored `booking_date` that is not a valid date makes the yacht
  confirmation effect throw: the page is replaced by the error screen, so
  nothing is sent and the countdown never returns to the yacht list
  (`YachtConfirmation.InvalidDateCrashesThePage`).

The yacht payment page defines a `handleSubmit` that navigates whatever
the outcome, but no element uses it. The three pay buttons navigate only
when the booking succeeded, and `YachtPayment.YachtPaymentPage.Pay` models
them.

The home page defines a `createBooking` server action, but no form uses
it: its only form submits through `handleSearch`. The model keeps the
action as `HomePage.CreateBookingAction`.

## Model

| member | source | states |
|---|---|---|
| FlightSearch.ResizePassengers | app/flights/FlightSearch.tsx:69-84 | the list has exactly adults + children forms; the existing forms are kept as a prefix and every added form is blank |
| FlightSearch.IsFormValid | app/flights/FlightSearch.tsx:139-145 | true iff there is one form per adult and child and every form has all six fields non-empty, as the loop proves against `FormValid` |
| FlightSearch.ResizedFormValid | app/flights/FlightSearch.tsx:69-84 | after a party-size change the gate is open iff the old forms already covered the party and the kept ones are complete; an added blank form always closes it |
| FlightSearch.AirlineFilter | app/flights/FlightSearch.tsx:118-123 | with no airline ticked every flight passes; otherwise a flight is kept iff its airline name is ticked; the result keeps the original order and each kept flight as many times as it occurs |
| FlightSearch.Suggestions | app/flights/FlightSearch.tsx:125-132 | an airport is suggested iff its name or code contains the typed text, ignoring case; the suggestions keep the table's order and multiplicities |
| FlightSearch.SuggestionsFilter | app/flights/FlightSearch.tsx:125-132 | over any airport table: kept iff the name or code contains the typed text, ignoring case, in table order and with each kept entry's multiplicity |
| FlightSearch.SuggestionsOfEmpty | app/flights/FlightSearch.tsx:125-128 | with nothing typed, every airport is suggested in table order |
| FlightSearch.TotalPagesIsCeiling | app/flights/FlightSearch.tsx:135-136 | the page count is the ceiling of total / 5, and 0 exactly when there are no results |
| FlightSearch.PageContents | app/flights/FlightSearch.tsx:137 | page p shows exactly the items at positions (p-1)*5 up to min(p*5, total), a range that ends at the "Đang xem" counter |
| FlightSearch.EveryItemOnItsPage | app/flights/FlightSearch.tsx:135-137 | item i appears on page i/5 + 1 at position i mod 5, and that page is one of the numbered pages |
| FlightSearch.ArrowsStayInRange | app/flights/FlightSearch.tsx:423-436 | from a page in [1, totalPages] both arrows stay in that range and move by one unless already at their end |
| FlightSearch.PageSlots | app/flights/FlightSearch.tsx:425-434 | the button row has one slot per page |
| FlightSearch.AllButtonsUpToSeven | app/flights/FlightSearch.tsx:425-434 | with at most seven pages every page gets its own button |
| FlightSearch.WindowedButtons | app/flights/FlightSearch.tsx:425-434 | beyond seven pages the buttons are exactly page 1, the last page and the current page with its neighbours; an ellipsis replaces page 2 iff page > 4 and page totalPages-1 iff page < totalPages-3; nothing else shows an ellipsis |
| FlightSearch.ContactNameJoin | app/flights/FlightSearch.tsx:619 | the trimmed contact name is title, first and last name joined by spaces, and starts at the first name when there is no title |
| FlightSearch.SearchPage.constructor | app/flights/FlightSearch.tsx:37-84 | one adult and one blank form, page 1, no results, no filter, no flight chosen |
| FlightSearch.SearchPage.SetParty | app/flights/FlightSearch.tsx:69-84 | the new party size, with the forms resized for it |
| FlightSearch.SearchPage.SetPassengerField | app/flights/FlightSearch.tsx:489-508 | only the named field of form idx changes |
| FlightSearch.SearchPage.ShowResults | app/flights/FlightSearch.tsx:86-98 | the results are replaced and the page number is not reset |
| FlightSearch.SearchPage.Prev | app/flights/FlightSearch.tsx:415-423 | the arrow, rendered only with more than one page, sets the page to max(1, page - 1) |
| FlightSearch.SearchPage.Next | app/flights/FlightSearch.tsx:436 | the page becomes min(totalPages, page + 1) |
| FlightSearch.SearchPage.GoToPage | app/flights/FlightSearch.tsx:415-434 | a rendered page button, which the windowed row shows only with more than one page, sets the page to its number |
| FlightSearch.SearchPage.SelectFlight | app/flights/FlightSearch.tsx:407 | choosing a flight shown on the current page makes it the chosen flight |
| FlightSearch.SearchPage.ClearFlight | app/flights/FlightSearch.tsx:598 | the back button clears the chosen flight |
| FlightSearch.SearchPage.SetContactField | app/flights/FlightSearch.tsx:554-590 | only the named contact field changes, to the typed value |
| FlightSearch.SearchPage.Continue | app/flights/FlightSearch.tsx:600-629 | with a valid form the draft built from the chosen flight, the party, the forms and the contact is stored under `flightBookingData` and the page goes to /flights/booking; otherwise storage and navigation are unchanged and the validation flag is set (a branch the disabled button keeps clicks from reaching) |
| FlightBooking.PriceOf | app/flights/booking/page.tsx:104-109 | the price of the first option with that id, and 0 for an unknown id |
| FlightBooking.ToggleSeat | app/flights/booking/page.tsx:92-102 | a selected seat is removed and the other seats keep their order; an unselected one is appended iff fewer seats than guests are selected; otherwise nothing changes |
| FlightBooking.ToggleKeepsSeatsOk | app/flights/booking/page.tsx:92-102 | one click keeps the selection free of duplicates and no longer than the guest count |
| FlightBooking.ClicksKeepSeatsOk | app/flights/booking/page.tsx:92-102 | any sequence of clicks from an empty selection keeps it free of duplicates and no longer than the guest count |
| FlightBooking.FullSelectionRejectsMore | app/flights/booking/page.tsx:97-100 | once one seat per guest is chosen, a click on an unselected seat changes nothing |
| FlightBooking.TotalPriceExamples | app/flights/booking/page.tsx:104-109 | 20 kg of baggage with chicken adds 650000 to the stored total; unknown options add 0 |
| FlightBooking.ReentryCountsAncillariesTwice | app/flights/booking/page.tsx:111-121 | continuing again from the stored draft adds the baggage and meal prices a second time |
| FlightBooking.SeatPage.constructor | app/flights/booking/page.tsx:72-77 | no seats, baggage and meal 'none', no draft |
| FlightBooking.SeatPage.Mount | app/flights/booking/page.tsx:79-90 | a stored draft is loaded with its guest count; without one the page goes to /flights |
| FlightBooking.SeatPage.ClickSeat | app/flights/booking/page.tsx:92-102 | the selection becomes the toggled selection and stays within the page invariant |
| FlightBooking.SeatPage.ChooseBaggage | app/flights/booking/page.tsx:240 | the chosen baggage id is recorded |
| FlightBooking.SeatPage.ChooseMeal | app/flights/booking/page.tsx:262 | the chosen meal id is recorded |
| FlightBooking.SeatPage.Continue | app/flights/booking/page.tsx:111-124 | stores the draft with the seats, options and total price, and goes to /flights/payment |
| CardFormat.GroupedIsGrouping | app/flights/payment/page.tsx:66-70 | the grouped digits put a space at every fifth position and the digits in order elsewhere |
| CardFormat.TrimSpaced | app/flights/payment/page.tsx:66-70 | trimming the regex output removes exactly the trailing space after a complete last group |
| CardFormat.DigitsOfGrouped | app/flights/payment/page.tsx:66-70 | removing the spaces from the grouped text gives back the digits |
| CardFormat.CardNumberGrouping | app/flights/payment/page.tsx:66-70 | the card field holds the input's digits in order, a space after each complete group of four that has more digits after it, and no leading or trailing space |
| CardFormat.CardNumberIdempotent | app/flights/payment/page.tsx:66-70 | typing the shown card number back in shows the same text |
| CardFormat.ExpiryCases | app/flights/payment/page.tsx:72-80 | more than four digits keep the old value; up to two digits are shown as typed; three or four become MM/Y or MM/YY |
| CardFormat.ExpiryIdempotent | app/flights/payment/page.tsx:72-80 | typing the shown expiry back in shows it again |
| CardFormat.CvvDigits | app/flights/payment/page.tsx:298 | the CVV field holds the first digits typed, at most three |
| CardFormat.CardValidOfFormatted | app/flights/payment/page.tsx:82 | the card test holds iff number, holder, expiry and CVV are all non-empty, stated in terms of what was typed |
| FlightPayment.Payload | app/flights/payment/page.tsx:88-105 | there is a payload iff the departure parses; it is a confirmed 'flight' booking made now, with the guests, total, route, airline and contact copied, no special requests, and an undefined flight number |
| FlightPayment.Succeeded | app/flights/payment/page.tsx:107-122 | a settled request succeeds iff it created a booking that carries data; any error reply or rejection fails |
| FlightPayment.PaymentPage.constructor | app/flights/payment/page.tsx:45-53 | empty card fields, no draft, not submitting |
| FlightPayment.PaymentPage.Mount | app/flights/payment/page.tsx:55-64 | a stored draft is loaded; without one the page goes to /flights |
| FlightPayment.PaymentPage.ChooseMethod | app/flights/payment/page.tsx:229 | the chosen method is recorded |
| FlightPayment.PaymentPage.TypeCardNumber | app/flights/payment/page.tsx:66-70 | the card field holds the formatted number |
| FlightPayment.PaymentPage.TypeCardHolder | app/flights/payment/page.tsx:270 | the holder is stored as typed |
| FlightPayment.PaymentPage.TypeExpiry | app/flights/payment/page.tsx:72-80 | the expiry field holds the formatted expiry, or keeps its old value |
| FlightPayment.PaymentPage.TypeCvv | app/flights/payment/page.tsx:298 | the CVV field holds the filtered digits |
| FlightPayment.PaymentPage.BeginInsert | app/flights/payment/page.tsx:84-106 | refused without any effect while submitting or without a draft; a payload that throws alerts the failure with the date error's message and clears the flag again; otherwise the flag is set and the payload is sent |
| FlightPayment.PaymentPage.FinishInsert | app/flights/payment/page.tsx:106-132 | the result is `Succeeded(reply)`; the draft is removed iff it succeeded; a failure alerts 'Đặt vé thất bại: ' followed by the reply's error text, the no-response message, or the rejection's message (or 'Lỗi không xác định'); the flag is cleared in every case |
| FlightPayment.PaymentPage.Submit | app/flights/payment/page.tsx:134-146 | succeeds iff the guard passes, the payload builds and the reply succeeds; only then is the draft removed and the page sent to /flights/confirmation; at most one request is sent; a failed attempt past the guard shows exactly one 'Đặt vé thất bại' alert |
| FlightConfirmation.ConfirmationPage.constructor | app/flights/confirmation/page.tsx:18-21 | countdown 5, no draft, no code, nothing sent |
| FlightConfirmation.ConfirmationPage.Mount | app/flights/confirmation/page.tsx:23-31 | a stored draft is loaded; without one the page goes to /flights |
| FlightConfirmation.ConfirmationPage.SendEffect | app/flights/confirmation/page.tsx:33-43 | the booking is posted only with a draft loaded and nothing sent or in flight; the body is the draft, 'completed' and an 'FL' code |
| FlightConfirmation.ConfirmationPage.Resolve | app/flights/confirmation/page.tsx:45-49 | marks the booking sent, shows a fresh 'FL' code and removes the draft |
| FlightConfirmation.ConfirmationPage.Reject | app/flights/confirmation/page.tsx:50-53 | marks the booking sent and keeps the draft |
| FlightConfirmation.ConfirmationPage.Tick | app/flights/confirmation/page.tsx:57-64 | one second of the countdown; at zero the page goes to /flights |
| FlightConfirmation.PaidDraftIsNeverConfirmed | app/flights/confirmation/page.tsx:23-31 | after a successful payment the confirmation page finds no draft, posts nothing, shows no code and goes to /flights |
| Confirmation.ElapseFrom | app/flights/confirmation/page.tsx:57-64 | from k > 0 seconds, n ticks leave max(k - n, 0) and redirect iff n >= k |
| Confirmation.ElapseAfterRedirect | app/flights/confirmation/page.tsx:57-64 | once the countdown has redirected, further ticks change nothing |
| Confirmation.RedirectAfterFiveTicks | app/flights/confirmation/page.tsx:18 | from the initial 5 the page redirects after exactly five ticks |
| Confirmation.UpperOfBase36 | app/flights/confirmation/page.tsx:42 | an upper-cased base-36 digit is a digit or a capital letter |
| Confirmation.BookingCode | app/flights/confirmation/page.tsx:42 | the code is the prefix followed by the first six characters of the draw's base-36 digits, upper-cased, so at most six digits or capital letters |
| Confirmation.FirstSix | app/flights/confirmation/page.tsx:42 | `substring(2, 8)` keeps a prefix of at most six of the draw's digits |
| Confirmation.UpperCharInjective | app/flights/confirmation/page.tsx:42 | upper-casing is one-to-one on base-36 digits |
| Confirmation.BookingCodeOfDraw | app/flights/confirmation/page.tsx:42 | two draws give the same code iff their first six digits agree |
| Confirmation.IndependentDrawsMayDiffer | app/flights/confirmation/page.tsx:42-47 | two draws can give different codes, so the code shown need not be the code sent |
| YachtPayment.DraftToSend | app/yachts/payment/page.tsx:67-71 | the stored draft, or the sample booking when none is stored |
| YachtPayment.OrElse | app/yachts/payment/page.tsx:91-92 | `a ?? b` is a when present, and b otherwise |
| YachtPayment.BookingInstant | app/yachts/payment/page.tsx:80-85 | the instant of a non-empty, valid `date`, and now otherwise |
| YachtPayment.Payload | app/yachts/payment/page.tsx:87-98 | a confirmed 'yacht' booking for the draft's non-zero yacht id, with guests and total taken from the first field present, the contact copied and no special requests |
| YachtPayment.SampleBookingPayload | app/yachts/payment/page.tsx:18-32 | without a stored draft the sample booking is paid for: yacht 1, 4 guests, 25000000 |
| YachtPayment.DetailDraftIsBookedForNow | app/yachts/payment/page.tsx:80-85 | a draft carrying only `booking_date` is booked for the current time |
| YachtPayment.YachtPaymentPage.constructor | app/yachts/payment/page.tsx:40-47 | empty card fields, both flags clear, nothing sent |
| YachtPayment.YachtPaymentPage.ChooseMethod | app/yachts/payment/page.tsx:169 | the chosen method is recorded |
| YachtPayment.YachtPaymentPage.TypeCardNumber | app/yachts/payment/page.tsx:48-52 | the card field holds the formatted number |
| YachtPayment.YachtPaymentPage.TypeCardHolder | app/yachts/payment/page.tsx:192 | the holder is stored as typed |
| YachtPayment.YachtPaymentPage.TypeExpiry | app/yachts/payment/page.tsx:53-59 | the expiry field holds the formatted expiry, or keeps its old value |
| YachtPayment.YachtPaymentPage.TypeCvv | app/yachts/payment/page.tsx:201 | the CVV field holds the filtered digits |
| YachtPayment.YachtPaymentPage.BeginInsert | app/yachts/payment/page.tsx:62-99 | refused while either flag is set; a draft without a yacht id alerts the user to choose the yacht again, clears both flags and sends nothing; otherwise both flags are set and the payload is sent |
| YachtPayment.YachtPaymentPage.FinishInsert | app/yachts/payment/page.tsx:99-110 | a rejection leaves both flags set; otherwise both are cleared, and the draft is removed and true returned iff the error text is empty |
| YachtPayment.YachtPaymentPage.Pay | app/yachts/payment/page.tsx:204 | succeeds iff the guard passes, the yacht id is present and the reply carries no error text; only then is the draft removed and the page sent to /yachts/confirmation; the missing-yacht alert is shown iff the guard passes without a yacht id |
| YachtPayment.RejectionLocksThePage | app/yachts/payment/page.tsx:99-103 | after a rejected request every later attempt is refused, and only one request is ever sent |
| YachtPayment.MissingYachtIdIsAlerted | app/yachts/payment/page.tsx:73-78 | a draft without a yacht id is never sent; the click only shows the missing-yacht alert |
| YachtPayment.EmptyErrorCountsAsSuccess | app/yachts/payment/page.tsx:103-110 | an HTTP error with an empty body removes the draft and goes to /yachts/confirmation |
| YachtConfirmation.NormalisedDate | app/yachts/confirmation/page.tsx:36-40 | a non-empty `booking_date` is parsed (an invalid one throws); a missing or empty one becomes now |
| YachtConfirmation.YachtConfirmationPage.constructor | app/yachts/confirmation/page.tsx:6-27 | countdown 5, nothing sent, not crashed, and a display code of 'YACHT' plus one random draw |
| YachtConfirmation.YachtConfirmationPage.SendEffect | app/yachts/confirmation/page.tsx:29-47 | with a stored draft and nothing sent, the draft is sent with a null user id and the normalised date; an invalid `booking_date` throws instead, sends nothing and crashes the page; without a draft nothing is sent |
| YachtConfirmation.YachtConfirmationPage.Settle | app/yachts/confirmation/page.tsx:41-45 | a settled request marks the booking sent and removes the draft, whatever the reply; a rejection changes nothing |
| YachtConfirmation.YachtConfirmationPage.Tick | app/yachts/confirmation/page.tsx:49-56 | one second of the countdown; at zero the page goes to /yachts; a crashed page has no timer and changes nothing |
| YachtConfirmation.YachtConfirmationPage.Shown | app/yachts/confirmation/page.tsx:105-113 | the page shows the 'YACHT' code and the sample booking's yacht, guests and total |
| YachtConfirmation.InvalidDateCrashesThePage | app/yachts/confirmation/page.tsx:36-37 | a non-empty `booking_date` that does not parse leaves nothing sent and no navigation, however many seconds pass |
| YachtConfirmation.PaidYachtDraftIsNeverSent | app/yachts/payment/page.tsx:99-110 | after a successful yacht payment the confirmation page finds no draft and sends nothing |
| YachtConfirmation.DisplayIgnoresDraft | app/yachts/confirmation/page.tsx:105-113 | two different drafts show the same summary |
| YachtSearch.PriceBands | app/yachts/search/page.tsx:10-21 | each label's band with inclusive bounds; 1000000 and 3000000 each fall in two bands; any other label admits every non-negative price |
| YachtSearch.FilteredYachtsSpec | app/yachts/search/page.tsx:43-51 | a yacht is kept iff it matches the text and the price band; the result keeps the fetched order and each kept yacht's multiplicity |
| YachtSearch.FilteredYachtsUnfiltered | app/yachts/search/page.tsx:43-51 | with neither query nor price every yacht of non-negative price is kept |
| YachtsPage.Toggle | app/yachts/page.tsx:97-100 | a present value is removed and the others keep their order; an absent one is appended |
| YachtsPage.ChangeFilter | app/yachts/page.tsx:94-106 | only the named category's list changes |
| YachtsPage.ToggleTwice | app/yachts/page.tsx:97-100 | checking and then unchecking an absent value restores the filters |
| YachtsPage.Pair | app/yachts/page.tsx:82-89 | a parameter is set iff its value is present |
| YachtsPage.SearchPairsLookup | app/yachts/page.tsx:82-89 | reading the URL back gives the trimmed query, the price unless it is the 'all prices' entry, and each non-empty filter list joined by commas |
| YachtsPage.SearchParams | app/yachts/page.tsx:77-89 | the successive `set` calls build exactly the search pairs |
| YachtsPage.SetAll | app/yachts/page.tsx:82-89 | the five conditional `set` calls append the present pairs in order |
| YachtsPage.SetWhen | app/yachts/page.tsx:82 | setting a present value on a key not yet set appends the pair; an absent value sets nothing |
| YachtsPage.YachtListPage.constructor | app/yachts/page.tsx:94-106 | all three filter lists empty |
| YachtsPage.YachtListPage.HandleFilterChange | app/yachts/page.tsx:94-106 | the filters become the toggled filters |
| YachtsPage.YachtListPage.HandleSearch | app/yachts/page.tsx:74-91 | the page goes to /yachts with the query string of the search pairs |
| QueryParams.LookupSetParam | app/yachts/page.tsx:82-89 | after `set`, `get` returns the new value for that key and the old value for every other key |
| QueryParams.SetParamFresh | app/yachts/page.tsx:82-89 | `set` on a key not yet present appends the pair |
| HomePage.HomePairsLookup | app/page.tsx:41-44 | reading the redirect URL back gives the untrimmed query, the location unless it is 'all locations', and the price unless it is 'all prices' |
| HomePage.PaddedQueries | app/page.tsx:42 | a padded query is sent as typed by the home page and trimmed by the yacht list page; a blank query is sent by one and dropped by the other |
| HomePage.HandleSearch | app/page.tsx:34-48 | redirects to /yachts/search with the query string of the home pairs |
| HomePage.YachtIdField | app/page.tsx:26 | undefined unless the service is a yacht; otherwise the `parseInt` of the id (decimal, or hexadecimal after `0x`), or NaN |
| HomePage.YachtIdOfDecimal | app/page.tsx:26 | a yacht booked by its decimal id carries that id |
| HomePage.CreateBookingAction | app/page.tsx:19-32 | sends the service type, the yacht id and the current time; throws iff the request fails or the reply carries an error text |
| Common.ParseIntOfNatToString | app/page.tsx:26 | `parseInt` reads back the decimal text of a number whatever non-digit follows, unless an `x` after a written 0 makes it a hexadecimal prefix |
| Common.ParseIntHex | app/page.tsx:26 | `parseInt("0x1A")` is 26: a `0x` prefix switches to hexadecimal |
| Common.ParseIntHexNoDigits | app/page.tsx:26 | `parseInt("0xg1")` is NaN: a `0x` prefix with no hexadecimal digit after it reads nothing |
| Common.TrimIsInfix | app/yachts/page.tsx:82 | `trim` returns an infix that neither starts nor ends with ECMAScript white space or a line terminator, and everything cut away is such a character |
| Common.FilterMultiset | app/flights/FlightSearch.tsx:118-123 | `filter` keeps every copy of a passing element and no copy of any other |
| Common.WithoutIsSubsequence | app/yachts/page.tsx:97-100 | filtering out one value leaves the others in their order |
| Common.RemoveAt | app/dashboard/yachts/components/YachtForm.tsx:126 | filtering out index idx removes exactly that position, and nothing for an index out of range |
| FlightsApi.UpstreamQueryParts | app/api/flights/route.ts:16-21 | the parts are the access key, then `dep_iata`, `arr_iata` and `flight_date` each iff given, in that order |
| FlightsApi.UpstreamQueryStart | app/api/flights/route.ts:16-21 | the upstream query string starts with the access key |
| FlightsApi.AirlineName | app/api/flights/route.ts:36 | a known code gets its canonical name, and any other code keeps the upstream name |
| FlightsApi.RandomInt | app/api/flights/route.ts:72-74 | `randomInt(min, max)` lies in [min, max] |
| FlightsApi.ScaledFloor | app/api/flights/route.ts:73 | the floor of a draw times n lies in [0, n) |
| FlightsApi.MockPriceBands | app/api/flights/route.ts:62-68 | HVN prices lie in [1200000, 2500000], QH in [900000, 1800000], VJ in [800000, 1600000], and others in [1000000, 2000000] |
| FlightsApi.MockSeats | app/api/flights/route.ts:69-71 | the seat count lies in [5, 30] |
| FlightsApi.ProjectVietnamese | app/api/flights/route.ts:30-57 | a kept record's offer copies the flight number, status and endpoints, names the carrier canonically, and has an in-band price and 5 to 30 seats |
| FlightsApi.KeptSpec | app/api/flights/route.ts:28-30 | a record is kept iff its carrier is HVN, VJ or QH; the kept records keep their order and their multiplicities |
| FlightsApi.FlightsSpec | app/api/flights/route.ts:28-57 | one offer per kept record, in order, each meeting `IsOfferFor` |
| YachtForm.AddRoom | app/dashboard/yachts/components/YachtForm.tsx:121-123 | exactly one default room is appended and the existing rooms are unchanged |
| YachtForm.RemoveRoomSpec | app/dashboard/yachts/components/YachtForm.tsx:125-127 | position idx goes, the others keep their order, and an index out of range changes nothing |
| YachtForm.RemoveAddedRoom | app/dashboard/yachts/components/YachtForm.tsx:121-127 | removing the room just added restores the list |
| YachtForm.EditRoomSpec | app/dashboard/yachts/components/YachtForm.tsx:129-131 | an edit sets its own field and leaves every other field alone |
| YachtForm.ChangeRoom | app/dashboard/yachts/components/YachtForm.tsx:129-131 | the length and every other room are unchanged, and room idx is edited |
| YachtForm.RemoveImageSpec | app/dashboard/yachts/components/YachtForm.tsx:231 | the URL at the index goes, the others keep their order, and exactly one copy of it is removed |
| YachtForm.Uploaded | app/dashboard/yachts/components/YachtForm.tsx:41-58 | no more URLs than uploads |
| YachtForm.UploadedInOrder | app/dashboard/yachts/components/YachtForm.tsx:41-58 | when every upload succeeds there is one URL per file, in upload order |
| YachtForm.NumberOf | app/dashboard/yachts/components/YachtForm.tsx:76 | blank text is 0, and a digit string is a non-negative number |
| YachtForm.NumberOfNatToString | app/dashboard/yachts/components/YachtForm.tsx:76 | `Number` reads back the decimal text of a price |
| YachtForm.ImagesOf | app/dashboard/yachts/components/YachtForm.tsx:77 | one image record per URL |
| YachtForm.YachtDataSpec | app/dashboard/yachts/components/YachtForm.tsx:73-78 | the saved images are the form's URLs in order, and the saved price is the number typed |
| YachtForm.YachtFormPage.constructor | app/dashboard/yachts/components/YachtForm.tsx:28-31 | the editing yacht's image URLs, or none, and no rooms |
| YachtForm.YachtFormPage.UploadImages | app/dashboard/yachts/components/YachtForm.tsx:33-67 | no file changes nothing; if any upload fails the batch is discarded and the upload-failure alert is shown; otherwise the new URLs follow the old ones in upload order and nothing is alerted; the uploading flag ends clear |
| YachtForm.YachtFormPage.HandleAddRoom | app/dashboard/yachts/components/YachtForm.tsx:121-123 | the rooms become `AddRoom` of the old rooms |
| YachtForm.YachtFormPage.HandleRemoveRoom | app/dashboard/yachts/components/YachtForm.tsx:125-127 | the rooms become `RemoveRoom` of the old rooms |
| YachtForm.YachtFormPage.HandleRoomChange | app/dashboard/yachts/components/YachtForm.tsx:129-131 | the rooms become `ChangeRoom` of the old rooms |
| YachtForm.YachtFormPage.HandleRemoveImage | app/dashboard/yachts/components/YachtForm.tsx:231 | the URLs become `RemoveImage` of the old URLs |
| YachtForm.YachtFormPage.Data | app/dashboard/yachts/components/YachtForm.tsx:73-78 | the saved record wraps each of the form's URLs, in order |

## Left out

- Network and backend calls (`fetch`, `createBooking`, Supabase, storage uploads, the AviationStack client) are not modelled. Their outcomes are parameters.
- The OpenAI chat route and the chat widget are not part of this model.
- The login, dashboard listing and delete pages are not part of this model.
- JSX rendering, styling and `toLocaleString` price formatting are not modelled. Only the values the pages compute are.
- Real timers are not modelled: the countdown advances one `Tick` per second. So are React's re-render timing and stale closures.
- `getDateRange` and the date strip of the flight search are not modelled. They only produce dates for display.
- Percent-encoding in `URLSearchParams.toString` is not modelled: `QueryString` joins raw `key=value` pairs.
- Case folding is ASCII only. Vietnamese letters with diacritics are not folded. White space for `trim` and `parseInt` follows the ECMAScript set (the Zs space separators, tab, vertical tab, form feed, no-break space, byte order mark and the line terminators).
- Stored JSON of the wrong shape, and `JSON.parse` failures, are not modelled: storage holds typed drafts.
- The `cp[idx]` aliasing in the traveller form's `onChange` is not modelled: it mutates the shared form objects in place. `FlightSearch.SearchPage.SetPassengerField` replaces the form by value.
- `maxLength` limits on the input elements are not modelled.
- `Number` of a party size or price that is NaN or fractional is not modelled: sizes and prices are integers.
- The flight search's own `handleSearch`, which issues the `/api/flights` request, is not modelled. Its result enters as `FlightSearch.SearchPage.ShowResults`.
- The flight confirmation posts its body to `/api/bookings`. The model keeps the body as `posts` and does not model the endpoint.
- The admin form's save (`handleSubmit`: insert or update, the duplicate-key alert, room inserts) is not modelled. Only the record it sends is, as `YachtForm.YachtFormPage.Data`.
- FlightPayment.DepartureInstant: a `scheduled` of JSON null is read like a missing one, as an invalid date, while `new Date(null)` is the epoch; the model's `Option` does not tell null from absent, so the payment page is modelled as failing where the source would send 1970-01-01.
- The `disabled` state of the pay buttons (no valid card, or submitting) and of the flight search's "Tiếp" button (an incomplete form) is not modelled as a precondition of the handlers; the handlers' own guards are, so `FlightSearch.SearchPage.Continue` keeps the invalid-form branch that no click reaches.
- FlightSearch.SearchPage.SetParty: takes natural sizes. The source reads each size with `parseInt`, which gives NaN for an empty field and a negative number for a typed "-1" (`min` does not stop typing); a negative total makes `slice(0, total)` drop forms from the end rather than empty the list, and NaN totals keep the list unchanged. Neither is modelled.
- FlightPayment.PaymentPage.BeginInsert: the alert after a throwing payload carries V8's wording of the date error ("Invalid time value"); other engines word it differently.
- The flight payment's outer `catch` alert in `handleSubmit` is not modelled: `handleInsertBooking` catches everything itself, so it is not reached.
- The flight search's `setFilter` is never called by the page, so the airline filter is only modelled as a function of a given filter.
- YachtForm.NumberOf: reads only blank text and plain digit strings. Signs, decimals and exponents read as NaN.
- YachtForm.YachtFormPage.UploadImages: does not model the random file names or the `uploading` flag during the awaits.
- FlightsApi.RandomInt: requires min <= max. The source only calls it with such bounds.
