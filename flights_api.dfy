/** The flight search endpoint (app/api/flights/route.ts): the upstream
    query string, the filter to Vietnamese carriers, the projection of each
    upstream record onto the front end's flight offer, and the mock price
    and seat count attached to it. */
module FlightsApi {
  import opened Common
  import opened Booking

  const VIETNAM_AIRLINES: seq<string> := ["HVN", "VJ", "QH"]

  const AIRLINE_NAMES: map<string, string> := map[
    "HVN" := "Vietnam Airlines",
    "VJ" := "Vietjet Air",
    "QH" := "Bamboo Airways"]

  // ---------------------------------------------------------------------------
  // Upstream query

  /** `value ? key=value : ''`. */
  function Part(key: string, value: Option<string>): string
  {
    if value.Some? && value.value != "" then key + "=" + value.value else ""
  }

  /** The four candidate parts, blanks included, before `filter(Boolean)`. */
  function RawParts(accessKey: string, dep: Option<string>, arr: Option<string>, date: Option<string>): seq<string>
  {
    ["access_key=" + accessKey, Part("dep_iata", dep), Part("arr_iata", arr), Part("flight_date", date)]
  }

  /** `Boolean(part)` for a string. */
  predicate NonBlank(part: string)
  {
    part != ""
  }

  /** The upstream query string. */
  function UpstreamQuery(accessKey: string, dep: Option<string>, arr: Option<string>, date: Option<string>): string
  {
    Join(Filter(RawParts(accessKey, dep, arr, date), NonBlank), "&")
  }

  function Present(key: string, value: Option<string>): seq<string>
  {
    if value.Some? && value.value != "" then [key + "=" + value.value] else []
  }

  lemma FilterNonBlankCons(x: string, rest: seq<string>)
    ensures Filter([x] + rest, NonBlank) == (if x != "" then [x] else []) + Filter(rest, NonBlank)
  {
    assert ([x] + rest)[1..] == rest;
  }

  lemma PresentPart(key: string, value: Option<string>)
    ensures (if Part(key, value) != "" then [Part(key, value)] else []) == Present(key, value)
  {
    if value.Some? && value.value != "" {
      assert |Part(key, value)| > 0;
    }
  }

  /** The access key always comes first; each of `dep_iata`, `arr_iata`
      and `flight_date` follows, in that order, exactly when it was given. */
  lemma UpstreamQueryParts(accessKey: string, dep: Option<string>, arr: Option<string>, date: Option<string>)
    ensures Filter(RawParts(accessKey, dep, arr, date), NonBlank)
      == ["access_key=" + accessKey] + (Present("dep_iata", dep) + (Present("arr_iata", arr) + Present("flight_date", date)))
  {
    var a := "access_key=" + accessKey;
    var b := Part("dep_iata", dep);
    var c := Part("arr_iata", arr);
    var d := Part("flight_date", date);
    var s3: seq<string> := [d];
    var s2 := [c] + s3;
    var s1 := [b] + s2;
    var s0 := [a] + s1;
    assert RawParts(accessKey, dep, arr, date) == s0;
    FilterNonBlankCons(d, []);
    assert [d] + [] == s3;
    PresentPart("flight_date", date);
    var f3 := Present("flight_date", date);
    assert Filter(s3, NonBlank) == f3;
    FilterNonBlankCons(c, s3);
    PresentPart("arr_iata", arr);
    var f2 := Present("arr_iata", arr) + f3;
    assert Filter(s2, NonBlank) == f2;
    FilterNonBlankCons(b, s2);
    PresentPart("dep_iata", dep);
    var f1 := Present("dep_iata", dep) + f2;
    assert Filter(s1, NonBlank) == f1;
    FilterNonBlankCons(a, s1);
    assert |a| > 0;
    assert Filter(s0, NonBlank) == [a] + f1;
  }

  /** The query string starts with the access key. */
  lemma UpstreamQueryStart(accessKey: string, dep: Option<string>, arr: Option<string>, date: Option<string>)
    ensures "access_key=" + accessKey <= UpstreamQuery(accessKey, dep, arr, date)
  {
    UpstreamQueryParts(accessKey, dep, arr, date);
    var parts := Filter(RawParts(accessKey, dep, arr, date), NonBlank);
    JoinStartsWithFirst(parts, "&");
  }

  lemma JoinStartsWithFirst(parts: seq<string>, sep: string)
    requires parts != []
    ensures parts[0] <= Join(parts, sep)
  {
  }

  // ---------------------------------------------------------------------------
  // Projection

  /** An upstream record, reduced to the fields the route reads. A missing
      nested object reads as all its fields missing. */
  datatype UpstreamFlight = UpstreamFlight(
    flightIata: Option<string>,
    airlineIata: Option<string>,
    airlineName: Option<string>,
    departure: Endpoint,
    arrival: Endpoint,
    flightStatus: Option<string>)

  /** `VIETNAM_AIRLINES.includes(f.airline?.iata)`. */
  predicate IsVietnamese(f: UpstreamFlight)
  {
    f.airlineIata.Some? && f.airlineIata.value in VIETNAM_AIRLINES
  }

  /** The canonical name of a known carrier, and the upstream name
      otherwise. */
  function AirlineName(iata: Option<string>, upstream: Option<string>): (r: Option<string>)
    ensures iata.Some? && iata.value in AIRLINE_NAMES ==> r == Some(AIRLINE_NAMES[iata.value])
    ensures !(iata.Some? && iata.value in AIRLINE_NAMES) ==> r == upstream
  {
    if iata.Some? && iata.value != "" && iata.value in AIRLINE_NAMES then Some(AIRLINE_NAMES[iata.value])
    else upstream
  }

  /** The flight offer for one upstream record. */
  function Project(f: UpstreamFlight, price: int, seatsLeft: int): Flight
  {
    Flight(
      flightNumber := f.flightIata,
      airline := Airline(f.airlineIata, AirlineName(f.airlineIata, f.airlineName)),
      departure := f.departure,
      arrival := f.arrival,
      status := f.flightStatus,
      price := price,
      seatsLeft := seatsLeft)
  }

  // ---------------------------------------------------------------------------
  // Mock numbers

  /** A value of `Math.random()`. */
  type Unit = r: real | 0.0 <= r < 1.0

  /** `randomInt(min, max)` for the draw `u`. */
  function RandomInt(min: int, max: int, u: Unit): (r: int)
    requires min <= max
    ensures min <= r <= max
  {
    ScaledFloor(u, max - min + 1);
    (u * (max - min + 1) as real).Floor + min
  }

  /** `Math.floor(u * n)` lies in `[0, n)`. */
  lemma ScaledFloor(u: Unit, n: int)
    requires n >= 1
    ensures 0 <= (u * n as real).Floor < n
  {
    var x := u * n as real;
    assert n as real - x == (1.0 - u) * n as real;
    assert (1.0 - u) * n as real > 0.0;
    assert x >= 0.0;
    assert x.Floor as real <= x < x.Floor as real + 1.0;
  }

  /** `mockPrice(iata)`. */
  function MockPrice(iata: Option<string>, u: Unit): int
  {
    if iata == Some("HVN") then RandomInt(1200000, 2500000, u)
    else if iata == Some("QH") then RandomInt(900000, 1800000, u)
    else if iata == Some("VJ") then RandomInt(800000, 1600000, u)
    else RandomInt(1000000, 2000000, u)
  }

  /** The price band of each carrier. */
  lemma MockPriceBands(iata: Option<string>, u: Unit)
    ensures iata == Some("HVN") ==> 1200000 <= MockPrice(iata, u) <= 2500000
    ensures iata == Some("QH") ==> 900000 <= MockPrice(iata, u) <= 1800000
    ensures iata == Some("VJ") ==> 800000 <= MockPrice(iata, u) <= 1600000
    ensures iata !in {Some("HVN"), Some("QH"), Some("VJ")} ==> 1000000 <= MockPrice(iata, u) <= 2000000
  {
  }

  /** `mockSeats()`. */
  function MockSeats(u: Unit): (r: int)
    ensures 5 <= r <= 30
  {
    RandomInt(5, 30, u)
  }

  // ---------------------------------------------------------------------------
  // The response

  /** The records kept, in upstream order (`data.data || []`). */
  function Kept(data: Option<seq<UpstreamFlight>>): seq<UpstreamFlight>
  {
    Filter(if data.Some? then data.value else [], f => IsVietnamese(f))
  }

  /** The response's flights. `draw(i)` is the i-th call of `Math.random`:
      the k-th kept record draws its price and then its seat count. */
  function Flights(data: Option<seq<UpstreamFlight>>, draw: nat -> Unit): seq<Flight>
  {
    var kept := Kept(data);
    seq(|kept|, k requires 0 <= k < |kept| =>
      Project(kept[k], MockPrice(kept[k].airlineIata, draw(2 * k)), MockSeats(draw(2 * k + 1))))
  }

  /** What the route promises of the offer for an upstream record: its
      flight number, status and endpoints copied, the carrier's code and
      canonical name, a price in the carriers' overall band and between 5
      and 30 seats. */
  predicate IsOfferFor(r: Flight, f: UpstreamFlight)
  {
    r.flightNumber == f.flightIata && r.status == f.flightStatus
    && r.departure == f.departure && r.arrival == f.arrival
    && r.airline.iata == f.airlineIata
    && f.airlineIata.Some? && f.airlineIata.value in AIRLINE_NAMES
    && r.airline.name == Some(AIRLINE_NAMES[f.airlineIata.value])
    && 800000 <= r.price <= 2500000
    && 5 <= r.seatsLeft <= 30
  }

  /** The offer for a kept record meets `IsOfferFor`. */
  lemma ProjectVietnamese(f: UpstreamFlight, priceDraw: Unit, seatsDraw: Unit)
    requires IsVietnamese(f)
    ensures IsOfferFor(Project(f, MockPrice(f.airlineIata, priceDraw), MockSeats(seatsDraw)), f)
  {
    MockPriceBands(f.airlineIata, priceDraw);
  }

  /** A record is kept exactly when its carrier is one of the three
      Vietnamese ones, and the kept records keep their upstream order. */
  lemma KeptSpec(data: Option<seq<UpstreamFlight>>)
    ensures IsSubsequence(Kept(data), if data.Some? then data.value else [])
    ensures forall f :: f in Kept(data) <==> (data.Some? && f in data.value && IsVietnamese(f))
    ensures forall f :: (multiset(Kept(data))[f]
      == if IsVietnamese(f) then multiset(if data.Some? then data.value else [])[f] else 0)
  {
    FilterIsSubsequence(if data.Some? then data.value else [], f => IsVietnamese(f));
    FilterMultiset(if data.Some? then data.value else [], f => IsVietnamese(f));
  }

  /** The offers are the kept records, one each and in order. */
  lemma {:induction false} FlightsSpec(data: Option<seq<UpstreamFlight>>, draw: nat -> Unit)
    ensures |Flights(data, draw)| == |Kept(data)|
    ensures forall k :: 0 <= k < |Kept(data)| ==> IsOfferFor(Flights(data, draw)[k], Kept(data)[k])
  {
    var kept := Kept(data);
    forall k | 0 <= k < |kept|
      ensures IsOfferFor(Flights(data, draw)[k], kept[k])
    {
      assert kept[k] in kept;
      ProjectVietnamese(kept[k], draw(2 * k), draw(2 * k + 1));
    }
  }
}
