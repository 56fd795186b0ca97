/**
 * `FlightTools` (f_agent.py:110-172): the `search_flights` tool, its airport
 * lookup and the projection of provider offers onto flight options. The
 * provider's two endpoints are the uninterpreted functions of an `Amadeus`
 * value; a lookup that raises is `None`.
 */
module FlightTools {
  import opened Wrappers
  import opened Text
  import opened Messages
  import opened Offers

  datatype Airport = Airport(iataCode: string)

  /** The keyword arguments of `flight_offers_search.get`. */
  datatype OfferQuery = OfferQuery(
    originLocationCode: string,
    destinationLocationCode: string,
    departureDate: string,
    adults: int,
    travelClass: string,
    max: nat)

  /** The flight search's answer: its `data`, a `ResponseError`, or any other
      exception, each with the text `str(error)` gives. */
  datatype SearchResponse = Data(offers: seq<Offer>) | ApiFailure(text: string) | Raised(text: string)

  datatype Amadeus = Amadeus(
    locations: string -> Option<seq<Airport>>,
    flightOffers: OfferQuery -> SearchResponse)

  /** What `search_flights` returns: a list of flight options or `{"error": …}`. */
  datatype SearchResult = Options(options: seq<FlightOption>) | SearchError(error: string)

  /** The `max=3` of the search request. */
  const MaxOffers := 3
  const DefaultAdults := 1
  const DefaultCabinClass := "ECONOMY"

  const InvalidCodes := "Invalid airport codes"
  const NoFlightsFound := "No flights found"
  /** `str()` of the `IndexError` that `[0]` raises on an empty list. */
  const IndexOutOfRange := "list index out of range"
  /** `str()` of the `KeyError` raised when an offer has no `class` key. */
  const MissingClass := "'class'"

  /** `_get_airport_code`: the `iataCode` of the first airport the keyword
      lookup returns; `None` when it returns nothing or raises. */
  function GetAirportCode(amadeus: Amadeus, location: string): (r: Option<string>)
    ensures r.None? <==> amadeus.locations(location).None? || amadeus.locations(location).value == []
    ensures r.Some? ==> r.value == amadeus.locations(location).value[0].iataCode
  {
    match amadeus.locations(location)
    case None => None
    case Some(airports) => if airports == [] then None else Some(airports[0].iataCode)
  }

  /** Python truthiness of the looked-up code: `None` and `""` are both false. */
  predicate IsResolved(code: Option<string>) {
    code.Some? && code.value != ""
  }

  function ToSegment(seg: Segment): FlightSegment {
    FlightSegment(seg.carrierCode, seg.number, seg.departure.iataCode, seg.arrival.iataCode,
                  seg.departure.at, seg.arrival.at, seg.duration)
  }

  function ToSegments(segs: seq<Segment>): (r: seq<FlightSegment>)
    ensures |r| == |segs|
    ensures forall j :: 0 <= j < |segs| ==> r[j] == ToSegment(segs[j])
  {
    if segs == [] then [] else [ToSegment(segs[0])] + ToSegments(segs[1..])
  }

  /** One element of `_format_flight_results`, or the exception its
      subscripts raise: `itineraries[0]` is read before `class`. */
  function ToFlightOption(offer: Offer): Result<FlightOption> {
    if offer.itineraries == [] then Err(IndexOutOfRange)
    else match offer.classes
      case None => Err(MissingClass)
      case Some(classes) =>
        if classes == [] then Err(IndexOutOfRange)
        else Ok(FlightOption(offer.id, offer.price.total, offer.price.currency,
                             ToSegments(offer.itineraries[0].segments), classes[0]))
  }

  /** `_format_flight_results`: one option per offer, in order, with the offer
      id, price total and currency copied and the segments of the first
      itinerary; the first offer whose projection raises aborts it. */
  function FormatFlightResults(offers: seq<Offer>): (r: Result<seq<FlightOption>>)
    ensures r.Ok? <==> forall i :: 0 <= i < |offers| ==> ToFlightOption(offers[i]).Ok?
    ensures r.Ok? ==> |r.value| == |offers|
    ensures r.Ok? ==> forall i :: 0 <= i < |offers| ==>
              && r.value[i].id == offers[i].id
              && r.value[i].price == offers[i].price.total
              && r.value[i].currency == offers[i].price.currency
              && r.value[i].segments == ToSegments(offers[i].itineraries[0].segments)
              && r.value[i].cabinClass == offers[i].classes.value[0]
    ensures r.Err? ==> exists i :: 0 <= i < |offers| && ToFlightOption(offers[i]) == Err(r.error)
                                   && forall j :: 0 <= j < i ==> ToFlightOption(offers[j]).Ok?
  {
    if offers == [] then Ok([])
    else match ToFlightOption(offers[0])
      case Err(e) => Err(e)
      case Ok(option) =>
        match FormatFlightResults(offers[1..])
        case Err(e) => Err(e)
        case Ok(rest) => Ok([option] + rest)
  }

  /** The request `search_flights` sends, or `None` when either airport code
      does not resolve and no search is issued. */
  function Query(amadeus: Amadeus, args: SearchArgs): (q: Option<OfferQuery>)
    ensures q.Some? <==> IsResolved(GetAirportCode(amadeus, args.origin))
                         && IsResolved(GetAirportCode(amadeus, args.destination))
  {
    var origin := GetAirportCode(amadeus, args.origin);
    var destination := GetAirportCode(amadeus, args.destination);
    if !IsResolved(origin) || !IsResolved(destination) then None
    else Some(OfferQuery(origin.value, destination.value, args.departureDate,
                         args.adults.GetOr(DefaultAdults),
                         Upper(args.cabinClass.GetOr(DefaultCabinClass)), MaxOffers))
  }

  /** `search_flights`: both airport codes are looked up; if either is
      missing the tool answers "Invalid airport codes"; otherwise one search
      is issued and its outcome mapped onto options or an error text. */
  function SearchFlights(amadeus: Amadeus, args: SearchArgs): (r: SearchResult)
    ensures r.Options? ==> r.options != []
    ensures r.SearchError? ==>
              || r.error == InvalidCodes || r.error == NoFlightsFound
              || StartsWith(r.error, "API error: ") || StartsWith(r.error, "Search failed: ")
  {
    match Query(amadeus, args)
    case None => SearchError(InvalidCodes)
    case Some(query) =>
      match amadeus.flightOffers(query)
      case ApiFailure(text) => SearchError("API error: " + text)
      case Raised(text) => SearchError("Search failed: " + text)
      case Data(offers) =>
        if offers == [] then SearchError(NoFlightsFound)
        else match FormatFlightResults(offers)
          case Ok(options) => Options(options)
          case Err(text) => SearchError("Search failed: " + text)
  }

  /** The search that is issued asks for at most three offers, for the two
      looked-up codes, the requested date and the upper-cased cabin class
      (`ECONOMY` and one adult when the call leaves them out). */
  lemma QueryShape(amadeus: Amadeus, args: SearchArgs)
    requires Query(amadeus, args).Some?
    ensures var q := Query(amadeus, args).value;
      && q.max == 3
      && q.originLocationCode == amadeus.locations(args.origin).value[0].iataCode != ""
      && q.destinationLocationCode == amadeus.locations(args.destination).value[0].iataCode != ""
      && q.departureDate == args.departureDate
      && q.adults == (if args.adults.Some? then args.adults.value else 1)
      && q.travelClass == Upper(if args.cabinClass.Some? then args.cabinClass.value else "ECONOMY")
  {
  }

  /** An unresolved code answers "Invalid airport codes" whatever the flight
      search would have said: the search is not consulted. */
  lemma InvalidCodesSkipSearch(a1: Amadeus, a2: Amadeus, args: SearchArgs)
    requires a1.locations == a2.locations
    requires !IsResolved(GetAirportCode(a1, args.origin)) || !IsResolved(GetAirportCode(a1, args.destination))
    ensures SearchFlights(a1, args) == SearchFlights(a2, args) == SearchError("Invalid airport codes")
  {
  }

  /** An empty `data` answers "No flights found". */
  lemma EmptyDataNoFlights(amadeus: Amadeus, args: SearchArgs)
    requires Query(amadeus, args).Some? && amadeus.flightOffers(Query(amadeus, args).value) == Data([])
    ensures SearchFlights(amadeus, args) == SearchError("No flights found")
  {
  }

  /** Once both codes resolve, each answer of the flight search maps onto
      its own result: a `ResponseError` onto `API error: …`, any other
      exception onto `Search failed: …`, and a non-empty `data` onto its
      projection, or onto `Search failed: …` with the error of the first
      offer the projection cannot take. */
  lemma SearchOutcome(amadeus: Amadeus, args: SearchArgs)
    requires Query(amadeus, args).Some?
    ensures var response := amadeus.flightOffers(Query(amadeus, args).value);
      var r := SearchFlights(amadeus, args);
      && (response.ApiFailure? ==> r == SearchError("API error: " + response.text))
      && (response.Raised? ==> r == SearchError("Search failed: " + response.text))
      && (response.Data? && response.offers != [] ==>
            var projected := FormatFlightResults(response.offers);
            && (projected.Ok? ==> r == Options(projected.value))
            && (projected.Err? ==> r == SearchError("Search failed: " + projected.error)))
  {
  }

  /** A successful search returns one option per offer the provider sent,
      at least one: the projection of those offers, in order. */
  lemma SearchSuccess(amadeus: Amadeus, args: SearchArgs)
    requires SearchFlights(amadeus, args).Options?
    ensures Query(amadeus, args).Some?
    ensures var response := amadeus.flightOffers(Query(amadeus, args).value);
      var options := SearchFlights(amadeus, args).options;
      && response.Data?
      && |options| == |response.offers| > 0
      && FormatFlightResults(response.offers) == Ok(options)
      && forall i :: 0 <= i < |options| ==> options[i].id == response.offers[i].id
  {
  }
}
