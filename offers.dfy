/**
 * The flight offers as the provider's search returns them, reduced to the
 * keys that f_agent.py and format_flights.py read.
 */
module Offers {
  import opened Wrappers

  datatype Endpoint = Endpoint(iataCode: string, at: string)

  datatype Segment = Segment(
    id: string,
    carrierCode: string,
    number: string,
    departure: Endpoint,
    arrival: Endpoint,
    duration: string,
    numberOfStops: nat,
    aircraftCode: string)

  /** `duration` is an ISO 8601 duration such as `PT4H5M`. */
  datatype Itinerary = Itinerary(duration: string, segments: seq<Segment>)

  datatype Price = Price(total: string, base: string, currency: string)

  /** One `fareDetailsBySegment` entry: the segment it prices and
      `includedCheckedBags.quantity`. */
  datatype FareDetail = FareDetail(segmentId: string, checkedBags: nat)

  datatype TravelerPricing = TravelerPricing(fareDetails: seq<FareDetail>)

  /** A flight offer. `classes` is the offer's `class` entry, `None` when the
      key is absent. */
  datatype Offer = Offer(
    id: string,
    price: Price,
    itineraries: seq<Itinerary>,
    classes: Option<seq<string>>,
    validatingAirlineCodes: seq<string>,
    lastTicketingDate: Option<string>,
    travelerPricings: seq<TravelerPricing>)
}
