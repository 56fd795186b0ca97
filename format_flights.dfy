/**
 * format_flights.py: the text the agent shows for a list of flight offers
 * (`format_flight_results` and its helpers) and the missing-data guard and
 * booking-requirements list of `format_price_verification`.
 *
 * `format_time` (a `datetime` reformatting) and the two-decimal tax figure
 * (a floating-point subtraction) are given as functions in `Renderers`.
 */
module FlightFormat {
  import opened Wrappers
  import opened Text
  import opened Offers

  const NoFlightsMessage := "No flights found matching your criteria."

  /** `flights[:5]`: at most this many offers are rendered. */
  const MaxShown := 5

  /** `"━"*50`, the rule above and below the rendered offers. */
  const Rule := Repeat("\U{2501}", 50)

  const NoBaggageInfo := "Baggage info not available"

  /** The label in front of an offer's id, the last line of its entry. */
  const OfferIdLabel := "\U{1f194} Offer ID: "

  /** `format_time(at)` and `f"{float(total) - float(base):.2f}"`. */
  datatype Renderers = Renderers(formatTime: string -> string, taxes: (string, string) -> string)

  // ---------------------------------------------------------------------
  // Helpers: airline names, durations, stops, baggage
  // ---------------------------------------------------------------------

  /** `get_airline_name`: three known carriers, any other code as it is. */
  function AirlineName(code: string): (r: string)
    ensures code == "QR" ==> r == "Qatar Airways"
    ensures code == "EK" ==> r == "Emirates"
    ensures code == "AA" ==> r == "American Airlines"
    ensures code != "QR" && code != "EK" && code != "AA" ==> r == code
  {
    var airlines := map["QR" := "Qatar Airways", "EK" := "Emirates", "AA" := "American Airlines"];
    if code in airlines then airlines[code] else code
  }

  /** `format_duration`: drop `PT`, `H` becomes `"h "`, `M` becomes `"m"`,
      then strip. */
  function FormatDuration(duration: string): (r: string)
    ensures r == [] || (!IsSpace(r[0]) && !IsSpace(r[|r| - 1]))
  {
    Strip(ReplaceChar(ReplaceChar(DropPrefix(duration, 2), 'H', "h "), 'M', "m"))
  }

  /** Whatever the input, the result has no `H` or `M` left. */
  lemma FormatDurationClean(duration: string)
    ensures var r := FormatDuration(duration);
      'H' !in r && 'M' !in r
  {
    var hours := ReplaceChar(DropPrefix(duration, 2), 'H', "h ");
    ReplaceCharRemoves(DropPrefix(duration, 2), 'H', "h ");
    ReplaceCharRemoves(hours, 'M', "m");
    ReplaceCharKeepsAbsent(hours, 'M', "m", 'H');
    var replaced := ReplaceChar(hours, 'M', "m");
    StripKeepsAbsent(replaced, 'H');
    StripKeepsAbsent(replaced, 'M');
  }

  lemma DigitsHaveNoLetters(s: string, c: char)
    requires IsDigits(s) && !IsDigit(c)
    ensures c !in s
  {
    forall i | 0 <= i < |s| ensures s[i] != c {
    }
  }

  /** Replacing a character absent from both sides rewrites only the middle. */
  lemma ReplaceBetween(x: string, c: char, y: string, target: char, replacement: string)
    requires target !in x && target !in y
    ensures ReplaceChar(x + [c] + y, target, replacement)
         == x + (if c == target then replacement else [c]) + y
  {
    ReplaceCharAppend(x + [c], y, target, replacement);
    ReplaceCharAppend(x, [c], target, replacement);
  }

  /** `PT<h>H<m>M` becomes `<h>h <m>m`, e.g. `PT4H5M` becomes `4h 5m`. */
  lemma DurationHoursMinutes(h: string, m: string)
    requires IsDigits(h) && IsDigits(m)
    ensures FormatDuration("PT" + h + "H" + m + "M") == h + "h " + m + "m"
  {
    DigitsHaveNoLetters(h, 'H');
    DigitsHaveNoLetters(h, 'M');
    DigitsHaveNoLetters(m, 'H');
    DigitsHaveNoLetters(m, 'M');
    var d := "PT" + h + "H" + m + "M";
    var dropped := h + ['H'] + (m + "M");
    assert DropPrefix(d, 2) == dropped;
    ReplaceBetween(h, 'H', m + "M", 'H', "h ");
    var hours := (h + "h " + m) + ['M'] + [];
    assert ReplaceChar(dropped, 'H', "h ") == hours;
    ReplaceBetween(h + "h " + m, 'M', [], 'M', "m");
    var r := h + "h " + m + "m";
    assert ReplaceChar(hours, 'M', "m") == r;
    assert !IsSpace(r[0]) by {
      if h != [] { assert r[0] == h[0]; } else { assert r[0] == 'h'; }
    }
    assert r[|r| - 1] == 'm';
    StripUntrimmed(r);
  }

  /** `PT<h>H` becomes `<h>h`: the trailing space of `"h "` is stripped. */
  lemma DurationHoursOnly(h: string)
    requires IsDigits(h) && h != []
    ensures FormatDuration("PT" + h + "H") == h + "h"
  {
    DigitsHaveNoLetters(h, 'H');
    DigitsHaveNoLetters(h, 'M');
    var d := "PT" + h + "H";
    var dropped := h + ['H'] + [];
    assert DropPrefix(d, 2) == dropped;
    ReplaceBetween(h, 'H', [], 'H', "h ");
    var hours := h + "h ";
    assert ReplaceChar(dropped, 'H', "h ") == hours;
    assert 'M' !in hours;
    assert ReplaceChar(hours, 'M', "m") == hours;
    assert hours == h + "h" + [' '];
    assert (h + "h")[0] == h[0];
    StripTrailingSpace(h + "h", ' ');
  }

  /** The itinerary's duration label: drop `PT` and lower-case, so `PT4H5M`
      becomes `4h5m` with no space. */
  function ItineraryDuration(duration: string): (r: string)
    ensures |r| == if |duration| <= 2 then 0 else |duration| - 2
    ensures forall i :: 0 <= i < |r| ==> r[i] == LowerChar(duration[i + 2])
  {
    Lower(DropPrefix(duration, 2))
  }

  lemma ItineraryDurationHoursMinutes(h: string, m: string)
    requires IsDigits(h) && IsDigits(m)
    ensures ItineraryDuration("PT" + h + "H" + m + "M") == h + "h" + m + "m"
  {
    var d := "PT" + h + "H" + m + "M";
    var r := ItineraryDuration(d);
    var e := h + "h" + m + "m";
    assert |r| == |e|;
    forall i | 0 <= i < |r| ensures r[i] == e[i] {
      if i < |h| {
        assert d[i + 2] == h[i];
      } else if i == |h| {
        assert d[i + 2] == 'H';
      } else if i < |h| + 1 + |m| {
        assert d[i + 2] == m[i - |h| - 1];
      } else {
        assert d[i + 2] == 'M';
      }
    }
  }

  /** The stops column: `"Nonstop"` exactly for a direct segment. */
  function StopsText(stops: nat): (r: string)
    ensures r == "Nonstop" <==> stops == 0
    ensures stops > 0 ==> r == NatToString(stops) + " stop(s)"
  {
    if stops == 0 then "Nonstop" else NatToString(stops) + " stop(s)"
  }

  /** The position of the first fare detail for `segmentId`. */
  function FirstMatch(details: seq<FareDetail>, segmentId: string): (r: Option<nat>)
    ensures r.None? <==> forall k :: 0 <= k < |details| ==> details[k].segmentId != segmentId
    ensures r.Some? ==>
      && r.value < |details|
      && details[r.value].segmentId == segmentId
      && forall j :: 0 <= j < r.value ==> details[j].segmentId != segmentId
  {
    if details == [] then None
    else if details[0].segmentId == segmentId then Some(0)
    else match FirstMatch(details[1..], segmentId)
      case None => None
      case Some(k) => Some(k + 1)
  }

  /** All fare details, traveler after traveler, in the order the lookup
      scans them. */
  function FareDetailsOf(travelers: seq<TravelerPricing>): seq<FareDetail> {
    if travelers == [] then [] else travelers[0].fareDetails + FareDetailsOf(travelers[1..])
  }

  /** The checked-bag quantity of the first fare detail for `segmentId`. */
  function FirstBags(details: seq<FareDetail>, segmentId: string): Option<nat> {
    match FirstMatch(details, segmentId)
    case None => None
    case Some(k) => Some(details[k].checkedBags)
  }

  /** Scanning `a + b` finds the first match in `a`, or else the first in `b`. */
  lemma FirstBagsAppend(a: seq<FareDetail>, b: seq<FareDetail>, segmentId: string)
    ensures FirstBags(a + b, segmentId)
         == if FirstBags(a, segmentId).Some? then FirstBags(a, segmentId) else FirstBags(b, segmentId)
  {
    var ab := a + b;
    match FirstMatch(a, segmentId)
    case Some(k) =>
      assert ab[k] == a[k];
      forall j | 0 <= j < k ensures ab[j].segmentId != segmentId {
        assert ab[j] == a[j];
      }
      assert FirstMatch(ab, segmentId) == Some(k);
    case None =>
      forall j | 0 <= j < |a| ensures ab[j].segmentId != segmentId {
        assert ab[j] == a[j];
      }
      match FirstMatch(b, segmentId)
      case Some(k) =>
        assert ab[|a| + k] == b[k];
        forall j | |a| <= j < |a| + k ensures ab[j].segmentId != segmentId {
          assert ab[j] == b[j - |a|];
        }
        assert FirstMatch(ab, segmentId) == Some(|a| + k);
      case None =>
        forall j | |a| <= j < |ab| ensures ab[j].segmentId != segmentId {
          assert ab[j] == b[j - |a|];
        }
        assert FirstMatch(ab, segmentId).None?;
  }

  /** The nested scan of `get_baggage_info`: travelers in order, each
      traveler's segments in order, first match wins. It finds what a
      single scan of all fare details finds. */
  function CheckedBags(travelers: seq<TravelerPricing>, segmentId: string): (r: Option<nat>)
    ensures r == FirstBags(FareDetailsOf(travelers), segmentId)
  {
    if travelers == [] then None
    else
      FirstBagsAppend(travelers[0].fareDetails, FareDetailsOf(travelers[1..]), segmentId);
      match FirstBags(travelers[0].fareDetails, segmentId)
      case Some(quantity) => Some(quantity)
      case None => CheckedBags(travelers[1..], segmentId)
  }

  /** `get_baggage_info`. */
  function BaggageInfo(flight: Offer, segmentId: string): (r: string)
    ensures var details := FareDetailsOf(flight.travelerPricings);
      (r == NoBaggageInfo <==> forall k :: 0 <= k < |details| ==> details[k].segmentId != segmentId)
    ensures var details := FareDetailsOf(flight.travelerPricings);
      forall k :: 0 <= k < |details| && details[k].segmentId == segmentId
        && (forall j :: 0 <= j < k ==> details[j].segmentId != segmentId)
        ==> r == NatToString(details[k].checkedBags) + " checked bags"
  {
    var details := FareDetailsOf(flight.travelerPricings);
    match CheckedBags(flight.travelerPricings, segmentId)
    case Some(quantity) =>
      var r := NatToString(quantity) + " checked bags";
      assert r[|r| - 1] == 's' != NoBaggageInfo[|NoBaggageInfo| - 1];
      r
    case None => NoBaggageInfo
  }

  // ---------------------------------------------------------------------
  // format_flight_results
  // ---------------------------------------------------------------------

  /** One segment's four lines. */
  function SegmentText(flight: Offer, seg: Segment, fmt: Renderers): string {
    "  \U{2708}\U{fe0f} " + seg.departure.iataCode + " \U{2192} " + seg.arrival.iataCode + " "
    + "(Airline: " + AirlineName(seg.carrierCode) + ") "
    + "| Flight " + seg.carrierCode + seg.number + "\n"
    + "  \U{1f552} Depart: " + fmt.formatTime(seg.departure.at) + " "
    + "| Arrive: " + fmt.formatTime(seg.arrival.at) + "\n"
    + "  \U{23f1} Duration: " + FormatDuration(seg.duration) + " "
    + "| " + StopsText(seg.numberOfStops) + " | Aircraft: " + seg.aircraftCode + "\n"
    + "  \U{1f6c4} Baggage: " + BaggageInfo(flight, seg.id)
  }

  /** The rendered segments, one text per segment, in order. */
  function SegmentTexts(flight: Offer, segments: seq<Segment>, fmt: Renderers): (r: seq<string>)
    ensures |r| == |segments|
  {
    if segments == [] then []
    else SegmentTexts(flight, segments[..|segments| - 1], fmt) + [SegmentText(flight, segments[|segments| - 1], fmt)]
  }

  function ItineraryText(flight: Offer, itinerary: Itinerary, fmt: Renderers): string {
    "\U{1f539} Itinerary (" + ItineraryDuration(itinerary.duration) + "):\n"
    + Join("\n", SegmentTexts(flight, itinerary.segments, fmt))
  }

  /** The rendered itineraries, one text per itinerary, in order. */
  function ItineraryTexts(flight: Offer, itineraries: seq<Itinerary>, fmt: Renderers): (r: seq<string>)
    ensures |r| == |itineraries|
  {
    if itineraries == [] then []
    else ItineraryTexts(flight, itineraries[..|itineraries| - 1], fmt)
         + [ItineraryText(flight, itineraries[|itineraries| - 1], fmt)]
  }

  /** The heading and price lines of an entry. */
  function EntryHead(number: nat, flight: Offer, fmt: Renderers): string {
    NatToString(number) + ". " + Join(" + ", flight.validatingAirlineCodes) + " Flight\n"
    + "\U{1f4b0} Price: " + flight.price.total + " " + flight.price.currency
    + " (Base: " + flight.price.base + " + Taxes: " + fmt.taxes(flight.price.total, flight.price.base) + ")\n"
  }

  /** The entry for the `number`-th offer shown, given its rendered
      itineraries. */
  function Entry(number: nat, flight: Offer, itineraries: seq<string>, fmt: Renderers): string {
    EntryHead(number, flight, fmt)
    + (Join("\n", itineraries) + "\n\U{1f4dd} Last ticket date: " + flight.lastTicketingDate.GetOr("N/A"))
    + ("\n" + OfferIdLabel + flight.id)
  }

  function RenderedEntry(number: nat, flight: Offer, fmt: Renderers): string {
    Entry(number, flight, ItineraryTexts(flight, flight.itineraries, fmt), fmt)
  }

  /** The entries of `flights`, numbered from `first`. */
  function Entries(flights: seq<Offer>, first: nat, fmt: Renderers): (r: seq<string>)
    ensures |r| == |flights|
  {
    if flights == [] then []
    else Entries(flights[..|flights| - 1], first, fmt) + [RenderedEntry(first + |flights| - 1, flights[|flights| - 1], fmt)]
  }

  lemma EntriesSnoc(flights: seq<Offer>, i: nat, fmt: Renderers)
    requires i < |flights|
    ensures Entries(flights[..i + 1], 1, fmt) == Entries(flights[..i], 1, fmt) + [RenderedEntry(i + 1, flights[i], fmt)]
  {
    assert flights[..i + 1][..i] == flights[..i];
  }

  /** The i-th entry renders the i-th offer under number `first + i`. */
  lemma {:induction false} EntriesAt(flights: seq<Offer>, first: nat, fmt: Renderers, i: nat)
    requires i < |flights|
    ensures Entries(flights, first, fmt)[i] == RenderedEntry(first + i, flights[i], fmt)
  {
    if i < |flights| - 1 {
      var front := flights[..|flights| - 1];
      EntriesAt(front, first, fmt, i);
      assert front[i] == flights[i];
    }
  }

  function Shown(flights: seq<Offer>): (r: seq<Offer>)
    ensures |r| == if |flights| < MaxShown then |flights| else MaxShown
    ensures r == flights[..|r|]
  {
    if |flights| <= MaxShown then flights else flights[..MaxShown]
  }

  /** The entries' text between two rules. */
  function Framed(body: string): string {
    "\n\n" + Rule + body + "\n" + Rule
  }

  /** What `format_flight_results` returns. The empty message is returned
      exactly for an empty list: any other result starts with a blank line. */
  function FlightResults(flights: seq<Offer>, fmt: Renderers): (r: string)
    ensures r == NoFlightsMessage <==> flights == []
  {
    if flights == [] then NoFlightsMessage
    else
      var text := Framed(Join("\n\n", Entries(Shown(flights), 1, fmt)));
      assert text[0] == '\n' != NoFlightsMessage[0];
      text
  }

  /** The segment loop of `format_flight_results`. */
  method RenderSegments(flight: Offer, segments: seq<Segment>, fmt: Renderers) returns (details: seq<string>)
    ensures details == SegmentTexts(flight, segments, fmt)
  {
    details := [];
    for i := 0 to |segments|
      invariant details == SegmentTexts(flight, segments[..i], fmt)
    {
      assert segments[..i + 1][..i] == segments[..i];
      details := details + [SegmentText(flight, segments[i], fmt)];
    }
    assert segments[..|segments|] == segments;
  }

  /** The itinerary loop of `format_flight_results`. */
  method RenderItineraries(flight: Offer, fmt: Renderers) returns (texts: seq<string>)
    ensures texts == ItineraryTexts(flight, flight.itineraries, fmt)
  {
    texts := [];
    for i := 0 to |flight.itineraries|
      invariant texts == ItineraryTexts(flight, flight.itineraries[..i], fmt)
    {
      assert flight.itineraries[..i + 1][..i] == flight.itineraries[..i];
      var itinerary := flight.itineraries[i];
      var duration := ItineraryDuration(itinerary.duration);
      var details := RenderSegments(flight, itinerary.segments, fmt);
      texts := texts + ["\U{1f539} Itinerary (" + duration + "):\n" + Join("\n", details)];
    }
    assert flight.itineraries[..|flight.itineraries|] == flight.itineraries;
  }

  /** `format_flight_results`: the empty message for no offers, otherwise
      the first five offers, numbered from 1, between two rules. */
  method FormatFlightResults(flights: seq<Offer>, fmt: Renderers) returns (text: string)
    ensures text == FlightResults(flights, fmt)
  {
    if flights == [] {
      return NoFlightsMessage;
    }
    var shown := if |flights| <= MaxShown then flights else flights[..MaxShown];
    var formatted := [];
    for i := 0 to |shown|
      invariant formatted == Entries(shown[..i], 1, fmt)
    {
      var flight := shown[i];
      var itineraries := RenderItineraries(flight, fmt);
      EntriesSnoc(shown, i, fmt);
      formatted := formatted + [Entry(i + 1, flight, itineraries, fmt)];
    }
    assert shown[..|shown|] == shown == Shown(flights);
    text := Framed(Join("\n\n", formatted));
  }

  /** An entry begins with its number and ends with its offer's id. */
  lemma EntryShape(number: nat, flight: Offer, itineraries: seq<string>, fmt: Renderers)
    ensures StartsWith(Entry(number, flight, itineraries, fmt), NatToString(number) + ". ")
    ensures EndsWith(Entry(number, flight, itineraries, fmt), OfferIdLabel + flight.id)
  {
    var e := Entry(number, flight, itineraries, fmt);
    var head := NatToString(number) + ". ";
    assert EntryHead(number, flight, fmt)[..|head|] == head;
    assert e[..|head|] == head;
    var tail := "\n" + OfferIdLabel + flight.id;
    assert e[|e| - |tail|..] == tail;
    assert e[|e| - |tail| + 1..] == OfferIdLabel + flight.id;
  }

  /** The i-th entry shown is numbered i + 1 and ends with the id of the
      i-th offer of the input. */
  lemma ShownInOrder(flights: seq<Offer>, fmt: Renderers, i: nat)
    requires i < |Shown(flights)|
    ensures var e := Entries(Shown(flights), 1, fmt)[i];
      StartsWith(e, NatToString(i + 1) + ". ") && EndsWith(e, OfferIdLabel + flights[i].id)
  {
    EntriesAt(Shown(flights), 1, fmt, i);
    EntryShape(1 + i, flights[i], ItineraryTexts(flights[i], flights[i].itineraries, fmt), fmt);
  }

  /** The i-th entry shown holds the i-th offer's id. */
  lemma EntryHoldsId(flights: seq<Offer>, fmt: Renderers, i: nat)
    requires i < |Shown(flights)|
    ensures Contains(Entries(Shown(flights), 1, fmt)[i], OfferIdLabel + flights[i].id)
  {
    ShownInOrder(flights, fmt, i);
    EndsWithContains(Entries(Shown(flights), 1, fmt)[i], OfferIdLabel + flights[i].id);
  }

  /** Every offer among the first five has its id in the text. */
  lemma ResultsListOfferIds(flights: seq<Offer>, fmt: Renderers, i: nat)
    requires i < |flights| && i < MaxShown
    ensures Contains(FlightResults(flights, fmt), OfferIdLabel + flights[i].id)
  {
    var entries := Entries(Shown(flights), 1, fmt);
    EntryHoldsId(flights, fmt, i);
    JoinContains("\n\n", entries, i);
    ContainsTrans(Join("\n\n", entries), entries[i], OfferIdLabel + flights[i].id);
    ContainsWithin("\n\n" + Rule, Join("\n\n", entries), "\n", OfferIdLabel + flights[i].id);
    ContainsExtended("\n\n" + Rule + Join("\n\n", entries) + "\n", Rule, OfferIdLabel + flights[i].id);
  }

  /** Offers after the fifth do not change the text. */
  lemma OnlyFirstFiveShown(flights: seq<Offer>, more: seq<Offer>, fmt: Renderers)
    requires |flights| >= MaxShown
    ensures FlightResults(flights + more, fmt) == FlightResults(flights, fmt)
  {
    assert Shown(flights + more) == Shown(flights);
  }

  // ---------------------------------------------------------------------
  // format_price_verification: the guard and the requirements list
  // ---------------------------------------------------------------------

  /** `bookingRequirements`; an absent block reads as all flags false. */
  datatype BookingRequirements = BookingRequirements(emailAddressRequired: bool, mobilePhoneNumberRequired: bool)

  /** One `fareDetailsBySegment` entry of a priced offer: its
      `includedCheckedBags.quantity`, `None` when that block is absent or
      empty. */
  datatype PricedFareDetail = PricedFareDetail(checkedBags: Option<nat>)

  datatype PricedTraveler = PricedTraveler(fareDetails: seq<PricedFareDetail>)

  /** A priced flight offer; an absent `travelerPricings` reads as empty. */
  datatype PricedFlight = PricedFlight(
    travelerPricings: seq<PricedTraveler>,
    instantTicketingRequired: bool,
    paymentCardRequired: bool)

  /** The pricing response; `flightOffers` is `None` when the key is absent. */
  datatype PricedOffer = PricedOffer(flightOffers: Option<seq<PricedFlight>>, requirements: BookingRequirements)

  /** What the summary comes to: the guard's message, the summary's
      requirements and baggage blocks, or the exception handler's text. */
  datatype Verification = NoPricingInfo | Verified(requirements: string, baggage: string) | FormattingError

  const NoPricingMessage := "No valid pricing information available."
  const NoRequirements := "  No special requirements"

  /** The four booking requirements the summary can list. */
  datatype Requirement = EmailAddress | PhoneNumber | ImmediatePayment | CreditCard

  /** The requirements in the order they are checked. */
  const RequirementOrder := [EmailAddress, PhoneNumber, ImmediatePayment, CreditCard]

  function Position(q: Requirement): nat {
    match q
    case EmailAddress => 0
    case PhoneNumber => 1
    case ImmediatePayment => 2
    case CreditCard => 3
  }

  /** Each requirement's line in the summary. */
  function RequirementLine(q: Requirement): string {
    match q
    case EmailAddress => "\U{2713} Email address required"
    case PhoneNumber => "\U{2713} Phone number required"
    case ImmediatePayment => "\U{2713} Immediate payment required"
    case CreditCard => "\U{2713} Credit card required"
  }

  /** Whether the response sets the flag behind a requirement: email and
      phone come from `bookingRequirements`, the other two from the flight. */
  predicate Required(q: Requirement, requirements: BookingRequirements, flight: PricedFlight) {
    match q
    case EmailAddress => requirements.emailAddressRequired
    case PhoneNumber => requirements.mobilePhoneNumberRequired
    case ImmediatePayment => flight.instantTicketingRequired
    case CreditCard => flight.paymentCardRequired
  }

  /** The requirements of `candidates` whose flag is set, in order. */
  function RequiredAmong(candidates: seq<Requirement>, requirements: BookingRequirements, flight: PricedFlight)
    : seq<Requirement>
  {
    if candidates == [] then []
    else (if Required(candidates[0], requirements, flight) then [candidates[0]] else [])
         + RequiredAmong(candidates[1..], requirements, flight)
  }

  /** A candidate is kept exactly when its flag is set. */
  lemma {:induction false} AmongMembers(candidates: seq<Requirement>, requirements: BookingRequirements,
                                        flight: PricedFlight, q: Requirement)
    ensures q in RequiredAmong(candidates, requirements, flight)
        <==> q in candidates && Required(q, requirements, flight)
  {
    if candidates != [] {
      AmongMembers(candidates[1..], requirements, flight, q);
      assert q in candidates <==> q == candidates[0] || q in candidates[1..];
    }
  }

  /** The requirements `format_price_verification` lists. */
  function Requirements(requirements: BookingRequirements, flight: PricedFlight): seq<Requirement> {
    RequiredAmong(RequirementOrder, requirements, flight)
  }

  function Lines(qs: seq<Requirement>): (r: seq<string>)
    ensures |r| == |qs|
  {
    if qs == [] then [] else [RequirementLine(qs[0])] + Lines(qs[1..])
  }

  /** The lines of `reqs` as `format_price_verification` builds them. */
  function RequirementLines(requirements: BookingRequirements, flight: PricedFlight): seq<string> {
    Lines(Requirements(requirements, flight))
  }

  lemma {:induction false} LinesAppend(a: seq<Requirement>, b: seq<Requirement>)
    ensures Lines(a + b) == Lines(a) + Lines(b)
  {
    if a != [] {
      assert (a + b)[0] == a[0] && (a + b)[1..] == a[1..] + b;
      LinesAppend(a[1..], b);
      assert Lines(a + b) == [RequirementLine(a[0])] + Lines(a[1..] + b);
    } else {
      assert a + b == b;
    }
  }

  lemma LinesSnoc(qs: seq<Requirement>, q: Requirement)
    ensures Lines(qs + [q]) == Lines(qs) + [RequirementLine(q)]
  {
    LinesAppend(qs, [q]);
    assert Lines([q]) == [RequirementLine(q)] + Lines([]);
  }

  /** The four `if`s that build `reqs`. */
  method CollectRequirements(requirements: BookingRequirements, flight: PricedFlight) returns (reqs: seq<string>)
    ensures reqs == RequirementLines(requirements, flight)
  {
    reqs := [];
    ghost var listed: seq<Requirement> := [];
    assert reqs == Lines(listed);
    if requirements.emailAddressRequired {
      reqs := reqs + [RequirementLine(EmailAddress)];
      LinesSnoc(listed, EmailAddress);
      listed := listed + [EmailAddress];
    }
    if requirements.mobilePhoneNumberRequired {
      reqs := reqs + [RequirementLine(PhoneNumber)];
      LinesSnoc(listed, PhoneNumber);
      listed := listed + [PhoneNumber];
    }
    if flight.instantTicketingRequired {
      reqs := reqs + [RequirementLine(ImmediatePayment)];
      LinesSnoc(listed, ImmediatePayment);
      listed := listed + [ImmediatePayment];
    }
    if flight.paymentCardRequired {
      reqs := reqs + [RequirementLine(CreditCard)];
      LinesSnoc(listed, CreditCard);
      listed := listed + [CreditCard];
    }
    RequirementsSpelled(requirements, flight);
    assert listed == Requirements(requirements, flight);
  }

  /** The list, spelled out: each requirement exactly when its flag is set,
      in the fixed order. */
  lemma RequirementsSpelled(requirements: BookingRequirements, flight: PricedFlight)
    ensures Requirements(requirements, flight)
         == (if requirements.emailAddressRequired then [EmailAddress] else [])
            + (if requirements.mobilePhoneNumberRequired then [PhoneNumber] else [])
            + (if flight.instantTicketingRequired then [ImmediatePayment] else [])
            + (if flight.paymentCardRequired then [CreditCard] else [])
  {
    var e0: seq<Requirement> := if requirements.emailAddressRequired then [EmailAddress] else [];
    var e1: seq<Requirement> := if requirements.mobilePhoneNumberRequired then [PhoneNumber] else [];
    var e2: seq<Requirement> := if flight.instantTicketingRequired then [ImmediatePayment] else [];
    var e3: seq<Requirement> := if flight.paymentCardRequired then [CreditCard] else [];
    var o3: seq<Requirement> := [CreditCard];
    var o2: seq<Requirement> := [ImmediatePayment, CreditCard];
    var o1: seq<Requirement> := [PhoneNumber, ImmediatePayment, CreditCard];
    var t3 := RequiredAmong(o3, requirements, flight);
    var t2 := RequiredAmong(o2, requirements, flight);
    var t1 := RequiredAmong(o1, requirements, flight);
    assert t3 == e3 by {
      assert o3[0] == CreditCard && o3[1..] == [];
      assert RequiredAmong(o3[1..], requirements, flight) == [];
    }
    assert t2 == e2 + t3 by {
      assert o2[1..] == o3;
    }
    assert t1 == e1 + t2 by {
      assert o1[1..] == o2;
    }
    assert Requirements(requirements, flight) == e0 + t1 by {
      assert RequirementOrder[1..] == o1;
    }
    assert Requirements(requirements, flight) == e0 + (e1 + (e2 + e3));
  }

  /** Each requirement is listed exactly when its flag is set, and the list
      keeps the fixed order, without repeats. */
  lemma RequirementsFaithful(requirements: BookingRequirements, flight: PricedFlight)
    ensures var r := Requirements(requirements, flight);
      (forall q :: q in r <==> Required(q, requirements, flight))
      && InOrder(r)
  {
    var r := Requirements(requirements, flight);
    forall q ensures q in r <==> Required(q, requirements, flight) {
      assert RequirementOrder[Position(q)] == q;
      AmongMembers(RequirementOrder, requirements, flight, q);
    }
    assert InOrder(RequirementOrder);
    OrderKept(RequirementOrder, requirements, flight);
  }

  /** Requirements listed in the fixed order, each at most once. */
  predicate InOrder(qs: seq<Requirement>) {
    forall i, j :: 0 <= i < j < |qs| ==> Position(qs[i]) < Position(qs[j])
  }

  lemma {:induction false} OrderKept(candidates: seq<Requirement>, requirements: BookingRequirements, flight: PricedFlight)
    requires InOrder(candidates)
    ensures InOrder(RequiredAmong(candidates, requirements, flight))
  {
    if candidates != [] {
      OrderKept(candidates[1..], requirements, flight);
      var rest := RequiredAmong(candidates[1..], requirements, flight);
      var head: seq<Requirement> := if Required(candidates[0], requirements, flight) then [candidates[0]] else [];
      var r := head + rest;
      assert RequiredAmong(candidates, requirements, flight) == r;
      forall x | x in rest ensures Position(x) > Position(candidates[0]) {
        AmongMembers(candidates[1..], requirements, flight, x);
        var k :| 0 <= k < |candidates[1..]| && candidates[1..][k] == x;
        assert candidates[k + 1] == x;
      }
      forall i, j | 0 <= i < j < |r| ensures Position(r[i]) < Position(r[j]) {
        if head == [] {
          assert r[i] == rest[i] && r[j] == rest[j];
        } else if i == 0 {
          assert r[j] == rest[j - 1] && r[j] in rest;
        } else {
          assert r[i] == rest[i - 1] && r[j] == rest[j - 1];
        }
      }
    }
  }

  /** The "Booking Requirements" block: the listed lines, or the fallback. */
  function RequirementsBlock(reqs: seq<string>): string {
    if reqs == [] then NoRequirements else "  " + Join("\n  ", reqs)
  }

  /** The fallback appears exactly when no flag is set. */
  lemma NoRequirementsIff(requirements: BookingRequirements, flight: PricedFlight)
    ensures RequirementsBlock(RequirementLines(requirements, flight)) == NoRequirements
        <==> !requirements.emailAddressRequired && !requirements.mobilePhoneNumberRequired
             && !flight.instantTicketingRequired && !flight.paymentCardRequired
  {
    var qs := Requirements(requirements, flight);
    var r := RequirementLines(requirements, flight);
    RequirementsFaithful(requirements, flight);
    if qs == [] {
      assert !Required(EmailAddress, requirements, flight) && !Required(PhoneNumber, requirements, flight);
      assert !Required(ImmediatePayment, requirements, flight) && !Required(CreditCard, requirements, flight);
    } else {
      assert qs[0] in qs && Required(qs[0], requirements, flight);
      assert r[0] == RequirementLine(qs[0]);
      JoinStartsWith("\n  ", r);
      assert RequirementsBlock(r)[2] == r[0][0] == '\U{2713}';
      assert NoRequirements[2] == 'N';
    }
  }

  /** The "Baggage Allowance" line for a traveler. */
  function BaggageAllowance(traveler: PricedTraveler): (r: string)
    ensures r == "  - Baggage info not available\n\n"
            <==> traveler.fareDetails == [] || traveler.fareDetails[0].checkedBags.None?
    ensures traveler.fareDetails != [] && traveler.fareDetails[0].checkedBags.Some? ==>
              r == "  - " + NatToString(traveler.fareDetails[0].checkedBags.value) + " checked bags included\n\n"
  {
    if traveler.fareDetails != [] && traveler.fareDetails[0].checkedBags.Some?
    then
      var bags := NatToString(traveler.fareDetails[0].checkedBags.value);
      var text := "  - " + bags + " checked bags included\n\n";
      assert text[4] == bags[0] && IsDigit(bags[0]);
      text
    else "  - Baggage info not available\n\n"
  }

  /** `format_price_verification` as written: after the traveler loop, the
      loop variable `traveler` is read again for the refundable taxes and
      the baggage line, so it is the last traveler, and with no traveler
      at all the read raises and the handler's text is returned. */
  function PriceVerificationAsWritten(pricedOffer: Option<PricedOffer>): (r: Verification)
    ensures r.NoPricingInfo? <==> pricedOffer.None? || pricedOffer.value.flightOffers.None?
    ensures r.FormattingError? <==> pricedOffer.Some? && pricedOffer.value.flightOffers.Some?
                                    && (pricedOffer.value.flightOffers.value == []
                                        || pricedOffer.value.flightOffers.value[0].travelerPricings == [])
    ensures r.Verified? ==>
      var flight := pricedOffer.value.flightOffers.value[0];
      r.requirements == RequirementsBlock(RequirementLines(pricedOffer.value.requirements, flight))
      && r.baggage == BaggageAllowance(flight.travelerPricings[|flight.travelerPricings| - 1])
  {
    if pricedOffer.None? || pricedOffer.value.flightOffers.None? then NoPricingInfo
    else if pricedOffer.value.flightOffers.value == [] then FormattingError
    else
      var flight := pricedOffer.value.flightOffers.value[0];
      if flight.travelerPricings == [] then FormattingError
      else Verified(RequirementsBlock(RequirementLines(pricedOffer.value.requirements, flight)),
                    BaggageAllowance(flight.travelerPricings[|flight.travelerPricings| - 1]))
  }

  /** As written, an offer priced with no traveler pricings yields the error
      text instead of its summary. */
  lemma AsWrittenNoTravelersFails(requirements: BookingRequirements, flight: PricedFlight, others: seq<PricedFlight>)
    requires flight.travelerPricings == []
    ensures PriceVerificationAsWritten(Some(PricedOffer(Some([flight] + others), requirements))) == FormattingError
  {
  }

  /** `format_price_verification` with the traveler-dependent lines guarded:
      with no traveler, the baggage line says the information is missing. */
  function PriceVerification(pricedOffer: Option<PricedOffer>): (r: Verification)
    ensures r.NoPricingInfo? <==> pricedOffer.None? || pricedOffer.value.flightOffers.None?
    ensures r.FormattingError? <==> pricedOffer.Some? && pricedOffer.value.flightOffers == Some([])
    ensures r.Verified? ==>
      r.requirements == RequirementsBlock(RequirementLines(pricedOffer.value.requirements,
                                                           pricedOffer.value.flightOffers.value[0]))
    ensures r.Verified? ==>
      var travelers := pricedOffer.value.flightOffers.value[0].travelerPricings;
      r.baggage == if travelers == [] then "  - Baggage info not available\n\n"
                   else BaggageAllowance(travelers[|travelers| - 1])
  {
    if pricedOffer.None? || pricedOffer.value.flightOffers.None? then NoPricingInfo
    else if pricedOffer.value.flightOffers.value == [] then FormattingError
    else
      var flight := pricedOffer.value.flightOffers.value[0];
      var travelers := flight.travelerPricings;
      Verified(RequirementsBlock(RequirementLines(pricedOffer.value.requirements, flight)),
               if travelers == [] then "  - Baggage info not available\n\n"
               else BaggageAllowance(travelers[|travelers| - 1]))
  }

  /** The correction changes only the case that raised: wherever the code as
      written produced a summary, the corrected one produces the same. */
  lemma PriceVerificationAgrees(pricedOffer: Option<PricedOffer>)
    ensures PriceVerificationAsWritten(pricedOffer) != FormattingError
        ==> PriceVerification(pricedOffer) == PriceVerificationAsWritten(pricedOffer)
    ensures PriceVerificationAsWritten(pricedOffer) == FormattingError
        ==> pricedOffer.value.flightOffers.value == [] || PriceVerification(pricedOffer).Verified?
  {
  }
}
