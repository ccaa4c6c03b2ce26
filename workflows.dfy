/**
 * The workflow catalog: for each booking category and source system, the
 * ordered instructions the guided flow walks through. The flight lists are
 * parameterised by a date descriptor that is written into step 4; the hotel
 * and car lists are fixed. Texts are kept exactly as the catalog stores
 * them, including the arrow and bullet that the file holds mis-encoded
 * (as the three characters U+201A U+00DC U+00ED, and U+201A U+00C4 U+00A2).
 *
 * Every stored text begins with its own label "Step k: ", k counting from 1.
 * The model stores the text after the label and prefixes the label by
 * position, which yields the same strings and makes the numbering a fact
 * about the catalog rather than about each literal.
 */
module Workflows {
  import opened Text
  import opened Classify

  /** The separator of a round-trip date range: an en dash, stored
      mis-encoded as U+201A U+00C4 U+00EC, between single spaces. */
  const RangeSeparator: string := " \U{201A}\U{00C4}\U{00EC} "

  /** `${departureDate} – ${returnDate}`. */
  function DateRange(departure: string, ret: string): (r: string)
    ensures |r| == |departure| + |RangeSeparator| + |ret|
    ensures r[..|departure|] == departure && r[|r| - |ret|..] == ret
    ensures r[|departure|..|departure| + |RangeSeparator|] == RangeSeparator
  {
    departure + RangeSeparator + ret
  }

  const Arrow: string := "\U{201A}\U{00DC}\U{00ED}"
  const Bullet: string := "\U{201A}\U{00C4}\U{00A2}"

  /** "Step k: ". */
  function Label(k: nat): string
  {
    "Step " + Decimal(k) + ": "
  }

  /** Step 4 of a flight workflow: the search, with the date descriptor
      between a source-specific lead and tail. */
  function FlightSearch(source: Source, dates: string): string
  {
    SearchLead(source) + dates + SearchTail(source)
  }

  function SearchLead(source: Source): string
  {
    match source
    case Amadeus => "Search for flights LON " + Arrow + " FRA for "
    case Farelogix => "Search for FLX fares LON " + Arrow + " FRA for "
  }

  function SearchTail(source: Source): string
  {
    match source
    case Amadeus => "."
    case Farelogix => " using FareByTime or FareByPrice."
  }

  /** The text after the label of each step of `WORKFLOWS.FLIGHT[source](dates)`. */
  function FlightTexts(source: Source, dates: string): (r: seq<string>)
    ensures |r| == StepCount(Flight, source) && r[3] == FlightSearch(source, dates)
  {
    FlightOpening(source) + [FlightSearch(source, dates)] + FlightClosing(source)
  }

  /** The three flight steps before the search. */
  function FlightOpening(source: Source): (r: seq<string>)
    ensures |r| == 3
  {
    match source
    case Amadeus => [
      "Add 1 ADT traveler (e.g., Amadeus profile).",
      "Open the 'Flight search' dialog.",
      "Select the 'Round Trip' tab."
    ]
    case Farelogix => [
      "Add 1 ADT traveler (e.g., Farelogix profile).",
      "Open the 'Flight search' dialog.",
      "Select the 'Round Trip' tab."
    ]
  }

  /** The flight steps after the search. */
  function FlightClosing(source: Source): (r: seq<string>)
    ensures |r| == StepCount(Flight, source) - 4
  {
    match source
    case Amadeus => [
      "Select a fare for each segment.",
      "Pick the fare to cart.",
      "Add necessary data and select INVOICE as FOP.",
      "Book the cart."
    ]
    case Farelogix => [
      "Select a fare for each segment.",
      "Select one fare.",
      "Pick to cart.",
      "Add necessary data and select INVOICE as FOP.",
      "Book the cart."
    ]
  }

  /** The text after the label of each step of `WORKFLOWS.HOTEL[source]`
      and `WORKFLOWS.CAR[source]`. */
  function FixedTexts(flow: Flow, source: Source): (r: seq<string>)
    requires flow != Flight
    ensures |r| == StepCount(flow, source)
  {
    match (flow, source)
    case (Hotel, Amadeus) => [
      "Add traveler (e.g., Nelke).",
      "Search for hotel using LHR +100. Source: Amadeus.",
      "Pick a hotel room and add it to the cart.",
      "Add deposit credit card.",
      "Book the hotel."
    ]
    case (Hotel, Farelogix) => [
      "Add traveler profile.",
      "Search for hotel using your preferred location.",
      "Pick a hotel room and add it to the cart.",
      "Add deposit credit card.",
      "Book the hotel."
    ]
    case (Car, Amadeus) => [
      "Add a passenger profile (Amadeus).",
      "Open the car search dialog.",
      "Search for cars with the following details:\n   " + Bullet + " Location: FRA\n   "
        + Bullet + " Vendor: 1A\n   " + Bullet + " Pickup: +30 days at 08:00 AM\n   "
        + Bullet + " Dropoff: 09:00 AM",
      "Pick a car and add it to the cart.",
      "Add all necessary booking data.",
      "Click on 'Book cart' button."
    ]
    case (Car, Farelogix) => [
      "Add a passenger profile.",
      "Open the car search dialog.",
      "Search for cars with your preferred details.",
      "Pick a car and add it to the cart.",
      "Add all necessary booking data.",
      "Click on 'Book cart' button."
    ]
  }

  /** How many steps each workflow has. */
  function StepCount(flow: Flow, source: Source): (n: nat)
    ensures 5 <= n <= 9
  {
    match (flow, source)
    case (Flight, Amadeus) => 8
    case (Flight, Farelogix) => 9
    case (Hotel, _) => 5
    case (Car, _) => 6
  }

  /** Prefixes each text with the label of its position. */
  function Numbered(texts: seq<string>): (r: seq<string>)
    ensures |r| == |texts|
    ensures forall i :: 0 <= i < |r| ==> r[i] == Label(i + 1) + texts[i]
  {
    seq(|texts|, i requires 0 <= i < |texts| => Label(i + 1) + texts[i])
  }

  /** `WORKFLOWS.FLIGHT[source](dates)`: the flight branch of `Steps`. */
  function FlightSteps(source: Source, dates: string): (r: seq<string>)
    ensures |r| == StepCount(Flight, source)
  {
    Numbered(FlightTexts(source, dates))
  }

  /** `WORKFLOWS[flow][source]` for a hotel or car booking: the other
      branch of `Steps`. */
  function FixedSteps(flow: Flow, source: Source): (r: seq<string>)
    requires flow != Flight
    ensures |r| == StepCount(flow, source)
  {
    Numbered(FixedTexts(flow, source))
  }

  /** The ordered steps of a (flow, source) workflow; `dates` matters only
      for flights. Each step carries its position as its label, and the
      list has the catalog's length. */
  function Steps(flow: Flow, source: Source, dates: string): (r: seq<string>)
    ensures |r| == StepCount(flow, source)
  {
    Numbered(if flow == Flight then FlightTexts(source, dates) else FixedTexts(flow, source))
  }

  /** Each step carries its position as its label. */
  lemma StepsAreLabelled(flow: Flow, source: Source, dates: string, i: nat)
    requires i < StepCount(flow, source)
    ensures StartsWith(Steps(flow, source, dates)[i], Label(i + 1))
  {
    var r := Steps(flow, source, dates);
    assert r[i][..|Label(i + 1)|] == Label(i + 1);
  }

  /** The date descriptor lands in step 4 of a flight workflow and nowhere
      else: the other steps, and every step of the hotel and car workflows,
      do not depend on it. */
  lemma DatesOnlyInSearchStep(flow: Flow, source: Source, d1: string, d2: string, i: nat)
    requires i < StepCount(flow, source)
    ensures flow == Flight && i == 3 ==>
      Steps(flow, source, d1)[i] == Label(4) + FlightSearch(source, d1)
    ensures !(flow == Flight && i == 3) ==> Steps(flow, source, d1)[i] == Steps(flow, source, d2)[i]
  {
    var t1 := if flow == Flight then FlightTexts(source, d1) else FixedTexts(flow, source);
    var t2 := if flow == Flight then FlightTexts(source, d2) else FixedTexts(flow, source);
    assert Steps(flow, source, d1)[i] == Label(i + 1) + t1[i];
    assert Steps(flow, source, d2)[i] == Label(i + 1) + t2[i];
    if flow == Flight && i != 3 {
      var o, c := FlightOpening(source), FlightClosing(source);
      assert t1 == o + [FlightSearch(source, d1)] + c;
      assert t2 == o + [FlightSearch(source, d2)] + c;
      if i < 3 {
        assert t1[i] == o[i] == t2[i];
      } else {
        assert t1[i] == c[i - 4] == t2[i];
      }
    }
  }

  /** Step 4 of a flight workflow, written out. */
  lemma FlightSearchStep(source: Source, d: string)
    ensures Steps(Flight, source, d)[3] == Label(4) + SearchLead(source) + d + SearchTail(source)
  {
    assert FlightTexts(source, d)[3] == FlightSearch(source, d);
    ConcatAssoc(Label(4), SearchLead(source) + d, SearchTail(source));
    ConcatAssoc(Label(4), SearchLead(source), d);
  }

  /** Distinct date descriptors give distinct flight workflows. */
  lemma FlightStepsDetermineDates(source: Source, d1: string, d2: string)
    requires Steps(Flight, source, d1) == Steps(Flight, source, d2)
    ensures d1 == d2
  {
    FlightSearchStep(source, d1);
    FlightSearchStep(source, d2);
    Cancel(Label(4) + SearchLead(source), d1, d2, SearchTail(source));
  }

  /** What lies between a known prefix and a known suffix is determined. */
  lemma Cancel(p: string, x: string, y: string, q: string)
    requires p + x + q == p + y + q
    ensures x == y
  {
    var s := p + x + q;
    assert |x| == |y|;
    SliceConcat(p + x, q);
    SliceConcat(p + y, q);
    SliceConcat(p, x);
    SliceConcat(p, y);
  }
}
