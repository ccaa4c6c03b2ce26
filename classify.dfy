/**
 * Input classification: the message is lower-cased and trimmed, and each
 * classifier walks an ordered list of keyword rules; the first rule one of
 * whose keywords occurs in the message decides, and no rule matching gives
 * `None` (the source's `null`).
 */
module Classify {
  import opened Wrappers
  import opened Text

  /** The booking categories. */
  datatype Flow = Flight | Hotel | Car

  /** The backend booking systems. */
  datatype Source = Amadeus | Farelogix

  datatype FlightType = OneWay | RoundTrip

  /** `text.toLowerCase().trim()`. */
  function NormalizeInput(text: string): (r: string)
    ensures forall i :: 0 <= i < |r| ==> !IsUpperAscii(r[i])
    ensures r == [] || (!IsWhitespace(r[0]) && !IsWhitespace(r[|r| - 1]))
  {
    var low := Lower(text);
    TrimSpec(low);
    Trim(low)
  }

  /** Normalising twice is normalising once. */
  lemma NormalizeIdempotent(text: string)
    ensures NormalizeInput(NormalizeInput(text)) == NormalizeInput(text)
  {
    var r := NormalizeInput(text);
    assert Lower(r) == r;
    TrimIdempotent(Lower(text));
  }

  /** The classifiers do not see the case of ASCII letters. */
  lemma NormalizeIgnoresCase(text: string)
    ensures NormalizeInput(Upper(text)) == NormalizeInput(text)
  {
    var u := Upper(text);
    forall i | 0 <= i < |text| ensures Lower(u)[i] == Lower(text)[i] {
      assert u[i] == UpperChar(text[i]);
    }
    assert Lower(u) == Lower(text);
  }

  /** One rule: when any of `keywords` occurs in the message, it yields `result`. */
  datatype Rule<T> = Rule(keywords: seq<string>, result: T)

  /** `msg.includes(k1) || msg.includes(k2) || ...`, evaluated left to right. */
  predicate AnyKeyword(keywords: seq<string>, msg: string)
    decreases |keywords|
  {
    |keywords| > 0 && (Contains(msg, keywords[0]) || AnyKeyword(keywords[1..], msg))
  }

  lemma {:induction false} AnyKeywordIff(keywords: seq<string>, msg: string)
    ensures AnyKeyword(keywords, msg) <==> exists k :: k in keywords && Contains(msg, k)
    decreases |keywords|
  {
    if |keywords| > 0 {
      AnyKeywordIff(keywords[1..], msg);
      if Contains(msg, keywords[0]) {
        assert keywords[0] in keywords;
      } else if exists k :: k in keywords && Contains(msg, k) {
        var k :| k in keywords && Contains(msg, k);
        assert k in keywords[1..];
      }
    }
  }

  /** A chain of `if (...) return ...;` statements ending in `return null`. */
  function FirstMatch<T>(rules: seq<Rule<T>>, msg: string): Option<T>
    decreases |rules|
  {
    if |rules| == 0 then None
    else if AnyKeyword(rules[0].keywords, msg) then Some(rules[0].result)
    else FirstMatch(rules[1..], msg)
  }

  /** Rule `i` is the first one that matches `msg`. */
  predicate FirstMatching<T>(rules: seq<Rule<T>>, msg: string, i: int)
  {
    0 <= i < |rules| && AnyKeyword(rules[i].keywords, msg)
    && forall j :: 0 <= j < i ==> !AnyKeyword(rules[j].keywords, msg)
  }

  /** First match wins: the result is that of the first matching rule, and
      `None` exactly when no rule matches. */
  lemma {:induction false} FirstMatchWins<T>(rules: seq<Rule<T>>, msg: string)
    ensures FirstMatch(rules, msg) == None <==> forall i :: 0 <= i < |rules| ==> !AnyKeyword(rules[i].keywords, msg)
    ensures forall i :: FirstMatching(rules, msg, i) ==> FirstMatch(rules, msg) == Some(rules[i].result)
    ensures FirstMatch(rules, msg).Some? ==> exists i :: FirstMatching(rules, msg, i)
    decreases |rules|
  {
    if |rules| > 0 {
      FirstMatchWins(rules[1..], msg);
      if AnyKeyword(rules[0].keywords, msg) {
        assert FirstMatching(rules, msg, 0);
      } else {
        forall i | FirstMatching(rules, msg, i) ensures FirstMatching(rules[1..], msg, i - 1) {
        }
        if FirstMatch(rules, msg).Some? {
          var j :| FirstMatching(rules[1..], msg, j);
          assert FirstMatching(rules, msg, j + 1);
        }
      }
    }
  }

  const BookingRules: seq<Rule<Flow>> :=
    [Rule(["flight"], Flight), Rule(["hotel"], Hotel), Rule(["car", "rental"], Car)]

  const SourceRules: seq<Rule<Source>> :=
    [Rule(["amadeus"], Amadeus), Rule(["farelogix", "flx"], Farelogix)]

  const FlightTypeRules: seq<Rule<FlightType>> :=
    [Rule(["one"], OneWay), Rule(["round", "return"], RoundTrip)]

  /** FLIGHT before HOTEL before CAR. */
  function DetectBookingType(msg: string): (r: Option<Flow>)
    ensures r == Some(Flight) <==> Contains(msg, "flight")
    ensures r == Some(Hotel) <==> !Contains(msg, "flight") && Contains(msg, "hotel")
    ensures r == Some(Car) <==> !Contains(msg, "flight") && !Contains(msg, "hotel")
                                && (Contains(msg, "car") || Contains(msg, "rental"))
  {
    FirstMatch(BookingRules, msg)
  }

  /** AMADEUS before FARELOGIX. */
  function DetectSource(msg: string): (r: Option<Source>)
    ensures r == Some(Amadeus) <==> Contains(msg, "amadeus")
    ensures r == Some(Farelogix) <==> !Contains(msg, "amadeus")
                                      && (Contains(msg, "farelogix") || Contains(msg, "flx"))
  {
    FirstMatch(SourceRules, msg)
  }

  /** ONE_WAY before ROUND_TRIP. */
  function DetectFlightType(msg: string): (r: Option<FlightType>)
    ensures r == Some(OneWay) <==> Contains(msg, "one")
    ensures r == Some(RoundTrip) <==> !Contains(msg, "one")
                                      && (Contains(msg, "round") || Contains(msg, "return"))
  {
    FirstMatch(FlightTypeRules, msg)
  }

  /** When several keywords occur, the earlier rule wins: a message
      naming both a flight and a hotel is a flight booking. */
  lemma FlightBeatsHotel(msg: string)
    requires Contains(msg, "flight") && Contains(msg, "hotel")
    ensures DetectBookingType(msg) == Some(Flight)
  {
  }
}
