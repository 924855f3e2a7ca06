/**
 * The quote form's port check: a location name is classified as airport-like
 * or seaport-like by case-sensitive keyword containment, and a location that
 * looks like the wrong kind of terminal for the chosen service is rejected.
 * The origin and destination drop-downs are filtered with the same check.
 */
module Ports {
  import opened Text

  /** Keywords marking an airport; matching is case-sensitive, so these are the only three spellings. */
  const AirportKeywords: seq<string> := ["AIRPORT", "Airport", "airport"]

  /** Keywords marking a sea port. */
  const SeaportKeywords: seq<string> := ["PORT", "Port", "port", "SHEVA", "MUNDRA", "KANDLA", "HAZIRA"]

  const SeaPortForAirMessage := "This appears to be a sea port. Please select an airport for air freight."
  const AirportForSeaMessage := "This appears to be an airport. Please select a sea port for sea freight."

  /** `keywords.some(keyword => name.includes(keyword))`. */
  predicate ContainsAny(name: string, keywords: seq<string>)
  {
    exists i :: 0 <= i < |keywords| && Contains(name, keywords[i])
  }

  predicate IsAirport(name: string)
  {
    ContainsAny(name, AirportKeywords)
  }

  predicate IsSeaport(name: string)
  {
    ContainsAny(name, SeaportKeywords)
  }

  /** The check's verdict: valid with an empty message, or invalid with an explanation. */
  datatype Compatibility = Compatibility(isValid: bool, message: string)

  /**
   * `validatePortCompatibility(portName, serviceType)`. Air freight rejects a
   * seaport-like name that is not also airport-like, sea freight rejects an
   * airport-like name that is not also seaport-like, and every other service
   * type, known or not, accepts everything.
   */
  function ValidatePortCompatibility(portName: string, serviceType: string): (c: Compatibility)
    ensures c.isValid <==> c.message == ""
    ensures !c.isValid ==> serviceType in {"air-freight", "sea-freight"}
    ensures serviceType == "air-freight" ==> (c.isValid <==> !IsSeaport(portName) || IsAirport(portName))
  {
    match serviceType
    case "air-freight" =>
      if IsSeaport(portName) && !IsAirport(portName) then Compatibility(false, SeaPortForAirMessage)
      else Compatibility(true, "")
    case "sea-freight" =>
      if IsAirport(portName) && !IsSeaport(portName) then Compatibility(false, AirportForSeaMessage)
      else Compatibility(true, "")
    case _ => Compatibility(true, "")
  }

  /** Each airport keyword has a seaport keyword inside it: `AIRPORT` holds `PORT`, the other two hold `port`. */
  lemma AirportKeywordHoldsSeaportKeyword(i: int)
    requires 0 <= i < |AirportKeywords|
    ensures Contains(AirportKeywords[i], SeaportKeywords[if i == 0 then 0 else 2])
  {
    var w := AirportKeywords[i];
    assert w[3..7] == SeaportKeywords[if i == 0 then 0 else 2];
    assert OccursAt(w, SeaportKeywords[if i == 0 then 0 else 2], 3);
  }

  /** Every airport-like name is also seaport-like. */
  lemma AirportImpliesSeaport(name: string)
    requires IsAirport(name)
    ensures IsSeaport(name)
  {
    var i :| 0 <= i < |AirportKeywords| && Contains(name, AirportKeywords[i]);
    var j := if i == 0 then 0 else 2;
    AirportKeywordHoldsSeaportKeyword(i);
    ContainsTransitive(name, AirportKeywords[i], SeaportKeywords[j]);
  }

  /** The sea-freight rejection can never fire: sea freight accepts every location. */
  lemma SeaFreightNeverRejects(name: string)
    ensures ValidatePortCompatibility(name, "sea-freight") == Compatibility(true, "")
  {
    if IsAirport(name) {
      AirportImpliesSeaport(name);
    }
  }

  /** Only air freight ever rejects a location. */
  lemma OnlyAirFreightRejects(name: string, serviceType: string)
    requires serviceType != "air-freight"
    ensures ValidatePortCompatibility(name, serviceType).isValid
  {
    if serviceType == "sea-freight" {
      SeaFreightNeverRejects(name);
    }
  }

  /** Matching is case-sensitive: `AirPort` contains `Port` but none of the airport spellings, so air freight rejects it. */
  lemma MixedCaseAirportRejectedForAir()
    ensures !ValidatePortCompatibility("AirPort", "air-freight").isValid
  {
    var name := "AirPort";
    assert OccursAt(name, "Port", 3);
    assert Contains(name, SeaportKeywords[1]);
    forall i | 0 <= i < |AirportKeywords|
      ensures !Contains(name, AirportKeywords[i])
    {
      assert !OccursAt(name, AirportKeywords[i], 0);
    }
  }

  /**
   * `filterPortOptions`: the option values of a drop-down that survive a change
   * of service type, in their original order. The empty placeholder option is
   * always kept.
   */
  function FilterPortOptions(options: seq<string>, serviceType: string): (kept: seq<string>)
    ensures |kept| <= |options|
    ensures forall o :: o in kept <==> o in options && (o == "" || ValidatePortCompatibility(o, serviceType).isValid)
  {
    if options == [] then []
    else
      var rest := FilterPortOptions(options[1..], serviceType);
      if options[0] == "" || ValidatePortCompatibility(options[0], serviceType).isValid then [options[0]] + rest else rest
  }

  /** Filtering works option by option, so it keeps the relative order of the options. */
  lemma {:induction false} FilterPortOptionsAppend(a: seq<string>, b: seq<string>, serviceType: string)
    ensures FilterPortOptions(a + b, serviceType) == FilterPortOptions(a, serviceType) + FilterPortOptions(b, serviceType)
  {
    if a == [] {
      assert a + b == b;
    } else {
      assert (a + b)[1..] == a[1..] + b;
      FilterPortOptionsAppend(a[1..], b, serviceType);
    }
  }

  /** For every service other than air freight the drop-down is left exactly as it was. */
  lemma {:induction false} FilterPortOptionsKeepsAllButAir(options: seq<string>, serviceType: string)
    requires serviceType != "air-freight"
    ensures FilterPortOptions(options, serviceType) == options
  {
    if options != [] {
      OnlyAirFreightRejects(options[0], serviceType);
      FilterPortOptionsKeepsAllButAir(options[1..], serviceType);
    }
  }
}
