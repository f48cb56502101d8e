/** Coordinate enrichment of an itinerary (`_enrich_with_coordinates` and its
    inner `get_coords`). The geocoding tool and `float()` are oracles: the
    geocoder maps a query to its reply, or to `None` when the call raises, and
    the float parser maps a text to its value, or to `None` where `float()`
    raises ValueError. The records are values here: an assignment to a field
    of a nested record becomes the record rebuilt with that field replaced. */
module Enrich {
  import opened Common
  import opened Schemas

  /** Python truthiness of an optional float: missing and zero are false. */
  predicate Nonzero(x: Option<real>) {
    x.Some? && x.value != 0.0
  }

  // ===========================================================================
  // get_coords

  /** The geocoder query: the name alone, or "{name}, {destination}" when both
      the address and the destination are non-empty. */
  function CoordQuery(name: string, address: Option<string>, destination: string): (q: string)
    ensures StartsWith(q, name)
    ensures q != name <==> Present(address) && destination != ""
    ensures q != name ==> q[|name|..] == ", " + destination
  {
    if Present(address) && destination != "" then name + ", " + destination else name
  }

  function CommaCount(s: string): (n: nat)
    ensures n == 0 <==> FindChar(s, ',').None?
  {
    if s == [] then 0 else (if s[0] == ',' then 1 else 0) + CommaCount(s[1..])
  }

  /** `lat, lon = coords_str.split(",")` followed by the two `float()` calls:
      a reply that does not split into exactly two parts, or a part that is not
      a number, yields `(None, None)`. */
  function ParseCoords(reply: string, parseFloat: string -> Option<real>): (r: (Option<real>, Option<real>))
    ensures r.0.Some? <==> r.1.Some?
    ensures CommaCount(reply) != 1 ==> r == (None, None)
  {
    if CommaCount(reply) != 1 then (None, None)
    else
      var i := FindChar(reply, ',').value;
      var lat := parseFloat(Strip(reply[..i]));
      if lat.None? then (None, None)
      else
        var lon := parseFloat(Strip(reply[i + 1..]));
        if lon.None? then (None, None) else (lat, lon)
  }

  /** `get_coords`: no reply (the call raised), an empty reply or one without
      a comma gives `(None, None)`. */
  function GetCoords(name: string, address: Option<string>, destination: string,
                     geocode: string -> Option<string>, parseFloat: string -> Option<real>): (r: (Option<real>, Option<real>))
    ensures r.0.Some? <==> r.1.Some?
    ensures r.0.Some? ==> var reply := geocode(CoordQuery(name, address, destination));
      reply.Some? && CommaCount(reply.value) == 1 && r == ParseCoords(reply.value, parseFloat)
    ensures var reply := geocode(CoordQuery(name, address, destination));
      reply.Some? && CommaCount(reply.value) == 1 ==> r == ParseCoords(reply.value, parseFloat)
  {
    var reply := geocode(CoordQuery(name, address, destination));
    if reply.None? || reply.value == "" || FindChar(reply.value, ',').None? then (None, None)
    else ParseCoords(reply.value, parseFloat)
  }

  lemma {:induction false} CommaCountAppend(a: string, b: string)
    ensures CommaCount(a + b) == CommaCount(a) + CommaCount(b)
  {
    if a != [] {
      assert (a + b)[1..] == a[1..] + b;
      CommaCountAppend(a[1..], b);
    } else {
      assert a + b == b;
    }
  }

  /** A reply made of two comma-free texts joined by one comma is read back
      as those two texts, stripped and parsed; if either fails to parse, both
      coordinates are missing. */
  lemma ParseCoordsOfPair(a: string, b: string, parseFloat: string -> Option<real>)
    requires CommaCount(a) == 0 && CommaCount(b) == 0
    ensures var r := ParseCoords(a + "," + b, parseFloat);
      if parseFloat(Strip(a)).Some? && parseFloat(Strip(b)).Some?
      then r == (parseFloat(Strip(a)), parseFloat(Strip(b)))
      else r == (None, None)
  {
    var s := a + "," + b;
    CommaCountAppend(a + ",", b);
    CommaCountAppend(a, ",");
    assert ","[1..] == [];
    assert FindChar(s, ',') == Some(|a|) by {
      assert FindChar(a, ',').None?;
      assert s[|a|] == ',';
    }
    assert s[..|a|] == a;
    assert s[|a| + 1..] == b;
  }

  // ===========================================================================
  // One location

  /** The enrichment of one location: a location with a non-zero latitude is
      not looked up; otherwise both coordinates are written, and only when the
      lookup returned two non-zero values. */
  function EnrichLocation(l: Location, destination: string,
                          geocode: string -> Option<string>, parseFloat: string -> Option<real>): (r: Location)
    ensures r.(latitude := l.latitude, longitude := l.longitude) == l
    ensures Nonzero(l.latitude) ==> r == l
    ensures var c := GetCoords(l.name, l.address, destination, geocode, parseFloat);
      !Nonzero(l.latitude) && Nonzero(c.0) && Nonzero(c.1) ==> r.latitude == c.0 && r.longitude == c.1
    ensures var c := GetCoords(l.name, l.address, destination, geocode, parseFloat);
      !(Nonzero(c.0) && Nonzero(c.1)) ==> r == l
  {
    if Nonzero(l.latitude) then l
    else
      var c := GetCoords(l.name, l.address, destination, geocode, parseFloat);
      if Nonzero(c.0) && Nonzero(c.1) then l.(latitude := c.0, longitude := c.1) else l
  }

  /** The body of each of the three loops of the source, on one location. */
  method EnrichPlace(place: Location, destination: string,
                     geocode: string -> Option<string>, parseFloat: string -> Option<real>) returns (r: Location)
    ensures r == EnrichLocation(place, destination, geocode, parseFloat)
  {
    r := place;
    if !Nonzero(r.latitude) {
      var c := GetCoords(r.name, r.address, destination, geocode, parseFloat);
      var lat, lon := c.0, c.1;
      if Nonzero(lat) && Nonzero(lon) {
        r := r.(latitude := lat);
        r := r.(longitude := lon);
      }
    }
  }

  /** A second pass finds nothing left to do: a written latitude is non-zero,
      and a location left alone is looked up again with the same outcome. */
  lemma EnrichLocationIdempotent(l: Location, destination: string,
                                 geocode: string -> Option<string>, parseFloat: string -> Option<real>)
    ensures var once := EnrichLocation(l, destination, geocode, parseFloat);
      EnrichLocation(once, destination, geocode, parseFloat) == once
  {
    var once := EnrichLocation(l, destination, geocode, parseFloat);
    if !Nonzero(once.latitude) {
      assert once == l;
    }
  }

  // ===========================================================================
  // The itinerary

  function EnrichLocations(ls: seq<Location>, destination: string,
                           geocode: string -> Option<string>, parseFloat: string -> Option<real>): (r: seq<Location>)
  {
    seq(|ls|, i requires 0 <= i < |ls| => EnrichLocation(ls[i], destination, geocode, parseFloat))
  }

  function EnrichActivity(a: Activity, destination: string,
                          geocode: string -> Option<string>, parseFloat: string -> Option<real>): Activity
  {
    a.(location := EnrichLocation(a.location, destination, geocode, parseFloat))
  }

  function EnrichActivities(acts: seq<Activity>, destination: string,
                            geocode: string -> Option<string>, parseFloat: string -> Option<real>): seq<Activity>
  {
    seq(|acts|, i requires 0 <= i < |acts| => EnrichActivity(acts[i], destination, geocode, parseFloat))
  }

  function EnrichDayPlan(d: DayPlan, destination: string,
                         geocode: string -> Option<string>, parseFloat: string -> Option<real>): DayPlan
  {
    d.(activities := EnrichActivities(d.activities, destination, geocode, parseFloat))
  }

  function EnrichDayPlans(ds: seq<DayPlan>, destination: string,
                          geocode: string -> Option<string>, parseFloat: string -> Option<real>): seq<DayPlan>
  {
    seq(|ds|, i requires 0 <= i < |ds| => EnrichDayPlan(ds[i], destination, geocode, parseFloat))
  }

  /** `for x in (xs or [])`: a missing list stays missing. */
  function EnrichOptional(ls: Option<seq<Location>>, destination: string,
                          geocode: string -> Option<string>, parseFloat: string -> Option<real>): Option<seq<Location>>
  {
    if ls.Some? then Some(EnrichLocations(ls.value, destination, geocode, parseFloat)) else None
  }

  /** `_enrich_with_coordinates`: activity locations of every day, then the
      top attractions, then the must-visit places. */
  function EnrichedReport(it: ItineraryReport, destination: string,
                          geocode: string -> Option<string>, parseFloat: string -> Option<real>): ItineraryReport
  {
    it.(dayPlans := EnrichDayPlans(it.dayPlans, destination, geocode, parseFloat),
        topAttractions := EnrichOptional(it.topAttractions, destination, geocode, parseFloat),
        mustVisitPlaces := EnrichOptional(it.mustVisitPlaces, destination, geocode, parseFloat))
  }

  /** The loops of `_enrich_with_coordinates`, each element replaced in turn. */
  method EnrichWithCoordinates(itinerary: ItineraryReport, destination: string,
                               geocode: string -> Option<string>, parseFloat: string -> Option<real>)
    returns (r: ItineraryReport)
    ensures r == EnrichedReport(itinerary, destination, geocode, parseFloat)
  {
    r := itinerary;
    var days := r.dayPlans;
    var i := 0;
    while i < |days|
      invariant 0 <= i <= |days| == |itinerary.dayPlans|
      invariant forall k :: 0 <= k < i ==> days[k] == EnrichDayPlan(itinerary.dayPlans[k], destination, geocode, parseFloat)
      invariant forall k :: i <= k < |days| ==> days[k] == itinerary.dayPlans[k]
    {
      var acts := EnrichActivityList(days[i].activities, destination, geocode, parseFloat);
      days := days[i := days[i].(activities := acts)];
      i := i + 1;
    }
    r := r.(dayPlans := days);
    if r.topAttractions.Some? {
      var ls := EnrichLocationList(r.topAttractions.value, destination, geocode, parseFloat);
      r := r.(topAttractions := Some(ls));
    }
    if r.mustVisitPlaces.Some? {
      var ls := EnrichLocationList(r.mustVisitPlaces.value, destination, geocode, parseFloat);
      r := r.(mustVisitPlaces := Some(ls));
    }
  }

  /** `for activity in day_plan.activities`. */
  method EnrichActivityList(acts: seq<Activity>, destination: string,
                            geocode: string -> Option<string>, parseFloat: string -> Option<real>)
    returns (r: seq<Activity>)
    ensures r == EnrichActivities(acts, destination, geocode, parseFloat)
  {
    r := acts;
    var j := 0;
    while j < |r|
      invariant 0 <= j <= |r| == |acts|
      invariant forall k :: 0 <= k < j ==> r[k] == EnrichActivity(acts[k], destination, geocode, parseFloat)
      invariant forall k :: j <= k < |r| ==> r[k] == acts[k]
    {
      var loc := EnrichPlace(r[j].location, destination, geocode, parseFloat);
      r := r[j := r[j].(location := loc)];
      j := j + 1;
    }
  }

  /** `for attraction in (itinerary.top_attractions or [])`, and the same loop
      over the must-visit places. */
  method EnrichLocationList(ls: seq<Location>, destination: string,
                            geocode: string -> Option<string>, parseFloat: string -> Option<real>)
    returns (r: seq<Location>)
    ensures r == EnrichLocations(ls, destination, geocode, parseFloat)
  {
    r := ls;
    var j := 0;
    while j < |r|
      invariant 0 <= j <= |r| == |ls|
      invariant forall k :: 0 <= k < j ==> r[k] == EnrichLocation(ls[k], destination, geocode, parseFloat)
      invariant forall k :: j <= k < |r| ==> r[k] == ls[k]
    {
      var place := EnrichPlace(r[j], destination, geocode, parseFloat);
      r := r[j := place];
      j := j + 1;
    }
  }

  // ===========================================================================
  // Properties of the enriched itinerary

  /** `b` is `a` with at most the coordinates changed. */
  predicate SameButCoords(a: Location, b: Location) {
    b.(latitude := a.latitude, longitude := a.longitude) == a
  }

  predicate ListSameButCoords(a: seq<Location>, b: seq<Location>) {
    |a| == |b| && forall i :: 0 <= i < |a| ==> SameButCoords(a[i], b[i])
  }

  predicate OptionalSameButCoords(a: Option<seq<Location>>, b: Option<seq<Location>>) {
    a.Some? == b.Some? && (a.Some? ==> ListSameButCoords(a.value, b.value))
  }

  predicate DayPlanSameButCoords(a: DayPlan, b: DayPlan) {
    && b.(activities := a.activities) == a
    && |a.activities| == |b.activities|
    && forall i :: 0 <= i < |a.activities| ==>
         && b.activities[i].(location := a.activities[i].location) == a.activities[i]
         && SameButCoords(a.activities[i].location, b.activities[i].location)
  }

  /** Enrichment changes nothing but the latitude and longitude of the
      locations it visits: the report's other fields, the day plans' other
      fields, the activities' other fields and every location's other fields
      stay as they were. */
  lemma EnrichOnlyCoordinates(it: ItineraryReport, destination: string,
                              geocode: string -> Option<string>, parseFloat: string -> Option<real>)
    ensures var r := EnrichedReport(it, destination, geocode, parseFloat);
      && r.(dayPlans := it.dayPlans, topAttractions := it.topAttractions, mustVisitPlaces := it.mustVisitPlaces) == it
      && |r.dayPlans| == |it.dayPlans|
      && (forall i :: 0 <= i < |it.dayPlans| ==> DayPlanSameButCoords(it.dayPlans[i], r.dayPlans[i]))
      && OptionalSameButCoords(it.topAttractions, r.topAttractions)
      && OptionalSameButCoords(it.mustVisitPlaces, r.mustVisitPlaces)
  {
  }

  /** The constraints of the schema survive enrichment: it touches no rating,
      no priority, no day number and no list length. */
  lemma EnrichKeepsValidity(it: ItineraryReport, destination: string,
                            geocode: string -> Option<string>, parseFloat: string -> Option<real>)
    requires ReportValid(it)
    ensures ReportValid(EnrichedReport(it, destination, geocode, parseFloat))
  {
    var r := EnrichedReport(it, destination, geocode, parseFloat);
    forall i | 0 <= i < |r.dayPlans|
      ensures DayPlanValid(r.dayPlans[i])
    {
      assert DayPlanValid(it.dayPlans[i]);
    }
  }
}
