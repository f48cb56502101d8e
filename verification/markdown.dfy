/** The rule-based Markdown rendering of an itinerary
    (`_generate_markdown_description`): an ordered list of parts, appended
    section by section, then joined with "". Floats are shown through the
    `showFloat` formatter (Python's `repr` of a float), which the model does
    not define. */
module Markdown {
  import opened Common
  import opened Schemas

  // ===========================================================================
  // Truthiness of optional fields

  predicate Listed<T>(xs: Option<seq<T>>) {
    xs.Some? && xs.value != []
  }

  /** A rating is shown only when it is present and non-zero. */
  predicate Rated(r: Option<real>) {
    r.Some? && r.value != 0.0
  }

  predicate Counted(n: Option<int>) {
    n.Some? && n.value != 0
  }

  // ===========================================================================
  // Lines

  /** A bullet `- **tag:** value` ending the line. */
  function Field(tag: string, value: string): string {
    "- **" + tag + ":** " + value + "\n"
  }

  function OptionalField(tag: string, value: Option<string>): seq<string> {
    if Present(value) then [Field(tag, value.value)] else []
  }

  function Stars(r: Option<real>, showFloat: real -> string): seq<string> {
    if Rated(r) then [" \U{2B50} " + showFloat(r.value) + "/5"] else []
  }

  /** One "- item" line per item, in order. */
  function Bullets(items: seq<string>): (r: seq<string>)
    ensures |r| == |items|
    ensures forall i :: 0 <= i < |items| ==> r[i] == "- " + items[i] + "\n"
    decreases |items|
  {
    if items == [] then []
    else
      var n := |items| - 1;
      assert forall i :: 0 <= i < n ==> items[..n][i] == items[i];
      Bullets(items[..n]) + ["- " + items[n] + "\n"]
  }

  // ===========================================================================
  // Header and travel details

  function TitleLine(it: ItineraryReport): string {
    "# " + it.destination + " Travel Itinerary\n"
  }

  function HeaderParts(it: ItineraryReport): seq<string> {
    [TitleLine(it), "## Overview\n", it.summary + "\n", "\n---\n"]
  }

  function DurationLine(it: ItineraryReport): string {
    Field("Duration", IntToString(it.totalDays) + " days")
  }

  function DetailsParts(it: ItineraryReport): seq<string> {
    ["## Travel Details\n", DurationLine(it)]
      + OptionalField("Travel Type", it.travelType)
      + OptionalField("Estimated Budget", it.budgetEstimate)
      + OptionalField("Best Time to Visit", it.bestTimeToVisit)
      + ["\n"]
  }

  // ===========================================================================
  // Day plans

  function ActivityHeading(n: nat, name: string): string {
    "**" + NatToString(n) + ". " + name + "**\n\n"
  }

  function LocationParts(l: Location, showFloat: real -> string): seq<string> {
    ["- **Location:** " + l.name]
      + (if Present(l.address) then [" (" + l.address.value + ")"] else [])
      + Stars(l.rating, showFloat)
      + ["\n"]
  }

  function TimeLine(start: string, end: string): string {
    "- **Time:** " + start + " - " + end + "\n"
  }

  /** The block of the activity numbered `n`. */
  function ActivityParts(n: nat, a: Activity, showFloat: real -> string): seq<string> {
    [ActivityHeading(n, a.name)]
      + (if Present(a.description) then [a.description.value + "\n\n"] else [])
      + LocationParts(a.location, showFloat)
      + (if Present(a.startTime) && Present(a.endTime) then [TimeLine(a.startTime.value, a.endTime.value)] else [])
      + OptionalField("Cost", a.costEstimate)
      + (if Listed(a.tips) then [Field("Tips", Join(a.tips.value, ", "))] else [])
      + ["\n"]
  }

  /** The activities numbered from 1 in list order. */
  function ActivitiesParts(acts: seq<Activity>, showFloat: real -> string): seq<string>
    decreases |acts|
  {
    if acts == [] then []
    else ActivitiesParts(acts[..|acts| - 1], showFloat) + ActivityParts(|acts|, acts[|acts| - 1], showFloat)
  }

  function DayHeading(d: DayPlan): string {
    "### Day " + IntToString(d.dayNumber) + ": " + d.title + "\n\n"
  }

  const DayRule: string := "---\n\n"
  const ActivitiesHeading: string := "#### Activities\n\n"

  function DayOpening(d: DayPlan): seq<string> {
    [DayHeading(d)] + (if Present(d.description) then ["*" + d.description.value + "*\n\n"] else [])
  }

  function DayActivities(d: DayPlan, showFloat: real -> string): seq<string> {
    if d.activities != [] then [ActivitiesHeading] + ActivitiesParts(d.activities, showFloat) else []
  }

  function DayClosing(d: DayPlan): seq<string> {
    (if Listed(d.highlights) then ["**Highlights:** " + Join(d.highlights.value, ", ") + "\n\n"] else [])
      + (if Present(d.estimatedCost) then ["**Estimated Cost:** " + d.estimatedCost.value + "\n\n"] else [])
      + (if Present(d.notes) then ["*Note: " + d.notes.value + "*\n\n"] else [])
      + [DayRule]
  }

  function DayPlanParts(d: DayPlan, showFloat: real -> string): seq<string> {
    DayOpening(d) + DayActivities(d, showFloat) + DayClosing(d)
  }

  function DayPlansParts(ds: seq<DayPlan>, showFloat: real -> string): seq<string>
    decreases |ds|
  {
    if ds == [] then []
    else DayPlansParts(ds[..|ds| - 1], showFloat) + DayPlanParts(ds[|ds| - 1], showFloat)
  }

  function DaysSection(it: ItineraryReport, showFloat: real -> string): seq<string> {
    if it.dayPlans != [] then ["## Day-by-Day Itinerary\n\n"] + DayPlansParts(it.dayPlans, showFloat) else []
  }

  // ===========================================================================
  // Attractions, places, accommodation, transport

  const MaxListed: nat := 10

  function AttractionParts(n: nat, l: Location, showFloat: real -> string): seq<string> {
    [NatToString(n) + ". **" + l.name + "**"]
      + Stars(l.rating, showFloat)
      + (if Present(l.address) then ["\n   - " + l.address.value] else [])
      + (if Present(l.category) then ["\n   - Category: " + l.category.value] else [])
      + ["\n\n"]
  }

  function AttractionsParts(ls: seq<Location>, showFloat: real -> string): seq<string>
    decreases |ls|
  {
    if ls == [] then []
    else AttractionsParts(ls[..|ls| - 1], showFloat) + AttractionParts(|ls|, ls[|ls| - 1], showFloat)
  }

  function AttractionsSection(it: ItineraryReport, showFloat: real -> string): seq<string> {
    if Listed(it.topAttractions)
    then ["## Top Attractions\n\n"] + AttractionsParts(Take(it.topAttractions.value, MaxListed), showFloat)
    else []
  }

  function PlaceParts(l: Location, showFloat: real -> string): seq<string> {
    ["- **" + l.name + "**"] + Stars(l.rating, showFloat) + ["\n"]
  }

  function PlacesParts(ls: seq<Location>, showFloat: real -> string): seq<string>
    decreases |ls|
  {
    if ls == [] then []
    else PlacesParts(ls[..|ls| - 1], showFloat) + PlaceParts(ls[|ls| - 1], showFloat)
  }

  function PlacesSection(it: ItineraryReport, showFloat: real -> string): seq<string> {
    if Listed(it.mustVisitPlaces)
    then ["## Must-Visit Places\n\n"] + PlacesParts(Take(it.mustVisitPlaces.value, MaxListed), showFloat) + ["\n"]
    else []
  }

  function AccommodationParts(a: Accommodation, showFloat: real -> string): seq<string> {
    ["### " + a.name + "\n\n", Field("Type", OrElse(a.kind, "Not specified"))]
      + OptionalField("Location", a.location)
      + OptionalField("Price Range", a.priceRange)
      + (if Rated(a.rating)
         then ["- **Rating:** \U{2B50} " + showFloat(a.rating.value) + "/5"]
              + (if Counted(a.reviewCount) then [" (" + IntToString(a.reviewCount.value) + " reviews)"] else [])
              + ["\n"]
         else [])
      + OptionalField("Why", a.recommendationReason)
      + (if Listed(a.amenities) then [Field("Amenities", Join(a.amenities.value, ", "))] else [])
      + ["\n"]
  }

  function AccommodationsParts(xs: seq<Accommodation>, showFloat: real -> string): seq<string>
    decreases |xs|
  {
    if xs == [] then []
    else AccommodationsParts(xs[..|xs| - 1], showFloat) + AccommodationParts(xs[|xs| - 1], showFloat)
  }

  function AccommodationsSection(it: ItineraryReport, showFloat: real -> string): seq<string> {
    if Listed(it.accommodationRecommendations)
    then ["## Accommodation Recommendations\n\n"] + AccommodationsParts(it.accommodationRecommendations.value, showFloat)
    else []
  }

  function TransportOpening(t: Transportation): seq<string> {
    ["### " + t.kind + "\n\n"]
      + OptionalField("Route", t.route)
      + OptionalField("Cost", t.estimatedCost)
      + OptionalField("Duration", t.duration)
  }

  function TransportTips(t: Transportation): seq<string> {
    if Listed(t.tips) then ["**Tips:**\n"] + Bullets(t.tips.value) else []
  }

  function TransportParts(t: Transportation): seq<string> {
    TransportOpening(t) + TransportTips(t) + ["\n"]
  }

  function TransportsParts(xs: seq<Transportation>): seq<string>
    decreases |xs|
  {
    if xs == [] then []
    else TransportsParts(xs[..|xs| - 1]) + TransportParts(xs[|xs| - 1])
  }

  function TransportListSection(it: ItineraryReport): seq<string> {
    if Listed(it.transportationTips) then ["## Transportation\n\n"] + TransportsParts(it.transportationTips.value) else []
  }

  function LocalTransportSection(it: ItineraryReport): seq<string> {
    if Present(it.localTransport) then ["### Local Transportation\n\n" + it.localTransport.value + "\n\n"] else []
  }

  // ===========================================================================
  // Closing sections

  function BulletSection(heading: string, items: Option<seq<string>>): seq<string> {
    if Listed(items) then [heading] + Bullets(items.value) + ["\n"] else []
  }

  function WeatherSection(it: ItineraryReport): seq<string> {
    if Present(it.weatherInfo) then ["## Weather Information\n\n", it.weatherInfo.value + "\n\n"] else []
  }

  function BestTimeSection(it: ItineraryReport): seq<string> {
    if Present(it.bestTimeToVisit) then ["## Best Time to Visit\n\n", it.bestTimeToVisit.value + "\n\n"] else []
  }

  /** Every part of the description, in emission order. */
  function DescriptionParts(it: ItineraryReport, showFloat: real -> string): seq<string> {
    HeaderParts(it) + DetailsParts(it) + BodyParts(it, showFloat)
  }

  /** The parts after the travel details. */
  function BodyParts(it: ItineraryReport, showFloat: real -> string): seq<string> {
    DaysSection(it, showFloat)
      + AttractionsSection(it, showFloat)
      + PlacesSection(it, showFloat)
      + AccommodationsSection(it, showFloat)
      + TransportListSection(it)
      + LocalTransportSection(it)
      + BulletSection("## General Travel Tips\n\n", it.generalTips)
      + BulletSection("## Cultural Information\n\n", it.culturalNotes)
      + WeatherSection(it)
      + BestTimeSection(it)
  }

  /** `_generate_markdown_description`. */
  function Description(it: ItineraryReport, showFloat: real -> string): string {
    Concat(DescriptionParts(it, showFloat))
  }

  // ===========================================================================
  // The renderer as the source runs it: `md_parts.append` inside loops

  lemma AppendAssoc(a: seq<string>, b: seq<string>, c: seq<string>)
    ensures a + b + c == a + (b + c)
  {
  }

  // One more element of each list: the next block of parts.

  lemma ActivitiesStep(acts: seq<Activity>, i: nat, showFloat: real -> string)
    requires i < |acts|
    ensures ActivitiesParts(acts[..i + 1], showFloat)
      == ActivitiesParts(acts[..i], showFloat) + ActivityParts(i + 1, acts[i], showFloat)
  {
    assert acts[..i + 1][..i] == acts[..i];
  }

  lemma DayPlansStep(ds: seq<DayPlan>, i: nat, showFloat: real -> string)
    requires i < |ds|
    ensures DayPlansParts(ds[..i + 1], showFloat) == DayPlansParts(ds[..i], showFloat) + DayPlanParts(ds[i], showFloat)
  {
    assert ds[..i + 1][..i] == ds[..i];
  }

  lemma AttractionsStep(ls: seq<Location>, i: nat, showFloat: real -> string)
    requires i < |ls|
    ensures AttractionsParts(ls[..i + 1], showFloat)
      == AttractionsParts(ls[..i], showFloat) + AttractionParts(i + 1, ls[i], showFloat)
  {
    assert ls[..i + 1][..i] == ls[..i];
  }

  lemma PlacesStep(ls: seq<Location>, i: nat, showFloat: real -> string)
    requires i < |ls|
    ensures PlacesParts(ls[..i + 1], showFloat) == PlacesParts(ls[..i], showFloat) + PlaceParts(ls[i], showFloat)
  {
    assert ls[..i + 1][..i] == ls[..i];
  }

  lemma AccommodationsStep(xs: seq<Accommodation>, i: nat, showFloat: real -> string)
    requires i < |xs|
    ensures AccommodationsParts(xs[..i + 1], showFloat)
      == AccommodationsParts(xs[..i], showFloat) + AccommodationParts(xs[i], showFloat)
  {
    assert xs[..i + 1][..i] == xs[..i];
  }

  lemma TransportsStep(xs: seq<Transportation>, i: nat)
    requires i < |xs|
    ensures TransportsParts(xs[..i + 1]) == TransportsParts(xs[..i]) + TransportParts(xs[i])
  {
    assert xs[..i + 1][..i] == xs[..i];
  }

  lemma BulletsStep(items: seq<string>, i: nat)
    requires i < |items|
    ensures Bullets(items[..i + 1]) == Bullets(items[..i]) + ["- " + items[i] + "\n"]
  {
    assert items[..i + 1][..i] == items[..i];
  }

  method AppendActivities(parts: seq<string>, acts: seq<Activity>, showFloat: real -> string)
    returns (out: seq<string>)
    ensures out == parts + ActivitiesParts(acts, showFloat)
  {
    out := parts;
    var i := 0;
    while i < |acts|
      invariant 0 <= i <= |acts|
      invariant out == parts + ActivitiesParts(acts[..i], showFloat)
    {
      ActivitiesStep(acts, i, showFloat);
      AppendAssoc(parts, ActivitiesParts(acts[..i], showFloat), ActivityParts(i + 1, acts[i], showFloat));
      out := out + ActivityParts(i + 1, acts[i], showFloat);
      i := i + 1;
    }
    assert acts[..i] == acts;
  }

  /** The block of one day plan, its activities appended one by one. */
  method RenderDayPlan(d: DayPlan, showFloat: real -> string) returns (block: seq<string>)
    ensures block == DayPlanParts(d, showFloat)
  {
    block := DayOpening(d);
    if d.activities != [] {
      block := AppendActivities(block + [ActivitiesHeading], d.activities, showFloat);
      AppendAssoc(DayOpening(d), [ActivitiesHeading], ActivitiesParts(d.activities, showFloat));
    }
    assert block == DayOpening(d) + DayActivities(d, showFloat);
    block := block + DayClosing(d);
  }

  method AppendDayPlans(parts: seq<string>, ds: seq<DayPlan>, showFloat: real -> string)
    returns (out: seq<string>)
    ensures out == parts + DayPlansParts(ds, showFloat)
  {
    out := parts;
    var i := 0;
    while i < |ds|
      invariant 0 <= i <= |ds|
      invariant out == parts + DayPlansParts(ds[..i], showFloat)
    {
      var block := RenderDayPlan(ds[i], showFloat);
      DayPlansStep(ds, i, showFloat);
      AppendAssoc(parts, DayPlansParts(ds[..i], showFloat), block);
      out := out + block;
      i := i + 1;
    }
    assert ds[..i] == ds;
  }

  method AppendAttractions(parts: seq<string>, ls: seq<Location>, showFloat: real -> string)
    returns (out: seq<string>)
    ensures out == parts + AttractionsParts(ls, showFloat)
  {
    out := parts;
    var i := 0;
    while i < |ls|
      invariant 0 <= i <= |ls|
      invariant out == parts + AttractionsParts(ls[..i], showFloat)
    {
      AttractionsStep(ls, i, showFloat);
      AppendAssoc(parts, AttractionsParts(ls[..i], showFloat), AttractionParts(i + 1, ls[i], showFloat));
      out := out + AttractionParts(i + 1, ls[i], showFloat);
      i := i + 1;
    }
    assert ls[..i] == ls;
  }

  method AppendPlaces(parts: seq<string>, ls: seq<Location>, showFloat: real -> string)
    returns (out: seq<string>)
    ensures out == parts + PlacesParts(ls, showFloat)
  {
    out := parts;
    var i := 0;
    while i < |ls|
      invariant 0 <= i <= |ls|
      invariant out == parts + PlacesParts(ls[..i], showFloat)
    {
      PlacesStep(ls, i, showFloat);
      AppendAssoc(parts, PlacesParts(ls[..i], showFloat), PlaceParts(ls[i], showFloat));
      out := out + PlaceParts(ls[i], showFloat);
      i := i + 1;
    }
    assert ls[..i] == ls;
  }

  method AppendAccommodations(parts: seq<string>, xs: seq<Accommodation>, showFloat: real -> string)
    returns (out: seq<string>)
    ensures out == parts + AccommodationsParts(xs, showFloat)
  {
    out := parts;
    var i := 0;
    while i < |xs|
      invariant 0 <= i <= |xs|
      invariant out == parts + AccommodationsParts(xs[..i], showFloat)
    {
      AccommodationsStep(xs, i, showFloat);
      AppendAssoc(parts, AccommodationsParts(xs[..i], showFloat), AccommodationParts(xs[i], showFloat));
      out := out + AccommodationParts(xs[i], showFloat);
      i := i + 1;
    }
    assert xs[..i] == xs;
  }

  method AppendBullets(parts: seq<string>, items: seq<string>) returns (out: seq<string>)
    ensures out == parts + Bullets(items)
  {
    out := parts;
    var i := 0;
    while i < |items|
      invariant 0 <= i <= |items|
      invariant out == parts + Bullets(items[..i])
    {
      BulletsStep(items, i);
      AppendAssoc(parts, Bullets(items[..i]), ["- " + items[i] + "\n"]);
      out := out + ["- " + items[i] + "\n"];
      i := i + 1;
    }
    assert items[..i] == items;
  }

  /** The block of one transport option, its tips appended one by one. */
  method RenderTransport(t: Transportation) returns (block: seq<string>)
    ensures block == TransportParts(t)
  {
    block := TransportOpening(t);
    if Listed(t.tips) {
      block := AppendBullets(block + ["**Tips:**\n"], t.tips.value);
      AppendAssoc(TransportOpening(t), ["**Tips:**\n"], Bullets(t.tips.value));
    }
    assert block == TransportOpening(t) + TransportTips(t);
    block := block + ["\n"];
  }

  method AppendTransports(parts: seq<string>, xs: seq<Transportation>) returns (out: seq<string>)
    ensures out == parts + TransportsParts(xs)
  {
    out := parts;
    var i := 0;
    while i < |xs|
      invariant 0 <= i <= |xs|
      invariant out == parts + TransportsParts(xs[..i])
    {
      var block := RenderTransport(xs[i]);
      TransportsStep(xs, i);
      AppendAssoc(parts, TransportsParts(xs[..i]), block);
      out := out + block;
      i := i + 1;
    }
    assert xs[..i] == xs;
  }

  method AppendBulletSection(parts: seq<string>, heading: string, items: Option<seq<string>>)
    returns (out: seq<string>)
    ensures out == parts + BulletSection(heading, items)
  {
    out := parts;
    if Listed(items) {
      out := AppendBullets(out + [heading], items.value);
      AppendAssoc(parts, [heading], Bullets(items.value));
      out := out + ["\n"];
      AppendAssoc(parts, [heading] + Bullets(items.value), ["\n"]);
    }
  }

  method AppendDaysSection(parts: seq<string>, it: ItineraryReport, showFloat: real -> string)
    returns (out: seq<string>)
    ensures out == parts + DaysSection(it, showFloat)
  {
    out := parts;
    if it.dayPlans != [] {
      out := AppendDayPlans(out + ["## Day-by-Day Itinerary\n\n"], it.dayPlans, showFloat);
      AppendAssoc(parts, ["## Day-by-Day Itinerary\n\n"], DayPlansParts(it.dayPlans, showFloat));
    }
  }

  /** Only the first ten top attractions, numbered from 1. */
  method AppendAttractionsSection(parts: seq<string>, it: ItineraryReport, showFloat: real -> string)
    returns (out: seq<string>)
    ensures out == parts + AttractionsSection(it, showFloat)
  {
    out := parts;
    if Listed(it.topAttractions) {
      var shown := Take(it.topAttractions.value, MaxListed);
      out := AppendAttractions(out + ["## Top Attractions\n\n"], shown, showFloat);
      AppendAssoc(parts, ["## Top Attractions\n\n"], AttractionsParts(shown, showFloat));
    }
  }

  /** Only the first ten must-visit places. */
  method AppendPlacesSection(parts: seq<string>, it: ItineraryReport, showFloat: real -> string)
    returns (out: seq<string>)
    ensures out == parts + PlacesSection(it, showFloat)
  {
    out := parts;
    if Listed(it.mustVisitPlaces) {
      var shown := Take(it.mustVisitPlaces.value, MaxListed);
      out := AppendPlaces(out + ["## Must-Visit Places\n\n"], shown, showFloat);
      AppendAssoc(parts, ["## Must-Visit Places\n\n"], PlacesParts(shown, showFloat));
      out := out + ["\n"];
      AppendAssoc(parts, ["## Must-Visit Places\n\n"] + PlacesParts(shown, showFloat), ["\n"]);
    }
  }

  method AppendAccommodationsSection(parts: seq<string>, it: ItineraryReport, showFloat: real -> string)
    returns (out: seq<string>)
    ensures out == parts + AccommodationsSection(it, showFloat)
  {
    out := parts;
    if Listed(it.accommodationRecommendations) {
      var stays := it.accommodationRecommendations.value;
      out := AppendAccommodations(out + ["## Accommodation Recommendations\n\n"], stays, showFloat);
      AppendAssoc(parts, ["## Accommodation Recommendations\n\n"], AccommodationsParts(stays, showFloat));
    }
  }

  method AppendTransportSection(parts: seq<string>, it: ItineraryReport) returns (out: seq<string>)
    ensures out == parts + TransportListSection(it)
  {
    out := parts;
    if Listed(it.transportationTips) {
      out := AppendTransports(out + ["## Transportation\n\n"], it.transportationTips.value);
      AppendAssoc(parts, ["## Transportation\n\n"], TransportsParts(it.transportationTips.value));
    }
  }

  /** `_generate_markdown_description`: each section appended in turn, then the
      parts joined. */
  method GenerateMarkdownDescription(it: ItineraryReport, showFloat: real -> string) returns (md: string)
    ensures md == Description(it, showFloat)
  {
    var parts := HeaderParts(it) + DetailsParts(it);
    // The sections after the details are collected on their own, in the
    // source's order, and appended as one run.
    var body := AppendDaysSection([], it, showFloat);
    assert body == DaysSection(it, showFloat);
    body := AppendAttractionsSection(body, it, showFloat);
    body := AppendPlacesSection(body, it, showFloat);
    body := AppendAccommodationsSection(body, it, showFloat);
    body := AppendTransportSection(body, it);
    body := body + LocalTransportSection(it);
    body := AppendBulletSection(body, "## General Travel Tips\n\n", it.generalTips);
    body := AppendBulletSection(body, "## Cultural Information\n\n", it.culturalNotes);
    body := body + WeatherSection(it);
    body := body + BestTimeSection(it);
    assert body == BodyParts(it, showFloat);
    parts := parts + body;
    md := Concat(parts);
  }

  // ===========================================================================
  // Properties

  /** The description opens with the title, the overview with the summary, the
      rule, and the travel-details heading followed by the duration line. */
  lemma DescriptionOpening(it: ItineraryReport, showFloat: real -> string)
    ensures StartsWith(Description(it, showFloat),
      TitleLine(it) + "## Overview\n" + (it.summary + "\n") + "\n---\n" + "## Travel Details\n" + DurationLine(it))
  {
    OpeningParts(it, showFloat);
    PrefixOfSix(DescriptionParts(it, showFloat),
      TitleLine(it), "## Overview\n", it.summary + "\n", "\n---\n", "## Travel Details\n", DurationLine(it));
  }

  lemma PrefixOfSix(parts: seq<string>, a: string, b: string, c: string, d: string, e: string, f: string)
    requires |parts| >= 6 && parts[..6] == [a, b, c, d, e, f]
    ensures StartsWith(Concat(parts), a + b + c + d + e + f)
  {
    ConcatPrefix(parts, 6);
    ConcatSix(a, b, c, d, e, f);
  }

  lemma OpeningParts(it: ItineraryReport, showFloat: real -> string)
    ensures |DescriptionParts(it, showFloat)| >= 6
    ensures DescriptionParts(it, showFloat)[..6]
      == [TitleLine(it), "## Overview\n", it.summary + "\n", "\n---\n", "## Travel Details\n", DurationLine(it)]
  {
    var hd := HeaderParts(it) + DetailsParts(it);
    assert hd[..6] == [TitleLine(it), "## Overview\n", it.summary + "\n", "\n---\n", "## Travel Details\n", DurationLine(it)];
    assert DescriptionParts(it, showFloat) == hd + BodyParts(it, showFloat);
  }

  /** Joining a prefix of the parts gives a prefix of the joined text. */
  lemma ConcatPrefix(parts: seq<string>, k: nat)
    requires k <= |parts|
    ensures StartsWith(Concat(parts), Concat(parts[..k]))
  {
    assert parts == parts[..k] + parts[k..];
    ConcatAppend(parts[..k], parts[k..]);
  }

  lemma ConcatSix(a: string, b: string, c: string, d: string, e: string, f: string)
    ensures Concat([a, b, c, d, e, f]) == a + b + c + d + e + f
  {
    assert [a, b, c, d, e, f][..5] == [a, b, c, d, e];
    assert [a, b, c, d, e][..4] == [a, b, c, d];
    assert [a, b, c, d][..3] == [a, b, c];
    assert [a, b, c][..2] == [a, b];
    assert [a, b][..1] == [a];
    assert Concat([a]) == a by {
      assert [a][..0] == [];
      assert Concat([a]) == Concat([]) + a;
    }
    assert Concat([a, b]) == a + b;
    assert Concat([a, b, c]) == a + b + c;
    assert Concat([a, b, c, d]) == a + b + c + d;
    assert Concat([a, b, c, d, e]) == a + b + c + d + e;
  }

  /** Bullets with different labels never coincide. */
  lemma FieldLabels(l1: string, v1: string, l2: string, v2: string)
    requires l1 != [] && l2 != [] && l1[0] != l2[0]
    ensures Field(l1, v1) != Field(l2, v2)
  {
    assert Field(l1, v1)[4] == l1[0];
    assert Field(l2, v2)[4] == l2[0];
  }

  lemma FieldValue(l: string, v1: string, v2: string)
    requires Field(l, v1) == Field(l, v2)
    ensures v1 == v2
  {
    var n := |"- **" + l + ":** "|;
    assert v1 == Field(l, v1)[n..|Field(l, v1)| - 1];
    assert v2 == Field(l, v2)[n..|Field(l, v2)| - 1];
  }

  /** In the travel details the duration line is always present, and the
      travel-type, budget and best-time lines each appear exactly when their
      field is non-empty, carrying that field's text. */
  lemma DetailsLines(it: ItineraryReport, x: string)
    ensures DurationLine(it) in DetailsParts(it)
    ensures Field("Travel Type", x) in DetailsParts(it) <==> Present(it.travelType) && x == it.travelType.value
    ensures Field("Estimated Budget", x) in DetailsParts(it) <==> Present(it.budgetEstimate) && x == it.budgetEstimate.value
    ensures Field("Best Time to Visit", x) in DetailsParts(it) <==> Present(it.bestTimeToVisit) && x == it.bestTimeToVisit.value
  {
    var d := IntToString(it.totalDays) + " days";
    DetailLine("Travel Type", x, it, d);
    DetailLine("Estimated Budget", x, it, d);
    DetailLine("Best Time to Visit", x, it, d);
  }

  /** One labelled line of the travel details, whose label starts with a
      letter that no other label there starts with. */
  lemma DetailLine(tag: string, x: string, it: ItineraryReport, d: string)
    requires tag in {"Travel Type", "Estimated Budget", "Best Time to Visit"}
    requires d == IntToString(it.totalDays) + " days"
    ensures tag == "Travel Type" ==>
      (Field(tag, x) in DetailsParts(it) <==> Present(it.travelType) && x == it.travelType.value)
    ensures tag == "Estimated Budget" ==>
      (Field(tag, x) in DetailsParts(it) <==> Present(it.budgetEstimate) && x == it.budgetEstimate.value)
    ensures tag == "Best Time to Visit" ==>
      (Field(tag, x) in DetailsParts(it) <==> Present(it.bestTimeToVisit) && x == it.bestTimeToVisit.value)
  {
    var tt, eb, bt := "Travel Type", "Estimated Budget", "Best Time to Visit";
    var head := ["## Travel Details\n", DurationLine(it)];
    assert DetailsParts(it) == head + OptionalField(tt, it.travelType) + OptionalField(eb, it.budgetEstimate)
      + OptionalField(bt, it.bestTimeToVisit) + ["\n"];
    FieldLabels(tag, x, "Duration", d);
    assert Field(tag, x)[0] == '-';
    assert Field(tag, x) !in head;
    assert Field(tag, x) != "\n";
    OptionalFieldLine(tag, x, tt, it.travelType);
    OptionalFieldLine(tag, x, eb, it.budgetEstimate);
    OptionalFieldLine(tag, x, bt, it.bestTimeToVisit);
  }

  /** A labelled line is among the optional lines of a label exactly when the
      labels agree and the value is present and equal. */
  lemma OptionalFieldLine(tag: string, x: string, other: string, v: Option<string>)
    requires tag != [] && other != [] && (tag == other || tag[0] != other[0])
    ensures Field(tag, x) in OptionalField(other, v) <==> tag == other && Present(v) && x == v.value
  {
    if Present(v) {
      if tag == other {
        if Field(tag, x) == Field(tag, v.value) {
          FieldValue(tag, x, v.value);
        }
      } else {
        FieldLabels(tag, x, other, v.value);
      }
    }
  }

  /** The parts of the first `k` activities are a prefix of the parts of all of
      them. */
  lemma {:induction false} ActivitiesPrefix(acts: seq<Activity>, k: nat, showFloat: real -> string)
    requires k <= |acts|
    ensures var p := ActivitiesParts(acts[..k], showFloat);
      |p| <= |ActivitiesParts(acts, showFloat)| && ActivitiesParts(acts, showFloat)[..|p|] == p
    decreases |acts|
  {
    if k < |acts| {
      var init := acts[..|acts| - 1];
      assert init[..k] == acts[..k];
      ActivitiesPrefix(init, k, showFloat);
    } else {
      assert acts[..k] == acts;
    }
  }

  /** Activities are numbered consecutively from 1 in list order: right after
      the blocks of the first `k` activities comes the heading
      `**{k+1}. {name}**` of activity `k`. */
  lemma ActivityNumbering(acts: seq<Activity>, k: nat, showFloat: real -> string)
    requires k < |acts|
    ensures var p := ActivitiesParts(acts[..k], showFloat);
      |p| < |ActivitiesParts(acts, showFloat)| &&
      ActivitiesParts(acts, showFloat)[|p|] == ActivityHeading(k + 1, acts[k].name)
  {
    ActivitiesPrefix(acts, k + 1, showFloat);
    assert acts[..k + 1][..k] == acts[..k];
  }

  /** Every day block opens with `### Day {n}: {title}` and closes with the
      `---` rule. */
  lemma DayPlanFrame(d: DayPlan, showFloat: real -> string)
    ensures var p := DayPlanParts(d, showFloat);
      |p| >= 2 && p[0] == DayHeading(d) && p[|p| - 1] == DayRule
  {
  }

  /** The time line needs both ends: with either one absent the other has no
      effect on the block; with both present the line is emitted. */
  lemma ActivityTimeLine(n: nat, a: Activity, x: Option<string>, showFloat: real -> string)
    ensures !Present(a.endTime) ==> ActivityParts(n, a.(startTime := x), showFloat) == ActivityParts(n, a, showFloat)
    ensures !Present(a.startTime) ==> ActivityParts(n, a.(endTime := x), showFloat) == ActivityParts(n, a, showFloat)
    ensures Present(a.startTime) && Present(a.endTime) ==>
      TimeLine(a.startTime.value, a.endTime.value) in ActivityParts(n, a, showFloat)
  {
  }

  /** Only the first ten top attractions and the first ten must-visit places
      are rendered: cutting either list to ten leaves the description as it
      was. */
  lemma ListsCappedAtTen(it: ItineraryReport, showFloat: real -> string)
    ensures it.topAttractions.Some? ==>
      Description(it.(topAttractions := Some(Take(it.topAttractions.value, MaxListed))), showFloat) == Description(it, showFloat)
    ensures it.mustVisitPlaces.Some? ==>
      Description(it.(mustVisitPlaces := Some(Take(it.mustVisitPlaces.value, MaxListed))), showFloat) == Description(it, showFloat)
  {
    if it.topAttractions.Some? {
      AttractionsCappedAtTen(it, showFloat);
    }
    if it.mustVisitPlaces.Some? {
      PlacesCappedAtTen(it, showFloat);
    }
  }

  lemma AttractionsCappedAtTen(it: ItineraryReport, showFloat: real -> string)
    requires it.topAttractions.Some?
    ensures Description(it.(topAttractions := Some(Take(it.topAttractions.value, MaxListed))), showFloat) == Description(it, showFloat)
  {
    var xs := it.topAttractions.value;
    var it' := it.(topAttractions := Some(Take(xs, MaxListed)));
    assert Take(Take(xs, MaxListed), MaxListed) == Take(xs, MaxListed);
    assert AttractionsSection(it', showFloat) == AttractionsSection(it, showFloat);
    SameSectionsBesideLists(it', it, showFloat);
  }

  lemma PlacesCappedAtTen(it: ItineraryReport, showFloat: real -> string)
    requires it.mustVisitPlaces.Some?
    ensures Description(it.(mustVisitPlaces := Some(Take(it.mustVisitPlaces.value, MaxListed))), showFloat) == Description(it, showFloat)
  {
    var xs := it.mustVisitPlaces.value;
    var it' := it.(mustVisitPlaces := Some(Take(xs, MaxListed)));
    assert Take(Take(xs, MaxListed), MaxListed) == Take(xs, MaxListed);
    assert PlacesSection(it', showFloat) == PlacesSection(it, showFloat);
    SameSectionsBesideLists(it', it, showFloat);
  }

  /** Two reports that differ at most in their top attractions and must-visit
      places, rendered the same there, are described the same. */
  lemma SameSectionsBesideLists(it1: ItineraryReport, it2: ItineraryReport, showFloat: real -> string)
    requires it1.(topAttractions := it2.topAttractions, mustVisitPlaces := it2.mustVisitPlaces) == it2
    requires AttractionsSection(it1, showFloat) == AttractionsSection(it2, showFloat)
    requires PlacesSection(it1, showFloat) == PlacesSection(it2, showFloat)
    ensures Description(it1, showFloat) == Description(it2, showFloat)
  {
    assert HeaderParts(it1) == HeaderParts(it2) && DetailsParts(it1) == DetailsParts(it2);
    assert BodyParts(it1, showFloat) == BodyParts(it2, showFloat);
  }
}
