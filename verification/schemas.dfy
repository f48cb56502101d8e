/** The itinerary records exchanged between the planner, the LLM output parser
    and the Markdown renderer, with the range constraints their validators
    enforce. Floats are modelled as reals. */
module Schemas {
  import opened Common

  datatype TravelPlanRequest = TravelPlanRequest(
    destination: string,
    days: Option<int>,
    origin: Option<string>,
    travelType: Option<string>,
    budget: Option<string>,
    preferences: Option<string>,
    date: Option<string>,
    notes: Option<string>)

  datatype Location = Location(
    name: string,
    address: Option<string>,
    latitude: Option<real>,
    longitude: Option<real>,
    rating: Option<real>,
    reviewCount: Option<int>,
    category: Option<string>,
    imageUrl: Option<string>,
    imageAlt: Option<string>)

  datatype Activity = Activity(
    name: string,
    description: Option<string>,
    location: Location,
    startTime: Option<string>,
    endTime: Option<string>,
    durationHours: Option<real>,
    costEstimate: Option<string>,
    tips: Option<seq<string>>,
    priority: Option<int>,
    imageUrl: Option<string>,
    bookingInfo: Option<string>)

  datatype DayPlan = DayPlan(
    dayNumber: int,
    date: Option<string>,
    title: string,
    description: Option<string>,
    theme: Option<string>,
    activities: seq<Activity>,
    estimatedCost: Option<string>,
    notes: Option<string>,
    highlights: Option<seq<string>>)

  datatype Accommodation = Accommodation(
    name: string,
    kind: Option<string>,
    location: Option<string>,
    address: Option<string>,
    priceRange: Option<string>,
    rating: Option<real>,
    reviewCount: Option<int>,
    recommendationReason: Option<string>,
    imageUrl: Option<string>,
    amenities: Option<seq<string>>,
    bookingUrl: Option<string>)

  datatype Transportation = Transportation(
    kind: string,
    route: Option<string>,
    estimatedCost: Option<string>,
    duration: Option<string>,
    tips: Option<seq<string>>)

  datatype ItineraryReport = ItineraryReport(
    summary: string,
    destination: string,
    totalDays: int,
    travelType: Option<string>,
    budgetEstimate: Option<string>,
    dayPlans: seq<DayPlan>,
    topAttractions: Option<seq<Location>>,
    mustVisitPlaces: Option<seq<Location>>,
    accommodationRecommendations: Option<seq<Accommodation>>,
    transportationTips: Option<seq<Transportation>>,
    localTransport: Option<string>,
    generalTips: Option<seq<string>>,
    culturalNotes: Option<seq<string>>,
    bestTimeToVisit: Option<string>,
    weatherInfo: Option<string>,
    destinationImage: Option<string>,
    coverImage: Option<string>,
    createdAt: Option<string>,
    lastUpdated: Option<string>,
    markdownDescription: Option<string>)

  datatype TravelPlanResponse = TravelPlanResponse(
    success: bool,
    itinerary: Option<ItineraryReport>,
    message: Option<string>,
    processingTime: Option<real>)

  // ---------------------------------------------------------------------------
  // Validity: the field constraints of each record

  /** `ge=0, le=5` on an optional rating. */
  predicate RatingInRange(r: Option<real>) {
    r.Some? ==> 0.0 <= r.value <= 5.0
  }

  predicate LocationValid(l: Location) {
    RatingInRange(l.rating)
  }

  predicate ActivityValid(a: Activity) {
    && LocationValid(a.location)
    && (a.priority.Some? ==> 1 <= a.priority.value <= 5)
  }

  predicate DayPlanValid(d: DayPlan) {
    && d.dayNumber >= 1
    && forall i :: 0 <= i < |d.activities| ==> ActivityValid(d.activities[i])
  }

  predicate AccommodationValid(a: Accommodation) {
    RatingInRange(a.rating)
  }

  predicate LocationsValid(ls: Option<seq<Location>>) {
    ls.Some? ==> forall i :: 0 <= i < |ls.value| ==> LocationValid(ls.value[i])
  }

  predicate ReportValid(r: ItineraryReport) {
    && r.totalDays >= 1
    && |r.dayPlans| >= 1
    && (forall i :: 0 <= i < |r.dayPlans| ==> DayPlanValid(r.dayPlans[i]))
    && LocationsValid(r.topAttractions)
    && LocationsValid(r.mustVisitPlaces)
    && (r.accommodationRecommendations.Some? ==>
          forall i :: 0 <= i < |r.accommodationRecommendations.value| ==>
            AccommodationValid(r.accommodationRecommendations.value[i]))
  }

  // ---------------------------------------------------------------------------
  // Construction with the declared defaults

  /** A request built from the one required field: every other declared field
      takes its default, None. */
  function RequestFor(destination: string): (r: TravelPlanRequest)
    ensures r.destination == destination
    ensures r.days.None? && r.origin.None? && r.travelType.None? && r.budget.None?
    ensures r.preferences.None? && r.date.None? && r.notes.None?
  {
    TravelPlanRequest(destination, None, None, None, None, None, None, None)
  }

  /** A day plan built from its two required fields: `activities` defaults to
      the empty list and the plan is valid exactly when the day number is at
      least 1. */
  function DayPlanFor(dayNumber: int, title: string): (d: DayPlan)
    ensures d.dayNumber == dayNumber && d.title == title
    ensures d.activities == []
    ensures DayPlanValid(d) <==> dayNumber >= 1
  {
    DayPlan(dayNumber, None, title, None, None, [], None, None, None)
  }

  /** A response carries only `success`; the other three fields may be absent. */
  function ResponseFor(success: bool): (r: TravelPlanResponse)
    ensures r.success == success
    ensures r.itinerary.None? && r.message.None? && r.processingTime.None?
  {
    TravelPlanResponse(success, None, None, None)
  }
}
