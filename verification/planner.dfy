/** The "Generate My Itinerary" step of the itinerary builder: derive the trip
    length and the season from the chosen dates, validate the request in a
    fixed order, and only then run the route and budget engines. */
module Planner {
  import opened RouteDetails
  import opened Budget

  /** The label the transport selector shows before a mode is chosen. */
  const ModePrompt: string := "Select a mode"

  type Month = m: int | 1 <= m <= 12 witness 1

  /** A calendar date as a day number (consecutive dates differ by one) and
      the month it falls in. */
  datatype Date = Date(dayNumber: int, month: Month)

  /** A request as the page collects it. */
  datatype TripRequest = TripRequest(
    places: seq<string>,
    mode: string,
    start: Date,
    end: Date,
    hotel: string,
    food: string)

  /** The three input errors, reported one at a time. */
  datatype InputError = NoPlaces | NoMode | BadDateRange

  datatype Validation = Valid | Invalid(error: InputError)

  /** Everything shown for an accepted request. */
  datatype Itinerary = Itinerary(duration: int, peak: bool, estimate: Estimate, route: RouteInfo)

  datatype Outcome = Rejected(error: InputError) | Ready(itinerary: Itinerary)

  /** The error message shown for each input error; each one asks the
      traveller to select something. (Each text is written as two literals
      so that the verifier can read its opening words.) */
  function Message(e: InputError): (r: string)
    ensures "Please select " <= r
    ensures |r| > |"Please select "|
  {
    match e
    case NoPlaces => "Please select " + "at least one place to visit."
    case NoMode => "Please select " + "a mode of transport."
    case BadDateRange => "Please select " + "a valid date range (at least 1 day)."
  }

  /** The number of days of a trip, counting both the first and the last. */
  function Duration(start: Date, end: Date): (d: int)
    ensures d >= 1 <==> start.dayNumber <= end.dayNumber
    ensures start.dayNumber == end.dayNumber ==> d == 1
  {
    end.dayNumber - start.dayNumber + 1
  }

  /** Whether a trip starting on `start` falls in the peak season (December,
      January, April to June); every other month is off-season. */
  function IsPeakSeason(start: Date): (peak: bool)
    ensures !peak <==> start.month in {2, 3, 7, 8, 9, 10, 11}
  {
    start.month in {12, 1, 4, 5, 6}
  }

  /** The checks before generation, in order; the first failure is reported. */
  function Validate(places: seq<string>, mode: string, duration: int): (v: Validation)
    ensures v == Valid <==> |places| >= 1 && mode != ModePrompt && duration >= 1
    ensures places == [] ==> v == Invalid(NoPlaces)
    ensures places != [] && mode == ModePrompt ==> v == Invalid(NoMode)
    ensures places != [] && mode != ModePrompt && duration <= 0 ==> v == Invalid(BadDateRange)
  {
    if places == [] then Invalid(NoPlaces)
    else if mode == ModePrompt then Invalid(NoMode)
    else if duration <= 0 then Invalid(BadDateRange)
    else Valid
  }

  /** Pressing "Generate My Itinerary": validate, then run both engines with
      the derived duration and season. */
  function GenerateItinerary(req: TripRequest): (r: Outcome)
    ensures r.Ready? <==>
      |req.places| >= 1 && req.mode != ModePrompt && req.start.dayNumber <= req.end.dayNumber
    ensures req.places == [] ==> r == Rejected(NoPlaces)
    ensures req.places != [] && req.mode == ModePrompt ==> r == Rejected(NoMode)
    ensures req.places != [] && req.mode != ModePrompt && req.end.dayNumber < req.start.dayNumber ==>
      r == Rejected(BadDateRange)
    ensures r.Ready? ==> r.itinerary.duration == req.end.dayNumber - req.start.dayNumber + 1
    ensures r.Ready? ==> r.itinerary.estimate.amount >= 0
    ensures r.Ready? ==> |r.itinerary.route.sightseeing| >= 1 && |r.itinerary.route.permissions| >= 1
    ensures r.Ready? ==> req.places[0] <= r.itinerary.route.bestRoute
    ensures r.Ready? ==> r.itinerary.route == GetRouteAndDetails(req.places, req.mode)
    ensures r.Ready? ==>
      r.itinerary.estimate == CalculateBudget(req.mode, req.hotel, req.food, r.itinerary.duration, r.itinerary.peak)
    ensures r.Ready? ==> r.itinerary.peak == (req.start.month in {12, 1, 4, 5, 6})
  {
    var duration := Duration(req.start, req.end);
    var peak := IsPeakSeason(req.start);
    match Validate(req.places, req.mode, duration)
    case Invalid(e) => Rejected(e)
    case Valid =>
      BudgetNonNegative(req.mode, req.hotel, req.food, duration, peak);
      var route := GetRouteAndDetails(req.places, req.mode);
      var estimate := CalculateBudget(req.mode, req.hotel, req.food, duration, peak);
      Ready(Itinerary(duration, peak, estimate, route))
  }

  // ---------------------------------------------------------------------
  // Properties of the derived inputs and of the whole step

  /** Of two accepted requests that differ only in their end date, the one
      ending later never has a smaller estimate. */
  lemma LaterEndNeverCheaper(req: TripRequest, laterEnd: Date)
    requires GenerateItinerary(req).Ready?
    requires req.end.dayNumber <= laterEnd.dayNumber
    ensures GenerateItinerary(req.(end := laterEnd)).Ready?
    ensures GenerateItinerary(req).itinerary.estimate.amount
         <= GenerateItinerary(req.(end := laterEnd)).itinerary.estimate.amount
  {
    BudgetMonotoneInDays(req.mode, req.hotel, req.food,
      Duration(req.start, req.end), Duration(req.start, laterEnd), IsPeakSeason(req.start));
  }

  /** A peak-season trip's estimate is 13/10 of what the same dates would
      cost off-season. */
  lemma PeakTripCostsThirtyPercentMore(req: TripRequest)
    requires GenerateItinerary(req).Ready?
    requires IsPeakSeason(req.start)
    ensures 10 * GenerateItinerary(req).itinerary.estimate.amount
         == 13 * CalculateBudget(req.mode, req.hotel, req.food, Duration(req.start, req.end), false).amount
    ensures GenerateItinerary(req).itinerary.estimate.seasonNote == PeakNote
  {
    PeakVersusOffSeason(req.mode, req.hotel, req.food, Duration(req.start, req.end));
  }

  /** Each input error is reported with its own message. */
  lemma MessagesDistinct(e1: InputError, e2: InputError)
    requires e1 != e2
    ensures Message(e1) != Message(e2)
  {
  }
}
