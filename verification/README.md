# Trip estimation engine of the "Your Travel and Adventure" itinerary builder

The itinerary builder page lets a traveller pick places in order, a transport
mode, start and end dates, and hotel and restaurant preferences. When they
press "Generate My Itinerary" the page:

1. derives the trip length (both end dates counted) and whether the start
   month is in the peak season (December, January, April, May, June);
2. validates the request in a fixed order, reporting the first failure only:
   no place chosen, then the "Select a mode" placeholder still selected, then
   a duration below one day;
3. runs `get_route_and_details`: the best route is the places joined by
   `" -> "`; the alternate route is the reversed places joined the same way
   plus `" (Alternate Route)"`; sightseeing spots and permit advisories are
   gathered by exact, case-sensitive lookup in constant tables, in the order
   of the places, each with a one-line fallback when nothing matched. The
   transport mode is passed in but not used;
4. runs `calculate_budget`: transport and food prices are charged per day,
   the hotel price per night (days − 1 nights), unknown keys cost 0, and a
   peak-season trip gets a 30% surcharge truncated to whole rupees.

The Dafny project models these steps as pure functions over immutable values:

- `text.dfy` — module `Text`: Python's `str.join` and `reversed`.
- `tables.dfy` — module `Tables`: the five constant tables and `.get(key, 0)`.
- `route_details.dfy` — module `RouteDetails`: `get_route_and_details`.
- `budget.dfy` — module `Budget`: `calculate_budget`.
- `planner.dfy` — module `Planner`: dates, duration, peak season, validation
  and the generate step that wires them together.

Most operations are paired with an independent statement of what they
mean: the join with its length, first and last part and its left-to-right
construction; spot collection with a membership characterisation and
distribution over concatenation; the advisory list with a reference filter of
the places that need a permit; the budget's closed form with a day-by-day
recurrence; the peak estimate with an exact 13/10 relation to the off-season
one. The `.get(key, 0)` lookup is used as a plain definition.

What `app.py` does, and so what the model does:

- the page accepts a single place; validation only rejects an empty list;
- sightseeing and permit lookups use the place name as given, as an exact,
  case-sensitive key of the table;
- a transport, hotel or food key missing from its table costs 0;
- the budget is transport, hotel and food only, and the output is the two
  routes, the sightseeing and permission lists, the estimate and its season
  note; there is no per-day plan, rental list or map.

## Model

| member | source | states |
|---|---|---|
| Text.Join | app.py:14 | `sep.join(parts)`: empty for no parts; otherwise starts with the first part, ends with the last, and its length is the parts' total length plus one separator per neighbouring pair |
| Text.JoinSnoc | app.py:14 | appending a part to a non-empty list appends one separator and that part to the join |
| Text.JoinAppend | app.py:14 | the join of two non-empty lists concatenated is the two joins with one separator between |
| Text.Reverse | app.py:15 | `reversed(s)` has the same length and holds element `s[n-1-i]` at position `i` |
| Text.ReverseInvolutive | app.py:15 | reversing twice gives the original list |
| RouteDetails.GetRouteAndDetails | app.py:9-51 | both lists are non-empty; the best route starts with the first place, the alternate route starts with the last place and ends with " (Alternate Route)" |
| RouteDetails.DetailsIgnoreMode | app.py:9-51 | the four outputs are the same for every transport mode |
| RouteDetails.BestRoute | app.py:14 | the best route is empty for no places; otherwise it starts at the first place, ends at the last, and its length is the places' total length plus one " -> " per leg |
| RouteDetails.AltRoute | app.py:15 | the alternate route always ends with " (Alternate Route)" (and is just that for no places); otherwise it starts at the last place and reaches the first place just before the suffix |
| RouteDetails.AltRouteSingle | app.py:15 | the alternate route of one place is that place followed by " (Alternate Route)" |
| RouteDetails.AltRouteSnoc | app.py:15 | adding a final place puts it at the head of the alternate route, followed by " -> " and the previous alternate route |
| RouteDetails.AltRouteOfReversed | app.py:14-15 | the alternate route of the reversed places is the best route plus the suffix |
| RouteDetails.SpotsOf | app.py:27-30 | the collected spots are empty if and only if no listed place is a key of the sightseeing table, and never contain the fallback message |
| RouteDetails.Sightseeing | app.py:27-33 | the sightseeing output is never empty, and is exactly the one fallback message if and only if no listed place is a key of the table |
| RouteDetails.SpotsOfAppend | app.py:27-30 | spots collected over a concatenated place list are the two collections concatenated, so repeated places contribute repeatedly |
| RouteDetails.UnknownPlaceAddsNoSpots | app.py:27-30 | a place that is not a key of the sightseeing table adds nothing wherever it stands |
| RouteDetails.SpotsOfMembership | app.py:27-30 | a spot is collected if and only if it is in the table entry of some listed place |
| RouteDetails.Advisory | app.py:46 | an advisory line ends with the place's permission text and is never the fallback message |
| RouteDetails.PermitsOf | app.py:43-46 | at most one advisory per place; none if and only if no listed place is a key of the permission table; none is the fallback message |
| RouteDetails.Permissions | app.py:43-49 | the permission output is never empty, and is exactly the one fallback message if and only if no listed place is a key of the permission table |
| RouteDetails.PermitPlaces | app.py:43-46 | the reference filter of places needing a permit: no longer than the places, and every element is a key of the permission table |
| RouteDetails.PermitPlacesAppend | app.py:43-46 | filtering a concatenated place list is the two filters concatenated, so order is kept |
| RouteDetails.PermitPlacesMultiplicity | app.py:43-46 | a place needing a permit appears in the filter exactly as often as it was chosen; any other place not at all |
| RouteDetails.PermitPlacesMembership | app.py:43-46 | a place needs a permit if and only if it is listed and a key of the permission table |
| RouteDetails.PermitsOfIsOnePerPermitPlace | app.py:43-46 | the advisories are exactly one "For {place}: {text}" line per place needing a permit, in input order |
| RouteDetails.PermissionsCount | app.py:43-49 | the permission output has max(1, number of places needing a permit) lines |
| Tables.PricesAreHundreds | app.py:58-76 | every price any key can get from the three cost tables is a multiple of 100 |
| Budget.TruncDiv | app.py:94 | `int()` of a quotient by a positive divisor: the quotient truncated toward zero, bracketed from both sides for either sign |
| Budget.BaseBudget | app.py:79-83 | the base cost is a whole number of hundreds for every day count, and a one-day trip costs one day of transport and food with no hotel night |
| Budget.WithSurcharge | app.py:88-94 | on a whole number of tens the truncated 30% surcharge is exactly 13/10 of the amount; it never lowers a non-negative amount nor raises a negative one |
| Budget.CalculateBudget | app.py:53-94 | off-season the amount is the base cost and the note is "Off-season pricing applied."; at peak ten times the amount is exactly thirteen times the base and the note is the surcharge note |
| Budget.DayStepBase | app.py:79-83 | each further day adds one transport day, one hotel night and one food day |
| Budget.BaseNonNegative | app.py:58-83 | for at least one day the base cost is non-negative |
| Budget.BaseMonotone | app.py:79-83 | the base cost never decreases as the day count grows |
| Budget.WithSurchargeMonotone | app.py:88-94 | the truncated 30% surcharge preserves order |
| Budget.OneDayIgnoresHotel | app.py:80 | a one-day estimate is the same for every hotel preference |
| Budget.OffSeasonByDays | app.py:79-92 | off-season a d-day estimate is the first day's transport and food plus d-1 full days of transport, hotel and food |
| Budget.UnknownKeysCostNothing | app.py:79-81 | with unknown transport, hotel and food keys the estimate is 0 |
| Budget.BudgetNonNegative | app.py:58-94 | for at least one day the estimate is non-negative, peak or not |
| Budget.BudgetMonotoneInDays | app.py:58-94 | with everything else fixed, the estimate never decreases as the day count grows |
| Budget.PeakVersusOffSeason | app.py:85-94 | ten times the peak estimate is thirteen times the off-season one; for at least one day the peak estimate is never smaller |
| Budget.PersonalBikeCheapThreeDays | app.py:53-94 | three days by personal bike with cheap hotel and food cost 7100 off-season and 9230 at peak |
| Planner.Duration | app.py:157 | the duration is at least one day if and only if the end date is not before the start; equal dates give one day |
| Planner.IsPeakSeason | app.py:158-161 | a start is off-season if and only if its month is 2, 3 or 7-11, so peak means December, January or April-June |
| Planner.Message | app.py:191-196 | every validation message asks the traveller to select something |
| Planner.Validate | app.py:191-196 | valid if and only if a place is chosen, a mode is chosen and the duration is at least one; otherwise the first failing check in that order is reported |
| Planner.MessagesDistinct | app.py:191-196 | each input error has its own message |
| Planner.GenerateItinerary | app.py:153-207 | an itinerary is produced if and only if all checks pass, with failures reported in check order; an itinerary has the derived duration and season, a non-negative estimate, non-empty sightseeing and permission lists and the engine outputs for the request |
| Planner.LaterEndNeverCheaper | app.py:153-207 | moving an accepted request's end date later keeps it accepted and never lowers the estimate |
| Planner.PeakTripCostsThirtyPercentMore | app.py:157-207 | for a peak-season start, ten times the estimate is thirteen times the off-season cost of the same dates, with the surcharge note |

## Left out

- The page itself: page configuration, widgets, captions, metrics, success
  and error rendering, and the images of the package placeholder section.
  An error is modelled as a value (`Planner.InputError` with its message),
  not as a rendered alert.
- The "Find Hotel Deals" and "Browse Pre-made Packages" sections: they only
  show placeholder text and inputs that nothing reads.
- The simulated two-second delay before generation: it has no effect on the
  results.
- Calendar arithmetic: a date is a day number plus its month. That the month
  matches the day number, and the "no date before today" and "end not
  before start" limits of the date pickers, are not modelled; the model
  accepts any pair of dates and lets validation reject a negative range.
- The place picker's fixed option list and its uniqueness of selections: the
  model accepts any list of strings, duplicates included.
- The thousands-separator formatting of the displayed budget.
- Budget.CalculateBudget: models `int(base * 1.30)` as the exact
  truncation of 13·base/10, not as a floating-point product. Because every
  base is a multiple of 100 (proved), 13·base/10 is an integer N. The double
  nearest to 1.30 is slightly above 1.3, so whenever |N| is below 2^53 the
  rounded product lies in [N, N + 1) for N ≥ 0 and in (N − 1, N] for N < 0
  (a negative base arises only for a day count of zero or less). Either way
  `int()`, which truncates toward zero, returns N. That argument about
  floating point is not part of the proofs.
- Budget.BudgetNonNegative: stated for trips of at least one day only; for
  a negative or zero day count the source's formula can go negative, and the
  page rejects such trips before computing a budget.
