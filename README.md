# Commute options backend: a Dafny model

This project models the one request handler of a small commute-planning backend: `POST /api/get-routes`.
The handler takes two place names. It geocodes each one, keeping the first match, then asks a routing
service for a driving route between the two coordinates. It converts the route to kilometres with one
decimal and to whole minutes, and logs the search in the `search_history` table. It answers with two
priced options: a bus ("lowest_cost") and a cab ("fastest").

Modules, one per part of `server.js`:

- `Geocoding`: `getCoordinates`. It reads the geocoder's answer and keeps the first match. It gives `None`
  for an empty list, a failed request or a JSON object body. A non-empty body that stayed text passes the
  source's `data.length > 0` test, so it counts as found, with `undefined` coordinates.
- `Routing`: `getRouteData`. This covers `Math.round` for minutes and `toFixed(1)` for kilometres. The
  distance is held as an integer count of tenths of a kilometre.
- `Pricing`: the fare formulas and the `routes` list of a successful answer. This includes all of its
  texts, such as `₹26`, `40 mins`, `30m` and `8 km`.
- `Text`: JavaScript's conversion of integers and one-decimal numbers to text, plus parsers that read
  them back. The lemmas use the parsers to say which number a response field shows.
- `Storage`: the append-only `search_history` table, as a class with a `rows` sequence.
- `Handler`: the handler's decisions as a pure function `Handle`, and the imperative method `GetRoutes`.
  `GetRoutes` performs the steps in order and writes the log row. It is proved equal to `Handle`.

The geocoding and routing services are parameters: functions from the request to the provider's answer.
For the geocoder, the answer is one of: the request failed, a list of matches, a text body, or a JSON object.
For the router, the answer is `None` when the request throws or the body has no `routes` list. The router is
called with the coordinates as JavaScript values, each possibly `undefined`. "The handler does not call the router on a
404" is stated as: the outcome is the same for any two routers.

The code does not check that `fromLoc` and `toLoc` are present in the request body. The model follows
the code and adds no such check.

## Model

| member | source | states |
|---|---|---|
| Geocoding.GetCoordinates | server.js:24-31 | a coordinate is returned exactly when the answer is a non-empty list or a non-empty text body; for a list it carries the first match's lat, lon and display name, for a text body all three are `undefined`; otherwise "not found" |
| Geocoding.FirstMatchWins | server.js:24-27 | matches after the first never change the result, and a non-empty list is always found |
| Routing.Round | server.js:48 | `Math.round` gives the integer within one half below and strictly less than one half above, so halves round up |
| Routing.ToFixedTenths | server.js:47 | `toFixed(1)` gives the nearest tenth; a tie rounds away from zero, and the sign is kept |
| Routing.GetRouteData | server.js:44-51 | metrics exist exactly when the route list is present and non-empty |
| Routing.RouteDataRounding | server.js:44-49 | the converted distance is within 50 m of the first route's metres, and the minutes are within 30 s of its seconds |
| Routing.ExactRoute | server.js:47-48 | a route of whole tenths of a km and whole minutes converts to exactly those values |
| Pricing.Km | server.js:81 | `dist`, the number read back from the one-decimal text, is the tenths divided by 10 |
| Pricing.BusMinutes | server.js:86 | the bus takes longer than the routed minutes; ShownBusTimes pins it to routed minutes + 20 |
| Pricing.BusCost | server.js:85 | the bus fare is the floor of `10 + 2 * dist`: at most that value and within 1 below it |
| Pricing.CabCost | server.js:89 | the cab fare is the floor of `40 + 12 * dist` |
| Pricing.BusCostExact | server.js:85 | in tenths `t`, the bus fare is `(100 + 2t) div 10` |
| Pricing.CabCostExact | server.js:89 | in tenths `t`, the cab fare is `(400 + 12t) div 10` |
| Pricing.CabCostsMore | server.js:84-89 | for a non-negative distance the cab costs at least 3 more than the bus |
| Pricing.CostsMonotonic | server.js:85-89 | neither fare decreases as the distance grows |
| Pricing.BusOption | server.js:93-102 | the "lowest_cost" option has two steps, none of them a booking; its texts are pinned by ShownCosts and ShownBusTimes |
| Pricing.CabOption | server.js:103-111 | the "fastest" option has one step, and that step is a booking; its texts are pinned by ShownCosts, ShownCabTimes and ShownTaxiDistance |
| Pricing.Options | server.js:91-112 | the `routes` list holds two options, "lowest_cost" then "fastest" |
| Pricing.OptionsShape | server.js:91-112 | exactly two options, "lowest_cost" then "fastest", with labels; 2 steps (walk, bus) and 1 step (taxi); only the taxi step has `isBooking` true |
| Pricing.ShownCosts | server.js:96-106 | the cost texts read back as "₹" followed by the bus fare and the cab fare |
| Pricing.ShownBusTimes | server.js:86-100 | the bus duration reads back as routed minutes + 20 and the bus leg as routed minutes + 10 |
| Pricing.ShownCabTimes | server.js:107-109 | the cab duration and the taxi leg time both read back as the routed minutes, unchanged |
| Pricing.ShownTaxiDistance | server.js:109 | the taxi leg's `sub` reads back as the route's distance in km |
| Pricing.ShownCostDeterminesFare | server.js:96-106 | two answers show the same cost text exactly when their fares are equal |
| Text.NatToString | server.js:96-109 | the decimal text of a natural number is non-empty, all digits, with no leading zero |
| Text.IntToString | server.js:96-107 | `${n}` for an integer is non-empty, all digits exactly when `n` is not negative, and starts with "-" exactly when `n` is negative; IntRoundTrip proves it can be read back |
| Text.TenthsToString | server.js:109 | `${dist}` for a one-decimal number is non-empty, starts with "-" exactly when the number is negative, and has a "." exactly when the tenths digit is not zero ("8", not "8.0"); TenthsRoundTrip proves it can be read back |
| Text.IntRoundTrip | server.js:96-107 | parsing the text of `${n}` for an integer gives `n` back |
| Text.TenthsRoundTrip | server.js:109 | parsing the text of `${dist}` for a one-decimal number gives its tenths back |
| Storage.SearchHistory.constructor | database.js:14-19 | the table created in a fresh database file is empty |
| Storage.SearchHistory.Insert | server.js:78 | the table gains one row at the end with the next id, the two texts and the time; earlier rows are unchanged |
| Handler.Handle | server.js:59-114 | the answer is 404 exactly when a place is not found; a row is logged exactly when both places are found (a match list or a text body) and the router's answer converts to a route, and then the answer is 200 with the two options priced from that route |
| Handler.NotFoundAnswer | server.js:63-68 | if either place is not found: 404 with the fixed message, no log row, and the outcome is the same for every router |
| Handler.NoRouteAnswer | server.js:71-75 | if both places are found but there is no route: 500 with the fixed message and no log row |
| Handler.SuccessAnswer | server.js:71-113 | with both first matches and a first route, the answer is 200 with the options priced from that route, and a row is logged |
| Handler.StatusAndLogging | server.js:59-113 | the status is 200, 404 or 500; a row is logged exactly on 200; the body is the routes list exactly on 200 |
| Handler.OnlyQueriesGivenPlaces | server.js:63-64 | the geocoder is asked only about the two given texts |
| Handler.TextBodyReachesRouter | server.js:24-27 | a non-empty text body from the geocoder does not give 404; the router is asked about `undefined` coordinates for that place, and a missing route then gives 500 |
| Handler.GetRoutes | server.js:59-114 | the step-by-step handler answers as `Handle` does; it appends one row with the original `fromLoc`/`toLoc` text exactly when it answers 200, and otherwise leaves the table unchanged |
| Handler.SearchTwice | server.js:59-114 | repeating a request with the same provider answers gives the same answer; on success there are two new rows with consecutive ids |
| Handler.EightKmTwentyMinutes | server.js:96-109 | an 8.0 km, 20 minute route shows "₹26", "40 mins" and a "30m" bus leg for the bus, and "₹136", "20 mins" and "8 km" for the cab |
| Handler.BandraToAndheri | server.js:81-113 | an 8000 m, 1200 s route gives costs "₹26" and "₹136" and durations "40 mins" and "20 mins" |

## Left out

- The HTTP requests to the geocoding and routing providers are not modelled (server.js:18-22, 41-42). This covers their URLs, the query parameters, the `User-Agent` header and their exceptions. Their outcomes are the `geocode` and `route` parameters of `Handle` and `GetRoutes`.
- Express setup, CORS, the JSON body parser, the port setting and `app.listen` (server.js:6-10, 116-118) are framework plumbing and are not modelled.
- database.js is not modelled beyond the table it creates: it only opens the SQLite file and creates the table. `Storage.SearchHistory` stands for the table.
- Storage.SearchHistory.constructor: only a fresh database file is constructed. `CREATE TABLE IF NOT EXISTS` on an existing `commute.db` keeps the rows of earlier runs, and ids carry on from them. That pre-existing table is not constructed. `Handler.GetRoutes` accepts any `Valid()` table, so nothing else depends on the empty start.
- Geocoding.GetCoordinates: a list whose first entry is not an object with `lat`, `lon` and `display_name` is not modelled. The list entries are always full matches.
- The `timestamp` column's clock is the `now` parameter.
- Failures of `db.run` are not modelled; the insert always succeeds. The source ignores such failures, so they never change the answer.
- `AUTOINCREMENT` ids are modelled as position + 1. This holds because nothing in the code deletes rows.
- A request body without `fromLoc` or `toLoc` (an `undefined` place text) is not modelled: the place texts are strings. Such a request would geocode `undefined`, and a successful one would write NULLs.
- Console logging is not modelled: it has no effect on the answer.
- `async`/`await` and concurrent requests are not modelled. A request is one sequential method. Ids of interleaved concurrent requests are not modelled.
- Routing.GetRouteData: distance / 1000 and duration / 60 use exact real arithmetic, not IEEE doubles. At an exact tie the double quotient can land on the other side; for example, 1150 m gives 1.15, which is stored slightly below 1.15, so `toFixed(1)` gives "1.1" where the model gives 12 tenths.
- Pricing.BusCost: `dist * 2` is computed on exact decimals. The rounding of the double product is not modelled.
- Pricing.CabCost: `dist * 12` is computed on exact decimals. The rounding of the double product is not modelled.
- Text.TenthsToString: exponent notation for numbers of 1e21 or more is not modelled. Neither is the `NaN` that a route without a `distance` field would give.
- Text.IntToString: exponent notation for integers of 1e21 or more is not modelled. Neither is the `NaN` that a route without a `duration` field would give to the minutes.
