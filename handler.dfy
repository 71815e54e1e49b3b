/**
 * The `POST /api/get-routes` handler: geocode both place texts, answer 404 if
 * either is not found, otherwise ask for a route and answer 500 if there is
 * none, otherwise log the search and answer 200 with the two options.  The
 * two providers are not modelled; they are the functions `geocode` (place
 * text to the geocoder's answer) and `route` (start latitude, start longitude,
 * end latitude, end longitude, each possibly `undefined`, to the router's
 * answer).
 */
module Handler {
  import opened Wrappers
  import opened Geocoding
  import opened Routing
  import opened Pricing
  import opened Storage
  import Text

  datatype Body = Error(error: string) | Routes(routes: seq<CommuteOption>)

  datatype Response = Response(status: int, body: Body)

  type Geocoder = string -> Answer

  type Router = (JsValue, JsValue, JsValue, JsValue) -> Option<seq<OsrmRoute>>

  const NotFoundMessage := "One or both locations could not be found on the map."

  const NoPathMessage := "Could not calculate a driving path."

  /** The answer the handler sends, and whether it writes a log row. */
  datatype Outcome = Outcome(response: Response, logs: bool)

  /**
   * The handler's decisions, as a function of the two providers' answers:
   * 404 exactly when a place is not found; a log row exactly when both places
   * are found and the router's answer converts to a route, and then the answer
   * is 200 with the two options priced from that route.
   */
  function Handle(fromLoc: string, toLoc: string, geocode: Geocoder, route: Router): (o: Outcome)
    ensures o.response.status == 404 <==>
      GetCoordinates(geocode(fromLoc)).None? || GetCoordinates(geocode(toLoc)).None?
    ensures o.logs <==>
      GetCoordinates(geocode(fromLoc)).Some? && GetCoordinates(geocode(toLoc)).Some? &&
      var s, e := GetCoordinates(geocode(fromLoc)).value, GetCoordinates(geocode(toLoc)).value;
      GetRouteData(route(s.lat, s.lon, e.lat, e.lon)).Some?
    ensures o.logs ==>
      var s, e := GetCoordinates(geocode(fromLoc)).value, GetCoordinates(geocode(toLoc)).value;
      o.response == Response(200, Routes(Options(GetRouteData(route(s.lat, s.lon, e.lat, e.lon)).value)))
  {
    var startCoords := GetCoordinates(geocode(fromLoc));
    var endCoords := GetCoordinates(geocode(toLoc));
    if startCoords.None? || endCoords.None? then
      Outcome(Response(404, Error(NotFoundMessage)), false)
    else
      var s, e := startCoords.value, endCoords.value;
      match GetRouteData(route(s.lat, s.lon, e.lat, e.lon))
      case None => Outcome(Response(500, Error(NoPathMessage)), false)
      case Some(m) => Outcome(Response(200, Routes(Options(m))), true)
  }

  /**
   * A missing location gives 404 with the fixed message and no log row, and
   * the router is not consulted: any two routers give the same outcome.
   */
  lemma NotFoundAnswer(fromLoc: string, toLoc: string, geocode: Geocoder, route1: Router, route2: Router)
    requires GetCoordinates(geocode(fromLoc)).None? || GetCoordinates(geocode(toLoc)).None?
    ensures Handle(fromLoc, toLoc, geocode, route1) == Outcome(Response(404, Error(NotFoundMessage)), false)
    ensures Handle(fromLoc, toLoc, geocode, route1) == Handle(fromLoc, toLoc, geocode, route2)
  {
  }

  /** Both locations found but no route: 500 with the fixed message and no log row. */
  lemma NoRouteAnswer(fromLoc: string, toLoc: string, geocode: Geocoder, route: Router)
    requires GetCoordinates(geocode(fromLoc)).Some? && GetCoordinates(geocode(toLoc)).Some?
    requires
      var s, e := GetCoordinates(geocode(fromLoc)).value, GetCoordinates(geocode(toLoc)).value;
      GetRouteData(route(s.lat, s.lon, e.lat, e.lon)).None?
    ensures Handle(fromLoc, toLoc, geocode, route) == Outcome(Response(500, Error(NoPathMessage)), false)
  {
  }

  /**
   * Status and logging go together: 200 exactly when a row is written, and the
   * only statuses are 200, 404 and 500.
   */
  lemma StatusAndLogging(fromLoc: string, toLoc: string, geocode: Geocoder, route: Router)
    ensures var o := Handle(fromLoc, toLoc, geocode, route);
      && o.response.status in {200, 404, 500}
      && (o.logs <==> o.response.status == 200)
      && (o.response.status == 200 <==> o.response.body.Routes?)
  {
  }

  /**
   * When both places are found and the router has a route, the answer is 200
   * with the options priced from the converted first route, and a row is logged.
   */
  lemma SuccessAnswer(fromLoc: string, toLoc: string, geocode: Geocoder, route: Router,
                      first: Match, last: Match, r: OsrmRoute)
    requires geocode(fromLoc).Matches? && |geocode(fromLoc).list| > 0 && geocode(fromLoc).list[0] == first
    requires geocode(toLoc).Matches? && |geocode(toLoc).list| > 0 && geocode(toLoc).list[0] == last
    requires route(Str(first.lat), Str(first.lon), Str(last.lat), Str(last.lon)).Some?
    requires
      var rs := route(Str(first.lat), Str(first.lon), Str(last.lat), Str(last.lon)).value;
      |rs| > 0 && rs[0] == r
    ensures
      var m := RouteMetrics(ToFixedTenths(r.distance / 1000.0), Round(r.duration / 60.0));
      Handle(fromLoc, toLoc, geocode, route) == Outcome(Response(200, Routes(Options(m))), true)
  {
  }

  /**
   * The handler only consults the geocoder about the two place texts it was
   * given, so geocoders that agree on those give the same outcome.
   */
  lemma OnlyQueriesGivenPlaces(fromLoc: string, toLoc: string, g1: Geocoder, g2: Geocoder, route: Router)
    requires g1(fromLoc) == g2(fromLoc) && g1(toLoc) == g2(toLoc)
    ensures Handle(fromLoc, toLoc, g1, route) == Handle(fromLoc, toLoc, g2, route)
  {
  }

  /**
   * A non-empty text body from the geocoder counts as found: no 404, and the
   * router is asked about `undefined` coordinates for that place.
   */
  lemma TextBodyReachesRouter(fromLoc: string, toLoc: string, geocode: Geocoder, route: Router, body: string)
    requires geocode(fromLoc) == Text(body) && |body| > 0
    requires GetCoordinates(geocode(toLoc)).Some?
    ensures
      var e := GetCoordinates(geocode(toLoc)).value;
      var o := Handle(fromLoc, toLoc, geocode, route);
      && o.response.status != 404
      && (o.response.status == 500 <==> GetRouteData(route(Undefined, Undefined, e.lat, e.lon)).None?)
  {
  }

  /**
   * The handler's steps in order, with the log write into `db`.  The clock
   * SQLite would read for the row's timestamp is `now`.
   */
  method GetRoutes(db: SearchHistory, fromLoc: string, toLoc: string, geocode: Geocoder, route: Router, now: int)
    returns (res: Response)
    requires db.Valid()
    modifies db
    ensures db.Valid()
    ensures res == Handle(fromLoc, toLoc, geocode, route).response
    ensures db.rows == old(db.rows) +
      if Handle(fromLoc, toLoc, geocode, route).logs
      then [SearchRecord(|old(db.rows)| + 1, fromLoc, toLoc, now)]
      else []
  {
    var startCoords := GetCoordinates(geocode(fromLoc));
    var endCoords := GetCoordinates(geocode(toLoc));
    if startCoords.None? || endCoords.None? {
      return Response(404, Error(NotFoundMessage));
    }
    var routeData := GetRouteData(route(startCoords.value.lat, startCoords.value.lon,
                                        endCoords.value.lat, endCoords.value.lon));
    if routeData.None? {
      return Response(500, Error(NoPathMessage));
    }
    db.Insert(fromLoc, toLoc, now);
    res := Response(200, Routes(Options(routeData.value)));
  }

  /**
   * The same request twice: the same answer both times, since pricing depends
   * only on the route, and one new row per successful request.
   */
  method SearchTwice(db: SearchHistory, fromLoc: string, toLoc: string, geocode: Geocoder, route: Router,
                     now1: int, now2: int)
    returns (res1: Response, res2: Response)
    requires db.Valid()
    modifies db
    ensures db.Valid()
    ensures res1 == res2
    ensures res1.status == 200 ==>
      db.rows == old(db.rows) + [SearchRecord(|old(db.rows)| + 1, fromLoc, toLoc, now1),
                                 SearchRecord(|old(db.rows)| + 2, fromLoc, toLoc, now2)]
    ensures res1.status != 200 ==> db.rows == old(db.rows)
  {
    StatusAndLogging(fromLoc, toLoc, geocode, route);
    res1 := GetRoutes(db, fromLoc, toLoc, geocode, route, now1);
    res2 := GetRoutes(db, fromLoc, toLoc, geocode, route, now2);
  }

  /** The texts the answer shows for an 8.0 km, 20 minute route. */
  lemma EightKmTwentyMinutes()
    ensures var m := RouteMetrics(80, 20);
      && BusOption(m).cost == "₹26" && BusOption(m).duration == "40 mins"
      && BusOption(m).steps[1].time == "30m"
      && CabOption(m).cost == "₹136" && CabOption(m).duration == "20 mins"
      && CabOption(m).steps[0].sub == "8 km"
  {
    var m := RouteMetrics(80, 20);
    BusCostExact(m);
    CabCostExact(m);
    assert Text.NatToString(26) == "26";
    assert Text.NatToString(13) == "13";
    assert Text.NatToString(136) == "136";
    assert Text.NatToString(40) == "40";
    assert Text.NatToString(20) == "20";
    assert Text.NatToString(30) == "30";
    assert Text.NatToString(8) == "8";
  }

  /**
   * "Bandra" to "Andheri" with an 8000 m, 1200 s route: 8.0 km and 20 minutes,
   * so the bus costs ₹26 and takes 40 mins, the cab ₹136 and 20 mins.
   */
  lemma BandraToAndheri(geocode: Geocoder, route: Router, bandra: Match, andheri: Match)
    requires geocode("Bandra") == Matches([bandra]) && geocode("Andheri") == Matches([andheri])
    requires route(Str(bandra.lat), Str(bandra.lon), Str(andheri.lat), Str(andheri.lon)) == Some([OsrmRoute(8000.0, 1200.0)])
    ensures var o := Handle("Bandra", "Andheri", geocode, route);
      && o.logs
      && o.response.status == 200
      && o.response.body.Routes?
      && |o.response.body.routes| == 2
      && o.response.body.routes[0].cost == "₹26"
      && o.response.body.routes[0].duration == "40 mins"
      && o.response.body.routes[1].cost == "₹136"
      && o.response.body.routes[1].duration == "20 mins"
  {
    var m := RouteMetrics(80, 20);
    ExactRoute(80, 20);
    assert 8000.0 == 80 as real * 100.0 && 1200.0 == 20 as real * 60.0;
    assert GetRouteData(Some([OsrmRoute(8000.0, 1200.0)])) == Some(m);
    assert Handle("Bandra", "Andheri", geocode, route) == Outcome(Response(200, Routes(Options(m))), true);
    EightKmTwentyMinutes();
  }
}
