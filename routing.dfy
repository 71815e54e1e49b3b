/**
 * `getRouteData`: turning the routing provider's answer into the distance in
 * kilometres with one decimal and the duration in whole minutes.  The HTTP
 * request is not modelled; its outcome is the `routes` parameter: `None` when
 * the request failed or the body had no `routes` list.  Distances and
 * durations are exact reals (metres and seconds), not IEEE doubles.
 */
module Routing {
  import opened Wrappers

  /** One route of the provider's answer: metres and seconds. */
  datatype OsrmRoute = OsrmRoute(distance: real, duration: real)

  /**
   * What `getRouteData` returns: the distance as an integer number of tenths of
   * a kilometre (the value of the `toFixed(1)` text) and whole minutes.
   */
  datatype RouteMetrics = RouteMetrics(distanceTenths: int, durationMins: int)

  /** `Math.round`: the nearest integer, halves rounded up (towards +infinity). */
  function Round(x: real): (r: int)
    ensures r as real - 0.5 <= x < r as real + 0.5
  {
    (x + 0.5).Floor
  }

  /**
   * The number `x.toFixed(1)` denotes, in tenths: the nearest tenth, where a tie
   * is rounded away from zero (the sign is set aside and the larger candidate
   * is taken).
   */
  function ToFixedTenths(x: real): (t: int)
    ensures x >= 0.0 ==> t >= 0 && t as real - 0.5 <= 10.0 * x < t as real + 0.5
    ensures x < 0.0 ==> t <= 0 && t as real - 0.5 < 10.0 * x <= t as real + 0.5
  {
    if x < 0.0 then -Round(-x * 10.0) else Round(x * 10.0)
  }

  /** The first route of a non-empty list is converted; otherwise there is no route. */
  function GetRouteData(routes: Option<seq<OsrmRoute>>): (r: Option<RouteMetrics>)
    ensures r.Some? <==> routes.Some? && |routes.value| > 0
  {
    if routes.Some? && |routes.value| > 0 then
      var route := routes.value[0];
      Some(RouteMetrics(ToFixedTenths(route.distance / 1000.0), Round(route.duration / 60.0)))
    else
      None
  }

  /**
   * What the conversion means in the provider's units: the distance shown is
   * within 50 metres of the route's length (a tie at exactly 50 metres going
   * away from zero), and the minutes are within 30 seconds of its duration (a
   * tie going up).  Only the first route is looked at.
   */
  lemma RouteDataRounding(route: OsrmRoute, rest: seq<OsrmRoute>)
    ensures GetRouteData(Some([route] + rest)).Some?
    ensures
      var m := GetRouteData(Some([route] + rest)).value;
      var t := m.distanceTenths as real;
      (route.distance >= 0.0 ==> t * 100.0 - 50.0 <= route.distance < t * 100.0 + 50.0) &&
      (route.distance < 0.0 ==> t * 100.0 - 50.0 < route.distance <= t * 100.0 + 50.0) &&
      m.durationMins as real * 60.0 - 30.0 <= route.duration < m.durationMins as real * 60.0 + 30.0
  {
    var m := GetRouteData(Some([route] + rest)).value;
    assert ([route] + rest)[0] == route;
    var x := route.distance / 1000.0;
    assert 10.0 * x * 100.0 == route.distance;
    var y := route.duration / 60.0;
    assert y * 60.0 == route.duration;
  }

  /** Whole kilometres and whole minutes pass through unchanged. */
  lemma ExactRoute(tenths: int, minutes: int)
    ensures GetRouteData(Some([OsrmRoute(tenths as real * 100.0, minutes as real * 60.0)]))
         == Some(RouteMetrics(tenths, minutes))
  {
    var d := tenths as real * 100.0 / 1000.0;
    assert d * 10.0 == tenths as real;
    var t := ToFixedTenths(d);
    if d >= 0.0 {
      assert t as real - 0.5 <= tenths as real < t as real + 0.5;
    } else {
      assert t as real - 0.5 < tenths as real <= t as real + 0.5;
    }
    var mins := Round(minutes as real * 60.0 / 60.0);
    assert minutes as real * 60.0 / 60.0 == minutes as real;
  }
}
