/**
 * The price logic and the shape of a successful answer: a bus option
 * ("lowest_cost") and a cab option ("fastest"), computed from the route's
 * distance and duration with fixed constants.
 */
module Pricing {
  import opened Wrappers
  import opened Text
  import opened Routing

  datatype Step = Step(icon: string, text: string, sub: string, time: string, isBooking: Option<bool>)

  /** One entry of `routes` in the answer; `kind` is the JSON field `type` and `labelText` the field `label`. */
  datatype CommuteOption = CommuteOption(kind: string, labelText: string, cost: string, duration: string, steps: seq<Step>)

  /** `dist`: the value `parseFloat` reads from the one-decimal distance text. */
  function Km(m: RouteMetrics): (km: real)
    ensures km * 10.0 == m.distanceTenths as real
  {
    m.distanceTenths as real / 10.0
  }

  /** `Math.floor(10 + dist * 2)`. */
  function BusCost(m: RouteMetrics): (c: int)
    ensures c as real <= 10.0 + Km(m) * 2.0 < c as real + 1.0
  {
    (10.0 + Km(m) * 2.0).Floor
  }

  /** `Math.floor(40 + dist * 12)`. */
  function CabCost(m: RouteMetrics): (c: int)
    ensures c as real <= 40.0 + Km(m) * 12.0 < c as real + 1.0
  {
    (40.0 + Km(m) * 12.0).Floor
  }

  /** `busTime`: the driving minutes plus a fixed 20 minutes of walking and waiting. */
  function BusMinutes(m: RouteMetrics): (minutes: int)
    ensures minutes > m.durationMins
  {
    m.durationMins + 20
  }

  const Rupee := "₹"

  /** The "lowest_cost" option: walk to the stop, then the bus. */
  function BusOption(m: RouteMetrics): (o: CommuteOption)
    ensures o.kind == "lowest_cost" && |o.steps| == 2
    ensures forall j :: 0 <= j < |o.steps| ==> o.steps[j].isBooking.None?
  {
    var busTime := BusMinutes(m);
    CommuteOption("lowest_cost", "Lowest Cost", Rupee + IntToString(BusCost(m)), IntToString(busTime) + " mins",
      [ Step("walk", "Walk to Stop", "5 mins", "5m", None),
        Step("bus", "Public Bus", "Direct", IntToString(busTime - 10) + "m", None) ])
  }

  /** The "fastest" option: one cab ride to book. */
  function CabOption(m: RouteMetrics): (o: CommuteOption)
    ensures o.kind == "fastest" && |o.steps| == 1 && o.steps[0].isBooking == Some(true)
  {
    var time := m.durationMins;
    CommuteOption("fastest", "Fastest", Rupee + IntToString(CabCost(m)), IntToString(time) + " mins",
      [ Step("taxi", "Uber / Ola", TenthsToString(m.distanceTenths) + " km", IntToString(time) + "m", Some(true)) ])
  }

  /** The `routes` list of a successful answer. */
  function Options(m: RouteMetrics): (opts: seq<CommuteOption>)
    ensures |opts| == 2 && opts[0].kind == "lowest_cost" && opts[1].kind == "fastest"
  {
    [BusOption(m), CabOption(m)]
  }

  lemma FloorIs(x: real, q: int)
    requires q as real <= x < q as real + 1.0
    ensures x.Floor == q
  {
  }

  /** In whole numbers: the bus fare is `(100 + 2 * tenths) div 10`. */
  lemma BusCostExact(m: RouteMetrics)
    ensures BusCost(m) == (100 + 2 * m.distanceTenths) / 10
  {
    var n := 100 + 2 * m.distanceTenths;
    var q := n / 10;
    assert 10 * q <= n < 10 * q + 10;
    assert 10.0 + Km(m) * 2.0 == n as real / 10.0;
    FloorIs(n as real / 10.0, q);
  }

  /** In whole numbers: the cab fare is `(400 + 12 * tenths) div 10`. */
  lemma CabCostExact(m: RouteMetrics)
    ensures CabCost(m) == (400 + 12 * m.distanceTenths) / 10
  {
    var n := 400 + 12 * m.distanceTenths;
    var q := n / 10;
    assert 10 * q <= n < 10 * q + 10;
    assert 40.0 + Km(m) * 12.0 == n as real / 10.0;
    FloorIs(n as real / 10.0, q);
  }

  /**
   * "Bus: Cheap", "Cab: Expensive": for any distance that is not negative the
   * cab costs at least 3 more than the bus.
   */
  lemma CabCostsMore(m: RouteMetrics)
    ensures m.distanceTenths >= 0 ==> CabCost(m) >= BusCost(m) + 3
  {
    BusCostExact(m);
    CabCostExact(m);
  }

  /** Both fares grow with the distance. */
  lemma CostsMonotonic(m1: RouteMetrics, m2: RouteMetrics)
    requires m1.distanceTenths <= m2.distanceTenths
    ensures BusCost(m1) <= BusCost(m2) && CabCost(m1) <= CabCost(m2)
  {
    BusCostExact(m1);
    BusCostExact(m2);
    CabCostExact(m1);
    CabCostExact(m2);
  }

  /**
   * Exactly two options, bus first and cab second, with two steps (walk, bus)
   * and one step (taxi) respectively, and only the taxi step is a booking.
   */
  lemma OptionsShape(m: RouteMetrics)
    ensures var opts := Options(m);
      && |opts| == 2
      && opts[0].kind == "lowest_cost" && opts[0].labelText == "Lowest Cost"
      && opts[1].kind == "fastest" && opts[1].labelText == "Fastest"
      && |opts[0].steps| == 2 && |opts[1].steps| == 1
      && opts[0].steps[0].icon == "walk" && opts[0].steps[1].icon == "bus"
      && opts[1].steps[0].icon == "taxi"
      && forall i, j :: 0 <= i < |opts| && 0 <= j < |opts[i].steps| ==>
           (opts[i].steps[j].isBooking == Some(true) <==> i == 1 && j == 0)
  {
  }

  /** The fares the answer shows are the floors of the two price formulas. */
  lemma ShownCosts(m: RouteMetrics)
    ensures ShownInt(BusOption(m).cost, Rupee, "") == Some(BusCost(m))
    ensures ShownInt(CabOption(m).cost, Rupee, "") == Some(CabCost(m))
  {
    ShownIntOf(Rupee, BusCost(m), "");
    assert Rupee + IntToString(BusCost(m)) + "" == BusOption(m).cost;
    ShownIntOf(Rupee, CabCost(m), "");
    assert Rupee + IntToString(CabCost(m)) + "" == CabOption(m).cost;
  }

  /**
   * The bus option takes the driving minutes plus 20 and its bus leg that
   * total minus 10, the driving minutes plus 10.
   */
  lemma ShownBusTimes(m: RouteMetrics)
    ensures ShownInt(BusOption(m).duration, "", " mins") == Some(m.durationMins + 20)
    ensures ShownInt(BusOption(m).steps[1].time, "", "m") == Some(m.durationMins + 10)
  {
    var bus := BusOption(m);
    ShownIntOf("", m.durationMins + 20, " mins");
    assert "" + IntToString(m.durationMins + 20) + " mins" == bus.duration;
    ShownIntOf("", m.durationMins + 10, "m");
    assert "" + IntToString(m.durationMins + 10) + "m" == bus.steps[1].time;
  }

  /** The cab option and its taxi leg take the driving minutes unchanged. */
  lemma ShownCabTimes(m: RouteMetrics)
    ensures ShownInt(CabOption(m).duration, "", " mins") == Some(m.durationMins)
    ensures ShownInt(CabOption(m).steps[0].time, "", "m") == Some(m.durationMins)
  {
    var cab := CabOption(m);
    ShownIntOf("", m.durationMins, " mins");
    assert "" + IntToString(m.durationMins) + " mins" == cab.duration;
    ShownIntOf("", m.durationMins, "m");
    assert "" + IntToString(m.durationMins) + "m" == cab.steps[0].time;
  }

  /** The taxi leg shows the route's distance in kilometres. */
  lemma ShownTaxiDistance(m: RouteMetrics)
    ensures ShownTenths(CabOption(m).steps[0].sub, "", " km") == Some(m.distanceTenths)
  {
    var taxi := CabOption(m).steps[0];
    ShownTenthsOf("", m.distanceTenths, " km");
    assert "" + TenthsToString(m.distanceTenths) + " km" == taxi.sub;
  }

  /** Different fares are shown as different texts, so the shown cost determines the fare. */
  lemma ShownCostDeterminesFare(m1: RouteMetrics, m2: RouteMetrics)
    ensures BusOption(m1).cost == BusOption(m2).cost <==> BusCost(m1) == BusCost(m2)
    ensures CabOption(m1).cost == CabOption(m2).cost <==> CabCost(m1) == CabCost(m2)
  {
    ShownCosts(m1);
    ShownCosts(m2);
  }
}
