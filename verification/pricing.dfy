/** `estimate_cost(distance_km)`: tiered per-kilometre pricing for bus and
    train, and a per-kilometre rate with a minimum fare for flights, each
    rounded to a whole number of rupees. */
module Pricing {
  import opened Modes
  import opened Tiers
  import opened Rounding

  /** Bus rate per km: up to 400 km, up to 800 km, beyond. */
  const BusRates: Schedule<real> := Schedule([Tier(400.0, 2.8), Tier(800.0, 2.4)], 2.1)

  /** Train rate per km; long routes use dearer AC classes. */
  const TrainRates: Schedule<real> := Schedule([Tier(400.0, 1.6), Tier(800.0, 1.4)], 1.8)

  /** A flight bracket's per-km rate and the minimum fare charged in it. */
  datatype FlightTariff = FlightTariff(rate: real, baseFare: real)

  /** Flight tariffs: up to 600 km, up to 1200 km, beyond. */
  const FlightTariffs: Schedule<FlightTariff> :=
    Schedule([Tier(600.0, FlightTariff(6.0, 2500.0)), Tier(1200.0, FlightTariff(5.2, 3500.0))],
             FlightTariff(4.8, 4500.0))

  function BusRate(d: real): (rate: real)
    ensures d <= 400.0 ==> rate == 2.8
    ensures 400.0 < d <= 800.0 ==> rate == 2.4
    ensures 800.0 < d ==> rate == 2.1
  {
    Select(BusRates, d)
  }

  function TrainRate(d: real): (rate: real)
    ensures d <= 400.0 ==> rate == 1.6
    ensures 400.0 < d <= 800.0 ==> rate == 1.4
    ensures 800.0 < d ==> rate == 1.8
  {
    Select(TrainRates, d)
  }

  function FlightTariffFor(d: real): (t: FlightTariff)
    ensures d <= 600.0 ==> t == FlightTariff(6.0, 2500.0)
    ensures 600.0 < d <= 1200.0 ==> t == FlightTariff(5.2, 3500.0)
    ensures 1200.0 < d ==> t == FlightTariff(4.8, 4500.0)
  {
    Select(FlightTariffs, d)
  }

  function Max(a: real, b: real): (m: real)
    ensures m >= a && m >= b
    ensures m == a || m == b
  {
    if a >= b then a else b
  }

  /** The bus price before rounding: distance times the bracket's rate, so
      for a non-negative distance between 2.1 and 2.8 per km. */
  function BusCost(d: real): (c: real)
    ensures d <= 400.0 ==> c == 2.8 * d
    ensures 400.0 < d <= 800.0 ==> c == 2.4 * d
    ensures 800.0 < d ==> c == 2.1 * d
    ensures d >= 0.0 ==> 2.1 * d <= c <= 2.8 * d
  {
    ChargeBetween(d, BusRate(d), 2.1, 2.8);
    d * BusRate(d)
  }

  /** The train price before rounding: distance times the bracket's rate, so
      for a non-negative distance between 1.4 and 1.8 per km. */
  function TrainCost(d: real): (c: real)
    ensures d <= 400.0 ==> c == 1.6 * d
    ensures 400.0 < d <= 800.0 ==> c == 1.4 * d
    ensures 800.0 < d ==> c == 1.8 * d
    ensures d >= 0.0 ==> 1.4 * d <= c <= 1.8 * d
  {
    ChargeBetween(d, TrainRate(d), 1.4, 1.8);
    d * TrainRate(d)
  }

  /** The flight price before rounding: the larger of the bracket's minimum
      fare and the distance charge. */
  function FlightCost(d: real): (c: real)
    ensures c >= FlightTariffFor(d).baseFare
    ensures c >= d * FlightTariffFor(d).rate
    ensures c == FlightTariffFor(d).baseFare || c == d * FlightTariffFor(d).rate
  {
    var t := FlightTariffFor(d);
    Max(t.baseFare, d * t.rate)
  }

  /** A non-negative distance charged at a rate between `lo` and `hi` costs
      between `lo` and `hi` per km. */
  lemma ChargeBetween(d: real, rate: real, lo: real, hi: real)
    requires lo <= rate <= hi
    ensures d >= 0.0 ==> lo * d <= d * rate <= hi * d
  {
    if d >= 0.0 {
      assert d * rate - lo * d == d * (rate - lo);
      assert hi * d - d * rate == d * (hi - rate);
    }
  }

  /** `estimate_cost(distance_km)`: each price rounded half-to-even to a
      whole number. */
  function EstimateCost(d: real): (r: ModeTable<int>)
    ensures r.flight >= 2500
    ensures d >= 0.0 ==> r.bus >= 0 && r.train >= 0 && r.flight >= 0
    ensures NearestHalfEven(BusCost(d), r.bus)
    ensures NearestHalfEven(TrainCost(d), r.train)
    ensures NearestHalfEven(FlightCost(d), r.flight)
  {
    RoundHalfEvenAtLeast(FlightCost(d), 2500);
    ModeTable(RoundHalfEven(BusCost(d)), RoundHalfEven(TrainCost(d)), RoundHalfEven(FlightCost(d)))
  }

  /** Every flight costs at least the lowest minimum fare, 2500. */
  lemma FlightCostAtLeastMinimumFare(d: real)
    ensures FlightCost(d) >= 2500.0
  {
  }

  /** Bus and train prices are never negative for a non-negative distance. */
  lemma CostsNonNegative(d: real)
    requires d >= 0.0
    ensures BusCost(d) >= 0.0 && TrainCost(d) >= 0.0 && FlightCost(d) >= 0.0
  {
  }

  /** The bus and train brackets are (-inf, 400], (400, 800] and (800, inf). */
  lemma RoadRailBracketIndex(tiers: seq<Tier<real>>, d: real)
    requires |tiers| == 2 && tiers[0].limit == 400.0 && tiers[1].limit == 800.0
    ensures BracketOf(tiers, d) == (if d <= 400.0 then 0 else if d <= 800.0 then 1 else 2)
  {
    var i := if d <= 400.0 then 0 else if d <= 800.0 then 1 else 2;
    BracketInterval(tiers, d, i);
  }

  /** The flight brackets are (-inf, 600], (600, 1200] and (1200, inf). */
  lemma FlightBracketIndex(d: real)
    ensures BracketOf(FlightTariffs.tiers, d) == (if d <= 600.0 then 0 else if d <= 1200.0 then 1 else 2)
  {
    var i := if d <= 600.0 then 0 else if d <= 1200.0 then 1 else 2;
    BracketInterval(FlightTariffs.tiers, d, i);
  }

  /** Two distances share a bus bracket exactly when they lie in the same one
      of the three intervals; the boundaries 400 and 800 belong to the lower
      bracket. The train brackets are the same intervals. */
  lemma BusBrackets(d1: real, d2: real)
    ensures SameBracket(BusRates, d1, d2) <==>
      || (d1 <= 400.0 && d2 <= 400.0)
      || (400.0 < d1 <= 800.0 && 400.0 < d2 <= 800.0)
      || (800.0 < d1 && 800.0 < d2)
    ensures SameBracket(TrainRates, d1, d2) <==> SameBracket(BusRates, d1, d2)
  {
    RoadRailBracketIndex(BusRates.tiers, d1);
    RoadRailBracketIndex(BusRates.tiers, d2);
    RoadRailBracketIndex(TrainRates.tiers, d1);
    RoadRailBracketIndex(TrainRates.tiers, d2);
  }

  /** Two distances share a flight bracket exactly when they lie in the same
      one of its three intervals; 600 and 1200 belong to the lower bracket. */
  lemma FlightBrackets(d1: real, d2: real)
    ensures SameBracket(FlightTariffs, d1, d2) <==>
      || (d1 <= 600.0 && d2 <= 600.0)
      || (600.0 < d1 <= 1200.0 && 600.0 < d2 <= 1200.0)
      || (1200.0 < d1 && 1200.0 < d2)
  {
    FlightBracketIndex(d1);
    FlightBracketIndex(d2);
  }

  /** Within one bus bracket a longer trip is strictly dearer. */
  lemma BusCostIncreasingWithinBracket(d1: real, d2: real)
    requires SameBracket(BusRates, d1, d2)
    requires d1 < d2
    ensures BusCost(d1) < BusCost(d2)
  {
    BusBrackets(d1, d2);
    if d2 <= 400.0 {
      assert BusCost(d1) == d1 * 2.8 && BusCost(d2) == d2 * 2.8;
    } else if d2 <= 800.0 {
      assert BusCost(d1) == d1 * 2.4 && BusCost(d2) == d2 * 2.4;
    } else {
      assert BusCost(d1) == d1 * 2.1 && BusCost(d2) == d2 * 2.1;
    }
  }

  /** Within one train bracket a longer trip is strictly dearer. */
  lemma TrainCostIncreasingWithinBracket(d1: real, d2: real)
    requires SameBracket(TrainRates, d1, d2)
    requires d1 < d2
    ensures TrainCost(d1) < TrainCost(d2)
  {
    BusBrackets(d1, d2);
    if d2 <= 400.0 {
      assert TrainCost(d1) == d1 * 1.6 && TrainCost(d2) == d2 * 1.6;
    } else if d2 <= 800.0 {
      assert TrainCost(d1) == d1 * 1.4 && TrainCost(d2) == d2 * 1.4;
    } else {
      assert TrainCost(d1) == d1 * 1.8 && TrainCost(d2) == d2 * 1.8;
    }
  }

  /** Within one flight bracket a longer trip never costs less; it can cost
      the same while the minimum fare applies. */
  lemma FlightCostNonDecreasingWithinBracket(d1: real, d2: real)
    requires SameBracket(FlightTariffs, d1, d2)
    requires d1 <= d2
    ensures FlightCost(d1) <= FlightCost(d2)
  {
    FlightBrackets(d1, d2);
    if d2 <= 600.0 {
      assert d1 * 6.0 <= d2 * 6.0;
    } else if d2 <= 1200.0 {
      assert d1 * 5.2 <= d2 * 5.2;
    } else {
      assert d1 * 4.8 <= d2 * 4.8;
    }
  }

  /** Within a bracket, the rounded prices never decrease with distance. */
  lemma EstimateCostNonDecreasingWithinBracket(d1: real, d2: real)
    requires d1 <= d2
    ensures SameBracket(BusRates, d1, d2) ==> EstimateCost(d1).bus <= EstimateCost(d2).bus
    ensures SameBracket(TrainRates, d1, d2) ==> EstimateCost(d1).train <= EstimateCost(d2).train
    ensures SameBracket(FlightTariffs, d1, d2) ==> EstimateCost(d1).flight <= EstimateCost(d2).flight
  {
    if SameBracket(BusRates, d1, d2) {
      if d1 < d2 {
        BusCostIncreasingWithinBracket(d1, d2);
      }
      RoundHalfEvenMonotone(BusCost(d1), BusCost(d2));
    }
    if SameBracket(TrainRates, d1, d2) {
      if d1 < d2 {
        TrainCostIncreasingWithinBracket(d1, d2);
      }
      RoundHalfEvenMonotone(TrainCost(d1), TrainCost(d2));
    }
    if SameBracket(FlightTariffs, d1, d2) {
      FlightCostNonDecreasingWithinBracket(d1, d2);
      RoundHalfEvenMonotone(FlightCost(d1), FlightCost(d2));
    }
  }

  /** Across the 400 km boundary the bus price falls: 1120 at 400 km, 962 at
      401 km. Monotonicity holds only within a bracket. */
  lemma BusCostFallsAcrossBracket()
    ensures BusCost(400.0) > BusCost(401.0)
    ensures EstimateCost(400.0).bus == 1120 && EstimateCost(401.0).bus == 962
  {
    assert BusCost(400.0) == 1120.0;
    RoundHalfEvenOfInteger(1120);
    assert BusCost(401.0) == 962.4;
    NearestHalfEvenUnique(962.4, 962);
  }

  /** A zero distance still pays the lowest minimum flight fare. */
  lemma EstimateCostAtZero()
    ensures EstimateCost(0.0) == ModeTable(0, 0, 2500)
  {
    RoundHalfEvenOfInteger(0);
    RoundHalfEvenOfInteger(2500);
  }

  /** The prices at the bracket boundaries, each in its lower bracket. */
  lemma EstimateCostAtBoundaries()
    ensures EstimateCost(400.0) == ModeTable(1120, 640, 2500)
    ensures EstimateCost(600.0) == ModeTable(1440, 840, 3600)
    ensures EstimateCost(800.0) == ModeTable(1920, 1120, 4160)
    ensures EstimateCost(1200.0) == ModeTable(2520, 2160, 6240)
  {
    RoundHalfEvenOfInteger(1120);
    RoundHalfEvenOfInteger(640);
    RoundHalfEvenOfInteger(2500);
    RoundHalfEvenOfInteger(1440);
    RoundHalfEvenOfInteger(840);
    RoundHalfEvenOfInteger(3600);
    RoundHalfEvenOfInteger(1920);
    RoundHalfEvenOfInteger(4160);
    RoundHalfEvenOfInteger(2520);
    RoundHalfEvenOfInteger(2160);
    RoundHalfEvenOfInteger(6240);
  }

  /** A 500 km trip: 2.4/km by bus, 1.4/km by train, and 6/km by air since
      500 km is still in the first flight bracket. */
  lemma EstimateCostAt500()
    ensures EstimateCost(500.0) == ModeTable(1200, 700, 3000)
  {
    RoundHalfEvenOfInteger(1200);
    RoundHalfEvenOfInteger(700);
    RoundHalfEvenOfInteger(3000);
  }

  /** An exact half rounds to the even neighbour, up or down: 1.25 km by bus
      costs exactly 3.5 and is priced 4; 1.5625 km by train costs exactly 2.5
      and is priced 2. */
  lemma EstimateCostTiesToEven()
    ensures EstimateCost(1.25).bus == 4
    ensures EstimateCost(1.5625).train == 2
  {
    assert BusCost(1.25) == 3.5;
    NearestHalfEvenUnique(3.5, 4);
    assert TrainCost(1.5625) == 2.5;
    NearestHalfEvenUnique(2.5, 2);
  }
}
