/** `estimate_time_by_mode(distance_km, duration_min)`: minutes per mode from
    fixed average speeds, with a fixed airport overhead on flights only, each
    rounded to one decimal place. */
module Timing {
  import opened Modes
  import opened Rounding

  /** Average speeds in km/h. */
  const BusSpeed: real := 42.0
  const TrainSpeed: real := 70.0
  const FlightSpeed: real := 830.0

  /** Minutes added to every flight for getting to and through the airport. */
  const AirportOverhead: real := 50.0

  /** The times before rounding. Bus and train time is distance over speed;
      flight time is that plus the airport overhead. */
  function BaseTimes(d: real): (t: ModeTable<real>)
    ensures t.bus * BusSpeed == d * 60.0
    ensures t.train * TrainSpeed == d * 60.0
    ensures (t.flight - AirportOverhead) * FlightSpeed == d * 60.0
  {
    ModeTable(d / BusSpeed * 60.0, d / TrainSpeed * 60.0, d / FlightSpeed * 60.0 + AirportOverhead)
  }

  /** `estimate_time_by_mode`: the recorded road duration is accepted and
      ignored. */
  function EstimateTimeByMode(d: real, durationMin: real): (r: ModeTable<real>)
    ensures IsTenths(r.bus) && IsTenths(r.train) && IsTenths(r.flight)
    ensures BaseTimes(d).bus - 0.05 <= r.bus <= BaseTimes(d).bus + 0.05
    ensures BaseTimes(d).train - 0.05 <= r.train <= BaseTimes(d).train + 0.05
    ensures BaseTimes(d).flight - 0.05 <= r.flight <= BaseTimes(d).flight + 0.05
    ensures NearestHalfEven(BaseTimes(d).bus * 10.0, (r.bus * 10.0).Floor)
    ensures NearestHalfEven(BaseTimes(d).train * 10.0, (r.train * 10.0).Floor)
    ensures NearestHalfEven(BaseTimes(d).flight * 10.0, (r.flight * 10.0).Floor)
  {
    var t := BaseTimes(d);
    ModeTable(RoundTenths(t.bus), RoundTenths(t.train), RoundTenths(t.flight))
  }

  /** The result depends on the distance alone. */
  lemma DurationIgnored(d: real, m1: real, m2: real)
    ensures EstimateTimeByMode(d, m1) == EstimateTimeByMode(d, m2)
  {
  }

  /** Only the flight time carries the overhead: at zero distance bus and
      train take no time and a flight takes the 50-minute overhead. */
  lemma EstimateTimeAtZero(m: real)
    ensures EstimateTimeByMode(0.0, m) == ModeTable(0.0, 0.0, 50.0)
  {
    RoundHalfEvenOfInteger(0);
    RoundHalfEvenOfInteger(500);
  }

  /** Every flight takes at least the overhead, before and after rounding. */
  lemma FlightTimeAtLeastOverhead(d: real, m: real)
    requires d >= 0.0
    ensures BaseTimes(d).flight >= AirportOverhead
    ensures EstimateTimeByMode(d, m).flight >= AirportOverhead
  {
    RoundTenthsAtLeast(BaseTimes(d).flight, 500);
  }

  /** The train is faster than the bus, so for a non-negative distance its
      time is never longer, and strictly shorter for a positive distance. */
  lemma TrainNotSlowerThanBus(d: real, m: real)
    requires d >= 0.0
    ensures BaseTimes(d).train <= BaseTimes(d).bus
    ensures d > 0.0 ==> BaseTimes(d).train < BaseTimes(d).bus
    ensures EstimateTimeByMode(d, m).train <= EstimateTimeByMode(d, m).bus
  {
    RoundTenthsMonotone(BaseTimes(d).train, BaseTimes(d).bus);
  }

  /** A longer trip never takes less time by any mode. */
  lemma EstimateTimeNonDecreasing(d1: real, d2: real, m1: real, m2: real)
    requires d1 <= d2
    ensures EstimateTimeByMode(d1, m1).bus <= EstimateTimeByMode(d2, m2).bus
    ensures EstimateTimeByMode(d1, m1).train <= EstimateTimeByMode(d2, m2).train
    ensures EstimateTimeByMode(d1, m1).flight <= EstimateTimeByMode(d2, m2).flight
  {
    RoundTenthsMonotone(BaseTimes(d1).bus, BaseTimes(d2).bus);
    RoundTenthsMonotone(BaseTimes(d1).train, BaseTimes(d2).train);
    RoundTenthsMonotone(BaseTimes(d1).flight, BaseTimes(d2).flight);
  }

  /** An exact half tenth rounds to the even tenth: 0.035 km by bus takes
      exactly 0.05 minutes and is reported as 0.0. */
  lemma EstimateTimeTiesToEven(m: real)
    ensures EstimateTimeByMode(0.035, m).bus == 0.0
  {
    assert BaseTimes(0.035).bus * 10.0 == 0.5;
    NearestHalfEvenUnique(0.5, 0);
  }
}
