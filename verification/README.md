# Travel cost and time estimators

A Dafny model of the deterministic core of the TravelAgent travel assistant,
which lives in `tools.py`:

- `estimate_cost(distance_km)` prices a trip by bus, train and flight. Bus and
  train use a per-km rate picked from three distance brackets whose upper
  bounds are inclusive (400 km and 800 km). A flight picks a per-km rate and a
  minimum fare from three brackets (600 km and 1200 km) and charges the larger
  of the fare and the distance charge. Every price is rounded to a whole number.
- `estimate_time_by_mode(distance_km, duration_min)` turns a distance into
  minutes per mode. It uses average speeds of 42 km/h (bus), 70 km/h (train)
  and 830 km/h (flight), and adds a 50-minute airport overhead to flights
  only. Each time is rounded to one decimal place. `duration_min` is accepted
  and never used.
- `get_distance(source, destination)` geocodes both places, asks a routing
  service for a driving route, and converts metres to km and seconds to
  minutes.

Modules:

- `Modes` (`modes.dfy`): the bus/train/flight record the estimators return.
- `Rounding` (`rounding.dfy`): Python's `round(x, 0)` and `round(x, 1)`.
  Both round half to even and are idealised over the reals.
- `Tiers` (`tiers.dfy`): distance brackets, written as a first-match list of
  inclusive upper limits. This is the shape of the source's
  `if d <= a / elif d <= b / else` chains.
- `Pricing` (`pricing.dfy`): `estimate_cost`.
- `Timing` (`timing.dfy`): `estimate_time_by_mode`.
- `Routing` (`routing.dfy`): `geocode_place` and `get_distance`, with the HTTP
  services as parameters. Each geocoder answer is a list of matches. The
  routing service is a function from the two coordinates to its response.

All arithmetic is over `real`. Prices and times are first stated and proved
before rounding (`BusCost`, `TrainCost`, `FlightCost`, `BaseTimes`).
Separate lemmas then carry each property through the rounding, which is
monotone.

`mcp_server.py` (lines 33-39) calls `estimate_cost` with a start date, a trip
type, a source and a destination. It also imports a `search_with_serper`
function (line 8). The `estimate_cost` in `tools.py` takes only the distance,
and `tools.py` defines no search function. This model follows `tools.py`.

## Model

| member | source | states |
|---|---|---|
| Rounding.RoundHalfEven | tools.py:128-130 | the result is within 1/2 of the value, and on an exact tie it is the even neighbour |
| Rounding.NearestHalfEvenUnique | tools.py:128-130 | any integer that is nearest with ties to even is the result of rounding, so the rounding is uniquely determined |
| Rounding.RoundHalfEvenMonotone | tools.py:128-130 | rounding to a whole number preserves order |
| Rounding.RoundHalfEvenOfInteger | tools.py:128-130 | rounding leaves a whole number unchanged |
| Rounding.RoundHalfEvenAtLeast | tools.py:128-130 | a value at or above a whole number k rounds to at least k |
| Rounding.RoundTenths | tools.py:82-84 | the result is a whole number of tenths, is nearest to the value (ties to the even tenth), and lies within 0.05 of it |
| Rounding.RoundTenthsMonotone | tools.py:82-84 | rounding to tenths preserves order |
| Rounding.RoundTenthsAtLeast | tools.py:82-84 | a value at or above k tenths rounds to at least k tenths |
| Tiers.BracketOf | tools.py:96-101 | the chosen bracket is the first whose inclusive upper limit reaches the distance; every earlier limit is below it |
| Tiers.BracketOfMonotone | tools.py:96-101 | a longer distance never falls in an earlier bracket |
| Tiers.BracketInterval | tools.py:96-101 | with ascending limits, bracket i is exactly the interval (limit i-1, limit i], in both directions |
| Pricing.BusRate | tools.py:96-101 | bus rate is 2.8 up to 400 km, 2.4 above 400 and up to 800 km, and 2.1 beyond 800 km |
| Pricing.TrainRate | tools.py:105-110 | train rate is 1.6 up to 400 km, 1.4 above 400 and up to 800 km, and 1.8 beyond 800 km |
| Pricing.FlightTariffFor | tools.py:115-123 | flight (rate, minimum fare) is (6, 2500) up to 600 km, (5.2, 3500) up to 1200 km, and (4.8, 4500) beyond |
| Pricing.BusCost | tools.py:96-102 | the unrounded bus price is 2.8·d up to 400 km, 2.4·d above 400 and up to 800 km, and 2.1·d beyond; so for a non-negative distance it lies between 2.1 and 2.8 per km |
| Pricing.TrainCost | tools.py:105-112 | the unrounded train price is 1.6·d up to 400 km, 1.4·d above 400 and up to 800 km, and 1.8·d beyond; so for a non-negative distance it lies between 1.4 and 1.8 per km |
| Pricing.FlightCost | tools.py:115-125 | the unrounded flight price is at least the bracket's minimum fare and at least the distance charge, and equals one of them |
| Pricing.EstimateCost | tools.py:91-131 | each price is the integer nearest its unrounded price, with an exact half going to the even neighbour; flight is at least 2500; all prices are non-negative for a non-negative distance |
| Pricing.FlightCostAtLeastMinimumFare | tools.py:115-125 | the unrounded flight cost is at least 2500 for every distance |
| Pricing.CostsNonNegative | tools.py:96-125 | all unrounded costs are non-negative for a non-negative distance |
| Pricing.RoadRailBracketIndex | tools.py:96-110 | with limits 400 and 800 the bracket index is 0 up to 400, 1 up to 800, and 2 beyond |
| Pricing.FlightBracketIndex | tools.py:115-123 | the flight bracket index is 0 up to 600, 1 up to 1200, and 2 beyond |
| Pricing.BusBrackets | tools.py:96-110 | two distances share a bus bracket iff both lie in the same one of (-inf,400], (400,800], (800,inf); the train brackets coincide with the bus brackets |
| Pricing.FlightBrackets | tools.py:115-123 | two distances share a flight bracket iff both lie in the same one of (-inf,600], (600,1200], (1200,inf) |
| Pricing.BusCostIncreasingWithinBracket | tools.py:96-102 | within one bus bracket a longer distance costs strictly more |
| Pricing.TrainCostIncreasingWithinBracket | tools.py:105-112 | within one train bracket a longer distance costs strictly more |
| Pricing.FlightCostNonDecreasingWithinBracket | tools.py:115-125 | within one flight bracket a longer distance never costs less |
| Pricing.EstimateCostNonDecreasingWithinBracket | tools.py:96-131 | within a bracket the rounded prices never decrease with distance |
| Pricing.BusCostFallsAcrossBracket | tools.py:96-102 | bus cost is 1120 at 400 km and 962 at 401 km, so it is not monotone across brackets |
| Pricing.EstimateCostAtZero | tools.py:91-131 | a zero distance costs 0 by bus and train and the 2500 minimum fare by flight |
| Pricing.EstimateCostAtBoundaries | tools.py:91-131 | prices at 400, 600, 800 and 1200 km, each boundary priced in its lower bracket |
| Pricing.EstimateCostTiesToEven | tools.py:128-130 | an exact half rounds to the even neighbour: 1.25 km by bus (3.5) is priced 4 and 1.5625 km by train (2.5) is priced 2 |
| Pricing.EstimateCostAt500 | tools.py:91-131 | a 500 km trip costs 1200 by bus, 700 by train and 3000 by flight |
| Timing.BaseTimes | tools.py:71-79 | time times speed gives distance times 60 for bus and train; for flight this holds once the 50-minute overhead is removed |
| Timing.EstimateTimeByMode | tools.py:65-85 | each time is the whole number of tenths nearest the unrounded time, with an exact half tenth going to the even tenth, so within 0.05 of it |
| Timing.EstimateTimeTiesToEven | tools.py:82 | 0.035 km by bus takes exactly 0.05 minutes and is reported as 0.0, the even tenth |
| Timing.DurationIgnored | tools.py:65-85 | the result is the same for any two durations at the same distance |
| Timing.EstimateTimeAtZero | tools.py:75-84 | at zero distance bus and train take 0 minutes and a flight takes the 50-minute overhead |
| Timing.FlightTimeAtLeastOverhead | tools.py:75-84 | for a non-negative distance a flight takes at least 50 minutes, before and after rounding |
| Timing.TrainNotSlowerThanBus | tools.py:71-84 | for a non-negative distance train time is at most bus time, and strictly less for a positive distance |
| Timing.EstimateTimeNonDecreasing | tools.py:77-84 | a longer distance never takes less time by any mode |
| Routing.ToLeg | tools.py:58-61 | km times 1000 gives the metres and minutes times 60 gives the seconds; both are non-negative for non-negative inputs |
| Routing.GeocodePlace | tools.py:23-31 | success iff the geocoder returned a match, and the result is then the first match; otherwise it fails naming the place |
| Routing.GetDistance | tools.py:37-61 | success iff both places geocode and the service answers "Ok" with a route; the value is the first route converted; otherwise the error names the first failing step |
| Routing.GetDistanceRecoversRoute | tools.py:56-61 | a successful result converts back exactly to the service's first route and is non-negative when the route is |

## Left out

- HTTP calls to the geocoder and the routing service. The match lists and the route lookup are parameters. The request URL, headers and JSON decoding are not modelled.
- Routing.GeocodePlace: `float()` parsing of the returned coordinates is not modelled. A match is already a pair of reals.
- Routing.GetDistance: a response without a `routes` key is not distinguished from an empty route list. Both are `NoRoute`.
- Binary floating point. The rates (2.8, 2.4, …) are not exact in binary, so results can differ from this model in the last bits. `round(x, 1)` is modelled as half-to-even on the exact value times ten. Python rounds the binary value itself, so a decimal tie may round differently.
- Agent orchestration, the MCP tool registration, the web UI and secret lookup. These are glue around a hosted language model, not part of the estimators.
- The richer `estimate_cost(distance_km, start_date, trip_type=…, source=…, destination=…)` and `search_with_serper` that `mcp_server.py` expects. Neither is defined in `tools.py`.
