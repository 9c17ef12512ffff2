/** `get_distance(source, destination)`: geocode both places, look up a
    driving route between them, and convert the route's metres and seconds
    to kilometres and minutes. The two HTTP services are parameters: the
    geocoder's match list for each place, and a route lookup from the two
    coordinates to the routing service's answer. */
module Routing {

  /** A geocoded place, as (longitude, latitude). */
  datatype Coordinate = Coordinate(lon: real, lat: real)

  /** One route of the routing service: metres and seconds. */
  datatype Route = Route(distance: real, duration: real)

  /** The routing service's answer: its status code, if any, and its routes. */
  datatype RouteResponse = RouteResponse(code: Option<string>, routes: seq<Route>)

  datatype Option<T> = None | Some(value: T)

  /** The distance record `get_distance` returns. */
  datatype Leg = Leg(distanceKm: real, durationMin: real)

  /** The exceptions `get_distance` can raise. `NoRoute` is the index error
      of an "Ok" answer with an empty route list. */
  datatype DistanceError = GeocodingFailed(place: string) | RoutingFailed | NoRoute

  datatype Result<T> = Ok(value: T) | Err(error: DistanceError)

  /** Metres to kilometres and seconds to minutes. */
  function ToLeg(r: Route): (leg: Leg)
    ensures leg.distanceKm * 1000.0 == r.distance
    ensures leg.durationMin * 60.0 == r.duration
    ensures r.distance >= 0.0 ==> leg.distanceKm >= 0.0
    ensures r.duration >= 0.0 ==> leg.durationMin >= 0.0
  {
    Leg(r.distance / 1000.0, r.duration / 60.0)
  }

  /** `geocode_place`: the first match, or a failure for an empty answer. */
  function GeocodePlace(place: string, matches: seq<Coordinate>): (r: Result<Coordinate>)
    ensures r.Ok? <==> |matches| > 0
    ensures r.Ok? ==> r.value == matches[0]
    ensures r.Err? ==> r.error == GeocodingFailed(place)
  {
    if |matches| == 0 then Err(GeocodingFailed(place)) else Ok(matches[0])
  }

  /** `get_distance`: the source is geocoded first, then the destination,
      and the route is looked up only when both succeed. */
  function GetDistance(source: string, destination: string,
                       sourceMatches: seq<Coordinate>, destinationMatches: seq<Coordinate>,
                       lookup: (Coordinate, Coordinate) -> RouteResponse): (r: Result<Leg>)
    ensures r.Ok? <==>
      && |sourceMatches| > 0 && |destinationMatches| > 0
      && lookup(sourceMatches[0], destinationMatches[0]).code == Some("Ok")
      && |lookup(sourceMatches[0], destinationMatches[0]).routes| > 0
    ensures r.Ok? ==> r.value == ToLeg(lookup(sourceMatches[0], destinationMatches[0]).routes[0])
    ensures |sourceMatches| == 0 ==> r == Err(GeocodingFailed(source))
    ensures |sourceMatches| > 0 && |destinationMatches| == 0 ==> r == Err(GeocodingFailed(destination))
    ensures |sourceMatches| > 0 && |destinationMatches| > 0 ==>
      var response := lookup(sourceMatches[0], destinationMatches[0]);
      && (response.code != Some("Ok") ==> r == Err(RoutingFailed))
      && (response.code == Some("Ok") && |response.routes| == 0 ==> r == Err(NoRoute))
  {
    match GeocodePlace(source, sourceMatches)
    case Err(e) => Err(e)
    case Ok(src) =>
      match GeocodePlace(destination, destinationMatches)
      case Err(e) => Err(e)
      case Ok(dst) =>
        var response := lookup(src, dst);
        if response.code != Some("Ok") then Err(RoutingFailed)
        else if |response.routes| == 0 then Err(NoRoute)
        else Ok(ToLeg(response.routes[0]))
  }

  /** A successful result is a non-negative leg whenever the service reports
      non-negative metres and seconds, and converting it back recovers the
      service's route exactly. */
  lemma GetDistanceRecoversRoute(source: string, destination: string,
                                 sourceMatches: seq<Coordinate>, destinationMatches: seq<Coordinate>,
                                 lookup: (Coordinate, Coordinate) -> RouteResponse)
    requires GetDistance(source, destination, sourceMatches, destinationMatches, lookup).Ok?
    ensures var leg := GetDistance(source, destination, sourceMatches, destinationMatches, lookup).value;
            var route := lookup(sourceMatches[0], destinationMatches[0]).routes[0];
            && Route(leg.distanceKm * 1000.0, leg.durationMin * 60.0) == route
            && (route.distance >= 0.0 && route.duration >= 0.0 ==> leg.distanceKm >= 0.0 && leg.durationMin >= 0.0)
  {
  }
}
