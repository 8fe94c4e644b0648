/** Loading and clearing the route: the routing control the page puts on the
    map, the two outcomes the routing service reports back, and the map click
    that asks for a route in today's mode. */
module Routing {
  import opened TrackerState
  import opened Animation

  /** `clearRoute`: the routing control leaves the map and no route is loaded.
      The animation is not touched: an animation that was running keeps its
      interval. */
  function ClearRoute(s: State): (t: State)
    ensures t.route.None? && t.routing.None?
    ensures t.(route := s.route, routing := s.routing) == s
    ensures Valid(s) ==> Valid(t)
  {
    s.(routing := None, route := None)
  }

  /** `displayRoute`: always clears the previous route first. Fewer than two
      waypoints are refused with the status "Route Error"; otherwise a routing
      control for the waypoints is put on the map, and the route itself only
      arrives with its "routesfound" event. The animation fields are left
      alone in both cases. */
  function DisplayRoute(s: State, waypoints: Route): (t: State)
    ensures t.route.None?
    ensures |waypoints| < 2 ==> t.routing.None? && t.status == "Route Error"
    ensures |waypoints| >= 2 ==> t.routing == Some(waypoints) && t.status == s.status
    ensures t.index == s.index && t.animating == s.animating && t.interval == s.interval
    ensures t.timers == s.timers && t.position == s.position && t.mode == s.mode
    ensures t.(route := s.route, routing := s.routing, status := s.status) == s
    ensures Valid(s) ==> Valid(t)
  {
    var cleared := ClearRoute(s);
    if |waypoints| < 2 then cleared.(status := "Route Error")
    else cleared.(routing := Some(waypoints))
  }

  /** The "routesfound" handler. With at least one route, the first one is
      loaded and the animation is reset: cursor 0, not animating, no interval,
      status "Ready", the marker on the route's first point when it has one.
      With none, no route is loaded and the status reads "No route found". */
  function RoutesFound(s: State, routes: seq<Route>): (t: State)
    ensures |routes| > 0 ==>
      && t.route == Some(routes[0]) && t.index == 0
      && !t.animating && t.interval.None? && t.status == "Ready"
      && t.position == (if |routes[0]| > 0 then routes[0][0] else s.position)
      && t.timers == s.timers - OptSet(s.interval)
      && t.(route := s.route, index := s.index, animating := s.animating, interval := s.interval,
            timers := s.timers, status := s.status, position := s.position) == s
    ensures |routes| == 0 ==> t == s.(route := None, status := "No route found")
    ensures Valid(s) ==> Valid(t)
  {
    if |routes| > 0 then Reset(s.(route := Some(routes[0]), index := 0))
    else s.(route := None, status := "No route found")
  }

  /** The "routingerror" handler: no route is loaded and the status reads
      "Routing Error". */
  function RoutingError(s: State): (t: State)
    ensures t == s.(route := None, status := "Routing Error")
    ensures Valid(s) ==> Valid(t)
  {
    s.(route := None, status := "Routing Error")
  }

  /** `handleMapClick`: outside today's mode a click changes nothing; in
      today's mode it asks for a route from the marker to the clicked point. */
  function MapClick(s: State, at: LatLng): (t: State)
    ensures s.mode != "today" ==> t == s
    ensures s.mode == "today" ==> t.routing == Some([s.position, at]) && t.route.None? && t.status == s.status
    ensures t.animating == s.animating && t.interval == s.interval && t.index == s.index
    ensures s.mode == "today" ==> t.(route := s.route, routing := s.routing) == s
    ensures Valid(s) ==> Valid(t)
  {
    if s.mode != "today" then s else DisplayRoute(s, [s.position, at])
  }

  /** A route that the routing service finds is loaded ready to animate from
      its first point; starting it then shows that point on the first tick. */
  lemma FoundRouteStartsAtFirstPoint(s: State, routes: seq<Route>)
    requires Valid(s) && |routes| > 0 && |routes[0]| > 0
    ensures var t := Start(RoutesFound(s, routes));
      t.animating && t.index == 0 && t.timers == {t.interval.value}
      && TickAsWritten(t).position == routes[0][0] && TickAsWritten(t).index == 1
  {
  }
}
