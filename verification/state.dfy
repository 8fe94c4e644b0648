/** The values the tracker page keeps in its module-level variables, as one
    record, and the invariant that every reachable record satisfies.

    Coordinates are opaque to the core: nothing here computes with them, so a
    `LatLng` is just a pair of reals. The browser's bookkeeping that the page
    relies on (the intervals it has installed, the geolocation watches it has
    registered, and the handle numbers they were given) is part of the record,
    so that "no interval is leaked" can be stated. */
module TrackerState {

  datatype Option<T> = None | Some(value: T)

  /** A point on the map (Leaflet's `L.LatLng`). */
  datatype LatLng = LatLng(lat: real, lng: real)

  /** The rotation of the vehicle marker. `Bearing(a, b)` stands for the angle
      the page computes from `a` towards `b`; the angle itself is not modelled. */
  datatype Heading = Unrotated | Bearing(from: LatLng, to: LatLng)

  /** An interval installed with `setInterval`: its handle and its period in ms. */
  datatype Timer = Timer(id: nat, period: int)

  type Route = seq<LatLng>

  /** The page's state.
      route      -- `currentRoute`, null or the points to animate through
      index      -- `currentIndex`, the cursor into the route
      animating  -- `isAnimating`
      interval   -- `animationInterval`, the handle of the animation timer
      timers     -- the intervals the browser is currently running
      watch      -- `watchId`, the handle of the live geolocation watch
      watches    -- the geolocation watches the browser currently runs
      nextHandle -- the next handle the browser will hand out
      mode       -- `currentMode`, the value of the mode selector
      speed      -- `currentSpeed`, the tick period in ms
      status     -- the text of the status indicator
      position   -- `currentLatLng`, which is also where the marker stands
      heading    -- the marker's rotation
      routing    -- the waypoints of the routing control on the map, if any */
  datatype State = State(
    route: Option<Route>,
    index: nat,
    animating: bool,
    interval: Option<Timer>,
    timers: set<Timer>,
    watch: Option<nat>,
    watches: set<nat>,
    nextHandle: nat,
    mode: string,
    speed: int,
    status: string,
    position: LatLng,
    heading: Heading,
    routing: Option<Route>)

  const DefaultCenter := LatLng(18.5204, 73.8567)
  const DefaultSpeed := 200
  const YesterdayDataUrl := "./dummy-route-data.json"
  const ThisWeekDataUrl := "./this-week-route-data.json"

  /** The set holding the value of `o`, if any. */
  function OptSet<T>(o: Option<T>): (r: set<T>)
    ensures o.None? <==> r == {}
    ensures o.Some? ==> r == {o.value}
  {
    match o
    case None => {}
    case Some(x) => {x}
  }

  /** The state once the page has loaded: today's mode, the default speed,
      no route, the marker at the default centre and the status "Ready". */
  function Init(): (s: State)
    ensures Valid(s) && !s.animating && s.route.None? && s.timers == {} && s.watches == {}
  {
    State(None, 0, false, None, {}, None, {}, 1, "today", DefaultSpeed, "Ready",
          DefaultCenter, Unrotated, None)
  }

  /** What holds in every state the page can reach:
      - the cursor never runs past the end of a loaded route;
      - the page is animating exactly when it holds an interval handle;
      - the browser runs exactly the interval and the watch the page holds a
        handle for (nothing leaks);
      - the handles held were handed out before;
      - a live watch is only ever registered in today's mode, so the page
        never tracks the live position while showing a historical route. */
  ghost predicate Valid(s: State) {
    && (s.route.Some? ==> s.index <= |s.route.value|)
    && (s.animating <==> s.interval.Some?)
    && s.timers == OptSet(s.interval)
    && s.watches == OptSet(s.watch)
    && (s.interval.Some? ==> s.interval.value.id < s.nextHandle)
    && (s.watch.Some? ==> s.watch.value < s.nextHandle)
    && (s.watch.Some? ==> s.mode == "today")
  }

}
