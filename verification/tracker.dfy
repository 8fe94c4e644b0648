/** The tracker page as it runs: one object whose fields are the page's
    module-level variables, and whose methods are the page's functions and
    event handlers, changing those fields step by step. Each method is proved
    to do exactly what the matching function of `Animation`, `Routing` or
    `Modes` says, so everything proved there holds of the page. */
module Page {
  import opened TrackerState
  import Animation
  import Routing
  import Modes

  class Tracker {
    var route: Option<Route>
    var index: nat
    var animating: bool
    var interval: Option<Timer>
    var timers: set<Timer>
    var watch: Option<nat>
    var watches: set<nat>
    var nextHandle: nat
    var mode: string
    var speed: int
    var status: string
    var position: LatLng
    var heading: Heading
    var routing: Option<Route>

    /** The page's variables as one value. */
    function Model(): (s: State)
      reads this
      ensures s.route == route && s.index == index && s.animating == animating && s.status == status
    {
      State(route, index, animating, interval, timers, watch, watches, nextHandle,
            mode, speed, status, position, heading, routing)
    }

    ghost predicate Valid()
      reads this
    {
      TrackerState.Valid(Model())
    }

    /** The page once loaded: the marker at the default centre, no route,
        today's mode, the default speed and the status "Ready". */
    constructor ()
      ensures Model() == Init() && Valid()
    {
      route, index, animating := None, 0, false;
      interval, timers := None, {};
      watch, watches, nextHandle := None, {}, 1;
      mode, speed, status := "today", DefaultSpeed, "Ready";
      position, heading, routing := DefaultCenter, Unrotated, None;
    }

    /** `setInterval`: the browser installs a new interval under a fresh handle. */
    method SetInterval(period: int) returns (t: Timer)
      modifies this`timers, this`nextHandle
      ensures t == Timer(old(nextHandle), period)
      ensures timers == old(timers) + {t} && nextHandle == old(nextHandle) + 1
    {
      t := Timer(nextHandle, period);
      timers := timers + {t};
      nextHandle := nextHandle + 1;
    }

    /** `clearInterval`: the browser stops running the interval. */
    method ClearInterval(t: Timer)
      modifies this`timers
      ensures timers == old(timers) - {t}
    {
      timers := timers - {t};
    }

    /** `navigator.geolocation.watchPosition`: a new watch under a fresh handle. */
    method RegisterWatch() returns (id: nat)
      modifies this`watches, this`nextHandle
      ensures id == old(nextHandle)
      ensures watches == old(watches) + {id} && nextHandle == old(nextHandle) + 1
    {
      id := nextHandle;
      watches := watches + {id};
      nextHandle := nextHandle + 1;
    }

    /** `navigator.geolocation.clearWatch`: the browser stops the watch. */
    method ClearWatch(id: nat)
      modifies this`watches
      ensures watches == old(watches) - {id}
    {
      watches := watches - {id};
    }

    method StartAnimation()
      modifies this
      ensures Model() == Animation.Start(old(Model()))
      ensures old(Valid()) ==> Valid()
    {
      if route.None? || animating {
        return;
      }
      animating := true;
      status := "Animating";
      if interval.Some? {
        ClearInterval(interval.value);
      }
      var t := SetInterval(speed);
      interval := Some(t);
    }

    method StopAnimation()
      modifies this
      ensures Model() == Animation.Stop(old(Model()))
      ensures old(Valid()) ==> Valid()
    {
      if interval.Some? {
        ClearInterval(interval.value);
        interval := None;
      }
      if animating {
        animating := false;
        status := "Paused";
      }
    }

    method ResetAnimation()
      modifies this
      ensures Model() == Animation.Reset(old(Model()))
      ensures old(Valid()) ==> Valid()
    {
      StopAnimation();
      index := 0;
      animating := false;
      if route.Some? && |route.value| > 0 {
        position := route.value[0];
      }
      // Without a route the marker stays put: `currentLatLng` is read back
      // from the marker, which already stands at `position`.
      status := "Ready";
    }

    /** One firing of the animation interval. `threw` is true when the tick
        dies on the missing route (reading the length of null), in which case
        nothing has changed and the interval keeps firing. */
    method Tick() returns (threw: bool)
      requires interval.Some?
      modifies this
      ensures threw <==> old(route).None?
      ensures Model() == Animation.TickAsWritten(old(Model()))
      ensures old(Valid()) ==> Valid()
    {
      if route.None? {
        return true;
      }
      threw := false;
      var points := route.value;
      if index >= |points| {
        StopAnimation();
        status := "Finished";
        return;
      }
      var coord := points[index];
      position := coord;
      if index + 1 < |points| {
        heading := Bearing(coord, points[index + 1]);
      }
      index := index + 1;
    }

    method ClearRoute()
      modifies this
      ensures Model() == Routing.ClearRoute(old(Model()))
      ensures old(Valid()) ==> Valid()
    {
      routing := None;
      route := None;
    }

    method DisplayRoute(waypoints: Route)
      modifies this
      ensures Model() == Routing.DisplayRoute(old(Model()), waypoints)
      ensures old(Valid()) ==> Valid()
    {
      ClearRoute();
      if |waypoints| < 2 {
        status := "Route Error";
        return;
      }
      routing := Some(waypoints);
    }

    /** The "routesfound" event of the routing control. */
    method OnRoutesFound(routes: seq<Route>)
      modifies this
      ensures Model() == Routing.RoutesFound(old(Model()), routes)
      ensures old(Valid()) ==> Valid()
    {
      if |routes| > 0 {
        route := Some(routes[0]);
        index := 0;
        ResetAnimation();
      } else {
        route := None;
        status := "No route found";
      }
    }

    /** The "routingerror" event of the routing control. */
    method OnRoutingError()
      modifies this
      ensures Model() == Routing.RoutingError(old(Model()))
      ensures old(Valid()) ==> Valid()
    {
      route := None;
      status := "Routing Error";
    }

    method HandleMapClick(at: LatLng)
      modifies this
      ensures Model() == Routing.MapClick(old(Model()), at)
      ensures old(Valid()) ==> Valid()
    {
      if mode != "today" {
        return;
      }
      DisplayRoute([position, at]);
    }

    /** The selector's new value takes effect. `dataUrl` is the file whose
        fetch the page then awaits; its outcome arrives through
        `OnHistoricalLoaded`. */
    method UpdateMode(value: string, geolocation: bool) returns (dataUrl: Option<string>)
      modifies this
      ensures dataUrl == Modes.DataUrl(value)
      ensures Model() == Modes.ChangeMode(old(Model()), value, geolocation)
      ensures old(Valid()) ==> Valid()
    {
      mode := value;
      CancelWatch();
      ResetAnimation();
      ClearRoute();
      if mode == "today" {
        TrackLive(geolocation);
        dataUrl := None;
      } else {
        dataUrl := Some(if mode == "yesterday" then YesterdayDataUrl else ThisWeekDataUrl);
        status := "Loading Route...";
      }
    }

    /** Today's branch of a mode change: watch the live position when
        geolocation is available and show "Tracking". The marker is left where
        it is (the page puts it back on `currentLatLng`, where it stands). */
    method TrackLive(geolocation: bool)
      modifies this
      ensures Model() == Modes.TrackLive(old(Model()), geolocation)
      ensures old(Valid()) && old(watch).None? && old(mode) == "today" ==> Valid()
    {
      if geolocation {
        var id := RegisterWatch();
        watch := Some(id);
      }
      status := "Tracking";
    }

    /** The awaited historical fetch has finished with `result` (None when it
        failed or did not give an array). */
    method OnHistoricalLoaded(result: Option<Route>)
      modifies this
      ensures Model() == Modes.HistoricalLoaded(old(Model()), result)
      ensures old(Valid()) ==> Valid()
    {
      if result.Some? && |result.value| > 0 {
        DisplayRoute(result.value);
        status := "Route Loaded";
      } else {
        status := "Load Failed";
      }
    }

    /** The speed slider moved to `value` ms. */
    method OnSpeedInput(value: int)
      modifies this
      ensures Model() == Animation.ChangeSpeed(old(Model()), value)
      ensures old(Valid()) ==> Valid()
    {
      speed := value;
      if animating {
        StopAnimation();
        StartAnimation();
      }
    }

    /** The browser reported a position: the one-shot lookup at load, or the
        live watch. */
    method OnPosition(at: LatLng)
      modifies this
      ensures Model() == Modes.Relocate(old(Model()), at)
      ensures old(Valid()) ==> Valid()
    {
      position := at;
    }

    /** Cancel the live watch if one is registered: the first step of a mode
        change, and all that the watch's error callback does. */
    method CancelWatch()
      modifies this
      ensures Model() == Modes.CancelWatch(old(Model()))
      ensures old(Valid()) ==> Valid()
    {
      if watch.Some? {
        ClearWatch(watch.value);
      }
      watch := None;
    }
  }
}
