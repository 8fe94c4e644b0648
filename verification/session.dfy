/** A session of the tracker page: everything that can happen to it (a button,
    the interval firing, a map click, an answer from the routing service, a
    mode or speed change, a fetched file, the live watch), applied one after
    another from the state the page loads with. */
module Session {
  import opened TrackerState
  import opened Animation
  import opened Routing
  import opened Modes

  datatype Event =
    | StartPressed
    | StopPressed
    | ResetPressed
    | IntervalFired
    | MapClicked(at: LatLng)
    | RoutesArrived(routes: seq<Route>)
    | RoutingFailed
    | ModeSelected(value: string, geolocation: bool)
    | HistoryArrived(result: Option<Route>)
    | SpeedSet(period: int)
    | InitialPosition(at: LatLng)
    | LivePosition(at: LatLng)
    | LiveFailed

  /** The effect of one event. The interval only fires while it is installed
      and the watch only reports while it is registered; such an event in a
      state where it cannot arrive changes nothing. The one-shot position
      lookup made at load may answer at any time, so its event is always
      allowed (more often than once, too, which only widens the orders
      covered). A fetched file may arrive at any time as well, also after the
      selector has moved on. The tick is the page's own, throwing on a missing
      route. */
  function Apply(s: State, e: Event): (t: State)
    ensures Valid(s) ==> Valid(t)
  {
    match e
    case StartPressed => Start(s)
    case StopPressed => Stop(s)
    case ResetPressed => Reset(s)
    case IntervalFired => if s.interval.Some? then TickAsWritten(s) else s
    case MapClicked(at) => MapClick(s, at)
    case RoutesArrived(routes) => RoutesFound(s, routes)
    case RoutingFailed => RoutingError(s)
    case ModeSelected(value, geolocation) => ChangeMode(s, value, geolocation)
    case HistoryArrived(result) => HistoricalLoaded(s, result)
    case SpeedSet(period) => ChangeSpeed(s, period)
    case InitialPosition(at) => Relocate(s, at)
    case LivePosition(at) => if s.watch.Some? then Relocate(s, at) else s
    case LiveFailed => CancelWatch(s)
  }

  /** The state after the events, in order. */
  function Run(s: State, events: seq<Event>): State
    decreases |events|
  {
    if events == [] then s else Run(Apply(s, events[0]), events[1..])
  }

  /** No sequence of events breaks the invariant. */
  lemma {:induction false} RunKeepsValid(s: State, events: seq<Event>)
    requires Valid(s)
    ensures Valid(Run(s, events))
    decreases |events|
  {
    if events != [] {
      RunKeepsValid(Apply(s, events[0]), events[1..]);
    }
  }

  /** In every state a session can reach: the cursor is within the loaded
      route, the page animates exactly when it holds an interval, the browser
      runs at most one animation interval and at most one watch -- the ones
      the page holds handles for -- and a live watch runs only in today's
      mode. */
  lemma Reachable(events: seq<Event>)
    ensures var t := Run(Init(), events);
      && (t.route.Some? ==> t.index <= |t.route.value|)
      && (t.animating <==> t.interval.Some?)
      && t.timers == OptSet(t.interval) && |t.timers| <= 1
      && t.watches == OptSet(t.watch) && |t.watches| <= 1
      && (t.watch.Some? ==> t.mode == "today")
  {
    RunKeepsValid(Init(), events);
  }

  /** The interval firing `n` times in a row. */
  function Fired(n: nat): (es: seq<Event>)
    ensures |es| == n && forall i :: 0 <= i < n ==> es[i] == IntervalFired
  {
    seq(n, i => IntervalFired)
  }

  /** Clearing the route while the animation runs -- here by a second map
      click in today's mode -- leaves the page animating, with its interval
      installed and the status "Animating", but with no route. */
  lemma ClickWhileAnimatingDropsRoute(route: Route, first: LatLng, second: LatLng)
    ensures var t := Run(Init(), [MapClicked(first), RoutesArrived([route]), StartPressed, MapClicked(second)]);
      t.animating && t.interval.Some? && t.route.None? && t.status == "Animating"
  {
    var s0 := Init();
    var s1 := Apply(s0, MapClicked(first));
    var s2 := Apply(s1, RoutesArrived([route]));
    var s3 := Apply(s2, StartPressed);
    var s4 := Apply(s3, MapClicked(second));
    assert s3.animating && s3.mode == "today";
    assert Run(s4, []) == s4;
    assert Run(s0, [MapClicked(first), RoutesArrived([route]), StartPressed, MapClicked(second)])
        == Run(s1, [RoutesArrived([route]), StartPressed, MapClicked(second)]);
    assert Run(s1, [RoutesArrived([route]), StartPressed, MapClicked(second)])
        == Run(s2, [StartPressed, MapClicked(second)]);
    assert Run(s2, [StartPressed, MapClicked(second)]) == Run(s3, [MapClicked(second)]);
  }

  /** In that state every tick of the page throws before changing anything:
      however often the interval fires, the page stays "Animating" with the
      interval installed and never finishes. */
  lemma {:induction false} StalledAnimationNeverEnds(s: State, n: nat)
    requires s.animating && s.interval.Some? && s.route.None?
    ensures Run(s, Fired(n)) == s
    decreases n
  {
    if n > 0 {
      assert Fired(n)[0] == IntervalFired;
      assert Fired(n)[1..] == Fired(n - 1);
      StalledAnimationNeverEnds(s, n - 1);
    }
  }

  /** With the guard on the tick, the same state ends its run on the next tick. */
  lemma GuardedTickEndsStalledRun(s: State)
    requires Valid(s) && s.animating && s.route.None?
    ensures var t := TickGuarded(s);
      !t.animating && t.interval.None? && t.timers == {} && t.status == "Finished"
  {
  }

  /** On a loaded route, the interval firing `n` times does to the page
      exactly what `n` guarded ticks do: the page's tick and the guarded one
      agree there, and a tick never changes the route. */
  lemma {:induction false} FiredIsTicks(s: State, n: nat)
    requires s.route.Some?
    ensures Run(s, Fired(n)) == Ticks(s, n)
    decreases n
  {
    if n > 0 {
      assert Fired(n)[0] == IntervalFired;
      assert Fired(n)[1..] == Fired(n - 1);
      if s.interval.Some? {
        GuardAgreesOnLoadedRoute(s);
        FiredIsTicks(TickGuarded(s), n - 1);
      } else {
        FiredIsTicks(s, n - 1);
      }
    }
  }

  /** `RunToEnd` for the page's own tick: a running animation over a route of
      length L with the cursor at i shows the remaining points as the
      interval fires L - i times, and the next firing finishes the run with
      no interval left. */
  lemma PageRunToEnd(s: State)
    requires Valid(s) && s.animating && s.route.Some?
    ensures var t := Run(s, Fired(|s.route.value| - s.index));
      && t.animating && t.index == |s.route.value|
      && (s.index < |s.route.value| ==> t.position == s.route.value[|s.route.value| - 1])
    ensures var f := Run(s, Fired(|s.route.value| - s.index + 1));
      !f.animating && f.interval.None? && f.timers == {} && f.index == |s.route.value| && f.status == "Finished"
  {
    RunToEnd(s);
    FiredIsTicks(s, |s.route.value| - s.index);
    FiredIsTicks(s, |s.route.value| - s.index + 1);
  }

  /** A historical fetch that resolves after the selector has gone back to
      "today" is still handed to `displayRoute`: the page ends up in today's
      mode, tracking the live position, yet routing along the historical
      points with the status "Route Loaded" instead of "Tracking". */
  lemma StaleHistoryReplacesTracking(s: State, geolocation: bool, points: Route)
    requires |points| >= 2
    ensures var t := Run(s, [ModeSelected("yesterday", geolocation), ModeSelected("today", true),
                             HistoryArrived(Some(points))]);
      && t.mode == "today" && t.watch.Some? && t.route.None?
      && t.routing == Some(points) && t.status == "Route Loaded"
  {
    var s1 := Apply(s, ModeSelected("yesterday", geolocation));
    var s2 := Apply(s1, ModeSelected("today", true));
    var s3 := Apply(s2, HistoryArrived(Some(points)));
    assert Run(s3, []) == s3;
    assert Run(s2, [HistoryArrived(Some(points))]) == s3;
    assert Run(s1, [ModeSelected("today", true), HistoryArrived(Some(points))]) == s3;
  }

  /** The same order of events with the fetch's completion checked against
      the mode it was started for: the late file is dropped and the page
      keeps tracking live. */
  lemma StaleHistoryDroppedWhenChecked(s: State, geolocation: bool, points: Route)
    ensures var u := ChangeMode(ChangeMode(s, "yesterday", geolocation), "today", true);
      && HistoricalLoadedFor(u, "yesterday", Some(points)) == u
      && u.watch.Some? && u.status == "Tracking" && u.routing.None?
  {
  }
}
