/** The mode selector: switching between today's live tracking and the two
    historical routes, the arrival of a historical route file, and the live
    position watch that today's mode starts. */
module Modes {
  import opened TrackerState
  import opened Animation
  import opened Routing

  /** The data file a mode loads: none for "today", the yesterday file for
      "yesterday", and the this-week file for every other value. */
  function DataUrl(mode: string): (r: Option<string>)
    ensures r.None? <==> mode == "today"
    ensures r.Some? ==> (r.value == YesterdayDataUrl <==> mode == "yesterday")
    ensures r.Some? ==> r.value == YesterdayDataUrl || r.value == ThisWeekDataUrl
  {
    if mode == "today" then None
    else if mode == "yesterday" then Some(YesterdayDataUrl)
    else Some(ThisWeekDataUrl)
  }

  /** Cancel the live watch, if one is registered. This is also what an
      error reported by the watch does. */
  function CancelWatch(s: State): (t: State)
    ensures t.watch.None? && t.watches == s.watches - OptSet(s.watch)
    ensures t.(watch := s.watch, watches := s.watches) == s
    ensures Valid(s) ==> Valid(t) && t.watches == {}
  {
    if s.watch.Some? then s.(watches := s.watches - {s.watch.value}, watch := None) else s
  }

  /** Today's mode once the previous source is torn down: register a new
      live watch when geolocation is available, and show "Tracking". */
  function TrackLive(s: State, geolocation: bool): (t: State)
    ensures t.status == "Tracking" && (geolocation ==> t.watch == Some(s.nextHandle))
    ensures t.watches == s.watches + (if geolocation then {s.nextHandle} else {})
    ensures !geolocation ==> t == s.(status := "Tracking")
    ensures t.nextHandle == s.nextHandle + (if geolocation then 1 else 0)
    ensures geolocation ==>
      t.(watch := s.watch, watches := s.watches, nextHandle := s.nextHandle, status := s.status) == s
    ensures Valid(s) && s.watch.None? && s.mode == "today" ==> Valid(t)
  {
    var watching := if geolocation
                    then s.(watch := Some(s.nextHandle), watches := s.watches + {s.nextHandle},
                            nextHandle := s.nextHandle + 1)
                    else s;
    watching.(status := "Tracking")
  }

  /** The synchronous part of `updateMode`: record the mode, cancel the live
      watch, reset the animation and clear the route. Then "today" registers
      a new watch when geolocation is available and shows "Tracking"; any
      other mode shows "Loading Route..." while its file is fetched (see
      `DataUrl` and `HistoricalLoaded`). */
  function ChangeMode(s: State, value: string, geolocation: bool): (t: State)
    ensures t.mode == value
    ensures Valid(s) && s.watch.Some? ==> s.watch.value !in t.watches
    ensures t.route.None? && t.routing.None? && t.index == 0 && !t.animating && t.interval.None?
    ensures t.timers == s.timers - OptSet(s.interval)
    ensures value == "today" ==> t.status == "Tracking" && (t.watch.Some? <==> geolocation)
    ensures value == "today" && geolocation ==> t.watch == Some(s.nextHandle) && s.nextHandle in t.watches
    ensures value != "today" ==> t.watch.None? && t.status == "Loading Route..."
    ensures t.position == if s.route.Some? && |s.route.value| > 0 then s.route.value[0] else s.position
    ensures t.speed == s.speed && t.heading == s.heading
    ensures Valid(s) ==> Valid(t) && t.timers == {}
  {
    var torn := ClearRoute(Reset(CancelWatch(s.(mode := value))));
    if value == "today" then TrackLive(torn, geolocation)
    else torn.(status := "Loading Route...")
  }

  /** The rest of `updateMode`, once the historical file has been fetched.
      `result` is what the fetch gave: None when it failed or the file did not
      hold an array. A non-empty list is handed to `displayRoute` and the
      status reads "Route Loaded" -- even for a single point, which
      `displayRoute` refuses, so that no route is on its way. Anything else
      gives "Load Failed" and changes nothing more. */
  function HistoricalLoaded(s: State, result: Option<Route>): (t: State)
    ensures result.None? || |result.value| == 0 ==> t == s.(status := "Load Failed")
    ensures result.Some? && |result.value| > 0 ==>
      && t.route.None? && t.status == "Route Loaded"
      && t.routing == (if |result.value| >= 2 then result else None)
      && t.(route := s.route, routing := s.routing, status := s.status) == s
    ensures Valid(s) ==> Valid(t)
  {
    if result.Some? && |result.value| > 0 then DisplayRoute(s, result.value).(status := "Route Loaded")
    else s.(status := "Load Failed")
  }

  /** The completion of a fetch as it was evidently meant to work: the fetch
      remembers the mode it was started for (`requested`), and a result that
      arrives after the selector has moved on is dropped. A fetch can then
      never replace today's live tracking with a historical route: in a state
      with a live watch, a fetched result changes nothing. */
  function HistoricalLoadedFor(s: State, requested: string, result: Option<Route>): (t: State)
    ensures s.mode != requested ==> t == s
    ensures s.mode == requested ==> t == HistoricalLoaded(s, result)
    ensures Valid(s) && requested != "today" && s.watch.Some? ==> t == s
    ensures Valid(s) ==> Valid(t)
  {
    if s.mode != requested then s else HistoricalLoaded(s, result)
  }

  /** A position reported by the browser -- by the one-shot lookup made when
      the map is set up, or by the live watch: the marker moves there, and
      nothing else changes, whatever the animation is doing. */
  function Relocate(s: State, at: LatLng): (t: State)
    ensures t.position == at && t.(position := s.position) == s
    ensures Valid(s) ==> Valid(t)
  {
    s.(position := at)
  }

  /** Leaving live tracking for the this-week history (any mode value other
      than "today" and "yesterday") cancels the registered watch, resets the
      animation to cursor 0, leaves the browser running neither a watch nor an
      interval, and fetches the this-week file. */
  lemma LiveToWeekCancelsWatch(s: State, value: string, geolocation: bool)
    requires Valid(s) && s.watch.Some? && value != "today" && value != "yesterday"
    ensures var t := ChangeMode(s, value, geolocation);
      t.watch.None? && t.watches == {} && t.timers == {} && !t.animating && t.index == 0
      && DataUrl(value) == Some(ThisWeekDataUrl)
  {
  }

  /** A historical file that comes back empty leaves no route -- neither the
      one loaded before the switch nor a new one -- and the status "Load
      Failed". */
  lemma EmptyHistoryLeavesNoRoute(s: State, value: string, geolocation: bool)
    requires value != "today"
    ensures var t := HistoricalLoaded(ChangeMode(s, value, geolocation), Some([]));
      t.route.None? && t.routing.None? && t.status == "Load Failed" && !t.animating
  {
  }
}
