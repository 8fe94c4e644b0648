# Vehicle tracker: route animation and mode state

A model of the state machine at the heart of the vehicle-tracker page
(`script.js`): a single bus marker animated along a route by a browser
interval, the route loading and clearing that feeds it, the speed slider that
restarts the interval, and the mode selector that switches between today's
live geolocation tracking and the two historical routes.

The page keeps its state in module-level variables (`currentRoute`,
`currentIndex`, `isAnimating`, `animationInterval`, `watchId`, `currentMode`,
`currentSpeed`, `currentLatLng`, the status text). The model is in six files:

- `state.dfy` (module `TrackerState`): those variables as one `State` record,
  plus the browser's own bookkeeping the page relies on -- the intervals it
  runs, the geolocation watches it has registered, and the handles it hands
  out -- and the invariant `Valid` that every reachable state keeps: the cursor
  stays within a loaded route, the page animates exactly when it holds an
  interval handle, the browser runs exactly the interval and the watch the
  page holds handles for (nothing leaks), and a live watch runs only in
  today's mode.
- `animation.dfy`, `routing.dfy`, `modes.dfy` (modules `Animation`, `Routing`,
  `Modes`): each operation of the page as a function from the state before to
  the state after, with its contract and the lemmas that relate operations
  (stop is idempotent, stop then start resumes, a run over a route of length L
  shows every point in order and finishes on tick L + 1, ...).
- `tracker.dfy` (module `Page`): the class `Tracker`, whose fields are the
  page's variables and whose methods are the page's functions and handlers,
  written step by step as the page runs them; each method is proved to reach
  exactly the state the matching function gives, and to keep the invariant.
  The browser calls the page makes (`setInterval`, `clearInterval`,
  `navigator.geolocation.watchPosition` and `clearWatch`) are the small
  methods `SetInterval`, `ClearInterval`, `RegisterWatch` and `ClearWatch`,
  which hand out fresh handles and keep the browser's sets of running
  intervals and watches.
- `session.dfy` (module `Session`): every event the page can receive, applied
  in any order from the state the page loads with; the invariant holds after
  any sequence of events, and the run lemmas of `Animation` carry over to the
  interval firing on the page.

The marker and `currentLatLng` are one field, `position`: every path that
moves one moves the other to the same point. Coordinates are opaque pairs of
reals; the marker's rotation is the symbolic `Bearing(from, to)` computed for
consecutive points. The asynchronous callbacks (the interval, the routing
control's `routesfound` and `routingerror`, the historical fetch, the
one-shot position lookup at load, the live watch) are methods called with
their outcome as parameters.

Where the page's intended design and its code differ, the model follows
the code:

- `startAnimation` refuses only a missing route or a running animation
  (script.js:97); an empty or one-point route is started and finishes on its
  first or second tick.
- A route that becomes null while the animation runs is not stopped on the
  next tick: the tick throws (see Findings).
- Historical points are not loaded as the route directly: they go to the
  routing service through `displayRoute`, and the route is what its
  `routesfound` event delivers. A file with one point is refused by
  `displayRoute` and the status still reads "Route Loaded".
- The routing service finding no route gives the status "No route found".

## Model

| member | source | states |
|---|---|---|
| TrackerState.Init | script.js:4-12 | the loaded page has no route, no animation, no interval or watch running, and satisfies the invariant |
| Animation.Start | script.js:96-130 | no change at all without a route or while animating; otherwise animating, status "Animating", the old interval (if any) cleared and exactly one new interval with the current speed installed under a fresh handle; nothing else changes (cursor, route, marker, watch, speed); keeps the invariant |
| Animation.Stop | script.js:135-145 | afterwards no interval is held and the one held is no longer run; status becomes "Paused" only if the page was animating; nothing else changes (the cursor in particular); keeps the invariant with no interval running |
| Animation.Reset | script.js:150-166 | from any state: cursor 0, not animating, no interval, status "Ready"; the marker on the first point of a non-empty route, else where it was; route, mode, watch, speed and handle counter kept |
| Animation.Advance | script.js:112-128 | a tick with points ahead moves the marker to the point under the cursor, turns it towards the next point only when one exists, and moves the cursor on by exactly one; nothing else changes |
| Animation.Finish | script.js:106-109 | the end of a run: not animating, no interval, status "Finished" (overriding the "Paused" of stopping); nothing else changes (cursor, route, marker, mode, watch) |
| Animation.TickAsWritten | script.js:105-129 | one tick as the page runs it: no change when the route is missing (the tick throws); at the end: stopped, "Finished", the interval cleared and nothing else changed; otherwise cursor + 1, marker on the point, turned towards the next point when there is one, and nothing else changed (the route in particular); keeps the invariant, so the cursor never passes the route's length |
| Animation.TickGuarded | script.js:105-110 | corrected tick: every tick moves the cursor on or ends the run with "Finished", keeps the route, and never leaves the page animating without a route |
| Animation.ChangeSpeed | script.js:482-492 | records the new period; not animating: nothing else changes; animating with a route: still animating from the same cursor, the old interval replaced by one with the new period; animating without a route: ends paused with no interval; while animating only the speed and the interval fields change |
| Animation.StopIdempotent | script.js:135-145 | stopping twice is stopping once |
| Animation.StopThenStartResumes | script.js:96-145 | stop then start resumes from the same cursor, with exactly one interval running |
| Animation.RestartAfterFinishEndsAtOnce | script.js:96-110 | a finished run started again without a reset finishes on its first tick with the cursor still at the end |
| Animation.TicksAdvance | script.js:105-129 | k ticks with at least k points ahead move the cursor by exactly k, keep the animation running and leave the marker on the last point shown |
| Animation.RunToEnd | script.js:105-129 | a run from cursor i over a route of length L reaches cursor L after L - i ticks with the marker on the last point, and is finished, with no interval running, after one more |
| Animation.GuardedRunStops | script.js:105-110 | with the corrected tick every run stops: within one tick when no route is loaded, within L - i + 1 ticks otherwise |
| Animation.GuardAgreesOnLoadedRoute | script.js:105-129 | on a loaded route the corrected tick is the page's tick |
| Routing.ClearRoute | script.js:239-245 | no route and no routing control afterwards; nothing else changes (a running animation keeps its interval) |
| Routing.DisplayRoute | script.js:251-270 | the old route is always cleared; fewer than two waypoints give status "Route Error" and no routing request; otherwise a routing control for exactly those waypoints; only route, routing control and status change |
| Routing.RoutesFound | script.js:272-284 | with a route found: the first one loaded, cursor 0, animation reset to "Ready" with the marker on its first point, the old interval cleared, and nothing else changed (mode, watch, routing control); with none: no route and status "No route found", nothing else changed |
| Routing.RoutingError | script.js:286-291 | no route, status "Routing Error", nothing else changed |
| Routing.MapClick | script.js:298-304 | outside mode "today" a click changes nothing; in "today" it requests a route from the marker to the clicked point, clears the loaded route, and changes nothing else (mode, marker, watch, speed, animation, status) |
| Routing.FoundRouteStartsAtFirstPoint | script.js:272-278 | a found route, started, shows its first point on the first tick with exactly one interval running |
| Modes.DataUrl | script.js:430-431 | "today" fetches nothing; otherwise the yesterday file exactly when the mode is "yesterday", else the this-week file |
| Modes.CancelWatch | script.js:389-392 | afterwards no watch is held and the one held is no longer run; nothing else changes |
| Modes.TrackLive | script.js:396-427 | status "Tracking"; a new watch under a fresh handle exactly when geolocation is available, and nothing else changes; keeps the invariant when entered in today's mode with no watch running |
| Modes.ChangeMode | script.js:384-442 | the mode is recorded, the old watch cancelled, the animation reset (the marker on the old route's first point) and the route cleared; speed and rotation kept; "today" shows "Tracking" and watches exactly when geolocation is available; other modes show "Loading Route..." with no watch; keeps the invariant with no interval running |
| Modes.HistoricalLoaded | script.js:433-440 | a failed or empty fetch gives "Load Failed" and nothing else; a non-empty list clears the route, requests routing only for two or more points, and shows "Route Loaded", changing nothing else (a running animation keeps running) |
| Modes.Relocate | script.js:201-206 | a position from the browser (the one-shot lookup at load or the live watch) moves the marker there and changes nothing else |
| Modes.HistoricalLoadedFor | script.js:433-437 | corrected completion of the fetch: dropped when the mode has changed since the fetch began, otherwise as written; so a historical fetch changes nothing while a live watch runs |
| Modes.LiveToWeekCancelsWatch | script.js:384-431 | leaving live tracking for the this-week history cancels the watch, resets the cursor, leaves no watch or interval running, and fetches the this-week file |
| Modes.EmptyHistoryLeavesNoRoute | script.js:393-440 | a mode change whose fetch returns an empty list leaves no route (the previous one is not kept) and status "Load Failed" |
| Session.Apply | script.js:470-512 | every event the page handles keeps the invariant |
| Session.RunKeepsValid | script.js:470-512 | any sequence of events keeps the invariant |
| Session.Reachable | script.js:384-427 | in every reachable state the cursor is within the loaded route, the page animates exactly when it holds an interval, at most one interval and one watch are running, and a watch runs only in mode "today" |
| Session.ClickWhileAnimatingDropsRoute | script.js:239-245 | a second map click during an animation leaves it running, "Animating", with its interval but no route |
| Session.StalledAnimationNeverEnds | script.js:105-110 | in that state any number of ticks changes nothing: the run never finishes |
| Session.GuardedTickEndsStalledRun | script.js:105-110 | with the corrected tick the same state finishes on the next tick with no interval running |
| Session.FiredIsTicks | script.js:96-129 | on a loaded route, the interval firing n times on the page is n guarded ticks |
| Session.PageRunToEnd | script.js:105-129 | with the page's own tick, a run from cursor i over a route of length L reaches cursor L after L - i firings with the marker on the last point, and is finished, with no interval running, after one more |
| Session.StaleHistoryReplacesTracking | script.js:384-437 | selecting "yesterday" and then "today" before the fetch resolves ends in today's mode with a live watch, yet routing along yesterday's points with status "Route Loaded" |
| Session.StaleHistoryDroppedWhenChecked | script.js:384-437 | with the corrected completion the same order of events keeps today's live tracking, "Tracking" and no routing control |
| Page.Tracker.constructor | script.js:4-12 | the object starts in the loaded page's state, which satisfies the invariant |
| Page.Tracker.StartAnimation | script.js:96-130 | reaches exactly `Animation.Start` of the previous state and keeps the invariant |
| Page.Tracker.StopAnimation | script.js:135-145 | reaches exactly `Animation.Stop` of the previous state and keeps the invariant |
| Page.Tracker.ResetAnimation | script.js:150-166 | reaches exactly `Animation.Reset` of the previous state and keeps the invariant |
| Page.Tracker.Tick | script.js:105-129 | reports that it threw exactly when no route is loaded; reaches exactly `Animation.TickAsWritten` of the previous state and keeps the invariant |
| Page.Tracker.ClearRoute | script.js:239-245 | reaches exactly `Routing.ClearRoute` of the previous state |
| Page.Tracker.DisplayRoute | script.js:251-270 | reaches exactly `Routing.DisplayRoute` of the previous state |
| Page.Tracker.OnRoutesFound | script.js:272-284 | reaches exactly `Routing.RoutesFound` of the previous state and keeps the invariant |
| Page.Tracker.OnRoutingError | script.js:286-291 | reaches exactly `Routing.RoutingError` of the previous state |
| Page.Tracker.HandleMapClick | script.js:298-304 | reaches exactly `Routing.MapClick` of the previous state |
| Page.Tracker.UpdateMode | script.js:384-442 | returns the file to fetch as `Modes.DataUrl` gives it; reaches exactly `Modes.ChangeMode` of the previous state and keeps the invariant |
| Page.Tracker.TrackLive | script.js:396-427 | reaches exactly `Modes.TrackLive` of the previous state, keeping the invariant when entered in today's mode with no watch |
| Page.Tracker.OnHistoricalLoaded | script.js:433-440 | reaches exactly `Modes.HistoricalLoaded` of the previous state |
| Page.Tracker.OnSpeedInput | script.js:482-492 | reaches exactly `Animation.ChangeSpeed` of the previous state and keeps the invariant |
| Page.Tracker.OnPosition | script.js:400-405 | reaches exactly `Modes.Relocate` of the previous state; also the one-shot lookup's callback (script.js:201-206) |
| Page.Tracker.CancelWatch | script.js:389-392 | reaches exactly `Modes.CancelWatch` of the previous state; also the whole of the watch's error callback (script.js:406-410) |

## Left out

- `calculateAngle` (script.js:222-234): floating-point trigonometry; the marker's rotation is the symbolic `Bearing(from, to)`, set only when a next point exists.
- The check that the rotation plugin is loaded (`marker.setRotationAngle`, script.js:120): the model assumes it is.
- `formatPopupContent` and `updatePopupIfOpen` (script.js:65-91): dates, number formatting and HTML.
- `handleSearch` (script.js:309-352) and the geocoding service: not modelled; its `displayRoute` call is the one modelled for map clicks.
- `fetchHistoricalData` (script.js:359-379): the network fetch and JSON parsing; its outcome is the `result` parameter of `OnHistoricalLoaded` (None for a failure or a non-array).
- `initMap` (script.js:171-214) and every Leaflet call (`setView`, `setLatLng`, `L.Routing.control`): only their effect on the state fields is modelled; the one-shot geolocation lookup's answer is the `InitialPosition` event.
- The DOM guards (`if (!modeSelect) return`, `if (!statusDot ...)`, `marker` being null): after the page has loaded they always pass.
- The status dot's CSS class, the speed display text, `toggleSidebar`, `toggleFAQ` and the wiring in `setupEventListeners`: presentation only.
- Timing: the interval's period is recorded with its handle, but when ticks happen is not; a tick is an event.
- `Number(e.target.value)` on the slider: the new speed is given as an integer.
- Interleaving of asynchronous events: `Session` lets the button, slider, selector, map, routing, fetch and position events arrive in any order, including answers from a routing control that has since been removed and a fetch that resolves after a later mode change; only the interval and the watch are limited to the states in which they are installed. Concurrency below the level of whole handlers (the page has none) is not modelled.
- Page.Tracker.Tick: requires the interval to be installed, since the browser fires only installed intervals.

## Findings

| source | as written | input that shows it | evidently intended | confidence | as-written member | corrected member |
|---|---|---|---|---|---|---|
| script.js:106 | the tick reads `currentRoute.length` with no null check, and `clearRoute` (script.js:239-245) does not stop a running animation | in mode "today": click the map, routing answers, start, click the map again (route cleared): every tick throws, the interval keeps firing and the page stays "Animating" until the user stops, resets, changes speed or mode, or a new route arrives | a tick with no route ends the run as reaching the end does | not executed; high for the throw, medium for intent | Animation.TickAsWritten | Animation.TickGuarded |
| script.js:434-437 | after `await fetchHistoricalData`, `updateMode` hands the points to `displayRoute` without checking that the selector still shows the mode it fetched for | select "yesterday", then "today" before the file arrives: the late file clears any route, routes yesterday's points in today's mode while the live watch runs, and "Route Loaded" replaces "Tracking" | a result for a mode that is no longer selected is dropped | not executed; high for the order of events, medium for intent | Session.StaleHistoryReplacesTracking | Modes.HistoricalLoadedFor |

The throwing tick is exhibited by `Session.ClickWhileAnimatingDropsRoute`
and `Session.StalledAnimationNeverEnds`; the corrected tick's property by
`Animation.GuardedRunStops` and `Session.GuardedTickEndsStalledRun`. The run
lemmas (`Animation.TicksAdvance`, `Animation.RunToEnd`) step with the
corrected tick; on a loaded route both ticks agree
(`Animation.GuardAgreesOnLoadedRoute`), so the interval firing on the page is
the same run (`Session.FiredIsTicks`, `Session.PageRunToEnd`).

The late fetch is exhibited by `Session.StaleHistoryReplacesTracking`, with
`Modes.HistoricalLoaded` as the page's completion; the corrected completion
`Modes.HistoricalLoadedFor` is proved never to disturb live tracking, and
`Session.StaleHistoryDroppedWhenChecked` replays the same order of events
with it.

`Session` keeps both behaviours as written, since it models the page.
