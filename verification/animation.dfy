/** The animation state machine of the tracker page: start, stop, reset, one
    tick of the animation timer, and the restart that a speed change causes.
    Each operation is a function from the state before to the state after;
    the `Tracker` class runs the same steps on its fields. */
module Animation {
  import opened TrackerState

  /** `stopAnimation`: clear the interval if one is held; if the page was
      animating, it no longer is and the status reads "Paused". Nothing else
      changes: in particular the cursor stays where it is. */
  function Stop(s: State): (t: State)
    ensures t.interval.None? && !t.animating
    ensures t.timers == s.timers - OptSet(s.interval)
    ensures t.status == if s.animating then "Paused" else s.status
    ensures t.(interval := s.interval, timers := s.timers, animating := s.animating, status := s.status) == s
    ensures Valid(s) ==> Valid(t) && t.timers == {}
  {
    var cleared := if s.interval.Some? then s.(timers := s.timers - {s.interval.value}, interval := None) else s;
    if cleared.animating then cleared.(animating := false, status := "Paused") else cleared
  }

  /** `startAnimation`: refused (no change at all) when no route is loaded or
      the page is already animating; an empty route is NOT refused. Otherwise
      the page is animating, the status reads "Animating", any interval still
      held is cleared and exactly one new interval, with the current speed as
      its period, is installed. The cursor is left where it is. */
  function Start(s: State): (t: State)
    ensures s.route.None? || s.animating ==> t == s
    ensures s.route.Some? && !s.animating ==>
      && t.animating && t.status == "Animating"
      && t.interval == Some(Timer(s.nextHandle, s.speed))
      && t.timers == s.timers - OptSet(s.interval) + {Timer(s.nextHandle, s.speed)}
      && t.nextHandle == s.nextHandle + 1
      && t.(animating := s.animating, status := s.status, interval := s.interval,
            timers := s.timers, nextHandle := s.nextHandle) == s
    ensures Valid(s) ==> Valid(t)
  {
    if s.route.None? || s.animating then s
    else
      var running := s.(animating := true, status := "Animating");
      var cleared := if running.interval.Some? then running.(timers := running.timers - {running.interval.value}) else running;
      var timer := Timer(cleared.nextHandle, cleared.speed);
      cleared.(interval := Some(timer), timers := cleared.timers + {timer}, nextHandle := cleared.nextHandle + 1)
  }

  /** `resetAnimation`: stop, put the cursor back to 0 and the status to
      "Ready". The marker goes to the first point of a non-empty route, and
      otherwise stays where it is. The route itself is kept. */
  function Reset(s: State): (t: State)
    ensures t.index == 0 && !t.animating && t.interval.None? && t.status == "Ready"
    ensures t.timers == s.timers - OptSet(s.interval)
    ensures t.position == if s.route.Some? && |s.route.value| > 0 then s.route.value[0] else s.position
    ensures t.route == s.route && t.routing == s.routing && t.heading == s.heading && t.mode == s.mode
    ensures t.watch == s.watch && t.watches == s.watches && t.speed == s.speed
    ensures t.nextHandle == s.nextHandle
    ensures Valid(s) ==> Valid(t) && t.timers == {}
  {
    var stopped := Stop(s).(index := 0, animating := false);
    var placed := if stopped.route.Some? && |stopped.route.value| > 0
                  then stopped.(position := stopped.route.value[0])
                  else stopped;
    placed.(status := "Ready")
  }

  /** The body of a tick that has a point to show: the marker moves to the
      point under the cursor, turns towards the following point when there is
      one (otherwise keeps its rotation), and the cursor moves on by one. */
  function Advance(s: State): (t: State)
    requires s.route.Some? && s.index < |s.route.value|
    ensures t.index == s.index + 1 && t.position == s.route.value[s.index]
    ensures t.heading == if s.index + 1 < |s.route.value|
                         then Bearing(s.route.value[s.index], s.route.value[s.index + 1])
                         else s.heading
    ensures t.(index := s.index, position := s.position, heading := s.heading) == s
    ensures Valid(s) ==> Valid(t)
  {
    var route := s.route.value;
    var heading := if s.index + 1 < |route| then Bearing(route[s.index], route[s.index + 1]) else s.heading;
    s.(position := route[s.index], heading := heading, index := s.index + 1)
  }

  /** The end of the run: stop, then the status reads "Finished" (overwriting
      the "Paused" that stopping writes). */
  function Finish(s: State): (t: State)
    ensures !t.animating && t.interval.None? && t.status == "Finished"
    ensures t.timers == s.timers - OptSet(s.interval)
    ensures t.(animating := s.animating, interval := s.interval, timers := s.timers, status := s.status) == s
    ensures Valid(s) ==> Valid(t) && t.timers == {}
  {
    Stop(s).(status := "Finished")
  }

  /** One tick of the animation interval, as the page runs it. With no route
      loaded, reading the route's length throws before anything is changed,
      and the interval stays installed. With the cursor at or past the end,
      the run finishes. Otherwise the marker advances one point. */
  function TickAsWritten(s: State): (t: State)
    ensures s.route.None? ==> t == s
    ensures s.route.Some? && s.index >= |s.route.value| ==>
      && !t.animating && t.interval.None? && t.status == "Finished"
      && t.timers == s.timers - OptSet(s.interval)
      && t.(animating := s.animating, interval := s.interval, timers := s.timers, status := s.status) == s
    ensures s.route.Some? && s.index < |s.route.value| ==>
      && t.index == s.index + 1 && t.position == s.route.value[s.index]
      && t.heading == (if s.index + 1 < |s.route.value|
                       then Bearing(s.route.value[s.index], s.route.value[s.index + 1])
                       else s.heading)
      && t.(index := s.index, position := s.position, heading := s.heading) == s
    ensures Valid(s) ==> Valid(t)
  {
    if s.route.None? then s
    else if s.index >= |s.route.value| then Finish(s)
    else Advance(s)
  }

  /** One tick with a guard against a missing route: no route ends the run
      exactly as reaching the end does. Every such tick either moves the
      cursor on or stops the animation, and it never leaves the page
      animating without a route. */
  function TickGuarded(s: State): (t: State)
    ensures t.index > s.index || (!t.animating && t.interval.None? && t.status == "Finished")
    ensures t.animating ==> t.route.Some? && t.index <= |t.route.value|
    ensures s.route.Some? && s.index < |s.route.value| ==> t.index == s.index + 1 && t.animating == s.animating
    ensures t.route == s.route
    ensures Valid(s) ==> Valid(t)
  {
    if s.route.None? || s.index >= |s.route.value| then Finish(s)
    else Advance(s)
  }

  /** The speed slider: record the new period; if the page is animating, stop
      and start again, so that the new interval runs with the new period.
      With a route loaded the animation keeps running from the same cursor;
      without one (it was cleared while the animation ran) the restart is
      refused and the page ends up paused. */
  function ChangeSpeed(s: State, value: int): (t: State)
    ensures t.speed == value && t.index == s.index && t.route == s.route && t.position == s.position
    ensures !s.animating ==> t == s.(speed := value)
    ensures s.animating && s.route.Some? ==>
      t.animating && t.status == "Animating" && t.interval == Some(Timer(s.nextHandle, value))
    ensures s.animating && s.route.None? ==> !t.animating && t.interval.None? && t.status == "Paused"
    ensures s.animating ==> t.timers == s.timers - OptSet(s.interval) + OptSet(t.interval)
    ensures s.animating ==>
      t.(speed := s.speed, animating := s.animating, status := s.status, interval := s.interval,
         timers := s.timers, nextHandle := s.nextHandle) == s
    ensures Valid(s) ==> Valid(t)
  {
    var updated := s.(speed := value);
    if updated.animating then Start(Stop(updated)) else updated
  }

  /** On a loaded route the guard never applies: the corrected tick is the
      page's own tick, so what is proved below about runs of guarded ticks is
      proved about the page's runs (see also `Session.FiredIsTicks`). */
  lemma GuardAgreesOnLoadedRoute(s: State)
    requires s.route.Some?
    ensures TickAsWritten(s) == TickGuarded(s)
  {
  }

  /** The state after the animation interval has fired `n` more times; once
      the interval is cleared it fires no more. */
  function Ticks(s: State, n: nat): (t: State)
    decreases n
  {
    if n == 0 || s.interval.None? then s else Ticks(TickGuarded(s), n - 1)
  }

  /** Stopping twice is stopping once. */
  lemma StopIdempotent(s: State)
    ensures Stop(Stop(s)) == Stop(s)
  {
  }

  /** Stop followed by start resumes from the cursor where the run stopped. */
  lemma StopThenStartResumes(s: State)
    requires Valid(s) && s.route.Some?
    ensures Start(Stop(s)).animating && Start(Stop(s)).index == s.index
    ensures Start(Stop(s)).timers == {Start(Stop(s)).interval.value}
  {
  }

  /** A run that has finished and is started again without a reset finishes
      again on its first tick, with the cursor still at the end. */
  lemma RestartAfterFinishEndsAtOnce(s: State)
    requires Valid(s) && s.route.Some? && !s.animating && s.index == |s.route.value|
    ensures var t := TickAsWritten(Start(s));
      !t.animating && t.status == "Finished" && t.index == s.index && t.timers == {}
  {
  }

  /** While the cursor has points ahead, `k` ticks move it on by exactly `k`,
      keep the animation running, and leave the marker on the last point
      shown. */
  lemma {:induction false} TicksAdvance(s: State, k: nat)
    requires Valid(s) && s.animating && s.route.Some?
    requires k <= |s.route.value| - s.index
    ensures var t := Ticks(s, k);
      && Valid(t) && t.animating && t.route == s.route && t.index == s.index + k
      && t.interval == s.interval && t.status == s.status
      && (k > 0 ==> t.position == s.route.value[s.index + k - 1])
    decreases k
  {
    if k > 0 {
      var next := TickGuarded(s);
      assert next == Advance(s);
      TicksAdvance(next, k - 1);
      assert Ticks(s, k) == Ticks(next, k - 1);
    }
  }

  /** Firing the interval `a` times and then `b` times is firing it `a + b` times. */
  lemma {:induction false} TicksAdd(s: State, a: nat, b: nat)
    ensures Ticks(Ticks(s, a), b) == Ticks(s, a + b)
    decreases a
  {
    if a > 0 && s.interval.Some? {
      TicksAdd(TickGuarded(s), a - 1, b);
    } else if a > 0 {
      assert Ticks(s, a) == s;
      assert Ticks(s, b) == s && Ticks(s, a + b) == s;
    }
  }

  /** A running animation over a route of length L with the cursor at i shows
      the remaining L - i points in L - i ticks, the marker ending on the last
      of them, and finishes on the next tick: no interval left, the cursor at
      L and the status "Finished". */
  lemma RunToEnd(s: State)
    requires Valid(s) && s.animating && s.route.Some?
    ensures var n := |s.route.value| - s.index;
      && Ticks(s, n).animating && Ticks(s, n).index == |s.route.value|
      && (n > 0 ==> Ticks(s, n).position == s.route.value[|s.route.value| - 1])
    ensures var f := Ticks(s, |s.route.value| - s.index + 1);
      !f.animating && f.interval.None? && f.timers == {} && f.index == |s.route.value| && f.status == "Finished"
  {
    var n := |s.route.value| - s.index;
    TicksAdvance(s, n);
    var e := Ticks(s, n);
    TicksAdd(s, n, 1);
    assert Ticks(e, 1) == Ticks(TickGuarded(e), 0);
  }

  /** With the guarded tick, every running animation stops: after at most
      one tick more than there are points left (one tick when no route is
      loaded), no interval is installed any longer. */
  lemma GuardedRunStops(s: State)
    requires Valid(s) && s.animating
    ensures s.route.None? ==> Ticks(s, 1).interval.None? && Ticks(s, 1).status == "Finished"
    ensures s.route.Some? ==> Ticks(s, |s.route.value| - s.index + 1).interval.None?
  {
    if s.route.Some? {
      RunToEnd(s);
    } else {
      assert Ticks(s, 1) == Ticks(TickGuarded(s), 0);
    }
  }
}
