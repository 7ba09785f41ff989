/** The route-tracking state machine of script.js, as values.
    A State holds the page's module-level tracking variables and the two
    button flags; each event handler is a function from the old State to
    the new one, and Run folds a whole stream of handler invocations. */
module Route {

  /** A recorded position: latitude and longitude in degrees. */
  datatype Coord = Coord(lat: real, lng: real)

  datatype Option<T> = None | Some(value: T)

  /** The distance function of the map (Leaflet's map.distance), in metres.
      Its geometry is not modelled: every lemma holds for every such function. */
  type Distance = (Coord, Coord) -> real

  /** Within this many metres of the start point the finish button is enabled. */
  const FinishRadius: real := 20.0

  /** isTracking, userPath, startPosition, startButton.disabled, finishButton.disabled. */
  datatype State = State(
    tracking: bool,
    path: seq<Coord>,
    start: Option<Coord>,
    startDisabled: bool,
    finishDisabled: bool)

  /** One callback delivered to the page. */
  datatype Event =
    | Located(p: Coord)      // success callback of getCurrentPosition after a start click
    | Moved(p: Coord)        // success callback of watchPosition (updatePosition)
    | FinishClicked          // click on the finish button
    | LocationFailed         // error callback (handleError)

  function Last(s: seq<Coord>): Coord
    requires s != []
  {
    s[|s| - 1]
  }

  /** The invariant every reachable State keeps. */
  predicate Valid(s: State) {
    (s.start.None? ==> s.path == [] && !s.tracking) &&
    (s.start.Some? ==> s.path != [] && s.path[0] == s.start.value) &&
    s.startDisabled == s.tracking &&
    (!s.finishDisabled ==> s.tracking)
  }

  /** Once a tracking session holds a position besides its start point, the
      finish button is enabled exactly when the last position is near the start. */
  predicate FinishFlagAgrees(s: State, dist: Distance) {
    s.tracking && |s.path| >= 2 && s.start.Some? ==>
      (!s.finishDisabled <==> dist(Last(s.path), s.start.value) < FinishRadius)
  }

  /** No event in evs is a start. */
  predicate NoStart(evs: seq<Event>) {
    forall i :: 0 <= i < |evs| ==> !evs[i].Located?
  }

  /** The page as loaded: not tracking, empty route, no start point; the start
      button enabled and the finish button disabled. */
  function Initial(): (s: State)
    ensures Valid(s) && !s.tracking && s.path == [] && s.start.None?
  {
    State(false, [], None, false, true)
  }

  /** The start callback: adopts p as the start point, resets the route to [p]
      and switches tracking on, whatever the previous state. */
  function StartStep(s: State, p: Coord): (r: State)
    ensures r.tracking && r.startDisabled
    ensures r.start == Some(p) && r.path == [p]
    ensures r.finishDisabled == s.finishDisabled
    ensures Valid(r)
  {
    s.(start := Some(p), path := [p], tracking := true, startDisabled := true)
  }

  /** updatePosition: dropped when not tracking; otherwise appends p and
      enables finishing exactly when p lies within FinishRadius of the start. */
  function UpdateStep(s: State, p: Coord, dist: Distance): (r: State)
    requires s.tracking ==> s.start.Some?
    ensures !s.tracking ==> r == s
    ensures s.tracking ==>
      |r.path| == |s.path| + 1 && r.path[..|s.path|] == s.path && Last(r.path) == p
    ensures s.tracking ==>
      (!r.finishDisabled <==> dist(p, s.start.value) < FinishRadius)
    ensures r.tracking == s.tracking && r.start == s.start && r.startDisabled == s.startDisabled
    ensures Valid(s) ==> Valid(r)
    ensures FinishFlagAgrees(s, dist) ==> FinishFlagAgrees(r, dist)
  {
    if !s.tracking then s
    else
      var near := dist(p, s.start.value) < FinishRadius;
      s.(path := s.path + [p], finishDisabled := !near)
  }

  /** The finish handler: ignored when not tracking; otherwise switches
      tracking off and restores both buttons, keeping the route and start
      point (they are used to draw the polygon). */
  function FinishStep(s: State): (r: State)
    ensures !s.tracking ==> r == s
    ensures !r.tracking
    ensures s.tracking ==> !r.startDisabled && r.finishDisabled
    ensures r.path == s.path && r.start == s.start
    ensures Valid(s) ==> Valid(r)
  {
    if !s.tracking then s
    else s.(tracking := false, startDisabled := false, finishDisabled := true)
  }

  /** Dispatch one event; a location error changes nothing. */
  function Step(s: State, e: Event, dist: Distance): (r: State)
    requires Valid(s)
    ensures Valid(r)
    ensures e.LocationFailed? ==> r == s
    ensures FinishFlagAgrees(s, dist) ==> FinishFlagAgrees(r, dist)
  {
    match e
    case Located(p) => StartStep(s, p)
    case Moved(p) => UpdateStep(s, p, dist)
    case FinishClicked => FinishStep(s)
    case LocationFailed => s
  }

  /** The state after the events evs, delivered one at a time, in order. */
  function Run(s: State, evs: seq<Event>, dist: Distance): (r: State)
    requires Valid(s)
    ensures Valid(r)
    decreases |evs|
  {
    if evs == [] then s else Run(Step(s, evs[0], dist), evs[1..], dist)
  }

  /** A stream of position updates, one per point of ps. */
  function Moves(ps: seq<Coord>): (evs: seq<Event>)
    ensures |evs| == |ps|
    ensures forall i :: 0 <= i < |ps| ==> evs[i] == Moved(ps[i])
  {
    if ps == [] then [] else [Moved(ps[0])] + Moves(ps[1..])
  }

  lemma NoStartTail(evs: seq<Event>)
    requires evs != [] && NoStart(evs)
    ensures !evs[0].Located? && NoStart(evs[1..])
  {
  }

  /** The finish flag agrees with the last position after any event stream,
      for the whole session. */
  lemma {:induction false} RunKeepsFinishFlag(s: State, evs: seq<Event>, dist: Distance)
    requires Valid(s) && FinishFlagAgrees(s, dist)
    ensures FinishFlagAgrees(Run(s, evs, dist), dist)
    decreases |evs|
  {
    if evs != [] {
      RunKeepsFinishFlag(Step(s, evs[0], dist), evs[1..], dist);
    }
  }

  /** Outside a session nothing but a start changes the state: every update,
      finish click and error is dropped. */
  lemma {:induction false} IdleIgnoresAllButStart(s: State, evs: seq<Event>, dist: Distance)
    requires Valid(s) && !s.tracking && NoStart(evs)
    ensures Run(s, evs, dist) == s
    decreases |evs|
  {
    if evs != [] {
      NoStartTail(evs);
      assert Step(s, evs[0], dist) == s;
      IdleIgnoresAllButStart(s, evs[1..], dist);
    }
  }

  /** After a finish, every further update (and finish, and error) is
      dropped until the next start. */
  lemma {:induction false} FinishThenDropped(s: State, evs: seq<Event>, dist: Distance)
    requires Valid(s) && NoStart(evs)
    ensures Run(FinishStep(s), evs, dist) == FinishStep(s)
  {
    IdleIgnoresAllButStart(FinishStep(s), evs, dist);
  }

  /** Between two starts the route is append-only and the start point fixed. */
  lemma {:induction false} RunAppendOnly(s: State, evs: seq<Event>, dist: Distance)
    requires Valid(s) && NoStart(evs)
    ensures Run(s, evs, dist).start == s.start
    ensures |s.path| <= |Run(s, evs, dist).path|
    ensures Run(s, evs, dist).path[..|s.path|] == s.path
    decreases |evs|
  {
    if evs != [] {
      NoStartTail(evs);
      var t := Step(s, evs[0], dist);
      assert t.start == s.start && |s.path| <= |t.path| && t.path[..|s.path|] == s.path;
      RunAppendOnly(t, evs[1..], dist);
      var r := Run(t, evs[1..], dist);
      assert r.path[..|s.path|] == r.path[..|t.path|][..|s.path|];
    }
  }

  /** Once a session is started at p, its route begins with p and its start
      point stays p through any updates and finishes up to the next start. */
  lemma StartAnchorsRoute(s: State, p: Coord, evs: seq<Event>, dist: Distance)
    requires NoStart(evs)
    ensures Run(StartStep(s, p), evs, dist).start == Some(p)
    ensures Run(StartStep(s, p), evs, dist).path != []
    ensures Run(StartStep(s, p), evs, dist).path[0] == p
  {
    RunAppendOnly(StartStep(s, p), evs, dist);
  }

  /** While tracking, a stream of updates appends its points in order, keeps
      tracking on, and leaves finishing enabled exactly when the last point
      is near the start. */
  lemma {:induction false} UpdatesAppendInOrder(s: State, ps: seq<Coord>, dist: Distance)
    requires Valid(s) && s.tracking
    ensures Run(s, Moves(ps), dist).tracking
    ensures Run(s, Moves(ps), dist).start == s.start
    ensures Run(s, Moves(ps), dist).path == s.path + ps
    ensures ps != [] ==>
      (!Run(s, Moves(ps), dist).finishDisabled <==> dist(Last(ps), s.start.value) < FinishRadius)
    decreases |ps|
  {
    if ps == [] {
      assert s.path + ps == s.path;
    } else {
      var evs := Moves(ps);
      assert evs[0] == Moved(ps[0]);
      assert evs[1..] == Moves(ps[1..]);
      var t := Step(s, evs[0], dist);
      assert t.path == s.path + [ps[0]];
      UpdatesAppendInOrder(t, ps[1..], dist);
      assert s.path + ps == t.path + ps[1..];
      if ps[1..] != [] {
        assert Last(ps[1..]) == Last(ps);
      }
    }
  }
}
