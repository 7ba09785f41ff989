/** The page's tracking state as one object whose fields the event handlers
    update in place; each handler is specified by its step in module Route. */
module RouteTracker {
  import opened Route

  class Tracker {
    /** map.distance of the page's map. */
    const dist: Distance

    var tracking: bool             // isTracking
    var path: seq<Coord>           // userPath
    var start: Option<Coord>       // startPosition, undefined until the first start
    var startDisabled: bool        // startButton.disabled
    var finishDisabled: bool       // finishButton.disabled

    /** The fields as a Route.State. */
    function Snapshot(): State
      reads this
    {
      State(tracking, path, start, startDisabled, finishDisabled)
    }

    ghost predicate Valid()
      reads this
    {
      Route.Valid(Snapshot()) && FinishFlagAgrees(Snapshot(), dist)
    }

    /** The page as loaded. */
    constructor (dist: Distance)
      ensures Valid() && this.dist == dist
      ensures Snapshot() == Initial()
    {
      this.dist := dist;
      tracking := false;
      path := [];
      start := None;
      startDisabled := false;
      finishDisabled := true;
    }

    /** Success callback of the start click's position request. */
    method Start(p: Coord)
      requires Valid()
      modifies this
      ensures Valid()
      ensures Snapshot() == StartStep(old(Snapshot()), p)
      ensures tracking && startDisabled && path == [p] && start == Some(p)
      ensures finishDisabled == old(finishDisabled)
    {
      start := Some(p);
      path := [p];
      tracking := true;
      startDisabled := true;
    }

    /** updatePosition: the watch callback for a new position p. */
    method Update(p: Coord)
      requires Valid()
      modifies this
      ensures Valid()
      ensures Snapshot() == UpdateStep(old(Snapshot()), p, dist)
      ensures !old(tracking) ==> unchanged(this)
      ensures old(tracking) ==> path == old(path) + [p]
      ensures old(tracking) ==> (!finishDisabled <==> dist(p, start.value) < FinishRadius)
    {
      if !tracking {
        return;
      }
      path := path + [p];
      var distanceToStart := dist(p, start.value);
      if distanceToStart < FinishRadius {
        finishDisabled := false;
      } else {
        finishDisabled := true;
      }
    }

    /** The finish button's click handler. */
    method Finish()
      requires Valid()
      modifies this
      ensures Valid()
      ensures Snapshot() == FinishStep(old(Snapshot()))
      ensures !old(tracking) ==> unchanged(this)
      ensures old(tracking) ==> !tracking && !startDisabled && finishDisabled
      ensures path == old(path) && start == old(start)
    {
      if !tracking {
        return;
      }
      tracking := false;
      startDisabled := false;
      finishDisabled := true;
    }
  }
}
