# Route tracking of alan-kapmaca, in Dafny

The page `script.js` lets a walker trace a route on a map. Three callbacks
drive a small piece of module-level state: `isTracking`, the recorded route
`userPath`, the start point `startPosition`, and the `disabled` flags of the
start and finish buttons.

- **Start** (the success callback of the start button's position request)
  adopts the current position as start point, resets the route to that one
  point and switches tracking on. It has no guard: it does this from any
  state, also during a session, and it does not touch the finish button.
- **Update** (`updatePosition`, the watch callback) drops the position when
  not tracking; otherwise it appends it to the route and enables the finish
  button exactly when the position lies less than 20 m from the start point,
  as measured by the map's distance function.
- **Finish** (the finish button's click handler) does nothing when not
  tracking; otherwise it switches tracking off, re-enables the start button
  and disables the finish button. Route and start point are kept, because
  the route is drawn as the closed polygon.

The project has two modules:

- `Route` (`route.dfy`): the state as a value `State`, each handler as a
  step function, `Run` folding a stream of callbacks (`Event`), the
  invariant `Valid` and the lemmas about whole sessions.
- `RouteTracker` (`tracker.dfy`): class `Tracker`, whose fields are the
  page's variables; `Start`, `Update` and `Finish` change them in place, and
  each is proved to produce exactly the corresponding step of `Route`.

The map's `distance` is a parameter of type `(Coord, Coord) -> real`; every
result holds for every distance function. Each asynchronous callback is one
atomic step, as the browser delivers it.

A start callback during a session is not rejected; it resets the route.
The finish handler is guarded only by `isTracking`. `script.js` keeps no
running distance, timer or area.

## Model

| member | source | states |
|---|---|---|
| Route.Initial | script.js:8-13 | the page starts not tracking, with an empty route and no start point, in a state satisfying the invariant |
| Route.StartStep | script.js:47-64 | from any state: route is exactly `[p]`, start point is `p`, tracking and start button disabled are on, finish flag untouched; the result satisfies the invariant |
| Route.UpdateStep | script.js:77-100 | when not tracking every field is unchanged; when tracking the route grows by exactly one point `p` at the end with every earlier entry kept, and finishing is enabled iff the distance from `p` to the start is below 20 m; tracking, start and start button never change; preserves the invariant and the finish-flag agreement |
| Route.FinishStep | script.js:103-124 | when not tracking nothing changes; afterwards tracking is always off; a finish during a session enables start and disables finish; route and start point unchanged; preserves the invariant |
| Route.Step | script.js:67-73 | each callback preserves the invariant and the finish-flag agreement; a location error changes nothing |
| Route.Run | script.js:43-124 | every state reached by any stream of callbacks from a valid state satisfies the invariant: no start point means empty route and not tracking, a start point is the route's first entry, start button disabled iff tracking, finish enabled only while tracking |
| Route.RunKeepsFinishFlag | script.js:92-99 | across any stream of callbacks, a session whose route has a point besides the start has finishing enabled iff its last point is within 20 m of the start |
| Route.IdleIgnoresAllButStart | script.js:77-104 | when not tracking, any stream of updates, finish clicks and errors leaves the whole state unchanged |
| Route.FinishThenDropped | script.js:103-108 | after a finish, every later callback up to the next start is dropped |
| Route.RunAppendOnly | script.js:77-83 | between starts the start point is fixed and the route only grows at its end: the old route is a prefix of the new |
| Route.StartAnchorsRoute | script.js:47-53 | after a start at `p`, any callbacks up to the next start keep `p` as start point and as the route's first entry |
| Route.UpdatesAppendInOrder | script.js:77-99 | while tracking, a stream of positions is appended in order, tracking stays on, and finishing is enabled iff the last position is within 20 m of the start |
| RouteTracker.Tracker.constructor | script.js:7-13 | the fields hold the initial state and the object invariant holds |
| RouteTracker.Tracker.Start | script.js:43-64 | the fields change exactly as `StartStep`: route `[p]`, start `p`, tracking and start button disabled on, finish flag unchanged |
| RouteTracker.Tracker.Update | script.js:77-100 | the fields change exactly as `UpdateStep`: nothing when not tracking, else `p` appended and finish enabled iff within 20 m of the start |
| RouteTracker.Tracker.Finish | script.js:103-124 | the fields change exactly as `FinishStep`: nothing when not tracking, else tracking off, start enabled, finish disabled; route and start kept |

## Left out

- The initial button state: `index.html` is not part of this model. `Route.Initial` takes the page to load with the start button enabled and the finish button disabled, the state the finish handler restores as "the initial state of the buttons" (script.js:121-123); the invariant conjunct "finish enabled only while tracking" rests on it.
- Map creation and re-centering, the tile layer, the start marker and popup, the polyline, the polygon, `panTo` and `fitBounds`: rendering in the Leaflet library, with no effect on the tracking state.
- The geolocation support check, `getCurrentPosition`, `watchPosition`, `clearWatch`, their options and the `watchId` handle: asynchronous device input; each delivered callback is one call of a step.
- The geometry of `map.distance`: it is a parameter, and nothing is proved about it.
- `handleError`'s `alert` and `console.error`: presentation only; an error is the event `LocationFailed`, which changes no state.
- The `alert` after a finish: presentation only.
- The browser's suppression of clicks on a disabled button: the finish handler is modelled as reachable in every state, guarded only by `isTracking`, as the handler itself is.
- Floating-point coordinates: latitude and longitude are `real`; the handlers only copy them and compare one distance with 20.
