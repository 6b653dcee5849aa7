# Flight map: marker reconciliation and the poll switch

This project models the one component with logic in a browser map widget that
shows live flight positions: `MapComponent`. Two parts of it are modelled and
proved.

- **Marker reconciliation** (`updateFlightMarkers`). Each poll delivers a batch
  of positional flight rows. The component walks the batch in order and keeps a
  table from flight id to map marker. A known id has its marker moved, given a
  new rotated icon and a new popup. An unknown id gets a new marker, which is
  added to the map and filed under the id. Nothing is ever removed.
- **The poll switch** (`showFlights`, `startFlights`, `stopFlights`,
  `ngOnInit`, `ngOnDestroy`). This is a flag plus the handle of the poll's
  subscription. The toggle starts or stops polling. Stopping is idempotent. A
  fetch error stops polling.

Files:

- `flights.dfy`, module `Flights`. It defines the row cells (`Value`) and the
  positional fields. It defines the `Marker` record (lat, lng, heading, popup)
  and the pair `Markers` of table and map layer. The specification functions
  are `Upsert` (one row) and `Reconcile` (a batch, in order). The lemmas prove
  what reconciliation promises.
- `map_component.dfy`, module `FlightMap`. The class `MapComponent` holds the
  fields the source updates in place: `flightMarkers`, `isFlightsActive` and
  `flightsSubscription`. It also holds two ghost fields. `layer` is the map
  layer. `subscriptions` lists every subscription ever opened.
  `UpdateFlightMarkers` is the source's loop, proved against `Reconcile`. The
  class invariant `Valid()` says three things:
  - the flag is set exactly when a subscription is held;
  - every subscription but the current one is closed;
  - each id has one marker, added to the map once.

Modelling choices:

- **Row cells.** A row is a sequence of JSON cells. The model never computes on
  a number, so a number is carried by the text JavaScript prints for it.
  `Show` is JavaScript's `String(v)`. Reading past the end of a row gives
  `undefined`, as a JavaScript array does.
- **Table keys.** The table key is `String(flight[0])`, because object keys are
  strings. So a numeric id `123` and a string id `"123"` share one marker.
- **Deliveries.** A poll delivery is `OnTick(s, tick)`. The tick is either a
  batch of rows or an error, delivered through subscription `s`. A closed
  subscription delivers nothing.

What the code does not do, and the model therefore does not do either:

- It does not check a row's coordinates before using them. Rows with missing
  coordinates are not skipped.
- It does not filter rows by country.
- It passes the heading into the icon as it is, with no default when it is
  missing.
- It treats every delivery as an array of rows (`data.forEach`). There is no
  handling of an object that wraps the rows.

## Model

| member | source | states |
|---|---|---|
| `Flights.Refreshed` | src/app/map/map.component.ts:150-154 | The update path (setLatLng, setIcon, bindPopup on the existing marker) leaves exactly the marker the create path builds. Position, heading and popup come from the row and nothing of the old marker survives. |
| `Flights.Upsert` | src/app/map/map.component.ts:150-161 | One row: the table afterwards maps the row's id to the marker built from the row, and every other entry is unchanged. The layer gains the id exactly when the id had no marker. One-marker-per-id is preserved. |
| `Flights.Reconcile` | src/app/map/map.component.ts:129-164 | A whole batch, applied row by row in batch order. It preserves the invariant that each id owns one marker and appears once in the map layer, and that the layer and the table hold the same ids. |
| `Flights.LastIndex` | src/app/map/map.component.ts:130-131 | For an id the batch mentions, it returns the position of the last row carrying it: that row has the id and no later row does. |
| `Flights.ReconcileKeys` | src/app/map/map.component.ts:150-161 | Afterwards the table's keys are exactly the old keys together with the batch's ids. Nothing is removed. |
| `Flights.ReconcileKeepsOthers` | src/app/map/map.component.ts:129-164 | An id the batch does not mention keeps its marker unchanged. |
| `Flights.ReconcileLastRowWins` | src/app/map/map.component.ts:150-157 | If several rows share an id, the last one decides that id's marker (position, heading, popup), whatever the marker was before. |
| `Flights.ReconcileLayer` | src/app/map/map.component.ts:155-161 | The map layer only grows. What one batch adds is exactly the batch's ids that had no marker before. |
| `Flights.KnownIdsAddNothing` | src/app/map/map.component.ts:150-154 | A batch whose ids all have markers adds no marker to the map. |
| `Flights.ReconcileIdempotent` | src/app/map/map.component.ts:129-164 | Reconciling the same batch twice gives the same table and layer as reconciling it once. |
| `Flights.ReconcileAppend` | src/app/map/map.component.ts:129-164 | Reconciling two batches in turn is the same as reconciling their concatenation. The table carries over between polls. |
| `Flights.TwoBatchesOneFlight` | src/app/map/map.component.ts:129-164 | Take flight A1 at (12.9, 77.5) heading 45, then at (13, 77.6) heading 90. Afterwards there is one marker, for A1, at (13, 77.6) with heading 90 and popup "Flight XY123<br>Country: India<br>Lat: 13, Lng: 77.6". It was added to the map once. |
| `FlightMap.MapComponent.UpdateFlightMarkers` | src/app/map/map.component.ts:129-164 | The forEach loop: afterwards the table and the layer are exactly `Reconcile` of the old ones with the batch. |
| `FlightMap.MapComponent.constructor` | src/app/map/map.component.ts:31-37 | A new component is idle with no subscription, an empty marker table and nothing on the map. |
| `FlightMap.MapComponent.NgOnInit` | src/app/map/map.component.ts:39-43 | Init presses the toggle, with the toggle's full effect. From active: idle, no subscription, every subscription closed, none opened. From idle: active with one fresh open subscription, appended to those opened. The markers are unchanged either way. |
| `FlightMap.MapComponent.NgOnDestroy` | src/app/map/map.component.ts:45-47 | Teardown leaves the component idle with no subscription. The list of subscriptions it ever opened is unchanged, and every one of them, including the one live before teardown, is closed. |
| `FlightMap.MapComponent.ShowFlights` | src/app/map/map.component.ts:97-103 | From active: idle, no subscription, every subscription closed. From idle: active with one fresh open subscription, appended to those opened. The markers are unchanged either way. |
| `FlightMap.MapComponent.StartFlights` | src/app/map/map.component.ts:105-118 | From idle: the flag is set and a fresh, open subscription is held. |
| `FlightMap.MapComponent.StopFlights` | src/app/map/map.component.ts:120-127 | Always ends inactive with no subscription and every subscription closed. Stopping an idle component changes nothing (idempotent). |
| `FlightMap.MapComponent.OnTick` | src/app/map/map.component.ts:107-117 | A delivery through a closed subscription changes nothing. Only the current subscription delivers. A batch is reconciled (exactly `Reconcile`) and polling goes on. An error closes the subscription, drops it and leaves the component idle with the markers untouched. |
| `FlightMap.ToggleTwice` | src/app/map/map.component.ts:97-103 | Pressing the toggle twice returns the flag and subscription presence to where they were. Exactly one subscription is opened on the way, appended to those opened before. Every subscription held before the two presses is closed afterwards, and if the end state is idle, so is the one just opened. The markers are untouched. |

## Left out

- Map set-up (`initMap`), the tile layer, and the icon's SVG/HTML and `L.divIcon` options are Leaflet rendering. Only the heading value carried into the icon is kept.
- Geolocation (`currentPosition`, `showCurrentLocation`) is a browser API driven by asynchronous callbacks.
- The poll timing (`interval(10000)`) and `switchMap`'s cancelling of a superseded in-flight request are scheduling. A poll is modelled only as a delivery of rows or of an error.
- `MapService.getFlights` is an HTTP GET, and its error re-mapping is network I/O. Its cache fields are never used.
- Logging (`console.error`) is left out.
- Marker objects are modelled as values keyed by their id, not as shared Leaflet objects. Each is referenced only by its table entry and the map, so in-place updates are modelled as replacing the entry's value.
- Ids equal to names inherited by plain JavaScript objects (`"constructor"`, `"toString"`, `"__proto__"`) are not modelled. For them, the source's truthiness lookup finds an inherited property instead of a marker.
- A row that is not an array, and cells that are nested arrays or objects, are not modelled. Cells are undefined, null, booleans, numbers (by their printed text) or strings.
- Leaflet rejects a coordinate that is not a number, such as `undefined` or a non-numeric string, and throws. This happens inside `L.marker` (line 156) or `setLatLng` (line 152). The `forEach` then ends at that row: earlier rows are applied, and that row and the later ones are not. The model applies every row and stores the coordinate values as given. Which cell values Leaflet accepts is outside the model.
- A delivery that is not an array makes `data.forEach` (line 130) throw inside the `next` handler. In rxjs 7 that error is reported as unhandled and never reaches `error:`, so polling goes on and the markers stay unchanged. `Tick` only delivers arrays of rows, so this case is not modelled.
- FlightMap.MapComponent.StartFlights: requires the component to be idle. Its only caller, `showFlights`, guarantees this. Called while active, the source would drop the old subscription without closing it.
