# Smart-city sensor pipeline — a Dafny model

This project models the core of a small city-monitoring platform. It has three parts:

- **Backend worker.** A worker ingests sensor readings. It checks each reading against a per-type threshold table and puts an alert message on a queue when the reading crosses a threshold. It then records every reading into that sensor's history, which is a list capped at 100 entries and kept in a Durable Object. A second route reads a sensor's history back.
- **Dashboard page.** Two pure classifiers: the colour of a sensor card and its icon. Also the toggle that expands one sensor card at a time.
- **Map component.** The tile-provider fallback. After a tile error the map moves to the next of seven providers, cyclically, and does this a bounded number of times.

Modules:

- `common.dfy`, module `Common`: an `Option` type and a suffix predicate.
- `history.dfy`, module `SensorHistoryStore`: the `SensorHistory` Durable Object, from `api/src/history.js`. Its bundled copy is the same code up to formatting and comments.
  - The class `SensorHistory` holds the `"data"` record of every partition, as a map keyed by sensor id. A missing key is a record that was never written.
  - `Fetch` is the object's `fetch`, run by the partition of one sensor id.
  - It is specified by the functions `Appended` (one push followed by at most one shift), `Window` (the last 100 entries) and `AppendAll` (a run of POSTs).
- `thresholds.dfy`, module `Thresholds`: the `THRESHOLDS` table and the alert decision.
  - Table entries are `Bound` values: a number, `null` or `undefined`. JavaScript compares `v >= null` as `v >= 0`, and `v >= undefined` is always false.
- `worker.dfy`, module `Worker`: the worker's `fetch` dispatcher and `handleSensorData`.
  - `handleSensorData` runs an alert pass and then a record pass, two loops specified by `AlertsFor` and `RecordAll`.
  - `handleSensorHistory` is modelled too, with `split('/')` as `SplitSlash` and its inverse `JoinSlash`.
  - The alert queue is a class whose only state is the list of messages sent to it.
- `dashboard.dfy`, module `Dashboard`: `getStatusColor`, `getSensorIcon`, and the card-selection state (class `SensorGrid`).
- `map_view.dfy`, module `MapView`: `providerOrder` and the provider keys of `utils/mapConfig.js`, plus the `TileMap` state machine.
  - The state is `selectedProvider`, `currentProviderKey`, `retryCount`, `tileError`, `isLoading` and `showHeatmap`.
  - The handlers are modelled as methods. The delayed `setTimeout` callback is its own method, `RunFallback`, applied atomically with the values it captured.

Environment inputs are passed in as parameters:

- `Date.now()` becomes `now` for the worker. Each history POST gets its own clock value, `postTimes[i]`.
- The mock generator's output becomes `generated`.
- The queue binding becomes a nullable `AlertQueue`, which is null when no queue is bound.

The model follows the code:

- The code does not validate readings, reject malformed ones or report an accepted count. The model has none of these either.
- A `null` critical bound is compared as 0 and not ignored. See `Thresholds.NullCriticalActsAsZero`.
- Eviction removes one entry per POST. It does not trim the list down to 100. See `SensorHistoryStore.AppendOverfullNotTrimmed`.

## Model

| member | source | states |
|---|---|---|
| `SensorHistoryStore.SensorHistory.constructor` | smart-city-platform/api/src/history.js:2-5 | a fresh namespace has no stored records, so every history reads as empty |
| `SensorHistoryStore.SensorHistory.Fetch` | smart-city-platform/api/src/history.js:7-31 | POST `/history` stores `{now, value, unit}` at the end of the sensor's list (absent reads as empty), evicts the head past 100 and answers 200 "OK"; GET `/history` returns the stored list or `[]` and writes nothing; anything else is 404 and writes nothing; other sensors' records never change and the 100-entry cap is preserved |
| `SensorHistoryStore.LogOf` | smart-city-platform/api/src/history.js:15 | a record never written reads as the empty list, a written one as what was stored; under the cap invariant the list has at most 100 entries |
| `SensorHistoryStore.Appended` | smart-city-platform/api/src/history.js:16-18 | a POST puts exactly the new entry last; what precedes it is the old list, in order, minus at most its head (see `AppendKeepsCap` and `AppendOverfullNotTrimmed` for when the head goes) |
| `SensorHistoryStore.Window` | smart-city-platform/api/src/history.js:17-18 | the window keeps min(n, 100) entries and is a suffix of the list |
| `SensorHistoryStore.AppendKeepsCap` | smart-city-platform/api/src/history.js:16-18 | a list of at most 100 stays at most 100; below 100 nothing is evicted; at exactly 100 the old head goes and the length stays 100 |
| `SensorHistoryStore.AppendOverfullNotTrimmed` | smart-city-platform/api/.wrangler/tmp/dev-8WFBFM/index.js:33-35 | a list already over 100 loses only its head, so its length does not come back to 100 |
| `SensorHistoryStore.AppendWindow` | smart-city-platform/api/.wrangler/tmp/dev-8WFBFM/index.js:32-36 | appending to the last-100 window of a list yields the last-100 window of the extended list |
| `SensorHistoryStore.AppendAllIsWindow` | smart-city-platform/api/src/history.js:15-19 | a run of POSTs from a list within the cap leaves the last 100 of old-plus-new entries, oldest first |
| `SensorHistoryStore.AppendAllFromEmpty` | smart-city-platform/api/src/history.js:15-19 | N POSTs to an empty history leave the last min(N, 100) entries in insertion order |
| `Thresholds.Evaluate` | api/src/index.js:102-104 | an alert fires iff the type has an entry with a numeric warning and value >= warning; it is critical iff the value also reaches the critical bound under JavaScript comparison |
| `Thresholds.AtLeast` | api/src/index.js:103-104 | JavaScript `v >= bound`: false against `undefined`, `v >= 0` against `null`, the numeric comparison otherwise |
| `Thresholds.Lookup` | api/src/index.js:102 | the type's entry, or an empty object, destructured: a listed type gives its entry, any other type two `undefined` bounds |
| `Thresholds.UnknownTypeNeverAlerts` | api/src/index.js:102-103 | a type absent from the table never alerts |
| `Thresholds.EvaluateBands` | smart-city-platform/api/.wrangler/tmp/dev-8WFBFM/index.js:141-143 | with numeric warning < critical: below warning no alert, warning <= v < critical warning, v >= critical critical; both boundaries inclusive |
| `Thresholds.EvaluateMonotone` | api/src/index.js:102-104 | a larger value never gets a lower alert level, for any table |
| `Thresholds.NullCriticalActsAsZero` | api/src/index.js:104 | with an explicit `null` critical bound, an alerting non-negative value is critical |
| `Thresholds.ThresholdTableWellFormed` | smart-city-platform/api/.wrangler/tmp/dev-8WFBFM/index.js:51-55 | the table lists air_quality 100/150, traffic 60/90, noise 65/85, all numeric, warning < critical |
| `Thresholds.AirQualityBoundaries` | smart-city-platform/api/.wrangler/tmp/dev-8WFBFM/index.js:141-143 | air_quality 99 gives no alert, 100 and 149 warning, 150 and 200 critical |
| `Worker.AlertsForMembers` | api/src/index.js:101-117 | a message is among a batch's alerts iff some reading of the batch raises it |
| `Worker.AlertOf` | api/src/index.js:102-114 | a reading raises an alert iff `Evaluate` gives a level; the alert carries the reading's id, type and value and the batch time, and is critical iff the value reaches the critical bound |
| `Worker.AlertsForCount` | api/src/index.js:101-117 | a batch yields exactly as many alerts as it has alerting readings, each stamped with the single batch time |
| `Worker.AlertingPositionsSnoc` | api/src/index.js:101-103 | one more reading adds its own position to the alerting ones exactly when it alerts |
| `Worker.DispatchAlerts` | api/src/index.js:101-117 | the `forEach` pass: a bound queue receives, after what it already had, exactly `AlertsFor` of the batch in input order; an unbound queue is not touched |
| `Worker.RecordAllPerSensor` | smart-city-platform/api/.wrangler/tmp/dev-8WFBFM/index.js:156-164 | recording a batch applies to each sensor's log exactly that sensor's readings as POSTs, in input order |
| `Worker.RecordAllWindow` | api/src/index.js:120-128 | after a batch a capped log holds the last 100 of its old and new entries; a sensor not in the batch keeps its log |
| `Worker.EntriesForAbsent` | api/src/index.js:120-128 | a sensor no reading names receives no entries |
| `Worker.RecordReadings` | api/src/index.js:120-128 | the `for…of` pass: the histories afterwards are `RecordAll` of the batch with each POST's own clock |
| `Worker.AlertQueue.Send` | api/src/index.js:108-114 | a send appends the message to what the queue has received |
| `Worker.HandleSensorData` | api/src/index.js:96-131 | the queue, when bound, receives exactly the batch's alerts in order; every reading is then POSTed to its own sensor's history whatever the alert outcome; the response carries the readings and the batch time |
| `Worker.SplitSlash` | api/src/index.js:135 | `split('/')` gives at least one piece, no piece contains a slash, and joining with '/' gives back the path |
| `Worker.SensorIdOf` | api/src/index.js:135-136 | the last piece of `split('/')` contains no slash (see `SensorIdIsLastSegment`, `SensorIdAfterLastSlash`) |
| `Worker.JoinSnoc` | api/src/index.js:135 | extending the last piece extends the joined path by the same character |
| `Worker.SensorIdIsLastSegment` | api/src/index.js:136 | the sensor id is a slash-free suffix of the path preceded by a slash when shorter than the path |
| `Worker.SensorIdAfterLastSlash` | api/src/index.js:135-136 | for `prefix + "/" + segment` with a slash-free segment the id is that segment |
| `Worker.EmptySensorIdIffTrailingSlash` | api/src/index.js:138-143 | the id is empty, and the request answered 400, iff the path is empty or ends in a slash |
| `Worker.RouteDispatch` | api/src/index.js:20-49 | OPTIONS is routed to the preflight answer on any path; `/`, `/sensors`, `/sensors/data`, `/alerts` match exactly, `/history/` as a prefix, anything else is 404 |
| `Worker.RouteOf` | api/src/index.js:20-49 | the preflight route is chosen iff the verb is OPTIONS; the history route only for paths starting `/history/`; no route only for paths that are none of the exact routes |
| `Worker.HistoryPathEdges` | smart-city-platform/api/.wrangler/tmp/dev-8WFBFM/index.js:84-90 | `/history` is 404, `/history/` is routed but names no sensor, `/history/noise_003` names `noise_003` |
| `Worker.HandleSensorHistory` | api/src/index.js:133-155 | an empty last segment answers 400 without touching storage; otherwise the sensor's stored list (or `[]`) is returned and storage is unchanged |
| `Worker.Fetch` | api/src/index.js:7-50 | each route gives its response; only `/sensors/data` changes histories or the queue, as `handleSensorData` does |
| `Dashboard.StatusColorBands` | smart-city-platform/frontend/src/App.js:46-57 | air_quality green <= 50 < orange <= 100 < red; traffic cut-offs 30 and 60; noise 50 and 65 |
| `Dashboard.StatusColorTotal` | smart-city-platform/frontend/src/App.js:58-59 | an unknown type is blue `#2196F3`; a known type is green, orange or red |
| `Dashboard.StatusColorMonotone` | smart-city-platform/frontend/src/App.js:44-60 | for every type the colour severity never decreases as the value grows |
| `Dashboard.AlertedReadingNotGreen` | smart-city-platform/frontend/src/App.js:44-60 | a reading the worker alerts on is never shown green, and a critical one is shown red |
| `Dashboard.SensorIconCases` | smart-city-platform/frontend/src/App.js:35-42 | the three known types get three different icons, every other type the default icon |
| `Dashboard.StatusColor` | smart-city-platform/frontend/src/App.js:44-61 | the colour is blue iff the type is not one of the three known ones, and is always one of green, orange, red, blue (bands in `StatusColorBands`) |
| `Dashboard.SensorIcon` | smart-city-platform/frontend/src/App.js:35-42 | the default chart icon is returned iff the type is unknown |
| `Dashboard.Toggled` | smart-city-platform/frontend/src/App.js:87 | a click selects the card iff it was not the selected one, and clears the selection iff it was |
| `Dashboard.ToggleTwice` | smart-city-platform/frontend/src/App.js:87 | two clicks on a card restore the selection when it was empty or that card |
| `Dashboard.ToggleTwiceFromOtherCard` | smart-city-platform/frontend/src/App.js:87 | when another card was selected, two clicks on this card leave nothing selected |
| `Dashboard.SensorGrid.constructor` | smart-city-platform/frontend/src/App.js:12 | nothing is selected at first |
| `Dashboard.SensorGrid.ClickCard` | smart-city-platform/frontend/src/App.js:87 | the new selection is the toggled one: this card unless it was already selected |
| `MapView.IndexOf` | frontend/src/components/MapView.js:90 | `indexOf` returns the first position of the key, or -1 exactly when the key is absent |
| `MapView.ProviderOrderIsKeySet` | frontend/src/components/MapView.js:73 | the order has seven distinct keys, exactly the configured providers, including the default |
| `MapView.IndexOfDistinct` | frontend/src/components/MapView.js:90 | in an order without repeats each key is found at its own position |
| `MapView.NextInStep` | frontend/src/components/MapView.js:90-92 | a step never stays on the same key; a key outside the order goes to the first |
| `MapView.NextInAt` | frontend/src/components/MapView.js:91 | from position p a step goes to p + 1, or to 0 after the last |
| `MapView.NextIn` | frontend/src/components/MapView.js:90-92 | the provider after a key is always a key of the order, for any key including unknown ones |
| `MapView.NextProviderStep` | frontend/src/components/MapView.js:90-92 | a fallback never selects the provider it leaves; an unknown key falls back to `openstreetmap` |
| `MapView.NextProvider` | frontend/src/components/MapView.js:90-92 | a fallback always lands on a configured provider |
| `MapView.ChainInIndex` | frontend/src/components/MapView.js:91 | k successive steps from position i reach position i + k, wrapped once |
| `MapView.ChainInStep` | frontend/src/components/MapView.js:90-92 | one more fallback from position i + k - 1 (wrapped once) reaches i + k (wrapped once) |
| `MapView.ChainDistinct` | frontend/src/components/MapView.js:89-92 | in an order without repeats, fewer than one lap of different step counts reach different keys |
| `MapView.FallbackChainDistinct` | frontend/src/components/MapView.js:89-92 | the up to six fallbacks from a configured provider reach six different providers |
| `MapView.TileMap.constructor` | frontend/src/components/MapView.js:66-71 | the map starts on the default provider with no error, no retries, loading and the heatmap off |
| `MapView.TileMap.HandleProviderChange` | frontend/src/components/MapView.js:77-83 | both provider fields become the chosen key, the error clears and retries reset; loading and heatmap unchanged |
| `MapView.TileMap.HandleTileError` | frontend/src/components/MapView.js:85-100 | the error flag is set; below six retries a fallback to the next provider with the captured retry count is scheduled, otherwise nothing is; the provider itself is unchanged |
| `MapView.TileMap.RunFallback` | frontend/src/components/MapView.js:94-98 | the scheduled callback switches provider, sets the retry count to the captured count plus one (never above six) and clears the error |
| `MapView.TileMap.HandleTileLoad` | frontend/src/components/MapView.js:102-106 | the error clears, retries reset and loading ends; providers unchanged |

## Left out

- Request and response objects, URL parsing, JSON encoding, and the CORS and content-type headers. A response is a status plus a body datatype.
- `Date.now()` is not read: its values are passed in as the parameters `now` (the batch time) and `postTimes` (each history POST's own clock). `Math.random()` and the mock readings are not modelled. `handleSensors` returns a constant list, which the model shows only as `SensorCatalog`. The readings the generator produced are a parameter.
- The `console.log` of each alert.
- `ALERT_QUEUE.send` is not awaited, and its delivery and failure are not modelled. A send appends to the queue's list of received messages.
- The lookup of Durable Object instances (`idFromName`/`get`) is not modelled. Storage is one map keyed by sensor name.
  - Concurrency between writers and `storage` failures or timeouts are not modelled. Calls run one after another.
- `SensorHistoryStore.SensorHistory.Fetch` requires a POST to carry a JSON body. The source throws, unhandled, when it does not.
- The wrangler middleware and facade in the bundle are framework code. Its history and ingest code is the same code as `src/` up to formatting and comments, and is covered by the same members.
- Plain-object prototype lookups (`THRESHOLDS["toString"]`) are not modelled. They destructure to `undefined` bounds exactly like a missing type.
- In `MapView.js`: the heatmap layer, the JSX, and the one-second delay before a fallback runs. A scheduled fallback is applied whenever `RunFallback` is called. React's batching of state updates is not modelled.
- The alert consumer (`alert-processor`), the predictive-analytics component, the history chart, the alert notifications, and the upload and git helper scripts are not part of this model.
