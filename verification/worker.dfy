/**
 * The API worker (`src/index.js`): route dispatch, the ingest handler that
 * raises alerts and records every reading, and the history read-out.
 */
module Worker {
  import opened Common
  import opened Thresholds
  import opened SensorHistoryStore

  /** The fields of a generated reading that the core uses (location and status are display data). */
  datatype Reading = Reading(id: string, sensorType: string, value: int, unit: string)

  /** The message put on `ALERT_QUEUE`. */
  datatype AlertMessage = AlertMessage(sensor: string, sensorType: string, value: int, level: Level, timestamp: int)

  datatype ApiRequest = ApiRequest(verb: string, path: string)

  /** What a worker response carries; headers (CORS, content type) are not modelled. */
  datatype ApiBody =
    | NoBody
    | Status(message: string, timestamp: int, version: string)
    | SensorCatalog
    | SensorReadings(data: seq<Reading>, timestamp: int)
    | History(entries: seq<HistoryEntry>)
    | Error(error: string)
    | AlertConfig(thresholds: map<string, Threshold>, message: string, timestamp: int)
    | PlainText(text: string)

  datatype ApiResponse = ApiResponse(status: int, body: ApiBody)

  /* ---------------------------------------------------------------- alerts */

  /**
   * The alert a reading raises in a batch stamped `now`, if any: it carries the
   * reading's id, type and value and the batch time, and is critical exactly
   * when the reading reaches its type's critical bound.
   */
  function AlertOf(reading: Reading, now: int): (alert: Option<AlertMessage>)
    ensures alert.Some? <==> Evaluate(THRESHOLDS, reading.sensorType, reading.value).Some?
    ensures alert.Some? ==>
      var m := alert.value;
      m.sensor == reading.id && m.sensorType == reading.sensorType && m.value == reading.value &&
      m.timestamp == now &&
      (m.level == Critical <==> AtLeast(reading.value, Lookup(THRESHOLDS, reading.sensorType).critical))
  {
    match Evaluate(THRESHOLDS, reading.sensorType, reading.value)
    case None => None
    case Some(level) => Some(AlertMessage(reading.id, reading.sensorType, reading.value, level, now))
  }

  /** The alerts of a batch, in the order of its readings. */
  function AlertsFor(readings: seq<Reading>, now: int): seq<AlertMessage>
    decreases |readings|
  {
    if readings == [] then []
    else
      var last := readings[|readings| - 1];
      AlertsFor(readings[..|readings| - 1], now) +
        match AlertOf(last, now) case None => [] case Some(m) => [m]
  }

  /**
   * A message is among a batch's alerts exactly when some reading of the batch
   * raises it; it then carries that reading's id, type and value, its level and
   * the batch's single timestamp.
   */
  lemma {:induction false} AlertsForMembers(readings: seq<Reading>, now: int, m: AlertMessage)
    ensures m in AlertsFor(readings, now) <==>
      exists i :: 0 <= i < |readings| && AlertOf(readings[i], now) == Some(m)
    decreases |readings|
  {
    if readings != [] {
      var n := |readings| - 1;
      var init := readings[..n];
      var last := AlertOf(readings[n], now);
      var tail := match last case None => [] case Some(a) => [a];
      assert AlertsFor(readings, now) == AlertsFor(init, now) + tail;
      assert m in tail <==> last == Some(m);
      AlertsForMembers(init, now, m);
      if m in AlertsFor(readings, now) {
        if m in AlertsFor(init, now) {
          var i :| 0 <= i < |init| && AlertOf(init[i], now) == Some(m);
          assert readings[i] == init[i];
        } else {
          assert AlertOf(readings[n], now) == Some(m);
        }
      }
      if exists i :: 0 <= i < |readings| && AlertOf(readings[i], now) == Some(m) {
        var i :| 0 <= i < |readings| && AlertOf(readings[i], now) == Some(m);
        if i < n {
          assert init[i] == readings[i];
          assert m in AlertsFor(init, now);
        } else {
          assert m in tail;
        }
      }
    }
  }

  /** The positions of a batch whose reading raises an alert. */
  function AlertingPositions(readings: seq<Reading>, now: int): set<int>
  {
    set i | 0 <= i < |readings| && AlertOf(readings[i], now).Some?
  }

  /**
   * A batch yields exactly one alert per alerting reading and none for the
   * others, each stamped with the batch time.
   */
  lemma {:induction false} AlertsForCount(readings: seq<Reading>, now: int)
    ensures |AlertsFor(readings, now)| == |AlertingPositions(readings, now)|
    ensures forall m :: m in AlertsFor(readings, now) ==> m.timestamp == now
    decreases |readings|
  {
    if readings != [] {
      var n := |readings| - 1;
      var init := readings[..n];
      AlertsForCount(init, now);
      AlertingPositionsSnoc(readings, now);
      var tail := match AlertOf(readings[n], now) case None => [] case Some(m) => [m];
      assert AlertsFor(readings, now) == AlertsFor(init, now) + tail;
      if AlertOf(readings[n], now).Some? {
        assert n !in AlertingPositions(init, now);
        assert |AlertingPositions(readings, now)| == |AlertingPositions(init, now)| + 1;
      }
    }
  }

  /** One more reading adds its own position exactly when it alerts. */
  lemma AlertingPositionsSnoc(readings: seq<Reading>, now: int)
    requires |readings| > 0
    ensures var n := |readings| - 1;
      AlertingPositions(readings, now) ==
        AlertingPositions(readings[..n], now) + if AlertOf(readings[n], now).Some? then {n} else {}
  {
    var n := |readings| - 1;
    var init := readings[..n];
    forall i | 0 <= i < n
      ensures init[i] == readings[i]
    {
    }
  }

  /** The alerts of a batch one reading longer: those of the shorter batch, then that reading's. */
  lemma AlertsForSnoc(data: seq<Reading>, i: int, now: int)
    requires 0 <= i < |data|
    ensures AlertsFor(data[..i + 1], now) ==
      AlertsFor(data[..i], now) + match AlertOf(data[i], now) case None => [] case Some(m) => [m]
  {
    assert data[..i + 1][..i] == data[..i];
  }

  /* ------------------------------------------------------------- recording */

  /** The history entry a reading becomes when its POST runs at time `t`. */
  function EntryOf(reading: Reading, t: int): HistoryEntry
  {
    HistoryEntry(t, reading.value, reading.unit)
  }

  /** Storage after POSTing every reading, in order, to its own sensor's history; `times[i]` is reading i's clock. */
  function RecordAll(storage: map<string, seq<HistoryEntry>>, readings: seq<Reading>, times: seq<int>): map<string, seq<HistoryEntry>>
    requires |times| == |readings|
    decreases |readings|
  {
    if readings == [] then storage
    else
      var n := |readings| - 1;
      var before := RecordAll(storage, readings[..n], times[..n]);
      before[readings[n].id := Appended(LogOf(before, readings[n].id), EntryOf(readings[n], times[n]))]
  }

  /** The entries a batch adds for sensor `id`, in input order. */
  function EntriesFor(readings: seq<Reading>, times: seq<int>, id: string): seq<HistoryEntry>
    requires |times| == |readings|
    decreases |readings|
  {
    if readings == [] then []
    else
      var n := |readings| - 1;
      EntriesFor(readings[..n], times[..n], id) +
        (if readings[n].id == id then [EntryOf(readings[n], times[n])] else [])
  }

  /** Recording a batch appends to each sensor's log exactly that sensor's readings, in order. */
  lemma {:induction false} RecordAllPerSensor(storage: map<string, seq<HistoryEntry>>, readings: seq<Reading>, times: seq<int>, id: string)
    requires |times| == |readings|
    ensures LogOf(RecordAll(storage, readings, times), id) == AppendAll(LogOf(storage, id), EntriesFor(readings, times, id))
    decreases |readings|
  {
    if readings != [] {
      var n := |readings| - 1;
      RecordAllPerSensor(storage, readings[..n], times[..n], id);
      var before := RecordAll(storage, readings[..n], times[..n]);
      assert RecordAll(storage, readings, times) ==
        before[readings[n].id := Appended(LogOf(before, readings[n].id), EntryOf(readings[n], times[n]))];
      var es := EntriesFor(readings[..n], times[..n], id);
      if readings[n].id == id {
        var e := EntryOf(readings[n], times[n]);
        assert (es + [e])[..|es + [e]| - 1] == es;
      } else {
        assert es + [] == es;
      }
    }
  }

  /**
   * After a batch, a sensor's log within the cap holds the last 100 of its old
   * entries followed by its new ones; a sensor the batch never names is untouched.
   */
  lemma RecordAllWindow(storage: map<string, seq<HistoryEntry>>, readings: seq<Reading>, times: seq<int>, id: string)
    requires |times| == |readings|
    requires |LogOf(storage, id)| <= MaxEntries
    ensures LogOf(RecordAll(storage, readings, times), id) == Window(LogOf(storage, id) + EntriesFor(readings, times, id))
    ensures |LogOf(RecordAll(storage, readings, times), id)| <= MaxEntries
    ensures (forall i :: 0 <= i < |readings| ==> readings[i].id != id) ==>
      LogOf(RecordAll(storage, readings, times), id) == LogOf(storage, id)
  {
    RecordAllPerSensor(storage, readings, times, id);
    AppendAllIsWindow(LogOf(storage, id), EntriesFor(readings, times, id));
    if forall i :: 0 <= i < |readings| ==> readings[i].id != id {
      EntriesForAbsent(readings, times, id);
      assert LogOf(storage, id) + [] == LogOf(storage, id);
    }
  }

  /** A sensor no reading names gets no entries. */
  lemma {:induction false} EntriesForAbsent(readings: seq<Reading>, times: seq<int>, id: string)
    requires |times| == |readings|
    requires forall i :: 0 <= i < |readings| ==> readings[i].id != id
    ensures EntriesFor(readings, times, id) == []
    decreases |readings|
  {
    if readings != [] {
      var n := |readings| - 1;
      assert forall i :: 0 <= i < n ==> readings[..n][i] == readings[i];
      EntriesForAbsent(readings[..n], times[..n], id);
    }
  }

  /** Recording a batch one reading longer: the shorter batch, then one more POST. */
  lemma RecordAllSnoc(storage: map<string, seq<HistoryEntry>>, data: seq<Reading>, times: seq<int>, j: int)
    requires |times| == |data| && 0 <= j < |data|
    ensures var before := RecordAll(storage, data[..j], times[..j]);
      RecordAll(storage, data[..j + 1], times[..j + 1]) ==
        before[data[j].id := Appended(LogOf(before, data[j].id), EntryOf(data[j], times[j]))]
  {
    assert data[..j + 1][..j] == data[..j];
    assert times[..j + 1][..j] == times[..j];
  }

  /* ------------------------------------------------------------ alert queue */

  /** The `ALERT_QUEUE` binding: what has been sent to it so far. */
  class AlertQueue {
    var sent: seq<AlertMessage>

    constructor ()
      ensures sent == []
    {
      sent := [];
    }

    method Send(message: AlertMessage)
      modifies this
      ensures sent == old(sent) + [message]
    {
      sent := sent + [message];
    }
  }

  /** The threshold pass of `handleSensorData`: each alerting reading, in order, is sent to the queue if one is bound. */
  method DispatchAlerts(data: seq<Reading>, now: int, queue: AlertQueue?)
    modifies queue
    ensures queue != null ==> queue.sent == old(queue.sent) + AlertsFor(data, now)
  {
    var i := 0;
    while i < |data|
      invariant 0 <= i <= |data|
      invariant queue != null ==> queue.sent == old(queue.sent) + AlertsFor(data[..i], now)
    {
      var reading := data[i];
      var alert := AlertOf(reading, now);
      if alert.Some? {
        if queue != null {
          queue.Send(alert.value);
        }
      }
      AlertsForSnoc(data, i, now);
      i := i + 1;
    }
    assert data[..|data|] == data;
  }

  /** The record pass of `handleSensorData`: every reading is POSTed to its own sensor's history, in order. */
  method RecordReadings(data: seq<Reading>, postTimes: seq<int>, histories: SensorHistory)
    requires |postTimes| == |data|
    modifies histories
    ensures histories.storage == RecordAll(old(histories.storage), data, postTimes)
  {
    var j := 0;
    while j < |data|
      invariant 0 <= j <= |data|
      invariant histories.storage == RecordAll(old(histories.storage), data[..j], postTimes[..j])
    {
      var reading := data[j];
      var _ := histories.Fetch(reading.id, HistoryRequest("POST", "/history", Some(Payload(reading.value, reading.unit))), postTimes[j]);
      RecordAllSnoc(old(histories.storage), data, postTimes, j);
      j := j + 1;
    }
    assert data[..|data|] == data;
    assert postTimes[..|postTimes|] == postTimes;
  }

  /**
   * `handleSensorData`: `data` is what the generator produced, `now` the batch
   * time, `postTimes[i]` the clock the history partition reads for reading i.
   * `queue` is null when no alert queue is bound. Alerts are dispatched first;
   * then every reading is recorded, whatever the alert outcome.
   */
  method HandleSensorData(data: seq<Reading>, now: int, postTimes: seq<int>, histories: SensorHistory, queue: AlertQueue?)
    returns (response: ApiResponse)
    requires |postTimes| == |data|
    modifies histories, queue
    ensures queue != null ==> queue.sent == old(queue.sent) + AlertsFor(data, now)
    ensures histories.storage == RecordAll(old(histories.storage), data, postTimes)
    ensures response == ApiResponse(200, SensorReadings(data, now))
  {
    DispatchAlerts(data, now, queue);
    RecordReadings(data, postTimes, histories);
    response := ApiResponse(200, SensorReadings(data, now));
  }

  /* ----------------------------------------------------------- path segments */

  /** `s.split('/')`: the pieces between slashes, empty pieces included. */
  function SplitSlash(s: string): (parts: seq<string>)
    ensures |parts| >= 1
    ensures forall i :: 0 <= i < |parts| ==> '/' !in parts[i]
    ensures JoinSlash(parts) == s
    decreases |s|
  {
    if s == [] then [""]
    else
      var init := SplitSlash(s[..|s| - 1]);
      var c := s[|s| - 1];
      if c == '/' then
        assert (init + [""])[..|init|] == init;
        assert s == s[..|s| - 1] + "/" + "";
        init + [""]
      else
        var k := |init| - 1;
        var parts := init[..k] + [init[k] + [c]];
        assert parts[..k] == init[..k];
        assert s == s[..|s| - 1] + [c];
        JoinSnoc(init, c);
        parts
  }

  /** `parts.join('/')`. */
  function JoinSlash(parts: seq<string>): string
    requires |parts| >= 1
    decreases |parts|
  {
    if |parts| == 1 then parts[0]
    else JoinSlash(parts[..|parts| - 1]) + "/" + parts[|parts| - 1]
  }

  /** Extending the last piece extends the joined string. */
  lemma JoinSnoc(parts: seq<string>, c: char)
    requires |parts| >= 1
    ensures var k := |parts| - 1;
      JoinSlash(parts[..k] + [parts[k] + [c]]) == JoinSlash(parts) + [c]
  {
    var k := |parts| - 1;
    var q := parts[..k] + [parts[k] + [c]];
    if k == 0 {
      assert q == [parts[0] + [c]];
    } else {
      assert q[..k] == parts[..k] && q[k] == parts[k] + [c];
      var front := JoinSlash(parts[..k]) + "/";
      calc {
        JoinSlash(q);
        JoinSlash(q[..k]) + "/" + q[k];
        front + (parts[k] + [c]);
        (front + parts[k]) + [c];
        JoinSlash(parts) + [c];
      }
    }
  }

  /** `pathParts[pathParts.length - 1]`: a piece of the path with no slash in it. */
  function SensorIdOf(path: string): (id: string)
    ensures '/' !in id
  {
    var parts := SplitSlash(path);
    parts[|parts| - 1]
  }

  /** The sensor id is the longest slash-free suffix of the path. */
  lemma SensorIdIsLastSegment(path: string)
    ensures var id := SensorIdOf(path);
      '/' !in id && IsSuffix(id, path) &&
      (|id| < |path| ==> path[|path| - |id| - 1] == '/')
  {
    var parts := SplitSlash(path);
    var id := parts[|parts| - 1];
    if |parts| > 1 {
      var head := JoinSlash(parts[..|parts| - 1]);
      assert path == head + "/" + id;
      assert path[|path| - |id|..] == id;
      assert path[|path| - |id| - 1] == '/';
    }
  }

  /** Whatever comes before the last slash, the id is what follows it. */
  lemma SensorIdAfterLastSlash(prefix: string, segment: string)
    requires '/' !in segment
    ensures SensorIdOf(prefix + "/" + segment) == segment
  {
    var path := prefix + "/" + segment;
    var id := SensorIdOf(path);
    SensorIdIsLastSegment(path);
    assert path[|prefix|] == '/';
    assert path[|prefix| + 1..] == segment;
  }

  /** The id is empty exactly when the path is empty or ends in a slash. */
  lemma EmptySensorIdIffTrailingSlash(path: string)
    ensures SensorIdOf(path) == "" <==> (path == "" || path[|path| - 1] == '/')
  {
    var id := SensorIdOf(path);
    SensorIdIsLastSegment(path);
    if id != "" {
      assert path[|path| - 1] == id[|id| - 1];
    }
  }

  /* ---------------------------------------------------------------- routing */

  datatype Route = Preflight | Root | Sensors | SensorDataRoute | SensorHistoryRoute | Alerts | NoRoute

  const HistoryPrefix: string := "/history/"

  /** The dispatcher of `fetch`: OPTIONS first, then the paths in the order the source tests them. */
  function RouteOf(verb: string, path: string): (r: Route)
    ensures r == Preflight <==> verb == "OPTIONS"
    ensures r == SensorHistoryRoute ==> HistoryPrefix <= path
    ensures r == NoRoute ==> path != "/" && path != "/sensors" && path != "/sensors/data" && path != "/alerts"
  {
    if verb == "OPTIONS" then Preflight
    else if path == "/" then Root
    else if path == "/sensors" then Sensors
    else if path == "/sensors/data" then SensorDataRoute
    else if HistoryPrefix <= path then SensorHistoryRoute
    else if path == "/alerts" then Alerts
    else NoRoute
  }

  /** OPTIONS wins on any path; the other routes match exactly, except the history prefix. */
  lemma RouteDispatch(verb: string, path: string)
    ensures verb == "OPTIONS" ==> RouteOf(verb, path) == Preflight
    ensures verb != "OPTIONS" ==>
      (RouteOf(verb, path) == Root <==> path == "/") &&
      (RouteOf(verb, path) == Sensors <==> path == "/sensors") &&
      (RouteOf(verb, path) == SensorDataRoute <==> path == "/sensors/data") &&
      (RouteOf(verb, path) == Alerts <==> path == "/alerts") &&
      (RouteOf(verb, path) == SensorHistoryRoute <==> HistoryPrefix <= path) &&
      (RouteOf(verb, path) == NoRoute <==>
        path != "/" && path != "/sensors" && path != "/sensors/data" && path != "/alerts" &&
        !(HistoryPrefix <= path))
  {
    if HistoryPrefix <= path {
      assert path[1] == 'h';
    }
  }

  /** `/history` alone is not routed; `/history/` is routed but names no sensor. */
  lemma HistoryPathEdges()
    ensures RouteOf("GET", "/history") == NoRoute
    ensures RouteOf("GET", "/history/") == SensorHistoryRoute
    ensures SensorIdOf("/history/") == ""
    ensures SensorIdOf("/history/noise_003") == "noise_003"
  {
    EmptySensorIdIffTrailingSlash("/history/");
    SensorIdAfterLastSlash("/history", "noise_003");
    assert "/history" + "/" + "noise_003" == "/history/noise_003";
  }

  /* --------------------------------------------------------------- handlers */

  /** `handleSensorHistory`: read the history of the sensor named by the path's last segment. */
  method HandleSensorHistory(path: string, histories: SensorHistory) returns (response: ApiResponse)
    modifies histories
    ensures histories.storage == old(histories.storage)
    ensures SensorIdOf(path) == "" ==> response == ApiResponse(400, Error("Sensor ID is required"))
    ensures SensorIdOf(path) != "" ==>
      response == ApiResponse(200, History(LogOf(old(histories.storage), SensorIdOf(path))))
  {
    var pathParts := SplitSlash(path);
    var sensorId := pathParts[|pathParts| - 1];
    if sensorId == "" {
      return ApiResponse(400, Error("Sensor ID is required"));
    }
    // A GET does not read the clock, so the time passed is irrelevant.
    var reply := histories.Fetch(sensorId, HistoryRequest("GET", "/history", None), 0);
    return ApiResponse(200, History(reply.body.entries));
  }

  /**
   * The worker's `fetch`. `now` is `Date.now()`, `generated` what the mock
   * generator returns for this request, `postTimes` the history clock per reading.
   */
  method Fetch(request: ApiRequest, now: int, generated: seq<Reading>, postTimes: seq<int>,
               histories: SensorHistory, queue: AlertQueue?) returns (response: ApiResponse)
    requires |postTimes| == |generated|
    modifies histories, queue
    ensures RouteOf(request.verb, request.path) != SensorDataRoute ==>
      histories.storage == old(histories.storage) && (queue != null ==> queue.sent == old(queue.sent))
    ensures RouteOf(request.verb, request.path) == Preflight ==> response == ApiResponse(200, NoBody)
    ensures RouteOf(request.verb, request.path) == Root ==>
      response == ApiResponse(200, Status("Smart City API is live!", now, "1.0.0"))
    ensures RouteOf(request.verb, request.path) == Sensors ==> response == ApiResponse(200, SensorCatalog)
    ensures RouteOf(request.verb, request.path) == SensorDataRoute ==>
      histories.storage == RecordAll(old(histories.storage), generated, postTimes) &&
      (queue != null ==> queue.sent == old(queue.sent) + AlertsFor(generated, now)) &&
      response == ApiResponse(200, SensorReadings(generated, now))
    ensures RouteOf(request.verb, request.path) == SensorHistoryRoute ==>
      response == (if SensorIdOf(request.path) == "" then ApiResponse(400, Error("Sensor ID is required"))
                   else ApiResponse(200, History(LogOf(old(histories.storage), SensorIdOf(request.path)))))
    ensures RouteOf(request.verb, request.path) == Alerts ==>
      response == ApiResponse(200, AlertConfig(THRESHOLDS, "Alert system active", now))
    ensures RouteOf(request.verb, request.path) == NoRoute ==> response == ApiResponse(404, PlainText("Not Found"))
  {
    var path := request.path;
    if request.verb == "OPTIONS" {
      return ApiResponse(200, NoBody);
    }
    if path == "/" {
      return ApiResponse(200, Status("Smart City API is live!", now, "1.0.0"));
    }
    if path == "/sensors" {
      return ApiResponse(200, SensorCatalog);
    }
    if path == "/sensors/data" {
      response := HandleSensorData(generated, now, postTimes, histories, queue);
      return;
    }
    if HistoryPrefix <= path {
      response := HandleSensorHistory(path, histories);
      return;
    }
    if path == "/alerts" {
      return ApiResponse(200, AlertConfig(THRESHOLDS, "Alert system active", now));
    }
    return ApiResponse(404, PlainText("Not Found"));
  }
}
