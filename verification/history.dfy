/**
 * The `SensorHistory` Durable Object: one storage partition per sensor, each
 * holding the list of that sensor's most recent readings under the key "data".
 */
module SensorHistoryStore {
  import opened Common

  /** One stored entry: a reading without the sensor id it is filed under. */
  datatype HistoryEntry = HistoryEntry(timestamp: int, value: int, unit: string)

  /** The JSON body of a POST: `{ value, unit }`. */
  datatype Payload = Payload(value: int, unit: string)

  /** A request as the Durable Object sees it: HTTP method (`verb`), path and, for a POST, its JSON body. */
  datatype HistoryRequest = HistoryRequest(verb: string, path: string, body: Option<Payload>)

  datatype HistoryBody = Text(text: string) | Entries(entries: seq<HistoryEntry>)

  datatype HistoryResponse = HistoryResponse(status: int, body: HistoryBody)

  /** How many entries a sensor's history keeps. */
  const MaxEntries: nat := 100

  predicate IsPost(request: HistoryRequest)
  {
    request.verb == "POST" && request.path == "/history"
  }

  predicate IsGet(request: HistoryRequest)
  {
    request.verb == "GET" && request.path == "/history"
  }

  /** `(await storage.get("data")) || []`: a record never written reads as the empty list. */
  function LogOf(storage: map<string, seq<HistoryEntry>>, sensorId: string): (log: seq<HistoryEntry>)
    ensures sensorId !in storage ==> log == []
    ensures sensorId in storage ==> log == storage[sensorId]
    ensures AllBounded(storage) ==> |log| <= MaxEntries
  {
    if sensorId in storage then storage[sensorId] else []
  }

  /** Every stored list respects the cap. */
  ghost predicate AllBounded(storage: map<string, seq<HistoryEntry>>)
  {
    forall id :: id in storage ==> |storage[id]| <= MaxEntries
  }

  /**
   * The list after one POST: push the entry, then shift once if the list grew
   * past the cap. The new entry is last; what precedes it is the old list, in
   * order, without at most its head.
   */
  function Appended(log: seq<HistoryEntry>, entry: HistoryEntry): (r: seq<HistoryEntry>)
    ensures |r| >= 1 && r[|r| - 1] == entry
    ensures IsSuffix(r[..|r| - 1], log) && |log| - 1 <= |r| - 1 <= |log|
  {
    var pushed := log + [entry];
    if |pushed| > MaxEntries then pushed[1..] else pushed
  }

  /** The last min(|s|, MaxEntries) elements of `s`, in their original order. */
  function Window(s: seq<HistoryEntry>): (w: seq<HistoryEntry>)
    ensures |w| == if |s| <= MaxEntries then |s| else MaxEntries
    ensures IsSuffix(w, s)
  {
    if |s| <= MaxEntries then s else s[|s| - MaxEntries..]
  }

  /** The list after POSTing `entries` one after another, starting from `log`. */
  function AppendAll(log: seq<HistoryEntry>, entries: seq<HistoryEntry>): seq<HistoryEntry>
    decreases |entries|
  {
    if entries == [] then log
    else Appended(AppendAll(log, entries[..|entries| - 1]), entries[|entries| - 1])
  }

  /** The cap holds inductively: a list of at most 100 stays at most 100, and a full list loses exactly its head. */
  lemma AppendKeepsCap(log: seq<HistoryEntry>, entry: HistoryEntry)
    requires |log| <= MaxEntries
    ensures |Appended(log, entry)| <= MaxEntries
    ensures |log| < MaxEntries ==> Appended(log, entry) == log + [entry]
    ensures |log| == MaxEntries ==> Appended(log, entry) == log[1..] + [entry]
  {
  }

  /** Eviction is one entry per POST: an over-long list is not trimmed back to the cap. */
  lemma AppendOverfullNotTrimmed(log: seq<HistoryEntry>, entry: HistoryEntry)
    requires |log| > MaxEntries
    ensures |Appended(log, entry)| == |log| > MaxEntries
    ensures Appended(log, entry) == log[1..] + [entry]
  {
  }

  /** Appending to the window of a list gives the window of the longer list. */
  lemma AppendWindow(s: seq<HistoryEntry>, entry: HistoryEntry)
    ensures Appended(Window(s), entry) == Window(s + [entry])
  {
    var t := s + [entry];
    if |s| < MaxEntries {
      assert Window(s) == s && Window(t) == t;
    } else if |s| == MaxEntries {
      assert Window(s) == s && Window(t) == t[1..];
    } else {
      var w := Window(s);
      assert w == s[|s| - MaxEntries..];
      assert (w + [entry])[1..] == s[|s| - MaxEntries + 1..] + [entry];
      assert Window(t) == t[|t| - MaxEntries..];
      assert t[|t| - MaxEntries..] == s[|s| - MaxEntries + 1..] + [entry];
    }
  }

  /** From a list within the cap, a run of POSTs leaves the last 100 of all entries, oldest first. */
  lemma {:induction false} AppendAllIsWindow(log: seq<HistoryEntry>, entries: seq<HistoryEntry>)
    requires |log| <= MaxEntries
    ensures AppendAll(log, entries) == Window(log + entries)
    decreases |entries|
  {
    if entries == [] {
      assert log + entries == log;
    } else {
      var init, last := entries[..|entries| - 1], entries[|entries| - 1];
      assert entries == init + [last];
      assert log + entries == (log + init) + [last];
      calc {
        AppendAll(log, entries);
        Appended(AppendAll(log, init), last);
        { AppendAllIsWindow(log, init); }
        Appended(Window(log + init), last);
        { AppendWindow(log + init, last); }
        Window((log + init) + [last]);
      }
    }
  }

  /** N POSTs to an empty history leave exactly the last min(N, 100) entries, in insertion order. */
  lemma AppendAllFromEmpty(entries: seq<HistoryEntry>)
    ensures AppendAll([], entries) == Window(entries)
    ensures |AppendAll([], entries)| <= MaxEntries
  {
    AppendAllIsWindow([], entries);
    assert [] + entries == entries;
  }

  /**
   * The storage of every `SensorHistory` instance of the namespace. Each
   * instance reads and writes only its own record, the one under its sensor id.
   */
  class SensorHistory {
    /** The "data" record of each partition; a sensor id that is absent was never written. */
    var storage: map<string, seq<HistoryEntry>>

    constructor ()
      ensures storage == map[]
      ensures AllBounded(storage)
    {
      storage := map[];
    }

    /** `SensorHistory.fetch`, run by the instance of `sensorId`; `now` is what `Date.now()` returns. */
    method Fetch(sensorId: string, request: HistoryRequest, now: int) returns (response: HistoryResponse)
      requires IsPost(request) ==> request.body.Some?
      modifies this
      ensures IsPost(request) ==>
        var entry := HistoryEntry(now, request.body.value.value, request.body.value.unit);
        storage == old(storage)[sensorId := Appended(LogOf(old(storage), sensorId), entry)] &&
        response == HistoryResponse(200, Text("OK"))
      ensures IsGet(request) ==>
        storage == old(storage) &&
        response == HistoryResponse(200, Entries(LogOf(old(storage), sensorId)))
      ensures !IsPost(request) && !IsGet(request) ==>
        storage == old(storage) && response == HistoryResponse(404, Text("Not Found"))
      ensures forall id :: id != sensorId ==> LogOf(storage, id) == LogOf(old(storage), id)
      ensures AllBounded(old(storage)) ==> AllBounded(storage)
    {
      if request.verb == "POST" && request.path == "/history" {
        var body := request.body.value;
        var timestamp := now;
        var history := LogOf(storage, sensorId);
        ghost var before := history;
        history := history + [HistoryEntry(timestamp, body.value, body.unit)];
        if |history| > MaxEntries {
          history := history[1..];
        }
        storage := storage[sensorId := history];
        if AllBounded(old(storage)) {
          AppendKeepsCap(before, HistoryEntry(timestamp, body.value, body.unit));
        }
        return HistoryResponse(200, Text("OK"));
      }
      if request.verb == "GET" && request.path == "/history" {
        var history := LogOf(storage, sensorId);
        return HistoryResponse(200, Entries(history));
      }
      return HistoryResponse(404, Text("Not Found"));
    }
  }
}
