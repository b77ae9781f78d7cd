/**
 * The per-sensor-type threshold table (`src/config.js`, visible in the bundled
 * worker) and the decision whether, and at what level, a reading alerts.
 */
module Thresholds {
  import opened Common

  /**
   * A bound as the worker reads it out of a table entry: a number, an explicit
   * `null`, or `undefined` when the entry (or the whole type) is missing.
   */
  datatype Bound = Num(n: int) | Null | Undefined

  datatype Threshold = Threshold(warning: Bound, critical: Bound)

  datatype Level = Warning | Critical

  /** `value >= bound` under JavaScript's coercions: `null` compares as 0, `undefined` as NaN. */
  function AtLeast(value: int, bound: Bound): (holds: bool)
    ensures bound == Undefined ==> !holds
    ensures bound == Null ==> (holds <==> value >= 0)
    ensures bound.Num? ==> (holds <==> value >= bound.n)
  {
    match bound
    case Num(n) => value >= n
    case Null => value >= 0
    case Undefined => false
  }

  /** The table of `src/config.js`. */
  const THRESHOLDS: map<string, Threshold> := map[
    "air_quality" := Threshold(Num(100), Num(150)),
    "traffic" := Threshold(Num(60), Num(90)),
    "noise" := Threshold(Num(65), Num(85))
  ]

  /** `table[sensorType] || {}` destructured: a type with no entry yields two undefined bounds. */
  function Lookup(table: map<string, Threshold>, sensorType: string): (t: Threshold)
    ensures sensorType !in table ==> t.warning == Undefined && t.critical == Undefined
    ensures sensorType in table ==> t == table[sensorType]
  {
    if sensorType in table then table[sensorType] else Threshold(Undefined, Undefined)
  }

  /** Alerts fire only when `warning != null && value >= warning`; then `critical` decides the level. */
  function Evaluate(table: map<string, Threshold>, sensorType: string, value: int): (level: Option<Level>)
    ensures level.Some? <==>
      sensorType in table && table[sensorType].warning.Num? && value >= table[sensorType].warning.n
    ensures level == Some(Critical) <==> level.Some? && AtLeast(value, Lookup(table, sensorType).critical)
  {
    var t := Lookup(table, sensorType);
    if t.warning.Num? && AtLeast(value, t.warning) then
      Some(if AtLeast(value, t.critical) then Critical else Warning)
    else
      None
  }

  /** Orders the outcomes: no alert, warning, critical. */
  function Rank(level: Option<Level>): nat
  {
    match level
    case None => 0
    case Some(Warning) => 1
    case Some(Critical) => 2
  }

  /** A sensor type the table does not list never alerts, whatever its value. */
  lemma UnknownTypeNeverAlerts(table: map<string, Threshold>, sensorType: string, value: int)
    requires sensorType !in table
    ensures Evaluate(table, sensorType, value) == None
  {
  }

  /** For an entry with numeric bounds warning < critical: three bands, lower bounds inclusive, critical first. */
  lemma EvaluateBands(table: map<string, Threshold>, sensorType: string, value: int)
    requires sensorType in table
    requires table[sensorType].warning.Num? && table[sensorType].critical.Num?
    requires table[sensorType].warning.n < table[sensorType].critical.n
    ensures var t := table[sensorType];
      (Evaluate(table, sensorType, value) == None <==> value < t.warning.n) &&
      (Evaluate(table, sensorType, value) == Some(Warning) <==> t.warning.n <= value < t.critical.n) &&
      (Evaluate(table, sensorType, value) == Some(Critical) <==> t.critical.n <= value)
  {
  }

  /** A higher reading never gets a lower alert level, for any table. */
  lemma EvaluateMonotone(table: map<string, Threshold>, sensorType: string, low: int, high: int)
    requires low <= high
    ensures Rank(Evaluate(table, sensorType, low)) <= Rank(Evaluate(table, sensorType, high))
  {
  }

  /** An explicit `null` critical bound compares as 0, so any alerting non-negative reading is critical. */
  lemma NullCriticalActsAsZero(table: map<string, Threshold>, sensorType: string, value: int)
    requires sensorType in table && table[sensorType].critical == Null
    requires Evaluate(table, sensorType, value).Some?
    ensures Evaluate(table, sensorType, value) == Some(if value >= 0 then Critical else Warning)
  {
  }

  /** The shipped table: three types, numeric bounds, and warning strictly below critical. */
  lemma ThresholdTableWellFormed()
    ensures THRESHOLDS.Keys == {"air_quality", "traffic", "noise"}
    ensures forall t :: t in THRESHOLDS ==>
      THRESHOLDS[t].warning.Num? && THRESHOLDS[t].critical.Num? &&
      THRESHOLDS[t].warning.n < THRESHOLDS[t].critical.n
  {
  }

  /** The air-quality boundaries of the shipped table: 99, 100, 149, 150, 200. */
  lemma AirQualityBoundaries()
    ensures Evaluate(THRESHOLDS, "air_quality", 99) == None
    ensures Evaluate(THRESHOLDS, "air_quality", 100) == Some(Warning)
    ensures Evaluate(THRESHOLDS, "air_quality", 149) == Some(Warning)
    ensures Evaluate(THRESHOLDS, "air_quality", 150) == Some(Critical)
    ensures Evaluate(THRESHOLDS, "air_quality", 200) == Some(Critical)
  {
  }
}
