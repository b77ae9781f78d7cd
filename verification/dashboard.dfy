/**
 * Decision logic of the dashboard page (`App.js`): the colour of a sensor
 * card's border, its icon, and which card is expanded.
 */
module Dashboard {
  import opened Common
  import Thresholds

  const Green: string := "#4CAF50"
  const Orange: string := "#FF9800"
  const Red: string := "#F44336"
  const Blue: string := "#2196F3"

  predicate IsKnownType(sensorType: string)
  {
    sensorType == "air_quality" || sensorType == "traffic" || sensorType == "noise"
  }

  /** `getStatusColor`: per-type bands with inclusive upper bounds; blue for any other type. */
  function StatusColor(sensorType: string, value: int): (color: string)
    ensures color == Blue <==> !IsKnownType(sensorType)
    ensures color in {Green, Orange, Red, Blue}
  {
    if sensorType == "air_quality" then
      if value <= 50 then Green else if value <= 100 then Orange else Red
    else if sensorType == "traffic" then
      if value <= 30 then Green else if value <= 60 then Orange else Red
    else if sensorType == "noise" then
      if value <= 50 then Green else if value <= 65 then Orange else Red
    else
      Blue
  }

  /** How alarming a colour is: green, orange, red; any other colour ranks with green. */
  function Severity(color: string): nat
  {
    if color == Red then 2 else if color == Orange then 1 else 0
  }

  /** The bands of each known type; every upper bound is inclusive. */
  lemma StatusColorBands(value: int)
    ensures StatusColor("air_quality", value) == Green <==> value <= 50
    ensures StatusColor("air_quality", value) == Orange <==> 50 < value <= 100
    ensures StatusColor("air_quality", value) == Red <==> 100 < value
    ensures StatusColor("traffic", value) == Green <==> value <= 30
    ensures StatusColor("traffic", value) == Orange <==> 30 < value <= 60
    ensures StatusColor("traffic", value) == Red <==> 60 < value
    ensures StatusColor("noise", value) == Green <==> value <= 50
    ensures StatusColor("noise", value) == Orange <==> 50 < value <= 65
    ensures StatusColor("noise", value) == Red <==> 65 < value
  {
  }

  /** Both classifiers are total: an unknown type is blue, a known one is green, orange or red. */
  lemma StatusColorTotal(sensorType: string, value: int)
    ensures !IsKnownType(sensorType) ==> StatusColor(sensorType, value) == Blue
    ensures IsKnownType(sensorType) ==>
      StatusColor(sensorType, value) in {Green, Orange, Red}
  {
  }

  /** For every type the colour never becomes less severe as the value grows (an unknown type is always blue). */
  lemma StatusColorMonotone(sensorType: string, low: int, high: int)
    requires low <= high
    ensures Severity(StatusColor(sensorType, low)) <= Severity(StatusColor(sensorType, high))
  {
  }

  /** A reading that raises an alert on the worker is never shown green, and a critical one is shown red. */
  lemma AlertedReadingNotGreen(sensorType: string, value: int)
    requires Thresholds.Evaluate(Thresholds.THRESHOLDS, sensorType, value).Some?
    ensures StatusColor(sensorType, value) != Green
    ensures Thresholds.Evaluate(Thresholds.THRESHOLDS, sensorType, value) == Some(Thresholds.Critical) ==>
      StatusColor(sensorType, value) == Red
  {
  }

  /** `getSensorIcon`. */
  function SensorIcon(sensorType: string): (icon: string)
    ensures icon == "\U{1F4CA}" <==> !IsKnownType(sensorType)
  {
    if sensorType == "air_quality" then "\U{1F32C}\U{FE0F}"
    else if sensorType == "traffic" then "\U{1F697}"
    else if sensorType == "noise" then "\U{1F50A}"
    else "\U{1F4CA}"
  }

  /** The three known types get three different icons; every other type gets the default. */
  lemma SensorIconCases(sensorType: string)
    ensures !IsKnownType(sensorType) <==> SensorIcon(sensorType) == "\U{1F4CA}"
    ensures SensorIcon("air_quality") != SensorIcon("traffic") &&
      SensorIcon("traffic") != SensorIcon("noise") && SensorIcon("air_quality") != SensorIcon("noise")
  {
  }

  /**
   * The card selection after a click on card `id`: that card unless it was the
   * selected one, in which case nothing stays selected.
   */
  function Toggled(selected: Option<string>, id: string): (r: Option<string>)
    ensures r == Some(id) <==> selected != Some(id)
    ensures r == None <==> selected == Some(id)
  {
    if selected == Some(id) then None else Some(id)
  }

  /** Two clicks on one card restore the selection when it was empty or that card. */
  lemma ToggleTwice(selected: Option<string>, id: string)
    requires selected == None || selected == Some(id)
    ensures Toggled(Toggled(selected, id), id) == selected
  {
  }

  /** When another card was selected, two clicks on this card leave nothing selected. */
  lemma ToggleTwiceFromOtherCard(other: string, id: string)
    requires other != id
    ensures Toggled(Toggled(Some(other), id), id) == None
  {
  }

  /** The page's `selectedSensorId` state. */
  class SensorGrid {
    var selectedSensorId: Option<string>

    constructor ()
      ensures selectedSensorId == None
    {
      selectedSensorId := None;
    }

    /** The card's `onClick`. */
    method ClickCard(id: string)
      modifies this
      ensures selectedSensorId == Toggled(old(selectedSensorId), id)
      ensures selectedSensorId == Some(id) <==> old(selectedSensorId) != Some(id)
    {
      if selectedSensorId == Some(id) {
        selectedSensorId := None;
      } else {
        selectedSensorId := Some(id);
      }
    }
  }
}
