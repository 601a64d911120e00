/**
 * The unit system: the component keeps the provider's unit group as a string,
 * "metric" or "us", flips it with the toggle button, and picks every unit
 * label on screen from it.
 */
module Units {

  const Metric: string := "metric"
  const Us: string := "us"

  /** The two unit groups the component ever stores. */
  predicate IsKnownUnit(unit: string) {
    unit == Metric || unit == Us
  }

  /**
   * handleUnitChange's new unit: "us" after "metric", and "metric" after any
   * other value. The unit always changes, so the fetch effect that depends on
   * it always runs again.
   */
  function Toggle(unit: string): (next: string)
    ensures IsKnownUnit(next)
    ensures next == Us <==> unit == Metric
    ensures next != unit
  {
    if unit == Metric then Us else Metric
  }

  /** On the two stored values the toggle is an involution. */
  lemma ToggleTwiceRestores(unit: string)
    requires IsKnownUnit(unit)
    ensures Toggle(Toggle(unit)) == unit
  {
  }

  /** The unit labels the dashboard shows: temperature suffix, wind speed, distance. */
  datatype UnitLabels = UnitLabels(temperature: string, windSpeed: string, distance: string)

  const MetricLabels: UnitLabels := UnitLabels("C", "km/h", "km")
  const ImperialLabels: UnitLabels := UnitLabels("F", "mph", "mi")

  /**
   * The three label choices, each made by its own test of the unit. They
   * agree: all metric labels exactly when the unit is "metric", all imperial
   * labels otherwise, never a mixture.
   */
  function LabelsFor(unit: string): (labels: UnitLabels)
    ensures labels == MetricLabels <==> unit == Metric
    ensures labels == ImperialLabels <==> unit != Metric
  {
    UnitLabels(
      if unit == Metric then "C" else "F",
      if unit == Metric then "km/h" else "mph",
      if unit == Metric then "km" else "mi")
  }

  /**
   * The toggle always switches the whole label set, and toggling twice brings
   * the labels back, even from a unit value other than the two known ones.
   */
  lemma ToggleSwitchesLabels(unit: string)
    ensures LabelsFor(Toggle(unit)) != LabelsFor(unit)
    ensures LabelsFor(Toggle(Toggle(unit))) == LabelsFor(unit)
  {
  }

  /** The caption of the unit button. */
  function ToggleCaption(unit: string): (caption: string)
    ensures caption == "Switch to °" + LabelsFor(Toggle(unit)).temperature
  {
    if unit == Metric then "Switch to °F" else "Switch to °C"
  }

  /** The temperature axis and dataset title of the chart. */
  function TemperatureTitle(unit: string): (title: string)
    ensures title == "Temperature (°" + LabelsFor(unit).temperature + ")"
  {
    if unit == Metric then "Temperature (°C)" else "Temperature (°F)"
  }
}
