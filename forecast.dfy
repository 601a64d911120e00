/**
 * The view derivation the dashboard renders from a provider response: the
 * chart series (`prepareChartData`), the hourly strip, the daily list and the
 * precipitation amount. Time and date labels come from the browser's locale
 * formatting, which is not part of this model; they enter as functions of the
 * epoch second.
 */
module Forecast {
  import opened JsNumber
  import Conditions
  import Units

  /** One entry of `days[i].hours` in the provider response. */
  datatype Hour = Hour(datetimeEpoch: int, temp: real, precipprob: real, conditions: string)

  /** One entry of `days` in the provider response. */
  datatype Day = Day(
    datetimeEpoch: int,
    temp: real,
    tempmin: real,
    tempmax: real,
    precipprob: real,
    precip: JsNum,
    conditions: string,
    hours: seq<Hour>)

  /** `xs.map(f)`: one result per element, in the same order. */
  function Map<A, B>(f: A -> B, xs: seq<A>): (ys: seq<B>)
    ensures |ys| == |xs|
    ensures forall i :: 0 <= i < |xs| ==> ys[i] == f(xs[i])
  {
    if xs == [] then [] else [f(xs[0])] + Map(f, xs[1..])
  }

  // ---------------------------------------------------------------------------
  // Chart
  // ---------------------------------------------------------------------------

  /** One chart series; `title` is the legend text Chart.js calls the dataset's label. */
  datatype Dataset = Dataset(title: string, data: seq<real>, yAxisID: string)

  datatype ChartData = ChartData(labels: seq<string>, datasets: seq<Dataset>)

  const PrecipitationTitle: string := "Precipitation %"

  /**
   * `prepareChartData(hours)`: the hour labels, and two datasets, temperature
   * on the left axis and precipitation probability on the right, all three
   * parallel to `hours` and in its order.
   */
  function PrepareChartData(hours: seq<Hour>, unit: string, hourLabel: int -> string): (chart: ChartData)
    ensures |chart.datasets| == 2
    ensures |chart.labels| == |hours|
    ensures |chart.datasets[0].data| == |hours| && |chart.datasets[1].data| == |hours|
    ensures forall i :: 0 <= i < |hours| ==>
      && chart.labels[i] == hourLabel(hours[i].datetimeEpoch)
      && chart.datasets[0].data[i] == hours[i].temp
      && chart.datasets[1].data[i] == hours[i].precipprob
    ensures chart.datasets[0].title == "Temperature (°" + Units.LabelsFor(unit).temperature + ")"
    ensures chart.datasets[0].yAxisID == "y"
    ensures chart.datasets[1].title == PrecipitationTitle && chart.datasets[1].yAxisID == "y1"
  {
    var labels := Map((hour: Hour) => hourLabel(hour.datetimeEpoch), hours);
    ChartData(
      labels,
      [ Dataset(Units.TemperatureTitle(unit), Map((hour: Hour) => hour.temp, hours), "y"),
        Dataset(PrecipitationTitle, Map((hour: Hour) => hour.precipprob, hours), "y1") ])
  }

  // ---------------------------------------------------------------------------
  // Hourly strip
  // ---------------------------------------------------------------------------

  /** One column of the hourly strip; every column but the last has a divider on its right. */
  datatype HourRow = HourRow(
    time: string,
    tag: Conditions.ConditionTag,
    temp: real,
    precipprob: real,
    divider: bool)

  function HourRowAt(hours: seq<Hour>, i: nat, hourLabel: int -> string): HourRow
    requires i < |hours|
  {
    HourRow(
      hourLabel(hours[i].datetimeEpoch),
      Conditions.Classify(hours[i].conditions),
      hours[i].temp,
      hours[i].precipprob,
      i != |hours| - 1)
  }

  /** The hourly strip: one column per hour of the first day, in provider order. */
  function HourlyRows(hours: seq<Hour>, hourLabel: int -> string): (rows: seq<HourRow>)
    ensures |rows| == |hours|
    ensures forall i :: 0 <= i < |hours| ==>
      && rows[i].time == hourLabel(hours[i].datetimeEpoch)
      && rows[i].tag == Conditions.Classify(hours[i].conditions)
      && rows[i].temp == hours[i].temp
      && rows[i].precipprob == hours[i].precipprob
    ensures forall i :: 0 <= i < |hours| ==> (rows[i].divider <==> i < |hours| - 1)
  {
    seq(|hours|, i requires 0 <= i < |hours| => HourRowAt(hours, i, hourLabel))
  }

  /**
   * The chart and the hourly strip show the same hours: the chart's labels and
   * series line up, entry by entry, with the strip's columns.
   */
  lemma ChartMatchesHourlyStrip(hours: seq<Hour>, unit: string, hourLabel: int -> string)
    ensures var chart, rows := PrepareChartData(hours, unit, hourLabel), HourlyRows(hours, hourLabel);
      && chart.labels == Map((row: HourRow) => row.time, rows)
      && chart.datasets[0].data == Map((row: HourRow) => row.temp, rows)
      && chart.datasets[1].data == Map((row: HourRow) => row.precipprob, rows)
  {
  }

  // ---------------------------------------------------------------------------
  // Daily list
  // ---------------------------------------------------------------------------

  datatype DayRow = DayRow(
    date: string,
    tag: Conditions.ConditionTag,
    tempmin: real,
    tempmax: real,
    precipprob: real)

  const TodayLabel: string := "Today"

  /** The date column: "Today" for the first day, the short formatted date after it. */
  function DayLabel(index: nat, day: Day, shortDate: int -> string): (date: string)
    ensures index == 0 ==> date == TodayLabel
    ensures index > 0 ==> date == shortDate(day.datetimeEpoch)
  {
    if index == 0 then TodayLabel else shortDate(day.datetimeEpoch)
  }

  /** The daily list: one row per day of the response, in provider order. */
  function DailyRows(days: seq<Day>, shortDate: int -> string): (rows: seq<DayRow>)
    ensures |rows| == |days|
    ensures |days| > 0 ==> rows[0].date == TodayLabel
    ensures forall i :: 0 < i < |days| ==> rows[i].date == shortDate(days[i].datetimeEpoch)
    ensures forall i :: 0 <= i < |days| ==>
      && rows[i].tag == Conditions.Classify(days[i].conditions)
      && rows[i].tempmin == days[i].tempmin
      && rows[i].tempmax == days[i].tempmax
      && rows[i].precipprob == days[i].precipprob
  {
    seq(|days|, i requires 0 <= i < |days| =>
      DayRow(
        DayLabel(i, days[i], shortDate),
        Conditions.Classify(days[i].conditions),
        days[i].tempmin,
        days[i].tempmax,
        days[i].precipprob))
  }

  // ---------------------------------------------------------------------------
  // Precipitation amount
  // ---------------------------------------------------------------------------

  /** What the precipitation tile shows before " mm": the provider's number, or the text "0". */
  datatype PrecipShown = Amount(mm: real) | ZeroText

  /**
   * `days[0].precip ? days[0].precip : "0"`: a missing, null, NaN or zero
   * amount all show as "0"; any other amount is shown as given.
   */
  function PrecipDisplay(precip: JsNum): (shown: PrecipShown)
    ensures shown == ZeroText <==> (precip == Num(0.0) || !precip.Num?)
    ensures shown.Amount? ==> precip == Num(shown.mm) && shown.mm != 0.0
  {
    if Truthy(precip) then Amount(precip.value) else ZeroText
  }
}
